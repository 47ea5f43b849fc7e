/**
 * The pieces of Go's `strings` and `sort` packages that the configuration
 * code leans on, over `string` (a sequence of runes): splitting and joining
 * around a separator, trimming white space, searching, counting, repeating,
 * and the order `sort.Strings` puts keys in.
 */
module Text {

  /** `unicode.IsSpace`: the white-space runes `strings.TrimSpace` removes. */
  predicate IsSpace(c: char)
  {
    c == ' ' || c == '\t' || c == '\n' || c == '\r' || c == '\U{B}' || c == '\U{C}' ||
    c == '\U{85}' || c == '\U{A0}' || c == '\U{1680}' || ('\U{2000}' <= c <= '\U{200A}') ||
    c == '\U{2028}' || c == '\U{2029}' || c == '\U{202F}' || c == '\U{205F}' || c == '\U{3000}'
  }

  function TrimLeft(s: string): (r: string)
    ensures |r| <= |s|
    ensures r == [] || !IsSpace(r[0])
  {
    if s != [] && IsSpace(s[0]) then TrimLeft(s[1..]) else s
  }

  function TrimRight(s: string): (r: string)
    ensures |r| <= |s|
    ensures r == [] || !IsSpace(r[|r| - 1])
  {
    if s != [] && IsSpace(s[|s| - 1]) then TrimRight(s[..|s| - 1]) else s
  }

  /** `strings.TrimSpace`: no white space left at either end. */
  function TrimSpace(s: string): (r: string)
    ensures |r| <= |s|
  {
    TrimRight(TrimLeft(s))
  }

  /** A string with no white space at either end. */
  predicate Trimmed(s: string)
  {
    s == [] || (!IsSpace(s[0]) && !IsSpace(s[|s| - 1]))
  }

  /** `TrimSpace` leaves exactly a trimmed string, and leaves a trimmed string alone. */
  lemma TrimSpaceTrims(s: string)
    ensures Trimmed(TrimSpace(s))
    ensures Trimmed(s) ==> TrimSpace(s) == s
  {
    var l := TrimLeft(s);
    var r := TrimRight(l);
    if r != [] {
      TrimRightPrefix(l);
      assert r[0] == l[0];
    }
  }

  lemma {:induction false} TrimRightPrefix(s: string)
    ensures TrimRight(s) == s[..|TrimRight(s)|]
  {
    if s != [] && IsSpace(s[|s| - 1]) {
      TrimRightPrefix(s[..|s| - 1]);
    }
  }

  /** Trimming keeps a run of the string's own runes: one it does not hold stays out. */
  lemma {:induction false} TrimSpaceWithout(s: string, c: char)
    requires c !in s
    ensures c !in TrimSpace(s)
  {
    TrimLeftWithout(s, c);
    TrimRightWithout(TrimLeft(s), c);
  }

  lemma {:induction false} TrimLeftWithout(s: string, c: char)
    requires c !in s
    ensures c !in TrimLeft(s)
  {
    if s != [] && IsSpace(s[0]) {
      assert c !in s[1..];
      TrimLeftWithout(s[1..], c);
    }
  }

  lemma {:induction false} TrimRightWithout(s: string, c: char)
    requires c !in s
    ensures c !in TrimRight(s)
  {
    if s != [] && IsSpace(s[|s| - 1]) {
      assert c !in s[..|s| - 1];
      TrimRightWithout(s[..|s| - 1], c);
    }
  }

  /** Every rune of `Repeat("\t", n)` is a tab. */
  lemma {:induction false} RepeatTabs(n: nat)
    ensures forall j | 0 <= j < |Repeat("\t", n)| :: Repeat("\t", n)[j] == '\t'
  {
    if n > 0 {
      RepeatTabs(n - 1);
      assert Repeat("\t", n) == "\t" + Repeat("\t", n - 1);
    }
  }

  /** Leading white space makes no difference to `TrimLeft`. */
  lemma {:induction false} TrimLeftSpaces(t: string, x: string)
    requires forall j | 0 <= j < |t| :: IsSpace(t[j])
    ensures TrimLeft(t + x) == TrimLeft(x)
  {
    if t == [] {
      assert t + x == x;
    } else {
      assert (t + x)[0] == t[0];
      assert (t + x)[1..] == t[1..] + x;
      TrimLeftSpaces(t[1..], x);
    }
  }

  /** A line that is indented by tabs and then trimmed trims down to what follows the tabs. */
  lemma TrimTabs(n: nat, x: string)
    requires Trimmed(x)
    ensures TrimSpace(Repeat("\t", n) + x) == x
  {
    RepeatTabs(n);
    TrimLeftSpaces(Repeat("\t", n), x);
    TrimSpaceTrims(x);
  }

  /** `strings.HasPrefix`. */
  predicate HasPrefix(s: string, p: string)
  {
    |p| <= |s| && s[..|p|] == p
  }

  /** `strings.IndexByte`: the first position of `c`, or -1. */
  function IndexOf(s: string, c: char): (i: int)
    ensures -1 <= i < |s|
    ensures i == -1 <==> c !in s
    ensures i >= 0 ==> s[i] == c && c !in s[..i]
  {
    if s == [] then -1
    else if s[0] == c then 0
    else
      var j := IndexOf(s[1..], c);
      assert s[1..][..if j < 0 then 0 else j] == s[1..1 + if j < 0 then 0 else j];
      if j < 0 then -1 else 1 + j
  }

  /** `strings.Count` of a single rune. */
  function Count(s: string, c: char): (n: nat)
    ensures n <= |s|
    ensures n == 0 <==> c !in s
  {
    if s == [] then 0 else (if s[0] == c then 1 else 0) + Count(s[1..], c)
  }

  /** `strings.Repeat` for a count that is not negative. */
  function Repeat(s: string, n: nat): (r: string)
    ensures |r| == n * |s|
  {
    if n == 0 then [] else s + Repeat(s, n - 1)
  }

  /** `strings.Split` around a single rune: the pieces between the separators. */
  function Split(s: string, sep: char): (parts: seq<string>)
    ensures |parts| >= 1
    decreases |s|
  {
    var i := IndexOf(s, sep);
    if i < 0 then [s] else [s[..i]] + Split(s[i + 1..], sep)
  }

  /** `strings.Join`. */
  function Join<T>(parts: seq<seq<T>>, sep: seq<T>): seq<T>
  {
    if parts == [] then []
    else if |parts| == 1 then parts[0]
    else parts[0] + sep + Join(parts[1..], sep)
  }

  /** None of the pieces holds the separator. */
  predicate NoneHolds(parts: seq<string>, sep: char)
  {
    forall i | 0 <= i < |parts| :: sep !in parts[i]
  }

  /** Joining the pieces of a split gives back the string. */
  lemma {:induction false} JoinSplit(s: string, sep: char)
    ensures Join(Split(s, sep), [sep]) == s
    decreases |s|
  {
    var i := IndexOf(s, sep);
    if i >= 0 {
      var rest := Split(s[i + 1..], sep);
      JoinSplit(s[i + 1..], sep);
      JoinCons(s[..i], s[i + 1..], sep, rest);
      assert s == s[..i] + [sep] + s[i + 1..];
    }
  }

  /** Joining one more piece in front of pieces that join to `b`. */
  lemma JoinCons<T>(a: seq<T>, b: seq<T>, sep: T, rest: seq<seq<T>>)
    requires |rest| >= 1 && Join(rest, [sep]) == b
    ensures Join([a] + rest, [sep]) == a + [sep] + b
  {
    assert ([a] + rest)[1..] == rest;
  }

  /** No piece of a split holds the separator. */
  lemma {:induction false} SplitNoneHolds(s: string, sep: char)
    ensures NoneHolds(Split(s, sep), sep)
    decreases |s|
  {
    var i := IndexOf(s, sep);
    if i >= 0 {
      var rest := Split(s[i + 1..], sep);
      SplitNoneHolds(s[i + 1..], sep);
      var parts := [s[..i]] + rest;
      assert Split(s, sep) == parts;
      forall j | 0 <= j < |parts| ensures sep !in parts[j] {
        if j > 0 { assert parts[j] == rest[j - 1]; }
      }
    }
  }

  /** Splitting pieces joined around a separator none of them holds gives back the pieces. */
  lemma {:induction false} SplitJoin(parts: seq<string>, sep: char)
    requires |parts| >= 1 && NoneHolds(parts, sep)
    ensures Split(Join(parts, [sep]), sep) == parts
  {
    if |parts| == 1 {
      assert sep !in parts[0];
    } else {
      var s := Join(parts, [sep]);
      var tail := Join(parts[1..], [sep]);
      assert s == parts[0] + [sep] + tail;
      assert sep !in parts[0];
      IndexAfter(parts[0], sep, tail);
      assert s[..|parts[0]|] == parts[0];
      assert s[|parts[0]| + 1..] == tail;
      SplitJoin(parts[1..], sep);
    }
  }

  /** The first separator in `a + [sep] + b` is the one right after `a` when `a` has none. */
  lemma {:induction false} IndexAfter(a: string, sep: char, b: string)
    requires sep !in a
    ensures IndexOf(a + [sep] + b, sep) == |a|
  {
    if a != [] {
      var s := a + [sep] + b;
      assert s[0] == a[0];
      assert s[1..] == a[1..] + [sep] + b;
      IndexAfter(a[1..], sep, b);
    }
  }

  /** The number of pieces is one more than the number of separators. */
  lemma {:induction false} SplitCount(s: string, sep: char)
    ensures |Split(s, sep)| == Count(s, sep) + 1
    decreases |s|
  {
    var i := IndexOf(s, sep);
    if i >= 0 {
      SplitCount(s[i + 1..], sep);
      CountAround(s, i, sep);
    }
  }

  /** Counting around the first separator. */
  lemma {:induction false} CountAround(s: string, i: nat, sep: char)
    requires i < |s| && s[i] == sep && sep !in s[..i]
    ensures Count(s, sep) == 1 + Count(s[i + 1..], sep)
  {
    if i > 0 {
      assert s[1..][..i - 1] == s[1..i];
      CountAround(s[1..], i - 1, sep);
      assert s[1..][i..] == s[i + 1..];
    }
  }

  /**
   * `sort.Strings` order: Go compares the UTF-8 bytes, and UTF-8 keeps the
   * order of the runes it encodes, so this compares rune by rune.
   */
  predicate Less(a: string, b: string)
    decreases |a|
  {
    (a == [] && b != []) ||
    (a != [] && b != [] && (a[0] < b[0] || (a[0] == b[0] && Less(a[1..], b[1..]))))
  }

  lemma {:induction false} LessIrreflexive(a: string)
    ensures !Less(a, a)
    decreases |a|
  {
    if a != [] {
      LessIrreflexive(a[1..]);
    }
  }

  lemma {:induction false} LessTransitive(a: string, b: string, c: string)
    requires Less(a, b) && Less(b, c)
    ensures Less(a, c)
    decreases |a|
  {
    if a != [] && a[0] == b[0] && b[0] == c[0] {
      LessTransitive(a[1..], b[1..], c[1..]);
    }
  }

  /** Any two different strings are ordered one way round, and only one. */
  lemma {:induction false} LessTotal(a: string, b: string)
    ensures a != b ==> Less(a, b) || Less(b, a)
    ensures !(Less(a, b) && Less(b, a))
    decreases |a|
  {
    if a != [] && b != [] && a[0] == b[0] {
      LessTotal(a[1..], b[1..]);
      if a[1..] == b[1..] {
        assert a == [a[0]] + a[1..];
        assert b == [b[0]] + b[1..];
      }
    }
  }

  /** Strictly increasing, as sorted distinct keys are. */
  predicate Sorted(ks: seq<string>)
  {
    forall i, j | 0 <= i < j < |ks| :: Less(ks[i], ks[j])
  }

  function Elems(ks: seq<string>): set<string>
  {
    set k | k in ks
  }

  /** Puts `x` before the first key not less than it. */
  function Insert(x: string, ks: seq<string>): (r: seq<string>)
    ensures |r| == |ks| + 1
  {
    if ks == [] || !Less(ks[0], x) then [x] + ks else [ks[0]] + Insert(x, ks[1..])
  }

  /** `sort.Strings`, as an insertion sort. */
  function SortStrings(ks: seq<string>): (r: seq<string>)
    ensures |r| == |ks|
  {
    if ks == [] then [] else Insert(ks[0], SortStrings(ks[1..]))
  }

  /** Inserting a new key into sorted keys keeps them sorted and adds just that key. */
  lemma {:induction false} InsertSorted(x: string, ks: seq<string>)
    requires Sorted(ks) && x !in ks
    ensures Sorted(Insert(x, ks))
    ensures Elems(Insert(x, ks)) == Elems(ks) + {x}
  {
    var r := Insert(x, ks);
    if ks == [] {
    } else if !Less(ks[0], x) {
      LessTotal(ks[0], x);
      forall i, j | 0 <= i < j < |r| ensures Less(r[i], r[j]) {
        if i == 0 {
          if j > 1 { LessTransitive(x, ks[0], ks[j - 1]); }
        }
      }
    } else {
      InsertSorted(x, ks[1..]);
      var t := Insert(x, ks[1..]);
      assert r == [ks[0]] + t;
      forall j | 0 <= j < |t| ensures Less(ks[0], t[j]) {
        assert t[j] in Elems(t);
        if t[j] != x {
          var k :| 0 <= k < |ks[1..]| && ks[1..][k] == t[j];
          assert ks[k + 1] == t[j];
        }
      }
      assert Elems(r) == {ks[0]} + Elems(t);
      assert Elems(ks) == {ks[0]} + Elems(ks[1..]);
    }
  }

  /** No key twice. */
  predicate Distinct(ks: seq<string>)
  {
    forall i, j | 0 <= i < j < |ks| :: ks[i] != ks[j]
  }

  /** Sorting distinct keys gives them strictly increasing, and the same keys. */
  lemma {:induction false} SortSorted(ks: seq<string>)
    requires Distinct(ks)
    ensures Sorted(SortStrings(ks))
    ensures Elems(SortStrings(ks)) == Elems(ks)
  {
    if ks != [] {
      SortSorted(ks[1..]);
      assert ks[0] !in Elems(ks[1..]);
      InsertSorted(ks[0], SortStrings(ks[1..]));
      assert Elems(ks) == {ks[0]} + Elems(ks[1..]);
    }
  }

  /** There is only one strictly increasing sequence of a given set of keys. */
  lemma {:induction false} SortedUnique(a: seq<string>, b: seq<string>)
    requires Sorted(a) && Sorted(b) && Elems(a) == Elems(b)
    ensures a == b
    decreases |a|
  {
    if a != [] {
      assert a[0] in Elems(b);
      assert b != [];
      if a[0] != b[0] {
        assert b[0] in Elems(a);
        var i :| 0 <= i < |a| && a[i] == b[0];
        var j :| 0 <= j < |b| && b[j] == a[0];
        LessTotal(a[0], b[0]);
      }
      SortedTail(a);
      SortedTail(b);
      SortedUnique(a[1..], b[1..]);
      assert a == [a[0]] + a[1..];
      assert b == [b[0]] + b[1..];
    } else {
      ElemsEmpty(b);
    }
  }

  lemma ElemsEmpty(ks: seq<string>)
    ensures Elems(ks) == {} <==> ks == []
  {
    if ks != [] {
      assert ks[0] in Elems(ks);
    }
  }

  /** The head of a strictly increasing sequence is not in its tail. */
  lemma SortedTail(a: seq<string>)
    requires Sorted(a) && a != []
    ensures Sorted(a[1..])
    ensures Elems(a[1..]) == Elems(a) - {a[0]}
  {
    forall i | 1 <= i < |a| ensures a[i] != a[0] {
      LessTotal(a[0], a[i]);
    }
    assert a == [a[0]] + a[1..];
  }

  /** Every finite set of keys has a sorted enumeration. */
  lemma {:induction false} SortedExists(s: set<string>)
    ensures exists ks :: Sorted(ks) && Elems(ks) == s
    decreases |s|
  {
    if s == {} {
      assert Sorted([]) && Elems([]) == s;
    } else {
      var x :| x in s;
      SortedExists(s - {x});
      var ks :| Sorted(ks) && Elems(ks) == s - {x};
      InsertSorted(x, ks);
    }
  }

  /** The keys of a set in increasing order. */
  ghost function SortedKeys(s: set<string>): (ks: seq<string>)
    ensures Sorted(ks) && Elems(ks) == s
  {
    SortedExists(s);
    var ks :| Sorted(ks) && Elems(ks) == s;
    ks
  }

  /** A strictly increasing sequence has no key twice. */
  lemma SortedDistinct(ks: seq<string>)
    requires Sorted(ks)
    ensures Distinct(ks)
  {
    forall i, j | 0 <= i < j < |ks| ensures ks[i] != ks[j] {
      LessIrreflexive(ks[i]);
    }
  }
}
