/**
 * The flat key/value map behind a configuration, and its two printed forms:
 * `PrettyMap`, one `"key": value` line per key in sorted order, and
 * `fileOutput`, the indented form a configuration file is saved in, where
 * a dotted key `a.b.c` is written under a `b:` section header and indented
 * by one tab per dot.
 */
module ConfigMap {
  import opened Opt
  import opened Text

  /**
   * `for k := range m { keys = append(keys, k) }`: every key once, in an
   * order Go leaves unspecified (here: whichever key is picked first).
   */
  method CollectKeys(m: map<string, string>) returns (keys: seq<string>)
    ensures Distinct(keys) && Elems(keys) == m.Keys
  {
    keys := [];
    var rest := m.Keys;
    while rest != {}
      invariant Distinct(keys)
      invariant Elems(keys) !! rest && Elems(keys) + rest == m.Keys
      decreases |rest|
    {
      var k :| k in rest;
      assert k !in Elems(keys);
      keys := keys + [k];
      rest := rest - {k};
    }
  }

  /** The keys, collected and then put through `sort.Strings`, are the map's keys in increasing order. */
  method SortedKeysOf(m: map<string, string>) returns (keys: seq<string>)
    ensures keys == SortedKeys(m.Keys)
  {
    keys := CollectKeys(m);
    SortSorted(keys);
    keys := SortStrings(keys);
    SortedUnique(keys, SortedKeys(m.Keys));
  }

  /** A lower-case hexadecimal digit. */
  function LowerHex(v: nat): char
    requires v < 16
  {
    if v < 10 then ('0' as int + v) as char else ('a' as int + v - 10) as char
  }

  /**
   * How `strconv.Quote` writes one rune: the named escapes, `\xNN` for the
   * other control characters, and every other rune as it is.
   */
  function EscapeRune(c: char): (r: string)
    ensures '\n' !in r
  {
    if c == '"' then "\\\""
    else if c == '\\' then "\\\\"
    else if c == '\U{7}' then "\\a"
    else if c == '\U{8}' then "\\b"
    else if c == '\U{C}' then "\\f"
    else if c == '\n' then "\\n"
    else if c == '\r' then "\\r"
    else if c == '\t' then "\\t"
    else if c == '\U{B}' then "\\v"
    else if c < ' ' || c == '\U{7F}' then "\\x" + [LowerHex(c as int / 16), LowerHex(c as int % 16)]
    else [c]
  }

  function Escape(s: string): (r: string)
    ensures '\n' !in r
  {
    if s == [] then [] else EscapeRune(s[0]) + Escape(s[1..])
  }

  /** `%q`: the key in double quotes, escaped so that it fits on one line. */
  function Quote(s: string): (r: string)
    ensures '\n' !in r
  {
    "\"" + Escape(s) + "\""
  }

  /** One line of `PrettyMap`. */
  function PrettyLine(m: map<string, string>, k: string): string
    requires k in m
  {
    Quote(k) + ": " + m[k]
  }

  /** The `PrettyMap` lines of some keys of the map, in the keys' order. */
  function PrettyLines(m: map<string, string>, keys: seq<string>): (r: seq<string>)
    requires Elems(keys) <= m.Keys
    ensures |r| == |keys|
  {
    seq(|keys|, i requires 0 <= i < |keys| => assert keys[i] in Elems(keys); PrettyLine(m, keys[i]))
  }

  /** What `PrettyMap` returns: a line per key, the keys in increasing order. */
  ghost function Pretty(m: map<string, string>): string
  {
    Join(PrettyLines(m, SortedKeys(m.Keys)), "\n")
  }

  /** `PrettyMap`: sorts the keys, formats a line for each, and joins them with newlines. */
  method PrettyMap(m: map<string, string>) returns (r: string)
    ensures r == Pretty(m)
  {
    var keys := SortedKeysOf(m);
    var values: seq<string> := [];
    for i := 0 to |keys|
      invariant values == PrettyLines(m, keys[..i])
    {
      assert keys[i] in Elems(keys);
      values := values + [PrettyLine(m, keys[i])];
    }
    assert keys[..|keys|] == keys;
    r := Join(values, "\n");
  }

  /** `Map.String`: the pretty lines between `Map{` and `}`. */
  method MapString(m: map<string, string>) returns (r: string)
    ensures r == "Map{\n" + Pretty(m) + "\n}"
  {
    var p := PrettyMap(m);
    r := "Map{\n" + p + "\n}";
  }

  /**
   * When no value holds a newline, the lines of `PrettyMap` are exactly one
   * per key, in increasing key order, each starting with the quoted key.
   */
  lemma PrettyMapLines(m: map<string, string>)
    requires m != map[]
    requires forall k | k in m :: '\n' !in m[k]
    ensures var ks := SortedKeys(m.Keys);
      Split(Pretty(m), '\n') == PrettyLines(m, ks) &&
      Sorted(ks) && Elems(ks) == m.Keys
  {
    var ks := SortedKeys(m.Keys);
    var ls := PrettyLines(m, ks);
    ElemsEmpty(ks);
    forall i | 0 <= i < |ls| ensures '\n' !in ls[i] {
      assert ks[i] in Elems(ks);
      assert ls[i] == Quote(ks[i]) + ": " + m[ks[i]];
    }
    SplitJoin(ls, '\n');
  }

  /** A line of the saved file: a section header, or a key and its value. */
  datatype Line = Header(depth: nat, name: string) | Pair(depth: nat, key: string, value: string)

  /** The text of a line, indented by one tab per level. */
  function Render(l: Line): string
  {
    match l
    case Header(d, name) => Repeat("\t", d) + name + ":"
    case Pair(d, key, value) => Repeat("\t", d) + key + ": " + value
  }

  function RenderAll(ls: seq<Line>): (r: seq<string>)
    ensures |r| == |ls|
  {
    seq(|ls|, i requires 0 <= i < |ls| => Render(ls[i]))
  }

  /** The empty string is saved as "-". */
  function Marker(v: string): (r: string)
    ensures r != ""
    ensures r == "-" <==> v == "" || v == "-"
  {
    if v == "" then "-" else v
  }

  /**
   * `fileOutput` as written, or with a key that has no dot written as a
   * plain `key: value` line (as written, its header would be indented by
   * `strings.Repeat("\t", -1)`, which panics).
   */
  datatype Mode = AsWritten | Intended

  /** The last dot-separated component of a key. */
  function LastPart(k: string): string
  {
    var parts := Split(k, '.');
    parts[|parts| - 1]
  }

  /**
   * The lines one key adds, the headers seen after it, and the value the
   * `key` variable keeps for the next key; `None` is the panic.
   */
  function KeyStep(mode: Mode, m: map<string, string>, k: string, headers: set<string>, last: string)
    : (r: Option<(seq<Line>, set<string>, string)>)
    requires k in m
  {
    var parts := Split(k, '.');
    var dots := Count(k, '.');
    SplitCount(k, '.');
    var value := Marker(m[k]);
    if dots == 0 then
      if mode == Intended then Some(([Pair(0, k, value)], headers, k))
      else if "" in headers then Some(([Pair(0, last, value)], headers, last))
      else None
    else
      var key := parts[dots];
      var h := parts[dots - 1];
      var head := if h in headers then [] else [Header(dots - 1, h)];
      Some((head + [Pair(dots, key, value)], headers + {h}, key))
  }

  /** The lines for the given keys, in their order. */
  function Lines(mode: Mode, m: map<string, string>, keys: seq<string>, headers: set<string>, last: string)
    : (r: Option<seq<Line>>)
    requires Elems(keys) <= m.Keys
  {
    if keys == [] then Some([])
    else
      assert keys[0] in Elems(keys);
      match KeyStep(mode, m, keys[0], headers, last)
      case None => None
      case Some((ls, hs, key)) =>
        match Lines(mode, m, keys[1..], hs, key)
        case None => None
        case Some(rest) => Some(ls + rest)
  }

  /** What `fileOutput` returns: the lines for the sorted keys, joined by newlines. */
  ghost function Output(mode: Mode, m: map<string, string>): Option<string>
  {
    match Lines(mode, m, SortedKeys(m.Keys), {}, "")
    case None => None
    case Some(ls) => Some(Join(RenderAll(ls), "\n"))
  }

  /** `fileOutput`: `None` where the program panics. */
  method FileOutput(mode: Mode, m: map<string, string>) returns (r: Option<string>)
    ensures r == Output(mode, m)
  {
    var keys := SortedKeysOf(m);
    var headers: set<string> := {};
    var values: seq<string> := [];
    var key := "";
    ghost var done: seq<Line> := [];
    assert keys[0..] == keys;
    ThenNothing(Lines(mode, m, keys, {}, ""));
    for i := 0 to |keys|
      invariant values == RenderAll(done)
      invariant Lines(mode, m, keys, {}, "") == Then(done, Lines(mode, m, keys[i..], headers, key))
    {
      assert keys[i] in Elems(keys);
      var step := WriteKey(mode, m, keys[i], headers, key);
      if step.None? {
        LinesPanic(mode, m, keys, i, done, headers, key);
        return None;
      }
      var (added, headers', key') := step.value;
      LinesNext(mode, m, keys, i, done, headers, key, added, headers', key');
      RenderAllAppend(done, added);
      values := values + RenderAll(added);
      done := done + added;
      headers, key := headers', key';
    }
    assert keys[|keys|..] == [];
    assert Lines(mode, m, keys, {}, "") == Some(done + []);
    assert done + [] == done;
    r := Some(Join(values, "\n"));
  }

  /**
   * The body of `fileOutput`'s loop for one key: the header line of its
   * parent component unless already written, then its key/value line.
   */
  method WriteKey(mode: Mode, m: map<string, string>, k: string, headers: set<string>, last: string)
    returns (r: Option<(seq<Line>, set<string>, string)>)
    requires k in m
    ensures r == KeyStep(mode, m, k, headers, last)
  {
    var parts := Split(k, '.');
    var dots := Count(k, '.');
    SplitCount(k, '.');
    var key, h := last, "";
    if dots > 0 {
      key := parts[dots];
      h := parts[dots - 1];
    } else if mode == Intended {
      key := k;
    }
    var lines: seq<Line> := [];
    var seen := headers;
    if (mode == AsWritten || dots > 0) && h !in headers {
      if dots == 0 {
        StepDotlessAsWritten(m, k, headers, last);
        return None;
      }
      seen := headers + {h};
      lines := [Header(dots - 1, h)];
    }
    lines := lines + [Pair(dots, key, Marker(m[k]))];
    r := Some((lines, seen, key));
    if dots > 0 {
      StepDotted(mode, m, k, headers, last);
      assert seen == headers + {h};
    } else if mode == Intended {
      StepDotlessIntended(m, k, headers, last);
      assert lines == [Pair(0, k, Marker(m[k]))];
    } else {
      StepDotlessAsWritten(m, k, headers, last);
      assert "" in headers && lines == [Pair(0, last, Marker(m[k]))];
    }
  }

  lemma RenderAllAppend(a: seq<Line>, b: seq<Line>)
    ensures RenderAll(a + b) == RenderAll(a) + RenderAll(b)
  {
  }

  /** The lines written so far, followed by the lines still to come unless they panic. */
  function Then(done: seq<Line>, rest: Option<seq<Line>>): Option<seq<Line>>
  {
    match rest
    case None => None
    case Some(ls) => Some(done + ls)
  }

  /** A key whose step panics makes the whole output panic. */
  lemma LinesPanic(mode: Mode, m: map<string, string>, keys: seq<string>, i: nat, done: seq<Line>,
                   headers: set<string>, key: string)
    requires i < |keys| && Elems(keys) <= m.Keys && keys[i] in m
    requires Lines(mode, m, keys, {}, "") == Then(done, Lines(mode, m, keys[i..], headers, key))
    requires KeyStep(mode, m, keys[i], headers, key) == None
    ensures Lines(mode, m, keys, {}, "") == None
  {
    assert keys[i..][0] == keys[i];
  }

  /** After one key, the lines written so far grow by that key's lines. */
  lemma LinesNext(mode: Mode, m: map<string, string>, keys: seq<string>, i: nat, done: seq<Line>,
                  headers: set<string>, key: string, added: seq<Line>, headers': set<string>, key': string)
    requires i < |keys| && Elems(keys) <= m.Keys && keys[i] in m
    requires Lines(mode, m, keys, {}, "") == Then(done, Lines(mode, m, keys[i..], headers, key))
    requires KeyStep(mode, m, keys[i], headers, key) == Some((added, headers', key'))
    ensures Lines(mode, m, keys, {}, "") == Then(done + added, Lines(mode, m, keys[i + 1..], headers', key'))
  {
    var ks := keys[i..];
    assert ks[0] == keys[i];
    assert ks[1..] == keys[i + 1..];
    var rest := Lines(mode, m, keys[i + 1..], headers', key');
    assert Lines(mode, m, ks, headers, key) == Then(added, rest);
    if rest.Some? {
      assert done + (added + rest.value) == (done + added) + rest.value;
    }
  }

  lemma ThenNothing(r: Option<seq<Line>>)
    ensures Then([], r) == r
  {
    if r.Some? {
      assert [] + r.value == r.value;
    }
  }

  /** The names of the section headers among the lines, in order. */
  function HeaderNames(ls: seq<Line>): seq<string>
  {
    if ls == [] then [] else (if ls[0].Header? then [ls[0].name] else []) + HeaderNames(ls[1..])
  }

  /** The key/value lines among the lines, in order. */
  function Pairs(ls: seq<Line>): seq<Line>
  {
    if ls == [] then [] else (if ls[0].Pair? then [ls[0]] else []) + Pairs(ls[1..])
  }

  lemma {:induction false} HeaderNamesAppend(a: seq<Line>, b: seq<Line>)
    ensures HeaderNames(a + b) == HeaderNames(a) + HeaderNames(b)
  {
    if a == [] {
      assert a + b == b;
    } else {
      var h := if a[0].Header? then [a[0].name] else [];
      assert (a + b)[0] == a[0];
      assert (a + b)[1..] == a[1..] + b;
      HeaderNamesAppend(a[1..], b);
      assert HeaderNames(a + b) == h + (HeaderNames(a[1..]) + HeaderNames(b));
      assert h + (HeaderNames(a[1..]) + HeaderNames(b)) == (h + HeaderNames(a[1..])) + HeaderNames(b);
    }
  }

  lemma {:induction false} PairsAppend(a: seq<Line>, b: seq<Line>)
    ensures Pairs(a + b) == Pairs(a) + Pairs(b)
  {
    if a == [] {
      assert a + b == b;
    } else {
      var p := if a[0].Pair? then [a[0]] else [];
      assert (a + b)[0] == a[0];
      assert (a + b)[1..] == a[1..] + b;
      PairsAppend(a[1..], b);
      assert Pairs(a + b) == p + (Pairs(a[1..]) + Pairs(b));
      assert p + (Pairs(a[1..]) + Pairs(b)) == (p + Pairs(a[1..])) + Pairs(b);
    }
  }

  lemma DistinctAppend(a: seq<string>, b: seq<string>)
    requires Distinct(a) && Distinct(b) && Elems(a) !! Elems(b)
    ensures Distinct(a + b) && Elems(a + b) == Elems(a) + Elems(b)
  {
    forall i, j | 0 <= i < j < |a + b| ensures (a + b)[i] != (a + b)[j] {
      if i < |a| && j >= |a| {
        assert (a + b)[i] in Elems(a);
        assert (a + b)[j] in Elems(b);
      }
    }
  }

  /**
   * Each section header is written at most once, the first time it is
   * seen: no header is repeated, and none that was seen before is written.
   */
  lemma {:induction false} HeadersOnce(mode: Mode, m: map<string, string>, keys: seq<string>,
                                       headers: set<string>, last: string)
    requires Elems(keys) <= m.Keys
    requires Lines(mode, m, keys, headers, last).Some?
    ensures var names := HeaderNames(Lines(mode, m, keys, headers, last).value);
      Distinct(names) && Elems(names) !! headers
  {
    if keys != [] {
      assert keys[0] in Elems(keys);
      var step := KeyStep(mode, m, keys[0], headers, last).value;
      assert Elems(keys[1..]) <= Elems(keys);
      HeadersOnce(mode, m, keys[1..], step.1, step.2);
      var rest := Lines(mode, m, keys[1..], step.1, step.2).value;
      HeaderNamesAppend(step.0, rest);
      StepHeaders(mode, m, keys[0], headers, last);
      DistinctAppend(HeaderNames(step.0), HeaderNames(rest));
    }
  }

  /** One key writes at most one header, one not seen before, and then counts it as seen. */
  lemma StepHeaders(mode: Mode, m: map<string, string>, k: string, headers: set<string>, last: string)
    requires k in m && KeyStep(mode, m, k, headers, last).Some?
    ensures var step := KeyStep(mode, m, k, headers, last).value;
      var names := HeaderNames(step.0);
      Distinct(names) && Elems(names) !! headers && step.1 == headers + Elems(names) + (step.1 - headers) &&
      Elems(names) <= step.1 && headers <= step.1
  {
    var step := KeyStep(mode, m, k, headers, last).value;
    HeaderNamesAppend(step.0[..|step.0| - 1], [step.0[|step.0| - 1]]);
    assert step.0 == step.0[..|step.0| - 1] + [step.0[|step.0| - 1]];
  }

  /**
   * One key/value line per key, in the keys' order: indented by one tab per
   * dot in the key, with "-" for an empty value; corrected, the line names
   * the key's last component.
   */
  lemma {:induction false} PairsFollowKeys(mode: Mode, m: map<string, string>, keys: seq<string>,
                                           headers: set<string>, last: string)
    requires Elems(keys) <= m.Keys
    requires Lines(mode, m, keys, headers, last).Some?
    ensures var ps := Pairs(Lines(mode, m, keys, headers, last).value);
      |ps| == |keys| &&
      forall j | 0 <= j < |ps| ::
        keys[j] in m && ps[j].Pair? && ps[j].depth == Count(keys[j], '.') && ps[j].value == Marker(m[keys[j]]) &&
        (mode == Intended ==> ps[j].key == LastPart(keys[j]))
  {
    if keys != [] {
      assert keys[0] in Elems(keys);
      var step := KeyStep(mode, m, keys[0], headers, last).value;
      assert Elems(keys[1..]) <= Elems(keys);
      PairsFollowKeys(mode, m, keys[1..], step.1, step.2);
      var rest := Lines(mode, m, keys[1..], step.1, step.2).value;
      PairsAppend(step.0, rest);
      StepPair(mode, m, keys[0], headers, last);
      var ps := Pairs(step.0 + rest);
      assert ps == Pairs(step.0) + Pairs(rest);
      forall j | 0 <= j < |ps|
        ensures keys[j] in m && ps[j].Pair? && ps[j].depth == Count(keys[j], '.') && ps[j].value == Marker(m[keys[j]]) &&
          (mode == Intended ==> ps[j].key == LastPart(keys[j]))
      {
        assert keys[j] in Elems(keys);
        if j == 0 {
          assert ps[0] == Pairs(step.0)[0];
        } else {
          assert ps[j] == Pairs(rest)[j - 1];
          assert keys[j] == keys[1..][j - 1];
        }
      }
    }
  }

  /** A key with dots: a header for its parent component unless seen, then its line. */
  lemma StepDotted(mode: Mode, m: map<string, string>, k: string, headers: set<string>, last: string)
    requires k in m && Count(k, '.') > 0
    ensures var d := Count(k, '.');
      var parts := Split(k, '.');
      var r := KeyStep(mode, m, k, headers, last);
      |parts| == d + 1 && r.Some? && r.value.1 == headers + {parts[d - 1]} && r.value.2 == parts[d] &&
      r.value.0 == (if parts[d - 1] in headers then [] else [Header(d - 1, parts[d - 1])]) +
        [Pair(d, parts[d], Marker(m[k]))]
  {
    SplitCount(k, '.');
  }

  /** A key with no dot, corrected: its line alone. */
  lemma StepDotlessIntended(m: map<string, string>, k: string, headers: set<string>, last: string)
    requires k in m && Count(k, '.') == 0
    ensures Split(k, '.') == [k]
    ensures KeyStep(Intended, m, k, headers, last) == Some(([Pair(0, k, Marker(m[k]))], headers, k))
  {
    SplitCount(k, '.');
  }

  /** A key with no dot, as written: a panic, unless the empty header was seen. */
  lemma StepDotlessAsWritten(m: map<string, string>, k: string, headers: set<string>, last: string)
    requires k in m && Count(k, '.') == 0
    ensures var r := KeyStep(AsWritten, m, k, headers, last);
      (r.None? <==> "" !in headers) && (r.Some? ==> r.value == ([Pair(0, last, Marker(m[k]))], headers, last))
  {
  }

  /** One key writes exactly one key/value line, the last of its lines. */
  lemma StepPair(mode: Mode, m: map<string, string>, k: string, headers: set<string>, last: string)
    requires k in m && KeyStep(mode, m, k, headers, last).Some?
    ensures var ps := Pairs(KeyStep(mode, m, k, headers, last).value.0);
      |ps| == 1 && ps[0].Pair? && ps[0].depth == Count(k, '.') && ps[0].value == Marker(m[k]) &&
      (mode == Intended ==> ps[0].key == LastPart(k))
  {
    var d := Count(k, '.');
    if d > 0 {
      StepDotted(mode, m, k, headers, last);
      var parts := Split(k, '.');
      var h := if parts[d - 1] in headers then [] else [Header(d - 1, parts[d - 1])];
      HeaderThenPair(h, Pair(d, parts[d], Marker(m[k])));
    } else if mode == Intended {
      StepDotlessIntended(m, k, headers, last);
      HeaderThenPair([], Pair(0, k, Marker(m[k])));
    } else {
      StepDotlessAsWritten(m, k, headers, last);
      HeaderThenPair([], Pair(0, last, Marker(m[k])));
    }
  }

  /** At most one header and then a key/value line: that line is the only one. */
  lemma HeaderThenPair(h: seq<Line>, p: Line)
    requires |h| <= 1 && (h != [] ==> h[0].Header?) && p.Pair?
    ensures Pairs(h + [p]) == [p]
  {
    PairsAppend(h, [p]);
    assert Pairs([p]) == [p];
    if h != [] {
      assert Pairs(h) == [] + Pairs(h[1..]);
    }
  }

  /** The parent component of a dotted key (the one its header names) is not empty. */
  predicate ParentNamed(k: string)
  {
    var parts := Split(k, '.');
    |parts| < 2 || parts[|parts| - 2] != ""
  }

  /**
   * As written, a key with no dot panics unless a key before it has put the
   * empty header "" among the seen ones, which only a key with an empty
   * parent component does.
   */
  lemma {:induction false} DotlessKeyPanics(m: map<string, string>, keys: seq<string>, headers: set<string>,
                                            last: string, j: nat)
    requires Elems(keys) <= m.Keys && "" !in headers
    requires j < |keys| && Count(keys[j], '.') == 0
    requires forall i | 0 <= i < j :: ParentNamed(keys[i])
    ensures Lines(AsWritten, m, keys, headers, last) == None
  {
    var k := keys[0];
    assert k in Elems(keys);
    if j == 0 {
      StepDotlessAsWritten(m, k, headers, last);
    } else {
      assert ParentNamed(k);
      SplitCount(k, '.');
      var step := KeyStep(AsWritten, m, k, headers, last);
      if Count(k, '.') > 0 {
        StepDotted(AsWritten, m, k, headers, last);
        assert "" !in step.value.1;
      } else {
        StepDotlessAsWritten(m, k, headers, last);
      }
      if step.Some? {
        assert Elems(keys[1..]) <= Elems(keys);
        assert keys[1..][j - 1] == keys[j];
        forall i | 0 <= i < j - 1 ensures ParentNamed(keys[1..][i]) {
          assert keys[1..][i] == keys[i + 1];
        }
        DotlessKeyPanics(m, keys[1..], step.value.1, step.value.2, j - 1);
      }
    }
  }

  /** The corrected output never panics. */
  lemma {:induction false} IntendedNeverPanics(m: map<string, string>, keys: seq<string>, headers: set<string>,
                                               last: string)
    requires Elems(keys) <= m.Keys
    ensures Lines(Intended, m, keys, headers, last).Some?
  {
    if keys != [] {
      assert keys[0] in Elems(keys);
      var step := KeyStep(Intended, m, keys[0], headers, last);
      assert Elems(keys[1..]) <= Elems(keys);
      IntendedNeverPanics(m, keys[1..], step.value.1, step.value.2);
    }
  }

  /**
   * `fileOutput` as written panics on a map holding just `port: 25565`; the
   * corrected one writes that line.
   */
  lemma TopLevelKeyAsWritten()
    ensures Output(AsWritten, map["port" := "25565"]) == None
    ensures Output(Intended, map["port" := "25565"]) == Some("port: 25565")
  {
    var m := map["port" := "25565"];
    var ks := SortedKeys(m.Keys);
    assert Sorted(["port"]) && Elems(["port"]) == m.Keys;
    SortedUnique(ks, ["port"]);
    assert Split("port", '.') == ["port"];
    DotlessKeyPanics(m, ks, {}, "", 0);
    StepDotlessIntended(m, "port", {}, "");
    assert ks == ["port"] && ks[1..] == [];
    assert Marker("25565") == "25565";
    assert Lines(Intended, m, ks[1..], {}, "port") == Some([]);
    assert KeyStep(Intended, m, ks[0], {}, "") == Some(([Pair(0, "port", "25565")], {}, "port"));
    assert [Pair(0, "port", "25565")] + [] == [Pair(0, "port", "25565")];
    assert Lines(Intended, m, ks, {}, "") == Some([Pair(0, "port", "25565")]);
    assert Repeat("\t", 0) == [];
    assert Render(Pair(0, "port", "25565")) == "port: 25565";
    assert RenderAll([Pair(0, "port", "25565")]) == ["port: 25565"];
  }
}
