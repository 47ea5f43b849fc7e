/**
 * The navigator's helpers: paths through a tree of NBT compounds, resolved
 * against the current path the way `path.Clean` cleans them, the tag a
 * path names, the hexadecimal preview of a byte array, and tag type names.
 *
 * A path is a Go string, so a sequence of bytes here, as the keys of a
 * compound are.
 */
module NbtNav {
  import opened Integers
  import opened Opt
  import opened NbtTag
  import NbtLaws
  import Text
  import Uuid
  import Packets

  type Path = seq<Byte>

  const Slash: Byte := '/' as Byte
  const Dot: Byte := '.' as Byte
  const DotDot: Path := [Dot, Dot]

  predicate Rooted(p: Path)
  {
    p != [] && p[0] == Slash
  }

  // ---------------------------------------------------------------------------
  // `path.Clean`: one slash between elements, no "." element, each ".." with
  // the element before it removed, no ".." at the start of a rooted path, and
  // "." for a path that is left empty.

  /** One element of a path, added to the elements kept so far. */
  function Push(stack: seq<Path>, e: Path, rooted: bool): seq<Path>
  {
    if e == [] || e == [Dot] then stack
    else if e == DotDot then
      if stack != [] && stack[|stack| - 1] != DotDot then stack[..|stack| - 1]
      else if rooted then stack
      else stack + [e]
    else stack + [e]
  }

  /** The elements kept from the rest of a path, its slash-separated pieces pushed in order. */
  function Elements(rest: Path, stack: seq<Path>, rooted: bool): seq<Path>
    decreases |rest|
  {
    if rest == [] then stack
    else
      var i := FirstSlash(rest);
      var next := Push(stack, rest[..i], rooted);
      if i < |rest| then Elements(rest[i + 1..], next, rooted) else next
  }

  /** The path the kept elements spell. */
  function Spell(stack: seq<Path>, rooted: bool): (r: Path)
    ensures r != []
  {
    var r := (if rooted then [Slash] else []) + Text.Join(stack, [Slash]);
    if r == [] then [Dot] else r
  }

  /** `path.Clean`. */
  function Clean(p: Path): (r: Path)
    ensures r != []
  {
    if p == [] then [Dot] else Spell(Elements(p, [], Rooted(p)), Rooted(p))
  }

  /** `path.Join` of two elements: the non-empty ones joined by a slash, then cleaned. */
  function JoinPaths(from: Path, to: Path): Path
  {
    if from == [] && to == [] then []
    else if from == [] then Clean(to)
    else if to == [] then Clean(from)
    else Clean(from + [Slash] + to)
  }

  /** `resolve`: an absolute `to` is cleaned alone, a relative one is joined to `from`. */
  function Resolve(from: Path, to: Path): (r: Path)
    ensures r != []
  {
    if Rooted(to) then Clean(to) else Clean(JoinPaths(from, to))
  }

  /**
   * What the kept elements can be: no empty element, no "." and no slash
   * in any; ".." only at the start, and never in a rooted path.
   */
  predicate Canonical(stack: seq<Path>, rooted: bool)
  {
    forall i | 0 <= i < |stack| ::
      stack[i] != [] && stack[i] != [Dot] && Slash !in stack[i] &&
      (stack[i] == DotDot ==> !rooted && forall j | 0 <= j < i :: stack[j] == DotDot)
  }

  lemma PushCanonical(stack: seq<Path>, e: Path, rooted: bool)
    requires Canonical(stack, rooted) && Slash !in e
    ensures Canonical(Push(stack, e, rooted), rooted)
  {
    var r := Push(stack, e, rooted);
    if e != [] && e != [Dot] && e != DotDot {
      forall i | 0 <= i < |r| && r[i] == DotDot ensures !rooted && forall j | 0 <= j < i :: r[j] == DotDot {
        assert i < |stack|;
      }
    } else if e == DotDot && r == stack + [e] {
      assert !rooted;
      assert stack == [] || stack[|stack| - 1] == DotDot;
      forall j | 0 <= j < |stack| ensures stack[j] == DotDot {
        assert stack[|stack| - 1] == DotDot;
      }
    }
  }

  lemma {:induction false} ElementsCanonical(rest: Path, stack: seq<Path>, rooted: bool)
    requires Canonical(stack, rooted)
    ensures Canonical(Elements(rest, stack, rooted), rooted)
    decreases |rest|
  {
    if rest != [] {
      var i := FirstSlash(rest);
      var e := rest[..i];
      assert Slash !in e;
      PushCanonical(stack, e, rooted);
      if i < |rest| {
        ElementsCanonical(rest[i + 1..], Push(stack, e, rooted), rooted);
      }
    }
  }

  /** The first slash of a joined path is the one after its first element. */
  lemma FirstSlashAfter(a: Path, b: Path)
    requires Slash !in a
    ensures FirstSlash(a + [Slash] + b) == |a|
  {
    assert FirstSlash(a) == |a|;
    NbtLaws.FirstSlashOfJoin(a, [Slash] + b);
    assert a + [Slash] + b == a + ([Slash] + b);
  }

  /** Pushing the elements of a canonical path keeps every one of them. */
  lemma {:induction false} ElementsOfSpelled(st: seq<Path>, acc: seq<Path>, rooted: bool)
    requires st != [] && Canonical(acc + st, rooted)
    ensures Elements(Text.Join(st, [Slash]), acc, rooted) == acc + st
    decreases |st|
  {
    var e := st[0];
    assert (acc + st)[|acc|] == e;
    assert Push(acc, e, rooted) == acc + [e] by {
      if e == DotDot {
        assert forall j | 0 <= j < |acc| :: (acc + st)[j] == acc[j];
      }
    }
    if |st| == 1 {
      assert Text.Join(st, [Slash]) == e;
      assert FirstSlash(e) == |e|;
      assert e[..|e|] == e;
    } else {
      var tail := Text.Join(st[1..], [Slash]);
      var p := Text.Join(st, [Slash]);
      assert p == e + [Slash] + tail;
      FirstSlashAfter(e, tail);
      assert p[..|e|] == e;
      assert p[|e| + 1..] == tail;
      assert acc + st == (acc + [e]) + st[1..];
      ElementsOfSpelled(st[1..], acc + [e], rooted);
    }
  }

  /** Cleaning a path that is already clean changes nothing. */
  lemma CleanTwice(p: Path)
    ensures Clean(Clean(p)) == Clean(p)
  {
    if p != [] {
      var rooted := Rooted(p);
      var st := Elements(p, [], rooted);
      ElementsCanonical(p, [], rooted);
      var q := Clean(p);
      if st == [] {
        if rooted {
          assert q == [Slash];
          assert FirstSlash(q) == 0;
          assert Elements(q, [], true) == [];
        } else {
          assert q == [Dot];
          assert Elements(q, [], false) == [];
        }
      } else {
        var body := Text.Join(st, [Slash]);
        ElementsOfSpelled(st, [], rooted);
        assert [] + st == st;
        if rooted {
          assert q == [Slash] + body;
          assert FirstSlash(q) == 0;
          assert q[1..] == body;
          assert Elements(q, [], true) == Elements(body, [], true);
        } else {
          assert q == body;
          SpelledNotRooted(st);
        }
      }
    }
  }

  /** The spelling of relative elements does not start with a slash. */
  lemma SpelledNotRooted(st: seq<Path>)
    requires st != [] && Canonical(st, false)
    ensures Text.Join(st, [Slash]) != [] && Text.Join(st, [Slash])[0] != Slash
  {
    if |st| > 1 {
      assert Text.Join(st, [Slash]) == st[0] + [Slash] + Text.Join(st[1..], [Slash]);
    }
    assert st[0] != [] && st[0][0] != Slash;
  }

  /** A cleaned path is rooted exactly when the path was. */
  lemma CleanRooted(p: Path)
    ensures Rooted(Clean(p)) <==> Rooted(p)
  {
    if p != [] && !Rooted(p) {
      var st := Elements(p, [], false);
      ElementsCanonical(p, [], false);
      if st != [] {
        SpelledNotRooted(st);
      }
    }
  }

  /** `resolve` of an absolute path is the cleaned path, whatever the current one. */
  lemma ResolveAbsolute(from: Path, from': Path, to: Path)
    requires Rooted(to)
    ensures Resolve(from, to) == Clean(to) == Resolve(from', to)
  {
  }

  /**
   * From a rooted current path, `resolve` gives a rooted, clean path: the
   * navigator's current path stays absolute.
   */
  lemma ResolveFromRooted(from: Path, to: Path)
    requires Rooted(from)
    ensures Rooted(Resolve(from, to)) && Clean(Resolve(from, to)) == Resolve(from, to)
  {
    if Rooted(to) {
      CleanRooted(to);
      CleanTwice(to);
    } else {
      var j := if to == [] then from else from + [Slash] + to;
      assert Rooted(j);
      CleanRooted(j);
      CleanTwice(j);
      CleanRooted(Clean(j));
      CleanTwice(Clean(j));
    }
  }

  // ---------------------------------------------------------------------------
  // `pathToTag`

  /**
   * `pathToTag`: the root for "/", otherwise the tag found by looking up
   * the resolved path without its leading slash; `None` is `errNotFound`.
   * The program's globals `root` and `curPath` are parameters here.
   */
  function PathToTag(root: Tag, curPath: Path, nbtPath: Path): Option<Tag>
  {
    var abs := Resolve(curPath, nbtPath);
    if abs == [Slash] then Some(root) else Lookup(root, abs[1..])
  }

  /** How deep compounds nest in a tag. */
  function Height(t: Tag): nat
    decreases t
  {
    if t.TagCompound? then 1 + FieldsHeight(t.fields) else 0
  }

  function FieldsHeight(fields: seq<Field>): nat
    decreases fields
  {
    if fields == [] then 0
    else
      var h := Height(fields[0].tag);
      var rest := FieldsHeight(fields[1..]);
      if h < rest then rest else h
  }

  lemma {:induction false} FindHeight(fields: seq<Field>, key: seq<Byte>)
    requires Find(fields, key).Some?
    ensures Height(Find(fields, key).value) <= FieldsHeight(fields)
  {
    if fields[0].key != key {
      FindHeight(fields[1..], key);
    }
  }

  /** What a path names lies strictly inside the tag it is looked up in. */
  lemma {:induction false} LookupDeeper(t: Tag, path: seq<Byte>)
    requires Lookup(t, path).Some?
    ensures Height(Lookup(t, path).value) < Height(t)
    decreases |path|
  {
    var i := FirstSlash(path);
    var u := Find(t.fields, path[..i]).value;
    FindHeight(t.fields, path[..i]);
    if i < |path| {
      LookupDeeper(u, path[i + 1..]);
    }
  }

  /** `pathToTag` gives back the root exactly when the resolved path is "/". */
  lemma PathToTagRoot(root: Tag, curPath: Path, nbtPath: Path)
    ensures PathToTag(root, curPath, nbtPath) == Some(root) <==> Resolve(curPath, nbtPath) == [Slash]
  {
    var abs := Resolve(curPath, nbtPath);
    if abs != [Slash] && Lookup(root, abs[1..]).Some? {
      LookupDeeper(root, abs[1..]);
    }
  }

  /** Following names one by one through compounds. */
  function Walk(t: Tag, names: seq<Path>): Option<Tag>
    decreases |names|
  {
    if names == [] then Some(t)
    else if !t.TagCompound? then None
    else
      match Find(t.fields, names[0])
      case None => None
      case Some(u) => Walk(u, names[1..])
  }

  /** Looking up names joined by slashes follows them one by one. */
  lemma {:induction false} LookupSpelled(t: Tag, names: seq<Path>)
    requires names != [] && forall i | 0 <= i < |names| :: Slash !in names[i]
    ensures Lookup(t, Text.Join(names, [Slash])) == Walk(t, names)
    decreases |names|
  {
    var e := names[0];
    if !t.TagCompound? {
      NbtLaws.LookupLeaf(t, Text.Join(names, [Slash]));
    } else if |names| == 1 {
      assert Text.Join(names, [Slash]) == e;
      NbtLaws.LookupKey(t.name, t.fields, e);
    } else {
      var tail := Text.Join(names[1..], [Slash]);
      assert Text.Join(names, [Slash]) == e + [Slash] + tail;
      NbtLaws.LookupJoin(t, e, tail);
      NbtLaws.LookupKey(t.name, t.fields, e);
      match Find(t.fields, e)
      case None =>
      case Some(u) => LookupSpelled(u, names[1..]);
    }
  }

  /** The path `resolve` cleans: `to` alone when it is absolute, else `to` joined to a nonempty `from`. */
  function Joined(from: Path, to: Path): Path
  {
    if Rooted(to) then to else if to == [] then from else from + [Slash] + to
  }

  lemma ResolveJoined(from: Path, to: Path)
    requires from != []
    ensures Resolve(from, to) == Clean(Joined(from, to))
  {
    if !Rooted(to) {
      CleanTwice(Joined(from, to));
    }
  }

  /** A rooted spelling reads back as the elements it spells, and is "/" only for none. */
  lemma SpellRooted(st: seq<Path>)
    requires Canonical(st, true)
    ensures Elements(Spell(st, true), [], true) == st
    ensures Spell(st, true) == [Slash] <==> st == []
    ensures st != [] ==> Spell(st, true)[1..] == Text.Join(st, [Slash])
  {
    var q := Spell(st, true);
    assert FirstSlash(q) == 0;
    if st != [] {
      var body := Text.Join(st, [Slash]);
      assert q == [Slash] + body;
      SpelledNotEmpty(st);
      assert q[1..] == body;
      ElementsOfSpelled(st, [], true);
      assert [] + st == st;
    }
  }

  /** Looking up a rooted spelling walks its elements. */
  lemma WalkSpelled(root: Tag, st: seq<Path>)
    requires Canonical(st, true)
    ensures var q := Spell(st, true);
      (if q == [Slash] then Some(root) else Lookup(root, q[1..])) == Walk(root, st)
  {
    SpellRooted(st);
    if st != [] {
      LookupSpelled(root, st);
    }
  }

  /**
   * From a rooted current path, `pathToTag` walks the elements of the
   * joined path one compound at a time.
   */
  lemma PathToTagWalks(root: Tag, curPath: Path, nbtPath: Path)
    requires Rooted(curPath)
    ensures PathToTag(root, curPath, nbtPath) == Walk(root, Elements(Joined(curPath, nbtPath), [], true))
  {
    var j := Joined(curPath, nbtPath);
    ResolveJoined(curPath, nbtPath);
    assert Rooted(j);
    var st := Elements(j, [], true);
    assert Clean(j) == Spell(st, true);
    ElementsCanonical(j, [], true);
    WalkSpelled(root, st);
  }

  lemma SpelledNotEmpty(st: seq<Path>)
    requires st != [] && st[0] != []
    ensures Text.Join(st, [Slash]) != []
  {
    if |st| > 1 {
      assert Text.Join(st, [Slash]) == st[0] + [Slash] + Text.Join(st[1..], [Slash]);
    }
  }

  // ---------------------------------------------------------------------------
  // `prettyByteArray`

  /** The bytes `byte(v)` makes of signed values. */
  function Unsigned(vs: seq<Int8>): (bs: seq<Byte>)
    ensures |bs| == |vs|
  {
    seq(|vs|, i requires 0 <= i < |vs| => Packets.AsByte(vs[i]))
  }

  /**
   * The text `prettyByteArray` shows for an array: the hexadecimal digits
   * of all its bytes, or of the first 37 when there are more than 40 and
   * the long form is not asked for; then a text of 40 digits or more is cut
   * to its first 37 and "...".
   */
  function Shown(vs: seq<Int8>, longForm: bool): string
  {
    var n := if longForm || |vs| <= 40 then |vs| else 37;
    var str := Uuid.Hex(Unsigned(vs[..n]));
    if |str| >= 40 then str[..37] + "..." else str
  }

  /** `prettyByteArray`, without the type name, length and colours around the digits. */
  method PrettyByteArray(vs: seq<Int8>, longForm: bool) returns (str: string)
    ensures str == Shown(vs, longForm)
  {
    var buf: seq<Byte> := [];
    var n := if longForm || |vs| <= 40 then |vs| else 37;
    for i := 0 to n
      invariant buf == Unsigned(vs[..i])
    {
      buf := buf + [Packets.AsByte(vs[i])];
    }
    assert vs[..n][..n] == vs[..n];
    str := Uuid.Hex(buf);
    if |str| >= 40 {
      str := str[..37] + "...";
    }
  }

  lemma {:induction false} HexPrefix(bs: seq<Byte>, n: nat)
    requires n <= |bs|
    ensures Uuid.Hex(bs[..n]) == Uuid.Hex(bs)[..2 * n]
  {
    if n > 0 {
      HexPrefix(bs[1..], n - 1);
      assert bs[..n][1..] == bs[1..][..n - 1];
    }
  }

  /** An array of fewer than 20 bytes is shown in full: its digits read back as its bytes. */
  lemma ShownShort(vs: seq<Int8>, longForm: bool)
    requires |vs| < 20
    ensures Shown(vs, longForm) == Uuid.Hex(Unsigned(vs))
    ensures Uuid.Unhex(Shown(vs, longForm)) == Some(Unsigned(vs))
  {
    assert vs[..|vs|] == vs;
    Uuid.UnhexHex(Unsigned(vs));
  }

  /**
   * An array of 20 bytes or more shows the first 37 digits of its bytes
   * and "...", long form or not: the cut applies to the text as well.
   */
  lemma ShownCut(vs: seq<Int8>, longForm: bool)
    requires |vs| >= 20
    ensures Shown(vs, longForm) == Uuid.Hex(Unsigned(vs))[..37] + "..."
    ensures |Shown(vs, longForm)| == 40
  {
    var n := if longForm || |vs| <= 40 then |vs| else 37;
    assert Unsigned(vs[..n]) == Unsigned(vs)[..n];
    HexPrefix(Unsigned(vs), n);
    assert Uuid.Hex(Unsigned(vs))[..2 * n][..37] == Uuid.Hex(Unsigned(vs))[..37];
  }

  /** The long form shows the same text as the short one. */
  lemma LongFormSame(vs: seq<Int8>)
    ensures Shown(vs, true) == Shown(vs, false)
  {
    if |vs| < 20 {
      ShownShort(vs, true);
      ShownShort(vs, false);
    } else {
      ShownCut(vs, true);
      ShownCut(vs, false);
    }
  }

  // ---------------------------------------------------------------------------
  // `typeFromString`

  /** `TagType.String` of the types `End` (0) to `IntArray` (11). */
  const TagNames: seq<string> := [
    "TagEnd", "TagByte", "TagShort", "TagInt", "TagLong", "TagFloat",
    "TagDouble", "TagByteArray", "TagString", "TagList", "TagCompound", "TagIntArray"]

  /** The name of a type without its "Tag" prefix, lower-cased. */
  function ShortName(tt: nat): string
    requires tt < 12
  {
    Lower(TagNames[tt][3..])
  }

  /**
   * `unicode.ToLower` on the runes whose lower case is an ASCII letter: A to
   * Z, the dotted capital I (U+0130) to 'i' and the Kelvin sign (U+212A) to
   * 'k'. Every other rune has no lower case or lowers outside ASCII, where no
   * type name has a rune, so it is kept as it is.
   */
  function LowerRune(c: char): (r: char)
    ensures 'a' <= r <= 'z' <==> 'a' <= c <= 'z' || 'A' <= c <= 'Z' || c == '\U{0130}' || c == '\U{212A}'
  {
    if 'A' <= c <= 'Z' then (c as int + 32) as char
    else if c == '\U{0130}' then 'i'
    else if c == '\U{212A}' then 'k'
    else c
  }

  /** `strings.ToLower`, rune by rune. */
  function Lower(s: string): (r: string)
    ensures |r| == |s|
  {
    seq(|s|, i requires 0 <= i < |s| => LowerRune(s[i]))
  }

  /** Go lowers the dotted capital I to 'i', so "\U{0130}NT" names the `Int` type. */
  lemma DottedCapitalI()
    ensures Lower("\U{0130}NT") == ShortName(3)
  {
    assert Lower("\U{0130}NT") == "int";
    assert TagNames[3][3..] == "Int";
  }

  /** No two type names are the same, in any case. */
  lemma ShortNamesDistinct()
    ensures forall i, j | 0 <= i < j < 12 :: ShortName(i) != ShortName(j)
  {
    forall i, j | 0 <= i < j < 12 ensures ShortName(i) != ShortName(j) {
      var a, b := ShortName(i), ShortName(j);
      assert |a| != |b| || a[0] != b[0] || a[1] != b[1];
    }
  }

  /**
   * `typeFromString`: the first type whose name matches, case aside;
   * `None` stands for `-1` and `errInvalidTagType`.
   */
  method TypeFromString(str: string) returns (r: Option<nat>)
    ensures r.Some? ==> r.value < 12 && Lower(str) == ShortName(r.value)
    ensures r.None? <==> forall tt | 0 <= tt < 12 :: Lower(str) != ShortName(tt)
    ensures forall tt | 0 <= tt < 12 && Lower(str) == ShortName(tt) :: r == Some(tt)
  {
    ShortNamesDistinct();
    for tag := 0 to 12
      invariant forall tt | 0 <= tt < tag :: Lower(str) != ShortName(tt)
    {
      if Lower(str) == Lower(TagNames[tag][3..]) {
        return Some(tag);
      }
    }
    return None;
  }

  // ---------------------------------------------------------------------------
  // `setTagValue`

  /** The value of a hexadecimal digit of either case, as `hex.DecodeString` reads one. */
  function HexValue(c: Byte): (r: Option<nat>)
    ensures r.Some? ==> r.value < 16
  {
    if '0' as Byte <= c <= '9' as Byte then Some(c - '0' as Byte)
    else if 'a' as Byte <= c <= 'f' as Byte then Some(c - 'a' as Byte + 10)
    else if 'A' as Byte <= c <= 'F' as Byte then Some(c - 'A' as Byte + 10)
    else None
  }

  /** `hex.DecodeString`: pairs of digits into bytes; an odd length or a bad digit is an error. */
  function DecodeHex(s: seq<Byte>): (r: Option<seq<Byte>>)
    ensures r.Some? ==> 2 * |r.value| == |s|
    decreases |s|
  {
    if s == [] then Some([])
    else if |s| == 1 then None
    else
      match (HexValue(s[0]), HexValue(s[1]), DecodeHex(s[2..]))
      case (Some(hi), Some(lo), Some(rest)) => Some([hi * 16 + lo] + rest)
      case _ => None
  }

  /** The bytes of a text of hexadecimal digits. */
  function Ascii(s: string): (bs: seq<Byte>)
    requires forall i | 0 <= i < |s| :: Uuid.IsHexDigit(s[i])
    ensures |bs| == |s|
  {
    seq(|s|, i requires 0 <= i < |s| => Code(s[i]))
  }

  function Code(c: char): Byte
    requires Uuid.IsHexDigit(c)
  {
    c as int
  }

  /** The digits `prettyByteArray` writes decode back to the bytes. */
  lemma {:induction false} DecodeHexOfHex(bs: seq<Byte>)
    ensures DecodeHex(Ascii(Uuid.Hex(bs))) == Some(bs)
  {
    if bs != [] {
      var b := bs[0];
      var h := Uuid.Hex(bs);
      var s := Ascii(h);
      assert h == [Uuid.HexDigit(b / 16), Uuid.HexDigit(b % 16)] + Uuid.Hex(bs[1..]);
      assert s[2..] == Ascii(Uuid.Hex(bs[1..]));
      assert HexValue(s[0]) == Some(b / 16);
      assert HexValue(s[1]) == Some(b % 16);
      DecodeHexOfHex(bs[1..]);
      assert bs == [b / 16 * 16 + b % 16] + bs[1..];
    }
  }

  /** `types.Int8(b)`: a byte read as a signed value. */
  function Signed(bs: seq<Byte>): (vs: seq<Int8>)
    ensures |vs| == |bs|
    ensures Unsigned(vs) == bs
  {
    seq(|bs|, i requires 0 <= i < |bs| => Packets.AsInt8(bs[i]))
  }

  lemma SignedUnsigned(vs: seq<Int8>)
    ensures Signed(Unsigned(vs)) == vs
  {
    forall i | 0 <= i < |vs| ensures Signed(Unsigned(vs))[i] == vs[i] {
      assert Unsigned(vs)[i] == Packets.AsByte(vs[i]);
    }
  }

  /** Whether `v` fits the integer or float bits a tag of this kind holds. */
  predicate Fits(t: Tag, v: int)
  {
    match t
    case TagByte(_) => -0x80 <= v < 0x80
    case TagShort(_) => -0x8000 <= v < 0x8000
    case TagInt(_) => -0x8000_0000 <= v < 0x8000_0000
    case TagLong(_) => -0x8000_0000_0000_0000 <= v < 0x8000_0000_0000_0000
    case TagFloat(_) => 0 <= v < 0x1_0000_0000
    case TagDouble(_) => 0 <= v < 0x1_0000_0000_0000_0000
    case _ => false
  }

  /** The tags whose value `setTagValue` reads with `fmt.Sscan`. */
  predicate Scanned(t: Tag)
  {
    t.TagByte? || t.TagShort? || t.TagInt? || t.TagLong? || t.TagFloat? || t.TagDouble?
  }

  /**
   * `setTagValue`, as the tag it leaves, or `None` where it returns an
   * error, which leaves the tag as it was. `scanned` is what `fmt.Sscan`
   * reads from `val` for the tag's kind: an integer, the bits of a float,
   * or `None` when it reads nothing; it does not store a value out of range.
   */
  function SetTagValue(t: Tag, val: seq<Byte>, scanned: Option<int>): (r: Option<Tag>)
    ensures r.Some? ==> TypeOf(r.value) == TypeOf(t)
    ensures Scanned(t) ==> (r.Some? <==> scanned.Some? && Fits(t, scanned.value))
    ensures t.TagByteArray? ==> (r.Some? <==> DecodeHex(val).Some?)
    ensures !Scanned(t) && !t.TagByteArray? ==> r.Some?
  {
    match t
    case TagByte(_) => if scanned.Some? && Fits(t, scanned.value) then Some(TagByte(scanned.value)) else None
    case TagShort(_) => if scanned.Some? && Fits(t, scanned.value) then Some(TagShort(scanned.value)) else None
    case TagInt(_) => if scanned.Some? && Fits(t, scanned.value) then Some(TagInt(scanned.value)) else None
    case TagLong(_) => if scanned.Some? && Fits(t, scanned.value) then Some(TagLong(scanned.value)) else None
    case TagFloat(_) => if scanned.Some? && Fits(t, scanned.value) then Some(TagFloat(scanned.value)) else None
    case TagDouble(_) => if scanned.Some? && Fits(t, scanned.value) then Some(TagDouble(scanned.value)) else None
    case TagByteArray(_) =>
      (match DecodeHex(val)
       case None => None
       case Some(bs) => Some(TagByteArray(Signed(bs))))
    case TagString(_) => Some(TagString(val))
    case _ => Some(t)
  }

  /**
   * Setting a byte array to the digits `prettyByteArray` shows for a short
   * array gives back that array; a compound, a list, an int array or the
   * end tag is left as it is.
   */
  lemma SetShownBytes(xs: seq<Int8>, vs: seq<Int8>, scanned: Option<int>)
    requires |vs| < 20
    ensures var h := Shown(vs, false);
      SetTagValue(TagByteArray(xs), Ascii(h), scanned) == Some(TagByteArray(vs))
  {
    ShownShort(vs, false);
    DecodeHexOfHex(Unsigned(vs));
    SignedUnsigned(vs);
  }

  /** A string tag takes the text as it is, and only a valid text sets a byte array. */
  lemma SetStringAndBytes(name: seq<Byte>, fields: seq<Field>, val: seq<Byte>, scanned: Option<int>)
    ensures SetTagValue(TagString(name), val, scanned) == Some(TagString(val))
    ensures SetTagValue(TagCompound(name, fields), val, scanned) == Some(TagCompound(name, fields))
    ensures |val| % 2 == 1 ==> SetTagValue(TagByteArray([]), val, scanned) == None
  {
    if |val| % 2 == 1 {
      assert DecodeHex(val).None?;
    }
  }
}
