/**
 * The configuration file format: one `key: value` per line, sections
 * opened by a `key:` line with no value and nested by indentation (one
 * tab or space per level), "#" comments, and "-" for the empty value.
 * Nested keys are stored flat, their sections' names joined by dots
 * (`a.b.c`).
 */
module Config {
  import opened Opt
  import opened Text
  import ConfigMap

  /**
   * Why parsing stops: an empty input, a key whose sections are missing,
   * a file that cannot be read, or one of the two index-out-of-range
   * panics the parser can hit (a line with no ':', and a section marker
   * deeper than the sections open so far).
   */
  datatype Error =
    | ErrEmpty
    | NoRoot(file: string, line: nat, key: string, level: nat)
    | ReadFailed(file: string)
    | PanicNoColon(line: nat)
    | PanicChain(line: nat)

  predicate Blank(c: char)
  {
    c == '\t' || c == ' '
  }

  /** The indentation level of a line: how many tabs and spaces it starts with. */
  function Level(s: string): (n: nat)
    ensures n <= |s|
    ensures forall j | 0 <= j < n :: Blank(s[j])
    ensures n == |s| || !Blank(s[n])
  {
    if s != [] && Blank(s[0]) then 1 + Level(s[1..]) else 0
  }

  /** `lineLevel`: counts runes until the first that is neither a tab nor a space. */
  method LineLevel(s: string) returns (n: nat)
    ensures n == Level(s)
  {
    n := 0;
    while n < |s| && Blank(s[n])
      invariant n <= |s|
      invariant forall j | 0 <= j < n :: Blank(s[j])
    {
      n := n + 1;
    }
  }

  /** The sections of levels `0 .. end-1` are all open and named. */
  predicate Rooted(chain: seq<string>, end: nat)
  {
    |chain| >= end && forall i | 0 <= i < end :: chain[i] != ""
  }

  /** `hasRoot`. */
  method HasRoot(chain: seq<string>, end: nat) returns (b: bool)
    ensures b == Rooted(chain, end)
  {
    if |chain| < end {
      return false;
    }
    for i := 0 to end
      invariant forall j | 0 <= j < i :: chain[j] != ""
    {
      if chain[i] == "" {
        return false;
      }
    }
    return true;
  }

  /** A blank line, or a line whose first non-blank rune is '#'. */
  predicate Skipped(line: string)
  {
    line == "" || HasPrefix(TrimSpace(line), "#")
  }

  /** The value with a trailing "#" comment removed. */
  function StripComment(value: string): string
  {
    var index := IndexOf(value, '#');
    if index == -1 then value else TrimSpace(value[..index])
  }

  /** What a line leaves behind: the open sections and the map, or the error that stops parsing. */
  datatype Outcome = Next(chain: seq<string>, root: map<string, string>) | Stop(err: Error)

  /**
   * The key and the value of a line that is not skipped: the text before
   * and after its first ':', trimmed, with the value's comment removed;
   * `None` when there is no ':'.
   */
  function Pieces(line: string): Option<(string, string)>
  {
    var colon := IndexOf(line, ':');
    if colon == -1 then None
    else Some((TrimSpace(line[..colon]), StripComment(TrimSpace(line[colon + 1..]))))
  }

  /**
   * A section marker names the section at its level, after the open
   * sections grow by one whenever there are not exactly `level + 1` of
   * them; a level beyond them is out of range.
   */
  function Open(i: nat, level: nat, key: string, chain: seq<string>, root: map<string, string>): Outcome
  {
    var grown := if |chain| != level + 1 then chain + [key] else chain;
    if level < |grown| then Next(grown[level := key], root) else Stop(PanicChain(i))
  }

  /**
   * A value line stores its value ("-" standing for "") under its key,
   * joined behind the open sections' names when it is indented. Go's
   * `append(chain[:level], key)` writes `key` into the array `chain`
   * shares, so an indented value line also renames the section at its own
   * level.
   */
  function Store(file: string, i: nat, level: nat, key: string, value: string, chain: seq<string>,
                 root: map<string, string>): Outcome
  {
    var v := if value == "-" then "" else value;
    if level == 0 then Next(chain, root[key := v])
    else if !Rooted(chain, level) then Stop(NoRoot(file, i, key, level))
    else
      var full := Join(chain[..level] + [key], ".");
      Next(if level < |chain| then chain[level := key] else chain, root[full := v])
  }

  /** One pass of the parse loop over line `i`. */
  function Step(file: string, i: nat, line: string, chain: seq<string>, root: map<string, string>): Outcome
  {
    if Skipped(line) then Next(chain, root)
    else
      match Pieces(line)
      case None => Stop(PanicNoColon(i))
      case Some((key, value)) =>
        if value == "" then Open(i, Level(line), key, chain, root)
        else Store(file, i, Level(line), key, value, chain, root)
  }

  /** The loop from line `i` on: the final map, and the error that stopped it if any. */
  function ParseLines(file: string, lines: seq<string>, i: nat, chain: seq<string>, root: map<string, string>)
    : (map<string, string>, Option<Error>)
    requires i <= |lines|
    decreases |lines| - i
  {
    if i == |lines| then (root, None)
    else
      match Step(file, i, lines[i], chain, root)
      case Next(c, m) => ParseLines(file, lines, i + 1, c, m)
      case Stop(e) => (root, Some(e))
  }

  /** `parse` of an input into a map already holding `root`. */
  function ParseAll(file: string, input: string, root: map<string, string>): (map<string, string>, Option<Error>)
  {
    if input == "" then (root, Some(ErrEmpty))
    else ParseLines(file, Split(input, '\n'), 0, [], root)
  }

  /**
   * A value as the parser stores it: trimmed, without a '#', and never the
   * "-" that stands for the empty value.
   */
  predicate Clean(v: string)
  {
    Trimmed(v) && '#' !in v && v != "-"
  }

  /** What `StripComment` leaves of a trimmed value is trimmed and holds no '#'. */
  lemma StripCommentClean(value: string)
    requires Trimmed(value)
    ensures Trimmed(StripComment(value)) && '#' !in StripComment(value)
  {
    var index := IndexOf(value, '#');
    if index != -1 {
      TrimSpaceTrims(value[..index]);
      TrimSpaceWithout(value[..index], '#');
    }
  }

  /** The value `Pieces` finds is trimmed and holds no '#'. */
  lemma PiecesClean(line: string)
    ensures Pieces(line).Some? ==> Trimmed(Pieces(line).value.1) && '#' !in Pieces(line).value.1
  {
    var colon := IndexOf(line, ':');
    if colon != -1 {
      var value := TrimSpace(line[colon + 1..]);
      TrimSpaceTrims(line[colon + 1..]);
      StripCommentClean(value);
      assert Pieces(line) == Some((TrimSpace(line[..colon]), StripComment(value)));
    }
  }

  /** Storing a trimmed value without '#' keeps every value clean. */
  lemma StoreClean(file: string, i: nat, level: nat, key: string, value: string, chain: seq<string>,
                   root: map<string, string>)
    requires Trimmed(value) && '#' !in value
    requires forall k | k in root :: Clean(root[k])
    ensures Store(file, i, level, key, value, chain, root).Next? ==>
      var m := Store(file, i, level, key, value, chain, root).root;
      forall k | k in m :: Clean(m[k])
  {
  }

  /** Every value a line stores is clean. */
  lemma StepClean(file: string, i: nat, line: string, chain: seq<string>, root: map<string, string>)
    requires forall k | k in root :: Clean(root[k])
    ensures Step(file, i, line, chain, root).Next? ==>
      var m := Step(file, i, line, chain, root).root;
      forall k | k in m :: Clean(m[k])
  {
    if !Skipped(line) && Pieces(line).Some? {
      var (key, value) := Pieces(line).value;
      PiecesClean(line);
      if value != "" {
        StoreClean(file, i, Level(line), key, value, chain, root);
      }
    }
  }

  /** The text of a key the file format can carry on a line of its own. */
  predicate KeyText(k: string)
  {
    ':' !in k && Trimmed(k) && (k == [] || k[0] != '#')
  }

  /** A line's indentation level is the number of tabs it starts with, when a non-blank rune follows. */
  lemma LevelAfterTabs(d: nat, x: string)
    requires x != [] && !Blank(x[0])
    ensures Level(Repeat("\t", d) + x) == d
  {
    RepeatTabs(d);
    var line := Repeat("\t", d) + x;
    assert line[d] == x[0];
  }

  /** No ':' in a tab-indented key. */
  lemma NoColonBefore(d: nat, k: string)
    requires ':' !in k
    ensures ':' !in Repeat("\t", d) + k
  {
    RepeatTabs(d);
    var a := Repeat("\t", d) + k;
    forall j | 0 <= j < |a| ensures a[j] != ':' {
      if j >= d { assert a[j] == k[j - d]; }
    }
  }

  /** A tab-indented line whose text is trimmed and starts with neither '#' nor a blank. */
  lemma IndentedLine(d: nat, x: string)
    requires x != [] && Trimmed(x) && x[0] != '#' && !Blank(x[0])
    ensures !Skipped(Repeat("\t", d) + x) && Level(Repeat("\t", d) + x) == d
  {
    TrimTabs(d, x);
    LevelAfterTabs(d, x);
  }

  /** `" " + w` trims to `w`, and a value without '#' has no comment to strip. */
  lemma ValueText(w: string)
    requires Trimmed(w) && '#' !in w
    ensures StripComment(TrimSpace(" " + w)) == w
  {
    TrimLeftSpaces(" ", w);
    TrimSpaceTrims(w);
  }

  /** The pieces of a line cut at its first ':', given what lies on either side. */
  lemma PiecesAt(line: string, a: string, rest: string, k: string, w: string)
    requires line == a + [':'] + rest && ':' !in a
    requires TrimSpace(a) == k && StripComment(TrimSpace(rest)) == w
    ensures Pieces(line) == Some((k, w))
  {
    IndexAfter(a, ':', rest);
    assert line[..|a|] == a;
    assert line[|a| + 1..] == rest;
  }

  /** A key line regrouped around its ':'. */
  lemma Regroup(t: string, k: string, w: string)
    ensures t + k + ": " + w == (t + k) + [':'] + (" " + w)
    ensures t + k + ":" == (t + k) + [':'] + ""
  {
  }

  /** A value line splits at the ':' after its key into that key and its value. */
  lemma ValueLineParts(d: nat, k: string, w: string)
    requires KeyText(k) && Trimmed(w) && '#' !in w
    ensures var line := Repeat("\t", d) + k + ": " + w;
      Pieces(line) == Some((k, w))
  {
    Regroup(Repeat("\t", d), k, w);
    NoColonBefore(d, k);
    TrimTabs(d, k);
    ValueText(w);
    PiecesAt(Repeat("\t", d) + k + ": " + w, Repeat("\t", d) + k, " " + w, k, w);
  }

  /** The pieces of a value line: its key and its value. */
  lemma ValueLinePieces(d: nat, k: string, w: string)
    requires KeyText(k) && Trimmed(w) && '#' !in w && w != ""
    ensures var line := Repeat("\t", d) + k + ": " + w;
      Pieces(line) == Some((k, w)) && !Skipped(line) && Level(line) == d
  {
    var x := k + ": " + w;
    var line := Repeat("\t", d) + k + ": " + w;
    assert line == Repeat("\t", d) + x;
    assert x[|x| - 1] == w[|w| - 1];
    assert x[0] == if k == [] then ':' else k[0];
    IndentedLine(d, x);
    ValueLineParts(d, k, w);
  }

  /**
   * A value line, `d` tabs then `key: value`, is read as that key and value
   * at level `d`.
   */
  lemma StepValueLine(file: string, i: nat, d: nat, k: string, w: string, chain: seq<string>,
                      root: map<string, string>)
    requires KeyText(k) && Trimmed(w) && '#' !in w && w != ""
    ensures Step(file, i, Repeat("\t", d) + k + ": " + w, chain, root) == Store(file, i, d, k, w, chain, root)
  {
    ValueLinePieces(d, k, w);
  }

  /** A section line splits at the ':' after its key into that key and no value. */
  lemma SectionLineParts(d: nat, k: string)
    requires KeyText(k)
    ensures Pieces(Repeat("\t", d) + k + ":") == Some((k, ""))
  {
    Regroup(Repeat("\t", d), k, "");
    NoColonBefore(d, k);
    TrimTabs(d, k);
    assert StripComment(TrimSpace("")) == "";
    PiecesAt(Repeat("\t", d) + k + ":", Repeat("\t", d) + k, "", k, "");
  }

  /** The pieces of a section line: its key and no value. */
  lemma SectionLinePieces(d: nat, k: string)
    requires KeyText(k)
    ensures var line := Repeat("\t", d) + k + ":";
      Pieces(line) == Some((k, "")) && !Skipped(line) && Level(line) == d
  {
    var x := k + ":";
    var line := Repeat("\t", d) + k + ":";
    assert line == Repeat("\t", d) + x;
    assert x[0] == if k == [] then ':' else k[0];
    IndentedLine(d, x);
    SectionLineParts(d, k);
  }

  /** A section line, `d` tabs then `key:`, opens that key's section at level `d`. */
  lemma StepSectionLine(file: string, i: nat, d: nat, k: string, chain: seq<string>, root: map<string, string>)
    requires KeyText(k)
    ensures Step(file, i, Repeat("\t", d) + k + ":", chain, root) == Open(i, d, k, chain, root)
  {
    SectionLinePieces(d, k);
  }

  /** Every value the parser stores is clean. */
  lemma {:induction false} ParseClean(file: string, lines: seq<string>, i: nat, chain: seq<string>,
                                      root: map<string, string>)
    requires i <= |lines|
    requires forall k | k in root :: Clean(root[k])
    ensures var m := ParseLines(file, lines, i, chain, root).0;
      forall k | k in m :: Clean(m[k])
    decreases |lines| - i
  {
    if i < |lines| {
      ParseLinesNext(file, lines, i, chain, root);
      StepClean(file, i, lines[i], chain, root);
      var o := Step(file, i, lines[i], chain, root);
      if o.Next? {
        ParseClean(file, lines, i + 1, o.chain, o.root);
      }
    }
  }

  /** No line removes a key. */
  lemma StepKeeps(file: string, i: nat, line: string, chain: seq<string>, root: map<string, string>)
    ensures Step(file, i, line, chain, root).Next? ==> root.Keys <= Step(file, i, line, chain, root).root.Keys
  {
  }

  /** The parser never removes a key. */
  lemma {:induction false} ParseKeeps(file: string, lines: seq<string>, i: nat, chain: seq<string>,
                                      root: map<string, string>)
    requires i <= |lines|
    ensures root.Keys <= ParseLines(file, lines, i, chain, root).0.Keys
    decreases |lines| - i
  {
    if i < |lines| {
      ParseLinesNext(file, lines, i, chain, root);
      StepKeeps(file, i, lines[i], chain, root);
      var o := Step(file, i, lines[i], chain, root);
      if o.Next? {
        ParseKeeps(file, lines, i + 1, o.chain, o.root);
      }
    }
  }

  /** An empty input is `ErrEmpty`, and leaves the map as it was. */
  lemma EmptyInput(file: string, root: map<string, string>)
    ensures ParseAll(file, "", root) == (root, Some(ErrEmpty))
  {
  }

  /**
   * An indented key with no section open above it is an error naming its
   * line and level; what the lines before it stored stays.
   */
  lemma MissingRoot(file: string, a: string, v: string, b: string, w: string)
    requires KeyText(a) && KeyText(b) && '\n' !in a && '\n' !in b
    requires Clean(v) && v != "" && '\n' !in v && Trimmed(w) && '#' !in w && w != "" && '\n' !in w
    ensures ParseAll(file, (a + ": " + v) + "\n\t" + (b + ": " + w), map[]) ==
      (map[a := v], Some(NoRoot(file, 1, b, 1)))
  {
    var lines := [Repeat("\t", 0) + a + ": " + v, Repeat("\t", 1) + b + ": " + w];
    var x, y := a + ": " + v, b + ": " + w;
    assert lines[0] == Repeat("\t", 0) + x && lines[1] == Repeat("\t", 1) + y;
    assert '\n' !in x && '\n' !in y;
    TwoLines(x, y, lines);
    var m := map[a := v];
    StepValueLine(file, 0, 0, a, v, [], map[]);
    StepValueLine(file, 1, 1, b, w, [], m);
    assert Store(file, 1, 1, b, w, [], m) == Stop(NoRoot(file, 1, b, 1));
    ParseLinesNext(file, lines, 0, [], map[]);
    ParseLinesNext(file, lines, 1, [], m);
    assert ParseAll(file, x + "\n\t" + y, map[]) == ParseLines(file, lines, 0, [], map[]);
  }

  /** One step of the parse loop, unfolded. */
  lemma ParseLinesNext(file: string, lines: seq<string>, i: nat, chain: seq<string>, root: map<string, string>)
    requires i < |lines|
    ensures ParseLines(file, lines, i, chain, root) ==
      match Step(file, i, lines[i], chain, root)
      case Next(c, m) => ParseLines(file, lines, i + 1, c, m)
      case Stop(e) => (root, Some(e))
  {
  }

  /** A line, a newline, a tab and a second line split into the line and the indented line. */
  lemma TwoLines(x: string, y: string, lines: seq<string>)
    requires '\n' !in x && '\n' !in y && lines == [Repeat("\t", 0) + x, Repeat("\t", 1) + y]
    ensures Split(x + "\n\t" + y, '\n') == lines
  {
    var t := "\t" + y;
    assert Repeat("\t", 1) == "\t" + Repeat("\t", 0) == "\t";
    assert Repeat("\t", 0) + x == x;
    assert lines == [x] + [t];
    JoinCons(x, t, '\n', [t]);
    assert x + ['\n'] + t == x + "\n\t" + y;
    assert '\n' !in t;
    assert NoneHolds(lines, '\n');
    SplitJoin(lines, '\n');
  }

  /** What the parser stores for a value: "-" stands for the empty value. */
  function Unmarked(v: string): string
  {
    if v == "-" then "" else v
  }

  /**
   * A section line, an indented value line and a top-level value line:
   * the indented key is stored behind its section's name, joined by '.',
   * the top-level key as it is, "-" standing for "" in either, with no
   * error.
   */
  lemma NestedKey(file: string, a: string, b: string, v: string, c: string, w: string)
    requires KeyText(a) && KeyText(b) && KeyText(c) && a != ""
    requires '\n' !in a && '\n' !in b && '\n' !in c
    requires Trimmed(v) && '#' !in v && v != "" && '\n' !in v
    requires Trimmed(w) && '#' !in w && w != "" && '\n' !in w
    ensures ParseAll(file, (a + ":") + "\n\t" + (b + ": " + v) + "\n" + (c + ": " + w), map[]) ==
      (map[a + "." + b := Unmarked(v)][c := Unmarked(w)], None)
  {
    var x, y, z := a + ":", b + ": " + v, c + ": " + w;
    var lines := [x, "\t" + y, z];
    ThreeLines(x, y, z, lines);
    NestedLines(file, a, b, v, c, w, lines);
  }

  /** The three lines of `NestedKey`, parsed one after the other. */
  lemma NestedLines(file: string, a: string, b: string, v: string, c: string, w: string, lines: seq<string>)
    requires KeyText(a) && KeyText(b) && KeyText(c) && a != ""
    requires Trimmed(v) && '#' !in v && v != "" && Trimmed(w) && '#' !in w && w != ""
    requires lines == [a + ":", "\t" + (b + ": " + v), c + ": " + w]
    ensures ParseLines(file, lines, 0, [], map[]) == (map[a + "." + b := Unmarked(v)][c := Unmarked(w)], None)
  {
    var m1 := map[a + "." + b := Unmarked(v)];
    StepOpenTop(file, a);
    StepNested(file, a, b, v);
    StepValueTop(file, c, w, [a], m1);
    ParseThree(file, lines, [a], map[], [a], m1, [a], m1[c := Unmarked(w)]);
  }

  /** A first section line opens its section. */
  lemma StepOpenTop(file: string, a: string)
    requires KeyText(a)
    ensures Step(file, 0, a + ":", [], map[]) == Next([a], map[])
  {
    assert Repeat("\t", 0) + a + ":" == a + ":";
    StepSectionLine(file, 0, 0, a, [], map[]);
  }

  /** A value line indented once under the section `a` stores `a.b`. */
  lemma StepNested(file: string, a: string, b: string, v: string)
    requires KeyText(b) && Trimmed(v) && '#' !in v && v != "" && a != ""
    ensures Step(file, 1, "\t" + (b + ": " + v), [a], map[]) == Next([a], map[a + "." + b := Unmarked(v)])
  {
    assert Repeat("\t", 1) == "\t";
    assert Repeat("\t", 1) + b + ": " + v == "\t" + (b + ": " + v);
    StepValueLine(file, 1, 1, b, v, [a], map[]);
    StoreNested(file, a, b, v);
  }

  /** A value line that is not indented stores its own key and keeps the open sections. */
  lemma StepValueTop(file: string, c: string, w: string, chain: seq<string>, m: map<string, string>)
    requires KeyText(c) && Trimmed(w) && '#' !in w && w != ""
    ensures Step(file, 2, c + ": " + w, chain, m) == Next(chain, m[c := Unmarked(w)])
  {
    assert Repeat("\t", 0) + c + ": " + w == c + ": " + w;
    StepValueLine(file, 2, 0, c, w, chain, m);
  }

  /** Three lines that each go on parse to what the last of them leaves, with no error. */
  lemma ParseThree(file: string, lines: seq<string>, c1: seq<string>, m1: map<string, string>,
                   c2: seq<string>, m2: map<string, string>, c3: seq<string>, m3: map<string, string>)
    requires |lines| == 3
    requires Step(file, 0, lines[0], [], map[]) == Next(c1, m1)
    requires Step(file, 1, lines[1], c1, m1) == Next(c2, m2)
    requires Step(file, 2, lines[2], c2, m2) == Next(c3, m3)
    ensures ParseLines(file, lines, 0, [], map[]) == (m3, None)
  {
    ParseLinesNext(file, lines, 0, [], map[]);
    ParseLinesNext(file, lines, 1, c1, m1);
    ParseLinesNext(file, lines, 2, c2, m2);
  }

  /** A value at level 1 under the one open section `a` is stored as `a.b`. */
  lemma StoreNested(file: string, a: string, b: string, v: string)
    requires a != ""
    ensures Store(file, 1, 1, b, v, [a], map[]) == Next([a], map[a + "." + b := Unmarked(v)])
  {
    assert [a][..1] + [b] == [a, b];
    assert Join([a, b], ".") == a + "." + b;
  }

  /** The "-" marker under a section is stored as the empty value. */
  lemma NestedDash(file: string, a: string, b: string, c: string, w: string)
    requires KeyText(a) && KeyText(b) && KeyText(c) && a != ""
    requires '\n' !in a && '\n' !in b && '\n' !in c
    requires Trimmed(w) && '#' !in w && w != "" && '\n' !in w
    ensures ParseAll(file, (a + ":") + "\n\t" + (b + ": -") + "\n" + (c + ": " + w), map[]) ==
      (map[a + "." + b := ""][c := Unmarked(w)], None)
  {
    assert b + ": -" == b + ": " + "-";
    NestedKey(file, a, b, "-", c, w);
  }

  /** A line, a newline and a tab, a second line, a newline and a third line split into the three lines. */
  lemma ThreeLines(x: string, y: string, z: string, lines: seq<string>)
    requires '\n' !in x && '\n' !in y && '\n' !in z && lines == [x, "\t" + y, z]
    ensures x + "\n\t" + y + "\n" + z != "" && Split(x + "\n\t" + y + "\n" + z, '\n') == lines
  {
    var t := "\t" + y;
    assert lines == [x] + [t, z];
    assert [t, z] == [t] + [z];
    JoinCons(t, z, '\n', [z]);
    JoinCons(x, t + ['\n'] + z, '\n', [t, z]);
    assert x + ['\n'] + (t + ['\n'] + z) == x + "\n\t" + y + "\n" + z;
    assert '\n' !in t;
    assert NoneHolds(lines, '\n');
    SplitJoin(lines, '\n');
  }

  /**
   * A configuration: the map of flat keys to values, and the input it
   * parses. Its methods are modelled as if they had shared (by-reference) receivers, so
   * that `parsed`, `file` and `input` keep what they are set to.
   */
  class Config {
    var parsed: bool
    var file: string
    var input: string
    var root: map<string, string>

    /** `New`. */
    constructor New()
      ensures !parsed && file == "" && input == "" && root == map[]
    {
      parsed := false;
      file := "";
      input := "";
      root := map[];
    }

    /** `NewFrom`: starts with the given contents. */
    constructor NewFrom(m: map<string, string>)
      ensures !parsed && file == "" && input == "" && root == m
    {
      parsed := false;
      file := "";
      input := "";
      root := m;
    }

    /** `Len`. */
    function Len(): nat
      reads this
    {
      |root|
    }

    /** `Get`: the value stored under `k`, or "" when there is none. */
    function Get(k: string): (v: string)
      reads this
      ensures k in root ==> v == root[k]
      ensures k !in root ==> v == ""
    {
      if k in root then root[k] else ""
    }

    /**
     * `Set`: afterwards `k` gets `v` and every other key what it got
     * before; the count grows by one exactly when `k` is new.
     */
    method Set(k: string, v: string)
      modifies this
      ensures root == old(root)[k := v]
      ensures parsed == old(parsed) && file == old(file) && input == old(input)
      ensures Get(k) == v
      ensures forall o | o != k :: Get(o) == old(Get(o))
      ensures Len() == old(Len()) + (if k in old(root) then 0 else 1)
    {
      root := root[k := v];
    }

    /** `Copy`: a new map with every pair of this one. */
    method Copy() returns (m: map<string, string>)
      ensures m == root
    {
      m := map[];
      var rest := root.Keys;
      while rest != {}
        invariant rest <= root.Keys
        invariant m.Keys == root.Keys - rest
        invariant forall k | k in m :: m[k] == root[k]
        decreases |rest|
      {
        var k :| k in rest;
        m := m[k := root[k]];
        rest := rest - {k};
      }
    }

    /** `String`: the sorted pretty lines, wrapped in `Map{` and `}`. */
    method String() returns (s: string)
      ensures s == "Map{\n" + ConfigMap.Pretty(root) + "\n}"
    {
      s := ConfigMap.MapString(root);
    }

    /** The text `Save` hands to the file, with the top-level key slip corrected. */
    method Save() returns (text: string)
      ensures Some(text) == ConfigMap.Output(ConfigMap.Intended, root)
    {
      var r := ConfigMap.FileOutput(ConfigMap.Intended, root);
      ConfigMap.IntendedNeverPanics(root, SortedKeys(root.Keys), {}, "");
      text := r.value;
    }

    /** `Parse`: parses a string, reporting errors against the name `<string>`. */
    method Parse(s: string) returns (err: Option<Error>)
      modifies this
      ensures file == "<string>"
      ensures old(parsed) ==> err == None && root == old(root) && parsed
      ensures !old(parsed) ==> (root, err) == ParseAll("<string>", s, old(root)) && parsed == err.None?
    {
      file := "<string>";
      input := s;
      err := ParseInput();
    }

    /** `ParseFile`: `contents` is what reading the file gave, `None` when it could not be read. */
    method ParseFile(f: string, contents: Option<string>) returns (err: Option<Error>)
      modifies this
      ensures contents.None? ==> err == Some(ReadFailed(f)) && root == old(root) && parsed == old(parsed)
      ensures contents.Some? && old(parsed) ==> err == None && root == old(root)
      ensures contents.Some? && !old(parsed) ==>
        (root, err) == ParseAll(f, contents.value, old(root)) && parsed == err.None?
    {
      if contents.None? {
        return Some(ReadFailed(f));
      }
      file := f;
      input := contents.value;
      err := ParseInput();
    }

    /**
     * The body of the parse loop for line `i`: returns the open sections
     * after it, or the error that ends the loop; a value line writes into
     * `root`.
     */
    method ParseLine(i: nat, line: string, chain: seq<string>) returns (next: seq<string>, stop: Option<Error>)
      modifies this
      ensures parsed == old(parsed) && file == old(file) && input == old(input)
      ensures stop.None? ==> Step(file, i, line, chain, old(root)) == Next(next, root)
      ensures stop.Some? ==> Step(file, i, line, chain, old(root)) == Stop(stop.value) && root == old(root)
    {
      next := chain;
      if line == "" || HasPrefix(TrimSpace(line), "#") {
        return next, None;
      }
      var level := LineLevel(line);
      var pieces := SplitLine(line);
      if pieces.None? {
        return next, Some(PanicNoColon(i));
      }
      var (key, value) := pieces.value;
      if value == "" {
        next, stop := OpenSection(i, level, key, chain);
        return;
      }
      if value == "-" {
        value := "";
      }
      stop := StoreValue(i, level, key, value, chain);
      if stop.None? && level != 0 && level < |chain| {
        next := chain[level := key];
      }
    }

    /** The key and value of a line, as `SplitN`, `TrimSpace` and `Index` give them. */
    static method SplitLine(line: string) returns (pieces: Option<(string, string)>)
      ensures pieces == Pieces(line)
    {
      var colon := IndexOf(line, ':');
      if colon == -1 {
        return None;
      }
      var key := TrimSpace(line[..colon]);
      var value := TrimSpace(line[colon + 1..]);
      var index := IndexOf(value, '#');
      if index != -1 {
        value := TrimSpace(value[..index]);
      }
      return Some((key, value));
    }

    /** A section marker: grows `chain` when needed and names the section at `level`. */
    static method OpenSection(i: nat, level: nat, key: string, chain: seq<string>)
      returns (next: seq<string>, stop: Option<Error>)
      ensures stop.None? ==> Open(i, level, key, chain, map[]) == Next(next, map[])
      ensures stop.Some? ==> Open(i, level, key, chain, map[]) == Stop(stop.value)
    {
      next := chain;
      if |next| != level + 1 {
        next := next + [key];
      }
      if level >= |next| {
        return next, Some(PanicChain(i));
      }
      next := next[level := key];
      return next, None;
    }

    /** Stores a value line's value, under its key joined behind the open sections when indented. */
    method StoreValue(i: nat, level: nat, key: string, value: string, chain: seq<string>) returns (stop: Option<Error>)
      modifies this
      ensures parsed == old(parsed) && file == old(file) && input == old(input)
      ensures level == 0 ==> stop.None? && root == old(root)[key := value]
      ensures level != 0 && !Rooted(chain, level) ==> stop == Some(NoRoot(file, i, key, level)) && root == old(root)
      ensures level != 0 && Rooted(chain, level) ==>
        stop.None? && root == old(root)[Join(chain[..level] + [key], ".") := value]
    {
      var k := key;
      if level != 0 {
        var rooted := HasRoot(chain, level);
        if !rooted {
          return Some(NoRoot(file, i, key, level));
        }
        k := Join(chain[..level] + [key], ".");
      }
      root := root[k := value];
      return None;
    }

    /**
     * `parse`: the line loop. It keeps the names of the open sections in
     * `chain` and writes each value into `root` as it goes, so the pairs
     * stored before an error stay.
     */
    method ParseInput() returns (err: Option<Error>)
      modifies this
      ensures file == old(file)
      ensures old(parsed) ==> err == None && root == old(root) && parsed
      ensures !old(parsed) ==> (root, err) == ParseAll(file, old(input), old(root)) && parsed == err.None?
    {
      if parsed {
        return None;
      }
      if input == "" {
        return Some(ErrEmpty);
      }
      var chain: seq<string> := [];
      var lines := Split(input, '\n');
      for i := 0 to |lines|
        invariant !parsed && file == old(file) && input == old(input)
        invariant ParseLines(file, lines, i, chain, root) == ParseAll(file, input, old(root))
      {
        var stop;
        chain, stop := ParseLine(i, lines[i], chain);
        if stop.Some? {
          return stop;
        }
      }
      parsed := true;
      input := "";
      return None;
    }
  }
}
