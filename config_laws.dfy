/**
 * Saving and parsing agree: a configuration whose keys have no dots,
 * written out in the corrected file form and parsed again, comes back as
 * the same map.
 */
module ConfigLaws {
  import opened Opt
  import opened Text
  import ConfigMap
  import Config

  /** A top-level key the file format can carry: no dot, no newline, a key of its own line. */
  predicate FlatKey(k: string)
  {
    Config.KeyText(k) && '.' !in k && '\n' !in k
  }

  /** A value the file format can carry: what the parser would store, on one line. */
  predicate FlatValue(v: string)
  {
    Config.Clean(v) && '\n' !in v
  }

  predicate Flat(m: map<string, string>)
  {
    forall k | k in m :: FlatKey(k) && FlatValue(m[k])
  }

  /** The key/value lines of flat keys, one per key, in order. */
  function FlatLines(m: map<string, string>, keys: seq<string>): seq<ConfigMap.Line>
    requires Elems(keys) <= m.Keys
  {
    seq(|keys|, j requires 0 <= j < |keys| => ConfigMap.Pair(0, keys[j], ConfigMap.Marker(m[keys[j]])))
  }

  /** The map after storing the given keys' values, one after the other, over `root`. */
  function StoreAll(root: map<string, string>, m: map<string, string>, keys: seq<string>): map<string, string>
    requires Elems(keys) <= m.Keys
    decreases |keys|
  {
    if keys == [] then root
    else
      assert keys[0] in Elems(keys);
      StoreAll(root[keys[0] := m[keys[0]]], m, keys[1..])
  }

  /** Flat keys are written as one key/value line each, with no header. */
  lemma {:induction false} LinesOfFlat(m: map<string, string>, keys: seq<string>, headers: set<string>,
                                       last: string)
    requires Elems(keys) <= m.Keys && Flat(m)
    ensures ConfigMap.Lines(ConfigMap.Intended, m, keys, headers, last) == Some(FlatLines(m, keys))
  {
    if keys != [] {
      var k := keys[0];
      assert k in Elems(keys);
      assert Elems(keys[1..]) <= Elems(keys);
      ConfigMap.StepDotlessIntended(m, k, headers, last);
      LinesOfFlat(m, keys[1..], headers, k);
      assert FlatLines(m, keys) == [ConfigMap.Pair(0, k, ConfigMap.Marker(m[k]))] + FlatLines(m, keys[1..]);
    }
  }

  /** A flat key's line is read back as a store of its value at level 0. */
  lemma StepFlatLine(file: string, i: nat, k: string, v: string, chain: seq<string>, root: map<string, string>)
    requires FlatKey(k) && FlatValue(v)
    ensures Config.Step(file, i, ConfigMap.Render(ConfigMap.Pair(0, k, ConfigMap.Marker(v))), chain, root) ==
      Config.Next(chain, root[k := v])
  {
    var w := ConfigMap.Marker(v);
    if v == "" {
      assert w == "-" && Trimmed(w) && '#' !in w;
    }
    Config.StepValueLine(file, i, 0, k, w, chain, root);
  }

  /** Parsing the lines of flat keys stores every value, in order, and stops at nothing. */
  lemma {:induction false} ParseFlatLines(file: string, m: map<string, string>, keys: seq<string>,
                                          lines: seq<string>, i: nat, root: map<string, string>)
    requires Elems(keys) <= m.Keys && Flat(m)
    requires lines == ConfigMap.RenderAll(FlatLines(m, keys)) && i <= |lines|
    ensures Config.ParseLines(file, lines, i, [], root) == (StoreAll(root, m, keys[i..]), None)
    decreases |lines| - i
  {
    if i < |lines| {
      var k := keys[i];
      assert k in Elems(keys);
      assert lines[i] == ConfigMap.Render(ConfigMap.Pair(0, k, ConfigMap.Marker(m[k])));
      StepFlatLine(file, i, k, m[k], [], root);
      Config.ParseLinesNext(file, lines, i, [], root);
      ParseFlatLines(file, m, keys, lines, i + 1, root[k := m[k]]);
      assert keys[i..][0] == k && keys[i..][1..] == keys[i + 1..];
    } else {
      assert keys[i..] == [];
    }
  }

  /** Storing every key of `m`, in any order, over a map holds exactly `m` on those keys. */
  lemma {:induction false} StoreAllCovers(root: map<string, string>, m: map<string, string>, keys: seq<string>)
    requires Elems(keys) <= m.Keys
    ensures StoreAll(root, m, keys).Keys == root.Keys + Elems(keys)
    ensures forall k | k in StoreAll(root, m, keys) ::
      StoreAll(root, m, keys)[k] == if k in Elems(keys) then m[k] else root[k]
    decreases |keys|
  {
    if keys != [] {
      var k := keys[0];
      assert k in Elems(keys);
      assert Elems(keys) == {k} + Elems(keys[1..]);
      StoreAllCovers(root[k := m[k]], m, keys[1..]);
    }
  }

  /** No line of a flat map holds a newline. */
  lemma FlatLinesOneLine(m: map<string, string>, keys: seq<string>)
    requires Elems(keys) <= m.Keys && Flat(m)
    ensures NoneHolds(ConfigMap.RenderAll(FlatLines(m, keys)), '\n')
  {
    var ls := ConfigMap.RenderAll(FlatLines(m, keys));
    forall j | 0 <= j < |ls| ensures '\n' !in ls[j] {
      var k := keys[j];
      assert k in Elems(keys);
      var w := ConfigMap.Marker(m[k]);
      assert '\n' !in w;
      assert ls[j] == Repeat("\t", 0) + k + ": " + w;
      assert Repeat("\t", 0) == [];
    }
  }

  /** The text the corrected `fileOutput` writes for a flat map, and the lines it splits into. */
  lemma FlatText(m: map<string, string>, keys: seq<string>)
    requires m != map[] && Flat(m) && keys == SortedKeys(m.Keys)
    ensures var lines := ConfigMap.RenderAll(FlatLines(m, keys));
      ConfigMap.Output(ConfigMap.Intended, m) == Some(Join(lines, "\n")) &&
      Join(lines, "\n") != "" && Split(Join(lines, "\n"), '\n') == lines
  {
    LinesOfFlat(m, keys, {}, "");
    var lines := ConfigMap.RenderAll(FlatLines(m, keys));
    var k :| k in m;
    assert k in Elems(keys);
    FlatLinesOneLine(m, keys);
    SplitJoin(lines, '\n');
    var w := ConfigMap.Marker(m[keys[0]]);
    assert lines[0] == Repeat("\t", 0) + keys[0] + ": " + w;
    assert Split("", '\n') == [""];
  }

  /**
   * The round trip of the corrected `fileOutput`: a nonempty map of flat
   * keys, saved and parsed again, is the same map, with no error.
   */
  lemma SaveParse(file: string, m: map<string, string>)
    requires m != map[] && Flat(m)
    ensures ConfigMap.Output(ConfigMap.Intended, m).Some?
    ensures Config.ParseAll(file, ConfigMap.Output(ConfigMap.Intended, m).value, map[]) == (m, None)
  {
    var keys := SortedKeys(m.Keys);
    var lines := ConfigMap.RenderAll(FlatLines(m, keys));
    FlatText(m, keys);
    var text := Join(lines, "\n");
    assert Config.ParseAll(file, text, map[]) == Config.ParseLines(file, lines, 0, [], map[]);
    ParseFlatLines(file, m, keys, lines, 0, map[]);
    assert keys[0..] == keys;
    StoreAllOfKeys(m, keys);
  }

  /** Storing every key of `m` over the empty map gives `m`. */
  lemma StoreAllOfKeys(m: map<string, string>, keys: seq<string>)
    requires Elems(keys) == m.Keys
    ensures StoreAll(map[], m, keys) == m
  {
    StoreAllCovers(map[], m, keys);
  }
}
