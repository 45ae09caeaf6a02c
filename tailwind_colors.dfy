/** The theme plugin's `extractColorVars`: flattens the nested colour palette
    into CSS custom properties on `:root`. */
module TailwindColors {

  /** A palette entry's value: a colour string, or a nested group of entries. */
  datatype ColorValue = Leaf(color: string) | Group(entries: seq<ColorEntry>)

  /** One key of a palette object, in `Object.keys` order. */
  datatype ColorEntry = ColorEntry(key: string, value: ColorValue)

  /** The variable a string leaf `key` becomes inside group `group`. */
  function VarName(group: string, key: string): string
  {
    "--color" + group + "-" + key
  }

  /** The groups the plugin passes: none at the top, `-key` below it. */
  predicate GroupPrefix(group: string)
  {
    group == "" || group[0] == '-'
  }

  /** `extractColorVars(entries, group)`: a `reduce` over the keys in order,
      each step spreading the entry's variables over the ones so far. A
      string leaf gives one variable; a nested object is flattened with the
      group `-key`, which replaces the enclosing group rather than extending it. */
  function ExtractColorVars(entries: seq<ColorEntry>, group: string): (r: map<string, string>)
    ensures entries == [] ==> r == map[]
    ensures forall n :: n in r ==> |n| >= 7 && n[..7] == "--color"
    ensures GroupPrefix(group) ==> forall n :: n in r ==> |n| >= 8 && n[..8] == "--color-"
    decreases entries
  {
    if entries == [] then map[]
    else
      var last := entries[|entries| - 1];
      ExtractColorVars(entries[..|entries| - 1], group) + EntryVars(last, group)
  }

  /** The variables one entry contributes (`newVars`). */
  function EntryVars(entry: ColorEntry, group: string): (r: map<string, string>)
    ensures entry.value.Leaf? ==> r == map[VarName(group, entry.key) := entry.value.color]
    ensures forall n :: n in r ==> |n| >= 7 && n[..7] == "--color"
    ensures GroupPrefix(group) || entry.value.Group? ==> forall n :: n in r ==> |n| >= 8 && n[..8] == "--color-"
    decreases entry
  {
    match entry.value
    case Leaf(color) => map[VarName(group, entry.key) := color]
    case Group(inner) => ExtractColorVars(inner, "-" + entry.key)
  }

  lemma VarNameInjective(group: string, a: string, b: string)
    requires VarName(group, a) == VarName(group, b)
    ensures a == b
  {
    var prefix := "--color" + group + "-";
    assert VarName(group, a) == prefix + a && VarName(group, b) == prefix + b;
    assert a == (prefix + a)[|prefix|..];
  }

  lemma MapUnionAssoc(a: map<string, string>, b: map<string, string>, c: map<string, string>)
    ensures (a + b) + c == a + (b + c)
  {
  }

  lemma Single(entry: ColorEntry, group: string)
    ensures ExtractColorVars([entry], group) == EntryVars(entry, group)
  {
    assert [entry][..0] == [];
    var m := EntryVars(entry, group);
    assert map[] + m == m;
  }

  /** Flattening a concatenation is the later part spread over the earlier:
      where two entries give the same variable, the later entry's value wins. */
  lemma {:induction false} ExtractConcat(front: seq<ColorEntry>, back: seq<ColorEntry>, group: string)
    ensures ExtractColorVars(front + back, group) == ExtractColorVars(front, group) + ExtractColorVars(back, group)
    decreases |back|
  {
    if back == [] {
      assert front + back == front;
      var m := ExtractColorVars(front, group);
      assert m + map[] == m;
    } else {
      var init := back[..|back| - 1];
      var last := back[|back| - 1];
      assert (front + back)[..|front + back| - 1] == front + init;
      assert (front + back)[|front + back| - 1] == last;
      ExtractConcat(front, init, group);
      MapUnionAssoc(ExtractColorVars(front, group), ExtractColorVars(init, group), EntryVars(last, group));
    }
  }

  /** When an entry's variable collides with an earlier entry's (a top-level
      `"apple-50"` string after an `apple` group holding `50`), the later value
      is the one kept. */
  lemma LaterEntryWins(front: seq<ColorEntry>, last: ColorEntry, group: string, name: string)
    requires name in EntryVars(last, group)
    ensures name in ExtractColorVars(front + [last], group)
    ensures ExtractColorVars(front + [last], group)[name] == EntryVars(last, group)[name]
  {
    ExtractConcat(front, [last], group);
    Single(last, group);
  }

  /** A top-level string entry `k` becomes `--color-k`. */
  lemma TopLevelLeaf(key: string, color: string)
    ensures ExtractColorVars([ColorEntry(key, Leaf(color))], "") == map["--color-" + key := color]
  {
    Single(ColorEntry(key, Leaf(color)), "");
    assert VarName("", key) == "--color-" + key;
  }

  /** A string leaf `j` nested under top-level key `k` becomes `--color-k-j`. */
  lemma NestedLeaf(key: string, inner: string, color: string)
    ensures ExtractColorVars([ColorEntry(key, Group([ColorEntry(inner, Leaf(color))]))], "")
         == map["--color-" + key + "-" + inner := color]
  {
    Single(ColorEntry(key, Group([ColorEntry(inner, Leaf(color))])), "");
    Single(ColorEntry(inner, Leaf(color)), "-" + key);
    assert VarName("-" + key, inner) == "--color-" + key + "-" + inner;
  }

  /** Group prefixes do not accumulate: a leaf at depth three carries only its
      immediate parent's key, and the outermost key does not appear. */
  lemma DeepLeafKeepsOnlyParent(outer: string, middle: string, inner: string, color: string)
    ensures ExtractColorVars([ColorEntry(outer, Group([ColorEntry(middle, Group([ColorEntry(inner, Leaf(color))]))]))], "")
         == map["--color-" + middle + "-" + inner := color]
  {
    Single(ColorEntry(outer, Group([ColorEntry(middle, Group([ColorEntry(inner, Leaf(color))]))])), "");
    Single(ColorEntry(middle, Group([ColorEntry(inner, Leaf(color))])), "-" + outer);
    Single(ColorEntry(inner, Leaf(color)), "-" + middle);
    assert VarName("-" + middle, inner) == "--color-" + middle + "-" + inner;
  }

  predicate AllLeaves(entries: seq<ColorEntry>)
  {
    forall i :: 0 <= i < |entries| ==> entries[i].value.Leaf?
  }

  /** The keys of `entries`, in order. */
  function KeysOf(entries: seq<ColorEntry>): (keys: seq<string>)
    ensures |keys| == |entries|
    ensures forall i :: 0 <= i < |entries| ==> keys[i] == entries[i].key
  {
    if entries == [] then [] else KeysOf(entries[..|entries| - 1]) + [entries[|entries| - 1].key]
  }

  /** The variable names a flat group of leaves gives. */
  function Names(keys: seq<string>, group: string): set<string>
  {
    set k | k in keys :: VarName(group, k)
  }

  lemma {:induction false} FlatKeys(entries: seq<ColorEntry>, group: string)
    requires AllLeaves(entries)
    ensures ExtractColorVars(entries, group).Keys == Names(KeysOf(entries), group)
    decreases |entries|
  {
    if entries != [] {
      var init := entries[..|entries| - 1];
      FlatKeys(init, group);
      assert KeysOf(entries) == KeysOf(init) + [entries[|entries| - 1].key];
      assert Names(KeysOf(entries), group) == Names(KeysOf(init), group) + {VarName(group, entries[|entries| - 1].key)};
    }
  }

  lemma {:induction false} NamesCount(keys: seq<string>, group: string)
    requires forall i, j :: 0 <= i < j < |keys| ==> keys[i] != keys[j]
    ensures |Names(keys, group)| == |keys|
    decreases |keys|
  {
    if keys != [] {
      var init := keys[..|keys| - 1];
      var last := keys[|keys| - 1];
      NamesCount(init, group);
      assert Names(keys, group) == Names(init, group) + {VarName(group, last)};
      if VarName(group, last) in Names(init, group) {
        var k :| k in init && VarName(group, k) == VarName(group, last);
        VarNameInjective(group, k, last);
        assert false;
      }
    }
  }

  /** A flat group of string leaves with distinct keys gives exactly one
      variable per leaf, named after the leaf's key. */
  lemma FlatGroupOnePerLeaf(entries: seq<ColorEntry>, group: string)
    requires AllLeaves(entries)
    requires forall i, j :: 0 <= i < j < |entries| ==> entries[i].key != entries[j].key
    ensures |ExtractColorVars(entries, group)| == |entries|
    ensures ExtractColorVars(entries, group).Keys == Names(KeysOf(entries), group)
  {
    FlatKeys(entries, group);
    NamesCount(KeysOf(entries), group);
  }

  /** The `apple` palette of the theme, `50` to `950`. */
  const ApplePalette := [
    ColorEntry("50", Leaf("#ecffe5")), ColorEntry("100", Leaf("#d3ffc7")),
    ColorEntry("200", Leaf("#a9ff95")), ColorEntry("300", Leaf("#73fe58")),
    ColorEntry("400", Leaf("#46f526")), ColorEntry("500", Leaf("#23dc06")),
    ColorEntry("600", Leaf("#14a800")), ColorEntry("700", Leaf("#138506")),
    ColorEntry("800", Leaf("#14690b")), ColorEntry("900", Leaf("#14580f")),
    ColorEntry("950", Leaf("#033201"))]

  const AppleKeys := ["50", "100", "200", "300", "400", "500", "600", "700", "800", "900", "950"]

  lemma AppleKeysOf()
    ensures KeysOf(ApplePalette) == AppleKeys
  {
    var keys := KeysOf(ApplePalette);
    forall i | 0 <= i < 11 ensures keys[i] == AppleKeys[i] {
    }
  }

  lemma AppleKeysDistinct()
    ensures forall i, j :: 0 <= i < j < |AppleKeys| ==> AppleKeys[i] != AppleKeys[j]
  {
    forall i, j | 0 <= i < j < |AppleKeys|
      ensures AppleKeys[i] != AppleKeys[j]
    {
      if |AppleKeys[i]| == |AppleKeys[j]| {
        assert AppleKeys[i][0] != AppleKeys[j][0] || AppleKeys[i][1] != AppleKeys[j][1];
      }
    }
  }

  /** A palette of one named flat group gives one variable per colour. */
  lemma NamedFlatGroup(name: string, palette: seq<ColorEntry>)
    requires AllLeaves(palette)
    requires forall i, j :: 0 <= i < j < |palette| ==> palette[i].key != palette[j].key
    ensures |ExtractColorVars([ColorEntry(name, Group(palette))], "")| == |palette|
  {
    Single(ColorEntry(name, Group(palette)), "");
    FlatGroupOnePerLeaf(palette, "-" + name);
  }

  /** The `apple` palette, flattened on its own, gives eleven variables. */
  lemma AppleGivesElevenVars()
    ensures |ExtractColorVars([ColorEntry("apple", Group(ApplePalette))], "")| == 11
  {
    AppleKeysOf();
    AppleKeysDistinct();
    assert AllLeaves(ApplePalette);
    assert forall i, j :: 0 <= i < j < |ApplePalette| ==> ApplePalette[i].key != ApplePalette[j].key by {
      forall i, j | 0 <= i < j < |ApplePalette|
        ensures ApplePalette[i].key != ApplePalette[j].key
      {
        assert KeysOf(ApplePalette)[i] != KeysOf(ApplePalette)[j];
      }
    }
    NamedFlatGroup("apple", ApplePalette);
  }
}
