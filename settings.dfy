/**
 * The rule settings of web/rules.mjs as plain values: `DEFAULT_SETTINGS`, the deep copy
 * `cloneSettings`, and `mergeSettings`, which lays settings read back from storage over the
 * defaults field by field.
 */
module Settings {
  import opened Wrappers
  import opened Json
  import opened Weights

  /** A per-size table as the copies build it: the value keys as written, with their probabilities. */
  type TextTable = seq<(string, real)>
  type TextTables = seq<(string, TextTable)>

  /**
   * `randomTileWeightsBySize`: the copies keep the keys they read; the validator writes numeric
   * keys, sizes with ascending tables of `(tile value, probability)`.
   */
  datatype WeightsField =
    | TextKeyed(tables: TextTables)
    | NumberKeyed(bySize: seq<(nat, WeightTable)>)

  datatype LevelSettings = LevelSettings(
    startSize: real, carryScore: bool, targetFnKey: string, weightsBySize: WeightsField)

  datatype Settings = Settings(
    canvasSize: real, gap: real, animate: bool, seed: string, pluginNames: seq<Json>,
    levels: LevelSettings)

  /** `DEFAULT_SETTINGS`. */
  function DefaultSettings(): Settings {
    Settings(480.0, 12.0, false, "", [],
             LevelSettings(2.0, true, "power", TextKeyed([("4", [("2", 0.9), ("4", 0.1)])])))
  }

  // ---------------------------------------------------------------- objects as key lists

  /** `Object.keys(obj)`. */
  function Keys<V>(obj: seq<(string, V)>): (ks: seq<string>)
    ensures |ks| == |obj| && forall i :: 0 <= i < |obj| ==> ks[i] == obj[i].0
  {
    seq(|obj|, i requires 0 <= i < |obj| => obj[i].0)
  }

  predicate HasProp<V>(obj: seq<(string, V)>, key: string) {
    key in Keys(obj)
  }

  predicate DistinctKeys<V>(obj: seq<(string, V)>) {
    forall i, j :: 0 <= i < j < |obj| ==> obj[i].0 != obj[j].0
  }

  /** `obj[key] = v`: an existing key keeps its place and takes the new value, a new key goes last. */
  function SetProp<V>(obj: seq<(string, V)>, key: string, v: V): seq<(string, V)> {
    if obj == [] then [(key, v)]
    else if obj[0].0 == key then [(key, v)] + obj[1..]
    else [obj[0]] + SetProp(obj[1..], key, v)
  }

  lemma KeysCons<V>(e: (string, V), obj: seq<(string, V)>)
    ensures Keys([e] + obj) == [e.0] + Keys(obj)
  {
  }

  /** Setting a key keeps the key list, or appends the key when it is new. */
  lemma {:induction false} SetPropKeys<V>(obj: seq<(string, V)>, key: string, v: V)
    ensures Keys(SetProp(obj, key, v)) == if HasProp(obj, key) then Keys(obj) else Keys(obj) + [key]
  {
    if obj != [] {
      assert obj == [obj[0]] + obj[1..];
      KeysCons(obj[0], obj[1..]);
      if obj[0].0 == key {
        KeysCons((key, v), obj[1..]);
      } else {
        SetPropKeys(obj[1..], key, v);
        KeysCons(obj[0], SetProp(obj[1..], key, v));
      }
    }
  }

  /** Setting a key the object does not hold appends it. */
  lemma {:induction false} SetPropNew<V>(obj: seq<(string, V)>, key: string, v: V)
    requires !HasProp(obj, key)
    ensures SetProp(obj, key, v) == obj + [(key, v)]
  {
    if obj != [] {
      assert Keys(obj)[0] == obj[0].0;
      assert Keys(obj[1..]) == Keys(obj)[1..];
      SetPropNew(obj[1..], key, v);
      assert obj == [obj[0]] + obj[1..];
    }
  }

  /** Distinct keys stay distinct. */
  lemma SetPropDistinct<V>(obj: seq<(string, V)>, key: string, v: V)
    requires DistinctKeys(obj)
    ensures DistinctKeys(SetProp(obj, key, v))
  {
    SetPropKeys(obj, key, v);
    var r := SetProp(obj, key, v);
    var ks := Keys(r);
    forall i, j | 0 <= i < j < |r| ensures r[i].0 != r[j].0 {
      assert ks[i] == r[i].0 && ks[j] == r[j].0;
      if !HasProp(obj, key) && j == |obj| {
        assert Keys(obj)[i] == r[i].0;
      } else {
        assert Keys(obj)[i] == r[i].0 && Keys(obj)[j] == r[j].0;
      }
    }
  }

  /** Distinct keys are never shadowed: no key of a prefix reappears after it. */
  lemma PrefixLacksNext<V>(obj: seq<(string, V)>, k: nat)
    requires DistinctKeys(obj) && k < |obj|
    ensures !HasProp(obj[..k], obj[k].0)
  {
    var ks := Keys(obj[..k]);
    forall i | 0 <= i < k ensures ks[i] != obj[k].0 {
      assert ks[i] == obj[i].0;
    }
  }

  // ---------------------------------------------------------------- coercions

  /**
   * `Number(x) || 0`: the number, or 0 for NaN. A stored number is a real here, so ±Infinity,
   * which JavaScript keeps, also becomes 0.
   */
  function NumberOrZero(x: Json): real {
    ToNumber(x).GetOr(0.0)
  }

  /** `typeof x === 'string' ? x : (x == null ? '' : String(x))`; `None` where `String(x)` is not modelled. */
  function SeedText(x: Json): Option<string> {
    if x.JStr? then Some(x.s) else if x.JNull? || x.JUndefined? then Some("") else ToJsString(x)
  }

  /** What the copies and `mergeSettings` need of a `seed` field to be modelled. */
  predicate SeedModelled(j: Json) {
    ToJsString(Get(j, "seed")).Some?
  }

  lemma SeedTextModelled(x: Json)
    requires ToJsString(x).Some?
    ensures SeedText(x).Some?
  {
  }

  /** `typeof x === 'string' ? x : 'power'`. */
  function KeyText(x: Json): string {
    if x.JStr? then x.s else "power"
  }

  /** `names.filter((name) => typeof name === 'string')`. */
  function StringsOnly(names: seq<Json>): (r: seq<Json>)
    ensures |r| <= |names|
    ensures forall i :: 0 <= i < |r| ==> r[i].JStr? && r[i] in names
  {
    if names == [] then []
    else
      var rest := StringsOnly(names[..|names| - 1]);
      if names[|names| - 1].JStr? then rest + [names[|names| - 1]] else rest
  }

  lemma {:induction false} StringsOnlyKeepsStrings(names: seq<Json>)
    requires forall i :: 0 <= i < |names| ==> names[i].JStr?
    ensures StringsOnly(names) == names
  {
    if names != [] {
      StringsOnlyKeepsStrings(names[..|names| - 1]);
      assert names[..|names| - 1] + [names[|names| - 1]] == names;
    }
  }

  // ---------------------------------------------------------------- copying the tables

  /** One step of the inner copy loop: keep a finite probability under its key. */
  function CopyEntry(t: TextTable, e: (string, Json)): TextTable {
    match ToNumber(e.1)
    case Some(p) => SetProp(t, e.0, p)
    case None => t
  }

  /** The inner loop over the entries of one size's table. */
  function CopyTable(es: seq<(string, Json)>): TextTable {
    if es == [] then [] else CopyEntry(CopyTable(es[..|es| - 1]), es[|es| - 1])
  }

  /** One step of the outer loop: a size whose value is a non-null object gets its copied table. */
  function CopySize(m: TextTables, e: (string, Json)): TextTables {
    if Truthy(e.1) && IsObject(e.1) then SetProp(m, e.0, CopyTable(Entries(e.1))) else m
  }

  function CopySizes(es: seq<(string, Json)>): TextTables {
    if es == [] then [] else CopySize(CopySizes(es[..|es| - 1]), es[|es| - 1])
  }

  /** The copy of `randomTileWeightsBySize` that `cloneSettings` and `mergeSettings` build. */
  function CopiedTables(source: Json): TextTables {
    if Truthy(source) && IsObject(source) then CopySizes(Entries(source)) else []
  }

  /** The nested loop both copies run over a size-to-table map. */
  method CopyWeightTables(source: Json) returns (tables: TextTables)
    ensures tables == CopiedTables(source)
  {
    tables := [];
    if !Truthy(source) || !IsObject(source) {
      return;
    }
    var sizes := Entries(source);
    var i := 0;
    while i < |sizes|
      invariant 0 <= i <= |sizes|
      invariant tables == CopySizes(sizes[..i])
    {
      assert sizes[..i + 1][..i] == sizes[..i];
      var inner := sizes[i].1;
      if Truthy(inner) && IsObject(inner) {
        var entries := Entries(inner);
        var copy: TextTable := [];
        var j := 0;
        while j < |entries|
          invariant 0 <= j <= |entries|
          invariant copy == CopyTable(entries[..j])
        {
          assert entries[..j + 1][..j] == entries[..j];
          var prob := ToNumber(entries[j].1);
          if prob.Some? {
            copy := SetProp(copy, entries[j].0, prob.value);
          }
          j := j + 1;
        }
        assert entries[..j] == entries;
        tables := SetProp(tables, sizes[i].0, copy);
      }
      i := i + 1;
    }
    assert sizes[..i] == sizes;
  }

  // ---------------------------------------------------------------- serialised form

  function TableJson(t: TextTable): Json {
    JObj(seq(|t|, i requires 0 <= i < |t| => (t[i].0, JNum(t[i].1))))
  }

  function TablesJson(m: TextTables): Json {
    JObj(seq(|m|, i requires 0 <= i < |m| => (m[i].0, TableJson(m[i].1))))
  }

  /** The settings object with the field order of `DEFAULT_SETTINGS`. */
  function SettingsJson(s: Settings): Json
    requires s.levels.weightsBySize.TextKeyed?
  {
    SettingsObject(JNum(s.canvasSize), JNum(s.gap), JBool(s.animate), JStr(s.seed), JArr(s.pluginNames),
      LevelsObject(JNum(s.levels.startSize), JBool(s.levels.carryScore), JStr(s.levels.targetFnKey),
                   TablesJson(s.levels.weightsBySize.tables)))
  }

  function SettingsObject(canvasSize: Json, gap: Json, animate: Json, seed: Json, plugins: Json, levels: Json): Json {
    JObj([("canvasSize", canvasSize), ("gap", gap), ("animate", animate), ("seed", seed),
          ("pluginNames", plugins), ("LEVELS", levels)])
  }

  function LevelsObject(startSize: Json, carry: Json, key: Json, weights: Json): Json {
    JObj([("startSize", startSize), ("carryScore", carry), ("targetFnKey", key),
          ("randomTileWeightsBySize", weights)])
  }

  lemma SettingsObjectGets(canvasSize: Json, gap: Json, animate: Json, seed: Json, plugins: Json, levels: Json)
    ensures var j := SettingsObject(canvasSize, gap, animate, seed, plugins, levels);
      Get(j, "canvasSize") == canvasSize && Get(j, "gap") == gap && Get(j, "animate") == animate &&
      Get(j, "seed") == seed && Get(j, "pluginNames") == plugins && Get(j, "LEVELS") == levels
  {
    var fs := SettingsObject(canvasSize, gap, animate, seed, plugins, levels).fields;
    assert "canvasSize"[0] != "gap"[0] && "canvasSize"[0] != "animate"[0] && "gap"[0] != "animate"[0];
    LookupAt(fs, 0);
    LookupAt(fs, 1);
    LookupAt(fs, 2);
    LookupAt(fs, 3);
    LookupAt(fs, 4);
    LookupAt(fs, 5);
  }

  lemma LevelsObjectGets(startSize: Json, carry: Json, key: Json, weights: Json)
    ensures var j := LevelsObject(startSize, carry, key, weights);
      Get(j, "startSize") == startSize && Get(j, "carryScore") == carry &&
      Get(j, "targetFnKey") == key && Get(j, "randomTileWeightsBySize") == weights
  {
    var fs := LevelsObject(startSize, carry, key, weights).fields;
    assert "startSize"[0] != "carryScore"[0] && "startSize"[0] != "targetFnKey"[0] && "carryScore"[0] != "targetFnKey"[0];
    LookupAt(fs, 0);
    LookupAt(fs, 1);
    LookupAt(fs, 2);
    LookupAt(fs, 3);
  }

  /** Tables with distinct keys at both levels, as a JavaScript object holds them. */
  predicate WellKeyed(m: TextTables) {
    DistinctKeys(m) && forall i :: 0 <= i < |m| ==> DistinctKeys(m[i].1)
  }

  /** Copying a written table gives it back. */
  lemma {:induction false} CopyTableRoundTrip(t: TextTable)
    requires DistinctKeys(t)
    ensures CopyTable(Entries(TableJson(t))) == t
  {
    var es := Entries(TableJson(t));
    var k := 0;
    while k < |t|
      invariant 0 <= k <= |t|
      invariant CopyTable(es[..k]) == t[..k]
    {
      assert es[..k + 1][..k] == es[..k];
      assert DistinctKeys(t[..k]);
      PrefixLacksNext(t, k);
      SetPropNew(t[..k], t[k].0, t[k].1);
      assert t[..k] + [(t[k].0, t[k].1)] == t[..k + 1];
      k := k + 1;
    }
    assert es[..k] == es && t[..k] == t;
  }

  /** Copying the written tables gives them back. */
  lemma {:induction false} CopyTablesRoundTrip(m: TextTables)
    requires WellKeyed(m)
    ensures CopiedTables(TablesJson(m)) == m
  {
    var es := Entries(TablesJson(m));
    var k := 0;
    while k < |m|
      invariant 0 <= k <= |m|
      invariant CopySizes(es[..k]) == m[..k]
    {
      CopySizesStep(m, es, k);
      k := k + 1;
    }
    assert es[..k] == es && m[..k] == m;
  }

  lemma CopySizesStep(m: TextTables, es: seq<(string, Json)>, k: nat)
    requires WellKeyed(m) && es == Entries(TablesJson(m)) && k < |m|
    requires CopySizes(es[..k]) == m[..k]
    ensures CopySizes(es[..k + 1]) == m[..k + 1]
  {
    assert es[..k + 1][..k] == es[..k];
    CopyTableRoundTrip(m[k].1);
    PrefixLacksNext(m, k);
    SetPropNew(m[..k], m[k].0, m[k].1);
    assert m[..k] + [(m[k].0, m[k].1)] == m[..k + 1];
  }

  /** A copied table never holds a key twice. */
  lemma {:induction false} CopyTableDistinct(es: seq<(string, Json)>)
    ensures DistinctKeys(CopyTable(es))
  {
    if es != [] {
      CopyTableDistinct(es[..|es| - 1]);
      var e := es[|es| - 1];
      if ToNumber(e.1).Some? {
        SetPropDistinct(CopyTable(es[..|es| - 1]), e.0, ToNumber(e.1).value);
      }
    }
  }

  /** Setting a table keeps the keys of the others and of itself distinct. */
  lemma SetTableWellKeyed(m: TextTables, key: string, t: TextTable)
    requires WellKeyed(m) && DistinctKeys(t)
    ensures WellKeyed(SetProp(m, key, t))
  {
    SetPropDistinct(m, key, t);
    SetTableValues(m, key, t);
  }

  /** Each table of `SetProp(m, key, t)` is `t` or one of `m`. */
  lemma {:induction false} SetTableValues(m: TextTables, key: string, t: TextTable)
    ensures forall i :: 0 <= i < |SetProp(m, key, t)| ==>
      SetProp(m, key, t)[i].1 == t || exists j :: 0 <= j < |m| && SetProp(m, key, t)[i].1 == m[j].1
  {
    if m != [] && m[0].0 != key {
      SetTableValues(m[1..], key, t);
      var r := SetProp(m, key, t);
      forall i | 0 <= i < |r|
        ensures r[i].1 == t || exists j :: 0 <= j < |m| && r[i].1 == m[j].1
      {
        if i > 0 {
          var r' := SetProp(m[1..], key, t);
          assert r[i] == r'[i - 1];
          if r'[i - 1].1 != t {
            var j :| 0 <= j < |m[1..]| && r'[i - 1].1 == m[1..][j].1;
            assert r[i].1 == m[j + 1].1;
          }
        } else {
          assert r[0].1 == m[0].1;
        }
      }
    } else if m != [] {
      var r := SetProp(m, key, t);
      forall i | 0 <= i < |r|
        ensures r[i].1 == t || exists j :: 0 <= j < |m| && r[i].1 == m[j].1
      {
        if i > 0 {
          assert r[i].1 == m[i].1;
        }
      }
    }
  }

  /** The copies build JavaScript objects: no size and no value key is held twice. */
  lemma {:induction false} CopySizesWellKeyed(es: seq<(string, Json)>)
    ensures WellKeyed(CopySizes(es))
  {
    if es != [] {
      CopySizesWellKeyed(es[..|es| - 1]);
      var e := es[|es| - 1];
      if Truthy(e.1) && IsObject(e.1) {
        CopyTableDistinct(Entries(e.1));
        SetTableWellKeyed(CopySizes(es[..|es| - 1]), e.0, CopyTable(Entries(e.1)));
      }
    }
  }

  lemma CopiedTablesWellKeyed(source: Json)
    ensures WellKeyed(CopiedTables(source))
  {
    if Truthy(source) && IsObject(source) {
      CopySizesWellKeyed(Entries(source));
    }
  }

  // ---------------------------------------------------------------- cloneSettings

  /** The copy of a truthy source. */
  function ClonedObject(src: Json): Settings
    requires SeedModelled(src)
  {
    ClonedFields(Get(src, "canvasSize"), Get(src, "gap"), Get(src, "animate"), Get(src, "seed"),
                 Get(src, "pluginNames"), Get(src, "LEVELS"))
  }

  /** The copy, from the fields the source object holds. */
  function ClonedFields(canvasSize: Json, gap: Json, animate: Json, seed: Json, plugins: Json, levels: Json): Settings
    requires ToJsString(seed).Some?
  {
    SeedTextModelled(seed);
    Settings(NumberOrZero(canvasSize), NumberOrZero(gap), Truthy(animate), SeedText(seed).value,
             if plugins.JArr? then plugins.items else [], ClonedLevels(levels))
  }

  /** The copy of the `LEVELS` part. */
  function ClonedLevels(levels: Json): LevelSettings {
    LevelSettings(NumberOrZero(Get(levels, "startSize")), Truthy(Get(levels, "carryScore")),
                  KeyText(Get(levels, "targetFnKey")),
                  TextKeyed(CopiedTables(Get(levels, "randomTileWeightsBySize"))))
  }

  /** The serialised default settings. */
  function DefaultSettingsJson(): Json {
    SettingsJson(DefaultSettings())
  }

  /**
   * `cloneSettings(source)`: a falsy source gives a copy of `DEFAULT_SETTINGS`, which is the
   * defaults themselves (`CloneDefaults`).
   */
  function Cloned(source: Json): Settings
    requires SeedModelled(source)
  {
    if Truthy(source) then ClonedObject(source) else DefaultSettings()
  }

  lemma DefaultsSeedModelled()
    ensures SeedModelled(DefaultSettingsJson())
  {
    var d := DefaultSettings();
    SettingsObjectGets(JNum(d.canvasSize), JNum(d.gap), JBool(d.animate), JStr(d.seed), JArr(d.pluginNames),
      LevelsObject(JNum(d.levels.startSize), JBool(d.levels.carryScore), JStr(d.levels.targetFnKey),
                   TablesJson(d.levels.weightsBySize.tables)));
  }

  /** `cloneSettings`, with its copy loops. */
  method CloneSettings(source: Json) returns (s: Settings)
    requires SeedModelled(source)
    ensures s == Cloned(source)
  {
    var src := source;
    if !Truthy(source) {
      DefaultsSeedModelled();
      src := DefaultSettingsJson();
    }
    var levels := Get(src, "LEVELS");
    var plugins := Get(src, "pluginNames");
    var tables := CopyWeightTables(Get(levels, "randomTileWeightsBySize"));
    SeedTextModelled(Get(src, "seed"));
    s := Settings(NumberOrZero(Get(src, "canvasSize")), NumberOrZero(Get(src, "gap")), Truthy(Get(src, "animate")),
                  SeedText(Get(src, "seed")).value, if plugins.JArr? then plugins.items else [],
                  LevelSettings(NumberOrZero(Get(levels, "startSize")), Truthy(Get(levels, "carryScore")),
                                KeyText(Get(levels, "targetFnKey")), TextKeyed(tables)));
    if !Truthy(source) {
      CloneDefaults();
    }
  }

  /** Settings a copy can reproduce: text-keyed tables with distinct keys. */
  predicate Copyable(s: Settings) {
    s.levels.weightsBySize.TextKeyed? && WellKeyed(s.levels.weightsBySize.tables)
  }

  /** The copy of an object depends only on the six fields it reads. */
  lemma ClonedOfFields(j: Json, canvasSize: Json, gap: Json, animate: Json, seed: string, plugins: seq<Json>, levels: Json)
    requires j.JObj?
    requires Get(j, "canvasSize") == canvasSize && Get(j, "gap") == gap && Get(j, "animate") == animate
    requires Get(j, "seed") == JStr(seed) && Get(j, "pluginNames") == JArr(plugins) && Get(j, "LEVELS") == levels
    ensures SeedModelled(j)
    ensures Cloned(j) == Settings(NumberOrZero(canvasSize), NumberOrZero(gap), Truthy(animate), seed, plugins,
                                  ClonedLevels(levels))
  {
  }

  /** The copy of a `LEVELS` object with the field order of `DEFAULT_SETTINGS`, field by field. */
  lemma ClonedLevelsOfObject(startSize: Json, carry: Json, key: Json, weights: Json)
    ensures ClonedLevels(LevelsObject(startSize, carry, key, weights)) ==
      LevelSettings(NumberOrZero(startSize), Truthy(carry), KeyText(key), TextKeyed(CopiedTables(weights)))
  {
    LevelsObjectGets(startSize, carry, key, weights);
  }

  /** The copy is deep and exact: cloning the serialised settings gives them back. */
  lemma CloneRoundTrip(s: Settings)
    requires Copyable(s)
    ensures SeedModelled(SettingsJson(s)) && Cloned(SettingsJson(s)) == s
  {
    var l := s.levels;
    var lj := LevelsObject(JNum(l.startSize), JBool(l.carryScore), JStr(l.targetFnKey), TablesJson(l.weightsBySize.tables));
    SettingsObjectGets(JNum(s.canvasSize), JNum(s.gap), JBool(s.animate), JStr(s.seed), JArr(s.pluginNames), lj);
    ClonedOfFields(SettingsJson(s), JNum(s.canvasSize), JNum(s.gap), JBool(s.animate), s.seed, s.pluginNames, lj);
    ClonedLevelsOfObject(JNum(l.startSize), JBool(l.carryScore), JStr(l.targetFnKey), TablesJson(l.weightsBySize.tables));
    CopyTablesRoundTrip(l.weightsBySize.tables);
  }

  /** A copy of a copy is the copy: `cloneSettings` is idempotent on what it returns. */
  lemma CloneIdempotent(source: Json)
    requires SeedModelled(source)
    ensures Copyable(Cloned(source))
    ensures SeedModelled(SettingsJson(Cloned(source))) && Cloned(SettingsJson(Cloned(source))) == Cloned(source)
  {
    if Truthy(source) {
      CopiedTablesWellKeyed(Get(Get(source, "LEVELS"), "randomTileWeightsBySize"));
    } else {
      assert DistinctKeys(DefaultSettings().levels.weightsBySize.tables[0].1);
    }
    CloneRoundTrip(Cloned(source));
  }

  /** Copying `DEFAULT_SETTINGS`, which `cloneSettings` does for a falsy source, gives the defaults. */
  lemma CloneDefaults()
    ensures SeedModelled(DefaultSettingsJson()) && ClonedObject(DefaultSettingsJson()) == DefaultSettings()
  {
    var d := DefaultSettings();
    assert DistinctKeys(d.levels.weightsBySize.tables[0].1);
    CloneRoundTrip(d);
  }

  // ---------------------------------------------------------------- mergeSettings

  /** The `LEVELS` part of `mergeSettings`, over the copied defaults `m`. */
  function MergedLevels(m: LevelSettings, levels: Json): LevelSettings {
    if !(Truthy(levels) && IsObject(levels)) then m
    else
      var start := Get(levels, "startSize");
      var carry := Get(levels, "carryScore");
      var key := Get(levels, "targetFnKey");
      var raw := Get(levels, "randomTileWeightsBySize");
      LevelSettings(ToNumber(start).GetOr(m.startSize),
                    if carry.JBool? then carry.b else m.carryScore,
                    if key.JStr? then key.s else m.targetFnKey,
                    if Truthy(raw) && IsObject(raw) then TextKeyed(CopiedTables(raw)) else m.weightsBySize)
  }

  /**
   * `mergeSettings(defaults, stored)`: the copied defaults, each field overridden by the stored
   * one only when that has the expected type (a finite number, a boolean, a string, an array,
   * an object); a falsy `stored` leaves the copy as it is.
   */
  function Merged(defaults: Json, stored: Json): Settings
    requires SeedModelled(defaults) && SeedModelled(stored)
  {
    MergedOver(Cloned(defaults), stored)
  }

  /** The overrides of `mergeSettings`, laid over the copy `m` of the defaults. */
  function MergedOver(m: Settings, stored: Json): Settings
    requires SeedModelled(stored)
  {
    if !Truthy(stored) then m
    else
      var animate := Get(stored, "animate");
      var seed := Get(stored, "seed");
      var plugins := Get(stored, "pluginNames");
      Settings(ToNumber(Get(stored, "canvasSize")).GetOr(m.canvasSize),
               ToNumber(Get(stored, "gap")).GetOr(m.gap),
               if animate.JBool? then animate.b else m.animate,
               if seed.JNull? || seed.JUndefined? then m.seed else ToJsString(seed).value,
               if plugins.JArr? then StringsOnly(plugins.items) else m.pluginNames,
               MergedLevels(m.levels, Get(stored, "LEVELS")))
  }

  /** `mergeSettings`: copy the defaults, then overwrite the fields of the copy. */
  method MergeSettings(defaults: Json, stored: Json) returns (merged: Settings)
    requires SeedModelled(defaults) && SeedModelled(stored)
    ensures merged == Merged(defaults, stored)
  {
    merged := CloneSettings(defaults);
    merged := MergeStored(merged, stored);
  }

  /** The body of `mergeSettings` after the copy: overwrite the fields of `m` one by one. */
  method MergeStored(m: Settings, stored: Json) returns (merged: Settings)
    requires SeedModelled(stored)
    ensures merged == MergedOver(m, stored)
  {
    merged := m;
    if !Truthy(stored) {
      return;
    }
    var canvasSize, gap, animate, seed, plugins := merged.canvasSize, merged.gap, merged.animate,
                                                   merged.seed, merged.pluginNames;
    var canvasNum := ToNumber(Get(stored, "canvasSize"));
    if canvasNum.Some? {
      canvasSize := canvasNum.value;
    }
    var gapNum := ToNumber(Get(stored, "gap"));
    if gapNum.Some? {
      gap := gapNum.value;
    }
    var animateRaw := Get(stored, "animate");
    if animateRaw.JBool? {
      animate := animateRaw.b;
    }
    var seedRaw := Get(stored, "seed");
    if !seedRaw.JNull? && !seedRaw.JUndefined? {
      seed := ToJsString(seedRaw).value;
    }
    var pluginsRaw := Get(stored, "pluginNames");
    if pluginsRaw.JArr? {
      plugins := StringsOnly(pluginsRaw.items);
    }
    var levels := MergeLevels(merged.levels, Get(stored, "LEVELS"));
    merged := Settings(canvasSize, gap, animate, seed, plugins, levels);
  }

  /** The `LEVELS` part of `mergeSettings`. */
  method MergeLevels(m: LevelSettings, levels: Json) returns (lv: LevelSettings)
    ensures lv == MergedLevels(m, levels)
  {
    lv := m;
    if !Truthy(levels) || !IsObject(levels) {
      return;
    }
    var start := ToNumber(Get(levels, "startSize"));
    if start.Some? {
      lv := lv.(startSize := start.value);
    }
    var carry := Get(levels, "carryScore");
    if carry.JBool? {
      lv := lv.(carryScore := carry.b);
    }
    var key := Get(levels, "targetFnKey");
    if key.JStr? {
      lv := lv.(targetFnKey := key.s);
    }
    var raw := Get(levels, "randomTileWeightsBySize");
    if Truthy(raw) && IsObject(raw) {
      var tables := CopyWeightTables(raw);
      lv := lv.(weightsBySize := TextKeyed(tables));
    }
  }

  /** Nothing stored, or an object holding nothing of the expected types, leaves the copied defaults. */
  lemma MergeKeepsDefaults(defaults: Json, stored: Json)
    requires SeedModelled(defaults) && SeedModelled(stored)
    requires Truthy(stored) ==>
      ToNumber(Get(stored, "canvasSize")).None? && ToNumber(Get(stored, "gap")).None? &&
      !Get(stored, "animate").JBool? && (Get(stored, "seed").JNull? || Get(stored, "seed").JUndefined?) &&
      !Get(stored, "pluginNames").JArr? && !IsObject(Get(stored, "LEVELS"))
    ensures Merged(defaults, stored) == Cloned(defaults)
  {
  }

  /** A saved `LEVELS` object with fields of the expected types replaces the defaults' one. */
  lemma MergedLevelsRoundTrip(m: LevelSettings, l: LevelSettings)
    requires l.weightsBySize.TextKeyed? && WellKeyed(l.weightsBySize.tables)
    ensures MergedLevels(m, LevelsObject(JNum(l.startSize), JBool(l.carryScore), JStr(l.targetFnKey),
                                         TablesJson(l.weightsBySize.tables))) == l
  {
    LevelsObjectGets(JNum(l.startSize), JBool(l.carryScore), JStr(l.targetFnKey), TablesJson(l.weightsBySize.tables));
    CopyTablesRoundTrip(l.weightsBySize.tables);
  }

  /** What `mergeSettings` makes of a stored object with the field order of `DEFAULT_SETTINGS`, field by field. */
  lemma MergedOfObject(m: Settings, canvasSize: Json, gap: Json, animate: Json, seed: string,
                       plugins: seq<Json>, levels: Json)
    ensures var j := SettingsObject(canvasSize, gap, animate, JStr(seed), JArr(plugins), levels);
      SeedModelled(j) &&
      MergedOver(m, j) == Settings(ToNumber(canvasSize).GetOr(m.canvasSize), ToNumber(gap).GetOr(m.gap),
                                   if animate.JBool? then animate.b else m.animate, seed,
                                   StringsOnly(plugins), MergedLevels(m.levels, levels))
  {
    SettingsObjectGets(canvasSize, gap, animate, JStr(seed), JArr(plugins), levels);
  }

  /** Settings saved with every field of the expected type come back unchanged, whatever the defaults. */
  lemma MergeRoundTrip(defaults: Json, s: Settings)
    requires SeedModelled(defaults) && Copyable(s)
    requires forall i :: 0 <= i < |s.pluginNames| ==> s.pluginNames[i].JStr?
    ensures SeedModelled(SettingsJson(s)) && Merged(defaults, SettingsJson(s)) == s
  {
    var l := s.levels;
    MergedOfObject(Cloned(defaults), JNum(s.canvasSize), JNum(s.gap), JBool(s.animate), s.seed, s.pluginNames,
                   LevelsObject(JNum(l.startSize), JBool(l.carryScore), JStr(l.targetFnKey),
                                TablesJson(l.weightsBySize.tables)));
    MergedLevelsRoundTrip(Cloned(defaults).levels, l);
    StringsOnlyKeepsStrings(s.pluginNames);
  }
}
