/**
 * `cloneSingleWeights` and `cloneWeightMap` of core/levels.esm.js: the defensive copies the
 * level manager makes of a tile-weight table and of the size → table map.
 *
 * `Number(key)` reads only numerals (see `Json.StringToNumber`), so every key that survives is
 * a non-negative integer, and JavaScript enumerates such keys in ascending order: a cleaned
 * table is an ascending `WeightTable`, and `result[numKey] = numVal` is `Weights.Put`.
 */
module Clone {
  import opened Wrappers
  import opened Json
  import opened Weights

  /** A key `Number` can read back from its own numeral. */
  predicate IsIndexKey(x: real) {
    x >= 0.0 && IsIntegral(x)
  }

  /** A table as `cloneSingleWeights` returns it. */
  predicate IsClean(t: WeightTable) {
    IsAscending(t) && forall i :: 0 <= i < |t| ==> IsIndexKey(t[i].0)
  }

  // ---------------------------------------------------------------- one table

  /** One turn of the loop: the entry is kept under `Number(key)` when key and value are finite. */
  function CleanEntry(t: WeightTable, e: (string, Json)): WeightTable {
    match (StringToNumber(e.0), ToNumber(e.1))
    case (Some(k), Some(w)) => Put(t, k, w)
    case _ => t
  }

  /** Keeping one more entry keeps the table cleaned. */
  lemma CleanEntryClean(t: WeightTable, e: (string, Json))
    requires IsClean(t)
    ensures IsClean(CleanEntry(t, e))
  {
    var r := CleanEntry(t, e);
    if r != t {
      assert forall i :: 0 <= i < |r| ==> IsKey(r, r[i].0);
      assert forall u :: IsKey(t, u) ==> IsIndexKey(u);
    }
  }

  /** The loop of `cloneSingleWeights` over the entries `es`, in order. */
  function CleanEntries(es: seq<(string, Json)>): (t: WeightTable)
    ensures IsClean(t)
  {
    if es == [] then []
    else
      var prev := CleanEntries(es[..|es| - 1]);
      CleanEntryClean(prev, es[|es| - 1]);
      CleanEntry(prev, es[|es| - 1])
  }

  /** `cloneSingleWeights(source)`: a non-object gives the empty table. */
  function CleanedTable(source: Json): (t: WeightTable)
    ensures IsClean(t)
  {
    if !Truthy(source) || !IsObject(source) then [] else CleanEntries(Entries(source))
  }

  /** `cloneSingleWeights`, with its loop. */
  method CloneSingleWeights(source: Json) returns (t: WeightTable)
    ensures t == CleanedTable(source)
  {
    if !Truthy(source) || !IsObject(source) {
      return [];
    }
    var es := Entries(source);
    t := [];
    var i := 0;
    while i < |es|
      invariant 0 <= i <= |es|
      invariant t == CleanEntries(es[..i])
    {
      assert es[..i + 1][..i] == es[..i];
      var numKey := StringToNumber(es[i].0);
      var numVal := ToNumber(es[i].1);
      if numKey.Some? && numVal.Some? {
        t := Put(t, numKey.value, numVal.value);
      }
      i := i + 1;
    }
    assert es[..i] == es;
  }

  /**
   * The independent reading of a cleaned table: the weight of `u` is the value of the last
   * entry whose key reads as `u` and whose value is a finite number.
   */
  function LastWeight(es: seq<(string, Json)>, u: real): Option<real> {
    if es == [] then None
    else
      var e := es[|es| - 1];
      if StringToNumber(e.0) == Some(u) && ToNumber(e.1).Some? then ToNumber(e.1)
      else LastWeight(es[..|es| - 1], u)
  }

  /** A value is a key of a table exactly when the table has a weight for it. */
  lemma {:induction false} IsKeyHasWeight(t: WeightTable, u: real)
    ensures IsKey(t, u) <==> WeightOf(t, u).Some?
  {
    if t != [] {
      IsKeyHasWeight(t[1..], u);
      assert t == [t[0]] + t[1..];
      KeysCons(t[0], t[1..]);
    }
  }

  /** The loop leaves for every value the weight of its last valid entry. */
  lemma {:induction false} CleanEntriesLookup(es: seq<(string, Json)>, u: real)
    ensures WeightOf(CleanEntries(es), u) == LastWeight(es, u)
  {
    if es != [] {
      var e := es[|es| - 1];
      CleanEntriesLookup(es[..|es| - 1], u);
      if StringToNumber(e.0).Some? && ToNumber(e.1).Some? {
        PutLookup(CleanEntries(es[..|es| - 1]), StringToNumber(e.0).value, ToNumber(e.1).value, u);
      }
    }
  }

  /**
   * `cloneSingleWeights` keeps exactly the entries whose key and value are finite numbers, the
   * last one winning for a repeated key, and nothing from a value that is not an object.
   */
  lemma CleanedTableExact(source: Json, u: real)
    ensures WeightOf(CleanedTable(source), u) ==
      if Truthy(source) && IsObject(source) then LastWeight(Entries(source), u) else None
    ensures IsKey(CleanedTable(source), u) <==> WeightOf(CleanedTable(source), u).Some?
  {
    IsKeyHasWeight(CleanedTable(source), u);
    if Truthy(source) && IsObject(source) {
      CleanEntriesLookup(Entries(source), u);
    }
  }

  /** A cleaned table written back as an object: `{ "1": 0.9, "2": 0.1 }`. */
  function TableFields(t: WeightTable): (fs: seq<(string, Json)>)
    requires IsClean(t)
    ensures |fs| == |t|
  {
    seq(|t|, i requires 0 <= i < |t| => (NatToString(t[i].0.Floor), JNum(t[i].1)))
  }

  function TableToJson(t: WeightTable): Json
    requires IsClean(t)
  {
    JObj(TableFields(t))
  }

  /** The numeral of a non-negative integer reads back as that integer. */
  lemma NumeralReadsBack(x: real)
    requires IsIndexKey(x)
    ensures StringToNumber(NatToString(x.Floor)) == Some(x)
  {
    NatToStringRoundTrip(x.Floor);
  }

  /** Adding a value larger than every key appends it. */
  lemma {:induction false} PutAtEnd(t: WeightTable, v: real, w: real)
    requires forall i :: 0 <= i < |t| ==> t[i].0 < v
    ensures Put(t, v, w) == t + [(v, w)]
  {
    if t != [] {
      PutAtEnd(t[1..], v, w);
      assert t == [t[0]] + t[1..];
    }
  }

  lemma {:induction false} CleanFieldsRoundTrip(t: WeightTable)
    requires IsClean(t)
    ensures CleanEntries(TableFields(t)) == t
    decreases |t|
  {
    if t != [] {
      var p := t[..|t| - 1];
      var last := t[|t| - 1];
      assert IsClean(p);
      var fs := TableFields(t);
      assert fs[..|fs| - 1] == TableFields(p);
      CleanFieldsRoundTrip(p);
      assert CleanEntries(fs) == CleanEntry(p, fs[|fs| - 1]);
      NumeralReadsBack(last.0);
      PutAtEnd(p, last.0, last.1);
      assert p + [last] == t;
    }
  }

  /** Cleaning a cleaned table again, as `_createGame` and `toJSON` do, gives it back unchanged. */
  lemma CleanRoundTrip(t: WeightTable)
    requires IsClean(t)
    ensures CleanedTable(TableToJson(t)) == t
  {
    CleanedObject(TableFields(t));
    CleanFieldsRoundTrip(t);
  }

  /** An object's table is cleaned from its fields, in order. */
  lemma CleanedObject(fs: seq<(string, Json)>)
    ensures CleanedTable(JObj(fs)) == CleanEntries(fs)
  {
  }

  // ---------------------------------------------------------------- the size → table map

  /** `randomTileWeightsBySize` after cleaning: size keys, as strings, and their tables. */
  type WeightMap = seq<(string, WeightTable)>

  /** `map[key]`, the first entry for `key`. */
  function MapGet(m: WeightMap, key: string): Option<WeightTable> {
    if m == [] then None else if m[0].0 == key then Some(m[0].1) else MapGet(m[1..], key)
  }

  /** What `map[key]` finds is an entry of the map. */
  lemma {:induction false} MapGetIn(m: WeightMap, key: string)
    ensures MapGet(m, key).Some? ==> exists i :: 0 <= i < |m| && m[i] == (key, MapGet(m, key).value)
  {
    if m != [] && m[0].0 != key && MapGet(m, key).Some? {
      MapGetIn(m[1..], key);
      var i :| 0 <= i < |m[1..]| && m[1..][i] == (key, MapGet(m, key).value);
      assert m[i + 1] == m[1..][i];
    }
  }

  predicate HasKey(m: WeightMap, key: string) {
    exists i :: 0 <= i < |m| && m[i].0 == key
  }

  predicate UniqueKeys(m: WeightMap) {
    forall i, j :: 0 <= i < j < |m| ==> m[i].0 != m[j].0
  }

  /** Every table stored is cleaned and not empty. */
  predicate MapClean(m: WeightMap) {
    forall i :: 0 <= i < |m| ==> m[i].1 != [] && IsClean(m[i].1)
  }

  /** `map[key] = t`: an existing key keeps its place, a new one goes last. */
  function SetKey(m: WeightMap, key: string, t: WeightTable): (r: WeightMap)
    ensures forall k :: MapGet(r, k) == if k == key then Some(t) else MapGet(m, k)
  {
    if m == [] then [(key, t)]
    else if m[0].0 == key then [(key, t)] + m[1..]
    else [m[0]] + SetKey(m[1..], key, t)
  }

  lemma HasKeyCons(e: (string, WeightTable), m: WeightMap, k: string)
    ensures HasKey([e] + m, k) <==> k == e.0 || HasKey(m, k)
  {
    if HasKey([e] + m, k) && k != e.0 {
      var i :| 0 <= i < |[e] + m| && ([e] + m)[i].0 == k;
      assert m[i - 1].0 == k;
    }
    if HasKey(m, k) {
      var i :| 0 <= i < |m| && m[i].0 == k;
      assert ([e] + m)[i + 1].0 == k;
    }
    assert ([e] + m)[0].0 == e.0;
  }

  /** After `map[key] = t` the keys are the old ones and `key`; a new key is appended. */
  lemma {:induction false} SetKeyKeys(m: WeightMap, key: string, t: WeightTable, k: string)
    ensures HasKey(SetKey(m, key, t), k) <==> HasKey(m, k) || k == key
    ensures !HasKey(m, key) ==> SetKey(m, key, t) == m + [(key, t)]
  {
    if m == [] {
      HasKeyCons((key, t), [], k);
    } else {
      assert m == [m[0]] + m[1..];
      HasKeyCons(m[0], m[1..], k);
      HasKeyCons(m[0], m[1..], key);
      if m[0].0 == key {
        HasKeyCons((key, t), m[1..], k);
      } else {
        SetKeyKeys(m[1..], key, t, k);
        HasKeyCons(m[0], SetKey(m[1..], key, t), k);
      }
    }
  }

  /** `map[key] = t` keeps keys unique and stores only `t` or old tables. */
  lemma {:induction false} SetKeyUnique(m: WeightMap, key: string, t: WeightTable)
    ensures UniqueKeys(m) ==> UniqueKeys(SetKey(m, key, t))
    ensures MapClean(m) && t != [] && IsClean(t) ==> MapClean(SetKey(m, key, t))
  {
    if m != [] && m[0].0 != key {
      var rest := SetKey(m[1..], key, t);
      var r := [m[0]] + rest;
      SetKeyUnique(m[1..], key, t);
      if UniqueKeys(m) {
        assert UniqueKeys(m[1..]);
        forall i | 0 < i < |r| ensures r[i].0 != m[0].0 {
          SetKeyKeys(m[1..], key, t, rest[i - 1].0);
          assert HasKey(rest, rest[i - 1].0);
          if HasKey(m[1..], rest[i - 1].0) {
            var j :| 0 <= j < |m[1..]| && m[1..][j].0 == rest[i - 1].0;
            assert m[j + 1].0 == m[1..][j].0;
          }
        }
      }
    }
  }

  /** The loop of `cloneWeightMap`: each entry's cleaned table is stored unless it is empty. */
  function CleanMapEntries(es: seq<(string, Json)>): (m: WeightMap)
    ensures UniqueKeys(m) && MapClean(m)
  {
    if es == [] then []
    else
      var prev := CleanMapEntries(es[..|es| - 1]);
      var e := es[|es| - 1];
      var inner := CleanedTable(e.1);
      SetKeyUnique(prev, e.0, inner);
      if inner == [] then prev else SetKey(prev, e.0, inner)
  }

  /** `cloneWeightMap(source)`: a non-object gives the empty map. */
  function CleanedMap(source: Json): (m: WeightMap)
    ensures UniqueKeys(m) && MapClean(m)
  {
    if !Truthy(source) || !IsObject(source) then [] else CleanMapEntries(Entries(source))
  }

  /** `cloneWeightMap`, with its loop. */
  method CloneWeightMap(source: Json) returns (m: WeightMap)
    ensures m == CleanedMap(source)
  {
    if !Truthy(source) || !IsObject(source) {
      return [];
    }
    var es := Entries(source);
    m := [];
    var i := 0;
    while i < |es|
      invariant 0 <= i <= |es|
      invariant m == CleanMapEntries(es[..i])
    {
      CleanMapEntriesStep(es, i);
      var inner := CloneSingleWeights(es[i].1);
      if |inner| != 0 {
        m := SetKey(m, es[i].0, inner);
      }
      i := i + 1;
    }
    assert es[..i] == es;
  }

  /** One more entry: its cleaned table, when not empty, is set under its key. */
  lemma CleanMapEntriesStep(es: seq<(string, Json)>, i: nat)
    requires i < |es|
    ensures CleanMapEntries(es[..i + 1]) ==
      if CleanedTable(es[i].1) == [] then CleanMapEntries(es[..i])
      else SetKey(CleanMapEntries(es[..i]), es[i].0, CleanedTable(es[i].1))
  {
    assert es[..i + 1][..i] == es[..i];
  }

  /** The independent reading: the table of `key` is that of its last entry whose cleaned table is not empty. */
  function LastTable(es: seq<(string, Json)>, key: string): Option<WeightTable> {
    if es == [] then None
    else
      var e := es[|es| - 1];
      if e.0 == key && CleanedTable(e.1) != [] then Some(CleanedTable(e.1))
      else LastTable(es[..|es| - 1], key)
  }

  lemma {:induction false} CleanMapLookup(es: seq<(string, Json)>, key: string)
    ensures MapGet(CleanMapEntries(es), key) == LastTable(es, key)
  {
    if es != [] {
      CleanMapLookup(es[..|es| - 1], key);
    }
  }

  /**
   * `cloneWeightMap` drops the sizes whose cleaned table is empty and keeps, for every other
   * size key, the cleaned table of its last entry.
   */
  lemma CleanedMapExact(source: Json, key: string)
    ensures MapGet(CleanedMap(source), key) ==
      if Truthy(source) && IsObject(source) then LastTable(Entries(source), key) else None
  {
    if Truthy(source) && IsObject(source) {
      CleanMapLookup(Entries(source), key);
    }
  }

  /** A stored map written back as an object of objects. */
  function MapFields(m: WeightMap): (fs: seq<(string, Json)>)
    requires MapClean(m)
    ensures |fs| == |m|
  {
    seq(|m|, i requires 0 <= i < |m| => (m[i].0, TableToJson(m[i].1)))
  }

  function MapToJson(m: WeightMap): Json
    requires MapClean(m)
  {
    JObj(MapFields(m))
  }

  lemma {:induction false} CleanMapFieldsRoundTrip(m: WeightMap)
    requires UniqueKeys(m) && MapClean(m)
    ensures CleanMapEntries(MapFields(m)) == m
    decreases |m|
  {
    if m != [] {
      LastKeyFresh(m);
      CleanMapFieldsRoundTrip(m[..|m| - 1]);
      CleanMapFieldsLast(m);
      SetLastKey(m);
    }
  }

  /** The last key of a map with unique keys is not among the earlier ones. */
  lemma LastKeyFresh(m: WeightMap)
    requires UniqueKeys(m) && MapClean(m) && m != []
    ensures UniqueKeys(m[..|m| - 1]) && MapClean(m[..|m| - 1])
    ensures !HasKey(m[..|m| - 1], m[|m| - 1].0)
  {
    var p := m[..|m| - 1];
    forall i | 0 <= i < |p| ensures p[i].0 != m[|m| - 1].0 {
      assert p[i] == m[i];
    }
  }

  /** The last turn of the cleaning loop over the written map stores the last table as it is. */
  lemma CleanMapFieldsLast(m: WeightMap)
    requires MapClean(m) && m != []
    requires CleanMapEntries(MapFields(m[..|m| - 1])) == m[..|m| - 1]
    ensures CleanMapEntries(MapFields(m)) == SetKey(m[..|m| - 1], m[|m| - 1].0, m[|m| - 1].1)
  {
    var fs := MapFields(m);
    assert fs[..|fs| - 1] == MapFields(m[..|m| - 1]);
    CleanRoundTrip(m[|m| - 1].1);
  }

  /** Storing the last entry of a map with unique keys under its key, after the others, rebuilds the map. */
  lemma SetLastKey(m: WeightMap)
    requires UniqueKeys(m) && MapClean(m) && m != []
    ensures SetKey(m[..|m| - 1], m[|m| - 1].0, m[|m| - 1].1) == m
  {
    var p, last := m[..|m| - 1], m[|m| - 1];
    LastKeyFresh(m);
    SetKeyKeys(p, last.0, last.1, last.0);
    assert p + [last] == m;
  }

  /** Cleaning a cleaned map again, as the constructor, `toJSON` and `restore` do, gives it back unchanged. */
  lemma CleanMapRoundTrip(m: WeightMap)
    requires UniqueKeys(m) && MapClean(m)
    ensures CleanedMap(MapToJson(m)) == m
  {
    CleanMapFieldsRoundTrip(m);
  }
}
