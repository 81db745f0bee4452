/**
 * `validateAndNormalizeSettings` of web/rules.mjs: the settings form, read as a raw object, is
 * checked field by field against the rules; accepted fields overwrite a copy of the defaults,
 * rejected ones leave the default and add an error, and the per-size weight tables are
 * rebuilt with numeric keys.
 */
module Validation {
  import opened Wrappers
  import opened Json
  import opened Weights
  import opened Settings

  /** The messages the validator pushes, one constructor per message. */
  datatype Error =
    | CanvasSizeRange
    | GapRange
    | StartSizeRange
    | SizeKeyRange(key: string)
    | SizeNotTable(key: string)
    | ValueNotNumber(key: string)
    | ProbabilityRange(key: string)
    | NoEntries(key: string)
    | SumOff(key: string, sum: real)
    | EmptyMap

  /** Messages about the weight map, as opposed to the three scalar fields. */
  predicate IsMapError(e: Error) {
    !(e.CanvasSizeRange? || e.GapRange? || e.StartSizeRange?)
  }

  /**
   * What the call produces: the settings and the errors, or an exception (a `null` table under a
   * valid size passes the `typeof` test and `Object.entries(null)` then throws).
   */
  datatype Outcome = Validated(settings: Settings, errors: seq<Error>) | Threw

  const PROBABILITY_TOLERANCE: real := 0.001

  /** `Math.round(x)`: the nearest integer, halves rounded up. */
  function Round(x: real): (n: int)
    ensures x - 0.5 < n as real <= x + 0.5
  {
    (x + 0.5).Floor
  }

  /** A number within `[lo, hi]` rounds to an integer within `[lo, hi]`. */
  lemma RoundWithin(x: real, lo: int, hi: int)
    requires lo as real <= x <= hi as real
    ensures lo <= Round(x) <= hi
  {
  }

  /** `Number(x)` is finite and lies in `[lo, hi]`. */
  predicate InRange(x: Json, lo: real, hi: real) {
    ToNumber(x).Some? && lo <= ToNumber(x).value <= hi
  }

  /** `Number(x)` is an integer in `[2, 10]`. */
  predicate IsBoardSize(x: Option<real>) {
    x.Some? && IsIntegral(x.value) && 2.0 <= x.value <= 10.0
  }

  /** The size a key of the weight map names, when `Number(key)` is an integer in `[2, 10]`. */
  function SizeOfKey(key: string): (n: Option<nat>)
    ensures n.Some? <==> IsBoardSize(StringToNumber(key))
    ensures n.Some? ==> 2 <= n.value <= 10 && n.value as real == StringToNumber(key).value
  {
    var x := StringToNumber(key);
    if IsBoardSize(x) then Some(x.value.Floor) else None
  }

  /** `names.filter((name) => typeof name === 'string' && name.length > 0)`. */
  function NonEmptyNames(names: seq<Json>): (r: seq<Json>)
    ensures forall x :: x in r <==> x in names && x.JStr? && x.s != ""
    ensures |r| <= |names|
  {
    if names == [] then []
    else
      var rest := NonEmptyNames(names[..|names| - 1]);
      var last := names[|names| - 1];
      assert names == names[..|names| - 1] + [last];
      if last.JStr? && last.s != "" then rest + [last] else rest
  }

  // ---------------------------------------------------------------- one weight item

  predicate Nullish(x: Json) {
    x.JNull? || x.JUndefined?
  }

  /** `item?.value ?? item?.[0]`. */
  function ItemValue(item: Json): Json {
    var v := Get(item, "value");
    if !Nullish(v) then v else Index(item, 0)
  }

  /** `item?.probability ?? item?.[1]`. */
  function ItemProbability(item: Json): Json {
    var p := Get(item, "probability");
    if !Nullish(p) then p else Index(item, 1)
  }

  /** The `{ value, probability }` object built from one `[key, value]` of `Object.entries`. */
  function EntryItem(e: (string, Json)): Json {
    JObj([("value", JStr(e.0)), ("probability", e.1)])
  }

  /** The items walked for one size: an array as it is, an object as its entries. */
  function Items(entries: Json): seq<Json> {
    if entries.JArr? then entries.items
    else seq(|Entries(entries)|, i requires 0 <= i < |Entries(entries)| => EntryItem(Entries(entries)[i]))
  }

  /** An entry item reads back its key as the value and its field as the probability. */
  lemma EntryItemReads(e: (string, Json))
    ensures ItemValue(EntryItem(e)) == JStr(e.0)
    ensures ItemProbability(EntryItem(e)) == if Nullish(e.1) then JUndefined else e.1
  {
    var fields := [("value", JStr(e.0)), ("probability", e.1)];
    var rest := [("probability", e.1)];
    assert fields[1..] == rest && rest[1..] == [];
    assert "probability"[0] != "value"[0];
    assert "1"[0] != "value"[0] && "1"[0] != "probability"[0];
    assert Lookup(rest, "1") == JUndefined;
    assert Lookup(fields, "1") == JUndefined;
    assert NatToString(1) == "1";
    assert Index(EntryItem(e), 1) == JUndefined;
    assert Lookup(fields, "probability") == Lookup(rest, "probability") == e.1;
  }

  datatype ItemCheck = Kept(entry: Entry) | Rejected(error: Error)

  /**
   * One item: a non-numeric value is rejected, then a probability that is not a finite number in
   * `(0, 1]`; otherwise the pair of numbers is kept.
   */
  function CheckItem(key: string, item: Json): (c: ItemCheck)
    ensures c.Rejected? ==> c.error in {ValueNotNumber(key), ProbabilityRange(key)}
    ensures c.Kept? <==> ToNumber(ItemValue(item)).Some? && InRange(ItemProbability(item), 0.0, 1.0)
                         && ToNumber(ItemProbability(item)).value != 0.0
    ensures c.Kept? ==> c.entry == (ToNumber(ItemValue(item)).value, ToNumber(ItemProbability(item)).value)
  {
    var value := ToNumber(ItemValue(item));
    var prob := ToNumber(ItemProbability(item));
    if value.None? then Rejected(ValueNotNumber(key))
    else if prob.None? || prob.value <= 0.0 || prob.value > 1.0 then Rejected(ProbabilityRange(key))
    else Kept((value.value, prob.value))
  }

  /** Every probability lies in `(0, 1]`. */
  predicate ProbabilitiesInRange(t: WeightTable) {
    forall i :: 0 <= i < |t| ==> 0.0 < t[i].1 <= 1.0
  }

  /**
   * The `forEach` over the items: the pairs kept and the errors pushed, in order. Each item
   * contributes exactly one of the two; the pairs are exactly the kept items.
   */
  function CheckItems(key: string, items: seq<Json>): (r: (WeightTable, seq<Error>))
    ensures |r.0| + |r.1| == |items|
    ensures ProbabilitiesInRange(r.0)
    ensures forall e :: e in r.1 ==> e == ValueNotNumber(key) || e == ProbabilityRange(key)
    ensures forall p :: p in r.0 <==> exists i :: 0 <= i < |items| && CheckItem(key, items[i]) == Kept(p)
  {
    if items == [] then ([], [])
    else
      var init := items[..|items| - 1];
      var last := items[|items| - 1];
      var (pairs, errs) := CheckItems(key, init);
      assert forall i :: 0 <= i < |init| ==> init[i] == items[i];
      match CheckItem(key, last)
      case Kept(p) => (pairs + [p], errs)
      case Rejected(e) => (pairs, errs + [e])
  }

  /** No pair survives exactly when every item is rejected. */
  lemma NoPairsIffAllRejected(key: string, items: seq<Json>)
    ensures CheckItems(key, items).0 == [] <==> forall i :: 0 <= i < |items| ==> CheckItem(key, items[i]).Rejected?
  {
    var pairs := CheckItems(key, items).0;
    if pairs != [] {
      assert pairs[0] in pairs;
    }
    if exists i :: 0 <= i < |items| && CheckItem(key, items[i]).Kept? {
      var i :| 0 <= i < |items| && CheckItem(key, items[i]).Kept?;
      assert CheckItem(key, items[i]).entry in pairs;
    }
  }

  // ---------------------------------------------------------------- the rebuilt tables

  /** Every entry of `Put(t, v, w)` is an entry of `t` or the new one. */
  lemma {:induction false} PutEntries(t: WeightTable, v: real, w: real)
    ensures forall e :: e in Put(t, v, w) ==> e in t || e == (v, w)
  {
    if t != [] && v > t[0].0 {
      PutEntries(t[1..], v, w);
      assert Put(t, v, w) == [t[0]] + Put(t[1..], v, w);
    }
  }

  /**
   * `normalized[size][item.value] = item.probability` for each pair in turn: an ascending
   * table whose values are those of the pairs and whose every entry is one of the pairs.
   */
  function TableOf(pairs: WeightTable): (t: WeightTable)
    ensures IsAscending(t)
    ensures forall u :: IsKey(t, u) <==> IsKey(pairs, u)
    ensures forall e :: e in t ==> e in pairs
  {
    if pairs == [] then []
    else
      var init := pairs[..|pairs| - 1];
      var last := pairs[|pairs| - 1];
      var t := TableOf(init);
      PutEntries(t, last.0, last.1);
      assert forall i :: 0 <= i < |init| ==> init[i] == pairs[i];
      assert forall u :: IsKey(pairs, u) <==> IsKey(init, u) || u == last.0 by {
        forall u | IsKey(pairs, u) ensures IsKey(init, u) || u == last.0 {
          var i :| 0 <= i < |pairs| && pairs[i].0 == u;
          if i < |init| { assert init[i].0 == u; }
        }
        assert pairs[|pairs| - 1].0 == last.0;
      }
      Put(t, last.0, last.1)
  }

  /** The table keeps, for each value, the probability of its last pair. */
  lemma TableOfLast(pairs: WeightTable, v: real, w: real)
    ensures WeightOf(TableOf(pairs + [(v, w)]), v) == Some(w)
  {
    var ps := pairs + [(v, w)];
    assert ps[..|ps| - 1] == pairs;
    PutLookup(TableOf(pairs), v, w, v);
  }

  /** A table the validator stores: non-empty, ascending, every probability in `(0, 1]`. */
  predicate IsValidTable(t: WeightTable) {
    t != [] && IsAscending(t) && ProbabilitiesInRange(t)
  }

  lemma TableOfValid(pairs: WeightTable)
    requires pairs != [] && ProbabilitiesInRange(pairs)
    ensures IsValidTable(TableOf(pairs))
  {
    var t := TableOf(pairs);
    assert IsKey(t, pairs[0].0);
    forall i | 0 <= i < |t| ensures 0.0 < t[i].1 <= 1.0 {
      assert t[i] in pairs;
    }
  }

  // ---------------------------------------------------------------- one size

  /** What one key of the map contributes. */
  datatype SizeStep =
    | Skipped(errs: seq<Error>)
    | Stored(size: nat, table: WeightTable, errs: seq<Error>)
    | SizeThrew

  /** The probability sum is outside `1 ± 0.001`. */
  predicate SumOutside(total: real) {
    total - 1.0 > PROBABILITY_TOLERANCE || 1.0 - total > PROBABILITY_TOLERANCE
  }

  /** The body of the loop over `Object.keys(map)` for the key `e.0` and the table `e.1`. */
  function CheckSize(e: (string, Json)): (s: SizeStep)
    ensures s.Stored? ==> 2 <= s.size <= 10 && IsValidTable(s.table)
    ensures !s.SizeThrew? ==> forall x :: x in s.errs ==> IsMapError(x) && x != EmptyMap
  {
    var (key, entries) := e;
    match SizeOfKey(key)
    case None => Skipped([SizeKeyRange(key)])
    case Some(n) =>
      if entries.JNull? then SizeThrew
      else if !IsObject(entries) then Skipped([SizeNotTable(key)])
      else
        var (pairs, errs) := CheckItems(key, Items(entries));
        if pairs == [] then Skipped(errs + [NoEntries(key)])
        else
          TableOfValid(pairs);
          var total := Total(pairs);
          Stored(n, TableOf(pairs), errs + if SumOutside(total) then [SumOff(key, total)] else [])
  }

  /** The pairs checked for a table that reaches the item loop. */
  function PairsOf(e: (string, Json)): WeightTable {
    CheckItems(e.0, Items(e.1)).0
  }

  /**
   * The rules for one size: a key that does not name a size in `[2, 10]` is skipped with its
   * error; a valid key with `null` throws; a table is stored exactly when the key is valid, the
   * value is an object or array, and some item survives, and then it is built from the surviving
   * pairs and a sum outside `1 ± 0.001` adds an error without dropping it.
   */
  lemma CheckSizeRules(e: (string, Json))
    ensures SizeOfKey(e.0).None? ==> CheckSize(e) == Skipped([SizeKeyRange(e.0)])
    ensures CheckSize(e).SizeThrew? <==> SizeOfKey(e.0).Some? && e.1.JNull?
    ensures CheckSize(e).Stored? <==> SizeOfKey(e.0).Some? && IsObject(e.1) && PairsOf(e) != []
    ensures CheckSize(e).Stored? ==>
              CheckSize(e).size == SizeOfKey(e.0).value && CheckSize(e).table == TableOf(PairsOf(e))
              && (SumOff(e.0, Total(PairsOf(e))) in CheckSize(e).errs <==> SumOutside(Total(PairsOf(e))))
    ensures SizeOfKey(e.0).Some? && IsObject(e.1) && PairsOf(e) == [] ==> NoEntries(e.0) in CheckSize(e).errs
  {
  }

  // ---------------------------------------------------------------- the whole map

  type SizeTables = seq<(nat, WeightTable)>

  predicate SizesAscending(m: SizeTables) {
    forall i, j :: 0 <= i < j < |m| ==> m[i].0 < m[j].0
  }

  predicate HasSize(m: SizeTables, s: nat) {
    exists i :: 0 <= i < |m| && m[i].0 == s
  }

  lemma HasSizeCons(e: (nat, WeightTable), m: SizeTables)
    ensures forall s :: HasSize([e] + m, s) <==> s == e.0 || HasSize(m, s)
  {
    forall s | HasSize([e] + m, s) ensures s == e.0 || HasSize(m, s) {
      var i :| 0 <= i < |[e] + m| && ([e] + m)[i].0 == s;
      if i > 0 { assert m[i - 1].0 == s; }
    }
    forall s | HasSize(m, s) ensures HasSize([e] + m, s) {
      var i :| 0 <= i < |m| && m[i].0 == s;
      assert ([e] + m)[i + 1].0 == s;
    }
    assert ([e] + m)[0].0 == e.0;
  }

  /**
   * `normalized[size] = table`: the sizes are integer keys, which objects enumerate in
   * ascending order, and a size written again is replaced in place.
   */
  function PutSize(m: SizeTables, s: nat, t: WeightTable): (r: SizeTables)
    ensures SizesAscending(m) ==> SizesAscending(r)
    ensures forall u :: HasSize(r, u) <==> HasSize(m, u) || u == s
    ensures forall e :: e in r ==> e in m || e == (s, t)
  {
    if m == [] then
      HasSizeCons((s, t), []);
      assert [(s, t)] + [] == [(s, t)];
      [(s, t)]
    else
      assert m == [m[0]] + m[1..];
      HasSizeCons(m[0], m[1..]);
      if s < m[0].0 then
        HasSizeCons((s, t), m);
        [(s, t)] + m
      else if s == m[0].0 then
        HasSizeCons((s, t), m[1..]);
        [(s, t)] + m[1..]
      else
        var rest := PutSize(m[1..], s, t);
        HasSizeCons(m[0], rest);
        PutSizeAscending(m, s, rest);
        [m[0]] + rest
  }

  /** Writing a size above the first one behind it keeps an ascending list ascending. */
  lemma PutSizeAscending(m: SizeTables, s: nat, rest: SizeTables)
    requires m != [] && m[0].0 < s
    requires forall u :: HasSize(rest, u) <==> HasSize(m[1..], u) || u == s
    requires SizesAscending(m[1..]) ==> SizesAscending(rest)
    ensures SizesAscending(m) ==> SizesAscending([m[0]] + rest)
  {
    if SizesAscending(m) {
      forall u | HasSize(rest, u) ensures m[0].0 < u {
        if u != s {
          var i :| 0 <= i < |m[1..]| && m[1..][i].0 == u;
          assert m[i + 1].0 == u;
        }
      }
      forall i, j | 0 <= i < j < |[m[0]] + rest|
        ensures ([m[0]] + rest)[i].0 < ([m[0]] + rest)[j].0
      {
        if i == 0 {
          assert HasSize(rest, rest[j - 1].0);
        }
      }
    }
  }

  /** Sizes with valid tables, ascending. */
  predicate IsValidMap(m: SizeTables) {
    SizesAscending(m) && forall i :: 0 <= i < |m| ==> 2 <= m[i].0 <= 10 && IsValidTable(m[i].1)
  }

  /** Some key of `es` is a valid size whose value is `null`. */
  predicate NullTableAt(es: seq<(string, Json)>) {
    exists i :: 0 <= i < |es| && SizeOfKey(es[i].0).Some? && es[i].1.JNull?
  }

  /** Some key of `es` stores a table for size `s`. */
  predicate StoresSize(es: seq<(string, Json)>, s: nat) {
    exists i :: 0 <= i < |es| && CheckSize(es[i]).Stored? && CheckSize(es[i]).size == s
  }

  /** Some key of `es` built the table `e.1` for the size `e.0`. */
  predicate BuiltByKey(es: seq<(string, Json)>, e: (nat, WeightTable)) {
    exists k :: 0 <= k < |es| && CheckSize(es[k]).Stored? && CheckSize(es[k]).size == e.0 && CheckSize(es[k]).table == e.1
  }

  /** The walk over the keys' outcomes in order, stopping at the first that throws. */
  function Collect(steps: seq<SizeStep>): Option<(SizeTables, seq<Error>)> {
    if steps == [] then Some(([], []))
    else
      match Collect(steps[..|steps| - 1])
      case None => None
      case Some((m, errs)) =>
        match steps[|steps| - 1]
        case SizeThrew => None
        case Skipped(more) => Some((m, errs + more))
        case Stored(s, t, more) => Some((PutSize(m, s, t), errs + more))
  }

  /** The outcome of each key of the map. */
  function StepsOf(es: seq<(string, Json)>): (steps: seq<SizeStep>)
    ensures |steps| == |es| && forall i :: 0 <= i < |es| ==> steps[i] == CheckSize(es[i])
  {
    seq(|es|, i requires 0 <= i < |es| => CheckSize(es[i]))
  }

  /**
   * The loop over `Object.keys(map)`: the tables built and the errors pushed, or `None` when an
   * iteration throws.
   */
  function CheckSizes(es: seq<(string, Json)>): Option<(SizeTables, seq<Error>)> {
    Collect(StepsOf(es))
  }

  /** What `CheckSize` guarantees of every outcome. */
  predicate WellFormedStep(st: SizeStep) {
    (st.Stored? ==> 2 <= st.size <= 10 && IsValidTable(st.table))
    && (!st.SizeThrew? ==> forall x :: x in st.errs ==> IsMapError(x) && x != EmptyMap)
  }

  predicate SomeStepThrows(steps: seq<SizeStep>) {
    exists i :: 0 <= i < |steps| && steps[i].SizeThrew?
  }

  lemma {:induction false} CollectThrows(steps: seq<SizeStep>)
    ensures Collect(steps).None? <==> SomeStepThrows(steps)
  {
    if steps != [] {
      var init := steps[..|steps| - 1];
      CollectThrows(init);
      assert forall i :: 0 <= i < |init| ==> init[i] == steps[i];
      if SomeStepThrows(steps) && !steps[|steps| - 1].SizeThrew? {
        var i :| 0 <= i < |steps| && steps[i].SizeThrew?;
        assert init[i].SizeThrew?;
      }
    }
  }

  lemma {:induction false} CollectValid(steps: seq<SizeStep>)
    requires forall i :: 0 <= i < |steps| ==> WellFormedStep(steps[i])
    ensures Collect(steps).Some? ==> IsValidMap(Collect(steps).value.0)
    ensures Collect(steps).Some? ==> forall x :: x in Collect(steps).value.1 ==> IsMapError(x) && x != EmptyMap
  {
    if steps != [] {
      var init := steps[..|steps| - 1];
      var last := steps[|steps| - 1];
      assert forall i :: 0 <= i < |init| ==> init[i] == steps[i];
      CollectValid(init);
      assert WellFormedStep(last);
      var r := Collect(init);
      if r.Some? && last.Stored? {
        var m := r.value.0;
        var m' := PutSize(m, last.size, last.table);
        forall i | 0 <= i < |m'| ensures 2 <= m'[i].0 <= 10 && IsValidTable(m'[i].1) {
          assert m'[i] in m || m'[i] == (last.size, last.table);
        }
      }
    }
  }

  predicate SomeStepStores(steps: seq<SizeStep>, s: nat) {
    exists i :: 0 <= i < |steps| && steps[i].Stored? && steps[i].size == s
  }

  lemma {:induction false} CollectSizes(steps: seq<SizeStep>)
    ensures Collect(steps).Some? ==> forall s :: HasSize(Collect(steps).value.0, s) <==> SomeStepStores(steps, s)
  {
    if steps != [] {
      var init := steps[..|steps| - 1];
      var last := steps[|steps| - 1];
      CollectSizes(init);
      assert forall i :: 0 <= i < |init| ==> init[i] == steps[i];
      forall s | SomeStepStores(steps, s)
        ensures SomeStepStores(init, s) || (last.Stored? && last.size == s)
      {
        var i :| 0 <= i < |steps| && steps[i].Stored? && steps[i].size == s;
        if i < |init| { assert init[i].Stored? && init[i].size == s; }
      }
      forall s | SomeStepStores(init, s) ensures SomeStepStores(steps, s) {
        var i :| 0 <= i < |init| && init[i].Stored? && init[i].size == s;
        assert steps[i].Stored? && steps[i].size == s;
      }
      if last.Stored? {
        assert steps[|steps| - 1].Stored?;
      }
    }
  }

  lemma {:induction false} CollectReports(steps: seq<SizeStep>)
    ensures Collect(steps).Some? ==>
              forall i, x :: 0 <= i < |steps| && !steps[i].SizeThrew? && x in steps[i].errs ==> x in Collect(steps).value.1
  {
    if steps != [] {
      var init := steps[..|steps| - 1];
      CollectReports(init);
      var r := Collect(steps);
      if r.Some? {
        forall i, x | 0 <= i < |steps| && !steps[i].SizeThrew? && x in steps[i].errs ensures x in r.value.1 {
          if i < |init| { assert init[i] == steps[i]; }
        }
      }
    }
  }

  lemma {:induction false} CollectFrom(steps: seq<SizeStep>)
    ensures Collect(steps).Some? ==>
              forall e :: e in Collect(steps).value.0 ==>
                exists k :: 0 <= k < |steps| && steps[k].Stored? && steps[k].size == e.0 && steps[k].table == e.1
  {
    if steps != [] {
      var init := steps[..|steps| - 1];
      var last := steps[|steps| - 1];
      CollectFrom(init);
      var r := Collect(init);
      if r.Some? && Collect(steps).Some? {
        forall e | e in Collect(steps).value.0
          ensures exists k :: 0 <= k < |steps| && steps[k].Stored? && steps[k].size == e.0 && steps[k].table == e.1
        {
          if last.Stored? && e == (last.size, last.table) {
            assert steps[|steps| - 1] == last;
          } else {
            assert e in r.value.0;
            var k :| 0 <= k < |init| && init[k].Stored? && init[k].size == e.0 && init[k].table == e.1;
            assert steps[k] == init[k];
          }
        }
      }
    }
  }

  /**
   * The map walk throws exactly when some valid size holds `null`; otherwise it holds exactly
   * the sizes some key stores, each in `[2, 10]` with a valid table and in ascending order, and
   * its errors, all about the map, include those of every key. Each table stored is the one
   * some key built for its size.
   */
  lemma CheckSizesFacts(es: seq<(string, Json)>)
    ensures CheckSizes(es).None? <==> NullTableAt(es)
    ensures CheckSizes(es).Some? ==> IsValidMap(CheckSizes(es).value.0)
    ensures CheckSizes(es).Some? ==> forall s :: HasSize(CheckSizes(es).value.0, s) <==> StoresSize(es, s)
    ensures CheckSizes(es).Some? ==> forall x :: x in CheckSizes(es).value.1 ==> IsMapError(x) && x != EmptyMap
    ensures CheckSizes(es).Some? ==>
              forall i, x :: 0 <= i < |es| && !CheckSize(es[i]).SizeThrew? && x in CheckSize(es[i]).errs ==>
                x in CheckSizes(es).value.1
    ensures CheckSizes(es).Some? ==> forall e :: e in CheckSizes(es).value.0 ==> BuiltByKey(es, e)
  {
    var steps := StepsOf(es);
    forall i | 0 <= i < |es| ensures WellFormedStep(steps[i]) && (steps[i].SizeThrew? <==> SizeOfKey(es[i].0).Some? && es[i].1.JNull?) {
      CheckSizeRules(es[i]);
    }
    CollectThrows(steps);
    CollectValid(steps);
    CollectSizes(steps);
    CollectReports(steps);
    CollectFrom(steps);
    assert SomeStepThrows(steps) <==> NullTableAt(es) by {
      if NullTableAt(es) {
        var i :| 0 <= i < |es| && SizeOfKey(es[i].0).Some? && es[i].1.JNull?;
        assert steps[i].SizeThrew?;
      }
    }
    assert forall s :: SomeStepStores(steps, s) <==> StoresSize(es, s);
  }

  /** The map is walked only when it is a truthy object; otherwise "cannot be empty". */
  predicate IsWalked(m: Json) {
    Truthy(m) && IsObject(m)
  }

  /** `normalized` and the map's errors, or `None` when the walk throws. */
  function CheckedMap(m: Json): Option<(SizeTables, seq<Error>)> {
    if IsWalked(m) then CheckSizes(Entries(m)) else Some(([], [EmptyMap]))
  }

  // ---------------------------------------------------------------- the whole form

  /** The scalar part of the result over the defaults, and its errors in order. */
  function ScalarErrors(raw: Json): seq<Error> {
    var levels := Get(raw, "LEVELS");
    (if InRange(Get(raw, "canvasSize"), 200.0, 1024.0) then [] else [CanvasSizeRange])
    + (if InRange(Get(raw, "gap"), 0.0, 48.0) then [] else [GapRange])
    + (if IsBoardSize(ToNumber(Get(levels, "startSize"))) then [] else [StartSizeRange])
  }

  /** The canvas size stored: the given one rounded when accepted, else the default. */
  function CanvasSizeOf(raw: Json): real {
    var canvas := Get(raw, "canvasSize");
    if InRange(canvas, 200.0, 1024.0) then Round(ToNumber(canvas).value) as real else DefaultSettings().canvasSize
  }

  /** The gap stored: the given one rounded when accepted, else the default. */
  function GapOf(raw: Json): real {
    var gap := Get(raw, "gap");
    if InRange(gap, 0.0, 48.0) then Round(ToNumber(gap).value) as real else DefaultSettings().gap
  }

  /** The start size stored: the given one when accepted, else the default. */
  function StartSizeOf(raw: Json): real {
    var start := ToNumber(Get(Get(raw, "LEVELS"), "startSize"));
    if IsBoardSize(start) then start.value else DefaultSettings().levels.startSize
  }

  /** The plugin names kept. */
  function PluginNamesOf(raw: Json): seq<Json> {
    var plugins := Get(raw, "pluginNames");
    if plugins.JArr? then NonEmptyNames(plugins.items) else []
  }

  /** The settings built from `raw` once the weight map has given `tables`. */
  function ValidatedSettings(raw: Json, tables: SizeTables): Settings
    requires SeedModelled(raw)
  {
    var levels := Get(raw, "LEVELS");
    SeedTextModelled(Get(raw, "seed"));
    Settings(CanvasSizeOf(raw), GapOf(raw), Truthy(Get(raw, "animate")), SeedText(Get(raw, "seed")).value,
             PluginNamesOf(raw),
             LevelSettings(StartSizeOf(raw), Truthy(Get(levels, "carryScore")),
                           KeyText(Get(levels, "targetFnKey")), NumberKeyed(tables)))
  }

  /** `validateAndNormalizeSettings(raw)`. */
  function Validation(raw: Json): Outcome
    requires SeedModelled(raw)
  {
    match CheckedMap(Get(Get(raw, "LEVELS"), "randomTileWeightsBySize"))
    case None => Threw
    case Some((tables, mapErrors)) => Validated(ValidatedSettings(raw, tables), ScalarErrors(raw) + mapErrors)
  }

  /** The weight map of `raw`. */
  function WeightMapOf(raw: Json): Json {
    Get(Get(raw, "LEVELS"), "randomTileWeightsBySize")
  }

  /** The map's errors never mention the three scalar fields. */
  lemma CheckedMapErrors(m: Json)
    ensures CheckedMap(m).Some? ==> forall x :: x in CheckedMap(m).value.1 ==> IsMapError(x)
  {
    if IsWalked(m) {
      CheckSizesFacts(Entries(m));
    }
  }

  /**
   * The scalar rules: a canvas size is accepted exactly when it is a finite number in
   * [200, 1024] and is stored rounded; a gap exactly when it is in [0, 48], rounded; a start size
   * exactly when it is an integer in [2, 10]. A rejected field keeps its default (480, 12, 2)
   * and adds its error.
   */
  lemma ScalarRules(raw: Json)
    requires SeedModelled(raw)
    ensures Validation(raw).Validated? ==>
              var v := Validation(raw).settings;
              var errors := Validation(raw).errors;
              var canvas := Get(raw, "canvasSize");
              var gap := Get(raw, "gap");
              var start := ToNumber(Get(Get(raw, "LEVELS"), "startSize"));
              (CanvasSizeRange in errors <==> !InRange(canvas, 200.0, 1024.0))
              && (InRange(canvas, 200.0, 1024.0) ==>
                    v.canvasSize == Round(ToNumber(canvas).value) as real && 200.0 <= v.canvasSize <= 1024.0)
              && (!InRange(canvas, 200.0, 1024.0) ==> v.canvasSize == 480.0)
              && (GapRange in errors <==> !InRange(gap, 0.0, 48.0))
              && (InRange(gap, 0.0, 48.0) ==> v.gap == Round(ToNumber(gap).value) as real && 0.0 <= v.gap <= 48.0)
              && (!InRange(gap, 0.0, 48.0) ==> v.gap == 12.0)
              && (StartSizeRange in errors <==> !IsBoardSize(start))
              && v.levels.startSize == (if IsBoardSize(start) then start.value else 2.0)
  {
    CanvasRule(raw);
    GapRule(raw);
    StartRule(raw);
  }

  lemma CanvasRule(raw: Json)
    requires SeedModelled(raw)
    ensures Validation(raw).Validated? ==>
              var v := Validation(raw).settings;
              var canvas := Get(raw, "canvasSize");
              (CanvasSizeRange in Validation(raw).errors <==> !InRange(canvas, 200.0, 1024.0))
              && (InRange(canvas, 200.0, 1024.0) ==>
                    v.canvasSize == Round(ToNumber(canvas).value) as real && 200.0 <= v.canvasSize <= 1024.0)
              && (!InRange(canvas, 200.0, 1024.0) ==> v.canvasSize == 480.0)
  {
    CheckedMapErrors(WeightMapOf(raw));
    var canvas := ToNumber(Get(raw, "canvasSize"));
    if InRange(Get(raw, "canvasSize"), 200.0, 1024.0) {
      RoundWithin(canvas.value, 200, 1024);
    }
  }

  lemma GapRule(raw: Json)
    requires SeedModelled(raw)
    ensures Validation(raw).Validated? ==>
              var v := Validation(raw).settings;
              var gap := Get(raw, "gap");
              (GapRange in Validation(raw).errors <==> !InRange(gap, 0.0, 48.0))
              && (InRange(gap, 0.0, 48.0) ==> v.gap == Round(ToNumber(gap).value) as real && 0.0 <= v.gap <= 48.0)
              && (!InRange(gap, 0.0, 48.0) ==> v.gap == 12.0)
  {
    CheckedMapErrors(WeightMapOf(raw));
    var gap := ToNumber(Get(raw, "gap"));
    if InRange(Get(raw, "gap"), 0.0, 48.0) {
      RoundWithin(gap.value, 0, 48);
    }
  }

  lemma StartRule(raw: Json)
    requires SeedModelled(raw)
    ensures Validation(raw).Validated? ==>
              var v := Validation(raw).settings;
              var start := ToNumber(Get(Get(raw, "LEVELS"), "startSize"));
              (StartSizeRange in Validation(raw).errors <==> !IsBoardSize(start))
              && v.levels.startSize == (if IsBoardSize(start) then start.value else 2.0)
  {
    CheckedMapErrors(WeightMapOf(raw));
  }

  /**
   * The flags and names: `animate` and `carryScore` are the truthiness of what was given, the seed
   * its text (empty for `null` or a missing one), the target key the given string or `"power"`,
   * and the plugin names the non-empty strings of a given array.
   */
  lemma FieldRules(raw: Json)
    requires SeedModelled(raw)
    ensures Validation(raw).Validated? ==>
              var v := Validation(raw).settings;
              var levels := Get(raw, "LEVELS");
              var plugins := Get(raw, "pluginNames");
              v.animate == Truthy(Get(raw, "animate"))
              && Some(v.seed) == SeedText(Get(raw, "seed"))
              && v.levels.carryScore == Truthy(Get(levels, "carryScore"))
              && v.levels.targetFnKey == (if Get(levels, "targetFnKey").JStr? then Get(levels, "targetFnKey").s else "power")
              && (forall x :: x in v.pluginNames <==> plugins.JArr? && x in plugins.items && x.JStr? && x.s != "")
  {
  }

  /** The call throws exactly when the map is walked and some valid size holds `null`. */
  lemma ThrowsRule(raw: Json)
    requires SeedModelled(raw)
    ensures Validation(raw).Threw? <==> IsWalked(WeightMapOf(raw)) && NullTableAt(Entries(WeightMapOf(raw)))
  {
    if IsWalked(WeightMapOf(raw)) {
      CheckSizesFacts(Entries(WeightMapOf(raw)));
    }
  }

  /**
   * A weight map that is missing, falsy or not an object gives the "cannot be empty" error and
   * no tables; a walked map never gives that error.
   */
  lemma EmptyMapRule(raw: Json)
    requires SeedModelled(raw)
    ensures Validation(raw).Validated? ==>
              (EmptyMap in Validation(raw).errors <==> !IsWalked(WeightMapOf(raw)))
              && (!IsWalked(WeightMapOf(raw)) ==> Validation(raw).settings.levels.weightsBySize.bySize == [])
  {
    if IsWalked(WeightMapOf(raw)) {
      CheckSizesFacts(Entries(WeightMapOf(raw)));
    }
  }

  /**
   * The stored tables are valid and ascending by size; they are exactly the sizes some key
   * stores, each the table that some key of that size built; and every key's errors are reported.
   */
  lemma TableRules(raw: Json)
    requires SeedModelled(raw)
    requires Validation(raw).Validated? && IsWalked(WeightMapOf(raw))
    ensures var es := Entries(WeightMapOf(raw));
            var tables := Validation(raw).settings.levels.weightsBySize.bySize;
            IsValidMap(tables)
            && (forall s :: HasSize(tables, s) <==> StoresSize(es, s))
            && (forall e :: e in tables ==> BuiltByKey(es, e))
            && (forall i, x :: 0 <= i < |es| && !CheckSize(es[i]).SizeThrew? && x in CheckSize(es[i]).errs ==>
                  x in Validation(raw).errors)
  {
    CheckSizesFacts(Entries(WeightMapOf(raw)));
  }

  /**
   * Per key of a walked map: a key that is not a size in [2, 10] is reported and skipped; a value
   * that is neither an array nor an object is reported; a table with no surviving item is
   * reported and omitted; a stored table whose probabilities do not sum to 1 within 0.001 is
   * reported yet kept.
   */
  lemma KeyRules(raw: Json, i: nat)
    requires SeedModelled(raw)
    requires Validation(raw).Validated? && IsWalked(WeightMapOf(raw)) && i < |Entries(WeightMapOf(raw))|
    ensures var e := Entries(WeightMapOf(raw))[i];
            var errors := Validation(raw).errors;
            var tables := Validation(raw).settings.levels.weightsBySize.bySize;
            (SizeOfKey(e.0).None? ==> SizeKeyRange(e.0) in errors)
            && (SizeOfKey(e.0).Some? && !IsObject(e.1) && !e.1.JNull? ==> SizeNotTable(e.0) in errors)
            && (SizeOfKey(e.0).Some? && IsObject(e.1) && PairsOf(e) == [] ==> NoEntries(e.0) in errors)
            && (SizeOfKey(e.0).Some? && IsObject(e.1) && PairsOf(e) != [] ==>
                  HasSize(tables, SizeOfKey(e.0).value)
                  && (SumOutside(Total(PairsOf(e))) ==> SumOff(e.0, Total(PairsOf(e))) in errors))
  {
    var m := WeightMapOf(raw);
    var es := Entries(m);
    var e := es[i];
    CheckSizesFacts(es);
    CheckSizeRules(e);
    if SizeOfKey(e.0).Some? && IsObject(e.1) && PairsOf(e) != [] {
      assert StoresSize(es, SizeOfKey(e.0).value);
    }
  }

  // ---------------------------------------------------------------- the validator, with its loops

  /** The `forEach` over one size's items. */
  method CheckItemsOf(key: string, items: seq<Json>) returns (pairs: WeightTable, errs: seq<Error>)
    ensures (pairs, errs) == CheckItems(key, items)
  {
    pairs, errs := [], [];
    var i := 0;
    while i < |items|
      invariant 0 <= i <= |items|
      invariant (pairs, errs) == CheckItems(key, items[..i])
    {
      assert items[..i + 1][..i] == items[..i];
      var c := CheckItem(key, items[i]);
      if c.Kept? {
        pairs := pairs + [c.entry];
      } else {
        errs := errs + [c.error];
      }
      i := i + 1;
    }
    assert items[..i] == items;
  }

  /** The `forEach` that writes `normalized[sizeNum][item.value] = item.probability`. */
  method BuildTable(pairs: WeightTable) returns (t: WeightTable)
    ensures t == TableOf(pairs)
  {
    t := [];
    var i := 0;
    while i < |pairs|
      invariant 0 <= i <= |pairs|
      invariant t == TableOf(pairs[..i])
    {
      assert pairs[..i + 1][..i] == pairs[..i];
      t := Put(t, pairs[i].0, pairs[i].1);
      i := i + 1;
    }
    assert pairs[..i] == pairs;
  }

  /** One iteration of the loop over `Object.keys(map)`. */
  method CheckSizeOf(e: (string, Json)) returns (st: SizeStep)
    ensures st == CheckSize(e)
  {
    var key, entries := e.0, e.1;
    var size := SizeOfKey(key);
    if size.None? {
      return Skipped([SizeKeyRange(key)]);
    }
    if entries.JNull? {
      return SizeThrew;
    }
    if !IsObject(entries) {
      return Skipped([SizeNotTable(key)]);
    }
    var pairs, errs := CheckItemsOf(key, Items(entries));
    if pairs == [] {
      return Skipped(errs + [NoEntries(key)]);
    }
    var total := Total(pairs);
    if SumOutside(total) {
      errs := errs + [SumOff(key, total)];
    }
    var table := BuildTable(pairs);
    return Stored(size.value, table, errs);
  }

  /** The weight-map part of the validator: `None` when it throws. */
  method NormalizeWeights(m: Json) returns (r: Option<(SizeTables, seq<Error>)>)
    ensures r == CheckedMap(m)
  {
    if !IsWalked(m) {
      return Some(([], [EmptyMap]));
    }
    var es := Entries(m);
    ghost var steps := StepsOf(es);
    var normalized: SizeTables := [];
    var errors: seq<Error> := [];
    var i := 0;
    while i < |es|
      invariant 0 <= i <= |es|
      invariant Collect(steps[..i]) == Some((normalized, errors))
    {
      assert steps[..i + 1][..i] == steps[..i];
      var st := CheckSizeOf(es[i]);
      if st.SizeThrew? {
        assert steps[i].SizeThrew?;
        CollectThrows(steps);
        return None;
      } else if st.Skipped? {
        errors := errors + st.errs;
      } else {
        normalized := PutSize(normalized, st.size, st.table);
        errors := errors + st.errs;
      }
      i := i + 1;
    }
    assert steps[..i] == steps;
    return Some((normalized, errors));
  }

  /** The three range-checked fields over the copied defaults, and their errors in order. */
  method CheckScalars(raw: Json, defaults: Settings) returns (canvasSize: real, gap: real, startSize: real, errors: seq<Error>)
    requires defaults == DefaultSettings()
    ensures canvasSize == CanvasSizeOf(raw) && gap == GapOf(raw) && startSize == StartSizeOf(raw)
    ensures errors == ScalarErrors(raw)
  {
    errors := [];
    var canvas := ToNumber(Get(raw, "canvasSize"));
    canvasSize := defaults.canvasSize;
    if canvas.Some? && 200.0 <= canvas.value <= 1024.0 {
      canvasSize := Round(canvas.value) as real;
    } else {
      errors := errors + [CanvasSizeRange];
    }
    var gapNum := ToNumber(Get(raw, "gap"));
    gap := defaults.gap;
    if gapNum.Some? && 0.0 <= gapNum.value <= 48.0 {
      gap := Round(gapNum.value) as real;
    } else {
      errors := errors + [GapRange];
    }
    var start := ToNumber(Get(Get(raw, "LEVELS"), "startSize"));
    startSize := defaults.levels.startSize;
    if IsBoardSize(start) {
      startSize := start.value;
    } else {
      errors := errors + [StartSizeRange];
    }
  }

  /** `validateAndNormalizeSettings(raw)`: the settings and the errors, or `Threw`. */
  method ValidateAndNormalizeSettings(raw: Json) returns (out: Outcome)
    requires SeedModelled(raw)
    ensures out == Validation(raw)
  {
    assert DistinctKeys(DefaultSettings().levels.weightsBySize.tables[0].1);
    CloneRoundTrip(DefaultSettings());
    var settings := CloneSettings(DefaultSettingsJson());
    var canvasSize, gap, startSize, errors := CheckScalars(raw, settings);
    var animate := Truthy(Get(raw, "animate"));
    SeedTextModelled(Get(raw, "seed"));
    var seed := SeedText(Get(raw, "seed")).value;
    var names := Get(raw, "pluginNames");
    var pluginNames := if names.JArr? then NonEmptyNames(names.items) else [];
    var levels := Get(raw, "LEVELS");
    var carryScore := Truthy(Get(levels, "carryScore"));
    var key := Get(levels, "targetFnKey");
    var targetFnKey := if key.JStr? then key.s else DefaultSettings().levels.targetFnKey;
    var weights := NormalizeWeights(Get(levels, "randomTileWeightsBySize"));
    if weights.None? {
      return Threw;
    }
    settings := Settings(canvasSize, gap, animate, seed, pluginNames,
                         LevelSettings(startSize, carryScore, targetFnKey, NumberKeyed(weights.value.0)));
    out := Validated(settings, errors + weights.value.1);
  }
}
