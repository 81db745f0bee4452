/**
 * Tile-weight tables (`randomTileWeights`, `{1: 0.9, 2: 0.1}` by default) and the weighted
 * draw of `_weightedRandom`. A table is the list of its `(tile value, weight)` entries in the
 * order the source enumerates them.
 */
module Weights {
  import opened Wrappers

  type Entry = (real, real)
  type WeightTable = seq<Entry>

  /** `{1: 0.9, 2: 0.1}`. */
  function DefaultWeights(): (t: WeightTable)
    ensures |t| == 2 && IsAscending(t)
  {
    [(1.0, 0.9), (2.0, 0.1)]
  }

  /** The tile values a table can produce. */
  predicate IsKey(t: WeightTable, v: real) {
    exists i :: 0 <= i < |t| && t[i].0 == v
  }

  /** `items.reduce((s, it) => s + it.w, 0)`. */
  function Total(t: WeightTable): real {
    if t == [] then 0.0 else Total(t[..|t| - 1]) + t[|t| - 1].1
  }

  /** The sum of the first `k` weights. */
  function Prefix(t: WeightTable, k: nat): real
    requires k <= |t|
  {
    Total(t[..k])
  }

  /**
   * The loop of `_weightedRandom` started with `rnd`: subtract each weight in turn and stop at
   * the first entry where the remainder is `<= 0`; `None` when no entry is reached.
   */
  function Scan(t: WeightTable, rnd: real): (r: Option<nat>)
    ensures r.Some? ==> r.value < |t|
  {
    if t == [] then None
    else if rnd - t[0].1 <= 0.0 then Some(0)
    else match Scan(t[1..], rnd - t[0].1)
      case Some(i) => Some(i + 1)
      case None => None
  }

  /** `rng() * sum`: a draw in [0, 1) scaled to [0, total) when the total is positive. */
  function Scaled(t: WeightTable, x: real): (rnd: real)
    ensures 0.0 <= x < 1.0 && Total(t) > 0.0 ==> 0.0 <= rnd < Total(t)
  {
    var total := Total(t);
    var rnd := x * total;
    if 0.0 <= x < 1.0 && total > 0.0 then
      ScaledBelow(x, total);
      NonNegativeProduct(x, total);
      rnd
    else rnd
  }

  /** The index `_weightedRandom` picks for the draw `x`, the first entry as fallback. */
  function PickIndex(t: WeightTable, x: real): (i: nat)
    requires t != []
    ensures i < |t|
  {
    Scan(t, Scaled(t, x)).GetOr(0)
  }

  /** The tile value `_weightedRandom` returns for the draw `x`. */
  function WeightedPick(t: WeightTable, x: real): (v: real)
    requires t != []
    ensures IsKey(t, v)
  {
    t[PickIndex(t, x)].0
  }

  lemma PrefixCons(t: WeightTable, k: nat)
    requires 0 < k <= |t|
    ensures Prefix(t, k) == t[0].1 + Prefix(t[1..], k - 1)
    decreases k
  {
    if k > 1 {
      PrefixCons(t, k - 1);
      assert t[..k][..k - 1] == t[..k - 1];
      assert t[1..][..k - 1][..k - 2] == t[1..][..k - 2];
    } else {
      assert t[..1][..0] == [];
      assert t[1..][..0] == [];
    }
  }

  /** `rnd` exceeds each of the first `k` prefix sums, so the scan runs past entry `k - 1`. */
  predicate Beyond(t: WeightTable, rnd: real, k: nat)
    requires k <= |t|
  {
    forall j :: 1 <= j <= k ==> rnd > Prefix(t, j)
  }

  lemma BeyondCons(t: WeightTable, rnd: real, k: nat)
    requires 0 < k <= |t|
    ensures Beyond(t, rnd, k) <==> rnd - t[0].1 > 0.0 && Beyond(t[1..], rnd - t[0].1, k - 1)
  {
    var r := rnd - t[0].1;
    forall j | 1 <= j <= k ensures Prefix(t, j) == t[0].1 + Prefix(t[1..], j - 1) {
      PrefixCons(t, j);
    }
    assert Prefix(t[1..], 0) == 0.0 by { assert t[1..][..0] == []; }
    if Beyond(t, rnd, k) {
      assert rnd > Prefix(t, 1);
      forall j | 1 <= j <= k - 1 ensures r > Prefix(t[1..], j) {
        assert rnd > Prefix(t, j + 1);
      }
    }
    if r > 0.0 && Beyond(t[1..], r, k - 1) {
      forall j | 1 <= j <= k ensures rnd > Prefix(t, j) {
        if j > 1 {
          assert r > Prefix(t[1..], j - 1);
        }
      }
    }
  }

  /**
   * The scan stops at entry `i` exactly when `rnd` is at most the first `i + 1` weights and
   * exceeds every shorter prefix.
   */
  lemma {:induction false} ScanStopsAt(t: WeightTable, rnd: real, i: nat)
    requires i < |t|
    ensures Scan(t, rnd) == Some(i) <==> rnd <= Prefix(t, i + 1) && Beyond(t, rnd, i)
    decreases i
  {
    var r := rnd - t[0].1;
    PrefixCons(t, i + 1);
    if i == 0 {
      assert t[1..][..0] == [];
    } else {
      ScanStopsAt(t[1..], r, i - 1);
      BeyondCons(t, rnd, i);
    }
  }

  /** The scan reaches no entry exactly when `rnd` exceeds every prefix sum. */
  lemma {:induction false} ScanFallsThrough(t: WeightTable, rnd: real)
    ensures Scan(t, rnd).None? <==> Beyond(t, rnd, |t|)
  {
    if t != [] {
      ScanFallsThrough(t[1..], rnd - t[0].1);
      BeyondCons(t, rnd, |t|);
    }
  }

  lemma {:induction false} PrefixStep(t: WeightTable, a: nat, b: nat)
    requires forall k :: 0 <= k < |t| ==> t[k].1 > 0.0
    requires a < b <= |t|
    ensures Prefix(t, a) < Prefix(t, b)
    decreases b - a
  {
    assert t[..b][..b - 1] == t[..b - 1];
    if a < b - 1 {
      PrefixStep(t, a, b - 1);
    }
  }

  lemma NonNegativeProduct(x: real, y: real)
    requires 0.0 <= x && 0.0 <= y
    ensures 0.0 <= x * y
  {
  }

  lemma ScaledBelow(x: real, total: real)
    requires 0.0 <= x < 1.0 && total > 0.0
    ensures x * total < total
  {
    var gap := 1.0 - x;
    assert gap * total > 0.0;
    assert x * total + gap * total == (x + gap) * total;
  }

  /**
   * With positive weights a scan started with `rnd` in [0, total) always reaches an entry, and
   * it reaches entry `i` exactly when `rnd` lies in the `i`th slice `(prefix(i), prefix(i + 1)]`
   * (the first slice includes 0).
   */
  lemma ScanFindsSlice(t: WeightTable, rnd: real, i: nat)
    requires i < |t|
    requires forall k :: 0 <= k < |t| ==> t[k].1 > 0.0
    requires 0.0 <= rnd < Total(t)
    ensures Scan(t, rnd).Some?
    ensures Scan(t, rnd) == Some(i) <==>
      (if i == 0 then rnd <= Prefix(t, 1) else Prefix(t, i) < rnd <= Prefix(t, i + 1))
  {
    assert Prefix(t, |t|) == Total(t) by {
      assert t[..|t|] == t;
    }
    ScanFallsThrough(t, rnd);
    assert !(rnd > Prefix(t, |t|));
    ScanStopsAt(t, rnd, i);
    if i > 0 && Prefix(t, i) < rnd {
      forall j | 1 <= j <= i ensures rnd > Prefix(t, j) {
        if j < i { PrefixStep(t, j, i); }
      }
    }
  }

  /**
   * The weighted draw `x` in [0, 1) selects entry `i` exactly when the scaled draw falls in the
   * `i`th slice, so with positive weights entry `i` is chosen with probability
   * `weight(i) / total` and the fallback to the first entry never applies.
   */
  lemma PickIsSlice(t: WeightTable, x: real, i: nat)
    requires i < |t|
    requires forall k :: 0 <= k < |t| ==> t[k].1 > 0.0
    requires 0.0 <= x < 1.0
    ensures Scan(t, Scaled(t, x)).Some?
    ensures PickIndex(t, x) == i <==>
      (if i == 0 then Scaled(t, x) <= Prefix(t, 1)
       else Prefix(t, i) < Scaled(t, x) <= Prefix(t, i + 1))
  {
    assert Total(t) > 0.0 by {
      PrefixStep(t, 0, |t|);
      assert t[..0] == [];
      assert t[..|t|] == t;
    }
    ScanFindsSlice(t, Scaled(t, x), i);
  }

  // ---------------------------------------------------------------- ascending tables

  /** Entries in strictly ascending order of tile value (so no value occurs twice). */
  predicate IsAscending(t: WeightTable) {
    forall i, j :: 0 <= i < j < |t| ==> t[i].0 < t[j].0
  }

  /** The weight stored for `v`, if any. */
  function WeightOf(t: WeightTable, v: real): Option<real> {
    if t == [] then None else if t[0].0 == v then Some(t[0].1) else WeightOf(t[1..], v)
  }

  lemma KeysCons(e: Entry, t: WeightTable)
    ensures forall u :: IsKey([e] + t, u) <==> u == e.0 || IsKey(t, u)
  {
    forall u | IsKey([e] + t, u) ensures u == e.0 || IsKey(t, u) {
      var i :| 0 <= i < |[e] + t| && ([e] + t)[i].0 == u;
      if i > 0 { assert t[i - 1].0 == u; }
    }
    forall u | IsKey(t, u) ensures IsKey([e] + t, u) {
      var i :| 0 <= i < |t| && t[i].0 == u;
      assert ([e] + t)[i + 1].0 == u;
    }
    assert ([e] + t)[0].0 == e.0;
  }

  /**
   * `table[v] = w` on a table enumerated in ascending key order: an existing entry keeps its
   * place and takes the new weight, a new entry goes where its value belongs.
   */
  function Put(t: WeightTable, v: real, w: real): (r: WeightTable)
    ensures IsAscending(t) ==> IsAscending(r)
    ensures forall u :: IsKey(r, u) <==> IsKey(t, u) || u == v
    ensures |t| <= |r| <= |t| + 1
  {
    if t == [] then
      KeysCons((v, w), []);
      assert [(v, w)] + [] == [(v, w)];
      [(v, w)]
    else
      assert t == [t[0]] + t[1..];
      KeysCons(t[0], t[1..]);
      if v < t[0].0 then
        KeysCons((v, w), t);
        [(v, w)] + t
      else if v == t[0].0 then
        KeysCons((v, w), t[1..]);
        [(v, w)] + t[1..]
      else
        var rest := Put(t[1..], v, w);
        KeysCons(t[0], rest);
        assert IsAscending(t) ==> IsAscending([t[0]] + rest) by {
          if IsAscending(t) {
            forall u | IsKey(rest, u) ensures t[0].0 < u {
              if u != v {
                var i :| 0 <= i < |t[1..]| && t[1..][i].0 == u;
                assert t[i + 1].0 == u;
              }
            }
            forall i, j | 0 <= i < j < |[t[0]] + rest|
              ensures ([t[0]] + rest)[i].0 < ([t[0]] + rest)[j].0
            {
              if i == 0 {
                assert IsKey(rest, rest[j - 1].0);
              }
            }
          }
        }
        [t[0]] + rest
  }

  /** After `table[v] = w` the table maps `v` to `w` and every other value as before. */
  lemma {:induction false} PutLookup(t: WeightTable, v: real, w: real, u: real)
    ensures WeightOf(Put(t, v, w), u) == if u == v then Some(w) else WeightOf(t, u)
  {
    if t != [] && v > t[0].0 {
      PutLookup(t[1..], v, w, u);
    }
  }
}
