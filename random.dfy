/**
 * Where a game's random numbers come from. `Game2048` calls `this._rng()`, which is either a
 * seeded generator from core/rng.cjs.js or `Math.random`; the miniprogram copy calls
 * `Math.random` directly. `Math.random` is modelled as an `Oracle`: a fixed but unknown
 * sequence of values in [0, 1), and a count of how many have been taken.
 */
module RandomSource {
  import opened Rng

  /** `Math.random`: returns `draws(0)`, `draws(1)`, … in turn. */
  class Oracle {
    const draws: nat -> real
    var used: nat

    ghost predicate Valid() {
      forall i :: 0.0 <= draws(i) < 1.0
    }

    constructor (draws: nat -> real)
      requires forall i :: 0.0 <= draws(i) < 1.0
      ensures Valid() && this.draws == draws && used == 0
    {
      this.draws := draws;
      used := 0;
    }

    method Next() returns (x: real)
      requires Valid()
      modifies this
      ensures used == old(used) + 1
      ensures x == draws(old(used)) && 0.0 <= x < 1.0
    {
      x := draws(used);
      used := used + 1;
    }
  }

  /** The generator in use — the seeded one when there is one, `Math.random` otherwise — is ready. */
  ghost predicate SourceValid(rng: Lcg?, oracle: Oracle)
    reads rng, oracle
  {
    oracle.Valid() && (rng != null ==> rng.Valid())
  }

  /** The value the `k`th next call of the generator in use returns, counted from 0. */
  function Upcoming(rng: Lcg?, oracle: Oracle, k: nat): (x: real)
    requires SourceValid(rng, oracle)
    reads rng, oracle
    ensures 0.0 <= x < 1.0
  {
    if rng != null then Draw(Iterate(rng.state, k + 1)) else oracle.draws(oracle.used + k)
  }

  /** The next four values of the generator in use, enough for two spawns. */
  ghost function UpcomingDraws(rng: Lcg?, oracle: Oracle): (xs: seq<real>)
    requires SourceValid(rng, oracle)
    reads rng, oracle
    ensures |xs| == 4 && forall i :: 0 <= i < 4 ==> 0.0 <= xs[i] < 1.0
  {
    [Upcoming(rng, oracle, 0), Upcoming(rng, oracle, 1), Upcoming(rng, oracle, 2), Upcoming(rng, oracle, 3)]
  }

  /** A seeded generator's next values are its draws from the state it holds. */
  lemma UpcomingSeeded(rng: Lcg, oracle: Oracle)
    requires SourceValid(rng, oracle)
    ensures UpcomingDraws(rng, oracle) == Draws(rng.state, 4)
  {
    DrawsAt(rng.state, 4, 0);
    DrawsAt(rng.state, 4, 1);
    DrawsAt(rng.state, 4, 2);
    DrawsAt(rng.state, 4, 3);
  }

  /**
   * `k` values have been taken from the generator in use: the seeded generator has advanced
   * `k` steps, or `Math.random` has been called `k` more times; the other source is untouched.
   */
  twostate predicate Consumed(rng: Lcg?, oracle: Oracle, k: nat)
    reads rng, oracle
  {
    old(SourceValid(rng, oracle)) && SourceValid(rng, oracle) &&
    if rng != null then
      rng.state == Iterate(old(rng.state), k) && oracle.used == old(oracle.used)
    else
      oracle.used == old(oracle.used) + k
  }

  /** After `k` values have been taken, the generator returns what it would have returned after those `k` calls. */
  twostate lemma ConsumedShifts(rng: Lcg?, oracle: Oracle, k: nat, i: nat)
    requires Consumed(rng, oracle, k)
    ensures Upcoming(rng, oracle, i) == old(Upcoming(rng, oracle, i + k))
  {
    if rng != null {
      IterateAdd(old(rng.state), k, i + 1);
      assert Iterate(rng.state, i + 1) == Iterate(old(rng.state), i + k + 1);
    } else {
      assert oracle.used + i == old(oracle.used) + (i + k);
    }
  }

  /** `this._rng()`: one call of the generator in use. */
  method Pull(rng: Lcg?, oracle: Oracle) returns (x: real)
    requires SourceValid(rng, oracle)
    modifies rng, oracle
    ensures x == old(Upcoming(rng, oracle, 0))
    ensures Consumed(rng, oracle, 1)
  {
    if rng != null {
      ghost var s := rng.state;
      x := rng.Next();
      assert Iterate(s, 1) == Iterate(Step(s), 0) == rng.state;
    } else {
      x := oracle.Next();
    }
  }
}
