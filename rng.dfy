/**
 * The seeded linear congruential generator of `core/rng.cjs.js`: a 32-bit unsigned state,
 * advanced by `state := (1664525 * state + 1013904223) mod 2^32` before each draw, each draw
 * being `state / 2^32`.
 */
module Rng {
  import opened Wrappers
  import opened Json

  const MOD32: nat := 0x1_0000_0000
  const LCG_A: nat := 1664525
  const LCG_C: nat := 1013904223

  /** Truncation toward zero, the first half of `x >>> 0`. */
  function Trunc(x: real): int {
    if x >= 0.0 then x.Floor else -((-x).Floor)
  }

  /** `x >>> 0` for a finite number `x`: truncate toward zero, then reduce modulo 2^32. */
  function ToUint32(x: real): (u: nat)
    ensures u < MOD32
    ensures 0.0 <= x < MOD32 as real && IsIntegral(x) ==> u as real == x
  {
    Trunc(x) % MOD32
  }

  /** `u || 1`: the zero state is replaced by 1. */
  function NonZero(u: nat): (v: nat)
    ensures v != 0 && (u != 0 ==> v == u)
  {
    if u == 0 then 1 else u
  }

  /**
   * The UTF-16 code units of a character: one unit below U+10000, otherwise the high and the
   * low surrogate. `charCodeAt` reads a string unit by unit.
   */
  function CharUnits(c: char): (us: seq<nat>)
    ensures 1 <= |us| <= 2
    ensures forall i :: 0 <= i < |us| ==> us[i] < 0x1_0000
    ensures c as nat < 0x1_0000 <==> us == [c as nat]
  {
    var u := c as nat;
    if u < 0x1_0000 then [u] else [0xD800 + (u - 0x1_0000) / 0x400, 0xDC00 + (u - 0x1_0000) % 0x400]
  }

  /** A string as JavaScript holds it: its sequence of UTF-16 code units. */
  function Utf16(s: string): (us: seq<nat>)
    ensures |us| >= |s|
  {
    if s == [] then [] else Utf16(s[..|s| - 1]) + CharUnits(s[|s| - 1])
  }

  /** The rolling hash `state := (31 * state + unit) mod 2^32` over code units, left to right. */
  function SeedHash(us: seq<nat>): (h: nat)
    ensures h < MOD32
  {
    if us == [] then 0 else (SeedHash(us[..|us| - 1]) * 31 + us[|us| - 1]) % MOD32
  }

  /** The hash as a polynomial in 31 over the code units, without any reduction. */
  function Polynomial(us: seq<nat>): nat {
    if us == [] then 0 else Polynomial(us[..|us| - 1]) * 31 + us[|us| - 1]
  }

  lemma ModStep(a: nat, c: nat)
    ensures ((a % MOD32) * 31 + c) % MOD32 == (a * 31 + c) % MOD32
  {
    var q := a / MOD32;
    var r := a % MOD32;
    assert a == q * MOD32 + r;
    assert a * 31 + c == (r * 31 + c) + (q * 31) * MOD32;
    AddMultiple(r * 31 + c, q * 31);
  }

  lemma AddMultiple(x: nat, k: nat)
    ensures (x + k * MOD32) % MOD32 == x % MOD32
  {
  }

  /** Reducing at every step, as the source does with `>>> 0`, equals reducing once at the end. */
  lemma {:induction false} SeedHashIsPolynomial(us: seq<nat>)
    ensures SeedHash(us) == Polynomial(us) % MOD32
  {
    if us != [] {
      var t := us[..|us| - 1];
      SeedHashIsPolynomial(t);
      ModStep(Polynomial(t), us[|us| - 1]);
    }
  }

  /**
   * What `normalizeSeed` returns: a finite number is converted with `>>> 0`, a string is
   * hashed over its UTF-16 code units, anything else gives 1; a zero result is replaced by 1.
   */
  function SeedOf(input: Json): (seed: nat)
    ensures 1 <= seed < MOD32
  {
    match input
    case JNum(n) => NonZero(ToUint32(n))
    case JStr(s) => NonZero(SeedHash(Utf16(s)))
    case _ => 1
  }

  /** `normalizeSeed`, with its hashing loop. */
  method NormalizeSeed(input: Json) returns (seed: nat)
    ensures seed == SeedOf(input)
    ensures 1 <= seed < MOD32
  {
    if input.JNum? {
      return NonZero(ToUint32(input.n));
    }
    if input.JStr? {
      var s := Utf16(input.s);
      var state: nat := 0;
      var i := 0;
      while i < |s|
        invariant 0 <= i <= |s|
        invariant state == SeedHash(s[..i])
      {
        assert s[..i + 1][..i] == s[..i];
        state := (state * 31 + s[i]) % MOD32;
        i := i + 1;
      }
      assert s[..i] == s;
      return NonZero(state);
    }
    return 1;
  }

  /**
   * A character above U+FFFF counts as its two surrogates: the seed "\U{1F3B2}" hashes to
   * 0xD83C * 31 + 0xDFB2, not to its code point 0x1F3B2.
   */
  lemma AstralSeedHashesSurrogates()
    ensures Utf16("\U{1F3B2}") == [0xD83C, 0xDFB2]
    ensures SeedOf(JStr("\U{1F3B2}")) == 0xD83C * 31 + 0xDFB2 == 1773302
  {
    assert "\U{1F3B2}"[..0] == [];
    assert Utf16("\U{1F3B2}") == [0xD83C, 0xDFB2];
    assert [0xD83C, 0xDFB2][..1] == [0xD83C];
    assert [0xD83C][..0] == [];
  }

  /** Text without characters above U+FFFF has one code unit per character, its code point. */
  lemma {:induction false} Utf16OfBasicText(s: string)
    requires forall i :: 0 <= i < |s| ==> s[i] as nat < 0x1_0000
    ensures |Utf16(s)| == |s| && forall i :: 0 <= i < |s| ==> Utf16(s)[i] == s[i] as nat
  {
    if s != [] {
      Utf16OfBasicText(s[..|s| - 1]);
    }
  }

  /** One step of the recurrence. */
  function Step(state: nat): (next: nat)
    ensures next < MOD32
  {
    (LCG_A * state + LCG_C) % MOD32
  }

  /** The value a draw returns once the state has been advanced to `state`. */
  function Draw(state: nat): (x: real)
    requires state < MOD32
    ensures 0.0 <= x < 1.0
  {
    state as real / MOD32 as real
  }

  /** The state after `k` draws. */
  function Iterate(state: nat, k: nat): (s: nat)
    requires state < MOD32
    ensures s < MOD32
    decreases k
  {
    if k == 0 then state else Iterate(Step(state), k - 1)
  }

  /** One more draw is one more step. */
  lemma {:induction false} IterateLast(state: nat, k: nat)
    requires state < MOD32
    ensures Iterate(state, k + 1) == Step(Iterate(state, k))
    decreases k
  {
    if k > 0 {
      IterateLast(Step(state), k - 1);
    }
  }

  /** `j` draws and then `k` more are `j + k` draws. */
  lemma {:induction false} IterateAdd(state: nat, j: nat, k: nat)
    requires state < MOD32
    ensures Iterate(Iterate(state, j), k) == Iterate(state, j + k)
    decreases j
  {
    if j > 0 {
      IterateAdd(Step(state), j - 1, k);
    }
  }

  /** The next `k` values a generator in state `state` returns. */
  function Draws(state: nat, k: nat): (xs: seq<real>)
    requires state < MOD32
    ensures |xs| == k && forall i :: 0 <= i < k ==> 0.0 <= xs[i] < 1.0
    decreases k
  {
    if k == 0 then [] else [Draw(Step(state))] + Draws(Step(state), k - 1)
  }

  /** The `i`th future draw, counted from 0. */
  lemma {:induction false} DrawsAt(state: nat, k: nat, i: nat)
    requires state < MOD32 && i < k
    ensures Draws(state, k)[i] == Draw(Iterate(state, i + 1))
    decreases i
  {
    if i > 0 {
      DrawsAt(Step(state), k - 1, i - 1);
    }
  }

  /**
   * Drawing `j + k` values is drawing `j` values and then the `k` values of a generator that
   * starts from the state reached: the sequence can be checkpointed at any point.
   */
  lemma {:induction false} DrawsSplit(state: nat, j: nat, k: nat)
    requires state < MOD32
    ensures Draws(state, j + k) == Draws(state, j) + Draws(Iterate(state, j), k)
    decreases j
  {
    if j > 0 {
      DrawsSplit(Step(state), j - 1, k);
    }
  }

  /** The state `restoreState(n)` sets, or `None` when `n` is not a finite number and is ignored. */
  function RestoredState(n: Json): Option<nat> {
    match ToNumber(n)
    case Some(x) => Some(NonZero(ToUint32(x)))
    case None => None
  }

  /** `restoreState` of a state the generator can hold sets that state, 0 aside. */
  lemma RestoredOfState(state: nat)
    requires state < MOD32
    ensures RestoredState(JNum(state as real)) == Some(NonZero(state))
  {
    assert Trunc(state as real) == state;
  }

  /**
   * `restoreState(peekState())` puts back the state it read, provided that state is not 0,
   * so the remaining draws are the ones the generator would have returned.
   */
  lemma RestorePeekedState(state: nat, k: nat)
    requires 0 < state < MOD32
    ensures RestoredState(JNum(state as real)) == Some(state)
    ensures Draws(RestoredState(JNum(state as real)).value, k) == Draws(state, k)
  {
  }

  /**
   * The recurrence reaches state 0 (from 634785765, for one): `peekState` then reads 0,
   * `restoreState(0)` sets 1, and the generator resumes with a different sequence.
   */
  lemma ZeroStateIsNotRestored()
    ensures Step(634785765) == 0
    ensures RestoredState(JNum(0.0)) == Some(1)
    ensures Draws(0, 1) != Draws(1, 1)
  {
    assert Draws(0, 1) == [Draw(LCG_C)];
    assert Draws(1, 1) == [Draw(Step(1))];
  }

  /** The generator object `makeLCG` returns, with `peekState` and `restoreState`. */
  class Lcg {
    var state: nat

    ghost predicate Valid()
      reads this
    {
      state < MOD32
    }

    /** `makeLCG(seedInput)`. */
    constructor (seedInput: Json)
      ensures Valid() && state == SeedOf(seedInput)
    {
      var s := NormalizeSeed(seedInput);
      state := s;
    }

    /** Calling the generator: advance the state once, return `state / 2^32`. */
    method Next() returns (x: real)
      requires Valid()
      modifies this
      ensures Valid()
      ensures state == Step(old(state))
      ensures x == Draw(state) && 0.0 <= x < 1.0
    {
      state := Step(state);
      x := Draw(state);
    }

    /** `peekState()`: the state, without advancing it. */
    function PeekState(): (s: nat)
      requires Valid()
      reads this
      ensures s == state && s < MOD32
    {
      state
    }

    /** `restoreState(n)`: ignored unless `Number(n)` is finite; 0 becomes 1. */
    method RestoreState(n: Json)
      requires Valid()
      modifies this
      ensures Valid()
      ensures state == RestoredState(n).GetOr(old(state))
    {
      var num := ToNumber(n);
      if num.None? {
        return;
      }
      state := NonZero(ToUint32(num.value));
    }
  }

  /**
   * Two generators made from the same seed return the same `k` values, namely the draws
   * from the normalised seed.
   */
  method SameSeedSameSequence(seed: Json, k: nat) returns (xs: seq<real>, ys: seq<real>)
    ensures xs == ys
    ensures xs == Draws(SeedOf(seed), k)
  {
    var g := new Lcg(seed);
    var h := new Lcg(seed);
    xs, ys := [], [];
    var i := 0;
    while i < k
      invariant 0 <= i <= k
      invariant g.Valid() && h.Valid() && g != h
      invariant g.state == h.state == Iterate(SeedOf(seed), i)
      invariant xs == ys == Draws(SeedOf(seed), i)
    {
      var x := g.Next();
      var y := h.Next();
      DrawsSplit(SeedOf(seed), i, 1);
      IterateLast(SeedOf(seed), i);
      xs, ys := xs + [x], ys + [y];
      i := i + 1;
    }
  }
}
