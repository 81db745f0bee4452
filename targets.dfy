/**
 * The target functions of core/levels.esm.js (`DEFAULT_TARGET_FN` and the registry
 * `TARGET_FN_REGISTRY`) and of core/levels.cjs.js: the tile value a level of board side
 * `size` must reach.
 */
module Targets {
  import opened Wrappers

  /**
   * The target functions the managers can hold: `2 ** (size + 3)` (the default of both
   * managers and the registry's `power`) and the registry's `fibonacci`.
   */
  datatype TargetFn = Power | Fibonacci

  function Pow2(k: nat): (p: nat)
    ensures p >= 1
  {
    if k == 0 then 1 else 2 * Pow2(k - 1)
  }

  /** `2 ** (size + 3)`. */
  function PowerTarget(size: nat): nat {
    Pow2(size + 3)
  }

  /** The power target doubles from each level to the next: 32 at size 2, 64 at size 3. */
  lemma PowerTargetSteps(size: nat)
    ensures PowerTarget(size + 1) == 2 * PowerTarget(size)
    ensures PowerTarget(2) == 32 && PowerTarget(3) == 64 && PowerTarget(4) == 128
  {
  }

  /** The Fibonacci numbers, F(0) = 0, F(1) = 1. */
  function Fib(k: nat): nat {
    if k == 0 then 0 else if k == 1 then 1 else Fib(k - 1) + Fib(k - 2)
  }

  /** `Math.max(0, size + 7)`. */
  function FibonacciSteps(size: int): nat {
    if size + 7 > 0 then size + 7 else 0
  }

  /** What the registry's `fibonacci` returns: F(steps), or 1 in place of 0. */
  function FibonacciTargetSpec(size: int): nat {
    var f := Fib(FibonacciSteps(size));
    if f == 0 then 1 else f
  }

  /** `TARGET_FN_REGISTRY.fibonacci`, with its loop. */
  method FibonacciTarget(size: int) returns (t: nat)
    ensures t == FibonacciTargetSpec(size)
  {
    var steps := FibonacciSteps(size);
    var a: nat, b: nat := 0, 1;
    var i := 0;
    while i < steps
      invariant 0 <= i <= steps
      invariant a == Fib(i) && b == Fib(i + 1)
    {
      a, b := b, a + b;
      i := i + 1;
    }
    t := if a == 0 then 1 else a;
  }

  lemma {:induction false} FibPositive(k: nat)
    requires k >= 1
    ensures Fib(k) >= 1
  {
    if k > 2 {
      FibPositive(k - 1);
    }
  }

  lemma {:induction false} FibMonotone(k: nat)
    ensures Fib(k) <= Fib(k + 1)
  {
    if k >= 1 {
      FibPositive(k);
    }
  }

  /**
   * The fallback to 1 only fires when the step count is 0 (a size of -7 or less), the target
   * never decreases with the size, and size 2 gives F(9) = 34, size 3 gives F(10) = 55.
   */
  lemma FibonacciTargetFacts(size: int)
    ensures FibonacciTargetSpec(size) >= 1
    ensures size > -7 ==> FibonacciTargetSpec(size) == Fib(size + 7)
    ensures size >= -7 ==> FibonacciTargetSpec(size) <= FibonacciTargetSpec(size + 1)
    ensures FibonacciTargetSpec(2) == 34 && FibonacciTargetSpec(3) == 55
  {
    if size > -7 {
      FibPositive(size + 7);
      FibMonotone(size + 7);
    }
    if size >= -7 {
      FibPositive(size + 8);
    }
    assert Fib(9) == 34 by {
      assert Fib(2) == 1 && Fib(3) == 2 && Fib(4) == 3 && Fib(5) == 5;
      assert Fib(6) == 8 && Fib(7) == 13 && Fib(8) == 21;
    }
  }

  /** `targetFn(size)`. */
  function Target(f: TargetFn, size: nat): nat {
    match f
    case Power => PowerTarget(size)
    case Fibonacci => FibonacciTargetSpec(size)
  }

  /** `targetFn(size)`, calling the function the manager holds. */
  method TargetOf(f: TargetFn, size: nat) returns (t: nat)
    ensures t == Target(f, size) && t >= 1
  {
    match f
    case Power => t := Pow2(size + 3);
    case Fibonacci =>
      t := FibonacciTarget(size);
      FibonacciTargetFacts(size);
  }

  /**
   * A target-function registry: the names bound to target functions, and whether it also
   * carries an `rngFactory` (the seeded generator of core/rng.cjs.js). A null registry is the
   * empty one.
   */
  datatype Registry = Registry(fns: map<string, TargetFn>, rngFactory: bool)

  /** `TARGET_FN_REGISTRY`. */
  function DefaultRegistry(): Registry {
    Registry(map["power" := Power, "fibonacci" := Fibonacci], false)
  }

  /** `resolveTargetFn(key, registry)`: the registered function, else the default power target. */
  function ResolveTargetFn(key: string, registry: Registry): (f: TargetFn)
    ensures key !in registry.fns ==> f == Power
  {
    if key in registry.fns then registry.fns[key] else Power
  }

  /**
   * The functions every object inherits from `Object.prototype`. `typeof registry[key]` is
   * `'function'` for these names too, which this model does not follow.
   */
  predicate InheritedName(key: string) {
    key in {"constructor", "toString", "toLocaleString", "valueOf", "hasOwnProperty", "isPrototypeOf",
            "propertyIsEnumerable", "__defineGetter__", "__defineSetter__", "__lookupGetter__",
            "__lookupSetter__"}
  }

  /**
   * With the default registry the two names resolve to their functions and any other name,
   * except an inherited one, to the power target.
   */
  lemma ResolveDefault(key: string)
    requires !InheritedName(key)
    ensures ResolveTargetFn(key, DefaultRegistry()) ==
      if key == "fibonacci" then Fibonacci else Power
  {
  }

  /**
   * The key `toJSON` writes: the stored key when it is not empty, else the name under which
   * `TARGET_FN_REGISTRY` holds the function, else `'power'`. The default function is not the
   * registry's `power` object, but both give `'power'`.
   */
  function KeyFromState(key: string, f: TargetFn): (k: string)
    ensures k != ""
  {
    if key != "" then key
    else match f
      case Power => "power"
      case Fibonacci => "fibonacci"
  }

  /** Without a stored key, the key written resolves back to the function held. */
  lemma KeyFromStateResolves(f: TargetFn)
    ensures ResolveTargetFn(KeyFromState("", f), DefaultRegistry()) == f
  {
  }
}
