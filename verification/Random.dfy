/** The per-thread random number generator: multiplication modulo a prime below 2^32. */
module Random {

  import opened Words

  const RNGMOD: nat := 0xffff_fffb
  const RNGMUL: nat := 69070
  const INVERSE: nat := 3866465487

  predicate State(s: int) { 1 <= s < RNGMOD }

  function Seeded(s: nat): (r: nat)
    requires s < W32
    ensures State(r)
  {
    var t := s % RNGMOD;
    if t == 0 then t + 1 else t
  }

  /** A seed in range is used as it is; of the others 0 becomes 1 and the rest is reduced. */
  lemma {:induction false} SeedIsKept(s: nat)
    requires s < W32
    ensures Seeded(s) == if State(s) then s else if s == 0 || s == RNGMOD then 1 else s - RNGMOD
  {
    if s < RNGMOD {
    } else {
      DivModUnique(s, RNGMOD, 1, s - RNGMOD);
    }
  }

  function Next(s: nat): nat {
    (RNGMUL * s) % RNGMOD
  }

  function Previous(s: nat): nat {
    (INVERSE * s) % RNGMOD
  }

  lemma {:induction false} ModMul(a: nat, x: nat, m: nat)
    requires m > 0
    ensures (a * (x % m)) % m == (a * x) % m
  {
    var q := x / m;
    assert x == q * m + x % m;
    assert a * x == a * (x % m) + (a * q) * m by {
      assert a * x == a * (q * m + x % m);
      assert a * (q * m + x % m) == a * (q * m) + a * (x % m);
      assert a * (q * m) == (a * q) * m;
    }
    ModAddMultiple(a * (x % m), m, a * q);
  }

  /** The multiplier has an inverse, so its product with the inverse drops out. */
  lemma {:induction false} Cancels(s: nat)
    requires State(s)
    ensures (INVERSE * (RNGMUL * s)) % RNGMOD == s && (RNGMUL * (INVERSE * s)) % RNGMOD == s
  {
    var q := (INVERSE * RNGMUL) / RNGMOD;
    assert INVERSE * RNGMUL == q * RNGMOD + 1;
    assert INVERSE * (RNGMUL * s) == (q * RNGMOD + 1) * s == RNGMUL * (INVERSE * s);
    assert (q * RNGMOD + 1) * s == (q * s) * RNGMOD + s;
    DivModUnique((q * s) * RNGMOD + s, RNGMOD, q * s, s);
  }

  /** Every step can be taken back, in both orders. */
  lemma {:induction false} StepsAreInvertible(s: nat)
    requires State(s)
    ensures Previous(Next(s)) == s && Next(Previous(s)) == s
  {
    ModMul(INVERSE, RNGMUL * s, RNGMOD);
    ModMul(RNGMUL, INVERSE * s, RNGMOD);
    Cancels(s);
  }

  /** No step leaves the range 1 .. 2^32 - 6; in particular none reaches the fixed point 0. */
  lemma {:induction false} StepStaysInRange(s: nat)
    requires State(s)
    ensures State(Next(s))
  {
    StepsAreInvertible(s);
    assert Previous(0) == 0;
  }

  function After(s: nat, n: nat): nat
    decreases n
  {
    if n == 0 then s else After(Next(s), n - 1)
  }

  /** From any seed the generator stays in range for ever, and distinct states stay distinct. */
  lemma {:induction false} NeverCollapses(s: nat, r: nat, n: nat)
    requires State(s) && State(r)
    ensures State(After(s, n)) && State(After(r, n))
    ensures After(s, n) == After(r, n) ==> s == r
    decreases n
  {
    if n == 0 {
    } else {
      StepStaysInRange(s);
      StepStaysInRange(r);
      StepsAreInvertible(s);
      StepsAreInvertible(r);
      NeverCollapses(Next(s), Next(r), n - 1);
    }
  }

  /** The thread-local seed. */
  class Generator {
    var seed: nat

    ghost predicate Valid()
      reads this
    {
      State(seed)
    }

    constructor (s: nat)
      requires s < W32
      ensures Valid() && seed == Seeded(s)
    {
      seed := s % RNGMOD;
      new;
      seed := seed + if seed == 0 then 1 else 0;
    }

    /** The product does not overflow 64 bits, and the state stays valid. */
    method Draw() returns (r: nat)
      requires Valid()
      modifies this
      ensures Valid() && r == seed == Next(old(seed)) && Previous(r) == old(seed)
    {
      StepStaysInRange(seed);
      StepsAreInvertible(seed);
      assert RNGMUL * seed < W64;
      seed := (RNGMUL * seed) % RNGMOD;
      r := seed;
    }
  }
}
