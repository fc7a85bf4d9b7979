/** Machine words: unbounded counters are seen by the program through their residue. */
module Words {

  const W32: nat := 0x1_0000_0000
  const W64: nat := 0x1_0000_0000_0000_0000

  /** The 32-bit word that stores the unbounded counter x. */
  function Word(x: int): (w: nat)
    ensures w < W32
  {
    x % W32
  }

  /** 32-bit unsigned subtraction. */
  function Sub32(a: int, b: int): (d: nat)
    ensures d < W32
  {
    (Word(a) - Word(b)) % W32
  }

  /** Word subtraction recovers the true distance whenever that distance fits in a word. */
  lemma {:induction false} SubIsDistance(a: int, b: int)
    requires 0 <= a - b < W32
    ensures Sub32(a, b) == a - b
  {
  }

  /** Equal words are equal counters unless a whole lap of 2^32 lies between them. */
  lemma {:induction false} WordInjective(a: int, b: int)
    requires 0 <= a - b < W32
    ensures Word(a) == Word(b) <==> a == b
  {
  }

  lemma {:induction false} WordAdd(a: int, k: int)
    ensures Word(Word(a) + k) == Word(a + k)
  {
  }

  lemma {:induction false} Mod64Add(a: int, k: int)
    ensures (a % W64 + k) % W64 == (a + k) % W64
  {
  }

  lemma {:induction false} MulBound(d: int, n: int)
    requires n > 0
    ensures d >= 1 ==> d * n >= n
    ensures d <= -1 ==> d * n <= -n
    ensures d == 0 ==> d * n == 0
  {
    if d >= 1 { assert (d - 1) * n >= 0; }
    if d <= -1 { assert (d + 1) * n <= 0; }
  }

  lemma {:induction false} DivModUnique(a: int, n: int, q: int, r: int)
    requires n > 0 && a == q * n + r && 0 <= r < n
    ensures a / n == q && a % n == r
  {
    var p := a / n;
    assert a == p * n + a % n;
    assert (p - q) * n == r - a % n;
    MulBound(p - q, n);
  }

  /** Adding a multiple of n does not change the residue. */
  lemma {:induction false} ModAddMultiple(a: int, n: int, k: int)
    requires n > 0
    ensures (a + k * n) % n == a % n
  {
    DivModUnique(a + k * n, n, a / n + k, a % n);
  }

  /** A modulus that divides 2^32 does not see the wrap-around. */
  lemma {:induction false} WordMod(x: int, n: nat)
    requires n > 0 && W32 % n == 0
    ensures Word(x) % n == x % n
  {
    var k := W32 / n;
    var q := x / W32;
    assert W32 == k * n;
    assert x == Word(x) + q * W32;
    assert q * W32 == (q * k) * n;
    ModAddMultiple(Word(x), n, q * k);
  }

  /** Distinct counters less than n apart fall on distinct residues of n. */
  lemma {:induction false} ModDistinct(a: int, b: int, n: int)
    requires n > 0 && a < b < a + n
    ensures a % n != b % n
  {
    var p, q := a / n, b / n;
    assert a == p * n + a % n && b == q * n + b % n;
    assert (q - p) * n == (b - a) - (b % n - a % n);
    MulBound(q - p, n);
  }
}

/** A value, or none. */
module Options {

  datatype Option<T> = None | Some(value: T)
}

/** Sums over the components of a state, and what one update does to them. */
module Tally {

  function Sum(xs: seq<int>): int
  {
    if xs == [] then 0 else xs[0] + Sum(xs[1..])
  }

  lemma {:induction false} SumUpdate(xs: seq<int>, i: nat, x: int)
    requires i < |xs|
    ensures Sum(xs[i := x]) == Sum(xs) - xs[i] + x
  {
    if i == 0 {
      assert xs[i := x][1..] == xs[1..];
    } else {
      assert xs[i := x][1..] == xs[1..][i - 1 := x];
      SumUpdate(xs[1..], i - 1, x);
    }
  }

  lemma {:induction false} SumZero(xs: seq<int>)
    requires forall i :: 0 <= i < |xs| ==> xs[i] == 0
    ensures Sum(xs) == 0
  {
    if xs == [] {
    } else {
      SumZero(xs[1..]);
    }
  }

  lemma {:induction false} SumNat(xs: seq<int>)
    requires forall i :: 0 <= i < |xs| ==> xs[i] >= 0
    ensures Sum(xs) >= 0
  {
    if xs == [] {
    } else {
      SumNat(xs[1..]);
    }
  }

  /** How many elements of xs satisfy p. */
  function Count<T>(xs: seq<T>, p: T -> bool): (n: nat)
    ensures n <= |xs|
  {
    if xs == [] then 0 else (if p(xs[0]) then 1 else 0) + Count(xs[1..], p)
  }

  lemma {:induction false} CountAppend<T>(xs: seq<T>, ys: seq<T>, p: T -> bool)
    ensures Count(xs + ys, p) == Count(xs, p) + Count(ys, p)
  {
    if xs == [] {
      assert xs + ys == ys;
    } else {
      assert (xs + ys)[1..] == xs[1..] + ys;
      CountAppend(xs[1..], ys, p);
    }
  }

  function Is<T(==)>(x: T): T -> bool {
    y => y == x
  }

  function Any<T>(): T -> bool {
    y => true
  }

  /** Counting equals to x is the multiplicity of x. */
  lemma {:induction false} CountEqual<T>(xs: seq<T>, x: T)
    ensures Count(xs, Is(x)) == multiset(xs)[x]
  {
    if xs == [] {
    } else {
      CountEqual(xs[1..], x);
      assert xs == [xs[0]] + xs[1..];
    }
  }

  /** xs without its element at i. */
  function Without<T>(xs: seq<T>, i: nat): seq<T>
    requires i < |xs|
  {
    xs[..i] + xs[i + 1..]
  }

  lemma {:induction false} CountWithout<T>(xs: seq<T>, i: nat, p: T -> bool)
    requires i < |xs|
    ensures Count(xs, p) == Count(Without(xs, i), p) + if p(xs[i]) then 1 else 0
  {
    assert xs == xs[..i] + ([xs[i]] + xs[i + 1..]);
    CountAppend(xs[..i], [xs[i]] + xs[i + 1..], p);
    CountAppend([xs[i]], xs[i + 1..], p);
    CountAppend(xs[..i], xs[i + 1..], p);
  }

  lemma {:induction false} MultisetWithout<T>(xs: seq<T>, i: nat)
    requires i < |xs|
    ensures multiset(xs) == multiset(Without(xs, i)) + multiset{xs[i]}
  {
    assert xs == xs[..i] + ([xs[i]] + xs[i + 1..]);
  }

  /** A count does not depend on the order. */
  lemma {:induction false} CountSame<T>(xs: seq<T>, ys: seq<T>, p: T -> bool)
    requires multiset(xs) == multiset(ys)
    ensures Count(xs, p) == Count(ys, p)
    decreases |xs|
  {
    if xs == [] {
      assert |multiset(ys)| == |ys|;
    } else {
      assert xs[0] in multiset(ys);
      var i :| 0 <= i < |ys| && ys[i] == xs[0];
      MultisetWithout(xs, 0);
      MultisetWithout(ys, i);
      assert multiset(Without(xs, 0)) == multiset(xs) - multiset{xs[0]} == multiset(Without(ys, i));
      CountSame(Without(xs, 0), Without(ys, i), p);
      CountWithout(xs, 0, p);
      CountWithout(ys, i, p);
    }
  }

  lemma {:induction false} CountAll<T>(xs: seq<T>)
    ensures Count(xs, Any()) == |xs|
  {
    if xs == [] {
    } else {
      CountAll(xs[1..]);
    }
  }

  lemma {:induction false} CountUpdate<T>(xs: seq<T>, p: T -> bool, i: nat, x: T)
    requires i < |xs|
    ensures Count(xs[i := x], p) + (if p(xs[i]) then 1 else 0)
         == Count(xs, p) + (if p(x) then 1 else 0)
  {
    if i == 0 {
      assert xs[i := x][1..] == xs[1..];
    } else {
      assert xs[i := x][1..] == xs[1..][i - 1 := x];
      CountUpdate(xs[1..], p, i - 1, x);
    }
  }

  lemma {:induction false} CountZero<T>(xs: seq<T>, p: T -> bool)
    ensures Count(xs, p) == 0 <==> forall i :: 0 <= i < |xs| ==> !p(xs[i])
  {
    if xs == [] {
    } else {
      CountZero(xs[1..], p);
      assert forall i :: 0 < i < |xs| ==> xs[i] == xs[1..][i - 1];
      assert forall i :: 0 <= i < |xs| - 1 ==> xs[1..][i] == xs[i + 1];
    }
  }

  lemma {:induction false} CountOne<T>(xs: seq<T>, p: T -> bool, i: nat)
    requires i < |xs| && p(xs[i])
    ensures Count(xs, p) >= 1
  {
    CountZero(xs, p);
  }

  lemma {:induction false} CountTwo<T>(xs: seq<T>, p: T -> bool, i: nat, j: nat)
    requires i < j < |xs| && p(xs[i]) && p(xs[j])
    ensures Count(xs, p) >= 2
  {
    assert xs == xs[..j] + xs[j..];
    CountAppend(xs[..j], xs[j..], p);
    CountOne(xs[..j], p, i);
    CountOne(xs[j..], p, 0);
  }

  lemma {:induction false} CountMonotone<T>(xs: seq<T>, p: T -> bool, q: T -> bool)
    requires forall i :: 0 <= i < |xs| && p(xs[i]) ==> q(xs[i])
    ensures Count(xs, p) <= Count(xs, q)
  {
    if xs == [] {
    } else {
      assert forall i :: 0 <= i < |xs| - 1 ==> xs[1..][i] == xs[i + 1];
      assert p(xs[0]) ==> q(xs[0]);
      CountMonotone(xs[1..], p, q);
    }
  }
}
