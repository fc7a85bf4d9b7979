/**
 * The key hash of the key-value store: 32-bit words throughout, with one specification on byte
 * strings that the three read paths are proved against.
 */
module Jenkins {

  datatype Triple = Triple(a: bv32, b: bv32, c: bv32)

  /** Rotation left by k bits. */
  function Rotate(x: bv32, k: bv32): bv32 {
    if k <= 32 then (x << k) ^ (x >> (32 - k)) else x
  }

  function Rot(k: bv32): bv32 -> bv32 {
    x => Rotate(x, k)
  }

  function Add(x: bv32, y: bv32): bv32 { x + y }

  function Sub(x: bv32, y: bv32): bv32 { x - y }

  function Xor(x: bv32, y: bv32): bv32 { x ^ y }

  lemma {:induction false} AddSub(x: bv32, y: bv32)
    ensures Sub(Add(x, y), y) == x && Add(Sub(x, y), y) == x
  {
    assert Sub(x + y, y) == x;
    assert Add(x - y, y) == x;
  }

  lemma {:induction false} XorXor(x: bv32, y: bv32)
    ensures Xor(Xor(x, y), y) == x
  {
    assert Xor(x ^ y, y) == x;
  }

  // ---- Mixing is reversible ----

  /** The line `a -= c; a ^= rot(c); c += b`, after which the next line works on (b, c, a). */
  function Round(t: Triple, rot: bv32 -> bv32): Triple {
    Triple(t.b, Add(t.c, t.b), Xor(Sub(t.a, t.c), rot(t.c)))
  }

  function Unround(t: Triple, rot: bv32 -> bv32): Triple {
    var c := Sub(t.b, t.a);
    Triple(Add(Xor(t.c, rot(c)), c), t.a, c)
  }

  lemma {:induction false} RoundBack(t: Triple, rot: bv32 -> bv32)
    ensures Unround(Round(t, rot), rot) == t
  {
    AddSub(t.c, t.b);
    XorXor(Sub(t.a, t.c), rot(t.c));
    AddSub(t.a, t.c);
  }

  lemma {:induction false} UnroundBack(t: Triple, rot: bv32 -> bv32)
    ensures Round(Unround(t, rot), rot) == t
  {
    var c := Sub(t.b, t.a);
    AddSub(t.b, t.a);
    AddSub(Xor(t.c, rot(c)), c);
    XorXor(t.c, rot(c));
  }

  function Rounds(t: Triple, ks: seq<bv32>): Triple
    decreases |ks|
  {
    if ks == [] then t else Rounds(Round(t, Rot(ks[0])), ks[1..])
  }

  function Unrounds(t: Triple, ks: seq<bv32>): Triple
    decreases |ks|
  {
    if ks == [] then t else Unround(Unrounds(t, ks[1..]), Rot(ks[0]))
  }

  lemma {:induction false} RoundsBack(t: Triple, ks: seq<bv32>)
    ensures Unrounds(Rounds(t, ks), ks) == t && Rounds(Unrounds(t, ks), ks) == t
    decreases |ks|
  {
    if ks == [] {
    } else {
      var rot := Rot(ks[0]);
      RoundsBack(Round(t, rot), ks[1..]);
      RoundBack(t, rot);
      RoundsBack(t, ks[1..]);
      UnroundBack(Unrounds(t, ks[1..]), rot);
    }
  }

  /** The line `c ^= b; c -= rot(b)` on (c, b, a), after which the next line works on (a, c, b). */
  function Stir(t: Triple, rot: bv32 -> bv32): Triple {
    Triple(t.c, Sub(Xor(t.a, t.b), rot(t.b)), t.b)
  }

  function Unstir(t: Triple, rot: bv32 -> bv32): Triple {
    Triple(Xor(Add(t.b, rot(t.c)), t.c), t.c, t.a)
  }

  lemma {:induction false} StirBack(t: Triple, rot: bv32 -> bv32)
    ensures Unstir(Stir(t, rot), rot) == t && Stir(Unstir(t, rot), rot) == t
  {
    AddSub(Xor(t.a, t.b), rot(t.b));
    XorXor(t.a, t.b);
    XorXor(Add(t.b, rot(t.c)), t.c);
    AddSub(t.b, rot(t.c));
  }

  function Stirs(t: Triple, ks: seq<bv32>): Triple
    decreases |ks|
  {
    if ks == [] then t else Stirs(Stir(t, Rot(ks[0])), ks[1..])
  }

  function Unstirs(t: Triple, ks: seq<bv32>): Triple
    decreases |ks|
  {
    if ks == [] then t else Unstir(Unstirs(t, ks[1..]), Rot(ks[0]))
  }

  lemma {:induction false} StirsBack(t: Triple, ks: seq<bv32>)
    ensures Unstirs(Stirs(t, ks), ks) == t && Stirs(Unstirs(t, ks), ks) == t
    decreases |ks|
  {
    if ks == [] {
    } else {
      var rot := Rot(ks[0]);
      StirsBack(Stir(t, rot), ks[1..]);
      StirBack(t, rot);
      StirsBack(t, ks[1..]);
      StirBack(Unstirs(t, ks[1..]), rot);
    }
  }

  /** Six lines bring the roles back to (a, b, c). */
  const MIX: seq<bv32> := [4, 6, 8, 16, 19, 4]

  /** Seven lines on (c, b, a) end with the roles (a, c, b). */
  const FINAL: seq<bv32> := [14, 11, 25, 16, 4, 14, 24]

  function Mix(t: Triple): Triple {
    Rounds(t, MIX)
  }

  function Unmix(t: Triple): Triple {
    Unrounds(t, MIX)
  }

  function Final(t: Triple): Triple {
    var r := Stirs(Triple(t.c, t.b, t.a), FINAL);
    Triple(r.a, r.c, r.b)
  }

  function Unfinal(t: Triple): Triple {
    var r := Unstirs(Triple(t.a, t.c, t.b), FINAL);
    Triple(r.c, r.b, r.a)
  }

  /** Mixing is a permutation of the 96-bit state, with this inverse. */
  lemma {:induction false} MixIsReversible(t: Triple)
    ensures Unmix(Mix(t)) == t && Mix(Unmix(t)) == t
  {
    RoundsBack(t, MIX);
  }

  lemma {:induction false} FinalIsReversible(t: Triple)
    ensures Unfinal(Final(t)) == t && Final(Unfinal(t)) == t
  {
    StirsBack(Triple(t.c, t.b, t.a), FINAL);
    StirsBack(Triple(t.a, t.c, t.b), FINAL);
  }
}
