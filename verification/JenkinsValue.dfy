/**
 * A value published with the hash function pins its constants: the 30 bytes of
 * "Four score and seven years ago" hash to 0x17770551.
 */
module JenkinsValue {

  import opened Jenkins
  import opened JenkinsHash

  const FOUR_SCORE_A: Bytes := [70, 111, 117, 114, 32, 115, 99, 111, 114, 101, 32, 97]
  const AND_SEVEN_YEA: Bytes := [110, 100, 32, 115, 101, 118, 101, 110, 32, 121, 101, 97]
  const RS_AGO: Bytes := [114, 115, 32, 97, 103, 111]

  const KEY: Bytes := FOUR_SCORE_A + (AND_SEVEN_YEA + RS_AGO)

  /** The triples between the lines of `mix`. */
  lemma {:induction false} RoundsAlong(ts: seq<Triple>, ks: seq<bv32>)
    requires |ts| == |ks| + 1 && forall i :: 0 <= i < |ks| ==> Round(ts[i], Rot(ks[i])) == ts[i + 1]
    ensures Rounds(ts[0], ks) == ts[|ks|]
    decreases |ks|
  {
    if ks == [] {
    } else {
      RoundsAlong(ts[1..], ks[1..]);
    }
  }

  /** The triples between the lines of `final`. */
  lemma {:induction false} StirsAlong(ts: seq<Triple>, ks: seq<bv32>)
    requires |ts| == |ks| + 1 && forall i :: 0 <= i < |ks| ==> Stir(ts[i], Rot(ks[i])) == ts[i + 1]
    ensures Stirs(ts[0], ks) == ts[|ks|]
    decreases |ks|
  {
    if ks == [] {
    } else {
      StirsAlong(ts[1..], ks[1..]);
    }
  }

  lemma {:induction false} FirstMix()
    ensures Mix(Triple(0x51232e53, 0x4e11322d, 0x3fce247f)) == Triple(0xf859ad7a, 0x04bc57ae, 0x40dddd7e)
  {
    RoundsAlong([Triple(0x51232e53, 0x4e11322d, 0x3fce247f), Triple(0x4e11322d, 0x8ddf56ac, 0xedb74e27),
                 Triple(0x8ddf56ac, 0x7b96a4d3, 0x0d8a6dfd), Triple(0x7b96a4d3, 0x892112d0, 0x0a3915a2),
                 Triple(0x892112d0, 0x935a2872, 0x64ff8508), Triple(0x935a2872, 0xf859ad7a, 0x0c62aa34),
                 Triple(0xf859ad7a, 0x04bc57ae, 0x40dddd7e)], MIX);
  }

  lemma {:induction false} SecondMix()
    ensures Mix(Triple(0x6b7a11e8, 0x7321ce13, 0xa243569e)) == Triple(0x336aded2, 0x059f2642, 0xbd02ebd5)
  {
    RoundsAlong([Triple(0x6b7a11e8, 0x7321ce13, 0xa243569e), Triple(0x7321ce13, 0x156524b1, 0xed03d2a0),
                 Triple(0x156524b1, 0x0268f751, 0xc6e95348), Triple(0x0268f751, 0xc9524a99, 0xa72899af),
                 Triple(0xc9524a99, 0x707ae448, 0xc2effa8a), Triple(0x707ae448, 0x336aded2, 0xd2344770),
                 Triple(0x336aded2, 0x059f2642, 0xbd02ebd5)], MIX);
  }

  lemma {:induction false} Finishes()
    ensures Final(Triple(0x948b5244, 0x059f95a9, 0xbd02ebd5)).c == 0x17770551
  {
    StirsAlong([Triple(0xbd02ebd5, 0x059f95a9, 0x948b5244), Triple(0x948b5244, 0xd3333d15, 0x059f95a9),
                Triple(0x059f95a9, 0xadcfc0b8, 0xd3333d15), Triple(0xd3333d15, 0x36f4b590, 0xadcfc0b8),
                Triple(0xadcfc0b8, 0x30375191, 0x36f4b590), Triple(0x36f4b590, 0x9a837816, 0x30375191),
                Triple(0x30375191, 0xce7226e6, 0x9a837816), Triple(0x9a837816, 0x17770551, 0xce7226e6)], FINAL);
  }

  lemma {:induction false} FirstBlock()
    ensures Absorb(Initial(30), FOUR_SCORE_A) == Triple(0x51232e53, 0x4e11322d, 0x3fce247f)
  {
  }

  lemma {:induction false} SecondBlock()
    ensures Absorb(Triple(0xf859ad7a, 0x04bc57ae, 0x40dddd7e), AND_SEVEN_YEA)
         == Triple(0x6b7a11e8, 0x7321ce13, 0xa243569e)
  {
  }

  lemma {:induction false} LastBlock()
    ensures Absorb(Triple(0x336aded2, 0x059f2642, 0xbd02ebd5), RS_AGO) == Triple(0x948b5244, 0x059f95a9, 0xbd02ebd5)
  {
  }

  /** A full block, then the rest. */
  lemma {:induction false} BlockThenRest(t: Triple, block: Bytes, rest: Bytes)
    requires |block| == 12 && rest != []
    ensures Blocks(t, block + rest) == Blocks(Mix(Absorb(t, block)), rest)
  {
    SamePrefix(t, block, rest, []);
    assert block + [] == block && (block + rest)[12..] == rest;
  }

  lemma {:induction false} PublishedValue()
    ensures Hash(KEY) == 0x17770551
  {
    BlockThenRest(Initial(30), FOUR_SCORE_A, AND_SEVEN_YEA + RS_AGO);
    FirstBlock();
    FirstMix();
    BlockThenRest(Triple(0xf859ad7a, 0x04bc57ae, 0x40dddd7e), AND_SEVEN_YEA, RS_AGO);
    SecondBlock();
    SecondMix();
    LastBlock();
    Finishes();
  }
}
