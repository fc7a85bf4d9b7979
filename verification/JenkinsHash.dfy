/** Hashing a byte string in memory: one specification, three ways to read the bytes. */
module JenkinsHash {

  import opened Jenkins

  type Bytes = seq<bv8>

  /** Four bytes as a little-endian number. */
  function Pack(b0: bv8, b1: bv8, b2: bv8, b3: bv8): bv32 {
    (b0 as bv32) + ((b1 as bv32) << 8) + ((b2 as bv32) << 16) + ((b3 as bv32) << 24)
  }

  function ByteAt(k: Bytes, i: nat): bv8 {
    if i < |k| then k[i] else 0
  }

  /** The word at offset i of the key, zero-padded past its end. */
  function WordAt(k: Bytes, i: nat): bv32 {
    Pack(ByteAt(k, i), ByteAt(k, i + 1), ByteAt(k, i + 2), ByteAt(k, i + 3))
  }

  function Absorb(t: Triple, k: Bytes): Triple {
    Triple(Add(t.a, WordAt(k, 0)), Add(t.b, WordAt(k, 4)), Add(t.c, WordAt(k, 8)))
  }

  /** All blocks but the last are absorbed and mixed; the last, of 1 to 12 bytes, is finished. */
  function Blocks(t: Triple, k: Bytes): bv32
    decreases |k|
  {
    if k == [] then t.c
    else if |k| <= 12 then Final(Absorb(t, k)).c
    else Blocks(Mix(Absorb(t, k)), k[12..])
  }

  /** The low 32 bits of n, bit by bit. */
  function Low32(n: nat): bv32 {
    if n == 0 then 0 else Add(Add(Low32(n / 2), Low32(n / 2)), if n % 2 == 1 then 1 else 0)
  }

  function Initial(length: nat): Triple {
    var x := Add(0xdeadbeef, Low32(length));
    Triple(x, x, x)
  }

  function Hash(k: Bytes): bv32 {
    Blocks(Initial(|k|), k)
  }

  // ---- What the loads deliver ----

  function Load16(b0: bv8, b1: bv8): bv32 {
    (b0 as bv32) | ((b1 as bv32) << 8)
  }

  function Load32(b0: bv8, b1: bv8, b2: bv8, b3: bv8): bv32 {
    (b0 as bv32) | ((b1 as bv32) << 8) | ((b2 as bv32) << 16) | ((b3 as bv32) << 24)
  }

  /** The low n bytes of a word. */
  function Low(w: bv32, n: nat): bv32 {
    if n == 1 then w & 0xff else if n == 2 then w & 0xffff else if n == 3 then w & 0xffffff else w
  }

  lemma {:induction false} LoadIsPack(b0: bv8, b1: bv8, b2: bv8, b3: bv8)
    ensures Load32(b0, b1, b2, b3) == Pack(b0, b1, b2, b3)
  {
  }

  lemma {:induction false} Low3IsPack(b0: bv8, b1: bv8, b2: bv8, b3: bv8)
    ensures Low(Load32(b0, b1, b2, b3), 3) == Pack(b0, b1, b2, 0)
  {
    assert Low((b0 as bv32) | ((b1 as bv32) << 8) | ((b2 as bv32) << 16) | ((b3 as bv32) << 24), 3)
        == Pack(b0, b1, b2, 0);
  }

  lemma {:induction false} Low2IsPack(b0: bv8, b1: bv8, b2: bv8, b3: bv8)
    ensures Low(Load32(b0, b1, b2, b3), 2) == Pack(b0, b1, 0, 0)
  {
    assert Low((b0 as bv32) | ((b1 as bv32) << 8) | ((b2 as bv32) << 16) | ((b3 as bv32) << 24), 2)
        == Pack(b0, b1, 0, 0);
  }

  lemma {:induction false} Low1IsPack(b0: bv8, b1: bv8, b2: bv8, b3: bv8)
    ensures Low(Load32(b0, b1, b2, b3), 1) == Pack(b0, 0, 0, 0)
  {
    assert Low((b0 as bv32) | ((b1 as bv32) << 8) | ((b2 as bv32) << 16) | ((b3 as bv32) << 24), 1)
        == Pack(b0, 0, 0, 0);
  }

  /** Masking a loaded word leaves no trace of the bytes past the end of the key. */
  lemma {:induction false} LowIsPack(b0: bv8, b1: bv8, b2: bv8, b3: bv8)
    ensures Low(Load32(b0, b1, b2, b3), 3) == Pack(b0, b1, b2, 0)
    ensures Low(Load32(b0, b1, b2, b3), 2) == Pack(b0, b1, 0, 0)
    ensures Low(Load32(b0, b1, b2, b3), 1) == Pack(b0, 0, 0, 0)
  {
    Low3IsPack(b0, b1, b2, b3);
    Low2IsPack(b0, b1, b2, b3);
    Low1IsPack(b0, b1, b2, b3);
  }

  /** Two half words make a word. */
  function Join(lo: bv32, hi: bv32): bv32 {
    lo + (hi << 16)
  }

  lemma {:induction false} HalvesArePack(b0: bv8, b1: bv8, b2: bv8, b3: bv8)
    ensures Join(Load16(b0, b1), Load16(b2, b3)) == Pack(b0, b1, b2, b3)
    ensures Join(Load16(b0, b1), b2 as bv32) == Pack(b0, b1, b2, 0)
    ensures Load16(b0, b1) == Pack(b0, b1, 0, 0)
  {
    assert Join((b0 as bv32) | ((b1 as bv32) << 8), (b2 as bv32) | ((b3 as bv32) << 8)) == Pack(b0, b1, b2, b3);
    assert Join((b0 as bv32) | ((b1 as bv32) << 8), b2 as bv32) == Pack(b0, b1, b2, 0);
  }

  /** The word read at address q. */
  function W32(mem: Bytes, q: nat): bv32
    requires q + 4 <= |mem|
  {
    Load32(mem[q], mem[q + 1], mem[q + 2], mem[q + 3])
  }

  function W16(mem: Bytes, q: nat): bv32
    requires q + 2 <= |mem|
  {
    Load16(mem[q], mem[q + 1])
  }

  function Halves(mem: Bytes, q: nat): bv32
    requires q + 4 <= |mem|
  {
    Join(W16(mem, q), W16(mem, q + 2))
  }

  /** c plus byte b at byte position n. */
  function Put(c: bv32, b: bv8, n: nat): bv32 {
    if n == 0 then c + (b as bv32)
    else if n == 1 then c + ((b as bv32) << 8)
    else if n == 2 then c + ((b as bv32) << 16)
    else c + ((b as bv32) << 24)
  }

  lemma {:induction false} AddNothing(c: bv32)
    ensures Add(c, Pack(0, 0, 0, 0)) == c
    ensures Put(c, 0, 0) == Put(c, 0, 1) == Put(c, 0, 2) == Put(c, 0, 3) == c
  {
  }

  /** Adding the bytes one by one, in either order, adds the word. */
  lemma {:induction false} PutsAddPack(c: bv32, b0: bv8, b1: bv8, b2: bv8, b3: bv8)
    ensures Put(Put(Put(Put(c, b3, 3), b2, 2), b1, 1), b0, 0) == Add(c, Pack(b0, b1, b2, b3))
  {
    assert Put(c + ((b3 as bv32) << 24), b2, 2) == c + ((b3 as bv32) << 24) + ((b2 as bv32) << 16);
    assert Put(c + ((b3 as bv32) << 24) + ((b2 as bv32) << 16), b1, 1)
        == c + ((b3 as bv32) << 24) + ((b2 as bv32) << 16) + ((b1 as bv32) << 8);
    assert Put(c + ((b3 as bv32) << 24) + ((b2 as bv32) << 16) + ((b1 as bv32) << 8), b0, 0)
        == Add(c, (b0 as bv32) + ((b1 as bv32) << 8) + ((b2 as bv32) << 16) + ((b3 as bv32) << 24));
  }

  lemma {:induction false} PutsAddPackUp(c: bv32, b0: bv8, b1: bv8, b2: bv8, b3: bv8)
    ensures Put(Put(Put(Put(c, b0, 0), b1, 1), b2, 2), b3, 3) == Add(c, Pack(b0, b1, b2, b3))
  {
    assert Put(c + (b0 as bv32), b1, 1) == c + (b0 as bv32) + ((b1 as bv32) << 8);
    assert Put(c + (b0 as bv32) + ((b1 as bv32) << 8), b2, 2)
        == c + (b0 as bv32) + ((b1 as bv32) << 8) + ((b2 as bv32) << 16);
    assert Put(c + (b0 as bv32) + ((b1 as bv32) << 8) + ((b2 as bv32) << 16), b3, 3)
        == Add(c, (b0 as bv32) + ((b1 as bv32) << 8) + ((b2 as bv32) << 16) + ((b3 as bv32) << 24));
  }

  // ---- The three read paths ----

  /** The length rounded up to whole words. */
  function Rounded(n: nat): (r: nat)
    ensures n <= r < n + 4
  {
    if n == 0 then 0 else if n <= 4 then 4 else 4 + Rounded(n - 4)
  }

  lemma {:induction false} RoundedBlock(n: nat)
    requires n > 12
    ensures Rounded(n) == 12 + Rounded(n - 12)
  {
    assert Rounded(n) == 4 + Rounded(n - 4);
    assert Rounded(n - 4) == 4 + Rounded(n - 8);
  }

  lemma {:induction false} SliceBytes(mem: Bytes, p: nat, len: nat, i: nat)
    requires p + len <= |mem|
    ensures ByteAt(mem[p..p + len], i) == if i < len then mem[p + i] else 0
  {
  }

  /** The bytes of the word at offset i of the key. */
  lemma {:induction false} WordBytes(mem: Bytes, p: nat, len: nat, i: nat)
    requires p + len <= |mem| && (i < len ==> p + i + 4 <= |mem|)
    ensures var w := WordAt(mem[p..p + len], i);
      && (i + 4 <= len ==> w == Pack(mem[p + i], mem[p + i + 1], mem[p + i + 2], mem[p + i + 3]))
      && (i + 3 == len ==> w == Pack(mem[p + i], mem[p + i + 1], mem[p + i + 2], 0))
      && (i + 2 == len ==> w == Pack(mem[p + i], mem[p + i + 1], 0, 0))
      && (i + 1 == len ==> w == Pack(mem[p + i], 0, 0, 0))
      && (len <= i ==> w == Pack(0, 0, 0, 0))
  {
    SliceBytes(mem, p, len, i);
    SliceBytes(mem, p, len, i + 1);
    SliceBytes(mem, p, len, i + 2);
    SliceBytes(mem, p, len, i + 3);
  }

  /** What the word at offset i of the key is, seen through word loads and masks. */
  lemma {:induction false} WordSeen(mem: Bytes, p: nat, len: nat, i: nat)
    requires p + len <= |mem| && (i < len ==> p + i + 4 <= |mem|)
    ensures var w := WordAt(mem[p..p + len], i);
      && (i + 4 <= len ==> w == W32(mem, p + i))
      && (i < len < i + 4 ==> w == Low(W32(mem, p + i), len - i))
      && (len <= i ==> w == Pack(0, 0, 0, 0))
  {
    WordBytes(mem, p, len, i);
    if i < len {
      LoadIsPack(mem[p + i], mem[p + i + 1], mem[p + i + 2], mem[p + i + 3]);
      LowIsPack(mem[p + i], mem[p + i + 1], mem[p + i + 2], mem[p + i + 3]);
    }
  }

  /** One word of a block, read whole and masked to the bytes left of the key. */
  method AbsorbWord(mem: Bytes, p: nat, len: nat, i: nat, x: bv32) returns (r: bv32)
    requires p + len <= |mem| && (i < len ==> p + i + 4 <= |mem|)
    ensures r == Add(x, WordAt(mem[p..p + len], i))
  {
    WordSeen(mem, p, len, i);
    AddNothing(x);
    r := x;
    if len >= i + 4 { r := Add(r, W32(mem, p + i)); }
    else if len == i + 3 { r := Add(r, Low(W32(mem, p + i), 3)); }
    else if len == i + 2 { r := Add(r, Low(W32(mem, p + i), 2)); }
    else if len == i + 1 { r := Add(r, Low(W32(mem, p + i), 1)); }
  }

  method AbsorbWords(mem: Bytes, p: nat, len: nat, t: Triple) returns (r: Triple)
    requires len > 0 && p + Rounded(len) <= |mem|
    ensures r == Absorb(t, mem[p..p + len])
  {
    WholeWords(len);
    var c := AbsorbWord(mem, p, len, 8, t.c);
    var b := AbsorbWord(mem, p, len, 4, t.b);
    var a := AbsorbWord(mem, p, len, 0, t.a);
    r := Triple(a, b, c);
  }

  lemma {:induction false} WholeWords(n: nat)
    ensures (0 < n ==> 4 <= Rounded(n)) && (4 < n ==> 8 <= Rounded(n)) && (8 < n ==> 12 <= Rounded(n))
  {
    if n > 4 { assert Rounded(n) == 4 + Rounded(n - 4); }
    if n > 8 { assert Rounded(n - 4) == 4 + Rounded(n - 8); }
  }

  /** The key from p on, of which len bytes are left, still has to be hashed from state t. */
  ghost predicate Remains(t: Triple, mem: Bytes, p: nat, len: nat, h: bv32) {
    p + len <= |mem| && Blocks(t, mem[p..p + len]) == h
  }

  lemma {:induction false} BlockDone(t: Triple, mem: Bytes, p: nat, len: nat, h: bv32, u: Triple)
    requires Remains(t, mem, p, len, h) && len > 12 && u == Mix(Absorb(t, mem[p..p + len]))
    ensures Remains(u, mem, p + 12, len - 12, h)
  {
    assert mem[p..p + len][12..] == mem[p + 12..p + len];
  }

  lemma {:induction false} LastDone(t: Triple, mem: Bytes, p: nat, len: nat, h: bv32, u: Triple)
    requires Remains(t, mem, p, len, h) && 1 <= len <= 12 && u == Final(Absorb(t, mem[p..p + len]))
    ensures u.c == h
  {
  }

  method BlockByWords(t: Triple, mem: Bytes, p: nat, len: nat, ghost h: bv32) returns (u: Triple)
    requires Remains(t, mem, p, len, h) && len > 12 && p + Rounded(len) <= |mem|
    ensures Remains(u, mem, p + 12, len - 12, h) && p + 12 + Rounded(len - 12) <= |mem|
  {
    RoundedBlock(len);
    u := AbsorbWords(mem, p, len, t);
    u := Mix(u);
    BlockDone(t, mem, p, len, h, u);
  }

  /** Hashing through aligned 32-bit loads; they may read up to the end of the last word. */
  method HashWords(start: Triple, mem: Bytes, length: nat) returns (h: bv32)
    requires Rounded(length) <= |mem|
    ensures h == Blocks(start, mem[..length])
  {
    ghost var goal := Blocks(start, mem[..length]);
    var t, p: nat, len: nat := start, 0, length;
    assert mem[0..length] == mem[..length];
    while len > 12
      invariant p + len == length && p + Rounded(len) <= |mem|
      invariant Remains(t, mem, p, len, goal)
    {
      t := BlockByWords(t, mem, p, len, goal);
      p, len := p + 12, len - 12;
    }
    if len == 0 { return t.c; }
    var u := AbsorbWords(mem, p, len, t);
    u := Final(u);
    LastDone(t, mem, p, len, goal, u);
    h := u.c;
  }

  /** What the word at offset i of the key is, seen through half-word and byte loads. */
  lemma {:induction false} HalvesSeen(mem: Bytes, p: nat, len: nat, i: nat)
    requires p + len <= |mem|
    ensures var w := WordAt(mem[p..p + len], i);
      && (i + 4 <= len ==> w == Halves(mem, p + i))
      && (i + 3 == len ==> w == Join(W16(mem, p + i), mem[p + i + 2] as bv32))
      && (i + 2 == len ==> w == W16(mem, p + i))
  {
    SliceBytes(mem, p, len, i);
    SliceBytes(mem, p, len, i + 1);
    SliceBytes(mem, p, len, i + 2);
    SliceBytes(mem, p, len, i + 3);
    if i + 4 <= len { HalvesArePack(mem[p + i], mem[p + i + 1], mem[p + i + 2], mem[p + i + 3]); }
    if i + 3 == len { HalvesArePack(mem[p + i], mem[p + i + 1], mem[p + i + 2], 0); }
    if i + 2 == len { HalvesArePack(mem[p + i], mem[p + i + 1], 0, 0); }
  }

  /** A trailing single byte, and nothing. */
  lemma {:induction false} ByteSeen(mem: Bytes, p: nat, len: nat, i: nat)
    requires p + len <= |mem| && len <= i + 1
    ensures WordAt(mem[p..p + len], i) == Pack(if i < len then mem[p + i] else 0, 0, 0, 0)
  {
    SliceBytes(mem, p, len, i);
    SliceBytes(mem, p, len, i + 1);
    SliceBytes(mem, p, len, i + 2);
    SliceBytes(mem, p, len, i + 3);
  }

  lemma {:induction false} PutOne(c: bv32, b: bv8)
    ensures Put(c, b, 0) == Add(c, Pack(b, 0, 0, 0))
  {
    assert Pack(b, 0, 0, 0) == (b as bv32);
    assert Put(c, b, 0) == Add(c, b as bv32);
  }

  /** The byte of an odd tail is added before the half word below it. */
  lemma {:induction false} PutThree(c: bv32, b: bv8, w: bv32)
    ensures Add(Put(c, b, 2), w) == Add(c, Join(w, b as bv32))
  {
    assert Add(c + ((b as bv32) << 16), w) == Add(c, w + ((b as bv32) << 16));
  }

  /** One word of the last block, half words and bytes read: n bytes of it are left. */
  method TailHalves(mem: Bytes, q: nat, n: nat, x: bv32) returns (r: bv32)
    requires q + (if n < 4 then n else 4) <= |mem|
    ensures n >= 4 ==> r == Add(x, Halves(mem, q))
    ensures n == 3 ==> r == Add(x, Join(W16(mem, q), mem[q + 2] as bv32))
    ensures n == 2 ==> r == Add(x, W16(mem, q))
    ensures n == 1 ==> r == Add(x, Pack(mem[q], 0, 0, 0))
    ensures n == 0 ==> r == x
  {
    r := x;
    if n >= 4 {
      r := Add(r, Halves(mem, q));
    } else if n == 3 {
      PutThree(x, mem[q + 2], W16(mem, q));
      r := Add(Put(r, mem[q + 2], 2), W16(mem, q));
    } else if n == 2 {
      r := Add(r, W16(mem, q));
    } else if n == 1 {
      PutOne(x, mem[q]);
      r := Put(r, mem[q], 0);
    }
  }

  method AbsorbHalves(mem: Bytes, p: nat, len: nat, t: Triple) returns (r: Triple)
    requires p + len <= |mem|
    ensures r == Absorb(t, mem[p..p + len])
  {
    var c := AbsorbHalf(mem, p, len, 8, t.c);
    var b := AbsorbHalf(mem, p, len, 4, t.b);
    var a := AbsorbHalf(mem, p, len, 0, t.a);
    r := Triple(a, b, c);
  }

  method AbsorbHalf(mem: Bytes, p: nat, len: nat, i: nat, x: bv32) returns (r: bv32)
    requires p + len <= |mem|
    ensures r == Add(x, WordAt(mem[p..p + len], i))
  {
    if len <= i {
      ByteSeen(mem, p, len, i);
      AddNothing(x);
      return x;
    }
    HalvesSeen(mem, p, len, i);
    if len == i + 1 { ByteSeen(mem, p, len, i); }
    r := TailHalves(mem, p + i, len - i, x);
  }

  method BlockByHalves(t: Triple, mem: Bytes, p: nat, len: nat, ghost h: bv32) returns (u: Triple)
    requires Remains(t, mem, p, len, h) && len > 12
    ensures Remains(u, mem, p + 12, len - 12, h)
  {
    u := AbsorbHalves(mem, p, len, t);
    u := Mix(u);
    BlockDone(t, mem, p, len, h, u);
  }

  /** Hashing through aligned 16-bit loads. */
  method HashHalves(start: Triple, mem: Bytes, length: nat) returns (h: bv32)
    requires length <= |mem|
    ensures h == Blocks(start, mem[..length])
  {
    ghost var goal := Blocks(start, mem[..length]);
    var t, p: nat, len: nat := start, 0, length;
    assert mem[0..length] == mem[..length];
    while len > 12
      invariant p + len == length
      invariant Remains(t, mem, p, len, goal)
    {
      t := BlockByHalves(t, mem, p, len, goal);
      p, len := p + 12, len - 12;
    }
    if len == 0 { return t.c; }
    var u := AbsorbHalves(mem, p, len, t);
    u := Final(u);
    LastDone(t, mem, p, len, goal, u);
    h := u.c;
  }

  /** One word of a block, byte by byte from the top, skipping bytes past the end of the key. */
  method AbsorbByte(mem: Bytes, p: nat, len: nat, i: nat, x: bv32) returns (r: bv32)
    requires p + len <= |mem|
    ensures r == Add(x, WordAt(mem[p..p + len], i))
  {
    ghost var k := mem[p..p + len];
    SliceBytes(mem, p, len, i);
    SliceBytes(mem, p, len, i + 1);
    SliceBytes(mem, p, len, i + 2);
    SliceBytes(mem, p, len, i + 3);
    PutsAddPack(x, ByteAt(k, i), ByteAt(k, i + 1), ByteAt(k, i + 2), ByteAt(k, i + 3));
    r := x;
    var n := 4;
    while n > 0
      invariant 0 <= n <= 4
      invariant n == 4 ==> r == x
      invariant n == 3 ==> r == Put(x, ByteAt(k, i + 3), 3)
      invariant n == 2 ==> r == Put(Put(x, ByteAt(k, i + 3), 3), ByteAt(k, i + 2), 2)
      invariant n == 1 ==> r == Put(Put(Put(x, ByteAt(k, i + 3), 3), ByteAt(k, i + 2), 2), ByteAt(k, i + 1), 1)
      invariant n == 0 ==> r == Add(x, WordAt(k, i))
    {
      n := n - 1;
      AddNothing(r);
      if i + n < len { r := Put(r, mem[p + i + n], n); }
    }
  }

  /** One word of a full block, byte by byte from the bottom. */
  method AddFullWord(mem: Bytes, p: nat, len: nat, i: nat, x: bv32) returns (r: bv32)
    requires p + len <= |mem| && i + 4 <= len
    ensures r == Add(x, WordAt(mem[p..p + len], i))
  {
    SliceBytes(mem, p, len, i);
    SliceBytes(mem, p, len, i + 1);
    SliceBytes(mem, p, len, i + 2);
    SliceBytes(mem, p, len, i + 3);
    PutsAddPackUp(x, mem[p + i], mem[p + i + 1], mem[p + i + 2], mem[p + i + 3]);
    r := Put(x, mem[p + i], 0);
    r := Put(r, mem[p + i + 1], 1);
    r := Put(r, mem[p + i + 2], 2);
    r := Put(r, mem[p + i + 3], 3);
  }

  method AbsorbFullBytes(mem: Bytes, p: nat, len: nat, t: Triple) returns (r: Triple)
    requires p + len <= |mem| && len > 12
    ensures r == Absorb(t, mem[p..p + len])
  {
    var a := AddFullWord(mem, p, len, 0, t.a);
    var b := AddFullWord(mem, p, len, 4, t.b);
    var c := AddFullWord(mem, p, len, 8, t.c);
    r := Triple(a, b, c);
  }

  method AbsorbBytes(mem: Bytes, p: nat, len: nat, t: Triple) returns (r: Triple)
    requires p + len <= |mem|
    ensures r == Absorb(t, mem[p..p + len])
  {
    var c := AbsorbByte(mem, p, len, 8, t.c);
    var b := AbsorbByte(mem, p, len, 4, t.b);
    var a := AbsorbByte(mem, p, len, 0, t.a);
    r := Triple(a, b, c);
  }

  method BlockByBytes(t: Triple, mem: Bytes, p: nat, len: nat, ghost h: bv32) returns (u: Triple)
    requires Remains(t, mem, p, len, h) && len > 12
    ensures Remains(u, mem, p + 12, len - 12, h)
  {
    u := AbsorbFullBytes(mem, p, len, t);
    u := Mix(u);
    BlockDone(t, mem, p, len, h, u);
  }

  /** Hashing byte by byte. */
  method HashBytes(start: Triple, mem: Bytes, length: nat) returns (h: bv32)
    requires length <= |mem|
    ensures h == Blocks(start, mem[..length])
  {
    ghost var goal := Blocks(start, mem[..length]);
    var t, p: nat, len: nat := start, 0, length;
    assert mem[0..length] == mem[..length];
    while len > 12
      invariant p + len == length
      invariant Remains(t, mem, p, len, goal)
    {
      t := BlockByBytes(t, mem, p, len, goal);
      p, len := p + 12, len - 12;
    }
    if len == 0 { return t.c; }
    var u := AbsorbBytes(mem, p, len, t);
    u := Final(u);
    LastDone(t, mem, p, len, goal, u);
    h := u.c;
  }

  /**
   * `mem` is the memory from the key on. Whatever the alignment of the key, and whatever follows it,
   * the result is the hash of its bytes.
   */
  method JenkinsHash(address: nat, mem: Bytes, length: nat) returns (h: bv32)
    requires length <= |mem| && (address % 4 == 0 ==> Rounded(length) <= |mem|)
    ensures h == Hash(mem[..length])
  {
    var t := Initial(length);
    assert |mem[..length]| == length;
    if address % 4 == 0 {
      h := HashWords(t, mem, length);
    } else if address % 2 == 0 {
      h := HashHalves(t, mem, length);
    } else {
      h := HashBytes(t, mem, length);
    }
  }

  // ---- No information is lost but in the last step ----

  /** The whole internal state at the end, of which the hash is one word. */
  function Finished(t: Triple, k: Bytes): Triple
    decreases |k|
  {
    if k == [] then t
    else if |k| <= 12 then Final(Absorb(t, k))
    else Finished(Mix(Absorb(t, k)), k[12..])
  }

  lemma {:induction false} HashIsLastWord(t: Triple, k: Bytes)
    ensures Blocks(t, k) == Finished(t, k).c
    decreases |k|
  {
    if |k| <= 12 {
    } else {
      HashIsLastWord(Mix(Absorb(t, k)), k[12..]);
    }
  }

  lemma {:induction false} AddCancels(x: bv32, w: bv32)
    ensures Sub(Add(x, w), x) == w
  {
    assert Sub(x + w, x) == w;
  }

  function Byte(w: bv32, n: nat): bv8 {
    if n == 0 then (w & 0xff) as bv8
    else if n == 1 then ((w >> 8) & 0xff) as bv8
    else if n == 2 then ((w >> 16) & 0xff) as bv8
    else ((w >> 24) & 0xff) as bv8
  }

  lemma {:induction false} ByteOfPack(b0: bv8, b1: bv8, b2: bv8, b3: bv8)
    ensures Byte(Pack(b0, b1, b2, b3), 0) == b0 && Byte(Pack(b0, b1, b2, b3), 1) == b1
    ensures Byte(Pack(b0, b1, b2, b3), 2) == b2 && Byte(Pack(b0, b1, b2, b3), 3) == b3
  {
    assert Byte((b0 as bv32) + ((b1 as bv32) << 8) + ((b2 as bv32) << 16) + ((b3 as bv32) << 24), 0) == b0;
    assert Byte((b0 as bv32) + ((b1 as bv32) << 8) + ((b2 as bv32) << 16) + ((b3 as bv32) << 24), 1) == b1;
    assert Byte((b0 as bv32) + ((b1 as bv32) << 8) + ((b2 as bv32) << 16) + ((b3 as bv32) << 24), 2) == b2;
    assert Byte((b0 as bv32) + ((b1 as bv32) << 8) + ((b2 as bv32) << 16) + ((b3 as bv32) << 24), 3) == b3;
  }

  /** Words recover the bytes they were packed from. */
  lemma {:induction false} WordsDetermine(k: Bytes, l: Bytes, i: nat, j: nat)
    requires |k| == |l| && WordAt(k, i) == WordAt(l, i) && i <= j < i + 4
    ensures ByteAt(k, j) == ByteAt(l, j)
  {
    ByteOfPack(ByteAt(k, i), ByteAt(k, i + 1), ByteAt(k, i + 2), ByteAt(k, i + 3));
    ByteOfPack(ByteAt(l, i), ByteAt(l, i + 1), ByteAt(l, i + 2), ByteAt(l, i + 3));
  }

  /** Absorbing loses neither the state nor the block. */
  lemma {:induction false} AbsorbState(t: Triple, u: Triple, k: Bytes)
    requires Absorb(t, k) == Absorb(u, k)
    ensures t == u
  {
    AddSub(t.a, WordAt(k, 0));
    AddSub(t.b, WordAt(k, 4));
    AddSub(t.c, WordAt(k, 8));
    AddSub(u.a, WordAt(k, 0));
    AddSub(u.b, WordAt(k, 4));
    AddSub(u.c, WordAt(k, 8));
  }

  lemma {:induction false} AbsorbWordsEqual(t: Triple, k: Bytes, l: Bytes)
    requires Absorb(t, k) == Absorb(t, l)
    ensures WordAt(k, 0) == WordAt(l, 0) && WordAt(k, 4) == WordAt(l, 4) && WordAt(k, 8) == WordAt(l, 8)
  {
    AddCancels(t.a, WordAt(k, 0));
    AddCancels(t.b, WordAt(k, 4));
    AddCancels(t.c, WordAt(k, 8));
    AddCancels(t.a, WordAt(l, 0));
    AddCancels(t.b, WordAt(l, 4));
    AddCancels(t.c, WordAt(l, 8));
  }

  lemma {:induction false} AbsorbKey(t: Triple, k: Bytes, l: Bytes, j: nat)
    requires |k| == |l| && Absorb(t, k) == Absorb(t, l) && j < |k| && j < 12
    ensures k[j] == l[j]
  {
    AbsorbWordsEqual(t, k, l);
    if j < 4 { WordsDetermine(k, l, 0, j); } else if j < 8 { WordsDetermine(k, l, 4, j); }
    else { WordsDetermine(k, l, 8, j); }
  }

  /** For a fixed rest of the key the end state determines the state before it. */
  lemma {:induction false} FinishedInjective(t: Triple, u: Triple, k: Bytes)
    requires Finished(t, k) == Finished(u, k)
    ensures t == u
    decreases |k|
  {
    if k == [] {
    } else if |k| <= 12 {
      FinalIsReversible(Absorb(t, k));
      FinalIsReversible(Absorb(u, k));
      AbsorbState(t, u, k);
    } else {
      FinishedInjective(Mix(Absorb(t, k)), Mix(Absorb(u, k)), k[12..]);
      MixIsReversible(Absorb(t, k));
      MixIsReversible(Absorb(u, k));
      AbsorbState(t, u, k);
    }
  }

  /** The first block and the rest of the key. */
  lemma {:induction false} FirstBlock(t: Triple, b: Bytes, c: Bytes, post: Bytes)
    requires 1 <= |b| == |c| <= 12 && (post != [] ==> |b| == 12)
    requires Finished(t, b + post) == Finished(t, c + post)
    ensures b == c
  {
    var k, l := b + post, c + post;
    if post == [] {
      assert k == b && l == c;
      FinalIsReversible(Absorb(t, k));
      FinalIsReversible(Absorb(t, l));
    } else {
      assert k[12..] == post && l[12..] == post;
      FinishedInjective(Mix(Absorb(t, k)), Mix(Absorb(t, l)), post);
      MixIsReversible(Absorb(t, k));
      MixIsReversible(Absorb(t, l));
    }
    forall j | 0 <= j < |b| ensures b[j] == c[j] {
      AbsorbKey(t, k, l, j);
      assert k[j] == b[j] && l[j] == c[j];
    }
  }

  /**
   * Two keys of one length that differ within a single 12-byte block never end in the same internal
   * state: the only loss is that the hash is one of its three words.
   */
  lemma {:induction false} OneBlockAlwaysShows(t: Triple, pre: Bytes, b: Bytes, c: Bytes, post: Bytes)
    requires |pre| % 12 == 0 && 1 <= |b| == |c| <= 12 && (post != [] ==> |b| == 12) && b != c
    ensures Finished(t, pre + b + post) != Finished(t, pre + c + post)
    decreases |pre|
  {
    if pre == [] {
      assert pre + b + post == b + post && pre + c + post == c + post;
      if Finished(t, b + post) == Finished(t, c + post) { FirstBlock(t, b, c, post); }
    } else {
      var k, l, rest := pre + b + post, pre + c + post, pre[12..];
      assert k[12..] == rest + b + post && l[12..] == rest + c + post;
      SamePrefix(t, pre, b + post, c + post);
      assert k == pre + (b + post) && l == pre + (c + post);
      OneBlockAlwaysShows(Mix(Absorb(t, k)), rest, b, c, post);
    }
  }

  lemma {:induction false} SamePrefix(t: Triple, pre: Bytes, x: Bytes, y: Bytes)
    requires |pre| >= 12
    ensures Absorb(t, pre + x) == Absorb(t, pre + y)
  {
    assert forall i :: 0 <= i < 12 ==> ByteAt(pre + x, i) == ByteAt(pre + y, i);
  }

  /**
   * Two such keys collide only because the hash is one word of the state: it agrees in that word and
   * differs in one of the others.
   */
  lemma {:induction false} CollisionShowsElsewhere(pre: Bytes, b: Bytes, c: Bytes, post: Bytes)
    requires |pre| % 12 == 0 && 1 <= |b| == |c| <= 12 && (post != [] ==> |b| == 12) && b != c
    requires Hash(pre + b + post) == Hash(pre + c + post)
    ensures var u := Finished(Initial(|pre + b + post|), pre + b + post);
      var v := Finished(Initial(|pre + c + post|), pre + c + post);
      u.c == v.c == Hash(pre + b + post) && (u.a != v.a || u.b != v.b)
  {
    var k, l := pre + b + post, pre + c + post;
    HashIsLastWord(Initial(|k|), k);
    HashIsLastWord(Initial(|l|), l);
    assert |k| == |l|;
    OneBlockAlwaysShows(Initial(|k|), pre, b, c, post);
  }

  // ---- The length shows ----

  lemma {:induction false} AddZero(x: bv32)
    ensures Add(x, 0) == x
  {
  }

  lemma {:induction false} AddAssoc(x: bv32, y: bv32, z: bv32)
    ensures Add(Add(x, y), z) == Add(x, Add(y, z))
  {
    assert Add(x + y, z) == Add(x, y + z);
  }

  lemma {:induction false} AddCommutes(x: bv32, y: bv32)
    ensures Add(x, y) == Add(y, x)
  {
    assert Add(x, y) == y + x;
  }

  lemma {:induction false} AddOnes(x: bv32, y: bv32)
    ensures Add(Add(x, 1), Add(y, 1)) == Add(Add(Add(x, y), 1), 1)
  {
    AddAssoc(x, 1, Add(y, 1));
    AddCommutes(1, Add(y, 1));
    AddAssoc(x, Add(y, 1), 1);
    AddAssoc(x, y, 1);
  }

  lemma {:induction false} Low32More(n: nat)
    ensures Low32(n + 1) == Add(Low32(n), 1)
  {
    var h := Low32(n / 2);
    if n % 2 == 0 {
      assert (n + 1) / 2 == n / 2;
      AddZero(Add(h, h));
    } else {
      assert (n + 1) / 2 == n / 2 + 1;
      Low32More(n / 2);
      AddOnes(h, h);
      AddZero(Add(Add(h, 1), Add(h, 1)));
    }
  }

  /** One byte more in the length adds one to each word of the start state. */
  lemma {:induction false} OneByteMore(n: nat)
    ensures var t := Initial(n); Initial(n + 1) == Triple(Add(t.a, 1), Add(t.b, 1), Add(t.c, 1))
  {
    Low32More(n);
    AddAssoc(0xdeadbeef, Low32(n), 1);
  }

  lemma {:induction false} EmptyKey()
    ensures Hash([]) == 0xdeadbeef
  {
  }

  lemma {:induction false} ZeroByteAbsorbs(t: Triple, k: Bytes)
    ensures Absorb(t, k + [0]) == Absorb(t, k)
  {
    assert forall i: nat :: ByteAt(k + [0], i) == ByteAt(k, i);
  }

  /** A zero byte more in the last block. */
  lemma {:induction false} ZeroByteLast(t: Triple, k: Bytes)
    requires 0 < |k| < 12
    ensures Finished(t, k + [0]) == Finished(t, k)
  {
    ZeroByteAbsorbs(t, k);
  }

  lemma {:induction false} ZeroByteFirst(t: Triple, k: Bytes, u: Triple)
    requires |k| > 12 && u == Mix(Absorb(t, k))
    ensures Finished(t, k) == Finished(u, k[12..]) && Finished(t, k + [0]) == Finished(u, k[12..] + [0])
  {
    ZeroByteAbsorbs(t, k);
    assert (k + [0])[12..] == k[12..] + [0];
  }

  /** A zero byte after a partial block changes no word of it. */
  lemma {:induction false} ZeroByteHides(t: Triple, k: Bytes)
    requires |k| % 12 != 0
    ensures Finished(t, k + [0]) == Finished(t, k)
    decreases |k|
  {
    if |k| < 12 {
      ZeroByteLast(t, k);
    } else {
      var u := Mix(Absorb(t, k));
      ZeroByteFirst(t, k, u);
      ZeroByteHides(u, k[12..]);
    }
  }

  lemma {:induction false} MoreIsOther(x: bv32)
    ensures Add(x, 1) != x
  {
  }

  lemma {:induction false} StartShows(t: Triple, u: Triple, k: Bytes)
    requires t != u
    ensures Finished(t, k) != Finished(u, k)
  {
    if Finished(t, k) == Finished(u, k) { FinishedInjective(t, u, k); }
  }

  /**
   * The length of a key shows in the end state: a key with a partial last block and the same key with a
   * zero byte more, whose words are the same, never end in the same internal state.
   */
  lemma {:induction false} LengthShows(k: Bytes)
    requires |k| % 12 != 0
    ensures Finished(Initial(|k|), k) != Finished(Initial(|k + [0]|), k + [0])
  {
    OneByteMore(|k|);
    MoreIsOther(Initial(|k|).a);
    ZeroByteHides(Initial(|k| + 1), k);
    StartShows(Initial(|k|), Initial(|k| + 1), k);
  }
}
