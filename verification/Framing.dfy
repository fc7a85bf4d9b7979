/**
 * Messages between nodes: a header and a body written to a byte stream in pieces, read back in other
 * pieces. One connection, any number of senders.
 */
module Framing {

  type Byte = b: int | 0 <= b < 256

  type Bytes = seq<Byte>

  /** Type and data type (2 bytes each), size (4), two actor ids (12 each), request id (4). */
  const HEAD: nat := 36
  const NODE_ID: nat := 4

  datatype Frame = Frame(head: Bytes, body: Bytes)

  /** The size field of a header, little-endian. */
  function Size(head: Bytes): nat
    requires |head| == HEAD
  {
    var b0: int, b1: int, b2: int, b3: int := head[4], head[5], head[6], head[7];
    b0 + 256 * b1 + 65536 * b2 + 16777216 * b3
  }

  predicate WellFormed(f: Frame) {
    |f.head| == HEAD && Size(f.head) == |f.body|
  }

  /** A number below 256^k, least significant byte first. */
  function LittleEndian(n: nat, k: nat): (bytes: Bytes)
    ensures |bytes| == k
  {
    if k == 0 then [] else [n % 256] + LittleEndian(n / 256, k - 1)
  }

  /** The fields of a header, in the order in which they lie in memory. */
  datatype Meta = Meta(kind: nat, dataType: nat, size: nat, sender: Bytes, target: Bytes, reqid: nat)

  const ACTOR_ID: nat := 12
  const STREAM: nat := 1

  function HeadOf(m: Meta): (head: Bytes)
    requires |m.sender| == ACTOR_ID && |m.target| == ACTOR_ID
    ensures |head| == HEAD
  {
    LittleEndian(m.kind, 2) + LittleEndian(m.dataType, 2) + LittleEndian(m.size, 4)
    + m.sender + m.target + LittleEndian(m.reqid, 4)
  }

  lemma {:induction false} FourBytes(n: nat)
    requires n < 0x1_0000_0000
    ensures var b := LittleEndian(n, 4); var b0: int, b1: int, b2: int, b3: int := b[0], b[1], b[2], b[3];
      b0 + 256 * b1 + 65536 * b2 + 16777216 * b3 == n
  {
    var b := LittleEndian(n, 4);
    assert b[1..] == LittleEndian(n / 256, 3);
    assert b[2..] == LittleEndian(n / 256 / 256, 2);
    assert b[3..] == LittleEndian(n / 256 / 256 / 256, 1);
    assert b[0] == n % 256 && b[1] == n / 256 % 256 && b[2] == n / 256 / 256 % 256;
    assert b[3] == n / 256 / 256 / 256 % 256;
  }

  /** What the active side writes first: its node id, most significant byte first. */
  function Hello(node: nat): (hello: Bytes)
    ensures |hello| == NODE_ID
  {
    var b := LittleEndian(node, 4);
    [b[3], b[2], b[1], b[0]]
  }

  /** The node id a receiver takes from a handshake. */
  function NodeOf(hello: Bytes): nat
    requires |hello| == NODE_ID
  {
    var b0: int, b1: int, b2: int, b3: int := hello[3], hello[2], hello[1], hello[0];
    b0 + 256 * b1 + 65536 * b2 + 16777216 * b3
  }

  /** The receiver of a handshake reads back the node id of the other side. */
  lemma {:induction false} HelloRoundTrip(node: nat)
    requires node < 0x1_0000_0000
    ensures NodeOf(Hello(node)) == node
  {
    FourBytes(node);
  }

  /**
   * The receiver reads back the size the sender put in, and its mark is the data type field: nothing
   * else of the header changes.
   */
  lemma {:induction false} HeaderRoundTrip(m: Meta)
    requires |m.sender| == ACTOR_ID && |m.target| == ACTOR_ID && m.size < 0x1_0000_0000
    ensures Size(HeadOf(m)) == m.size
    ensures Stamp(HeadOf(m)) == HeadOf(m.(dataType := STREAM))
  {
    var head := HeadOf(m);
    assert head[4..8] == LittleEndian(m.size, 4);
    assert head[4] == head[4..8][0] && head[5] == head[4..8][1] && head[6] == head[4..8][2] && head[7] == head[4..8][3];
    FourBytes(m.size);
    assert LittleEndian(STREAM, 2) == [1, 0] by {
      assert LittleEndian(STREAM, 2) == [1] + LittleEndian(0, 1);
    }
    var head' := HeadOf(m.(dataType := STREAM));
    assert head'[2..4] == [1, 0];
    assert head'[2] == head'[2..4][0] && head'[3] == head'[2..4][1];
    forall i | 0 <= i < HEAD && i != 2 && i != 3 ensures head'[i] == head[i] {
    }
  }

  /** The receiver marks the data as a stream. */
  function Stamp(head: Bytes): Bytes
    requires |head| == HEAD
  {
    head[2 := 1][3 := 0]
  }

  function Received(f: Frame): Frame
    requires |f.head| == HEAD
  {
    Frame(Stamp(f.head), f.body)
  }

  function Flat(bufs: seq<Bytes>): Bytes {
    if bufs == [] then [] else bufs[0] + Flat(bufs[1..])
  }

  function FlatAll(chains: seq<seq<Bytes>>): Bytes {
    if chains == [] then [] else Flat(chains[0]) + FlatAll(chains[1..])
  }

  lemma {:induction false} FlatAllAppend(chains: seq<seq<Bytes>>, c: seq<Bytes>)
    ensures FlatAll(chains + [c]) == FlatAll(chains) + Flat(c)
  {
    if chains == [] {
      assert chains + [c] == [c];
    } else {
      assert (chains + [c])[1..] == chains[1..] + [c];
      FlatAllAppend(chains[1..], c);
    }
  }

  // ---- Sending ----

  /** Chains of buffers waiting in the mailbox, the rest of the current one, and how much of its first buffer is out. */
  datatype Tx = Tx(mbox: seq<seq<Bytes>>, chain: seq<Bytes>, written: nat)

  predicate TxOk(t: Tx) {
    && (if t.chain == [] then t.written == 0 else t.written <= |t.chain[0]|)
    && (forall i :: 0 <= i < |t.mbox| ==> t.mbox[i] != [])
  }

  function Fetch(t: Tx): Tx {
    if t.chain == [] && t.mbox != [] then Tx(t.mbox[1..], t.mbox[0], 0) else t
  }

  /** One call of write on the current buffer, of which the socket accepts at most n bytes. */
  function WriteOnce(t: Tx, n: nat): (Tx, Bytes)
    requires TxOk(t)
  {
    var t := Fetch(t);
    if t.chain == [] then (t, [])
    else
      var buf := t.chain[0];
      var k := if n < |buf| - t.written then n else |buf| - t.written;
      var t' := if k > 0 && t.written + k == |buf| then t.(chain := t.chain[1..], written := 0)
                else t.(written := t.written + k);
      (t', buf[t.written..t.written + k])
  }

  /** All bytes accepted for sending and not yet written. */
  function Pending(t: Tx): Bytes
    requires TxOk(t)
  {
    (if t.chain == [] then [] else t.chain[0][t.written..] + Flat(t.chain[1..])) + FlatAll(t.mbox)
  }

  lemma {:induction false} FetchKeeps(t: Tx)
    requires TxOk(t)
    ensures TxOk(Fetch(t)) && Pending(Fetch(t)) == Pending(t)
  {
    if t.chain == [] && t.mbox != [] {
      var c := t.mbox[0];
      assert c[0][0..] == c[0];
      assert Pending(Fetch(t)) == (c[0] + Flat(c[1..])) + FlatAll(t.mbox[1..]);
    }
  }

  lemma {:induction false} CutBuffer(buf: Bytes, i: nat, k: nat, rest: Bytes)
    requires i + k <= |buf|
    ensures buf[i..] + rest == buf[i..i + k] + (buf[i + k..] + rest)
  {
    assert buf[i..] == buf[i..i + k] + buf[i + k..];
  }

  /** What is left when the current buffer has been written up to position i. */
  lemma {:induction false} PendingFrom(u: Tx)
    requires TxOk(u) && u.chain != []
    ensures Pending(u) == u.chain[0][u.written..] + (Flat(u.chain[1..]) + FlatAll(u.mbox))
  {
  }

  /** What is left when the current buffer is finished. */
  lemma {:induction false} PendingAfter(u: Tx, u': Tx)
    requires TxOk(u) && u.chain != [] && u' == u.(chain := u.chain[1..], written := 0)
    ensures TxOk(u') && Pending(u') == Flat(u.chain[1..]) + FlatAll(u.mbox)
  {
    if u'.chain != [] {
      assert u'.chain[0][0..] == u'.chain[0];
      assert Flat(u'.chain) == u'.chain[0] + Flat(u'.chain[1..]);
    }
  }

  /** Whatever the socket accepts, the bytes come out in order and none is lost or repeated. */
  lemma {:induction false} WriteConserves(t: Tx, n: nat)
    requires TxOk(t)
    ensures var (t', out) := WriteOnce(t, n); TxOk(t') && out + Pending(t') == Pending(t)
  {
    FetchKeeps(t);
    var u := Fetch(t);
    var (t', out) := WriteOnce(t, n);
    if u.chain != [] {
      var buf, k, later := u.chain[0], |out|, Flat(u.chain[1..]) + FlatAll(u.mbox);
      CutBuffer(buf, u.written, k, later);
      PendingFrom(u);
      if k > 0 && u.written + k == |buf| {
        PendingAfter(u, t');
        assert buf[u.written + k..] + later == later;
      } else {
        PendingFrom(t');
      }
    }
  }

  lemma {:induction false} WriteOnceOk(t: Tx, n: nat)
    requires TxOk(t)
    ensures TxOk(WriteOnce(t, n).0)
  {
  }

  /** Writes one after the other, with the number of bytes each is allowed. */
  function WriteMany(t: Tx, ns: seq<nat>): (r: (Tx, Bytes))
    requires TxOk(t)
    ensures TxOk(r.0)
    decreases |ns|
  {
    if ns == [] then (t, [])
    else
      WriteOnceOk(t, ns[0]);
      var (t', out) := WriteOnce(t, ns[0]);
      var (t'', more) := WriteMany(t', ns[1..]);
      (t'', out + more)
  }

  lemma {:induction false} WriteStep(t: Tx, n: nat, ns: seq<nat>)
    requires TxOk(t)
    ensures TxOk(WriteOnce(t, n).0)
    ensures WriteMany(t, [n] + ns).0 == WriteMany(WriteOnce(t, n).0, ns).0
    ensures WriteMany(t, [n] + ns).1 == WriteOnce(t, n).1 + WriteMany(WriteOnce(t, n).0, ns).1
  {
    WriteOnceOk(t, n);
    assert ([n] + ns)[1..] == ns;
  }

  lemma {:induction false} WriteLast(t: Tx, ns: seq<nat>, n: nat)
    requires TxOk(t)
    ensures WriteMany(t, ns + [n]).0 == WriteOnce(WriteMany(t, ns).0, n).0
    ensures WriteMany(t, ns + [n]).1 == WriteMany(t, ns).1 + WriteOnce(WriteMany(t, ns).0, n).1
    decreases |ns|
  {
    if ns == [] {
      WriteStep(t, n, []);
      assert ns + [n] == [n] + [];
      assert WriteOnce(t, n).1 + [] == [] + WriteOnce(t, n).1;
    } else {
      var u := WriteOnce(t, ns[0]).0;
      assert ns == [ns[0]] + ns[1..] && ns + [n] == [ns[0]] + (ns[1..] + [n]);
      WriteStep(t, ns[0], ns[1..]);
      WriteStep(t, ns[0], ns[1..] + [n]);
      WriteLast(u, ns[1..], n);
      Regroup([], WriteOnce(t, ns[0]).1, WriteMany(u, ns[1..]).1, WriteOnce(WriteMany(t, ns).0, n).1);
    }
  }

  lemma {:induction false} WriteManyConserves(t: Tx, ns: seq<nat>)
    requires TxOk(t)
    ensures var (t', out) := WriteMany(t, ns); out + Pending(t') == Pending(t)
    decreases |ns|
  {
    if ns == [] {
    } else {
      WriteConserves(t, ns[0]);
      var (t1, o1) := WriteOnce(t, ns[0]);
      var (t2, o2) := WriteMany(t1, ns[1..]);
      WriteManyConserves(t1, ns[1..]);
      Regroup([], o1, o2, Pending(t2));
      assert WriteMany(t, ns) == (t2, o1 + o2);
    }
  }

  predicate Idle(t: Tx) { t.chain == [] && t.mbox == [] }

  predicate NonEmpty(c: seq<Bytes>) {
    forall i :: 0 <= i < |c| ==> c[i] != []
  }

  predicate AllNonEmpty(t: Tx) {
    NonEmpty(t.chain) && forall i :: 0 <= i < |t.mbox| ==> NonEmpty(t.mbox[i])
  }

  /** Something is left of the current buffer, so a write can complete it. */
  predicate Started(t: Tx) {
    TxOk(t) && (t.chain != [] && t.chain[0] != [] ==> t.written < |t.chain[0]|)
  }

  lemma {:induction false} WriteStarted(t: Tx, n: nat)
    requires Started(t)
    ensures Started(WriteOnce(t, n).0)
  {
    WriteOnceOk(t, n);
  }

  /** A buffer of size 0 is never finished: the write of no bytes returns 0. */
  lemma {:induction false} EmptyStays(t: Tx, n: nat)
    requires Started(t) && !AllNonEmpty(t)
    ensures !AllNonEmpty(WriteOnce(t, n).0)
  {
    var u, t' := Fetch(t), WriteOnce(t, n).0;
    if AllNonEmpty(t') { assert AllNonEmpty(u); }
  }

  lemma {:induction false} EmptyNeverDrains(t: Tx, ns: seq<nat>)
    requires Started(t) && !AllNonEmpty(t)
    ensures !Drains(t, ns)
    decreases |ns|
  {
    if ns == [] {
    } else {
      EmptyStays(t, ns[0]);
      WriteStarted(t, ns[0]);
      EmptyNeverDrains(WriteOnce(t, ns[0]).0, ns[1..]);
    }
  }

  /** These writes finish everything. */
  predicate Drains(t: Tx, ns: seq<nat>)
    requires TxOk(t)
  {
    Idle(WriteMany(t, ns).0)
  }

  function Buffers(chains: seq<seq<Bytes>>): nat {
    if chains == [] then 0 else |chains[0]| + Buffers(chains[1..])
  }

  /** If no buffer is empty, writes that are allowed enough finish everything. */
  lemma {:induction false} NonEmptyDrains(t: Tx) returns (ns: seq<nat>)
    requires Started(t) && AllNonEmpty(t)
    ensures Drains(t, ns)
    decreases |t.chain| + Buffers(t.mbox)
  {
    if Idle(t) {
      ns := [];
    } else {
      var u := Fetch(t);
      var n := |u.chain[0]|;
      WriteStarted(t, n);
      var t' := WriteOnce(t, n).0;
      assert t' == Tx(u.mbox, u.chain[1..], 0);
      var rest := NonEmptyDrains(t');
      ns := [n] + rest;
      assert ns[1..] == rest;
    }
  }

  /** All that was accepted can be written exactly when no buffer is empty. */
  lemma {:induction false} DrainsIffNoEmptyBuffer(t: Tx)
    requires Started(t)
    ensures (exists ns: seq<nat> :: Drains(t, ns)) <==> AllNonEmpty(t)
  {
    if AllNonEmpty(t) {
      var ns := NonEmptyDrains(t);
      assert Drains(t, ns);
    } else {
      forall ns: seq<nat> ensures !Drains(t, ns) {
        EmptyNeverDrains(t, ns);
      }
    }
  }

  // ---- Receiving ----

  datatype RxState = WaitHandshake | GetHead | GetBody

  /** `raw` is the header of the message being read, `buf` what has been collected so far. */
  datatype Rx = Rx(state: RxState, raw: Bytes, buf: Bytes)

  /** Size of the buffer being filled. */
  function Want(r: Rx): nat
    requires r.state.GetBody? ==> |r.raw| == HEAD
  {
    match r.state
    case WaitHandshake => NODE_ID
    case GetHead => HEAD
    case GetBody => Size(r.raw)
  }

  predicate RxOk(r: Rx) {
    (r.state.GetBody? ==> |r.raw| == HEAD) && |r.buf| < Want(r)
  }

  /** A full buffer is consumed: the next state and the messages delivered. */
  function Consume(r: Rx, full: Bytes): (Rx, seq<Frame>)
    requires RxOk(r) && |full| == Want(r)
  {
    match r.state
    case WaitHandshake => (Rx(GetHead, [], []), [])
    case GetHead =>
      if Size(full) > 0 then (Rx(GetBody, full, []), [])
      else (Rx(GetHead, [], []), [Frame(Stamp(full), [])])
    case GetBody => (Rx(GetHead, [], []), [Frame(Stamp(r.raw), full)])
  }

  /** A read delivered some bytes, at most as many as the buffer had room for. */
  function Read(r: Rx, chunk: Bytes): (Rx, seq<Frame>)
    requires RxOk(r) && |r.buf| + |chunk| <= Want(r)
  {
    if |r.buf| + |chunk| == Want(r) then Consume(r, r.buf + chunk) else (r.(buf := r.buf + chunk), [])
  }

  /** Reference: what a whole byte string means to a receiver. */
  function Parse(r: Rx, bytes: Bytes): (p: (Rx, seq<Frame>))
    requires RxOk(r)
    ensures RxOk(p.0)
    decreases |bytes|
  {
    if |r.buf| + |bytes| < Want(r) then (r.(buf := r.buf + bytes), [])
    else
      var k := Want(r) - |r.buf|;
      var (r', fs) := Consume(r, r.buf + bytes[..k]);
      var (r'', more) := Parse(r', bytes[k..]);
      (r'', fs + more)
  }

  lemma {:induction false} JoinBytes(x: Bytes, a: Bytes, b: Bytes, k: nat)
    requires |a| <= k <= |a| + |b|
    ensures x + (a + b)[..k] == (x + a) + b[..k - |a|] && (a + b)[k..] == b[k - |a|..]
  {
  }

  /** The second part completes the buffer that the first has begun. */
  lemma {:induction false} ParseJoin(r: Rx, a: Bytes, b: Bytes)
    requires RxOk(r) && |r.buf| + |a| < Want(r)
    ensures Parse(r, a + b) == Parse(r.(buf := r.buf + a), b)
  {
    var k := Want(r) - |r.buf|;
    if |a| + |b| >= k {
      JoinBytes(r.buf, a, b, k);
      assert Want(r.(buf := r.buf + a)) - |r.buf + a| == k - |a|;
    } else {
      assert r.buf + (a + b) == (r.buf + a) + b;
    }
  }

  /** One full buffer, then the rest. */
  lemma {:induction false} ParseStep(r: Rx, bytes: Bytes, r': Rx, fs: seq<Frame>)
    requires RxOk(r) && |r.buf| + |bytes| >= Want(r)
    requires Consume(r, r.buf + bytes[..Want(r) - |r.buf|]) == (r', fs)
    ensures RxOk(r')
    ensures Parse(r, bytes).0 == Parse(r', bytes[Want(r) - |r.buf|..]).0
    ensures Parse(r, bytes).1 == fs + Parse(r', bytes[Want(r) - |r.buf|..]).1
  {
  }

  /** The first part does not fill the buffer. */
  lemma {:induction false} ParseShort(r: Rx, a: Bytes, b: Bytes)
    requires RxOk(r) && |r.buf| + |a| < Want(r)
    ensures Parse(r, a + b).0 == Parse(Parse(r, a).0, b).0
    ensures Parse(r, a + b).1 == Parse(r, a).1 + Parse(Parse(r, a).0, b).1
  {
    var r' := r.(buf := r.buf + a);
    ParseJoin(r, a, b);
    assert Parse(r, a) == (r', []);
    assert [] + Parse(r', b).1 == Parse(r', b).1;
  }

  /** The first part fills the buffer with its first k bytes; r' and fs are what comes of it. */
  lemma {:induction false} ParseLong(r: Rx, a: Bytes, b: Bytes, k: nat) returns (r': Rx, fs: seq<Frame>)
    requires RxOk(r) && k == Want(r) - |r.buf| <= |a|
    ensures RxOk(r') && Parse(r, a).0 == Parse(r', a[k..]).0 && Parse(r, a).1 == fs + Parse(r', a[k..]).1
    ensures Parse(r, a + b).0 == Parse(r', a[k..] + b).0 && Parse(r, a + b).1 == fs + Parse(r', a[k..] + b).1
  {
    var next := Consume(r, r.buf + a[..k]);
    r', fs := next.0, next.1;
    assert (a + b)[..k] == a[..k] && (a + b)[k..] == a[k..] + b;
    ParseStep(r, a, r', fs);
    ParseStep(r, a + b, r', fs);
  }

  /** Parsing in two parts is parsing the whole. */
  lemma {:induction false} ParseAppend(r: Rx, a: Bytes, b: Bytes)
    requires RxOk(r)
    ensures Parse(r, a + b).0 == Parse(Parse(r, a).0, b).0
    ensures Parse(r, a + b).1 == Parse(r, a).1 + Parse(Parse(r, a).0, b).1
    decreases |a|
  {
    var k := Want(r) - |r.buf|;
    if |a| < k {
      ParseShort(r, a, b);
    } else {
      var r', fs := ParseLong(r, a, b, k);
      ParseAppend(r', a[k..], b);
      FramesRegroup(fs, Parse(r', a[k..]).1, Parse(Parse(r, a).0, b).1);
    }
  }

  lemma {:induction false} FramesRegroup(a: seq<Frame>, b: seq<Frame>, c: seq<Frame>)
    ensures a + (b + c) == (a + b) + c
  {
  }

  /** A read is the parse of its bytes. */
  lemma {:induction false} ReadIsParse(r: Rx, chunk: Bytes)
    requires RxOk(r) && |r.buf| + |chunk| <= Want(r)
    ensures Parse(r, chunk) == Read(r, chunk)
  {
    if |r.buf| + |chunk| == Want(r) {
      assert chunk[..|chunk|] == chunk;
      var (r', fs) := Consume(r, r.buf + chunk);
      assert r'.buf + [] == r'.buf;
      assert Parse(r', chunk[|chunk|..]) == (r', []);
      assert fs + [] == fs;
    }
  }

  /** The bytes of messages. */
  function Encode(fs: seq<Frame>): Bytes {
    if fs == [] then [] else fs[0].head + fs[0].body + Encode(fs[1..])
  }

  predicate AllWellFormed(fs: seq<Frame>) {
    forall i :: 0 <= i < |fs| ==> WellFormed(fs[i])
  }

  function AllReceived(fs: seq<Frame>): (r: seq<Frame>)
    requires AllWellFormed(fs)
    ensures |r| == |fs| && forall i :: 0 <= i < |fs| ==> r[i] == Received(fs[i])
  {
    seq(|fs|, i requires 0 <= i < |fs| => Received(fs[i]))
  }

  const READY := Rx(GetHead, [], [])

  lemma {:induction false} ParseFrame(f: Frame)
    requires WellFormed(f)
    ensures Parse(READY, f.head + f.body) == (READY, [Received(f)])
  {
    var bytes := f.head + f.body;
    assert bytes[..HEAD] == f.head && bytes[HEAD..] == f.body;
    assert [] + f.head == f.head;
    assert Parse(READY, []) == (READY, []);
    assert [Received(f)] + [] == [Received(f)];
    if f.body != [] {
      assert f.body[..|f.body|] == f.body && [] + f.body == f.body && f.body[|f.body|..] == [];
      assert Parse(Rx(GetBody, f.head, []), f.body) == (READY, [Received(f)] + []);
      assert [] + ([Received(f)] + []) == [Received(f)];
    }
  }

  /** What was encoded is delivered, in order and unchanged but for the stream mark. */
  lemma {:induction false} ParseEncode(fs: seq<Frame>)
    requires AllWellFormed(fs)
    ensures Parse(READY, Encode(fs)) == (READY, AllReceived(fs))
  {
    if fs == [] {
    } else {
      var first, rest := fs[0].head + fs[0].body, Encode(fs[1..]);
      ParseFrame(fs[0]);
      ParseEncode(fs[1..]);
      ParseAppend(READY, first, rest);
      assert Encode(fs) == first + rest;
      assert AllReceived(fs) == [Received(fs[0])] + AllReceived(fs[1..]);
    }
  }

  lemma {:induction false} EncodeAppend(fs: seq<Frame>, f: Frame)
    ensures Encode(fs + [f]) == Encode(fs) + (f.head + f.body)
  {
    if fs == [] {
      assert fs + [f] == [f];
    } else {
      assert (fs + [f])[1..] == fs[1..] + [f];
      EncodeAppend(fs[1..], f);
    }
  }

  // ---- The whole connection ----

  /** `pipe` holds the bytes written and not yet read; `sent`, `taken` and `got` record the traffic. */
  datatype Link = Link(tx: Tx, pipe: Bytes, rx: Rx, sent: seq<Frame>, taken: Bytes, got: seq<Frame>)

  datatype Choice = Send(f: Frame) | Write(n: nat) | Receive(n: nat)

  /** A passive receiver first expects the node id that the other side writes. */
  function Begin(passive: bool, hello: Bytes): Link
    requires |hello| == NODE_ID
  {
    Link(Tx([], [], 0), if passive then hello else [], if passive then Rx(WaitHandshake, [], []) else READY, [], [], [])
  }

  function Step(l: Link, c: Choice): Link
    requires TxOk(l.tx) && RxOk(l.rx)
  {
    match c
    case Send(f) =>
      if WellFormed(f) then l.(tx := l.tx.(mbox := l.tx.mbox + [[f.head, f.body]]), sent := l.sent + [f]) else l
    case Write(n) =>
      var (tx, out) := WriteOnce(l.tx, n);
      l.(tx := tx, pipe := l.pipe + out)
    case Receive(n) =>
      var room := Want(l.rx) - |l.rx.buf|;
      if n <= room && n <= |l.pipe| then
        var (rx, fs) := Read(l.rx, l.pipe[..n]);
        l.(rx := rx, pipe := l.pipe[n..], taken := l.taken + l.pipe[..n], got := l.got + fs)
      else l
  }

  ghost predicate Inv(l: Link, start: Link) {
    && TxOk(l.tx) && RxOk(l.rx) && RxOk(start.rx) && AllWellFormed(l.sent)
    && l.taken + (l.pipe + Pending(l.tx)) == start.pipe + Encode(l.sent)
    && Parse(start.rx, l.taken) == (l.rx, l.got)
  }

  lemma {:induction false} SendKeeps(l: Link, start: Link, f: Frame)
    requires Inv(l, start) && WellFormed(f)
    ensures Inv(Step(l, Send(f)), start)
  {
    var l' := Step(l, Send(f));
    var c := [f.head, f.body];
    assert Flat(c) == f.head + f.body by {
      assert c[1..] == [f.body] && [f.body][1..] == [];
      assert Flat([f.body]) == f.body + [];
    }
    PendingMore(l.tx, c);
    EncodeAppend(l.sent, f);
    Regroup(l.taken, l.pipe, Pending(l.tx), Flat(c));
    Regroup([], start.pipe, Encode(l.sent), Flat(c));
  }

  lemma {:induction false} Regroup(a: Bytes, b: Bytes, c: Bytes, d: Bytes)
    ensures a + (b + (c + d)) == (a + (b + c)) + d && b + (c + d) == (b + c) + d
  {
  }

  lemma {:induction false} PendingMore(t: Tx, c: seq<Bytes>)
    requires TxOk(t) && c != []
    ensures var t' := t.(mbox := t.mbox + [c]); TxOk(t') && Pending(t') == Pending(t) + Flat(c)
  {
    FlatAllAppend(t.mbox, c);
  }

  lemma {:induction false} WriteKeeps(l: Link, start: Link, n: nat)
    requires Inv(l, start)
    ensures Inv(Step(l, Write(n)), start)
  {
    WriteConserves(l.tx, n);
    var (tx, out) := WriteOnce(l.tx, n);
    assert (l.pipe + out) + Pending(tx) == l.pipe + (out + Pending(tx));
  }

  lemma {:induction false} ReceiveKeeps(l: Link, start: Link, n: nat)
    requires Inv(l, start) && n <= Want(l.rx) - |l.rx.buf| && n <= |l.pipe|
    ensures Inv(Step(l, Receive(n)), start)
  {
    var chunk := l.pipe[..n];
    ReadIsParse(l.rx, chunk);
    ParseAppend(start.rx, l.taken, chunk);
    assert l.pipe == chunk + l.pipe[n..];
    assert (l.taken + chunk) + (l.pipe[n..] + Pending(l.tx)) == l.taken + ((chunk + l.pipe[n..]) + Pending(l.tx));
  }

  lemma {:induction false} StepKeeps(l: Link, start: Link, c: Choice)
    requires Inv(l, start)
    ensures Inv(Step(l, c), start)
  {
    match c {
      case Send(f) => {
        if WellFormed(f) { SendKeeps(l, start, f); }
      }
      case Write(n) => {
        WriteKeeps(l, start, n);
      }
      case Receive(n) => {
        if n <= Want(l.rx) - |l.rx.buf| && n <= |l.pipe| { ReceiveKeeps(l, start, n); }
      }
    }
  }

  function Run(l: Link, start: Link, sched: seq<Choice>): (l': Link)
    requires Inv(l, start)
    ensures Inv(l', start)
    decreases |sched|
  {
    if sched == [] then l
    else
      StepKeeps(l, start, sched[0]);
      Run(Step(l, sched[0]), start, sched[1..])
  }

  lemma {:induction false} BeginOk(passive: bool, hello: Bytes)
    requires |hello| == NODE_ID
    ensures Inv(Begin(passive, hello), Begin(passive, hello))
    ensures var b := Begin(passive, hello); Parse(b.rx, b.pipe) == (READY, [])
  {
    if passive {
      assert hello[..NODE_ID] == hello && [] + hello == hello && hello[NODE_ID..] == [];
      assert Parse(READY, []) == (READY, []);
    }
  }

  function Start(passive: bool, hello: Bytes): (l: Link)
    requires |hello| == NODE_ID
    ensures Inv(l, l)
  {
    BeginOk(passive, hello);
    Begin(passive, hello)
  }

  /**
   * For every pattern of partial writes and reads and every order of senders: what has been delivered
   * is a prefix of what was sent, in the order it was accepted; and it is all of it once nothing is
   * pending and every byte has been read.
   */
  lemma {:induction false} DeliversWhatWasSent(passive: bool, hello: Bytes, sched: seq<Choice>)
    requires |hello| == NODE_ID
    ensures var l := Run(Start(passive, hello), Start(passive, hello), sched);
      && l.got <= AllReceived(l.sent)
      && (Pending(l.tx) == [] && l.pipe == [] ==> l.got == AllReceived(l.sent) && l.rx == READY)
  {
    var start := Start(passive, hello);
    BeginOk(passive, hello);
    Delivered(Run(start, start, sched), start);
  }

  lemma {:induction false} Delivered(l: Link, start: Link)
    requires Inv(l, start) && Parse(start.rx, start.pipe) == (READY, [])
    ensures l.got <= AllReceived(l.sent)
    ensures Pending(l.tx) == [] && l.pipe == [] ==> l.got == AllReceived(l.sent) && l.rx == READY
  {
    var left := l.pipe + Pending(l.tx);
    ParseEncode(l.sent);
    ParseAppend(start.rx, start.pipe, Encode(l.sent));
    ParseAppend(start.rx, l.taken, left);
    assert [] + AllReceived(l.sent) == AllReceived(l.sent);
    assert AllReceived(l.sent) == l.got + Parse(l.rx, left).1;
    if Pending(l.tx) == [] && l.pipe == [] {
      assert l.rx.buf + left == l.rx.buf;
      assert Parse(l.rx, left) == (l.rx, []);
    }
  }

  // ---- What an empty body does to the connection ----

  /** How many messages have left the mailbox. */
  function Fetched(l: Link): int {
    |l.sent| - |l.tx.mbox|
  }

  /** The linked buffers of a message. */
  function Chain(f: Frame): seq<Bytes> {
    [f.head, f.body]
  }

  /**
   * The mailbox holds the messages sent last; of the one before them the header or the body is being
   * written; all messages before that one are written, so none of them had an empty body.
   */
  predicate Layout(l: Link) {
    var k := Fetched(l);
    && Started(l.tx) && AllWellFormed(l.sent) && 0 <= k
    && (forall i :: 0 <= i < |l.tx.mbox| ==> l.tx.mbox[i] == Chain(l.sent[k + i]))
    && (l.tx.chain == [] || (k > 0 && (l.tx.chain == Chain(l.sent[k - 1]) || l.tx.chain == [l.sent[k - 1].body])))
    && (forall i :: 0 <= i < k && l.sent[i].body == [] ==> i == k - 1 && l.tx.chain != [])
  }

  lemma {:induction false} FetchLayout(l: Link)
    requires Layout(l)
    ensures Layout(l.(tx := Fetch(l.tx)))
  {
  }

  /** The first buffer of the current message is finished and was not empty. */
  lemma {:induction false} FinishLayout(l: Link, t': Tx)
    requires Layout(l) && l.tx.chain != [] && l.tx.chain[0] != [] && Started(t')
    requires t' == l.tx.(chain := l.tx.chain[1..], written := 0)
    ensures Layout(l.(tx := t'))
  {
    var f := l.sent[Fetched(l) - 1];
    assert Chain(f)[1..] == [f.body] && [f.body][1..] == [];
  }

  /** Some of the current buffer is written. */
  lemma {:induction false} PartLayout(l: Link, t': Tx)
    requires Layout(l) && Started(t') && t'.chain == l.tx.chain && t'.mbox == l.tx.mbox
    ensures Layout(l.(tx := t'))
  {
  }

  /** Where the writer sends its bytes and who has read them is no matter of the layout. */
  lemma {:induction false} SameLayout(l: Link, l': Link)
    requires Layout(l) && l'.tx == l.tx && l'.sent == l.sent
    ensures Layout(l')
  {
  }

  lemma {:induction false} WriteLayout(l: Link, n: nat)
    requires Layout(l) && RxOk(l.rx)
    ensures Layout(Step(l, Write(n)))
  {
    var u, t' := l.(tx := Fetch(l.tx)), WriteOnce(l.tx, n).0;
    FetchLayout(l);
    WriteStarted(l.tx, n);
    if u.tx.chain != [] && t'.chain != u.tx.chain {
      FinishLayout(u, t');
    } else {
      PartLayout(u, t');
    }
    SameLayout(l.(tx := t'), Step(l, Write(n)));
  }

  lemma {:induction false} StepLayout(l: Link, c: Choice)
    requires Layout(l) && RxOk(l.rx)
    ensures Layout(Step(l, c)) && l.sent <= Step(l, c).sent
  {
    if c.Write? { WriteLayout(l, c.n); }
  }

  lemma {:induction false} RunLayout(l: Link, start: Link, sched: seq<Choice>)
    requires Inv(l, start) && Layout(l)
    ensures Layout(Run(l, start, sched)) && l.sent <= Run(l, start, sched).sent
    decreases |sched|
  {
    if sched == [] {
    } else {
      StepKeeps(l, start, sched[0]);
      StepLayout(l, sched[0]);
      RunLayout(Step(l, sched[0]), start, sched[1..]);
    }
  }

  /** The mailbox holds the bytes of the messages that have not left it. */
  lemma {:induction false} MailboxBytes(mbox: seq<seq<Bytes>>, fs: seq<Frame>)
    requires |mbox| == |fs| && forall i :: 0 <= i < |fs| ==> mbox[i] == Chain(fs[i])
    ensures FlatAll(mbox) == Encode(fs)
  {
    if fs == [] {
    } else {
      var f := fs[0];
      assert Flat(Chain(f)) == f.head + f.body by {
        assert Chain(f)[1..] == [f.body] && [f.body][1..] == [];
        assert Flat([f.body]) == f.body + [];
      }
      MailboxBytes(mbox[1..], fs[1..]);
    }
  }

  lemma {:induction false} EncodeSplit(fs: seq<Frame>, k: nat)
    requires k <= |fs|
    ensures Encode(fs) == Encode(fs[..k]) + Encode(fs[k..])
    decreases k
  {
    if k == 0 {
      assert fs[..0] == [] && fs[0..] == fs;
    } else {
      EncodeSplit(fs, k - 1);
      EncodeAppend(fs[..k - 1], fs[k - 1]);
      assert fs[..k] == fs[..k - 1] + [fs[k - 1]] && fs[k - 1..][1..] == fs[k..];
    }
  }

  /** Nothing is delivered of a message that is still in the mailbox. */
  lemma {:induction false} OnlyFetchedDelivered(l: Link, start: Link)
    requires Inv(l, start) && Layout(l) && Parse(start.rx, start.pipe) == (READY, [])
    ensures |l.got| <= Fetched(l)
  {
    var k, t := Fetched(l), l.tx;
    var first := l.(sent := l.sent[..k], tx := t.(mbox := []));
    MailboxBytes(t.mbox, l.sent[k..]);
    EncodeSplit(l.sent, k);
    assert Pending(t) == Pending(first.tx) + FlatAll(t.mbox);
    Regroup(l.taken, l.pipe, Pending(first.tx), FlatAll(t.mbox));
    Regroup([], start.pipe, Encode(first.sent), FlatAll(t.mbox));
    SameFront(l.taken + (l.pipe + Pending(first.tx)), start.pipe + Encode(first.sent), FlatAll(t.mbox));
    Delivered(first, start);
  }

  lemma {:induction false} SameFront(a: Bytes, b: Bytes, c: Bytes)
    requires a + c == b + c
    ensures a == b
  {
    assert |a| == |b|;
    assert a == (a + c)[..|a|] && b == (b + c)[..|b|];
  }

  /** Once a message with an empty body is sent, no later one is delivered, whatever happens. */
  lemma {:induction false} EmptyBodyBlocks(l: Link, start: Link, i: nat, sched: seq<Choice>)
    requires Inv(l, start) && Layout(l) && Parse(start.rx, start.pipe) == (READY, [])
    requires i < |l.sent| && l.sent[i].body == []
    ensures |Run(l, start, sched).got| <= i + 1
  {
    var l' := Run(l, start, sched);
    RunLayout(l, start, sched);
    OnlyFetchedDelivered(l', start);
    assert l'.sent[i] == l.sent[i];
  }

  lemma {:induction false} RunCons(l: Link, start: Link, c: Choice, sched: seq<Choice>)
    requires Inv(l, start)
    ensures Inv(Step(l, c), start) && Run(l, start, [c] + sched) == Run(Step(l, c), start, sched)
  {
    StepKeeps(l, start, c);
    assert ([c] + sched)[1..] == sched;
  }

  /** No message but the last has an empty body. */
  predicate Flows(fs: seq<Frame>) {
    forall i :: 0 <= i < |fs| - 1 ==> fs[i].body != []
  }

  /** A write that is allowed enough makes progress. */
  lemma {:induction false} WriteProgress(l: Link, n: nat)
    requires Layout(l) && Flows(l.sent) && Pending(l.tx) != []
    requires l.tx.chain != [] ==> n == |l.tx.chain[0]|
    requires l.tx.chain == [] && l.tx.mbox != [] ==> n == HEAD
    ensures WriteOnce(l.tx, n).1 != []
  {
    if l.tx.chain == [] {
      assert l.tx.mbox[0] == Chain(l.sent[Fetched(l)]);
    }
  }

  /** With nothing but the writer and the reader at work, all of it arrives. */
  lemma {:induction false} WritesOut(l: Link, start: Link) returns (sched: seq<Choice>)
    requires Inv(l, start) && Layout(l) && Flows(l.sent)
    ensures var l' := Run(l, start, sched); l'.sent == l.sent && Pending(l'.tx) == []
    decreases |Pending(l.tx)|
  {
    if Pending(l.tx) == [] {
      sched := [];
    } else {
      var n := if l.tx.chain == [] then HEAD else |l.tx.chain[0]|;
      WriteProgress(l, n);
      WriteConserves(l.tx, n);
      WriteLayout(l, n);
      StepKeeps(l, start, Write(n));
      var rest := WritesOut(Step(l, Write(n)), start);
      RunCons(l, start, Write(n), rest);
      sched := [Write(n)] + rest;
    }
  }

  lemma {:induction false} ReadsIn(l: Link, start: Link) returns (sched: seq<Choice>)
    requires Inv(l, start) && Pending(l.tx) == []
    ensures var l' := Run(l, start, sched); l'.sent == l.sent && Pending(l'.tx) == [] && l'.pipe == []
    decreases |l.pipe|
  {
    if l.pipe == [] {
      sched := [];
    } else {
      StepKeeps(l, start, Receive(1));
      var rest := ReadsIn(Step(l, Receive(1)), start);
      RunCons(l, start, Receive(1), rest);
      sched := [Receive(1)] + rest;
    }
  }

  lemma {:induction false} RunAppend(l: Link, start: Link, a: seq<Choice>, b: seq<Choice>)
    requires Inv(l, start)
    ensures Run(l, start, a + b) == Run(Run(l, start, a), start, b)
    decreases |a|
  {
    if a == [] {
      assert a + b == b;
    } else {
      StepKeeps(l, start, a[0]);
      assert (a + b)[1..] == a[1..] + b;
      RunAppend(Step(l, a[0]), start, a[1..], b);
    }
  }

  /** This continuation delivers all that has been sent so far. */
  predicate Delivers(l: Link, start: Link, sched: seq<Choice>)
    requires Inv(l, start)
  {
    AllReceived(l.sent) <= Run(l, start, sched).got
  }

  lemma {:induction false} FlowsDelivers(l: Link, start: Link) returns (sched: seq<Choice>)
    requires Inv(l, start) && Layout(l) && Parse(start.rx, start.pipe) == (READY, []) && Flows(l.sent)
    ensures Delivers(l, start, sched)
  {
    var a := WritesOut(l, start);
    var l1 := Run(l, start, a);
    var b := ReadsIn(l1, start);
    RunAppend(l, start, a, b);
    Delivered(Run(l1, start, b), start);
    sched := a + b;
  }

  lemma {:induction false} BlockedNeverDelivers(l: Link, start: Link, sched: seq<Choice>)
    requires Inv(l, start) && Layout(l) && Parse(start.rx, start.pipe) == (READY, []) && !Flows(l.sent)
    ensures !Delivers(l, start, sched)
  {
    var i :| 0 <= i < |l.sent| - 1 && l.sent[i].body == [];
    EmptyBodyBlocks(l, start, i, sched);
  }

  lemma {:induction false} DeliverableIff(l: Link, start: Link)
    requires Inv(l, start) && Layout(l) && Parse(start.rx, start.pipe) == (READY, [])
    ensures (exists sched :: Delivers(l, start, sched)) <==> Flows(l.sent)
  {
    if Flows(l.sent) {
      var sched := FlowsDelivers(l, start);
    } else {
      forall sched ensures !Delivers(l, start, sched) { BlockedNeverDelivers(l, start, sched); }
    }
  }

  /**
   * At every point of every run: all that has been sent can still be delivered if and only if no
   * message but the last has an empty body.
   */
  lemma {:induction false} DeliverableIffNoEmptyBody(passive: bool, hello: Bytes, sched: seq<Choice>)
    requires |hello| == NODE_ID
    ensures var start := Start(passive, hello); var l := Run(start, start, sched);
      (exists more :: Delivers(l, start, more)) <==> Flows(l.sent)
  {
    var start := Start(passive, hello);
    BeginOk(passive, hello);
    RunLayout(start, start, sched);
    DeliverableIff(Run(start, start, sched), start);
  }

  /** A run: of two messages, the first with an empty body, the second never arrives. */
  lemma {:induction false} SecondNeverArrives(passive: bool, hello: Bytes, e: Frame, f: Frame, sched: seq<Choice>)
    requires |hello| == NODE_ID && WellFormed(e) && WellFormed(f) && e.body == []
    ensures var start := Start(passive, hello);
      |Run(start, start, [Send(e), Send(f)] + sched).got| <= 1
  {
    var start, first := Start(passive, hello), [Send(e), Send(f)];
    BeginOk(passive, hello);
    RunLayout(start, start, first);
    RunAppend(start, start, first, sched);
    assert first == [Send(e)] + [Send(f)] && [Send(f)] == [Send(f)] + [];
    RunCons(start, start, Send(e), [Send(f)]);
    RunCons(Step(start, Send(e)), start, Send(f), []);
    EmptyBodyBlocks(Run(start, start, first), start, 0, sched);
  }

  // ---- The handler object ----

  /** One connection: the buffers being written and read, and what went in and out. */
  class StreamHandler {
    var mbox: seq<seq<Bytes>>
    var chain: seq<Bytes>
    var written: nat
    var wire: Bytes

    var state: RxState
    var raw: Bytes
    var buf: Bytes
    var delivered: seq<Frame>

    ghost function T(): Tx
      reads this
    {
      Tx(mbox, chain, written)
    }

    ghost function R(): Rx
      reads this
    {
      Rx(state, raw, buf)
    }

    ghost predicate Valid()
      reads this
    {
      Started(T()) && RxOk(R())
    }

    constructor (passive: bool)
      ensures Valid() && T() == Tx([], [], 0) && wire == [] && delivered == []
      ensures R() == if passive then Rx(WaitHandshake, [], []) else READY
    {
      mbox, chain, written, wire := [], [], 0, [];
      state := if passive then WaitHandshake else GetHead;
      raw, buf, delivered := [], [], [];
    }

    /** The buffers of a message are linked, so they leave the mailbox together. */
    method AsyncWrite(bufs: seq<Bytes>)
      requires Valid() && bufs != []
      modifies `mbox
      ensures Valid() && mbox == old(mbox) + [bufs] && Pending(T()) == old(Pending(T())) + Flat(bufs)
    {
      PendingMore(T(), bufs);
      mbox := mbox + [bufs];
    }

    /** One call of write; false when there is nothing to write or the buffer was not finished. */
    method WriteSome(accept: nat) returns (called: bool, finished: bool)
      requires Valid()
      modifies `mbox, `chain, `written, `wire
      ensures Valid() && T() == WriteOnce(old(T()), accept).0
      ensures wire == old(wire) + WriteOnce(old(T()), accept).1
      ensures called <==> !old(Idle(T()))
      ensures finished ==> called
      ensures called && !finished ==> chain != [] && (written < |chain[0]| || chain[0] == [])
      ensures !called ==> Idle(T()) && T() == old(T()) && wire == old(wire)
    {
      WriteStarted(T(), accept);
      if chain == [] {
        if mbox == [] { return false, false; }
        chain, mbox := mbox[0], mbox[1..];
      }
      var left := |chain[0]| - written;
      var n := if accept < left then accept else left;
      wire := wire + chain[0][written..written + n];
      if n > 0 && written + n == |chain[0]| {
        chain, written := chain[1..], 0;
        return true, true;
      }
      written := written + n;
      return true, false;
    }

    /**
     * A WRITE event; `accepts` is what the socket takes in each call of write. It goes on until the
     * mailbox is empty or a call does not finish its buffer, and reports the number of calls.
     */
    method HandleWrite(accepts: seq<nat>) returns (calls: nat)
      requires Valid()
      modifies `mbox, `chain, `written, `wire
      ensures Valid() && calls <= |accepts|
      ensures T() == WriteMany(old(T()), accepts[..calls]).0
      ensures wire == old(wire) + WriteMany(old(T()), accepts[..calls]).1
      ensures wire + Pending(T()) == old(wire + Pending(T()))
      ensures calls == |accepts| || Idle(T()) || (chain != [] && (written < |chain[0]| || chain[0] == []))
    {
      calls := 0;
      ghost var t0 := T();
      while calls < |accepts|
        modifies `mbox, `chain, `written, `wire
        invariant Valid() && calls <= |accepts|
        invariant T() == WriteMany(t0, accepts[..calls]).0
        invariant wire == old(wire) + WriteMany(t0, accepts[..calls]).1
      {
        var n := accepts[calls];
        ghost var t, done := T(), WriteMany(t0, accepts[..calls]).1;
        var called, finished := WriteSome(n);
        if !called { break; }
        assert accepts[..calls + 1] == accepts[..calls] + [n];
        WriteLast(t0, accepts[..calls], n);
        Regroup([], old(wire), done, WriteOnce(t, n).1);
        calls := calls + 1;
        if !finished { break; }
      }
      WriteManyConserves(t0, accepts[..calls]);
      Regroup([], old(wire), WriteMany(t0, accepts[..calls]).1, Pending(T()));
    }

    /** A READ event that got some bytes. */
    method HandleRead(chunk: Bytes)
      requires Valid() && |buf| + |chunk| <= Want(R())
      modifies `state, `raw, `buf, `delivered
      ensures Valid() && R() == Parse(old(R()), chunk).0
      ensures delivered == old(delivered) + Parse(old(R()), chunk).1
    {
      ReadIsParse(R(), chunk);
      ghost var r := R();
      buf := buf + chunk;
      if |buf| == (match state case WaitHandshake => NODE_ID case GetHead => HEAD case GetBody => Size(raw)) {
        match state {
          case WaitHandshake => {
            state, raw := GetHead, [];
          }
          case GetHead => {
            if Size(buf) > 0 {
              state, raw := GetBody, buf;
            } else {
              delivered, raw := delivered + [Frame(Stamp(buf), [])], [];
            }
          }
          case GetBody => {
            delivered := delivered + [Frame(Stamp(raw), buf)];
            state, raw := GetHead, [];
          }
        }
        buf := [];
      }
    }
  }
}
