/** One thread's bounded ring of tasks: `head` and `tail` only grow; the program sees them as 32-bit words. */
module TaskRing {

  import opened Words
  import opened Tally

  type Task = int

  /** Ring capacities for which the word arithmetic is exact (4096 in the default build). */
  predicate Capacity(n: nat) {
    0 < n < 0x8000_0000 && n % 2 == 0 && W32 % n == 0
  }

  datatype Ring = Ring(head: nat, tail: nat, content: seq<Task>)

  /** The slot the program reads through the word index w. */
  function Load(r: Ring, w: nat): Task
    requires |r.content| > 0
  {
    r.content[w % |r.content|]
  }

  /** Overwrite the slot behind the word index w. */
  function Store(r: Ring, w: nat, x: Task): Ring
    requires |r.content| > 0
  {
    r.(content := r.content[w % |r.content| := x])
  }

  /** The item in the slot that belongs to the unbounded position k. */
  function At(r: Ring, k: nat): Task
    requires |r.content| > 0
  {
    r.content[k % |r.content|]
  }

  /** How many tasks at the positions lo to hi satisfy p. */
  function Span(content: seq<Task>, lo: nat, hi: nat, p: Task -> bool): (k: nat)
    requires |content| > 0 && lo <= hi
    decreases hi - lo
  {
    if lo == hi then 0 else (if p(content[lo % |content|]) then 1 else 0) + Span(content, lo + 1, hi, p)
  }

  /** How many of the queued tasks satisfy p. */
  function Queued(r: Ring, p: Task -> bool): nat {
    if |r.content| > 0 && r.head <= r.tail then Span(r.content, r.head, r.tail, p) else 0
  }

  /** The m oldest positions of the ring. */
  function Front(r: Ring, m: nat): (batch: seq<Task>)
    requires |r.content| > 0
    ensures |batch| == m && forall k :: 0 <= k < m ==> batch[k] == At(r, r.head + k)
  {
    seq(m, k requires 0 <= k < m => At(r, r.head + k))
  }

  /** The batch is, in whatever order, the oldest tasks that are queued. */
  predicate Current(r: Ring, batch: seq<Task>)
    requires |r.content| > 0
  {
    r.head + |batch| <= r.tail && multiset(batch) == multiset(Front(r, |batch|))
  }

  predicate RingOk(n: nat, r: Ring) {
    Capacity(n) && |r.content| == n && r.head <= r.tail <= r.head + n
  }

  /** A batch copied from position h on is still the front of the queue, if head has not moved. */
  predicate Fresh(r: Ring, h: nat, temp: seq<Task>)
    requires |r.content| > 0
  {
    r.head == h ==>
      h + |temp| <= r.tail && forall k :: 0 <= k < |temp| ==> temp[k] == At(r, h + k)
  }

  /** What any thread may do to a ring, as seen by a thief: live slots stay put until head moves. */
  predicate Evolves(n: nat, r: Ring, r': Ring) {
    && RingOk(n, r) && RingOk(n, r')
    && r.head <= r'.head && r.tail <= r'.tail
    && (r.head == r'.head ==> forall k: nat :: r.head <= k < r.tail ==> At(r', k) == At(r, k))
  }

  /** What the other threads may do to a ring, as seen by its owner: only advance head. */
  predicate Drained(n: nat, r: Ring, r': Ring) {
    RingOk(n, r) && RingOk(n, r') && r' == r.(head := r'.head) && r.head <= r'.head
  }

  /** Reading through a wrapped index reaches the slot of the unbounded position. */
  lemma {:induction false} LoadIsAt(n: nat, r: Ring, h: nat, i: nat)
    requires Capacity(n) && |r.content| == n
    ensures Load(r, Word(h)) == At(r, h)
    ensures Load(r, Word(Word(h) + i)) == At(r, h + i)
  {
    WordMod(h, n);
    WordAdd(h, i);
    WordMod(h + i, n);
  }

  lemma {:induction false} SpanSplit(content: seq<Task>, lo: nat, mid: nat, hi: nat, p: Task -> bool)
    requires |content| > 0 && lo <= mid <= hi
    ensures Span(content, lo, hi, p) == Span(content, lo, mid, p) + Span(content, mid, hi, p)
    decreases mid - lo
  {
    if lo == mid {
    } else {
      SpanSplit(content, lo + 1, mid, hi, p);
    }
  }

  lemma {:induction false} SpanSame(r: Ring, r': Ring, lo: nat, hi: nat, p: Task -> bool)
    requires |r.content| > 0 && |r'.content| > 0 && lo <= hi
    requires forall k: nat :: lo <= k < hi ==> At(r', k) == At(r, k)
    ensures Span(r'.content, lo, hi, p) == Span(r.content, lo, hi, p)
    decreases hi - lo
  {
    if lo == hi {
    } else {
      assert At(r', lo) == At(r, lo);
      SpanSame(r, r', lo + 1, hi, p);
    }
  }

  lemma {:induction false} SpanOf(r: Ring, lo: nat, batch: seq<Task>, p: Task -> bool)
    requires |r.content| > 0
    requires forall k :: 0 <= k < |batch| ==> batch[k] == At(r, lo + k)
    ensures Span(r.content, lo, lo + |batch|, p) == Count(batch, p)
    decreases |batch|
  {
    if batch == [] {
    } else {
      assert batch[0] == At(r, lo + 0);
      forall k | 0 <= k < |batch| - 1 ensures batch[1..][k] == At(r, lo + 1 + k) {
        assert lo + 1 + k == lo + (k + 1);
      }
      SpanOf(r, lo + 1, batch[1..], p);
    }
  }

  /** A write into a free position leaves every other position of the window alone. */
  lemma {:induction false} StoreFree(n: nat, r: Ring, k: nat, y: Task, p: Task -> bool)
    requires RingOk(n, r) && r.tail <= k < r.head + n
    ensures var r' := Store(r, Word(k), y);
      && RingOk(n, r') && r'.head == r.head && r'.tail == r.tail && At(r', k) == y
      && (forall j: nat :: r.head <= j < r.head + n && j != k ==> At(r', j) == At(r, j))
      && Queued(r', p) == Queued(r, p) && Evolves(n, r, r')
  {
    WordMod(k, n);
    var r' := Store(r, Word(k), y);
    forall j: nat | r.head <= j < r.head + n && j != k
      ensures At(r', j) == At(r, j)
    {
      if j < k { ModDistinct(j, k, n); } else { ModDistinct(k, j, n); }
    }
    SpanSame(r, r', r.head, r.tail, p);
  }

  lemma {:induction false} TakeEvolves(n: nat, r: Ring, m: nat)
    requires RingOk(n, r) && r.head + m <= r.tail
    ensures var r' := r.(head := r.head + m);
      RingOk(n, r') && Evolves(n, r, r') && Drained(n, r, r')
  {
  }

  /** A fresh batch is the front of the queue: moving head past it takes out exactly that batch. */
  lemma {:induction false} TakeFresh(r: Ring, temp: seq<Task>, p: Task -> bool)
    requires |r.content| > 0 && Fresh(r, r.head, temp)
    ensures Queued(r, p) == Count(temp, p) + Queued(r.(head := r.head + |temp|), p)
  {
    SpanSplit(r.content, r.head, r.head + |temp|, r.tail, p);
    SpanOf(r, r.head, temp, p);
  }

  lemma {:induction false} FreshIsCurrent(r: Ring, temp: seq<Task>)
    requires |r.content| > 0 && Fresh(r, r.head, temp)
    ensures Current(r, temp)
  {
    assert temp == Front(r, |temp|);
  }

  /** Moving head past a current batch takes out exactly that batch. */
  lemma {:induction false} TakeCurrent(r: Ring, batch: seq<Task>, p: Task -> bool)
    requires |r.content| > 0 && Current(r, batch)
    ensures Queued(r, p) == Count(batch, p) + Queued(r.(head := r.head + |batch|), p)
  {
    TakeFresh(r, Front(r, |batch|), p);
    CountSame(batch, Front(r, |batch|), p);
  }

  lemma {:induction false} PublishEvolves(n: nat, r: Ring, m: nat)
    requires RingOk(n, r) && r.tail + m <= r.head + n
    ensures var r' := r.(tail := r.tail + m);
      RingOk(n, r') && Evolves(n, r, r')
  {
  }

  /** Moving tail past a written batch puts in exactly that batch. */
  lemma {:induction false} Publish(r: Ring, batch: seq<Task>, p: Task -> bool)
    requires |r.content| > 0 && r.head <= r.tail
    requires forall k :: 0 <= k < |batch| ==> batch[k] == At(r, r.tail + k)
    ensures Queued(r.(tail := r.tail + |batch|), p) == Queued(r, p) + Count(batch, p)
  {
    SpanSplit(r.content, r.head, r.tail, r.tail + |batch|, p);
    SpanOf(r, r.tail, batch, p);
  }

  /** Freshness survives whatever the other threads do to the ring. */
  lemma {:induction false} FreshStable(n: nat, r: Ring, r': Ring, h: nat, temp: seq<Task>)
    requires Evolves(n, r, r') && h <= r.head && Fresh(r, h, temp)
    ensures Fresh(r', h, temp)
  {
  }

  /** The half a thief asks for, as the program computes it from a snapshot. */
  function Half(tail: nat, head: nat): (m: nat)
  {
    var d := Sub32(tail, head);
    d - d / 2
  }

  /**
   * The size test of a steal rejects exactly the torn snapshots: those whose true distance
   * exceeds the capacity. An accepted snapshot never overruns the n/2-slot temporary array.
   */
  lemma {:induction false} RejectsExactlyTorn(n: nat, head: nat, tail: nat)
    requires Capacity(n) && 0 <= tail - head < W32
    ensures Half(tail, head) > n / 2 <==> tail - head > n
    ensures Half(tail, head) == 0 <==> tail == head
    ensures Half(tail, head) <= tail - head
  {
    SubIsDistance(tail, head);
  }
}
