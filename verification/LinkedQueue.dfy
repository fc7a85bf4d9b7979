/**
 * The lock-free linked queue as a step machine over a heap of nodes, one step per atomic access.
 */
module LinkedQueue {

  type Item = int
  const NULL: Item := 0
  const NIL: int := -1

  datatype Node = Node(item: Item, next: int)

  datatype Pc =
    | Idle
    // enqueue of the private node n; t was the tail, at place i of the chain
    | EnqTail(n: int)
    | EnqNext(n: int, t: int, i: nat)
    | EnqCheck(n: int, t: int, i: nat, s: int)
    | EnqLink(n: int, t: int, i: nat)
    | EnqSwing(n: int, t: int, i: nat)
    | EnqHelp(n: int, t: int, i: nat, s: int)
    // dequeue; h was the head, at place i, and t the tail, at place j
    | DeqHead
    | DeqTail(h: int, i: nat)
    | DeqNext(h: int, i: nat, t: int, j: nat)
    | DeqCheck(h: int, i: nat, t: int, j: nat, first: int)
    | DeqHelp(t: int, j: nat, first: int)
    | DeqTake(h: int, i: nat, first: int)
    | DeqItem(first: int, k: nat)
    | DeqClear(first: int, k: nat, item: Item)

  /** What the callers see. */
  datatype Event =
    | CallEnqueue(t: nat, x: Item)
    | ReturnEnqueue(t: nat, ok: bool)
    | CallDequeue(t: nat)
    | ReturnDequeue(t: nat, x: Item)

  /**
   * The shared part. `chain` lists the linked nodes from the first dummy on, `hi` and `ti` are the
   * places of head and tail in it, and `linked` is the item of each node after the dummy when it was
   * linked. They and the places in program counters are bookkeeping: no test of the program reads them.
   */
  datatype Heap = Heap(
    nodes: seq<Node>, head: int, tail: int, chain: seq<int>, hi: nat, ti: nat, linked: seq<Item>)

  datatype State = State(q: Heap, pcs: seq<Pc>, log: seq<Event>)

  datatype Choice = Enqueue(x: Item) | Dequeue | Go

  // ---- The invariant ----

  predicate At(q: Heap, n: int, i: nat) {
    i < |q.chain| && q.chain[i] == n
  }

  /** A node that its enqueuer has filled but not linked. */
  predicate Private(q: Heap, n: int) {
    0 <= n < |q.nodes| && n !in q.chain && q.nodes[n].next == NIL && q.nodes[n].item != NULL
  }

  /** The chain is a list: head is never past tail, and tail lags the last node by at most one. */
  predicate Chained(q: Heap) {
    && 0 < |q.chain| && |q.linked| == |q.chain| - 1
    && (forall i :: 0 <= i < |q.chain| ==> 0 <= q.chain[i] < |q.nodes|)
    && (forall i, j :: 0 <= i < j < |q.chain| ==> q.chain[i] != q.chain[j])
    && (forall i :: 0 <= i < |q.chain| - 1 ==> q.nodes[q.chain[i]].next == q.chain[i + 1])
    && q.nodes[q.chain[|q.chain| - 1]].next == NIL
    && q.hi <= q.ti < |q.chain| <= q.ti + 2
    && q.head == q.chain[q.hi] && q.tail == q.chain[q.ti]
    && (forall k :: 0 <= k < |q.linked| ==> q.linked[k] != NULL)
    && (forall k :: q.hi < k < |q.chain| ==> q.nodes[q.chain[k]].item == q.linked[k - 1])
  }

  predicate PcOk(q: Heap, pc: Pc) {
    match pc
    case EnqTail(n) => Private(q, n)
    case EnqNext(n, t, i) => Private(q, n) && At(q, t, i) && i <= q.ti
    case EnqCheck(n, t, i, x) => Private(q, n) && At(q, t, i) && i <= q.ti && (x != NIL ==> At(q, x, i + 1))
    case EnqLink(n, t, i) => Private(q, n) && At(q, t, i) && i <= q.ti
    case EnqSwing(n, t, i) => At(q, t, i) && At(q, n, i + 1) && i <= q.ti
    case EnqHelp(n, t, i, x) => Private(q, n) && At(q, t, i) && At(q, x, i + 1) && i <= q.ti
    case DeqTail(h, i) => At(q, h, i) && i <= q.hi
    case DeqNext(h, i, t, j) => At(q, h, i) && At(q, t, j) && i <= q.hi && i <= j <= q.ti
    case DeqCheck(h, i, t, j, f) =>
      && At(q, h, i) && At(q, t, j) && i <= q.hi && i <= j <= q.ti
      && (if f == NIL then i == j else At(q, f, i + 1))
    case DeqHelp(t, j, f) => At(q, t, j) && j <= q.ti && At(q, f, j + 1)
    case DeqTake(h, i, f) => At(q, h, i) && At(q, f, i + 1) && i <= q.hi && i + 1 <= q.ti
    case DeqItem(f, k) => Taking(q, f, k)
    case DeqClear(f, k, x) => Taking(q, f, k) && x == q.linked[k - 1]
    case _ => true
  }

  /** The node at place k has been passed by head, and its item has not been cleared. */
  predicate Taking(q: Heap, f: int, k: nat) {
    At(q, f, k) && 0 < k <= q.hi && k <= |q.linked| && 0 <= f < |q.nodes| && q.nodes[f].item == q.linked[k - 1]
  }

  /** The node only this thread knows, if any. */
  function Own(pc: Pc): int {
    match pc
    case EnqTail(n) => n
    case EnqNext(n, _, _) => n
    case EnqCheck(n, _, _, _) => n
    case EnqLink(n, _, _) => n
    case EnqHelp(n, _, _, _) => n
    case _ => NIL
  }

  /** The place of the node whose item this thread has taken, if any. */
  function Took(pc: Pc): nat {
    match pc
    case DeqItem(_, k) => k
    case DeqClear(_, k, _) => k
    case _ => 0
  }

  predicate Apart(a: Pc, b: Pc) {
    (Own(a) != NIL ==> Own(a) != Own(b)) && (Took(a) != 0 ==> Took(a) != Took(b))
  }

  predicate Inv(s: State) {
    && Chained(s.q)
    && (forall t :: 0 <= t < |s.pcs| ==> PcOk(s.q, s.pcs[t]))
    && (forall t, u :: 0 <= t < |s.pcs| && 0 <= u < |s.pcs| && t != u ==> Apart(s.pcs[t], s.pcs[u]))
  }

  // ---- The steps ----

  function Move(s: State, me: nat, pc: Pc): State
    requires me < |s.pcs|
  {
    s.(pcs := s.pcs[me := pc])
  }

  function Say(s: State, e: Event): State {
    s.(log := s.log + [e])
  }

  // The writes of the algorithm, each one atomic access.

  function Alloc(q: Heap, x: Item): Heap {
    q.(nodes := q.nodes + [Node(x, NIL)])
  }

  function Link(q: Heap, t: int, n: int): Heap
    requires 0 <= t < |q.nodes| && 0 <= n < |q.nodes|
  {
    q.(nodes := q.nodes[t := q.nodes[t].(next := n)],
       chain := q.chain + [n], linked := q.linked + [q.nodes[n].item])
  }

  function SwingTail(q: Heap, t: int, n: int): Heap {
    if q.tail == t then q.(tail := n, ti := q.ti + 1) else q
  }

  function TakeHead(q: Heap, f: int): Heap {
    q.(head := f, hi := q.hi + 1)
  }

  function Clear(q: Heap, f: int): Heap
    requires 0 <= f < |q.nodes|
  {
    q.(nodes := q.nodes[f := q.nodes[f].(item := NULL)])
  }

  predicate InEnqueue(pc: Pc) {
    pc.EnqTail? || pc.EnqNext? || pc.EnqCheck? || pc.EnqLink? || pc.EnqSwing? || pc.EnqHelp?
  }

  function StepIdle(s: State, me: nat, c: Choice): (s': State)
    requires me < |s.pcs|
    ensures |s'.pcs| == |s.pcs|
  {
    match c
    case Enqueue(x) =>
      if x == NULL then Say(s, ReturnEnqueue(me, false))
      else Say(Move(s, me, EnqTail(|s.q.nodes|)), CallEnqueue(me, x)).(q := Alloc(s.q, x))
    case Dequeue => Say(Move(s, me, DeqHead), CallDequeue(me))
    case Go => s
  }

  function StepEnqueue(s: State, me: nat): (s': State)
    requires me < |s.pcs| && InEnqueue(s.pcs[me]) && Chained(s.q) && PcOk(s.q, s.pcs[me])
    ensures |s'.pcs| == |s.pcs|
  {
    match s.pcs[me]
    case EnqTail(n) => Move(s, me, EnqNext(n, s.q.tail, s.q.ti))
    case EnqNext(n, t, i) => Move(s, me, EnqCheck(n, t, i, s.q.nodes[t].next))
    case EnqCheck(n, t, i, x) =>
      if t != s.q.tail then Move(s, me, EnqTail(n))
      else if x == NIL then Move(s, me, EnqLink(n, t, i))
      else Move(s, me, EnqHelp(n, t, i, x))
    case EnqLink(n, t, i) =>
      if s.q.nodes[t].next != NIL then Move(s, me, EnqTail(n))
      else Move(s, me, EnqSwing(n, t, i)).(q := Link(s.q, t, n))
    case EnqSwing(n, t, i) =>
      Say(Move(s, me, Idle), ReturnEnqueue(me, true)).(q := SwingTail(s.q, t, n))
    case EnqHelp(n, t, i, x) => Move(s, me, EnqTail(n)).(q := SwingTail(s.q, t, x))
    case _ => s
  }

  function StepDequeue(s: State, me: nat): (s': State)
    requires me < |s.pcs| && !s.pcs[me].Idle? && !InEnqueue(s.pcs[me])
    requires Chained(s.q) && PcOk(s.q, s.pcs[me])
    ensures |s'.pcs| == |s.pcs|
  {
    match s.pcs[me]
    case DeqHead => Move(s, me, DeqTail(s.q.head, s.q.hi))
    case DeqTail(h, i) => Move(s, me, DeqNext(h, i, s.q.tail, s.q.ti))
    case DeqNext(h, i, t, j) => Move(s, me, DeqCheck(h, i, t, j, s.q.nodes[h].next))
    case DeqCheck(h, i, t, j, f) =>
      if h != s.q.head then Move(s, me, DeqHead)
      else if h != t then Move(s, me, DeqTake(h, i, f))
      else if f == NIL then Say(Move(s, me, Idle), ReturnDequeue(me, NULL))
      else Move(s, me, DeqHelp(t, j, f))
    case DeqHelp(t, j, f) => Move(s, me, DeqHead).(q := SwingTail(s.q, t, f))
    case DeqTake(h, i, f) =>
      if s.q.head != h then Move(s, me, DeqHead)
      else Move(s, me, DeqItem(f, s.q.hi + 1)).(q := TakeHead(s.q, f))
    case DeqItem(f, k) =>
      if s.q.nodes[f].item == NULL then Move(s, me, DeqHead)
      else Move(s, me, DeqClear(f, k, s.q.nodes[f].item))
    case DeqClear(f, k, x) => Say(Move(s, me, Idle), ReturnDequeue(me, x)).(q := Clear(s.q, f))
    case _ => s
  }

  /** One atomic step of thread `me`. */
  function Step(s: State, me: nat, c: Choice): (s': State)
    requires Inv(s) && me < |s.pcs|
    ensures |s'.pcs| == |s.pcs|
  {
    if s.pcs[me].Idle? then StepIdle(s, me, c)
    else if InEnqueue(s.pcs[me]) then StepEnqueue(s, me)
    else StepDequeue(s, me)
  }

  /** The constructor: one dummy node, head and tail on it. */
  predicate Init(s: State)
    ensures Init(s) ==> Inv(s)
  {
    && s.q == Heap([Node(NULL, NIL)], 0, 0, [0], 0, 0, []) && s.log == []
    && forall t :: 0 <= t < |s.pcs| ==> s.pcs[t].Idle?
  }

  // ---- Every step keeps the invariant ----

  /** The shared part only moves on, and leaves alone what thread state pc relies on. */
  predicate Advances(q: Heap, q': Heap, pc: Pc) {
    && |q.nodes| <= |q'.nodes| && q.chain <= q'.chain && q.linked <= q'.linked
    && q.hi <= q'.hi && q.ti <= q'.ti
    && (0 <= Own(pc) < |q.nodes| ==> q'.nodes[Own(pc)] == q.nodes[Own(pc)] && Own(pc) !in q'.chain)
    && (0 < Took(pc) < |q.chain| && 0 <= q.chain[Took(pc)] < |q.nodes| ==>
          q'.nodes[q.chain[Took(pc)]].item == q.nodes[q.chain[Took(pc)]].item)
  }

  lemma {:induction false} PcStable(q: Heap, q': Heap, pc: Pc)
    requires PcOk(q, pc) && Advances(q, q', pc)
    ensures PcOk(q', pc)
  {
  }

  /** Only thread `me` moved, and nothing another thread relies on changed. */
  predicate Undisturbed(s: State, me: nat, s': State) {
    && me < |s.pcs| && |s'.pcs| == |s.pcs| && s'.pcs == s.pcs[me := s'.pcs[me]]
    && forall u :: 0 <= u < |s.pcs| && u != me ==> Advances(s.q, s'.q, s.pcs[u])
  }

  /** Thread `me` vouches for itself and for the shared part; the others are not disturbed. */
  lemma {:induction false} KeepsInv(s: State, me: nat, s': State)
    requires Inv(s) && Undisturbed(s, me, s')
    requires Chained(s'.q) && PcOk(s'.q, s'.pcs[me])
    requires forall u :: 0 <= u < |s.pcs| && u != me ==>
      Apart(s'.pcs[me], s.pcs[u]) && Apart(s.pcs[u], s'.pcs[me])
    ensures Inv(s')
  {
    forall u | 0 <= u < |s.pcs| ensures PcOk(s'.q, s'.pcs[u]) {
      if u != me { PcStable(s.q, s'.q, s.pcs[u]); }
    }
  }

  /** A thread that keeps or drops what it owns stays apart from the others. */
  predicate Yields(pc: Pc, pc': Pc) {
    Own(pc') in {NIL, Own(pc)} && Took(pc') in {0, Took(pc)}
  }

  lemma {:induction false} LocalKeeps(s: State, me: nat, s': State)
    requires Inv(s) && me < |s.pcs| && |s'.pcs| == |s.pcs| && s'.pcs == s.pcs[me := s'.pcs[me]]
    requires s'.q == s.q && PcOk(s.q, s'.pcs[me]) && Yields(s.pcs[me], s'.pcs[me])
    ensures Inv(s') && Undisturbed(s, me, s')
  {
    forall u | 0 <= u < |s.pcs| && u != me ensures Advances(s.q, s'.q, s.pcs[u]) {
      assert PcOk(s.q, s.pcs[u]);
    }
  }

  lemma {:induction false} SwingChained(q: Heap, t: int, i: nat, n: int)
    requires Chained(q) && At(q, t, i) && i <= q.ti && At(q, n, i + 1)
    ensures Chained(SwingTail(q, t, n))
  {
    assert q.tail == t ==> i == q.ti;
  }

  lemma {:induction false} SwingKeeps(s: State, me: nat, s': State, t: int, i: nat, n: int)
    requires Inv(s) && me < |s.pcs| && |s'.pcs| == |s.pcs| && s'.pcs == s.pcs[me := s'.pcs[me]]
    requires At(s.q, t, i) && i <= s.q.ti && At(s.q, n, i + 1)
    requires s'.q == SwingTail(s.q, t, n) && PcOk(s'.q, s'.pcs[me]) && Yields(s.pcs[me], s'.pcs[me])
    ensures Inv(s') && Undisturbed(s, me, s')
  {
    SwingChained(s.q, t, i, n);
    forall u | 0 <= u < |s.pcs| && u != me ensures Advances(s.q, s'.q, s.pcs[u]) {
      assert PcOk(s.q, s.pcs[u]);
    }
    KeepsInv(s, me, s');
  }

  lemma {:induction false} AllocKeeps(s: State, me: nat, s': State, x: Item)
    requires Inv(s) && me < |s.pcs| && s.pcs[me].Idle? && x != NULL
    requires s'.q == Alloc(s.q, x) && s'.pcs == s.pcs[me := EnqTail(|s.q.nodes|)]
    ensures Inv(s') && Undisturbed(s, me, s')
  {
    forall u | 0 <= u < |s.pcs| && u != me
      ensures Advances(s.q, s'.q, s.pcs[u]) && Apart(s'.pcs[me], s.pcs[u]) && Apart(s.pcs[u], s'.pcs[me])
    {
      assert PcOk(s.q, s.pcs[u]);
    }
    assert Chained(s'.q);
    KeepsInv(s, me, s');
  }

  /** A node without successor is the last one: linking after it needs no look at the tail pointer. */
  lemma {:induction false} NoNextIsLast(q: Heap, t: int, i: nat)
    requires Chained(q) && At(q, t, i)
    ensures q.nodes[t].next == NIL <==> i == |q.chain| - 1
    ensures q.nodes[t].next != NIL ==> At(q, q.nodes[t].next, i + 1)
  {
    if i < |q.chain| - 1 { assert q.nodes[q.chain[i]].next == q.chain[i + 1]; }
  }

  lemma {:induction false} LinkChained(q: Heap, t: int, n: int)
    requires Chained(q) && Private(q, n) && q.ti == |q.chain| - 1 && q.chain[q.ti] == t
    ensures Chained(Link(q, t, n))
  {
    var q' := Link(q, t, n);
    forall i | 0 <= i < |q'.chain| - 1 ensures q'.nodes[q'.chain[i]].next == q'.chain[i + 1] {
      if i < q.ti { assert q.chain[i] != q.chain[q.ti]; }
    }
  }

  lemma {:induction false} LinkKeeps(s: State, me: nat, s': State)
    requires Inv(s) && me < |s.pcs| && s.pcs[me].EnqLink? && PcOk(s.q, s.pcs[me])
    requires s.q.nodes[s.pcs[me].t].next == NIL
    requires var EnqLink(n, t, i) := s.pcs[me];
      s'.q == Link(s.q, t, n) && s'.pcs == s.pcs[me := EnqSwing(n, t, i)]
    ensures Inv(s') && Undisturbed(s, me, s')
  {
    var EnqLink(n, t, i) := s.pcs[me];
    NoNextIsLast(s.q, t, i);
    LinkChained(s.q, t, n);
    forall u | 0 <= u < |s.pcs| && u != me
      ensures Advances(s.q, s'.q, s.pcs[u]) && Apart(s'.pcs[me], s.pcs[u]) && Apart(s.pcs[u], s'.pcs[me])
    {
      assert PcOk(s.q, s.pcs[u]) && Apart(s.pcs[me], s.pcs[u]);
    }
    KeepsInv(s, me, s');
  }

  lemma {:induction false} TakeKeeps(s: State, me: nat, s': State, i: nat, f: int)
    requires Inv(s) && me < |s.pcs| && s.pcs[me] == DeqTake(s.q.head, i, f)
    requires s'.q == TakeHead(s.q, f) && s'.pcs == s.pcs[me := DeqItem(f, s.q.hi + 1)]
    ensures Inv(s') && Undisturbed(s, me, s')
  {
    assert PcOk(s.q, s.pcs[me]);
    assert i == s.q.hi;
    assert Chained(s'.q);
    forall u | 0 <= u < |s.pcs| && u != me
      ensures Advances(s.q, s'.q, s.pcs[u]) && Apart(s'.pcs[me], s.pcs[u]) && Apart(s.pcs[u], s'.pcs[me])
    {
      assert PcOk(s.q, s.pcs[u]);
    }
    KeepsInv(s, me, s');
  }

  lemma {:induction false} ClearChained(q: Heap, f: int, k: nat)
    requires Chained(q) && Taking(q, f, k)
    ensures Chained(Clear(q, f))
  {
  }

  lemma {:induction false} ClearKeeps(s: State, me: nat, s': State, f: int, k: nat, x: Item)
    requires Inv(s) && me < |s.pcs| && s.pcs[me] == DeqClear(f, k, x) && Taking(s.q, f, k)
    requires s'.q == Clear(s.q, f) && s'.pcs == s.pcs[me := Idle]
    ensures Inv(s') && Undisturbed(s, me, s')
  {
    ClearChained(s.q, f, k);
    forall u | 0 <= u < |s.pcs| && u != me ensures Advances(s.q, s'.q, s.pcs[u]) {
      assert PcOk(s.q, s.pcs[u]) && Apart(s.pcs[me], s.pcs[u]);
    }
    KeepsInv(s, me, s');
  }

  lemma {:induction false} EnqueueKeeps(s: State, me: nat)
    requires Inv(s) && me < |s.pcs| && InEnqueue(s.pcs[me])
    ensures Inv(StepEnqueue(s, me)) && Undisturbed(s, me, StepEnqueue(s, me))
  {
    var pc, s' := s.pcs[me], StepEnqueue(s, me);
    assert PcOk(s.q, pc);
    if pc.EnqSwing? {
      SwingKeeps(s, me, s', pc.t, pc.i, pc.n);
    } else if pc.EnqHelp? {
      SwingKeeps(s, me, s', pc.t, pc.i, pc.s);
    } else if pc.EnqLink? && s.q.nodes[pc.t].next == NIL {
      LinkKeeps(s, me, s');
    } else {
      if pc.EnqNext? { NoNextIsLast(s.q, pc.t, pc.i); }
      LocalKeeps(s, me, s');
    }
  }

  lemma {:induction false} DequeueLooks(s: State, me: nat)
    requires me < |s.pcs| && s.pcs[me].DeqNext? && Chained(s.q) && PcOk(s.q, s.pcs[me])
    ensures var s' := StepDequeue(s, me);
      s'.q == s.q && PcOk(s.q, s'.pcs[me]) && Yields(s.pcs[me], s'.pcs[me])
  {
    NoNextIsLast(s.q, s.pcs[me].h, s.pcs[me].i);
  }

  lemma {:induction false} DequeueStarts(s: State, me: nat)
    requires me < |s.pcs| && (s.pcs[me].DeqHead? || s.pcs[me].DeqTail?) && Chained(s.q) && PcOk(s.q, s.pcs[me])
    ensures var s' := StepDequeue(s, me);
      s'.q == s.q && PcOk(s.q, s'.pcs[me]) && Yields(s.pcs[me], s'.pcs[me])
  {
  }

  lemma {:induction false} DequeueLocalOk(s: State, me: nat)
    requires me < |s.pcs| && !s.pcs[me].Idle? && !InEnqueue(s.pcs[me]) && Chained(s.q) && PcOk(s.q, s.pcs[me])
    requires !s.pcs[me].DeqHelp? && !s.pcs[me].DeqClear? && (s.pcs[me].DeqTake? ==> s.pcs[me].h != s.q.head)
    ensures var s' := StepDequeue(s, me);
      s'.q == s.q && PcOk(s.q, s'.pcs[me]) && Yields(s.pcs[me], s'.pcs[me])
  {
    var pc := s.pcs[me];
    if pc.DeqNext? {
      DequeueLooks(s, me);
    } else if pc.DeqHead? || pc.DeqTail? {
      DequeueStarts(s, me);
    }
  }

  lemma {:induction false} DequeueLocal(s: State, me: nat)
    requires Inv(s) && me < |s.pcs| && !s.pcs[me].Idle? && !InEnqueue(s.pcs[me])
    requires !s.pcs[me].DeqHelp? && !s.pcs[me].DeqClear? && (s.pcs[me].DeqTake? ==> s.pcs[me].h != s.q.head)
    ensures Inv(StepDequeue(s, me)) && Undisturbed(s, me, StepDequeue(s, me))
  {
    DequeueLocalOk(s, me);
    LocalKeeps(s, me, StepDequeue(s, me));
  }

  lemma {:induction false} DequeueKeeps(s: State, me: nat)
    requires Inv(s) && me < |s.pcs| && !s.pcs[me].Idle? && !InEnqueue(s.pcs[me])
    ensures Inv(StepDequeue(s, me)) && Undisturbed(s, me, StepDequeue(s, me))
  {
    var pc, s' := s.pcs[me], StepDequeue(s, me);
    assert PcOk(s.q, pc);
    if pc.DeqHelp? {
      SwingKeeps(s, me, s', pc.t, pc.j, pc.first);
    } else if pc.DeqTake? && pc.h == s.q.head {
      TakeKeeps(s, me, s', pc.i, pc.first);
    } else if pc.DeqClear? {
      ClearKeeps(s, me, s', pc.first, pc.k, pc.item);
    } else {
      DequeueLocal(s, me);
    }
  }

  lemma {:induction false} StepKeeps(s: State, me: nat, c: Choice)
    requires Inv(s) && me < |s.pcs|
    ensures Inv(Step(s, me, c)) && Undisturbed(s, me, Step(s, me, c))
  {
    if s.pcs[me].Idle? {
      if c.Enqueue? && c.x != NULL {
        AllocKeeps(s, me, Step(s, me, c), c.x);
      } else {
        LocalKeeps(s, me, Step(s, me, c));
      }
    } else if InEnqueue(s.pcs[me]) {
      EnqueueKeeps(s, me);
    } else {
      DequeueKeeps(s, me);
    }
  }

  /** Any interleaving. */
  type Schedule = seq<(nat, Choice)>

  function Run(s: State, sched: Schedule): (s': State)
    requires Inv(s)
    ensures Inv(s') && |s'.pcs| == |s.pcs|
    decreases |sched|
  {
    if sched == [] then s
    else if sched[0].0 < |s.pcs| then
      StepKeeps(s, sched[0].0, sched[0].1);
      Run(Step(s, sched[0].0, sched[0].1), sched[1..])
    else Run(s, sched[1..])
  }
}
