/** The lock-free linked queue refines an atomic FIFO queue. */
module LinkedQueueSpec {

  import opened LinkedQueue

  // ---- The atomic queue ----

  /** Where a call stands; a dequeue remembers whether the queue was empty at some moment since the call. */
  datatype Call =
    | Ready
    | Enqueuing(x: Item)
    | Enqueued
    | Dequeuing(sawEmpty: bool)
    | Dequeued(y: Item)

  datatype Spec = Spec(queue: seq<Item>, calls: seq<Call>, log: seq<Event>)

  function Becomes(a: Spec, me: nat, call: Call): Spec
    requires me < |a.calls|
  {
    a.(calls := a.calls[me := call])
  }

  function Says(a: Spec, e: Event): Spec {
    a.(log := a.log + [e])
  }

  /** The transitions of the atomic queue; each takes effect in one step between call and return. */
  ghost predicate SpecStep(a: Spec, me: nat, b: Spec)
    requires me < |a.calls|
  {
    match a.calls[me]
    case Ready =>
      || (exists x: Item :: x != NULL && b == Says(Becomes(a, me, Enqueuing(x)), CallEnqueue(me, x)))
      || b == Says(a, ReturnEnqueue(me, false))
      || b == Says(Becomes(a, me, Dequeuing(false)), CallDequeue(me))
    case Enqueuing(x) => b == Becomes(a, me, Enqueued).(queue := a.queue + [x])
    case Enqueued => b == Says(Becomes(a, me, Ready), ReturnEnqueue(me, true))
    case Dequeuing(sawEmpty) =>
      || (a.queue != [] && b == Becomes(a, me, Dequeued(a.queue[0])).(queue := a.queue[1..]))
      || (a.queue == [] && b == Becomes(a, me, Dequeuing(true)))
      || b == Becomes(a, me, Dequeuing(false))
      || (sawEmpty && b == Says(Becomes(a, me, Ready), ReturnDequeue(me, NULL)))
    case Dequeued(y) => b == Says(Becomes(a, me, Ready), ReturnDequeue(me, y))
  }

  // ---- What a state of the algorithm stands for ----

  function CallOf(q: Heap, pc: Pc): Call {
    match pc
    case Idle => Ready
    case EnqSwing(_, _, _) => Enqueued
    case DeqCheck(_, _, _, _, f) => Dequeuing(f == NIL)
    case DeqItem(_, k) => Dequeued(if 0 < k <= |q.linked| then q.linked[k - 1] else NULL)
    case DeqClear(_, k, _) => Dequeued(if 0 < k <= |q.linked| then q.linked[k - 1] else NULL)
    case _ =>
      if InEnqueue(pc) then Enqueuing(if 0 <= Own(pc) < |q.nodes| then q.nodes[Own(pc)].item else NULL)
      else Dequeuing(false)
  }

  function Abs(s: State): (a: Spec)
    ensures |a.calls| == |s.pcs|
    ensures forall t :: 0 <= t < |s.pcs| ==> a.calls[t] == CallOf(s.q, s.pcs[t])
  {
    Spec(if s.q.hi <= |s.q.linked| then s.q.linked[s.q.hi..] else [],
         seq(|s.pcs|, t requires 0 <= t < |s.pcs| => CallOf(s.q, s.pcs[t])), s.log)
  }

  /** Nothing happens, or one transition of the atomic queue by the same caller. */
  ghost predicate Refines(a: Spec, me: nat, b: Spec) {
    b == a || (me < |a.calls| && SpecStep(a, me, b))
  }

  /** The other calls stand where they stood. */
  lemma {:induction false} OthersStand(s: State, me: nat, s': State)
    requires Inv(s) && Undisturbed(s, me, s')
    ensures Abs(s').calls == Abs(s).calls[me := CallOf(s'.q, s'.pcs[me])]
  {
    forall u | 0 <= u < |s.pcs| && u != me ensures CallOf(s'.q, s.pcs[u]) == CallOf(s.q, s.pcs[u]) {
      assert PcOk(s.q, s.pcs[u]);
    }
  }

  lemma {:induction false} IdleRefines(s: State, me: nat, c: Choice)
    requires Inv(s) && me < |s.pcs| && s.pcs[me].Idle?
    ensures Refines(Abs(s), me, Abs(Step(s, me, c)))
  {
    var s' := Step(s, me, c);
    StepKeeps(s, me, c);
    OthersStand(s, me, s');
    if c.Enqueue? && c.x != NULL {
      assert Abs(s') == Says(Becomes(Abs(s), me, Enqueuing(c.x)), CallEnqueue(me, c.x));
    } else if c.Enqueue? {
      assert Abs(s') == Says(Abs(s), ReturnEnqueue(me, false));
    } else if c.Dequeue? {
      assert Abs(s') == Says(Becomes(Abs(s), me, Dequeuing(false)), CallDequeue(me));
    }
  }

  lemma {:induction false} LinkRefines(s: State, me: nat, c: Choice)
    requires Inv(s) && me < |s.pcs| && s.pcs[me].EnqLink? && Step(s, me, c).pcs[me].EnqSwing?
    ensures Refines(Abs(s), me, Abs(Step(s, me, c)))
  {
    var s' := Step(s, me, c);
    StepKeeps(s, me, c);
    OthersStand(s, me, s');
    assert PcOk(s.q, s.pcs[me]);
    var x := s.q.nodes[s.pcs[me].n].item;
    assert s'.q.linked[s'.q.hi..] == s.q.linked[s.q.hi..] + [x];
    assert Abs(s') == Becomes(Abs(s), me, Enqueued).(queue := Abs(s).queue + [x]);
  }

  lemma {:induction false} SwingRefines(s: State, me: nat, c: Choice)
    requires Inv(s) && me < |s.pcs| && s.pcs[me].EnqSwing?
    ensures Refines(Abs(s), me, Abs(Step(s, me, c)))
  {
    var s' := Step(s, me, c);
    StepKeeps(s, me, c);
    OthersStand(s, me, s');
    assert Abs(s') == Says(Becomes(Abs(s), me, Ready), ReturnEnqueue(me, true));
  }

  lemma {:induction false} EnqueueMoves(s: State, me: nat)
    requires me < |s.pcs| && InEnqueue(s.pcs[me]) && Chained(s.q) && PcOk(s.q, s.pcs[me])
    requires !s.pcs[me].EnqSwing? && !StepEnqueue(s, me).pcs[me].EnqSwing?
    ensures var s' := StepEnqueue(s, me);
      && InEnqueue(s'.pcs[me]) && Own(s'.pcs[me]) == Own(s.pcs[me]) && s'.q.nodes == s.q.nodes
      && s'.q.linked == s.q.linked && s'.q.hi == s.q.hi && s'.log == s.log
  {
  }

  lemma {:induction false} EnqueueRefines(s: State, me: nat, c: Choice)
    requires Inv(s) && me < |s.pcs| && InEnqueue(s.pcs[me]) && !s.pcs[me].EnqSwing?
    requires !Step(s, me, c).pcs[me].EnqSwing?
    ensures Abs(Step(s, me, c)) == Abs(s)
  {
    StepKeeps(s, me, c);
    EnqueueMoves(s, me);
    OthersStand(s, me, Step(s, me, c));
  }

  /** Loading no successor of a head snapshot shows the queue empty at that very moment. */
  lemma {:induction false} NoNextMeansEmpty(s: State, me: nat)
    requires Inv(s) && me < |s.pcs| && s.pcs[me].DeqNext? && PcOk(s.q, s.pcs[me])
    ensures s.q.nodes[s.pcs[me].h].next == NIL ==> Abs(s).queue == []
  {
    NoNextIsLast(s.q, s.pcs[me].h, s.pcs[me].i);
  }

  lemma {:induction false} TakeRefines(s: State, me: nat, c: Choice)
    requires Inv(s) && me < |s.pcs| && s.pcs[me].DeqTake? && s.pcs[me].h == s.q.head
    ensures Refines(Abs(s), me, Abs(Step(s, me, c)))
  {
    var s' := Step(s, me, c);
    StepKeeps(s, me, c);
    OthersStand(s, me, s');
    assert PcOk(s.q, s.pcs[me]);
    var a := Abs(s);
    assert a.queue[0] == s.q.linked[s.q.hi];
    assert Abs(s') == Becomes(a, me, Dequeued(a.queue[0])).(queue := a.queue[1..]);
  }

  lemma {:induction false} LookRefines(s: State, me: nat, c: Choice)
    requires Inv(s) && me < |s.pcs| && s.pcs[me].DeqNext?
    ensures Refines(Abs(s), me, Abs(Step(s, me, c)))
  {
    var s' := Step(s, me, c);
    StepKeeps(s, me, c);
    OthersStand(s, me, s');
    assert PcOk(s.q, s.pcs[me]);
    NoNextMeansEmpty(s, me);
    assert Abs(s') == Becomes(Abs(s), me, Dequeuing(s.q.nodes[s.pcs[me].h].next == NIL));
  }

  /** A dequeue that returns leaves the items and the head where they are, and says what it found. */
  lemma {:induction false} ReturnMoves(s: State, me: nat, c: Choice)
    requires Inv(s) && me < |s.pcs| && !s.pcs[me].Idle? && !InEnqueue(s.pcs[me])
    requires Step(s, me, c).pcs[me].Idle?
    ensures var s' := Step(s, me, c); var pc := s.pcs[me];
      && s'.q.linked == s.q.linked && s'.q.hi == s.q.hi && (pc.DeqCheck? || pc.DeqClear?)
      && s'.log == s.log + [ReturnDequeue(me, if pc.DeqCheck? then NULL else pc.item)]
  {
    assert PcOk(s.q, s.pcs[me]);
  }

  lemma {:induction false} ReturnRefines(s: State, me: nat, c: Choice)
    requires Inv(s) && me < |s.pcs| && !s.pcs[me].Idle? && !InEnqueue(s.pcs[me])
    requires Step(s, me, c).pcs[me].Idle?
    ensures Refines(Abs(s), me, Abs(Step(s, me, c)))
  {
    var pc, s' := s.pcs[me], Step(s, me, c);
    StepKeeps(s, me, c);
    OthersStand(s, me, s');
    assert PcOk(s.q, pc);
    ReturnMoves(s, me, c);
    var y := if pc.DeqCheck? then NULL else pc.item;
    assert Abs(s') == Says(Becomes(Abs(s), me, Ready), ReturnDequeue(me, y));
  }

  /** The item of a taken node is still there when its taker reads it: that dequeue never starts over. */
  lemma {:induction false} TakenItemIsThere(s: State, me: nat, c: Choice)
    requires Inv(s) && me < |s.pcs| && s.pcs[me].DeqItem?
    ensures Step(s, me, c).pcs[me].DeqClear? && Abs(Step(s, me, c)) == Abs(s)
  {
    var s' := Step(s, me, c);
    assert PcOk(s.q, s.pcs[me]);
    StepKeeps(s, me, c);
    OthersStand(s, me, s');
  }

  lemma {:induction false} RetryMoves(s: State, me: nat)
    requires me < |s.pcs| && !s.pcs[me].Idle? && !InEnqueue(s.pcs[me]) && Chained(s.q) && PcOk(s.q, s.pcs[me])
    requires !s.pcs[me].DeqNext? && !s.pcs[me].DeqItem? && !StepDequeue(s, me).pcs[me].Idle?
    requires !(s.pcs[me].DeqTake? && s.pcs[me].h == s.q.head)
    ensures var s' := StepDequeue(s, me);
      && CallOf(s'.q, s'.pcs[me]) == Dequeuing(false) && CallOf(s.q, s.pcs[me]).Dequeuing?
      && s'.q.linked == s.q.linked && s'.q.hi == s.q.hi && s'.log == s.log
  {
  }

  lemma {:induction false} RetryRefines(s: State, me: nat, c: Choice)
    requires Inv(s) && me < |s.pcs| && !s.pcs[me].Idle? && !InEnqueue(s.pcs[me])
    requires !s.pcs[me].DeqNext? && !s.pcs[me].DeqItem? && !Step(s, me, c).pcs[me].Idle?
    requires !(s.pcs[me].DeqTake? && s.pcs[me].h == s.q.head)
    ensures Refines(Abs(s), me, Abs(Step(s, me, c)))
  {
    StepKeeps(s, me, c);
    RetryMoves(s, me);
    OthersStand(s, me, Step(s, me, c));
    assert Abs(Step(s, me, c)) == Becomes(Abs(s), me, Dequeuing(false));
  }

  /** Every atomic access of the algorithm is nothing, or one step of the atomic queue. */
  lemma {:induction false} StepRefines(s: State, me: nat, c: Choice)
    requires Inv(s) && me < |s.pcs|
    ensures Refines(Abs(s), me, Abs(Step(s, me, c)))
  {
    var pc := s.pcs[me];
    if pc.Idle? { IdleRefines(s, me, c); }
    else if pc.EnqLink? && Step(s, me, c).pcs[me].EnqSwing? { LinkRefines(s, me, c); }
    else if pc.EnqSwing? { SwingRefines(s, me, c); }
    else if InEnqueue(pc) { EnqueueRefines(s, me, c); }
    else if pc.DeqTake? && pc.h == s.q.head { TakeRefines(s, me, c); }
    else if pc.DeqNext? { LookRefines(s, me, c); }
    else if pc.DeqItem? { TakenItemIsThere(s, me, c); }
    else if Step(s, me, c).pcs[me].Idle? { ReturnRefines(s, me, c); }
    else { RetryRefines(s, me, c); }
  }

  /** A run of the atomic queue from a to b in which each step is nothing or one transition. */
  ghost predicate SpecRun(trace: seq<Spec>, who: seq<nat>) {
    && |trace| == |who| + 1
    && forall i :: 0 <= i < |who| ==> Refines(trace[i], who[i], trace[i + 1])
  }

  lemma {:induction false} SpecRunCons(a: Spec, me: nat, trace: seq<Spec>, who: seq<nat>)
    requires SpecRun(trace, who) && Refines(a, me, trace[0])
    ensures SpecRun([a] + trace, [me] + who)
  {
    var trace', who' := [a] + trace, [me] + who;
    forall i | 0 <= i < |who'| ensures Refines(trace'[i], who'[i], trace'[i + 1]) {
      if i > 0 { assert Refines(trace[i - 1], who[i - 1], trace[i - 1 + 1]); }
    }
  }

  lemma {:induction false} RunRefines(s: State, sched: Schedule) returns (trace: seq<Spec>, who: seq<nat>)
    requires Inv(s)
    ensures SpecRun(trace, who) && trace[0] == Abs(s) && trace[|who|] == Abs(Run(s, sched))
    decreases |sched|
  {
    if sched == [] {
      trace, who := [Abs(s)], [];
    } else if sched[0].0 < |s.pcs| {
      var (me, c) := sched[0];
      StepKeeps(s, me, c);
      StepRefines(s, me, c);
      trace, who := RunRefines(Step(s, me, c), sched[1..]);
      SpecRunCons(Abs(s), me, trace, who);
      trace, who := [Abs(s)] + trace, [me] + who;
    } else {
      trace, who := RunRefines(s, sched[1..]);
    }
  }

  /**
   * In every interleaving the history of calls and returns is one of the atomic queue; head never
   * passes tail, tail lags the last node by at most one, and the items taken so far are a prefix of
   * the items linked so far.
   */
  lemma {:induction false} EveryHistoryIsAtomic(s0: State, sched: Schedule)
    requires Init(s0)
    ensures exists trace: seq<Spec>, who: seq<nat> ::
      && SpecRun(trace, who)
      && trace[0] == Spec([], seq(|s0.pcs|, t => Ready), [])
      && trace[|who|].log == Run(s0, sched).log
    ensures var q := Run(s0, sched).q;
      && q.hi <= q.ti < |q.chain| <= q.ti + 2
      && q.head == q.chain[q.hi] && q.tail == q.chain[q.ti]
      && q.linked == q.linked[..q.hi] + Abs(Run(s0, sched)).queue
  {
    var trace, who := RunRefines(s0, sched);
    assert trace[0].calls == seq(|s0.pcs|, t => Ready);
    assert trace[0].queue == [];
  }
}
