/** No call is stuck: a thread that runs alone from any reached state returns. */
module LinkedQueueProgress {

  import opened LinkedQueue
  import opened LinkedQueueSpec

  /** How many nodes the tail is behind, none or one. */
  function Lag(q: Heap): nat
    requires Chained(q)
  {
    |q.chain| - 1 - q.ti
  }

  function Next(q: Heap, t: int): int {
    if 0 <= t < |q.nodes| then q.nodes[t].next else NIL
  }

  /** The steps left of an enqueue that runs alone, apart from helping a lagging tail. */
  function EnqueueRank(q: Heap, pc: Pc): nat {
    match pc
    case EnqTail(_) => 6
    case EnqNext(_, t, _) => if t == q.tail then 5 else 9
    case EnqCheck(_, t, _, x) => if t == q.tail && x == Next(q, t) then 4 else 8
    case EnqLink(_, t, _) => if Next(q, t) == NIL then 3 else 7
    case EnqHelp(_, t, _, _) => if t == q.tail then 3 else 7
    case _ => 1
  }

  function DequeueRank(q: Heap, pc: Pc): nat {
    match pc
    case DeqHead => 7
    case DeqTail(h, _) => if h == q.head then 6 else 11
    case DeqNext(h, _, t, _) => if h == q.head && (h != t || t == q.tail) then 5 else 10
    case DeqCheck(h, _, t, _, f) => if h == q.head && (h != t || t == q.tail || f == NIL) then 4 else 9
    case DeqHelp(t, _, _) => if t == q.tail then 3 else 8
    case DeqTake(h, _, _) => if h == q.head then 3 else 8
    case DeqItem(_, _) => 2
    case _ => 1
  }

  function Distance(q: Heap, pc: Pc): nat
    requires Chained(q)
  {
    if pc.Idle? then 0
    else if pc.EnqSwing? then 1
    else if InEnqueue(pc) then 10 * Lag(q) + EnqueueRank(q, pc)
    else 10 * Lag(q) + DequeueRank(q, pc)
  }

  lemma {:induction false} LinkCloser(s: State, me: nat)
    requires Inv(s) && me < |s.pcs| && (s.pcs[me].EnqLink? || s.pcs[me].EnqSwing?)
    ensures var s' := Step(s, me, Go); Chained(s'.q) && Distance(s'.q, s'.pcs[me]) < Distance(s.q, s.pcs[me])
  {
    StepKeeps(s, me, Go);
    assert PcOk(s.q, s.pcs[me]);
  }

  lemma {:induction false} EnqueueCloser(s: State, me: nat)
    requires Inv(s) && me < |s.pcs| && InEnqueue(s.pcs[me]) && !s.pcs[me].EnqLink? && !s.pcs[me].EnqSwing?
    ensures var s' := Step(s, me, Go); Chained(s'.q) && Distance(s'.q, s'.pcs[me]) < Distance(s.q, s.pcs[me])
  {
    var pc, q := s.pcs[me], s.q;
    StepKeeps(s, me, Go);
    assert PcOk(q, pc);
    if pc.EnqHelp? && pc.t == q.tail { assert Lag(Step(s, me, Go).q) + 1 == Lag(q); }
  }

  /** Same place in the chain, same node. */
  lemma {:induction false} OnePlace(q: Heap, n: int, i: nat, j: nat)
    requires Chained(q) && At(q, n, i) && At(q, n, j)
    ensures i == j
  {
  }

  lemma {:induction false} LookCloser(s: State, me: nat)
    requires Inv(s) && me < |s.pcs| && (s.pcs[me].DeqHead? || s.pcs[me].DeqTail? || s.pcs[me].DeqNext?)
    ensures var s' := StepDequeue(s, me); s'.q == s.q && Distance(s.q, s'.pcs[me]) < Distance(s.q, s.pcs[me])
  {
    var pc, q := s.pcs[me], s.q;
    assert PcOk(q, pc);
    if pc.DeqNext? && pc.h == q.head && pc.h == pc.t && pc.t != q.tail {
      OnePlace(q, pc.h, pc.i, q.hi);
      OnePlace(q, pc.h, pc.i, pc.j);
      assert q.nodes[q.chain[pc.i]].next == q.chain[pc.i + 1];
    }
  }

  lemma {:induction false} CheckCloser(s: State, me: nat)
    requires Inv(s) && me < |s.pcs| && s.pcs[me].DeqCheck?
    ensures var s' := StepDequeue(s, me); s'.q == s.q && Distance(s.q, s'.pcs[me]) < Distance(s.q, s.pcs[me])
  {
    assert PcOk(s.q, s.pcs[me]);
  }

  lemma {:induction false} HelpCloser(s: State, me: nat)
    requires Inv(s) && me < |s.pcs| && s.pcs[me].DeqHelp?
    ensures var s' := StepDequeue(s, me); Chained(s'.q) && Distance(s'.q, s'.pcs[me]) < Distance(s.q, s.pcs[me])
  {
    var pc, q := s.pcs[me], s.q;
    StepKeeps(s, me, Go);
    assert PcOk(q, pc);
    if pc.t == q.tail {
      OnePlace(q, pc.t, pc.j, q.ti);
      assert Lag(StepDequeue(s, me).q) + 1 == Lag(q);
    }
  }

  lemma {:induction false} TakeCloser(s: State, me: nat)
    requires Inv(s) && me < |s.pcs| && s.pcs[me].DeqTake?
    ensures var s' := StepDequeue(s, me); Chained(s'.q) && Distance(s'.q, s'.pcs[me]) < Distance(s.q, s.pcs[me])
  {
    StepKeeps(s, me, Go);
    assert PcOk(s.q, s.pcs[me]);
    assert Lag(StepDequeue(s, me).q) == Lag(s.q);
  }

  lemma {:induction false} ItemCloser(s: State, me: nat)
    requires Inv(s) && me < |s.pcs| && s.pcs[me].DeqItem?
    ensures var s' := StepDequeue(s, me); s'.q == s.q && Distance(s.q, s'.pcs[me]) < Distance(s.q, s.pcs[me])
  {
    var pc := s.pcs[me];
    assert PcOk(s.q, pc);
    assert s.q.nodes[pc.first].item != NULL;
  }

  lemma {:induction false} ClearCloser(s: State, me: nat)
    requires Inv(s) && me < |s.pcs| && s.pcs[me].DeqClear?
    ensures StepDequeue(s, me).pcs[me].Idle? && Distance(s.q, s.pcs[me]) > 0
  {
    assert PcOk(s.q, s.pcs[me]);
  }

  lemma {:induction false} StepCloser(s: State, me: nat)
    requires Inv(s) && me < |s.pcs| && !s.pcs[me].Idle?
    ensures var s' := Step(s, me, Go);
      Inv(s') && Distance(s'.q, s'.pcs[me]) < Distance(s.q, s.pcs[me])
  {
    StepKeeps(s, me, Go);
    var pc := s.pcs[me];
    if pc.EnqLink? || pc.EnqSwing? { LinkCloser(s, me); }
    else if InEnqueue(pc) { EnqueueCloser(s, me); }
    else if pc.DeqCheck? { CheckCloser(s, me); }
    else if pc.DeqHelp? { HelpCloser(s, me); }
    else if pc.DeqHead? || pc.DeqTail? || pc.DeqNext? { LookCloser(s, me); }
    else if pc.DeqTake? { TakeCloser(s, me); }
    else if pc.DeqItem? { ItemCloser(s, me); }
    else { ClearCloser(s, me); }
  }

  /** n steps of thread `me` and of nobody else. */
  function Alone(me: nat, n: nat): Schedule {
    if n == 0 then [] else [(me, Go)] + Alone(me, n - 1)
  }

  lemma {:induction false} AloneStep(s: State, me: nat, n: nat)
    requires Inv(s) && me < |s.pcs| && Inv(Step(s, me, Go))
    ensures Run(s, Alone(me, n + 1)) == Run(Step(s, me, Go), Alone(me, n))
  {
    assert Alone(me, n + 1)[1..] == Alone(me, n);
  }

  lemma {:induction false} AloneReturns(s: State, me: nat, d: nat) returns (n: nat)
    requires Inv(s) && me < |s.pcs| && Distance(s.q, s.pcs[me]) <= d
    ensures n <= d && Run(s, Alone(me, n)).pcs[me].Idle?
    decreases d
  {
    if s.pcs[me].Idle? {
      n := 0;
    } else {
      StepCloser(s, me);
      var rest := AloneReturns(Step(s, me, Go), me, d - 1);
      AloneStep(s, me, rest);
      n := rest + 1;
    }
  }

  lemma {:induction false} DistanceBound(q: Heap, pc: Pc)
    requires Chained(q)
    ensures Distance(q, pc) <= 21
  {
  }

  /**
   * Whatever the other threads are in the middle of, a call returns within 21 steps of its own if they
   * pause: nobody can be locked out by a thread that stops.
   */
  lemma {:induction false} EveryCallCanReturn(s0: State, sched: Schedule, me: nat)
    requires Init(s0) && me < |s0.pcs|
    ensures exists n: nat :: n <= 21 && Run(Run(s0, sched), Alone(me, n)).pcs[me].Idle?
  {
    var s := Run(s0, sched);
    DistanceBound(s.q, s.pcs[me]);
    var n := AloneReturns(s, me, 21);
  }

  // ---- The history starts from what callers ask ----

  /** The call that a choice begins, as its caller knows it. */
  function Asks(s: State, me: nat, c: Choice): seq<Event>
    requires me < |s.pcs|
  {
    if !s.pcs[me].Idle? then []
    else
      match c
      case Enqueue(x) => if x == NULL then [] else [CallEnqueue(me, x)]
      case Dequeue => [CallDequeue(me)]
      case Go => []
  }

  function AllAsked(s: State, sched: Schedule): seq<Event>
    requires Inv(s)
    decreases |sched|
  {
    if sched == [] then []
    else if sched[0].0 < |s.pcs| then
      StepKeeps(s, sched[0].0, sched[0].1);
      Asks(s, sched[0].0, sched[0].1) + AllAsked(Step(s, sched[0].0, sched[0].1), sched[1..])
    else AllAsked(s, sched[1..])
  }

  /** The calls in a history. */
  function Calls(log: seq<Event>): seq<Event> {
    if log == [] then []
    else
      var n := |log| - 1;
      Calls(log[..n]) + if log[n].CallEnqueue? || log[n].CallDequeue? then [log[n]] else []
  }

  lemma {:induction false} CallsMore(log: seq<Event>, e: Event)
    ensures Calls(log + [e]) == Calls(log) + if e.CallEnqueue? || e.CallDequeue? then [e] else []
  {
    assert (log + [e])[..|log|] == log;
  }

  /** Past its call a thread only says what it returns. */
  lemma {:induction false} OnlyReturns(s: State, me: nat, c: Choice)
    requires Inv(s) && me < |s.pcs| && !s.pcs[me].Idle?
    ensures var log' := Step(s, me, c).log;
      log' == s.log || exists e: Event :: (e.ReturnEnqueue? || e.ReturnDequeue?) && log' == s.log + [e]
  {
    assert PcOk(s.q, s.pcs[me]);
    if InEnqueue(s.pcs[me]) {
      assert Step(s, me, c) == StepEnqueue(s, me);
    } else {
      assert Step(s, me, c) == StepDequeue(s, me);
    }
  }

  lemma {:induction false} AskStep(s: State, me: nat, c: Choice)
    requires Inv(s) && me < |s.pcs|
    ensures Calls(Step(s, me, c).log) == Calls(s.log) + Asks(s, me, c)
  {
    var log' := Step(s, me, c).log;
    if s.pcs[me].Idle? {
      if log' != s.log { CallsMore(s.log, log'[|s.log|]); }
    } else {
      OnlyReturns(s, me, c);
      if log' != s.log {
        var e: Event :| (e.ReturnEnqueue? || e.ReturnDequeue?) && log' == s.log + [e];
        CallsMore(s.log, e);
      }
    }
  }

  lemma {:induction false} Regroup(a: seq<Event>, b: seq<Event>, c: seq<Event>)
    ensures (a + b) + c == a + (b + c)
  {
  }

  lemma {:induction false} AskRun(s: State, sched: Schedule)
    requires Inv(s)
    ensures Calls(Run(s, sched).log) == Calls(s.log) + AllAsked(s, sched)
    decreases |sched|
  {
    if sched == [] {
    } else if sched[0].0 < |s.pcs| {
      var (me, c) := sched[0];
      StepKeeps(s, me, c);
      AskStep(s, me, c);
      AskRun(Step(s, me, c), sched[1..]);
      Regroup(Calls(s.log), Asks(s, me, c), AllAsked(Step(s, me, c), sched[1..]));
    } else {
      AskRun(s, sched[1..]);
    }
  }

  /** In every run the calls in the history are those the callers made, with their items and in order. */
  lemma {:induction false} HistoryHoldsTheCalls(s0: State, sched: Schedule)
    requires Init(s0)
    ensures Calls(Run(s0, sched).log) == AllAsked(s0, sched)
  {
    AskRun(s0, sched);
    Regroup([], [], AllAsked(s0, sched));
  }
}
