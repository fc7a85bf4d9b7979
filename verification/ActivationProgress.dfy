/** Every message sent arrives, and from every reached state all that arrived can still be handed out. */
module ActivationProgress {

  import opened Tally
  import opened Mailbox
  import opened Activation

  // ---- What is sent arrives ----

  /** The message a step hands to a producer. */
  function Sends(s: State, c: Choice): seq<Msg> {
    if c.Produce? && c.t < |s.producers| && s.producers[c.t].PIdle? && c.m.prio < s.np then [c.m] else []
  }

  function AllSent(s: State, sched: seq<Choice>): seq<Msg>
    requires Shape(s)
    decreases |sched|
  {
    if sched == [] then [] else Sends(s, sched[0]) + AllSent(Step(s, sched[0]), sched[1..])
  }

  /** A producer that is about to push a message of which q holds. */
  predicate Pushing(q: Msg -> bool, p: Producer) {
    (p.PLoad? || p.PCas?) && q(p.m)
  }

  function Pushes(q: Msg -> bool): Producer -> bool { p => Pushing(q, p) }

  /** Messages with property q that have been sent: arrived, or in the hands of a producer. */
  function Known(s: State, q: Msg -> bool): nat {
    Count(s.arrived, q) + Count(s.producers, Pushes(q))
  }

  lemma {:induction false} ProducerKnows(s: State, t: nat, m: Msg, q: Msg -> bool)
    requires Shape(s) && t < |s.producers|
    ensures Known(StepProducer(s, t, m), q) == Known(s, q) + Count(Sends(s, Produce(t, m)), q)
  {
    var s' := StepProducer(s, t, m);
    ProducerShape(s, t, m);
    CountUpdate(s.producers, Pushes(q), t, s'.producers[t]);
    if s.producers[t].PCas? { CountAppend(s.arrived, [s.producers[t].m], q); }
  }

  lemma {:induction false} WorkerKnows(s: State, w: nat, more: bool, q: Msg -> bool)
    requires Shape(s) && w < |s.workers|
    ensures Known(StepWorker(s, w, more), q) == Known(s, q)
  {
    WorkerFrame(s, w, more);
    WorkerArrived(s, w, more);
  }

  lemma {:induction false} WorkerArrived(s: State, w: nat, more: bool)
    requires Shape(s) && w < |s.workers|
    ensures StepWorker(s, w, more).arrived == s.arrived
  {
  }

  lemma {:induction false} SentRun(s: State, sched: seq<Choice>, q: Msg -> bool)
    requires Shape(s)
    ensures Known(Run(s, sched), q) == Known(s, q) + Count(AllSent(s, sched), q)
    decreases |sched|
  {
    if sched == [] {
    } else {
      var c := sched[0];
      if c.Produce? && c.t < |s.producers| {
        ProducerKnows(s, c.t, c.m, q);
      } else if c.Work? && c.w < |s.workers| {
        WorkerKnows(s, c.w, c.more, q);
      }
      SentRun(Step(s, c), sched[1..], q);
      CountAppend(Sends(s, c), AllSent(Step(s, c), sched[1..]), q);
    }
  }

  /**
   * In every interleaving a message was sent exactly as often as it has arrived or is in the hands of a
   * producer: none is lost, repeated or changed on the way to the mailbox.
   */
  lemma {:induction false} EverySendArrives(s0: State, sched: seq<Choice>, m: Msg)
    requires Start(s0) && Shape(s0)
    ensures var s := Run(s0, sched);
      multiset(AllSent(s0, sched))[m] == multiset(s.arrived)[m] + Count(s.producers, Pushes(Is(m)))
  {
    SentRun(s0, sched, Is(m));
    CountZero(s0.producers, Pushes(Is(m)));
    CountEqual(AllSent(s0, sched), m);
    CountEqual(Run(s0, sched).arrived, m);
  }

  // ---- What is handed out is executed ----

  /** The message that a step makes a worker execute. */
  function Executes(s: State, s': State, c: Choice): seq<Msg>
    requires |s'.workers| == |s.workers|
  {
    if c.Work? && c.w < |s.workers| && !s.workers[c.w].Invoke? && s'.workers[c.w].Invoke?
    then [s'.workers[c.w].m] else []
  }

  function AllExecuted(s: State, sched: seq<Choice>): seq<Msg>
    requires Shape(s)
    decreases |sched|
  {
    if sched == [] then []
    else Executes(s, Step(s, sched[0]), sched[0]) + AllExecuted(Step(s, sched[0]), sched[1..])
  }

  lemma {:induction false} WorkerExecutes(s: State, w: nat, more: bool)
    requires Shape(s) && w < |s.workers|
    ensures var s' := StepWorker(s, w, more);
      && |s'.workers| == |s.workers|
      && s'.out == s.out + if !s.workers[w].Invoke? && s'.workers[w].Invoke? then [s'.workers[w].m] else []
  {
  }

  lemma {:induction false} StepExecutes(s: State, c: Choice)
    requires Shape(s)
    ensures Step(s, c).out == s.out + Executes(s, Step(s, c), c)
  {
    if c.Work? && c.w < |s.workers| {
      WorkerExecutes(s, c.w, c.more);
    } else {
      assert Step(s, c).out == s.out;
    }
  }

  lemma {:induction false} Regroup(a: seq<Msg>, b: seq<Msg>, c: seq<Msg>)
    ensures (a + b) + c == a + (b + c)
  {
  }

  lemma {:induction false} RunExecutes(s: State, sched: seq<Choice>)
    requires Shape(s)
    ensures Run(s, sched).out == s.out + AllExecuted(s, sched)
    decreases |sched|
  {
    if sched == [] {
    } else {
      var s' := Step(s, sched[0]);
      StepExecutes(s, sched[0]);
      RunExecutes(s', sched[1..]);
      Regroup(s.out, Executes(s, s', sched[0]), AllExecuted(s', sched[1..]));
    }
  }

  /** In every run the messages the actor executes are those handed out, each once and in that order. */
  lemma {:induction false} HandedOutIsExecuted(s0: State, sched: seq<Choice>)
    requires Start(s0) && Shape(s0)
    ensures AllExecuted(s0, sched) == Run(s0, sched).out
  {
    RunExecutes(s0, sched);
    assert [] + AllExecuted(s0, sched) == AllExecuted(s0, sched);
  }

  // ---- All that arrived can be handed out ----

  /** A worker that is about to drain the stack has seen a message on it. */
  predicate SawMessages(s: State) {
    forall w :: 0 <= w < |s.workers| && s.workers[w].Cas? ==> s.workers[w].e.TNode?
  }

  lemma {:induction false} StepSaw(s: State, c: Choice)
    requires Shape(s) && SawMessages(s)
    ensures SawMessages(Step(s, c))
  {
    if c.Work? && c.w < |s.workers| { WorkerFrame(s, c.w, c.more); }
    if c.Produce? && c.t < |s.producers| { ProducerShape(s, c.t, c.m); }
  }

  lemma {:induction false} RunSaw(s: State, sched: seq<Choice>)
    requires Shape(s) && SawMessages(s)
    ensures SawMessages(Run(s, sched))
    decreases |sched|
  {
    if sched == [] {
    } else {
      StepSaw(s, sched[0]);
      RunSaw(Step(s, sched[0]), sched[1..]);
    }
  }

  /** Nothing is left to hand out. */
  predicate Empty(s: State) {
    s.priv.num == 0 && TopOf(s) == TEmpty
  }

  /** How far worker w is from blocking the mailbox, if nobody else moves. */
  function Rank(s: State, w: nat): nat
    requires w < |s.workers|
  {
    match s.workers[w]
    case WIdle => 8
    case Fetch => 7
    case Load => 6
    case Cas(e) => if TopOf(s) == e then 5 else 7
    case Invoke(_) => 8
    case Finish => if Empty(s) then 4 else 11
    case Block => if Empty(s) then 3 else 10
    case BlockCas => if Empty(s) then 2 else 11
    case Requeue => 9
  }

  function Distance(s: State, w: nat): nat
    requires w < |s.workers|
  {
    20 * |s.pending| + 10 * s.priv.num + Rank(s, w)
  }

  /** Worker w has the activation, or may take it from a run queue. */
  predicate Runs(s: State, w: nat) {
    && Ordered(s) && SawMessages(s) && Potential(s) == 1 && !s.blocked
    && w < |s.workers| && (Executing(s.workers[w]) || s.runq > 0)
  }

  /** Step s' of worker w brings it closer, or blocks the mailbox. */
  predicate Closer(s: State, s': State, w: nat)
    requires w < |s.workers| == |s'.workers|
  {
    s'.blocked || (Distance(s', w) < Distance(s, w) && (Executing(s'.workers[w]) || s'.runq > 0))
  }

  lemma {:induction false} DrainCloser(s: State, w: nat)
    requires Runs(s, w) && s.workers[w].Cas? && TopOf(s) == s.workers[w].e
    ensures Closer(s, StepWorker(s, w, true), w)
  {
    FillIsSorted(s.np, s.pending);
    DrainStep(s, w, true);
    assert s.workers[w].e.TNode? && s.pending != [];
  }

  lemma {:induction false} FetchCloser(s: State, w: nat)
    requires Runs(s, w) && s.workers[w].Fetch? && s.priv.num > 0
    ensures Closer(s, StepWorker(s, w, true), w)
  {
    var s' := StepWorker(s, w, true);
    TakeIsFirst(s.np, s.priv);
    assert s'.priv.num < s.priv.num && s'.pending == s.pending && s'.workers[w].Invoke?;
  }

  /** The other steps only move the worker on. */
  lemma {:induction false} MoveCloser(s: State, w: nat)
    requires Runs(s, w) && !(s.workers[w].Cas? && TopOf(s) == s.workers[w].e)
    requires !(s.workers[w].Fetch? && s.priv.num > 0)
    ensures Closer(s, StepWorker(s, w, true), w)
  {
    var s', pc := StepWorker(s, w, true), s.workers[w];
    WorkerLocal(s, w, true);
    if pc.Finish? || pc.Block? || pc.BlockCas? || pc.Requeue? {
    } else {
      assert s'.blocked == s.blocked && TopOf(s') == TopOf(s);
    }
  }

  lemma {:induction false} WorkerCloser(s: State, w: nat)
    requires Runs(s, w)
    ensures Closer(s, StepWorker(s, w, true), w)
  {
    if s.workers[w].Cas? && TopOf(s) == s.workers[w].e { DrainCloser(s, w); }
    else if s.workers[w].Fetch? && s.priv.num > 0 { FetchCloser(s, w); }
    else { MoveCloser(s, w); }
  }

  lemma {:induction false} WorkerBlocks(s: State, w: nat) returns (sched: seq<Choice>)
    requires Runs(s, w)
    ensures Run(s, sched).blocked && Run(s, sched).arrived == s.arrived && Ordered(Run(s, sched))
    decreases Distance(s, w)
  {
    var c := Work(w, true);
    var s' := Step(s, c);
    WorkerCloser(s, w);
    WorkerArrived(s, w, true);
    PotentialStep(s, c);
    WorkerOrdered(s, w, true);
    StepSaw(s, c);
    if s'.blocked {
      sched := [c] + [];
      RunCons(s, c, []);
    } else {
      var rest := WorkerBlocks(s', w);
      sched := [c] + rest;
      RunCons(s, c, rest);
    }
  }

  /** The one activation is in a run queue, executing, or owed by a producer. */
  lemma {:induction false} SomeoneHasIt(s: State) returns (w: nat, t: nat)
    requires Potential(s) == 1 && !s.blocked && s.workers != []
    ensures w < |s.workers|
    ensures s.runq > 0 || Executing(s.workers[w]) || (t < |s.producers| && s.producers[t].PWake?)
  {
    w, t := 0, 0;
    if v :| 0 <= v < |s.workers| && Executing(s.workers[v]) {
      w := v;
    } else if u :| 0 <= u < |s.producers| && Waking(s.producers[u]) {
      t := u;
      CountZero(s.workers, Executing);
    } else {
      CountZero(s.workers, Executing);
      CountZero(s.producers, Waking);
    }
  }

  lemma {:induction false} CanBlock(s: State) returns (sched: seq<Choice>)
    requires Ordered(s) && SawMessages(s) && Potential(s) == 1 && s.workers != []
    ensures Run(s, sched).blocked && Run(s, sched).arrived == s.arrived && Ordered(Run(s, sched))
  {
    if s.blocked {
      sched := [];
    } else {
      var w, t := SomeoneHasIt(s);
      if s.runq > 0 || Executing(s.workers[w]) {
        sched := WorkerBlocks(s, w);
      } else {
        var c := Produce(t, Msg(0, 0));
        ProducerOrdered(s, t, Msg(0, 0));
        PotentialStep(s, c);
        StepSaw(s, c);
        var rest := WorkerBlocks(Step(s, c), w);
        sched := [c] + rest;
        RunCons(s, c, rest);
      }
    }
  }

  /** Everything that had arrived in s has been handed out, and the mailbox is blocked. */
  predicate Served(s: State, s': State) {
    && s'.blocked && s'.arrived == s.arrived && s'.np == s.np && s'.out == Emit(s'.np, s'.batches)
    && forall p :: 0 <= p < s.np ==> OfPrio(s'.out, p) == OfPrio(s.arrived, p)
  }

  /**
   * From every reached state of a dispatch-created actor with a worker, whatever the threads are in the
   * middle of, some continuation hands out all that has arrived and blocks the mailbox.
   */
  lemma {:induction false} AllCanBeHandedOut(s0: State, sched: seq<Choice>)
    requires DispatchCreated(s0) && Shape(s0) && s0.workers != []
    ensures exists more :: Served(Run(s0, sched), Run(Run(s0, sched), more))
  {
    var s := Run(s0, sched);
    StartShape(s0);
    FlattenEmpty(s0.priv.headers);
    PotentialRun(s0, sched);
    RunOrdered(s0, sched);
    RunSaw(s0, sched);
    var more := CanBlock(s);
    var s' := Run(s, more);
    forall p | 0 <= p < s.np ensures OfPrio(s'.out, p) == OfPrio(s.arrived, p) && s'.out == Emit(s'.np, s'.batches) {
      OrderedMeans(s', p);
    }
    assert s.np > 0;
    assert Served(s, s');
  }

  // ---- A worker lets go ----

  function Unbudgeted(w: nat, n: nat): seq<Choice> {
    if n == 0 then [] else [Work(w, false)] + Unbudgeted(w, n - 1)
  }

  lemma {:induction false} UnbudgetedStep(s: State, w: nat, n: nat)
    requires Shape(s)
    ensures Run(s, Unbudgeted(w, n + 1)) == Run(Step(s, Work(w, false)), Unbudgeted(w, n))
  {
    assert Unbudgeted(w, n + 1)[1..] == Unbudgeted(w, n);
  }

  lemma {:induction false} FinishLetsGo(s: State, w: nat) returns (n: nat)
    requires Shape(s) && w < |s.workers| && !s.blocked && s.workers[w].Block?
    ensures n <= 2 && var s' := Run(s, Unbudgeted(w, n));
      s'.workers[w].WIdle? && (if s.priv.num == 0 && s.pending == [] then s'.blocked else s'.runq == s.runq + 1)
  {
    n := 2;
    UnbudgetedStep(s, w, 1);
    UnbudgetedStep(Step(s, Work(w, false)), w, 0);
  }

  /**
   * From every state a worker whose message budget is used up lets go of the actor after the message it
   * is executing, within four steps of its own: it blocks the mailbox if nothing is left, and otherwise
   * puts the actor back on a run queue.
   */
  lemma {:induction false} BudgetEndsTheTurn(s: State, w: nat)
    requires Shape(s) && w < |s.workers| && !s.blocked && s.workers[w].Invoke?
    ensures exists n: nat :: n <= 4 && var s' := Run(s, Unbudgeted(w, n));
      && s'.workers[w].WIdle? && s'.out == s.out
      && (if s.priv.num == 0 && s.pending == [] then s'.blocked else s'.runq == s.runq + 1)
  {
    var s1 := Step(s, Work(w, false));
    var s2 := Step(s1, Work(w, false));
    assert s2.workers[w].Block?;
    var n := FinishLetsGo(s2, w);
    UnbudgetedStep(s1, w, n);
    UnbudgetedStep(s, w, n + 1);
    UnbudgetedOut(s2, w, n);
    assert Run(s, Unbudgeted(w, n + 2)) == Run(s2, Unbudgeted(w, n));
  }

  /** Whoever has stopped taking messages takes none until it is done. */
  lemma {:induction false} UnbudgetedOut(s: State, w: nat, n: nat)
    requires Shape(s) && w < |s.workers| && n <= 2 && s.workers[w].Block?
    ensures Run(s, Unbudgeted(w, n)).out == s.out
  {
    if n > 0 { UnbudgetedStep(s, w, n - 1); }
    if n > 1 { UnbudgetedStep(Step(s, Work(w, false)), w, n - 2); }
  }
}
