/**
 * One actor under any number of producers and workers: the mailbox protocol decides who puts the
 * actor on a run queue. One step per atomic access of the shared stack or of a run queue.
 */
module Activation {

  import opened Mailbox
  import opened Tally

  /** What a load of the shared stack pointer shows. */
  datatype Top = TEmpty | TBlocked | TNode(id: int)

  datatype Producer =
    | PIdle
    | PLoad(m: Msg)
    | PCas(m: Msg, e: Top)
    | PWake                    // its push unblocked the mailbox: it must enqueue the actor

  datatype Worker =
    | WIdle
    | Fetch                    // `Mailbox::dequeue`, private lists first
    | Load
    | Cas(e: Top)
    | Invoke(m: Msg)
    | Finish                   // `is_blocked`
    | Block                    // `try_block`
    | BlockCas
    | Requeue

  /**
   * `pending` is the shared stack in arrival order and `runq` how often the actor sits in run queues;
   * `arrived`, `batches` and `out` record the pushes, the drained batches and the messages handed out.
   */
  datatype State = State(
    np: nat, blocked: bool, pending: seq<Msg>, priv: Priv, runq: nat,
    producers: seq<Producer>, workers: seq<Worker>,
    arrived: seq<Msg>, batches: seq<seq<Msg>>, out: seq<Msg>)

  datatype Choice = Produce(t: nat, m: Msg) | Work(w: nat, more: bool)

  function TopOf(s: State): Top {
    if s.pending != [] then TNode(s.pending[|s.pending| - 1].id)
    else if s.blocked then TBlocked else TEmpty
  }

  predicate Fits(np: nat, ms: seq<Msg>) {
    forall m :: m in ms ==> m.prio < np
  }

  predicate Shape(s: State) {
    && PrivOk(s.np, s.priv) && Fits(s.np, s.pending) && (s.blocked ==> s.pending == [])
    && forall t :: 0 <= t < |s.producers| ==>
         (s.producers[t].PLoad? || s.producers[t].PCas? ==> s.producers[t].m.prio < s.np)
  }

  function SetP(s: State, t: nat, pc: Producer): State
    requires t < |s.producers|
  {
    s.(producers := s.producers[t := pc])
  }

  function SetW(s: State, w: nat, pc: Worker): State
    requires w < |s.workers|
  {
    s.(workers := s.workers[w := pc])
  }

  /** `Actor::deliver_message`: push, and enqueue the actor if the push unblocked it. */
  function StepProducer(s: State, t: nat, m: Msg): State
    requires t < |s.producers|
  {
    match s.producers[t]
    case PIdle => if m.prio < s.np then SetP(s, t, PLoad(m)) else s
    case PLoad(x) => SetP(s, t, PCas(x, TopOf(s)))
    case PCas(x, e) =>
      if TopOf(s) != e then SetP(s, t, PLoad(x))
      else SetP(s, t, if e == TBlocked then PWake else PIdle).(
             pending := s.pending + [x], blocked := false, arrived := s.arrived + [x])
    case PWake => SetP(s, t, PIdle).(runq := s.runq + 1)
  }

  /** `Worker::run` and `Actor::execute`; `more` tells whether the message budget is left. */
  function StepWorker(s: State, w: nat, more: bool): State
    requires w < |s.workers| && PrivOk(s.np, s.priv)
  {
    match s.workers[w]
    case WIdle => if s.runq > 0 then SetW(s, w, Fetch).(runq := s.runq - 1) else s
    case Fetch =>
      if s.priv.num == 0 then SetW(s, w, Load)
      else
        var (priv, m) := Take(s.np, s.priv);
        SetW(s, w, Invoke(m)).(priv := priv, out := s.out + [m])
    case Load => SetW(s, w, if TopOf(s).TNode? then Cas(TopOf(s)) else Finish)
    case Cas(e) =>
      if TopOf(s) != e then SetW(s, w, Load)
      else SetW(s, w, Fetch).(
             pending := [], priv := Fill(s.np, s.pending), batches := s.batches + [s.pending])
    case Invoke(_) => SetW(s, w, if more then Fetch else Finish)
    case Finish => SetW(s, w, if TopOf(s) == TBlocked then WIdle else Block)
    case Block => SetW(s, w, if s.priv.num == 0 && TopOf(s) == TEmpty then BlockCas else Requeue)
    case BlockCas =>
      if TopOf(s) != TEmpty then SetW(s, w, Block)
      else SetW(s, w, WIdle).(blocked := true)
    case Requeue => SetW(s, w, WIdle).(runq := s.runq + 1)
  }

  /** The private lists change only when a message is taken from them or a batch is moved in. */
  lemma {:induction false} WorkerPriv(s: State, w: nat, more: bool)
    requires Shape(s) && w < |s.workers|
    ensures var s' := StepWorker(s, w, more);
      || (s'.priv == s.priv && s'.pending == s.pending)
      || (s.priv.num > 0 && s'.priv == Take(s.np, s.priv).0 && s'.pending == s.pending)
      || (s'.priv == Fill(s.np, s.pending) && s'.pending == [])
  {
  }

  lemma {:induction false} WorkerFrame(s: State, w: nat, more: bool)
    requires Shape(s) && w < |s.workers|
    ensures var s' := StepWorker(s, w, more);
      && s'.producers == s.producers && s'.np == s.np
      && |s'.workers| == |s.workers| && s'.workers == s.workers[w := s'.workers[w]]
      && (s'.blocked ==> s.blocked || s.pending == [])
  {
  }

  lemma {:induction false} WorkerShape(s: State, w: nat, more: bool)
    requires Shape(s) && w < |s.workers|
    ensures Shape(StepWorker(s, w, more))
  {
    WorkerFrame(s, w, more);
    WorkerPriv(s, w, more);
    if s.priv.num > 0 { TakeIsFirst(s.np, s.priv); }
    FillIsSorted(s.np, s.pending);
  }

  lemma {:induction false} ProducerShape(s: State, t: nat, m: Msg)
    requires Shape(s) && t < |s.producers|
    ensures var s' := StepProducer(s, t, m);
      && Shape(s') && s'.workers == s.workers && s'.np == s.np && s'.priv == s.priv
      && |s'.producers| == |s.producers| && s'.producers == s.producers[t := s'.producers[t]]
  {
  }

  function Step(s: State, c: Choice): (s': State)
    requires Shape(s)
    ensures Shape(s') && |s'.workers| == |s.workers| && |s'.producers| == |s.producers| && s'.np == s.np
  {
    match c
    case Produce(t, m) =>
      if t < |s.producers| then ProducerShape(s, t, m); StepProducer(s, t, m) else s
    case Work(w, more) =>
      if w < |s.workers| then WorkerFrame(s, w, more); WorkerShape(s, w, more); StepWorker(s, w, more) else s
  }

  function Run(s: State, sched: seq<Choice>): (s': State)
    requires Shape(s)
    ensures Shape(s') && |s'.workers| == |s.workers| && s'.np == s.np
    decreases |sched|
  {
    if sched == [] then s else Run(Step(s, sched[0]), sched[1..])
  }

  // ---- Who may activate the actor ----

  predicate Waking(p: Producer) { p.PWake? }

  predicate Executing(w: Worker) { !w.WIdle? }

  /** The activations in being: in a run queue, owed by a producer, or executing. */
  function Tokens(s: State): nat {
    s.runq + Count(s.producers, Waking) + Count(s.workers, Executing)
  }

  /** A blocked mailbox is worth one activation: the next push will turn it into one. */
  function Potential(s: State): nat {
    Tokens(s) + (if s.blocked then 1 else 0)
  }

  lemma {:induction false} ProducerPotential(s: State, t: nat, m: Msg)
    requires Shape(s) && t < |s.producers|
    ensures Potential(StepProducer(s, t, m)) == Potential(s)
  {
    var s' := StepProducer(s, t, m);
    ProducerShape(s, t, m);
    CountUpdate(s.producers, Waking, t, s'.producers[t]);
  }

  function One(b: bool): nat { if b then 1 else 0 }

  /** What a step of a worker does to its own activation, the run queues and the blocked mark. */
  lemma {:induction false} WorkerTrade(s: State, w: nat, more: bool)
    requires Shape(s) && w < |s.workers|
    ensures var s' := StepWorker(s, w, more);
      s'.runq + One(Executing(s'.workers[w])) + One(s'.blocked)
        == s.runq + One(Executing(s.workers[w])) + One(s.blocked)
           - One(s.workers[w].Finish? && TopOf(s) == TBlocked)
  {
    match s.workers[w] {
      case WIdle => {}
      case Finish => {}
      case BlockCas => {}
      case Requeue => {}
      case _ => {
        WorkerStays(s, w, more);
      }
    }
  }

  /** In the middle of its work a worker keeps its activation. */
  lemma {:induction false} WorkerStays(s: State, w: nat, more: bool)
    requires Shape(s) && w < |s.workers|
    requires var pc := s.workers[w]; !pc.WIdle? && !pc.Finish? && !pc.BlockCas? && !pc.Requeue?
    ensures var s' := StepWorker(s, w, more);
      s'.runq == s.runq && s'.blocked == s.blocked && Executing(s'.workers[w])
  {
  }

  lemma {:induction false} WorkerPotential(s: State, w: nat, more: bool)
    requires Shape(s) && w < |s.workers|
    ensures var s' := StepWorker(s, w, more);
      Potential(s') == Potential(s) - One(s.workers[w].Finish? && TopOf(s) == TBlocked)
  {
    var s' := StepWorker(s, w, more);
    WorkerFrame(s, w, more);
    WorkerTrade(s, w, more);
    Traded(s, s', w);
  }

  lemma {:induction false} Traded(s: State, s': State, w: nat)
    requires w < |s.workers| == |s'.workers| && s'.workers == s.workers[w := s'.workers[w]]
    requires s'.producers == s.producers
    ensures Potential(s') - s'.runq - One(Executing(s'.workers[w])) - One(s'.blocked)
         == Potential(s) - s.runq - One(Executing(s.workers[w])) - One(s.blocked)
  {
    CountUpdate(s.workers, Executing, w, s'.workers[w]);
  }

  /**
   * No step creates an activation: a push trades the blocked mark for one, `try_block` trades it back.
   * Only `is_blocked`, found true by an executing worker, drops one.
   */
  lemma {:induction false} PotentialStep(s: State, c: Choice)
    requires Shape(s)
    ensures Potential(Step(s, c)) <= Potential(s)
    ensures Potential(s) <= 1 ==> Potential(Step(s, c)) == Potential(s)
  {
    match c {
      case Produce(t, m) =>
        if t < |s.producers| { ProducerPotential(s, t, m); }
      case Work(w, more) =>
        if w < |s.workers| {
          WorkerPotential(s, w, more);
          if Executing(s.workers[w]) { CountOne(s.workers, Executing, w); }
        }
    }
  }

  lemma {:induction false} PotentialRun(s: State, sched: seq<Choice>)
    requires Shape(s)
    ensures Potential(Run(s, sched)) <= Potential(s)
    ensures Potential(s) <= 1 ==> Potential(Run(s, sched)) == Potential(s)
    decreases |sched|
  {
    if sched == [] {
    } else {
      PotentialStep(s, sched[0]);
      PotentialRun(Step(s, sched[0]), sched[1..]);
    }
  }

  predicate TwoExecute(s: State) {
    exists v, w :: 0 <= v < w < |s.workers| && Executing(s.workers[v]) && Executing(s.workers[w])
  }

  lemma {:induction false} NotTwo(s: State)
    requires Potential(s) <= 1
    ensures !TwoExecute(s)
  {
    if TwoExecute(s) {
      var v, w :| 0 <= v < w < |s.workers| && Executing(s.workers[v]) && Executing(s.workers[w]);
      CountTwo(s.workers, Executing, v, w);
    }
  }

  // ---- Which start states are safe ----

  /** All threads idle, nothing sent yet. */
  predicate Start(s: State) {
    && 0 < s.np && s.pending == [] && s.priv == Priv(seq(s.np, p => []), 0, s.priv.lastp)
    && (forall t :: 0 <= t < |s.producers| ==> s.producers[t].PIdle?)
    && (forall w :: 0 <= w < |s.workers| ==> s.workers[w].WIdle?)
    && s.arrived == [] && s.batches == [] && s.out == []
  }

  /** An actor created by the dispatch of a message: blocked, and in no run queue. */
  predicate DispatchCreated(s: State) {
    Start(s) && s.blocked && s.runq == 0
  }

  /** An autostarted actor: put on a run queue while its mailbox is still blocked. */
  predicate Autostarted(s: State) {
    Start(s) && s.blocked && s.runq == 1
  }

  lemma {:induction false} StartShape(s: State)
    requires Start(s)
    ensures Shape(s)
    ensures Potential(s) == s.runq + (if s.blocked then 1 else 0)
  {
    FlattenEmpty(s.priv.headers);
    CountZero(s.producers, Waking);
    CountZero(s.workers, Executing);
  }

  lemma {:induction false} TwoFromQueue(s: State)
    requires Start(s) && Shape(s) && |s.workers| >= 2 && s.runq >= 2
    ensures exists sched :: TwoExecute(Run(s, sched))
  {
    var s1 := Step(s, Work(0, true));
    var s2 := Step(s1, Work(1, true));
    RunCons(s1, Work(1, true), []);
    RunCons(s, Work(0, true), [Work(1, true)]);
    assert Executing(s2.workers[0]) && Executing(s2.workers[1]);
    assert TwoExecute(Run(s, [Work(0, true)] + [Work(1, true)]));
  }

  /** One worker runs the actor although its mailbox is blocked; a message then wakes a second one. */
  lemma {:induction false} TwoAfterEarlyMessage(s: State)
    requires Start(s) && Shape(s) && |s.workers| >= 2 && |s.producers| >= 1 && s.blocked && s.runq == 1
    ensures exists sched :: TwoExecute(Run(s, sched))
  {
    var m := Msg(0, 0);
    var s1 := Step(s, Work(0, true));
    var s2 := Step(s1, Produce(0, m));
    var s3 := Step(s2, Produce(0, m));
    assert s3.producers[0] == PCas(m, TBlocked);
    var s4 := Step(s3, Produce(0, m));
    assert s4.producers[0] == PWake;
    var s5 := Step(s4, Produce(0, m));
    assert s5.runq == 1;
    var s6 := Step(s5, Work(1, true));
    assert Executing(s6.workers[0]) && Executing(s6.workers[1]);
    RunCons(s5, Work(1, true), []);
    RunCons(s4, Produce(0, m), [Work(1, true)]);
    RunCons(s3, Produce(0, m), [Produce(0, m), Work(1, true)]);
    RunCons(s2, Produce(0, m), [Produce(0, m), Produce(0, m), Work(1, true)]);
    RunCons(s1, Produce(0, m), [Produce(0, m), Produce(0, m), Produce(0, m), Work(1, true)]);
    RunCons(s, Work(0, true), [Produce(0, m), Produce(0, m), Produce(0, m), Produce(0, m), Work(1, true)]);
    assert TwoExecute(Run(s, [Work(0, true)]
      + [Produce(0, m), Produce(0, m), Produce(0, m), Produce(0, m), Work(1, true)]));
  }

  lemma {:induction false} RunCons(s: State, c: Choice, sched: seq<Choice>)
    requires Shape(s)
    ensures Run(s, [c] + sched) == Run(Step(s, c), sched)
  {
    assert ([c] + sched)[1..] == sched;
  }

  /**
   * Two workers never execute the actor at once, in any interleaving, exactly when the start state
   * has at most one activation, a blocked mailbox counted as one. Dispatch-created actors qualify;
   * autostarted ones do not.
   */
  lemma {:induction false} ExclusiveIff(s: State)
    requires Start(s) && Shape(s) && |s.workers| >= 2 && |s.producers| >= 1
    ensures (forall sched :: !TwoExecute(Run(s, sched))) <==> s.runq + (if s.blocked then 1 else 0) <= 1
    ensures DispatchCreated(s) ==> forall sched :: !TwoExecute(Run(s, sched))
    ensures Autostarted(s) ==> exists sched :: TwoExecute(Run(s, sched))
  {
    StartShape(s);
    if Potential(s) <= 1 {
      forall sched ensures !TwoExecute(Run(s, sched)) {
        PotentialRun(s, sched);
        NotTwo(Run(s, sched));
      }
    } else if s.runq >= 2 {
      TwoFromQueue(s);
    } else {
      TwoAfterEarlyMessage(s);
    }
  }

  // ---- What the actor sees ----

  /** The batches one after the other, each stably sorted by priority. */
  function Emit(np: nat, batches: seq<seq<Msg>>): seq<Msg> {
    if batches == [] then [] else Emit(np, batches[..|batches| - 1]) + Sorted(np, batches[|batches| - 1])
  }

  /** A worker that has found the private lists used up. */
  predicate SawNone(w: Worker) {
    w.Load? || w.Cas? || w.BlockCas?
  }

  /** What left the mailbox and what is left in the private lists is the batches, sorted one by one. */
  predicate OutSorted(s: State) {
    s.out + Rest(s.priv) == Emit(s.np, s.batches)
  }

  /** What was pushed is the batches and what is still on the stack. */
  predicate InKept(s: State) {
    s.arrived == Flatten(s.batches) + s.pending
  }

  /** Whoever looked, or blocked the mailbox, found the private lists used up. */
  predicate Spent(s: State) {
    && (s.blocked ==> s.priv.num == 0)
    && (forall w :: 0 <= w < |s.workers| && SawNone(s.workers[w]) ==> s.priv.num == 0)
  }

  predicate Ordered(s: State) {
    Shape(s) && OutSorted(s) && InKept(s) && Spent(s)
  }

  /** A producer's step pushes one message or none, and leaves the private side alone. */
  lemma {:induction false} ProducerPush(s: State, t: nat, m: Msg)
    requires Shape(s) && t < |s.producers|
    ensures var s' := StepProducer(s, t, m);
      && s'.out == s.out && s'.batches == s.batches && (s'.blocked ==> s.blocked)
      && ((s'.arrived == s.arrived && s'.pending == s.pending)
          || exists x :: s'.arrived == s.arrived + [x] && s'.pending == s.pending + [x])
  {
  }

  lemma {:induction false} PushKept(s: State, s': State)
    requires InKept(s) && s'.batches == s.batches
    requires (s'.arrived == s.arrived && s'.pending == s.pending)
          || exists x :: s'.arrived == s.arrived + [x] && s'.pending == s.pending + [x]
    ensures InKept(s')
  {
  }

  lemma {:induction false} ProducerOrdered(s: State, t: nat, m: Msg)
    requires Ordered(s) && t < |s.producers|
    ensures Ordered(StepProducer(s, t, m))
  {
    var s' := StepProducer(s, t, m);
    ProducerShape(s, t, m);
    ProducerPush(s, t, m);
    PushKept(s, s');
    assert OutSorted(s') && Spent(s');
  }

  /** While w executes, no other worker does. */
  lemma {:induction false} OthersIdle(s: State, w: nat)
    requires Potential(s) <= 1 && w < |s.workers| && Executing(s.workers[w])
    ensures forall v :: 0 <= v < |s.workers| && v != w ==> s.workers[v].WIdle?
    ensures !s.blocked
  {
    CountOne(s.workers, Executing, w);
    forall v | 0 <= v < |s.workers| && v != w ensures s.workers[v].WIdle? {
      if Executing(s.workers[v]) {
        if v < w { CountTwo(s.workers, Executing, v, w); } else { CountTwo(s.workers, Executing, w, v); }
      }
    }
  }

  lemma {:induction false} FetchOrdered(s: State, w: nat, more: bool)
    requires Ordered(s) && Potential(s) <= 1 && w < |s.workers| && s.workers[w].Fetch? && s.priv.num > 0
    ensures Ordered(StepWorker(s, w, more))
  {
    OthersIdle(s, w);
    WorkerShape(s, w, more);
    TakeIsFirst(s.np, s.priv);
    var s' := StepWorker(s, w, more);
    assert s'.out + Rest(s'.priv) == s.out + Rest(s.priv);
  }

  /** A batch moved into empty private lists. */
  lemma {:induction false} FillSorted(s: State, s': State)
    requires OutSorted(s) && PrivOk(s.np, s.priv) && s.priv.num == 0 && Fits(s.np, s.pending)
    requires s'.np == s.np && s'.out == s.out
    requires s'.priv == Fill(s.np, s.pending) && s'.batches == s.batches + [s.pending]
    ensures OutSorted(s')
  {
    FillIsSorted(s.np, s.pending);
    assert Rest(s.priv) == [];
    assert s'.batches[..|s'.batches| - 1] == s.batches;
  }

  lemma {:induction false} DrainKept(s: State, s': State)
    requires InKept(s) && s'.arrived == s.arrived && s'.pending == [] && s'.batches == s.batches + [s.pending]
    ensures InKept(s')
  {
    FlattenSplit(s.batches, [s.pending]);
    assert Flatten([s.pending]) == s.pending;
  }

  lemma {:induction false} DrainStep(s: State, w: nat, more: bool)
    requires Shape(s) && w < |s.workers| && s.workers[w].Cas? && TopOf(s) == s.workers[w].e
    ensures var s' := StepWorker(s, w, more);
      && s'.np == s.np && s'.out == s.out && s'.arrived == s.arrived && s'.pending == []
      && s'.priv == Fill(s.np, s.pending) && s'.batches == s.batches + [s.pending]
      && s'.workers == s.workers[w := Fetch] && s'.blocked == s.blocked
  {
  }

  lemma {:induction false} DrainOrdered(s: State, w: nat, more: bool)
    requires Ordered(s) && Potential(s) <= 1 && w < |s.workers| && s.workers[w].Cas? && TopOf(s) == s.workers[w].e
    ensures Ordered(StepWorker(s, w, more))
  {
    var s' := StepWorker(s, w, more);
    OthersIdle(s, w);
    WorkerShape(s, w, more);
    DrainStep(s, w, more);
    FillSorted(s, s');
    DrainKept(s, s');
    assert Spent(s');
  }

  /** The other steps of a worker leave the messages alone. */
  lemma {:induction false} WorkerLocal(s: State, w: nat, more: bool)
    requires Shape(s) && w < |s.workers|
    requires !(s.workers[w].Fetch? && s.priv.num > 0) && !(s.workers[w].Cas? && TopOf(s) == s.workers[w].e)
    ensures var s' := StepWorker(s, w, more);
      && s'.out == s.out && s'.priv == s.priv && s'.batches == s.batches
      && s'.arrived == s.arrived && s'.pending == s.pending
      && (s'.blocked ==> s.blocked || s.workers[w].BlockCas?)
      && (SawNone(s'.workers[w]) ==> SawNone(s.workers[w]) || s.priv.num == 0)
  {
  }

  lemma {:induction false} WorkerOrdered(s: State, w: nat, more: bool)
    requires Ordered(s) && Potential(s) <= 1 && w < |s.workers|
    ensures Ordered(StepWorker(s, w, more))
  {
    if s.workers[w].Fetch? && s.priv.num > 0 {
      FetchOrdered(s, w, more);
    } else if s.workers[w].Cas? && TopOf(s) == s.workers[w].e {
      DrainOrdered(s, w, more);
    } else {
      WorkerShape(s, w, more);
      WorkerFrame(s, w, more);
      WorkerLocal(s, w, more);
    }
  }

  lemma {:induction false} RunOrdered(s: State, sched: seq<Choice>)
    requires Ordered(s) && Potential(s) <= 1
    ensures Ordered(Run(s, sched))
    decreases |sched|
  {
    if sched == [] {
    } else {
      PotentialStep(s, sched[0]);
      match sched[0] {
        case Produce(t, m) => if t < |s.producers| { ProducerOrdered(s, t, m); }
        case Work(w, more) => if w < |s.workers| { WorkerOrdered(s, w, more); }
      }
      RunOrdered(Step(s, sched[0]), sched[1..]);
    }
  }

  lemma {:induction false} FlattenLast(batches: seq<seq<Msg>>)
    requires batches != []
    ensures var k := |batches| - 1; Flatten(batches) == Flatten(batches[..k]) + batches[k]
  {
    var k := |batches| - 1;
    assert batches == batches[..k] + [batches[k]];
    FlattenSplit(batches[..k], [batches[k]]);
    assert Flatten([batches[k]]) == batches[k];
  }

  lemma {:induction false} EmitFifo(np: nat, batches: seq<seq<Msg>>, p: nat)
    requires p < np
    ensures OfPrio(Emit(np, batches), p) == OfPrio(Flatten(batches), p)
  {
    if batches == [] {
    } else {
      var k := |batches| - 1;
      EmitFifo(np, batches[..k], p);
      OfPrioAppend(Emit(np, batches[..k]), Sorted(np, batches[k]), p);
      SortedIsFifoPerPrio(np, batches[k], p);
      FlattenLast(batches);
      OfPrioAppend(Flatten(batches[..k]), batches[k], p);
    }
  }

  lemma {:induction false} OrderedMeans(s: State, p: nat)
    requires Ordered(s) && p < s.np
    ensures OfPrio(s.out, p) <= OfPrio(s.arrived, p)
    ensures s.blocked ==> s.out == Emit(s.np, s.batches) && OfPrio(s.out, p) == OfPrio(s.arrived, p)
  {
    EmitFifo(s.np, s.batches, p);
    OfPrioAppend(s.out, Rest(s.priv), p);
    OfPrioAppend(Flatten(s.batches), s.pending, p);
    if s.blocked {
      assert Rest(s.priv) == [] && s.pending == [];
      assert s.out + [] == s.out;
    }
  }

  /**
   * For a dispatch-created actor, in every interleaving: there is exactly one activation when the
   * mailbox is not blocked and none when it is; while a delivered message has not been handed out the
   * mailbox is not blocked, so its wakeup exists; the messages handed out are the batches in order,
   * each stably sorted by priority; and messages of one priority leave in the order of their pushes,
   * all of them once the mailbox is blocked.
   */
  lemma {:induction false} DeliveredAndWoken(s0: State, sched: seq<Choice>, p: nat)
    requires DispatchCreated(s0) && Shape(s0) && p < s0.np
    ensures var s := Run(s0, sched);
      && Tokens(s) == (if s.blocked then 0 else 1)
      && s.arrived == Flatten(s.batches) + s.pending
      && s.out + Rest(s.priv) == Emit(s.np, s.batches)
      && (s.blocked ==> s.out == Emit(s.np, s.batches) && s.pending == [])
      && OfPrio(s.out, p) <= OfPrio(s.arrived, p)
      && (s.blocked ==> OfPrio(s.out, p) == OfPrio(s.arrived, p))
  {
    var s := Run(s0, sched);
    StartShape(s0);
    FlattenEmpty(s0.priv.headers);
    PotentialRun(s0, sched);
    RunOrdered(s0, sched);
    OrderedMeans(s, p);
  }
}
