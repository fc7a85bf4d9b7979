/** The scheduler's job, queue and sleeper counters over every run. */
module WorkStealCounts {

  import opened Words
  import opened Tally
  import opened TaskRing
  import opened WorkSteal
  import opened WorkStealSafety

  /** An enqueue that has not raised the job counter yet. */
  predicate Uncounted(pc: Pc) {
    InEnqueue(pc) || InGlobal(pc)
  }

  /** A task already in the global queue whose push has not raised the queue counter yet. */
  predicate Unposted(pc: Pc) {
    pc.GlobCount?
  }

  predicate Untimed(pc: Pc) {
    pc.WaitUntimed?
  }

  predicate JobsOk(s: State) {
    s.jobs == Word(|s.enqueued| - |s.returned| - Count(s.pcs, Uncounted))
  }

  predicate QueueOk(s: State) {
    s.gnum == (|s.deque| - Count(s.pcs, Unposted)) % W64
  }

  predicate SleepOk(s: State) {
    s.sleepers == Count(s.pcs, Asleep) && Count(s.pcs, Untimed) < s.workers
  }

  predicate Counts(s: State) {
    JobsOk(s) && QueueOk(s) && SleepOk(s)
  }

  /** How one step of thread t shifts the three tallies of threads. */
  lemma {:induction false} Shift(s: State, t: nat, s': State)
    requires t < |s.pcs| && Framed(s, t, s')
    ensures Count(s'.pcs, Uncounted) - Count(s.pcs, Uncounted) == Bit(Uncounted(s'.pcs[t])) - Bit(Uncounted(s.pcs[t]))
    ensures Count(s'.pcs, Unposted) - Count(s.pcs, Unposted) == Bit(Unposted(s'.pcs[t])) - Bit(Unposted(s.pcs[t]))
    ensures Count(s'.pcs, Asleep) - Count(s.pcs, Asleep) == Bit(Asleep(s'.pcs[t])) - Bit(Asleep(s.pcs[t]))
    ensures Count(s'.pcs, Untimed) - Count(s.pcs, Untimed) == Bit(Untimed(s'.pcs[t])) - Bit(Untimed(s.pcs[t]))
  {
    CountUpdate(s.pcs, Uncounted, t, s'.pcs[t]);
    CountUpdate(s.pcs, Unposted, t, s'.pcs[t]);
    CountUpdate(s.pcs, Asleep, t, s'.pcs[t]);
    CountUpdate(s.pcs, Untimed, t, s'.pcs[t]);
  }

  function Bit(b: bool): int {
    if b then 1 else 0
  }

  /** A sleeping thread is a worker, so the sleepers never outnumber the workers. */
  lemma {:induction false} CountPrefix(pcs: seq<Pc>, w: nat)
    requires forall t :: w <= t < |pcs| ==> !Asleep(pcs[t])
    ensures Count(pcs, Asleep) <= w
    decreases |pcs|
  {
    if pcs == [] {
    } else {
      if w == 0 {
        CountZero(pcs, Asleep);
      } else {
        assert forall t :: 0 <= t < |pcs| - 1 ==> pcs[1..][t] == pcs[t + 1];
        CountPrefix(pcs[1..], w - 1);
      }
    }
  }

  lemma {:induction false} SleepersAreWorkers(s: State)
    requires Shape(s)
    ensures Count(s.pcs, Asleep) <= s.workers < W32
  {
    forall t | s.workers <= t < |s.pcs| ensures !Asleep(s.pcs[t]) {
      assert PcShape(|s.rings|, s.workers, t, s.pcs[t]);
    }
    CountPrefix(s.pcs, s.workers);
  }

  /** The job and queue counters move with tasks and threads, dj and dq ahead. */
  lemma {:induction false} Tallied(s: State, t: nat, s': State, dj: int, dq: int)
    requires t < |s.pcs| && Framed(s, t, s') && Counts(s)
    requires dj == |s'.enqueued| - |s.enqueued| - |s'.returned| + |s.returned|
                 - Bit(Uncounted(s'.pcs[t])) + Bit(Uncounted(s.pcs[t]))
    requires dq == |s'.deque| - |s.deque| - Bit(Unposted(s'.pcs[t])) + Bit(Unposted(s.pcs[t]))
    requires s'.jobs == Word(s.jobs + dj) && s'.gnum == (s.gnum + dq) % W64
    requires s'.sleepers == s.sleepers + Bit(Asleep(s'.pcs[t])) - Bit(Asleep(s.pcs[t]))
    requires Untimed(s'.pcs[t]) ==> Untimed(s.pcs[t]) || s'.sleepers < s.workers
    ensures Counts(s')
  {
    Shift(s, t, s');
    WordAdd(|s.enqueued| - |s.returned| - Count(s.pcs, Uncounted), dj);
    Mod64Add(|s.deque| - Count(s.pcs, Unposted), dq);
    CountMonotone(s'.pcs, Untimed, Asleep);
  }

  /** A thread counts the same before and after. */
  predicate SameTally(pc: Pc, pc': Pc) {
    && Uncounted(pc') == Uncounted(pc) && Unposted(pc') == Unposted(pc)
    && Asleep(pc') == Asleep(pc) && (Untimed(pc') ==> Untimed(pc))
  }

  /** A step that leaves the tallies and the counters alone. */
  lemma {:induction false} Silent(s: State, t: nat, s': State)
    requires t < |s.pcs| && Framed(s, t, s') && Counts(s) && SameTally(s.pcs[t], s'.pcs[t])
    requires s'.jobs == s.jobs && s'.gnum == s.gnum && s'.sleepers == s.sleepers
    requires |s'.enqueued| == |s.enqueued| && |s'.returned| == |s.returned| && |s'.deque| == |s.deque|
    ensures Counts(s')
  {
    Tallied(s, t, s', 0, 0);
  }

  lemma {:induction false} EnqueueTally(n: nat, r: Ring, pc: Pc)
    requires InEnqueue(pc) && n > 0 && |r.content| == n
    ensures SameTally(pc, EnqueueOn(n, r, pc).1)
  {
  }

  lemma {:induction false} DequeueTally(n: nat, r: Ring, pc: Pc)
    requires InLocal(pc) && n > 0 && |r.content| == n
    ensures SameTally(pc, DequeueOn(n, r, pc).1)
  {
  }

  lemma {:induction false} GrabTally(n: nat, r: Ring, pc: Pc)
    requires InGrab(pc) && n > 0 && |r.content| == n && (pc.GrabCopy? ==> 0 < pc.m && |pc.temp| <= pc.m)
    ensures SameTally(pc, GrabOn(n, r, pc).1)
  {
  }

  lemma {:induction false} ShareTally(n: nat, r: Ring, pc: Pc)
    requires InShare(pc) && n > 0 && |r.content| == n && (pc.ShareWrite? ==> pc.k <= |pc.rest|)
    ensures SameTally(pc, ShareOn(n, r, pc).1)
  {
  }

  lemma {:induction false} ApplyCounts(s: State, t: nat, i: nat, next: (Ring, Pc))
    requires Shape(s) && t < |s.pcs| && i < |s.rings| && |next.0.content| == s.n && Counts(s)
    requires !s.pcs[t].Idle? && !InGlobal(s.pcs[t]) && Continues(s.pcs[t], next.1)
    requires SameTally(s.pcs[t], next.1)
    ensures Counts(Apply(s, t, i, next))
  {
    Silent(s, t, Apply(s, t, i, next));
  }

  lemma {:induction false} OwnStepCounts(s: State, t: nat, c: Choice)
    requires Shape(s) && t < |s.rings| && Counts(s) && (InEnqueue(s.pcs[t]) || InLocal(s.pcs[t]))
    ensures Counts(Step(s, t, c))
  {
    var r, pc := s.rings[t], s.pcs[t];
    if InEnqueue(pc) {
      EnqueueTally(s.n, r, pc);
      ApplyCounts(s, t, t, EnqueueOn(s.n, r, pc));
    } else {
      DequeueTally(s.n, r, pc);
      ApplyCounts(s, t, t, DequeueOn(s.n, r, pc));
    }
  }

  lemma {:induction false} GrabStepCounts(s: State, t: nat, c: Choice)
    requires Shape(s) && t < |s.rings| && Counts(s) && InGrab(s.pcs[t])
    ensures Counts(Step(s, t, c))
  {
    var pc := s.pcs[t];
    assert PcShape(|s.rings|, s.workers, t, pc);
    GrabTally(s.n, s.rings[pc.v], pc);
    ApplyCounts(s, t, pc.v, GrabOn(s.n, s.rings[pc.v], pc));
  }

  lemma {:induction false} ShareStepCounts(s: State, t: nat, c: Choice)
    requires Shape(s) && t < |s.rings| && Counts(s) && InShare(s.pcs[t])
    ensures Counts(Step(s, t, c))
  {
    assert PcShape(|s.rings|, s.workers, t, s.pcs[t]);
    ShareTally(s.n, s.rings[t], s.pcs[t]);
    ApplyCounts(s, t, t, ShareOn(s.n, s.rings[t], s.pcs[t]));
  }

  lemma {:induction false} IdleCounts(s: State, t: nat, c: Choice)
    requires Shape(s) && t < |s.pcs| && s.pcs[t].Idle? && Counts(s)
    ensures Counts(StepIdle(s, t, c))
  {
    Tallied(s, t, StepIdle(s, t, c), 0, 0);
  }

  lemma {:induction false} SpillCounts(s: State, t: nat)
    requires Shape(s) && t < |s.pcs| && s.pcs[t].EnqSpill? && Counts(s)
    ensures Counts(StepGlobal(s, t))
  {
    Tallied(s, t, StepGlobal(s, t), 0, |s.pcs[t].batch|);
  }

  lemma {:induction false} GlobalCounts(s: State, t: nat)
    requires Shape(s) && t < |s.pcs| && InGlobal(s.pcs[t]) && Counts(s)
    ensures Counts(StepGlobal(s, t))
  {
    var pc := s.pcs[t];
    if pc.EnqSpill? {
      SpillCounts(s, t);
    } else {
      Tallied(s, t, StepGlobal(s, t), Bit(pc.CountJob?), Bit(pc.GlobCount?));
    }
  }

  lemma {:induction false} PopCounts(s: State, t: nat, c: Choice)
    requires Shape(s) && t < |s.pcs| && s.pcs[t].PopGlobal? && s.deque != [] && Counts(s)
    ensures Counts(StepPoll(s, t, c))
  {
    Tallied(s, t, StepPoll(s, t, c), 0, -1);
  }

  lemma {:induction false} PollCounts(s: State, t: nat, c: Choice)
    requires Shape(s) && t < |s.pcs| && InPoll(s.pcs[t]) && Counts(s)
    ensures Counts(StepPoll(s, t, c))
  {
    if s.pcs[t].PopGlobal? && s.deque != [] {
      PopCounts(s, t, c);
    } else {
      PollMoves(s, t, c);
      Silent(s, t, StepPoll(s, t, c));
    }
  }

  /** The sleeper counter cannot wrap, so a worker that goes to sleep sees the true number of sleepers. */
  lemma {:induction false} SleepEnterCounts(s: State, t: nat)
    requires Shape(s) && t < |s.pcs| && s.pcs[t].SleepEnter? && Counts(s) && Count(s.pcs, Asleep) < s.workers < W32
    ensures Counts(StepSleep(s, t))
  {
    Tallied(s, t, StepSleep(s, t), 0, 0);
  }

  lemma {:induction false} SleepLeaveCounts(s: State, t: nat)
    requires Shape(s) && t < |s.pcs| && s.pcs[t].SleepLeave? && Counts(s) && 0 < Count(s.pcs, Asleep) < W32
    ensures Counts(StepSleep(s, t))
  {
    Tallied(s, t, StepSleep(s, t), 0, 0);
  }

  lemma {:induction false} DozeCounts(s: State, t: nat)
    requires Shape(s) && t < |s.pcs| && InSleep(s.pcs[t]) && !s.pcs[t].SleepEnter? && !s.pcs[t].SleepLeave?
    requires Counts(s)
    ensures Counts(StepSleep(s, t))
  {
    SleepMoves(s, t);
    Silent(s, t, StepSleep(s, t));
  }

  lemma {:induction false} SleepCounts(s: State, t: nat)
    requires Shape(s) && t < |s.pcs| && InSleep(s.pcs[t]) && Counts(s)
    ensures Counts(StepSleep(s, t))
  {
    var pc := s.pcs[t];
    if pc.SleepEnter? {
      AwakeLeft(s, t);
      SleepEnterCounts(s, t);
    } else if pc.SleepLeave? {
      SleepersAreWorkers(s);
      CountOne(s.pcs, Asleep, t);
      SleepLeaveCounts(s, t);
    } else {
      DozeCounts(s, t);
    }
  }

  /** A worker that is not asleep: not all are. */
  lemma {:induction false} AwakeLeft(s: State, t: nat)
    requires Shape(s) && t < |s.pcs| && s.pcs[t].SleepEnter?
    ensures Count(s.pcs, Asleep) < s.workers < W32
  {
    assert PcShape(|s.rings|, s.workers, t, s.pcs[t]);
    var s' := s.(pcs := s.pcs[t := SleepLeave]);
    assert Shape(s');
    SleepersAreWorkers(s');
    CountUpdate(s.pcs, Asleep, t, SleepLeave);
  }

  lemma {:induction false} ExitCounts(s: State, t: nat)
    requires Shape(s) && t < |s.pcs| && s.pcs[t].Exit? && Counts(s)
    ensures Counts(StepExit(s, t))
  {
    Tallied(s, t, StepExit(s, t), -1, 0);
  }

  lemma {:induction false} StepCounts(s: State, t: nat, c: Choice)
    requires Shape(s) && t < |s.pcs| && Counts(s)
    ensures Counts(Step(s, t, c))
  {
    var pc := s.pcs[t];
    assert PcShape(|s.rings|, s.workers, t, pc);
    if pc.Idle? { IdleCounts(s, t, c); }
    else if InGlobal(pc) { GlobalCounts(s, t); }
    else if InPoll(pc) { PollCounts(s, t, c); }
    else if InSleep(pc) { SleepCounts(s, t); }
    else if pc.Exit? { ExitCounts(s, t); }
    else if InEnqueue(pc) || InLocal(pc) { OwnStepCounts(s, t, c); }
    else if InGrab(pc) { GrabStepCounts(s, t, c); }
    else { ShareStepCounts(s, t, c); }
  }

  lemma {:induction false} RunCounts(s: State, sched: Schedule)
    requires Shape(s) && Counts(s)
    ensures Counts(Run(s, sched))
    decreases |sched|
  {
    if sched == [] {
    } else {
      var (t, c) := sched[0];
      if t < |s.pcs| {
        StepCounts(s, t, c);
        RunCounts(Step(s, t, c), sched[1..]);
      } else {
        RunCounts(s, sched[1..]);
      }
    }
  }

  lemma {:induction false} InitCounts(s: State)
    requires Init(s)
    ensures Counts(s)
  {
    CountZero(s.pcs, Uncounted);
    CountZero(s.pcs, Unposted);
    CountZero(s.pcs, Asleep);
    CountZero(s.pcs, Untimed);
  }

  /** Tasks in rings, in the global queue, or in some thread's hands. */
  function Outstanding(s: State): nat {
    InRings(s.rings, Any()) + InHands(s.pcs, Any()) + |s.deque|
  }

  lemma {:induction false} CountsMean(s: State)
    requires Counts(s) && Balanced(s, Any())
    ensures s.jobs == Word(Outstanding(s) - Count(s.pcs, Uncounted))
    ensures s.gnum == (|s.deque| - Count(s.pcs, Unposted)) % W64
  {
    CountAll(s.enqueued);
    CountAll(s.returned);
    CountAll(s.deque);
  }

  /**
   * In every interleaving, modulo the word size, the job counter is the number of outstanding tasks
   * less the enqueues that have not counted theirs, and the queue counter is the length of the global
   * queue less the pushes that have not counted theirs.
   */
  lemma {:induction false} CountersTrackTasks(s0: State, sched: Schedule)
    requires Init(s0) && NeverLapped(s0, sched)
    ensures var s := Run(s0, sched);
      && s.jobs == Word(Outstanding(s) - Count(s.pcs, Uncounted))
      && s.gnum == (|s.deque| - Count(s.pcs, Unposted)) % W64
  {
    InitCounts(s0);
    RunCounts(s0, sched);
    RunBalanced(s0, sched, Any());
    CountsMean(Run(s0, sched));
  }

  /** Both counters are exact as soon as no enqueue is in progress. */
  lemma {:induction false} CountersExactWhenQuiet(s0: State, sched: Schedule)
    requires Init(s0) && NeverLapped(s0, sched)
    requires var s := Run(s0, sched);
      && (forall t :: 0 <= t < |s.pcs| ==> !Uncounted(s.pcs[t]))
      && Outstanding(s) < W32
    ensures var s := Run(s0, sched); s.jobs == Outstanding(s) && s.gnum == |s.deque|
  {
    var s := Run(s0, sched);
    CountersTrackTasks(s0, sched);
    CountZero(s.pcs, Uncounted);
    CountZero(s.pcs, Unposted);
  }

  /**
   * In every interleaving, lapped or not, the sleeper count is the number of workers inside the sleep
   * section and never exceeds the number of workers; some worker is always outside the untimed wait.
   */
  lemma {:induction false} LastWorkerKeepsPolling(s0: State, sched: Schedule)
    requires Init(s0)
    ensures var s := Run(s0, sched);
      && s.sleepers == Count(s.pcs, Asleep) <= s.workers
      && Count(s.pcs, Untimed) <= s.workers - 1
      && exists t :: 0 <= t < s.workers && !Untimed(s.pcs[t])
  {
    var s := Run(s0, sched);
    InitCounts(s0);
    RunCounts(s0, sched);
    SleepersAreWorkers(s);
    if forall t :: 0 <= t < s.workers ==> Untimed(s.pcs[t]) {
      AllUntimed(s.pcs, s.workers);
      assert false;
    }
  }

  lemma {:induction false} AllUntimed(pcs: seq<Pc>, w: nat)
    requires w <= |pcs| && forall t :: 0 <= t < w ==> Untimed(pcs[t])
    ensures Count(pcs, Untimed) >= w
  {
    if w == 0 {
    } else {
      assert forall t :: 0 <= t < |pcs| - 1 ==> pcs[1..][t] == pcs[t + 1];
      AllUntimed(pcs[1..], w - 1);
    }
  }

  // ---- When a worker goes to sleep ----

  /** A worker about to decide remembers no more busy workers than there are. */
  predicate BusyOk(s: State) {
    forall t :: 0 <= t < |s.pcs| && s.pcs[t].DozeCheck? ==> s.pcs[t].busy <= s.workers
  }

  lemma {:induction false} OnlyDozeChecks(s: State, t: nat, c: Choice)
    requires Shape(s) && t < |s.pcs| && !InSleep(s.pcs[t])
    ensures !Step(s, t, c).pcs[t].DozeCheck?
  {
    var pc := s.pcs[t];
    assert PcShape(|s.rings|, s.workers, t, pc);
    if InPoll(pc) { assert Step(s, t, c) == StepPoll(s, t, c); }
  }

  lemma {:induction false} SleepBusy(s: State, t: nat)
    requires Shape(s) && t < |s.pcs| && InSleep(s.pcs[t]) && s.sleepers <= s.workers
    ensures var pc' := StepSleep(s, t).pcs[t]; pc'.DozeCheck? ==> pc'.busy <= s.workers
  {
  }

  /** Thread t alone moved, and it remembers no more busy workers than there are. */
  lemma {:induction false} FramedBusy(s: State, t: nat, s': State)
    requires t < |s.pcs| && BusyOk(s) && Framed(s, t, s')
    requires s'.pcs[t].DozeCheck? ==> s'.pcs[t].busy <= s.workers
    ensures BusyOk(s')
  {
  }

  lemma {:induction false} StepBusy(s: State, t: nat, c: Choice)
    requires Shape(s) && t < |s.pcs| && Counts(s) && BusyOk(s)
    ensures BusyOk(Step(s, t, c))
  {
    if InSleep(s.pcs[t]) {
      assert Step(s, t, c) == StepSleep(s, t);
      SleepersAreWorkers(s);
      SleepBusy(s, t);
    } else {
      OnlyDozeChecks(s, t, c);
    }
    FramedBusy(s, t, Step(s, t, c));
  }

  lemma {:induction false} RunBusy(s: State, sched: Schedule)
    requires Shape(s) && Counts(s) && BusyOk(s)
    ensures Counts(Run(s, sched)) && BusyOk(Run(s, sched))
    decreases |sched|
  {
    if sched == [] {
    } else {
      var (t, c) := sched[0];
      if t < |s.pcs| {
        StepCounts(s, t, c);
        StepBusy(s, t, c);
        RunBusy(Step(s, t, c), sched[1..]);
      } else {
        RunBusy(s, sched[1..]);
      }
    }
  }

  /**
   * In every run, lapped or not: whenever a worker goes to sleep, the jobs counted at that moment are no
   * more than the workers; with more jobs than workers it polls again instead.
   */
  lemma {:induction false} NobodySleepsOnABacklog(s0: State, sched: Schedule, t: nat, c: Choice)
    requires Init(s0) && t < |Run(s0, sched).pcs| && Run(s0, sched).pcs[t].DozeCheck?
    ensures var s := Run(s0, sched); var pc' := Step(s, t, c).pcs[t];
      (pc'.SleepEnter? || pc'.PollJobs?) && (s.jobs > s.workers ==> pc'.PollJobs?)
  {
    InitCounts(s0);
    RunBusy(s0, sched);
  }
}
