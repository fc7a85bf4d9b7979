/**
 * When the scheduler keeps its tasks: exactly while no thief swaps in a stale batch. A stale batch
 * takes 2^32 advances of the victim's head during one steal, and such a run exists.
 */
module WorkStealLap {

  import opened Words
  import opened Tally
  import opened TaskRing
  import opened WorkSteal
  import opened WorkStealSafety
  import opened WorkStealAlone

  // ---- The exact condition ----

  ghost predicate AllBalanced(s: State) {
    forall p: Task -> bool :: Balanced(s, p)
  }

  /** No task is lost or duplicated at any point of the run. */
  ghost predicate AlwaysBalanced(s: State, sched: Schedule)
    requires Shape(s)
    decreases |sched|
  {
    && AllBalanced(s)
    && (sched != [] ==>
          if sched[0].0 < |s.pcs| then AlwaysBalanced(Step(s, sched[0].0, sched[0].1), sched[1..])
          else AlwaysBalanced(s, sched[1..]))
  }

  /** No thief ever swaps a batch other than the victim's oldest tasks. */
  predicate NeverStale(s: State, sched: Schedule)
    requires Shape(s)
    decreases |sched|
  {
    sched != [] ==>
      if sched[0].0 < |s.pcs| then
        !Stale(s, sched[0].0) && NeverStale(Step(s, sched[0].0, sched[0].1), sched[1..])
      else NeverStale(s, sched[1..])
  }

  lemma {:induction false} SpanAny(content: seq<Task>, lo: nat, hi: nat)
    requires |content| > 0 && lo <= hi
    ensures Span(content, lo, hi, Any()) == hi - lo
    decreases hi - lo
  {
    if lo == hi {
    } else {
      SpanAny(content, lo + 1, hi);
    }
  }

  /** If taking the batch off the ring keeps every count, the batch is what was queued. */
  lemma {:induction false} KeptIsCurrent(n: nat, r: Ring, batch: seq<Task>)
    requires RingOk(n, r) && KeepsEvery(r, batch)
    ensures Current(r, batch)
  {
    var m, r' := |batch|, r.(head := r.head + |batch|);
    assert Queued(r, Any()) == Queued(r', Any()) + Count(batch, Any());
    CountAll(batch);
    SpanAny(r.content, r.head, r.tail);
    assert r.head + m <= r.tail;
    forall x: Task ensures multiset(batch)[x] == multiset(Front(r, m))[x] {
      assert Queued(r, Is(x)) == Queued(r', Is(x)) + Count(batch, Is(x));
      TakeFresh(r, Front(r, m), Is(x));
      CountEqual(batch, x);
      CountEqual(Front(r, m), x);
    }
  }

  function Swapped(s: State, t: nat): State
    requires Shape(s) && t < |s.pcs| && Swaps(s, t)
  {
    var pc := s.pcs[t];
    assert PcShape(|s.rings|, s.workers, t, pc);
    s.(rings := s.rings[pc.v := s.rings[pc.v].(head := s.rings[pc.v].head + pc.m)], pcs := s.pcs[t := Taken(pc)])
  }

  lemma {:induction false} SwapStep(s: State, t: nat, c: Choice)
    requires Shape(s) && t < |s.pcs| && Swaps(s, t)
    ensures Step(s, t, c) == Swapped(s, t)
  {
    var pc := s.pcs[t];
    assert Step(s, t, c) == Apply(s, t, pc.v, GrabOn(s.n, s.rings[pc.v], pc));
  }

  /** What it does to the balance of p when a thread with empty hands takes a batch off a ring. */
  lemma {:induction false} TakeBalance(s: State, t: nat, v: nat, r': Ring, pc: Pc, s': State, p: Task -> bool)
    requires t < |s.pcs| && v < |s.rings| && Held(s.pcs[t]) == [] && Balanced(s, p) && Balanced(s', p)
    requires s'.rings == s.rings[v := r'] && s'.pcs == s.pcs[t := pc] && s'.deque == s.deque
    requires s'.enqueued == s.enqueued && s'.returned == s.returned
    ensures Queued(s.rings[v], p) == Queued(r', p) + Count(Held(pc), p)
  {
    InRingsUpdate(s.rings, v, r', p);
    InHandsUpdate(s.pcs, t, pc, p);
  }

  /** Taking the batch off the ring keeps every count. */
  ghost predicate KeepsEvery(r: Ring, batch: seq<Task>) {
    forall p: Task -> bool :: Queued(r, p) == Queued(r.(head := r.head + |batch|), p) + Count(batch, p)
  }

  lemma {:induction false} SwapKeepsOne(s: State, t: nat, r: Ring, p: Task -> bool)
    requires Shape(s) && t < |s.pcs| && Swaps(s, t) && Balanced(s, p) && Balanced(Swapped(s, t), p)
    requires PcShape(|s.rings|, s.workers, t, s.pcs[t]) && r == s.rings[s.pcs[t].v]
    ensures var batch := s.pcs[t].temp;
      Queued(r, p) == Queued(r.(head := r.head + |batch|), p) + Count(batch, p)
  {
    var pc := s.pcs[t];
    TakeBalance(s, t, pc.v, r.(head := r.head + |pc.temp|), Taken(pc), Swapped(s, t), p);
  }

  lemma {:induction false} SwapKeepsEvery(s: State, t: nat, r: Ring, batch: seq<Task>)
    requires Shape(s) && t < |s.pcs| && Swaps(s, t) && AllBalanced(s) && AllBalanced(Swapped(s, t))
    requires PcShape(|s.rings|, s.workers, t, s.pcs[t]) && r == s.rings[s.pcs[t].v] && batch == s.pcs[t].temp
    ensures KeepsEvery(r, batch)
  {
    forall p: Task -> bool
      ensures Queued(r, p) == Queued(r.(head := r.head + |batch|), p) + Count(batch, p)
    {
      assert Balanced(s, p) && Balanced(Swapped(s, t), p);
      SwapKeepsOne(s, t, r, p);
    }
  }

  /** A stale batch always loses or duplicates a task. */
  lemma {:induction false} StaleBreaks(s: State, t: nat)
    requires Inv(s) && t < |s.pcs| && AllBalanced(s) && Stale(s, t)
    ensures !AllBalanced(Swapped(s, t))
  {
    assert PcShape(|s.rings|, s.workers, t, s.pcs[t]);
    var r, batch := s.rings[s.pcs[t].v], s.pcs[t].temp;
    if AllBalanced(Swapped(s, t)) {
      SwapKeepsEvery(s, t, r, batch);
      KeptIsCurrent(s.n, r, batch);
    }
  }

  lemma {:induction false} KeepsAll(s: State, t: nat, c: Choice)
    requires Inv(s) && t < |s.pcs| && AllBalanced(s) && !Stale(s, t)
    ensures Inv(Step(s, t, c)) && AllBalanced(Step(s, t, c))
  {
    StepKeeps(s, t, c, Any());
    forall p: Task -> bool ensures Balanced(Step(s, t, c), p) {
      StepKeeps(s, t, c, p);
    }
  }

  lemma {:induction false} BalancedIffNeverStale(s: State, sched: Schedule)
    requires Inv(s) && AllBalanced(s)
    ensures AlwaysBalanced(s, sched) <==> NeverStale(s, sched)
    decreases |sched|
  {
    if sched == [] {
    } else if sched[0].0 >= |s.pcs| {
      BalancedIffNeverStale(s, sched[1..]);
    } else {
      var (t, c) := sched[0];
      if Stale(s, t) {
        SwapStep(s, t, c);
        StaleBreaks(s, t);
      } else {
        KeepsAll(s, t, c);
        BalancedIffNeverStale(Step(s, t, c), sched[1..]);
      }
    }
  }

  /**
   * In every run: no task is ever lost or duplicated if and only if no thief swaps a stale batch.
   * Without a lap of 2^32 advances during a steal no batch is stale.
   */
  lemma {:induction false} ConservedIffNeverStale(s0: State, sched: Schedule)
    requires Init(s0)
    ensures AlwaysBalanced(s0, sched) <==> NeverStale(s0, sched)
    ensures NeverLapped(s0, sched) ==> NeverStale(s0, sched)
  {
    InitOk(s0, Any());
    forall p: Task -> bool ensures Balanced(s0, p) { InitOk(s0, p); }
    BalancedIffNeverStale(s0, sched);
    if NeverLapped(s0, sched) { UnlappedRun(s0, sched); }
  }

  lemma {:induction false} UnlappedRun(s: State, sched: Schedule)
    requires Inv(s) && AllBalanced(s) && NeverLapped(s, sched)
    ensures NeverStale(s, sched)
    decreases |sched|
  {
    if sched == [] {
    } else if sched[0].0 >= |s.pcs| {
      UnlappedRun(s, sched[1..]);
    } else {
      var (t, c) := sched[0];
      UnlappedIsNotStale(s, t);
      KeepsAll(s, t, c);
      UnlappedRun(Step(s, t, c), sched[1..]);
    }
  }

  // ---- A run in which a batch is stale ----

  ghost predicate Reachable(s0: State, s: State)
    requires Shape(s0)
  {
    Shape(s) && |s.pcs| == |s0.pcs| && exists sched: Schedule :: Run(s0, sched) == s
  }

  lemma {:induction false} ReachableClosed(s0: State, t: nat)
    requires Shape(s0) && t < |s0.pcs|
    ensures Closed((iset s | Reachable(s0, s)), t) && Reachable(s0, s0)
  {
    assert Run(s0, []) == s0;
    forall s, c | Reachable(s0, s) ensures Reachable(s0, Step(s, t, c)) {
      var sched: Schedule :| Run(s0, sched) == s;
      RunSnoc(s0, sched, t, c);
    }
  }

  /** Since thread 1 copied x, the owner has advanced head k times; only y has been enqueued since. */
  predicate Parked(s: State, k: nat, x: Task, y: Task) {
    && 1 < s.workers <= |s.rings| <= |s.pcs| && s.n > 0 && |s.rings[0].content| == s.n
    && s.pcs[0].Idle? && s.pcs[1] == GrabCopy(0, 0, 0, 1, [x])
    && s.rings[0].head == k && s.rings[0].tail == k + 1
    && At(s.rings[0], k) == (if k == 0 then x else y)
    && Count(s.enqueued, Is(x)) == 1 && Count(s.returned, Is(x)) == if k == 0 then 0 else 1
  }

  lemma {:induction false} RoundParked(s: State, k: nat, x: Task, y: Task)
    requires Parked(s, k, x, y) && x != y && Capacity(s.n)
    ensures Parked(Enqueued(Dequeued(s, 0), 0, y), k + 1, x, y)
  {
    CountAppend(s.returned, [At(s.rings[0], k)], Is(x));
    CountAppend(s.enqueued, [y], Is(x));
    WordMod(k + 1, s.n);
  }

  lemma {:induction false} Round(all: iset<State>, s: State, k: nat, x: Task, y: Task) returns (s': State)
    requires Closed(all, 0) && s in all && Parked(s, k, x, y) && x != y
    ensures s' in all && Parked(s', k + 1, x, y)
  {
    Dequeues(all, s, 0);
    Enqueues(all, Dequeued(s, 0), 0, y);
    RoundParked(s, k, x, y);
    s' := Enqueued(Dequeued(s, 0), 0, y);
  }

  /** Any number of rounds of one dequeue and one enqueue. */
  lemma {:induction false} Laps(all: iset<State>, s: State, k: nat, rounds: nat, x: Task, y: Task)
    returns (s': State)
    requires Closed(all, 0) && s in all && Parked(s, k, x, y) && x != y
    ensures s' in all && Parked(s', k + rounds, x, y)
    decreases rounds
  {
    if rounds == 0 {
      s' := s;
    } else {
      s' := Round(all, s, k, x, y);
      s' := Laps(all, s', k + 1, rounds - 1, x, y);
    }
  }

  /** Thread 0 enqueues x; thread 1 copies it and stops before its compare-and-swap. */
  lemma {:induction false} FirstParks(all: iset<State>, s0: State, x: Task, y: Task) returns (s: State)
    requires Closed(all, 0) && Closed(all, 1) && s0 in all && Init(s0) && 1 < s0.workers
    ensures s in all && Parked(s, 0, x, y)
  {
    var s1 := Enqueued(s0, 0, x);
    Enqueues(all, s0, 0, x);
    assert s0.enqueued + [x] == [x];
    WordMod(0, s0.n);
    Turns(all, s1, 1, 0);
    Copies(all, s1, 1, 0);
    assert Front(s1.rings[0], 1) == [x];
    s := At1(s1, 1, GrabCopy(0, 0, 0, 1, [x]));
  }

  lemma {:induction false} ParkedSwaps(s: State, x: Task, y: Task)
    requires Shape(s) && Parked(s, W32, x, y)
    ensures Swaps(s, 1) && Swapped(s, 1).pcs[1] == Exit(x)
    ensures Swapped(s, 1).returned == s.returned && Swapped(s, 1).enqueued == s.enqueued
  {
    assert Word(W32) == Word(0);
  }

  lemma {:induction false} SwapParked(all: iset<State>, s: State, x: Task, y: Task) returns (s': State)
    requires Closed(all, 1) && s in all && Parked(s, W32, x, y)
    ensures s' in all && Count(s'.returned, Is(x)) == 2 && Count(s'.enqueued, Is(x)) == 1
  {
    ParkedSwaps(s, x, y);
    SwapStep(s, 1, Go);
    var u := Swapped(s, 1);
    assert Step(u, 1, Go) == StepExit(u, 1);
    CountAppend(s.returned, [x], Is(x));
    s' := StepExit(u, 1);
  }

  lemma {:induction false} TwiceIn(all: iset<State>, s0: State, x: Task, y: Task) returns (s: State)
    requires Closed(all, 0) && Closed(all, 1) && s0 in all && Init(s0) && 1 < s0.workers && x != y
    ensures s in all && Count(s.returned, Is(x)) == 2 && Count(s.enqueued, Is(x)) == 1
  {
    s := FirstParks(all, s0, x, y);
    s := Laps(all, s, 0, W32, x, y);
    s := SwapParked(all, s, x, y);
  }

  /**
   * With two workers or more, whatever the capacity, there is a run that returns a task twice although
   * it was enqueued once: a thief stops before its compare-and-swap while the owner advances head by
   * exactly 2^32.
   */
  lemma {:induction false} LappedRunReturnsATaskTwice(s0: State, x: Task, y: Task)
    requires Init(s0) && 1 < s0.workers && x != y
    ensures exists sched: Schedule ::
      multiset(Run(s0, sched).returned)[x] == 2 && multiset(Run(s0, sched).enqueued)[x] == 1
  {
    ReachableClosed(s0, 0);
    ReachableClosed(s0, 1);
    var s := TwiceIn((iset u | Reachable(s0, u)), s0, x, y);
    var sched: Schedule :| Run(s0, sched) == s;
    CountEqual(s.returned, x);
    CountEqual(s.enqueued, x);
  }
}
