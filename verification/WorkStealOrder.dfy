/**
 * The order of the tasks: the global queue and every ring are FIFO in every run. What a thread puts in
 * and takes out is read off its program counter before and after a step.
 */
module WorkStealOrder {

  import opened Words
  import opened Tally
  import opened TaskRing
  import opened WorkSteal
  import opened WorkStealSafety

  /** What an observer notes of a step of thread t from pc to pc'. */
  type Observer = (nat, Pc, Pc) -> seq<Task>

  /** Everything noted in a run, in order. */
  function Noted(s: State, sched: Schedule, see: Observer): seq<Task>
    requires Shape(s)
    decreases |sched|
  {
    if sched == [] then []
    else
      var (t, c) := sched[0];
      if t < |s.pcs| then
        var s' := Step(s, t, c);
        see(t, s.pcs[t], s'.pcs[t]) + Noted(s', sched[1..], see)
      else Noted(s, sched[1..], see)
  }

  // ---- The global queue ----

  function Pushes(pc: Pc): seq<Task> {
    if pc.EnqSpill? then pc.batch else if pc.GlobPush? then [pc.task] else []
  }

  function Pops(pc: Pc, pc': Pc): seq<Task> {
    if pc.PopGlobal? && pc'.Exit? then [pc'.task] else []
  }

  /** Tasks pushed to the global queue, one by one or as a spilled batch. */
  const PUSHED: Observer := (t: nat, pc, pc') => Pushes(pc)

  /** Tasks that dequeues got from the global queue. */
  const POPPED: Observer := (t: nat, pc, pc') => Pops(pc, pc')

  lemma {:induction false} GlobalStep(s: State, t: nat, c: Choice)
    requires Shape(s) && t < |s.pcs|
    ensures var s' := Step(s, t, c);
      s.deque + Pushes(s.pcs[t]) == Pops(s.pcs[t], s'.pcs[t]) + s'.deque
  {
    var pc, s' := s.pcs[t], Step(s, t, c);
    assert PcShape(|s.rings|, s.workers, t, pc);
    if InPoll(pc) {
      assert s' == StepPoll(s, t, c);
      if !(pc.PopGlobal? && s.deque != []) { PollMoves(s, t, c); }
    } else if InSleep(pc) {
      SleepMoves(s, t);
    }
  }

  lemma {:induction false} Chain(d: seq<Task>, a: seq<Task>, b: seq<Task>, d': seq<Task>,
                                 more: seq<Task>, out: seq<Task>, d'': seq<Task>)
    requires d + a == b + d' && d' + more == out + d''
    ensures d + (a + more) == (b + out) + d''
  {
    assert d + (a + more) == (d + a) + more;
    assert (b + d') + more == b + (d' + more);
    assert b + (out + d'') == (b + out) + d'';
  }

  lemma {:induction false} GlobalRun(s: State, sched: Schedule)
    requires Shape(s)
    ensures s.deque + Noted(s, sched, PUSHED) == Noted(s, sched, POPPED) + Run(s, sched).deque
    decreases |sched|
  {
    if sched == [] {
    } else {
      var (t, c) := sched[0];
      if t < |s.pcs| {
        var s' := Step(s, t, c);
        GlobalStep(s, t, c);
        GlobalRun(s', sched[1..]);
        Chain(s.deque, Pushes(s.pcs[t]), Pops(s.pcs[t], s'.pcs[t]), s'.deque,
              Noted(s', sched[1..], PUSHED), Noted(s', sched[1..], POPPED), Run(s, sched).deque);
      } else {
        GlobalRun(s, sched[1..]);
      }
    }
  }

  /**
   * In every run, lapped or not: the tasks pushed to the global queue are those popped from it followed
   * by those still in it. So a pop returns the oldest task, and a spilled batch keeps its order.
   */
  lemma {:induction false} GlobalQueueIsFifo(s0: State, sched: Schedule)
    requires Init(s0)
    ensures Noted(s0, sched, PUSHED) == Noted(s0, sched, POPPED) + Run(s0, sched).deque
  {
    GlobalRun(s0, sched);
    assert s0.deque + Noted(s0, sched, PUSHED) == Noted(s0, sched, PUSHED);
  }

  // ---- The rings ----

  /** The tasks in a ring, oldest first. */
  function Contents(r: Ring): seq<Task>
    requires |r.content| > 0 && r.head <= r.tail
  {
    Front(r, r.tail - r.head)
  }

  /** What a step puts on the thread's own ring: one task, or what is left of a stolen batch. */
  function Puts(pc: Pc, pc': Pc): seq<Task> {
    if pc.EnqStore? then [pc.task]
    else if pc.ShareWrite? && pc'.Exit? then pc.rest else []
  }

  /** What a step takes off a ring: one task, the older half of a full ring, or a stolen batch. */
  function Takes(pc: Pc, pc': Pc): seq<Task> {
    if pc.DeqCas? && pc'.Exit? then [pc'.task]
    else if pc.EnqCopy? && pc'.EnqSpill? && pc'.batch != [] then pc'.batch[..|pc'.batch| - 1]
    else if pc.GrabCopy? && pc'.Exit? then [pc'.task]
    else if pc.GrabCopy? && pc'.ShareHead? then pc'.rest + [pc'.task] else []
  }

  /** The ring thread t works on. */
  function RingOf(t: nat, pc: Pc): nat {
    if InGrab(pc) then pc.v else t
  }

  function PutsOn(i: nat, t: nat, pc: Pc, pc': Pc): seq<Task> {
    if t == i then Puts(pc, pc') else []
  }

  function TakesFrom(i: nat, t: nat, pc: Pc, pc': Pc): seq<Task> {
    if RingOf(t, pc) == i then Takes(pc, pc') else []
  }

  function PutOn(i: nat): Observer {
    (t: nat, pc, pc') => PutsOn(i, t, pc, pc')
  }

  function TakenFrom(i: nat): Observer {
    (t: nat, pc, pc') => TakesFrom(i, t, pc, pc')
  }

  /** A ring gains what is put on it at the end and loses what is taken from it at the front. */
  predicate Flows(r: Ring, pc: Pc, r': Ring, pc': Pc)
    requires |r.content| > 0 && r.head <= r.tail && |r'.content| > 0 && r'.head <= r'.tail
  {
    Contents(r) + Puts(pc, pc') == Takes(pc, pc') + Contents(r')
  }

  lemma {:induction false} SameContents(r: Ring, r': Ring)
    requires |r.content| > 0 && r.head <= r.tail && |r'.content| > 0 && r'.head == r.head && r'.tail == r.tail
    requires forall k: nat :: r.head <= k < r.tail ==> At(r', k) == At(r, k)
    ensures Contents(r') == Contents(r)
  {
  }

  /** Taking m tasks off the front. */
  lemma {:induction false} Taking(r: Ring, m: nat)
    requires |r.content| > 0 && r.head + m <= r.tail
    ensures Contents(r) == Front(r, m) + Contents(r.(head := r.head + m))
  {
    var r' := r.(head := r.head + m);
    assert forall k: nat :: At(r', k) == At(r, k);
    forall k | 0 <= k < r.tail - r.head ensures Contents(r)[k] == (Front(r, m) + Contents(r'))[k] {
      if k >= m { assert At(r', r'.head + (k - m)) == At(r, r.head + k); }
    }
  }

  /** Publishing written slots at the back. */
  lemma {:induction false} Putting(r: Ring, batch: seq<Task>)
    requires |r.content| > 0 && r.head <= r.tail
    requires forall k :: 0 <= k < |batch| ==> batch[k] == At(r, r.tail + k)
    ensures Contents(r.(tail := r.tail + |batch|)) == Contents(r) + batch
  {
    var r' := r.(tail := r.tail + |batch|);
    assert forall k: nat :: At(r', k) == At(r, k);
    forall k | 0 <= k < |Contents(r')| ensures Contents(r')[k] == (Contents(r) + batch)[k] {
      if k >= r.tail - r.head { assert At(r, r.tail + (k - (r.tail - r.head))) == At(r, r.head + k); }
    }
  }

  lemma {:induction false} SpillFlows(n: nat, r: Ring, pc: Pc)
    requires RingOk(n, r) && pc.EnqCopy? && OwnOk(n, r, pc) && EnqueueOn(n, r, pc).1.EnqSpill?
    ensures var (r', pc') := EnqueueOn(n, r, pc); RingOk(n, r') && Flows(r, pc, r', pc')
  {
    SubIsDistance(pc.tl, pc.h);
    WordInjective(r.head, pc.h);
    assert pc.temp == Front(r, n / 2);
    assert (pc.temp + [pc.task])[..|pc.temp|] == pc.temp;
    Taking(r, n / 2);
  }

  lemma {:induction false} EnqueueFlows(n: nat, r: Ring, pc: Pc)
    requires RingOk(n, r) && InEnqueue(pc) && OwnOk(n, r, pc)
    ensures var (r', pc') := EnqueueOn(n, r, pc); RingOk(n, r') && Flows(r, pc, r', pc')
  {
    if pc.EnqWrite? {
      StoreFree(n, r, pc.tl, pc.task, Any());
      SameContents(r, EnqueueOn(n, r, pc).0);
    } else if pc.EnqStore? {
      Putting(r, [pc.task]);
    } else if EnqueueOn(n, r, pc).1.EnqSpill? {
      SpillFlows(n, r, pc);
    }
  }

  lemma {:induction false} TakeOneFlows(n: nat, r: Ring, pc: Pc)
    requires RingOk(n, r) && pc.DeqCas? && OwnOk(n, r, pc) && Word(r.head) == Word(pc.h)
    ensures var r' := r.(head := r.head + 1);
      DequeueOn(n, r, pc) == (r', Exit(pc.task)) && RingOk(n, r') && Contents(r) == [pc.task] + Contents(r')
  {
    WordInjective(r.head, pc.h);
    assert [pc.task] == Front(r, 1);
    Taking(r, 1);
  }

  lemma {:induction false} DequeueFlows(n: nat, r: Ring, pc: Pc)
    requires RingOk(n, r) && InLocal(pc) && OwnOk(n, r, pc)
    ensures var (r', pc') := DequeueOn(n, r, pc); RingOk(n, r') && Flows(r, pc, r', pc')
  {
    if pc.DeqCas? && Word(r.head) == Word(pc.h) {
      TakeOneFlows(n, r, pc);
    }
  }

  lemma {:induction false} TakesBatch(pc: Pc)
    requires pc.GrabCopy? && |pc.temp| == pc.m > 0
    ensures Takes(pc, Taken(pc)) == pc.temp
  {
  }

  /** Up to its swap a thief takes nothing. */
  lemma {:induction false} GrabLooks(n: nat, r: Ring, pc: Pc)
    requires RingOk(n, r) && InGrab(pc) && GrabOk(n, r, pc)
    requires !(pc.GrabCopy? && |pc.temp| == pc.m && Word(r.head) == Word(pc.h))
    ensures GrabOn(n, r, pc).0 == r && Takes(pc, GrabOn(n, r, pc).1) == []
  {
  }

  lemma {:induction false} GrabTakes(n: nat, r: Ring, pc: Pc)
    requires RingOk(n, r) && pc.GrabCopy? && GrabOk(n, r, pc) && |pc.temp| == pc.m && r.head == pc.h
    ensures var r' := r.(head := r.head + pc.m);
      && GrabOn(n, r, pc) == (r', Taken(pc)) && RingOk(n, r')
      && Contents(r) == Takes(pc, Taken(pc)) + Contents(r')
  {
    assert pc.temp == Front(r, pc.m);
    TakesBatch(pc);
    Taking(r, pc.m);
  }

  lemma {:induction false} GrabFlows(n: nat, r: Ring, pc: Pc)
    requires RingOk(n, r) && InGrab(pc) && GrabOk(n, r, pc)
    requires pc.GrabCopy? && |pc.temp| == pc.m && Word(r.head) == Word(pc.h) ==> r.head == pc.h
    ensures var (r', pc') := GrabOn(n, r, pc); RingOk(n, r') && Contents(r) == Takes(pc, pc') + Contents(r')
  {
    if pc.GrabCopy? && |pc.temp| == pc.m && Word(r.head) == Word(pc.h) {
      GrabTakes(n, r, pc);
    } else {
      GrabLooks(n, r, pc);
    }
  }

  lemma {:induction false} ShareFlows(n: nat, r: Ring, pc: Pc)
    requires RingOk(n, r) && InShare(pc) && OwnOk(n, r, pc)
    ensures var (r', pc') := ShareOn(n, r, pc); RingOk(n, r') && Flows(r, pc, r', pc')
  {
    if pc.ShareWrite? {
      if pc.k < |pc.rest| {
        WordAdd(pc.tl, pc.k);
        StoreFree(n, r, pc.tl + pc.k, pc.rest[pc.k], Any());
        SameContents(r, ShareOn(n, r, pc).0);
      } else {
        Putting(r, pc.rest);
      }
    }
  }

  /** The ring a thread works on. */
  lemma {:induction false} OwnFlows(s: State, t: nat, c: Choice)
    requires Inv(s) && t < |s.pcs| && (InEnqueue(s.pcs[t]) || InLocal(s.pcs[t]) || InShare(s.pcs[t]))
    ensures var s' := Step(s, t, c);
      && t < |s.rings| && s'.rings == s.rings[t := s'.rings[t]] && RingOk(s.n, s.rings[t]) && RingOk(s.n, s'.rings[t])
      && Flows(s.rings[t], s.pcs[t], s'.rings[t], s'.pcs[t])
  {
    var pc := s.pcs[t];
    assert PcShape(|s.rings|, s.workers, t, pc);
    assert OwnOk(s.n, s.rings[t], pc);
    if InEnqueue(pc) { EnqueueFlows(s.n, s.rings[t], pc); }
    else if InLocal(pc) { DequeueFlows(s.n, s.rings[t], pc); }
    else { ShareFlows(s.n, s.rings[t], pc); }
  }

  lemma {:induction false} VictimFlows(s: State, t: nat, c: Choice)
    requires Inv(s) && t < |s.pcs| && InGrab(s.pcs[t]) && Unlapped(s, t)
    ensures var s' := Step(s, t, c); var v := s.pcs[t].v;
      && v < |s.rings| && s'.rings == s.rings[v := s'.rings[v]] && RingOk(s.n, s.rings[v]) && RingOk(s.n, s'.rings[v])
      && Contents(s.rings[v]) == Takes(s.pcs[t], s'.pcs[t]) + Contents(s'.rings[v])
  {
    var pc := s.pcs[t];
    assert PcShape(|s.rings|, s.workers, t, pc);
    assert GrabOk(s.n, s.rings[pc.v], pc);
    GrabFlows(s.n, s.rings[pc.v], pc);
  }

  lemma {:induction false} OtherSteps(s: State, t: nat, c: Choice)
    requires Shape(s) && t < |s.pcs|
    requires var pc := s.pcs[t]; !InEnqueue(pc) && !InLocal(pc) && !InShare(pc) && !InGrab(pc)
    ensures Step(s, t, c).rings == s.rings
  {
  }

  /** What a step of thread t does to ring i. */
  predicate Passes(s: State, t: nat, s': State, i: nat)
    requires t < |s.pcs| == |s'.pcs| && i < |s.rings| == |s'.rings|
  {
    && RingOk(s.n, s.rings[i]) && RingOk(s.n, s'.rings[i])
    && Contents(s.rings[i]) + PutsOn(i, t, s.pcs[t], s'.pcs[t])
       == TakesFrom(i, t, s.pcs[t], s'.pcs[t]) + Contents(s'.rings[i])
  }

  /** Only the thread's own ring changes, by what it puts on and takes from it. */
  lemma {:induction false} FlowPasses(s: State, t: nat, s': State, i: nat)
    requires t < |s.pcs| == |s'.pcs| && i < |s.rings| == |s'.rings| && t < |s.rings|
    requires !InGrab(s.pcs[t]) && s'.rings == s.rings[t := s'.rings[t]]
    requires RingOk(s.n, s.rings[i]) && RingOk(s.n, s.rings[t]) && RingOk(s.n, s'.rings[t])
    requires Flows(s.rings[t], s.pcs[t], s'.rings[t], s'.pcs[t])
    ensures Passes(s, t, s', i)
  {
    if i != t { assert s'.rings[i] == s.rings[i]; }
  }

  lemma {:induction false} OwnPasses(s: State, t: nat, c: Choice, i: nat)
    requires Inv(s) && t < |s.pcs| && i < |s.rings| && (InEnqueue(s.pcs[t]) || InLocal(s.pcs[t]) || InShare(s.pcs[t]))
    ensures Passes(s, t, Step(s, t, c), i)
  {
    assert RingOk(s.n, s.rings[i]);
    OwnFlows(s, t, c);
    FlowPasses(s, t, Step(s, t, c), i);
  }

  /** Only ring v changes, by what the thief takes from it. */
  lemma {:induction false} TakingPasses(s: State, t: nat, s': State, v: nat, i: nat)
    requires t < |s.pcs| == |s'.pcs| && i < |s.rings| == |s'.rings| && v < |s.rings|
    requires InGrab(s.pcs[t]) && s.pcs[t].v == v && s'.rings == s.rings[v := s'.rings[v]]
    requires RingOk(s.n, s.rings[i]) && RingOk(s.n, s.rings[v]) && RingOk(s.n, s'.rings[v])
    requires Contents(s.rings[v]) == Takes(s.pcs[t], s'.pcs[t]) + Contents(s'.rings[v])
    ensures Passes(s, t, s', i)
  {
    assert PutsOn(i, t, s.pcs[t], s'.pcs[t]) == [];
    if i != v { assert s'.rings[i] == s.rings[i]; }
  }

  lemma {:induction false} VictimPasses(s: State, t: nat, c: Choice, i: nat)
    requires Inv(s) && t < |s.pcs| && i < |s.rings| && InGrab(s.pcs[t]) && Unlapped(s, t)
    ensures Passes(s, t, Step(s, t, c), i)
  {
    assert RingOk(s.n, s.rings[i]);
    VictimFlows(s, t, c);
    TakingPasses(s, t, Step(s, t, c), s.pcs[t].v, i);
  }

  lemma {:induction false} RingStep(s: State, t: nat, c: Choice, i: nat)
    requires Inv(s) && t < |s.pcs| && Unlapped(s, t) && i < |s.rings|
    ensures Passes(s, t, Step(s, t, c), i)
  {
    var pc := s.pcs[t];
    assert RingOk(s.n, s.rings[i]);
    if InEnqueue(pc) || InLocal(pc) || InShare(pc) { OwnPasses(s, t, c, i); }
    else if InGrab(pc) { VictimPasses(s, t, c, i); }
    else { OtherSteps(s, t, c); }
  }

  lemma {:induction false} RingRun(s: State, sched: Schedule, i: nat)
    requires Inv(s) && NeverLapped(s, sched) && i < |s.rings|
    ensures var s' := Run(s, sched);
      && Inv(s') && |s'.rings| == |s.rings|
      && RingOk(s.n, s.rings[i]) && RingOk(s'.n, s'.rings[i])
      && Contents(s.rings[i]) + Noted(s, sched, PutOn(i)) == Noted(s, sched, TakenFrom(i)) + Contents(s'.rings[i])
    decreases |sched|
  {
    if sched == [] {
    } else {
      var (t, c) := sched[0];
      if t < |s.pcs| {
        var s1 := Step(s, t, c);
        UnlappedIsNotStale(s, t);
        StepKeeps(s, t, c, Any());
        RingStep(s, t, c, i);
        RingRun(s1, sched[1..], i);
        Chain(Contents(s.rings[i]), PutsOn(i, t, s.pcs[t], s1.pcs[t]), TakesFrom(i, t, s.pcs[t], s1.pcs[t]),
              Contents(s1.rings[i]), Noted(s1, sched[1..], PutOn(i)), Noted(s1, sched[1..], TakenFrom(i)),
              Contents(Run(s, sched).rings[i]));
      } else {
        RingRun(s, sched[1..], i);
      }
    }
  }

  /**
   * In every run: the tasks put on a ring, by its owner's enqueues and as the rest of stolen batches,
   * are those taken from it, one by one, spilled or stolen, followed by those still in it.
   */
  lemma {:induction false} RingsAreFifo(s0: State, sched: Schedule, i: nat)
    requires Init(s0) && NeverLapped(s0, sched) && i < |s0.rings|
    ensures var s := Run(s0, sched);
      && i < |s.rings| && RingOk(s.n, s.rings[i])
      && Noted(s0, sched, PutOn(i)) == Noted(s0, sched, TakenFrom(i)) + Contents(s.rings[i])
  {
    InitOk(s0, Any());
    RingRun(s0, sched, i);
    assert Contents(s0.rings[i]) + Noted(s0, sched, PutOn(i)) == Noted(s0, sched, PutOn(i));
  }
}
