/**
 * What a call of the scheduler does when its thread runs alone, from any reached state: an enqueue and
 * a dequeue as their callers would describe them.
 */
module WorkStealAlone {

  import opened Words
  import opened Tally
  import opened TaskRing
  import opened WorkSteal
  import opened WorkStealSafety
  import opened WorkStealOrder

  // ---- Reaching states by steps of one thread ----

  /** A set of states that no step of thread t leaves. */
  ghost predicate Closed(all: iset<State>, t: nat) {
    && (forall s :: s in all ==> Shape(s) && t < |s.pcs|)
    && (forall s, c :: s in all ==> Step(s, t, c) in all)
  }

  predicate By(sched: Schedule, t: nat) {
    forall i :: 0 <= i < |sched| ==> sched[i].0 == t
  }

  /** Thread t alone can bring the scheduler from s to s'. */
  ghost predicate Leads(s: State, t: nat, s': State)
    requires Shape(s)
  {
    Shape(s') && t < |s'.pcs| && exists sched: Schedule :: By(sched, t) && Run(s, sched) == s'
  }

  lemma {:induction false} RunSnoc(s: State, sched: Schedule, t: nat, c: Choice)
    requires Shape(s) && t < |Run(s, sched).pcs|
    ensures Run(s, sched + [(t, c)]) == Step(Run(s, sched), t, c)
    decreases |sched|
  {
    var more := sched + [(t, c)];
    if sched == [] {
      assert more[1..] == [];
    } else {
      assert more[1..] == sched[1..] + [(t, c)];
      RunSnoc(if sched[0].0 < |s.pcs| then Step(s, sched[0].0, sched[0].1) else s, sched[1..], t, c);
    }
  }

  lemma {:induction false} LeadsOn(s0: State, t: nat, s: State, c: Choice)
    requires Shape(s0) && Leads(s0, t, s)
    ensures Leads(s0, t, Step(s, t, c))
  {
    var sched: Schedule :| By(sched, t) && Run(s0, sched) == s;
    RunSnoc(s0, sched, t, c);
    assert By(sched + [(t, c)], t);
  }

  lemma {:induction false} LeadsClosed(s0: State, t: nat)
    requires Shape(s0) && t < |s0.pcs|
    ensures Closed((iset s | Leads(s0, t, s)), t) && Leads(s0, t, s0)
  {
    assert By([], t) && Run(s0, []) == s0;
    forall s, c | Leads(s0, t, s) ensures Leads(s0, t, Step(s, t, c)) { LeadsOn(s0, t, s, c); }
  }

  // ---- Steps on the own ring ----

  /** Thread t at pc, its ring r. */
  function Own(s: State, t: nat, r: Ring, pc: Pc): State
    requires t < |s.rings| <= |s.pcs|
  {
    s.(rings := s.rings[t := r], pcs := s.pcs[t := pc])
  }

  predicate OnOwn(pc: Pc) { InEnqueue(pc) || InLocal(pc) || (InShare(pc) && (pc.ShareWrite? ==> pc.k <= |pc.rest|)) }

  function OwnNext(n: nat, r: Ring, pc: Pc): (next: (Ring, Pc))
    requires n > 0 && |r.content| == n && OnOwn(pc)
    ensures |next.0.content| == n && Continues(pc, next.1)
  {
    if InEnqueue(pc) then EnqueueOn(n, r, pc)
    else if InLocal(pc) then DequeueOn(n, r, pc)
    else ShareOn(n, r, pc)
  }

  /** k steps on the own ring lead from (r, pc) to (r', pc'). */
  predicate OwnPath(n: nat, r: Ring, pc: Pc, k: nat, r': Ring, pc': Pc)
    requires n > 0 && |r.content| == n
    decreases k
  {
    if k == 0 then r == r' && pc == pc'
    else OnOwn(pc) && OwnPath(n, OwnNext(n, r, pc).0, OwnNext(n, r, pc).1, k - 1, r', pc')
  }

  /** A step on the own ring, as the machine makes it. */
  lemma {:induction false} OwnApplies(u: State, t: nat)
    requires Shape(u) && t < |u.rings| && OnOwn(u.pcs[t])
    ensures Step(u, t, Go) == Apply(u, t, t, OwnNext(u.n, u.rings[t], u.pcs[t]))
  {
  }

  lemma {:induction false} OwnStepIs(s: State, t: nat, r: Ring, pc: Pc)
    requires t < |s.rings| <= |s.pcs| && Shape(Own(s, t, r, pc)) && OnOwn(pc)
    ensures |r.content| == s.n > 0
    ensures var (r', pc') := OwnNext(s.n, r, pc);
      Step(Own(s, t, r, pc), t, Go) == Own(s, t, r', pc')
  {
    var u := Own(s, t, r, pc);
    assert u.rings[t] == r && u.pcs[t] == pc;
    OwnApplies(u, t);
    var next := OwnNext(s.n, r, pc);
    assert s.rings[t := r][t := next.0] == s.rings[t := next.0] && s.pcs[t := pc][t := next.1] == s.pcs[t := next.1];
  }

  /** One step on the own ring. */
  lemma {:induction false} OwnMove(all: iset<State>, s: State, t: nat, r: Ring, pc: Pc, r': Ring, pc': Pc)
    requires Closed(all, t) && t < |s.rings| <= |s.pcs| && Own(s, t, r, pc) in all && OnOwn(pc)
    requires |r.content| == s.n > 0 && OwnNext(s.n, r, pc) == (r', pc')
    ensures Own(s, t, r', pc') in all
  {
    OwnStepIs(s, t, r, pc);
  }

  /** A thread makes k steps on its own ring. */
  lemma {:induction false} OwnSteps(all: iset<State>, s: State, t: nat, r: Ring, pc: Pc, k: nat, r': Ring, pc': Pc)
    requires Closed(all, t) && t < |s.rings| <= |s.pcs| && Own(s, t, r, pc) in all
    requires |r.content| == s.n > 0 && OwnPath(s.n, r, pc, k, r', pc')
    ensures Own(s, t, r', pc') in all
    decreases k
  {
    if k == 0 {
    } else {
      OwnStepIs(s, t, r, pc);
      var (r1, pc1) := OwnNext(s.n, r, pc);
      OwnSteps(all, s, t, r1, pc1, k - 1, r', pc');
    }
  }

  // ---- Enqueue ----

  function Appended(r: Ring, y: Task): Ring
    requires |r.content| > 0
  {
    Store(r, Word(r.tail), y).(tail := r.tail + 1)
  }

  lemma {:induction false} AppendedContents(n: nat, r: Ring, y: Task)
    requires RingOk(n, r) && r.tail - r.head < n
    ensures RingOk(n, Appended(r, y)) && Contents(Appended(r, y)) == Contents(r) + [y]
  {
    var r1 := Store(r, Word(r.tail), y);
    StoreFree(n, r, r.tail, y, Any());
    SameContents(r, r1);
    Putting(r1, [y]);
  }

  lemma {:induction false} EnqueuePath(n: nat, r: Ring, y: Task) returns (k: nat)
    requires 0 < n < W32 && |r.content| == n && 0 <= r.tail - r.head < n
    ensures OwnPath(n, r, EnqHead(y), k, Appended(r, y), CountJob)
  {
    k := 4;
    SubIsDistance(r.tail, r.head);
    var r' := Store(r, Word(r.tail), y);
    assert OwnPath(n, r', EnqStore(y, r.tail), 1, Appended(r, y), CountJob);
    assert OwnPath(n, r, EnqWrite(y, r.tail), 2, Appended(r, y), CountJob);
    assert OwnPath(n, r, EnqTail(y, r.head), 3, Appended(r, y), CountJob);
  }

  /** One slot more of a full ring is copied. */
  lemma {:induction false} CopyNext(n: nat, r: Ring, y: Task, m: nat)
    requires RingOk(n, r) && r.tail == r.head + n && m < n / 2
    ensures OwnNext(n, r, EnqCopy(y, r.head, r.tail, Front(r, m))) == (r, EnqCopy(y, r.head, r.tail, Front(r, m + 1)))
  {
    SubIsDistance(r.tail, r.head);
    LoadIsAt(n, r, r.head, m);
    assert Front(r, m) + [At(r, r.head + m)] == Front(r, m + 1);
  }

  /** Half of it is copied: the head moves past the copy. */
  lemma {:induction false} CopyDone(n: nat, r: Ring, y: Task)
    requires RingOk(n, r) && r.tail == r.head + n
    ensures OwnNext(n, r, EnqCopy(y, r.head, r.tail, Front(r, n / 2)))
         == (r.(head := r.head + n / 2), EnqSpill(Front(r, n / 2) + [y]))
  {
    SubIsDistance(r.tail, r.head);
  }

  lemma {:induction false} CopiesHalf(all: iset<State>, s: State, t: nat, r: Ring, y: Task, m: nat)
    requires Closed(all, t) && t < |s.rings| <= |s.pcs| && RingOk(s.n, r) && r.tail == r.head + s.n && m <= s.n / 2
    requires Own(s, t, r, EnqCopy(y, r.head, r.tail, Front(r, m))) in all
    ensures Own(s, t, r.(head := r.head + s.n / 2), EnqSpill(Front(r, s.n / 2) + [y])) in all
    decreases s.n / 2 - m
  {
    var pc := EnqCopy(y, r.head, r.tail, Front(r, m));
    if m == s.n / 2 {
      CopyDone(s.n, r, y);
      OwnMove(all, s, t, r, pc, r.(head := r.head + s.n / 2), EnqSpill(Front(r, s.n / 2) + [y]));
    } else {
      CopyNext(s.n, r, y, m);
      OwnMove(all, s, t, r, pc, r, EnqCopy(y, r.head, r.tail, Front(r, m + 1)));
      CopiesHalf(all, s, t, r, y, m + 1);
    }
  }

  lemma {:induction false} SpillsHalf(all: iset<State>, s: State, t: nat, r: Ring, y: Task)
    requires Closed(all, t) && t < |s.rings| <= |s.pcs| && RingOk(s.n, r) && r.tail == r.head + s.n
    requires Own(s, t, r, EnqHead(y)) in all
    ensures Own(s, t, r.(head := r.head + s.n / 2), EnqSpill(Front(r, s.n / 2) + [y])) in all
  {
    SubIsDistance(r.tail, r.head);
    assert [] == Front(r, 0);
    OwnMove(all, s, t, r, EnqHead(y), r, EnqTail(y, r.head));
    OwnMove(all, s, t, r, EnqTail(y, r.head), r, EnqCopy(y, r.head, r.tail, []));
    CopiesHalf(all, s, t, r, y, 0);
  }

  /** The owner, thread t, has enqueued y on its ring. */
  function Enqueued(s: State, t: nat, y: Task): State
    requires t < |s.rings| && |s.rings[t].content| > 0
  {
    s.(rings := s.rings[t := Appended(s.rings[t], y)], enqueued := s.enqueued + [y], jobs := Word(s.jobs + 1))
  }

  /** The owner's ring was full: its older half and y have gone to the global queue. */
  function Spilled(s: State, t: nat, y: Task): State
    requires t < |s.rings| && |s.rings[t].content| > 0
  {
    var r := s.rings[t];
    s.(rings := s.rings[t := r.(head := r.head + s.n / 2)], deque := s.deque + (Front(r, s.n / 2) + [y]),
       gnum := (s.gnum + (s.n / 2 + 1)) % W64, enqueued := s.enqueued + [y], jobs := Word(s.jobs + 1))
  }

  lemma {:induction false} EnqueueBegins(all: iset<State>, s: State, t: nat, y: Task)
    requires Closed(all, t) && s in all && t < |s.rings| && s.pcs[t].Idle?
    ensures var u := s.(enqueued := s.enqueued + [y]);
      Own(u, t, s.rings[t], EnqHead(y)) in all
  {
    assert s.rings[t := s.rings[t]] == s.rings;
    assert Step(s, t, Enqueue(y)) == StepIdle(s, t, Enqueue(y));
  }

  /** The job is counted and the call returns. */
  lemma {:induction false} CountEnds(all: iset<State>, u: State, t: nat)
    requires Closed(all, t) && u in all && u.pcs[t].CountJob?
    ensures u.(pcs := u.pcs[t := Idle], jobs := Word(u.jobs + 1)) in all
  {
    assert Step(u, t, Go) == StepGlobal(u, t);
  }

  lemma {:induction false} Enqueues(all: iset<State>, s: State, t: nat, y: Task)
    requires Closed(all, t) && s in all && t < |s.rings| && s.pcs[t].Idle?
    requires 0 <= s.rings[t].tail - s.rings[t].head < s.n
    ensures Enqueued(s, t, y) in all
  {
    var r, u := s.rings[t], s.(enqueued := s.enqueued + [y]);
    EnqueueBegins(all, s, t, y);
    var k := EnqueuePath(s.n, r, y);
    OwnSteps(all, u, t, r, EnqHead(y), k, Appended(r, y), CountJob);
    CountEnds(all, Own(u, t, Appended(r, y), CountJob), t);
    assert s.pcs[t := CountJob][t := Idle] == s.pcs;
  }

  lemma {:induction false} SpillEnds(all: iset<State>, u: State, t: nat)
    requires Closed(all, t) && u in all && u.pcs[t].EnqSpill?
    ensures var b := u.pcs[t].batch;
      u.(pcs := u.pcs[t := CountJob], deque := u.deque + b, gnum := (u.gnum + |b|) % W64) in all
  {
    assert Step(u, t, Go) == StepGlobal(u, t);
  }

  lemma {:induction false} Spills(all: iset<State>, s: State, t: nat, y: Task)
    requires Closed(all, t) && s in all && t < |s.rings| && s.pcs[t].Idle?
    requires RingOk(s.n, s.rings[t]) && s.rings[t].tail == s.rings[t].head + s.n
    ensures Spilled(s, t, y) in all
  {
    var r, u := s.rings[t], s.(enqueued := s.enqueued + [y]);
    var r', b := r.(head := r.head + s.n / 2), Front(r, s.n / 2) + [y];
    EnqueueBegins(all, s, t, y);
    SpillsHalf(all, u, t, r, y);
    var v := Own(u, t, r', EnqSpill(b));
    SpillEnds(all, v, t);
    var x := v.(pcs := v.pcs[t := CountJob], deque := v.deque + b, gnum := (v.gnum + |b|) % W64);
    CountEnds(all, x, t);
    assert x.pcs[t := Idle] == s.pcs;
  }

  /** A task handed to the global queue. */
  function Handed(s: State, y: Task): State {
    s.(deque := s.deque + [y], gnum := (s.gnum + 1) % W64, enqueued := s.enqueued + [y], jobs := Word(s.jobs + 1))
  }

  lemma {:induction false} HandsOver(all: iset<State>, s: State, t: nat, y: Task)
    requires Closed(all, t) && s in all && s.pcs[t].Idle?
    ensures Handed(s, y) in all
  {
    var s1 := Step(s, t, EnqueueGlobal(y));
    assert s1 == StepIdle(s, t, EnqueueGlobal(y));
    var s2 := Step(s1, t, Go);
    assert s2 == StepGlobal(s1, t);
    var s3 := Step(s2, t, Go);
    assert s3 == StepGlobal(s2, t);
    CountEnds(all, s3, t);
    assert s3.pcs[t := Idle] == s.pcs;
  }

  // ---- Dequeue ----

  lemma {:induction false} DequeueBegins(all: iset<State>, s: State, t: nat)
    requires Closed(all, t) && s in all && t < s.workers && s.pcs[t].Idle?
    ensures Own(s, t, s.rings[t], DeqHead) in all
  {
    assert s.rings[t := s.rings[t]] == s.rings;
    assert Step(s, t, Dequeue) == StepIdle(s, t, Dequeue);
  }

  /** Task x is handed to the caller. */
  function Returned(s: State, x: Task): State {
    s.(returned := s.returned + [x], jobs := Word(s.jobs - 1))
  }

  lemma {:induction false} ExitEnds(all: iset<State>, s: State, t: nat, x: Task)
    requires Closed(all, t) && t < |s.pcs| && s.pcs[t].Idle? && s.(pcs := s.pcs[t := Exit(x)]) in all
    ensures Returned(s, x) in all
  {
    var u := s.(pcs := s.pcs[t := Exit(x)]);
    assert s.pcs[t := Exit(x)][t := Idle] == s.pcs;
    assert Step(u, t, Go) == StepExit(u, t);
  }

  lemma {:induction false} DequeuePath(n: nat, r: Ring) returns (k: nat)
    requires RingOk(n, r) && r.head < r.tail
    ensures OwnPath(n, r, DeqHead, k, r.(head := r.head + 1), Exit(At(r, r.head)))
  {
    k := 4;
    var x, r' := At(r, r.head), r.(head := r.head + 1);
    WordInjective(r.tail, r.head);
    LoadIsAt(n, r, r.head, 0);
    assert OwnPath(n, r, DeqCas(r.head, x), 1, r', Exit(x));
    assert OwnPath(n, r, DeqRead(r.head), 2, r', Exit(x));
    assert OwnPath(n, r, DeqTail(r.head), 3, r', Exit(x));
  }

  /** The owner has dequeued the oldest task of its ring. */
  function Dequeued(s: State, t: nat): State
    requires t < |s.rings| && |s.rings[t].content| > 0
  {
    var r := s.rings[t];
    Returned(s.(rings := s.rings[t := r.(head := r.head + 1)]), At(r, r.head))
  }

  lemma {:induction false} Dequeues(all: iset<State>, s: State, t: nat)
    requires Closed(all, t) && s in all && t < s.workers && s.pcs[t].Idle?
    requires RingOk(s.n, s.rings[t]) && s.rings[t].head < s.rings[t].tail
    ensures Dequeued(s, t) in all
  {
    var r := s.rings[t];
    var r', x := r.(head := r.head + 1), At(r, r.head);
    DequeueBegins(all, s, t);
    var k := DequeuePath(s.n, r);
    OwnSteps(all, s, t, r, DeqHead, k, r', Exit(x));
    ExitEnds(all, s.(rings := s.rings[t := r']), t, x);
  }

  lemma {:induction false} EmptyPath(n: nat, r: Ring) returns (k: nat)
    requires n > 0 && |r.content| == n && r.head == r.tail
    ensures OwnPath(n, r, DeqHead, k, r, PollJobs)
  {
    k := 2;
    assert OwnPath(n, r, DeqTail(r.head), 1, r, PollJobs);
  }

  /** Thread t at pc. */
  function At1(s: State, t: nat, pc: Pc): State
    requires t < |s.pcs|
  {
    s.(pcs := s.pcs[t := pc])
  }

  lemma {:induction false} Polls(all: iset<State>, s: State, t: nat)
    requires Closed(all, t) && s in all && t < s.workers && s.pcs[t].Idle? && s.rings[t].head == s.rings[t].tail
    ensures At1(s, t, PollJobs) in all
  {
    var r := s.rings[t];
    DequeueBegins(all, s, t);
    var k := EmptyPath(s.n, r);
    OwnSteps(all, s, t, r, DeqHead, k, r, PollJobs);
    assert s.rings[t := r] == s.rings;
  }

  /** A step of the polling loop that only moves the program counter. */
  lemma {:induction false} PollMove(all: iset<State>, s: State, t: nat, pc: Pc, c: Choice, pc': Pc)
    requires Closed(all, t) && t < |s.pcs| && At1(s, t, pc) in all && InPoll(pc)
    requires StepPoll(At1(s, t, pc), t, c) == At1(s, t, pc')
    ensures At1(s, t, pc') in all
  {
    assert Step(At1(s, t, pc), t, c) == StepPoll(At1(s, t, pc), t, c);
  }

  /** Thread t finds its ring empty and jobs about: it comes to the global queue. */
  lemma {:induction false} PollsGlobal(all: iset<State>, s: State, t: nat)
    requires Closed(all, t) && s in all && t < s.workers && s.pcs[t].Idle? && s.rings[t].head == s.rings[t].tail
    requires s.jobs > 0
    ensures At1(s, t, PollGlobal) in all
  {
    Polls(all, s, t);
    assert s.pcs[t := PollJobs][t := PollGlobal] == s.pcs[t := PollGlobal];
    PollMove(all, s, t, PollJobs, Go, PollGlobal);
  }

  /** The oldest task of the global queue has been returned. */
  function Popped(s: State): State
    requires s.deque != []
  {
    Returned(s.(deque := s.deque[1..], gnum := (s.gnum - 1) % W64), s.deque[0])
  }

  /** The pop itself. */
  lemma {:induction false} PopStep(s: State, t: nat)
    requires t < |s.pcs| && Shape(At1(s, t, PopGlobal)) && s.deque != []
    ensures var s1 := s.(deque := s.deque[1..], gnum := (s.gnum - 1) % W64);
      Step(At1(s, t, PopGlobal), t, Go) == At1(s1, t, Exit(s.deque[0]))
  {
    var u := At1(s, t, PopGlobal);
    assert Step(u, t, Go) == StepPoll(u, t, Go);
    assert s.pcs[t := PopGlobal][t := Exit(s.deque[0])] == s.pcs[t := Exit(s.deque[0])];
  }

  lemma {:induction false} ComesToPop(all: iset<State>, s: State, t: nat)
    requires Closed(all, t) && t < |s.pcs| && At1(s, t, PollGlobal) in all && s.gnum > 0
    ensures At1(s, t, PopGlobal) in all
  {
    assert s.pcs[t := PollGlobal][t := PopGlobal] == s.pcs[t := PopGlobal];
    PollMove(all, s, t, PollGlobal, Go, PopGlobal);
  }

  lemma {:induction false} Pops(all: iset<State>, s: State, t: nat)
    requires Closed(all, t) && s in all && t < s.workers && s.pcs[t].Idle? && s.rings[t].head == s.rings[t].tail
    requires s.jobs > 0 && s.gnum > 0 && s.deque != []
    ensures Popped(s) in all
  {
    PollsGlobal(all, s, t);
    ComesToPop(all, s, t);
    PopStep(s, t);
    ExitEnds(all, s.(deque := s.deque[1..], gnum := (s.gnum - 1) % W64), t, s.deque[0]);
  }

  // ---- Stealing ----

  /** Past an empty global queue the thread turns to a victim. */
  lemma {:induction false} Turns(all: iset<State>, s: State, t: nat, v: nat)
    requires Closed(all, t) && s in all && t < s.workers && s.pcs[t].Idle? && s.rings[t].head == s.rings[t].tail
    requires s.jobs > 0 && (s.gnum == 0 || s.deque == []) && v < |s.rings| && v != t
    ensures At1(s, t, GrabHead(0, v)) in all
  {
    PollsGlobal(all, s, t);
    assert s.pcs[t := PollGlobal][t := PickVictim(0)] == s.pcs[t := PickVictim(0)];
    assert s.pcs[t := PollGlobal][t := PopGlobal] == s.pcs[t := PopGlobal];
    assert s.pcs[t := PopGlobal][t := PickVictim(0)] == s.pcs[t := PickVictim(0)];
    assert s.pcs[t := PickVictim(0)][t := GrabHead(0, v)] == s.pcs[t := GrabHead(0, v)];
    if s.gnum == 0 {
      PollMove(all, s, t, PollGlobal, Go, PickVictim(0));
    } else {
      PollMove(all, s, t, PollGlobal, Go, PopGlobal);
      PollMove(all, s, t, PopGlobal, Go, PickVictim(0));
    }
    PollMove(all, s, t, PickVictim(0), Victim(v), GrabHead(0, v));
  }

  /** A step of a thief that leaves the victim's ring alone. */
  lemma {:induction false} GrabMove(all: iset<State>, s: State, t: nat, pc: Pc, pc': Pc)
    requires Closed(all, t) && t < |s.pcs| && At1(s, t, pc) in all && InGrab(pc) && pc.v < |s.rings| && s.n > 0
    requires |s.rings[pc.v].content| == s.n && (pc.GrabCopy? ==> 0 < pc.m && |pc.temp| <= pc.m)
    requires GrabOn(s.n, s.rings[pc.v], pc) == (s.rings[pc.v], pc')
    ensures At1(s, t, pc') in all
  {
    var u := At1(s, t, pc);
    assert Step(u, t, Go) == Apply(u, t, pc.v, (s.rings[pc.v], pc'));
    assert s.pcs[t := pc][t := pc'] == s.pcs[t := pc'] && s.rings[pc.v := s.rings[pc.v]] == s.rings;
  }

  lemma {:induction false} CopyAll(all: iset<State>, s: State, t: nat, v: nat, m: nat, temp: seq<Task>)
    requires Closed(all, t) && t < |s.pcs| && v < |s.rings| && RingOk(s.n, s.rings[v]) && |temp| <= m && 0 < m
    requires temp == Front(s.rings[v], |temp|) && At1(s, t, GrabCopy(0, v, s.rings[v].head, m, temp)) in all
    ensures At1(s, t, GrabCopy(0, v, s.rings[v].head, m, Front(s.rings[v], m))) in all
    decreases m - |temp|
  {
    var r := s.rings[v];
    if |temp| == m {
    } else {
      LoadIsAt(s.n, r, r.head, |temp|);
      var more := temp + [At(r, r.head + |temp|)];
      assert more == Front(r, |more|);
      GrabMove(all, s, t, GrabCopy(0, v, r.head, m, temp), GrabCopy(0, v, r.head, m, more));
      CopyAll(all, s, t, v, m, more);
    }
  }

  /** The older half of q tasks, rounded up. */
  function Share(q: nat): nat { q - q / 2 }

  /** The thief stands before its compare-and-swap with the older half of the victim's tasks. */
  lemma {:induction false} Copies(all: iset<State>, s: State, t: nat, v: nat)
    requires Closed(all, t) && t < |s.pcs| && v < |s.rings| && At1(s, t, GrabHead(0, v)) in all
    requires RingOk(s.n, s.rings[v]) && s.rings[v].head < s.rings[v].tail
    ensures var r := s.rings[v]; var m := Share(r.tail - r.head);
      At1(s, t, GrabCopy(0, v, r.head, m, Front(r, m))) in all
  {
    var r := s.rings[v];
    var m := Share(r.tail - r.head);
    SubIsDistance(r.tail, r.head);
    RejectsExactlyTorn(s.n, r.head, r.tail);
    GrabMove(all, s, t, GrabHead(0, v), GrabTail(0, v, r.head));
    GrabMove(all, s, t, GrabTail(0, v, r.head), GrabCopy(0, v, r.head, m, []));
    CopyAll(all, s, t, v, m, []);
  }

  /** The victim has lost the batch; the thief holds it. */
  function Robbed(s: State, t: nat, v: nat, m: nat, pc: Pc): State
    requires t < |s.pcs| && v < |s.rings|
  {
    s.(rings := s.rings[v := s.rings[v].(head := s.rings[v].head + m)], pcs := s.pcs[t := pc])
  }

  lemma {:induction false} SwapOn(n: nat, r: Ring, v: nat, m: nat)
    requires RingOk(n, r) && 0 < m
    ensures var pc := GrabCopy(0, v, r.head, m, Front(r, m)); GrabOn(n, r, pc) == (r.(head := r.head + m), Taken(pc))
  {
  }

  lemma {:induction false} Grabs(all: iset<State>, s: State, t: nat, v: nat, m: nat, pc: Pc)
    requires Closed(all, t) && t < |s.pcs| && v < |s.rings| && RingOk(s.n, s.rings[v]) && 0 < m
    requires pc == GrabCopy(0, v, s.rings[v].head, m, Front(s.rings[v], m)) && At1(s, t, pc) in all
    ensures Robbed(s, t, v, m, Taken(pc)) in all
  {
    var r, u := s.rings[v], At1(s, t, pc);
    SwapOn(s.n, r, v, m);
    assert Step(u, t, Go) == Apply(u, t, v, (r.(head := r.head + m), Taken(pc)));
    assert s.pcs[t := pc][t := Taken(pc)] == s.pcs[t := Taken(pc)];
  }

  lemma {:induction false} ShareNext(n: nat, r: Ring, x: Task, rest: seq<Task>, tl: nat, k: nat)
    requires n > 0 && |r.content| == n && k < |rest|
    ensures OwnNext(n, r, ShareWrite(x, rest, tl, k))
         == (Store(r, Word(tl + k), rest[k]), ShareWrite(x, rest, tl, k + 1))
  {
    WordAdd(tl, k);
  }

  /** All slots are written: the batch is published. */
  lemma {:induction false} PublishNext(n: nat, r: Ring, x: Task, rest: seq<Task>) returns (r': Ring)
    requires RingOk(n, r) && r.head == r.tail && |rest| < n / 2
    requires forall j :: 0 <= j < |rest| ==> At(r, r.tail + j) == rest[j]
    ensures RingOk(n, r') && Contents(r') == rest
    ensures OwnNext(n, r, ShareWrite(x, rest, r.tail, |rest|)) == (r', Exit(x))
  {
    r' := r.(tail := r.tail + |rest|);
    Putting(r, rest);
    assert Contents(r) == [];
  }

  /** One slot more is written. */
  lemma {:induction false} WriteOne(n: nat, r: Ring, x: Task, rest: seq<Task>, k: nat) returns (r1: Ring)
    requires RingOk(n, r) && r.head == r.tail && k < |rest| < n / 2
    requires forall j :: 0 <= j < k ==> At(r, r.tail + j) == rest[j]
    ensures RingOk(n, r1) && r1.head == r.head && r1.tail == r.tail
    ensures forall j :: 0 <= j < k + 1 ==> At(r1, r1.tail + j) == rest[j]
    ensures OwnNext(n, r, ShareWrite(x, rest, r.tail, k)) == (r1, ShareWrite(x, rest, r.tail, k + 1))
  {
    r1 := Store(r, Word(r.tail + k), rest[k]);
    StoreFree(n, r, r.tail + k, rest[k], Any());
    WrittenMore(n, r, r1, rest, r.tail, k);
    ShareNext(n, r, x, rest, r.tail, k);
  }

  /** The rest of a batch goes to the thief's own ring, from slot k on. */
  lemma {:induction false} Writes(all: iset<State>, s: State, t: nat, r: Ring, x: Task, rest: seq<Task>, k: nat)
    returns (r': Ring)
    requires Closed(all, t) && t < |s.rings| <= |s.pcs| && Own(s, t, r, ShareWrite(x, rest, r.tail, k)) in all
    requires RingOk(s.n, r) && r.head == r.tail && k <= |rest| < s.n / 2
    requires forall j :: 0 <= j < k ==> At(r, r.tail + j) == rest[j]
    ensures RingOk(s.n, r') && Contents(r') == rest && Own(s, t, r', Exit(x)) in all
    decreases |rest| - k
  {
    if k == |rest| {
      r' := PublishNext(s.n, r, x, rest);
      OwnMove(all, s, t, r, ShareWrite(x, rest, r.tail, k), r', Exit(x));
    } else {
      var r1 := WriteOne(s.n, r, x, rest, k);
      OwnMove(all, s, t, r, ShareWrite(x, rest, r.tail, k), r1, ShareWrite(x, rest, r.tail, k + 1));
      r' := Writes(all, s, t, r1, x, rest, k + 1);
    }
  }

  lemma {:induction false} Shares(all: iset<State>, s: State, t: nat, r: Ring, x: Task, rest: seq<Task>)
    returns (r': Ring)
    requires Closed(all, t) && t < |s.rings| <= |s.pcs| && Own(s, t, r, ShareHead(x, rest)) in all
    requires RingOk(s.n, r) && r.head == r.tail && |rest| < s.n / 2
    ensures RingOk(s.n, r') && Contents(r') == rest && Own(s, t, r', Exit(x)) in all
  {
    OwnMove(all, s, t, r, ShareHead(x, rest), r, ShareTail(x, rest, r.head));
    OwnMove(all, s, t, r, ShareTail(x, rest, r.head), r, ShareWrite(x, rest, r.tail, 0));
    r' := Writes(all, s, t, r, x, rest, 0);
  }

  /** What a steal of m tasks from ring v leaves: the last of them returned, the others on ring t. */
  predicate Stolen(s: State, t: nat, v: nat, m: nat, s': State)
    requires t < |s.rings| && v < |s.rings| && RingOk(s.n, s.rings[v]) && 0 < m
  {
    var r := s.rings[v];
    && |s'.rings| == |s.rings| && RingOk(s.n, s'.rings[t]) && Contents(s'.rings[t]) == Front(r, m - 1)
    && s' == Returned(s.(rings := s.rings[v := r.(head := r.head + m)][t := s'.rings[t]]), At(r, r.head + m - 1))
  }

  /** From the swap on: the thief keeps the last task and puts the others on its own ring. */
  lemma {:induction false} KeepsLast(all: iset<State>, s: State, t: nat, batch: seq<Task>) returns (r': Ring)
    requires Closed(all, t) && t < |s.rings| <= |s.pcs| && s.pcs[t].Idle? && 0 < |batch| <= s.n / 2
    requires RingOk(s.n, s.rings[t]) && s.rings[t].head == s.rings[t].tail
    requires var x, rest := batch[|batch| - 1], batch[..|batch| - 1];
      At1(s, t, if rest == [] then Exit(x) else ShareHead(x, rest)) in all
    ensures RingOk(s.n, r') && Contents(r') == batch[..|batch| - 1]
    ensures Returned(s.(rings := s.rings[t := r']), batch[|batch| - 1]) in all
  {
    var r, x, rest := s.rings[t], batch[|batch| - 1], batch[..|batch| - 1];
    assert s.rings[t := r] == s.rings;
    if rest == [] {
      r' := r;
      assert Contents(r) == rest;
    } else {
      r' := Shares(all, s, t, r, x, rest);
    }
    ExitEnds(all, s.(rings := s.rings[t := r']), t, x);
  }

  /** From the call up to the swap. */
  lemma {:induction false} Robs(all: iset<State>, s: State, t: nat, v: nat, m: nat, batch: seq<Task>)
    requires Closed(all, t) && s in all && t < s.workers && s.pcs[t].Idle? && v < |s.rings| && v != t
    requires s.rings[t].head == s.rings[t].tail && RingOk(s.n, s.rings[v]) && s.rings[v].head < s.rings[v].tail
    requires s.jobs > 0 && (s.gnum == 0 || s.deque == [])
    requires m == Share(s.rings[v].tail - s.rings[v].head) && batch == Front(s.rings[v], m)
    ensures 0 < m <= s.n / 2
    ensures Robbed(s, t, v, m, if m == 1 then Exit(batch[0]) else ShareHead(batch[m - 1], batch[..m - 1])) in all
  {
    Turns(all, s, t, v);
    Copies(all, s, t, v);
    Grabs(all, s, t, v, m, GrabCopy(0, v, s.rings[v].head, m, batch));
  }

  lemma {:induction false} Steals(all: iset<State>, s: State, t: nat, v: nat) returns (s': State)
    requires Closed(all, t) && s in all && t < s.workers && s.pcs[t].Idle? && v < |s.rings| && v != t
    requires RingOk(s.n, s.rings[t]) && s.rings[t].head == s.rings[t].tail
    requires RingOk(s.n, s.rings[v]) && s.rings[v].head < s.rings[v].tail
    requires s.jobs > 0 && (s.gnum == 0 || s.deque == [])
    ensures s' in all && Stolen(s, t, v, Share(s.rings[v].tail - s.rings[v].head), s')
  {
    var r := s.rings[v];
    var m := Share(r.tail - r.head);
    var batch := Front(r, m);
    Robs(all, s, t, v, m, batch);
    assert batch[..m - 1] == Front(r, m - 1);
    var s1 := s.(rings := s.rings[v := r.(head := r.head + m)]);
    var own := KeepsLast(all, s1, t, batch);
    s' := Returned(s1.(rings := s1.rings[t := own]), batch[m - 1]);
  }

  // ---- From every reached state ----

  /**
   * From every reached state an enqueue of y that runs alone appends y to the thread's ring; if that
   * is full, its older half and then y go to the end of the global queue.
   */
  lemma {:induction false} EnqueueAlone(s: State, t: nat, y: Task)
    requires Inv(s) && t < |s.rings| && s.pcs[t].Idle?
    ensures var r := s.rings[t];
      if r.tail - r.head < s.n then
        && Leads(s, t, Enqueued(s, t, y))
        && RingOk(s.n, r) && RingOk(s.n, Appended(r, y)) && Contents(Appended(r, y)) == Contents(r) + [y]
      else Leads(s, t, Spilled(s, t, y))
  {
    var r := s.rings[t];
    assert RingOk(s.n, r);
    LeadsClosed(s, t);
    if r.tail - r.head < s.n {
      Enqueues((iset u | Leads(s, t, u)), s, t, y);
      AppendedContents(s.n, r, y);
    } else {
      Spills((iset u | Leads(s, t, u)), s, t, y);
    }
  }

  /** From every state a thread, with a ring or without, appends a task to the global queue. */
  lemma {:induction false} GlobalEnqueueAlone(s: State, t: nat, y: Task)
    requires Shape(s) && t < |s.pcs| && s.pcs[t].Idle?
    ensures Leads(s, t, Handed(s, y))
  {
    LeadsClosed(s, t);
    HandsOver((iset u | Leads(s, t, u)), s, t, y);
  }

  /**
   * From every reached state a dequeue that runs alone returns the oldest task of the thread's ring; if
   * that is empty, the oldest of the global queue; if there is none, a task stolen from whichever ring
   * it picks: of the older half of that ring, rounded up, the last one is returned and the others move
   * to the thread's ring in order.
   */
  lemma {:induction false} DequeueAlone(s: State, t: nat, v: nat)
    requires Inv(s) && t < s.workers && s.pcs[t].Idle? && v < |s.rings|
    ensures var r := s.rings[t];
      && RingOk(s.n, r) && RingOk(s.n, s.rings[v])
      && (r.head < r.tail ==> Leads(s, t, Dequeued(s, t)) && Contents(r)[0] == At(r, r.head))
      && (r.head == r.tail && s.jobs > 0 ==>
            && (s.gnum > 0 && s.deque != [] ==> Leads(s, t, Popped(s)))
            && ((s.gnum == 0 || s.deque == []) && s.rings[v].head < s.rings[v].tail ==>
                  exists s' :: Leads(s, t, s') && Stolen(s, t, v, Share(s.rings[v].tail - s.rings[v].head), s')))
  {
    var r := s.rings[t];
    assert RingOk(s.n, r) && RingOk(s.n, s.rings[v]);
    LeadsClosed(s, t);
    if r.head < r.tail {
      Dequeues((iset u | Leads(s, t, u)), s, t);
    } else if s.jobs > 0 && s.gnum > 0 && s.deque != [] {
      Pops((iset u | Leads(s, t, u)), s, t);
    } else if s.jobs > 0 && s.rings[v].head < s.rings[v].tail {
      var s' := Steals((iset u | Leads(s, t, u)), s, t, v);
    }
  }
}
