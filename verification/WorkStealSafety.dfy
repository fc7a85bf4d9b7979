/** Safety of the work-stealing scheduler over every run. */
module WorkStealSafety {

  import opened Words
  import opened Tally
  import opened TaskRing
  import opened WorkSteal

  // ---- The invariant of the rings and of every thread's snapshot ----

  /** From the polling loop on, a worker's own ring stays empty until it queues a stolen batch. */
  predicate OwnEmpty(pc: Pc) {
    InPoll(pc) || InGrab(pc) || InShare(pc) || InSleep(pc)
  }

  /** What thread state pc says about the thread's own ring r. */
  predicate OwnOk(n: nat, r: Ring, pc: Pc)
    requires n > 0 && |r.content| == n
  {
    match pc
    case EnqTail(_, h) => h <= r.head && r.tail <= h + n
    case EnqWrite(_, tl) => tl == r.tail < r.head + n
    case EnqStore(x, tl) => tl == r.tail < r.head + n && At(r, tl) == x
    case EnqCopy(_, h, tl, temp) =>
      h <= r.head && tl == r.tail == h + n && |temp| <= n / 2 && Fresh(r, h, temp)
    case EnqSpill(batch) => |batch| == n / 2 + 1
    case DeqTail(h) => h <= r.head && r.tail <= h + n
    case DeqRead(h) => h <= r.head && h < r.tail <= h + n
    case DeqCas(h, x) => h <= r.head && h < r.tail <= h + n && Fresh(r, h, [x])
    case ShareHead(_, rest) => r.head == r.tail && 0 < |rest| < n / 2
    case ShareTail(_, rest, h) => h == r.head == r.tail && 0 < |rest| < n / 2
    case ShareWrite(_, rest, tl, k) =>
      && r.head == tl == r.tail && k <= |rest| < n / 2
      && forall j :: 0 <= j < k ==> At(r, tl + j) == rest[j]
    case _ => OwnEmpty(pc) ==> r.head == r.tail
  }

  /** What thief state pc says about the victim's ring r. */
  predicate GrabOk(n: nat, r: Ring, pc: Pc)
    requires n > 0 && |r.content| == n && InGrab(pc)
  {
    match pc
    case GrabTail(_, _, h) => h <= r.head
    case GrabCopy(_, _, h, m, temp) =>
      && h <= r.head && 0 < m <= n / 2 && |temp| <= m
      && (r.head == h ==> h + m <= r.tail) && Fresh(r, h, temp)
    case _ => true
  }

  predicate Inv(s: State) {
    && Shape(s)
    && (forall i :: 0 <= i < |s.rings| ==> RingOk(s.n, s.rings[i]))
    && (forall t :: 0 <= t < |s.rings| ==> OwnOk(s.n, s.rings[t], s.pcs[t]))
    && (forall t :: 0 <= t < |s.pcs| && InGrab(s.pcs[t]) ==>
          GrabOk(s.n, s.rings[s.pcs[t].v], s.pcs[t]))
  }

  lemma {:induction false} OwnStable(n: nat, r: Ring, r': Ring, pc: Pc)
    requires Drained(n, r, r') && OwnOk(n, r, pc)
    ensures OwnOk(n, r', pc)
  {
    assert forall k: nat :: At(r', k) == At(r, k);
  }

  lemma {:induction false} GrabStable(n: nat, r: Ring, r': Ring, pc: Pc)
    requires Evolves(n, r, r') && InGrab(pc) && GrabOk(n, r, pc)
    ensures GrabOk(n, r', pc)
  {
    if pc.GrabCopy? { FreshStable(n, r, r', pc.h, pc.temp); }
  }

  /** The rings moved as another thread may expect, and thread t vouches for itself. */
  predicate Lawful(s: State, t: nat, s': State)
    requires Inv(s) && t < |s.pcs|
  {
    && Framed(s, t, s') && Shape(s')
    && (forall i :: 0 <= i < |s.rings| ==> Evolves(s.n, s.rings[i], s'.rings[i]))
    && (forall i :: 0 <= i < |s.rings| && i != t ==> Drained(s.n, s.rings[i], s'.rings[i]))
    && (t < |s.rings| ==> OwnOk(s.n, s'.rings[t], s'.pcs[t]))
    && (InGrab(s'.pcs[t]) ==> GrabOk(s.n, s'.rings[s'.pcs[t].v], s'.pcs[t]))
  }

  lemma {:induction false} LawfulKeepsInv(s: State, t: nat, s': State)
    requires Inv(s) && t < |s.pcs| && Lawful(s, t, s')
    ensures Inv(s')
  {
    forall u | 0 <= u < |s.rings| ensures OwnOk(s.n, s'.rings[u], s'.pcs[u]) {
      if u != t { OwnStable(s.n, s.rings[u], s'.rings[u], s.pcs[u]); }
    }
    forall u | 0 <= u < |s.pcs| && InGrab(s'.pcs[u])
      ensures GrabOk(s.n, s'.rings[s'.pcs[u].v], s'.pcs[u])
    {
      if u != t {
        var v := s.pcs[u].v;
        GrabStable(s.n, s.rings[v], s'.rings[v], s.pcs[u]);
      }
    }
  }

  // ---- Conservation, task by task ----

  /** Tasks that a thread has taken out of every queue, or not yet put into one. */
  function Held(pc: Pc): (b: seq<Task>) {
    match pc
    case EnqHead(x) => [x]
    case EnqTail(x, _) => [x]
    case EnqWrite(x, _) => [x]
    case EnqStore(x, _) => [x]
    case EnqCopy(x, _, _, _) => [x]
    case EnqSpill(batch) => batch
    case GlobPush(x) => [x]
    case ShareHead(x, rest) => rest + [x]
    case ShareTail(x, rest, _) => rest + [x]
    case ShareWrite(x, rest, _, _) => rest + [x]
    case Exit(x) => [x]
    case _ => []
  }

  function PerRing(rings: seq<Ring>, p: Task -> bool): (counts: seq<int>)
    ensures |counts| == |rings|
    ensures forall i :: 0 <= i < |rings| ==> counts[i] == Queued(rings[i], p)
  {
    seq(|rings|, i requires 0 <= i < |rings| => Queued(rings[i], p))
  }

  function PerThread(pcs: seq<Pc>, p: Task -> bool): (counts: seq<int>)
    ensures |counts| == |pcs|
    ensures forall i :: 0 <= i < |pcs| ==> counts[i] == Count(Held(pcs[i]), p)
  {
    seq(|pcs|, i requires 0 <= i < |pcs| => Count(Held(pcs[i]), p))
  }

  function InRings(rings: seq<Ring>, p: Task -> bool): (k: nat) {
    SumNat(PerRing(rings, p));
    Sum(PerRing(rings, p))
  }

  function InHands(pcs: seq<Pc>, p: Task -> bool): (k: nat) {
    SumNat(PerThread(pcs, p));
    Sum(PerThread(pcs, p))
  }

  /** As many tasks with property p were enqueued as are in rings, in threads' hands, in the deque or returned. */
  predicate Balanced(s: State, p: Task -> bool) {
    Count(s.enqueued, p) == InRings(s.rings, p) + InHands(s.pcs, p) + Count(s.deque, p) + Count(s.returned, p)
  }

  lemma {:induction false} InRingsUpdate(rings: seq<Ring>, i: nat, r: Ring, p: Task -> bool)
    requires i < |rings|
    ensures InRings(rings[i := r], p) == InRings(rings, p) - Queued(rings[i], p) + Queued(r, p)
  {
    assert PerRing(rings[i := r], p) == PerRing(rings, p)[i := Queued(r, p)];
    SumUpdate(PerRing(rings, p), i, Queued(r, p));
  }

  lemma {:induction false} InHandsUpdate(pcs: seq<Pc>, i: nat, pc: Pc, p: Task -> bool)
    requires i < |pcs|
    ensures InHands(pcs[i := pc], p) == InHands(pcs, p) - Count(Held(pcs[i]), p) + Count(Held(pc), p)
  {
    assert PerThread(pcs[i := pc], p) == PerThread(pcs, p)[i := Count(Held(pc), p)];
    SumUpdate(PerThread(pcs, p), i, Count(Held(pc), p));
  }

  // ---- Steps on a ring: lawful, and no task is lost between the ring and the thread's hands ----

  /** As many tasks with property p are in the ring and the thread's hands together as before. */
  predicate Kept(r: Ring, pc: Pc, next: (Ring, Pc), p: Task -> bool) {
    Queued(r, p) + Count(Held(pc), p) == Queued(next.0, p) + Count(Held(next.1), p)
  }

  /** A step of the owner on its own ring. */
  predicate OwnStep(n: nat, r: Ring, pc: Pc, next: (Ring, Pc), p: Task -> bool)
    requires n > 0 && |next.0.content| == n
  {
    Evolves(n, r, next.0) && OwnOk(n, next.0, next.1) && Kept(r, pc, next, p)
  }

  lemma {:induction false} SpillOk(n: nat, r: Ring, pc: Pc, p: Task -> bool)
    requires RingOk(n, r) && pc.EnqCopy? && OwnOk(n, r, pc) && |pc.temp| == n / 2 && r.head == pc.h
    ensures OwnStep(n, r, pc, EnqueueOn(n, r, pc), p)
  {
    SubIsDistance(pc.tl, pc.h);
    TakeEvolves(n, r, n / 2);
    TakeFresh(r, pc.temp, p);
    CountAppend(pc.temp, [pc.task], p);
  }

  lemma {:induction false} SpillCopyOk(n: nat, r: Ring, pc: Pc, p: Task -> bool)
    requires RingOk(n, r) && pc.EnqCopy? && OwnOk(n, r, pc) && (|pc.temp| < n / 2 || r.head != pc.h)
    ensures OwnStep(n, r, pc, EnqueueOn(n, r, pc), p)
  {
    SubIsDistance(pc.tl, pc.h);
    if |pc.temp| < n / 2 {
      LoadIsAt(n, r, pc.h, |pc.temp|);
    } else {
      WordInjective(r.head, pc.h);
    }
  }

  lemma {:induction false} EnqueueOk(n: nat, r: Ring, pc: Pc, p: Task -> bool)
    requires RingOk(n, r) && InEnqueue(pc) && OwnOk(n, r, pc)
    ensures OwnStep(n, r, pc, EnqueueOn(n, r, pc), p)
  {
    match pc {
      case EnqTail(_, h) =>
        SubIsDistance(r.tail, h);
      case EnqWrite(y, tl) =>
        StoreFree(n, r, tl, y, p);
      case EnqStore(y, tl) =>
        PublishEvolves(n, r, 1);
        Publish(r, [y], p);
      case EnqCopy(_, _, _, _) =>
        if |pc.temp| == n / 2 && r.head == pc.h {
          SpillOk(n, r, pc, p);
        } else {
          SpillCopyOk(n, r, pc, p);
        }
      case _ =>
    }
  }

  lemma {:induction false} TakeOneOk(n: nat, r: Ring, pc: Pc, p: Task -> bool)
    requires RingOk(n, r) && pc.DeqCas? && OwnOk(n, r, pc)
    ensures OwnStep(n, r, pc, DequeueOn(n, r, pc), p)
  {
    WordInjective(r.head, pc.h);
    if r.head == pc.h {
      TakeEvolves(n, r, 1);
      TakeFresh(r, [pc.task], p);
    }
  }

  lemma {:induction false} DequeueOk(n: nat, r: Ring, pc: Pc, p: Task -> bool)
    requires RingOk(n, r) && InLocal(pc) && OwnOk(n, r, pc)
    ensures OwnStep(n, r, pc, DequeueOn(n, r, pc), p)
  {
    match pc {
      case DeqTail(h) =>
        WordInjective(r.tail, h);
      case DeqRead(h) =>
        LoadIsAt(n, r, h, 0);
      case DeqCas(h, y) =>
        TakeOneOk(n, r, pc, p);
      case _ =>
    }
  }

  /** A step of a thief on its victim's ring. */
  predicate ThiefStep(n: nat, r: Ring, pc: Pc, next: (Ring, Pc), p: Task -> bool)
    requires n > 0 && |next.0.content| == n
  {
    && Evolves(n, r, next.0) && Drained(n, r, next.0) && Kept(r, pc, next, p)
    && (InGrab(next.1) ==> GrabOk(n, next.0, next.1))
    && (next.1.ShareHead? ==> 0 < |next.1.rest| < n / 2)
    && (next.1.PickVictim? || next.1.ShareHead? || next.1.Exit? || InGrab(next.1))
  }

  lemma {:induction false} CopyOk(n: nat, r: Ring, pc: Pc, p: Task -> bool)
    requires RingOk(n, r) && pc.GrabCopy? && GrabOk(n, r, pc) && |pc.temp| < pc.m
    ensures ThiefStep(n, r, pc, GrabOn(n, r, pc), p)
  {
    LoadIsAt(n, r, pc.h, |pc.temp|);
  }

  /** The program counter after a swap: the thief holds the batch. */
  function Taken(pc: Pc): (pc': Pc)
    requires pc.GrabCopy? && |pc.temp| == pc.m > 0
    ensures Held(pc') == pc.temp
  {
    if pc.m == 1 then Exit(pc.temp[0]) else ShareHead(pc.temp[pc.m - 1], pc.temp[..pc.m - 1])
  }

  lemma {:induction false} TakeHalfOk(n: nat, r: Ring, pc: Pc, p: Task -> bool)
    requires RingOk(n, r) && pc.GrabCopy? && GrabOk(n, r, pc) && |pc.temp| == pc.m
    requires Word(r.head) == Word(pc.h) && Current(r, pc.temp)
    ensures ThiefStep(n, r, pc, GrabOn(n, r, pc), p)
  {
    var r' := r.(head := r.head + pc.m);
    assert GrabOn(n, r, pc) == (r', Taken(pc));
    TakeEvolves(n, r, pc.m);
    TakeCurrent(r, pc.temp, p);
    assert Kept(r, pc, (r', Taken(pc)), p);
  }

  lemma {:induction false} GrabOnOk(n: nat, r: Ring, pc: Pc, p: Task -> bool)
    requires RingOk(n, r) && InGrab(pc) && GrabOk(n, r, pc)
    requires pc.GrabCopy? && |pc.temp| == pc.m && Word(r.head) == Word(pc.h) ==> Current(r, pc.temp)
    ensures ThiefStep(n, r, pc, GrabOn(n, r, pc), p)
  {
    match pc {
      case GrabTail(_, _, h) =>
        if r.head == h { RejectsExactlyTorn(n, h, r.tail); }
      case GrabCopy(_, _, _, _, _) =>
        if |pc.temp| < pc.m {
          CopyOk(n, r, pc, p);
        } else if Word(r.head) == Word(pc.h) {
          TakeHalfOk(n, r, pc, p);
        }
      case _ =>
    }
  }

  /** One slot more of a batch is written from position tl on. */
  lemma {:induction false} WrittenMore(n: nat, r: Ring, r': Ring, rest: seq<Task>, tl: nat, k: nat)
    requires n > 0 && |r.content| == |r'.content| == n && k < |rest| < n
    requires forall j :: 0 <= j < k ==> At(r, tl + j) == rest[j]
    requires At(r', tl + k) == rest[k]
    requires forall i: nat :: tl <= i < tl + n && i != tl + k ==> At(r', i) == At(r, i)
    ensures forall j :: 0 <= j < k + 1 ==> At(r', tl + j) == rest[j]
  {
    forall j | 0 <= j < k + 1 ensures At(r', tl + j) == rest[j] {
      if j < k { assert At(r', tl + j) == At(r, tl + j); }
    }
  }

  lemma {:induction false} ShareWriteOk(n: nat, r: Ring, pc: Pc, p: Task -> bool)
    requires RingOk(n, r) && pc.ShareWrite? && OwnOk(n, r, pc) && pc.k < |pc.rest|
    ensures OwnStep(n, r, pc, ShareOn(n, r, pc), p)
  {
    var r', pc' := Store(r, Word(pc.tl + pc.k), pc.rest[pc.k]), pc.(k := pc.k + 1);
    WordAdd(pc.tl, pc.k);
    assert ShareOn(n, r, pc) == (r', pc');
    StoreFree(n, r, pc.tl + pc.k, pc.rest[pc.k], p);
    WrittenMore(n, r, r', pc.rest, pc.tl, pc.k);
    assert OwnOk(n, r', pc');
    assert Kept(r, pc, (r', pc'), p);
  }

  lemma {:induction false} ShareStoreOk(n: nat, r: Ring, pc: Pc, p: Task -> bool)
    requires RingOk(n, r) && pc.ShareWrite? && OwnOk(n, r, pc) && pc.k == |pc.rest|
    ensures OwnStep(n, r, pc, ShareOn(n, r, pc), p)
  {
    PublishEvolves(n, r, pc.k);
    Publish(r, pc.rest, p);
    CountAppend(pc.rest, [pc.task], p);
  }

  lemma {:induction false} ShareOk(n: nat, r: Ring, pc: Pc, p: Task -> bool)
    requires RingOk(n, r) && InShare(pc) && OwnOk(n, r, pc)
    ensures OwnStep(n, r, pc, ShareOn(n, r, pc), p)
  {
    if pc.ShareWrite? {
      if pc.k < |pc.rest| { ShareWriteOk(n, r, pc, p); } else { ShareStoreOk(n, r, pc, p); }
    }
  }

  // ---- Steps of the whole machine ----

  predicate Keeps(s: State, s': State, p: Task -> bool) {
    Inv(s') && (Balanced(s, p) ==> Balanced(s', p))
  }

  lemma {:induction false} OwnApply(s: State, t: nat, next: (Ring, Pc), p: Task -> bool)
    requires Inv(s) && t < |s.rings| && |next.0.content| == s.n
    requires !s.pcs[t].Idle? && !InGlobal(s.pcs[t]) && Continues(s.pcs[t], next.1) && !InGrab(next.1)
    requires OwnStep(s.n, s.rings[t], s.pcs[t], next, p) && Shape(Apply(s, t, t, next))
    ensures Keeps(s, Apply(s, t, t, next), p)
  {
    LawfulKeepsInv(s, t, Apply(s, t, t, next));
    InRingsUpdate(s.rings, t, next.0, p);
    InHandsUpdate(s.pcs, t, next.1, p);
  }

  lemma {:induction false} ThiefApply(s: State, t: nat, next: (Ring, Pc), p: Task -> bool)
    requires Inv(s) && t < |s.rings| && InGrab(s.pcs[t]) && |next.0.content| == s.n
    requires Continues(s.pcs[t], next.1) && Shape(Apply(s, t, s.pcs[t].v, next))
    requires ThiefStep(s.n, s.rings[s.pcs[t].v], s.pcs[t], next, p)
    ensures Keeps(s, Apply(s, t, s.pcs[t].v, next), p)
  {
    var v := s.pcs[t].v;
    assert OwnOk(s.n, s.rings[t], s.pcs[t]);
    LawfulKeepsInv(s, t, Apply(s, t, v, next));
    InRingsUpdate(s.rings, v, next.0, p);
    InHandsUpdate(s.pcs, t, next.1, p);
  }

  /** A step that touches no ring. */
  lemma {:induction false} OffRing(s: State, t: nat, s': State, p: Task -> bool)
    requires Inv(s) && t < |s.pcs| && Framed(s, t, s') && Shape(s') && s'.rings == s.rings
    requires t < |s.rings| ==> OwnOk(s.n, s.rings[t], s'.pcs[t])
    requires InGrab(s'.pcs[t]) ==> s'.pcs[t].GrabHead?
    requires Count(s'.enqueued, p) + Count(Held(s.pcs[t]), p) + Count(s.deque, p) + Count(s.returned, p)
          == Count(s.enqueued, p) + Count(Held(s'.pcs[t]), p) + Count(s'.deque, p) + Count(s'.returned, p)
    ensures Keeps(s, s', p)
  {
    LawfulKeepsInv(s, t, s');
    InHandsUpdate(s.pcs, t, s'.pcs[t], p);
  }

  /** Starting a call only takes a task in hand to enqueue, or begins a dequeue. */
  lemma {:induction false} IdleMoves(s: State, t: nat, c: Choice)
    requires Inv(s) && t < |s.pcs| && s.pcs[t].Idle?
    ensures var s' := Step(s, t, c);
      && Framed(s, t, s') && s'.rings == s.rings && s'.deque == s.deque && s'.returned == s.returned
      && s'.enqueued == s.enqueued + Held(s'.pcs[t]) && !InGrab(s'.pcs[t])
      && (t < |s.rings| ==> OwnOk(s.n, s.rings[t], s'.pcs[t]))
  {
  }

  lemma {:induction false} IdleKeeps(s: State, t: nat, c: Choice, p: Task -> bool)
    requires Inv(s) && t < |s.pcs| && s.pcs[t].Idle?
    ensures Keeps(s, Step(s, t, c), p)
  {
    var s' := Step(s, t, c);
    IdleMoves(s, t, c);
    CountAppend(s.enqueued, Held(s'.pcs[t]), p);
    OffRing(s, t, s', p);
  }

  lemma {:induction false} PushKeeps(s: State, t: nat, s': State, p: Task -> bool)
    requires Inv(s) && t < |s.pcs| && InGlobal(s.pcs[t])
    requires Framed(s, t, s') && Shape(s') && s'.rings == s.rings
    requires s'.deque == s.deque + Held(s.pcs[t]) && Held(s'.pcs[t]) == []
    requires s'.enqueued == s.enqueued && s'.returned == s.returned
    requires s'.pcs[t].GlobCount? || s'.pcs[t].CountJob? || s'.pcs[t].Idle?
    ensures Keeps(s, s', p)
  {
    CountAppend(s.deque, Held(s.pcs[t]), p);
    OffRing(s, t, s', p);
  }

  lemma {:induction false} GlobalKeeps(s: State, t: nat, c: Choice, p: Task -> bool)
    requires Inv(s) && t < |s.pcs| && InGlobal(s.pcs[t])
    ensures Keeps(s, Step(s, t, c), p)
  {
    PushKeeps(s, t, Step(s, t, c), p);
  }

  /** A step that only moves the program counter of a worker with empty hands and an empty ring. */
  lemma {:induction false} Quiet(s: State, t: nat, s': State, p: Task -> bool)
    requires Inv(s) && t < |s.rings| && OwnEmpty(s.pcs[t]) && Held(s.pcs[t]) == []
    requires Framed(s, t, s') && Shape(s') && s'.rings == s.rings && s'.deque == s.deque
    requires s'.enqueued == s.enqueued && s'.returned == s.returned
    requires InPoll(s'.pcs[t]) || InSleep(s'.pcs[t]) || s'.pcs[t].GrabHead?
    ensures Keeps(s, s', p)
  {
    assert OwnOk(s.n, s.rings[t], s.pcs[t]);
    OffRing(s, t, s', p);
  }

  lemma {:induction false} PopKeeps(s: State, t: nat, s': State, p: Task -> bool)
    requires Inv(s) && t < |s.rings| && s.pcs[t].PopGlobal? && s.deque != []
    requires Framed(s, t, s') && Shape(s') && s'.rings == s.rings && s'.deque == s.deque[1..]
    requires s'.enqueued == s.enqueued && s'.returned == s.returned && s'.pcs[t] == Exit(s.deque[0])
    ensures Keeps(s, s', p)
  {
    OffRing(s, t, s', p);
  }

  /** The polling loop only moves the program counter, unless it pops the global queue. */
  lemma {:induction false} PollMoves(s: State, t: nat, c: Choice)
    requires Shape(s) && t < |s.pcs| && InPoll(s.pcs[t]) && !(s.pcs[t].PopGlobal? && s.deque != [])
    ensures var s' := StepPoll(s, t, c);
      && (InPoll(s'.pcs[t]) || s'.pcs[t].Doze? || s'.pcs[t].GrabHead?)
      && s' == s.(pcs := s'.pcs)
  {
  }

  lemma {:induction false} PollKeeps(s: State, t: nat, c: Choice, p: Task -> bool)
    requires Inv(s) && t < |s.rings| && InPoll(s.pcs[t]) && Shape(StepPoll(s, t, c))
    ensures Keeps(s, StepPoll(s, t, c), p)
  {
    if s.pcs[t].PopGlobal? && s.deque != [] {
      PopKeeps(s, t, StepPoll(s, t, c), p);
    } else {
      PollMoves(s, t, c);
      Quiet(s, t, StepPoll(s, t, c), p);
    }
  }

  /** Falling asleep and waking up only move the program counter and the sleeper counter. */
  lemma {:induction false} SleepMoves(s: State, t: nat)
    requires Shape(s) && t < |s.pcs| && InSleep(s.pcs[t])
    ensures var s' := StepSleep(s, t);
      && (InPoll(s'.pcs[t]) || InSleep(s'.pcs[t]))
      && s' == s.(pcs := s'.pcs, sleepers := s'.sleepers)
      && (s.pcs[t].SleepEnter? || s.pcs[t].SleepLeave? ||
          (s'.sleepers == s.sleepers && Asleep(s'.pcs[t]) == Asleep(s.pcs[t]) && !s'.pcs[t].WaitUntimed?))
  {
  }

  lemma {:induction false} SleepKeeps(s: State, t: nat, p: Task -> bool)
    requires Inv(s) && t < |s.rings| && InSleep(s.pcs[t]) && Shape(StepSleep(s, t))
    ensures Keeps(s, StepSleep(s, t), p)
  {
    SleepMoves(s, t);
    Quiet(s, t, StepSleep(s, t), p);
  }

  lemma {:induction false} ExitKeeps(s: State, t: nat, c: Choice, p: Task -> bool)
    requires Inv(s) && t < |s.pcs| && s.pcs[t].Exit?
    ensures Keeps(s, Step(s, t, c), p)
  {
    CountAppend(s.returned, Held(s.pcs[t]), p);
    OffRing(s, t, Step(s, t, c), p);
  }

  lemma {:induction false} EnqueueKeeps(s: State, t: nat, c: Choice, p: Task -> bool)
    requires Inv(s) && t < |s.rings| && InEnqueue(s.pcs[t])
    ensures Keeps(s, Step(s, t, c), p)
  {
    assert Shape(Step(s, t, c));
    EnqueueOk(s.n, s.rings[t], s.pcs[t], p);
    OwnApply(s, t, EnqueueOn(s.n, s.rings[t], s.pcs[t]), p);
  }

  lemma {:induction false} LocalKeeps(s: State, t: nat, c: Choice, p: Task -> bool)
    requires Inv(s) && t < |s.rings| && InLocal(s.pcs[t])
    ensures Keeps(s, Step(s, t, c), p)
  {
    assert Shape(Step(s, t, c));
    DequeueOk(s.n, s.rings[t], s.pcs[t], p);
    OwnApply(s, t, DequeueOn(s.n, s.rings[t], s.pcs[t]), p);
  }

  lemma {:induction false} GrabKeeps(s: State, t: nat, c: Choice, p: Task -> bool)
    requires Inv(s) && t < |s.rings| && InGrab(s.pcs[t]) && !Stale(s, t)
    ensures Keeps(s, Step(s, t, c), p)
  {
    assert Shape(Step(s, t, c));
    var r := s.rings[s.pcs[t].v];
    GrabOnOk(s.n, r, s.pcs[t], p);
    ThiefApply(s, t, GrabOn(s.n, r, s.pcs[t]), p);
  }

  lemma {:induction false} ShareKeeps(s: State, t: nat, c: Choice, p: Task -> bool)
    requires Inv(s) && t < |s.rings| && InShare(s.pcs[t])
    ensures Keeps(s, Step(s, t, c), p)
  {
    assert Shape(Step(s, t, c));
    ShareOk(s.n, s.rings[t], s.pcs[t], p);
    OwnApply(s, t, ShareOn(s.n, s.rings[t], s.pcs[t]), p);
  }

  /** Thread t is about to take a batch that is not what the victim has queued. */
  predicate Stale(s: State, t: nat)
    requires Shape(s) && t < |s.pcs|
  {
    Swaps(s, t) && !Current(s.rings[s.pcs[t].v], s.pcs[t].temp)
  }

  /** A thread that swaps the very head it read takes what is queued. */
  lemma {:induction false} UnlappedIsNotStale(s: State, t: nat)
    requires Inv(s) && t < |s.pcs| && Unlapped(s, t)
    ensures !Stale(s, t)
  {
    if Swaps(s, t) {
      var pc := s.pcs[t];
      assert GrabOk(s.n, s.rings[pc.v], pc);
      FreshIsCurrent(s.rings[pc.v], pc.temp);
    }
  }

  /** One step of any thread keeps the invariant and every task, unless it takes a stale batch. */
  lemma {:induction false} StepKeeps(s: State, t: nat, c: Choice, p: Task -> bool)
    requires Inv(s) && t < |s.pcs| && !Stale(s, t)
    ensures Keeps(s, Step(s, t, c), p)
  {
    var pc := s.pcs[t];
    assert PcShape(|s.rings|, s.workers, t, pc);
    if pc.Idle? { IdleKeeps(s, t, c, p); }
    else if InEnqueue(pc) { EnqueueKeeps(s, t, c, p); }
    else if InGlobal(pc) { GlobalKeeps(s, t, c, p); }
    else if InLocal(pc) { LocalKeeps(s, t, c, p); }
    else if InPoll(pc) {
      assert Step(s, t, c) == StepPoll(s, t, c);
      PollKeeps(s, t, c, p);
    }
    else if InGrab(pc) { GrabKeeps(s, t, c, p); }
    else if InShare(pc) { ShareKeeps(s, t, c, p); }
    else if InSleep(pc) {
      assert Step(s, t, c) == StepSleep(s, t);
      SleepKeeps(s, t, p);
    }
    else { ExitKeeps(s, t, c, p); }
  }

  // ---- Whole runs ----

  lemma {:induction false} RunKeeps(s: State, sched: Schedule, p: Task -> bool)
    requires Inv(s) && Balanced(s, p) && NeverLapped(s, sched)
    ensures Inv(Run(s, sched)) && Balanced(Run(s, sched), p)
    decreases |sched|
  {
    if sched == [] {
    } else {
      var (t, c) := sched[0];
      if t < |s.pcs| {
        UnlappedIsNotStale(s, t);
        StepKeeps(s, t, c, p);
        RunKeeps(Step(s, t, c), sched[1..], p);
      } else {
        RunKeeps(s, sched[1..], p);
      }
    }
  }

  lemma {:induction false} InitOk(s: State, p: Task -> bool)
    requires Init(s)
    ensures Inv(s) && Balanced(s, p)
  {
    SumZero(PerRing(s.rings, p));
    SumZero(PerThread(s.pcs, p));
  }

  lemma {:induction false} RunBalanced(s0: State, sched: Schedule, p: Task -> bool)
    requires Init(s0) && NeverLapped(s0, sched)
    ensures Balanced(Run(s0, sched), p)
  {
    InitOk(s0, p);
    RunKeeps(s0, sched, p);
  }

  /**
   * In every interleaving, each task was enqueued exactly as often as it is in a ring, in a thread's
   * hands, in the global queue, or returned: none is lost, none is returned twice.
   */
  lemma {:induction false} NoTaskLostOrDuplicated(s0: State, sched: Schedule, x: Task)
    requires Init(s0) && NeverLapped(s0, sched)
    ensures var s := Run(s0, sched);
      && multiset(s.enqueued)[x]
         == InRings(s.rings, Is(x)) + InHands(s.pcs, Is(x))
            + multiset(s.deque)[x] + multiset(s.returned)[x]
      && multiset(s.returned)[x] <= multiset(s.enqueued)[x]
  {
    var s := Run(s0, sched);
    RunBalanced(s0, sched, Is(x));
    CountEqual(s.enqueued, x);
    CountEqual(s.deque, x);
    CountEqual(s.returned, x);
  }

  lemma {:induction false} Reachable(s0: State, sched: Schedule)
    requires Init(s0) && NeverLapped(s0, sched)
    ensures Inv(Run(s0, sched))
  {
    InitOk(s0, Any());
    RunKeeps(s0, sched, Any());
  }

  lemma {:induction false} SwapIsCurrent(s: State, t: nat)
    requires Inv(s) && t < |s.pcs| && Swaps(s, t) && Unlapped(s, t)
    ensures var r := s.rings[s.pcs[t].v];
      && |s.pcs[t].temp| <= r.tail - r.head && |s.pcs[t].temp| <= s.n / 2
      && forall k :: 0 <= k < |s.pcs[t].temp| ==> s.pcs[t].temp[k] == At(r, r.head + k)
  {
    assert GrabOk(s.n, s.rings[s.pcs[t].v], s.pcs[t]);
  }

  /**
   * A steal that is about to succeed holds exactly the victim's oldest tasks: no slot copied before
   * the compare-and-swap is stale, and the m tasks it claims are really queued.
   */
  lemma {:induction false} StolenBatchIsCurrent(s0: State, sched: Schedule, t: nat)
    requires Init(s0) && NeverLapped(s0, sched)
    requires var s := Run(s0, sched); t < |s.pcs| && Swaps(s, t) && Unlapped(s, t)
    ensures var s := Run(s0, sched); var r := s.rings[s.pcs[t].v];
      && |s.pcs[t].temp| <= r.tail - r.head && |s.pcs[t].temp| <= s.n / 2
      && forall k :: 0 <= k < |s.pcs[t].temp| ==> s.pcs[t].temp[k] == At(r, r.head + k)
  {
    Reachable(s0, sched);
    SwapIsCurrent(Run(s0, sched), t);
  }

  lemma {:induction false} RingNumbers(s: State, t: nat)
    requires Inv(s) && t < |s.rings|
    ensures var r := s.rings[t]; var pc := s.pcs[t];
      && 0 <= r.tail - r.head <= s.n && Sub32(r.tail, r.head) == r.tail - r.head
      && (pc.EnqCopy? ==> |pc.temp| <= s.n / 2)
      && (pc.EnqSpill? ==> |pc.batch| == s.n / 2 + 1)
      && (pc.GrabCopy? ==> |pc.temp| <= s.n / 2)
      && (pc.ShareTail? ==> Word(Sub32(r.tail, pc.h) + |pc.rest|) < s.n)
  {
    var r, pc := s.rings[t], s.pcs[t];
    assert RingOk(s.n, r) && OwnOk(s.n, r, pc);
    SubIsDistance(r.tail, r.head);
    if pc.GrabCopy? { assert GrabOk(s.n, s.rings[pc.v], pc); }
  }

  /**
   * Across every wrap-around: a ring never holds more than n tasks and the words tell their number
   * exactly; temporary arrays are never overrun; the assertion of a steal never fires.
   */
  lemma {:induction false} RingArithmetic(s0: State, sched: Schedule, t: nat)
    requires Init(s0) && NeverLapped(s0, sched) && t < |Run(s0, sched).rings|
    ensures var s := Run(s0, sched); var r := s.rings[t]; var pc := s.pcs[t];
      && 0 <= r.tail - r.head <= s.n && Sub32(r.tail, r.head) == r.tail - r.head
      && (pc.EnqCopy? ==> |pc.temp| <= s.n / 2)
      && (pc.EnqSpill? ==> |pc.batch| == s.n / 2 + 1)
      && (pc.GrabCopy? ==> |pc.temp| <= s.n / 2)
      && (pc.ShareTail? ==> Word(Sub32(r.tail, pc.h) + |pc.rest|) < s.n)
  {
    Reachable(s0, sched);
    RingNumbers(Run(s0, sched), t);
  }

  lemma {:induction false} OwnRingEmpty(s: State, t: nat)
    requires Inv(s) && t < |s.rings| && OwnEmpty(s.pcs[t])
    ensures s.rings[t].head == s.rings[t].tail
  {
    assert OwnOk(s.n, s.rings[t], s.pcs[t]);
  }

  /** A worker that falls through to the polling loop, steals or sleeps has an empty ring of its own. */
  lemma {:induction false} PollingWorkerIsEmpty(s0: State, sched: Schedule, t: nat)
    requires Init(s0) && NeverLapped(s0, sched)
    requires t < |Run(s0, sched).rings| && OwnEmpty(Run(s0, sched).pcs[t])
    ensures var r := Run(s0, sched).rings[t]; r.head == r.tail
  {
    Reachable(s0, sched);
    OwnRingEmpty(Run(s0, sched), t);
  }
}
