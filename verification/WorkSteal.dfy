/**
 * The work-stealing scheduler as a step machine: one step per atomic load, store, compare-and-swap,
 * slot copy or critical section. Counters are unbounded; every test the program makes goes through
 * their 32-bit words.
 */
module WorkSteal {

  import opened Words
  import opened TaskRing

  datatype Pc =
    | Idle
    // enqueue on the own ring
    | EnqHead(task: Task)
    | EnqTail(task: Task, h: nat)
    | EnqWrite(task: Task, tl: nat)
    | EnqStore(task: Task, tl: nat)
    | EnqCopy(task: Task, h: nat, tl: nat, temp: seq<Task>)
    | EnqSpill(batch: seq<Task>)
    // enqueue on the global queue
    | GlobPush(task: Task)
    | GlobCount
    | CountJob
    // dequeue: the own ring
    | DeqHead
    | DeqTail(h: nat)
    | DeqRead(h: nat)
    | DeqCas(h: nat, task: Task)
    // dequeue: the polling loop
    | PollJobs
    | PollGlobal
    | PopGlobal
    | PickVictim(tries: nat)
    // stealing: grab from the victim, keep the last task, queue the rest
    | GrabHead(tries: nat, v: nat)
    | GrabTail(tries: nat, v: nat, h: nat)
    | GrabCopy(tries: nat, v: nat, h: nat, m: nat, temp: seq<Task>)
    | ShareHead(task: Task, rest: seq<Task>)
    | ShareTail(task: Task, rest: seq<Task>, h: nat)
    | ShareWrite(task: Task, rest: seq<Task>, tl: nat, k: nat)
    | Exit(task: Task)
    // sleeping
    | Doze
    | DozeCheck(busy: nat)
    | SleepEnter
    | WaitUntimed
    | SleepLast
    | WaitTimed
    | SleepLeave

  /**
   * `pcs[t]` is thread t: workers come first, then helpers, then threads without a ring.
   * `enqueued` and `returned` record every task handed to, and returned by, the scheduler.
   */
  datatype State = State(
    n: nat, workers: nat,
    rings: seq<Ring>, pcs: seq<Pc>,
    deque: seq<Task>, gnum: nat, jobs: nat, sleepers: nat,
    enqueued: seq<Task>, returned: seq<Task>)

  /** What a thread may freely choose; every other step is `Go`. */
  datatype Choice = Enqueue(x: Task) | EnqueueGlobal(y: Task) | Dequeue | Victim(who: nat) | Go

  predicate InEnqueue(pc: Pc) {
    pc.EnqHead? || pc.EnqTail? || pc.EnqWrite? || pc.EnqStore? || pc.EnqCopy?
  }

  predicate InGlobal(pc: Pc) {
    pc.EnqSpill? || pc.GlobPush? || pc.GlobCount? || pc.CountJob?
  }

  predicate InLocal(pc: Pc) {
    pc.DeqHead? || pc.DeqTail? || pc.DeqRead? || pc.DeqCas?
  }

  predicate InPoll(pc: Pc) {
    pc.PollJobs? || pc.PollGlobal? || pc.PopGlobal? || pc.PickVictim?
  }

  predicate InGrab(pc: Pc) {
    pc.GrabHead? || pc.GrabTail? || pc.GrabCopy?
  }

  predicate InShare(pc: Pc) {
    pc.ShareHead? || pc.ShareTail? || pc.ShareWrite?
  }

  predicate Asleep(pc: Pc) {
    pc.WaitUntimed? || pc.SleepLast? || pc.WaitTimed? || pc.SleepLeave?
  }

  predicate InSleep(pc: Pc) {
    pc.Doze? || pc.DozeCheck? || pc.SleepEnter? || Asleep(pc)
  }

  /** Sizes and indices; holds of every state the machine can be in, lapped or not. */
  predicate Shape(s: State) {
    && Capacity(s.n)
    && 0 < s.workers <= |s.rings| <= |s.pcs|
    && |s.rings| < W32
    && (forall i :: 0 <= i < |s.rings| ==> |s.rings[i].content| == s.n)
    && (forall t :: 0 <= t < |s.pcs| ==> PcShape(|s.rings|, s.workers, t, s.pcs[t]))
  }

  predicate PcShape(rings: nat, workers: nat, t: nat, pc: Pc) {
    && (!pc.Idle? && !InGlobal(pc) ==> t < rings)
    && (!pc.Idle? && !InGlobal(pc) && !InEnqueue(pc) ==> t < workers)
    && (InGrab(pc) ==> pc.v < rings && pc.v != t)
    && (pc.GrabCopy? ==> 0 < pc.m && |pc.temp| <= pc.m)
    && (pc.ShareWrite? ==> pc.k <= |pc.rest|)
  }

  /** A step of thread t changes only its own program counter, ring slots and counters. */
  predicate Framed(s: State, t: nat, s': State)
    requires t < |s.pcs|
  {
    && s'.n == s.n && s'.workers == s.workers
    && |s'.pcs| == |s.pcs| && s'.pcs == s.pcs[t := s'.pcs[t]] && PcShape(|s.rings|, s.workers, t, s'.pcs[t])
    && |s'.rings| == |s.rings|
    && forall i :: 0 <= i < |s.rings| ==> |s'.rings[i].content| == |s.rings[i].content|
  }

  function Move(s: State, t: nat, pc: Pc): State
    requires t < |s.pcs|
  {
    s.(pcs := s.pcs[t := pc])
  }

  /** The program counter pc' may follow pc, whichever thread runs it. */
  predicate Continues(pc: Pc, pc': Pc) {
    && (InEnqueue(pc') || InGlobal(pc') || (!InEnqueue(pc) && !InGlobal(pc)))
    && (InGrab(pc') ==> InGrab(pc) && pc'.v == pc.v)
    && (pc'.GrabCopy? ==> 0 < pc'.m && |pc'.temp| <= pc'.m)
    && (pc'.ShareWrite? ==> pc'.k <= |pc'.rest|)
  }

  /** Thread t acts on ring i. */
  function Apply(s: State, t: nat, i: nat, next: (Ring, Pc)): (s': State)
    requires Shape(s) && t < |s.pcs| && i < |s.rings| && |next.0.content| == s.n
    requires !s.pcs[t].Idle? && !InGlobal(s.pcs[t]) && Continues(s.pcs[t], next.1)
    ensures Framed(s, t, s')
  {
    s.(rings := s.rings[i := next.0], pcs := s.pcs[t := next.1])
  }

  function StepIdle(s: State, t: nat, c: Choice): (s': State)
    requires Shape(s) && t < |s.pcs| && s.pcs[t].Idle?
    ensures Framed(s, t, s')
  {
    match c
    case Enqueue(x) =>
      if t < |s.rings| then Move(s, t, EnqHead(x)).(enqueued := s.enqueued + [x]) else s
    case EnqueueGlobal(x) => Move(s, t, GlobPush(x)).(enqueued := s.enqueued + [x])
    case Dequeue => if t < s.workers then Move(s, t, DeqHead) else s
    case _ => s
  }

  /** `__enqueue` on the own ring r: append a task, or take half of a full ring for the global queue. */
  function EnqueueOn(n: nat, r: Ring, pc: Pc): (next: (Ring, Pc))
    requires InEnqueue(pc) && n > 0 && |r.content| == n
    ensures |next.0.content| == n && Continues(pc, next.1)
  {
    match pc
    case EnqHead(x) => (r, EnqTail(x, r.head))
    case EnqTail(x, h) =>
      (r, if Sub32(r.tail, h) < n then EnqWrite(x, r.tail) else EnqCopy(x, h, r.tail, []))
    case EnqWrite(x, tl) => (Store(r, Word(tl), x), EnqStore(x, tl))
    case EnqStore(x, tl) => (r.(tail := tl + 1), CountJob)
    case EnqCopy(x, h, tl, temp) =>
      var m := Sub32(tl, h) / 2;
      if |temp| < m then (r, EnqCopy(x, h, tl, temp + [Load(r, Word(Word(h) + |temp|))]))
      else if Word(r.head) == Word(h) then (r.(head := r.head + m), EnqSpill(temp + [x]))
      else (r, EnqHead(x))
    case _ => (r, pc)
  }

  /** The global queue: a spilled batch, `global_enqueue`, and the job count that ends every enqueue. */
  function StepGlobal(s: State, t: nat): (s': State)
    requires Shape(s) && t < |s.pcs| && InGlobal(s.pcs[t])
    ensures Framed(s, t, s')
  {
    match s.pcs[t]
    case EnqSpill(batch) =>
      Move(s, t, CountJob).(deque := s.deque + batch, gnum := (s.gnum + |batch|) % W64)
    case GlobPush(x) => Move(s, t, GlobCount).(deque := s.deque + [x])
    case GlobCount => Move(s, t, CountJob).(gnum := (s.gnum + 1) % W64)
    case CountJob => Move(s, t, Idle).(jobs := Word(s.jobs + 1))
    case _ => s
  }

  /** `__dequeue` on the own ring r. */
  function DequeueOn(n: nat, r: Ring, pc: Pc): (next: (Ring, Pc))
    requires InLocal(pc) && n > 0 && |r.content| == n
    ensures |next.0.content| == n && Continues(pc, next.1)
  {
    match pc
    case DeqHead => (r, DeqTail(r.head))
    case DeqTail(h) => (r, if Word(h) == Word(r.tail) then PollJobs else DeqRead(h))
    case DeqRead(h) => (r, DeqCas(h, Load(r, Word(h))))
    case DeqCas(h, x) =>
      if Word(r.head) == Word(h) then (r.(head := r.head + 1), Exit(x)) else (r, DeqHead)
    case _ => (r, pc)
  }

  /** The polling loop of a worker whose ring is empty. */
  function StepPoll(s: State, t: nat, c: Choice): (s': State)
    requires Shape(s) && t < |s.pcs| && InPoll(s.pcs[t])
    ensures Framed(s, t, s')
  {
    match s.pcs[t]
    case PollJobs => if s.jobs > 0 then Move(s, t, PollGlobal) else Move(s, t, Doze)
    case PollGlobal => if s.gnum == 0 then AfterGlobal(s, t) else Move(s, t, PopGlobal)
    case PopGlobal =>
      if s.deque == [] then AfterGlobal(s, t)
      else Move(s, t, Exit(s.deque[0])).(deque := s.deque[1..], gnum := (s.gnum - 1) % W64)
    case PickVictim(i) =>
      if i + 1 >= |s.rings| then Move(s, t, Doze)
      else if c.Victim? && c.who < |s.rings| && c.who != t then Move(s, t, GrabHead(i, c.who))
      else s
    case _ => s
  }

  function AfterGlobal(s: State, t: nat): (s': State)
    requires Shape(s) && t < |s.pcs| && InPoll(s.pcs[t])
    ensures Framed(s, t, s')
  {
    if |s.rings| == 1 then Move(s, t, PollJobs) else Move(s, t, PickVictim(0))
  }

  /** `__grab` on the victim's ring r. */
  function GrabOn(n: nat, r: Ring, pc: Pc): (next: (Ring, Pc))
    requires InGrab(pc) && n > 0 && |r.content| == n
    requires pc.GrabCopy? ==> 0 < pc.m && |pc.temp| <= pc.m
    ensures |next.0.content| == n && Continues(pc, next.1)
  {
    match pc
    case GrabHead(i, v) => (r, GrabTail(i, v, r.head))
    case GrabTail(i, v, h) =>
      var m := Half(r.tail, h);
      (r, if m == 0 then PickVictim(i + 1)
          else if m > n / 2 then GrabHead(i, v)
          else GrabCopy(i, v, h, m, []))
    case GrabCopy(i, v, h, m, temp) =>
      if |temp| < m then (r, GrabCopy(i, v, h, m, temp + [Load(r, Word(Word(h) + |temp|))]))
      else if Word(r.head) == Word(h) then
        (r.(head := r.head + m), if m == 1 then Exit(temp[0]) else ShareHead(temp[m - 1], temp[..m - 1]))
      else (r, GrabHead(i, v))
    case _ => (r, pc)
  }

  /** `__steal`: the rest of the stolen batch goes to the thief's own ring r. */
  function ShareOn(n: nat, r: Ring, pc: Pc): (next: (Ring, Pc))
    requires InShare(pc) && n > 0 && |r.content| == n
    requires pc.ShareWrite? ==> pc.k <= |pc.rest|
    ensures |next.0.content| == n && Continues(pc, next.1)
  {
    match pc
    case ShareHead(x, rest) => (r, ShareTail(x, rest, r.head))
    case ShareTail(x, rest, h) => (r, ShareWrite(x, rest, r.tail, 0))
    case ShareWrite(x, rest, tl, k) =>
      if k < |rest| then (Store(r, Word(Word(tl) + k), rest[k]), ShareWrite(x, rest, tl, k + 1))
      else (r.(tail := tl + k), Exit(x))
    case _ => (r, pc)
  }

  /** Falling asleep and waking up; a wait may end at any time, notified or not. */
  function StepSleep(s: State, t: nat): (s': State)
    requires Shape(s) && t < |s.pcs| && InSleep(s.pcs[t])
    ensures Framed(s, t, s')
  {
    match s.pcs[t]
    case Doze => Move(s, t, DozeCheck(Word(s.workers - s.sleepers)))
    case DozeCheck(busy) => if s.jobs > busy then Move(s, t, PollJobs) else Move(s, t, SleepEnter)
    case SleepEnter =>
      var now := Word(s.sleepers + 1);
      Move(s, t, if now < s.workers then WaitUntimed else SleepLast).(sleepers := now)
    case SleepLast => if s.jobs == 0 then Move(s, t, WaitTimed) else Move(s, t, SleepLeave)
    case WaitUntimed => Move(s, t, SleepLeave)
    case WaitTimed => Move(s, t, SleepLeave)
    case SleepLeave => Move(s, t, PollJobs).(sleepers := Word(s.sleepers - 1))
    case _ => s
  }

  /** The end of a dequeue: count the job as taken and hand it to the worker. */
  function StepExit(s: State, t: nat): (s': State)
    requires Shape(s) && t < |s.pcs| && s.pcs[t].Exit?
    ensures Framed(s, t, s')
  {
    Move(s, t, Idle).(jobs := Word(s.jobs - 1), returned := s.returned + [s.pcs[t].task])
  }

  /** One atomic step of thread t. */
  function Step(s: State, t: nat, c: Choice): (s': State)
    requires Shape(s) && t < |s.pcs|
    ensures Framed(s, t, s') && Shape(s')
  {
    var pc := s.pcs[t];
    assert PcShape(|s.rings|, s.workers, t, pc);
    if pc.Idle? then StepIdle(s, t, c)
    else if InEnqueue(pc) then Apply(s, t, t, EnqueueOn(s.n, s.rings[t], pc))
    else if InGlobal(pc) then StepGlobal(s, t)
    else if InLocal(pc) then Apply(s, t, t, DequeueOn(s.n, s.rings[t], pc))
    else if InPoll(pc) then StepPoll(s, t, c)
    else if InGrab(pc) then Apply(s, t, pc.v, GrabOn(s.n, s.rings[pc.v], pc))
    else if InShare(pc) then Apply(s, t, t, ShareOn(s.n, s.rings[t], pc))
    else if InSleep(pc) then StepSleep(s, t)
    else StepExit(s, t)
  }

  /** Any interleaving: who moves, and with which choice. */
  type Schedule = seq<(nat, Choice)>

  function Run(s: State, sched: Schedule): State
    requires Shape(s)
    ensures Shape(Run(s, sched))
    decreases |sched|
  {
    if sched == [] then s
    else if sched[0].0 < |s.pcs| then
      Run(Step(s, sched[0].0, sched[0].1), sched[1..])
    else Run(s, sched[1..])
  }

  /** All rings empty, every thread idle. */
  predicate Init(s: State) {
    && Shape(s)
    && (forall i :: 0 <= i < |s.rings| ==> s.rings[i].head == 0 && s.rings[i].tail == 0)
    && (forall t :: 0 <= t < |s.pcs| ==> s.pcs[t].Idle?)
    && s.deque == [] && s.gnum == 0 && s.jobs == 0 && s.sleepers == 0
    && s.enqueued == [] && s.returned == []
  }

  /** Thread t is about to swap a victim's head: all slots are copied and the words agree. */
  predicate Swaps(s: State, t: nat)
    requires Shape(s) && t < |s.pcs|
  {
    var pc := s.pcs[t];
    pc.GrabCopy? && |pc.temp| == pc.m && Word(s.rings[pc.v].head) == Word(pc.h)
  }

  /**
   * When thread t swaps a victim's head, it is the very head t read and not one 2^32 advances later.
   * No other compare-and-swap needs this: an owner's snapshot of its own ring cannot be lapped.
   */
  predicate Unlapped(s: State, t: nat)
    requires Shape(s) && t < |s.pcs|
  {
    Swaps(s, t) ==> s.rings[s.pcs[t].v].head == s.pcs[t].h
  }

  predicate NeverLapped(s: State, sched: Schedule)
    requires Shape(s)
    decreases |sched|
  {
    sched != [] ==>
      if sched[0].0 < |s.pcs| then
        Unlapped(s, sched[0].0) && NeverLapped(Step(s, sched[0].0, sched[0].1), sched[1..])
      else NeverLapped(s, sched[1..])
  }
}
