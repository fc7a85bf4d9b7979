/** Who is woken, in which order, and that nobody is forgotten. */
module DistLockOrder {

  import opened DistLock

  // ---- A watch event runs the retry ----

  /**
   * In every run a request that waits to retry is the first of its process's wait queue. So a watch
   * event in that process makes it try again, and nothing else happens to any request.
   */
  lemma {:induction false} WatchRunsTheRetry(s0: State, sched: seq<Choice>, r: nat)
    requires Init(s0) && r < |Run(s0, sched).reqs| && Run(s0, sched).reqs[r].st.QueuedRetry?
    ensures var s := Run(s0, sched); var p := s.reqs[r].proc;
      && p < |s.procs| && s.procs[p].waiting != [] && s.procs[p].waiting[0] == r
      && Step(s, Notify(p)).reqs == s.reqs[r := Request(p, ZkEnter)]
      && Step(s, Notify(p)).procs[p].waiting == s.procs[p].waiting[1..]
  {
    var s := Run(s0, sched);
    assert ReqOk(s, r);
    assert ProcOk(s, s.reqs[r].proc);
  }

  /** Without a watch event in its process a request that waits to retry stays where it is. */
  lemma {:induction false} StaysQueued(s: State, c: Choice, r: nat)
    requires Inv(s) && r < |s.reqs| && s.reqs[r].st.QueuedRetry? && c != Notify(s.reqs[r].proc)
    ensures r < |Step(s, c).reqs| && Step(s, c).reqs[r] == s.reqs[r]
  {
    assert ReqOk(s, r);
    match c {
      case Go(x) => {
        if x < |s.reqs| {
          assert ReqOk(s, x);
          if s.reqs[x].st.Cleared? {
            var q := s.reqs[x].proc;
            var s1 := Release(s, x, q);
            ReleaseKeeps(s, x);
            assert ProcOk(s1, q);
          }
        }
      }
      case List(_, _) => {}
      case Notify(q) => {
        if q < |s.procs| { assert ProcOk(s, q); }
      }
    }
  }

  /** Only a watch event in its process makes a request try again. */
  lemma {:induction false} RetryWaitsForAnEvent(s: State, sched: seq<Choice>, r: nat)
    requires Inv(s) && r < |s.reqs| && s.reqs[r].st.QueuedRetry? && Notify(s.reqs[r].proc) !in sched
    ensures r < |Run(s, sched).reqs| && Run(s, sched).reqs[r] == s.reqs[r]
    decreases |sched|
  {
    if sched == [] {
    } else {
      StaysQueued(s, sched[0], r);
      RetryWaitsForAnEvent(Step(s, sched[0]), sched[1..], r);
    }
  }

  lemma {:induction false} RunCons(s: State, c: Choice, sched: seq<Choice>)
    requires Inv(s)
    ensures Run(s, [c] + sched) == Run(Step(s, c), sched)
  {
    assert ([c] + sched)[1..] == sched;
  }

  /**
   * An event that comes after a request has listed the nodes and before it has queued its retry finds
   * nothing to run and is spent: whatever happens without a further event, the request sleeps.
   */
  lemma {:induction false} EarlyEventIsSpent(s: State, r: nat, sched: seq<Choice>)
    requires Inv(s) && r < |s.reqs| && s.reqs[r].st.ZkDecide? && s.reqs[r].proc < |s.procs|
    requires var q := s.procs[s.reqs[r].proc]; q.waiting == [] && q.path != s.reqs[r].st.least
    requires Notify(s.reqs[r].proc) !in sched
    ensures var s' := Run(s, [Notify(s.reqs[r].proc)] + ([Go(r)] + sched));
      r < |s'.reqs| && s'.reqs[r].st.QueuedRetry?
  {
    var p := s.reqs[r].proc;
    assert ReqOk(s, r) && ProcOk(s, p);
    RunCons(s, Notify(p), [Go(r)] + sched);
    assert Step(s, Notify(p)) == s;
    RunCons(s, Go(r), sched);
    var s1 := Step(s, Go(r));
    assert s1.reqs[r] == Request(p, QueuedRetry);
    RetryWaitsForAnEvent(s1, sched, r);
  }

  // ---- A run in which an event is spent ----

  /** Two processes with one request each. */
  const TWO := State([Process(false, [], NO_PATH, NOBODY), Process(false, [], NO_PATH, NOBODY)],
                     [Request(0, New), Request(1, New)], {}, 0)

  lemma {:induction false} RunSnoc(s: State, sched: seq<Choice>, c: Choice)
    requires Inv(s)
    ensures Run(s, sched + [c]) == Step(Run(s, sched), c)
    decreases |sched|
  {
    if sched == [] {
      assert sched + [c] == [c] && [c][1..] == [];
    } else {
      assert (sched + [c])[1..] == sched[1..] + [c];
      RunSnoc(Step(s, sched[0]), sched[1..], c);
    }
  }

  ghost predicate Reached(s: State) {
    Init(TWO) && Inv(s) && exists sched: seq<Choice> :: Run(TWO, sched) == s
  }

  /** One more step. */
  lemma {:induction false} Then(s: State, c: Choice, s': State)
    requires Reached(s) && Step(s, c) == s'
    ensures Reached(s')
  {
    var sched: seq<Choice> :| Run(TWO, sched) == s;
    RunSnoc(TWO, sched, c);
  }

  /** The state with these statuses, these paths and these live nodes. */
  function Stage(p: Process, q: Process, a: Status, b: Status, live: set<int>, next: nat): State {
    State([p, q], [Request(0, a), Request(1, b)], live, next)
  }

  const FREE := Process(false, [], NO_PATH, NOBODY)

  lemma {:induction false} Enters()
    ensures Reached(Stage(Process(true, [], NO_PATH, 0), FREE, ZkEnter, New, {}, 0))
  {
    assert Run(TWO, []) == TWO && Reached(TWO);
    var s := Stage(FREE, FREE, Acquiring, New, {}, 0);
    Then(TWO, Go(0), s);
    Then(s, Go(0), Stage(Process(true, [], NO_PATH, 0), FREE, ZkEnter, New, {}, 0));
  }

  lemma {:induction false} Creates()
    ensures Reached(Stage(Process(true, [], 0, 0), FREE, ZkList, New, {0}, 1))
  {
    Enters();
    var p := Process(true, [], NO_PATH, 0);
    var s := Stage(p, FREE, ZkCreated(0), New, {0}, 1);
    Then(Stage(p, FREE, ZkEnter, New, {}, 0), Go(0), s);
    Then(s, Go(0), Stage(Process(true, [], 0, 0), FREE, ZkList, New, {0}, 1));
  }

  /** The first process gets the lock. */
  lemma {:induction false} FirstGranted()
    ensures Reached(Stage(Process(true, [], 0, 0), FREE, Granted, New, {0}, 1))
  {
    Creates();
    var p := Process(true, [], 0, 0);
    var s := Stage(p, FREE, ZkDecide(0), New, {0}, 1);
    Then(Stage(p, FREE, ZkList, New, {0}, 1), List(0, 0), s);
    Then(s, Go(0), Stage(p, FREE, Granted, New, {0}, 1));
  }

  lemma {:induction false} SecondEnters()
    ensures Reached(Stage(Process(true, [], 0, 0), Process(true, [], NO_PATH, 1), Granted, ZkEnter, {0}, 1))
  {
    FirstGranted();
    var p := Process(true, [], 0, 0);
    var s := Stage(p, FREE, Granted, Acquiring, {0}, 1);
    Then(Stage(p, FREE, Granted, New, {0}, 1), Go(1), s);
    Then(s, Go(1), Stage(p, Process(true, [], NO_PATH, 1), Granted, ZkEnter, {0}, 1));
  }

  lemma {:induction false} SecondCreates()
    ensures Reached(Stage(Process(true, [], 0, 0), Process(true, [], 1, 1), Granted, ZkList, {0, 1}, 2))
  {
    SecondEnters();
    var p, q := Process(true, [], 0, 0), Process(true, [], NO_PATH, 1);
    var s := Stage(p, q, Granted, ZkCreated(1), {0, 1}, 2);
    Then(Stage(p, q, Granted, ZkEnter, {0}, 1), Go(1), s);
    Then(s, Go(1), Stage(p, Process(true, [], 1, 1), Granted, ZkList, {0, 1}, 2));
  }

  /** The second process has listed the nodes; then the first one unlocks. */
  lemma {:induction false} SecondListed()
    ensures Reached(Stage(Process(true, [], 0, 0), Process(true, [], 1, 1), Deleted, ZkDecide(0), {1}, 2))
  {
    SecondCreates();
    var p, q := Process(true, [], 0, 0), Process(true, [], 1, 1);
    var s := Stage(p, q, Granted, ZkDecide(0), {0, 1}, 2);
    Then(Stage(p, q, Granted, ZkList, {0, 1}, 2), List(1, 0), s);
    Then(s, Go(0), Stage(p, q, Deleted, ZkDecide(0), {1}, 2));
  }

  /** From s on the second request sleeps, although its node is the least one, unless an event comes. */
  ghost predicate Sleeper(s: State) {
    && Inv(s) && IsMin(s.live, 1)
    && forall after: seq<Choice> :: Notify(1) !in after ==>
         |Run(s, after).reqs| > 1 && Run(s, after).reqs[1].st.QueuedRetry?
  }

  lemma {:induction false} QueuedSleeps(s: State)
    requires Inv(s) && |s.reqs| == 2 && s.reqs[1] == Request(1, QueuedRetry) && s.live == {1}
    ensures Sleeper(s)
  {
    forall after: seq<Choice> | Notify(1) !in after
      ensures |Run(s, after).reqs| > 1 && Run(s, after).reqs[1].st.QueuedRetry?
    {
      RetryWaitsForAnEvent(s, after, 1);
    }
  }

  lemma {:induction false} EventThenQueue(s: State)
    requires Inv(s) && s == Stage(Process(true, [], 0, 0), Process(true, [], 1, 1), Deleted, ZkDecide(0), {1}, 2)
    ensures Step(s, Notify(1)) == s && Sleeper(Step(s, Go(1)))
  {
    QueuedSleeps(Step(s, Go(1)));
  }

  lemma {:induction false} TwoMore(s: State, sched: seq<Choice>, c: Choice, d: Choice)
    requires Inv(s)
    ensures Run(s, sched + [c, d]) == Step(Step(Run(s, sched), c), d)
  {
    RunSnoc(s, sched, c);
    RunSnoc(s, sched + [c], d);
    assert (sched + [c]) + [d] == sched + [c, d];
  }

  /**
   * There is a run from a start state in which the node of the second process has become the least one,
   * the event of the deletion comes, and the second request still sleeps whatever happens next, unless
   * its process gets another event.
   */
  lemma {:induction false} SpentEventLeavesASleeper()
    ensures exists sched: seq<Choice> ::
      Init(TWO) && Sleeper(Run(TWO, sched + [Notify(1), Go(1)]))
  {
    SecondListed();
    var s := Stage(Process(true, [], 0, 0), Process(true, [], 1, 1), Deleted, ZkDecide(0), {1}, 2);
    var sched: seq<Choice> :| Run(TWO, sched) == s;
    TwoMore(TWO, sched, Notify(1), Go(1));
    EventThenQueue(s);
  }

  // ---- Acquirers wait in order ----

  predicate Waits(s: State, p: nat, r: nat) {
    r < |s.reqs| && s.reqs[r].proc == p && s.reqs[r].st.QueuedAcquire?
  }

  /** The requests below n that wait in `acquire` of process p in state b but not in state a. */
  function Gained(a: State, b: State, p: nat, n: nat): seq<nat> {
    if n == 0 then []
    else Gained(a, b, p, n - 1) + if Waits(b, p, n - 1) && !Waits(a, p, n - 1) then [n - 1] else []
  }

  /** Requests that begin, or cease, to wait in `acquire` of process p from one state to the next. */
  function Begin(s: State, s': State, p: nat): seq<nat> {
    Gained(s, s', p, |s.reqs|)
  }

  function Cease(s: State, s': State, p: nat): seq<nat> {
    Gained(s', s, p, |s.reqs|)
  }

  function AllBegin(s: State, sched: seq<Choice>, p: nat): seq<nat>
    requires Inv(s)
    decreases |sched|
  {
    if sched == [] then []
    else Begin(s, Step(s, sched[0]), p) + AllBegin(Step(s, sched[0]), sched[1..], p)
  }

  function AllCease(s: State, sched: seq<Choice>, p: nat): seq<nat>
    requires Inv(s)
    decreases |sched|
  {
    if sched == [] then []
    else Cease(s, Step(s, sched[0]), p) + AllCease(Step(s, sched[0]), sched[1..], p)
  }

  /** Whether the first in the wait queue is there to retry. */
  predicate RetryAhead(s: State, p: nat)
    requires p < |s.procs|
  {
    var w := s.procs[p].waiting;
    w != [] && w[0] < |s.reqs| && s.reqs[w[0]].st.QueuedRetry?
  }

  /** The acquirers in the wait queue: all of it, less a retry at its front. */
  function Acquirers(s: State, p: nat): seq<nat>
    requires p < |s.procs|
  {
    if RetryAhead(s, p) then s.procs[p].waiting[1..] else s.procs[p].waiting
  }

  lemma {:induction false} GainedNone(a: State, b: State, p: nat, n: nat)
    requires forall r :: 0 <= r < n && Waits(b, p, r) ==> Waits(a, p, r)
    ensures Gained(a, b, p, n) == []
  {
    if n == 0 {
    } else {
      GainedNone(a, b, p, n - 1);
    }
  }

  lemma {:induction false} GainedOne(a: State, b: State, p: nat, n: nat, x: nat)
    requires x < n && Waits(b, p, x) && !Waits(a, p, x)
    requires forall r :: 0 <= r < n && r != x && Waits(b, p, r) ==> Waits(a, p, r)
    ensures Gained(a, b, p, n) == [x]
  {
    if n - 1 == x {
      GainedNone(a, b, p, x);
    } else {
      GainedOne(a, b, p, n - 1, x);
    }
  }

  /** Only request x begins or ceases to wait, if anybody does. */
  lemma {:induction false} OneMoves(s: State, s': State, p: nat, x: nat)
    requires x < |s.reqs| == |s'.reqs|
    requires forall r :: 0 <= r < |s.reqs| && r != x ==> s'.reqs[r] == s.reqs[r]
    ensures Begin(s, s', p) == (if Waits(s', p, x) && !Waits(s, p, x) then [x] else [])
    ensures Cease(s, s', p) == (if Waits(s, p, x) && !Waits(s', p, x) then [x] else [])
  {
    if Waits(s', p, x) && !Waits(s, p, x) {
      GainedOne(s, s', p, |s.reqs|, x);
    } else {
      GainedNone(s, s', p, |s.reqs|);
    }
    if Waits(s, p, x) && !Waits(s', p, x) {
      GainedOne(s', s, p, |s.reqs|, x);
    } else {
      GainedNone(s', s, p, |s.reqs|);
    }
  }

  /** One step lets acquirers of process p join at the back and leave at the front. */
  predicate Orderly(s: State, s': State, p: nat)
    requires p < |s.procs| == |s'.procs|
  {
    Acquirers(s, p) + Begin(s, s', p) == Cease(s, s', p) + Acquirers(s', p)
  }

  /** Request x of process q moves, and the wait queue of q with it. */
  predicate Moves(s: State, s': State, q: nat, x: nat)
    requires Inv(s)
  {
    && x < |s.reqs| == |s'.reqs| && q < |s.procs| == |s'.procs| && s.reqs[x].proc == q
    && s'.reqs == s.reqs[x := Request(q, s'.reqs[x].st)]
    && (forall p :: 0 <= p < |s.procs| && p != q ==> s'.procs[p] == s.procs[p])
    && var st, st' := s.reqs[x].st, s'.reqs[x].st; var w, w' := s.procs[q].waiting, s'.procs[q].waiting;
       if Queued(st) == Queued(st') then w' == w && st.QueuedRetry? == st'.QueuedRetry? else EndMoves(w, x, w', st')
  }

  lemma {:induction false} AheadStays(s: State, s': State, q: nat, x: nat)
    requires Inv(s) && Moves(s, s', q, x) && !Queued(s.reqs[x].st)
    requires s'.procs[q].waiting == s.procs[q].waiting || s'.reqs[x].st.QueuedAcquire?
    ensures RetryAhead(s', q) == RetryAhead(s, q)
  {
    var w, w' := s.procs[q].waiting, s'.procs[q].waiting;
    assert ProcOk(s, q) && ReqOk(s, x);
    if w != [] {
      assert w[0] in w && w'[0] == w[0];
    } else if w' != [] {
      assert w'[0] == x;
    }
  }

  lemma {:induction false} LeaveOrderly(s: State, s': State, q: nat, x: nat)
    requires Inv(s) && Moves(s, s', q, x) && Queued(s.reqs[x].st) && !Queued(s'.reqs[x].st)
    ensures Orderly(s, s', q)
  {
    var w, w' := s.procs[q].waiting, s'.procs[q].waiting;
    assert ProcOk(s, q);
    OneMoves(s, s', q, x);
    assert w[0] == x && w' == w[1..];
    if w' != [] { assert w'[0] == w[1]; }
  }

  lemma {:induction false} JoinOrderly(s: State, s': State, q: nat, x: nat)
    requires Inv(s) && Moves(s, s', q, x) && !Queued(s.reqs[x].st) && s'.reqs[x].st.QueuedAcquire?
    ensures Orderly(s, s', q)
  {
    var w := s.procs[q].waiting;
    OneMoves(s, s', q, x);
    AheadStays(s, s', q, x);
    assert w != [] ==> (w + [x])[1..] == w[1..] + [x];
  }

  lemma {:induction false} RetryOrderly(s: State, s': State, q: nat, x: nat)
    requires Inv(s) && Moves(s, s', q, x) && Inside(s.reqs[x].st) && !Queued(s.reqs[x].st)
    requires s'.reqs[x].st.QueuedRetry?
    ensures Orderly(s, s', q)
  {
    var w, w' := s.procs[q].waiting, s'.procs[q].waiting;
    assert ProcOk(s, q) && ReqOk(s, x);
    if w != [] { assert w[0] in w && ReqOk(s, w[0]); }
    OneMoves(s, s', q, x);
    assert w'[0] == x && w'[1..] == w;
  }

  lemma {:induction false} StayOrderly(s: State, s': State, q: nat, x: nat)
    requires Inv(s) && Moves(s, s', q, x) && !Queued(s.reqs[x].st) && !Queued(s'.reqs[x].st)
    ensures Orderly(s, s', q)
  {
    OneMoves(s, s', q, x);
    AheadStays(s, s', q, x);
  }

  lemma {:induction false} OthersOrderly(s: State, s': State, q: nat, x: nat, p: nat)
    requires Inv(s) && Moves(s, s', q, x) && p < |s.procs| && p != q
    ensures Orderly(s, s', p)
  {
    var w := s.procs[p].waiting;
    assert ProcOk(s, p);
    OneMoves(s, s', p, x);
    if w != [] { assert s.reqs[w[0]].proc == p; }
  }

  lemma {:induction false} MoveOrderly(s: State, s': State, q: nat, x: nat, p: nat)
    requires Inv(s) && Moves(s, s', q, x) && p < |s.procs|
    requires !(Queued(s.reqs[x].st) && Queued(s'.reqs[x].st))
    requires s'.reqs[x].st.QueuedRetry? ==> Inside(s.reqs[x].st)
    ensures Orderly(s, s', p)
  {
    if p != q { OthersOrderly(s, s', q, x, p); }
    else if Queued(s.reqs[x].st) { LeaveOrderly(s, s', q, x); }
    else if s'.reqs[x].st.QueuedAcquire? { JoinOrderly(s, s', q, x); }
    else if s'.reqs[x].st.QueuedRetry? { RetryOrderly(s, s', q, x); }
    else { StayOrderly(s, s', q, x); }
  }

  lemma {:induction false} RequestMoves(s: State, r: nat)
    requires Inv(s) && r < |s.reqs| && s.reqs[r].proc < |s.procs| && !s.reqs[r].st.Cleared?
    ensures Moves(s, StepRequest(s, r), s.reqs[r].proc, r)
    ensures Queued(s.reqs[r].st) ==> StepRequest(s, r) == s
    ensures StepRequest(s, r).reqs[r].st.QueuedRetry? ==> Inside(s.reqs[r].st)
  {
    assert s.reqs[r := Request(s.reqs[r].proc, s.reqs[r].st)] == s.reqs;
  }

  lemma {:induction false} ReleaseMoves(s: State, r: nat)
    requires Inv(s) && r < |s.reqs| && s.reqs[r].proc < |s.procs| && s.reqs[r].st.Cleared?
    ensures Moves(s, Release(s, r, s.reqs[r].proc), s.reqs[r].proc, r)
  {
  }

  lemma {:induction false} PopMoves(s: State, p: nat)
    requires Inv(s) && p < |s.procs| && ProcOk(s, p) && s.procs[p].waiting != []
    ensures Moves(s, Pop(s, p), p, s.procs[p].waiting[0])
    ensures var x := s.procs[p].waiting[0];
      Queued(s.reqs[x].st) && !Queued(Pop(s, p).reqs[x].st)
  {
    var w := s.procs[p].waiting;
    assert w[0] in w && ReqOk(s, w[0]);
    assert w == [w[0]] + w[1..];
  }

  lemma {:induction false} SameOrderly(s: State, p: nat)
    requires p < |s.procs|
    ensures Orderly(s, s, p)
  {
    GainedNone(s, s, p, |s.reqs|);
  }

  lemma {:induction false} PopOrderly(s: State, q: nat, p: nat)
    requires Inv(s) && q < |s.procs| && p < |s.procs| && ProcOk(s, q)
    ensures Orderly(s, Pop(s, q), p)
  {
    if s.procs[q].waiting == [] {
      SameOrderly(s, p);
    } else {
      PopMoves(s, q);
      MoveOrderly(s, Pop(s, q), q, s.procs[q].waiting[0], p);
    }
  }

  /** If the same requests wait in a and b, both compare alike with c. */
  lemma {:induction false} GainedSame(a: State, b: State, c: State, p: nat, n: nat)
    requires forall r :: 0 <= r < n ==> Waits(a, p, r) == Waits(b, p, r)
    ensures Gained(a, c, p, n) == Gained(b, c, p, n) && Gained(c, a, p, n) == Gained(c, b, p, n)
  {
    if n == 0 {
    } else {
      GainedSame(a, b, c, p, n - 1);
    }
  }

  lemma {:induction false} ReleaseOrderly(s: State, r: nat, p: nat)
    requires Inv(s) && r < |s.reqs| && p < |s.procs| && s.reqs[r].proc < |s.procs| && s.reqs[r].st.Cleared?
    ensures var q := s.reqs[r].proc; var s1 := Release(s, r, q);
      Inv(s1) && ProcOk(s1, q) && Orderly(s, Pop(s1, q), p)
  {
    var q := s.reqs[r].proc;
    var s1 := Release(s, r, q);
    ReleaseKeeps(s, r);
    PopKeeps(s1, q);
    PopOrderly(s1, q, p);
    GainedSame(s, s1, Pop(s1, q), p, |s.reqs|);
    assert ProcOk(s, p);
    if s.procs[p].waiting != [] {
      var x := s.procs[p].waiting[0];
      assert x in s.procs[p].waiting && ReqOk(s, x);
    }
  }

  lemma {:induction false} StepOrderly(s: State, c: Choice, p: nat)
    requires Inv(s) && p < |s.procs|
    ensures |Step(s, c).procs| == |s.procs| && Orderly(s, Step(s, c), p)
  {
    SameOrderly(s, p);
    match c {
      case Go(r) => {
        if r < |s.reqs| {
          assert ReqOk(s, r);
          if s.reqs[r].st.Cleared? {
            ReleaseOrderly(s, r, p);
          } else {
            RequestMoves(s, r);
            if !Queued(s.reqs[r].st) { MoveOrderly(s, StepRequest(s, r), s.reqs[r].proc, r, p); }
          }
        }
      }
      case List(r, least) => {
        if r < |s.reqs| && s.reqs[r].st.ZkList? && IsLeast(s.live, least) {
          assert ReqOk(s, r);
          MoveOrderly(s, Step(s, c), s.reqs[r].proc, r, p);
        }
      }
      case Notify(q) => {
        if q < |s.procs| {
          assert ProcOk(s, q);
          PopOrderly(s, q, p);
        }
      }
    }
  }

  lemma {:induction false} Chain(d: seq<nat>, a: seq<nat>, b: seq<nat>, d': seq<nat>,
                                 more: seq<nat>, out: seq<nat>, d'': seq<nat>)
    requires d + a == b + d' && d' + more == out + d''
    ensures d + (a + more) == (b + out) + d''
  {
    assert d + (a + more) == (d + a) + more;
    assert (b + d') + more == b + (d' + more);
    assert b + (out + d'') == (b + out) + d'';
  }

  lemma {:induction false} RunOrderly(s: State, sched: seq<Choice>, p: nat)
    requires Inv(s) && p < |s.procs|
    ensures |Run(s, sched).procs| == |s.procs|
    ensures Acquirers(s, p) + AllBegin(s, sched, p) == AllCease(s, sched, p) + Acquirers(Run(s, sched), p)
    decreases |sched|
  {
    if sched == [] {
    } else {
      var s' := Step(s, sched[0]);
      StepOrderly(s, sched[0], p);
      RunOrderly(s', sched[1..], p);
      Chain(Acquirers(s, p), Begin(s, s', p), Cease(s, s', p), Acquirers(s', p),
            AllBegin(s', sched[1..], p), AllCease(s', sched[1..], p), Acquirers(Run(s, sched), p));
    }
  }

  /**
   * In every run and process: the requests that began to wait for the local lock are, in order, those
   * that ceased to wait followed by those that still do. Nobody is overtaken in the queue.
   */
  lemma {:induction false} WaitersAreFifo(s0: State, sched: seq<Choice>, p: nat)
    requires Init(s0) && p < |s0.procs|
    ensures var s := Run(s0, sched);
      p < |s.procs| && AllBegin(s0, sched, p) == AllCease(s0, sched, p) + Acquirers(s, p)
  {
    RunOrderly(s0, sched, p);
    assert Acquirers(s0, p) == [];
    assert [] + AllBegin(s0, sched, p) == AllBegin(s0, sched, p);
  }
}
