/** From every reached state every waiting request can still be granted, if watch events arrive. */
module DistLockProgress {

  import opened Tally
  import opened DistLock
  import opened DistLockOrder

  // ---- No waiter sleeps at a free lock ----

  predicate SomeoneAcquires(s: State, p: nat) {
    exists r :: 0 <= r < |s.reqs| && s.reqs[r] == Request(p, Acquiring)
  }

  /** Where the local lock is free and requests wait, one of them has been woken. */
  predicate Awake(s: State) {
    forall p :: 0 <= p < |s.procs| && !s.procs[p].acquired && s.procs[p].waiting != [] ==> SomeoneAcquires(s, p)
  }

  /** A request that moves on its own does not leave the lock free behind it. */
  lemma {:induction false} RequestAwake(s: State, r: nat)
    requires Inv(s) && Awake(s) && r < |s.reqs| && s.reqs[r].proc < |s.procs| && !s.reqs[r].st.Cleared?
    ensures Awake(StepRequest(s, r))
  {
    var s', q := StepRequest(s, r), s.reqs[r].proc;
    assert ProcOk(s, q) && ReqOk(s, r);
    forall p | 0 <= p < |s'.procs| && !s'.procs[p].acquired && s'.procs[p].waiting != []
      ensures SomeoneAcquires(s', p)
    {
      assert !s.procs[p].acquired && s.procs[p].waiting != [];
      var x :| 0 <= x < |s.reqs| && s.reqs[x] == Request(p, Acquiring);
      assert x != r ==> s'.reqs[x] == s.reqs[x];
    }
  }

  lemma {:induction false} PopAwake(s: State, q: nat)
    requires Inv(s) && q < |s.procs| && ProcOk(s, q)
    requires forall p :: 0 <= p < |s.procs| && p != q && !s.procs[p].acquired && s.procs[p].waiting != [] ==>
               SomeoneAcquires(s, p)
    ensures Awake(Pop(s, q))
  {
    var s', w := Pop(s, q), s.procs[q].waiting;
    if w != [] {
      assert w[0] in w && ReqOk(s, w[0]);
      forall p | 0 <= p < |s'.procs| && !s'.procs[p].acquired && s'.procs[p].waiting != []
        ensures SomeoneAcquires(s', p)
      {
        if p == q {
          assert s'.reqs[w[0]] == Request(q, Acquiring);
        } else {
          var x :| 0 <= x < |s.reqs| && s.reqs[x] == Request(p, Acquiring);
          assert s'.reqs[x] == s.reqs[x];
        }
      }
    }
  }

  lemma {:induction false} StepAwake(s: State, c: Choice)
    requires Inv(s) && Awake(s)
    ensures Awake(Step(s, c))
  {
    match c {
      case Go(r) => {
        if r < |s.reqs| {
          assert ReqOk(s, r);
          var p := s.reqs[r].proc;
          if s.reqs[r].st.Cleared? {
            var s1 := Release(s, r, p);
            ReleaseKeeps(s, r);
            PopKeeps(s1, p);
            forall q | 0 <= q < |s1.procs| && q != p && !s1.procs[q].acquired && s1.procs[q].waiting != []
              ensures SomeoneAcquires(s1, q)
            {
              var x :| 0 <= x < |s.reqs| && s.reqs[x] == Request(q, Acquiring);
              assert s1.reqs[x] == s.reqs[x];
            }
            PopAwake(s1, p);
          } else {
            RequestAwake(s, r);
          }
        }
      }
      case List(r, least) => {
        if r < |s.reqs| && s.reqs[r].st.ZkList? && IsLeast(s.live, least) {
          var s' := Step(s, c);
          forall p | 0 <= p < |s'.procs| && !s'.procs[p].acquired && s'.procs[p].waiting != []
            ensures SomeoneAcquires(s', p)
          {
            var x :| 0 <= x < |s.reqs| && s.reqs[x] == Request(p, Acquiring);
            assert s'.reqs[x] == s.reqs[x];
          }
        }
      }
      case Notify(p) => {
        if p < |s.procs| {
          assert ProcOk(s, p);
          PopAwake(s, p);
        }
      }
    }
  }

  // ---- Every node belongs to a request inside ----

  predicate HasOwner(s: State, n: int) {
    exists p :: 0 <= p < |s.procs| && Node(s, p) == n
  }

  predicate Owned(s: State) {
    forall n :: n in s.live ==> HasOwner(s, n)
  }

  /** Only the node of process q changes, and with it the set of live nodes. */
  lemma {:induction false} NodeOwned(s: State, s': State, q: nat)
    requires Owned(s) && q < |s.procs| == |s'.procs|
    requires forall p :: 0 <= p < |s.procs| && p != q ==> Node(s', p) == Node(s, p)
    requires forall n :: n in s'.live ==> n == Node(s', q) || (n in s.live && n != Node(s, q))
    ensures Owned(s')
  {
    forall n | n in s'.live ensures HasOwner(s', n) {
      if n == Node(s', q) {
      } else {
        var p :| 0 <= p < |s.procs| && Node(s, p) == n;
        assert Node(s', p) == n;
      }
    }
  }

  /** The other processes keep their holders, and so their nodes. */
  lemma {:induction false} OtherNodes(s: State, s': State, q: nat, x: nat)
    requires Inv(s) && Moves(s, s', q, x)
    ensures forall p :: 0 <= p < |s.procs| && p != q ==> Node(s', p) == Node(s, p)
  {
    forall p | 0 <= p < |s.procs| && p != q ensures Node(s', p) == Node(s, p) {
      assert ProcOk(s, p);
    }
  }

  lemma {:induction false} RequestOwned(s: State, r: nat)
    requires Inv(s) && Owned(s) && r < |s.reqs| && s.reqs[r].proc < |s.procs| && !s.reqs[r].st.Cleared?
    ensures Owned(StepRequest(s, r))
  {
    var s', q := StepRequest(s, r), s.reqs[r].proc;
    assert ReqOk(s, r) && ProcOk(s, q);
    RequestMoves(s, r);
    OtherNodes(s, s', q, r);
    NodeOwned(s, s', q);
  }

  lemma {:induction false} PopOwned(s: State, q: nat)
    requires Inv(s) && Owned(s) && q < |s.procs| && ProcOk(s, q)
    ensures Owned(Pop(s, q))
  {
    if s.procs[q].waiting != [] {
      var x, s' := s.procs[q].waiting[0], Pop(s, q);
      PopMoves(s, q);
      OtherNodes(s, s', q, x);
      assert x in s.procs[q].waiting && ReqOk(s, x);
      NodeOwned(s, s', q);
    }
  }

  lemma {:induction false} StepOwned(s: State, c: Choice)
    requires Inv(s) && Owned(s)
    ensures Owned(Step(s, c))
  {
    match c {
      case Go(r) => {
        if r < |s.reqs| {
          assert ReqOk(s, r);
          var p := s.reqs[r].proc;
          if s.reqs[r].st.Cleared? {
            var s1 := Release(s, r, p);
            assert ProcOk(s, p);
            ReleaseKeeps(s, r);
            ReleaseMoves(s, r);
            OtherNodes(s, s1, p, r);
            NodeOwned(s, s1, p);
            PopKeeps(s1, p);
            PopOwned(s1, p);
          } else {
            RequestOwned(s, r);
          }
        }
      }
      case List(r, least) => {
        if r < |s.reqs| && s.reqs[r].st.ZkList? && IsLeast(s.live, least) {
          assert ReqOk(s, r) && ProcOk(s, s.reqs[r].proc);
          OtherNodes(s, Step(s, c), s.reqs[r].proc, r);
          NodeOwned(s, Step(s, c), s.reqs[r].proc);
        }
      }
      case Notify(p) => {
        if p < |s.procs| {
          assert ProcOk(s, p);
          PopOwned(s, p);
        }
      }
    }
  }

  // ---- How far a request has to go ----

  function PathOf(s: State, r: nat): int
    requires r < |s.reqs|
  {
    if s.reqs[r].proc < |s.procs| then s.procs[s.reqs[r].proc].path else NO_PATH
  }

  /** The steps before a request whose node is the least one, at most. */
  function Distance(path: int, st: Status): nat {
    match st
    case New => 14
    case Acquiring => 13
    case QueuedAcquire => 13
    case ZkEnter => if path == NO_PATH then 12 else 8
    case ZkCreated(_) => 11
    case ZkDecide(least) => if path == least then 6 else 10
    case QueuedRetry => 9
    case ZkList => 7
    case Granted => 5
    case Deleted => 4
    case Cleared => 3
    case Finished => 0
  }

  /** One if the request has yet to create its node. */
  function Yet(path: int, st: Status): nat {
    if st.New? || st.Acquiring? || st.QueuedAcquire? || (st.ZkEnter? && path == NO_PATH) then 1 else 0
  }

  function Distances(s: State): (ds: seq<int>)
    ensures |ds| == |s.reqs|
    ensures forall r :: 0 <= r < |s.reqs| ==> ds[r] == Distance(PathOf(s, r), s.reqs[r].st)
  {
    seq(|s.reqs|, r requires 0 <= r < |s.reqs| => Distance(PathOf(s, r), s.reqs[r].st))
  }

  function Yets(s: State): (ys: seq<int>)
    ensures |ys| == |s.reqs| && forall r :: 0 <= r < |s.reqs| ==> ys[r] == Yet(PathOf(s, r), s.reqs[r].st)
  {
    seq(|s.reqs|, r requires 0 <= r < |s.reqs| => Yet(PathOf(s, r), s.reqs[r].st))
  }

  function Total(s: State): nat {
    SumNat(Distances(s));
    Sum(Distances(s))
  }

  /** The sequence number after all requests have created their nodes. */
  function Final(s: State): int {
    s.next + Sum(Yets(s))
  }

  /** When request x moves, nobody else's distance changes. */
  lemma {:induction false} OnlyItsDistance(s: State, s': State, q: nat, x: nat)
    requires Inv(s) && Moves(s, s', q, x)
    requires s'.procs[q].path == s.procs[q].path || Inside(s.reqs[x].st)
    ensures Total(s') == Total(s) - Distances(s)[x] + Distances(s')[x]
    ensures Sum(Yets(s')) == Sum(Yets(s)) - Yets(s)[x] + Yets(s')[x]
  {
    forall r | 0 <= r < |s.reqs| && r != x
      ensures Distances(s')[r] == Distances(s)[r] && Yets(s')[r] == Yets(s)[r]
    {
      assert ReqOk(s, r) && ReqOk(s, x);
    }
    assert Distances(s') == Distances(s)[x := Distances(s')[x]];
    assert Yets(s') == Yets(s)[x := Yets(s')[x]];
    SumUpdate(Distances(s), x, Distances(s')[x]);
    SumUpdate(Yets(s), x, Yets(s')[x]);
  }

  lemma {:induction false} RequestFinal(s: State, r: nat)
    requires Inv(s) && r < |s.reqs| && s.reqs[r].proc < |s.procs| && !s.reqs[r].st.Cleared?
    ensures Final(StepRequest(s, r)) == Final(s)
  {
    var s', q := StepRequest(s, r), s.reqs[r].proc;
    assert ReqOk(s, r) && ProcOk(s, q);
    RequestMoves(s, r);
    OnlyItsDistance(s, s', q, r);
  }

  lemma {:induction false} PopFinal(s: State, q: nat)
    requires Inv(s) && q < |s.procs| && ProcOk(s, q)
    ensures Final(Pop(s, q)) == Final(s)
  {
    if s.procs[q].waiting != [] {
      var x := s.procs[q].waiting[0];
      assert x in s.procs[q].waiting && ReqOk(s, x);
      PopMoves(s, q);
      OnlyItsDistance(s, Pop(s, q), q, x);
    }
  }

  lemma {:induction false} StepFinal(s: State, c: Choice)
    requires Inv(s)
    ensures Final(Step(s, c)) == Final(s)
  {
    match c {
      case Go(r) => {
        if r < |s.reqs| {
          assert ReqOk(s, r);
          var p := s.reqs[r].proc;
          if s.reqs[r].st.Cleared? {
            var s1 := Release(s, r, p);
            ReleaseKeeps(s, r);
            ReleaseMoves(s, r);
            OnlyItsDistance(s, s1, p, r);
            PopKeeps(s1, p);
            PopFinal(s1, p);
          } else {
            RequestFinal(s, r);
          }
        }
      }
      case List(r, least) => {
        if r < |s.reqs| && s.reqs[r].st.ZkList? && IsLeast(s.live, least) {
          assert ReqOk(s, r);
          OnlyItsDistance(s, Step(s, c), s.reqs[r].proc, r);
        }
      }
      case Notify(p) => {
        if p < |s.procs| {
          assert ProcOk(s, p);
          PopFinal(s, p);
        }
      }
    }
  }

  // ---- Someone can always move ----

  predicate Good(s: State) {
    Inv(s) && Awake(s) && Owned(s) && Final(s) <= INT_MAX + 1
  }

  lemma {:induction false} StepGood(s: State, c: Choice)
    requires Good(s)
    ensures Good(Step(s, c))
  {
    StepAwake(s, c);
    StepOwned(s, c);
    StepFinal(s, c);
  }

  /** Not granted yet. */
  predicate Unserved(st: Status) {
    !st.Granted? && !st.Deleted? && !st.Cleared? && !st.Finished?
  }

  /** Step c brings some request closer, and r not past its grant. */
  predicate Closer(s: State, c: Choice, r: nat)
    requires Inv(s) && r < |s.reqs|
  {
    var s' := Step(s, c);
    Total(s') < Total(s) && |s'.reqs| == |s.reqs| && (Unserved(s'.reqs[r].st) || s'.reqs[r].st.Granted?)
  }

  lemma {:induction false} Least(live: set<int>, some: int) returns (n: int)
    requires some in live && forall m :: m in live ==> m >= 0
    ensures IsMin(live, n)
    decreases some
  {
    if m :| m in live && m < some {
      n := Least(live, m);
    } else {
      n := some;
    }
  }

  /** A move that brings x closer, and leaves r unserved or granted. */
  lemma {:induction false} MoveCloser(s: State, c: Choice, q: nat, x: nat, r: nat)
    requires Inv(s) && Moves(s, Step(s, c), q, x) && r < |s.reqs| && Unserved(s.reqs[r].st)
    requires Step(s, c).procs[q].path == s.procs[q].path || Inside(s.reqs[x].st)
    requires var s' := Step(s, c);
      && Distance(s'.procs[q].path, s'.reqs[x].st) < Distance(s.procs[q].path, s.reqs[x].st)
      && (Unserved(s.reqs[x].st) ==> Unserved(s'.reqs[x].st) || s'.reqs[x].st.Granted?)
    ensures Closer(s, c, r)
  {
    OnlyItsDistance(s, Step(s, c), q, x);
  }

  /** The holder of the least node moves on. */
  lemma {:induction false} LeastMoves(s: State, q: nat, h: nat, r: nat) returns (c: Choice)
    requires Good(s) && q < |s.procs| && h < |s.reqs| && s.procs[q].holder == h && IsMin(s.live, Node(s, q))
    requires r < |s.reqs| && Unserved(s.reqs[r].st)
    ensures Closer(s, c, r)
  {
    assert ProcOk(s, q) && ReqOk(s, h);
    var st, n := s.reqs[h].st, Node(s, q);
    SumNat(Yets(s));
    assert 0 <= n < s.next;
    if st.ZkList? {
      c := List(h, n);
    } else if st.QueuedRetry? {
      c := Notify(q);
      assert h in s.procs[q].waiting;
      PopMoves(s, q);
    } else {
      c := Go(h);
      RequestMoves(s, h);
    }
    MoveCloser(s, c, q, h, r);
  }

  /** Nothing is live: the process of r goes on towards a node, or finishes an unlock. */
  lemma {:induction false} EmptyMoves(s: State, r: nat) returns (c: Choice)
    requires Good(s) && (forall n :: n !in s.live) && r < |s.reqs| && Unserved(s.reqs[r].st)
    ensures Closer(s, c, r)
  {
    assert ReqOk(s, r);
    var p := s.reqs[r].proc;
    assert ProcOk(s, p);
    var h := s.procs[p].holder;
    if h == NOBODY {
      var x := r;
      if s.reqs[r].st.QueuedAcquire? {
        assert SomeoneAcquires(s, p);
        x :| 0 <= x < |s.reqs| && s.reqs[x] == Request(p, Acquiring);
      }
      c := Go(x);
      RequestMoves(s, x);
      MoveCloser(s, c, p, x, r);
    } else {
      c := Go(h);
      assert ReqOk(s, h);
      if s.reqs[h].st.Cleared? {
        ReleaseCloser(s, h, r);
      } else {
        RequestMoves(s, h);
        MoveCloser(s, c, p, h, r);
      }
    }
  }

  /** Waking the next waiter brings nobody further away. */
  lemma {:induction false} PopNotFarther(s: State, p: nat)
    requires Inv(s) && p < |s.procs| && ProcOk(s, p)
    ensures var s' := Pop(s, p);
      && Total(s') <= Total(s) && |s'.reqs| == |s.reqs|
      && forall r :: 0 <= r < |s.reqs| && Unserved(s.reqs[r].st) ==> Unserved(s'.reqs[r].st)
  {
    if s.procs[p].waiting != [] {
      var x := s.procs[p].waiting[0];
      assert x in s.procs[p].waiting && ReqOk(s, x);
      PopMoves(s, p);
      OnlyItsDistance(s, Pop(s, p), p, x);
    }
  }

  lemma {:induction false} ReleaseCloser(s: State, h: nat, r: nat)
    requires Inv(s) && h < |s.reqs| && s.reqs[h].proc < |s.procs| && s.reqs[h].st.Cleared?
    requires r < |s.reqs| && Unserved(s.reqs[r].st)
    ensures Closer(s, Go(h), r)
  {
    var p := s.reqs[h].proc;
    var s1 := Release(s, h, p);
    ReleaseKeeps(s, h);
    ReleaseMoves(s, h);
    OnlyItsDistance(s, s1, p, h);
    PopKeeps(s1, p);
    PopNotFarther(s1, p);
    assert Step(s, Go(h)) == Pop(s1, p);
  }

  lemma {:induction false} SomeoneMoves(s: State, r: nat) returns (c: Choice)
    requires Good(s) && r < |s.reqs| && Unserved(s.reqs[r].st)
    ensures Closer(s, c, r)
  {
    if some :| some in s.live {
      var n := Least(s.live, some);
      assert HasOwner(s, n);
      var q :| 0 <= q < |s.procs| && Node(s, q) == n;
      assert ProcOk(s, q);
      c := LeastMoves(s, q, s.procs[q].holder, r);
    } else {
      c := EmptyMoves(s, r);
    }
  }

  lemma {:induction false} Reaches(s: State, r: nat) returns (sched: seq<Choice>)
    requires Good(s) && r < |s.reqs| && Unserved(s.reqs[r].st)
    ensures var s' := Run(s, sched); r < |s'.reqs| && s'.reqs[r].st.Granted?
    decreases Total(s)
  {
    var c := SomeoneMoves(s, r);
    var s' := Step(s, c);
    StepGood(s, c);
    if s'.reqs[r].st.Granted? {
      sched := [c];
      assert Run(s', []) == s';
    } else {
      var rest := Reaches(s', r);
      sched := [c] + rest;
      assert sched[1..] == rest;
    }
  }

  lemma {:induction false} RunGood(s: State, sched: seq<Choice>)
    requires Good(s)
    ensures Good(Run(s, sched))
    decreases |sched|
  {
    if sched == [] {
    } else {
      StepGood(s, sched[0]);
      RunGood(Step(s, sched[0]), sched[1..]);
    }
  }

  lemma {:induction false} YetBound(ys: seq<int>)
    requires forall i :: 0 <= i < |ys| ==> ys[i] <= 1
    ensures Sum(ys) <= |ys|
  {
    if ys == [] {
    } else {
      YetBound(ys[1..]);
    }
  }

  /**
   * No deadlock among the requests: from every state of every run, as long as sequence numbers fit an
   * int, every request that is not granted yet is granted by some continuation, in which watch events
   * may arrive.
   */
  lemma {:induction false} EveryRequestCanBeGranted(s0: State, sched: seq<Choice>, r: nat)
    requires Init(s0) && s0.next + |s0.reqs| <= INT_MAX + 1
    requires r < |Run(s0, sched).reqs| && Unserved(Run(s0, sched).reqs[r].st)
    ensures exists more :: var s' := Run(Run(s0, sched), more); r < |s'.reqs| && s'.reqs[r].st.Granted?
  {
    YetBound(Yets(s0));
    RunGood(s0, sched);
    var more := Reaches(Run(s0, sched), r);
  }

  /**
   * In every run: where the local lock is free and requests wait, one of them has been woken; and every
   * live node is the node of some process, so an unlocked request leaves none behind.
   */
  lemma {:induction false} NobodyIsForgotten(s0: State, sched: seq<Choice>)
    requires Init(s0)
    ensures Awake(Run(s0, sched)) && Owned(Run(s0, sched))
    decreases |sched|
  {
    RunKept(s0, sched);
  }

  lemma {:induction false} RunKept(s: State, sched: seq<Choice>)
    requires Inv(s) && Awake(s) && Owned(s)
    ensures Awake(Run(s, sched)) && Owned(Run(s, sched))
    decreases |sched|
  {
    if sched == [] {
    } else {
      StepAwake(s, sched[0]);
      StepOwned(s, sched[0]);
      RunKept(Step(s, sched[0]), sched[1..]);
    }
  }
}
