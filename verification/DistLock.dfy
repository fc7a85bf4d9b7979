/**
 * The distributed lock of one (zone, id): in each process a local asynchronous lock, over sequence
 * nodes that live in the coordination service. One step per access; watch events may arrive at any time.
 */
module DistLock {

  const INT_MAX: nat := 0x7fff_ffff
  const NO_PATH: int := -1

  /** Where the callback of one lock request is. */
  datatype Status =
    | New
    | Acquiring            // about to run `AsyncLock::acquire`
    | QueuedAcquire        // in the wait queue, to run `acquire` again
    | ZkEnter              // holds the local lock, at the start of `zk_lock`
    | ZkCreated(node: nat) // has created its sequence node
    | ZkList
    | ZkDecide(least: nat)
    | QueuedRetry          // in the wait queue, to run `zk_lock` again
    | Granted
    | Deleted              // `unlock` has deleted the node
    | Cleared              // `unlock` has forgotten its path
    | Finished

  datatype Request = Request(proc: nat, st: Status)

  /** `holder` is the request that owns the local lock, or NOBODY; no test of the program reads it. */
  datatype Process = Process(acquired: bool, waiting: seq<nat>, path: int, holder: int)

  datatype State = State(procs: seq<Process>, reqs: seq<Request>, live: set<int>, next: nat)

  datatype Choice = Go(r: nat) | List(r: nat, least: nat) | Notify(p: nat)

  const NOBODY: int := -1

  predicate Queued(st: Status) {
    st.QueuedAcquire? || st.QueuedRetry?
  }

  /** Between taking the local lock and releasing it. */
  predicate Inside(st: Status) {
    || st.ZkEnter? || st.ZkCreated? || st.ZkList? || st.ZkDecide? || st.QueuedRetry?
    || st.Granted? || st.Deleted? || st.Cleared?
  }

  predicate IsMin(live: set<int>, n: int) {
    n in live && forall m :: m in live ==> n <= m
  }

  // ---- The invariant ----

  /** Each request is in the wait queue, or inside, exactly when its status says so. */
  predicate ReqOk(s: State, r: nat)
    requires r < |s.reqs|
  {
    var p := s.reqs[r].proc;
    && p < |s.procs|
    && (Queued(s.reqs[r].st) <==> r in s.procs[p].waiting)
    && (Inside(s.reqs[r].st) <==> s.procs[p].holder == r)
  }

  predicate Distinct(w: seq<nat>) {
    forall j, k :: 0 <= j < k < |w| ==> w[j] != w[k]
  }

  predicate ProcOk(s: State, p: nat)
    requires p < |s.procs|
  {
    var q := s.procs[p];
    && (forall k :: 0 <= k < |q.waiting| ==> q.waiting[k] < |s.reqs| && s.reqs[q.waiting[k]].proc == p)
    && Distinct(q.waiting)
    && (forall k :: 0 <= k < |q.waiting| && s.reqs[q.waiting[k]].st.QueuedRetry? ==> k == 0)
    && (q.acquired <==> q.holder != NOBODY)
    && (q.holder != NOBODY ==> 0 <= q.holder < |s.reqs| && s.reqs[q.holder].proc == p)
    && PathOk(s.live, q.path, HolderStatus(s, p))
  }

  function HolderStatus(s: State, p: nat): Status
    requires p < |s.procs|
  {
    var h := s.procs[p].holder;
    if 0 <= h < |s.reqs| then s.reqs[h].st else Finished
  }

  /** The node of a granted request is the least live one, and stays so until it unlocks. */
  predicate PathOk(live: set<int>, path: int, st: Status) {
    match st
    case ZkEnter => path == NO_PATH || path in live
    case ZkCreated(n) => path == NO_PATH && n in live
    case ZkList => path in live
    case ZkDecide(least) => path in live && (path == least ==> IsMin(live, path))
    case QueuedRetry => path in live
    case Granted => IsMin(live, path)
    case Deleted => true
    case _ => path == NO_PATH
  }

  /** The live node of process p, or NO_PATH. */
  function Node(s: State, p: nat): int
    requires p < |s.procs|
  {
    match HolderStatus(s, p)
    case ZkCreated(n) => n
    case Deleted => NO_PATH
    case _ => s.procs[p].path
  }

  predicate Inv(s: State) {
    && (forall r :: 0 <= r < |s.reqs| ==> ReqOk(s, r))
    && (forall p :: 0 <= p < |s.procs| ==> ProcOk(s, p))
    && (forall p, q :: 0 <= p < |s.procs| && 0 <= q < |s.procs| && p != q && Node(s, p) != NO_PATH ==>
          Node(s, p) != Node(s, q))
    && (forall n :: n in s.live ==> 0 <= n < s.next)
  }

  // ---- The steps ----

  /** What `get_least_seq` computes from a listing. */
  predicate IsLeast(live: set<int>, least: int) {
    && (forall n :: n in live ==> least <= n)
    && least <= INT_MAX && (least == INT_MAX || least in live)
  }

  /** `get_least_seq`: one pass over the children, in whatever order they are listed. */
  method LeastSeq(children: seq<nat>) returns (least: nat)
    ensures IsLeast((set n | n in children), least)
  {
    least := INT_MAX;
    for i := 0 to |children|
      invariant forall k :: 0 <= k < i ==> least <= children[k]
      invariant least <= INT_MAX && (least == INT_MAX || least in children)
    {
      if children[i] < least {
        least := children[i];
      }
    }
  }

  function To(s: State, r: nat, st: Status): State
    requires r < |s.reqs|
  {
    s.(reqs := s.reqs[r := s.reqs[r].(st := st)])
  }

  function Put(s: State, p: nat, q: Process): State
    requires p < |s.procs|
  {
    s.(procs := s.procs[p := q])
  }

  /** Run the callback at the front of the wait queue: `acquire` or `zk_lock` again. */
  function Pop(s: State, p: nat): (s': State)
    requires p < |s.procs| && ProcOk(s, p)
  {
    var q := s.procs[p];
    if q.waiting == [] then s
    else
      var r := q.waiting[0];
      To(Put(s, p, q.(waiting := q.waiting[1..])), r,
         if s.reqs[r].st.QueuedRetry? then ZkEnter else Acquiring)
  }

  /** `AsyncLock::release`: give up the local lock, then run the callback at the front. */
  function Release(s: State, r: nat, p: nat): State
    requires r < |s.reqs| && p < |s.procs|
  {
    To(Put(s, p, s.procs[p].(acquired := false, holder := NOBODY)), r, Finished)
  }

  /** One step of a request, up to the release of the local lock. */
  function StepRequest(s: State, r: nat): State
    requires r < |s.reqs| && s.reqs[r].proc < |s.procs|
  {
    var p := s.reqs[r].proc;
    var q := s.procs[p];
    match s.reqs[r].st
    case New => To(s, r, Acquiring)
    case Acquiring =>
      if !q.acquired then To(Put(s, p, q.(acquired := true, holder := r)), r, ZkEnter)
      else To(Put(s, p, q.(waiting := q.waiting + [r])), r, QueuedAcquire)
    case ZkEnter =>
      if q.path == NO_PATH then To(s, r, ZkCreated(s.next)).(live := s.live + {s.next}, next := s.next + 1)
      else To(s, r, ZkList)
    case ZkCreated(n) => To(Put(s, p, q.(path := n)), r, ZkList)
    case ZkDecide(least) =>
      if q.path == least then To(s, r, Granted)
      else To(Put(s, p, q.(waiting := [r] + q.waiting)), r, QueuedRetry)
    case Granted => To(s, r, Deleted).(live := s.live - {q.path})
    case Deleted => To(Put(s, p, q.(path := NO_PATH)), r, Cleared)
    case _ => s
  }

  // ---- Every step keeps the invariant ----

  /** Process p acted: nothing of another process changed, and only its own node may have gone. */
  predicate Acted(s: State, p: nat, s': State)
    requires p < |s.procs|
  {
    && |s'.procs| == |s.procs| && s'.procs == s.procs[p := s'.procs[p]]
    && |s'.reqs| == |s.reqs|
    && (forall r :: 0 <= r < |s.reqs| ==>
          s'.reqs[r].proc == s.reqs[r].proc && (s.reqs[r].proc != p ==> s'.reqs[r] == s.reqs[r]))
    && s.next <= s'.next
    && (forall n :: n in s'.live ==> (n in s.live || n >= s.next) && 0 <= n < s'.next)
    && (forall n :: n in s.live && n != Node(s, p) ==> n in s'.live)
    && (Node(s', p) == Node(s, p) || Node(s', p) == NO_PATH || Node(s', p) >= s.next)
  }

  lemma {:induction false} OthersKeep(s: State, p: nat, s': State, q: nat)
    requires Inv(s) && p < |s.procs| && q < |s.procs| && p != q && Acted(s, p, s')
    ensures ProcOk(s', q) && Node(s', q) == Node(s, q)
    ensures Node(s, q) != NO_PATH ==> Node(s, q) < s.next
  {
    assert ProcOk(s, q) && ProcOk(s, p);
    var path := s.procs[q].path;
    assert HolderStatus(s', q) == HolderStatus(s, q);
  }

  lemma {:induction false} KeepsInv(s: State, p: nat, s': State)
    requires Inv(s) && p < |s.procs| && Acted(s, p, s') && ProcOk(s', p)
    requires forall r :: 0 <= r < |s.reqs| && s.reqs[r].proc == p ==> ReqOk(s', r)
    ensures Inv(s')
  {
    forall r | 0 <= r < |s.reqs| ensures ReqOk(s', r) {
      assert ReqOk(s, r);
    }
    forall q | 0 <= q < |s.procs| && q != p
      ensures ProcOk(s', q) && Node(s', q) == Node(s, q) && (Node(s, q) != NO_PATH ==> Node(s, q) < s.next)
    {
      OthersKeep(s, p, s', q);
    }
  }

  /** The request inside process p moves on without touching the wait queue or the local lock. */
  lemma {:induction false} HolderMoves(s: State, r: nat, s': State)
    requires Inv(s) && r < |s.reqs| && Inside(s.reqs[r].st) && s.reqs[r].proc < |s.procs|
    requires var p := s.reqs[r].proc;
      && |s'.procs| == |s.procs| && s'.procs == s.procs[p := s.procs[p].(path := s'.procs[p].path)]
      && |s'.reqs| == |s.reqs| && s'.reqs == s.reqs[r := Request(p, s'.reqs[r].st)]
      && Inside(s'.reqs[r].st) && Queued(s'.reqs[r].st) == Queued(s.reqs[r].st)
      && Acted(s, p, s') && PathOk(s'.live, s'.procs[p].path, s'.reqs[r].st)
    ensures Inv(s')
  {
    var p := s.reqs[r].proc;
    assert ReqOk(s, r) && ProcOk(s, p);
    forall x | 0 <= x < |s.reqs| && s.reqs[x].proc == p ensures ReqOk(s', x) {
      assert ReqOk(s, x);
    }
    KeepsInv(s, p, s');
  }

  /** w' is w with r put at the front to retry, put at the back to acquire, or taken from the front. */
  predicate EndMoves(w: seq<nat>, r: nat, w': seq<nat>, st': Status) {
    if st'.QueuedRetry? then w' == [r] + w
    else if st'.QueuedAcquire? then w' == w + [r]
    else w == [r] + w'
  }

  lemma {:induction false} EndMovesDistinct(w: seq<nat>, r: nat, w': seq<nat>, st': Status)
    requires EndMoves(w, r, w', st') && Distinct(w) && (Queued(st') ==> r !in w)
    ensures Distinct(w') && (r in w' <==> Queued(st'))
    ensures forall x :: x != r ==> (x in w' <==> x in w)
  {
    if st'.QueuedRetry? {
      assert w'[0] == r;
      assert forall k :: 0 < k < |w'| ==> w'[k] == w[k - 1];
    } else if st'.QueuedAcquire? {
      assert w'[|w|] == r;
    } else {
      assert w[0] == r;
      assert forall k :: 0 <= k < |w'| ==> w'[k] == w[k + 1];
    }
  }

  /** A retry enters at the front of a queue that holds no other, since its request is the one inside. */
  lemma {:induction false} RetryFirst(s: State, r: nat, s': State)
    requires Inv(s) && r < |s.reqs| == |s'.reqs| && s.reqs[r].proc < |s.procs| == |s'.procs|
    requires var p := s.reqs[r].proc; var st, st' := s.reqs[r].st, s'.reqs[r].st;
      && s'.reqs == s.reqs[r := Request(p, st')] && (st'.QueuedRetry? ==> Inside(st)) && Queued(st') != Queued(st)
      && EndMoves(s.procs[p].waiting, r, s'.procs[p].waiting, st')
    ensures var w' := s'.procs[s.reqs[r].proc].waiting;
      forall k :: 0 <= k < |w'| && w'[k] < |s.reqs| && s'.reqs[w'[k]].st.QueuedRetry? ==> k == 0
  {
    var p := s.reqs[r].proc;
    var w, w' := s.procs[p].waiting, s'.procs[p].waiting;
    assert ReqOk(s, r) && ProcOk(s, p);
    forall k | 0 < k < |w'| ensures w'[k] < |s.reqs| && !s'.reqs[w'[k]].st.QueuedRetry? {
      if s'.reqs[r].st.QueuedRetry? {
        assert w'[k] == w[k - 1] && w[k - 1] in w && ReqOk(s, w[k - 1]);
      } else if s'.reqs[r].st.QueuedAcquire? {
        assert k < |w| ==> w'[k] == w[k];
      } else {
        assert w[0] == r && w'[k] == w[k + 1];
      }
    }
  }

  /** Request r enters or leaves the wait queue, and its status changes with it. */
  lemma {:induction false} QueueMoves(s: State, r: nat, s': State)
    requires Inv(s) && r < |s.reqs| == |s'.reqs| && s.reqs[r].proc < |s.procs|
    requires var p := s.reqs[r].proc; var st, st' := s.reqs[r].st, s'.reqs[r].st;
      && |s'.procs| == |s.procs| && s'.procs == s.procs[p := s.procs[p].(waiting := s'.procs[p].waiting)]
      && s'.reqs == s.reqs[r := Request(p, st')]
      && s'.live == s.live && s'.next == s.next
      && EndMoves(s.procs[p].waiting, r, s'.procs[p].waiting, st')
      && Queued(st') != Queued(st) && Inside(st') == Inside(st)
      && !st.ZkCreated? && !st'.ZkCreated? && !st.Deleted? && !st'.Deleted?
      && (Inside(st) ==> PathOk(s.live, s.procs[p].path, st'))
    ensures Inv(s')
  {
    var p := s.reqs[r].proc;
    assert ReqOk(s, r) && ProcOk(s, p);
    EndMovesDistinct(s.procs[p].waiting, r, s'.procs[p].waiting, s'.reqs[r].st);
    RetryFirst(s, r, s');
    forall x | 0 <= x < |s.reqs| && s.reqs[x].proc == p ensures ReqOk(s', x) {
      assert ReqOk(s, x);
    }
    forall k | 0 <= k < |s'.procs[p].waiting|
      ensures s'.procs[p].waiting[k] < |s.reqs| && s.reqs[s'.procs[p].waiting[k]].proc == p
    {
      assert s'.procs[p].waiting[k] == r || s'.procs[p].waiting[k] in s.procs[p].waiting;
    }
    KeepsInv(s, p, s');
  }

  lemma {:induction false} PopKeeps(s: State, p: nat)
    requires Inv(s) && p < |s.procs|
    ensures ProcOk(s, p) && Inv(Pop(s, p))
  {
    assert ProcOk(s, p);
    var q := s.procs[p];
    if q.waiting != [] {
      var r := q.waiting[0];
      assert r in q.waiting;
      assert ReqOk(s, r);
      assert q.waiting == [r] + q.waiting[1..];
      QueueMoves(s, r, Pop(s, p));
    }
  }

  lemma {:induction false} ReleaseKeeps(s: State, r: nat)
    requires Inv(s) && r < |s.reqs| && s.reqs[r].st.Cleared? && s.reqs[r].proc < |s.procs|
    ensures Inv(Release(s, r, s.reqs[r].proc))
  {
    var p := s.reqs[r].proc;
    var s' := Release(s, r, p);
    assert ReqOk(s, r) && ProcOk(s, p);
    forall x | 0 <= x < |s.reqs| && s.reqs[x].proc == p ensures ReqOk(s', x) {
      assert ReqOk(s, x);
    }
    KeepsInv(s, p, s');
  }

  lemma {:induction false} AcquireKeeps(s: State, r: nat)
    requires Inv(s) && r < |s.reqs| && s.reqs[r].st.Acquiring? && s.reqs[r].proc < |s.procs|
    ensures Inv(StepRequest(s, r))
  {
    var p := s.reqs[r].proc;
    var s' := StepRequest(s, r);
    assert ReqOk(s, r) && ProcOk(s, p);
    if s.procs[p].acquired {
      QueueMoves(s, r, s');
    } else {
      forall x | 0 <= x < |s.reqs| && s.reqs[x].proc == p ensures ReqOk(s', x) {
        assert ReqOk(s, x);
      }
      KeepsInv(s, p, s');
    }
  }

  lemma {:induction false} NewKeeps(s: State, r: nat)
    requires Inv(s) && r < |s.reqs| && s.reqs[r].st.New? && s.reqs[r].proc < |s.procs|
    ensures Inv(StepRequest(s, r))
  {
    var p := s.reqs[r].proc;
    var s' := StepRequest(s, r);
    assert ReqOk(s, r) && ProcOk(s, p);
    forall x | 0 <= x < |s.reqs| && s.reqs[x].proc == p ensures ReqOk(s', x) {
      assert ReqOk(s, x);
    }
    KeepsInv(s, p, s');
  }

  lemma {:induction false} RequestKeeps(s: State, r: nat)
    requires Inv(s) && r < |s.reqs| && s.reqs[r].proc < |s.procs| && !s.reqs[r].st.Cleared?
    ensures Inv(StepRequest(s, r))
  {
    var p := s.reqs[r].proc;
    assert ReqOk(s, r) && ProcOk(s, p);
    match s.reqs[r].st {
      case New => NewKeeps(s, r);
      case Acquiring => AcquireKeeps(s, r);
      case ZkEnter => HolderMoves(s, r, StepRequest(s, r));
      case ZkCreated(n) => HolderMoves(s, r, StepRequest(s, r));
      case ZkDecide(least) =>
        if s.procs[p].path == least { HolderMoves(s, r, StepRequest(s, r)); }
        else { QueueMoves(s, r, StepRequest(s, r)); }
      case Granted => HolderMoves(s, r, StepRequest(s, r));
      case Deleted => HolderMoves(s, r, StepRequest(s, r));
      case _ =>
    }
  }

  lemma {:induction false} ListKeeps(s: State, r: nat, least: nat)
    requires Inv(s) && r < |s.reqs| && s.reqs[r].st.ZkList? && IsLeast(s.live, least)
    ensures Inv(To(s, r, ZkDecide(least)))
  {
    assert ReqOk(s, r) && ProcOk(s, s.reqs[r].proc);
    HolderMoves(s, r, To(s, r, ZkDecide(least)));
  }

  /** One step: of a request, of a listing, or the arrival of a watch event. */
  function Step(s: State, c: Choice): (s': State)
    requires Inv(s)
    ensures Inv(s')
  {
    match c
    case Go(r) =>
      if r < |s.reqs| then
        assert ReqOk(s, r);
        var p := s.reqs[r].proc;
        if s.reqs[r].st.Cleared? then
          ReleaseKeeps(s, r); PopKeeps(Release(s, r, p), p);
          Pop(Release(s, r, p), p)
        else
          RequestKeeps(s, r);
          StepRequest(s, r)
      else s
    case List(r, least) =>
      if r < |s.reqs| && s.reqs[r].st.ZkList? && IsLeast(s.live, least) then
        ListKeeps(s, r, least);
        To(s, r, ZkDecide(least))
      else s
    case Notify(p) =>
      if p < |s.procs| then
        PopKeeps(s, p);
        Pop(s, p)
      else s
  }

  /** Nobody has asked yet, and no node is left over. */
  predicate Init(s: State)
    ensures Init(s) ==> Inv(s)
  {
    && (forall r :: 0 <= r < |s.reqs| ==> s.reqs[r].proc < |s.procs| && s.reqs[r].st.New?)
    && (forall p :: 0 <= p < |s.procs| ==> s.procs[p] == Process(false, [], NO_PATH, NOBODY))
    && s.live == {}
  }

  function Run(s: State, sched: seq<Choice>): (s': State)
    requires Inv(s)
    ensures Inv(s')
    decreases |sched|
  {
    if sched == [] then s else Run(Step(s, sched[0]), sched[1..])
  }

  /**
   * Across all processes and all requests, in every order of steps, releases, barging requests and
   * watch events, at most one request is granted and not yet unlocked.
   */
  lemma {:induction false} MutualExclusion(s0: State, sched: seq<Choice>, a: nat, b: nat)
    requires Init(s0)
    requires var s := Run(s0, sched);
      a < |s.reqs| && b < |s.reqs| && s.reqs[a].st.Granted? && s.reqs[b].st.Granted?
    ensures a == b
  {
    var s := Run(s0, sched);
    assert ReqOk(s, a) && ReqOk(s, b);
    var p, q := s.reqs[a].proc, s.reqs[b].proc;
    assert ProcOk(s, p) && ProcOk(s, q);
    assert Node(s, p) == s.procs[p].path && Node(s, q) == s.procs[q].path;
  }

  /**
   * Every callback is in one place: in its process's wait queue exactly once when queued and not at
   * all otherwise, and at most one request per process is inside the local lock.
   */
  lemma {:induction false} EveryCallbackIsInOnePlace(s0: State, sched: seq<Choice>, r: nat)
    requires Init(s0) && r < |Run(s0, sched).reqs|
    ensures var s := Run(s0, sched); var p := s.reqs[r].proc;
      && p < |s.procs|
      && multiset(s.procs[p].waiting)[r] == (if Queued(s.reqs[r].st) then 1 else 0)
      && (Inside(s.reqs[r].st) ==> s.procs[p].acquired)
      && (forall x :: 0 <= x < |s.reqs| && s.reqs[x].proc == p && Inside(s.reqs[x].st) && Inside(s.reqs[r].st) ==>
            x == r)
      && (forall q :: 0 <= q < |s.procs| && q != p ==> r !in s.procs[q].waiting)
  {
    var s := Run(s0, sched);
    assert ReqOk(s, r);
    var p := s.reqs[r].proc;
    assert ProcOk(s, p);
    OnceInWaiting(s.procs[p].waiting, r);
    forall x | 0 <= x < |s.reqs| && s.reqs[x].proc == p && Inside(s.reqs[x].st) && Inside(s.reqs[r].st)
      ensures x == r
    {
      assert ReqOk(s, x);
    }
    forall q | 0 <= q < |s.procs| && q != p ensures r !in s.procs[q].waiting {
      assert ProcOk(s, q);
    }
  }

  lemma {:induction false} OnceInWaiting(waiting: seq<nat>, r: nat)
    requires Distinct(waiting)
    ensures multiset(waiting)[r] == (if r in waiting then 1 else 0)
  {
    if waiting == [] {
    } else {
      assert waiting == [waiting[0]] + waiting[1..];
      OnceInWaiting(waiting[1..], r);
    }
  }

  /** `unlock` always finds its node alive, so the deletion it asserts succeeds. */
  lemma {:induction false} UnlockFindsItsNode(s0: State, sched: seq<Choice>, r: nat)
    requires Init(s0)
    requires r < |Run(s0, sched).reqs| && Run(s0, sched).reqs[r].st.Granted?
    ensures var s := Run(s0, sched);
      s.reqs[r].proc < |s.procs| && IsMin(s.live, s.procs[s.reqs[r].proc].path)
  {
    var s := Run(s0, sched);
    assert ReqOk(s, r);
    assert ProcOk(s, s.reqs[r].proc);
  }
}
