/** Every answer under way finds the context that its message was sent for. */
module ScatterGatherNet {

  import opened Tally
  import opened Requests
  import opened ScatterGather

  predicate Addressed(id: int, o: Owed) { o.reqid == id }

  function To(id: int): Owed -> bool { o => Addressed(id, o) }

  /** How many answers the context still waits for. */
  function Due(s: State, id: int): int
    requires id in s.t.live
  {
    match s.t.live[id]
    case Plain(_, _) => if CtxId(s.phase) == id then 0 else 1
    case Gather(_, _, size, got, _) => size - |got|
    case Fiber(_, _, _) => if FiberId(s.phase) == id then 0 else 1
  }

  predicate CtxOk(s: State, id: int)
    requires id in s.t.live
  {
    var c := s.t.live[id];
    && 0 <= c.uid < |s.made|
    && (c.Fiber? ==> !c.dead)
    && (c.Gather? ==> !c.done && |c.got| <= c.size && 1 <= c.size && (|c.got| == c.size <==> s.phase == Callback(id)))
  }

  /** An answer under way belongs to the live context under its id, or to a failed scatter. */
  predicate EntryOk(t: Table, o: Owed) {
    || (o.reqid in t.live && t.live[o.reqid].uid == o.uid && (o.scatter <==> t.live[o.reqid].Gather?))
    || (o.reqid in t.held && o.uid == -1 && o.scatter)
  }

  ghost predicate Distinct(t: Table) {
    forall a, b :: a in t.live && b in t.live && t.live[a].uid == t.live[b].uid ==> a == b
  }

  ghost predicate NetOk(s: State) {
    && Wf(s) && Distinct(s.t)
    && (forall id :: id in s.t.live ==> CtxOk(s, id))
    && (forall id :: id in s.t.live ==> Count(s.net, To(id)) == Due(s, id))
    && (forall k :: 0 <= k < |s.net| ==> EntryOk(s.t, s.net[k]))
  }

  lemma {:induction false} CountRepeat(n: nat, o: Owed, id: int)
    ensures Count(Repeat(n, o), To(id)) == if o.reqid == id then n else 0
    decreases n
  {
    if n == 0 {
    } else {
      assert Repeat(n, o)[1..] == Repeat(n - 1, o);
      CountRepeat(n - 1, o, id);
    }
  }

  lemma {:induction false} CountMore(net: seq<Owed>, n: nat, o: Owed, id: int)
    ensures Count(net + Repeat(n, o), To(id)) == Count(net, To(id)) + if o.reqid == id then n else 0
  {
    CountAppend(net, Repeat(n, o), To(id));
    CountRepeat(n, o, id);
  }

  lemma {:induction false} CountLess(net: seq<Owed>, k: nat, id: int)
    requires k < |net|
    ensures Count(net[..k] + net[k + 1..], To(id)) == Count(net, To(id)) - One(net[k].reqid == id)
  {
    CountWithout(net, k, To(id));
  }

  /** Nothing is under way to an id that is neither live nor held: recycled ids are quiet. */
  lemma {:induction false} RecycledIsQuiet(s: State, id: int)
    requires NetOk(s) && id !in s.t.live && id !in s.t.held
    ensures Count(s.net, To(id)) == 0
  {
    CountZero(s.net, To(id));
  }

  lemma {:induction false} HeldMore(s: State)
    requires NetOk(s) && HasFree(s.t)
    ensures var s' := s.(t := Issue(s.t));
      NetOk(s') && NextId(s.t) in s'.t.held && NextId(s.t) !in s'.t.live && Count(s'.net, To(NextId(s.t))) == 0
  {
    IssueOk(s.t);
    RecycledIsQuiet(s, NextId(s.t));
    var s' := s.(t := Issue(s.t));
    forall id | id in s'.t.live ensures CtxOk(s', id) && Due(s', id) == Due(s, id) {
      assert CtxOk(s, id);
    }
  }

  /** A context just made: it waits for as many answers as messages were sent for it. */
  predicate NewCtx(s: State, c: Ctx, size: nat, n: nat) {
    && c.uid == |s.made|
    && (c.Plain? ==> size == 0 && n == 1)
    && (c.Gather? ==> c.size == size == n && n >= 1 && c.got == [] && !c.done)
    && (c.Fiber? ==> size == 0 && n == 0 && !c.dead && s.phase.Thread?)
  }

  /** The state after a context appears; a fiber starts to run at once. */
  function Registered(s: State, id: int, c: Ctx, size: nat, n: nat): State
    requires id !in s.t.live && s.turns != [] && NewCtx(s, c, size, n)
  {
    var s' := Register(s, id, c, size, n);
    if c.Fiber? then s'.(phase := OnFiber(s.phase.ctx, id)) else s'
  }

  ghost predicate MayRegister(s: State, id: int, c: Ctx, size: nat, n: nat) {
    && NetOk(s) && id in s.t.held && id !in s.t.live && Count(s.net, To(id)) == 0
    && !s.phase.Idle? && NewCtx(s, c, size, n)
  }

  lemma {:induction false} RegisterWf(s: State, id: int, c: Ctx, size: nat, n: nat)
    requires MayRegister(s, id, c, size, n)
    ensures Wf(Registered(s, id, c, size, n)) && id != 0 && 0 !in s.t.live && CtxId(s.phase) != id
  {
    InsertOk(s.t, id, c);
    assert Places(s.t, id) == One(1 <= id <= s.t.issued);
    assert Places(s.t, 0) == 0;
  }

  lemma {:induction false} RegisterDue(s: State, id: int, c: Ctx, size: nat, n: nat, x: int)
    requires MayRegister(s, id, c, size, n) && x in Registered(s, id, c, size, n).t.live
    ensures var s' := Registered(s, id, c, size, n); CtxOk(s', x) && Count(s'.net, To(x)) == Due(s', x)
  {
    RegisterWf(s, id, c, size, n);
    CountMore(s.net, n, Owed(id, c.uid, size > 0), x);
    if x != id { assert CtxOk(s, x) && Count(s.net, To(x)) == Due(s, x); }
  }

  lemma {:induction false} RegisterNet(s: State, id: int, c: Ctx, size: nat, n: nat)
    requires MayRegister(s, id, c, size, n)
    ensures NetOk(Registered(s, id, c, size, n))
  {
    var s' := Registered(s, id, c, size, n);
    RegisterWf(s, id, c, size, n);
    forall x | x in s'.t.live ensures CtxOk(s', x) && Count(s'.net, To(x)) == Due(s', x) {
      RegisterDue(s, id, c, size, n, x);
    }
    forall k | 0 <= k < |s'.net| ensures EntryOk(s'.t, s'.net[k]) {
      if k < |s.net| {
        assert EntryOk(s.t, s.net[k]);
        CountZero(s.net, To(id));
        assert !To(id)(s.net[k]);
      }
    }
    forall a, b | a in s'.t.live && b in s'.t.live && s'.t.live[a].uid == s'.t.live[b].uid ensures a == b {
      if a != id { assert CtxOk(s, a); }
      if b != id { assert CtxOk(s, b); }
    }
  }

  lemma {:induction false} AskNet(s: State, wantsReply: bool, ok: bool)
    requires NetOk(s)
    ensures NetOk(StepAsk(s, wantsReply, ok))
  {
    if !s.phase.Idle? && wantsReply && HasFree(s.t) {
      HeldMore(s);
      IssueOk(s.t);
      var s1, id := s.(t := Issue(s.t)), NextId(s.t);
      if ok {
        RegisterNet(s1, id, Plain(|s.made|, Initiator(s)), 0, 1);
      } else {
        ReleaseOk(s1.t, id);
        ReleaseNet(s1, id);
      }
    }
  }

  lemma {:induction false} ReleaseNet(s: State, id: int)
    requires NetOk(s) && id in s.t.held && Count(s.net, To(id)) == 0
    ensures NetOk(s.(t := Release(s.t, id)))
  {
    ReleaseOk(s.t, id);
    var s' := s.(t := Release(s.t, id));
    forall x | x in s'.t.live ensures CtxOk(s', x) && Due(s', x) == Due(s, x) {
      assert CtxOk(s, x);
    }
    forall k | 0 <= k < |s'.net| ensures EntryOk(s'.t, s'.net[k]) {
      CountZero(s.net, To(id));
      assert EntryOk(s.t, s.net[k]) && !To(id)(s.net[k]);
    }
  }

  /** Messages of a failed scatter are under way to a held id. */
  lemma {:induction false} FailedNet(s: State, id: int, n: nat)
    requires NetOk(s) && id in s.t.held && id !in s.t.live
    ensures NetOk(s.(net := s.net + Repeat(n, Owed(id, -1, true))))
  {
    var s' := s.(net := s.net + Repeat(n, Owed(id, -1, true)));
    forall x | x in s'.t.live ensures CtxOk(s', x) && Count(s'.net, To(x)) == Due(s', x) {
      CountMore(s.net, n, Owed(id, -1, true), x);
      assert CtxOk(s, x) && Count(s.net, To(x)) == Due(s, x);
    }
    forall k | 0 <= k < |s'.net| ensures EntryOk(s'.t, s'.net[k]) {
      if k < |s.net| { assert EntryOk(s.t, s.net[k]); }
    }
  }

  lemma {:induction false} ScatterNet(s: State, mg: seq<bool>, accepted: nat)
    requires NetOk(s)
    ensures NetOk(StepScatter(s, mg, accepted))
  {
    if !s.phase.Idle? && mg != [] && HasFree(s.t) {
      HeldMore(s);
      IssueOk(s.t);
      var s1, id := s.(t := Issue(s.t)), NextId(s.t);
      if false in mg {
      } else if accepted < |mg| {
        FailedNet(s1, id, accepted);
      } else {
        RegisterNet(s1, id, Gather(|s.made|, Initiator(s), |mg|, [], false), |mg|, |mg|);
      }
    }
  }

  lemma {:induction false} StartFiberNet(s: State)
    requires NetOk(s)
    ensures NetOk(StepStartFiber(s))
  {
    if s.phase.Thread? && HasFree(s.t) {
      HeldMore(s);
      IssueOk(s.t);
      RegisterNet(s.(t := Issue(s.t)), NextId(s.t), Fiber(|s.made|, Initiator(s), false), 0, 0);
    }
  }

  lemma {:induction false} ReceiveNet(s: State, m: Msg)
    requires NetOk(s)
    ensures NetOk(StepReceive(s, m))
  {
    var s' := StepReceive(s, m);
    assert Places(s.t, 0) == 0;
    forall id | id in s'.t.live ensures CtxOk(s', id) && Due(s', id) == Due(s, id) {
      assert CtxOk(s, id);
    }
  }

  // ---- Answers ----

  /** The context an answer goes to, if any, was waiting for it. */
  lemma {:induction false} AnswerIsDue(s: State, k: nat)
    requires NetOk(s) && k < |s.net| && s.net[k].reqid in s.t.live
    ensures Due(s, s.net[k].reqid) >= 1
  {
    CountOne(s.net, To(s.net[k].reqid), k);
  }

  /** One answer consumed: only the context it is for owes one less. */
  lemma {:induction false} ConsumeNet(s: State, k: nat, s': State)
    requires NetOk(s) && s.phase.Idle? && k < |s.net| && Wf(s') && s'.made == s.made
    requires s'.net == s.net[..k] + s.net[k + 1..] && s'.t.held == s.t.held
    requires s'.t.live.Keys == s.t.live.Keys
    requires forall id :: id in s.t.live && id != s.net[k].reqid ==> s'.t.live[id] == s.t.live[id]
    requires CtxId(s'.phase) == s.net[k].reqid || CtxId(s'.phase) == 0
    requires FiberId(s'.phase) == s.net[k].reqid || FiberId(s'.phase) == 0
    requires var id := s.net[k].reqid; id in s.t.live ==>
      && s'.t.live[id].uid == s.t.live[id].uid && (s'.t.live[id].Gather? <==> s.t.live[id].Gather?)
      && CtxOk(s', id) && Due(s', id) == Due(s, id) - 1
    ensures NetOk(s')
  {
    var id := s.net[k].reqid;
    assert Places(s.t, 0) == 0;
    forall x | x in s'.t.live ensures CtxOk(s', x) && Count(s'.net, To(x)) == Due(s', x) {
      CountLess(s.net, k, x);
      assert CtxOk(s, x) && Count(s.net, To(x)) == Due(s, x);
    }
    forall j | 0 <= j < |s'.net| ensures EntryOk(s'.t, s'.net[j]) {
      assert s'.net[j] == s.net[if j < k then j else j + 1];
      assert EntryOk(s.t, s.net[if j < k then j else j + 1]);
    }
    forall a, b | a in s'.t.live && b in s'.t.live && s'.t.live[a].uid == s'.t.live[b].uid ensures a == b {
      assert s.t.live[a].uid == s.t.live[b].uid;
    }
  }

  lemma {:induction false} AnswerNet(s: State, k: nat, body: int, from: int, asResponse: bool)
    requires NetOk(s) && !s.aborted
    ensures var s' := StepAnswer(s, k, body, from, asResponse); NetOk(s') || s'.aborted
    ensures var s' := StepAnswer(s, k, body, from, asResponse);
      s'.aborted ==> k < |s.net| && s.net[k].reqid in s.t.held
  {
    if s.phase.Idle? && k < |s.net| {
      var s', id := StepAnswer(s, k, body, from, asResponse), s.net[k].reqid;
      AnswerWf(s, k, body, from, asResponse);
      assert EntryOk(s.t, s.net[k]);
      if id in s.t.live {
        AnswerIsDue(s, k);
        assert CtxOk(s, id);
        assert Places(s.t, 0) == 0;
      }
      if !s'.aborted { ConsumeNet(s, k, s'); }
    }
  }

  // ---- Ends of turns ----

  /** A turn ends: contexts that disappear owe nothing, the others keep their due. */
  lemma {:induction false} EndNet(s: State, s': State)
    requires NetOk(s) && Wf(s') && s'.net == s.net && s'.made == s.made && s'.phase.Idle?
    requires s'.t.held == s.t.held && s'.t.live.Keys <= s.t.live.Keys
    requires forall id :: id in s'.t.live ==> s'.t.live[id] == s.t.live[id] && Due(s', id) == Due(s, id)
    requires forall id :: id in s.t.live && id !in s'.t.live ==> Due(s, id) == 0
    requires s.phase.Callback? ==> s.phase.ctx !in s'.t.live
    ensures NetOk(s')
  {
    forall x | x in s'.t.live ensures CtxOk(s', x) && Count(s'.net, To(x)) == Due(s', x) {
      assert CtxOk(s, x) && Count(s.net, To(x)) == Due(s, x);
    }
    forall k | 0 <= k < |s'.net| ensures EntryOk(s'.t, s'.net[k]) {
      assert EntryOk(s.t, s.net[k]);
      if s.net[k].reqid in s.t.live { AnswerIsDue(s, k); }
      if s.net[k].reqid in s.t.held { assert Places(s.t, s.net[k].reqid) <= 1; }
    }
  }

  lemma {:induction false} ReturnedLive(s: State)
    requires NetOk(s) && !s.phase.Idle?
    ensures Returned(s).live == s.t.live - {CtxId(s.phase), FiberId(s.phase)}
  {
    if CtxId(s.phase) in s.t.live { assert CtxOk(s, CtxId(s.phase)); }
    assert Places(s.t, 0) == 0;
  }

  lemma {:induction false} ReturnNet(s: State, reply: bool)
    requires NetOk(s) && !s.aborted
    ensures var s' := StepReturn(s, reply); NetOk(s') || s'.aborted
    ensures StepReturn(s, reply).aborted ==> s.phase.ctx == 0 && s.msg.kind == Response
  {
    if !s.phase.Idle? {
      var s' := StepReturn(s, reply);
      ReturnedOk(s);
      ReturnedLive(s);
      assert Places(s.t, 0) == 0;
      if CtxId(s.phase) in s.t.live { assert CtxOk(s, CtxId(s.phase)); }
      if !s'.aborted { EndNet(s, s'); }
    }
  }

  lemma {:induction false} WaitNet(s: State, ok: bool)
    requires NetOk(s)
    ensures NetOk(StepWait(s, ok))
  {
    if s.phase.OnFiber? && ok {
      var c, f := s.phase.ctx, s.phase.fiber;
      var s' := StepWait(s, ok);
      EndTurnOk(s.t, c);
      assert Places(s.t, 0) == 0;
      assert CtxOk(s, f);
      forall x | x in s'.t.live ensures CtxOk(s', x) && Count(s'.net, To(x)) == Due(s', x) {
        assert CtxOk(s, x) && Count(s.net, To(x)) == Due(s, x);
        CountAppend(s.net, [s'.net[|s.net|]], To(x));
      }
      forall k | 0 <= k < |s'.net| ensures EntryOk(s'.t, s'.net[k]) {
        if k < |s.net| {
          assert EntryOk(s.t, s.net[k]);
          if s.net[k].reqid in s.t.live { AnswerIsDue(s, k); }
        }
      }
    }
  }
}
