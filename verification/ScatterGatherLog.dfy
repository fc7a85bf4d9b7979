/** Who is answered, and with what: the conversation of an actor over whole runs. */
module ScatterGatherLog {

  import opened Tally
  import opened Requests
  import opened ScatterGather
  import opened ScatterGatherNet

  /** Contexts are made in turns there have been, and resumed in later turns than they were made in. */
  predicate LinkOk(turns: seq<Turn>, made: seq<Made>) {
    && (forall u :: 0 <= u < |made| ==> made[u].turn < |turns|)
    && (forall k :: 0 <= k < |turns| ==> -1 <= turns[k].uid < |made|)
    && (forall k :: 0 <= k < |turns| && 0 <= turns[k].uid < |made| ==> made[turns[k].uid].turn < k)
  }

  /**
   * The message that started the chain of turn k: from context to the turn that made it, back to a
   * turn that resumed no context.
   */
  function Origin(turns: seq<Turn>, made: seq<Made>, k: nat): Msg
    requires LinkOk(turns, made) && k < |turns|
  {
    if turns[k].uid < 0 then turns[k].msg else Origin(turns, made, made[turns[k].uid].turn)
  }

  /** The messages that resumed a context, in order of arrival. */
  function Answers(turns: seq<Turn>, u: int): seq<Msg> {
    if turns == [] then []
    else
      var n := |turns| - 1;
      Answers(turns[..n], u) + if turns[n].uid == u then [turns[n].msg] else []
  }

  predicate CallFor(u: int, c: Call) { c.uid == u }

  function Of(u: int): Call -> bool { c => CallFor(u, c) }

  predicate CtxLog(s: State, id: int)
    requires LinkOk(s.turns, s.made) && id in s.t.live && 0 <= s.t.live[id].uid < |s.made|
  {
    var c := s.t.live[id];
    && c.initiator == Origin(s.turns, s.made, s.made[c.uid].turn)
    && (c.Gather? ==> c.got == Answers(s.turns, c.uid) && c.size == s.made[c.uid].size)
    && (!c.Gather? ==> s.made[c.uid].size == 0)
  }

  predicate CurrentLog(s: State)
    requires PhaseOk(s)
  {
    !s.phase.Idle? ==>
      && s.turns != []
      && var last := s.turns[|s.turns| - 1];
         && s.msg == last.msg
         && (if s.phase.ctx == 0 then last.uid == -1 else last.uid == s.t.live[s.phase.ctx].uid)
         && (s.phase.Callback? || (s.msg.kind != Gathered && (s.phase.ctx != 0 ==> s.msg.kind == Response)))
  }

  /** The callback of a gather ran once if all its answers have come, and not at all before. */
  predicate GatherLog(s: State, u: int)
    requires 0 <= u < |s.made|
  {
    s.made[u].size > 0 ==>
      && |Answers(s.turns, u)| <= s.made[u].size
      && Count(s.calls, Of(u)) == One(|Answers(s.turns, u)| == s.made[u].size)
  }

  /** A callback ran in the turn of the last of `size` answers, on exactly those. */
  predicate CallLog(s: State, c: Call) {
    && 0 <= c.uid < |s.made| && c.turn < |s.turns| && s.turns[c.turn].uid == c.uid
    && c.group == Answers(s.turns[..c.turn + 1], c.uid) && |c.group| == s.made[c.uid].size > 0
  }

  /** A reply goes where the message came from that started the chain. */
  predicate SentLog(s: State, r: Reply)
    requires LinkOk(s.turns, s.made)
  {
    r.turn < |s.turns| && r == ReplyTo(r.turn, Origin(s.turns, s.made, r.turn))
  }

  ghost predicate LogOk(s: State)
    requires NetOk(s)
  {
    && LinkOk(s.turns, s.made) && CurrentLog(s)
    && (forall id :: id in s.t.live ==> CtxOk(s, id) && CtxLog(s, id))
    && (forall u :: 0 <= u < |s.made| ==> GatherLog(s, u))
    && (forall i :: 0 <= i < |s.calls| ==> CallLog(s, s.calls[i]))
    && (forall i :: 0 <= i < |s.sent| ==> SentLog(s, s.sent[i]))
  }

  // ---- The record only grows ----

  lemma {:induction false} OriginGrows(turns: seq<Turn>, made: seq<Made>, turns': seq<Turn>, made': seq<Made>, k: nat)
    requires LinkOk(turns, made) && LinkOk(turns', made') && k < |turns|
    requires turns <= turns' && made <= made'
    ensures Origin(turns', made', k) == Origin(turns, made, k)
    decreases k
  {
    if turns[k].uid >= 0 {
      OriginGrows(turns, made, turns', made', made[turns[k].uid].turn);
    }
  }

  lemma {:induction false} AnswersNone(turns: seq<Turn>, u: int)
    requires forall k :: 0 <= k < |turns| ==> turns[k].uid != u
    ensures Answers(turns, u) == []
  {
    if turns == [] {
    } else {
      AnswersNone(turns[..|turns| - 1], u);
    }
  }

  /** The message a context made now remembers is the origin of this turn. */
  lemma {:induction false} InitiatorIsOrigin(s: State)
    requires NetOk(s) && LogOk(s) && !s.phase.Idle?
    ensures Initiator(s) == Origin(s.turns, s.made, |s.turns| - 1)
  {
    var c := s.phase.ctx;
    if c != 0 { assert CtxOk(s, c) && CtxLog(s, c); }
  }

  // ---- Steps that make a context ----

  lemma {:induction false} RegisterLink(s: State, size: nat)
    requires NetOk(s) && LogOk(s) && s.turns != []
    ensures LinkOk(s.turns, s.made + [Made(|s.turns| - 1, size)])
  {
  }

  lemma {:induction false} RegisterCtx(s: State, id: int, c: Ctx, size: nat, n: nat, x: int)
    requires MayRegister(s, id, c, size, n) && LogOk(s) && c.initiator == Initiator(s)
    requires NetOk(Registered(s, id, c, size, n)) && x in Registered(s, id, c, size, n).t.live
    requires LinkOk(s.turns, Registered(s, id, c, size, n).made)
    ensures var s' := Registered(s, id, c, size, n); CtxOk(s', x) && CtxLog(s', x)
  {
    var s' := Registered(s, id, c, size, n);
    assert CtxOk(s', x);
    if x == id {
      InitiatorIsOrigin(s);
      OriginGrows(s.turns, s.made, s'.turns, s'.made, |s.turns| - 1);
      AnswersNone(s.turns, c.uid);
    } else {
      assert CtxOk(s, x) && CtxLog(s, x);
      OriginGrows(s.turns, s.made, s'.turns, s'.made, s.made[s.t.live[x].uid].turn);
    }
  }

  lemma {:induction false} RegisterGather(s: State, id: int, c: Ctx, size: nat, n: nat, u: int)
    requires MayRegister(s, id, c, size, n) && LogOk(s) && 0 <= u <= |s.made|
    ensures GatherLog(Registered(s, id, c, size, n), u)
  {
    if u < |s.made| {
      assert GatherLog(s, u);
    } else {
      AnswersNone(s.turns, u);
      CountZero(s.calls, Of(u));
      assert forall i :: 0 <= i < |s.calls| ==> CallLog(s, s.calls[i]);
    }
  }

  lemma {:induction false} RegisterCtxs(s: State, id: int, c: Ctx, size: nat, n: nat)
    requires MayRegister(s, id, c, size, n) && LogOk(s) && c.initiator == Initiator(s)
    requires NetOk(Registered(s, id, c, size, n)) && LinkOk(s.turns, Registered(s, id, c, size, n).made)
    ensures var s' := Registered(s, id, c, size, n);
      forall x :: x in s'.t.live ==> CtxOk(s', x) && CtxLog(s', x)
  {
    var s' := Registered(s, id, c, size, n);
    forall x | x in s'.t.live ensures CtxOk(s', x) && CtxLog(s', x) {
      RegisterCtx(s, id, c, size, n, x);
    }
  }

  lemma {:induction false} RegisterGathers(s: State, id: int, c: Ctx, size: nat, n: nat)
    requires MayRegister(s, id, c, size, n) && LogOk(s)
    ensures var s' := Registered(s, id, c, size, n);
      forall u :: 0 <= u < |s'.made| ==> GatherLog(s', u)
  {
    var s' := Registered(s, id, c, size, n);
    forall u | 0 <= u < |s'.made| ensures GatherLog(s', u) {
      RegisterGather(s, id, c, size, n, u);
    }
  }

  lemma {:induction false} RegisterCalls(s: State, id: int, c: Ctx, size: nat, n: nat)
    requires MayRegister(s, id, c, size, n) && LogOk(s)
    ensures var s' := Registered(s, id, c, size, n);
      forall i :: 0 <= i < |s'.calls| ==> CallLog(s', s'.calls[i])
  {
    var s' := Registered(s, id, c, size, n);
    forall i | 0 <= i < |s'.calls| ensures CallLog(s', s'.calls[i]) {
      assert CallLog(s, s.calls[i]);
    }
  }

  lemma {:induction false} RegisterSent(s: State, id: int, c: Ctx, size: nat, n: nat)
    requires MayRegister(s, id, c, size, n) && LogOk(s) && LinkOk(s.turns, Registered(s, id, c, size, n).made)
    ensures var s' := Registered(s, id, c, size, n);
      forall i :: 0 <= i < |s'.sent| ==> SentLog(s', s'.sent[i])
  {
    var s' := Registered(s, id, c, size, n);
    forall i | 0 <= i < |s'.sent| ensures SentLog(s', s'.sent[i]) {
      assert SentLog(s, s.sent[i]);
      OriginGrows(s.turns, s.made, s'.turns, s'.made, s.sent[i].turn);
    }
  }

  lemma {:induction false} RegisterLog(s: State, id: int, c: Ctx, size: nat, n: nat)
    requires MayRegister(s, id, c, size, n) && LogOk(s) && c.initiator == Initiator(s)
    ensures var s' := Registered(s, id, c, size, n); NetOk(s') && LogOk(s')
  {
    RegisterNet(s, id, c, size, n);
    RegisterLink(s, size);
    RegisterCtxs(s, id, c, size, n);
    RegisterGathers(s, id, c, size, n);
    RegisterCalls(s, id, c, size, n);
    RegisterSent(s, id, c, size, n);
    CurrentRegistered(s, id, c, size, n);
  }

  lemma {:induction false} CurrentRegistered(s: State, id: int, c: Ctx, size: nat, n: nat)
    requires MayRegister(s, id, c, size, n) && LogOk(s) && PhaseOk(Registered(s, id, c, size, n))
    ensures CurrentLog(Registered(s, id, c, size, n))
  {
    assert CtxId(s.phase) != id by { RegisterWf(s, id, c, size, n); }
  }

  /** Steps that change neither the contexts nor the record. */
  lemma {:induction false} SameLog(s: State, s': State)
    requires NetOk(s) && LogOk(s) && NetOk(s') && s'.t.live == s.t.live && s'.phase == s.phase && s'.msg == s.msg
    requires s'.turns == s.turns && s'.made == s.made && s'.calls == s.calls && s'.sent == s.sent
    ensures LogOk(s')
  {
    forall id | id in s'.t.live ensures CtxOk(s', id) && CtxLog(s', id) {
      assert CtxOk(s, id) && CtxLog(s, id);
    }
    forall u | 0 <= u < |s'.made| ensures GatherLog(s', u) { assert GatherLog(s, u); }
    forall i | 0 <= i < |s'.calls| ensures CallLog(s', s'.calls[i]) { assert CallLog(s, s.calls[i]); }
    forall i | 0 <= i < |s'.sent| ensures SentLog(s', s'.sent[i]) { assert SentLog(s, s.sent[i]); }
  }

  lemma {:induction false} IssuingLog(s: State, c: Choice)
    requires NetOk(s) && LogOk(s) && !s.aborted && (c.Ask? || c.ScatterTo? || c.StartFiber?)
    ensures NetOk(Step(s, c)) && LogOk(Step(s, c))
  {
    if !s.phase.Idle? && HasFree(s.t) {
      HeldMore(s);
      IssueOk(s.t);
      var s1, id := s.(t := Issue(s.t)), NextId(s.t);
      SameLog(s, s1);
      match c {
        case Ask(wantsReply, ok) => {
          AskNet(s, wantsReply, ok);
          if wantsReply && ok { RegisterLog(s1, id, Plain(|s.made|, Initiator(s)), 0, 1); }
          if !(wantsReply && ok) { SameLog(s, Step(s, c)); }
        }
        case ScatterTo(mg, accepted) => {
          ScatterNet(s, mg, accepted);
          if mg != [] && false !in mg && accepted >= |mg| {
            RegisterLog(s1, id, Gather(|s.made|, Initiator(s), |mg|, [], false), |mg|, |mg|);
          } else {
            SameLog(s, Step(s, c));
          }
        }
        case StartFiber => {
          if s.phase.Thread? { RegisterLog(s1, id, Fiber(|s.made|, Initiator(s), false), 0, 0); }
        }
      }
    }
  }

  // ---- Steps that begin a turn ----

  function Resumed(s: State, id: int): int {
    if id in s.t.live then s.t.live[id].uid else -1
  }

  /** A turn begins; the context it resumes, if any, is live, and a gather collects the message. */
  ghost predicate BeginsTurn(s: State, s': State, id: int) {
    && NetOk(s) && LogOk(s) && NetOk(s') && s.phase.Idle?
    && s'.made == s.made && s'.sent == s.sent && s'.turns == s.turns + [Turn(s'.msg, Resumed(s, id))]
    && (if id in s.t.live && s.t.live[id].Gather? then
          var group := s.t.live[id].got + [s'.msg];
          && s'.t.live == s.t.live[id := s.t.live[id].(got := group)]
          && s'.calls == s.calls + (if s'.phase.Callback? then [Call(|s.turns|, s.t.live[id].uid, group)] else [])
          && s'.phase == if |group| == s.t.live[id].size then Callback(id) else Idle
        else
          && s'.t.live == s.t.live && s'.calls == s.calls && !s'.phase.Callback? && !s'.phase.Idle?
          && s'.phase.ctx == (if id in s.t.live then id else 0)
          && s'.msg.kind != Gathered && (id in s.t.live ==> s'.msg.kind == Response))
  }

  lemma {:induction false} TurnLink(s: State, s': State, id: int)
    requires BeginsTurn(s, s', id)
    ensures LinkOk(s'.turns, s'.made) && CurrentLog(s')
  {
    if id in s.t.live { assert CtxOk(s, id); }
    assert Places(s.t, 0) == 0;
  }

  lemma {:induction false} AnswersMore(s: State, s': State, id: int, u: int)
    requires BeginsTurn(s, s', id)
    ensures Answers(s'.turns, u) == Answers(s.turns, u) + if Resumed(s, id) == u then [s'.msg] else []
  {
    assert s'.turns[..|s.turns|] == s.turns;
  }

  lemma {:induction false} TurnCtx(s: State, s': State, id: int, x: int)
    requires BeginsTurn(s, s', id) && x in s'.t.live && LinkOk(s'.turns, s'.made)
    ensures CtxOk(s', x) && CtxLog(s', x)
  {
    assert CtxOk(s, x) && CtxLog(s, x) && CtxOk(s', x);
    OriginGrows(s.turns, s.made, s'.turns, s'.made, s.made[s.t.live[x].uid].turn);
    AnswersMore(s, s', id, s.t.live[x].uid);
  }

  lemma {:induction false} TurnGather(s: State, s': State, id: int, u: int)
    requires BeginsTurn(s, s', id) && 0 <= u < |s.made|
    ensures GatherLog(s', u)
  {
    assert GatherLog(s, u);
    AnswersMore(s, s', id, u);
    if id in s.t.live {
      assert CtxOk(s, id) && CtxLog(s, id);
      if s.t.live[id].Gather? {
        CountAppend(s.calls, s'.calls[|s.calls|..], Of(u));
        assert s'.calls == s.calls + s'.calls[|s.calls|..];
      }
    }
  }

  lemma {:induction false} TurnCall(s: State, s': State, id: int, i: nat)
    requires BeginsTurn(s, s', id) && i < |s'.calls|
    ensures CallLog(s', s'.calls[i])
  {
    if i < |s.calls| {
      var k := s.calls[i].turn;
      assert CallLog(s, s.calls[i]) && s'.calls[i] == s.calls[i];
      assert s'.turns[..k + 1] == s.turns[..k + 1];
    } else {
      assert CtxOk(s, id) && CtxLog(s, id);
      assert s'.turns[..|s.turns| + 1] == s'.turns;
      AnswersMore(s, s', id, s.t.live[id].uid);
    }
  }

  lemma {:induction false} TurnLog(s: State, s': State, id: int)
    requires BeginsTurn(s, s', id)
    ensures LogOk(s')
  {
    TurnLink(s, s', id);
    forall x | x in s'.t.live ensures CtxOk(s', x) && CtxLog(s', x) { TurnCtx(s, s', id, x); }
    forall u | 0 <= u < |s'.made| ensures GatherLog(s', u) { TurnGather(s, s', id, u); }
    forall i | 0 <= i < |s'.calls| ensures CallLog(s', s'.calls[i]) { TurnCall(s, s', id, i); }
    forall i | 0 <= i < |s'.sent| ensures SentLog(s', s'.sent[i]) {
      assert SentLog(s, s.sent[i]);
      OriginGrows(s.turns, s.made, s'.turns, s'.made, s.sent[i].turn);
    }
  }

  lemma {:induction false} ReceiveLog(s: State, m: Msg)
    requires NetOk(s) && LogOk(s)
    ensures NetOk(StepReceive(s, m)) && LogOk(StepReceive(s, m))
  {
    var s' := StepReceive(s, m);
    ReceiveNet(s, m);
    if s' != s {
      assert Places(s.t, 0) == 0;
      TurnLog(s, s', 0);
    }
  }

  lemma {:induction false} AnswerLog(s: State, k: nat, body: int, from: int, asResponse: bool)
    requires NetOk(s) && LogOk(s) && !s.aborted
    ensures var s' := StepAnswer(s, k, body, from, asResponse); s'.aborted || (NetOk(s') && LogOk(s'))
  {
    AnswerNet(s, k, body, from, asResponse);
    var s' := StepAnswer(s, k, body, from, asResponse);
    if s.phase.Idle? && k < |s.net| && !s'.aborted {
      assert EntryOk(s.t, s.net[k]);
      TurnLog(s, s', s.net[k].reqid);
    }
  }

  // ---- Steps that end a turn ----

  lemma {:induction false} EndLog(s: State, s': State)
    requires NetOk(s) && LogOk(s) && NetOk(s') && s'.phase.Idle? && s'.made == s.made && s'.turns == s.turns
    requires s'.t.live.Keys <= s.t.live.Keys && s'.calls == s.calls
    requires forall id :: id in s'.t.live ==> s'.t.live[id] == s.t.live[id]
    requires s'.sent == s.sent || (s.turns != [] && s'.sent == s.sent +
               [ReplyTo(|s.turns| - 1, Origin(s.turns, s.made, |s.turns| - 1))])
    ensures LogOk(s')
  {
    forall id | id in s'.t.live ensures CtxOk(s', id) && CtxLog(s', id) {
      assert CtxOk(s, id) && CtxLog(s, id);
    }
    forall u | 0 <= u < |s'.made| ensures GatherLog(s', u) { assert GatherLog(s, u); }
    forall i | 0 <= i < |s'.calls| ensures CallLog(s', s'.calls[i]) { assert CallLog(s, s.calls[i]); }
    forall i | 0 <= i < |s'.sent| ensures SentLog(s', s'.sent[i]) {
      if i < |s.sent| { assert SentLog(s, s.sent[i]); }
    }
  }

  lemma {:induction false} ReturnLog(s: State, reply: bool)
    requires NetOk(s) && LogOk(s) && !s.aborted
    ensures var s' := StepReturn(s, reply); s'.aborted || (NetOk(s') && LogOk(s'))
  {
    ReturnNet(s, reply);
    var s' := StepReturn(s, reply);
    if !s.phase.Idle? && !s'.aborted {
      ReturnedLive(s);
      InitiatorIsOrigin(s);
      EndLog(s, s');
    }
  }

  lemma {:induction false} WaitLog(s: State, ok: bool)
    requires NetOk(s) && LogOk(s)
    ensures NetOk(StepWait(s, ok)) && LogOk(StepWait(s, ok))
  {
    WaitNet(s, ok);
    if s.phase.OnFiber? && ok { EndLog(s, StepWait(s, ok)); }
  }

  // ---- Whole runs ----

  /** Only an answer to a failed scatter runs without a context. */
  predicate LateOk(s: State) {
    !s.phase.Idle? && s.phase.ctx == 0 && s.msg.kind == Response ==> s.t.held != {}
  }

  lemma {:induction false} LateStep(s: State, c: Choice)
    requires NetOk(s) && LateOk(s)
    ensures LateOk(Step(s, c))
  {
    if c.Answer? && c.k < |s.net| { assert EntryOk(s.t, s.net[c.k]); }
    assert Places(s.t, 0) == 0;
  }

  /** What holds in every state the actor reaches, unless an assertion of the program stopped it. */
  ghost predicate Inv(s: State) {
    (NetOk(s) && LogOk(s) && LateOk(s) && !s.aborted) || (s.aborted && s.t.held != {})
  }

  lemma {:induction false} StepKeeps(s: State, c: Choice)
    requires Wf(s) && Inv(s)
    ensures Inv(Step(s, c))
  {
    if !s.aborted {
      LateStep(s, c);
      match c {
        case Receive(m) => {
          ReceiveLog(s, m);
        }
        case Answer(k, body, from, asResponse) => {
          AnswerLog(s, k, body, from, asResponse);
          AnswerNet(s, k, body, from, asResponse);
          AnswerWf(s, k, body, from, asResponse);
        }
        case Wait(ok) => {
          WaitLog(s, ok);
        }
        case Return(reply) => {
          ReturnNet(s, reply);
          ReturnLog(s, reply);
        }
        case _ => {
          IssuingLog(s, c);
        }
      }
    }
  }

  lemma {:induction false} RunKeeps(s: State, sched: seq<Choice>)
    requires Wf(s) && Inv(s)
    ensures Inv(Run(s, sched))
    decreases |sched|
  {
    if sched == [] {
    } else {
      StepKeeps(s, sched[0]);
      RunKeeps(Step(s, sched[0]), sched[1..]);
    }
  }

  lemma {:induction false} StartInv(m: Msg)
    ensures Inv(Start(m))
  {
  }

  /**
   * In every run: the ids are in one place each, so every registration finds its id free; ids held
   * by a failed scatter stay held, so they are never issued again; and nothing is under way to a
   * recycled id.
   */
  lemma {:induction false} IdsNeverClash(m: Msg, before: seq<Choice>, after: seq<Choice>, id: int)
    ensures var s := Run(Start(m), before); var s' := Run(s, after);
      && IdsOk(s'.t)
      && (id in s.t.held ==> id in s'.t.held && id !in s'.t.live && id !in s'.t.recycle && NextId(s'.t) != id)
      && (id in s'.t.recycle && !s'.aborted ==> Count(s'.net, To(id)) == 0)
  {
    var s := Run(Start(m), before);
    var s' := Run(s, after);
    StartInv(m);
    RunKeeps(Start(m), before);
    RunKeeps(s, after);
    assert Inv(s');
    InOnePlace(s'.t, id);
    if id in s'.t.recycle && !s'.aborted { RecycledIsQuiet(s', id); }
  }

  /**
   * Of scatter u, of size n, at most n answers have come; the callback has run once if all n have come
   * and not at all otherwise, in the turn of the n-th answer, on exactly those n messages in their
   * order of arrival.
   */
  predicate RanOnce(s: State, u: nat)
    requires u < |s.made|
  {
    && |Answers(s.turns, u)| <= s.made[u].size
    && Count(s.calls, Of(u)) == One(|Answers(s.turns, u)| == s.made[u].size)
    && forall i :: 0 <= i < |s.calls| && s.calls[i].uid == u ==>
         var c := s.calls[i];
         && c.turn < |s.turns| && s.turns[c.turn].uid == u
         && c.group == Answers(s.turns[..c.turn + 1], u) && |c.group| == s.made[u].size
  }

  lemma {:induction false} LogRanOnce(s: State, u: nat)
    requires NetOk(s) && LogOk(s) && u < |s.made| && s.made[u].size > 0
    ensures RanOnce(s, u)
  {
    assert GatherLog(s, u);
    assert forall i :: 0 <= i < |s.calls| ==> CallLog(s, s.calls[i]);
  }

  /** In every run and for every scatter the callback runs exactly once, on all the answers. */
  lemma {:induction false} GatherExactlyOnce(m: Msg, sched: seq<Choice>, u: nat)
    ensures var s := Run(Start(m), sched);
      !s.aborted && u < |s.made| && s.made[u].size > 0 ==> RanOnce(s, u)
  {
    StartInv(m);
    RunKeeps(Start(m), sched);
    var s := Run(Start(m), sched);
    if !s.aborted && u < |s.made| && s.made[u].size > 0 { LogRanOnce(s, u); }
  }

  /**
   * In every run each reply, whether returned by an interface, a fiber or a gather callback, carries
   * the request id of the message that started its chain, goes to that message's sender, and is a
   * gather message exactly when that message was scattered, however deep the chain.
   */
  lemma {:induction false} RepliesReachTheInitiator(m: Msg, sched: seq<Choice>, i: nat)
    ensures var s := Run(Start(m), sched);
      !s.aborted && i < |s.sent| ==>
        && LinkOk(s.turns, s.made) && s.sent[i].turn < |s.turns|
        && var root := Origin(s.turns, s.made, s.sent[i].turn);
           && s.sent[i].reqid == root.reqid && s.sent[i].target == root.sender
           && s.sent[i].kind == (if root.kind == Scatter then Gathered else Response)
  {
    StartInv(m);
    RunKeeps(Start(m), sched);
    var s := Run(Start(m), sched);
    if !s.aborted && i < |s.sent| { assert SentLog(s, s.sent[i]); }
  }

  lemma {:induction false} RunCons(s: State, c: Choice, sched: seq<Choice>)
    requires Wf(s)
    ensures Run(s, [c] + sched) == Run(Step(s, c), sched)
  {
    assert ([c] + sched)[1..] == sched;
  }

  // ---- When the assertions on message types fail ----

  /** A scatter of which some messages could be sent, but not all. */
  predicate Partial(c: Choice) {
    c.ScatterTo? && c.mg != [] && false !in c.mg && 0 < c.accepted < |c.mg|
  }

  /** Every answer under way has a context, and a response is only executed with one. */
  ghost predicate NoneLate(s: State) {
    && NetOk(s) && !s.aborted
    && (forall k :: 0 <= k < |s.net| ==> s.net[k].uid >= 0)
    && (!s.phase.Idle? && s.phase.ctx == 0 ==> s.msg.kind != Response)
  }

  lemma {:induction false} AnswerNoneLate(s: State, c: Choice)
    requires NoneLate(s) && c.Answer?
    ensures NoneLate(Step(s, c))
  {
    AnswerNet(s, c.k, c.body, c.from, c.asResponse);
    if c.k < |s.net| {
      assert EntryOk(s.t, s.net[c.k]) && s.net[c.k].uid >= 0;
      assert Places(s.t, 0) == 0;
    }
  }

  lemma {:induction false} IssuingNoneLate(s: State, c: Choice)
    requires NoneLate(s) && (c.Ask? || c.ScatterTo? || c.StartFiber?) && !Partial(c)
    ensures NoneLate(Step(s, c))
  {
    match c {
      case Ask(wantsReply, ok) => {
        AskNet(s, wantsReply, ok);
      }
      case ScatterTo(mg, accepted) => {
        ScatterNet(s, mg, accepted);
      }
      case StartFiber => {
        StartFiberNet(s);
      }
    }
  }

  lemma {:induction false} StepNoneLate(s: State, c: Choice)
    requires NoneLate(s) && !Partial(c)
    ensures NoneLate(Step(s, c))
  {
    match c {
      case Receive(m) => {
        ReceiveNet(s, m);
      }
      case Answer(_, _, _, _) => {
        AnswerNoneLate(s, c);
      }
      case Wait(ok) => {
        WaitNet(s, ok);
        if s.phase.OnFiber? { assert CtxOk(s, s.phase.fiber); }
      }
      case Return(reply) => {
        ReturnNet(s, reply);
      }
      case _ => {
        IssuingNoneLate(s, c);
      }
    }
  }

  lemma {:induction false} RunNoneLate(s: State, sched: seq<Choice>)
    requires NoneLate(s) && forall i :: 0 <= i < |sched| ==> !Partial(sched[i])
    ensures NoneLate(Run(s, sched))
    decreases |sched|
  {
    if sched == [] {
    } else {
      StepNoneLate(s, sched[0]);
      RunNoneLate(Step(s, sched[0]), sched[1..]);
    }
  }

  /** The end of the present turn and then the answer to the last message under way. */
  function LateAnswer(s: State): seq<Choice> {
    [Return(false)] + [Answer(if |s.net| > 0 then |s.net| - 1 else 0, 0, 0, false)]
  }

  /**
   * From every state of every run: once a scatter sends some of its messages but not all, the answer
   * to one of them fails an assertion.
   */
  lemma {:induction false} PartialScatterAborts(s: State, c: Choice)
    requires Wf(s) && Inv(s) && !s.aborted && Partial(c) && !s.phase.Idle? && HasFree(s.t)
    ensures Run(Step(s, c), LateAnswer(Step(s, c))).aborted
  {
    var s1, id := Step(s, c), NextId(s.t);
    IssueOk(s.t);
    assert s1.net[|s1.net| - 1] == Owed(id, -1, true) && id in s1.t.held && s1.phase == s.phase;
    var s2 := Step(s1, Return(false));
    assert s2.net == s1.net && s2.phase.Idle?;
    assert id in s2.t.held;
    assert Places(s2.t, id) <= 1;
    var a := Answer(|s1.net| - 1, 0, 0, false);
    RunCons(s1, Return(false), [a]);
    RunCons(s2, a, []);
    assert [a] + [] == [a];
    assert Step(s2, a).aborted;
  }

  const FIRST := Receive(Msg(0, Request, 0, 0))

  lemma {:induction false} FirstTurn(m: Msg)
    ensures var s1 := Step(Start(m), FIRST); Inv(s1) && !s1.aborted && !s1.phase.Idle? && HasFree(s1.t)
  {
    StartInv(m);
    StepKeeps(Start(m), FIRST);
  }

  /** From the start: a message, the scatter, the end of the turn, the late answer. */
  lemma {:induction false} AbortingRun(m: Msg, c: Choice) returns (sched: seq<Choice>)
    requires Partial(c)
    ensures Run(Start(m), sched).aborted
    ensures forall i :: 0 <= i < |sched| ==> sched[i] == c || !sched[i].ScatterTo?
  {
    FirstTurn(m);
    var s1 := Step(Start(m), FIRST);
    PartialScatterAborts(s1, c);
    var tail := LateAnswer(Step(s1, c));
    RunCons(s1, c, tail);
    RunCons(Start(m), FIRST, [c] + tail);
    sched := [FIRST] + ([c] + tail);
  }

  ghost predicate Allows(allowed: Choice -> bool, sched: seq<Choice>) {
    forall i :: 0 <= i < |sched| ==> allowed(sched[i])
  }

  /**
   * Whatever the actor and its peers may choose, as long as only scatters are restricted: some run
   * fails an assertion if and only if a scatter may send some of its messages but not all.
   */
  lemma {:induction false} AbortsIffPartialScatter(m: Msg, allowed: Choice -> bool)
    requires forall c: Choice :: !c.ScatterTo? ==> allowed(c)
    ensures (exists sched :: Allows(allowed, sched) && Run(Start(m), sched).aborted)
       <==> exists c: Choice :: allowed(c) && Partial(c)
  {
    if c :| allowed(c) && Partial(c) {
      var sched := AbortingRun(m, c);
      assert Allows(allowed, sched);
    } else {
      forall sched | Allows(allowed, sched) ensures !Run(Start(m), sched).aborted {
        RunNoneLate(Start(m), sched);
      }
    }
  }
}
