/**
 * An actor in conversation: it takes one message per turn, sends requests, scatters and fiber calls,
 * and is answered in any order. Every message it sent is answered at most once.
 */
module ScatterGather {

  import opened Requests

  /** What the actor is doing; `ctx` is the id of the current context, 0 for none. */
  datatype Phase = Idle | Thread(ctx: int) | Callback(ctx: int) | OnFiber(ctx: int, fiber: int)

  /** A message that will be answered; `uid` is its context, -1 when a failed scatter sent it. */
  datatype Owed = Owed(reqid: int, uid: int, scatter: bool)

  /** One message executed, and the context it resumed or -1. */
  datatype Turn = Turn(msg: Msg, uid: int)

  /** The turn that made a context, and the number of answers it gathers (0 for other contexts). */
  datatype Made = Made(turn: nat, size: nat)

  datatype Call = Call(turn: nat, uid: int, group: seq<Msg>)

  datatype Reply = Reply(turn: nat, kind: Kind, reqid: int, target: int)

  /** `net`, `turns`, `made`, `calls` and `sent` record the conversation; no test of the actor reads them. */
  datatype State = State(
    t: Table, phase: Phase, msg: Msg, aborted: bool, net: seq<Owed>,
    turns: seq<Turn>, made: seq<Made>, calls: seq<Call>, sent: seq<Reply>)

  datatype Choice =
    | Receive(m: Msg)
    | Answer(k: nat, body: int, from: int, asResponse: bool)
    | Ask(wantsReply: bool, ok: bool)
    | ScatterTo(mg: seq<bool>, accepted: nat)
    | StartFiber
    | Wait(ok: bool)
    | Return(reply: bool)

  function CtxId(p: Phase): int {
    if p.Idle? then 0 else p.ctx
  }

  function FiberId(p: Phase): int {
    if p.OnFiber? then p.fiber else 0
  }

  predicate PhaseOk(s: State) {
    match s.phase
    case Idle => true
    case Thread(c) => c == 0 || (c in s.t.live && s.t.live[c].Plain?)
    case Callback(c) => c in s.t.live && s.t.live[c].Gather?
    case OnFiber(c, f) =>
      && f in s.t.live && s.t.live[f].Fiber?
      && (c == 0 || c == f || (c in s.t.live && s.t.live[c].Plain?))
  }

  ghost predicate Wf(s: State) {
    IdsOk(s.t) && PhaseOk(s) && s.t.serial == |s.made| && (!s.phase.Idle? ==> s.turns != [])
  }

  /** The message a context made now would remember. */
  function Initiator(s: State): Msg
    requires PhaseOk(s)
  {
    if CtxId(s.phase) != 0 then s.t.live[CtxId(s.phase)].initiator else s.msg
  }

  function ReplyTo(turn: nat, root: Msg): Reply {
    Reply(turn, if root.kind == Scatter then Gathered else Response, root.reqid, root.sender)
  }

  function Repeat(n: nat, o: Owed): (r: seq<Owed>)
    ensures |r| == n && forall k :: 0 <= k < n ==> r[k] == o
  {
    seq(n, _ => o)
  }

  /** A context appears under a held id, and n messages that it answers for are under way. */
  function Register(s: State, id: int, c: Ctx, size: nat, n: nat): State
    requires id !in s.t.live && s.turns != []
  {
    s.(t := Insert(s.t, id, c), made := s.made + [Made(|s.turns| - 1, size)],
       net := s.net + Repeat(n, Owed(id, c.uid, size > 0)))
  }

  function StepReceive(s: State, m: Msg): State {
    if s.phase.Idle? && (m.kind == Request || m.kind == Scatter)
    then s.(phase := Thread(0), msg := m, turns := s.turns + [Turn(m, -1)])
    else s
  }

  /** `Actor::execute` up to the user's code, for a response or gather message. */
  function StepAnswer(s: State, k: nat, body: int, from: int, asResponse: bool): State {
    if !s.phase.Idle? || k >= |s.net| then s
    else
      var o := s.net[k];
      var m := Msg(body, if o.scatter && !asResponse then Gathered else Response, o.reqid, from);
      var s := s.(net := s.net[..k] + s.net[k + 1..]);
      if o.reqid !in s.t.live then
        if m.kind == Gathered then s.(aborted := true)
        else s.(phase := Thread(0), msg := m, turns := s.turns + [Turn(m, -1)])
      else
        var c := s.t.live[o.reqid];
        match c
        case Plain(uid, _) =>
          if m.kind == Gathered then s.(aborted := true)
          else s.(phase := Thread(o.reqid), msg := m, turns := s.turns + [Turn(m, uid)])
        case Fiber(uid, _, _) =>
          if m.kind == Gathered then s.(aborted := true)
          else s.(phase := OnFiber(o.reqid, o.reqid), msg := m, turns := s.turns + [Turn(m, uid)])
        case Gather(uid, _, size, got, _) => Collect(s, o.reqid, m.(kind := Gathered))
  }

  /** `InsertToGatherCtx`, and `SwitchToGatherCtx` up to the callback. */
  function Collect(s: State, id: int, m: Msg): State
    requires id in s.t.live && s.t.live[id].Gather?
  {
    var c := s.t.live[id];
    var group := c.got + [m];
    var s := s.(t := Update(s.t, id, c.(got := group)), msg := m, turns := s.turns + [Turn(m, c.uid)]);
    if |group| == c.size
    then s.(phase := Callback(id), calls := s.calls + [Call(|s.turns| - 1, c.uid, group)])
    else s
  }

  function StepAsk(s: State, wantsReply: bool, ok: bool): State
    requires Wf(s)
  {
    if s.phase.Idle? || !wantsReply || !HasFree(s.t) then s
    else
      IssueOk(s.t);
      var s1 := s.(t := Issue(s.t));
      if ok then Register(s1, NextId(s.t), Plain(|s.made|, Initiator(s)), 0, 1)
      else s.(t := Release(s1.t, NextId(s.t)))
  }

  function StepScatter(s: State, mg: seq<bool>, accepted: nat): State
    requires Wf(s)
  {
    if s.phase.Idle? || mg == [] || !HasFree(s.t) then s
    else
      IssueOk(s.t);
      var s1 := s.(t := Issue(s.t));
      if false in mg then s1
      else if accepted < |mg| then s1.(net := s.net + Repeat(accepted, Owed(NextId(s.t), -1, true)))
      else Register(s1, NextId(s.t), Gather(|s.made|, Initiator(s), |mg|, [], false), |mg|, |mg|)
  }

  /** A synchronous interface of a strong actor runs on a fiber with a context of its own. */
  function StepStartFiber(s: State): State
    requires Wf(s)
  {
    if !s.phase.Thread? || !HasFree(s.t) then s
    else
      IssueOk(s.t);
      var s1 := s.(t := Issue(s.t));
      Register(s1, NextId(s.t), Fiber(|s.made|, Initiator(s), false), 0, 0).(
        phase := OnFiber(s.phase.ctx, NextId(s.t)))
  }

  /** The end of a turn deletes the current context if it is done. */
  function EndTurn(t: Table, c: int): Table {
    if c in t.live then Delete(t, c) else t
  }

  /** The fiber sends a request under its own id and is suspended; the turn is over. */
  function StepWait(s: State, ok: bool): State
    requires Wf(s)
  {
    if !s.phase.OnFiber? || !ok then s
    else
      var f := s.phase.fiber;
      s.(t := EndTurn(s.t, s.phase.ctx), phase := Idle, net := s.net + [Owed(f, s.t.live[f].uid, false)])
  }

  /** The table at the end of a turn whose user code returned. */
  function Returned(s: State): Table
    requires Wf(s) && !s.phase.Idle?
  {
    match s.phase
    case Thread(c) => EndTurn(s.t, c)
    case Callback(c) => EndTurn(Update(s.t, c, s.t.live[c].(done := true)), c)
    case OnFiber(c, f) =>
      var t := Update(s.t, f, s.t.live[f].(dead := true));
      EndTurn(if f != c then Delete(t, f) else t, c)
  }

  /** A reply answers the message itself, or for a response or a gather what the context remembers. */
  function StepReturn(s: State, reply: bool): State
    requires Wf(s)
  {
    if s.phase.Idle? then s
    else if reply && s.phase.ctx == 0 && s.msg.kind == Response then s.(aborted := true)
    else
      var root := if s.phase.Callback? || s.msg.kind == Response then Initiator(s) else s.msg;
      s.(t := Returned(s), phase := Idle,
         sent := if reply then s.sent + [ReplyTo(|s.turns| - 1, root)] else s.sent)
  }

  function Step0(s: State, c: Choice): State
    requires Wf(s)
  {
    if s.aborted then s
    else
      match c
      case Receive(m) => StepReceive(s, m)
      case Answer(k, body, from, asResponse) => StepAnswer(s, k, body, from, asResponse)
      case Ask(wantsReply, ok) => StepAsk(s, wantsReply, ok)
      case ScatterTo(mg, accepted) => StepScatter(s, mg, accepted)
      case StartFiber => StepStartFiber(s)
      case Wait(ok) => StepWait(s, ok)
      case Return(reply) => StepReturn(s, reply)
  }

  // ---- Ids through a run ----

  lemma {:induction false} EndTurnOk(t: Table, c: int)
    requires IdsOk(t)
    ensures IdsOk(EndTurn(t, c)) && EndTurn(t, c).serial == t.serial && EndTurn(t, c).held == t.held
  {
    if c in t.live { DeleteOk(t, c); }
  }

  lemma {:induction false} ReturnedOk(s: State)
    requires Wf(s) && !s.phase.Idle?
    ensures IdsOk(Returned(s)) && Returned(s).serial == s.t.serial && Returned(s).held == s.t.held
  {
    match s.phase {
      case Thread(c) => {
        EndTurnOk(s.t, c);
      }
      case Callback(c) => {
        UpdateOk(s.t, c, s.t.live[c].(done := true));
        EndTurnOk(Update(s.t, c, s.t.live[c].(done := true)), c);
      }
      case OnFiber(c, f) => {
        var t := Update(s.t, f, s.t.live[f].(dead := true));
        UpdateOk(s.t, f, s.t.live[f].(dead := true));
        DeleteOk(t, f);
        EndTurnOk(if f != c then Delete(t, f) else t, c);
      }
    }
  }

  lemma {:induction false} AnswerWf(s: State, k: nat, body: int, from: int, asResponse: bool)
    requires Wf(s)
    ensures var s' := StepAnswer(s, k, body, from, asResponse); Wf(s') && s'.t.held == s.t.held
  {
    if s.phase.Idle? && k < |s.net| && s.net[k].reqid in s.t.live && s.t.live[s.net[k].reqid].Gather? {
      var c := s.t.live[s.net[k].reqid];
      UpdateOk(s.t, s.net[k].reqid, c.(got := c.got + [Msg(body, Gathered, s.net[k].reqid, from)]));
    }
  }

  lemma {:induction false} IssueWf(s: State, c: Choice)
    requires Wf(s) && (c.Ask? || c.ScatterTo? || c.StartFiber?)
    ensures Wf(Step0(s, c)) && s.t.held <= Step0(s, c).t.held
  {
    if HasFree(s.t) {
      IssueOk(s.t);
      var t, id := Issue(s.t), NextId(s.t);
      ReleaseOk(t, id);
      InsertOk(t, id, Plain(|s.made|, Initiator(s)));
      InsertOk(t, id, Fiber(|s.made|, Initiator(s), false));
      if c.ScatterTo? { InsertOk(t, id, Gather(|s.made|, Initiator(s), |c.mg|, [], false)); }
    }
  }

  lemma {:induction false} StepWf(s: State, c: Choice)
    requires Wf(s)
    ensures Wf(Step0(s, c)) && s.t.held <= Step0(s, c).t.held
  {
    match c {
      case Answer(k, body, from, asResponse) => {
        AnswerWf(s, k, body, from, asResponse);
      }
      case Return(reply) => {
        if !s.phase.Idle? { ReturnedOk(s); }
      }
      case Wait(ok) => {
        if s.phase.OnFiber? { EndTurnOk(s.t, s.phase.ctx); }
      }
      case Receive(_) => {}
      case _ => {
        IssueWf(s, c);
      }
    }
  }

  function Step(s: State, c: Choice): (s': State)
    requires Wf(s)
    ensures Wf(s') && s.t.held <= s'.t.held
  {
    StepWf(s, c);
    Step0(s, c)
  }

  function Run(s: State, sched: seq<Choice>): (s': State)
    requires Wf(s)
    ensures Wf(s') && s.t.held <= s'.t.held
    decreases |sched|
  {
    if sched == [] then s else Run(Step(s, sched[0]), sched[1..])
  }

  function Start(m: Msg): (s: State)
    ensures Wf(s)
  {
    EmptyOk();
    State(EMPTY, Idle, m, false, [], [], [], [], [])
  }
}
