/**
 * The traffic of an actor over whole runs, told from what its peers and its own code chose to do:
 * every message is executed once, every message sent is owed an answer until it comes, and every turn
 * that returned a message is answered once.
 */
module ScatterGatherTurns {

  import opened Tally
  import opened Requests
  import opened ScatterGather
  import opened ScatterGatherNet
  import opened ScatterGatherLog

  // ---- Messages in ----

  /** A message as its sender knows it. */
  datatype Letter = Letter(body: int, reqid: int, from: int)

  function LetterOf(m: Msg): Letter {
    Letter(m.body, m.reqid, m.sender)
  }

  function Letters(turns: seq<Turn>): (ls: seq<Letter>)
    ensures |ls| == |turns| && forall k :: 0 <= k < |turns| ==> ls[k] == LetterOf(turns[k].msg)
  {
    seq(|turns|, k requires 0 <= k < |turns| => LetterOf(turns[k].msg))
  }

  /** What arrives in a step: a request, or the answer to a message under way. */
  function Arrives(s: State, c: Choice): seq<Letter> {
    if s.aborted || !s.phase.Idle? then []
    else
      match c
      case Receive(m) => if m.kind == Request || m.kind == Scatter then [LetterOf(m)] else []
      case Answer(k, body, from, _) => if k < |s.net| then [Letter(body, s.net[k].reqid, from)] else []
      case _ => []
  }

  function AllArrive(s: State, sched: seq<Choice>): seq<Letter>
    requires Wf(s)
    decreases |sched|
  {
    if sched == [] then [] else Arrives(s, sched[0]) + AllArrive(Step(s, sched[0]), sched[1..])
  }

  lemma {:induction false} ArriveStep(s: State, c: Choice)
    requires Wf(s) && !Step(s, c).aborted
    ensures Letters(Step(s, c).turns) == Letters(s.turns) + Arrives(s, c)
  {
  }

  lemma {:induction false} AbortsForever(s: State, sched: seq<Choice>)
    requires Wf(s) && s.aborted
    ensures Run(s, sched) == s
    decreases |sched|
  {
    if sched == [] {
    } else {
      AbortsForever(s, sched[1..]);
    }
  }

  lemma {:induction false} ArriveRun(s: State, sched: seq<Choice>)
    requires Wf(s) && !Run(s, sched).aborted
    ensures Letters(Run(s, sched).turns) == Letters(s.turns) + AllArrive(s, sched)
    decreases |sched|
  {
    if sched == [] {
    } else {
      var s' := Step(s, sched[0]);
      if s'.aborted { AbortsForever(s', sched[1..]); }
      ArriveStep(s, sched[0]);
      ArriveRun(s', sched[1..]);
      assert (Letters(s.turns) + Arrives(s, sched[0])) + AllArrive(s', sched[1..])
          == Letters(s.turns) + (Arrives(s, sched[0]) + AllArrive(s', sched[1..]));
    }
  }

  /** In every run each message that arrives is executed in one turn, in order of arrival. */
  lemma {:induction false} EveryMessageIsExecutedOnce(m: Msg, sched: seq<Choice>)
    ensures var s := Run(Start(m), sched);
      !s.aborted ==> Letters(s.turns) == AllArrive(Start(m), sched)
  {
    if !Run(Start(m), sched).aborted {
      ArriveRun(Start(m), sched);
      assert Letters(Start(m).turns) == [];
    }
  }

  // ---- Messages out ----

  /** How many messages that will be answered a step sends. */
  function Sends(s: State, c: Choice): nat {
    if s.aborted || s.phase.Idle? then 0
    else
      match c
      case Ask(wantsReply, ok) => if wantsReply && ok && HasFree(s.t) then 1 else 0
      case ScatterTo(mg, accepted) =>
        if mg == [] || false in mg || !HasFree(s.t) then 0 else if accepted < |mg| then accepted else |mg|
      case Wait(ok) => if ok && s.phase.OnFiber? then 1 else 0
      case _ => 0
  }

  function AllSends(s: State, sched: seq<Choice>): nat
    requires Wf(s)
    decreases |sched|
  {
    if sched == [] then 0 else Sends(s, sched[0]) + AllSends(Step(s, sched[0]), sched[1..])
  }

  predicate IsAnswered(s: State, c: Choice) {
    c.Answer? && !s.aborted && s.phase.Idle? && c.k < |s.net|
  }

  function AllAnswered(s: State, sched: seq<Choice>): nat
    requires Wf(s)
    decreases |sched|
  {
    if sched == [] then 0
    else (if IsAnswered(s, sched[0]) then 1 else 0) + AllAnswered(Step(s, sched[0]), sched[1..])
  }

  lemma {:induction false} OwedStep(s: State, c: Choice)
    requires Wf(s)
    ensures |Step(s, c).net| == |s.net| + Sends(s, c) - if IsAnswered(s, c) then 1 else 0
  {
  }

  lemma {:induction false} OwedRun(s: State, sched: seq<Choice>)
    requires Wf(s)
    ensures |Run(s, sched).net| == |s.net| + AllSends(s, sched) - AllAnswered(s, sched)
    decreases |sched|
  {
    if sched == [] {
    } else {
      OwedStep(s, sched[0]);
      OwedRun(Step(s, sched[0]), sched[1..]);
    }
  }

  /** In every run the answers under way are as many as messages were sent and not answered yet. */
  lemma {:induction false} OwedIsSentLessAnswered(m: Msg, sched: seq<Choice>)
    ensures |Run(Start(m), sched).net| == AllSends(Start(m), sched) - AllAnswered(Start(m), sched)
  {
    OwedRun(Start(m), sched);
  }

  // ---- Contexts and ids ----

  /** The sizes of the contexts a step makes: 0 for a request and for a fiber. */
  function Makes(s: State, c: Choice): seq<nat> {
    if s.aborted || s.phase.Idle? || !HasFree(s.t) then []
    else
      match c
      case Ask(wantsReply, ok) => if wantsReply && ok then [0] else []
      case ScatterTo(mg, accepted) => if mg == [] || false in mg || accepted < |mg| then [] else [|mg|]
      case StartFiber => if s.phase.Thread? then [0] else []
      case _ => []
  }

  /** Whether a step is a scatter that fails, for a null message or one that could not be sent. */
  predicate Fails(s: State, c: Choice) {
    && c.ScatterTo? && !s.aborted && !s.phase.Idle? && HasFree(s.t) && c.mg != []
    && (false in c.mg || c.accepted < |c.mg|)
  }

  function AllMade(s: State, sched: seq<Choice>): seq<nat>
    requires Wf(s)
    decreases |sched|
  {
    if sched == [] then [] else Makes(s, sched[0]) + AllMade(Step(s, sched[0]), sched[1..])
  }

  function AllFailed(s: State, sched: seq<Choice>): nat
    requires Wf(s)
    decreases |sched|
  {
    if sched == [] then 0
    else (if Fails(s, sched[0]) then 1 else 0) + AllFailed(Step(s, sched[0]), sched[1..])
  }

  function Sizes(made: seq<Made>): (ns: seq<nat>)
    ensures |ns| == |made| && forall u :: 0 <= u < |made| ==> ns[u] == made[u].size
  {
    seq(|made|, u requires 0 <= u < |made| => made[u].size)
  }

  lemma {:induction false} MadeStep(s: State, c: Choice)
    requires Wf(s)
    ensures Sizes(Step(s, c).made) == Sizes(s.made) + Makes(s, c)
  {
  }

  /** An id that is issued and put back, or put to use, leaves the held ids as they were. */
  lemma {:induction false} IssuedThenLeft(held: set<int>, id: int)
    requires id !in held
    ensures (held + {id}) - {id} == held && |held + {id}| == |held| + 1
  {
  }

  lemma {:induction false} HeldStep(s: State, c: Choice)
    requires Wf(s)
    ensures |Step(s, c).t.held| == |s.t.held| + if Fails(s, c) then 1 else 0
  {
    match c {
      case Answer(k, body, from, asResponse) => {
        AnswerWf(s, k, body, from, asResponse);
      }
      case Return(reply) => {
        if !s.phase.Idle? { ReturnedOk(s); }
      }
      case Wait(ok) => {
        if s.phase.OnFiber? { EndTurnOk(s.t, s.phase.ctx); }
      }
      case Receive(_) => {}
      case _ => {
        if HasFree(s.t) {
          IssueOk(s.t);
          IssuedThenLeft(s.t.held, NextId(s.t));
        }
      }
    }
  }

  lemma {:induction false} SizesMore(a: seq<nat>, b: seq<nat>, c: seq<nat>)
    ensures (a + b) + c == a + (b + c)
  {
  }

  lemma {:induction false} MadeRun(s: State, sched: seq<Choice>)
    requires Wf(s)
    ensures Sizes(Run(s, sched).made) == Sizes(s.made) + AllMade(s, sched)
    ensures |Run(s, sched).t.held| == |s.t.held| + AllFailed(s, sched)
    decreases |sched|
  {
    if sched == [] {
    } else {
      var s' := Step(s, sched[0]);
      MadeStep(s, sched[0]);
      HeldStep(s, sched[0]);
      MadeRun(s', sched[1..]);
      SizesMore(Sizes(s.made), Makes(s, sched[0]), AllMade(s', sched[1..]));
    }
  }

  lemma {:induction false} NoneMade(m: Msg)
    ensures Sizes(Start(m).made) == [] && |Start(m).t.held| == 0
  {
  }

  /**
   * In every run the contexts made are those of the requests, full scatters and fibers, in order and
   * with the size of the scatter; and as many ids are held for ever as scatters have failed.
   */
  lemma {:induction false} ContextsAreMade(m: Msg, sched: seq<Choice>)
    ensures Sizes(Run(Start(m), sched).made) == AllMade(Start(m), sched)
    ensures |Run(Start(m), sched).t.held| == AllFailed(Start(m), sched)
  {
    NoneMade(m);
    MadeRun(Start(m), sched);
    SizesMore([], [], AllMade(Start(m), sched));
  }

  // ---- Replies ----

  predicate RepliesNow(s: State, c: Choice)
    requires Wf(s)
  {
    c == Return(true) && !s.aborted && !s.phase.Idle? && !Step(s, c).aborted
  }

  /** The turns that ended by returning a message. */
  function Replying(s: State, sched: seq<Choice>): seq<nat>
    requires Wf(s)
    decreases |sched|
  {
    if sched == [] then []
    else
      (if RepliesNow(s, sched[0]) then [|s.turns| - 1] else []) + Replying(Step(s, sched[0]), sched[1..])
  }

  function TurnsOf(sent: seq<Reply>): (ts: seq<nat>)
    ensures |ts| == |sent| && forall i :: 0 <= i < |sent| ==> ts[i] == sent[i].turn
  {
    seq(|sent|, i requires 0 <= i < |sent| => sent[i].turn)
  }

  lemma {:induction false} ReplyStep(s: State, c: Choice)
    requires Wf(s)
    ensures TurnsOf(Step(s, c).sent) == TurnsOf(s.sent) + if RepliesNow(s, c) then [|s.turns| - 1] else []
  {
  }

  lemma {:induction false} ReplyRun(s: State, sched: seq<Choice>)
    requires Wf(s)
    ensures TurnsOf(Run(s, sched).sent) == TurnsOf(s.sent) + Replying(s, sched)
    decreases |sched|
  {
    if sched == [] {
    } else {
      var s', now := Step(s, sched[0]), if RepliesNow(s, sched[0]) then [|s.turns| - 1] else [];
      ReplyStep(s, sched[0]);
      ReplyRun(s', sched[1..]);
      assert (TurnsOf(s.sent) + now) + Replying(s', sched[1..]) == TurnsOf(s.sent) + (now + Replying(s', sched[1..]));
    }
  }

  /** Replies are sent at the ends of turns, one after the other; the turn going on has sent none. */
  predicate Settled(s: State) {
    && (forall i :: 0 <= i < |s.sent| ==> s.sent[i].turn < |s.turns| - if s.phase.Idle? then 0 else 1)
    && (forall i, j :: 0 <= i < j < |s.sent| ==> s.sent[i].turn < s.sent[j].turn)
  }

  lemma {:induction false} StepSettled(s: State, c: Choice)
    requires Wf(s) && Settled(s)
    ensures Settled(Step(s, c))
  {
  }

  lemma {:induction false} RunSettled(s: State, sched: seq<Choice>)
    requires Wf(s) && Settled(s)
    ensures Settled(Run(s, sched))
    decreases |sched|
  {
    if sched == [] {
    } else {
      StepSettled(s, sched[0]);
      RunSettled(Step(s, sched[0]), sched[1..]);
    }
  }

  predicate InTurn(k: nat, r: Reply) { r.turn == k }

  function OfTurn(k: nat): Reply -> bool { r => InTurn(k, r) }

  lemma {:induction false} CountTurn(sent: seq<Reply>, k: nat)
    requires forall i, j :: 0 <= i < j < |sent| ==> sent[i].turn < sent[j].turn
    ensures Count(sent, OfTurn(k)) == One(k in TurnsOf(sent))
  {
    if sent == [] {
    } else {
      CountTurn(sent[1..], k);
      assert TurnsOf(sent) == [sent[0].turn] + TurnsOf(sent[1..]);
      assert forall i :: 0 <= i < |sent| - 1 ==> sent[0].turn < TurnsOf(sent[1..])[i];
    }
  }

  /** The reply of turn k is there and goes to the origin of its chain. */
  predicate RepliedTo(s: State, k: nat) {
    LinkOk(s.turns, s.made) && k < |s.turns| && ReplyTo(k, Origin(s.turns, s.made, k)) in s.sent
  }

  lemma {:induction false} ReplyIsThere(s: State, k: nat)
    requires NetOk(s) && LogOk(s) && k in TurnsOf(s.sent)
    ensures RepliedTo(s, k)
  {
    var i :| 0 <= i < |s.sent| && TurnsOf(s.sent)[i] == k;
    assert SentLog(s, s.sent[i]);
  }

  lemma {:induction false} RepliesAre(m: Msg, sched: seq<Choice>)
    ensures TurnsOf(Run(Start(m), sched).sent) == Replying(Start(m), sched)
  {
    ReplyRun(Start(m), sched);
    assert TurnsOf(Start(m).sent) == [];
  }

  /**
   * In every run, for plain turns, fibers and gather callbacks alike: a turn that ended by returning a
   * message has exactly one reply, which goes to the origin of its chain; any other turn has none.
   */
  lemma {:induction false} EveryReturnIsAnsweredOnce(m: Msg, sched: seq<Choice>, k: nat)
    ensures Count(Run(Start(m), sched).sent, OfTurn(k)) == One(k in Replying(Start(m), sched))
    ensures !Run(Start(m), sched).aborted && k in Replying(Start(m), sched) ==> RepliedTo(Run(Start(m), sched), k)
  {
    var s := Run(Start(m), sched);
    RepliesAre(m, sched);
    RunSettled(Start(m), sched);
    CountTurn(s.sent, k);
    StartInv(m);
    RunKeeps(Start(m), sched);
    if !s.aborted && k in Replying(Start(m), sched) { ReplyIsThere(s, k); }
  }
}
