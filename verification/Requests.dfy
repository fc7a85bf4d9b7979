/**
 * An actor's request contexts and the ids they are found by. An id is recycled, live (a context is
 * registered under it) or held (issued, no context). A failed scatter leaves its id held for ever.
 */
module Requests {

  import opened Words
  import opened Tally

  datatype Kind = Request | Response | Scatter | Gathered

  datatype Msg = Msg(body: int, kind: Kind, reqid: int, sender: int)

  /** `uid` numbers the contexts in order of creation; unlike the request id it is never reused. */
  datatype Ctx =
    | Plain(uid: int, initiator: Msg)
    | Gather(uid: int, initiator: Msg, size: nat, got: seq<Msg>, done: bool)
    | Fiber(uid: int, initiator: Msg, dead: bool)

  /** `RequestContext::done` and its overrides. */
  predicate Done(c: Ctx) {
    match c
    case Plain(_, _) => true
    case Gather(_, _, _, _, done) => done
    case Fiber(_, _, dead) => dead
  }

  /** `issued` counts the increments of the 32-bit generator; `serial` the contexts ever made. */
  datatype Table = Table(recycle: seq<int>, issued: nat, live: map<int, Ctx>, held: set<int>, serial: nat)

  function One(b: bool): nat { if b then 1 else 0 }

  /** In how many places the id is. */
  function Places(t: Table, id: int): nat {
    Count(t.recycle, Is(id)) + One(id in t.live) + One(id in t.held)
  }

  /** Every id issued so far is in exactly one place, every other number, 0 included, in none. */
  ghost predicate IdsOk(t: Table) {
    t.issued < W32 && forall id :: Places(t, id) == One(1 <= id <= t.issued)
  }

  const EMPTY := Table([], 0, map[], {}, 0)

  lemma {:induction false} EmptyOk()
    ensures IdsOk(EMPTY)
  {
  }

  // ---- Specification of the table operations ----

  /** Some id is free to be issued: otherwise the generator would wrap to the invalid id 0. */
  predicate HasFree(t: Table) {
    t.recycle != [] || t.issued + 1 < W32
  }

  function NextId(t: Table): int {
    if t.recycle != [] then t.recycle[|t.recycle| - 1] else Word(t.issued + 1)
  }

  function Issue(t: Table): Table {
    var t' := if t.recycle != [] then t.(recycle := t.recycle[..|t.recycle| - 1])
              else t.(issued := t.issued + 1);
    t'.(held := t.held + {NextId(t)})
  }

  function Release(t: Table, id: int): Table {
    t.(recycle := t.recycle + [id], held := t.held - {id})
  }

  /** `insert_req_ctx`; the precondition is its assertion. */
  function Insert(t: Table, id: int, c: Ctx): Table
    requires id !in t.live
  {
    t.(live := t.live[id := c], held := t.held - {id}, serial := t.serial + 1)
  }

  function Update(t: Table, id: int, c: Ctx): Table
    requires id in t.live
  {
    t.(live := t.live[id := c])
  }

  function Delete(t: Table, id: int): Table
    requires id in t.live
  {
    if Done(t.live[id]) then t.(recycle := t.recycle + [id], live := t.live - {id}) else t
  }

  lemma {:induction false} CountLast(xs: seq<int>, x: int, id: int)
    ensures Count(xs + [x], Is(id)) == Count(xs, Is(id)) + One(x == id)
  {
    CountAppend(xs, [x], Is(id));
  }

  /** A new id is valid, was in no use, and is held afterwards. */
  lemma {:induction false} IssueOk(t: Table)
    requires IdsOk(t) && HasFree(t)
    ensures var t', id := Issue(t), NextId(t);
      IdsOk(t') && id != 0 && id !in t.live && id !in t.held && id in t'.held && t'.live == t.live
  {
    var t', n := Issue(t), NextId(t);
    assert Places(t, n) == One(1 <= n <= t.issued);
    if t.recycle != [] {
      var front := t.recycle[..|t.recycle| - 1];
      assert t.recycle == front + [n];
      forall id ensures Places(t', id) == One(1 <= id <= t'.issued) {
        CountLast(front, n, id);
        assert Places(t, id) == One(1 <= id <= t.issued);
        CountLast(front, n, n);
      }
      CountLast(front, n, n);
    } else {
      forall id ensures Places(t', id) == One(1 <= id <= t'.issued) {
        assert Places(t, id) == One(1 <= id <= t.issued);
      }
    }
  }

  /** The id released last is the next one issued, and issuing it undoes the release. */
  lemma {:induction false} IssueUndoesRelease(t: Table, id: int)
    requires id in t.held
    ensures NextId(Release(t, id)) == id && Issue(Release(t, id)) == t
  {
    assert (t.recycle + [id])[..|t.recycle|] == t.recycle;
    assert (t.held - {id}) + {id} == t.held;
  }

  lemma {:induction false} ReleaseOk(t: Table, id: int)
    requires IdsOk(t) && id in t.held
    ensures IdsOk(Release(t, id))
  {
    var t' := Release(t, id);
    forall x ensures Places(t', x) == One(1 <= x <= t'.issued) {
      CountLast(t.recycle, id, x);
      assert Places(t, x) == One(1 <= x <= t.issued);
    }
  }

  lemma {:induction false} InsertOk(t: Table, id: int, c: Ctx)
    requires IdsOk(t) && id in t.held
    ensures id !in t.live && IdsOk(Insert(t, id, c))
  {
    assert Places(t, id) == One(1 <= id <= t.issued);
    var t' := Insert(t, id, c);
    forall x ensures Places(t', x) == One(1 <= x <= t'.issued) {
      assert Places(t, x) == One(1 <= x <= t.issued);
    }
  }

  lemma {:induction false} UpdateOk(t: Table, id: int, c: Ctx)
    requires IdsOk(t) && id in t.live
    ensures IdsOk(Update(t, id, c))
  {
    var t' := Update(t, id, c);
    forall x ensures Places(t', x) == One(1 <= x <= t'.issued) {
      assert Places(t, x) == One(1 <= x <= t.issued);
    }
  }

  lemma {:induction false} DeleteOk(t: Table, id: int)
    requires IdsOk(t) && id in t.live
    ensures IdsOk(Delete(t, id))
  {
    var t' := Delete(t, id);
    if Done(t.live[id]) {
      forall x ensures Places(t', x) == One(1 <= x <= t'.issued) {
        CountLast(t.recycle, id, x);
        assert Places(t, x) == One(1 <= x <= t.issued);
      }
    }
  }

  /**
   * The generator is 32 bits wide. With no id to recycle, the next id is valid exactly when the
   * 2^32 - 1 valid ids have not all been issued; past that point the generator yields the invalid
   * id 0 and then 1, which is still in use.
   */
  lemma {:induction false} WrapsExactlyWhenFull(t: Table)
    requires IdsOk(t)
    ensures NextId(t) != 0 <==> HasFree(t)
    ensures !HasFree(t) ==> NextId(t) == 0 && NextId(Issue(t)) == 1 && (1 in t.live || 1 in t.held)
  {
    if HasFree(t) {
      IssueOk(t);
    } else {
      assert Places(t, 1) == 1;
    }
  }

  /** The three groups of ids are disjoint, duplicate-free, and none contains 0. */
  lemma {:induction false} IdsAreDisjoint(t: Table)
    requires IdsOk(t)
    ensures t.live.Keys !! t.held && 0 !in t.live && 0 !in t.held && 0 !in t.recycle
    ensures forall id :: id in t.recycle ==> id !in t.live && id !in t.held
    ensures forall i, j :: 0 <= i < j < |t.recycle| ==> t.recycle[i] != t.recycle[j]
  {
    InOnePlace(t, 0);
    assert Places(t, 0) == 0;
    CountZero(t.recycle, Is(0));
    forall id | id in t.recycle ensures id !in t.live && id !in t.held { InOnePlace(t, id); }
    forall id | id in t.live ensures id !in t.held { InOnePlace(t, id); }
    forall i, j | 0 <= i < j < |t.recycle| ensures t.recycle[i] != t.recycle[j] {
      assert Places(t, t.recycle[i]) <= 1;
      if t.recycle[i] == t.recycle[j] { CountTwo(t.recycle, Is(t.recycle[i]), i, j); }
    }
  }

  lemma {:induction false} InOnePlace(t: Table, id: int)
    requires IdsOk(t)
    ensures id in t.held ==> id !in t.live && id !in t.recycle && NextId(t) != id
    ensures id in t.recycle ==> id !in t.live && id !in t.held
  {
    assert Places(t, id) <= 1 && Places(t, 0) == 0;
    if id in t.recycle { CountZero(t.recycle, Is(id)); }
  }

  // ---- The actor object ----

  /** Request-id and context methods of an actor, with the dispatch operations that use them. */
  class Actor {
    var recycle: seq<int>
    var generator: nat
    var ctxs: map<int, Ctx>
    var serial: nat
    var current: int          // id of the current context, 0 for none
    var message: Msg
    ghost var issued: nat
    ghost var held: set<int>

    ghost function T(): Table
      reads this
    {
      Table(recycle, issued, ctxs, held, serial)
    }

    ghost predicate Valid()
      reads this
    {
      IdsOk(T()) && generator == Word(issued) && (current != 0 ==> current in ctxs)
    }

    constructor (m: Msg)
      ensures Valid() && T() == EMPTY && current == 0
    {
      recycle, generator, ctxs, serial, current, message := [], 0, map[], 0, 0, m;
      issued, held := 0, {};
    }

    method NewReqid() returns (id: int)
      requires Valid() && HasFree(T())
      modifies `recycle, `generator, `issued, `held
      ensures Valid() && T() == Issue(old(T())) && id == NextId(old(T()))
      ensures id != 0 && id !in old(held) && id !in ctxs
      ensures id !in old(recycle[..if recycle == [] then 0 else |recycle| - 1])
    {
      IssueOk(T());
      if |recycle| > 0 {
        id := recycle[|recycle| - 1];
        recycle := recycle[..|recycle| - 1];
      } else {
        generator := Word(generator + 1);
        id := generator;
        issued := issued + 1;
      }
      held := held + {id};
      assert Places(T(), id) == 1;
      if id in recycle { CountZero(recycle, Is(id)); }
    }

    method ReleaseReqid(id: int)
      requires Valid() && id in held
      modifies `recycle, `held
      ensures Valid() && T() == Release(old(T()), id)
    {
      ReleaseOk(T(), id);
      recycle, held := recycle + [id], held - {id};
    }

    /** The assertion of `insert_req_ctx` is proved, not required. */
    method InsertReqCtx(id: int, c: Ctx)
      requires Valid() && id in held
      modifies `ctxs, `held, `serial
      ensures Valid() && id !in old(ctxs) && T() == Insert(old(T()), id, c)
    {
      InsertOk(T(), id, c);
      assert id !in ctxs;
      ctxs, held, serial := ctxs[id := c], held - {id}, serial + 1;
    }

    /** A context that is not done stays. Deleting the current context ends its turn. */
    method DeleteReqCtx(id: int)
      requires Valid() && id in ctxs
      modifies `recycle, `ctxs, `current
      ensures Valid() && T() == Delete(old(T()), id)
      ensures current == if Done(old(ctxs)[id]) && old(current) == id then 0 else old(current)
    {
      DeleteOk(T(), id);
      if !Done(ctxs[id]) { return; }
      if current == id { current := 0; }
      recycle, ctxs := recycle + [id], ctxs - {id};
    }

    /** Message whose sender a reply of the present turn goes to. */
    function Initiator(): Msg
      requires current != 0 ==> current in ctxs
      reads this
    {
      if current != 0 then ctxs[current].initiator else message
    }

    /** Request dispatch; `ret` is what sending the message returned, `keyed` that it already had an id. */
    method DispatchRequest(wantsReply: bool, keyed: bool, ret: int) returns (id: int)
      requires Valid() && (wantsReply && !keyed ==> HasFree(T()))
      modifies this
      ensures Valid() && current == old(current) && message == old(message)
      ensures !wantsReply || keyed ==> id == 0 && T() == old(T())
      ensures wantsReply && !keyed ==> id == NextId(old(T())) && id !in old(ctxs)
      ensures wantsReply && !keyed && ret == 0 ==>
                T() == Insert(Issue(old(T())), id, Plain(old(serial), old(Initiator())))
      ensures wantsReply && !keyed && ret != 0 ==> T() == Release(Issue(old(T())), id)
    {
      id := 0;
      if wantsReply && !keyed {
        id := NewReqid();
        if ret == 0 {
          InsertReqCtx(id, Plain(serial, Initiator()));
        } else {
          ReleaseReqid(id);
        }
      }
    }

    /** The non-null messages of a scatter. */
    static method FillGroup(mg: seq<bool>) returns (n: nat)
      ensures n == Count(mg, Is(true))
    {
      n := 0;
      for i := 0 to |mg|
        invariant n == Count(mg[..i], Is(true))
      {
        assert mg[..i + 1] == mg[..i] + [mg[i]];
        CountAppend(mg[..i], [mg[i]], Is(true));
        if mg[i] { n := n + 1; }
      }
      assert mg[..|mg|] == mg;
    }

    /**
     * Scatter; `accepted` of the messages could be sent. On success exactly one gather context of
     * the full size appears under a fresh id. On failure no context appears and the id stays held.
     */
    method ScatterToIntf(mg: seq<bool>, accepted: nat) returns (ret: int)
      requires Valid() && (mg != [] ==> HasFree(T()))
      modifies this
      ensures Valid() && current == old(current) && message == old(message)
      ensures ret == -3 <==> mg == []
      ensures ret == 0 <==> mg != [] && false !in mg && accepted == |mg|
      ensures ret == 0 || ret == -3 || ret == -4
      ensures ret == -3 ==> T() == old(T())
      ensures ret == -4 ==> T() == Issue(old(T()))
      ensures mg != [] ==> NextId(old(T())) !in old(ctxs)
      ensures ret == 0 ==> T() == Insert(Issue(old(T())), NextId(old(T())),
                                         Gather(old(serial), old(Initiator()), |mg|, [], false))
    {
      if |mg| == 0 { return -3; }
      IssueOk(T());
      var n := FillGroup(mg);
      var id := NewReqid();
      FullGroup(mg);
      if |mg| != n || accepted != n {
        return -4;
      }
      InsertReqCtx(id, Gather(serial, Initiator(), n, [], false));
      return 0;
    }

    static lemma {:induction false} FullGroup(mg: seq<bool>)
      ensures Count(mg, Is(true)) == |mg| <==> false !in mg
    {
      if mg != [] {
        FullGroup(mg[1..]);
        assert mg == [mg[0]] + mg[1..];
        assert Is(true)(mg[0]) == mg[0];
      }
    }

    /** Appends a reply; when the group is complete, hands it over in the order of arrival. */
    method GatherReply(m: Msg) returns (ready: bool, group: seq<Msg>)
      requires Valid() && current != 0 && ctxs[current].Gather?
      modifies `ctxs
      ensures Valid()
      ensures var c := old(ctxs[current]);
        && T() == Update(old(T()), current, c.(got := c.got + [m]))
        && (ready <==> |c.got| + 1 == c.size)
        && group == if ready then c.got + [m] else []
    {
      var c := ctxs[current];
      UpdateOk(T(), current, c.(got := c.got + [m]));
      ctxs := ctxs[current := c.(got := c.got + [m])];
      var all := ctxs[current].got;
      ready, group := |all| == c.size, [];
      if ready {
        for i := 0 to |all|
          invariant group == all[..i]
        {
          group := group + [all[i]];
        }
      }
    }

    /** After the gather callback: done, and the turn's end deletes the context. */
    method GatherDone()
      requires Valid() && current != 0 && ctxs[current].Gather?
      modifies `ctxs, `recycle, `current
      ensures Valid() && old(current) !in ctxs && current == 0
      ensures T() == Delete(Update(old(T()), old(current), old(ctxs[current]).(done := true)), old(current))
    {
      UpdateOk(T(), current, ctxs[current].(done := true));
      ctxs := ctxs[current := ctxs[current].(done := true)];
      DeleteReqCtx(current);
    }
  }
}
