/**
 * The mailbox: a stack shared with the producers, drained in batches into one private list per
 * priority. The private part belongs to whoever executes the actor.
 */
module Mailbox {

  import opened Options

  datatype Msg = Msg(id: int, prio: nat)

  /** The owner's lists, how many messages they hold, and the priority level reached. */
  datatype Priv = Priv(headers: seq<seq<Msg>>, num: nat, lastp: nat)

  // ---- What a batch looks like when it leaves the mailbox ----

  function OfPrio(batch: seq<Msg>, p: nat): (r: seq<Msg>)
    ensures forall m :: m in r ==> m in batch && m.prio == p
  {
    if batch == [] then []
    else if batch[0].prio == p then [batch[0]] + OfPrio(batch[1..], p)
    else OfPrio(batch[1..], p)
  }

  function Flatten(lists: seq<seq<Msg>>): seq<Msg> {
    if lists == [] then [] else lists[0] + Flatten(lists[1..])
  }

  /** The stable sort of a batch by priority: level by level, in arrival order within a level. */
  function Levels(np: nat, batch: seq<Msg>): (r: seq<seq<Msg>>)
    ensures |r| == np && forall p :: 0 <= p < np ==> r[p] == OfPrio(batch, p)
  {
    seq(np, p requires 0 <= p < np => OfPrio(batch, p))
  }

  function Sorted(np: nat, batch: seq<Msg>): seq<Msg> {
    Flatten(Levels(np, batch))
  }

  function Reverse(s: seq<Msg>): (r: seq<Msg>)
    ensures |r| == |s|
  {
    if s == [] then [] else Reverse(s[1..]) + [s[0]]
  }

  lemma {:induction false} OfPrioAppend(a: seq<Msg>, b: seq<Msg>, p: nat)
    ensures OfPrio(a + b, p) == OfPrio(a, p) + OfPrio(b, p)
  {
    if a == [] {
      assert a + b == b;
    } else {
      assert (a + b)[1..] == a[1..] + b;
      OfPrioAppend(a[1..], b, p);
    }
  }

  lemma {:induction false} FlattenSplit(a: seq<seq<Msg>>, b: seq<seq<Msg>>)
    ensures Flatten(a + b) == Flatten(a) + Flatten(b)
  {
    if a == [] {
      assert a + b == b;
    } else {
      assert (a + b)[1..] == a[1..] + b;
      FlattenSplit(a[1..], b);
    }
  }

  lemma {:induction false} FlattenEmpty(a: seq<seq<Msg>>)
    ensures Flatten(a) == [] <==> forall p :: 0 <= p < |a| ==> a[p] == []
  {
    if a == [] {
    } else {
      FlattenEmpty(a[1..]);
      assert forall p :: 0 < p < |a| ==> a[p] == a[1..][p - 1];
      assert forall p :: 0 <= p < |a| - 1 ==> a[1..][p] == a[p + 1];
    }
  }

  // ---- Sorting is stable and loses nothing ----

  lemma {:induction false} FlattenGrow(b: seq<seq<Msg>>, p: nat, m: Msg)
    requires p < |b|
    ensures multiset(Flatten(b[p := [m] + b[p]])) == multiset(Flatten(b)) + multiset{m}
  {
    var a := b[p := [m] + b[p]];
    if p == 0 {
      assert a[1..] == b[1..];
      assert ([m] + b[0]) + Flatten(b[1..]) == [m] + (b[0] + Flatten(b[1..]));
    } else {
      assert a[1..] == b[1..][p - 1 := [m] + b[1..][p - 1]];
      FlattenGrow(b[1..], p - 1, m);
    }
  }

  lemma {:induction false} SortedKeepsEach(np: nat, batch: seq<Msg>)
    requires forall m :: m in batch ==> m.prio < np
    ensures multiset(Sorted(np, batch)) == multiset(batch)
  {
    if batch == [] {
      FlattenEmpty(Levels(np, batch));
    } else {
      var m, rest := batch[0], batch[1..];
      assert batch == [m] + rest;
      SortedKeepsEach(np, rest);
      assert Levels(np, batch) == Levels(np, rest)[m.prio := [m] + Levels(np, rest)[m.prio]];
      FlattenGrow(Levels(np, rest), m.prio, m);
    }
  }

  lemma {:induction false} FlattenByPrio(lists: seq<seq<Msg>>, from: nat)
    requires forall p, m :: 0 <= p < |lists| && m in lists[p] ==> m.prio == from + p
    ensures forall m :: m in Flatten(lists) ==> from <= m.prio < from + |lists|
    ensures forall i, j :: 0 <= i < j < |Flatten(lists)| ==> Flatten(lists)[i].prio <= Flatten(lists)[j].prio
    decreases |lists|
  {
    if lists == [] {
    } else {
      var first, rest := lists[0], Flatten(lists[1..]);
      var all: seq<Msg> := first + rest;
      assert forall p, m :: 0 <= p < |lists| - 1 && m in lists[1..][p] ==> m in lists[p + 1];
      FlattenByPrio(lists[1..], from + 1);
      forall i, j | 0 <= i < j < |all| ensures all[i].prio <= all[j].prio {
        if i < |first| { assert first[i] in first; }
        if j < |first| { assert first[j] in first; } else { assert rest[j - |first|] in rest; }
      }
    }
  }

  /** A batch leaves the mailbox level by level: a lower level before any higher one. */
  lemma {:induction false} SortedByPrio(np: nat, batch: seq<Msg>, i: nat, j: nat)
    requires i < j < |Sorted(np, batch)|
    ensures Sorted(np, batch)[i].prio <= Sorted(np, batch)[j].prio
  {
    FlattenByPrio(Levels(np, batch), 0);
  }

  lemma {:induction false} FlattenAround(a: seq<seq<Msg>>, p: nat)
    requires p < |a|
    ensures Flatten(a) == Flatten(a[..p]) + (a[p] + Flatten(a[p + 1..]))
  {
    assert a == a[..p] + a[p..] && a[p..][1..] == a[p + 1..];
    FlattenSplit(a[..p], a[p..]);
  }

  /** Of lists by level, the messages of one priority are the list of that level. */
  lemma {:induction false} FlattenOfPrio(a: seq<seq<Msg>>, p: nat)
    requires p < |a| && forall k, m :: 0 <= k < |a| && m in a[k] ==> m.prio == k
    ensures OfPrio(Flatten(a), p) == a[p]
  {
    var before, after := Flatten(a[..p]), Flatten(a[p + 1..]);
    FlattenAround(a, p);
    OfPrioAppend(before, a[p] + after, p);
    OfPrioAppend(a[p], after, p);
    NoneOf(a[..p], p);
    NoneOf(a[p + 1..], p);
    AllOf(a[p], p);
  }

  /** Messages of one priority leave in the order in which they arrived. */
  lemma {:induction false} SortedIsFifoPerPrio(np: nat, batch: seq<Msg>, p: nat)
    requires p < np
    ensures OfPrio(Sorted(np, batch), p) == OfPrio(batch, p)
  {
    FlattenOfPrio(Levels(np, batch), p);
  }

  lemma {:induction false} NoneOf(lists: seq<seq<Msg>>, p: nat)
    requires forall k, m :: 0 <= k < |lists| && m in lists[k] ==> m.prio != p
    ensures OfPrio(Flatten(lists), p) == []
  {
    if lists == [] {
    } else {
      OfPrioAppend(lists[0], Flatten(lists[1..]), p);
      NoneIn(lists[0], p);
      assert forall k :: 0 <= k < |lists| - 1 ==> lists[1..][k] == lists[k + 1];
      NoneOf(lists[1..], p);
    }
  }

  lemma {:induction false} NoneIn(s: seq<Msg>, p: nat)
    requires forall m :: m in s ==> m.prio != p
    ensures OfPrio(s, p) == []
  {
    if s == [] {
    } else {
      NoneIn(s[1..], p);
    }
  }

  lemma {:induction false} AllOf(s: seq<Msg>, p: nat)
    requires forall m :: m in s ==> m.prio == p
    ensures OfPrio(s, p) == s
  {
    if s == [] {
    } else {
      AllOf(s[1..], p);
    }
  }

  // ---- The private lists ----

  /** Everything the private lists still hold, in the order it will be returned. */
  function Rest(b: Priv): seq<Msg> {
    Flatten(b.headers)
  }

  /** The count is exact and no list below the level reached holds anything. */
  predicate PrivOk(np: nat, b: Priv) {
    && 0 < np && |b.headers| == np
    && b.num == |Rest(b)|
    && (b.num > 0 ==> b.lastp <= np && forall p :: 0 <= p < b.lastp ==> b.headers[p] == [])
  }

  /** Some list at or above level p is not empty. */
  function NextLevel(headers: seq<seq<Msg>>, p: nat): (q: nat)
    requires p <= |headers|
    ensures p <= q <= |headers|
    ensures forall k :: p <= k < q ==> headers[k] == []
    ensures q < |headers| ==> headers[q] != []
    decreases |headers| - p
  {
    if p < |headers| && headers[p] == [] then NextLevel(headers, p + 1) else p
  }

  /** The assertion "private queues are empty but the count is not zero" cannot be reached. */
  lemma {:induction false} CountedIsThere(np: nat, b: Priv)
    requires PrivOk(np, b) && b.num > 0
    ensures NextLevel(b.headers, b.lastp) < np
  {
    FlattenEmpty(b.headers);
  }

  /** Take the next message from the private lists. */
  function Take(np: nat, b: Priv): (r: (Priv, Msg))
    requires PrivOk(np, b) && b.num > 0
  {
    CountedIsThere(np, b);
    var q := NextLevel(b.headers, b.lastp);
    var list := b.headers[q];
    (Priv(b.headers[q := list[1..]], b.num - 1, q), list[0])
  }

  lemma {:induction false} FlattenFrom(h: seq<seq<Msg>>, q: nat)
    requires q < |h| && forall k :: 0 <= k < q ==> h[k] == []
    ensures Flatten(h) == h[q] + Flatten(h[q + 1..])
  {
    if q == 0 {
    } else {
      assert forall k :: 0 <= k < |h| - 1 ==> h[1..][k] == h[k + 1];
      FlattenFrom(h[1..], q - 1);
      assert h[1..][q..] == h[q + 1..];
    }
  }

  /** What is taken is the first message left, and everything else stays in order. */
  lemma {:induction false} TakeIsFirst(np: nat, b: Priv)
    requires PrivOk(np, b) && b.num > 0
    ensures var (b', m) := Take(np, b); PrivOk(np, b') && Rest(b) == [m] + Rest(b')
  {
    CountedIsThere(np, b);
    var (b', m) := Take(np, b);
    var q := b'.lastp;
    FlattenFrom(b.headers, q);
    FlattenFrom(b'.headers, q);
    assert b'.headers[q + 1..] == b.headers[q + 1..];
    assert b.headers[q] == [m] + b'.headers[q];
  }

  /** Move a batch, given in arrival order, into the empty private lists. */
  function Fill(np: nat, batch: seq<Msg>): Priv {
    Priv(Levels(np, batch), |batch|, 0)
  }

  lemma {:induction false} FillIsSorted(np: nat, batch: seq<Msg>)
    requires 0 < np && forall m :: m in batch ==> m.prio < np
    ensures PrivOk(np, Fill(np, batch)) && Rest(Fill(np, batch)) == Sorted(np, batch)
  {
    SortedKeepsEach(np, batch);
    assert |multiset(Sorted(np, batch))| == |multiset(batch)|;
  }

  // ---- The mailbox object, as its owner runs it between two accesses of the producers ----

  /** The shared stack: a marker, or the linked messages, newest first. */
  datatype Stack = Empty | Blocked | Linked(items: seq<Msg>)

  datatype EnqueueStatus = Success | Unblocked

  class Box {
    const np: nat
    var stack: Stack
    var headers: array<seq<Msg>>
    var num: nat
    var lastp: nat

    ghost predicate Valid()
      reads this, headers
    {
      && headers.Length == np && PrivOk(np, Lists())
      && (stack.Linked? ==> stack.items != [] && forall m :: m in stack.items ==> m.prio < np)
    }

    ghost function Lists(): Priv
      reads this, headers
    {
      Priv(headers[..], num, lastp)
    }

    /** The shared messages in arrival order. */
    ghost function Pending(): seq<Msg>
      reads this
    {
      if stack.Linked? then Reverse(stack.items) else []
    }

    constructor (levels: nat)
      requires levels > 0
      ensures Valid() && fresh(headers) && np == levels
      ensures stack == Blocked && Pending() == [] && Rest(Lists()) == []
    {
      np := levels;
      stack := Blocked;
      headers := new seq<Msg>[levels](i => []);
      num, lastp := 0, 0;
      new;
      FlattenEmpty(headers[..]);
    }

    method Enqueue(m: Msg) returns (status: EnqueueStatus)
      requires Valid() && m.prio < np
      modifies this`stack
      ensures Valid() && Pending() == old(Pending()) + [m] && stack.Linked?
      ensures status == if old(stack) == Blocked then Unblocked else Success
    {
      status := if stack == Blocked then Unblocked else Success;
      stack := Linked([m] + (if stack.Linked? then stack.items else []));
      assert stack.items[1..] == if old(stack).Linked? then old(stack).items else [];
    }

    /** Copy the drained stack, newest first, to the front of the lists. */
    method Drain(items: seq<Msg>)
      requires headers.Length == np && forall m :: m in items ==> m.prio < np
      modifies this`num, headers
      ensures num == old(num) + |items|
      ensures forall p :: 0 <= p < np ==> headers[p] == OfPrio(Reverse(items), p) + old(headers[p])
    {
      var e := items;
      while e != []
        invariant |e| <= |items| && e == items[|items| - |e|..]
        invariant num == old(num) + |items| - |e|
        invariant forall p :: 0 <= p < np ==>
          OfPrio(Reverse(e), p) + headers[p] == OfPrio(Reverse(items), p) + old(headers[p])
        decreases |e|
      {
        var m := e[0];
        assert m in items;
        ghost var before := headers[..];
        headers[m.prio] := [m] + headers[m.prio];
        forall p | 0 <= p < np
          ensures OfPrio(Reverse(e[1..]), p) + headers[p] == OfPrio(Reverse(e), p) + before[p]
        {
          OfPrioAppend(Reverse(e[1..]), [m], p);
        }
        e := e[1..];
        num := num + 1;
      }
    }

    /** Empty the stack into the lists, which must have run out. */
    method Refill()
      requires Valid() && num == 0 && stack.Linked?
      modifies this`stack, this`num, this`lastp, headers
      ensures Valid() && stack == Empty && Lists() == Fill(np, old(Pending())) && num > 0
    {
      ghost var batch := Pending();
      FlattenEmpty(headers[..]);
      ghost var before := headers[..];
      assert forall p :: 0 <= p < np ==> before[p] == headers[p] == [];
      Drain(stack.items);
      ReverseKeeps(stack.items);
      forall p | 0 <= p < np ensures headers[..][p] == Levels(np, batch)[p] {
        assert headers[p] == OfPrio(batch, p) + before[p];
      }
      assert headers[..] == Levels(np, batch);
      stack := Empty;
      lastp := 0;
      FillIsSorted(np, batch);
    }

    /** The first message of the lists. */
    method TakeNext() returns (m: Msg)
      requires Valid() && num > 0
      modifies this`num, this`lastp, headers
      ensures Valid() && (Lists(), m) == Take(np, old(Lists()))
    {
      ghost var lists := Lists();
      CountedIsThere(np, lists);
      TakeIsFirst(np, lists);
      while headers[lastp] == []
        invariant lastp < np && NextLevel(lists.headers, lastp) == NextLevel(lists.headers, lists.lastp) < np
        decreases np - lastp
        modifies this`lastp
      {
        assert lists.headers[lastp] == [];
        lastp := lastp + 1;
      }
      assert lists.headers[lastp] != [];
      m := headers[lastp][0];
      headers[lastp] := headers[lastp][1..];
      num := num - 1;
      assert headers[..] == lists.headers[lastp := lists.headers[lastp][1..]];
    }

    /** The next message: from the lists, or from a fresh batch, or none. */
    method Dequeue() returns (r: Option<Msg>)
      requires Valid()
      modifies this`stack, this`num, this`lastp, headers
      ensures Valid()
      ensures old(num) > 0 ==> stack == old(stack) && r.Some? && old(Rest(Lists())) == [r.value] + Rest(Lists())
      ensures old(num) == 0 && old(stack).Linked? ==>
        stack == Empty && r.Some? && Sorted(np, old(Pending())) == [r.value] + Rest(Lists())
      ensures old(num) == 0 && !old(stack).Linked? ==>
        r.None? && stack == old(stack) && Rest(Lists()) == old(Rest(Lists()))
    {
      if num == 0 {
        if !stack.Linked? {
          return None;
        }
        Refill();
      }
      TakeIsFirst(np, Lists());
      var m := TakeNext();
      r := Some(m);
    }

    /** Blocks the mailbox exactly when it is not blocked already and no message is left anywhere. */
    method TryBlock() returns (blocked: bool)
      requires Valid()
      modifies this`stack
      ensures Valid() && blocked == (Rest(Lists()) == [] && old(Pending()) == [] && old(stack) != Blocked)
      ensures Pending() == old(Pending())
      ensures stack == Blocked <==> blocked || old(stack) == Blocked
    {
      ReverseEmpty(if stack.Linked? then stack.items else []);
      blocked := num == 0 && stack == Empty;
      if blocked {
        stack := Blocked;
      }
    }
  }

  lemma {:induction false} ReverseEmpty(s: seq<Msg>)
    ensures Reverse(s) == [] <==> s == []
  {
  }

  lemma {:induction false} ReverseKeeps(s: seq<Msg>)
    ensures multiset(Reverse(s)) == multiset(s)
    ensures forall m :: m in Reverse(s) <==> m in s
  {
    if s != [] {
      ReverseKeeps(s[1..]);
      assert s == [s[0]] + s[1..];
    }
    assert forall m :: m in Reverse(s) <==> m in multiset(Reverse(s));
    assert forall m :: m in s <==> m in multiset(s);
  }
}
