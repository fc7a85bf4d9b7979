/** Consistent hashing: nodes on a ring of hash values, each key owned by the next node clockwise. */
module HashRing {

  import opened Options

  /** Number of hash values. */
  const RING: int := 0x1_0000_0000_0000_0000

  datatype Node<T> = Node(hash: int, item: T)

  /** The ordered map from hash value to node, in order. */
  predicate Sorted<T>(ns: seq<Node<T>>) {
    && (forall i :: 0 <= i < |ns| ==> 0 <= ns[i].hash < RING)
    && (forall i, j :: 0 <= i < j < |ns| ==> ns[i].hash < ns[j].hash)
  }

  predicate Taken<T>(ns: seq<Node<T>>, h: int) {
    exists i :: 0 <= i < |ns| && ns[i].hash == h
  }

  // ---- Specification of the operations ----

  /** How many nodes lie before h. */
  function Position<T>(ns: seq<Node<T>>, h: int): (i: nat)
    requires Sorted(ns)
    ensures i <= |ns| && (forall j :: 0 <= j < i ==> ns[j].hash < h) && (i < |ns| ==> ns[i].hash >= h)
  {
    if ns == [] || ns[0].hash >= h then 0
    else
      var k := Position(ns[1..], h);
      assert forall j :: 1 <= j < k + 1 ==> ns[j] == ns[1..][j - 1];
      k + 1
  }

  lemma {:induction false} PositionIs<T>(ns: seq<Node<T>>, h: int, i: nat)
    requires Sorted(ns) && i <= |ns|
    requires (forall j :: 0 <= j < i ==> ns[j].hash < h) && (i < |ns| ==> ns[i].hash >= h)
    ensures Position(ns, h) == i
    ensures Taken(ns, h) <==> i < |ns| && ns[i].hash == h
  {
  }

  /** The map after an insertion: a node whose hash value is taken is not inserted. */
  function Put<T>(ns: seq<Node<T>>, n: Node<T>): seq<Node<T>>
    requires Sorted(ns)
  {
    if Taken(ns, n.hash) then ns
    else ns[..Position(ns, n.hash)] + [n] + ns[Position(ns, n.hash)..]
  }

  /** The map without whatever node has the hash value. */
  function Drop<T>(ns: seq<Node<T>>, h: int): seq<Node<T>>
    requires Sorted(ns)
  {
    PositionIs(ns, h, Position(ns, h));
    if Taken(ns, h) then ns[..Position(ns, h)] + ns[Position(ns, h) + 1..] else ns
  }

  /** The owner of h: the first node at or after h, else the first of all. */
  function Owner<T>(ns: seq<Node<T>>, h: int): Option<Node<T>>
    requires Sorted(ns)
  {
    if ns == [] then None else Some(ns[if Position(ns, h) < |ns| then Position(ns, h) else 0])
  }

  // ---- The object ----

  class Ring<T> {
    var nodes: seq<Node<T>>
    const hasher: T -> int

    ghost predicate Valid()
      reads this
    {
      Sorted(nodes) && forall i :: 0 <= i < |nodes| ==> nodes[i].hash == hasher(nodes[i].item)
    }

    constructor (hasher: T -> int)
      ensures Valid() && nodes == [] && this.hasher == hasher
    {
      nodes := [];
      this.hasher := hasher;
    }

    /** The position of the first hash not below h. */
    method LowerBound(h: int) returns (i: nat)
      requires Valid()
      ensures i <= |nodes| && (i < |nodes| ==> nodes[i].hash >= h)
      ensures forall j :: 0 <= j < i ==> nodes[j].hash < h
    {
      i := 0;
      while i < |nodes| && nodes[i].hash < h
        invariant i <= |nodes| && forall j :: 0 <= j < i ==> nodes[j].hash < h
      {
        i := i + 1;
      }
    }

    method Insert(item: T) returns (inserted: bool)
      requires Valid() && 0 <= hasher(item) < RING
      modifies `nodes
      ensures Valid() && nodes == Put(old(nodes), Node(hasher(item), item))
      ensures inserted == !Taken(old(nodes), hasher(item))
    {
      var n := Node(hasher(item), item);
      var i := LowerBound(n.hash);
      PositionIs(nodes, n.hash, i);
      inserted := i == |nodes| || nodes[i].hash != n.hash;
      PutSorted(nodes, n);
      if inserted { nodes := nodes[..i] + [n] + nodes[i..]; }
    }

    method Erase(item: T) returns (count: nat)
      requires Valid()
      modifies `nodes
      ensures Valid() && nodes == Drop(old(nodes), hasher(item))
      ensures count == if Taken(old(nodes), hasher(item)) then 1 else 0
      ensures forall n :: n in nodes <==> n in old(nodes) && n.hash != hasher(item)
    {
      var h := hasher(item);
      var i := LowerBound(h);
      DropAllNodes(nodes, h);
      PositionIs(nodes, h, i);
      if i == |nodes| || nodes[i].hash != h { return 0; }
      nodes := nodes[..i] + nodes[i + 1..];
      return 1;
    }

    method Find(h: int) returns (r: Option<Node<T>>)
      requires Valid()
      ensures r == Owner(nodes, h)
    {
      if |nodes| == 0 { return None; }
      var i := LowerBound(h);
      PositionIs(nodes, h, i);
      if i == |nodes| { i := 0; }
      return Some(nodes[i]);
    }
  }

  // ---- What the operations do to lookups ----

  /** Clockwise distance from h to k. */
  function Distance(h: int, k: int): int {
    if k >= h then k - h else k - h + RING
  }

  /** n is a node, and none is nearer clockwise. */
  predicate Nearest<T(==)>(ns: seq<Node<T>>, h: int, n: Node<T>) {
    n in ns && forall i :: 0 <= i < |ns| ==> Distance(h, n.hash) <= Distance(h, ns[i].hash)
  }

  /** A lookup finds the nearest node clockwise, the only such one, and fails only on an empty ring. */
  lemma {:induction false} OwnerIsNearest<T>(ns: seq<Node<T>>, h: int, n: Node<T>)
    requires Sorted(ns) && 0 <= h < RING
    ensures Owner(ns, h) == Some(n) <==> Nearest(ns, h, n)
    ensures Owner(ns, h) == None <==> ns == []
  {
    if Nearest(ns, h, n) {
      var i := Position(ns, h);
      var j :| 0 <= j < |ns| && ns[j] == n;
      assert Distance(h, n.hash) <= Distance(h, ns[if i < |ns| then i else 0].hash);
    }
  }

  lemma {:induction false} SpliceSorted<T>(ns: seq<Node<T>>, n: Node<T>, i: nat)
    requires Sorted(ns) && 0 <= n.hash < RING && i <= |ns|
    requires (forall j :: 0 <= j < i ==> ns[j].hash < n.hash) && (i < |ns| ==> n.hash < ns[i].hash)
    ensures Sorted(ns[..i] + [n] + ns[i..])
  {
    var all := ns[..i] + [n] + ns[i..];
    assert forall j :: i <= j < |ns| ==> n.hash < ns[j].hash;
    forall j, k | 0 <= j < k < |all| ensures all[j].hash < all[k].hash {
      assert all[j] == if j < i then ns[j] else if j == i then n else ns[j - 1];
      assert all[k] == if k < i then ns[k] else if k == i then n else ns[k - 1];
    }
  }

  lemma {:induction false} PutSorted<T>(ns: seq<Node<T>>, n: Node<T>)
    requires Sorted(ns) && 0 <= n.hash < RING
    ensures Sorted(Put(ns, n))
  {
    var i := Position(ns, n.hash);
    PositionIs(ns, n.hash, i);
    if !Taken(ns, n.hash) { SpliceSorted(ns, n, i); }
  }

  lemma {:induction false} PutNodes<T>(ns: seq<Node<T>>, n: Node<T>, x: Node<T>)
    requires Sorted(ns)
    ensures x in Put(ns, n) <==> x in ns || (x == n && !Taken(ns, n.hash))
  {
    var i := Position(ns, n.hash);
    assert ns == ns[..i] + ns[i..];
  }

  lemma {:induction false} CutSorted<T>(ns: seq<Node<T>>, i: nat)
    requires Sorted(ns) && i < |ns|
    ensures Sorted(ns[..i] + ns[i + 1..])
  {
    var left := ns[..i] + ns[i + 1..];
    forall j, k | 0 <= j < k < |left| ensures left[j].hash < left[k].hash {
      assert left[j] == ns[if j < i then j else j + 1] && left[k] == ns[if k < i then k else k + 1];
    }
  }

  lemma {:induction false} DropSorted<T>(ns: seq<Node<T>>, h: int)
    requires Sorted(ns)
    ensures Sorted(Drop(ns, h))
  {
    var i := Position(ns, h);
    PositionIs(ns, h, i);
    if Taken(ns, h) { CutSorted(ns, i); }
  }

  lemma {:induction false} InCut<A>(xs: seq<A>, i: nat, x: A)
    requires i < |xs|
    ensures x in xs[..i] + xs[i + 1..] <==> exists j :: 0 <= j < |xs| && j != i && xs[j] == x
  {
    var left := xs[..i] + xs[i + 1..];
    if x in left {
      var j :| 0 <= j < |left| && left[j] == x;
      assert xs[if j < i then j else j + 1] == x;
    }
    if j :| 0 <= j < |xs| && j != i && xs[j] == x {
      assert left[if j < i then j else j - 1] == x;
    }
  }

  lemma {:induction false} DropNodes<T>(ns: seq<Node<T>>, h: int, x: Node<T>)
    requires Sorted(ns)
    ensures x in Drop(ns, h) <==> x in ns && x.hash != h
  {
    var i := Position(ns, h);
    PositionIs(ns, h, i);
    if Taken(ns, h) {
      InCut(ns, i, x);
      assert forall j :: 0 <= j < |ns| ==> (ns[j].hash == h <==> j == i);
    }
  }

  lemma {:induction false} DropAllNodes<T>(ns: seq<Node<T>>, h: int)
    requires Sorted(ns)
    ensures Sorted(Drop(ns, h)) && forall x :: x in Drop(ns, h) <==> x in ns && x.hash != h
  {
    DropSorted(ns, h);
    forall x ensures x in Drop(ns, h) <==> x in ns && x.hash != h { DropNodes(ns, h, x); }
  }

  /** One node more: it is nearest now, or the old nearest one still is. */
  lemma {:induction false} NearestOfMore<T>(ns: seq<Node<T>>, all: seq<Node<T>>, n: Node<T>, h: int, o: Node<T>)
    requires Nearest(ns, h, o) && forall x :: x in all <==> x in ns || x == n
    ensures Nearest(all, h, if Distance(h, n.hash) < Distance(h, o.hash) then n else o)
  {
    forall i | 0 <= i < |all| && all[i] != n ensures Distance(h, o.hash) <= Distance(h, all[i].hash) {
      assert all[i] in all;
      var j :| 0 <= j < |ns| && ns[j] == all[i];
    }
  }

  lemma {:induction false} PutAllNodes<T>(ns: seq<Node<T>>, n: Node<T>)
    requires Sorted(ns) && !Taken(ns, n.hash)
    ensures forall x :: x in Put(ns, n) <==> x in ns || x == n
  {
    forall x ensures x in Put(ns, n) <==> x in ns || x == n { PutNodes(ns, n, x); }
  }

  /** A new node takes over exactly the hash values it is nearest to; every other lookup stays. */
  lemma {:induction false} InsertMovesOnlyToNewNode<T>(ns: seq<Node<T>>, n: Node<T>, h: int)
    requires Sorted(ns) && 0 <= n.hash < RING && 0 <= h < RING && !Taken(ns, n.hash)
    ensures Sorted(Put(ns, n)) && Owner(Put(ns, n), h) ==
      if ns == [] || Distance(h, n.hash) < Distance(h, Owner(ns, h).value.hash) then Some(n) else Owner(ns, h)
  {
    PutSorted(ns, n);
    if ns == [] {
      assert Put(ns, n) == [n];
    } else {
      var o := Owner(ns, h).value;
      OwnerIsNearest(ns, h, o);
      PutAllNodes(ns, n);
      NearestOfMore(ns, Put(ns, n), n, h, o);
      OwnerIsNearest(Put(ns, n), h, if Distance(h, n.hash) < Distance(h, o.hash) then n else o);
    }
  }

  /** Removing a node changes only the lookups that found it. */
  lemma {:induction false} EraseMovesOnlyFromOldNode<T>(ns: seq<Node<T>>, k: int, h: int)
    requires Sorted(ns) && 0 <= h < RING && Owner(ns, h).Some? && Owner(ns, h).value.hash != k
    ensures Sorted(Drop(ns, k)) && Owner(Drop(ns, k), h) == Owner(ns, h)
  {
    var o, left := Owner(ns, h).value, Drop(ns, k);
    DropSorted(ns, k);
    DropNodes(ns, k, o);
    OwnerIsNearest(ns, h, o);
    OwnerIsNearest(left, h, o);
    forall i | 0 <= i < |left| ensures Distance(h, o.hash) <= Distance(h, left[i].hash) {
      DropNodes(ns, k, left[i]);
    }
  }

  /** Every lookup gives the same on both rings. */
  ghost predicate SameOwners<T>(a: seq<Node<T>>, b: seq<Node<T>>)
    requires Sorted(a) && Sorted(b)
  {
    forall h :: 0 <= h < RING ==> Owner(a, h) == Owner(b, h)
  }

  lemma {:induction false} DropPut<T>(ns: seq<Node<T>>, n: Node<T>)
    requires Sorted(ns) && 0 <= n.hash < RING && !Taken(ns, n.hash)
    ensures Sorted(Put(ns, n)) && Drop(Put(ns, n), n.hash) == ns
  {
    var i, all := Position(ns, n.hash), Put(ns, n);
    PutSorted(ns, n);
    assert all[i] == n;
    PositionIs(all, n.hash, i);
    assert all[..i] + all[i + 1..] == ns;
  }

  /** The ring after a node was inserted and erased again. */
  function AddRemove<T>(ns: seq<Node<T>>, n: Node<T>): (left: seq<Node<T>>)
    requires Sorted(ns) && 0 <= n.hash < RING
    ensures Sorted(left)
  {
    PutSorted(ns, n);
    DropSorted(Put(ns, n), n.hash);
    Drop(Put(ns, n), n.hash)
  }

  /**
   * Inserting a node and erasing it again restores every lookup exactly when its hash value was free:
   * on a collision the insertion does nothing and the removal takes the other node.
   */
  lemma {:induction false} AddRemoveRestoresIffFree<T>(ns: seq<Node<T>>, n: Node<T>)
    requires Sorted(ns) && 0 <= n.hash < RING
    ensures SameOwners(AddRemove(ns, n), ns) <==> !Taken(ns, n.hash)
  {
    if Taken(ns, n.hash) {
      var i, left := Position(ns, n.hash), AddRemove(ns, n);
      PositionIs(ns, n.hash, i);
      DropNodes(ns, n.hash, ns[i]);
      OwnerIsNearest(left, n.hash, ns[i]);
      assert Owner(left, n.hash) != Owner(ns, n.hash);
    } else {
      DropPut(ns, n);
    }
  }

  /** A client of the object: looks up h, adds a node, removes it again and looks up h once more. */
  method AddAndRemove<T>(ring: Ring<T>, item: T, h: int) returns (before: Option<Node<T>>, after: Option<Node<T>>)
    requires ring.Valid() && 0 <= ring.hasher(item) < RING && 0 <= h < RING
    modifies ring
    ensures ring.Valid() && ring.nodes == AddRemove(old(ring.nodes), Node(ring.hasher(item), item))
    ensures !Taken(old(ring.nodes), ring.hasher(item)) ==> before == after && ring.nodes == old(ring.nodes)
    ensures Taken(old(ring.nodes), ring.hasher(item)) && h == ring.hasher(item) ==> before != after
  {
    ghost var ns, n := ring.nodes, Node(ring.hasher(item), item);
    before := ring.Find(h);
    var inserted := ring.Insert(item);
    var count := ring.Erase(item);
    after := ring.Find(h);
    if Taken(ns, n.hash) {
      PositionIs(ns, n.hash, Position(ns, n.hash));
      DropNodes(ns, n.hash, ns[Position(ns, n.hash)]);
    } else {
      DropPut(ns, n);
    }
  }
}
