/** The sharded key-value store: buckets that grow, instances that own them, routing by hash. */
module KvStore {

  import opened JenkinsHash
  import opened Options
  import opened Words

  datatype Entry = Entry(key: Bytes, value: Bytes)

  // ---- One bucket ----

  predicate Distinct(es: seq<Entry>) {
    forall i, j :: 0 <= i < j < |es| ==> es[i].key != es[j].key
  }

  function Lookup(es: seq<Entry>, key: Bytes): Option<Bytes> {
    if es == [] then None else if es[0].key == key then Some(es[0].value) else Lookup(es[1..], key)
  }

  /** The bucket after a set: the key's entry is overwritten, or one is added at the end. */
  function Stored(es: seq<Entry>, key: Bytes, value: Bytes): seq<Entry> {
    if es == [] then [Entry(key, value)]
    else if es[0].key == key then [Entry(key, value)] + es[1..]
    else [es[0]] + Stored(es[1..], key, value)
  }

  lemma {:induction false} LookupAt(es: seq<Entry>, key: Bytes, i: nat)
    requires i < |es| && es[i].key == key && forall j :: 0 <= j < i ==> es[j].key != key
    ensures Lookup(es, key) == Some(es[i].value)
  {
    if i == 0 {
    } else {
      LookupAt(es[1..], key, i - 1);
    }
  }

  lemma {:induction false} LookupAbsent(es: seq<Entry>, key: Bytes)
    requires forall j :: 0 <= j < |es| ==> es[j].key != key
    ensures Lookup(es, key) == None
  {
    if es == [] {
    } else {
      LookupAbsent(es[1..], key);
    }
  }

  lemma {:induction false} StoredAt(es: seq<Entry>, key: Bytes, value: Bytes, i: nat)
    requires i < |es| && es[i].key == key && forall j :: 0 <= j < i ==> es[j].key != key
    ensures Stored(es, key, value) == es[i := Entry(key, value)]
  {
    if i == 0 {
    } else {
      StoredAt(es[1..], key, value, i - 1);
    }
  }

  lemma {:induction false} StoredAbsent(es: seq<Entry>, key: Bytes, value: Bytes)
    requires forall j :: 0 <= j < |es| ==> es[j].key != key
    ensures Stored(es, key, value) == es + [Entry(key, value)]
  {
    if es == [] {
    } else {
      StoredAbsent(es[1..], key, value);
    }
  }

  /** A set changes what is found under its own key only. */
  lemma {:induction false} LookupStored(es: seq<Entry>, key: Bytes, value: Bytes, other: Bytes)
    ensures Lookup(Stored(es, key, value), other) == if other == key then Some(value) else Lookup(es, other)
  {
    if es == [] || es[0].key == key {
    } else {
      LookupStored(es[1..], key, value, other);
      assert Stored(es, key, value)[1..] == Stored(es[1..], key, value);
    }
  }

  lemma {:induction false} StoredKeys(es: seq<Entry>, key: Bytes, value: Bytes)
    requires Distinct(es)
    ensures Distinct(Stored(es, key, value))
    ensures forall i :: 0 <= i < |Stored(es, key, value)| ==>
              Stored(es, key, value)[i].key == key || (i < |es| && Stored(es, key, value)[i].key == es[i].key)
  {
    if i :| 0 <= i < |es| && es[i].key == key {
      StoredAt(es, key, value, i);
    } else {
      StoredAbsent(es, key, value);
    }
  }

  const VECTOR_CAP: nat := 4

  /** A bucket as a value: its entries and the slots allocated for them, none at first. */
  datatype Vec = Vec(entries: seq<Entry>, cap: nat)

  predicate VecOk(v: Vec) {
    Distinct(v.entries) && |v.entries| <= v.cap && (v.cap == 0 || VECTOR_CAP <= v.cap)
  }

  /** The slots there must be for one entry more: four at first, later twice as many. */
  function Grown(size: nat, cap: nat): nat {
    if cap == 0 then VECTOR_CAP else if size == cap then 2 * cap else cap
  }

  function VecSet(v: Vec, key: Bytes, value: Bytes): Vec {
    var es := Stored(v.entries, key, value);
    Vec(es, if |es| > |v.entries| then Grown(|v.entries|, v.cap) else v.cap)
  }

  /** Through all doublings a bucket has distinct keys and fits its slots. */
  lemma {:induction false} VecSetOk(v: Vec, key: Bytes, value: Bytes)
    requires VecOk(v)
    ensures VecOk(VecSet(v, key, value))
  {
    StoredKeys(v.entries, key, value);
    if i :| 0 <= i < |v.entries| && v.entries[i].key == key {
      StoredAt(v.entries, key, value, i);
    } else {
      StoredAbsent(v.entries, key, value);
    }
  }

  /** Four slots, doubled some number of times. */
  predicate Doubled(cap: nat) {
    cap == VECTOR_CAP || (cap > VECTOR_CAP && cap % 2 == 0 && Doubled(cap / 2))
  }

  /** A bucket has no slots, or four doubled some number of times, and gets more only when it is full. */
  lemma {:induction false} SlotsAreDoubled(v: Vec, key: Bytes, value: Bytes)
    requires v.cap == 0 || Doubled(v.cap)
    ensures var cap := VecSet(v, key, value).cap;
      && (cap == 0 || Doubled(cap))
      && (cap != v.cap ==> v.cap == 0 || |v.entries| == v.cap)
  {
    assert 2 * v.cap / 2 == v.cap;
  }

  /** The bucket as the program keeps it: an array that is replaced when it is full. */
  class Vector {
    var bk: array?<Entry>
    var cap: nat
    var size: nat

    function Contents(): seq<Entry>
      requires bk != null ==> size <= bk.Length
      reads this, bk
    {
      if bk == null then [] else bk[..size]
    }

    ghost predicate Valid()
      reads this, bk
    {
      && (bk == null ==> size == 0)
      && (bk != null ==> size <= cap == bk.Length && VECTOR_CAP <= cap)
      && Distinct(Contents())
    }

    ghost function Value(): (v: Vec)
      requires Valid()
      reads this, bk
      ensures VecOk(v)
    {
      Vec(Contents(), if bk == null then 0 else cap)
    }

    constructor ()
      ensures Valid() && Contents() == [] && bk == null
    {
      bk, size, cap := null, 0, 0;
    }

    /** Where the key is, or the size of the bucket. */
    method Search(key: Bytes) returns (i: nat)
      requires Valid()
      ensures i <= size == |Contents()| && (i < size ==> Contents()[i].key == key)
      ensures forall j :: 0 <= j < i ==> Contents()[j].key != key
    {
      i := 0;
      while i < size
        invariant i <= size
        invariant forall j :: 0 <= j < i ==> Contents()[j].key != key
      {
        if bk[i].key == key { return; }
        i := i + 1;
      }
    }

    method Get(key: Bytes) returns (r: Option<Bytes>)
      requires Valid()
      ensures r == Lookup(Contents(), key)
    {
      var i := Search(key);
      if i < size {
        LookupAt(Contents(), key, i);
        return Some(bk[i].value);
      }
      LookupAbsent(Contents(), key);
      return None;
    }

    /** Room for one more entry: the first four slots, or twice as many. */
    method Reserve()
      requires Valid()
      modifies this
      ensures Valid() && bk != null && size < cap && size == old(size) && Contents() == old(Contents())
      ensures bk == old(bk) || fresh(bk)
      ensures cap == Grown(old(size), old(Value()).cap)
    {
      if bk == null {
        bk := new Entry[VECTOR_CAP];
        size, cap := 0, VECTOR_CAP;
      }
      if size == cap {
        var wider := new Entry[cap * 2];
        var i := 0;
        while i < size
          invariant 0 <= i <= size && wider[..i] == bk[..i]
          modifies wider
        {
          wider[i] := bk[i];
          i := i + 1;
        }
        assert wider[..size] == bk[..size];
        bk, cap := wider, cap * 2;
      }
    }

    method Set(key: Bytes, value: Bytes)
      requires Valid()
      modifies this, bk
      ensures Valid() && Value() == VecSet(old(Value()), key, value)
      ensures bk == old(bk) || fresh(bk)
    {
      ghost var was := Contents();
      StoredKeys(was, key, value);
      var i := Search(key);
      if i < size {
        StoredAt(was, key, value, i);
        bk[i] := Entry(bk[i].key, value);
        assert Contents() == was[i := Entry(key, value)];
      } else {
        StoredAbsent(was, key, value);
        Reserve();
        bk[size] := Entry(key, value);
        size := size + 1;
        assert Contents() == was + [Entry(key, value)];
      }
    }
  }

  // ---- Routing ----

  /** Powers of two that split a hash into instance and bucket; as built, both are 16. */
  datatype Powers = Powers(actor: nat, instance: nat)

  const BUILT := Powers(16, 16)

  predicate Splits(w: Powers) { w.instance <= w.actor <= 32 }

  function Pow2(k: nat): (p: nat)
    ensures p > 0
  {
    if k == 0 then 1 else 2 * Pow2(k - 1)
  }

  /** The instance a hash is sent to: its low bits, which are the remainder by a power of two. */
  function Instance(w: Powers, hv: nat): nat {
    hv % Pow2(w.instance)
  }

  function Buckets(w: Powers): (n: nat)
    requires Splits(w)
    ensures n > 0
  {
    Pow2(w.actor - w.instance)
  }

  /** The bits above those, up to the actor power. */
  function BucketOf(w: Powers, hv: nat): int {
    (hv % Pow2(w.actor)) / Pow2(w.instance)
  }

  /** The bucket within the instance. */
  function Bucket(w: Powers, hv: nat): (b: nat)
    requires Splits(w)
    ensures b < Buckets(w)
  {
    RoutesInRange(w, hv);
    BucketOf(w, hv)
  }

  lemma {:induction false} Pow2Split(a: nat, i: nat)
    requires i <= a
    ensures Pow2(a) == Pow2(a - i) * Pow2(i)
    decreases i
  {
    if i == 0 {
    } else {
      Pow2Split(a, i - 1);
      assert Pow2(a - (i - 1)) == 2 * Pow2(a - i);
      assert 2 * Pow2(a - i) * Pow2(i - 1) == Pow2(a - i) * (2 * Pow2(i - 1));
    }
  }

  /** Cutting x % (k * m) at m gives a quotient below k and the remainder of x. */
  lemma {:induction false} CutBits(x: nat, m: nat, k: nat, n: nat)
    requires m > 0 && k > 0 && n == k * m && n > 0
    ensures 0 <= (x % n) / m < k && ((x % n) / m) * m + x % m == x % n
  {
    var r, q := x % n, x / n;
    assert x == q * n + r;
    assert q * n == (q * k) * m;
    ModAddMultiple(r, m, q * k);
    var b := r / m;
    assert r == b * m + r % m;
    MulBound(k - b, m);
  }

  /** For any powers: the instance and the bucket of an instance are in range. */
  lemma {:induction false} RoutesInRange(w: Powers, hv: nat)
    requires Splits(w)
    ensures Instance(w, hv) < Pow2(w.instance) && 0 <= BucketOf(w, hv) < Buckets(w)
  {
    Pow2Split(w.actor, w.instance);
    CutBits(hv, Pow2(w.instance), Buckets(w), Pow2(w.actor));
  }

  /** Instance and bucket together are the low bits of the hash: distinct low bits never share a place. */
  lemma {:induction false} RouteIsLowBits(w: Powers, hv: nat)
    requires Splits(w)
    ensures Bucket(w, hv) * Pow2(w.instance) + Instance(w, hv) == hv % Pow2(w.actor)
  {
    Pow2Split(w.actor, w.instance);
    CutBits(hv, Pow2(w.instance), Buckets(w), Pow2(w.actor));
  }

  // ---- Masks and shifts ----

  /** Bit by bit conjunction. */
  function And(x: nat, y: nat): nat {
    if x == 0 || y == 0 then 0 else 2 * And(x / 2, y / 2) + if x % 2 == 1 && y % 2 == 1 then 1 else 0
  }

  /** A shift to the right by k bits. */
  function Shr(x: nat, k: nat): nat
    decreases k
  {
    if k == 0 then x else Shr(x / 2, k - 1)
  }

  const ONES: nat := 0xffff_ffff

  /** The mask of a power: 32 ones, shifted by what is missing to 32. */
  function Mask(power: nat): nat
    requires power <= 32
  {
    Shr(ONES, 32 - power)
  }

  lemma {:induction false} HalfFirst(x: nat, p: nat)
    requires p > 0
    ensures x / (2 * p) == x / 2 / p && x % (2 * p) == 2 * (x / 2 % p) + x % 2
  {
    var q, r := x / 2 / p, x / 2 % p;
    assert x / 2 == q * p + r;
    assert q * (2 * p) == 2 * (q * p);
    DivModUnique(x, 2 * p, q, 2 * r + x % 2);
  }

  lemma {:induction false} ShrIsQuotient(x: nat, k: nat)
    ensures Shr(x, k) == x / Pow2(k)
    decreases k
  {
    if k == 0 {
    } else {
      ShrIsQuotient(x / 2, k - 1);
      HalfFirst(x, Pow2(k - 1));
    }
  }

  /** A mask of k ones, one bit less. */
  lemma {:induction false} FewerOnes(k: nat)
    requires k > 0
    ensures (Pow2(k) - 1) / 2 == Pow2(k - 1) - 1 && (Pow2(k) - 1) % 2 == 1
  {
  }

  lemma {:induction false} AndStep(x: nat, n: nat, p: nat)
    requires x > 0 && p > 0 && n == 2 * p && And(x / 2, p - 1) == x / 2 % p
    requires (n - 1) / 2 == p - 1 && (n - 1) % 2 == 1
    ensures And(x, n - 1) == x % n
  {
    HalfFirst(x, p);
  }

  lemma {:induction false} AndOnes(x: nat, k: nat)
    ensures And(x, Pow2(k) - 1) == x % Pow2(k)
    decreases k
  {
    if k == 0 {
    } else if x == 0 {
      DivModUnique(0, Pow2(k), 0, 0);
    } else {
      AndOnes(x / 2, k - 1);
      FewerOnes(k);
      AndStep(x, Pow2(k), Pow2(k - 1));
    }
  }

  lemma {:induction false} AllOnes()
    ensures Pow2(16) == 0x1_0000 && ONES == Pow2(32) - 1
  {
    assert Pow2(4) == 16 && Pow2(8) == 256 && Pow2(12) == 4096 && Pow2(16) == 0x1_0000;
    Pow2Split(32, 16);
  }

  lemma {:induction false} OnesQuotient(n: nat, p: nat, q: nat)
    requires p > 0 && q > 0 && n == p * q - 1
    ensures n / q == p - 1
  {
    assert (p - 1) * q == p * q - q;
    DivModUnique(n, q, p - 1, q - 1);
  }

  lemma {:induction false} MaskIsOnes(power: nat)
    requires power <= 32
    ensures Mask(power) == Pow2(power) - 1
  {
    AllOnes();
    Pow2Split(32, 32 - power);
    ShrIsQuotient(ONES, 32 - power);
    OnesQuotient(ONES, Pow2(power), Pow2(32 - power));
  }

  /**
   * For all powers up to 32 and every hash: instance and bucket are what the program's masks and shifts
   * give. As built, the mask is 0xffff.
   */
  lemma {:induction false} RouteIsMaskAndShift(w: Powers, hv: nat)
    requires Splits(w)
    ensures Instance(w, hv) == And(hv, Mask(w.instance))
    ensures BucketOf(w, hv) == Shr(And(hv, Mask(w.actor)), w.instance)
    ensures Mask(BUILT.instance) == Mask(BUILT.actor) == 0xffff
  {
    MaskIsOnes(w.instance);
    MaskIsOnes(w.actor);
    AndOnes(hv, w.instance);
    AndOnes(hv, w.actor);
    ShrIsQuotient(hv % Pow2(w.actor), w.instance);
    MaskIsOnes(16);
    AllOnes();
  }

  // ---- One instance ----

  ghost predicate Holds(v: Vector, value: Vec)
    reads v, v.bk
  {
    v.Valid() && v.Value() == value
  }

  /** Two buckets share neither the object nor the array. */
  ghost predicate Apart(v: Vector, u: Vector)
    reads v, u
  {
    v != u && (v.bk == null || v.bk != u.bk)
  }

  method NewBuckets(n: nat) returns (all: seq<Vector>)
    ensures |all| == n && fresh(set v | v in all)
    ensures forall b :: 0 <= b < n ==> all[b].bk == null && Holds(all[b], Vec([], 0))
    ensures forall b, c :: 0 <= b < n && 0 <= c < n && b != c ==> Apart(all[b], all[c])
  {
    all := [];
    while |all| < n
      invariant |all| <= n && fresh(set v | v in all)
      invariant forall b :: 0 <= b < |all| ==> all[b].bk == null && Holds(all[b], Vec([], 0))
      invariant forall b, c :: 0 <= b < |all| && 0 <= c < |all| && b != c ==> Apart(all[b], all[c])
    {
      var v := new Vector();
      all := all + [v];
    }
  }

  /** An instance with its buckets; `held` is what they hold. */
  class HashTable {
    const w: Powers
    const vec: seq<Vector>
    ghost var held: seq<Vec>
    ghost var Repr: set<object>

    ghost predicate Valid()
      reads this, Repr
    {
      && this in Repr && Splits(w) && |vec| == |held| == Buckets(w)
      && (forall b :: 0 <= b < |vec| ==> vec[b] in Repr && (vec[b].bk == null || vec[b].bk in Repr))
      && (forall b :: 0 <= b < |vec| ==> Holds(vec[b], held[b]))
      && (forall b, c :: 0 <= b < |vec| && 0 <= c < |vec| && b != c ==> Apart(vec[b], vec[c]))
    }

    constructor (w: Powers)
      requires Splits(w)
      ensures Valid() && this.w == w && fresh(Repr)
      ensures forall b :: 0 <= b < |held| ==> held[b] == Vec([], 0)
    {
      this.w := w;
      var all := NewBuckets(Buckets(w));
      vec := all;
      held := seq(|all|, i => Vec([], 0));
      Repr := {this} + (set v: object | v in all);
    }

    method OnGetReq(hashKey: nat, key: Bytes) returns (r: Option<Bytes>)
      requires Valid()
      ensures r == Lookup(held[Bucket(w, hashKey)].entries, key)
    {
      var b := Bucket(w, hashKey);
      assert Holds(vec[b], held[b]);
      r := vec[b].Get(key);
    }

    /** Sets the key in bucket b, whose array may be replaced by a new one. */
    method SetBucket(b: nat, key: Bytes, value: Bytes)
      requires Valid() && b < |vec|
      modifies `held, vec[b], vec[b].bk
      ensures held == old(held)[b := VecSet(old(held)[b], key, value)]
      ensures vec[b].bk != null && (vec[b].bk == old(vec[b].bk) || fresh(vec[b].bk))
      ensures forall c :: 0 <= c < |vec| && c != b ==> vec[c].bk == old(vec[c].bk)
      ensures forall c :: 0 <= c < |vec| ==> Holds(vec[c], held[c])
      ensures forall c, d :: 0 <= c < |vec| && 0 <= d < |vec| && c != d ==> Apart(vec[c], vec[d])
    {
      assert Holds(vec[b], held[b]);
      assert forall c :: 0 <= c < |vec| && c != b ==> Apart(vec[b], vec[c]);
      held := held[b := VecSet(held[b], key, value)];
      vec[b].Set(key, value);
    }

    method OnSetReq(hashKey: nat, key: Bytes, value: Bytes)
      requires Valid()
      modifies Repr
      ensures Valid() && Repr >= old(Repr) && fresh(Repr - old(Repr))
      ensures held == old(held)[Bucket(w, hashKey) := VecSet(old(held)[Bucket(w, hashKey)], key, value)]
    {
      var b := Bucket(w, hashKey);
      SetBucket(b, key, value);
      Repr := Repr + {vec[b].bk};
    }
  }

  // ---- Places ----

  /** Instance and bucket. */
  datatype Place = Place(inst: nat, bucket: nat)

  /** Where the program keeps a key whose hash is hv. */
  function PlaceOf(w: Powers, hv: nat): Place
    requires Splits(w)
  {
    Place(Instance(w, hv), Bucket(w, hv))
  }

  function HashValue(key: Bytes): nat {
    Hash(key) as nat
  }

  function Home(key: Bytes): Place {
    PlaceOf(BUILT, HashValue(key))
  }

  /** The place computed for a key in memory does not depend on how its buffer is aligned or padded. */
  method RouteRequest(address: nat, mem: Bytes, length: nat) returns (hv: nat, inst: nat)
    requires length <= |mem| && (address % 4 == 0 ==> Rounded(length) <= |mem|)
    ensures hv == HashValue(mem[..length]) && Home(mem[..length]) == Place(inst, Bucket(BUILT, hv))
  {
    var h := JenkinsHash.JenkinsHash(address, mem, length);
    hv := h as nat;
    inst := Instance(BUILT, hv);
  }
}
