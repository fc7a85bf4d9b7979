/** The instances of the store as objects: together they are one map, whatever is asked of them. */
module KvCluster {

  import opened JenkinsHash
  import opened KvStore
  import opened Options

  // ---- One map ----

  datatype Op = Set(key: Bytes, value: Bytes) | Get(key: Bytes)

  function MapGet(m: map<Bytes, Bytes>, key: Bytes): Option<Bytes> {
    if key in m then Some(m[key]) else None
  }

  /** What one request does to a plain map, and what it is answered. */
  function Changed(m: map<Bytes, Bytes>, op: Op): map<Bytes, Bytes> {
    if op.Set? then m[op.key := op.value] else m
  }

  function Answer(m: map<Bytes, Bytes>, op: Op): seq<Option<Bytes>> {
    if op.Set? then [] else [MapGet(m, op.key)]
  }

  /** The answers of one plain map to a sequence of requests. */
  function MapAnswers(m: map<Bytes, Bytes>, ops: seq<Op>): seq<Option<Bytes>>
    decreases |ops|
  {
    if ops == [] then [] else Answer(m, ops[0]) + MapAnswers(Changed(m, ops[0]), ops[1..])
  }

  lemma {:induction false} AnswersFrom(m: map<Bytes, Bytes>, ops: seq<Op>, i: nat, before: seq<Option<Bytes>>)
    requires i < |ops|
    ensures before + MapAnswers(m, ops[i..])
         == (before + Answer(m, ops[i])) + MapAnswers(Changed(m, ops[i]), ops[i + 1..])
  {
    assert ops[i..][1..] == ops[i + 1..];
  }

  // ---- What the buckets hold ----

  type Route = Bytes -> Place

  /** For every instance that has been asked, what each of its buckets holds. */
  type Snap = map<nat, seq<Vec>>

  function HeldAt(snap: Snap, p: Place): seq<Entry> {
    if p.inst in snap && p.bucket < |snap[p.inst]| then snap[p.inst][p.bucket].entries else []
  }

  /** Looking a key up in its bucket is looking it up in the map. */
  ghost predicate Same(route: Route, snap: Snap, m: map<Bytes, Bytes>) {
    forall key :: Lookup(HeldAt(snap, route(key)), key) == MapGet(m, key)
  }

  /** The keys in a bucket are routed to it and distinct, and the bucket fits its slots. */
  predicate Placed(route: Route, snap: Snap) {
    forall i, b :: i in snap && 0 <= b < |snap[i]| ==> PlacedAt(route, snap[i][b], Place(i, b))
  }

  predicate PlacedAt(route: Route, v: Vec, p: Place) {
    VecOk(v) && forall k :: 0 <= k < |v.entries| ==> route(v.entries[k].key) == p
  }

  function SetAt(snap: Snap, p: Place, key: Bytes, value: Bytes): Snap
    requires p.inst in snap && p.bucket < |snap[p.inst]|
  {
    snap[p.inst := snap[p.inst][p.bucket := VecSet(snap[p.inst][p.bucket], key, value)]]
  }

  lemma {:induction false} SetSame(route: Route, snap: Snap, m: map<Bytes, Bytes>, key: Bytes, value: Bytes)
    requires Same(route, snap, m) && route(key).inst in snap && route(key).bucket < |snap[route(key).inst]|
    ensures Same(route, SetAt(snap, route(key), key, value), m[key := value])
  {
    var p := route(key);
    var snap' := SetAt(snap, p, key, value);
    forall k ensures Lookup(HeldAt(snap', route(k)), k) == MapGet(m[key := value], k) {
      assert Lookup(HeldAt(snap, route(k)), k) == MapGet(m, k);
      LookupStored(HeldAt(snap, p), key, value, k);
    }
  }

  lemma {:induction false} SetPlaced(route: Route, snap: Snap, key: Bytes, value: Bytes)
    requires Placed(route, snap) && route(key).inst in snap && route(key).bucket < |snap[route(key).inst]|
    ensures Placed(route, SetAt(snap, route(key), key, value))
  {
    var p := route(key);
    assert PlacedAt(route, snap[p.inst][p.bucket], Place(p.inst, p.bucket));
    VecSetOk(snap[p.inst][p.bucket], key, value);
    StoredKeys(HeldAt(snap, p), key, value);
  }

  /** A new instance with empty buckets changes no lookup. */
  lemma {:induction false} NewSame(route: Route, snap: Snap, m: map<Bytes, Bytes>, inst: nat, held: seq<Vec>)
    requires Same(route, snap, m) && Placed(route, snap) && inst !in snap
    requires forall b :: 0 <= b < |held| ==> held[b] == Vec([], 0)
    ensures Same(route, snap[inst := held], m) && Placed(route, snap[inst := held])
  {
    var snap' := snap[inst := held];
    forall k ensures Lookup(HeldAt(snap', route(k)), k) == MapGet(m, k) {
      assert Lookup(HeldAt(snap, route(k)), k) == MapGet(m, k);
      assert HeldAt(snap', route(k)) == HeldAt(snap, route(k));
    }
  }

  // ---- The objects ----

  /** Where keys go, for any hash function and any powers. */
  function Routing(w: Powers, hash: Bytes -> nat): Route {
    key => RouteOne(w, hash(key))
  }

  function RouteOne(w: Powers, hv: nat): Place {
    if Splits(w) then PlaceOf(w, hv) else Place(0, 0)
  }

  /** The table as a whole: its powers and what it holds. */
  ghost predicate Holding(t: HashTable, w: Powers, held: seq<Vec>)
    reads t, t.Repr
  {
    t.Valid() && t.w == w && t.held == held
  }

  type Tables = map<nat, HashTable>

  /** The instances lie in repr, share no object, and hold what the snapshot says. */
  ghost predicate Separate(tables: Tables, w: Powers, snap: Snap, repr: set<object>)
    reads tables.Values, repr
  {
    && Splits(w) && snap.Keys == tables.Keys
    && (forall i :: i in tables ==> tables[i].Repr <= repr && Holding(tables[i], w, snap[i]))
    && (forall i, j :: i in tables && j in tables && i != j ==> tables[i].Repr !! tables[j].Repr)
  }

  /** The instance the hash names stores the pair; every other instance stays as it is. */
  method Deliver(tables: Tables, w: Powers, ghost snap: Snap, ghost repr: set<object>,
                 hv: nat, key: Bytes, value: Bytes)
    returns (ghost repr': set<object>)
    requires Separate(tables, w, snap, repr) && Instance(w, hv) in tables
    modifies repr
    ensures Bucket(w, hv) < |snap[Instance(w, hv)]| && fresh(repr' - repr)
    ensures Separate(tables, w, SetAt(snap, PlaceOf(w, hv), key, value), repr')
  {
    var inst := Instance(w, hv);
    assert Holding(tables[inst], w, snap[inst]);
    tables[inst].OnSetReq(hv, key, value);
    repr' := repr + tables[inst].Repr;
  }

  /** One more instance, with empty buckets. */
  method Create(tables: Tables, w: Powers, ghost snap: Snap, ghost repr: set<object>, inst: nat)
    returns (tables': Tables, ghost held: seq<Vec>, ghost repr': set<object>)
    requires Separate(tables, w, snap, repr) && inst !in tables
    ensures Separate(tables', w, snap[inst := held], repr') && fresh(repr' - repr)
    ensures forall b :: 0 <= b < |held| ==> held[b] == Vec([], 0)
  {
    var table := new HashTable(w);
    held, repr' := table.held, repr + table.Repr;
    tables' := tables[inst := table];
  }

  /**
   * What all instances together are: `snap` is what they hold, `model` the map that they stand for,
   * and `repr` the objects they are made of.
   */
  datatype View = View(snap: Snap, model: map<Bytes, Bytes>, repr: set<object>)

  ghost predicate IsStore(tables: Tables, w: Powers, hash: Bytes -> nat, v: View)
    reads tables.Values, v.repr
  {
    && Separate(tables, w, v.snap, v.repr)
    && Same(Routing(w, hash), v.snap, v.model) && Placed(Routing(w, hash), v.snap)
  }

  /** Dispatch creates an instance when it is first asked. */
  method Locate(tables: Tables, w: Powers, ghost hash: Bytes -> nat, ghost v: View, inst: nat)
    returns (tables': Tables, ghost v': View)
    requires IsStore(tables, w, hash, v)
    ensures IsStore(tables', w, hash, v') && inst in tables' && v'.model == v.model && fresh(v'.repr - v.repr)
  {
    tables', v' := tables, v;
    if inst !in tables {
      ghost var held, repr;
      tables', held, repr := Create(tables, w, v.snap, v.repr, inst);
      NewSame(Routing(w, hash), v.snap, v.model, inst, held);
      v' := View(v.snap[inst := held], v.model, repr);
    }
  }

  /** A get through routing; the hash of the key comes with the request. */
  method GetKey(tables: Tables, w: Powers, ghost hash: Bytes -> nat, ghost v: View, hv: nat, key: Bytes)
    returns (tables': Tables, ghost v': View, r: Option<Bytes>)
    requires IsStore(tables, w, hash, v) && hv == hash(key)
    ensures IsStore(tables', w, hash, v') && v'.model == v.model && fresh(v'.repr - v.repr)
    ensures r == MapGet(v.model, key)
  {
    var inst := Instance(w, hv);
    tables', v' := Locate(tables, w, hash, v, inst);
    assert Holding(tables'[inst], w, v'.snap[inst]);
    r := tables'[inst].OnGetReq(hv, key);
    assert r == Lookup(HeldAt(v'.snap, Routing(w, hash)(key)), key);
  }

  /** A set through routing. */
  method SetKey(tables: Tables, w: Powers, ghost hash: Bytes -> nat, ghost v: View, hv: nat, key: Bytes, value: Bytes)
    returns (tables': Tables, ghost v': View)
    requires IsStore(tables, w, hash, v) && hv == hash(key)
    modifies v.repr
    ensures IsStore(tables', w, hash, v') && v'.model == v.model[key := value] && fresh(v'.repr - v.repr)
  {
    tables', v' := Locate(tables, w, hash, v, Instance(w, hv));
    ghost var route := Routing(w, hash);
    assert route(key) == PlaceOf(w, hv);
    SetSame(route, v'.snap, v'.model, key, value);
    SetPlaced(route, v'.snap, key, value);
    ghost var repr := Deliver(tables', w, v'.snap, v'.repr, hv, key, value);
    v' := View(SetAt(v'.snap, PlaceOf(w, hv), key, value), v'.model[key := value], repr);
  }

  method Request(tables: Tables, w: Powers, ghost hash: Bytes -> nat, ghost v: View, hv: nat, op: Op)
    returns (tables': Tables, ghost v': View, r: seq<Option<Bytes>>)
    requires IsStore(tables, w, hash, v) && hv == hash(op.key)
    modifies v.repr
    ensures IsStore(tables', w, hash, v') && v'.model == Changed(v.model, op) && fresh(v'.repr - v.repr)
    ensures r == Answer(v.model, op)
  {
    match op {
      case Set(key, value) => {
        tables', v' := SetKey(tables, w, hash, v, hv, key, value);
        r := [];
      }
      case Get(key) => {
        var x;
        tables', v', x := GetKey(tables, w, hash, v, hv, key);
        r := [x];
      }
    }
  }

  /** Any sequence of sets and gets is answered as by one map, for any hash function and any powers. */
  method Serve(tables: Tables, w: Powers, hash: Bytes -> nat, ghost v: View, ops: seq<Op>)
    returns (tables': Tables, ghost v': View, answers: seq<Option<Bytes>>)
    requires IsStore(tables, w, hash, v)
    modifies v.repr
    ensures IsStore(tables', w, hash, v') && answers == MapAnswers(v.model, ops)
  {
    tables', v', answers := tables, v, [];
    var i := 0;
    while i < |ops|
      invariant i <= |ops| && IsStore(tables', w, hash, v') && fresh(v'.repr - v.repr)
      invariant answers + MapAnswers(v'.model, ops[i..]) == MapAnswers(v.model, ops)
    {
      AnswersFrom(v'.model, ops, i, answers);
      var r;
      tables', v', r := Request(tables', w, hash, v', hash(ops[i].key), ops[i]);
      answers := answers + r;
      i := i + 1;
    }
  }

  /** There are no instances at first, which is the empty map. */
  lemma {:induction false} NoneIsStore(w: Powers, hash: Bytes -> nat)
    requires Splits(w)
    ensures IsStore(map[], w, hash, View(map[], map[], {}))
  {
  }

  // ---- Requests as they lie in memory ----

  /** A key at some address, in memory that may go on after it. */
  datatype Buffer = Buffer(address: nat, mem: Bytes, length: nat)

  datatype Query = SetReq(buf: Buffer, value: Bytes) | GetReq(buf: Buffer)

  /** The loads of the hash stay within the memory. */
  predicate Readable(b: Buffer) {
    b.length <= |b.mem| && (b.address % 4 == 0 ==> Rounded(b.length) <= |b.mem|)
  }

  function KeyOf(b: Buffer): Bytes
    requires Readable(b)
  {
    b.mem[..b.length]
  }

  function OpOf(q: Query): Op
    requires Readable(q.buf)
  {
    if q.SetReq? then Set(KeyOf(q.buf), q.value) else Get(KeyOf(q.buf))
  }

  function OpsOf(qs: seq<Query>): (ops: seq<Op>)
    requires forall i :: 0 <= i < |qs| ==> Readable(qs[i].buf)
    ensures |ops| == |qs| && forall i :: 0 <= i < |qs| ==> ops[i] == OpOf(qs[i])
  {
    seq(|qs|, i requires 0 <= i < |qs| => OpOf(qs[i]))
  }

  /**
   * Any sequence of requests is answered as by one map over the key bytes: buffers that hold the same
   * key are one key, however each of them is aligned and whatever lies behind it.
   */
  method ServeBuffers(qs: seq<Query>) returns (answers: seq<Option<Bytes>>)
    requires forall i :: 0 <= i < |qs| ==> Readable(qs[i].buf)
    ensures answers == MapAnswers(map[], OpsOf(qs))
  {
    NoneIsStore(BUILT, HashValue);
    var tables: Tables := map[];
    ghost var v, ops := View(map[], map[], {}), OpsOf(qs);
    answers := [];
    var i := 0;
    while i < |qs|
      invariant i <= |qs| && IsStore(tables, BUILT, HashValue, v) && fresh(v.repr)
      invariant answers + MapAnswers(v.model, ops[i..]) == MapAnswers(map[], ops)
    {
      AnswersFrom(v.model, ops, i, answers);
      var b := qs[i].buf;
      var hv, _ := RouteRequest(b.address, b.mem, b.length);
      var r;
      tables, v, r := Request(tables, BUILT, HashValue, v, hv, OpOf(qs[i]));
      answers := answers + r;
      i := i + 1;
    }
  }
}
