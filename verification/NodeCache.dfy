/**
 * Per-thread caches in front of the shared node map. Only the owner of a cache reads and fills it;
 * a deleter erases the entry under the map's lock and then clears every thread's valid flag.
 */
module NodeCache {

  import opened Options

  /** Every entry put into the map is a new object, told apart by its serial number. */
  datatype Entry = Entry(id: int, serial: int)

  /** Steps of `find_node`; `gone` is what had been deleted when the call began. */
  datatype Pc =
    | Idle
    | Load(id: int, gone: set<Entry>)
    | Lookup(id: int, gone: set<Entry>)
    | Clear(id: int, gone: set<Entry>)
    | Validate(id: int, gone: set<Entry>)
    | Map(id: int, gone: set<Entry>)

  datatype Thread = Thread(cache: map<int, Option<Entry>>, valid: bool, pc: Pc)

  /** Steps of `delete_node`: k threads have been told so far. */
  datatype Deleter = Rest | Erase(id: int) | Tell(e: Entry, k: nat)

  /** The answer of one call of `find_node`, and whether it came from the map or from the cache. */
  datatype Result = Result(t: nat, id: int, gone: set<Entry>, o: Option<Entry>, viaMap: bool)

  /** `gone`: entries erased by a call of `delete_node` that has returned; `results`: all answers so far. */
  datatype State = State(
    nodes: map<int, Entry>, serial: int, threads: seq<Thread>, deleters: seq<Deleter>,
    gone: set<Entry>, results: seq<Result>)

  datatype Choice = Find(t: nat, id: int) | Run(t: nat, found: bool) | Delete(d: nat, id: int) | Work(d: nat)

  predicate InMap(s: State, e: Entry) {
    e.id in s.nodes && s.nodes[e.id] == e
  }

  function SetThread(s: State, t: nat, th: Thread): State
    requires t < |s.threads|
  {
    s.(threads := s.threads[t := th])
  }

  /** The end of `find_node`. */
  function Return(s: State, t: nat, th: Thread, o: Option<Entry>, viaMap: bool): State
    requires t < |s.threads| && !th.pc.Idle?
  {
    SetThread(s, t, th.(pc := Idle)).(results := s.results + [Result(t, th.pc.id, th.pc.gone, o, viaMap)])
  }

  /** Under the lock: the entry in the map, or a new one if the registry knows the node. */
  function StepMap(s: State, t: nat, found: bool): State
    requires t < |s.threads| && s.threads[t].pc.Map?
  {
    var th := s.threads[t];
    var id := th.pc.id;
    var o := if id in s.nodes then Some(s.nodes[id])
             else if found then Some(Entry(id, s.serial)) else None;
    var cache := if id in th.cache then th.cache else th.cache[id := o];
    var s1 := if id !in s.nodes && found
              then s.(nodes := s.nodes[id := Entry(id, s.serial)], serial := s.serial + 1) else s;
    Return(s1, t, th.(cache := cache), o, true)
  }

  function StepThread(s: State, t: nat, found: bool): State
    requires t < |s.threads|
  {
    var th := s.threads[t];
    match th.pc
    case Idle => s
    case Load(id, gone) => SetThread(s, t, th.(pc := if th.valid then Lookup(id, gone) else Clear(id, gone)))
    case Lookup(id, gone) =>
      if id in th.cache && th.cache[id].Some? then Return(s, t, th, th.cache[id], false)
      else SetThread(s, t, th.(pc := Map(id, gone)))
    case Clear(id, gone) => SetThread(s, t, th.(cache := map[], pc := Validate(id, gone)))
    case Validate(id, gone) => SetThread(s, t, th.(valid := true, pc := Map(id, gone)))
    case Map(_, _) => StepMap(s, t, found)
  }

  function SetDeleter(s: State, d: nat, x: Deleter): State
    requires d < |s.deleters|
  {
    s.(deleters := s.deleters[d := x])
  }

  function StepDeleter(s: State, d: nat): State
    requires d < |s.deleters|
  {
    match s.deleters[d]
    case Rest => s
    case Erase(id) =>
      if id in s.nodes then SetDeleter(s, d, Tell(s.nodes[id], 0)).(nodes := s.nodes - {id})
      else SetDeleter(s, d, Rest)
    case Tell(e, k) =>
      if k < |s.threads| then SetThread(SetDeleter(s, d, Tell(e, k + 1)), k, s.threads[k].(valid := false))
      else SetDeleter(s, d, Rest).(gone := s.gone + {e})
  }

  function Step(s: State, c: Choice): State {
    match c
    case Find(t, id) =>
      if t < |s.threads| && s.threads[t].pc.Idle?
      then SetThread(s, t, s.threads[t].(pc := Load(id, s.gone))) else s
    case Run(t, found) => if t < |s.threads| then StepThread(s, t, found) else s
    case Delete(d, id) =>
      if d < |s.deleters| && s.deleters[d].Rest? then SetDeleter(s, d, Erase(id)) else s
    case Work(d) => if d < |s.deleters| then StepDeleter(s, d) else s
  }

  function RunAll(s: State, sched: seq<Choice>): State
    decreases |sched|
  {
    if sched == [] then s else RunAll(Step(s, sched[0]), sched[1..])
  }

  // ---- What every state keeps ----

  /** Someone has erased e and not yet told thread t. */
  predicate Untold(s: State, e: Entry, t: nat) {
    exists d :: 0 <= d < |s.deleters| && s.deleters[d].Tell? && s.deleters[d].e == e && s.deleters[d].k <= t
  }

  /** Entries are older than the next serial number; erased ones are not in the map, nor yet gone. */
  predicate MapOk(s: State) {
    && (forall id :: id in s.nodes ==> s.nodes[id].id == id && s.nodes[id].serial < s.serial)
    && (forall e :: e in s.gone ==> !InMap(s, e) && e.serial < s.serial)
    && (forall d :: 0 <= d < |s.deleters| && s.deleters[d].Tell? ==>
          var e := s.deleters[d].e; !InMap(s, e) && e !in s.gone && e.serial < s.serial)
    && (forall c, d :: 0 <= c < d < |s.deleters| && s.deleters[c].Tell? && s.deleters[d].Tell? ==>
          s.deleters[c].e != s.deleters[d].e)
  }

  /** A cached entry is in the map, or will not be looked up before the cache is cleared. */
  predicate EntryOk(s: State, t: nat, id: int)
    requires t < |s.threads| && id in s.threads[t].cache
  {
    var o := s.threads[t].cache[id];
    o.Some? ==> o.value.id == id && (InMap(s, o.value) || !s.threads[t].valid || Untold(s, o.value, t))
  }

  predicate PcOk(s: State, t: nat)
    requires t < |s.threads|
  {
    var th := s.threads[t];
    && (!th.pc.Idle? ==> th.pc.gone <= s.gone)
    && (th.pc.Lookup? ==> forall id :: id in th.cache && th.cache[id].Some? ==> th.cache[id].value !in th.pc.gone)
    && (th.pc.Clear? ==> !th.valid)
    && (th.pc.Validate? ==> th.cache == map[])
  }

  /** The entry has the id asked for, and was not gone when the call began. */
  predicate ResultOk(r: Result) {
    r.o.Some? ==> r.o.value.id == r.id && r.o.value !in r.gone
  }

  predicate Inv(s: State) {
    && MapOk(s)
    && (forall t, id :: 0 <= t < |s.threads| && id in s.threads[t].cache ==> EntryOk(s, t, id))
    && (forall t :: 0 <= t < |s.threads| ==> PcOk(s, t))
    && (forall i :: 0 <= i < |s.results| ==> ResultOk(s.results[i]))
  }

  /** Nothing in the map or still being told about has gone. */
  lemma {:induction false} FreshIsNotGone(s: State, t: nat, id: int)
    requires Inv(s) && t < |s.threads| && id in s.threads[t].cache && s.threads[t].cache[id].Some?
    requires s.threads[t].valid
    ensures s.threads[t].cache[id].value !in s.gone
  {
    assert EntryOk(s, t, id);
  }

  /** A step of thread t that leaves the map and the deleters alone. */
  lemma {:induction false} OwnKeeps(s: State, s': State, t: nat)
    requires Inv(s) && t < |s.threads| == |s'.threads| && PcOk(s', t)
    requires s' == SetThread(s, t, s'.threads[t]).(results := s'.results)
    requires forall id :: id in s'.threads[t].cache ==> EntryOk(s', t, id)
    requires forall i :: 0 <= i < |s'.results| ==> ResultOk(s'.results[i])
    ensures Inv(s')
  {
    forall u, x | 0 <= u < |s'.threads| && x in s'.threads[u].cache ensures EntryOk(s', u, x) {
      if u != t {
        assert EntryOk(s, u, x);
        assert forall e, v :: Untold(s, e, v) ==> Untold(s', e, v);
      }
    }
    forall u | 0 <= u < |s'.threads| ensures PcOk(s', u) {
      if u != t { assert PcOk(s, u); }
    }
  }

  lemma {:induction false} FindKeeps(s: State, t: nat, id: int)
    requires Inv(s) && t < |s.threads| && s.threads[t].pc.Idle?
    ensures Inv(Step(s, Find(t, id)))
  {
    SameCache(s, Step(s, Find(t, id)), t);
    OwnKeeps(s, Step(s, Find(t, id)), t);
  }

  /** Cached entries stay good while cache, map and deleters stay, unless the flag is set. */
  lemma {:induction false} SameCache(s: State, s': State, t: nat)
    requires Inv(s) && t < |s.threads| == |s'.threads| && s'.nodes == s.nodes && s'.deleters == s.deleters
    requires s'.threads[t].cache == s.threads[t].cache && (s'.threads[t].valid ==> s.threads[t].valid)
    ensures forall id :: id in s'.threads[t].cache ==> EntryOk(s', t, id)
  {
    forall id | id in s'.threads[t].cache ensures EntryOk(s', t, id) {
      assert EntryOk(s, t, id);
      assert forall e, v :: Untold(s, e, v) ==> Untold(s', e, v);
    }
  }

  lemma {:induction false} LocalKeeps(s: State, t: nat, found: bool)
    requires Inv(s) && t < |s.threads| && !s.threads[t].pc.Map?
    ensures Inv(StepThread(s, t, found))
  {
    var s', th := StepThread(s, t, found), s.threads[t];
    assert PcOk(s, t);
    if th.pc.Load? && th.valid {
      forall id | id in th.cache && th.cache[id].Some? ensures th.cache[id].value !in th.pc.gone {
        FreshIsNotGone(s, t, id);
      }
    }
    if th.pc.Load? || th.pc.Lookup? { SameCache(s, s', t); }
    if th.pc.Lookup? && th.pc.id in th.cache { assert EntryOk(s, t, th.pc.id); }
    if !th.pc.Idle? { OwnKeeps(s, s', t); }
  }

  lemma {:induction false} MapStep(s: State, t: nat, found: bool)
    requires Inv(s) && t < |s.threads| && s.threads[t].pc.Map?
    ensures MapOk(StepMap(s, t, found))
    ensures forall e :: InMap(s, e) ==> InMap(StepMap(s, t, found), e)
    ensures forall e, v :: Untold(s, e, v) ==> Untold(StepMap(s, t, found), e, v)
  {
  }

  lemma {:induction false} MapKeeps(s: State, t: nat, found: bool)
    requires Inv(s) && t < |s.threads| && s.threads[t].pc.Map?
    ensures Inv(StepMap(s, t, found))
  {
    var s', th := StepMap(s, t, found), s.threads[t];
    MapStep(s, t, found);
    assert PcOk(s, t);
    forall u, x | 0 <= u < |s'.threads| && x in s'.threads[u].cache ensures EntryOk(s', u, x) {
      if x in s.threads[u].cache { assert EntryOk(s, u, x); }
    }
    forall u | 0 <= u < |s'.threads| ensures PcOk(s', u) {
      if u != t { assert PcOk(s, u); }
    }
  }

  /** An entry leaves the map: until every thread is told, somebody still has to tell it. */
  lemma {:induction false} EraseKeeps(s: State, d: nat)
    requires Inv(s) && d < |s.deleters| && s.deleters[d].Erase?
    ensures Inv(StepDeleter(s, d))
  {
    var s' := StepDeleter(s, d);
    forall e: Entry, v: nat | Untold(s, e, v) ensures Untold(s', e, v) {
      var c :| 0 <= c < |s.deleters| && s.deleters[c].Tell? && s.deleters[c].e == e && s.deleters[c].k <= v;
      assert s'.deleters[c] == s.deleters[c];
    }
    forall u, x | 0 <= u < |s'.threads| && x in s'.threads[u].cache ensures EntryOk(s', u, x) {
      assert EntryOk(s, u, x);
      assert s'.deleters[d].Tell? ==> Untold(s', s'.deleters[d].e, u);
    }
    forall u | 0 <= u < |s'.threads| ensures PcOk(s', u) { assert PcOk(s, u); }
  }

  lemma {:induction false} TellKeeps(s: State, d: nat)
    requires Inv(s) && d < |s.deleters| && s.deleters[d].Tell?
    ensures Inv(StepDeleter(s, d))
  {
    var s', k := StepDeleter(s, d), s.deleters[d].k;
    forall e: Entry, v: nat | Untold(s, e, v) && v != k && v < |s.threads| ensures Untold(s', e, v) {
      var c :| 0 <= c < |s.deleters| && s.deleters[c].Tell? && s.deleters[c].e == e && s.deleters[c].k <= v;
      assert s'.deleters[c].Tell? && s'.deleters[c].e == e && s'.deleters[c].k <= v;
    }
    forall u, x | 0 <= u < |s'.threads| && x in s'.threads[u].cache ensures EntryOk(s', u, x) {
      assert EntryOk(s, u, x);
    }
    forall u | 0 <= u < |s'.threads| ensures PcOk(s', u) { assert PcOk(s, u); }
  }

  lemma {:induction false} StepKeeps(s: State, c: Choice)
    requires Inv(s)
    ensures Inv(Step(s, c))
  {
    match c {
      case Find(t, id) => {
        if t < |s.threads| && s.threads[t].pc.Idle? { FindKeeps(s, t, id); }
      }
      case Run(t, found) => {
        if t < |s.threads| {
          if s.threads[t].pc.Map? { MapKeeps(s, t, found); } else { LocalKeeps(s, t, found); }
        }
      }
      case Delete(d, id) => {
        if d < |s.deleters| && s.deleters[d].Rest? { DeleteKeeps(s, d, id); }
      }
      case Work(d) => {
        if d < |s.deleters| {
          if s.deleters[d].Erase? { EraseKeeps(s, d); }
          if s.deleters[d].Tell? { TellKeeps(s, d); }
        }
      }
    }
  }

  lemma {:induction false} DeleteKeeps(s: State, d: nat, id: int)
    requires Inv(s) && d < |s.deleters| && s.deleters[d].Rest?
    ensures Inv(Step(s, Delete(d, id)))
  {
    var s' := Step(s, Delete(d, id));
    forall e: Entry, v: nat | Untold(s, e, v) ensures Untold(s', e, v) {
      var c :| 0 <= c < |s.deleters| && s.deleters[c].Tell? && s.deleters[c].e == e && s.deleters[c].k <= v;
      assert s'.deleters[c] == s.deleters[c];
    }
    forall u, x | 0 <= u < |s'.threads| && x in s'.threads[u].cache ensures EntryOk(s', u, x) {
      assert EntryOk(s, u, x);
    }
    forall u | 0 <= u < |s'.threads| ensures PcOk(s', u) { assert PcOk(s, u); }
  }

  predicate Start(s: State) {
    && s.gone == {} && s.results == []
    && (forall t :: 0 <= t < |s.threads| ==> s.threads[t] == Thread(map[], true, Idle))
    && (forall d :: 0 <= d < |s.deleters| ==> s.deleters[d] == Rest)
    && (forall id :: id in s.nodes ==> s.nodes[id].id == id && s.nodes[id].serial < s.serial)
  }

  lemma {:induction false} RunKeeps(s: State, sched: seq<Choice>)
    requires Inv(s)
    ensures Inv(RunAll(s, sched))
    decreases |sched|
  {
    if sched == [] {
    } else {
      StepKeeps(s, sched[0]);
      RunKeeps(Step(s, sched[0]), sched[1..]);
    }
  }

  /**
   * In every interleaving, no call of `find_node` returns an entry whose deletion had returned when
   * the call began.
   */
  lemma {:induction false} DeletedIsNotFound(s: State, sched: seq<Choice>, i: nat)
    requires Start(s)
    ensures var s' := RunAll(s, sched);
      i < |s'.results| && s'.results[i].o.Some? ==> s'.results[i].o.value !in s'.results[i].gone
  {
    RunKeeps(s, sched);
  }

  // ---- The same, told from what happened ----

  /** The entry whose deletion returns with this step: it was erased and every thread has been told. */
  function Returns(s: State, c: Choice): set<Entry> {
    if c.Work? && c.d < |s.deleters| && s.deleters[c.d].Tell? && s.deleters[c.d].k >= |s.threads|
    then {s.deleters[c.d].e} else {}
  }

  /** The entries whose deletions have returned. */
  function Deleted(s: State, sched: seq<Choice>): set<Entry>
    decreases |sched|
  {
    if sched == [] then {} else Returns(s, sched[0]) + Deleted(Step(s, sched[0]), sched[1..])
  }

  lemma {:induction false} GoneStep(s: State, c: Choice)
    ensures Step(s, c).gone == s.gone + Returns(s, c)
  {
  }

  lemma {:induction false} GoneIsDeleted(s: State, sched: seq<Choice>)
    ensures RunAll(s, sched).gone == s.gone + Deleted(s, sched)
    decreases |sched|
  {
    if sched == [] {
    } else {
      GoneStep(s, sched[0]);
      GoneIsDeleted(Step(s, sched[0]), sched[1..]);
    }
  }

  /** Calls of thread t since there were n answers began when all of `gone` had gone. */
  predicate Since(s: State, t: nat, n: nat, gone: set<Entry>) {
    && t < |s.threads| && gone <= s.gone && (!s.threads[t].pc.Idle? ==> gone <= s.threads[t].pc.gone)
    && (forall i :: n <= i < |s.results| && s.results[i].t == t ==> gone <= s.results[i].gone)
  }

  lemma {:induction false} SinceThread(s: State, u: nat, found: bool, t: nat, n: nat, gone: set<Entry>)
    requires Since(s, t, n, gone) && u < |s.threads|
    ensures Since(StepThread(s, u, found), t, n, gone)
  {
    var s' := StepThread(s, u, found);
    forall i | n <= i < |s'.results| && s'.results[i].t == t ensures gone <= s'.results[i].gone {
      if i < |s.results| { assert s'.results[i] == s.results[i]; }
    }
  }

  lemma {:induction false} SinceStep(s: State, c: Choice, t: nat, n: nat, gone: set<Entry>)
    requires Since(s, t, n, gone)
    ensures Since(Step(s, c), t, n, gone)
  {
    if c.Run? && c.t < |s.threads| {
      SinceThread(s, c.t, c.found, t, n, gone);
    } else {
      GoneStep(s, c);
      assert Step(s, c).results == s.results;
    }
  }

  lemma {:induction false} SinceRun(s: State, sched: seq<Choice>, t: nat, n: nat, gone: set<Entry>)
    requires Since(s, t, n, gone)
    ensures Since(RunAll(s, sched), t, n, gone)
    decreases |sched|
  {
    if sched == [] {
    } else {
      SinceStep(s, sched[0], t, n, gone);
      SinceRun(Step(s, sched[0]), sched[1..], t, n, gone);
    }
  }

  /**
   * In every interleaving: once the deletion of an entry has returned, no thread that is between calls
   * then ever answers with that entry, whatever happens afterwards.
   */
  lemma {:induction false} DeletedIsNeverFoundAgain(s: State, before: seq<Choice>, after: seq<Choice>, t: nat, i: nat)
    requires Start(s)
    requires var s1 := RunAll(s, before); t < |s1.threads| && s1.threads[t].pc.Idle?
    ensures var s1 := RunAll(s, before); var s2 := RunAll(s1, after);
      |s1.results| <= i < |s2.results| && s2.results[i].t == t && s2.results[i].o.Some? ==>
        s2.results[i].o.value !in Deleted(s, before)
  {
    var s1 := RunAll(s, before);
    RunKeeps(s, before);
    RunKeeps(s1, after);
    GoneIsDeleted(s, before);
    SinceRun(s1, after, t, |s1.results|, s1.gone);
  }

  // ---- What a call answers ----

  /** Thread t got this answer for id from the map, in a call before the n-th answer. */
  predicate FromMap(results: seq<Result>, n: nat, t: nat, id: int, o: Option<Entry>) {
    exists j :: 0 <= j < n && j < |results| && results[j].t == t && results[j].id == id
             && results[j].o == o && results[j].viaMap
  }

  /** What is cached came from the map; an answer from the cache repeats an earlier one from the map. */
  predicate Sourced(s: State) {
    && (forall t, id :: 0 <= t < |s.threads| && id in s.threads[t].cache ==>
          FromMap(s.results, |s.results|, t, id, s.threads[t].cache[id]))
    && (forall i :: 0 <= i < |s.results| && !s.results[i].viaMap ==>
          FromMap(s.results, i, s.results[i].t, s.results[i].id, s.results[i].o))
  }

  lemma {:induction false} SourcesStay(s: State, s': State, n: nat, t: nat, id: int, o: Option<Entry>)
    requires s.results <= s'.results && FromMap(s.results, n, t, id, o) && n <= |s.results|
    ensures FromMap(s'.results, n, t, id, o) && FromMap(s'.results, |s'.results|, t, id, o)
  {
    var j :| 0 <= j < n && s.results[j].t == t && s.results[j].id == id && s.results[j].o == o && s.results[j].viaMap;
    assert s'.results[j] == s.results[j];
  }

  lemma {:induction false} ThreadSourced(s: State, t: nat, found: bool)
    requires Sourced(s) && t < |s.threads|
    ensures Sourced(StepThread(s, t, found))
  {
    var s', th := StepThread(s, t, found), s.threads[t];
    forall u, id | 0 <= u < |s'.threads| && id in s'.threads[u].cache
      ensures FromMap(s'.results, |s'.results|, u, id, s'.threads[u].cache[id])
    {
      if id in s.threads[u].cache {
        SourcesStay(s, s', |s.results|, u, id, s.threads[u].cache[id]);
      } else {
        var r := s'.results[|s.results|];
        assert r.t == u && r.id == id && r.o == s'.threads[u].cache[id] && r.viaMap;
      }
    }
    forall i | 0 <= i < |s'.results| && !s'.results[i].viaMap
      ensures FromMap(s'.results, i, s'.results[i].t, s'.results[i].id, s'.results[i].o)
    {
      if i < |s.results| {
        SourcesStay(s, s', i, s.results[i].t, s.results[i].id, s.results[i].o);
      } else {
        SourcesStay(s, s', |s.results|, t, th.pc.id, th.cache[th.pc.id]);
      }
    }
  }

  lemma {:induction false} RunSourced(s: State, sched: seq<Choice>)
    requires Sourced(s)
    ensures Sourced(RunAll(s, sched))
    decreases |sched|
  {
    if sched == [] {
    } else {
      var c := sched[0];
      if c.Run? && c.t < |s.threads| { ThreadSourced(s, c.t, c.found); }
      RunSourced(Step(s, c), sched[1..]);
    }
  }

  /**
   * In every interleaving: an answer has the id asked for, and an answer from the cache is one that an
   * earlier call of the same thread got from the map for that id.
   */
  lemma {:induction false} AnswersHaveTheId(s: State, sched: seq<Choice>, i: nat)
    requires Start(s) && i < |RunAll(s, sched).results|
    ensures var r := RunAll(s, sched).results[i];
      && (r.o.Some? ==> r.o.value.id == r.id)
      && (!r.viaMap ==> FromMap(RunAll(s, sched).results, i, r.t, r.id, r.o))
  {
    RunKeeps(s, sched);
    RunSourced(s, sched);
  }

  /**
   * At every point of every run: a call under the lock ends with the entry that the map then holds for
   * the id, and with none exactly if neither the map nor the registry knew the node.
   */
  lemma {:induction false} MapAnswers(s: State, t: nat, found: bool)
    requires Inv(s) && t < |s.threads| && s.threads[t].pc.Map?
    ensures var s' := Step(s, Run(t, found)); var id := s.threads[t].pc.id;
      && |s'.results| == |s.results| + 1 && s'.threads[t].pc.Idle?
      && var r := s'.results[|s.results|];
         && r.t == t && r.id == id && r.viaMap
         && r.o == (if id in s'.nodes then Some(s'.nodes[id]) else None)
         && (r.o == None <==> id !in s.nodes && !found)
         && (forall x :: x in s.nodes ==> x in s'.nodes && s'.nodes[x] == s.nodes[x])
  {
  }

  /** The id that a step asks thread t for. */
  function Asks(s: State, c: Choice, t: nat): seq<int> {
    if c.Find? && c.t == t && t < |s.threads| && s.threads[t].pc.Idle? then [c.id] else []
  }

  /** All ids thread t was asked for. */
  function Asked(s: State, sched: seq<Choice>, t: nat): seq<int>
    decreases |sched|
  {
    if sched == [] then [] else Asks(s, sched[0], t) + Asked(Step(s, sched[0]), sched[1..], t)
  }

  /** The ids thread t has answered. */
  function Answered(results: seq<Result>, t: nat): seq<int> {
    if results == [] then []
    else
      var n := |results| - 1;
      Answered(results[..n], t) + if results[n].t == t then [results[n].id] else []
  }

  function Pending(s: State, t: nat): seq<int> {
    if t < |s.threads| && !s.threads[t].pc.Idle? then [s.threads[t].pc.id] else []
  }

  /** The calls of thread t that have begun. */
  function Calls(s: State, t: nat): seq<int> {
    Answered(s.results, t) + Pending(s, t)
  }

  /** Thread u goes on with its call, or ends it with an answer under the id of the call. */
  predicate GoesOn(s: State, s': State, u: nat) {
    && u < |s.threads| == |s'.threads|
    && (forall t :: 0 <= t < |s.threads| && t != u ==> s'.threads[t] == s.threads[t])
    && var pc, pc' := s.threads[u].pc, s'.threads[u].pc;
       if s'.results == s.results then pc.Idle? == pc'.Idle? && (!pc.Idle? ==> pc'.id == pc.id)
       else
         && !pc.Idle? && pc'.Idle? && |s'.results| == |s.results| + 1 && s.results <= s'.results
         && s'.results[|s.results|].t == u && s'.results[|s.results|].id == pc.id
  }

  lemma {:induction false} ThreadGoesOn(s: State, u: nat, found: bool)
    requires u < |s.threads|
    ensures GoesOn(s, StepThread(s, u, found), u)
  {
  }

  lemma {:induction false} GoesOnAnswers(s: State, s': State, u: nat, t: nat)
    requires GoesOn(s, s', u)
    ensures Calls(s', t) == Calls(s, t)
  {
    if s'.results != s.results {
      assert s'.results[..|s.results|] == s.results;
    }
  }

  lemma {:induction false} AskedStep(s: State, c: Choice, t: nat)
    ensures Calls(Step(s, c), t) == Calls(s, t) + Asks(s, c, t)
  {
    if c.Run? && c.t < |s.threads| {
      ThreadGoesOn(s, c.t, c.found);
      GoesOnAnswers(s, Step(s, c), c.t, t);
    } else {
      assert Step(s, c).results == s.results;
    }
  }

  lemma {:induction false} Regroup(a: seq<int>, b: seq<int>, c: seq<int>)
    ensures (a + b) + c == a + (b + c)
  {
  }

  lemma {:induction false} AskedRun(s: State, sched: seq<Choice>, t: nat)
    ensures Calls(RunAll(s, sched), t) == Calls(s, t) + Asked(s, sched, t)
    decreases |sched|
  {
    if sched == [] {
    } else {
      AskedStep(s, sched[0], t);
      AskedRun(Step(s, sched[0]), sched[1..], t);
      Regroup(Calls(s, t), Asks(s, sched[0], t), Asked(Step(s, sched[0]), sched[1..], t));
    }
  }

  lemma {:induction false} NoCalls(s: State, t: nat)
    requires Start(s)
    ensures Calls(s, t) == []
  {
  }

  /**
   * In every run a thread answers its calls in order, each once and under the id it was asked for: the
   * ids asked for are those answered followed by that of the call going on.
   */
  lemma {:induction false} EveryCallIsAnswered(s: State, sched: seq<Choice>, t: nat)
    requires Start(s)
    ensures Asked(s, sched, t) == Calls(RunAll(s, sched), t)
  {
    AskedRun(s, sched, t);
    NoCalls(s, t);
    Regroup([], [], Asked(s, sched, t));
  }

  /** One more step at the end of a run. */
  lemma {:induction false} RunMore(s: State, sched: seq<Choice>, c: Choice)
    ensures RunAll(s, sched + [c]) == Step(RunAll(s, sched), c)
    decreases |sched|
  {
    if sched == [] {
      assert sched + [c] == [c] && [c][1..] == [];
    } else {
      assert (sched + [c])[1..] == sched[1..] + [c];
      RunMore(Step(s, sched[0]), sched[1..], c);
    }
  }

  lemma {:induction false} RunTwice(s: State, a: seq<Choice>, b: seq<Choice>)
    ensures RunAll(s, a + b) == RunAll(RunAll(s, a), b)
    decreases |a|
  {
    if a == [] {
      assert a + b == b;
    } else {
      assert (a + b)[1..] == a[1..] + b;
      RunTwice(Step(s, a[0]), a[1..], b);
    }
  }

  // ---- Exactly when an erased entry can still be found ----

  predicate Cached(th: Thread, e: Entry) {
    e.id in th.cache && th.cache[e.id] == Some(e)
  }

  /** Thread t would return e from its cache: it trusts the cache, or is past the test of the flag. */
  predicate Serves(s: State, t: nat, e: Entry)
    requires t < |s.threads|
  {
    var th := s.threads[t];
    Cached(th, e) && (th.valid || (th.pc.Lookup? && th.pc.id == e.id))
  }

  predicate Served(s: State, e: Entry) {
    exists t :: 0 <= t < |s.threads| && Serves(s, t, e)
  }

  /** The entry has left the map, for good. */
  predicate Erased(s: State, e: Entry) {
    !InMap(s, e) && e.serial < s.serial
  }

  /** Some call returns e after state s. */
  predicate FoundAfter(s: State, s': State, e: Entry) {
    exists i :: |s.results| <= i < |s'.results| && s'.results[i].o == Some(e)
  }

  /** This schedule leads to a call that returns e. */
  predicate Finds(s: State, sched: seq<Choice>, e: Entry) {
    FoundAfter(s, RunAll(s, sched), e)
  }

  lemma {:induction false} UnservedThread(s: State, t: nat, found: bool, e: Entry)
    requires Inv(s) && Erased(s, e) && !Served(s, e) && t < |s.threads|
    ensures var s' := StepThread(s, t, found); Erased(s', e) && !Served(s', e) && !FoundAfter(s, s', e)
  {
    var s', th := StepThread(s, t, found), s.threads[t];
    assert PcOk(s, t) && !Serves(s, t, e);
    if th.pc.Lookup? && th.pc.id in th.cache { assert EntryOk(s, t, th.pc.id); }
    forall u | 0 <= u < |s'.threads| ensures !Serves(s', u, e) {
      assert !Serves(s, u, e);
    }
  }

  lemma {:induction false} UnservedStep(s: State, c: Choice, e: Entry)
    requires Inv(s) && Erased(s, e) && !Served(s, e)
    ensures var s' := Step(s, c); Erased(s', e) && !Served(s', e) && !FoundAfter(s, s', e)
  {
    var s' := Step(s, c);
    if c.Run? && c.t < |s.threads| {
      UnservedThread(s, c.t, c.found, e);
    } else {
      forall u | 0 <= u < |s'.threads| ensures !Serves(s', u, e) {
        assert !Serves(s, u, e);
      }
    }
  }

  lemma {:induction false} ResultsGrow(s: State, c: Choice)
    ensures s.results <= Step(s, c).results
  {
  }

  lemma {:induction false} RunGrows(s: State, sched: seq<Choice>)
    ensures s.results <= RunAll(s, sched).results
    decreases |sched|
  {
    if sched == [] {
    } else {
      ResultsGrow(s, sched[0]);
      RunGrows(Step(s, sched[0]), sched[1..]);
    }
  }

  lemma {:induction false} UnservedRun(s: State, sched: seq<Choice>, e: Entry)
    requires Inv(s) && Erased(s, e) && !Served(s, e)
    ensures !Finds(s, sched, e)
    decreases |sched|
  {
    if sched == [] {
    } else {
      var s1, s' := Step(s, sched[0]), RunAll(s, sched);
      UnservedStep(s, sched[0], e);
      StepKeeps(s, sched[0]);
      UnservedRun(s1, sched[1..], e);
      RunGrows(s1, sched[1..]);
      forall i | |s.results| <= i < |s'.results| ensures s'.results[i].o != Some(e) {
        if i < |s1.results| { assert s'.results[i] == s1.results[i]; }
      }
    }
  }

  /** The call thread t is in, if any, ends and leaves a valid cache as it is for e. */
  lemma {:induction false} EndsCall(s: State, t: nat, e: Entry) returns (sched: seq<Choice>)
    requires Inv(s) && t < |s.threads| && s.threads[t].valid && Cached(s.threads[t], e)
    requires !s.threads[t].pc.Clear? && !s.threads[t].pc.Validate?
    ensures var s' := RunAll(s, sched);
      |s'.threads| == |s.threads| && s'.threads[t].pc.Idle? && s'.threads[t].valid && Cached(s'.threads[t], e)
    decreases match s.threads[t].pc case Load(_, _) => 3 case Lookup(_, _) => 2 case Map(_, _) => 1 case _ => 0
  {
    if s.threads[t].pc.Idle? {
      sched := [];
    } else {
      var s1 := Step(s, Run(t, false));
      StepKeeps(s, Run(t, false));
      var rest := EndsCall(s1, t, e);
      sched := [Run(t, false)] + rest;
      assert sched[1..] == rest;
    }
  }

  /** A call from an idle thread with a valid cache returns what is cached. */
  lemma {:induction false} FindsCached(s: State, t: nat, e: Entry) returns (sched: seq<Choice>)
    requires t < |s.threads| && s.threads[t].pc.Idle? && s.threads[t].valid && Cached(s.threads[t], e)
    ensures Finds(s, sched, e)
  {
    var p := [] + [Find(t, e.id)];
    RunMore(s, [], Find(t, e.id));
    RunMore(s, p, Run(t, false));
    var q := p + [Run(t, false)];
    assert RunAll(s, q).threads[t].pc == Lookup(e.id, s.gone);
    RunMore(s, q, Run(t, false));
    sched := q + [Run(t, false)];
    assert RunAll(s, sched).results[|s.results|].o == Some(e);
  }

  lemma {:induction false} ServedIsFound(s: State, t: nat, e: Entry) returns (sched: seq<Choice>)
    requires Inv(s) && t < |s.threads| && Serves(s, t, e)
    ensures Finds(s, sched, e)
  {
    var th := s.threads[t];
    if th.pc.Lookup? && th.pc.id == e.id {
      sched := [] + [Run(t, false)];
      RunMore(s, [], Run(t, false));
      assert RunAll(s, sched).results[|s.results|].o == Some(e);
    } else {
      FlagFalse(s, t);
      var a := EndsCall(s, t, e);
      var b := FindsCached(RunAll(s, a), t, e);
      sched := a + b;
      RunTwice(s, a, b);
      RunGrows(s, a);
    }
  }

  /** A thread about to clear its cache does not trust it; past the clearing the cache is empty. */
  lemma {:induction false} FlagFalse(s: State, t: nat)
    requires Inv(s) && t < |s.threads|
    ensures s.threads[t].pc.Clear? ==> !s.threads[t].valid
    ensures s.threads[t].pc.Validate? ==> s.threads[t].cache == map[]
  {
    assert PcOk(s, t);
  }

  /**
   * From every state of every run: an entry that has left the map is returned by some later step of
   * some call if and only if a thread holds it in a cache it trusts, or is looking it up right now.
   */
  lemma {:induction false} FoundAgainIffServed(s: State, e: Entry)
    requires Inv(s) && Erased(s, e)
    ensures (exists sched :: Finds(s, sched, e)) <==> Served(s, e)
  {
    if t :| 0 <= t < |s.threads| && Serves(s, t, e) {
      var sched := ServedIsFound(s, t, e);
      assert Finds(s, sched, e);
    } else {
      forall sched ensures !Finds(s, sched, e) {
        UnservedRun(s, sched, e);
      }
    }
  }

  /** n steps of thread t. */
  function Alone(t: nat, n: nat): seq<Choice> {
    if n == 0 then [] else [Run(t, false)] + Alone(t, n - 1)
  }

  /**
   * From every state: a thread that does not trust its cache and is asked for a node in the map clears
   * the cache, gets the entry from the map and trusts the cache again, which then holds just that entry.
   */
  lemma {:induction false} ColdCallWarms(s: State, t: nat, id: int)
    requires Inv(s) && t < |s.threads| && s.threads[t].pc.Idle? && !s.threads[t].valid && id in s.nodes
    ensures var s' := RunAll(s, [Find(t, id)] + Alone(t, 4));
      && |s'.threads| == |s.threads| && s'.threads[t] == Thread(map[id := Some(s.nodes[id])], true, Idle)
      && s'.nodes == s.nodes && |s'.results| == |s.results| + 1 && s'.results[|s.results|].o == Some(s.nodes[id])
  {
    var s1 := Step(s, Find(t, id));
    RunCons(s, Find(t, id), Alone(t, 4));
    var s2 := Step(s1, Run(t, false));
    RunCons(s1, Run(t, false), Alone(t, 3));
    assert s2.threads[t].pc == Clear(id, s.gone);
    var s3 := Step(s2, Run(t, false));
    RunCons(s2, Run(t, false), Alone(t, 2));
    assert s3.threads[t] == Thread(map[], false, Validate(id, s.gone));
    var s4 := Step(s3, Run(t, false));
    RunCons(s3, Run(t, false), Alone(t, 1));
    assert s4.threads[t] == Thread(map[], true, Map(id, s.gone));
    RunCons(s4, Run(t, false), Alone(t, 0));
  }

  lemma {:induction false} RunCons(s: State, c: Choice, rest: seq<Choice>)
    ensures RunAll(s, [c] + rest) == RunAll(Step(s, c), rest)
  {
    assert ([c] + rest)[1..] == rest;
  }

  /** Whoever deletes a node and returns when every thread has been told gives the guarantee. */
  lemma {:induction false} ToldIsUntrusted(s: State, e: Entry, t: nat)
    requires Inv(s) && Erased(s, e) && t < |s.threads|
    requires forall d :: 0 <= d < |s.deleters| && s.deleters[d].Tell? && s.deleters[d].e == e ==> s.deleters[d].k > t
    ensures Cached(s.threads[t], e) ==> !s.threads[t].valid
  {
    if Cached(s.threads[t], e) { assert EntryOk(s, t, e.id); }
  }

  /**
   * A deletion that returns, having erased the entry itself or found it erased: if every thread has
   * been told and is between calls, the entry is never found again; and in general, between calls, it
   * is found again if and only if some thread still trusts a cache that holds it.
   */
  lemma {:induction false} ReturnedDeleteGuarantees(s: State, e: Entry)
    requires Inv(s) && Erased(s, e) && forall t :: 0 <= t < |s.threads| ==> s.threads[t].pc.Idle?
    ensures (exists sched :: Finds(s, sched, e))
       <==> exists t :: 0 <= t < |s.threads| && s.threads[t].valid && Cached(s.threads[t], e)
    ensures (forall d :: 0 <= d < |s.deleters| && s.deleters[d].Tell? && s.deleters[d].e == e ==>
               s.deleters[d].k >= |s.threads|)
            ==> forall sched :: !Finds(s, sched, e)
  {
    FoundAgainIffServed(s, e);
    if t :| 0 <= t < |s.threads| && s.threads[t].valid && Cached(s.threads[t], e) {
      assert Serves(s, t, e);
    }
    if forall d :: 0 <= d < |s.deleters| && s.deleters[d].Tell? && s.deleters[d].e == e ==>
        s.deleters[d].k >= |s.threads| {
      forall t | 0 <= t < |s.threads| ensures !Serves(s, t, e) {
        ToldIsUntrusted(s, e, t);
      }
    }
  }

  /** Two deletes of one node; thread 0 has it cached. */
  function Early(id: int): State {
    State(map[id := Entry(id, 0)], 1, [Thread(map[], true, Idle)], [Rest, Rest], {}, [])
  }

  /** The first delete has erased the entry and told nobody yet. */
  lemma {:induction false} EarlyErased(id: int) returns (sched: seq<Choice>)
    ensures var e := Entry(id, 0);
      RunAll(Early(id), sched) ==
        State(map[], 1, [Thread(map[id := Some(e)], true, Idle)], [Tell(e, 0), Rest], {},
              [Result(0, id, {}, Some(e), true)])
  {
    var s, e := Early(id), Entry(id, 0);
    var p1 := [] + [Find(0, id)];
    RunMore(s, [], Find(0, id));
    RunMore(s, p1, Run(0, false));
    var p2 := p1 + [Run(0, false)];
    assert RunAll(s, p2).threads[0].pc == Lookup(id, {});
    RunMore(s, p2, Run(0, false));
    var p3 := p2 + [Run(0, false)];
    assert RunAll(s, p3).threads[0].pc == Map(id, {});
    RunMore(s, p3, Run(0, false));
    var p4 := p3 + [Run(0, false)];
    assert RunAll(s, p4) == s.(threads := [Thread(map[id := Some(e)], true, Idle)],
                               results := [Result(0, id, {}, Some(e), true)]);
    RunMore(s, p4, Delete(0, id));
    var p5 := p4 + [Delete(0, id)];
    RunMore(s, p5, Work(0));
    sched := p5 + [Work(0)];
    assert RunAll(s, sched).nodes == map[];
    assert RunAll(s, sched).deleters == [Tell(e, 0), Rest];
  }

  /**
   * A run from a start state: a second `delete_node` of the same node finds the map already empty and
   * returns while a cache still serves the entry.
   */
  lemma {:induction false} SecondDeleteMayReturnEarly(id: int)
    ensures exists before, after ::
      var s, s' := RunAll(Early(id), before), RunAll(Early(id), before + after);
      && |s.deleters| == 2 && s.deleters[1] == Rest && Delete(1, id) in before && Work(1) in before
      && !InMap(s, Entry(id, 0))
      && |s'.results| > |s.results| && s'.results[|s.results|].o == Some(Entry(id, 0))
  {
    var s, e := Early(id), Entry(id, 0);
    var p := EarlyErased(id);
    RunMore(s, p, Delete(1, id));
    var p1 := p + [Delete(1, id)];
    RunMore(s, p1, Work(1));
    var before := p1 + [Work(1)];
    assert RunAll(s, before) == RunAll(s, p);
    RunMore(s, before, Find(0, id));
    var q1 := before + [Find(0, id)];
    RunMore(s, q1, Run(0, false));
    var q2 := q1 + [Run(0, false)];
    assert RunAll(s, q2).threads[0].pc == Lookup(id, {});
    RunMore(s, q2, Run(0, false));
    var after := [Find(0, id), Run(0, false), Run(0, false)];
    assert q2 + [Run(0, false)] == before + after;
    assert RunAll(s, before + after).results[1].o == Some(e);
  }
}
