/** Access evaluations that overlap on the shared map of allow decisions.

    Each label is one call on the map, the provider's answer, or the start of an evaluation; one that
    does not apply changes nothing. `World.answers`, `inserted` and `peak` are history: what the
    provider answered to each evaluation that asked it, when an evaluation inserted its decision, and
    the largest number of evaluations that were ever between making room and inserting. */
module AccessOverlap {
  import opened Wrappers
  import opened AccessKey
  import opened AccessController

  /** Where `cache_put` stands. */
  datatype Stage = Measuring | Retaining | Remeasuring | Clearing | Inserting

  datatype Proc<V> =
    | Getting(req: Request<V>)
    | Removing(req: Request<V>)
    | Asking(req: Request<V>)
    | Putting(req: Request<V>, d: Decision, stage: Stage)
    | Done(req: Request<V>, reply: Decision, readAt: Option<int>)

  datatype World<V> = World(cache: Cache, procs: map<nat, Proc<V>>, answers: map<nat, Answer>,
                            inserted: map<nat, int>, peak: nat)

  datatype Label<V> =
    | Begin(p: nat, req: Request<V>)
    | Get(p: nat, now: int)
    | Remove(p: nat)
    | Answered(p: nat, answer: Answer)
    | Put(p: nat, now: int)

  function Init<V>(): World<V> {
    World(map[], map[], map[], map[], 0)
  }

  function Settled(c: Config, group: string, answer: Answer): Decision {
    match answer
    case Ok(d) => d
    case Err(message) => Folded(c, group, message)
  }

  /** One action of `cache_put`: where the evaluation stands next, and the map. */
  function PutStep<V>(c: Config, render: V -> string, cache: Cache, proc: Proc<V>, now: int): (Proc<V>, Cache)
    requires proc.Putting?
  {
    var Putting(req, d, stage) := proc;
    match stage
    case Measuring => (Putting(req, d, if |cache| >= c.capacity then Retaining else Inserting), cache)
    case Retaining => (Putting(req, d, Remeasuring), OnlyLive(c, cache, now))
    case Remeasuring => (Putting(req, d, if |cache| >= c.capacity then Clearing else Inserting), cache)
    case Clearing => (Putting(req, d, Inserting), map[])
    case Inserting => (Done(req, d, None), cache[KeyOf(req, render) := Entry(now, d)])
  }

  /** One action of an evaluation that has begun. */
  function Move<V>(c: Config, render: V -> string, cache: Cache, proc: Proc<V>, l: Label<V>): (Proc<V>, Cache) {
    var key := KeyOf(proc.req, render);
    match l
    case Get(_, now) =>
      if !proc.Getting? then (proc, cache)
      else if key !in cache then (Asking(proc.req), cache)
      else if Live(c, cache[key], now) then (Done(proc.req, cache[key].decision, Some(now)), cache)
      else (Removing(proc.req), cache)
    case Remove(_) => if proc.Removing? then (Asking(proc.req), cache - {key}) else (proc, cache)
    case Answered(_, answer) =>
      if !proc.Asking? then (proc, cache)
      else if answer.Ok? && answer.decision.IsAllowed() && c.ttl > 0 then (Putting(proc.req, answer.decision, Measuring), cache)
      else (Done(proc.req, Settled(c, proc.req.clusterGroup, answer), None), cache)
    case Put(_, now) => if proc.Putting? then PutStep(c, render, cache, proc, now) else (proc, cache)
    case Begin(_, _) => (proc, cache)
  }

  predicate AtInsert<V>(proc: Proc<V>) {
    proc.Putting? && proc.stage.Inserting?
  }

  function Heard<V>(proc: Proc<V>, l: Label<V>, before: Option<Answer>): Option<Answer> {
    if l.Answered? && proc.Asking? then Some(l.answer) else before
  }

  function Wrote<V>(proc: Proc<V>, l: Label<V>, before: Option<int>): Option<int> {
    if l.Put? && AtInsert(proc) then Some(l.now) else before
  }

  function At<T>(m: map<nat, T>, p: nat): Option<T> {
    if p in m then Some(m[p]) else None
  }

  function With<T>(m: map<nat, T>, p: nat, v: Option<T>): map<nat, T> {
    if v.Some? then m[p := v.value] else m
  }

  function Change<V>(c: Config, render: V -> string, s: World<V>, l: Label<V>): World<V> {
    if l.p !in s.procs then
      if l.Begin? then s.(procs := s.procs[l.p := if c.ttl > 0 then Getting(l.req) else Asking(l.req)]) else s
    else
      var proc := s.procs[l.p];
      var (next, cache) := Move(c, render, s.cache, proc, l);
      World(cache, s.procs[l.p := next], With(s.answers, l.p, Heard(proc, l, At(s.answers, l.p))),
            With(s.inserted, l.p, Wrote(proc, l, At(s.inserted, l.p))), s.peak)
  }

  /** The evaluations that have made room and not yet inserted. */
  function Pending<V>(s: World<V>): set<nat> {
    set p | p in s.procs && AtInsert(s.procs[p])
  }

  function Apply<V>(c: Config, render: V -> string, s: World<V>, l: Label<V>): World<V> {
    var s' := Change(c, render, s, l);
    s'.(peak := Max(s.peak, |Pending(s')|))
  }

  function RunOf<V>(c: Config, render: V -> string, ls: seq<Label<V>>): World<V> {
    if ls == [] then Init() else Apply(c, render, RunOf(c, render, ls[..|ls| - 1]), ls[|ls| - 1])
  }

  // ----- Every reply is explained ------------------------------------------------------------

  /** What an evaluation holds, against what it heard from the provider and when it inserted. */
  predicate Came<V>(c: Config, proc: Proc<V>, heard: Option<Answer>, wrote: Option<int>) {
    match proc
    case Putting(_, d, _) => heard == Some(Ok(d)) && d.IsAllowed() && wrote.None?
    case Done(req, reply, readAt) =>
      if readAt.Some? then heard.None? && wrote.None?
      else heard.Some? && reply == Settled(c, req.clusterGroup, heard.value)
    case _ => heard.None? && wrote.None?
  }

  lemma MoveCame<V>(c: Config, render: V -> string, cache: Cache, proc: Proc<V>, l: Label<V>, heard: Option<Answer>, wrote: Option<int>)
    requires Came(c, proc, heard, wrote)
    ensures Came(c, Move(c, render, cache, proc, l).0, Heard(proc, l, heard), Wrote(proc, l, wrote))
    ensures Move(c, render, cache, proc, l).0.req == proc.req
    ensures wrote.Some? ==> Heard(proc, l, heard) == heard && Wrote(proc, l, wrote) == wrote
  {
  }

  ghost predicate AllCame<V(!new)>(c: Config, s: World<V>) {
    forall p: nat :: CameAt(c, s, p)
  }

  predicate CameAt<V>(c: Config, s: World<V>, p: nat) {
    p in s.procs || p in s.answers || p in s.inserted ==>
      p in s.procs && Came(c, s.procs[p], At(s.answers, p), At(s.inserted, p))
  }

  lemma CameKeeps<V>(c: Config, render: V -> string, s: World<V>, l: Label<V>, p: nat)
    requires CameAt(c, s, p)
    ensures CameAt(c, Apply(c, render, s, l), p)
  {
    if l.p == p && p in s.procs { MoveCame(c, render, s.cache, s.procs[p], l, At(s.answers, p), At(s.inserted, p)); }
  }

  /** Evaluation `q` inserted `e` under `key`, and `e` holds the provider's own allow to it. */
  ghost predicate InsertedBy<V>(render: V -> string, s: World<V>, key: CacheKey, e: Entry, q: nat) {
    && q in s.procs && KeyOf(s.procs[q].req, render) == key
    && At(s.answers, q) == Some(Ok(e.decision)) && e.decision.IsAllowed() && At(s.inserted, q) == Some(e.stored)
  }

  ghost predicate Backed<V>(render: V -> string, s: World<V>, key: CacheKey) {
    key in s.cache ==> exists q: nat :: InsertedBy(render, s, key, s.cache[key], q)
  }

  ghost predicate Inv<V(!new)>(c: Config, render: V -> string, s: World<V>) {
    AllCame(c, s) && forall key :: Backed(render, s, key)
  }

  /** What is said of an evaluation that has inserted stays true of it. */
  lemma AuthorStays<V(!new)>(c: Config, render: V -> string, s: World<V>, l: Label<V>, key: CacheKey, e: Entry, q: nat)
    requires InsertedBy(render, s, key, e, q) && CameAt(c, s, q)
    ensures InsertedBy(render, Apply(c, render, s, l), key, e, q)
  {
    if l.p == q { MoveCame(c, render, s.cache, s.procs[q], l, At(s.answers, q), At(s.inserted, q)); }
  }

  /** An entry of the map was there before, or is being inserted. */
  lemma EntryComes<V>(c: Config, render: V -> string, cache: Cache, proc: Proc<V>, l: Label<V>, key: CacheKey)
    requires key in Move(c, render, cache, proc, l).1
    ensures var e := Move(c, render, cache, proc, l).1[key];
            || (key in cache && cache[key] == e)
            || (l.Put? && AtInsert(proc) && KeyOf(proc.req, render) == key && e == Entry(l.now, proc.d))
  {
  }

  lemma BackedKeeps<V(!new)>(c: Config, render: V -> string, s: World<V>, l: Label<V>, key: CacheKey)
    requires Backed(render, s, key) && AllCame(c, s)
    ensures Backed(render, Apply(c, render, s, l), key)
  {
    var s' := Apply(c, render, s, l);
    if key in s'.cache {
      if l.p in s.procs { EntryComes(c, render, s.cache, s.procs[l.p], l, key); }
      if key in s.cache && s.cache[key] == s'.cache[key] {
        var q: nat :| InsertedBy(render, s, key, s.cache[key], q);
        assert CameAt(c, s, q);
        AuthorStays(c, render, s, l, key, s.cache[key], q);
      } else {
        assert CameAt(c, s, l.p);
        InsertIsBacked(c, render, s, l, key);
      }
    }
  }

  lemma InsertIsBacked<V(!new)>(c: Config, render: V -> string, s: World<V>, l: Label<V>, key: CacheKey)
    requires CameAt(c, s, l.p) && l.Put? && l.p in s.procs && AtInsert(s.procs[l.p])
    requires KeyOf(s.procs[l.p].req, render) == key && key in Apply(c, render, s, l).cache
    ensures Backed(render, Apply(c, render, s, l), key)
  {
    assert InsertedBy(render, Apply(c, render, s, l), key, Apply(c, render, s, l).cache[key], l.p);
  }

  lemma StepKeeps<V(!new)>(c: Config, render: V -> string, s: World<V>, l: Label<V>)
    requires Inv(c, render, s)
    ensures Inv(c, render, Apply(c, render, s, l))
  {
    forall p: nat ensures CameAt(c, Apply(c, render, s, l), p) { CameKeeps(c, render, s, l, p); }
    forall key ensures Backed(render, Apply(c, render, s, l), key) { BackedKeeps(c, render, s, l, key); }
  }

  lemma {:induction false} RunKeeps<V(!new)>(c: Config, render: V -> string, ls: seq<Label<V>>)
    ensures Inv(c, render, RunOf(c, render, ls))
  {
    if ls != [] {
      RunKeeps(c, render, ls[..|ls| - 1]);
      StepKeeps(c, render, RunOf(c, render, ls[..|ls| - 1]), ls[|ls| - 1]);
    }
  }

  /** By now the provider has given `reply`, an allow, to an evaluation whose request agrees with
      `req` and which inserted it less than the TTL before `at`. */
  ghost predicate Recent<V(!new)>(c: Config, render: V -> string, s: World<V>, req: Request<V>, reply: Decision, at: int) {
    exists q: nat :: GaveTo(c, render, s, req, reply, at, q)
  }

  predicate AllAllowed(d: Decision) {
    forall i :: 0 <= i < |d.resources| ==> d.resources[i].allow
  }

  ghost predicate GaveTo<V(!new)>(c: Config, render: V -> string, s: World<V>, req: Request<V>, reply: Decision, at: int, q: nat) {
    && q in s.procs && q in s.answers && q in s.inserted
    && s.answers[q] == Ok(reply) && AllAllowed(reply) && Max(at - s.inserted[q], 0) < c.ttl
    && Alike(s.procs[q].req, req, render)
  }

  /** The requests agree on everything but the query id, their maps being given in key order. */
  ghost predicate Alike<V(!new)>(a: Request<V>, b: Request<V>, render: V -> string) {
    WellFormed(a) && WellFormed(b) ==> Agree(a, b, render)
  }

  lemma SameKeyAlike<V(!new)>(a: Request<V>, b: Request<V>, render: V -> string)
    requires KeyOf(a, render) == KeyOf(b, render)
    ensures Alike(a, b, render)
  {
    if WellFormed(a) && WellFormed(b) { KeyExact(a, b, render); }
  }

  lemma HitIsRecent<V(!new)>(c: Config, render: V -> string, s: World<V>, req: Request<V>, at: int)
    requires Backed(render, s, KeyOf(req, render))
    requires KeyOf(req, render) in s.cache && Live(c, s.cache[KeyOf(req, render)], at)
    ensures Recent(c, render, s, req, s.cache[KeyOf(req, render)].decision, at)
  {
    var e := s.cache[KeyOf(req, render)];
    var q: nat :| InsertedBy(render, s, KeyOf(req, render), e, q);
    SameKeyAlike(s.procs[q].req, req, render);
    assert GaveTo(c, render, s, req, e.decision, at, q);
  }

  /** An evaluation becomes one served from the map only by its own read. */
  lemma ReadsOnce<V>(c: Config, render: V -> string, cache: Cache, proc: Proc<V>, l: Label<V>)
    requires var next := Move(c, render, cache, proc, l).0; next.Done? && next.readAt.Some? && next != proc
    ensures var Done(req, reply, readAt) := Move(c, render, cache, proc, l).0;
            && l == Get(l.p, readAt.value) && KeyOf(req, render) in cache
            && Live(c, cache[KeyOf(req, render)], readAt.value) && reply == cache[KeyOf(req, render)].decision
  {
  }

  /** Step `n` is the read of evaluation `p`, and by then the provider had given `reply` recently. */
  ghost predicate ServedAt<V(!new)>(c: Config, render: V -> string, ls: seq<Label<V>>, n: nat, p: nat, req: Request<V>, reply: Decision, at: int) {
    n < |ls| && ls[n] == Get(p, at) && Recent(c, render, RunOf(c, render, ls[..n]), req, reply, at)
  }

  lemma ServedEarlier<V(!new)>(c: Config, render: V -> string, ls: seq<Label<V>>, l: Label<V>, n: nat, p: nat, req: Request<V>, reply: Decision, at: int)
    requires ServedAt(c, render, ls, n, p, req, reply, at)
    ensures ServedAt(c, render, ls + [l], n, p, req, reply, at)
  {
    assert (ls + [l])[..n] == ls[..n];
  }

  lemma {:induction false} ServedByGet<V(!new)>(c: Config, render: V -> string, ls: seq<Label<V>>, p: nat) returns (n: nat)
    requires p in RunOf(c, render, ls).procs
    requires RunOf(c, render, ls).procs[p].Done? && RunOf(c, render, ls).procs[p].readAt.Some?
    ensures var Done(req, reply, readAt) := RunOf(c, render, ls).procs[p];
            ServedAt(c, render, ls, n, p, req, reply, readAt.value)
  {
    var front, l := ls[..|ls| - 1], ls[|ls| - 1];
    var s, s' := RunOf(c, render, front), RunOf(c, render, ls);
    assert ls == front + [l];
    if p in s.procs && s'.procs[p] == s.procs[p] {
      n := ServedByGet(c, render, front, p);
      var Done(req, reply, readAt) := s.procs[p];
      ServedEarlier(c, render, front, l, n, p, req, reply, readAt.value);
    } else {
      n := |front|;
      RunKeeps(c, render, front);
      ReadServes(c, render, s, l, p);
    }
  }

  lemma ReadServes<V(!new)>(c: Config, render: V -> string, s: World<V>, l: Label<V>, p: nat)
    requires Inv(c, render, s) && p in s.procs && p in Apply(c, render, s, l).procs
    requires var next := Apply(c, render, s, l).procs[p]; next.Done? && next.readAt.Some? && next != s.procs[p]
    ensures var Done(req, reply, readAt) := Apply(c, render, s, l).procs[p];
            l == Get(p, readAt.value) && Recent(c, render, s, req, reply, readAt.value)
  {
    ReadsOnce(c, render, s.cache, s.procs[p], l);
    var Done(req, reply, readAt) := Apply(c, render, s, l).procs[p];
    assert Backed(render, s, KeyOf(req, render));
    HitIsRecent(c, render, s, req, readAt.value);
  }

  /** In every interleaving of evaluations, each reply is the provider's answer to this evaluation,
      with an error folded, or, for one that never asked, an allow that the provider had given by the
      time of its read, step `n`, to a request that agrees with this one, inserted less than the TTL
      before. */
  lemma OverlappingReplyIsExplained<V(!new)>(c: Config, render: V -> string, ls: seq<Label<V>>, s: World<V>, p: nat) returns (n: nat)
    requires s == RunOf(c, render, ls) && p in s.procs && s.procs[p].Done?
    ensures var Done(req, reply, readAt) := s.procs[p];
            match readAt
            case None => p in s.answers && reply == Settled(c, req.clusterGroup, s.answers[p])
            case Some(at) => p !in s.answers && ServedAt(c, render, ls, n, p, req, reply, at)
  {
    RunKeeps(c, render, ls);
    assert CameAt(c, s, p);
    n := 0;
    if s.procs[p].readAt.Some? { n := ServedByGet(c, render, ls, p); }
  }

  /** An evaluation whose provider was asked and failed is answered as its group says. */
  lemma OverlappingFailureFollowsGroup<V(!new)>(c: Config, render: V -> string, ls: seq<Label<V>>, s: World<V>, p: nat)
    requires s == RunOf(c, render, ls) && p in s.procs && s.procs[p].Done? && p in s.answers && s.answers[p].Err?
    ensures FailureHandled(c, s.procs[p].req.clusterGroup, s.answers[p].message, s.procs[p].reply)
  {
    RunKeeps(c, render, ls);
    assert CameAt(c, s, p);
    FoldedHandles(c, s.procs[p].req.clusterGroup, s.answers[p].message);
  }

  // ----- The map serves what it should -------------------------------------------------------

  /** The step takes the entry `e` off the map or replaces it. */
  predicate Disturbs<V>(c: Config, render: V -> string, s: World<V>, l: Label<V>, key: CacheKey, e: Entry) {
    l.p in s.procs &&
    match s.procs[l.p]
    case Removing(req) => l.Remove? && KeyOf(req, render) == key
    case Putting(req, _, stage) =>
      l.Put? && (stage.Clearing? || (stage.Retaining? && l.now - e.stored >= c.ttl) || (stage.Inserting? && KeyOf(req, render) == key))
    case _ => false
  }

  lemma EntryStays<V>(c: Config, render: V -> string, s: World<V>, l: Label<V>, key: CacheKey, e: Entry)
    requires key in s.cache && s.cache[key] == e && !Disturbs(c, render, s, l, key, e) && c.ttl > 0
    ensures key in Apply(c, render, s, l).cache && Apply(c, render, s, l).cache[key] == e
  {
  }

  /** Step `k` inserted `e` under `key`, and no later step has disturbed it. */
  ghost predicate InsertedAt<V>(c: Config, render: V -> string, ls: seq<Label<V>>, k: nat, key: CacheKey, e: Entry) {
    && k < |ls| && ls[k] == Put(ls[k].p, e.stored)
    && var s := RunOf(c, render, ls[..k]);
    && ls[k].p in s.procs && s.procs[ls[k].p] == Putting(s.procs[ls[k].p].req, e.decision, Inserting)
    && KeyOf(s.procs[ls[k].p].req, render) == key
    && forall j :: k < j < |ls| ==> !Disturbs(c, render, RunOf(c, render, ls[..j]), ls[j], key, e)
  }

  lemma {:induction false} InsertedIsThere<V>(c: Config, render: V -> string, ls: seq<Label<V>>, k: nat, key: CacheKey, e: Entry)
    requires InsertedAt(c, render, ls, k, key, e) && c.ttl > 0
    ensures key in RunOf(c, render, ls).cache && RunOf(c, render, ls).cache[key] == e
  {
    var front := ls[..|ls| - 1];
    assert ls[..|ls| - 1] == front;
    if k < |ls| - 1 {
      InsertedBefore(c, render, ls, k, key, e);
      InsertedIsThere(c, render, front, k, key, e);
      EntryStays(c, render, RunOf(c, render, front), ls[|ls| - 1], key, e);
    }
  }

  lemma InsertedBefore<V>(c: Config, render: V -> string, ls: seq<Label<V>>, k: nat, key: CacheKey, e: Entry)
    requires InsertedAt(c, render, ls, k, key, e) && k < |ls| - 1
    ensures InsertedAt(c, render, ls[..|ls| - 1], k, key, e)
  {
    var front := ls[..|ls| - 1];
    assert front[..k] == ls[..k];
    forall j | k < j < |front| ensures !Disturbs(c, render, RunOf(c, render, front[..j]), front[j], key, e) { assert front[..j] == ls[..j]; }
  }

  /** In every interleaving, an evaluation that reads within the TTL of a decision that was inserted
      under its key, and that no later step removed or replaced, is served that decision. */
  lemma LiveInsertServes<V>(c: Config, render: V -> string, ls: seq<Label<V>>, k: nat, e: Entry, p: nat, now: int)
    requires c.ttl > 0 && p in RunOf(c, render, ls).procs && RunOf(c, render, ls).procs[p].Getting?
    requires InsertedAt(c, render, ls, k, KeyOf(RunOf(c, render, ls).procs[p].req, render), e) && now - e.stored < c.ttl
    ensures var s := RunOf(c, render, ls + [Get(p, now)]);
            p in s.procs && s.procs[p] == Done(RunOf(c, render, ls).procs[p].req, e.decision, Some(now))
  {
    InsertedIsThere(c, render, ls, k, KeyOf(RunOf(c, render, ls).procs[p].req, render), e);
    RunAppend(c, render, ls, Get(p, now));
  }

  // ----- The size of the map -----------------------------------------------------------------

  /** Entries and entries to come, against the capacity and the largest overlap so far. */
  predicate Bounded<V>(c: Config, s: World<V>) {
    |Pending(s)| <= s.peak && |s.cache| + |Pending(s)| <= Max(c.capacity, 1) - 1 + s.peak
  }

  lemma PendingMoves<V>(s: World<V>, s': World<V>, p: nat, proc: Proc<V>)
    requires s'.procs == s.procs[p := proc]
    ensures AtInsert(proc) ==> Pending(s') == Pending(s) + {p}
    ensures !AtInsert(proc) ==> Pending(s') == Pending(s) - {p}
  {
  }

  lemma NotSmaller<K, V>(small: map<K, V>, large: map<K, V>)
    requires small.Keys <= large.Keys
    ensures |small| <= |large|
  {
    SubsetSize(small.Keys, large.Keys);
  }

  /** Nothing but an insert adds entries. */
  lemma OnlyInsertsAdd<V>(c: Config, render: V -> string, cache: Cache, proc: Proc<V>, l: Label<V>)
    requires !(l.Put? && AtInsert(proc))
    ensures Move(c, render, cache, proc, l).1.Keys <= cache.Keys
    ensures AtInsert(proc) ==> AtInsert(Move(c, render, cache, proc, l).0)
  {
  }

  /** Whoever comes to its insert found room or made it. */
  lemma RoomAtInsert<V>(c: Config, render: V -> string, cache: Cache, proc: Proc<V>, l: Label<V>)
    requires AtInsert(Move(c, render, cache, proc, l).0) && !AtInsert(proc)
    ensures |Move(c, render, cache, proc, l).1| <= Max(c.capacity, 1) - 1
  {
  }

  lemma InsertSize(cache: Cache, key: CacheKey, e: Entry)
    ensures |cache[key := e]| <= |cache| + 1
  {
    assert cache[key := e].Keys == cache.Keys + {key};
  }

  lemma MoveSize<V>(c: Config, render: V -> string, cache: Cache, proc: Proc<V>, l: Label<V>)
    ensures var (next, cache') := Move(c, render, cache, proc, l);
            && |cache'| <= |cache| + (if AtInsert(proc) && !AtInsert(next) then 1 else 0)
            && (AtInsert(next) && !AtInsert(proc) ==> |cache'| <= Max(c.capacity, 1) - 1)
  {
    var (next, cache') := Move(c, render, cache, proc, l);
    if l.Put? && AtInsert(proc) {
      InsertSize(cache, KeyOf(proc.req, render), Entry(l.now, proc.d));
    } else {
      OnlyInsertsAdd(c, render, cache, proc, l);
      NotSmaller(cache', cache);
      if AtInsert(next) && !AtInsert(proc) { RoomAtInsert(c, render, cache, proc, l); }
    }
  }

  lemma PendingSize<V>(s: World<V>, s': World<V>, p: nat, proc: Proc<V>)
    requires s'.procs == s.procs[p := proc]
    ensures |Pending(s')| == |Pending(s)| + (if AtInsert(proc) then 1 else 0) - (if p in s.procs && AtInsert(s.procs[p]) then 1 else 0)
  {
    PendingMoves(s, s', p, proc);
    assert p in Pending(s) <==> p in s.procs && AtInsert(s.procs[p]);
    assert p !in Pending(s) ==> Pending(s) - {p} == Pending(s);
    assert p in Pending(s) ==> Pending(s) + {p} == Pending(s);
  }

  lemma StepBounded<V>(c: Config, render: V -> string, s: World<V>, l: Label<V>)
    requires Bounded(c, s)
    ensures Bounded(c, Apply(c, render, s, l))
  {
    var s', s'' := Change(c, render, s, l), Apply(c, render, s, l);
    assert Pending(s'') == Pending(s');
    if l.p in s.procs {
      MoveSize(c, render, s.cache, s.procs[l.p], l);
      PendingSize(s, s', l.p, s'.procs[l.p]);
    } else if l.Begin? {
      PendingSize(s, s', l.p, s'.procs[l.p]);
    }
  }

  /** In every interleaving the map holds at most `max(capacity, 1) - 1` decisions plus the largest
      number of evaluations that were ever, at one moment, between making room and inserting. Taken
      one at a time, that is `max(capacity, 1)`. */
  lemma {:induction false} OverlapBoundsSize<V>(c: Config, render: V -> string, ls: seq<Label<V>>)
    ensures var s := RunOf(c, render, ls); |s.cache| <= Max(c.capacity, 1) - 1 + s.peak && Bounded(c, s)
  {
    if ls == [] {
      assert Pending(Init<V>()) == {};
    } else {
      OverlapBoundsSize(c, render, ls[..|ls| - 1]);
      StepBounded(c, render, RunOf(c, render, ls[..|ls| - 1]), ls[|ls| - 1]);
    }
  }

  // ----- The bound is reached ----------------------------------------------------------------

  /** Requests that differ in their user. */
  function Asker<V>(i: nat): Request<V> {
    Request(seq(i, _ => 'u'), [], [], [], "", [], None, "", "", "", [])
  }

  function Keys<V>(render: V -> string, n: nat): set<CacheKey> {
    set i | 0 <= i < n :: KeyOf(Asker<V>(i), render)
  }

  lemma KeysDiffer<V>(render: V -> string, i: nat, j: nat)
    ensures KeyOf(Asker<V>(i), render) == KeyOf(Asker<V>(j), render) ==> i == j
  {
    assert |KeyOf(Asker<V>(i), render).user| == i && |KeyOf(Asker<V>(j), render).user| == j;
  }

  lemma KeyUnused<V>(render: V -> string, n: nat, j: nat)
    requires n <= j
    ensures KeyOf(Asker<V>(j), render) !in Keys(render, n)
  {
    forall i: nat | i < n ensures KeyOf(Asker<V>(i), render) != KeyOf(Asker<V>(j), render) { KeysDiffer(render, i, j); }
  }

  lemma {:induction false} KeysSize<V>(render: V -> string, n: nat)
    ensures |Keys(render, n)| == n
  {
    if n == 0 {
      assert Keys(render, 0) == {};
    } else {
      KeysSize(render, n - 1);
      KeysStep(render, n - 1);
    }
  }

  lemma KeysStep<V>(render: V -> string, n: nat)
    ensures Keys(render, n + 1) == Keys(render, n) + {KeyOf(Asker<V>(n), render)}
    ensures KeyOf(Asker<V>(n), render) !in Keys(render, n)
  {
    KeyUnused(render, n, n);
  }

  /** Evaluations `0..done` have inserted, those up to `open` have made room. */
  ghost predicate Shape<V(!new)>(render: V -> string, s: World<V>, done: nat, open: nat, peak: nat) {
    && done <= open && s.cache.Keys == Keys(render, done) && s.peak <= peak
    && (forall i: nat :: i in s.procs <==> i < open)
    && (forall i: nat :: i < done ==> s.procs[i].Done?)
    && (forall i: nat :: done <= i < open ==> s.procs[i] == Putting(Asker(i), ALLOW_ALL, Inserting))
  }

  lemma {:induction false} IntervalSize(a: nat, b: nat, s: set<nat>)
    requires a <= b && forall i: nat :: i in s <==> a <= i < b
    ensures |s| == b - a
  {
    if a == b {
      assert s == {};
    } else {
      IntervalSize(a, b - 1, s - {b - 1});
    }
  }

  lemma ShapePending<V(!new)>(render: V -> string, s: World<V>, done: nat, open: nat, peak: nat)
    requires Shape(render, s, done, open, peak)
    ensures |Pending(s)| == open - done
  {
    forall i: nat ensures i in Pending(s) <==> done <= i < open { }
    IntervalSize(done, open, Pending(s));
  }

  /** The shape with one more evaluation, number `open`, on its way to its insert. */
  ghost predicate Opening<V(!new)>(render: V -> string, s: World<V>, done: nat, open: nat, peak: nat, proc: Proc<V>) {
    && open in s.procs && s.procs[open] == proc && !AtInsert(proc)
    && done <= open && s.cache.Keys == Keys(render, done) && s.peak <= peak
    && (forall i: nat :: i in s.procs <==> i <= open)
    && (forall i: nat :: i < done ==> s.procs[i].Done?)
    && (forall i: nat :: done <= i < open ==> s.procs[i] == Putting(Asker(i), ALLOW_ALL, Inserting))
  }

  lemma OpeningPending<V(!new)>(render: V -> string, s: World<V>, done: nat, open: nat, peak: nat, proc: Proc<V>)
    requires Opening(render, s, done, open, peak, proc)
    ensures |Pending(s)| == open - done
  {
    forall i: nat ensures i in Pending(s) <==> done <= i < open { }
    IntervalSize(done, open, Pending(s));
  }

  /** One action of evaluation `open` that does not touch the map and does not bring it to its insert. */
  lemma OpeningStep<V(!new)>(c: Config, render: V -> string, s: World<V>, done: nat, open: nat, peak: nat, proc: Proc<V>, next: Proc<V>, l: Label<V>)
    requires Opening(render, s, done, open, peak, proc) && l.p == open && !AtInsert(next) && open - done <= peak
    requires Move(c, render, s.cache, proc, l) == (next, s.cache)
    ensures Opening(render, Apply(c, render, s, l), done, open, peak, next)
  {
    var s' := Change(c, render, s, l);
    assert Opening(render, s', done, open, peak, next);
    OpeningPending(render, s', done, open, peak, next);
  }

  lemma Opens<V(!new)>(c: Config, render: V -> string, s: World<V>, done: nat, open: nat, peak: nat)
    requires Shape(render, s, done, open, peak) && open - done <= peak && c.ttl > 0
    ensures Opening(render, Apply(c, render, s, Begin(open, Asker(open))), done, open, peak, Getting(Asker(open)))
  {
    var s' := Change(c, render, s, Begin(open, Asker(open)));
    assert Opening(render, s', done, open, peak, Getting(Asker(open)));
    OpeningPending(render, s', done, open, peak, Getting(Asker(open)));
  }

  lemma MakesRoom<V(!new)>(c: Config, render: V -> string, s: World<V>, done: nat, open: nat, peak: nat)
    requires Opening(render, s, done, open, peak, Putting(Asker(open), ALLOW_ALL, Measuring))
    requires done < c.capacity && open - done < peak
    ensures Shape(render, Apply(c, render, s, Put(open, 0)), done, open + 1, peak)
  {
    var s' := Change(c, render, s, Put(open, 0));
    KeysSize(render, done);
    assert |s.cache| == |s.cache.Keys| == done;
    assert Shape(render, s', done, open + 1, peak);
    ShapePending(render, s', done, open + 1, peak);
  }

  lemma InsertsKey<V(!new)>(c: Config, render: V -> string, s: World<V>, done: nat)
    requires s.cache.Keys == Keys(render, done) && done in s.procs && s.procs[done] == Putting(Asker(done), ALLOW_ALL, Inserting)
    ensures Change(c, render, s, Put(done, 0)).cache.Keys == Keys(render, done + 1)
    ensures Change(c, render, s, Put(done, 0)).procs == s.procs[done := Done(Asker(done), ALLOW_ALL, None)]
  {
    KeysStep(render, done);
  }

  lemma Inserts<V(!new)>(c: Config, render: V -> string, s: World<V>, done: nat, open: nat, peak: nat)
    requires Shape(render, s, done, open, peak) && done < open && open - done <= peak
    ensures Shape(render, Apply(c, render, s, Put(done, 0)), done + 1, open, peak)
  {
    InsertsKey(c, render, s, done);
    var s' := Change(c, render, s, Put(done, 0));
    assert Shape(render, s', done + 1, open, peak);
    ShapePending(render, s', done + 1, open, peak);
  }

  lemma RunAppend<V>(c: Config, render: V -> string, ls: seq<Label<V>>, l: Label<V>)
    ensures RunOf(c, render, ls + [l]) == Apply(c, render, RunOf(c, render, ls), l)
  {
    assert (ls + [l])[..|ls|] == ls;
  }

  /** One more evaluation comes to its insert. */
  lemma OpenOne<V(!new)>(c: Config, render: V -> string, ls: seq<Label<V>>, done: nat, open: nat, peak: nat) returns (ls': seq<Label<V>>)
    requires Shape(render, RunOf(c, render, ls), done, open, peak) && done < c.capacity && open - done < peak && c.ttl > 0
    ensures Shape(render, RunOf(c, render, ls'), done, open + 1, peak)
  {
    var s, req := RunOf(c, render, ls), Asker<V>(open);
    Opens(c, render, s, done, open, peak);
    RunAppend(c, render, ls, Begin(open, req));
    ls' := ls + [Begin(open, req)];
    KeyUnused(render, done, open);
    OpeningStep(c, render, RunOf(c, render, ls'), done, open, peak, Getting(req), Asking(req), Get(open, 0));
    RunAppend(c, render, ls', Get(open, 0));
    ls' := ls' + [Get(open, 0)];
    OpeningStep(c, render, RunOf(c, render, ls'), done, open, peak, Asking(req), Putting(req, ALLOW_ALL, Measuring), Answered(open, Ok(ALLOW_ALL)));
    RunAppend(c, render, ls', Answered(open, Ok(ALLOW_ALL)));
    ls' := ls' + [Answered(open, Ok(ALLOW_ALL))];
    MakesRoom(c, render, RunOf(c, render, ls'), done, open, peak);
    RunAppend(c, render, ls', Put(open, 0));
    ls' := ls' + [Put(open, 0)];
  }

  lemma InsertOne<V(!new)>(c: Config, render: V -> string, ls: seq<Label<V>>, done: nat, open: nat, peak: nat) returns (ls': seq<Label<V>>)
    requires Shape(render, RunOf(c, render, ls), done, open, peak) && done < open && open - done <= peak
    ensures Shape(render, RunOf(c, render, ls'), done + 1, open, peak)
  {
    Inserts(c, render, RunOf(c, render, ls), done, open, peak);
    RunAppend(c, render, ls, Put(done, 0));
    ls' := ls + [Put(done, 0)];
  }

  /** `n` evaluations one after the other. */
  lemma {:induction false} InTurn<V(!new)>(c: Config, render: V -> string, n: nat, peak: nat) returns (ls: seq<Label<V>>)
    requires n < c.capacity && peak > 0 && c.ttl > 0
    ensures Shape(render, RunOf(c, render, ls), n, n, peak)
  {
    ls := [];
    if n == 0 {
      assert Keys(render, 0) == {};
    } else {
      ls := InTurn(c, render, n - 1, peak);
      ls := OpenOne(c, render, ls, n - 1, n - 1, peak);
      ls := InsertOne(c, render, ls, n - 1, n, peak);
    }
  }

  /** Then `n` that all come to their insert. */
  lemma {:induction false} OpenMany<V(!new)>(c: Config, render: V -> string, ls: seq<Label<V>>, done: nat, n: nat, peak: nat) returns (ls': seq<Label<V>>)
    requires Shape(render, RunOf(c, render, ls), done, done, peak) && done < c.capacity && n <= peak && c.ttl > 0
    ensures Shape(render, RunOf(c, render, ls'), done, done + n, peak)
  {
    ls' := ls;
    if n > 0 {
      ls' := OpenMany(c, render, ls, done, n - 1, peak);
      ls' := OpenOne(c, render, ls', done, done + n - 1, peak);
    }
  }

  /** And insert. */
  lemma {:induction false} InsertMany<V(!new)>(c: Config, render: V -> string, ls: seq<Label<V>>, done: nat, n: nat, peak: nat) returns (ls': seq<Label<V>>)
    requires Shape(render, RunOf(c, render, ls), done, done + n, peak) && n <= peak
    ensures Shape(render, RunOf(c, render, ls'), done + n, done + n, peak)
    decreases n
  {
    ls' := ls;
    if n > 0 {
      ls' := InsertOne(c, render, ls, done, done + n, peak);
      ls' := InsertMany(c, render, ls', done + 1, n - 1, peak);
    }
  }

  lemma ShapeSize<V(!new)>(render: V -> string, s: World<V>, n: nat, peak: nat)
    requires Shape(render, s, n, n, peak)
    ensures |s.cache| == n && s.peak <= peak
  {
    KeysSize(render, n);
    assert |s.cache| == |s.cache.Keys|;
  }

  /** The bound is exact: for every positive capacity and every overlap there is a run whose largest
      overlap is that and whose map reaches it. */
  lemma OverlapBoundIsReached<V(!new)>(c: Config, render: V -> string, overlap: nat) returns (ls: seq<Label<V>>)
    requires c.ttl > 0 && c.capacity > 0 && overlap > 0
    ensures var s := RunOf(c, render, ls); s.peak == overlap && |s.cache| == c.capacity - 1 + overlap
  {
    ls := InTurn(c, render, c.capacity - 1, overlap);
    ls := OpenMany(c, render, ls, c.capacity - 1, overlap, overlap);
    ls := InsertMany(c, render, ls, c.capacity - 1, overlap, overlap);
    ShapeSize(render, RunOf(c, render, ls), c.capacity - 1 + overlap, overlap);
    OverlapBoundsSize(c, render, ls);
  }
}
