/** The four cached catalog lookups, any number of them overlapping.

    A lookup reads the cache under the lock, asks the delegate without it, and stores what it got
    under the lock again. Each label is one of these steps; one that does not apply changes nothing.
    `World.answers`, `puts` and `authors` are history. */
module CatalogLookups {
  import opened Wrappers
  import opened CatalogCache

  /** What a method of the delegate returns: names, or a table schema if there is one. */
  datatype Raw = Names(names: seq<string>) | Table(schema: Option<TableSchema>)

  datatype Reply = Returned(raw: Raw) | Failed(message: string)

  datatype Lookup =
    | Asking(k: Key)
    | Storing(k: Key, raw: Raw)
    | Done(k: Key, reply: Reply, readAt: Option<int>)

  /** `answers` holds the delegate's answer to each lookup that asked; `authors` names the lookup that
      made each put. */
  datatype World = World(cache: CatalogCache.State, procs: map<nat, Lookup>,
                         answers: map<nat, Reply>, puts: seq<Put>, authors: seq<nat>)

  datatype Label =
    | Read(p: nat, k: Key, now: int)
    | Answer(p: nat, reply: Reply)
    | Store(p: nat, now: int)

  datatype Limits = Limits(ttl: nat, max: nat)

  const INIT := World(CatalogCache.State(map[], []), map[], map[], [], [])

  /** The result type of the method that `k` names. */
  predicate Returns(k: Key, raw: Raw) {
    raw.Table? <==> k.GetTableSchema?
  }

  /** Each method caches its result under its own variant. */
  function Wrap(k: Key, raw: Raw): Value
    requires Returns(k, raw)
  {
    match k
    case ListCatalogs => Catalogs(raw.names)
    case ListDatabases(_) => Databases(raw.names)
    case ListTables(_, _) => Tables(raw.names)
    case GetTableSchema(_, _, _) => Schema(raw.schema)
  }

  function Unwrap(v: Value): Raw {
    match v
    case Catalogs(names) => Names(names)
    case Databases(names) => Names(names)
    case Tables(names) => Names(names)
    case Schema(schema) => Table(schema)
  }

  function Become(s: World, p: nat, proc: Lookup): World {
    s.(procs := s.procs[p := proc])
  }

  function Apply(lim: Limits, s: World, l: Label): World {
    match l
    case Read(p, k, now) =>
      if p in s.procs then s
      else
        var hit := Cached(lim.ttl, s.cache, k, now);
        if hit.Some? && Answers(k, hit.value) then Become(s, p, Done(k, Returned(Unwrap(hit.value)), Some(now)))
        else Become(s, p, Asking(k))
    case Answer(p, reply) =>
      if !(p in s.procs && s.procs[p].Asking?) then s
      else if reply.Failed? then Become(s, p, Done(s.procs[p].k, reply, None)).(answers := s.answers[p := reply])
      else if !Returns(s.procs[p].k, reply.raw) then s
      else Become(s, p, Storing(s.procs[p].k, reply.raw)).(answers := s.answers[p := reply])
    case Store(p, now) =>
      if !(p in s.procs && s.procs[p].Storing? && Returns(s.procs[p].k, s.procs[p].raw)) then s
      else
        var Storing(k, raw) := s.procs[p];
        var put := Put(k, Wrap(k, raw), now);
        Become(s, p, Done(k, Returned(raw), None)).(
          cache := AfterInsert(lim.max, s.cache, put.key, put.value, put.at), puts := s.puts + [put], authors := s.authors + [p])
  }

  function RunOf(lim: Limits, ls: seq<Label>): World {
    if ls == [] then INIT else Apply(lim, RunOf(lim, ls[..|ls| - 1]), ls[|ls| - 1])
  }

  // ----- What every run keeps ----------------------------------------------------------------

  /** Put `i` stored, in the variant of its method, what the delegate answered to a lookup of the
      same method and arguments. */
  ghost predicate Genuine(s: World, i: nat) {
    && i < |s.puts| && i < |s.authors| && s.authors[i] in s.procs && s.authors[i] in s.answers
    && s.procs[s.authors[i]].k == s.puts[i].key
    && s.answers[s.authors[i]].Returned? && Returns(s.puts[i].key, s.answers[s.authors[i]].raw)
    && s.puts[i].value == Wrap(s.puts[i].key, s.answers[s.authors[i]].raw)
  }

  /** What a lookup that reached the delegate holds is the delegate's answer to it. */
  ghost predicate Explained(s: World, p: nat, proc: Lookup) {
    match proc
    case Asking(_) => true
    case Storing(k, raw) => Returns(k, raw) && p in s.answers && s.answers[p] == Returned(raw)
    case Done(_, reply, readAt) => readAt.None? ==> p in s.answers && s.answers[p] == reply
  }

  /** The lookup went to the delegate and came back. */
  predicate Asked(proc: Lookup) {
    proc.Storing? || (proc.Done? && proc.readAt.None?)
  }

  ghost predicate Inv(lim: Limits, s: World) {
    && s.cache == Run(lim.max, s.puts)
    && |s.authors| == |s.puts| && (forall i: nat :: i < |s.puts| ==> Genuine(s, i))
    && (forall p :: p in s.procs ==> Explained(s, p, s.procs[p]))
    && (forall p :: p in s.answers ==> p in s.procs && Asked(s.procs[p]))
  }

  lemma WrapAnswers(k: Key, raw: Raw)
    requires Returns(k, raw)
    ensures Answers(k, Wrap(k, raw)) && Unwrap(Wrap(k, raw)) == raw
  {
  }

  /** History only grows, and a lookup that was answered keeps its key and its answer. */
  ghost predicate Extends(s: World, s': World) {
    && s.puts <= s'.puts && s.authors <= s'.authors
    && (forall p :: p in s.procs ==> p in s'.procs && s'.procs[p].k == s.procs[p].k)
    && (forall p :: p in s.answers ==> p in s'.answers && s'.answers[p] == s.answers[p])
  }

  lemma StepExtends(lim: Limits, s: World, l: Label)
    requires forall p :: p in s.answers ==> p in s.procs && Asked(s.procs[p])
    ensures Extends(s, Apply(lim, s, l))
  {
    PutsGrow(lim, s, l);
    forall p | p in s.procs { KeyStays(lim, s, l, p); }
    forall p | p in s.answers { AnswerStays(lim, s, l, p); }
  }

  lemma PutsGrow(lim: Limits, s: World, l: Label)
    ensures s.puts <= Apply(lim, s, l).puts && s.authors <= Apply(lim, s, l).authors
  {
  }

  lemma KeyStays(lim: Limits, s: World, l: Label, p: nat)
    requires p in s.procs
    ensures p in Apply(lim, s, l).procs && Apply(lim, s, l).procs[p].k == s.procs[p].k
  {
  }

  lemma AnswerStays(lim: Limits, s: World, l: Label, p: nat)
    requires p in s.answers && p in s.procs && Asked(s.procs[p])
    ensures p in Apply(lim, s, l).answers && Apply(lim, s, l).answers[p] == s.answers[p]
  {
  }

  lemma PutsKeep(lim: Limits, s: World, l: Label, i: nat)
    requires Inv(lim, s) && i < |Apply(lim, s, l).puts|
    ensures Genuine(Apply(lim, s, l), i)
  {
    StepExtends(lim, s, l);
    if i < |s.puts| {
      assert Genuine(s, i);
    } else {
      assert Explained(s, l.p, s.procs[l.p]);
    }
  }

  lemma CacheKeeps(lim: Limits, s: World, l: Label)
    requires s.cache == Run(lim.max, s.puts)
    ensures Apply(lim, s, l).cache == Run(lim.max, Apply(lim, s, l).puts)
  {
    if l.Store? && l.p in s.procs && s.procs[l.p].Storing? && Returns(s.procs[l.p].k, s.procs[l.p].raw) {
      var Storing(k, raw) := s.procs[l.p];
      RunAppend(lim.max, s.puts, Put(k, Wrap(k, raw), l.now));
    }
  }

  lemma ProcsKeep(lim: Limits, s: World, l: Label, p: nat)
    requires p in Apply(lim, s, l).procs && (p in s.procs ==> Explained(s, p, s.procs[p]))
    ensures Explained(Apply(lim, s, l), p, Apply(lim, s, l).procs[p])
  {
  }

  lemma AnswersKeep(lim: Limits, s: World, l: Label, p: nat)
    requires forall q :: q in s.answers ==> q in s.procs && Asked(s.procs[q])
    requires p in Apply(lim, s, l).answers
    ensures p in Apply(lim, s, l).procs && Asked(Apply(lim, s, l).procs[p])
  {
  }

  lemma LengthsKeep(lim: Limits, s: World, l: Label)
    requires |s.authors| == |s.puts|
    ensures |Apply(lim, s, l).authors| == |Apply(lim, s, l).puts|
  {
  }

  lemma StepKeeps(lim: Limits, s: World, l: Label, s': World)
    requires Inv(lim, s) && s' == Apply(lim, s, l)
    ensures Inv(lim, s')
  {
    CacheKeeps(lim, s, l);
    LengthsKeep(lim, s, l);
    forall i: nat | i < |s'.puts| ensures Genuine(s', i) { PutsKeep(lim, s, l, i); }
    forall p | p in s'.procs ensures Explained(s', p, s'.procs[p]) { ProcsKeep(lim, s, l, p); }
    forall p | p in s'.answers ensures p in s'.procs && Asked(s'.procs[p]) { AnswersKeep(lim, s, l, p); }
  }

  lemma {:induction false} RunKeeps(lim: Limits, ls: seq<Label>)
    ensures Inv(lim, RunOf(lim, ls))
  {
    if ls != [] {
      RunKeeps(lim, ls[..|ls| - 1]);
      StepKeeps(lim, RunOf(lim, ls[..|ls| - 1]), ls[|ls| - 1], RunOf(lim, ls));
    }
  }

  // ----- Replies -----------------------------------------------------------------------------

  /** The delegate answered `reply` to a lookup of `k` that stored it at most the TTL before `at`. */
  ghost predicate Recent(lim: Limits, s: World, k: Key, reply: Reply, at: int) {
    exists i: nat :: StoredBy(lim, s, k, reply, at, i)
  }

  ghost predicate StoredBy(lim: Limits, s: World, k: Key, reply: Reply, at: int, i: nat) {
    && i < |s.puts| && i < |s.authors| && s.authors[i] in s.procs && s.authors[i] in s.answers
    && s.procs[s.authors[i]].k == k && reply == s.answers[s.authors[i]] && reply.Returned?
    && Max(at - s.puts[i].at, 0) <= lim.ttl
  }

  lemma GenuineIsRecent(lim: Limits, s: World, k: Key, at: int, i: nat)
    requires Genuine(s, i) && s.puts[i].key == k && Max(at - s.puts[i].at, 0) <= lim.ttl
    ensures Answers(k, s.puts[i].value) && Recent(lim, s, k, Returned(Unwrap(s.puts[i].value)), at)
  {
    WrapAnswers(k, s.answers[s.authors[i]].raw);
    assert StoredBy(lim, s, k, Returned(Unwrap(s.puts[i].value)), at, i);
  }

  /** What the cache returns is a recent answer of the delegate, in the variant of its method. */
  lemma HitIsRecent(lim: Limits, s: World, k: Key, now: int)
    requires Inv(lim, s) && Cached(lim.ttl, s.cache, k, now).Some?
    ensures var v := Cached(lim.ttl, s.cache, k, now).value;
            Answers(k, v) && Recent(lim, s, k, Returned(Unwrap(v)), now)
  {
    var i := CachedIsLastPut(lim.ttl, lim.max, s.puts, k, now);
    GenuineIsRecent(lim, s, k, now, i);
  }

  /** Step `n` is the read of lookup `p`, and by then the delegate had given `reply` recently. */
  ghost predicate ServedAt(lim: Limits, ls: seq<Label>, n: nat, p: nat, k: Key, reply: Reply, at: int) {
    n < |ls| && ls[n] == Read(p, k, at) && Recent(lim, RunOf(lim, ls[..n]), k, reply, at)
  }

  lemma ServedEarlier(lim: Limits, ls: seq<Label>, l: Label, n: nat, p: nat, k: Key, reply: Reply, at: int)
    requires ServedAt(lim, ls, n, p, k, reply, at)
    ensures ServedAt(lim, ls + [l], n, p, k, reply, at)
  {
    assert (ls + [l])[..n] == ls[..n];
  }

  /** A lookup served from the cache was served by its read, with an answer stored by then. */
  lemma {:induction false} ServedByRead(lim: Limits, ls: seq<Label>, p: nat) returns (n: nat)
    requires p in RunOf(lim, ls).procs && RunOf(lim, ls).procs[p].Done? && RunOf(lim, ls).procs[p].readAt.Some?
    ensures var Done(k, reply, readAt) := RunOf(lim, ls).procs[p]; ServedAt(lim, ls, n, p, k, reply, readAt.value)
  {
    var front, l := ls[..|ls| - 1], ls[|ls| - 1];
    var s := RunOf(lim, front);
    assert ls == front + [l];
    if p in s.procs {
      ReadsOnce(lim, s, l, p);
      n := ServedByRead(lim, front, p);
      var Done(k, reply, readAt) := s.procs[p];
      ServedEarlier(lim, front, l, n, p, k, reply, readAt.value);
    } else {
      n := |front|;
      RunKeeps(lim, front);
      HitIsRecent(lim, s, l.k, l.now);
    }
  }

  /** A lookup that exists is not turned into one that was served from the cache. */
  lemma ReadsOnce(lim: Limits, s: World, l: Label, p: nat)
    requires p in s.procs && p in Apply(lim, s, l).procs
    requires Apply(lim, s, l).procs[p].Done? && Apply(lim, s, l).procs[p].readAt.Some?
    ensures Apply(lim, s, l).procs[p] == s.procs[p]
  {
  }

  /** In every interleaving of lookups, a reply is the delegate's answer to this very lookup, errors
      included, or, for a lookup that never reached the delegate, what the delegate had answered by
      the time of its read, step `n`, to a lookup of the same method and arguments, stored at most
      the TTL before. */
  lemma EveryReplyIsTheDelegates(lim: Limits, ls: seq<Label>, s: World, p: nat) returns (n: nat)
    requires s == RunOf(lim, ls) && p in s.procs && s.procs[p].Done?
    ensures var Done(k, reply, readAt) := s.procs[p];
            match readAt
            case None => p in s.answers && reply == s.answers[p]
            case Some(at) => p !in s.answers && ServedAt(lim, ls, n, p, k, reply, at)
  {
    RunKeeps(lim, ls);
    assert Explained(s, p, s.procs[p]);
    n := 0;
    if s.procs[p].readAt.Some? { n := ServedByRead(lim, ls, p); }
  }

  /** In every reachable state each key holds a value of its own method's variant, so the check of
      the variant never turns a live entry away. */
  lemma {:induction false} EntriesHaveOwnVariant(lim: Limits, ls: seq<Label>, k: Key, now: int)
    requires Cached(lim.ttl, RunOf(lim, ls).cache, k, now).Some?
    ensures Answers(k, Cached(lim.ttl, RunOf(lim, ls).cache, k, now).value)
  {
    RunKeeps(lim, ls);
    HitIsRecent(lim, RunOf(lim, ls), k, now);
  }

  // ----- What is stored is served ------------------------------------------------------------

  /** The delegate answered `raw` to the lookup whose put is the latest one of `k`, at most the TTL
      before `now`, and fewer keys than the bound have entered the cache since `k` did. */
  ghost predicate Available(lim: Limits, s: World, k: Key, now: int, raw: Raw) {
    && EnteredSince(lim.max, s.puts, k) < lim.max
    && exists i: nat :: LastPut(s.puts, k, i) && now - s.puts[i].at <= lim.ttl
                        && i < |s.authors| && s.authors[i] in s.answers && s.answers[s.authors[i]] == Returned(raw)
  }

  lemma CachedIffAvailable(lim: Limits, s: World, k: Key, now: int, raw: Raw)
    requires Inv(lim, s)
    ensures Cached(lim.ttl, s.cache, k, now).Some? && Unwrap(Cached(lim.ttl, s.cache, k, now).value) == raw
            <==> Available(lim, s, k, now, raw)
  {
    var hit := Cached(lim.ttl, s.cache, k, now);
    if hit.Some? {
      CachedIff(lim.ttl, lim.max, s.puts, k, now, hit.value);
      var i: nat :| LastPut(s.puts, k, i) && s.puts[i].value == hit.value && now - s.puts[i].at <= lim.ttl;
      assert Genuine(s, i);
      WrapAnswers(k, s.answers[s.authors[i]].raw);
      forall j: nat | LastPut(s.puts, k, j) ensures i == j { SameLastPut(s.puts, k, i, j); }
    } else {
      forall i: nat | LastPut(s.puts, k, i) && now - s.puts[i].at <= lim.ttl
        ensures EnteredSince(lim.max, s.puts, k) >= lim.max
      {
        CachedIff(lim.ttl, lim.max, s.puts, k, now, s.puts[i].value);
      }
    }
  }

  /** In every interleaving, a lookup is served from the cache if and only if such an answer is
      available, and then it is served exactly that. */
  lemma ServedIff(lim: Limits, ls: seq<Label>, p: nat, k: Key, now: int, raw: Raw)
    requires p !in RunOf(lim, ls).procs
    ensures RunOf(lim, ls + [Read(p, k, now)]).procs[p] == Done(k, Returned(raw), Some(now))
            <==> Available(lim, RunOf(lim, ls), k, now, raw)
  {
    var s := RunOf(lim, ls);
    assert (ls + [Read(p, k, now)])[..|ls|] == ls;
    RunKeeps(lim, ls);
    if Cached(lim.ttl, s.cache, k, now).Some? { HitIsRecent(lim, s, k, now); }
    CachedIffAvailable(lim, s, k, now, raw);
  }

  /** Step `n` is the store of lookup `p`, and it made put `i`. */
  ghost predicate StoredAs(ls: seq<Label>, s: World, p: nat, k: Key, n: nat, i: nat) {
    && i < |s.puts| && i < |s.authors| && s.authors[i] == p && s.puts[i].key == k
    && n < |ls| && ls[n] == Store(p, s.puts[i].at)
  }

  lemma StoreMoves(lim: Limits, s: World, l: Label, p: nat)
    requires |s.puts| == |s.authors| && p in Apply(lim, s, l).procs && (p in s.procs ==> Apply(lim, s, l).procs[p] != s.procs[p])
    requires var proc := Apply(lim, s, l).procs[p]; proc.Done? && proc.reply.Returned? && proc.readAt.None?
    ensures l.Store? && StoredAs([l], Apply(lim, s, l), p, Apply(lim, s, l).procs[p].k, 0, |s.puts|)
  {
  }

  /** In every interleaving, whatever the delegate returned to a finished lookup was stored. */
  lemma {:induction false} AnswerIsStored(lim: Limits, ls: seq<Label>, p: nat) returns (n: nat, i: nat)
    requires p in RunOf(lim, ls).procs
    requires var proc := RunOf(lim, ls).procs[p]; proc.Done? && proc.reply.Returned? && proc.readAt.None?
    ensures StoredAs(ls, RunOf(lim, ls), p, RunOf(lim, ls).procs[p].k, n, i)
  {
    var front, l := ls[..|ls| - 1], ls[|ls| - 1];
    var s := RunOf(lim, front);
    RunKeeps(lim, front);
    if p in s.procs && RunOf(lim, ls).procs[p] == s.procs[p] {
      n, i := AnswerIsStored(lim, front, p);
      PutsGrow(lim, s, l);
    } else {
      StoreMoves(lim, s, l, p);
      n, i := |front|, |s.puts|;
    }
  }
}
