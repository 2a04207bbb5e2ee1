/** The TTL and capacity bounded cache in front of a catalog provider. */
module CatalogCache {
  import opened Wrappers

  datatype Key =
    | ListCatalogs
    | ListDatabases(catalog: string)
    | ListTables(catalog: string, database: string)
    | GetTableSchema(catalog: string, database: string, table: string)

  /** A table schema, by its columns. */
  datatype TableSchema = TableSchema(catalog: string, database: string, table: string, columns: seq<(string, string, bool)>)

  datatype Value =
    | Catalogs(names: seq<string>)
    | Databases(names: seq<string>)
    | Tables(names: seq<string>)
    | Schema(schema: Option<TableSchema>)

  /** The variant that a method's results are cached under. */
  predicate Answers(k: Key, v: Value) {
    match k
    case ListCatalogs => v.Catalogs?
    case ListDatabases(_) => v.Databases?
    case ListTables(_, _) => v.Tables?
    case GetTableSchema(_, _, _) => v.Schema?
  }

  datatype Result = Ok(value: Value) | Err(message: string)

  datatype Entry = Entry(value: Value, insertedAt: int)

  datatype State = State(entries: map<Key, Entry>, order: seq<Key>)

  // ----- Specification -----------------------------------------------------------------------

  function Cached(ttl: nat, s: State, k: Key, now: int): Option<Value> {
    if k in s.entries && Max(now - s.entries[k].insertedAt, 0) <= ttl then Some(s.entries[k].value) else None
  }

  function LastN(ks: seq<Key>, n: nat): seq<Key> {
    if |ks| <= n then ks else ks[|ks| - n..]
  }

  function Only(entries: map<Key, Entry>, ks: seq<Key>): map<Key, Entry> {
    map k | k in entries && k in ks :: entries[k]
  }

  /** The queue with `k` in it. */
  function Queued(s: State, k: Key): seq<Key> {
    if k in s.entries then s.order else s.order + [k]
  }

  /** A new key queues up last, an old one keeps its place, and the front of the queue is dropped. */
  function AfterInsert(max: nat, s: State, k: Key, v: Value, now: int): State {
    var order := LastN(Queued(s, k), max);
    State(Only(s.entries[k := Entry(v, now)], order), order)
  }

  ghost predicate Distinct(ks: seq<Key>) {
    forall i, j :: 0 <= i < j < |ks| ==> ks[i] != ks[j]
  }

  /** The queue is duplicate-free and holds exactly the keys of the map. */
  ghost predicate Consistent(s: State) {
    Distinct(s.order) && forall k :: k in s.order <==> k in s.entries
  }

  lemma {:induction false} DistinctSize(ks: seq<Key>, keys: set<Key>)
    requires Distinct(ks) && forall k :: k in ks <==> k in keys
    ensures |keys| == |ks|
  {
    if ks == [] {
      assert keys == {};
    } else {
      var rest := keys - {ks[0]};
      assert ks == [ks[0]] + ks[1..];
      DistinctSize(ks[1..], rest);
      assert keys == rest + {ks[0]};
    }
  }

  lemma ConsistentSize(s: State)
    requires Consistent(s)
    ensures |s.entries| == |s.order|
  {
    DistinctSize(s.order, s.entries.Keys);
  }

  // ----- The cache ---------------------------------------------------------------------------

  class CachingProvider {
    const ttl: nat
    const maxEntries: nat
    var entries: map<Key, Entry>
    var order: seq<Key>

    function Now(): State
      reads this
    {
      State(entries, order)
    }

    constructor (ttl: nat, maxEntries: nat)
      ensures this.ttl == ttl && this.maxEntries == maxEntries && Consistent(Now()) && Now() == State(map[], [])
    {
      this.ttl := ttl;
      this.maxEntries := maxEntries;
      entries := map[];
      order := [];
    }

    method GetCached(k: Key, now: int) returns (r: Option<Value>)
      ensures r == Cached(ttl, Now(), k, now)
    {
      if k !in entries || Max(now - entries[k].insertedAt, 0) > ttl {
        return None;
      }
      return Some(entries[k].value);
    }

    method Insert(k: Key, v: Value, now: int)
      requires Consistent(Now())
      modifies this
      ensures Consistent(Now()) && Now() == AfterInsert(maxEntries, old(Now()), k, v, now)
      ensures |entries| <= maxEntries
    {
      if k !in entries {
        order := order + [k];
      }
      entries := entries[k := Entry(v, now)];
      Trim();
    }

    /** Drop the front of the queue, `d` keys having been dropped from `s` already. */
    method EvictOldest(ghost s: State, ghost d: nat)
      requires Consistent(s) && d < |s.order| && Now() == Dropped(s, d)
      modifies this
      ensures Now() == Dropped(s, d + 1) && |entries| == |s.order| - (d + 1)
    {
      SuffixStep(s, d);
      SuffixSize(s, d + 1);
      var oldest := order[0];
      order := order[1..];
      entries := entries - {oldest};
    }

    /** The eviction loop of `insert`. */
    method Trim()
      requires Consistent(Now())
      modifies this
      ensures Consistent(Now()) && |entries| <= maxEntries
      ensures order == LastN(old(order), maxEntries) && entries == Only(old(entries), order)
    {
      ghost var s, d := Now(), 0;
      SuffixZero(s);
      SuffixSize(s, 0);
      while |entries| > maxEntries
        invariant d <= |s.order| && Now() == Dropped(s, d) && |entries| == |s.order| - d
        invariant d > 0 ==> |s.order| - d >= maxEntries
        decreases |s.order| - d
      {
        EvictOldest(s, d);
        d := d + 1;
      }
      TrimmedIsLastN(s, d, maxEntries);
    }

    /** Any of the four cached methods, named by its key. `answer` is what the delegate says; it is
        used only if the delegate is asked. */
    method Lookup(k: Key, readAt: int, answer: Result, writeAt: int) returns (r: Result)
      requires Consistent(Now()) && (answer.Ok? ==> Answers(k, answer.value))
      modifies this
      ensures Consistent(Now())
      ensures var hit := Cached(ttl, old(Now()), k, readAt);
              if hit.Some? && Answers(k, hit.value) then r == Ok(hit.value) && Now() == old(Now())
              else r == answer && Now() == if answer.Err? then old(Now()) else AfterInsert(maxEntries, old(Now()), k, answer.value, writeAt)
    {
      var hit := GetCached(k, readAt);
      if hit.Some? && Answers(k, hit.value) {
        return Ok(hit.value);
      }
      if answer.Ok? {
        Insert(k, answer.value, writeAt);
      }
      return answer;
    }
  }

  /** The state without the first `d` keys of the queue. */
  function Dropped(s: State, d: nat): State
    requires d <= |s.order|
  {
    State(Only(s.entries, s.order[d..]), s.order[d..])
  }

  lemma SuffixConsistent(s: State, d: nat)
    requires Consistent(s) && d <= |s.order|
    ensures Consistent(Dropped(s, d))
  {
    var rest := s.order[d..];
    forall k | k in rest
      ensures k in s.entries
    {
      assert k in s.order;
    }
    assert Distinct(rest);
  }

  lemma OnlyWithoutHead(entries: map<Key, Entry>, ks: seq<Key>)
    requires ks != [] && ks[0] !in ks[1..]
    ensures Only(entries, ks[1..]) == Only(entries, ks) - {ks[0]}
  {
    forall k
      ensures k in ks <==> k == ks[0] || k in ks[1..]
    {
      assert ks == [ks[0]] + ks[1..];
    }
  }

  lemma SuffixStep(s: State, d: nat)
    requires Consistent(s) && d < |s.order|
    ensures Dropped(s, d + 1).entries == Dropped(s, d).entries - {s.order[d]}
    ensures Dropped(s, d + 1).order == Dropped(s, d).order[1..]
  {
    var ks := s.order[d..];
    assert ks[1..] == s.order[d + 1..];
    OnlyWithoutHead(s.entries, ks);
  }

  lemma TrimmedIsLastN(s: State, d: nat, max: nat)
    requires Consistent(s) && d <= |s.order| <= d + max && (d > 0 ==> |s.order| == d + max)
    ensures var order := LastN(s.order, max);
            Dropped(s, d) == State(Only(s.entries, order), order) && Consistent(State(Only(s.entries, order), order))
  {
    SuffixConsistent(s, d);
    assert s.order[d..] == LastN(s.order, max);
  }

  lemma SuffixZero(s: State)
    requires Consistent(s)
    ensures Dropped(s, 0) == s
  {
    assert s.order[0..] == s.order;
  }

  lemma SuffixSize(s: State, d: nat)
    requires Consistent(s) && d <= |s.order|
    ensures Consistent(Dropped(s, d)) && |Dropped(s, d).entries| == |s.order| - d
  {
    SuffixConsistent(s, d);
    ConsistentSize(Dropped(s, d));
  }

  // ----- Reachable states --------------------------------------------------------------------

  /** One completed `insert`: the delegate returned `value` for `key`. Lookups release the lock
      between reading and inserting, so concurrent lookups yield any interleaving of these. */
  datatype Put = Put(key: Key, value: Value, at: int)

  function Run(max: nat, puts: seq<Put>): State {
    if puts == [] then State(map[], [])
    else
      var p := puts[|puts| - 1];
      AfterInsert(max, Run(max, puts[..|puts| - 1]), p.key, p.value, p.at)
  }

  lemma InsertKeeps(max: nat, s: State, k: Key, v: Value, now: int)
    requires Consistent(s)
    ensures var s' := AfterInsert(max, s, k, v, now); Consistent(s') && |s'.entries| <= max
  {
    var s' := AfterInsert(max, s, k, v, now);
    forall x | x in s'.order
      ensures x in s'.entries
    {
    }
    ConsistentSize(s');
  }

  /** In every reachable state the queue is duplicate-free and holds exactly the map's keys, and the
      size is within the bound. */
  lemma {:induction false} ReachableIsConsistent(max: nat, puts: seq<Put>)
    ensures Consistent(Run(max, puts)) && |Run(max, puts).entries| <= max
  {
    if puts != [] {
      ReachableIsConsistent(max, puts[..|puts| - 1]);
      var p := puts[|puts| - 1];
      InsertKeeps(max, Run(max, puts[..|puts| - 1]), p.key, p.value, p.at);
    }
  }

  /** Put `i` is the latest one of key `k`. */
  ghost predicate LastPut(puts: seq<Put>, k: Key, i: nat) {
    i < |puts| && puts[i].key == k && forall j :: i < j < |puts| ==> puts[j].key != k
  }

  lemma StillLastPut(puts: seq<Put>, p: Put, k: Key, i: nat)
    requires LastPut(puts, k, i) && p.key != k
    ensures LastPut(puts + [p], k, i)
  {
  }

  lemma InsertedEntry(max: nat, s: State, p: Put, k: Key)
    requires k in AfterInsert(max, s, p.key, p.value, p.at).entries
    ensures AfterInsert(max, s, p.key, p.value, p.at).entries[k] == if k == p.key then Entry(p.value, p.at) else s.entries[k]
    ensures k != p.key ==> k in s.entries
  {
  }

  lemma {:induction false} EntryIsLastPut(max: nat, puts: seq<Put>, k: Key) returns (i: nat)
    requires k in Run(max, puts).entries
    ensures LastPut(puts, k, i) && Run(max, puts).entries[k] == Entry(puts[i].value, puts[i].at)
  {
    var front, p := puts[..|puts| - 1], puts[|puts| - 1];
    assert puts == front + [p];
    InsertedEntry(max, Run(max, front), p, k);
    if k == p.key {
      i := |front|;
    } else {
      i := EntryIsLastPut(max, front, k);
      StillLastPut(front, p, k, i);
    }
  }

  /** In every reachable state, what the cache returns for a key is what was last put under it, at
      most the TTL ago. */
  lemma {:induction false} CachedIsLastPut(ttl: nat, max: nat, puts: seq<Put>, k: Key, now: int) returns (i: nat)
    requires Cached(ttl, Run(max, puts), k, now).Some?
    ensures LastPut(puts, k, i) && Cached(ttl, Run(max, puts), k, now) == Some(puts[i].value)
    ensures Max(now - puts[i].at, 0) <= ttl
  {
    i := EntryIsLastPut(max, puts, k);
  }

  /** What one insert evicts is exactly the front of the queue, no more of it than needed, and
      everything behind stays. */
  lemma EvictionIsFifo(max: nat, s: State, k: Key, v: Value, now: int)
    requires Consistent(s) && |s.entries| <= max
    ensures var queue := Queued(s, k);
            var s' := AfterInsert(max, s, k, v, now);
            && (|queue| <= max ==> s'.order == queue)
            && (|queue| > max ==> |queue| == max + 1 && s'.order == queue[1..] && queue[0] !in s'.entries)
            && (forall x :: x in s'.entries && x != k ==> x in s.entries && s'.entries[x] == s.entries[x])
            && (max > 0 ==> k in s'.entries && s'.entries[k] == Entry(v, now))
  {
    ConsistentSize(s);
    QueueDistinct(s, k);
    if max > 0 { InsertedIsLast(max, s, k); }
  }

  lemma QueueDistinct(s: State, k: Key)
    requires Consistent(s)
    ensures Distinct(Queued(s, k)) && Queued(s, k) != [] && Queued(s, k)[0] !in Queued(s, k)[1..]
  {
    var queue := Queued(s, k);
    assert k in queue;
    assert Distinct(queue);
  }

  lemma InsertedIsLast(max: nat, s: State, k: Key)
    requires Consistent(s) && |s.order| <= max && max > 0
    ensures k in LastN(Queued(s, k), max)
  {
    if k !in s.entries {
      var kept := LastN(Queued(s, k), max);
      assert kept[|kept| - 1] == k;
    }
  }

  // ----- The queue is in order of entry ------------------------------------------------------

  /** The put at which `k` last entered the cache, as opposed to being refreshed in it. */
  function Entered(max: nat, puts: seq<Put>, k: Key): nat {
    if puts == [] then 0
    else
      var front := puts[..|puts| - 1];
      if puts[|puts| - 1].key == k && k !in Run(max, front).entries then |puts| - 1 else Entered(max, front, k)
  }

  ghost predicate InEntryOrder(max: nat, puts: seq<Put>, ks: seq<Key>) {
    && (forall i :: 0 <= i < |ks| ==> Entered(max, puts, ks[i]) < |puts| && puts[Entered(max, puts, ks[i])].key == ks[i])
    && (forall i, j :: 0 <= i < j < |ks| ==> Entered(max, puts, ks[i]) < Entered(max, puts, ks[j]))
  }

  lemma EnteredBefore(max: nat, puts: seq<Put>, p: Put, k: Key)
    ensures Entered(max, puts + [p], k) ==
            if p.key == k && k !in Run(max, puts).entries then |puts| else Entered(max, puts, k)
  {
    assert (puts + [p])[..|puts|] == puts;
  }

  lemma RunAppend(max: nat, puts: seq<Put>, p: Put)
    ensures Run(max, puts + [p]) == AfterInsert(max, Run(max, puts), p.key, p.value, p.at)
  {
    assert (puts + [p])[..|puts|] == puts;
  }

  /** Queueing up the key of the next put keeps the queue in order of entry. */
  lemma QueuedInOrder(max: nat, puts: seq<Put>, p: Put, s: State)
    requires s == Run(max, puts) && Consistent(s) && InEntryOrder(max, puts, s.order)
    ensures InEntryOrder(max, puts + [p], Queued(s, p.key))
  {
    var queue := Queued(s, p.key);
    forall i | 0 <= i < |queue|
      ensures Entered(max, puts + [p], queue[i]) == if i < |s.order| then Entered(max, puts, s.order[i]) else |puts|
    {
      EnteredBefore(max, puts, p, queue[i]);
      if i < |s.order| { assert queue[i] in s.order; }
    }
  }

  lemma LastNInOrder(max: nat, puts: seq<Put>, ks: seq<Key>, n: nat)
    requires InEntryOrder(max, puts, ks)
    ensures InEntryOrder(max, puts, LastN(ks, n))
  {
  }

  /** In every reachable state the queue is in the order in which its keys entered the cache. */
  lemma {:induction false} QueueInEntryOrder(max: nat, puts: seq<Put>)
    ensures InEntryOrder(max, puts, Run(max, puts).order)
  {
    if puts != [] {
      var front, p := puts[..|puts| - 1], puts[|puts| - 1];
      assert puts == front + [p];
      QueueInEntryOrder(max, front);
      ReachableIsConsistent(max, front);
      RunAppend(max, front, p);
      QueuedInOrder(max, front, p, Run(max, front));
      LastNInOrder(max, puts, Queued(Run(max, front), p.key), max);
    }
  }

  lemma DroppedInFront(ks: seq<Key>, n: nat, x: Key, y: Key) returns (i: nat, j: nat)
    requires x in ks && x !in LastN(ks, n) && y in LastN(ks, n)
    ensures i < j < |ks| && ks[i] == x && ks[j] == y
  {
    var d := |ks| - n;
    i :| 0 <= i < |ks| && ks[i] == x;
    j :| d <= j < |ks| && ks[j] == y;
  }

  /** Eviction follows the order of entry: over any run, whatever an insert evicts entered the cache
      before everything that stays. */
  lemma {:induction false} EvictedEnteredFirst(max: nat, puts: seq<Put>, p: Put, s: State, s': State, x: Key, y: Key)
    requires s == Run(max, puts) && s' == AfterInsert(max, s, p.key, p.value, p.at)
    requires (x in s.entries || x == p.key) && x !in s'.entries && y in s'.entries
    ensures s' == Run(max, puts + [p]) && Entered(max, puts + [p], x) < Entered(max, puts + [p], y)
  {
    QueueInEntryOrder(max, puts);
    ReachableIsConsistent(max, puts);
    ReachableIsConsistent(max, puts + [p]);
    RunAppend(max, puts, p);
    QueuedInOrder(max, puts, p, s);
    var i, j := DroppedInFront(Queued(s, p.key), max, x, y);
  }

  // ----- How long an entry stays -------------------------------------------------------------

  /** How many keys have entered the cache since `k` last did. */
  function EnteredSince(max: nat, puts: seq<Put>, k: Key): nat {
    if puts == [] then 0
    else
      var front, p := puts[..|puts| - 1], puts[|puts| - 1];
      if p.key in Run(max, front).entries then EnteredSince(max, front, k)
      else if p.key == k then 0
      else EnteredSince(max, front, k) + 1
  }

  function KeysPut(puts: seq<Put>): set<Key> {
    if puts == [] then {} else KeysPut(puts[..|puts| - 1]) + {puts[|puts| - 1].key}
  }

  lemma {:induction false} KeyWasPut(puts: seq<Put>, i: nat)
    requires i < |puts|
    ensures puts[i].key in KeysPut(puts)
  {
    if i < |puts| - 1 { KeyWasPut(puts[..|puts| - 1], i); }
  }

  /** How many keys are behind `k` in the queue. */
  function Behind(ks: seq<Key>, k: Key): nat {
    if ks == [] || ks[|ks| - 1] == k then 0 else Behind(ks[..|ks| - 1], k) + 1
  }

  lemma LastOfMore(ks: seq<Key>, k: Key, n: nat)
    requires n > 0
    ensures LastN(ks + [k], n) == LastN(ks, n - 1) + [k]
  {
  }

  lemma {:induction false} BehindInLast(ks: seq<Key>, k: Key, n: nat)
    ensures k in LastN(ks, n) <==> k in ks && Behind(ks, k) < n
    ensures k in LastN(ks, n) ==> Behind(LastN(ks, n), k) == Behind(ks, k)
  {
    if ks != [] && n > 0 {
      var front, last := ks[..|ks| - 1], ks[|ks| - 1];
      assert ks == front + [last];
      LastOfMore(front, last, n);
      BehindInLast(front, k, n - 1);
    }
  }

  /** A key that is in the queue has as many keys behind it as have entered since; one that is not,
      and was ever put, has seen as many enter as there is room for. */
  predicate Placed(ks: seq<Key>, max: nat, k: Key, n: nat, seen: bool) {
    if k in ks then Behind(ks, k) == n else seen ==> n >= max
  }

  function SinceNext(s: State, p: Key, k: Key, n: nat): nat {
    if p in s.entries then n else if p == k then 0 else n + 1
  }

  lemma PlacedNext(max: nat, s: State, p: Key, k: Key, n: nat, seen: bool)
    requires |s.order| <= max && (p in s.entries <==> p in s.order) && Placed(s.order, max, k, n, seen)
    ensures Placed(LastN(Queued(s, p), max), max, k, SinceNext(s, p, k, n), seen || p == k)
  {
    BehindInLast(Queued(s, p), k, max);
    BehindInLast(s.order, k, max);
  }

  lemma QueueFits(max: nat, puts: seq<Put>, k: Key)
    ensures var s := Run(max, puts); |s.order| <= max && (k in s.entries <==> k in s.order)
  {
    ReachableIsConsistent(max, puts);
    ConsistentSize(Run(max, puts));
  }

  /** What the history says about `k`, against the queue. */
  predicate PlacedAfter(max: nat, puts: seq<Put>, k: Key, ks: seq<Key>) {
    Placed(ks, max, k, EnteredSince(max, puts, k), k in KeysPut(puts))
  }

  lemma PlacedStep(max: nat, puts: seq<Put>, s: State, p: Put, k: Key)
    requires puts != [] && p == puts[|puts| - 1] && s == Run(max, puts[..|puts| - 1])
    requires |s.order| <= max && (p.key in s.entries <==> p.key in s.order)
    requires PlacedAfter(max, puts[..|puts| - 1], k, s.order)
    ensures PlacedAfter(max, puts, k, LastN(Queued(s, p.key), max))
  {
    var front := puts[..|puts| - 1];
    PlacedNext(max, s, p.key, k, EnteredSince(max, front, k), k in KeysPut(front));
    assert EnteredSince(max, puts, k) == SinceNext(s, p.key, k, EnteredSince(max, front, k));
    assert k in KeysPut(puts) <==> k in KeysPut(front) || p.key == k;
  }

  lemma {:induction false} AlwaysPlaced(max: nat, puts: seq<Put>, k: Key)
    ensures PlacedAfter(max, puts, k, Run(max, puts).order)
  {
    if puts != [] {
      var front, p := puts[..|puts| - 1], puts[|puts| - 1];
      AlwaysPlaced(max, front, k);
      QueueFits(max, front, p.key);
      PlacedStep(max, puts, Run(max, front), p, k);
    }
  }

  lemma StaysIff(max: nat, puts: seq<Put>, k: Key)
    ensures k in Run(max, puts).entries <==> k in KeysPut(puts) && EnteredSince(max, puts, k) < max
  {
    QueueFits(max, puts, k);
    AlwaysPlaced(max, puts, k);
    BehindInLast(Run(max, puts).order, k, max);
    if k in Run(max, puts).entries {
      var i := EntryIsLastPut(max, puts, k);
      KeyWasPut(puts, i);
    }
  }

  lemma SameLastPut(puts: seq<Put>, k: Key, i: nat, j: nat)
    requires LastPut(puts, k, i) && LastPut(puts, k, j)
    ensures i == j
  {
  }

  /** In every reachable state the cache returns `v` for a key if and only if that was last put under
      it, at most the TTL ago, and fewer keys than the bound have entered since the key did. */
  lemma CachedIff(ttl: nat, max: nat, puts: seq<Put>, k: Key, now: int, v: Value)
    ensures Cached(ttl, Run(max, puts), k, now) == Some(v) <==>
              && EnteredSince(max, puts, k) < max
              && exists i: nat :: LastPut(puts, k, i) && puts[i].value == v && now - puts[i].at <= ttl
  {
    StaysIff(max, puts, k);
    if k in Run(max, puts).entries {
      var i := EntryIsLastPut(max, puts, k);
      forall j: nat | LastPut(puts, k, j) ensures i == j { SameLastPut(puts, k, i, j); }
    } else {
      forall i: nat | LastPut(puts, k, i) ensures k in KeysPut(puts) { KeyWasPut(puts, i); }
    }
  }
}
