/** The bounded LRU that skips repeated per-query work. A capacity of zero disables it. */
module BoundedCache {
  import opened Wrappers

  /** The recency list of the LRU, most recently used first. */
  datatype Lru<K, V> = Lru(cap: nat, entries: seq<(K, V)>)

  datatype State<K, V> = State(lru: Option<Lru<K, V>>, hits: nat, misses: nat, evictions: nat)

  // ----- Recency lists -----------------------------------------------------------------------

  function Find<K(==), V>(es: seq<(K, V)>, k: K): Option<V> {
    if es == [] then None else if es[0].0 == k then Some(es[0].1) else Find(es[1..], k)
  }

  function Remove<K(==), V>(es: seq<(K, V)>, k: K): seq<(K, V)> {
    if es == [] then [] else if es[0].0 == k then es[1..] else [es[0]] + Remove(es[1..], k)
  }

  function Take<T>(es: seq<T>, n: nat): seq<T> {
    if |es| <= n then es else es[..n]
  }

  lemma {:induction false} RemoveSize<K, V>(es: seq<(K, V)>, k: K)
    ensures |Remove(es, k)| == |es| - if Find(es, k).Some? then 1 else 0
  {
    if es != [] && es[0].0 != k { RemoveSize(es[1..], k); }
  }

  // ----- Specification of the operations -----------------------------------------------------

  function New<K, V>(capacity: nat): State<K, V> {
    State(if capacity == 0 then None else Some(Lru(capacity, [])), 0, 0, 0)
  }

  function Lookup<K(==), V>(s: State<K, V>, k: K): Option<V> {
    if s.lru.None? then None else Find(s.lru.value.entries, k)
  }

  function AfterGet<K(==), V>(s: State<K, V>, k: K): State<K, V> {
    if s.lru.None? then s
    else
      var Lru(cap, es) := s.lru.value;
      match Find(es, k)
      case Some(v) => s.(lru := Some(Lru(cap, [(k, v)] + Remove(es, k))), hits := s.hits + 1)
      case None => s.(misses := s.misses + 1)
  }

  function AfterInsert<K(==), V>(s: State<K, V>, k: K, v: V): State<K, V> {
    if s.lru.None? then s
    else
      var Lru(cap, es) := s.lru.value;
      s.(lru := Some(Lru(cap, Take([(k, v)] + Remove(es, k), cap))),
         evictions := s.evictions + if |es| == cap && Find(es, k).None? then 1 else 0)
  }

  function AfterSetCapacity<K, V>(s: State<K, V>, capacity: nat): State<K, V> {
    match s.lru
    case None => s.(lru := if capacity == 0 then None else Some(Lru(capacity, [])))
    case Some(lru) =>
      if capacity == 0 then s.(lru := None, evictions := s.evictions + |lru.entries|)
      else
        var kept := Take(lru.entries, capacity);
        s.(lru := Some(Lru(capacity, kept)), evictions := s.evictions + (|lru.entries| - |kept|))
  }

  function AfterClear<K, V>(s: State<K, V>): State<K, V> {
    if s.lru.None? then s else s.(lru := Some(Lru(s.lru.value.cap, [])))
  }

  predicate Ok<K, V>(s: State<K, V>) {
    s.lru.Some? ==> 0 < s.lru.value.cap && |s.lru.value.entries| <= s.lru.value.cap
  }

  // ----- The cache ---------------------------------------------------------------------------

  class Cache<K(==), V> {
    var lru: Option<Lru<K, V>>
    var hits: nat
    var misses: nat
    var evictions: nat

    function Value(): State<K, V>
      reads this
    {
      State(lru, hits, misses, evictions)
    }

    constructor (capacity: nat)
      ensures Ok(Value()) && Value() == New(capacity)
    {
      lru := if capacity == 0 then None else Some(Lru(capacity, []));
      hits, misses, evictions := 0, 0, 0;
    }

    method Get(k: K) returns (found: Option<V>)
      requires Ok(Value())
      modifies this
      ensures Ok(Value()) && found == Lookup(old(Value()), k) && Value() == AfterGet(old(Value()), k)
    {
      if lru.None? {
        return None;
      }
      RemoveSize(lru.value.entries, k);
      found := Find(lru.value.entries, k);
      if found.Some? {
        lru := Some(Lru(lru.value.cap, [(k, found.value)] + Remove(lru.value.entries, k)));
        hits := hits + 1;
      } else {
        misses := misses + 1;
      }
    }

    method Insert(k: K, v: V)
      requires Ok(Value())
      modifies this
      ensures Ok(Value()) && Value() == AfterInsert(old(Value()), k, v)
    {
      if lru.None? {
        return;
      }
      var Lru(cap, es) := lru.value;
      var full := |es| == cap && Find(es, k).None?;
      lru := Some(Lru(cap, Take([(k, v)] + Remove(es, k), cap)));
      if full {
        evictions := evictions + 1;
      }
    }

    method SetCapacity(capacity: nat)
      requires Ok(Value())
      modifies this
      ensures Ok(Value()) && Value() == AfterSetCapacity(old(Value()), capacity)
    {
      var dropped := 0;
      if lru.Some? && capacity > 0 {
        var before := |lru.value.entries|;
        lru := Some(Lru(capacity, Take(lru.value.entries, capacity)));
        dropped := before - |lru.value.entries|;
      } else if lru.Some? {
        dropped := |lru.value.entries|;
        lru := None;
      } else if capacity > 0 {
        lru := Some(Lru(capacity, []));
      }
      if dropped > 0 {
        evictions := evictions + dropped;
      }
    }

    method Clear()
      requires Ok(Value())
      modifies this
      ensures Ok(Value()) && Value() == AfterClear(old(Value()))
    {
      if lru.Some? {
        lru := Some(Lru(lru.value.cap, []));
      }
    }
  }

  // ----- The counters balance over any trace -------------------------------------------------

  datatype Op<K, V> = Get(k: K) | Insert(k: K, v: V) | SetCapacity(capacity: nat) | Clear

  function Step<K(==), V>(s: State<K, V>, op: Op<K, V>): State<K, V> {
    match op
    case Get(k) => AfterGet(s, k)
    case Insert(k, v) => AfterInsert(s, k, v)
    case SetCapacity(n) => AfterSetCapacity(s, n)
    case Clear => AfterClear(s)
  }

  function Run<K(==), V>(capacity: nat, ops: seq<Op<K, V>>): State<K, V> {
    if ops == [] then New(capacity) else Step(Run(capacity, ops[..|ops| - 1]), ops[|ops| - 1])
  }

  function Size<K, V>(s: State<K, V>): nat {
    if s.lru.None? then 0 else |s.lru.value.entries|
  }

  /** Lookups made while enabled. */
  function Lookups<K(==), V>(capacity: nat, ops: seq<Op<K, V>>): nat {
    if ops == [] then 0
    else
      var before, op := Run(capacity, ops[..|ops| - 1]), ops[|ops| - 1];
      Lookups(capacity, ops[..|ops| - 1]) + if op.Get? && before.lru.Some? then 1 else 0
  }

  /** Inserts, made while enabled, of a key that was absent. */
  function NewKeys<K(==), V>(capacity: nat, ops: seq<Op<K, V>>): nat {
    if ops == [] then 0
    else
      var before, op := Run(capacity, ops[..|ops| - 1]), ops[|ops| - 1];
      NewKeys(capacity, ops[..|ops| - 1])
      + if op.Insert? && before.lru.Some? && Lookup(before, op.k).None? then 1 else 0
  }

  /** Entries dropped by `clear`. */
  function Cleared<K(==), V>(capacity: nat, ops: seq<Op<K, V>>): nat {
    if ops == [] then 0
    else
      var before, op := Run(capacity, ops[..|ops| - 1]), ops[|ops| - 1];
      Cleared(capacity, ops[..|ops| - 1]) + if op.Clear? then Size(before) else 0
  }

  /** Over any trace, enabled lookups are hits plus misses, and every key ever added is still there,
      was counted as an eviction, or was dropped by a clear. */
  lemma {:induction false} CountersBalance<K, V>(capacity: nat, ops: seq<Op<K, V>>)
    ensures var s := Run(capacity, ops);
            && Ok(s)
            && Lookups(capacity, ops) == s.hits + s.misses
            && NewKeys(capacity, ops) == Size(s) + s.evictions + Cleared(capacity, ops)
  {
    if ops != [] {
      CountersBalance(capacity, ops[..|ops| - 1]);
      var before, op := Run(capacity, ops[..|ops| - 1]), ops[|ops| - 1];
      if before.lru.Some? && (op.Get? || op.Insert?) {
        RemoveSize(before.lru.value.entries, op.k);
      }
    }
  }

  // ----- A larger cache never hits less ------------------------------------------------------

  /** Look a key up, and on a miss insert what is computed for it. */
  function Access<K(==), V>(s: State<K, V>, k: K, compute: K -> V): State<K, V> {
    if Lookup(s, k).Some? then AfterGet(s, k) else AfterInsert(AfterGet(s, k), k, compute(k))
  }

  function Trace<K(==), V>(capacity: nat, keys: seq<K>, compute: K -> V): State<K, V> {
    if keys == [] then New(capacity)
    else Access(Trace(capacity, keys[..|keys| - 1], compute), keys[|keys| - 1], compute)
  }

  lemma {:induction false} RemoveFromPrefix<K, V>(es: seq<(K, V)>, k: K, n: nat)
    requires n > 0
    ensures Take(Remove(Take(es, n), k), n - 1) == Take(Remove(es, k), n - 1)
  {
    if |es| > n && es[0].0 != k && n > 1 {
      assert es[..n][1..] == es[1..][..n - 1];
      RemoveFromPrefix(es[1..], k, n - 1);
      TakeCons(es[0], Remove(es[1..], k), n - 1);
      TakeCons(es[0], Remove(es[..n][1..], k), n - 1);
    }
  }

  lemma TakeCons<T>(x: T, es: seq<T>, n: nat)
    requires n > 0
    ensures Take([x] + es, n) == [x] + Take(es, n - 1)
  {
  }

  lemma {:induction false} FindInPrefix<K, V>(es: seq<(K, V)>, k: K, n: nat)
    ensures Find(Take(es, n), k).Some? ==> Find(Take(es, n), k) == Find(es, k)
  {
    if |es| > n > 0 && es[0].0 != k {
      assert es[..n][1..] == es[1..][..n - 1];
      FindInPrefix(es[1..], k, n - 1);
    }
  }

  /** Every value in the list is the one computed for its key. */
  predicate Computed<K, V(==)>(es: seq<(K, V)>, compute: K -> V) {
    forall i :: 0 <= i < |es| ==> es[i].1 == compute(es[i].0)
  }

  lemma {:induction false} ComputedKeeps<K, V>(es: seq<(K, V)>, k: K, compute: K -> V)
    requires Computed(es, compute)
    ensures Computed(Remove(es, k), compute)
    ensures Find(es, k).Some? ==> Find(es, k).value == compute(k)
  {
    if es != [] && es[0].0 != k { ComputedKeeps(es[1..], k, compute); }
  }

  /** One access puts the key in front and trims to the capacity, on a hit as on a miss. */
  lemma AccessEntries<K, V>(s: State<K, V>, k: K, compute: K -> V)
    requires Ok(s) && s.lru.Some? && Computed(s.lru.value.entries, compute)
    ensures var s', es := Access(s, k, compute), s.lru.value.entries;
            && Ok(s') && s'.lru == Some(Lru(s.lru.value.cap, Take([(k, compute(k))] + Remove(es, k), s.lru.value.cap)))
            && Computed(s'.lru.value.entries, compute)
            && s'.hits == s.hits + if Find(es, k).Some? then 1 else 0
  {
    RemoveSize(s.lru.value.entries, k);
    ComputedKeeps(s.lru.value.entries, k, compute);
  }

  /** The smaller cache holds the front of the larger one's recency list. */
  predicate Included<K(==), V(==)>(small: State<K, V>, large: State<K, V>, compute: K -> V) {
    && Ok(small) && Ok(large) && small.hits <= large.hits
    && (large.lru.Some? ==> Computed(large.lru.value.entries, compute))
    && (small.lru.Some? ==>
          && large.lru.Some? && small.lru.value.cap <= large.lru.value.cap
          && small.lru.value.entries == Take(large.lru.value.entries, small.lru.value.cap))
  }

  lemma TakeTwice<T>(es: seq<T>, m: nat, n: nat)
    requires m <= n
    ensures Take(Take(es, n), m) == Take(es, m)
  {
  }

  lemma AccessKeepsInclusion<K, V>(small: State<K, V>, large: State<K, V>, k: K, compute: K -> V)
    requires Included(small, large, compute)
    ensures Included(Access(small, k, compute), Access(large, k, compute), compute)
  {
    if large.lru.Some? {
      AccessEntries(large, k, compute);
      if small.lru.Some? {
        var n, N, es := small.lru.value.cap, large.lru.value.cap, large.lru.value.entries;
        AccessEntries(small, k, compute);
        FindInPrefix(es, k, n);
        RemoveFromPrefix(es, k, n);
        TakeCons((k, compute(k)), Remove(es, k), n);
        TakeCons((k, compute(k)), Remove(Take(es, n), k), n);
        TakeTwice([(k, compute(k))] + Remove(es, k), n, N);
      }
    }
  }

  /** For one trace of look-up-then-insert-on-miss, a larger capacity never yields fewer hits, and
      the smaller cache's contents are always the most recent part of the larger one's. */
  lemma {:induction false} LargerCapacityNeverHitsLess<K, V>(small: nat, large: nat, keys: seq<K>, compute: K -> V)
    requires small <= large
    ensures Included(Trace(small, keys, compute), Trace(large, keys, compute), compute)
    ensures Trace(small, keys, compute).hits <= Trace(large, keys, compute).hits
  {
    if keys != [] {
      var front := keys[..|keys| - 1];
      LargerCapacityNeverHitsLess(small, large, front, compute);
      AccessKeepsInclusion(Trace(small, front, compute), Trace(large, front, compute), keys[|keys| - 1], compute);
    }
  }

  // ----- The contents are the most recently used keys ----------------------------------------

  /** The keys used, each once, the latest first, with their values. */
  function Recent<K(==), V>(keys: seq<K>, compute: K -> V): seq<(K, V)> {
    if keys == [] then []
    else
      var k := keys[|keys| - 1];
      [(k, compute(k))] + Remove(Recent(keys[..|keys| - 1], compute), k)
  }

  lemma {:induction false} TraceIsMostRecent<K, V>(capacity: nat, keys: seq<K>, compute: K -> V)
    requires capacity > 0
    ensures Trace(capacity, keys, compute).lru == Some(Lru(capacity, Take(Recent(keys, compute), capacity)))
    ensures Ok(Trace(capacity, keys, compute)) && Computed(Take(Recent(keys, compute), capacity), compute)
  {
    if keys != [] {
      var front, k := keys[..|keys| - 1], keys[|keys| - 1];
      TraceIsMostRecent(capacity, front, compute);
      AccessEntries(Trace(capacity, front, compute), k, compute);
      var es := Recent(front, compute);
      RemoveFromPrefix(es, k, capacity);
      TakeCons((k, compute(k)), Remove(es, k), capacity);
      TakeCons((k, compute(k)), Remove(Take(es, capacity), k), capacity);
    }
  }

  /** The distinct keys used since `k` was last used. */
  function UsedSince<K(==)>(keys: seq<K>, k: K): set<K> {
    if keys == [] || keys[|keys| - 1] == k then {}
    else UsedSince(keys[..|keys| - 1], k) + {keys[|keys| - 1]}
  }

  /** The keys in front of `k` in a recency list. */
  function Ahead<K(==), V>(es: seq<(K, V)>, k: K): set<K> {
    if es == [] || es[0].0 == k then {} else {es[0].0} + Ahead(es[1..], k)
  }

  predicate NoRepeats<K(==), V>(es: seq<(K, V)>) {
    es != [] ==> Find(es[1..], es[0].0).None? && NoRepeats(es[1..])
  }

  lemma {:induction false} RemoveFinds<K, V>(es: seq<(K, V)>, gone: K, k: K)
    requires NoRepeats(es)
    ensures NoRepeats(Remove(es, gone))
    ensures Find(Remove(es, gone), k) == if k == gone then None else Find(es, k)
    ensures Find(es, k).Some? && k != gone ==> Ahead(Remove(es, gone), k) == Ahead(es, k) - {gone}
  {
    if es != [] {
      var rest := es[1..];
      if es[0].0 == gone {
        AheadIsFound(rest, k, gone);
      } else {
        RemoveFinds(rest, gone, k);
        RemoveFinds(rest, gone, es[0].0);
        assert Remove(es, gone)[1..] == Remove(rest, gone);
      }
    }
  }

  lemma {:induction false} AheadIsFound<K, V>(es: seq<(K, V)>, k: K, x: K)
    ensures x in Ahead(es, k) ==> Find(es, x).Some?
  {
    if es != [] && es[0].0 != x { AheadIsFound(es[1..], k, x); }
  }

  /** The recency list holds every key used, with exactly the keys used since in front of it. */
  lemma {:induction false} RecentOrder<K, V>(keys: seq<K>, compute: K -> V, k: K)
    ensures NoRepeats(Recent(keys, compute))
    ensures Find(Recent(keys, compute), k).Some? <==> k in keys
    ensures k in keys ==> Ahead(Recent(keys, compute), k) == UsedSince(keys, k)
  {
    if keys != [] {
      var front, last := keys[..|keys| - 1], keys[|keys| - 1];
      var es := Recent(front, compute);
      assert keys == front + [last];
      RecentOrder(front, compute, k);
      RemoveFinds(es, last, k);
      RemoveFinds(es, last, last);
      assert Recent(keys, compute)[1..] == Remove(es, last);
    }
  }

  lemma {:induction false} FindAmongFirst<K, V>(es: seq<(K, V)>, k: K, n: nat)
    requires NoRepeats(es)
    ensures Find(Take(es, n), k).Some? <==> Find(es, k).Some? && |Ahead(es, k)| < n
  {
    if es != [] && es[0].0 != k {
      AheadIsFound(es[1..], k, es[0].0);
      if n > 0 {
        FindAmongFirst(es[1..], k, n - 1);
        TakeCons(es[0], es[1..], n);
        assert es == [es[0]] + es[1..];
        assert Take(es, n)[1..] == Take(es[1..], n - 1);
      }
    }
  }

  /** After any trace, looking a key up hits exactly when it was used before and fewer than
      `capacity` other keys were used since: what is evicted is always the least recently used. */
  lemma HitIffFewUsedSince<K, V>(capacity: nat, keys: seq<K>, compute: K -> V, k: K)
    ensures Lookup(Trace(capacity, keys, compute), k).Some? <==> k in keys && |UsedSince(keys, k)| < capacity
  {
    if capacity == 0 {
      DisabledStays(keys, compute);
    } else {
      TraceIsMostRecent(capacity, keys, compute);
      RecentOrder(keys, compute, k);
      FindAmongFirst(Recent(keys, compute), k, capacity);
    }
  }

  lemma {:induction false} DisabledStays<K, V>(keys: seq<K>, compute: K -> V)
    ensures Trace(0, keys, compute).lru.None?
  {
    if keys != [] { DisabledStays(keys[..|keys| - 1], compute); }
  }
}
