/** What the bounded LRU holds after any trace of its operations, read off the trace. */
module CacheContents {
  import opened Wrappers
  import opened BoundedCache

  /** The capacity in force after a trace. */
  function CapacityAfter<K, V>(capacity: nat, ops: seq<Op<K, V>>): nat {
    if ops == [] then capacity
    else if ops[|ops| - 1].SetCapacity? then ops[|ops| - 1].capacity
    else CapacityAfter(capacity, ops[..|ops| - 1])
  }

  /** The operation inserts a key while the cache is enabled, or finds it. */
  predicate Uses<K(==), V>(s: State<K, V>, op: Op<K, V>) {
    (op.Insert? && s.lru.Some?) || (op.Get? && Lookup(s, op.k).Some?)
  }

  /** The distinct keys used since `k` was last used. */
  function NewerThan<K(==), V>(capacity: nat, ops: seq<Op<K, V>>, k: K): set<K> {
    if ops == [] then {}
    else
      var front, op := ops[..|ops| - 1], ops[|ops| - 1];
      if !Uses(Run(capacity, front), op) then NewerThan(capacity, front, k)
      else if op.k == k then {}
      else NewerThan(capacity, front, k) + {op.k}
  }

  /** After the operation at `j`, an entry for `k` that was there before is still there. */
  predicate Survives<K(==), V>(capacity: nat, ops: seq<Op<K, V>>, j: nat, k: K)
    requires j < |ops|
  {
    && !ops[j].Clear? && !(ops[j].Insert? && ops[j].k == k)
    && |NewerThan(capacity, ops[..j + 1], k)| < CapacityAfter(capacity, ops[..j + 1])
  }

  /** The operation at `i` inserts `v` for `k` into an enabled cache, and the entry survives every
      later operation. */
  ghost predicate HeldSince<K, V>(capacity: nat, ops: seq<Op<K, V>>, i: nat, k: K, v: V) {
    && i < |ops| && ops[i] == Insert(k, v) && CapacityAfter(capacity, ops[..i]) > 0
    && forall j :: i < j < |ops| ==> Survives(capacity, ops, j, k)
  }

  // ----- The recency list --------------------------------------------------------------------

  /** The list is bounded by the capacity in force, and in front of a key are those used since. */
  predicate Ordered<K(==), V>(capacity: nat, ops: seq<Op<K, V>>, k: K) {
    var s, cap := Run(capacity, ops), CapacityAfter(capacity, ops);
    && (s.lru.None? <==> cap == 0)
    && (s.lru.Some? ==>
          && s.lru.value.cap == cap && |s.lru.value.entries| <= cap && NoRepeats(s.lru.value.entries)
          && (Lookup(s, k).Some? ==> Ahead(s.lru.value.entries, k) == NewerThan(capacity, ops, k)))
  }

  lemma {:induction false} AheadOfFirst<K, V>(es: seq<(K, V)>, k: K, n: nat)
    requires NoRepeats(es)
    ensures NoRepeats(Take(es, n))
    ensures Find(Take(es, n), k).Some? ==> Ahead(Take(es, n), k) == Ahead(es, k)
  {
    if es != [] && n > 0 {
      AheadOfFirst(es[1..], k, n - 1);
      FindInPrefix(es[1..], es[0].0, n - 1);
      TakeCons(es[0], es[1..], n);
      assert es == [es[0]] + es[1..] && Take(es, n)[1..] == Take(es[1..], n - 1);
    }
  }

  /** A list trimmed to `n` holds the keys with fewer than `n` others in front. */
  lemma Trimmed<K, V>(es: seq<(K, V)>, k: K, n: nat)
    requires NoRepeats(es)
    ensures NoRepeats(Take(es, n)) && |Take(es, n)| <= n
    ensures Find(Take(es, n), k) == if Find(es, k).Some? && |Ahead(es, k)| < n then Find(es, k) else None
    ensures Find(Take(es, n), k).Some? ==> Ahead(Take(es, n), k) == Ahead(es, k)
  {
    AheadOfFirst(es, k, n);
    FindAmongFirst(es, k, n);
    FindInPrefix(es, k, n);
  }

  lemma FewAhead<K, V>(es: seq<(K, V)>, k: K)
    requires NoRepeats(es) && Find(es, k).Some?
    ensures |Ahead(es, k)| < |es|
  {
    FindAmongFirst(es, k, |es|);
  }

  /** Putting a key in front. */
  lemma InFront<K, V>(es: seq<(K, V)>, x: K, v: V, k: K)
    requires NoRepeats(es)
    ensures var es' := [(x, v)] + Remove(es, x);
            && NoRepeats(es') && Find(es', k) == (if k == x then Some(v) else Find(es, k))
            && |es'| == |es| + (if Find(es, x).Some? then 0 else 1)
            && (Find(es', k).Some? ==> Ahead(es', k) == if k == x then {} else Ahead(es, k) + {x})
  {
    RemoveFinds(es, x, k);
    RemoveFinds(es, x, x);
    RemoveSize(es, x);
    var es' := [(x, v)] + Remove(es, x);
    assert es'[1..] == Remove(es, x);
  }

  // ----- One operation -----------------------------------------------------------------------

  /** What the next operation must make of the entry for `k`. */
  predicate Next<K(==), V(==)>(before: Option<V>, op: Op<K, V>, k: K, newer: set<K>, cap: nat, after: Option<V>) {
    if op.Insert? && op.k == k then after == (if cap > 0 then Some(op.v) else None)
    else after == if !op.Clear? && |newer| < cap then before else None
  }

  lemma AfterAppend<K, V>(capacity: nat, ops: seq<Op<K, V>>, op: Op<K, V>, k: K)
    ensures Run(capacity, ops + [op]) == Step(Run(capacity, ops), op)
    ensures CapacityAfter(capacity, ops + [op]) == if op.SetCapacity? then op.capacity else CapacityAfter(capacity, ops)
    ensures NewerThan(capacity, ops + [op], k) ==
              if !Uses(Run(capacity, ops), op) then NewerThan(capacity, ops, k)
              else if op.k == k then {} else NewerThan(capacity, ops, k) + {op.k}
  {
    assert (ops + [op])[..|ops|] == ops;
  }

  lemma InsertStep<K, V>(s: State<K, V>, op: Op<K, V>, k: K, newer: set<K>)
    requires op.Insert? && s.lru.Some? && Ok(s) && NoRepeats(s.lru.value.entries)
    requires Lookup(s, k).Some? ==> Ahead(s.lru.value.entries, k) == newer
    ensures var s', newer' := AfterInsert(s, op.k, op.v), if op.k == k then {} else newer + {op.k};
            && NoRepeats(s'.lru.value.entries) && |s'.lru.value.entries| <= s.lru.value.cap
            && Next(Lookup(s, k), op, k, newer', s.lru.value.cap, Lookup(s', k))
            && (Lookup(s', k).Some? ==> Ahead(s'.lru.value.entries, k) == newer')
  {
    var Lru(cap, es) := s.lru.value;
    InFront(es, op.k, op.v, k);
    Trimmed([(op.k, op.v)] + Remove(es, op.k), k, cap);
  }

  lemma GetStep<K, V>(s: State<K, V>, op: Op<K, V>, k: K, newer: set<K>)
    requires op.Get? && s.lru.Some? && Ok(s) && NoRepeats(s.lru.value.entries)
    requires Lookup(s, k).Some? ==> Ahead(s.lru.value.entries, k) == newer
    ensures var s' := AfterGet(s, op.k);
            var newer' := if Lookup(s, op.k).None? then newer else if op.k == k then {} else newer + {op.k};
            && NoRepeats(s'.lru.value.entries) && |s'.lru.value.entries| <= s.lru.value.cap
            && Next(Lookup(s, k), op, k, newer', s.lru.value.cap, Lookup(s', k))
            && (Lookup(s', k).Some? ==> Ahead(s'.lru.value.entries, k) == newer')
  {
    var Lru(cap, es) := s.lru.value;
    var s' := AfterGet(s, op.k);
    if Find(es, op.k).Some? { InFront(es, op.k, Find(es, op.k).value, k); }
    if Lookup(s', k).Some? { FewAhead(s'.lru.value.entries, k); }
  }

  lemma ResizeStep<K, V>(s: State<K, V>, op: Op<K, V>, k: K, newer: set<K>)
    requires op.SetCapacity? && Ok(s) && (s.lru.Some? ==> NoRepeats(s.lru.value.entries))
    requires Lookup(s, k).Some? ==> Ahead(s.lru.value.entries, k) == newer
    ensures var s' := AfterSetCapacity(s, op.capacity);
            && (s'.lru.Some? ==> NoRepeats(s'.lru.value.entries) && |s'.lru.value.entries| <= op.capacity)
            && Next(Lookup(s, k), op, k, newer, op.capacity, Lookup(s', k))
            && (Lookup(s', k).Some? ==> Ahead(s'.lru.value.entries, k) == newer)
  {
    if s.lru.Some? { Trimmed(s.lru.value.entries, k, op.capacity); }
  }

  lemma OneStep<K, V>(capacity: nat, ops: seq<Op<K, V>>, op: Op<K, V>, k: K)
    requires Ordered(capacity, ops, k)
    ensures var after := ops + [op];
            && Ordered(capacity, after, k)
            && Next(Lookup(Run(capacity, ops), k), op, k, NewerThan(capacity, after, k), CapacityAfter(capacity, after),
                    Lookup(Run(capacity, after), k))
  {
    var s, newer := Run(capacity, ops), NewerThan(capacity, ops, k);
    AfterAppend(capacity, ops, op, k);
    if op.SetCapacity? { ResizeStep(s, op, k, newer); }
    else if op.Insert? && s.lru.Some? { InsertStep(s, op, k, newer); }
    else if op.Get? && s.lru.Some? { GetStep(s, op, k, newer); }
  }

  // ----- Every trace -------------------------------------------------------------------------

  lemma {:induction false} AlwaysOrdered<K, V>(capacity: nat, ops: seq<Op<K, V>>, k: K)
    ensures Ordered(capacity, ops, k)
  {
    if ops != [] {
      var front := ops[..|ops| - 1];
      AlwaysOrdered(capacity, front, k);
      OneStep(capacity, front, ops[|ops| - 1], k);
      assert ops == front + [ops[|ops| - 1]];
    }
  }

  lemma HeldLater<K, V>(capacity: nat, ops: seq<Op<K, V>>, op: Op<K, V>, i: nat, k: K, v: V)
    requires i < |ops|
    ensures HeldSince(capacity, ops + [op], i, k, v) <==>
              HeldSince(capacity, ops, i, k, v) && Survives(capacity, ops + [op], |ops|, k)
  {
    var all := ops + [op];
    assert all[..i] == ops[..i];
    forall j | i < j < |ops| ensures Survives(capacity, all, j, k) == Survives(capacity, ops, j, k) {
      assert all[..j + 1] == ops[..j + 1];
    }
  }

  lemma HeldFromNow<K, V>(capacity: nat, ops: seq<Op<K, V>>, op: Op<K, V>, k: K, v: V)
    ensures HeldSince(capacity, ops + [op], |ops|, k, v) <==> op == Insert(k, v) && CapacityAfter(capacity, ops) > 0
  {
    assert (ops + [op])[..|ops|] == ops;
  }

  lemma SurvivesNow<K, V>(capacity: nat, ops: seq<Op<K, V>>, op: Op<K, V>, k: K)
    ensures Survives(capacity, ops + [op], |ops|, k) <==>
              && !op.Clear? && !(op.Insert? && op.k == k)
              && |NewerThan(capacity, ops + [op], k)| < CapacityAfter(capacity, ops + [op])
  {
    assert (ops + [op])[..|ops| + 1] == ops + [op];
  }

  lemma {:induction false} HeldIsFound<K, V>(capacity: nat, ops: seq<Op<K, V>>, i: nat, k: K, v: V)
    requires HeldSince(capacity, ops, i, k, v)
    ensures Lookup(Run(capacity, ops), k) == Some(v)
  {
    var front, op := ops[..|ops| - 1], ops[|ops| - 1];
    assert ops == front + [op];
    AlwaysOrdered(capacity, front, k);
    OneStep(capacity, front, op, k);
    AfterAppend(capacity, front, op, k);
    if i < |front| {
      HeldLater(capacity, front, op, i, k, v);
      SurvivesNow(capacity, front, op, k);
      HeldIsFound(capacity, front, i, k, v);
    } else {
      HeldFromNow(capacity, front, op, k, v);
    }
  }

  lemma {:induction false} FoundIsHeld<K, V>(capacity: nat, ops: seq<Op<K, V>>, k: K, v: V) returns (i: nat)
    requires Lookup(Run(capacity, ops), k) == Some(v)
    ensures HeldSince(capacity, ops, i, k, v)
  {
    var front, op := ops[..|ops| - 1], ops[|ops| - 1];
    assert ops == front + [op];
    AlwaysOrdered(capacity, front, k);
    OneStep(capacity, front, op, k);
    AfterAppend(capacity, front, op, k);
    if op.Insert? && op.k == k {
      i := |front|;
      HeldFromNow(capacity, front, op, k, v);
    } else {
      i := FoundIsHeld(capacity, front, k, v);
      SurvivesNow(capacity, front, op, k);
      HeldLater(capacity, front, op, i, k, v);
    }
  }

  /** After any trace of lookups, inserts, changes of capacity and clears, a look-up returns `v` if
      and only if that is what the latest insert for the key put there, and at every moment since
      fewer keys had been used after it than the capacity then in force. */
  lemma FoundIff<K, V>(capacity: nat, ops: seq<Op<K, V>>, k: K, v: V)
    ensures Lookup(Run(capacity, ops), k) == Some(v) <==> exists i: nat :: HeldSince(capacity, ops, i, k, v)
  {
    if Lookup(Run(capacity, ops), k) == Some(v) { var i := FoundIsHeld(capacity, ops, k, v); }
    forall i: nat | HeldSince(capacity, ops, i, k, v) ensures Lookup(Run(capacity, ops), k) == Some(v) {
      HeldIsFound(capacity, ops, i, k, v);
    }
  }
}
