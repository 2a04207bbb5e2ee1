/** Evaluation of access requests through a short-lived cache of allow decisions. */
module AccessController {
  import opened Wrappers
  import opened AccessKey

  /** One resource's verdict; `guards` stands for its row filters and column masks. */
  datatype ResourceDecision = ResourceDecision(table: string, allow: bool, reason: Option<string>, guards: seq<string>)

  datatype Decision = Decision(resources: seq<ResourceDecision>)
  {
    predicate IsAllowed() {
      forall i :: 0 <= i < |resources| ==> resources[i].allow
    }
  }

  const ALLOW_ALL := Decision([])

  function DenyAll(reason: string): Decision {
    Decision([ResourceDecision("*", false, Some(reason), [])])
  }

  datatype Answer = Ok(decision: Decision) | Err(message: string)

  datatype Config = Config(failOpenDefault: bool, groupFailOpen: map<string, bool>, ttl: nat, capacity: nat)

  datatype Entry = Entry(stored: int, decision: Decision)

  type Cache = map<CacheKey, Entry>

  // ----- Specification of one evaluation -----------------------------------------------------

  predicate Live(c: Config, e: Entry, now: int) {
    Max(now - e.stored, 0) < c.ttl
  }

  function FailOpenFor(c: Config, group: string): bool {
    if group in c.groupFailOpen then c.groupFailOpen[group] else c.failOpenDefault
  }

  /** A provider error folded into a decision. */
  function Folded(c: Config, group: string, message: string): Decision {
    if FailOpenFor(c, group) then ALLOW_ALL else DenyAll("policy engine unavailable: " + message)
  }

  function Found(c: Config, cache: Cache, key: CacheKey, now: int): Option<Decision> {
    if c.ttl > 0 && key in cache && Live(c, cache[key], now) then Some(cache[key].decision) else None
  }

  function AfterGet(c: Config, cache: Cache, key: CacheKey, now: int): Cache {
    if c.ttl > 0 && key in cache && !Live(c, cache[key], now) then cache - {key} else cache
  }

  function OnlyLive(c: Config, cache: Cache, now: int): Cache {
    map k | k in cache && Live(c, cache[k], now) :: cache[k]
  }

  function AfterPut(c: Config, cache: Cache, key: CacheKey, d: Decision, now: int): Cache {
    var room :=
      if |cache| < c.capacity then cache
      else if |OnlyLive(c, cache, now)| < c.capacity then OnlyLive(c, cache, now)
      else map[];
    room[key := Entry(now, d)]
  }

  /** One call: the request, the instants at which the cache is read and written, and what the
      provider answers if it is asked. */
  datatype Call<V> = Call(req: Request<V>, readAt: int, writeAt: int, answer: Answer)

  predicate Asks<V>(c: Config, render: V -> string, cache: Cache, call: Call<V>) {
    Found(c, cache, KeyOf(call.req, render), call.readAt).None?
  }

  function Reply<V>(c: Config, render: V -> string, cache: Cache, call: Call<V>): Decision {
    match Found(c, cache, KeyOf(call.req, render), call.readAt)
    case Some(d) => d
    case None =>
      match call.answer
      case Ok(d) => d
      case Err(message) => Folded(c, call.req.clusterGroup, message)
  }

  function AfterCall<V>(c: Config, render: V -> string, cache: Cache, call: Call<V>): Cache {
    var key := KeyOf(call.req, render);
    var read := AfterGet(c, cache, key, call.readAt);
    if Asks(c, render, cache, call) && call.answer.Ok? && call.answer.decision.IsAllowed() && c.ttl > 0
    then AfterPut(c, read, key, call.answer.decision, call.writeAt)
    else read
  }

  /** After a provider error everything is allowed exactly if the group is listed as fail-open, or is
      not listed and the default is fail-open; a denial carries the provider's message. */
  predicate FailureHandled(c: Config, group: string, message: string, d: Decision) {
    && ((forall i :: 0 <= i < |d.resources| ==> d.resources[i].allow) <==>
          || (group in c.groupFailOpen && c.groupFailOpen[group] == true)
          || (group !in c.groupFailOpen && c.failOpenDefault == true))
    && (forall i :: 0 <= i < |d.resources| && !d.resources[i].allow ==>
          d.resources[i].reason == Some("policy engine unavailable: " + message))
  }

  lemma FoldedHandles(c: Config, group: string, message: string)
    ensures FailureHandled(c, group, message, Folded(c, group, message))
  {
    assert !DenyAll("policy engine unavailable: " + message).resources[0].allow;
  }

  // ----- The controller ----------------------------------------------------------------------

  class Controller<V(!new)> {
    const config: Config
    const render: V -> string
    var cache: Cache

    constructor (config: Config, render: V -> string)
      ensures this.config == config && this.render == render && cache == map[]
    {
      this.config := config;
      this.render := render;
      cache := map[];
    }

    method CacheGet(key: CacheKey, now: int) returns (hit: Option<Decision>)
      requires config.ttl > 0
      modifies this
      ensures hit == Found(config, old(cache), key, now)
      ensures cache == AfterGet(config, old(cache), key, now)
    {
      hit := None;
      if key in cache {
        if Live(config, cache[key], now) {
          hit := Some(cache[key].decision);
        } else {
          cache := cache - {key};
        }
      }
    }

    method CachePut(key: CacheKey, d: Decision, now: int)
      modifies this
      ensures cache == AfterPut(config, old(cache), key, d, now)
      ensures |cache| <= Max(config.capacity, 1)
    {
      AfterPutBounded(config, cache, key, d, now);
      if |cache| >= config.capacity {
        cache := OnlyLive(config, cache, now);
        if |cache| >= config.capacity {
          cache := map[];
        }
      }
      cache := cache[key := Entry(now, d)];
    }

    /** `answer` is what the provider would say; it is used only if the provider is asked. */
    method Evaluate(req: Request<V>, readAt: int, writeAt: int, answer: Answer) returns (d: Decision)
      modifies this
      ensures var call := Call(req, readAt, writeAt, answer);
              && d == Reply(config, render, old(cache), call)
              && cache == AfterCall(config, render, old(cache), call)
      ensures old(Found(config, cache, KeyOf(req, render), readAt)).None? && answer.Err? ==>
                FailureHandled(config, req.clusterGroup, answer.message, d)
    {
      var key := KeyOf(req, render);
      if config.ttl > 0 {
        var hit := CacheGet(key, readAt);
        if hit.Some? {
          return hit.value;
        }
      }
      match answer
      case Ok(decision) =>
        if decision.IsAllowed() && config.ttl > 0 {
          CachePut(key, decision, writeAt);
        }
        return decision;
      case Err(message) =>
        FoldedHandles(config, req.clusterGroup, message);
        if FailOpenFor(config, req.clusterGroup) {
          return ALLOW_ALL;
        }
        return DenyAll("policy engine unavailable: " + message);
    }
  }

  lemma SubsetSize<T>(a: set<T>, b: set<T>)
    requires a <= b
    ensures |a| <= |b|
  {
    assert b == a + (b - a);
  }

  // ----- Runs --------------------------------------------------------------------------------

  function CacheAfter<V>(c: Config, render: V -> string, calls: seq<Call<V>>): Cache {
    if calls == [] then map[]
    else AfterCall(c, render, CacheAfter(c, render, calls[..|calls| - 1]), calls[|calls| - 1])
  }

  /** Call `j` got `d` from the provider, an allow, and it was stored at `stored` under `key`. */
  ghost predicate Stored<V>(c: Config, render: V -> string, calls: seq<Call<V>>, j: nat, key: CacheKey, e: Entry) {
    && j < |calls| && Asks(c, render, CacheAfter(c, render, calls[..j]), calls[j])
    && calls[j].answer == Ok(e.decision) && e.decision.IsAllowed()
    && calls[j].writeAt == e.stored && KeyOf(calls[j].req, render) == key
  }

  /** An entry was there before the call, or is the provider's allow to it. */
  lemma EntryComes<V>(c: Config, render: V -> string, cache: Cache, call: Call<V>, key: CacheKey)
    requires key in AfterCall(c, render, cache, call)
    ensures var e := AfterCall(c, render, cache, call)[key];
            || (key in cache && cache[key] == e)
            || (Asks(c, render, cache, call) && call.answer == Ok(e.decision) && e.decision.IsAllowed()
                && call.writeAt == e.stored && KeyOf(call.req, render) == key)
  {
  }

  lemma StoredEarlier<V>(c: Config, render: V -> string, calls: seq<Call<V>>, j: nat, key: CacheKey, e: Entry)
    requires calls != [] && Stored(c, render, calls[..|calls| - 1], j, key, e)
    ensures Stored(c, render, calls, j, key, e)
  {
    assert calls[..j] == calls[..|calls| - 1][..j];
  }

  lemma {:induction false} EveryEntryWasStored<V>(c: Config, render: V -> string, calls: seq<Call<V>>, key: CacheKey)
      returns (j: nat)
    requires key in CacheAfter(c, render, calls)
    ensures Stored(c, render, calls, j, key, CacheAfter(c, render, calls)[key])
  {
    var front, last := calls[..|calls| - 1], calls[|calls| - 1];
    var before, after := CacheAfter(c, render, front), CacheAfter(c, render, calls);
    EntryComes(c, render, before, last, key);
    if key in before && after[key] == before[key] {
      j := EveryEntryWasStored(c, render, front, key);
      StoredEarlier(c, render, calls, j, key, after[key]);
    } else {
      j := |calls| - 1;
    }
  }

  /** In any run of calls taken one at a time, every reply is the provider's own answer to this
      call, the fail-open or fail-closed result of an error of this call, or an allow that the
      provider gave less than the TTL ago to an earlier request that agrees with this one. */
  lemma EveryReplyIsExplained<V>(c: Config, render: V -> string, calls: seq<Call<V>>, i: nat)
    requires i < |calls| && forall k :: 0 <= k < |calls| ==> WellFormed(calls[k].req)
    ensures var cache, call := CacheAfter(c, render, calls[..i]), calls[i];
            var d := Reply(c, render, cache, call);
            if Asks(c, render, cache, call) then
              d == if call.answer.Ok? then call.answer.decision else Folded(c, call.req.clusterGroup, call.answer.message)
            else
              && (forall k :: 0 <= k < |d.resources| ==> d.resources[k].allow)
              && exists j: nat :: j < i && calls[j].answer == Ok(d) && Asks(c, render, CacheAfter(c, render, calls[..j]), calls[j])
                                  && Max(call.readAt - calls[j].writeAt, 0) < c.ttl && Agree(calls[j].req, call.req, render)
  {
    var cache, call := CacheAfter(c, render, calls[..i]), calls[i];
    if !Asks(c, render, cache, call) {
      var key := KeyOf(call.req, render);
      var j := EveryEntryWasStored(c, render, calls[..i], key);
      assert calls[..i][..j] == calls[..j];
      KeyExact(calls[j].req, call.req, render);
    }
  }

  /** In any run of calls, a call whose provider was asked and failed is answered as its group says. */
  lemma FailureFollowsGroup<V>(c: Config, render: V -> string, calls: seq<Call<V>>, i: nat)
    requires i < |calls| && Asks(c, render, CacheAfter(c, render, calls[..i]), calls[i]) && calls[i].answer.Err?
    ensures FailureHandled(c, calls[i].req.clusterGroup, calls[i].answer.message,
                           Reply(c, render, CacheAfter(c, render, calls[..i]), calls[i]))
  {
    FoldedHandles(c, calls[i].req.clusterGroup, calls[i].answer.message);
  }

  // ----- The cache serves what it should -----------------------------------------------------

  /** Calls are taken one after the other, in time order. */
  ghost predicate InTimeOrder<V>(calls: seq<Call<V>>) {
    && (forall j :: 0 <= j < |calls| ==> calls[j].readAt <= calls[j].writeAt)
    && (forall j, k :: 0 <= j < k < |calls| ==> calls[j].writeAt <= calls[k].readAt)
  }

  function KeysIn<V>(render: V -> string, calls: seq<Call<V>>): set<CacheKey> {
    set j | 0 <= j < |calls| :: KeyOf(calls[j].req, render)
  }

  /** Call `j` asked the provider and was allowed, under `key`. */
  ghost predicate Stores<V>(c: Config, render: V -> string, calls: seq<Call<V>>, j: nat, key: CacheKey) {
    && j < |calls| && Asks(c, render, CacheAfter(c, render, calls[..j]), calls[j])
    && calls[j].answer.Ok? && (forall k :: 0 <= k < |calls[j].answer.decision.resources| ==> calls[j].answer.decision.resources[k].allow)
    && KeyOf(calls[j].req, render) == key
  }

  /** The map holds nothing but keys of the calls, and for each allow that is still within its TTL at
      `now` an entry at least as young. */
  ghost predicate Serves<V>(c: Config, render: V -> string, calls: seq<Call<V>>, cache: Cache, now: int) {
    && cache.Keys <= KeysIn(render, calls)
    && forall j: nat, key :: Stores(c, render, calls, j, key) && now - calls[j].writeAt < c.ttl ==>
         key in cache && cache[key].stored >= calls[j].writeAt
  }

  lemma StoresEarlier<V>(c: Config, render: V -> string, calls: seq<Call<V>>, call: Call<V>, j: nat, key: CacheKey)
    ensures j < |calls| ==> (Stores(c, render, calls + [call], j, key) <==> Stores(c, render, calls, j, key))
    ensures j == |calls| ==> (Stores(c, render, calls + [call], j, key) ==>
              && Asks(c, render, CacheAfter(c, render, calls), call) && call.answer.Ok? && call.answer.decision.IsAllowed()
              && KeyOf(call.req, render) == key)
  {
    if j <= |calls| { assert (calls + [call])[..j] == calls[..j]; }
    assert calls[..|calls|] == calls;
  }

  /** With at most `capacity` keys around, a put evicts nothing. */
  lemma PutHasRoom<V>(c: Config, render: V -> string, calls: seq<Call<V>>, call: Call<V>, read: Cache)
    requires read.Keys <= KeysIn(render, calls) && KeyOf(call.req, render) !in read
    requires |KeysIn(render, calls + [call])| <= c.capacity
    ensures |read| < c.capacity
  {
    var key, all := KeyOf(call.req, render), KeysIn(render, calls + [call]);
    KeysGrow(render, calls, call);
    SubsetSize(read.Keys + {key}, all);
    assert |read.Keys + {key}| == |read.Keys| + 1;
  }

  lemma KeysGrow<V>(render: V -> string, calls: seq<Call<V>>, call: Call<V>)
    ensures KeysIn(render, calls + [call]) == KeysIn(render, calls) + {KeyOf(call.req, render)}
  {
    forall key
      ensures key in KeysIn(render, calls + [call]) <==> key in KeysIn(render, calls) || key == KeyOf(call.req, render)
    {
      if key in KeysIn(render, calls) {
        var j :| 0 <= j < |calls| && KeyOf(calls[j].req, render) == key;
        assert (calls + [call])[j] == calls[j];
      }
      assert (calls + [call])[|calls|] == call;
    }
  }

  /** A call that finds room keeps what is still within its TTL, or replaces it by something younger. */
  lemma CallKeeps<V>(c: Config, render: V -> string, cache: Cache, call: Call<V>, key: CacheKey, w: int, now: int)
    requires c.ttl > 0 && key in cache && cache[key].stored >= w && now - w < c.ttl && w <= call.writeAt && call.readAt <= now
    requires |AfterGet(c, cache, KeyOf(call.req, render), call.readAt)| < c.capacity || !Asks(c, render, cache, call)
    ensures key in AfterCall(c, render, cache, call) && AfterCall(c, render, cache, call)[key].stored >= w
  {
  }

  lemma CallStores<V>(c: Config, render: V -> string, cache: Cache, call: Call<V>)
    requires c.ttl > 0 && Asks(c, render, cache, call) && call.answer.Ok? && call.answer.decision.IsAllowed()
    ensures var key, after := KeyOf(call.req, render), AfterCall(c, render, cache, call);
            key in after && after[key].stored == call.writeAt
  {
  }

  lemma CallKeys<V>(c: Config, render: V -> string, cache: Cache, call: Call<V>)
    ensures AfterCall(c, render, cache, call).Keys <= cache.Keys + {KeyOf(call.req, render)}
    ensures c.ttl > 0 && Asks(c, render, cache, call) ==>
              var key := KeyOf(call.req, render); AfterGet(c, cache, key, call.readAt).Keys <= cache.Keys - {key}
  {
  }

  lemma StepServes<V>(c: Config, render: V -> string, calls: seq<Call<V>>, call: Call<V>, cache: Cache, now: int)
    requires c.ttl > 0 && cache == CacheAfter(c, render, calls) && Serves(c, render, calls, cache, call.readAt)
    requires call.readAt <= call.writeAt <= now && forall j :: 0 <= j < |calls| ==> calls[j].writeAt <= call.readAt
    requires |KeysIn(render, calls + [call])| <= c.capacity
    ensures Serves(c, render, calls + [call], AfterCall(c, render, cache, call), now)
  {
    var all, after := calls + [call], AfterCall(c, render, cache, call);
    KeysGrow(render, calls, call);
    CallKeys(c, render, cache, call);
    if Asks(c, render, cache, call) { PutHasRoom(c, render, calls, call, AfterGet(c, cache, KeyOf(call.req, render), call.readAt)); }
    forall j: nat, k | Stores(c, render, all, j, k) && now - all[j].writeAt < c.ttl
      ensures k in after && after[k].stored >= all[j].writeAt
    {
      StoresEarlier(c, render, calls, call, j, k);
      if j < |calls| { CallKeeps(c, render, cache, call, k, calls[j].writeAt, now); } else { CallStores(c, render, cache, call); }
    }
  }

  lemma OrderOfFront<V>(calls: seq<Call<V>>)
    requires InTimeOrder(calls) && calls != []
    ensures var front, last := calls[..|calls| - 1], calls[|calls| - 1];
            && InTimeOrder(front) && calls == front + [last] && last.readAt <= last.writeAt
            && forall j :: 0 <= j < |front| ==> front[j].writeAt <= last.readAt
  {
  }

  lemma FewKeysInFront<V>(render: V -> string, calls: seq<Call<V>>)
    requires calls != []
    ensures |KeysIn(render, calls[..|calls| - 1])| <= |KeysIn(render, calls)|
  {
    var front, last := calls[..|calls| - 1], calls[|calls| - 1];
    assert calls == front + [last];
    KeysGrow(render, front, last);
    SubsetSize(KeysIn(render, front), KeysIn(render, calls));
  }

  lemma LastServes<V>(c: Config, render: V -> string, calls: seq<Call<V>>, now: int)
    requires c.ttl > 0 && calls != [] && InTimeOrder(calls) && |KeysIn(render, calls)| <= c.capacity
    requires calls[|calls| - 1].writeAt <= now
    requires var front := calls[..|calls| - 1]; Serves(c, render, front, CacheAfter(c, render, front), calls[|calls| - 1].readAt)
    ensures Serves(c, render, calls, CacheAfter(c, render, calls), now)
  {
    var front, last := calls[..|calls| - 1], calls[|calls| - 1];
    OrderOfFront(calls);
    StepServes(c, render, front, last, CacheAfter(c, render, front), now);
  }

  lemma {:induction false} RunServes<V>(c: Config, render: V -> string, calls: seq<Call<V>>, now: int)
    requires c.ttl > 0 && InTimeOrder(calls) && |KeysIn(render, calls)| <= c.capacity
    requires calls != [] ==> calls[|calls| - 1].writeAt <= now
    ensures Serves(c, render, calls, CacheAfter(c, render, calls), now)
  {
    if calls != [] {
      OrderOfFront(calls);
      FewKeysInFront(render, calls);
      RunServes(c, render, calls[..|calls| - 1], calls[|calls| - 1].readAt);
      LastServes(c, render, calls, now);
    }
  }

  /** While the calls have at most `capacity` different keys, a call is served from the cache if and
      only if the provider has allowed an earlier request with the same key less than the TTL ago. */
  lemma ServedIff<V>(c: Config, render: V -> string, calls: seq<Call<V>>, call: Call<V>)
    requires c.ttl > 0 && InTimeOrder(calls) && |KeysIn(render, calls)| <= c.capacity
    requires calls != [] ==> calls[|calls| - 1].writeAt <= call.readAt
    ensures !Asks(c, render, CacheAfter(c, render, calls), call) <==>
              exists j: nat :: Stores(c, render, calls, j, KeyOf(call.req, render)) && call.readAt - calls[j].writeAt < c.ttl
  {
    var key, cache := KeyOf(call.req, render), CacheAfter(c, render, calls);
    RunServes(c, render, calls, call.readAt);
    if !Asks(c, render, cache, call) {
      var j := EveryEntryWasStored(c, render, calls, key);
      assert Stores(c, render, calls, j, key);
    }
  }

  lemma AfterPutBounded(c: Config, cache: Cache, key: CacheKey, d: Decision, now: int)
    ensures |AfterPut(c, cache, key, d, now)| <= Max(c.capacity, 1)
  {
    var room := AfterPut(c, cache, key, d, now) - {key};
    var after := AfterPut(c, cache, key, d, now);
    assert after.Keys == room.Keys + {key};
    assert |after.Keys| == |room.Keys| + 1;
    if |cache| < c.capacity {
      SubsetSize(room.Keys, cache.Keys);
    } else if |OnlyLive(c, cache, now)| < c.capacity {
      SubsetSize(room.Keys, OnlyLive(c, cache, now).Keys);
    } else {
      assert room == map[];
    }
  }

  /** The cache never holds more than `max(capacity, 1)` decisions. */
  lemma {:induction false} CacheStaysBounded<V>(c: Config, render: V -> string, calls: seq<Call<V>>)
    ensures |CacheAfter(c, render, calls)| <= Max(c.capacity, 1)
  {
    if calls != [] {
      var front, last := calls[..|calls| - 1], calls[|calls| - 1];
      CacheStaysBounded(c, render, front);
      var before, key := CacheAfter(c, render, front), KeyOf(last.req, render);
      var read := AfterGet(c, before, key, last.readAt);
      SubsetSize(read.Keys, before.Keys);
      if last.answer.Ok? { AfterPutBounded(c, read, key, last.answer.decision, last.writeAt); }
    }
  }

  /** A put keeps another entry that has not expired if and only if fewer of those than the capacity
      are in the map, and one that has expired only while the map is not full. */
  lemma PutKeepsIff(c: Config, cache: Cache, key: CacheKey, d: Decision, now: int, k: CacheKey)
    requires c.ttl > 0 && k in cache && k != key
    ensures var live := set x | x in cache && now - cache[x].stored < c.ttl;
            k in AfterPut(c, cache, key, d, now) <==> (if k in live then |live| < c.capacity else |cache| < c.capacity)
    ensures k in AfterPut(c, cache, key, d, now) ==> AfterPut(c, cache, key, d, now)[k] == cache[k]
  {
    var live := set x | x in cache && now - cache[x].stored < c.ttl;
    assert OnlyLive(c, cache, now).Keys == live;
    SubsetSize(live, cache.Keys);
  }
}
