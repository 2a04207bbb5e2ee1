/** An access evaluation that runs without interference does what the sequential one does. */
module AccessSolo {
  import opened Wrappers
  import opened AccessKey
  import opened AccessController
  import opened AccessOverlap

  datatype Spot<V> = Spot(proc: Proc<V>, cache: Cache)

  function Step<V>(c: Config, render: V -> string, at: Spot<V>, l: Label<V>): Spot<V> {
    var (proc, cache) := Move(c, render, at.cache, at.proc, l);
    Spot(proc, cache)
  }

  /** One evaluation taken through further labels. */
  function Moves<V>(c: Config, render: V -> string, at: Spot<V>, ls: seq<Label<V>>): Spot<V> {
    if ls == [] then at else Step(c, render, Moves(c, render, at, ls[..|ls| - 1]), ls[|ls| - 1])
  }

  lemma MovesAppend<V>(c: Config, render: V -> string, at: Spot<V>, ls: seq<Label<V>>, l: Label<V>)
    ensures Moves(c, render, at, ls + [l]) == Step(c, render, Moves(c, render, at, ls), l)
  {
    assert (ls + [l])[..|ls|] == ls;
  }

  predicate AllBy<V>(ls: seq<Label<V>>, p: nat) {
    forall i :: 0 <= i < |ls| ==> ls[i].p == p
  }

  /** In the run, only this evaluation moves. */
  lemma {:induction false} RunMoves<V>(c: Config, render: V -> string, ls: seq<Label<V>>, more: seq<Label<V>>, p: nat)
    requires p in RunOf(c, render, ls).procs && AllBy(more, p)
    ensures var s, w := RunOf(c, render, ls), RunOf(c, render, ls + more);
            p in w.procs && Spot(w.procs[p], w.cache) == Moves(c, render, Spot(s.procs[p], s.cache), more)
  {
    if more == [] {
      assert ls + more == ls;
    } else {
      var front, l := more[..|more| - 1], more[|more| - 1];
      RunMoves(c, render, ls, front, p);
      assert ls + more == (ls + front) + [l];
      RunAppend(c, render, ls + front, l);
    }
  }

  // ----- Making room and inserting -----------------------------------------------------------

  function Puts<V>(p: nat, now: int, n: nat): seq<Label<V>> {
    if n == 0 then [] else Puts(p, now, n - 1) + [Put(p, now)]
  }

  lemma FromInserting<V>(c: Config, render: V -> string, at: Spot<V>, l: Label<V>)
    requires l.Put? && at.proc.Putting? && at.proc.stage.Inserting?
    ensures Step(c, render, at, l) ==
              Spot(Done(at.proc.req, at.proc.d, None), at.cache[KeyOf(at.proc.req, render) := Entry(l.now, at.proc.d)])
  {
  }

  lemma DoneStays<V>(c: Config, render: V -> string, at: Spot<V>, l: Label<V>)
    requires at.proc.Done?
    ensures Step(c, render, at, l) == at
  {
  }

  /** The map with room made in it. */
  function Room(c: Config, cache: Cache, now: int): Cache {
    if |cache| < c.capacity then cache
    else if |OnlyLive(c, cache, now)| < c.capacity then OnlyLive(c, cache, now)
    else map[]
  }

  /** Where `cache_put` stands, with the map, after `n` of its actions. */
  function Stand(c: Config, cache: Cache, now: int, n: nat): (Stage, Cache) {
    if n == 0 then (Measuring, cache)
    else if |cache| < c.capacity then (Inserting, cache)
    else if n == 1 then (Retaining, cache)
    else if n == 2 then (Remeasuring, OnlyLive(c, cache, now))
    else if n == 3 && |OnlyLive(c, cache, now)| >= c.capacity then (Clearing, OnlyLive(c, cache, now))
    else (Inserting, Room(c, cache, now))
  }

  function InsertsAfter(c: Config, cache: Cache, now: int): nat {
    if |cache| < c.capacity then 1 else if |OnlyLive(c, cache, now)| < c.capacity then 3 else 4
  }

  function AfterPuts<V>(c: Config, render: V -> string, at: Spot<V>, p: nat, now: int, n: nat): Spot<V> {
    if n == 0 then at else Step(c, render, AfterPuts(c, render, at, p, now, n - 1), Put(p, now))
  }

  lemma {:induction false} MovesPuts<V>(c: Config, render: V -> string, at: Spot<V>, p: nat, now: int, n: nat)
    ensures Moves(c, render, at, Puts(p, now, n)) == AfterPuts(c, render, at, p, now, n)
  {
    if n > 0 {
      MovesPuts(c, render, at, p, now, n - 1);
      MovesAppend(c, render, at, Puts(p, now, n - 1), Put(p, now));
    }
  }

  lemma StandsNext<V>(c: Config, render: V -> string, cache: Cache, req: Request<V>, d: Decision, l: Label<V>, n: nat)
    requires l.Put? && n < InsertsAfter(c, cache, l.now)
    ensures var (stage, map0), (next, map1) := Stand(c, cache, l.now, n), Stand(c, cache, l.now, n + 1);
            Step(c, render, Spot(Putting(req, d, stage), map0), l) == Spot(Putting(req, d, next), map1)
  {
  }

  lemma {:induction false} Stands<V>(c: Config, render: V -> string, cache: Cache, req: Request<V>, d: Decision, p: nat, now: int, n: nat)
    requires n <= InsertsAfter(c, cache, now)
    ensures AfterPuts(c, render, Spot(Putting(req, d, Measuring), cache), p, now, n) ==
              Spot(Putting(req, d, Stand(c, cache, now, n).0), Stand(c, cache, now, n).1)
  {
    if n > 0 {
      Stands(c, render, cache, req, d, p, now, n - 1);
      StandsNext(c, render, cache, req, d, Put(p, now), n - 1);
    }
  }

  lemma {:induction false} PutsSettle<V>(c: Config, render: V -> string, cache: Cache, req: Request<V>, d: Decision, p: nat, now: int, n: nat)
    requires n > InsertsAfter(c, cache, now)
    ensures AfterPuts(c, render, Spot(Putting(req, d, Measuring), cache), p, now, n) ==
              Spot(Done(req, d, None), AfterPut(c, cache, KeyOf(req, render), d, now))
  {
    var before := AfterPuts(c, render, Spot(Putting(req, d, Measuring), cache), p, now, n - 1);
    if n - 1 == InsertsAfter(c, cache, now) {
      Stands(c, render, cache, req, d, p, now, n - 1);
      FromInserting(c, render, before, Put(p, now));
    } else {
      PutsSettle(c, render, cache, req, d, p, now, n - 1);
      DoneStays(c, render, before, Put(p, now));
    }
  }

  lemma {:induction false} DoneForGood<V>(c: Config, render: V -> string, at: Spot<V>, p: nat, now: int, n: nat)
    requires at.proc.Done?
    ensures AfterPuts(c, render, at, p, now, n) == at
  {
    if n > 0 {
      DoneForGood(c, render, at, p, now, n - 1);
      DoneStays(c, render, at, Put(p, now));
    }
  }

  // ----- The whole evaluation ----------------------------------------------------------------

  /** Reading the cache and asking the provider. */
  function Consult<V>(p: nat, call: Call<V>): seq<Label<V>> {
    [Get(p, call.readAt)] + [Remove(p)] + [Answered(p, call.answer)]
  }

  lemma ReadAndAsked<V>(c: Config, render: V -> string, cache: Cache, p: nat, call: Call<V>)
    ensures var start := Spot(if c.ttl > 0 then Getting(call.req) else Asking(call.req), cache);
            var end := Moves(c, render, start, Consult(p, call));
            var read := AfterGet(c, cache, KeyOf(call.req, render), call.readAt);
            var reply := Reply(c, render, cache, call);
            && end.cache == read
            && end.proc == (if !Asks(c, render, cache, call) then Done(call.req, reply, Some(call.readAt))
                            else if call.answer.Ok? && call.answer.decision.IsAllowed() && c.ttl > 0
                            then Putting(call.req, call.answer.decision, Measuring)
                            else Done(call.req, reply, None))
  {
    var start := Spot(if c.ttl > 0 then Getting(call.req) else Asking(call.req), cache);
    var a: seq<Label<V>>, b, d := [], [Get(p, call.readAt)], [Get(p, call.readAt)] + [Remove(p)];
    assert a + [Get(p, call.readAt)] == b;
    MovesAppend(c, render, start, a, Get(p, call.readAt));
    MovesAppend(c, render, start, b, Remove(p));
    MovesAppend(c, render, start, d, Answered(p, call.answer));
  }

  /** All the labels of one evaluation; those that do not apply change nothing. */
  function Evaluation<V>(p: nat, call: Call<V>): seq<Label<V>> {
    [Begin(p, call.req)] + (Consult(p, call) + Puts(p, call.writeAt, 5))
  }

  lemma {:induction false} MovesBoth<V>(c: Config, render: V -> string, at: Spot<V>, a: seq<Label<V>>, b: seq<Label<V>>)
    ensures Moves(c, render, at, a + b) == Moves(c, render, Moves(c, render, at, a), b)
  {
    if b == [] {
      assert a + b == a;
    } else {
      var front, l := b[..|b| - 1], b[|b| - 1];
      MovesBoth(c, render, at, a, front);
      assert a + b == (a + front) + [l];
      MovesAppend(c, render, at, a + front, l);
    }
  }

  lemma SettledAlone<V>(c: Config, render: V -> string, cache: Cache, p: nat, call: Call<V>)
    ensures var start := Spot(if c.ttl > 0 then Getting(call.req) else Asking(call.req), cache);
            var end := Moves(c, render, start, Consult(p, call) + Puts(p, call.writeAt, 5));
            && end.cache == AfterCall(c, render, cache, call)
            && end.proc.Done? && end.proc.reply == Reply(c, render, cache, call)
  {
    var start := Spot(if c.ttl > 0 then Getting(call.req) else Asking(call.req), cache);
    var mid := Moves(c, render, start, Consult(p, call));
    MovesBoth(c, render, start, Consult(p, call), Puts(p, call.writeAt, 5));
    ReadAndAsked(c, render, cache, p, call);
    MovesPuts(c, render, mid, p, call.writeAt, 5);
    if mid.proc.Done? {
      DoneForGood(c, render, mid, p, call.writeAt, 5);
    } else {
      PutsSettle(c, render, mid.cache, call.req, call.answer.decision, p, call.writeAt, 5);
    }
  }

  lemma {:induction false} PutsAreOf<V>(p: nat, now: int, n: nat)
    ensures AllBy(Puts<V>(p, now, n), p)
  {
    if n > 0 { PutsAreOf<V>(p, now, n - 1); }
  }

  lemma AllOf<V>(p: nat, call: Call<V>)
    ensures AllBy(Consult(p, call) + Puts(p, call.writeAt, 5), p)
  {
    PutsAreOf<V>(p, call.writeAt, 5);
  }

  lemma Begins<V>(c: Config, render: V -> string, ls: seq<Label<V>>, p: nat, req: Request<V>)
    requires p !in RunOf(c, render, ls).procs
    ensures var s, w := RunOf(c, render, ls), RunOf(c, render, ls + [Begin(p, req)]);
            p in w.procs && w.procs[p] == (if c.ttl > 0 then Getting(req) else Asking(req)) && w.cache == s.cache
  {
    RunAppend(c, render, ls, Begin(p, req));
  }

  lemma Regroup<T>(a: seq<T>, x: T, b: seq<T>)
    ensures a + ([x] + b) == (a + [x]) + b
  {
  }

  /** After any run of overlapping evaluations, one that then runs alone gives the reply and leaves
      the map that the sequential evaluation specifies. */
  lemma SoloIsSequential<V>(c: Config, render: V -> string, ls: seq<Label<V>>, p: nat, call: Call<V>)
    requires p !in RunOf(c, render, ls).procs
    ensures var s, w := RunOf(c, render, ls), RunOf(c, render, ls + Evaluation(p, call));
            && w.cache == AfterCall(c, render, s.cache, call)
            && p in w.procs && w.procs[p].Done? && w.procs[p].reply == Reply(c, render, s.cache, call)
  {
    var begun, more := ls + [Begin(p, call.req)], Consult(p, call) + Puts(p, call.writeAt, 5);
    Begins(c, render, ls, p, call.req);
    AllOf(p, call);
    RunMoves(c, render, begun, more, p);
    Regroup(ls, Begin(p, call.req), more);
    SettledAlone(c, render, RunOf(c, render, ls).cache, p, call);
  }
}
