/** The circuit breaker over whole runs of events. */
module BreakerRuns {
  import opened Wrappers
  import opened CircuitBreaker

  datatype Event =
    | Record(outcome: BackendOutcome, now: int)
    | BeginProbe(id: nat, now: int)
    | FinishProbe(id: nat, healthy: bool, now: int)

  function Step(c: Config, hz: int, v: View, e: Event): View {
    match e
    case Record(outcome, now) => AfterRecord(c, hz, v, outcome, now)
    case BeginProbe(_, now) => AfterBeginProbe(v, now)
    case FinishProbe(_, healthy, now) => AfterFinishProbe(c, hz, v, healthy, now)
  }

  function Front(es: seq<Event>): seq<Event>
    requires es != []
  {
    es[..|es| - 1]
  }

  function Last(es: seq<Event>): Event
    requires es != []
  {
    es[|es| - 1]
  }

  /** The breaker after a run. */
  function Run(c: Config, hz: int, es: seq<Event>): View {
    if es == [] then Fresh(c) else Step(c, hz, Run(c, hz, Front(es)), Last(es))
  }

  ghost predicate InTimeOrder(es: seq<Event>) {
    forall i, j :: 0 <= i < j < |es| ==> es[i].now <= es[j].now
  }

  /** The records come in time order; probes may carry any instants. */
  ghost predicate RecordsInOrder(es: seq<Event>) {
    forall i, j :: 0 <= i < j < |es| && es[i].Record? && es[j].Record? ==> es[i].now <= es[j].now
  }

  /** No record comes after `now`. */
  ghost predicate RecordedBy(es: seq<Event>, now: int) {
    forall i :: 0 <= i < |es| && es[i].Record? ==> es[i].now <= now
  }

  // ----- The window is a plain recount -------------------------------------------------------

  /** Every outcome recorded since the breaker last closed, with nothing thrown away. */
  function History(c: Config, hz: int, es: seq<Event>): seq<Sample> {
    if es == [] then []
    else Remember(History(c, hz, Front(es)), Run(c, hz, Front(es)).state, Last(es), Run(c, hz, es).state)
  }

  function Remember(h: seq<Sample>, was: CircuitState, e: Event, now: CircuitState): seq<Sample> {
    if !was.Closed? || !now.Closed? then []
    else if e.Record? then h + [Sample(e.now, e.outcome)]
    else h
  }

  /** The reference: of a full history, the outcomes inside the window, at most the newest 10,000. */
  function Recount(c: Config, h: seq<Sample>, now: int): seq<Sample> {
    Newest(InWindow(c, h, now))
  }

  function InWindow(c: Config, h: seq<Sample>, now: int): seq<Sample> {
    if h == [] then []
    else (if Stale(c, h[0], now) then [] else [h[0]]) + InWindow(c, h[1..], now)
  }

  ghost predicate Sorted(h: seq<Sample>) {
    forall i, j :: 0 <= i < j < |h| ==> h[i].at <= h[j].at
  }

  lemma {:induction false} InWindowIsSuffix(c: Config, h: seq<Sample>, now: int)
    requires Sorted(h)
    ensures InWindow(c, h, now) == h[Cut(c, h, now)..]
  {
    if h != [] {
      InWindowIsSuffix(c, h[1..], now);
      if !Stale(c, h[0], now) {
        assert h[1..] != [] ==> !Stale(c, h[1], now);
        assert h == [h[0]] + h[1..];
      } else {
        assert h[1..][Cut(c, h[1..], now)..] == h[Cut(c, h, now)..];
      }
    }
  }

  /** In a sorted list, nothing behind a fresh sample is stale. */
  lemma FreshBehindCut(c: Config, ss: seq<Sample>, now: int, i: nat)
    requires Sorted(ss) && Cut(c, ss, now) <= i < |ss|
    ensures !Stale(c, ss[i], now)
  {
    var k := Cut(c, ss, now);
    if k < i { assert ss[k].at <= ss[i].at; }
  }

  /** Cutting a suffix of a sorted list cuts where the whole list is cut, or not at all. */
  lemma CutOfSuffix(c: Config, ss: seq<Sample>, d: nat, now: int)
    requires Sorted(ss) && d <= |ss|
    ensures Cut(c, ss[d..], now) == Max(Cut(c, ss, now) - d, 0)
  {
    var k, j := Cut(c, ss, now), Cut(c, ss[d..], now);
    assert d + j < |ss| ==> ss[d..][j] == ss[d + j];
    assert j > 0 ==> ss[d..][j - 1] == ss[d + j - 1];
    if j > 0 && d + j - 1 >= k {
      FreshBehindCut(c, ss, now, d + j - 1);
    }
  }

  /** What was stale stays stale. */
  lemma CutGrows(c: Config, h: seq<Sample>, then': int, s: Sample)
    requires Sorted(h + [s]) && then' <= s.at
    ensures Cut(c, h, then') <= Cut(c, h + [s], s.at)
  {
    var all, k := h + [s], Cut(c, h + [s], s.at);
    assert k < |h| ==> all[k] == h[k];
  }

  /** Dropping from a deque that was already trimmed gives what trimming the whole history gives. */
  lemma TrimTwice(c: Config, h: seq<Sample>, then': int, s: Sample)
    requires Sorted(h + [s]) && then' <= s.at
    ensures Kept(c, Kept(c, h, then') + [s], s.at) == Kept(c, h + [s], s.at)
  {
    var d := TrimmedIsSuffix(h, Cut(c, h, then'), s);
    CutGrows(c, h, then', s);
    KeptOfSuffix(c, h + [s], d, s.at);
  }

  /** Where the newest samples of `ss[k..]` start, for `ss` of length `n`. */
  function Start(n: nat, k: nat): nat
    requires k <= n
  {
    if n - k > MAX_SAMPLES then n - MAX_SAMPLES else k
  }

  lemma NewestIsSuffix(ss: seq<Sample>, k: nat)
    requires k <= |ss|
    ensures Newest(ss[k..]) == ss[Start(|ss|, k)..]
  {
  }

  lemma SliceOfSlice(ss: seq<Sample>, d: nat, j: nat)
    requires d + j <= |ss|
    ensures ss[d..][j..] == ss[d + j..]
  {
  }

  lemma NewestOfSuffix(ss: seq<Sample>, d: nat, k: nat, j: nat)
    requires d <= |ss| && k <= |ss| && (d <= k || |ss| - d >= MAX_SAMPLES) && j == Max(k - d, 0)
    ensures Newest(ss[d..][j..]) == Newest(ss[k..])
  {
    SliceOfSlice(ss, d, j);
    NewestIsSuffix(ss, k);
    NewestIsSuffix(ss, d + j);
  }

  /** A suffix that starts before the cut, or is long enough, keeps what the whole list keeps. */
  lemma KeptOfSuffix(c: Config, ss: seq<Sample>, d: nat, now: int)
    requires Sorted(ss) && d <= |ss| && (d <= Cut(c, ss, now) || |ss| - d >= MAX_SAMPLES)
    ensures Kept(c, ss[d..], now) == Kept(c, ss, now)
  {
    CutOfSuffix(c, ss, d, now);
    NewestOfSuffix(ss, d, Cut(c, ss, now), Cut(c, ss[d..], now));
  }

  lemma TrimmedIsSuffix(h: seq<Sample>, cut: nat, s: Sample) returns (d: nat)
    requires cut <= |h|
    ensures d <= |h| && Newest(h[cut..]) + [s] == (h + [s])[d..]
    ensures d <= cut || |h| - d >= MAX_SAMPLES
  {
    NewestIsSuffix(h, cut);
    d := Start(|h|, cut);
  }

  /** The deque, in terms of the history `h` of a closed breaker. */
  function Trimmed(c: Config, h: seq<Sample>): seq<Sample> {
    if h == [] then [] else Kept(c, h, h[|h| - 1].at)
  }

  ghost predicate WindowInv(c: Config, v: View, h: seq<Sample>, now: int) {
    && Sorted(h)
    && (h != [] ==> h[|h| - 1].at <= now)
    && v.samples == Trimmed(c, h)
    && (!v.state.Closed? ==> h == [])
  }

  lemma TrimmedGrows(c: Config, h: seq<Sample>, s: Sample)
    requires Sorted(h) && (h != [] ==> h[|h| - 1].at <= s.at)
    ensures Sorted(h + [s]) && Kept(c, Trimmed(c, h) + [s], s.at) == Trimmed(c, h + [s])
  {
    assert Sorted(h + [s]) by {
      forall i, j | 0 <= i < j < |h + [s]|
        ensures (h + [s])[i].at <= (h + [s])[j].at
      {
        if i < |h| - 1 { assert h[i].at <= h[|h| - 1].at; }
      }
    }
    if h != [] { TrimTwice(c, h, h[|h| - 1].at, s); }
  }

  lemma RecordKeepsWindow(c: Config, hz: int, v: View, h: seq<Sample>, s: Sample)
    requires WindowInv(c, v, h, s.at) && v.state.Closed?
    ensures var v' := AfterRecord(c, hz, v, s.outcome, s.at);
            && WindowInv(c, v', if v'.state.Closed? then h + [s] else [], s.at)
            && (v'.state.Open? <==> Trips(c, Trimmed(c, h + [s])))
            && (v'.state.Closed? <==> !Trips(c, Trimmed(c, h + [s])))
            && (v'.state.Closed? ==> v'.samples == Trimmed(c, h + [s]))
  {
    TrimmedGrows(c, h, s);
    assert s == Sample(s.at, s.outcome);
  }

  lemma StepKeepsWindow(c: Config, hz: int, v: View, h: seq<Sample>, e: Event, now: int)
    requires WindowInv(c, v, h, if e.Record? then e.now else now) && (e.Record? ==> e.now <= now)
    ensures var v' := Step(c, hz, v, e); WindowInv(c, v', Remember(h, v.state, e, v'.state), now)
  {
    if e.Record? && v.state.Closed? {
      RecordKeepsWindow(c, hz, v, h, Sample(e.now, e.outcome));
    }
  }

  lemma {:induction false} RunWindowInv(c: Config, hz: int, es: seq<Event>, now: int)
    requires RecordsInOrder(es) && RecordedBy(es, now)
    ensures WindowInv(c, Run(c, hz, es), History(c, hz, es), now)
  {
    if es != [] {
      var front, e := Front(es), Last(es);
      RunWindowInv(c, hz, front, if e.Record? then e.now else now);
      StepKeepsWindow(c, hz, Run(c, hz, front), History(c, hz, front), e, now);
    }
  }

  /** For records in time order, after each record the kept samples are exactly the newest 10,000
      in-window outcomes since the breaker last closed, and the breaker opens exactly when a recount
      of those reaches `min_requests` and crosses either rate. */
  lemma {:induction false} RecordRefinesRecount(c: Config, hz: int, es: seq<Event>, outcome: BackendOutcome, now: int)
    requires RecordsInOrder(es) && RecordedBy(es, now) && Run(c, hz, es).state.Closed?
    ensures var kept := Recount(c, History(c, hz, es) + [Sample(now, outcome)], now);
            var v := Run(c, hz, es + [Record(outcome, now)]);
            && (v.state.Open? <==> Trips(c, kept))
            && (v.state.Closed? <==> !Trips(c, kept))
            && (v.state.Closed? ==> v.samples == kept)
  {
    RunSnoc(c, hz, es, Record(outcome, now));
    RunWindowInv(c, hz, es, now);
    RecordIsRecount(c, hz, Run(c, hz, es), History(c, hz, es), Sample(now, outcome));
  }

  lemma RunSnoc(c: Config, hz: int, es: seq<Event>, e: Event)
    ensures Run(c, hz, es + [e]) == Step(c, hz, Run(c, hz, es), e)
  {
    assert Front(es + [e]) == es;
  }

  lemma RecordIsRecount(c: Config, hz: int, v: View, h: seq<Sample>, s: Sample)
    requires WindowInv(c, v, h, s.at) && v.state.Closed?
    ensures var v' := AfterRecord(c, hz, v, s.outcome, s.at);
            && (v'.state.Open? <==> Trips(c, Recount(c, h + [s], s.at)))
            && (v'.state.Closed? <==> !Trips(c, Recount(c, h + [s], s.at)))
            && (v'.state.Closed? ==> v'.samples == Recount(c, h + [s], s.at))
  {
    RecordKeepsWindow(c, hz, v, h, s);
    TrimmedGrows(c, h, s);
    TrimmedIsRecount(c, h + [s]);
  }

  // In numbers: no name of the window or of the rates is used below.

  /** The indices of the newest 10,000 outcomes of the history that are at most the window old. */
  function Counted(c: Config, h: seq<Sample>, now: int): set<nat> {
    set i: nat | i < |h| && i + 10_000 >= |h| && now - h[i].at <= c.windowSecs * 1_000_000_000
  }

  function Unsuccessful(c: Config, h: seq<Sample>, now: int): set<nat> {
    set i | i in Counted(c, h, now) && i < |h| && h[i].outcome != Success
  }

  function TimedOut(c: Config, h: seq<Sample>, now: int): set<nat> {
    set i | i in Counted(c, h, now) && i < |h| && h[i].outcome == Timeout
  }

  lemma SuffixTotals(h: seq<Sample>, d: nat)
    requires d < |h|
    ensures Failures(h[d..]) == (if h[d].outcome.Success? then 0 else 1) + Failures(h[d + 1..])
    ensures Timeouts(h[d..]) == (if h[d].outcome.Timeout? then 1 else 0) + Timeouts(h[d + 1..])
  {
    SliceSteps(h, d);
  }

  lemma WithoutSize(s: set<nat>, x: nat)
    ensures |s| == |s - {x}| + if x in s then 1 else 0
  {
    if x !in s { assert s - {x} == s; }
  }

  lemma {:induction false} FailuresOfSuffix(h: seq<Sample>, d: nat, f: set<nat>)
    requires d <= |h| && forall i: nat :: i in f <==> d <= i < |h| && h[i].outcome != Success
    ensures Failures(h[d..]) == |f|
    decreases |h| - d
  {
    if d == |h| {
      assert f == {};
    } else {
      SuffixTotals(h, d);
      FailuresOfSuffix(h, d + 1, f - {d});
      WithoutSize(f, d);
    }
  }

  lemma {:induction false} TimeoutsOfSuffix(h: seq<Sample>, d: nat, t: set<nat>)
    requires d <= |h| && forall i: nat :: i in t <==> d <= i < |h| && h[i].outcome == Timeout
    ensures Timeouts(h[d..]) == |t|
    decreases |h| - d
  {
    if d == |h| {
      assert t == {};
    } else {
      SuffixTotals(h, d);
      TimeoutsOfSuffix(h, d + 1, t - {d});
      WithoutSize(t, d);
    }
  }

  lemma {:induction false} RangeSize(a: nat, b: nat, s: set<nat>)
    requires a <= b && forall i: nat :: i in s <==> a <= i < b
    ensures |s| == b - a
    decreases b - a
  {
    if a == b {
      assert s == {};
    } else {
      RangeSize(a + 1, b, s - {a});
    }
  }

  /** The kept samples are the counted suffix of the history. */
  lemma KeptIsCounted(c: Config, h: seq<Sample>, now: int)
    requires Sorted(h) && (h != [] ==> h[|h| - 1].at <= now)
    ensures |Kept(c, h, now)| == |Counted(c, h, now)|
    ensures Failures(Kept(c, h, now)) == |Unsuccessful(c, h, now)| && Timeouts(Kept(c, h, now)) == |TimedOut(c, h, now)|
  {
    var d := Start(|h|, Cut(c, h, now));
    NewestIsSuffix(h, Cut(c, h, now));
    forall i: nat ensures i in Counted(c, h, now) <==> d <= i < |h| { CountedIff(c, h, now, i); }
    RangeSize(d, |h|, Counted(c, h, now));
    FailuresOfSuffix(h, d, Unsuccessful(c, h, now));
    TimeoutsOfSuffix(h, d, TimedOut(c, h, now));
  }

  lemma CountedIff(c: Config, h: seq<Sample>, now: int, i: nat)
    requires Sorted(h) && (h != [] ==> h[|h| - 1].at <= now)
    ensures i in Counted(c, h, now) <==> Start(|h|, Cut(c, h, now)) <= i < |h|
  {
    var k := Cut(c, h, now);
    if i < |h| {
      assert h[i].at <= now by { if i < |h| - 1 { assert h[i].at <= h[|h| - 1].at; } }
      if k <= i { FreshBehindCut(c, h, now, i); }
    }
  }

  /** For records in time order, a record opens a closed breaker if and only if, of the newest 10,000
      outcomes since it last closed, the `n` that are at most `window_secs` seconds old are at least
      `min_requests` and `f` unsuccessful or `t` timed-out ones among them reach their percentage. */
  lemma {:induction false} OpensInNumbers(c: Config, hz: int, es: seq<Event>, outcome: BackendOutcome, now: int)
    requires RecordsInOrder(es) && RecordedBy(es, now) && Run(c, hz, es).state.Closed?
    ensures Run(c, hz, es + [Record(outcome, now)]).state.Open? <==>
              Crosses(c, History(c, hz, es) + [Sample(now, outcome)], now)
  {
    RunSnoc(c, hz, es, Record(outcome, now));
    RunWindowInv(c, hz, es, now);
    RecordCrosses(c, hz, Run(c, hz, es), History(c, hz, es), Sample(now, outcome));
  }

  predicate Crosses(c: Config, h: seq<Sample>, now: int) {
    var n, f, t := |Counted(c, h, now)|, |Unsuccessful(c, h, now)|, |TimedOut(c, h, now)|;
    n >= c.minRequests && (f * 100 >= n * c.failureRatePercent || t * 100 >= n * c.timeoutRatePercent)
  }

  lemma RecordCrosses(c: Config, hz: int, v: View, h: seq<Sample>, s: Sample)
    requires WindowInv(c, v, h, s.at) && v.state.Closed?
    ensures AfterRecord(c, hz, v, s.outcome, s.at).state.Open? <==> Crosses(c, h + [s], s.at)
  {
    RecordKeepsWindow(c, hz, v, h, s);
    TrimmedCrosses(c, h, s);
  }

  lemma TrimmedCrosses(c: Config, h: seq<Sample>, s: Sample)
    requires Sorted(h) && (h != [] ==> h[|h| - 1].at <= s.at)
    ensures Trips(c, Trimmed(c, h + [s])) <==> Crosses(c, h + [s], s.at)
  {
    TrimmedGrows(c, h, s);
    KeptCrosses(c, h + [s], s.at);
  }

  lemma KeptCrosses(c: Config, h: seq<Sample>, now: int)
    requires Sorted(h) && (h != [] ==> h[|h| - 1].at <= now)
    ensures Trips(c, Kept(c, h, now)) <==> Crosses(c, h, now)
  {
    KeptIsCounted(c, h, now);
  }

  lemma TrimmedIsRecount(c: Config, h: seq<Sample>)
    requires Sorted(h) && h != []
    ensures Trimmed(c, h) == Recount(c, h, h[|h| - 1].at)
  {
    InWindowIsSuffix(c, h, h[|h| - 1].at);
  }

  // ----- How many failures it takes to open --------------------------------------------------

  /** The breaker after a burst of outcomes recorded at one instant. */
  function Burst(c: Config, hz: int, v: View, os: seq<BackendOutcome>, now: int): View {
    if os == [] then v else AfterRecord(c, hz, Burst(c, hz, v, os[..|os| - 1], now), os[|os| - 1], now)
  }

  predicate AllFail(os: seq<BackendOutcome>) {
    forall i :: 0 <= i < |os| ==> !os[i].Success?
  }

  /** The last `n` samples are failures at `now`. */
  ghost predicate FailingTail(ss: seq<Sample>, n: nat, now: int) {
    n <= |ss| <= MAX_SAMPLES && forall i :: |ss| - n <= i < |ss| ==> ss[i].at == now && !ss[i].outcome.Success?
  }

  lemma {:induction false} AllFailing(ss: seq<Sample>)
    requires forall i :: 0 <= i < |ss| ==> !ss[i].outcome.Success?
    ensures Failures(ss) == |ss|
  {
    if ss != [] { AllFailing(ss[1..]); }
  }

  lemma TailGrows(c: Config, ss: seq<Sample>, s: Sample, n: nat)
    requires FailingTail(ss, n, s.at) && !s.outcome.Success?
    ensures FailingTail(Kept(c, ss + [s], s.at), Min(n + 1, MAX_SAMPLES), s.at)
    ensures |ss| == n ==> |Kept(c, ss + [s], s.at)| == Min(n + 1, MAX_SAMPLES)
  {
    var all := ss + [s];
    assert forall i :: |all| - (n + 1) <= i < |all| ==> all[i].at == s.at && !all[i].outcome.Success?;
    assert !Stale(c, all[|all| - (n + 1)], s.at);
    var cut := Cut(c, all, s.at);
    var d := if |all| - cut > MAX_SAMPLES then |all| - MAX_SAMPLES else cut;
    assert Kept(c, all, s.at) == all[d..];
    TailOfSuffix(all, n + 1, d, s.at);
  }

  lemma TailOfSuffix(all: seq<Sample>, m: nat, d: nat, now: int)
    requires d <= |all| <= d + MAX_SAMPLES && m <= |all|
    requires forall i :: |all| - m <= i < |all| ==> all[i].at == now && !all[i].outcome.Success?
    ensures FailingTail(all[d..], Min(m, |all| - d), now)
  {
    forall i | |all| - d - Min(m, |all| - d) <= i < |all| - d
      ensures all[d..][i].at == now && !all[d..][i].outcome.Success?
    {
      assert all[d..][i] == all[i + d];
    }
  }

  lemma RecordFailing(c: Config, hz: int, v: View, o: BackendOutcome, n: nat, now: int)
    requires v.state.Closed? && FailingTail(v.samples, n, now) && !o.Success?
    ensures var v' := AfterRecord(c, hz, v, o, now);
            || v'.state.Open?
            || (v'.state.Closed? && FailingTail(v'.samples, Min(n + 1, MAX_SAMPLES), now)
                && !Trips(c, v'.samples) && (|v.samples| == n ==> |v'.samples| == Min(n + 1, MAX_SAMPLES)))
  {
    TailGrows(c, v.samples, Sample(now, o), n);
  }

  lemma AllFailingTrips(c: Config, ss: seq<Sample>, now: int)
    requires Validate(c) == None && FailingTail(ss, |ss|, now) && |ss| >= c.minRequests
    ensures Trips(c, ss)
  {
    AllFailing(ss);
    assert |ss| * c.failureRatePercent <= |ss| * 100;
  }

  lemma {:induction false} BurstTail(c: Config, hz: int, v: View, os: seq<BackendOutcome>, now: int)
    requires v.state.Closed? && |v.samples| <= MAX_SAMPLES && AllFail(os)
    ensures var b := Burst(c, hz, v, os, now);
            || b.state.Open?
            || (b.state.Closed? && FailingTail(b.samples, Min(|os|, MAX_SAMPLES), now)
                && (os != [] ==> !Trips(c, b.samples))
                && (v.samples == [] ==> |b.samples| == Min(|os|, MAX_SAMPLES)))
  {
    if os != [] {
      BurstTail(c, hz, v, os[..|os| - 1], now);
      var b := Burst(c, hz, v, os[..|os| - 1], now);
      if b.state.Closed? {
        RecordFailing(c, hz, b, os[|os| - 1], Min(|os| - 1, MAX_SAMPLES), now);
      }
    }
  }

  /** For a validated config, 10,000 failures in a row at one instant open any closed breaker. */
  lemma BurstOpens(c: Config, hz: int, v: View, os: seq<BackendOutcome>, now: int)
    requires Validate(c) == None && v.state.Closed? && |v.samples| <= MAX_SAMPLES
    requires AllFail(os) && |os| >= MAX_SAMPLES
    ensures Burst(c, hz, v, os, now).state.Open?
  {
    BurstTail(c, hz, v, os, now);
    var b := Burst(c, hz, v, os, now);
    if b.state.Closed? { AllFailingTrips(c, b.samples, now); }
  }

  /** The sample cap holds in every reachable state. */
  lemma {:induction false} SamplesBounded(c: Config, hz: int, es: seq<Event>)
    ensures |Run(c, hz, es).samples| <= MAX_SAMPLES
  {
    if es != [] { SamplesBounded(c, hz, Front(es)); }
  }

  /** So they open the breaker after any run that left it closed. */
  lemma ReachableBurstOpens(c: Config, hz: int, es: seq<Event>, os: seq<BackendOutcome>, now: int)
    requires Validate(c) == None && Run(c, hz, es).state.Closed? && AllFail(os) && |os| >= MAX_SAMPLES
    ensures Burst(c, hz, Run(c, hz, es), os, now).state.Open?
  {
    SamplesBounded(c, hz, es);
    BurstOpens(c, hz, Run(c, hz, es), os, now);
  }

  /** From an empty window it takes exactly `min_requests` of them. */
  lemma {:induction false} BurstFromEmpty(c: Config, hz: int, v: View, os: seq<BackendOutcome>, now: int)
    requires Validate(c) == None && v.state.Closed? && v.samples == [] && AllFail(os)
    ensures var b := Burst(c, hz, v, os, now);
            if |os| >= c.minRequests then b.state.Open? else b.state.Closed?
  {
    BurstTail(c, hz, v, os, now);
    var b := Burst(c, hz, v, os, now);
    if |os| >= c.minRequests {
      if b.state.Closed? { AllFailingTrips(c, b.samples, now); }
    } else if os != [] {
      BurstFromEmpty(c, hz, v, os[..|os| - 1], now);
      BurstTail(c, hz, v, os[..|os| - 1], now);
    }
  }

  /** With `min_requests` above the sample cap, which validation refuses, no run ever opens it. */
  lemma {:induction false} UnreachableMinimumNeverOpens(c: Config, hz: int, es: seq<Event>)
    requires c.minRequests > MAX_SAMPLES
    ensures Run(c, hz, es).state.Closed?
  {
    if es != [] { UnreachableMinimumNeverOpens(c, hz, Front(es)); }
  }

  // ----- Outages and probes ------------------------------------------------------------------

  /** The current outage: when the breaker opened, how many probes have failed since, and whether
      every retry instant so far could be represented. */
  datatype Outage = Outage(openedAt: int, failed: nat, represented: bool)

  function CurrentOutage(c: Config, hz: int, es: seq<Event>): Option<Outage> {
    if es == [] then None
    else NextOutage(hz, CurrentOutage(c, hz, Front(es)), Run(c, hz, Front(es)).state, Run(c, hz, es), Last(es).now)
  }

  function NextOutage(hz: int, o: Option<Outage>, was: CircuitState, v: View, now: int): Option<Outage> {
    if v.state.Closed? then None
    else if was.Closed? || o.None? then Some(Outage(now, 0, now + v.backoff <= hz))
    else if was.HalfOpen? && v.state.Open? then
      Some(Outage(o.value.openedAt, o.value.failed + 1, o.value.represented && now + v.backoff <= hz))
    else o
  }

  function Pow2(k: nat): nat {
    if k == 0 then 1 else 2 * Pow2(k - 1)
  }

  /** The wait imposed after the `k`-th failed probe. */
  function Backoff(c: Config, k: nat): nat {
    Nanos(Min(c.initialBackoffSecs * Pow2(k), c.maxBackoffSecs))
  }

  /** Every wait so far in an outage with `k` failed probes. */
  function TotalWait(c: Config, k: nat): nat {
    Backoff(c, k) + if k == 0 then 0 else TotalWait(c, k - 1)
  }

  lemma BackoffDoubles(c: Config, k: nat)
    requires Validate(c) == None
    ensures Backoff(c, k + 1) == Min(Min(Backoff(c, k) * 2, DURATION_MAX), Nanos(c.maxBackoffSecs))
  {
    var a, m := c.initialBackoffSecs * Pow2(k), c.maxBackoffSecs;
    assert c.initialBackoffSecs * Pow2(k + 1) == 2 * a;
    assert Nanos(m) * 2 <= DURATION_MAX;
  }

  ghost predicate OutageInv(c: Config, v: View, o: Option<Outage>, now: int) {
    if v.state.Closed? then v.backoff == Backoff(c, 0)
    else
      && o.Some?
      && o.value.openedAt <= now
      && v.backoff == Backoff(c, o.value.failed)
      && v.retryAt.Some?
      && (o.value.represented ==> v.retryAt.value >= o.value.openedAt + TotalWait(c, o.value.failed))
      && (v.state.HalfOpen? ==> now >= v.retryAt.value)
  }

  lemma StepOutageInv(c: Config, hz: int, v: View, o: Option<Outage>, before: int, e: Event)
    requires Validate(c) == None && OutageInv(c, v, o, before) && before <= e.now
    ensures var v' := Step(c, hz, v, e); OutageInv(c, v', NextOutage(hz, o, v.state, v', e.now), e.now)
  {
    assert Backoff(c, 0) == Nanos(c.initialBackoffSecs);
    if v.state.HalfOpen? { BackoffDoubles(c, o.value.failed); }
  }

  lemma {:induction false} RunOutageInv(c: Config, hz: int, es: seq<Event>, now: int)
    requires Validate(c) == None && InTimeOrder(es)
    requires es != [] ==> Last(es).now <= now
    ensures OutageInv(c, Run(c, hz, es), CurrentOutage(c, hz, es), now)
  {
    if es == [] {
      assert Backoff(c, 0) == Nanos(c.initialBackoffSecs);
    } else {
      var front, e := Front(es), Last(es);
      assert front != [] ==> Last(front) == es[|es| - 2];
      RunOutageInv(c, hz, front, e.now);
      StepOutageInv(c, hz, Run(c, hz, front), CurrentOutage(c, hz, front), e.now, e);
      OutageLasts(c, Run(c, hz, es), CurrentOutage(c, hz, es), e.now, now);
    }
  }

  lemma OutageLasts(c: Config, v: View, o: Option<Outage>, before: int, now: int)
    requires OutageInv(c, v, o, before) && before <= now
    ensures OutageInv(c, v, o, now)
  {
  }

  /** For a validated config and events in time order: after `k` failed probes in a row the backoff
      is `min(initial * 2^k, max)`, and, when the retry instants of the outage were representable, a
      probe is granted no earlier than the sum of all backoffs so far after the breaker opened. */
  lemma {:induction false} ProbeWaitsForAllBackoffs(c: Config, hz: int, es: seq<Event>, now: int)
    requires Validate(c) == None && InTimeOrder(es) && !Run(c, hz, es).state.Closed?
    ensures CurrentOutage(c, hz, es).Some?
    ensures Run(c, hz, es).backoff == Backoff(c, CurrentOutage(c, hz, es).value.failed)
    ensures CurrentOutage(c, hz, es).value.represented && ProbeGranted(Run(c, hz, es), now) ==>
              var o := CurrentOutage(c, hz, es).value; now >= o.openedAt + TotalWait(c, o.failed)
  {
    RunOutageInv(c, hz, es, Last(es).now);
  }

  /** An instant that lies a whole `max_backoff_secs` before the last one is always early enough. */
  lemma {:induction false} EarlyEnough(c: Config, hz: int, es: seq<Event>, now: int)
    requires Validate(c) == None && InTimeOrder(es) && (es != [] ==> Last(es).now <= now)
    requires now + Nanos(c.maxBackoffSecs) <= hz
    ensures CurrentOutage(c, hz, es).Some? ==> CurrentOutage(c, hz, es).value.represented
  {
    if es != [] {
      var front := Front(es);
      assert front != [] ==> Last(front) == es[|es| - 2];
      EarlyEnough(c, hz, front, now);
      RunOutageInv(c, hz, es, now);
    }
  }

  /** The failing family. In every validated run in time order whose last event, a record or a failed
      probe, opens the breaker: a probe is due at once if and only if the retry instant cannot be
      represented, and otherwise exactly when the backoff is over. */
  lemma {:induction false} ProbeAtOnceIff(c: Config, hz: int, es: seq<Event>, v: View, now: int)
    requires Validate(c) == None && InTimeOrder(es) && es != [] && v == Run(c, hz, es)
    requires !Run(c, hz, Front(es)).state.Open? && v.state.Open?
    ensures ProbeGranted(v, Last(es).now) <==> Last(es).now + v.backoff > hz
    ensures Last(es).now + v.backoff <= hz ==> (ProbeGranted(v, now) <==> now >= Last(es).now + v.backoff)
  {
    RunOutageInv(c, hz, es, Last(es).now);
    BackoffIsPositive(c, CurrentOutage(c, hz, es).value.failed);
    OpeningSetsRetry(c, hz, Run(c, hz, Front(es)), Last(es));
  }

  lemma RunPrefix(c: Config, hz: int, es: seq<Event>, n: nat)
    requires n < |es|
    ensures Run(c, hz, es[..n + 1]) == Step(c, hz, Run(c, hz, es[..n]), es[n])
  {
    assert Front(es[..n + 1]) == es[..n];
  }

  /** Event `i` opens the breaker, which is open ever since. */
  ghost predicate OpenSince(c: Config, hz: int, es: seq<Event>, i: nat) {
    && i < |es| && !Run(c, hz, es[..i]).state.Open?
    && forall j :: i < j <= |es| ==> Run(c, hz, es[..j]).state.Open?
  }

  /** While it stays open nothing moves its retry instant or its backoff. */
  lemma {:induction false} RetryStays(c: Config, hz: int, es: seq<Event>, i: nat, n: nat)
    requires OpenSince(c, hz, es, i) && i < n <= |es|
    ensures var v := Run(c, hz, es[..n]); v.retryAt == Some(CheckedAdd(hz, es[i].now, v.backoff))
  {
    RunPrefix(c, hz, es, n - 1);
    if n == i + 1 {
      OpeningSetsRetry(c, hz, Run(c, hz, es[..i]), es[i]);
    } else {
      RetryStays(c, hz, es, i, n - 1);
    }
  }

  /** In every run, however long ago event `i` opened the breaker and whatever was recorded since: a
      probe at `now` is granted if and only if the backoff since that event is over, or at once if
      the retry instant cannot be represented. */
  lemma ProbeDueIff(c: Config, hz: int, es: seq<Event>, i: nat, id: nat, now: int)
    requires OpenSince(c, hz, es, i)
    ensures var b := Run(c, hz, es).backoff;
            Run(c, hz, es + [BeginProbe(id, now)]).state.HalfOpen? <==>
              now >= if es[i].now + b <= hz then es[i].now + b else es[i].now
  {
    RetryStays(c, hz, es, i, |es|);
    assert es[..|es|] == es;
    RunSnoc(c, hz, es, BeginProbe(id, now));
  }

  lemma OpeningSetsRetry(c: Config, hz: int, v: View, e: Event)
    requires !v.state.Open? && Step(c, hz, v, e).state.Open?
    ensures var v' := Step(c, hz, v, e); v'.retryAt == Some(CheckedAdd(hz, e.now, v'.backoff))
  {
  }

  lemma {:induction false} Pow2IsPositive(k: nat)
    ensures Pow2(k) > 0
  {
    if k > 0 { Pow2IsPositive(k - 1); }
  }

  lemma BackoffIsPositive(c: Config, k: nat)
    requires Validate(c) == None
    ensures Backoff(c, k) > 0
  {
    Pow2IsPositive(k);
    assert c.initialBackoffSecs * Pow2(k) > 0;
  }

  const STRICT := Config(60, 1, 50, 25, 30, 300)

  /** A run at the last representable instant: one failure opens the breaker, and a probe is granted
      at that same instant, before any backoff. */
  lemma ProbeBeforeBackoff()
    ensures var es := [Record(Failure, 0)];
            && Validate(STRICT) == None && InTimeOrder(es) && !Run(STRICT, 0, es).state.Closed?
            && CurrentOutage(STRICT, 0, es) == Some(Outage(0, 0, false))
            && ProbeGranted(Run(STRICT, 0, es), 0) && 0 < TotalWait(STRICT, 0)
  {
    var es := [Record(Failure, 0)];
    assert Front(es) == [];
    var all := [] + [Sample(0, Failure)];
    assert all == [Sample(0, Failure)] && Cut(STRICT, all, 0) == 0 && all[0..] == all;
    assert all[1..] == [] && Failures(all) == 1;
    assert Pow2(0) == 1;
  }

  /** Probes granted and not yet finished, by identity. */
  function Unfinished(c: Config, hz: int, es: seq<Event>): set<nat> {
    if es == [] then {}
    else
      var before := Unfinished(c, hz, Front(es));
      match Last(es)
      case Record(_, _) => before
      case BeginProbe(id, now) => if ProbeGranted(Run(c, hz, Front(es)), now) then before + {id} else before
      case FinishProbe(id, _, _) => before - {id}
  }

  /** Only a probe that was granted is finished, and only once. */
  predicate Disciplined(c: Config, hz: int, es: seq<Event>) {
    es != [] ==>
      && Disciplined(c, hz, Front(es))
      && (Last(es).FinishProbe? ==> Last(es).id in Unfinished(c, hz, Front(es)))
  }

  /** At most one probe is ever unfinished, there is one exactly while the breaker is half-open, and
      so the report of a granted probe always takes effect. */
  lemma {:induction false} SoleProbe(c: Config, hz: int, es: seq<Event>)
    requires Disciplined(c, hz, es)
    ensures |Unfinished(c, hz, es)| == if Run(c, hz, es).state.HalfOpen? then 1 else 0
    ensures es != [] && Last(es).FinishProbe? ==>
              Run(c, hz, es).state == if Last(es).healthy then Closed else Open
  {
    if es != [] {
      SoleProbe(c, hz, Front(es));
      if Last(es).FinishProbe? { SingletonMinus(Unfinished(c, hz, Front(es)), Last(es).id); }
    }
  }

  lemma SingletonMinus(s: set<nat>, x: nat)
    requires |s| <= 1 && x in s
    ensures s - {x} == {}
  {
    assert |s - {x}| == 0;
  }

  /** Once open, the breaker admits no query before a probe that was granted has reported a healthy
      backend: it is closed again only after a `FinishProbe(true)` arrived while it was half-open. */
  lemma {:induction false} NoQueryBeforeHealthyProbe(c: Config, hz: int, es: seq<Event>, n: nat)
    requires n <= |es| && !Run(c, hz, es[..n]).state.Closed?
    ensures Run(c, hz, es).state.Closed? ==> exists i :: n <= i < |es| && HealthyReport(c, hz, es, i)
  {
    if n == |es| {
      assert es[..n] == es;
    } else {
      var front := Front(es);
      if Run(c, hz, front).state.Closed? {
        assert front[..n] == es[..n];
        NoQueryBeforeHealthyProbe(c, hz, front, n);
        var i :| n <= i < |front| && HealthyReport(c, hz, front, i);
        assert front[..i] == es[..i];
        assert HealthyReport(c, hz, es, i);
      } else if Run(c, hz, es).state.Closed? {
        assert HealthyReport(c, hz, es, |es| - 1);
      }
    }
  }

  /** Event `i` reports a healthy backend while the breaker is half-open. */
  predicate HealthyReport(c: Config, hz: int, es: seq<Event>, i: nat) {
    i < |es| && es[i].FinishProbe? && es[i].healthy && Run(c, hz, es[..i]).state.HalfOpen?
  }
}
