/** The rolling-window circuit breaker of one cluster member. Instants and durations count
    nanoseconds. */
module CircuitBreaker {
  import opened Wrappers

  datatype BackendOutcome = Success | Failure | Timeout

  datatype CircuitState = Closed | Open | HalfOpen

  datatype Sample = Sample(at: int, outcome: BackendOutcome)

  datatype Config = Config(windowSecs: nat, minRequests: nat,
                           failureRatePercent: nat, timeoutRatePercent: nat,
                           initialBackoffSecs: nat, maxBackoffSecs: nat)

  function Nanos(secs: nat): nat {
    secs * 1_000_000_000
  }

  const MAX_SAMPLES: nat := 10_000

  /** `Duration::MAX`, where `saturating_mul` stops. */
  const DURATION_MAX: nat := 0xFFFF_FFFF_FFFF_FFFF * 1_000_000_000 + 999_999_999

  // ----- Config validation -------------------------------------------------------------------

  datatype ConfigError = NotPositive | TooManyRequests | BadRate | BadBackoff | BackoffTooLong

  const MAX_BACKOFF_SECS: nat := 365 * 24 * 60 * 60

  function Validate(c: Config): Option<ConfigError> {
    if c.windowSecs == 0 || c.minRequests == 0 then Some(NotPositive)
    else if c.minRequests > 10_000 then Some(TooManyRequests)
    else if !(1 <= c.failureRatePercent <= 100) || !(1 <= c.timeoutRatePercent <= 100) then Some(BadRate)
    else if c.initialBackoffSecs == 0 || c.maxBackoffSecs < c.initialBackoffSecs then Some(BadBackoff)
    else if c.maxBackoffSecs > MAX_BACKOFF_SECS then Some(BackoffTooLong)
    else None
  }

  lemma AcceptedIff(c: Config)
    ensures Validate(c).None? <==>
              && 1 <= c.windowSecs && 1 <= c.minRequests <= 10_000
              && 1 <= c.failureRatePercent <= 100 && 1 <= c.timeoutRatePercent <= 100
              && 1 <= c.initialBackoffSecs <= c.maxBackoffSecs <= 31_536_000
  {
  }

  // ----- Specification of one operation ------------------------------------------------------

  /** What the breaker remembers, without its running totals. */
  datatype View = View(state: CircuitState, samples: seq<Sample>, retryAt: Option<int>, backoff: nat)

  function Failures(ss: seq<Sample>): nat {
    if ss == [] then 0 else (if ss[0].outcome.Success? then 0 else 1) + Failures(ss[1..])
  }

  function Timeouts(ss: seq<Sample>): nat {
    if ss == [] then 0 else (if ss[0].outcome.Timeout? then 1 else 0) + Timeouts(ss[1..])
  }

  predicate Stale(c: Config, s: Sample, now: int) {
    Max(now - s.at, 0) > Nanos(c.windowSecs)
  }

  /** How many samples at the front are stale. */
  function Cut(c: Config, ss: seq<Sample>, now: int): (k: nat)
    ensures k <= |ss|
    ensures forall i :: 0 <= i < k ==> Stale(c, ss[i], now)
    ensures k < |ss| ==> !Stale(c, ss[k], now)
  {
    if ss == [] || !Stale(c, ss[0], now) then 0 else 1 + Cut(c, ss[1..], now)
  }

  function Newest(ss: seq<Sample>): seq<Sample> {
    if |ss| > MAX_SAMPLES then ss[|ss| - MAX_SAMPLES..] else ss
  }

  /** What is left of the samples at instant `now`. */
  function Kept(c: Config, ss: seq<Sample>, now: int): seq<Sample> {
    Newest(ss[Cut(c, ss, now)..])
  }

  /** The samples cross one of the two rates. */
  predicate Trips(c: Config, ss: seq<Sample>) {
    && |ss| >= c.minRequests
    && (Failures(ss) * 100 >= |ss| * c.failureRatePercent || Timeouts(ss) * 100 >= |ss| * c.timeoutRatePercent)
  }

  function CheckedAdd(horizon: int, now: int, d: nat): int {
    if now + d <= horizon then now + d else now
  }

  function AfterRecord(c: Config, horizon: int, v: View, outcome: BackendOutcome, now: int): View {
    if !v.state.Closed? then v
    else
      var kept := Kept(c, v.samples + [Sample(now, outcome)], now);
      if Trips(c, kept) then View(Open, [], Some(CheckedAdd(horizon, now, v.backoff)), v.backoff)
      else v.(samples := kept)
  }

  predicate ProbeGranted(v: View, now: int) {
    v.state.Open? && v.retryAt.Some? && now >= v.retryAt.value
  }

  function AfterBeginProbe(v: View, now: int): View {
    if ProbeGranted(v, now) then v.(state := HalfOpen) else v
  }

  function AfterFinishProbe(c: Config, horizon: int, v: View, healthy: bool, now: int): View {
    if !v.state.HalfOpen? then v
    else if healthy then View(Closed, [], None, Nanos(c.initialBackoffSecs))
    else
      var backoff := Min(Min(v.backoff * 2, DURATION_MAX), Nanos(c.maxBackoffSecs));
      View(Open, v.samples, Some(CheckedAdd(horizon, now, backoff)), backoff)
  }

  // ----- The breaker -------------------------------------------------------------------------

  class Breaker {
    const config: Config
    /** The last instant the platform can represent. */
    const horizon: int
    var state: CircuitState
    var samples: seq<Sample>
    var failures: nat
    var timeouts: nat
    var retryAt: Option<int>
    var backoff: nat

    ghost predicate Valid()
      reads this
    {
      failures == Failures(samples) && timeouts == Timeouts(samples)
    }

    function Value(): View
      reads this
    {
      View(state, samples, retryAt, backoff)
    }

    constructor (config: Config, horizon: int)
      ensures this.config == config && this.horizon == horizon
      ensures Valid() && Value() == Fresh(config)
    {
      this.config := config;
      this.horizon := horizon;
      state := Closed;
      samples := [];
      failures := 0;
      timeouts := 0;
      retryAt := None;
      backoff := Nanos(config.initialBackoffSecs);
    }

    /** The running totals never go below zero. */
    method EvictOldest()
      requires Valid()
      modifies this`samples, this`failures, this`timeouts
      ensures Valid()
      ensures samples == if old(samples) == [] then [] else old(samples)[1..]
    {
      if samples != [] {
        var sample := samples[0];
        samples := samples[1..];
        failures := failures - if sample.outcome.Success? then 0 else 1;
        timeouts := timeouts - if sample.outcome.Timeout? then 1 else 0;
      }
    }

    /** Forget what has left the window. */
    method EvictStale(now: int)
      requires Valid()
      modifies this`samples, this`failures, this`timeouts
      ensures Valid() && samples == old(samples)[Cut(config, old(samples), now)..]
    {
      ghost var all, d := samples, 0;
      SliceSteps(all, 0);
      while samples != [] && Stale(config, samples[0], now)
        invariant Valid() && d <= |all| && samples == all[d..]
        invariant Cut(config, all, now) == d + Cut(config, samples, now)
        decreases |samples|
      {
        SliceSteps(all, d);
        EvictOldest();
        d := d + 1;
      }
    }

    /** Bound the memory, keeping the most recent evidence. */
    method EvictExcess()
      requires Valid()
      modifies this`samples, this`failures, this`timeouts
      ensures Valid() && samples == Newest(old(samples))
    {
      ghost var all, d := samples, 0;
      SliceSteps(all, 0);
      while |samples| > MAX_SAMPLES
        invariant Valid() && d <= |all| && samples == all[d..]
        invariant d > 0 ==> |all| - d >= MAX_SAMPLES
        decreases |samples|
      {
        SliceSteps(all, d);
        EvictOldest();
        d := d + 1;
      }
    }

    method Append(sample: Sample)
      requires Valid()
      modifies this`samples, this`failures, this`timeouts
      ensures Valid() && samples == old(samples) + [sample]
    {
      AppendTotals(samples, sample);
      samples := samples + [sample];
      failures := failures + if sample.outcome.Success? then 0 else 1;
      timeouts := timeouts + if sample.outcome.Timeout? then 1 else 0;
    }

    /** The rate test, on the running totals. */
    method ExceedsRates() returns (open: bool)
      requires Valid()
      ensures open <==> Trips(config, samples)
    {
      var total := |samples|;
      if total < config.minRequests {
        return false;
      }
      return failures * 100 >= total * config.failureRatePercent || timeouts * 100 >= total * config.timeoutRatePercent;
    }

    method RecordAt(outcome: BackendOutcome, now: int) returns (change: Option<CircuitState>)
      requires Valid()
      modifies this
      ensures Valid()
      ensures Value() == AfterRecord(config, horizon, old(Value()), outcome, now)
      ensures change == if old(state).Closed? && state.Open? then Some(Open) else None
      ensures !old(state).Closed? ==>
                state == old(state) && samples == old(samples) && retryAt == old(retryAt) && backoff == old(backoff)
    {
      if state != Closed {
        return None;
      }
      Append(Sample(now, outcome));
      EvictStale(now);
      EvictExcess();
      var open := ExceedsRates();
      if open {
        state := Open;
        retryAt := Some(CheckedAdd(horizon, now, backoff));
        samples := [];
        failures := 0;
        timeouts := 0;
        return Some(Open);
      }
      return None;
    }

    method BeginProbeAt(now: int) returns (granted: bool)
      requires Valid()
      modifies this`state
      ensures Valid()
      ensures Value() == AfterBeginProbe(old(Value()), now)
      ensures granted <==> old(ProbeGranted(Value(), now))
    {
      if state != Open || retryAt.None? || now < retryAt.value {
        return false;
      }
      state := HalfOpen;
      return true;
    }

    method FinishProbeAt(healthy: bool, now: int) returns (result: CircuitState)
      requires Valid()
      modifies this
      ensures Valid()
      ensures Value() == AfterFinishProbe(config, horizon, old(Value()), healthy, now)
      ensures result == state
      ensures !old(state).HalfOpen? ==>
                state == old(state) && samples == old(samples) && retryAt == old(retryAt) && backoff == old(backoff)
    {
      if state != HalfOpen {
        return state;
      }
      if healthy {
        state := Closed;
        samples := [];
        failures := 0;
        timeouts := 0;
        retryAt := None;
        backoff := Nanos(config.initialBackoffSecs);
      } else {
        state := Open;
        backoff := Min(Min(backoff * 2, DURATION_MAX), Nanos(config.maxBackoffSecs));
        retryAt := Some(CheckedAdd(horizon, now, backoff));
      }
      return state;
    }
  }

  function Fresh(c: Config): View {
    View(Closed, [], None, Nanos(c.initialBackoffSecs))
  }

  lemma SliceSteps(ss: seq<Sample>, d: nat)
    requires d <= |ss|
    ensures d == 0 ==> ss[d..] == ss
    ensures d < |ss| ==> ss[d..][1..] == ss[d + 1..]
  {
  }

  lemma {:induction false} AppendTotals(ss: seq<Sample>, s: Sample)
    ensures Failures(ss + [s]) == Failures(ss) + if s.outcome.Success? then 0 else 1
    ensures Timeouts(ss + [s]) == Timeouts(ss) + if s.outcome.Timeout? then 1 else 0
  {
    if ss != [] {
      assert (ss + [s])[1..] == ss[1..] + [s];
      AppendTotals(ss[1..], s);
    }
  }
}
