/** The built-in selection strategies. Each is handed the eligible candidates of a group and names
    one of them by index. */
module Strategy {
  import opened Wrappers

  datatype Candidate = Candidate(name: string, engine: string, running: nat)

  const TWO32: nat := 0x1_0000_0000

  /** Arithmetic on u32 wraps. */
  function Wrap32(n: nat): (r: nat)
    ensures r < TWO32 && (n < TWO32 ==> r == n)
  {
    n % 0x1_0000_0000
  }

  // ----- Round robin -------------------------------------------------------------------------

  class RoundRobin {
    /** An atomic u64; `fetch_add` wraps. */
    var counter: nat

    method Pick(candidates: seq<Candidate>) returns (r: Option<nat>)
      requires counter < TWO64
      modifies this
      ensures candidates == [] ==> r == None && counter == old(counter)
      ensures candidates != [] ==> r == Some(RoundRobinIndex(old(counter), 0, |candidates|))
      ensures candidates != [] ==> counter == (old(counter) + 1) % TWO64
      ensures r.Some? ==> r.value < |candidates|
    {
      if candidates == [] {
        return None;
      }
      var ticket := counter;
      counter := (counter + 1) % TWO64;
      return Some(ticket % |candidates|);
    }
  }

  /** The index picked `i` calls after the counter stood at `start`, with `n` candidates. */
  function RoundRobinIndex(start: nat, i: nat, n: nat): (k: nat)
    requires n > 0
    ensures k < n
  {
    ((start + i) % TWO64) % n
  }

  /** `n` consecutive picks over `n` candidates choose every candidate exactly once. */
  ghost predicate FairRound(start: nat, n: nat)
    requires n > 0
  {
    forall j: nat :: j < n ==> PickedOnce(start, n, j)
  }

  ghost predicate PickedOnce(start: nat, n: nat, j: nat)
    requires n > 0
  {
    exists i: nat :: Only(start, n, i, j)
  }

  ghost predicate Only(start: nat, n: nat, i: nat, j: nat)
    requires n > 0
  {
    i < n && forall h: nat :: h < n ==> (RoundRobinIndex(start, h, n) == j <==> h == i)
  }

  lemma ModAdd(a: nat, i: nat, n: nat)
    requires 0 < n && i < n
    ensures (a + i) % n == if a % n + i < n then a % n + i else a % n + i - n
  {
    var q, r := a / n, a % n;
    assert a + i == q * n + (r + i);
    if r + i < n {
      ModUnique(a + i, n, q, r + i);
    } else {
      assert a + i == (q + 1) * n + (r + i - n);
      ModUnique(a + i, n, q + 1, r + i - n);
    }
  }

  lemma MulBounds(n: nat, d: int)
    ensures d >= 1 ==> n * d >= n
    ensures d <= -1 ==> n * d <= -(n as int)
  {
  }

  lemma ModUnique(x: nat, n: nat, q: nat, r: nat)
    requires 0 < n && r < n && x == q * n + r
    ensures x % n == r
  {
    var d := x / n - q;
    assert n * d == r - x % n;
    MulBounds(n, d);
  }

  lemma SmallMod(x: nat, n: nat)
    requires x < n
    ensures x % n == x
  {
  }

  /** The index `i` calls later, while the counter has not wrapped. */
  lemma IndexBeforeWrap(start: nat, i: nat, n: nat)
    requires i < n && start + i < TWO64
    ensures RoundRobinIndex(start, i, n) == if start % n + i < n then start % n + i else start % n + i - n
  {
    SmallMod(start + i, TWO64);
    ModAdd(start, i, n);
  }

  /** The index `i` calls later, once the counter has wrapped. */
  lemma IndexAfterWrap(start: nat, i: nat, n: nat)
    requires i < n <= TWO64 && start < TWO64 <= start + i
    ensures RoundRobinIndex(start, i, n) == start + i - TWO64
  {
    assert (start + i) % TWO64 == start + i - TWO64;
    SmallMod(start + i - TWO64, n);
  }

  /** Without wrap-around a round is fair. */
  lemma FairBeforeWrap(start: nat, n: nat)
    requires n > 0 && start + n <= TWO64
    ensures FairRound(start, n)
  {
    forall j: nat | j < n
      ensures PickedOnce(start, n, j)
    {
      var r := start % n;
      var i := if j >= r then j - r else j - r + n;
      forall h: nat | h < n
        ensures RoundRobinIndex(start, h, n) == j <==> h == i
      {
        IndexBeforeWrap(start, h, n);
      }
      assert Only(start, n, i, j);
    }
  }

  /** A round during which the counter wraps, when the number of candidates divides 2^64. */
  lemma FairAcrossWrap(start: nat, n: nat)
    requires 0 < n <= TWO64 && start < TWO64 < start + n && TWO64 % n == 0
    ensures FairRound(start, n)
  {
    var w := TWO64 - start;
    ModAdd(start, w, n);
    forall j: nat | j < n
      ensures PickedOnce(start, n, j)
    {
      var i := if j >= n - w then j - (n - w) else j + w;
      forall h: nat | h < n
        ensures RoundRobinIndex(start, h, n) == j <==> h == i
      {
        if h < w { IndexBeforeWrap(start, h, n); } else { IndexAfterWrap(start, h, n); }
      }
      assert Only(start, n, i, j);
    }
  }

  /** Otherwise the wrap makes the round skip the last candidate or pick the first one twice. */
  lemma UnfairAcrossWrap(start: nat, n: nat)
    requires 0 < n <= TWO64 && start < TWO64 < start + n && TWO64 % n != 0
    ensures !FairRound(start, n)
  {
    var w, s := TWO64 - start, start % n;
    ModAdd(start, w, n);
    if s + w < n {
      forall h: nat | h < n
        ensures RoundRobinIndex(start, h, n) != n - 1
      {
        if h < w { IndexBeforeWrap(start, h, n); } else { IndexAfterWrap(start, h, n); }
      }
      var last := n - 1;
      forall i: nat
        ensures !Only(start, n, i, last)
      {
        assert i < n ==> RoundRobinIndex(start, i, n) != last;
      }
      assert !PickedOnce(start, n, last);
    } else {
      IndexBeforeWrap(start, n - s, n);
      IndexAfterWrap(start, w, n);
      assert !PickedOnce(start, n, 0);
    }
  }

  /** Any `n` consecutive picks over `n` candidates form a permutation exactly when the counter does
      not wrap among them or `n` divides 2^64. */
  lemma RoundRobinFairIff(start: nat, n: nat)
    requires 0 < n <= TWO64 && start < TWO64
    ensures FairRound(start, n) <==> start + n <= TWO64 || TWO64 % n == 0
  {
    if start + n <= TWO64 { FairBeforeWrap(start, n); }
    else if TWO64 % n == 0 { FairAcrossWrap(start, n); }
    else { UnfairAcrossWrap(start, n); }
  }

  // ----- Least loaded, engine affinity -------------------------------------------------------

  predicate Runs(c: Candidate, engine: Option<string>) {
    engine.None? || c.engine == engine.value
  }

  /** The first of the candidates on `engine`, if one is given, with the fewest running queries. */
  ghost predicate FirstLeast(cs: seq<Candidate>, engine: Option<string>, k: nat) {
    && k < |cs| && Runs(cs[k], engine)
    && (forall i :: 0 <= i < |cs| && Runs(cs[i], engine) ==> cs[k].running <= cs[i].running)
    && (forall i :: 0 <= i < k && Runs(cs[i], engine) ==> cs[k].running < cs[i].running)
  }

  method LeastLoaded(cs: seq<Candidate>) returns (r: Option<nat>)
    ensures r.None? <==> cs == []
    ensures r.Some? ==> FirstLeast(cs, None, r.value)
  {
    if cs == [] {
      return None;
    }
    var k := 0;
    for i := 1 to |cs|
      invariant k < i && FirstLeast(cs[..i], None, k)
    {
      if cs[i].running < cs[k].running {
        k := i;
      }
    }
    assert cs[..|cs|] == cs;
    return Some(k);
  }

  predicate Offers(cs: seq<Candidate>, engine: string) {
    exists i :: 0 <= i < |cs| && cs[i].engine == engine
  }

  method LeastOfEngine(cs: seq<Candidate>, engine: string) returns (r: Option<nat>)
    ensures r.None? <==> !Offers(cs, engine)
    ensures r.Some? ==> FirstLeast(cs, Some(engine), r.value)
  {
    r := None;
    for i := 0 to |cs|
      invariant r.None? ==> !Offers(cs[..i], engine)
      invariant r.Some? ==> r.value < i && FirstLeast(cs[..i], Some(engine), r.value)
    {
      if cs[i].engine == engine && (r.None? || cs[i].running < cs[r.value].running) {
        r := Some(i);
      }
    }
    assert cs[..|cs|] == cs;
  }

  /** The pick is the least loaded candidate of the first preferred engine that has a candidate, or
      the first candidate when none has. */
  method EngineAffinity(preference: seq<string>, cs: seq<Candidate>) returns (r: Option<nat>)
    ensures r.None? <==> cs == []
    ensures r.Some? ==> r.value < |cs|
    ensures forall j :: 0 <= j < |preference| && Offers(cs, preference[j])
                        && (forall i :: 0 <= i < j ==> !Offers(cs, preference[i]))
              ==> r.Some? && FirstLeast(cs, Some(preference[j]), r.value)
    ensures cs != [] && (forall j :: 0 <= j < |preference| ==> !Offers(cs, preference[j])) ==> r == Some(0)
  {
    if cs == [] {
      return None;
    }
    for j := 0 to |preference|
      invariant forall i :: 0 <= i < j ==> !Offers(cs, preference[i])
    {
      r := LeastOfEngine(cs, preference[j]);
      if r.Some? {
        return;
      }
    }
    return Some(0);
  }

  // ----- Weighted ----------------------------------------------------------------------------

  function WeightOf(weights: seq<(string, nat)>, name: string): nat {
    if weights == [] then 1
    else if weights[0].0 == name then weights[0].1
    else WeightOf(weights[1..], name)
  }

  /** A listed name has the first weight listed for it. */
  lemma {:induction false} FirstListedWeight(weights: seq<(string, nat)>, name: string, i: nat)
    requires i < |weights| && weights[i].0 == name && forall j :: 0 <= j < i ==> weights[j].0 != name
    ensures WeightOf(weights, name) == weights[i].1
  {
    if i > 0 { FirstListedWeight(weights[1..], name, i - 1); }
  }

  /** A name that is not listed has weight one. */
  lemma {:induction false} UnlistedWeight(weights: seq<(string, nat)>, name: string)
    requires forall i :: 0 <= i < |weights| ==> weights[i].0 != name
    ensures WeightOf(weights, name) == 1
  {
    if weights != [] { UnlistedWeight(weights[1..], name); }
  }

  function Weights(weights: seq<(string, nat)>, cs: seq<Candidate>): seq<nat> {
    seq(|cs|, i requires 0 <= i < |cs| => WeightOf(weights, cs[i].name))
  }

  function Sum(ws: seq<nat>): nat {
    if ws == [] then 0 else Sum(ws[..|ws| - 1]) + ws[|ws| - 1]
  }

  function Running(cs: seq<Candidate>): nat {
    Sum(seq(|cs|, i requires 0 <= i < |cs| => cs[i].running))
  }

  /** The pseudo-random roll below `total`. */
  function Roll(cs: seq<Candidate>, total: nat): (roll: nat)
    requires total > 0
    ensures roll < total
  {
    (Running(cs) + |cs|) * 2654435761 % 0x1_0000_0000_0000_0000 % total
  }

  /** Between two candidates of weight one, each query more that is running moves the pick on. */
  lemma RollOfTwo(cs: seq<Candidate>)
    requires |cs| == 2
    ensures Roll(cs, 2) == Running(cs) % 2
  {
    var x := Running(cs) + 2;
    var q := x * 2654435761 / 0x1_0000_0000_0000_0000;
    assert x * 2654435761 % 0x1_0000_0000_0000_0000 == x + 2 * (x * 1327217880 - q * 0x8000_0000_0000_0000);
  }

  /** What two idle candidates roll for some totals. */
  lemma RollWhenIdle(cs: seq<Candidate>)
    requires |cs| == 2 && cs[0].running == 0 && cs[1].running == 0
    ensures Roll(cs, 3) == 2 && Roll(cs, 5) == 2 && Roll(cs, 100) == 22
  {
    var rs := seq(|cs|, i requires 0 <= i < |cs| => cs[i].running);
    assert rs[..1] == [0] && rs[..1][..0] == [];
    assert Sum(rs[..1]) == 0;
    assert 2 * 2654435761 % 0x1_0000_0000_0000_0000 == 5308871522;
  }

  /** Slot `k` of the line on which the weights are laid end to end contains `roll`. */
  predicate Lands(ws: seq<nat>, roll: nat, k: nat) {
    k < |ws| && Sum(ws[..k]) <= roll < Sum(ws[..k + 1])
  }

  lemma {:induction false} SumMonotone(ws: seq<nat>, i: nat, j: nat)
    requires i <= j <= |ws|
    ensures Sum(ws[..i]) <= Sum(ws[..j])
  {
    if i < j {
      SumMonotone(ws, i, j - 1);
      assert ws[..j][..j - 1] == ws[..j - 1];
    }
  }

  /** Where the first `n` slots end, on u32 that wraps. */
  function End(ws: seq<nat>, n: nat): nat
    requires n <= |ws|
  {
    Wrap32(Sum(ws[..n]))
  }

  /** Slot `k` is the first that ends beyond `roll`. */
  predicate FirstBeyond(ws: seq<nat>, roll: nat, k: nat) {
    k < |ws| && roll < End(ws, k + 1) && forall i :: 0 <= i <= k ==> roll >= End(ws, i)
  }

  /** Without overflow the first slot that ends beyond the roll contains it. */
  lemma FirstBeyondLands(ws: seq<nat>, roll: nat, k: nat)
    requires FirstBeyond(ws, roll, k) && Sum(ws) < TWO32
    ensures Lands(ws, roll, k)
  {
    EndIsSum(ws, k);
    EndIsSum(ws, k + 1);
    assert roll >= End(ws, k);
  }

  lemma EndIsSum(ws: seq<nat>, n: nat)
    requires n <= |ws| && Sum(ws) < TWO32
    ensures End(ws, n) == Sum(ws[..n])
  {
    assert ws[..|ws|] == ws;
    SumMonotone(ws, n, |ws|);
  }

  lemma WrapAdd(a: nat, b: nat)
    ensures Wrap32(Wrap32(a) + b) == Wrap32(a + b)
  {
  }

  lemma EndStep(ws: seq<nat>, n: nat)
    requires n < |ws|
    ensures End(ws, n + 1) == Wrap32(End(ws, n) + ws[n])
  {
    assert ws[..n + 1][..n] == ws[..n];
    WrapAdd(Sum(ws[..n]), ws[n]);
  }

  /** The accumulation loop: for a roll below the wrapped total it always finds a slot. */
  method Accumulate(ws: seq<nat>, roll: nat) returns (k: nat)
    requires ws != []
    ensures k < |ws|
    ensures roll < End(ws, |ws|) ==> FirstBeyond(ws, roll, k)
  {
    var acc: nat := 0;
    for i := 0 to |ws|
      invariant acc == End(ws, i) && forall j :: 0 <= j <= i ==> roll >= End(ws, j)
    {
      EndStep(ws, i);
      acc := Wrap32(acc + ws[i]);
      if roll < acc {
        return i;
      }
    }
    return |ws| - 1;
  }

  lemma WholeEnd(ws: seq<nat>)
    ensures End(ws, |ws|) == Wrap32(Sum(ws))
  {
    assert ws[..|ws|] == ws;
  }

  /** On u32 that wraps. With a total that did not overflow, the slot is the one that contains the
      roll. */
  method Weighted(weights: seq<(string, nat)>, cs: seq<Candidate>) returns (r: Option<nat>)
    ensures r.None? <==> cs == []
    ensures r.Some? ==> r.value < |cs|
    ensures cs != [] && Wrap32(Sum(Weights(weights, cs))) == 0 ==> r == Some(0)
    ensures cs != [] && Wrap32(Sum(Weights(weights, cs))) > 0 ==>
              FirstBeyond(Weights(weights, cs), Roll(cs, Wrap32(Sum(Weights(weights, cs)))), r.value)
    ensures cs != [] && 0 < Sum(Weights(weights, cs)) < TWO32 ==>
              Lands(Weights(weights, cs), Roll(cs, Sum(Weights(weights, cs))), r.value)
  {
    if cs == [] {
      return None;
    }
    var ws := Weights(weights, cs);
    var total := Wrap32(Sum(ws));
    if total == 0 {
      return Some(0);
    }
    WholeEnd(ws);
    var k := Accumulate(ws, Roll(cs, total));
    if Sum(ws) < TWO32 { FirstBeyondLands(ws, Roll(cs, total), k); }
    return Some(k);
  }

  lemma LandsOnce(ws: seq<nat>, roll: nat, j: nat, k: nat)
    requires Lands(ws, roll, j) && Lands(ws, roll, k)
    ensures j == k
  {
    if j < k { SumMonotone(ws, j + 1, k); }
    if k < j { SumMonotone(ws, k + 1, j); }
  }

  function Interval(a: nat, b: nat): (s: set<nat>)
    requires a <= b
    ensures |s| == b - a && forall x :: x in s <==> a <= x < b
  {
    if a == b then {} else Interval(a, b - 1) + {b - 1}
  }

  /** Every roll lands on exactly one candidate, and exactly `w_k` of the `total` rolls land on
      candidate `k`. */
  lemma RollsProportionalToWeights(ws: seq<nat>, k: nat)
    requires k < |ws|
    ensures |set roll | 0 <= roll < Sum(ws) && Lands(ws, roll, k)| == ws[k]
    ensures forall roll: nat, j: nat :: Lands(ws, roll, j) && Lands(ws, roll, k) ==> j == k
  {
    assert ws[..k + 1][..k] == ws[..k] && ws[..|ws|] == ws;
    SumMonotone(ws, k + 1, |ws|);
    assert (set roll | 0 <= roll < Sum(ws) && Lands(ws, roll, k)) == Interval(Sum(ws[..k]), Sum(ws[..k + 1]));
    forall roll: nat, j: nat | Lands(ws, roll, j) && Lands(ws, roll, k)
      ensures j == k
    {
      LandsOnce(ws, roll, j, k);
    }
  }
}
