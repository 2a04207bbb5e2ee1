/** `acquire_cluster` with nothing running beside it. */
module AdmissionSolo {
  import opened Wrappers
  import opened AdmissionModel
  import opened AdmissionSafety
  import CircuitBreaker

  predicate Eligible(s: State, m: nat)
    requires Known(s, m)
  {
    Willing(s.members[m]) && ValueOf(s, m) < s.members[m].limit
  }

  function EligibleOf(s: State, list: seq<nat>): seq<nat>
    requires Exist(s, list)
  {
    if list == [] then []
    else
      var m := list[|list| - 1];
      EligibleOf(s, list[..|list| - 1]) + if Eligible(s, m) then [m] else []
  }

  lemma {:induction false} EligibleOfIsFilter(s: State, list: seq<nat>)
    requires Exist(s, list)
    ensures Exist(s, EligibleOf(s, list))
    ensures forall m :: m in EligibleOf(s, list) <==> m in list && Eligible(s, m)
  {
    if list != [] {
      EligibleOfIsFilter(s, list[..|list| - 1]);
      assert list == list[..|list| - 1] + [list[|list| - 1]];
    }
  }

  /** The first stages of `stage`'s check that have already passed. */
  predicate Passed(m: Member, stage: Stage) {
    match stage
    case AtEnabled => true
    case AtHealthy => m.enabled
    case AtBreaker => m.enabled && m.healthy
    case _ => m.Accepting()
  }

  function PlusOne(s0: State, c: nat): seq<Counter>
    requires c < |s0.counters|
  {
    s0.counters[c := Write(s0.counters[c], Take(c))]
  }

  /** Where the call stands, in terms of the state `s0` in which it started. */
  ghost predicate Doing(s0: State, s: State, p: nat, g: nat)
    requires g < |s0.groups| && Exist(s0, s0.groups[g])
  {
    s.members == s0.members && s.groups == s0.groups && p in s.procs && Stands(s0, s.counters, s.procs[p], g)
  }

  ghost predicate Stands(s0: State, counters: seq<Counter>, proc: Proc, g: nat)
    requires g < |s0.groups| && Exist(s0, s0.groups[g])
  {
    var list := s0.groups[g];
    match proc
    case Filtering(g', _, i, eligible, stage) =>
      && g' == g && i < |list| && eligible == EligibleOf(s0, list[..i]) && counters == s0.counters
      && !stage.AtSwap? && Passed(s0.members[list[i]], stage)
      && (stage.AtLimit? ==> stage.seen == ValueOf(s0, list[i]))
    case Picking(g', _, eligible) =>
      g' == g && eligible == EligibleOf(s0, list) && eligible != [] && counters == s0.counters
    case Trying(g', _, queue, stage) =>
      && g' == g && Exist(s0, queue) && Chosen(s0, queue, list) && counters == s0.counters
      && (stage.AtLimit? || stage.AtSwap? ==> stage.seen == ValueOf(s0, queue[0]))
    case Confirming(g', _, queue, _, stage) =>
      && g' == g && Exist(s0, queue) && Chosen(s0, queue, list)
      && (stage.AtEnabled? || stage.AtHealthy? || stage.AtBreaker?)
      && counters == PlusOne(s0, CounterOf(s0, queue[0]))
    case Admitted(g', _, m, _) =>
      && g' == g && m in list && Known(s0, m) && Eligible(s0, m)
      && counters == PlusOne(s0, CounterOf(s0, m))
    case Rejected(g', _) => g' == g && EligibleOf(s0, list) == [] && counters == s0.counters
    case _ => false
  }

  predicate Chosen(s0: State, queue: seq<nat>, list: seq<nat>)
    requires Exist(s0, queue)
  {
    queue != [] && queue[0] in list && Eligible(s0, queue[0])
  }

  lemma NextEligible(s0: State, list: seq<nat>, i: nat)
    requires Exist(s0, list) && i < |list|
    ensures EligibleOf(s0, list[..i + 1]) == EligibleOf(s0, list[..i]) + if Eligible(s0, list[i]) then [list[i]] else []
    ensures i + 1 == |list| ==> list[..i + 1] == list
  {
    assert list[..i + 1][..i] == list[..i];
  }

  lemma FilteringSolo(s0: State, s: State, proc: Proc, g: nat)
    requires g < |s0.groups| && Exist(s0, s0.groups[g]) && Stands(s0, s.counters, proc, g) && proc.Filtering?
    requires s.members == s0.members && s.groups == s0.groups && Fits(s, proc)
    ensures Stands(s0, s.counters, MoveFiltering(s, proc), g)
  {
    NextEligible(s0, s0.groups[g], proc.i);
  }

  lemma TryingSolo(s0: State, s: State, proc: Proc, g: nat, spurious: bool)
    requires g < |s0.groups| && Exist(s0, s0.groups[g]) && Stands(s0, s.counters, proc, g)
    requires proc.Trying? || proc.Confirming?
    requires s.members == s0.members && s.groups == s0.groups && Fits(s, proc)
    ensures var (next, e) := Move(s, proc, spurious); Stands(s0, WriteAll(s, e), next, g)
  {
    assert Known(s0, proc.queue[0]);
  }

  lemma StandingFits(s0: State, s: State, p: nat, g: nat)
    requires g < |s0.groups| && Exist(s0, s0.groups[g]) && Doing(s0, s, p, g) && !Finished(s.procs[p])
    ensures Fits(s, s.procs[p])
  {
    var proc := s.procs[p];
    if proc.Filtering? {
      EligibleOfIsFilter(s0, s0.groups[g][..proc.i]);
    } else if proc.Picking? {
      EligibleOfIsFilter(s0, s0.groups[g]);
    } else {
      assert Exist(s, proc.queue);
    }
  }

  lemma AdvanceSolo(s0: State, s: State, p: nat, g: nat, spurious: bool)
    requires g < |s0.groups| && Exist(s0, s0.groups[g]) && Doing(s0, s, p, g)
    ensures Doing(s0, Apply(s, Advance(p, spurious)), p, g)
  {
    var proc := s.procs[p];
    if !Finished(proc) {
      StandingFits(s0, s, p, g);
      AdvanceShape(s, Advance(p, spurious));
      if proc.Filtering? {
        FilteringSolo(s0, s, proc, g);
      } else if !proc.Picking? {
        TryingSolo(s0, s, proc, g, spurious);
      }
    }
  }

  lemma PickSolo(s0: State, s: State, p: nat, g: nat, k: nat)
    requires g < |s0.groups| && Exist(s0, s0.groups[g]) && Doing(s0, s, p, g)
    ensures Doing(s0, Apply(s, Pick(p, k)), p, g)
  {
    EligibleOfIsFilter(s0, s0.groups[g]);
  }

  predicate Finished(proc: Proc) {
    proc.Admitted? || proc.Rejected?
  }

  /** A call on group `g` by process `p`, run alone from the moment it starts in `t[0]`. */
  ghost predicate IsSolo(t: seq<State>, ls: seq<Label>, p: nat, g: nat) {
    && |t| == |ls| + 1
    && g < |t[0].groups| && Exist(t[0], t[0].groups[g])
    && p in t[0].procs && t[0].procs[p] == Scan(t[0], g, t[0].clock, 0, [])
    && forall i :: 0 <= i < |ls| ==> (ls[i].Advance? || ls[i].Pick?) && ls[i].p == p && t[i + 1] == Apply(t[i], ls[i])
  }

  lemma {:induction false} SoloInv(t: seq<State>, ls: seq<Label>, p: nat, g: nat, n: nat)
    requires IsSolo(t, ls, p, g) && n < |t|
    ensures Doing(t[0], t[n], p, g)
  {
    if n == 0 {
      assert t[0].groups[g][..0] == [];
      assert t[0].groups[g] == [] ==> EligibleOf(t[0], t[0].groups[g]) == [];
    } else {
      SoloInv(t, ls, p, g, n - 1);
      if ls[n - 1].Advance? {
        AdvanceSolo(t[0], t[n - 1], p, g, ls[n - 1].spurious);
      } else {
        PickSolo(t[0], t[n - 1], p, g, ls[n - 1].k);
      }
    }
  }

  /** Run alone, a finished call returned none exactly when no member was enabled, healthy, let
      through by its breaker and under its limit; otherwise it returned such a member and its count
      is the only thing that changed, by one. */
  lemma SoloAcquire(t: seq<State>, ls: seq<Label>, p: nat, g: nat, n: nat)
    requires IsSolo(t, ls, p, g) && n < |t| && p in t[n].procs && Finished(t[n].procs[p])
    ensures t[n].procs[p].Rejected? <==> forall m :: m in t[0].groups[g] ==> !Eligible(t[0], m)
    ensures t[n].procs[p].Rejected? ==> t[n].counters == t[0].counters
    ensures t[n].procs[p].Admitted? ==>
              var m := t[n].procs[p].member;
              && m in t[0].groups[g] && Eligible(t[0], m)
              && t[n].counters == PlusOne(t[0], CounterOf(t[0], m))
  {
    SoloInv(t, ls, p, g, n);
    EligibleOfIsFilter(t[0], t[0].groups[g]);
  }

  /** Said of the fields: none exactly when every member is disabled, unhealthy, has an open or a
      half-open breaker, or has a count at or above its limit. */
  lemma SoloNoneIff(t: seq<State>, ls: seq<Label>, p: nat, g: nat, n: nat)
    requires IsSolo(t, ls, p, g) && n < |t| && p in t[n].procs && Finished(t[n].procs[p])
    ensures t[n].procs[p].Rejected? <==>
              forall m :: m in t[0].groups[g] ==> Refuses(t[0].members[m], t[0].counters[t[0].members[m].counter].value)
  {
    SoloAcquire(t, ls, p, g, n);
    forall m | m in t[0].groups[g]
      ensures Refuses(t[0].members[m], ValueOf(t[0], m)) <==> !Eligible(t[0], m)
    {
      RefusesIff(t[0].members[m], ValueOf(t[0], m));
    }
  }

  predicate Refuses(m: Member, count: nat) {
    || !m.enabled || !m.healthy
    || m.breaker == Some(CircuitBreaker.Open) || m.breaker == Some(CircuitBreaker.HalfOpen)
    || count >= m.limit
  }

  lemma RefusesIff(m: Member, count: nat)
    ensures Refuses(m, count) <==> !(Willing(m) && count < m.limit)
  {
    if m.breaker.Some? {
      match m.breaker.value
      case Closed =>
      case Open =>
      case HalfOpen =>
    }
  }

  function StageIndex(stage: Stage): nat {
    match stage
    case AtEnabled => 0
    case AtHealthy => 1
    case AtBreaker => 2
    case AtRunning => 3
    case AtLimit(_) => 4
    case AtSwap(_) => 5
  }

  /** Actions left in a call that runs alone and meets no spurious failure. */
  function Left(s: State, proc: Proc): nat {
    match proc
    case Filtering(g, _, i, _, stage) =>
      if g < |s.groups| && i < |s.groups[g]| then 5 * (|s.groups[g]| - i) + 15 - StageIndex(stage) else 0
    case Picking(_, _, _) => 10
    case Trying(_, _, _, stage) => 9 - StageIndex(stage)
    case Confirming(_, _, _, _, stage) => if StageIndex(stage) <= 3 then 3 - StageIndex(stage) else 0
    case _ => 0
  }

  /** The next action of an unfinished call, not failing spuriously. */
  predicate Effective(proc: Proc, l: Label, p: nat) {
    if proc.Picking? then l.Pick? && l.p == p && l.k < |proc.eligible| else l == Advance(p, false)
  }

  /** Run alone and without spurious failures, every action brings the call closer to an answer. */
  lemma SoloProgress(s0: State, s: State, p: nat, g: nat, l: Label)
    requires g < |s0.groups| && Exist(s0, s0.groups[g]) && Doing(s0, s, p, g) && !Finished(s.procs[p])
    requires Effective(s.procs[p], l, p)
    ensures p in Apply(s, l).procs && Left(Apply(s, l), Apply(s, l).procs[p]) < Left(s, s.procs[p])
  {
    StandingFits(s0, s, p, g);
    if !s.procs[p].Picking? { AdvanceShape(s, Advance(p, false)); }
  }

  /** Run alone and without spurious failures, a call has answered after at most `Left` actions: five
      for each member of the group and fifteen more. */
  lemma {:induction false} SoloFinishes(t: seq<State>, ls: seq<Label>, p: nat, g: nat, n: nat)
    requires IsSolo(t, ls, p, g) && n < |t|
    requires forall i :: 0 <= i < n && p in t[i].procs && !Finished(t[i].procs[p]) ==> Effective(t[i].procs[p], ls[i], p)
    ensures p in t[n].procs && (Finished(t[n].procs[p]) || Left(t[n], t[n].procs[p]) + n <= Left(t[0], t[0].procs[p]))
    ensures n >= Left(t[0], t[0].procs[p]) ==> Finished(t[n].procs[p])
  {
    SoloInv(t, ls, p, g, n);
    if n > 0 {
      SoloInv(t, ls, p, g, n - 1);
      SoloFinishes(t, ls, p, g, n - 1);
      var s, l := t[n - 1], ls[n - 1];
      if Finished(s.procs[p]) {
        FinishedStays(s, l, p);
      } else {
        SoloProgress(t[0], s, p, g, l);
      }
    }
    LeftIsPositive(t[0], t[n], p, g);
  }

  lemma FinishedStays(s: State, l: Label, p: nat)
    requires p in s.procs && Finished(s.procs[p]) && (l.Advance? || l.Pick?)
    ensures p in Apply(s, l).procs && (l.p == p ==> Apply(s, l).procs[p] == s.procs[p])
  {
  }

  lemma LeftIsPositive(s0: State, s: State, p: nat, g: nat)
    requires g < |s0.groups| && Exist(s0, s0.groups[g]) && Doing(s0, s, p, g)
    ensures Finished(s.procs[p]) || Left(s, s.procs[p]) > 0
  {
  }

  // ----- The strategy's pick is the answer ---------------------------------------------------

  /** The member a call has settled on. */
  function Settled(proc: Proc): Option<nat> {
    match proc
    case Trying(_, _, queue, _) => if queue == [] then None else Some(queue[0])
    case Confirming(_, _, queue, _, _) => if queue == [] then None else Some(queue[0])
    case Admitted(_, _, m, _) => Some(m)
    case _ => None
  }

  /** Run alone, a call stays with the member that was picked. */
  lemma SettledStays(s0: State, s: State, p: nat, g: nat, l: Label)
    requires g < |s0.groups| && Exist(s0, s0.groups[g]) && Doing(s0, s, p, g) && Settled(s.procs[p]).Some?
    requires (l.Advance? || l.Pick?) && l.p == p
    ensures p in Apply(s, l).procs && Settled(Apply(s, l).procs[p]) == Settled(s.procs[p])
  {
    if Finished(s.procs[p]) {
      FinishedStays(s, l, p);
    } else {
      StandingFits(s0, s, p, g);
      assert Known(s0, s.procs[p].queue[0]);
      if l.Advance? { AdvanceShape(s, l); }
    }
  }

  lemma AdvanceUnsettled(s0: State, s: State, p: nat, g: nat, spurious: bool)
    requires g < |s0.groups| && Exist(s0, s0.groups[g]) && Doing(s0, s, p, g) && Settled(s.procs[p]).None?
    ensures p in Apply(s, Advance(p, spurious)).procs && Settled(Apply(s, Advance(p, spurious)).procs[p]).None?
  {
    if Finished(s.procs[p]) {
      FinishedStays(s, Advance(p, spurious), p);
    } else {
      StandingFits(s0, s, p, g);
      AdvanceShape(s, Advance(p, spurious));
    }
  }

  lemma PickSettles(s0: State, s: State, p: nat, g: nat, k: nat)
    requires g < |s0.groups| && Exist(s0, s0.groups[g]) && Doing(s0, s, p, g) && Settled(s.procs[p]).None?
    requires p in Apply(s, Pick(p, k)).procs && Settled(Apply(s, Pick(p, k)).procs[p]).Some?
    ensures k < |EligibleOf(s0, s0.groups[g])|
    ensures Settled(Apply(s, Pick(p, k)).procs[p]) == Some(EligibleOf(s0, s0.groups[g])[k])
  {
  }

  /** Step `i` picked member `m` out of the eligible ones. */
  ghost predicate PickedAt(t: seq<State>, ls: seq<Label>, g: nat, i: nat, m: nat)
    requires |t| > 0 && g < |t[0].groups| && Exist(t[0], t[0].groups[g])
  {
    var eligible := EligibleOf(t[0], t[0].groups[g]);
    i < |ls| && ls[i].Pick? && ls[i].k < |eligible| && eligible[ls[i].k] == m
  }

  /** After step `k` the call stands by the member it had settled on, or settles on one picked now. */
  ghost predicate SettledSince(t: seq<State>, ls: seq<Label>, p: nat, g: nat, k: nat)
    requires |t| > 0 && g < |t[0].groups| && Exist(t[0], t[0].groups[g])
  {
    k + 1 < |t| && p in t[k + 1].procs && Settled(t[k + 1].procs[p]).Some? ==>
      || (p in t[k].procs && Settled(t[k].procs[p]) == Settled(t[k + 1].procs[p]))
      || PickedAt(t, ls, g, k, Settled(t[k + 1].procs[p]).value)
  }

  lemma SoloSettles(t: seq<State>, ls: seq<Label>, p: nat, g: nat, k: nat)
    requires IsSolo(t, ls, p, g)
    ensures SettledSince(t, ls, p, g, k)
  {
    if k < |ls| {
      SoloInv(t, ls, p, g, k);
      if Settled(t[k].procs[p]).Some? {
        SettledStays(t[0], t[k], p, g, ls[k]);
      } else if ls[k].Advance? {
        AdvanceUnsettled(t[0], t[k], p, g, ls[k].spurious);
      } else if p in t[k + 1].procs && Settled(t[k + 1].procs[p]).Some? {
        PickSettles(t[0], t[k], p, g, ls[k].k);
      }
    }
  }

  lemma {:induction false} PickedBefore(t: seq<State>, ls: seq<Label>, p: nat, g: nat, n: nat) returns (i: nat)
    requires n < |t| && g < |t[0].groups| && Exist(t[0], t[0].groups[g]) && forall k: nat :: SettledSince(t, ls, p, g, k)
    requires p in t[n].procs && Settled(t[n].procs[p]).Some? && (p in t[0].procs ==> Settled(t[0].procs[p]).None?)
    ensures i < n && PickedAt(t, ls, g, i, Settled(t[n].procs[p]).value)
  {
    assert SettledSince(t, ls, p, g, n - 1);
    i := n - 1;
    if p in t[n - 1].procs && Settled(t[n - 1].procs[p]) == Settled(t[n].procs[p]) {
      i := PickedBefore(t, ls, p, g, n - 1);
    }
  }

  /** Run alone, the member a call ends up with is the one the strategy picked. */
  lemma SoloTakesPicked(t: seq<State>, ls: seq<Label>, p: nat, g: nat, n: nat) returns (i: nat)
    requires IsSolo(t, ls, p, g) && n < |t| && p in t[n].procs && Settled(t[n].procs[p]).Some?
    ensures i < n && PickedAt(t, ls, g, i, Settled(t[n].procs[p]).value)
  {
    forall k: nat ensures SettledSince(t, ls, p, g, k) { SoloSettles(t, ls, p, g, k); }
    i := PickedBefore(t, ls, p, g, n);
  }

  lemma {:induction false} FirstEligible(s: State, list: seq<nat>) returns (j: nat)
    requires Exist(s, list) && EligibleOf(s, list) != []
    ensures j < |list| && list[j] == EligibleOf(s, list)[0] && Eligible(s, list[j])
    ensures forall i :: 0 <= i < j ==> !Eligible(s, list[i])
  {
    var front := list[..|list| - 1];
    if EligibleOf(s, front) != [] {
      j := FirstEligible(s, front);
    } else {
      j := |list| - 1;
      EligibleOfIsFilter(s, front);
      assert forall i :: 0 <= i < j ==> list[i] in front;
    }
  }

  /** With the failover strategy, which always picks the first candidate, a call that runs alone is
      admitted to the first eligible member in group order. */
  lemma FailoverTakesFirst(t: seq<State>, ls: seq<Label>, p: nat, g: nat, n: nat) returns (j: nat)
    requires IsSolo(t, ls, p, g) && n < |t| && p in t[n].procs && t[n].procs[p].Admitted?
    requires forall i :: 0 <= i < |ls| && ls[i].Pick? ==> ls[i].k == 0
    ensures j < |t[0].groups[g]| && t[n].procs[p].member == t[0].groups[g][j] && Eligible(t[0], t[0].groups[g][j])
    ensures forall i :: 0 <= i < j ==> !Eligible(t[0], t[0].groups[g][i])
  {
    var i := SoloTakesPicked(t, ls, p, g, n);
    j := FirstEligible(t[0], t[0].groups[g]);
  }
}
