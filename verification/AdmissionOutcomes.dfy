/** What the answer of one call says about the run it was part of, whatever ran beside it. */
module AdmissionOutcomes {
  import opened Wrappers
  import opened AdmissionModel
  import opened AdmissionSafety
  import opened AdmissionGroups
  import CircuitBreaker

  // ----- Evidence gathered along a run -------------------------------------------------------

  predicate Blocked(s: State, m: nat) {
    m < |s.members| && !Willing(s.members[m])
  }

  /** The count read in `a` reaches the limit read in `b`. */
  predicate ReadsFull(a: State, b: State, m: nat) {
    Known(a, m) && m < |b.members| && ValueOf(a, m) >= b.members[m].limit
  }

  ghost predicate SawBlocked(t: seq<State>, i: nat, n: nat, m: nat) {
    exists k: nat :: i <= k <= n < |t| && Blocked(t[k], m)
  }

  ghost predicate SawFull(t: seq<State>, i: nat, n: nat, m: nat) {
    exists j: nat, k: nat :: i <= j <= k <= n < |t| && ReadsFull(t[j], t[k], m)
  }

  ghost predicate RuledOut(t: seq<State>, i: nat, n: nat, m: nat) {
    SawBlocked(t, i, n, m) || SawFull(t, i, n, m)
  }

  ghost predicate SawValue(t: seq<State>, i: nat, n: nat, m: nat, v: nat) {
    exists k: nat :: i <= k <= n < |t| && Known(t[k], m) && ValueOf(t[k], m) == v
  }

  /** In step `k` the call `p`, confirming the slot of member `m` it took at `taken`, makes the check
      of `stage` and it holds. */
  ghost predicate Confirms(t: seq<State>, ls: seq<Label>, k: nat, p: nat, m: nat, taken: nat, stage: Stage) {
    && taken <= k < |ls| < |t| && ls[k].Advance? && ls[k].p == p
    && ConfirmingSlot(t[k], p, m, taken) && t[k].procs[p].stage == stage
    && m < |t[k].members| && IsUp(t[k].members[m], stage)
  }

  /** What the check of `stage` asks of a member. */
  predicate IsUp(m: Member, stage: Stage) {
    match stage
    case AtEnabled => m.enabled
    case AtHealthy => m.healthy
    case _ => m.breaker == None || m.breaker == Some(CircuitBreaker.Closed)
  }

  predicate ConfirmingSlot(s: State, p: nat, m: nat, taken: nat) {
    && p in s.procs && s.procs[p].Confirming? && s.procs[p].taken == taken
    && s.procs[p].queue != [] && s.procs[p].queue[0] == m
  }

  ghost predicate SawEnabled(t: seq<State>, ls: seq<Label>, taken: nat, n: nat, p: nat, m: nat) {
    exists a: nat :: a < n && Confirms(t, ls, a, p, m, taken, AtEnabled)
  }

  ghost predicate SawHealthy(t: seq<State>, ls: seq<Label>, taken: nat, n: nat, p: nat, m: nat) {
    exists b: nat :: b < n && Confirms(t, ls, b, p, m, taken, AtHealthy) && SawEnabled(t, ls, taken, b, p, m)
  }

  /** The three confirming checks of the slot taken at `taken` held, one after the other. */
  ghost predicate SawAll(t: seq<State>, ls: seq<Label>, taken: nat, n: nat, p: nat, m: nat) {
    exists k: nat :: k < n && Confirms(t, ls, k, p, m, taken, AtBreaker) && SawHealthy(t, ls, taken, k, p, m)
  }

  /** Process `p` took a slot of member `m` in the step leading to state `taken`. */
  ghost predicate TookSlot(t: seq<State>, ls: seq<Label>, taken: nat, p: nat, m: nat) {
    && 0 < taken <= |ls| < |t|
    && ls[taken - 1].Advance? && ls[taken - 1].p == p
    && Known(t[taken - 1], m) && EffectOf(t[taken - 1], ls[taken - 1]) == Take(CounterOf(t[taken - 1], m))
  }

  ghost predicate CoveredBy(t: seq<State>, i: nat, n: nat, list: seq<nat>, rest: seq<nat>) {
    forall j :: 0 <= j < |list| ==> list[j] in rest || RuledOut(t, i, n, list[j])
  }

  /** What has been observed on behalf of process `p` by the time state `n` is reached. */
  ghost predicate Story(t: seq<State>, ls: seq<Label>, n: nat, p: nat, proc: Proc)
    requires n < |t| && Fits(t[n], proc)
  {
    match proc
    case Filtering(g, since, i, eligible, stage) =>
      && since <= n
      && CoveredBy(t, since, n, t[n].groups[g][..i], eligible)
      && (stage.AtLimit? ==> SawValue(t, since, n, t[n].groups[g][i], stage.seen))
    case Picking(g, since, eligible) => since <= n && CoveredBy(t, since, n, t[n].groups[g], eligible)
    case Trying(g, since, queue, stage) =>
      && since <= n
      && CoveredBy(t, since, n, t[n].groups[g], queue)
      && (stage.AtLimit? || stage.AtSwap? ==> SawValue(t, since, n, queue[0], stage.seen))
    case Confirming(g, since, queue, taken, stage) =>
      && since <= taken <= n
      && CoveredBy(t, since, n, t[n].groups[g], queue)
      && TookSlot(t, ls, taken, p, queue[0])
      && (stage.AtHealthy? ==> SawEnabled(t, ls, taken, n, p, queue[0]))
      && (stage.AtBreaker? ==> SawHealthy(t, ls, taken, n, p, queue[0]))
    case Undoing(g, since, queue, stage) => since <= n && CoveredBy(t, since, n, t[n].groups[g], queue[1..])
    case Admitted(g, since, m, taken) =>
      && since <= taken <= n
      && TookSlot(t, ls, taken, p, m)
      && SawAll(t, ls, taken, n, p, m)
    case Rejected(g, since) => since <= n && CoveredBy(t, since, n, t[n].groups[g], [])
    case Fetching(m, since, mark) => Marked(t, n, m, since, mark)
    case ReconcileLimit(m, since, mark, _) => Marked(t, n, m, since, mark)
    case ReconcileLoad(m, since, mark, _, _) => Marked(t, n, m, since, mark)
    case ReconcileSwap(m, since, mark, _, _, _) => Marked(t, n, m, since, mark)
    case _ => true
  }

  /** `mark` is the cell of member `m` as it was in state `since`. */
  ghost predicate Marked(t: seq<State>, n: nat, m: nat, since: nat, mark: Counter) {
    since <= n < |t| && Known(t[since], m) && mark == t[since].counters[CounterOf(t[since], m)]
  }

  // ----- Evidence is never lost --------------------------------------------------------------

  lemma CoverageLasts(t: seq<State>, i: nat, n: nat, list: seq<nat>, rest: seq<nat>)
    requires n + 1 < |t| && CoveredBy(t, i, n, list, rest)
    ensures CoveredBy(t, i, n + 1, list, rest)
  {
    forall m | RuledOut(t, i, n, m)
      ensures RuledOut(t, i, n + 1, m)
    {
      if SawBlocked(t, i, n, m) {
        var k: nat :| i <= k <= n && Blocked(t[k], m);
        assert SawBlocked(t, i, n + 1, m);
      } else {
        var j: nat, k: nat :| i <= j <= k <= n && ReadsFull(t[j], t[k], m);
        assert SawFull(t, i, n + 1, m);
      }
    }
  }

  lemma StoryLasts(t: seq<State>, ls: seq<Label>, n: nat, p: nat, proc: Proc)
    requires n + 1 < |t| && Grows(t[n], t[n + 1]) && Fits(t[n], proc) && Fits(t[n + 1], proc)
    requires Story(t, ls, n, p, proc)
    ensures Story(t, ls, n + 1, p, proc)
  {
    match proc
    case Filtering(g, since, i, eligible, stage) => CoverageLasts(t, since, n, t[n].groups[g][..i], eligible);
    case Picking(g, since, eligible) => CoverageLasts(t, since, n, t[n].groups[g], eligible);
    case Trying(g, since, queue, stage) => CoverageLasts(t, since, n, t[n].groups[g], queue);
    case Confirming(g, since, queue, taken, stage) => CoverageLasts(t, since, n, t[n].groups[g], queue);
    case Undoing(g, since, queue, stage) => CoverageLasts(t, since, n, t[n].groups[g], queue[1..]);
    case Rejected(g, since) => CoverageLasts(t, since, n, t[n].groups[g], []);
    case _ =>
  }

  // ----- Each action adds the evidence it should ---------------------------------------------

  lemma FilteringStory(t: seq<State>, ls: seq<Label>, n: nat, p: nat, proc: Proc)
    requires n < |t| && Inv(t[n]) && ProcInv(t[n], proc) && proc.Filtering? && Story(t, ls, n, p, proc)
    requires Fits(t[n], MoveFiltering(t[n], proc))
    ensures Story(t, ls, n, p, MoveFiltering(t[n], proc))
  {
    var Filtering(g, since, i, eligible, stage) := proc;
    var list, m := t[n].groups[g], t[n].groups[g][i];
    assert list[..i + 1] == list[..i] + [m];
    if stage.AtLimit? && stage.seen >= t[n].members[m].limit {
      var k: nat :| since <= k <= n && Known(t[k], m) && ValueOf(t[k], m) == stage.seen;
      assert ReadsFull(t[k], t[n], m);
    } else if stage.AtRunning? {
      assert Known(t[n], m) && ValueOf(t[n], m) == t[n].counters[t[n].members[m].counter].value;
    } else if !stage.AtLimit? && !Passes(t[n].members[m], stage) {
      assert Blocked(t[n], m);
    }
    if i + 1 == |list| { assert list[..i + 1] == list; }
  }

  lemma TryingStory(t: seq<State>, ls: seq<Label>, n: nat, p: nat, proc: Proc, spurious: bool)
    requires n < |t| && Inv(t[n]) && ProcInv(t[n], proc) && proc.Trying? && Story(t, ls, n, p, proc)
    requires var (next, e) := MoveTrying(t[n], proc, spurious); Fits(t[n], next) && e.Silent?
    ensures Story(t, ls, n, p, MoveTrying(t[n], proc, spurious).0)
  {
    var Trying(g, since, queue, stage) := proc;
    var m := queue[0];
    assert queue == [m] + queue[1..];
    if stage.AtLimit? && stage.seen >= t[n].members[m].limit {
      var k: nat :| since <= k <= n && Known(t[k], m) && ValueOf(t[k], m) == stage.seen;
      assert ReadsFull(t[k], t[n], m);
    } else if stage.AtRunning? || stage.AtSwap? {
      assert Known(t[n], m) && ValueOf(t[n], m) == t[n].counters[t[n].members[m].counter].value;
    } else if !stage.AtLimit? && !Passes(t[n].members[m], stage) {
      assert Blocked(t[n], m);
    }
  }

  lemma TakeStory(t: seq<State>, ls: seq<Label>, n: nat, p: nat)
    requires IsRun(t, ls) && n < |ls| && ls[n].Advance? && ls[n].p == p && t[n].clock == n
    requires Inv(t[n]) && p in t[n].procs && ProcInv(t[n], t[n].procs[p])
    requires EffectOf(t[n], ls[n]).Take? && Story(t, ls, n, p, t[n].procs[p])
    requires Fits(t[n + 1], t[n + 1].procs[p])
    ensures Story(t, ls, n + 1, p, t[n + 1].procs[p])
  {
    var Trying(g, since, queue, stage) := t[n].procs[p];
    StepGrows(t[n], ls[n]);
    CoverageLasts(t, since, n, t[n].groups[g], queue);
    assert TookSlot(t, ls, n + 1, p, queue[0]);
  }

  lemma HoldingStory(t: seq<State>, ls: seq<Label>, n: nat, p: nat, proc: Proc, spurious: bool)
    requires n < |t| && Inv(t[n]) && ProcInv(t[n], proc) && (proc.Confirming? || proc.Undoing?)
    requires proc.Confirming? ==> !Passes(t[n].members[proc.queue[0]], proc.stage)
    requires Story(t, ls, n, p, proc) && Fits(t[n], Move(t[n], proc, spurious).0)
    ensures Story(t, ls, n, p, Move(t[n], proc, spurious).0)
  {
    var m := proc.queue[0];
    assert proc.queue == [m] + proc.queue[1..];
    if proc.Confirming? {
      assert Blocked(t[n], m);
      assert SawBlocked(t, proc.since, n, m);
    }
  }

  lemma ConfirmStory(t: seq<State>, ls: seq<Label>, n: nat, p: nat)
    requires IsRun(t, ls) && n < |ls| && ls[n].Advance? && ls[n].p == p
    requires p in t[n].procs && t[n].procs[p].Confirming? && ProcInv(t[n], t[n].procs[p])
    requires Passes(t[n].members[t[n].procs[p].queue[0]], t[n].procs[p].stage)
    requires Story(t, ls, n, p, t[n].procs[p]) && Grows(t[n], t[n + 1])
    requires t[n + 1].procs == t[n].procs[p := Move(t[n], t[n].procs[p], ls[n].spurious).0]
    requires Fits(t[n + 1], t[n + 1].procs[p])
    ensures Story(t, ls, n + 1, p, t[n + 1].procs[p])
  {
    var Confirming(g, since, queue, taken, stage) := t[n].procs[p];
    CoverageLasts(t, since, n, t[n].groups[g], queue);
    assert Confirms(t, ls, n, p, queue[0], taken, stage);
  }

  lemma OthersStory(t: seq<State>, ls: seq<Label>, n: nat, p: nat, proc: Proc, spurious: bool)
    requires n < |t| && ProcInv(t[n], proc) && Story(t, ls, n, p, proc)
    requires !proc.Filtering? && !proc.Trying? && !proc.Confirming? && !proc.Undoing?
    requires Fits(t[n], Move(t[n], proc, spurious).0)
    ensures Story(t, ls, n, p, Move(t[n], proc, spurious).0)
  {
  }

  /** An action that neither takes a slot nor confirms one. */
  lemma MoveStory(t: seq<State>, ls: seq<Label>, n: nat, p: nat, proc: Proc, spurious: bool)
    requires n < |t| && Inv(t[n]) && ProcInv(t[n], proc) && Story(t, ls, n, p, proc)
    requires !Move(t[n], proc, spurious).1.Take? && Fits(t[n], Move(t[n], proc, spurious).0)
    requires proc.Confirming? ==> !Passes(t[n].members[proc.queue[0]], proc.stage)
    ensures Story(t, ls, n, p, Move(t[n], proc, spurious).0)
  {
    if proc.Filtering? { FilteringStory(t, ls, n, p, proc); }
    else if proc.Trying? { TryingStory(t, ls, n, p, proc, spurious); }
    else if proc.Confirming? || proc.Undoing? { HoldingStory(t, ls, n, p, proc, spurious); }
    else { OthersStory(t, ls, n, p, proc, spurious); }
  }

  lemma AdvanceStory(t: seq<State>, ls: seq<Label>, n: nat, p: nat)
    requires IsRun(t, ls) && n < |ls| && ls[n].Advance? && ls[n].p == p && t[n].clock == n && Grows(t[n], t[n + 1])
    requires Inv(t[n]) && p in t[n].procs && ProcInv(t[n], t[n].procs[p]) && Story(t, ls, n, p, t[n].procs[p])
    requires Fits(t[n + 1], t[n + 1].procs[p])
    ensures Story(t, ls, n + 1, p, t[n + 1].procs[p])
  {
    var proc := t[n].procs[p];
    MoveInv(t[n], proc, ls[n].spurious);
    AdvanceShape(t[n], ls[n]);
    if Move(t[n], proc, ls[n].spurious).1.Take? {
      TakeStory(t, ls, n, p);
    } else if proc.Confirming? && Passes(t[n].members[proc.queue[0]], proc.stage) {
      ConfirmStory(t, ls, n, p);
    } else {
      MoveStory(t, ls, n, p, proc, ls[n].spurious);
      StoryLasts(t, ls, n, p, t[n + 1].procs[p]);
    }
  }

  lemma PickStory(t: seq<State>, ls: seq<Label>, n: nat, p: nat, k: nat)
    requires n + 1 < |t| && Grows(t[n], t[n + 1])
    requires p in t[n].procs && t[n].procs[p].Picking? && Fits(t[n], t[n].procs[p]) && Story(t, ls, n, p, t[n].procs[p])
    requires k < |t[n].procs[p].eligible|
    requires var Picking(g, since, eligible) := t[n].procs[p];
             p in t[n + 1].procs && t[n + 1].procs[p] == Trying(g, since, [eligible[k]] + eligible, AtEnabled)
    requires Fits(t[n + 1], t[n + 1].procs[p])
    ensures Story(t, ls, n + 1, p, t[n + 1].procs[p])
  {
    var Picking(g, since, eligible) := t[n].procs[p];
    CoverageLasts(t, since, n, t[n].groups[g], eligible);
  }

  /** A process that a label other than `Advance` relabels. */
  lemma RelabelStory(t: seq<State>, ls: seq<Label>, n: nat, p: nat)
    requires IsRun(t, ls) && n < |ls| && !(ls[n].Advance? && ls[n].p == p)
    requires p in t[n].procs && t[n + 1].procs[p] != t[n].procs[p]
    requires Fits(t[n], t[n].procs[p]) && Story(t, ls, n, p, t[n].procs[p])
    requires Fits(t[n + 1], t[n + 1].procs[p])
    ensures Story(t, ls, n + 1, p, t[n + 1].procs[p])
  {
    assert t[n + 1] == Apply(t[n], ls[n]);
    RelabelShape(t[n], ls[n], p);
    if ls[n].Pick? {
      StepGrows(t[n], ls[n]);
      PickStory(t, ls, n, p, ls[n].k);
    }
  }

  /** A process that a label creates. */
  lemma SpawnStory(t: seq<State>, ls: seq<Label>, n: nat, p: nat)
    requires IsRun(t, ls) && n < |ls| && t[n].clock == n
    requires p !in t[n].procs && p in t[n + 1].procs && Fits(t[n + 1], t[n + 1].procs[p])
    ensures Story(t, ls, n + 1, p, t[n + 1].procs[p])
  {
    assert t[n + 1] == Apply(t[n], ls[n]);
  }

  lemma StepStory(t: seq<State>, ls: seq<Label>, n: nat, p: nat)
    requires IsRun(t, ls) && n < |ls| && t[n].clock == n && Inv(t[n]) && p in t[n + 1].procs
    requires p in t[n].procs ==> ProcInv(t[n], t[n].procs[p]) && Story(t, ls, n, p, t[n].procs[p])
    requires Fits(t[n + 1], t[n + 1].procs[p])
    ensures Story(t, ls, n + 1, p, t[n + 1].procs[p])
  {
    StepOfRunGrows(t, ls, n);
    if p !in t[n].procs {
      SpawnStory(t, ls, n, p);
    } else if ls[n].Advance? && ls[n].p == p {
      AdvanceStory(t, ls, n, p);
    } else if t[n + 1].procs[p] == t[n].procs[p] {
      StoryLasts(t, ls, n, p, t[n].procs[p]);
    } else {
      RelabelStory(t, ls, n, p);
    }
  }

  lemma {:induction false} RunStory(t: seq<State>, ls: seq<Label>, n: nat, p: nat)
    requires IsRun(t, ls) && n < |t| && p in t[n].procs
    ensures ProcInv(t[n], t[n].procs[p]) && Story(t, ls, n, p, t[n].procs[p])
  {
    RunInv(t, ls, n);
    if n > 0 {
      RunInv(t, ls, n - 1);
      if p in t[n - 1].procs { RunStory(t, ls, n - 1, p); }
      StepStory(t, ls, n - 1, p);
    }
  }

  // ----- The answers -------------------------------------------------------------------------

  /** A call that returned member `m` of its group took the member's slot at one step and afterwards
      saw it enabled, then healthy, then let through by its breaker. The three flags are read one
      after the other, so they need not have held at one single moment. */
  lemma AdmittedWasAccepting(t: seq<State>, ls: seq<Label>, n: nat, p: nat)
    requires IsRun(t, ls) && n < |t| && p in t[n].procs && t[n].procs[p].Admitted?
    ensures var Admitted(g, since, m, taken) := t[n].procs[p];
            && g < |t[n].groups| && m in t[n].groups[g]
            && since <= taken <= n
            && TookSlot(t, ls, taken, p, m)
            && SawAll(t, ls, taken, n, p, m)
  {
    RunStory(t, ls, n, p);
    RunFromGroup(t, ls, n);
  }

  /** In particular, in one step after the slot was taken the call itself read the member's breaker and
      found none, or a closed one. */
  lemma AdmittedThroughClosedBreaker(t: seq<State>, ls: seq<Label>, n: nat, p: nat) returns (k: nat)
    requires IsRun(t, ls) && n < |t| && p in t[n].procs && t[n].procs[p].Admitted?
    ensures t[n].procs[p].taken <= k < n && ls[k].Advance? && ls[k].p == p && t[n].procs[p].member < |t[k].members|
    ensures var b := t[k].members[t[n].procs[p].member].breaker; b == None || b == Some(CircuitBreaker.Closed)
  {
    AdmittedWasAccepting(t, ls, n, p);
    var Admitted(_, _, m, taken) := t[n].procs[p];
    k :| k < n && Confirms(t, ls, k, p, m, taken, AtBreaker) && SawHealthy(t, ls, taken, k, p, m);
  }

  /** The member's `flag` did not go down between the read that confirmed it for the slot taken at
      `taken` and the end of that confirmation. */
  ghost predicate StaysUp(t: seq<State>, ls: seq<Label>, n: nat, p: nat, m: nat, taken: nat, flag: Stage) {
    forall i: nat, k: nat ::
      (i <= k < n < |t| && Confirms(t, ls, i, p, m, taken, flag) && ConfirmingSlot(t[k], p, m, taken)) ==>
        m < |t[k].members| && IsUp(t[k].members[m], flag)
  }

  /** If the enabled and the healthy flag stayed up from their confirming reads on, there was a moment
      after the slot was taken at which the member accepted queries. The breaker is read last and
      may change at any time. */
  lemma AdmittedUnlessFlapped(t: seq<State>, ls: seq<Label>, n: nat, p: nat)
    requires IsRun(t, ls) && n < |t| && p in t[n].procs && t[n].procs[p].Admitted?
    requires var Admitted(_, _, m, taken) := t[n].procs[p];
             StaysUp(t, ls, n, p, m, taken, AtEnabled) && StaysUp(t, ls, n, p, m, taken, AtHealthy)
    ensures var Admitted(_, _, m, taken) := t[n].procs[p];
            exists k: nat :: taken <= k <= n && m < |t[k].members| && Willing(t[k].members[m])
  {
    AdmittedWasAccepting(t, ls, n, p);
    var Admitted(_, _, m, taken) := t[n].procs[p];
    var k: nat :| k < n && Confirms(t, ls, k, p, m, taken, AtBreaker) && SawHealthy(t, ls, taken, k, p, m);
    var b: nat :| b < k && Confirms(t, ls, b, p, m, taken, AtHealthy) && SawEnabled(t, ls, taken, b, p, m);
    var a: nat :| a < b && Confirms(t, ls, a, p, m, taken, AtEnabled);
    assert Willing(t[k].members[m]);
  }

  /** A call that returned none has, for every member of the group, seen it refuse queries at some
      moment of the call, or read a count that reached a limit read later in the call. */
  lemma RejectedRuledOutAll(t: seq<State>, ls: seq<Label>, n: nat, p: nat, m: nat)
    requires IsRun(t, ls) && n < |t| && p in t[n].procs && t[n].procs[p].Rejected?
    requires t[n].procs[p].g < |t[n].groups| && m in t[n].groups[t[n].procs[p].g]
    ensures RuledOut(t, t[n].procs[p].since, n, m)
  {
    RunStory(t, ls, n, p);
  }

  /** During `i..n` the limit of `m` was never lowered to or below a count held earlier. */
  ghost predicate NotLoweredBelow(t: seq<State>, i: nat, n: nat, m: nat) {
    forall j: nat, k: nat ::
      (i <= j <= k <= n < |t| && Known(t[j], m) && m < |t[k].members| && t[k].members[m].limit < t[j].members[m].limit) ==>
        ValueOf(t[j], m) < t[k].members[m].limit
  }

  /** If the member's limit was never lowered to or below a count held earlier in the call, the member
      was, at one moment of the call, refusing queries or full. */
  lemma RejectedUnlessLowered(t: seq<State>, ls: seq<Label>, n: nat, p: nat, m: nat)
    requires IsRun(t, ls) && n < |t| && p in t[n].procs && t[n].procs[p].Rejected?
    requires t[n].procs[p].g < |t[n].groups| && m in t[n].groups[t[n].procs[p].g]
    requires NotLoweredBelow(t, t[n].procs[p].since, n, m)
    ensures exists k: nat :: t[n].procs[p].since <= k <= n && (Blocked(t[k], m) || ReadsFull(t[k], t[k], m))
  {
    RejectedRuledOutAll(t, ls, n, p, m);
    var since := t[n].procs[p].since;
    if SawBlocked(t, since, n, m) {
      var k: nat :| since <= k <= n && Blocked(t[k], m);
      assert Blocked(t[k], m);
    } else {
      var j: nat, k: nat :| since <= j <= k <= n && ReadsFull(t[j], t[k], m);
      assert ReadsFull(t[j], t[j], m);
    }
  }

  // ----- Reconciliation ----------------------------------------------------------------------

  /** The successful swap of a reconciler leaves `target` plus every admission, minus every release
      and plus every other correction that took effect on the cell since it was observed, clamped
      to `0..max`, and the reconciler reports the value it stored. */
  lemma ReconcileKeepsConcurrentTraffic(t: seq<State>, ls: seq<Label>, n: nat, p: nat)
    requires IsRun(t, ls) && n < |ls| && ls[n] == Advance(p, false)
    requires p in t[n].procs && t[n].procs[p].ReconcileSwap?
    requires Known(t[n], t[n].procs[p].member) && ValueOf(t[n], t[n].procs[p].member) == t[n].procs[p].seen
    ensures var ReconcileSwap(m, since, mark, target, max, _) := t[n].procs[p];
            && since <= n && Known(t[since], m)
            && var c := CounterOf(t[n], m);
            && c < |t[since].counters| && c < |t[n + 1].counters|
            && var was, now := t[since].counters[c], t[n].counters[c];
            && mark == was
            && t[n + 1].counters[c].value
               == Min(Max(target + (now.admitted - was.admitted) - (now.released - was.released) + (now.drift - was.drift), 0), max)
            && t[n + 1].procs[p] == Reconciled(t[n + 1].counters[c].value)
  {
    RunStory(t, ls, n, p);
    RunInv(t, ls, n);
    var ReconcileSwap(m, since, mark, target, max, seen) := t[n].procs[p];
    RunGrows(t, ls, since, n);
    var c := CounterOf(t[n], m);
    assert CounterInv(t[n].counters[c]) && CounterInv(mark);
    assert EffectOf(t[n], ls[n]) == Correct(c, Adjust(mark.value, target, max, seen));
    assert t[n + 1] == Apply(t[n], ls[n]);
  }
}
