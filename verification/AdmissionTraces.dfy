/** Paths given by their labels: calls and releases that run undisturbed on a group with one member. */
module AdmissionTraces {
  import opened Wrappers
  import opened AdmissionModel
  import opened AdmissionSafety

  ghost predicate IsPath(P: State -> bool, xs: seq<State>, s: State, ls: seq<Label>) {
    && |xs| == |ls| + 1 && xs[0] == s && (forall i :: 0 <= i < |ls| ==> xs[i + 1] == Apply(xs[i], ls[i]))
    && (forall i :: 0 <= i <= |ls| ==> P(xs[i]))
  }

  /** The labels lead from `s` to `s'` through states in which `P` holds. */
  ghost predicate Leads(P: State -> bool, s: State, ls: seq<Label>, s': State) {
    exists xs: seq<State> :: IsPath(P, xs, s, ls) && xs[|ls|] == s'
  }

  lemma Stay(P: State -> bool, s: State)
    requires P(s)
    ensures Leads(P, s, [], s)
  {
    assert IsPath(P, [s], s, []);
  }

  /** One more step. */
  lemma Then(P: State -> bool, s: State, ls: seq<Label>, x: State, l: Label, y: State)
    requires Leads(P, s, ls, x) && Apply(x, l) == y && P(y)
    ensures Leads(P, s, ls + [l], y)
  {
    var xs :| IsPath(P, xs, s, ls) && xs[|ls|] == x;
    assert IsPath(P, xs + [y], s, ls + [l]);
  }

  lemma First(P: State -> bool, x: State, l: Label, y: State)
    requires Apply(x, l) == y && P(x) && P(y)
    ensures Leads(P, x, [l], y)
  {
    Stay(P, x);
    Then(P, x, [], x, l, y);
    assert [] + [l] == [l];
  }

  /** One path after the other. */
  lemma Both(P: State -> bool, s: State, a: seq<Label>, x: State, b: seq<Label>, y: State)
    requires Leads(P, s, a, x) && Leads(P, x, b, y)
    ensures Leads(P, s, a + b, y)
  {
    var xs :| IsPath(P, xs, s, a) && xs[|a|] == x;
    var ys :| IsPath(P, ys, x, b) && ys[|b|] == y;
    Joined(P, xs, s, a, ys, b);
  }

  lemma Joined(P: State -> bool, xs: seq<State>, s: State, a: seq<Label>, ys: seq<State>, b: seq<Label>)
    requires IsPath(P, xs, s, a) && IsPath(P, ys, xs[|a|], b)
    ensures IsPath(P, xs + ys[1..], s, a + b) && (xs + ys[1..])[|a + b|] == ys[|b|]
  {
    var zs := xs + ys[1..];
    forall i | 0 <= i < |a + b|
      ensures zs[i + 1] == Apply(zs[i], (a + b)[i])
    {
      if i >= |a| { assert ys[i - |a| + 1] == Apply(ys[i - |a|], b[i - |a|]); }
    }
  }

  function Any(s: State): bool {
    true
  }

  /** A run made of two paths; along the second, `P` holds. */
  lemma RunThrough(P: State -> bool, a: seq<Label>, x: State, b: seq<Label>, y: State) returns (t: seq<State>)
    requires Leads(Any, INIT, a, x) && Leads(P, x, b, y)
    ensures IsRun(t, a + b) && t[|a|] == x && t[|a + b|] == y
    ensures forall k :: |a| <= k <= |a + b| ==> P(t[k])
  {
    var xs :| IsPath(Any, xs, INIT, a) && xs[|a|] == x;
    var ys :| IsPath(P, ys, x, b) && ys[|b|] == y;
    assert IsPath(Any, ys, x, b);
    Joined(Any, xs, INIT, a, ys, b);
    t := xs + ys[1..];
  }

  // ----- One process moving, everything else at rest -----------------------------------------

  /** The state with process `p` at `proc`, `k` steps later. */
  function Put(s: State, p: nat, proc: Proc, k: nat): State {
    s.(procs := s.procs[p := proc], clock := s.clock + k)
  }

  lemma PutPut(s: State, p: nat, a: Proc, i: nat, b: Proc, j: nat)
    ensures Put(Put(s, p, a, i), p, b, j) == Put(s, p, b, i + j)
  {
    assert s.procs[p := a][p := b] == s.procs[p := b];
  }

  function Go(p: nat): Label {
    Advance(p, false)
  }

  /** An action that writes nothing. */
  lemma SilentStep(s: State, p: nat, proc: Proc, next: Proc, k: nat)
    requires Fits(Put(s, p, proc, k), proc) && Move(Put(s, p, proc, k), proc, false) == (next, Silent)
    ensures Apply(Put(s, p, proc, k), Go(p)) == Put(s, p, next, k + 1)
  {
    AdvanceShape(Put(s, p, proc, k), Go(p));
    PutPut(s, p, proc, k, next, 1);
  }

  predicate Sole(s: State, g: nat, m: nat) {
    g < |s.groups| && s.groups[g] == [m] && Known(s, m) && s.members[m].Accepting()
  }

  function NextRead(stage: Stage, v: nat): Stage {
    match stage
    case AtRunning => AtLimit(v)
    case AtLimit(seen) => AtSwap(seen)
    case AtSwap(seen) => AtSwap(seen)
    case _ => After(stage)
  }

  function Filter(g: nat, since: nat, stage: Stage): Proc {
    Filtering(g, since, 0, [], stage)
  }

  function Try(g: nat, since: nat, m: nat, stage: Stage): Proc {
    Trying(g, since, [m, m], stage)
  }

  function Confirm(g: nat, since: nat, m: nat, taken: nat, stage: Stage): Proc {
    Confirming(g, since, [m, m], taken, stage)
  }

  lemma BeginStep(s: State, p: nat, g: nat, m: nat)
    requires Sole(s, g, m) && p !in s.procs
    ensures Apply(s, BeginAcquire(p, g)) == Put(s, p, Filter(g, s.clock, AtEnabled), 1)
  {
  }

  /** One read of the filter. */
  lemma FilterStep(s: State, p: nat, g: nat, since: nat, m: nat, stage: Stage, k: nat)
    requires Sole(s, g, m) && !stage.AtSwap? && !stage.AtLimit?
    ensures Apply(Put(s, p, Filter(g, since, stage), k), Go(p)) == Put(s, p, Filter(g, since, NextRead(stage, ValueOf(s, m))), k + 1)
  {
    SilentStep(s, p, Filter(g, since, stage), Filter(g, since, NextRead(stage, ValueOf(s, m))), k);
  }

  function Compared(s: State, g: nat, since: nat, m: nat, v: nat): Proc
    requires Known(s, m)
  {
    if v >= s.members[m].limit then Rejected(g, since) else Picking(g, since, [m])
  }

  /** The comparison with the limit, which ends the filter. */
  lemma LimitStep(s: State, p: nat, g: nat, since: nat, m: nat, v: nat, k: nat)
    requires g < |s.groups| && s.groups[g] == [m] && Known(s, m)
    ensures Apply(Put(s, p, Filter(g, since, AtLimit(v)), k), Go(p)) == Put(s, p, Compared(s, g, since, m, v), k + 1)
  {
    assert [] + [m] == [m];
    SilentStep(s, p, Filter(g, since, AtLimit(v)), Compared(s, g, since, m, v), k);
  }

  lemma PickStep(s: State, p: nat, g: nat, since: nat, m: nat, k: nat)
    ensures Apply(Put(s, p, Picking(g, since, [m]), k), Pick(p, 0)) == Put(s, p, Try(g, since, m, AtEnabled), k + 1)
  {
    assert [m] + [m] == [m, m];
    PutPut(s, p, Picking(g, since, [m]), k, Try(g, since, m, AtEnabled), 1);
  }

  /** One read of an attempt. */
  lemma TryStep(s: State, p: nat, g: nat, since: nat, m: nat, stage: Stage, k: nat)
    requires Sole(s, g, m) && !stage.AtSwap? && (stage.AtLimit? ==> stage.seen < s.members[m].limit)
    ensures Apply(Put(s, p, Try(g, since, m, stage), k), Go(p)) == Put(s, p, Try(g, since, m, NextRead(stage, ValueOf(s, m))), k + 1)
  {
    SilentStep(s, p, Try(g, since, m, stage), Try(g, since, m, NextRead(stage, ValueOf(s, m))), k);
  }

  /** One more slot of `m` handed out. */
  function Taken(s: State, m: nat): State
    requires Known(s, m)
  {
    s.(counters := s.counters[CounterOf(s, m) := Write(s.counters[CounterOf(s, m)], Take(CounterOf(s, m)))])
  }

  /** The successful exchange. */
  lemma TakeStep(s: State, p: nat, g: nat, since: nat, m: nat, k: nat)
    requires g < |s.groups| && Known(s, m)
    ensures Apply(Put(s, p, Try(g, since, m, AtSwap(ValueOf(s, m))), k), Go(p))
         == Put(Taken(s, m), p, Confirm(g, since, m, s.clock + k + 1, AtEnabled), k + 1)
  {
    var proc := Try(g, since, m, AtSwap(ValueOf(s, m)));
    AdvanceShape(Put(s, p, proc, k), Go(p));
    PutPut(s, p, proc, k, Confirm(g, since, m, s.clock + k + 1, AtEnabled), 1);
  }

  function Confirmed(g: nat, since: nat, m: nat, taken: nat, stage: Stage): Proc {
    if stage.AtBreaker? then Admitted(g, since, m, taken) else Confirm(g, since, m, taken, After(stage))
  }

  /** One confirming read that holds. */
  lemma ConfirmStep(s: State, p: nat, g: nat, since: nat, m: nat, taken: nat, stage: Stage, k: nat)
    requires g < |s.groups| && Known(s, m) && Passes(s.members[m], stage)
    ensures Apply(Put(s, p, Confirm(g, since, m, taken, stage), k), Go(p)) == Put(s, p, Confirmed(g, since, m, taken, stage), k + 1)
  {
    SilentStep(s, p, Confirm(g, since, m, taken, stage), Confirmed(g, since, m, taken, stage), k);
  }

  // ----- A call ------------------------------------------------------------------------------

  /** A call up to the comparison of the count with the limit, in its filter. */
  function ToLimit(p: nat, g: nat): seq<Label> {
    [BeginAcquire(p, g)] + [Go(p)] + [Go(p)] + [Go(p)] + [Go(p)]
  }

  /** The reads of an attempt. */
  function TryReads(p: nat): seq<Label> {
    [Go(p)] + [Go(p)] + [Go(p)] + [Go(p)] + [Go(p)]
  }

  /** A call up to its exchange. */
  function ToSwap(p: nat, g: nat): seq<Label> {
    ToLimit(p, g) + [Go(p)] + [Pick(p, 0)] + TryReads(p)
  }

  /** A call that is admitted. */
  function ToAdmitted(p: nat, g: nat): seq<Label> {
    ToSwap(p, g) + [Go(p)] + ([Go(p)] + [Go(p)] + [Go(p)])
  }

  /** `P` does not look at process `p` or the clock. */
  ghost predicate Blind(P: State -> bool, s: State, p: nat) {
    forall y, j: nat :: P(Put(s, p, y, j))
  }

  lemma UpToLimit(P: State -> bool, s: State, p: nat, g: nat, m: nat)
    requires Sole(s, g, m) && p !in s.procs && P(s) && Blind(P, s, p)
    ensures Leads(P, s, ToLimit(p, g), Put(s, p, Filter(g, s.clock, AtLimit(ValueOf(s, m))), 5))
  {
    var since, v, ls := s.clock, ValueOf(s, m), [BeginAcquire(p, g)];
    BeginStep(s, p, g, m);
    First(P, s, BeginAcquire(p, g), Put(s, p, Filter(g, since, AtEnabled), 1));
    FilterStep(s, p, g, since, m, AtEnabled, 1);
    Then(P, s, ls, Put(s, p, Filter(g, since, AtEnabled), 1), Go(p), Put(s, p, Filter(g, since, AtHealthy), 2));
    FilterStep(s, p, g, since, m, AtHealthy, 2);
    Then(P, s, ls + [Go(p)], Put(s, p, Filter(g, since, AtHealthy), 2), Go(p), Put(s, p, Filter(g, since, AtBreaker), 3));
    FilterStep(s, p, g, since, m, AtBreaker, 3);
    Then(P, s, ls + [Go(p)] + [Go(p)], Put(s, p, Filter(g, since, AtBreaker), 3), Go(p), Put(s, p, Filter(g, since, AtRunning), 4));
    FilterStep(s, p, g, since, m, AtRunning, 4);
    Then(P, s, ls + [Go(p)] + [Go(p)] + [Go(p)], Put(s, p, Filter(g, since, AtRunning), 4), Go(p), Put(s, p, Filter(g, since, AtLimit(v)), 5));
  }

  lemma TrySteps(s: State, p: nat, g: nat, since: nat, m: nat, k: nat)
    requires Sole(s, g, m) && ValueOf(s, m) < s.members[m].limit
    ensures Leads(Any, Put(s, p, Try(g, since, m, AtEnabled), k), TryReads(p), Put(s, p, Try(g, since, m, AtSwap(ValueOf(s, m))), k + 5))
  {
    var x, v, ls := Put(s, p, Try(g, since, m, AtEnabled), k), ValueOf(s, m), [Go(p)];
    TryStep(s, p, g, since, m, AtEnabled, k);
    First(Any, x, Go(p), Put(s, p, Try(g, since, m, AtHealthy), k + 1));
    TryStep(s, p, g, since, m, AtHealthy, k + 1);
    Then(Any, x, ls, Put(s, p, Try(g, since, m, AtHealthy), k + 1), Go(p), Put(s, p, Try(g, since, m, AtBreaker), k + 2));
    TryStep(s, p, g, since, m, AtBreaker, k + 2);
    Then(Any, x, ls + [Go(p)], Put(s, p, Try(g, since, m, AtBreaker), k + 2), Go(p), Put(s, p, Try(g, since, m, AtRunning), k + 3));
    TryStep(s, p, g, since, m, AtRunning, k + 3);
    Then(Any, x, ls + [Go(p)] + [Go(p)], Put(s, p, Try(g, since, m, AtRunning), k + 3), Go(p), Put(s, p, Try(g, since, m, AtLimit(v)), k + 4));
    TryStep(s, p, g, since, m, AtLimit(v), k + 4);
    Then(Any, x, ls + [Go(p)] + [Go(p)] + [Go(p)], Put(s, p, Try(g, since, m, AtLimit(v)), k + 4), Go(p), Put(s, p, Try(g, since, m, AtSwap(v)), k + 5));
  }

  lemma UpToSwap(s: State, p: nat, g: nat, m: nat)
    requires Sole(s, g, m) && ValueOf(s, m) < s.members[m].limit && p !in s.procs
    ensures Leads(Any, s, ToSwap(p, g), Put(s, p, Try(g, s.clock, m, AtSwap(ValueOf(s, m))), 12))
  {
    var since, v, ls := s.clock, ValueOf(s, m), ToLimit(p, g);
    UpToLimit(Any, s, p, g, m);
    LimitStep(s, p, g, since, m, v, 5);
    Then(Any, s, ls, Put(s, p, Filter(g, since, AtLimit(v)), 5), Go(p), Put(s, p, Picking(g, since, [m]), 6));
    PickStep(s, p, g, since, m, 6);
    Then(Any, s, ls + [Go(p)], Put(s, p, Picking(g, since, [m]), 6), Pick(p, 0), Put(s, p, Try(g, since, m, AtEnabled), 7));
    TrySteps(s, p, g, since, m, 7);
    Both(Any, s, ls + [Go(p)] + [Pick(p, 0)], Put(s, p, Try(g, since, m, AtEnabled), 7), TryReads(p), Put(s, p, Try(g, since, m, AtSwap(v)), 12));
  }

  /** The confirming reads of an accepting member. */
  lemma ConfirmSteps(s: State, p: nat, g: nat, since: nat, m: nat, taken: nat, k: nat)
    requires g < |s.groups| && Known(s, m) && s.members[m].Accepting()
    ensures Leads(Any, Put(s, p, Confirm(g, since, m, taken, AtEnabled), k), [Go(p)] + [Go(p)] + [Go(p)], Put(s, p, Admitted(g, since, m, taken), k + 3))
  {
    var x := Put(s, p, Confirm(g, since, m, taken, AtEnabled), k);
    ConfirmStep(s, p, g, since, m, taken, AtEnabled, k);
    First(Any, x, Go(p), Put(s, p, Confirm(g, since, m, taken, AtHealthy), k + 1));
    ConfirmStep(s, p, g, since, m, taken, AtHealthy, k + 1);
    Then(Any, x, [Go(p)], Put(s, p, Confirm(g, since, m, taken, AtHealthy), k + 1), Go(p), Put(s, p, Confirm(g, since, m, taken, AtBreaker), k + 2));
    ConfirmStep(s, p, g, since, m, taken, AtBreaker, k + 2);
    Then(Any, x, [Go(p)] + [Go(p)], Put(s, p, Confirm(g, since, m, taken, AtBreaker), k + 2), Go(p), Put(s, p, Admitted(g, since, m, taken), k + 3));
  }

  /** A call that runs undisturbed is admitted to a member with room. */
  lemma Admits(s: State, p: nat, g: nat, m: nat)
    requires Sole(s, g, m) && ValueOf(s, m) < s.members[m].limit && p !in s.procs
    ensures Leads(Any, s, ToAdmitted(p, g), Put(Taken(s, m), p, Admitted(g, s.clock, m, s.clock + 13), 16))
  {
    var since, v := s.clock, ValueOf(s, m);
    var x := Put(Taken(s, m), p, Confirm(g, since, m, since + 13, AtEnabled), 13);
    UpToSwap(s, p, g, m);
    TakeStep(s, p, g, since, m, 12);
    Then(Any, s, ToSwap(p, g), Put(s, p, Try(g, since, m, AtSwap(v)), 12), Go(p), x);
    ConfirmSteps(Taken(s, m), p, g, since, m, since + 13, 13);
    Both(Any, s, ToSwap(p, g) + [Go(p)], x, [Go(p)] + [Go(p)] + [Go(p)], Put(Taken(s, m), p, Admitted(g, since, m, since + 13), 16));
  }

  // ----- A release ---------------------------------------------------------------------------

  function ToReleased(p: nat, g: nat): seq<Label> {
    [BeginRelease(p, g)] + [Go(p)] + [Go(p)]
  }

  /** One slot of `m` fewer. */
  function Given(s: State, m: nat): State
    requires Known(s, m) && ValueOf(s, m) > 0
  {
    s.(counters := s.counters[CounterOf(s, m) := Write(s.counters[CounterOf(s, m)], Give(CounterOf(s, m)))])
  }

  lemma ReleaseStep(s: State, p: nat, proc: Proc, g: nat, m: nat, k: nat)
    requires proc.Admitted? && Fits(s, proc) && g < |s.groups| && s.groups[g] == [m] && Known(s, m)
    requires s.members[m].name == s.members[proc.member].name
    ensures Apply(Put(s, p, proc, k), BeginRelease(p, g)) == Put(s, p, Releasing(m, AtRunning), k + 1)
  {
    var x := Put(s, p, proc, k);
    assert FirstByName(x, [m], s.members[m].name) == Some(m);
    PutPut(s, p, proc, k, Releasing(m, AtRunning), 1);
    assert Apply(x, BeginRelease(p, g)) == Release(x, p, g).(clock := x.clock + 1);
  }

  lemma GiveStep(s: State, p: nat, m: nat, k: nat)
    requires Known(s, m) && ValueOf(s, m) > 0
    ensures Apply(Put(s, p, Releasing(m, AtSwap(ValueOf(s, m))), k), Go(p)) == Put(Given(s, m), p, Done, k + 1)
  {
    AdvanceShape(Put(s, p, Releasing(m, AtSwap(ValueOf(s, m))), k), Go(p));
    PutPut(s, p, Releasing(m, AtSwap(ValueOf(s, m))), k, Done, 1);
  }

  /** A release, by name and through generation `g`, that runs undisturbed. */
  lemma Releases(P: State -> bool, s: State, p: nat, proc: Proc, g: nat, m: nat, k: nat)
    requires proc.Admitted? && Fits(s, proc) && g < |s.groups| && s.groups[g] == [m] && Known(s, m)
    requires s.members[m].name == s.members[proc.member].name && ValueOf(s, m) > 0
    requires Blind(P, s, p) && Blind(P, Given(s, m), p)
    ensures Leads(P, Put(s, p, proc, k), ToReleased(p, g), Put(Given(s, m), p, Done, k + 3))
  {
    var x, v, l := Put(s, p, proc, k), ValueOf(s, m), BeginRelease(p, g);
    ReleaseStep(s, p, proc, g, m, k);
    First(P, x, l, Put(s, p, Releasing(m, AtRunning), k + 1));
    SilentStep(s, p, Releasing(m, AtRunning), Releasing(m, AtSwap(v)), k + 1);
    Then(P, x, [l], Put(s, p, Releasing(m, AtRunning), k + 1), Go(p), Put(s, p, Releasing(m, AtSwap(v)), k + 2));
    GiveStep(s, p, m, k + 2);
    Then(P, x, [l] + [Go(p)], Put(s, p, Releasing(m, AtSwap(v)), k + 2), Go(p), Put(Given(s, m), p, Done, k + 3));
  }
}
