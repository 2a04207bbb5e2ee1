/** Runs on which a stronger promise fails. */
module AdmissionWitnesses {
  import opened Wrappers
  import opened AdmissionModel
  import opened AdmissionSafety
  import opened AdmissionOutcomes
  import opened AdmissionNet
  import opened AdmissionTraces

  /** A system of one member, alone in its group. */
  function One(k: Counter, limit: U64, enabled: bool, healthy: bool, procs: map<nat, Proc>, clock: nat): State {
    State([k], [Member("m", "g", 0, limit, enabled, healthy, None)], [[0]], procs, clock)
  }

  /** Moving process `p` of that system. */
  lemma OnePut(k: Counter, limit: U64, enabled: bool, healthy: bool, procs: map<nat, Proc>, clock: nat, p: nat, proc: Proc, d: nat)
    ensures Put(One(k, limit, enabled, healthy, procs, clock), p, proc, d)
         == One(k, limit, enabled, healthy, procs[p := proc], clock + d)
  {
  }

  function Build(limit: U64): seq<Label> {
    [NewMember("m", "g", limit, true, true, None, None)] + [NewGroup([0])]
  }

  lemma SetUp(limit: U64)
    ensures Leads(Any, INIT, Build(limit), One(Counter(0, 0, 0, 0, limit), limit, true, true, map[], 2))
  {
    var s := One(Counter(0, 0, 0, 0, limit), limit, true, true, map[], 1).(groups := []);
    First(Any, INIT, Build(limit)[0], s);
    assert Exist(s, [0]);
    Then(Any, INIT, [Build(limit)[0]], s, NewGroup([0]), One(Counter(0, 0, 0, 0, limit), limit, true, true, map[], 2));
  }

  /** A cell with one slot handed out. */
  const BUSY := Counter(1, 1, 0, 0, 1)

  // ----- A limit lowered during a call -------------------------------------------------------

  /** The one member accepts queries and is under its limit. */
  predicate Free(s: State) {
    && |s.members| == 1 && |s.counters| == 1 && s.members[0].counter == 0
    && s.members[0].Accepting() && s.counters[0].value < s.members[0].limit
  }

  const QUERY := Admitted(0, 2, 0, 15)

  const COMPARING := Filtering(0, 18, 0, [], AtLimit(1))

  /** One query, running under a limit of 2. */
  const RUNNING := One(Counter(1, 1, 0, 0, 2), 2, true, true, map[0 := QUERY], 18)

  lemma Running()
    ensures Leads(Any, INIT, Build(2) + ToAdmitted(0, 0), RUNNING)
  {
    var s := One(Counter(0, 0, 0, 0, 2), 2, true, true, map[], 2);
    SetUp(2);
    Admits(s, 0, 0, 0);
    OnePut(Counter(1, 1, 0, 0, 2), 2, true, true, map[], 2, 0, QUERY, 16);
    Both(Any, INIT, Build(2), s, ToAdmitted(0, 0), RUNNING);
  }

  /** A call reads the count, and the query finishes. */
  lemma ReadAndReleased()
    ensures Leads(Free, RUNNING, ToLimit(1, 0) + ToReleased(0, 0),
                  One(Counter(0, 1, 1, 0, 2), 2, true, true, map[0 := Done, 1 := COMPARING], 26))
  {
    var k, procs := Counter(1, 1, 0, 0, 2), map[1 := COMPARING];
    var x := One(k, 2, true, true, map[0 := QUERY, 1 := COMPARING], 23);
    UpToLimit(Free, RUNNING, 1, 0, 0);
    OnePut(k, 2, true, true, map[0 := QUERY], 18, 1, COMPARING, 5);
    OnePut(k, 2, true, true, procs, 23, 0, QUERY, 0);
    assert procs[0 := QUERY] == map[0 := QUERY, 1 := COMPARING];
    Releases(Free, One(k, 2, true, true, procs, 23), 0, QUERY, 0, 0, 0);
    OnePut(Counter(0, 1, 1, 0, 2), 2, true, true, procs, 23, 0, Done, 3);
    Both(Free, RUNNING, ToLimit(1, 0), x, ToReleased(0, 0), One(Counter(0, 1, 1, 0, 2), 2, true, true, procs[0 := Done], 26));
  }

  /** The limit goes down, and the call compares. */
  lemma LoweredAndCompared()
    ensures Leads(Free, RUNNING, ToLimit(1, 0) + ToReleased(0, 0) + [SetLimit(0, 1)] + [Go(1)],
                  One(Counter(0, 1, 1, 0, 2), 1, true, true, map[0 := Done, 1 := Rejected(0, 18)], 28))
  {
    var k, ls := Counter(0, 1, 1, 0, 2), ToLimit(1, 0) + ToReleased(0, 0);
    var x := One(k, 1, true, true, map[0 := Done, 1 := COMPARING], 27);
    ReadAndReleased();
    Then(Free, RUNNING, ls, One(k, 2, true, true, map[0 := Done, 1 := COMPARING], 26), SetLimit(0, 1), x);
    OnePut(k, 1, true, true, map[0 := Done], 27, 1, COMPARING, 0);
    OnePut(k, 1, true, true, map[0 := Done], 27, 1, Rejected(0, 18), 1);
    LimitStep(One(k, 1, true, true, map[0 := Done], 27), 1, 0, 18, 0, 1, 0);
    Then(Free, RUNNING, ls + [SetLimit(0, 1)], x, Go(1), One(k, 1, true, true, map[0 := Done, 1 := Rejected(0, 18)], 28));
  }

  /** One query runs under a limit of 2. A call reads the count 1, the query finishes, the limit goes
      down to 1, and the call compares its 1 with it: "none", although the member was accepting and
      under its limit at every moment of the call. */
  lemma LoweredLimitRejectsFreeMember() returns (t: seq<State>, ls: seq<Label>)
    ensures IsRun(t, ls) && |ls| == 28 && 1 in t[28].procs && t[28].procs[1] == Rejected(0, 18)
    ensures forall k :: 18 <= k <= 28 ==> !Blocked(t[k], 0) && !ReadsFull(t[k], t[k], 0)
  {
    var a, b := Build(2) + ToAdmitted(0, 0), ToLimit(1, 0) + ToReleased(0, 0) + [SetLimit(0, 1)] + [Go(1)];
    Running();
    LoweredAndCompared();
    t := RunThrough(Free, a, RUNNING, b, One(Counter(0, 1, 1, 0, 2), 1, true, true, map[0 := Done, 1 := Rejected(0, 18)], 28));
    ls := a + b;
    forall k | 18 <= k <= 28 ensures !Blocked(t[k], 0) && !ReadsFull(t[k], t[k], 0) { assert Free(t[k]); }
  }

  // ----- Flags that flap during a call -------------------------------------------------------

  predicate NotAccepting(s: State) {
    |s.members| == 1 && !(s.members[0].enabled && s.members[0].healthy)
  }

  /** A slot taken just after the member turned unhealthy. */
  const SICK := One(BUSY, 1, true, false, map[0 := Confirm(0, 2, 0, 16, AtEnabled)], 16)

  lemma TakenUnhealthy()
    ensures Leads(Any, INIT, Build(1) + ToSwap(0, 0) + [SetHealthy(0, false)] + [Go(0)], SICK)
  {
    var k, trying := Counter(0, 0, 0, 0, 1), Try(0, 2, 0, AtSwap(0));
    var s, x := One(k, 1, true, true, map[], 2), One(k, 1, true, true, map[0 := trying], 14);
    SetUp(1);
    UpToSwap(s, 0, 0, 0);
    OnePut(k, 1, true, true, map[], 2, 0, trying, 12);
    Both(Any, INIT, Build(1), s, ToSwap(0, 0), x);
    var y := One(k, 1, true, false, map[0 := trying], 15);
    Then(Any, INIT, Build(1) + ToSwap(0, 0), x, SetHealthy(0, false), y);
    OnePut(k, 1, true, false, map[], 15, 0, trying, 0);
    TakeStep(One(k, 1, true, false, map[], 15), 0, 0, 2, 0, 0);
    OnePut(BUSY, 1, true, false, map[], 15, 0, Confirm(0, 2, 0, 16, AtEnabled), 1);
    Then(Any, INIT, Build(1) + ToSwap(0, 0) + [SetHealthy(0, false)], y, Go(0), SICK);
  }

  const CURED := One(BUSY, 1, false, true, map[0 := Confirm(0, 2, 0, 16, AtHealthy)], 19)

  /** It is read as enabled, then turns disabled and healthy. */
  lemma Flaps()
    ensures Leads(NotAccepting, SICK, [Go(0)] + [SetEnabled(0, false)] + [SetHealthy(0, true)], CURED)
  {
    var confirming := Confirm(0, 2, 0, 16, AtHealthy);
    var x, y := One(BUSY, 1, true, false, map[0 := confirming], 17), One(BUSY, 1, false, false, map[0 := confirming], 18);
    OnePut(BUSY, 1, true, false, map[], 16, 0, Confirm(0, 2, 0, 16, AtEnabled), 0);
    ConfirmStep(One(BUSY, 1, true, false, map[], 16), 0, 0, 2, 0, 16, AtEnabled, 0);
    OnePut(BUSY, 1, true, false, map[], 16, 0, confirming, 1);
    First(NotAccepting, SICK, Go(0), x);
    Then(NotAccepting, SICK, [Go(0)], x, SetEnabled(0, false), y);
    Then(NotAccepting, SICK, [Go(0)] + [SetEnabled(0, false)], y, SetHealthy(0, true), CURED);
  }

  /** It is read as healthy and let through. */
  lemma Returned()
    ensures Leads(NotAccepting, CURED, [Go(0)] + [Go(0)], One(BUSY, 1, false, true, map[0 := Admitted(0, 2, 0, 16)], 21))
  {
    var s, breaker := One(BUSY, 1, false, true, map[], 19), Confirm(0, 2, 0, 16, AtBreaker);
    OnePut(BUSY, 1, false, true, map[], 19, 0, Confirm(0, 2, 0, 16, AtHealthy), 0);
    OnePut(BUSY, 1, false, true, map[], 19, 0, breaker, 1);
    OnePut(BUSY, 1, false, true, map[], 19, 0, Admitted(0, 2, 0, 16), 2);
    ConfirmStep(s, 0, 0, 2, 0, 16, AtHealthy, 0);
    First(NotAccepting, CURED, Go(0), Put(s, 0, breaker, 1));
    ConfirmStep(s, 0, 0, 2, 0, 16, AtBreaker, 1);
    Then(NotAccepting, CURED, [Go(0)], Put(s, 0, breaker, 1), Go(0), Put(s, 0, Admitted(0, 2, 0, 16), 2));
  }

  /** The member turns unhealthy just before its slot is taken; it is read as enabled, then turns
      disabled and healthy, and is read as healthy: it is returned although it accepted queries at no
      moment since its slot was taken. */
  lemma FlappingMemberAdmitted() returns (t: seq<State>, ls: seq<Label>)
    ensures IsRun(t, ls) && |ls| == 21 && 0 in t[21].procs && t[21].procs[0] == Admitted(0, 2, 0, 16)
    ensures forall k :: 16 <= k <= 21 ==> |t[k].members| == 1 && !(t[k].members[0].enabled && t[k].members[0].healthy)
  {
    var a := Build(1) + ToSwap(0, 0) + [SetHealthy(0, false)] + [Go(0)];
    var b, c := [Go(0)] + [SetEnabled(0, false)] + [SetHealthy(0, true)], [Go(0)] + [Go(0)];
    var y := One(BUSY, 1, false, true, map[0 := Admitted(0, 2, 0, 16)], 21);
    TakenUnhealthy();
    Flaps();
    Returned();
    Both(NotAccepting, SICK, b, CURED, c, y);
    t := RunThrough(NotAccepting, a, SICK, b + c, y);
    ls := a + (b + c);
    forall k | 16 <= k <= 21 ensures |t[k].members| == 1 && !(t[k].members[0].enabled && t[k].members[0].healthy) { assert NotAccepting(t[k]); }
  }

  // ----- An undo that finds the count at zero ------------------------------------------------

  const TENTATIVE := Confirm(0, 2, 0, 15, AtEnabled)

  /** Call 0 holds a tentative slot. */
  const HELD := One(BUSY, 1, true, true, map[0 := TENTATIVE], 15)

  lemma Tentative()
    ensures Leads(Any, INIT, Build(1) + ToSwap(0, 0) + [Go(0)], HELD)
  {
    var s := One(Counter(0, 0, 0, 0, 1), 1, true, true, map[], 2);
    SetUp(1);
    UpToSwap(s, 0, 0, 0);
    Both(Any, INIT, Build(1), s, ToSwap(0, 0), Put(s, 0, Try(0, 2, 0, AtSwap(0)), 12));
    TakeStep(s, 0, 0, 2, 0, 12);
    OnePut(BUSY, 1, true, true, map[], 2, 0, TENTATIVE, 13);
    Then(Any, INIT, Build(1) + ToSwap(0, 0), Put(s, 0, Try(0, 2, 0, AtSwap(0)), 12), Go(0), HELD);
  }

  /** A reconciler observes the slot and hears from the engine that nothing runs. */
  lemma Reconciling()
    ensures Leads(Any, HELD, [Observe(1, 0)] + [Fetched(1, 0)] + [Go(1)] + [Go(1)], Put(HELD, 1, ReconcileSwap(0, 15, BUSY, 0, 1, 1), 4))
  {
    var fetching, limit, load := Fetching(0, 15, BUSY), ReconcileLimit(0, 15, BUSY, 0), ReconcileLoad(0, 15, BUSY, 0, 1);
    First(Any, HELD, Observe(1, 0), Put(HELD, 1, fetching, 1));
    PutPut(HELD, 1, fetching, 1, limit, 1);
    Then(Any, HELD, [Observe(1, 0)], Put(HELD, 1, fetching, 1), Fetched(1, 0), Put(HELD, 1, limit, 2));
    SilentStep(HELD, 1, limit, load, 2);
    Then(Any, HELD, [Observe(1, 0)] + [Fetched(1, 0)], Put(HELD, 1, limit, 2), Go(1), Put(HELD, 1, load, 3));
    SilentStep(HELD, 1, load, ReconcileSwap(0, 15, BUSY, 0, 1, 1), 3);
    Then(Any, HELD, [Observe(1, 0)] + [Fetched(1, 0)] + [Go(1)], Put(HELD, 1, load, 3), Go(1), Put(HELD, 1, ReconcileSwap(0, 15, BUSY, 0, 1, 1), 4));
  }

  /** It sets the count to zero, and the member turns unhealthy. */
  const DRAINED := One(Counter(0, 1, 0, -1, 1), 1, true, false, map[1 := Reconciled(0)], 21)

  lemma Drains()
    ensures Leads(Any, Put(HELD, 1, ReconcileSwap(0, 15, BUSY, 0, 1, 1), 4), [Go(1)] + [SetHealthy(0, false)], Put(DRAINED, 0, TENTATIVE, 0))
  {
    var swap, k := ReconcileSwap(0, 15, BUSY, 0, 1, 1), Counter(0, 1, 0, -1, 1);
    var x, y := Put(HELD, 1, swap, 4), One(k, 1, true, true, map[0 := TENTATIVE, 1 := Reconciled(0)], 20);
    AdvanceShape(x, Go(1));
    PutPut(HELD, 1, swap, 4, Reconciled(0), 1);
    First(Any, x, Go(1), y);
    OnePut(k, 1, true, false, map[1 := Reconciled(0)], 21, 0, TENTATIVE, 0);
    assert map[1 := Reconciled(0)][0 := TENTATIVE] == map[0 := TENTATIVE, 1 := Reconciled(0)];
    Then(Any, x, [Go(1)], y, SetHealthy(0, false), Put(DRAINED, 0, TENTATIVE, 0));
  }

  const UNDOING := Undoing(0, 2, [0, 0], AtRunning)

  /** The call sees that, and is about to give its slot back. */
  lemma Undoes()
    ensures Leads(Any, Put(DRAINED, 0, TENTATIVE, 0), [Go(0)] + [Go(0)], Put(DRAINED, 0, UNDOING, 2))
  {
    var x, healthy := Put(DRAINED, 0, TENTATIVE, 0), Confirm(0, 2, 0, 15, AtHealthy);
    ConfirmStep(DRAINED, 0, 0, 2, 0, 15, AtEnabled, 0);
    First(Any, x, Go(0), Put(DRAINED, 0, healthy, 1));
    SilentStep(DRAINED, 0, healthy, UNDOING, 1);
    Then(Any, x, [Go(0)], Put(DRAINED, 0, healthy, 1), Go(0), Put(DRAINED, 0, UNDOING, 2));
  }

  /** The undo gives up, and so does the call. */
  lemma GivesUp()
    ensures Leads(Any, Put(DRAINED, 0, UNDOING, 2), [Go(0)] + [Go(0)] + [Go(0)], Put(DRAINED, 0, Rejected(0, 2), 5))
  {
    var x, first, second := Put(DRAINED, 0, UNDOING, 2), Trying(0, 2, [0], AtEnabled), Trying(0, 2, [0], AtHealthy);
    assert [0, 0][1..] == [0] && [0][1..] == [];
    SilentStep(DRAINED, 0, UNDOING, first, 2);
    First(Any, x, Go(0), Put(DRAINED, 0, first, 3));
    SilentStep(DRAINED, 0, first, second, 3);
    Then(Any, x, [Go(0)], Put(DRAINED, 0, first, 3), Go(0), Put(DRAINED, 0, second, 4));
    SilentStep(DRAINED, 0, second, Rejected(0, 2), 4);
    Then(Any, x, [Go(0)] + [Go(0)], Put(DRAINED, 0, second, 4), Go(0), Put(DRAINED, 0, Rejected(0, 2), 5));
  }

  function ToUndo(): seq<Label> {
    Build(1) + ToSwap(0, 0) + [Go(0)] + ([Observe(1, 0)] + [Fetched(1, 0)] + [Go(1)] + [Go(1)])
    + ([Go(1)] + [SetHealthy(0, false)]) + ([Go(0)] + [Go(0)])
  }

  lemma UndoingAtZero()
    ensures Leads(Any, INIT, ToUndo(), Put(DRAINED, 0, UNDOING, 2))
  {
    var a, x := Build(1) + ToSwap(0, 0) + [Go(0)], Put(HELD, 1, ReconcileSwap(0, 15, BUSY, 0, 1, 1), 4);
    var b, c := [Observe(1, 0)] + [Fetched(1, 0)] + [Go(1)] + [Go(1)], [Go(1)] + [SetHealthy(0, false)];
    Tentative();
    Reconciling();
    Both(Any, INIT, a, HELD, b, x);
    Drains();
    Both(Any, INIT, a + b, x, c, Put(DRAINED, 0, TENTATIVE, 0));
    Undoes();
    Both(Any, INIT, a + b + c, Put(DRAINED, 0, TENTATIVE, 0), [Go(0)] + [Go(0)], Put(DRAINED, 0, UNDOING, 2));
  }

  /** A call takes a slot, a reconciler takes it off the count, and the member turns unhealthy: the
      undo finds zero and gives nothing back. The call answers "none" with one slot added on its
      account, which the reconciler alone had balanced. */
  lemma LostUndo() returns (t: seq<State>, ls: seq<Label>)
    ensures IsRun(t, ls) && |ls| == 26 && 0 in t[26].procs && t[26].procs[0].Rejected?
    ensures Net(t, ls, 26, 0, 0) > 0
  {
    var b := [Go(0)] + [Go(0)] + [Go(0)];
    UndoingAtZero();
    GivesUp();
    t := RunThrough(Any, ToUndo(), Put(DRAINED, 0, UNDOING, 2), b, Put(DRAINED, 0, Rejected(0, 2), 5));
    ls := ToUndo() + b;
    assert ls[23] == Go(0);
    assert LosesUndo(t[23], ls[23], 0, 0);
    LostIsPositive(t, ls, 26);
  }

  lemma LostIsPositive(t: seq<State>, ls: seq<Label>, n: nat)
    requires IsRun(t, ls) && 23 < n == |ls| && 0 in t[n].procs && t[n].procs[0].Rejected? && LosesUndo(t[23], ls[23], 0, 0)
    ensures Net(t, ls, n, 0, 0) > 0
  {
    NetIsSlotPlusLost(t, ls, n, 0, 0);
    LostIff(t, ls, n, 0, 0);
  }

  // ----- A release that takes another query's slot -------------------------------------------

  /** The member and, after reloads that dropped it and added it again, its namesake with a cell of
      its own. */
  function Two(k0: Counter, k1: Counter, procs: map<nat, Proc>, clock: nat): State {
    State([k0, k1], [Member("m", "g", 0, 1, true, true, None), Member("m", "g", 1, 1, true, true, None)], [[0], [1]], procs, clock)
  }

  lemma TwoPut(k0: Counter, k1: Counter, procs: map<nat, Proc>, clock: nat, p: nat, proc: Proc, d: nat)
    ensures Put(Two(k0, k1, procs, clock), p, proc, d) == Two(k0, k1, procs[p := proc], clock + d)
  {
  }

  function ToReload(): seq<Label> {
    Build(1) + ToAdmitted(0, 0) + [NewMember("m", "g", 1, true, true, None, None)] + [NewGroup([1])]
  }

  const RELOADED := Two(BUSY, Counter(0, 0, 0, 0, 1), map[0 := QUERY], 20)

  /** A query admitted on the old member; then the new generation. */
  lemma Reloads()
    ensures Leads(Any, INIT, ToReload(), RELOADED)
  {
    var s, x := One(Counter(0, 0, 0, 0, 1), 1, true, true, map[], 2), One(BUSY, 1, true, true, map[0 := QUERY], 18);
    SetUp(1);
    Admits(s, 0, 0, 0);
    OnePut(BUSY, 1, true, true, map[], 2, 0, QUERY, 16);
    Both(Any, INIT, Build(1), s, ToAdmitted(0, 0), x);
    var l, y := NewMember("m", "g", 1, true, true, None, None), RELOADED.(groups := [[0]], clock := 19);
    Then(Any, INIT, Build(1) + ToAdmitted(0, 0), x, l, y);
    assert Exist(y, [1]);
    Then(Any, INIT, Build(1) + ToAdmitted(0, 0) + [l], y, NewGroup([1]), RELOADED);
  }

  const QUERY1 := Admitted(1, 20, 1, 33)

  const SHARED := Two(BUSY, BUSY, map[0 := QUERY, 1 := QUERY1], 36)

  /** A second query, on the new member. */
  lemma Shares()
    ensures Leads(Any, INIT, ToReload() + ToAdmitted(1, 1), SHARED)
  {
    Reloads();
    Admits(RELOADED, 1, 1, 1);
    TwoPut(BUSY, BUSY, map[0 := QUERY], 20, 1, QUERY1, 16);
    Both(Any, INIT, ToReload(), RELOADED, ToAdmitted(1, 1), SHARED);
  }

  const STOLEN := Two(BUSY, Counter(0, 1, 1, 0, 1), map[0 := Done, 1 := QUERY1], 39)

  /** The release of the first through the new generation. */
  lemma Steals()
    ensures Leads(Any, SHARED, ToReleased(0, 1), STOLEN)
  {
    var procs := map[1 := QUERY1];
    assert procs[0 := QUERY] == SHARED.procs && procs[0 := Done] == STOLEN.procs;
    TwoPut(BUSY, BUSY, procs, 36, 0, QUERY, 0);
    Releases(Any, Two(BUSY, BUSY, procs, 36), 0, QUERY, 1, 1, 0);
    TwoPut(BUSY, Counter(0, 1, 1, 0, 1), procs, 36, 0, Done, 3);
  }

  const CROWDED := Two(BUSY, Counter(1, 2, 1, 0, 1), map[0 := Done, 1 := QUERY1, 2 := Admitted(1, 39, 1, 52)], 55)

  /** A third query, which finds room. */
  lemma Crowds()
    ensures Leads(Any, STOLEN, ToAdmitted(2, 1), CROWDED)
  {
    Admits(STOLEN, 2, 1, 1);
    TwoPut(BUSY, Counter(1, 2, 1, 0, 1), STOLEN.procs, 39, 2, Admitted(1, 39, 1, 52), 16);
    assert STOLEN.procs[2 := Admitted(1, 39, 1, 52)] == CROWDED.procs;
  }

  lemma CrowdedOwners()
    ensures Owners(CROWDED, 0) == {} && Owners(CROWDED, 1) == {1, 2}
  {
  }

  /** A query is released by name through a newer generation, in which its name belongs to a member
      with a cell of its own, on which another query runs. The release takes that query's slot off the
      count. At the end two queries run on a member whose limit has always been 1, while the old cell
      counts a query that nobody runs. */
  lemma StolenSlot() returns (t: seq<State>, ls: seq<Label>)
    ensures IsRun(t, ls) && |ls| == 55 && ls[36] == BeginRelease(0, 1) && !Matched(t[36], 0, 1)
    ensures |t[55].counters| == 2
    ensures t[55].counters[0].value == 1 && Owners(t[55], 0) == {}
    ensures t[55].counters[1].value == 1 && Owners(t[55], 1) == {1, 2}
    ensures forall k: nat, m: nat :: k <= 55 && DrawsOn(t[k], m, 1) ==> t[k].members[m].limit <= 1
  {
    t, ls := CrowdedRun();
    CrowdedOwners();
    ResolvesElsewhere();
    forall k: nat, m: nat | k <= 55 && DrawsOn(t[k], m, 1)
      ensures t[k].members[m].limit <= 1
    {
      LimitsUnderCeiling(t, ls, k, 55, m, 1);
    }
  }

  lemma CrowdedRun() returns (t: seq<State>, ls: seq<Label>)
    ensures IsRun(t, ls) && |ls| == 55 && ls[36] == BeginRelease(0, 1) && t[36] == SHARED && t[55] == CROWDED
  {
    var a, b := ToReload() + ToAdmitted(1, 1), ToReleased(0, 1) + ToAdmitted(2, 1);
    Shares();
    Steals();
    Crowds();
    Both(Any, SHARED, ToReleased(0, 1), STOLEN, ToAdmitted(2, 1), CROWDED);
    Lengths(a, b);
    t := RunThrough(Any, a, SHARED, b, CROWDED);
    ls := a + b;
  }

  lemma Lengths(a: seq<Label>, b: seq<Label>)
    requires a == ToReload() + ToAdmitted(1, 1) && b == ToReleased(0, 1) + ToAdmitted(2, 1)
    ensures |a| == 36 && |b| == 19 && (a + b)[36] == BeginRelease(0, 1)
  {
    assert |ToReload()| == 20 && |ToAdmitted(1, 1)| == |ToAdmitted(2, 1)| == 16 && |ToReleased(0, 1)| == 3;
    assert (a + b)[36] == b[0] == ToReleased(0, 1)[0];
  }

  lemma ResolvesElsewhere()
    ensures !Matched(SHARED, 0, 1)
  {
    assert Exist(SHARED, SHARED.groups[1]) && FirstByName(SHARED, [1], "m") == Some(1);
  }

  /** Every limit there has been over a cell is at most its ceiling. */
  lemma LimitsUnderCeiling(t: seq<State>, ls: seq<Label>, k: nat, n: nat, m: nat, c: nat)
    requires IsRun(t, ls) && k <= n < |t| && DrawsOn(t[k], m, c) && c < |t[n].counters|
    ensures t[k].members[m].limit <= t[n].counters[c].ceiling
  {
    RunInv(t, ls, k);
    assert MemberInv(t[k], m);
    RunGrows(t, ls, k, n);
  }
}
