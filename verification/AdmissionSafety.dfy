/** What every interleaving keeps: the running count stays within the limits, and it equals the
    number of slots handed out. */
module AdmissionSafety {
  import opened Wrappers
  import opened AdmissionModel
  import CircuitBreaker

  // ----- The invariant -----------------------------------------------------------------------

  predicate CounterInv(k: Counter) {
    k.value <= k.ceiling && k.value + k.released == k.admitted + k.drift
  }

  predicate ProcInv(s: State, proc: Proc) {
    Fits(s, proc) &&
    match proc
    case Trying(_, _, queue, stage) => stage.AtSwap? ==> stage.seen < CeilingOf(s, queue[0])
    case Fetching(_, _, mark) => CounterInv(mark)
    case ReconcileLimit(_, _, mark, _) => CounterInv(mark)
    case ReconcileLoad(m, _, mark, _, max) => CounterInv(mark) && max <= CeilingOf(s, m)
    case ReconcileSwap(m, _, mark, _, max, _) => CounterInv(mark) && max <= CeilingOf(s, m)
    case OverwriteStore(m, value) => value <= CeilingOf(s, m)
    case _ => true
  }

  function CeilingOf(s: State, m: nat): U64
    requires Known(s, m)
  {
    s.counters[CounterOf(s, m)].ceiling
  }

  /** What admission demands of a member: enabled, healthy, and no breaker or a closed one. */
  predicate Willing(m: Member) {
    m.enabled && m.healthy && (m.breaker == None || m.breaker == Some(CircuitBreaker.Closed))
  }

  predicate MemberInv(s: State, m: nat) {
    Known(s, m) && s.members[m].limit <= CeilingOf(s, m)
  }

  ghost predicate Sound(s: State) {
    && (forall c :: 0 <= c < |s.counters| ==> CounterInv(s.counters[c]))
    && (forall m :: 0 <= m < |s.members| ==> MemberInv(s, m))
    && (forall g :: 0 <= g < |s.groups| ==> Exist(s, s.groups[g]))
  }

  ghost predicate Inv(s: State) {
    Sound(s) && forall p :: p in s.procs ==> ProcInv(s, s.procs[p])
  }

  /** What no step takes away: cells, members and groups are only added, a member keeps its cell,
      and ceilings only rise. */
  ghost predicate Grows(s: State, s': State) {
    && |s.counters| <= |s'.counters|
    && (forall c :: 0 <= c < |s.counters| ==> s.counters[c].ceiling <= s'.counters[c].ceiling)
    && |s.members| <= |s'.members|
    && (forall m :: 0 <= m < |s.members| ==> s.members[m].counter == s'.members[m].counter)
    && s.groups <= s'.groups
  }

  lemma StepGrows(s: State, l: Label)
    ensures Grows(s, Apply(s, l))
  {
  }

  lemma ProcInvStable(s: State, s': State, proc: Proc)
    requires Grows(s, s') && ProcInv(s, proc)
    ensures ProcInv(s', proc)
  {
    forall m | Known(s, m)
      ensures Known(s', m) && CeilingOf(s, m) <= CeilingOf(s', m)
    {
    }
    assert forall ms :: Exist(s, ms) ==> Exist(s', ms);
  }

  predicate MoveKeeps(s: State, proc: Proc, spurious: bool)
    requires Fits(s, proc)
  {
    var (next, e) := Move(s, proc, spurious);
    ProcInv(s, next) && (e.Silent? || CounterInv(Write(s.counters[e.c], e)))
  }

  lemma FilteringKeeps(s: State, proc: Proc, spurious: bool)
    requires Sound(s) && ProcInv(s, proc) && proc.Filtering?
    ensures MoveKeeps(s, proc, spurious)
  {
    var m := s.groups[proc.g][proc.i];
    assert Exist(s, proc.eligible + [m]);
  }

  lemma TryingKeeps(s: State, proc: Proc, spurious: bool)
    requires Sound(s) && ProcInv(s, proc) && proc.Trying?
    ensures MoveKeeps(s, proc, spurious)
  {
    assert MemberInv(s, proc.queue[0]);
    assert CounterInv(s.counters[s.members[proc.queue[0]].counter]);
    assert Exist(s, proc.queue[1..]);
  }

  lemma HoldingKeeps(s: State, proc: Proc, spurious: bool)
    requires Sound(s) && ProcInv(s, proc) && (proc.Confirming? || proc.Undoing?)
    ensures MoveKeeps(s, proc, spurious)
  {
    assert Known(s, proc.queue[0]);
    assert CounterInv(s.counters[s.members[proc.queue[0]].counter]);
    assert Exist(s, proc.queue[1..]);
  }

  lemma OthersKeep(s: State, proc: Proc, spurious: bool)
    requires Sound(s) && ProcInv(s, proc)
    requires !proc.Filtering? && !proc.Trying? && !proc.Confirming? && !proc.Undoing?
    ensures MoveKeeps(s, proc, spurious)
  {
    if proc.Releasing? || proc.StrayReleasing? || proc.ReconcileLimit? || proc.ReconcileSwap? || proc.OverwriteLimit? || proc.OverwriteStore? {
      assert MemberInv(s, proc.member);
      assert CounterInv(s.counters[s.members[proc.member].counter]);
    }
  }

  lemma MoveInv(s: State, proc: Proc, spurious: bool)
    requires Sound(s) && ProcInv(s, proc)
    ensures MoveKeeps(s, proc, spurious)
  {
    if proc.Filtering? { FilteringKeeps(s, proc, spurious); }
    else if proc.Trying? { TryingKeeps(s, proc, spurious); }
    else if proc.Confirming? || proc.Undoing? { HoldingKeeps(s, proc, spurious); }
    else { OthersKeep(s, proc, spurious); }
  }

  lemma AdvanceKeeps(s: State, l: Label, s': State)
    requires Inv(s) && s' == Apply(s, l) && Grows(s, s') && l.Advance? && l.p in s.procs && ProcInv(s, s.procs[l.p])
    ensures ProcInv(s', s'.procs[l.p])
  {
    MoveInv(s, s.procs[l.p], l.spurious);
    AdvanceShape(s, l);
    ProcInvStable(s, s', s'.procs[l.p]);
  }

  lemma StepProcs(s: State, l: Label, s': State, p: nat)
    requires Inv(s) && s' == Apply(s, l) && Grows(s, s') && p in s'.procs
    ensures ProcInv(s', s'.procs[p])
  {
    if p !in s.procs {
      SpawnKeeps(s, l, p);
    } else if s'.procs[p] == s.procs[p] {
      ProcInvStable(s, s', s.procs[p]);
    } else if l.Advance? {
      AdvanceKeeps(s, l, s');
    } else {
      RelabelKeeps(s, l, s', p);
    }
  }

  lemma {:induction false} FirstByNameKnown(s: State, list: seq<nat>, name: string)
    requires Exist(s, list)
    ensures var r := FirstByName(s, list, name); r.Some? ==> r.value in list && Known(s, r.value)
  {
    if list != [] && s.members[list[0]].name != name {
      FirstByNameKnown(s, list[1..], name);
    }
  }

  lemma SpawnKeeps(s: State, l: Label, p: nat)
    requires Inv(s) && p !in s.procs && p in Apply(s, l).procs
    ensures ProcInv(Apply(s, l), Apply(s, l).procs[p])
  {
  }

  /** How a label other than `Advance` can relabel an existing process. */
  lemma RelabelShape(s: State, l: Label, p: nat)
    requires p in s.procs && !(l.Advance? && l.p == p) && Apply(s, l).procs[p] != s.procs[p]
    ensures var next := Apply(s, l).procs[p];
            match s.procs[p]
            case Picking(g, since, eligible) =>
              l.Pick? && l.k < |eligible| && next == Trying(g, since, [eligible[l.k]] + eligible, AtEnabled)
            case Fetching(m, since, mark) => l.Fetched? && next == ReconcileLimit(m, since, mark, l.target)
            case Admitted(_, _, _, _) => l.BeginRelease? && (next.Done? || (next.Releasing? && Known(s, next.member) && next.stage.AtRunning?))
            case _ => false
  {
    if l.BeginRelease? && l.p == p && l.g < |s.groups| && Exist(s, s.groups[l.g]) && s.procs[p].Admitted? && Fits(s, s.procs[p]) {
      FirstByNameKnown(s, s.groups[l.g], s.members[s.procs[p].member].name);
    }
  }

  /** What a label can create. */
  lemma SpawnShape(s: State, l: Label, p: nat)
    requires p !in s.procs && p in Apply(s, l).procs
    ensures var proc := Apply(s, l).procs[p];
            match l
            case BeginAcquire(_, g) => g < |s.groups| && l.p == p && proc == Scan(s, g, s.clock, 0, [])
            case _ => !proc.Filtering? && !proc.Picking? && !proc.Trying? && !proc.Confirming? && !proc.Undoing?
                      && !proc.Admitted? && !proc.Rejected? && !proc.Releasing?
  {
  }

  lemma RelabelKeeps(s: State, l: Label, s': State, p: nat)
    requires Inv(s) && s' == Apply(s, l) && Grows(s, s') && p in s.procs && !l.Advance? && s'.procs[p] != s.procs[p]
    ensures ProcInv(s', s'.procs[p])
  {
    var proc := s.procs[p];
    assert ProcInv(s, proc);
    RelabelShape(s, l, p);
    if proc.Picking? { assert Exist(s, [proc.eligible[l.k]] + proc.eligible); }
    ProcInvStable(s, s', s'.procs[p]);
  }

  lemma StepCounters(s: State, l: Label, c: nat)
    requires Inv(s) && c < |Apply(s, l).counters|
    ensures CounterInv(Apply(s, l).counters[c])
  {
    assert c < |s.counters| ==> CounterInv(s.counters[c]);
    if l.Advance? && l.p in s.procs {
      var proc := s.procs[l.p];
      assert ProcInv(s, proc);
      MoveInv(s, proc, l.spurious);
    }
  }

  lemma StepMembers(s: State, l: Label, m: nat)
    requires Inv(s) && m < |Apply(s, l).members|
    ensures MemberInv(Apply(s, l), m)
  {
    StepGrows(s, l);
    assert m < |s.members| ==> MemberInv(s, m);
  }

  lemma StepGroups(s: State, l: Label, g: nat)
    requires Inv(s) && g < |Apply(s, l).groups|
    ensures Exist(Apply(s, l), Apply(s, l).groups[g])
  {
    StepGrows(s, l);
    assert g < |s.groups| ==> Exist(s, s.groups[g]);
  }

  lemma StepSound(s: State, l: Label, s': State)
    requires Inv(s) && s' == Apply(s, l)
    ensures Sound(s')
  {
    forall c | 0 <= c < |s'.counters| ensures CounterInv(s'.counters[c]) { StepCounters(s, l, c); }
    forall m | 0 <= m < |s'.members| ensures MemberInv(s', m) { StepMembers(s, l, m); }
    forall g | 0 <= g < |s'.groups| ensures Exist(s', s'.groups[g]) { StepGroups(s, l, g); }
  }

  lemma StepInv(s: State, l: Label)
    requires Inv(s)
    ensures Inv(Apply(s, l))
  {
    StepSound(s, l, Apply(s, l));
    StepGrows(s, l);
    forall p | p in Apply(s, l).procs
      ensures ProcInv(Apply(s, l), Apply(s, l).procs[p])
    {
      StepProcs(s, l, Apply(s, l), p);
    }
  }

  lemma {:induction false} RunInv(t: seq<State>, ls: seq<Label>, n: nat)
    requires IsRun(t, ls) && n < |t|
    ensures Inv(t[n]) && t[n].clock == n
  {
    if n > 0 {
      RunInv(t, ls, n - 1);
      StepInv(t[n - 1], ls[n - 1]);
    }
  }

  lemma GrowsFurther(a: State, b: State, c: State)
    requires Grows(a, b) && Grows(b, c)
    ensures Grows(a, c)
  {
  }

  lemma StepOfRunGrows(t: seq<State>, ls: seq<Label>, n: nat)
    requires IsRun(t, ls) && n < |ls|
    ensures Grows(t[n], t[n + 1])
  {
    StepGrows(t[n], ls[n]);
  }

  lemma {:induction false} GrowsChain(t: seq<State>, i: nat, n: nat)
    requires i <= n < |t| && forall k: nat :: k + 1 < |t| ==> GrowsAt(t, k)
    ensures Grows(t[i], t[n])
  {
    if i < n {
      GrowsChain(t, i, n - 1);
      assert GrowsAt(t, n - 1);
      GrowsFurther(t[i], t[n - 1], t[n]);
    }
  }

  ghost predicate GrowsAt(t: seq<State>, k: nat) {
    k + 1 < |t| && Grows(t[k], t[k + 1])
  }

  lemma RunGrows(t: seq<State>, ls: seq<Label>, i: nat, n: nat)
    requires IsRun(t, ls) && i <= n < |t|
    ensures Grows(t[i], t[n])
  {
    forall k: nat | k + 1 < |t| ensures GrowsAt(t, k) { StepOfRunGrows(t, ls, k); }
    GrowsChain(t, i, n);
  }

  // ----- The count stays within the limits ---------------------------------------------------

  /** Member `m` draws on cell `c`. */
  predicate DrawsOn(s: State, m: nat, c: nat) {
    m < |s.members| && s.members[m].counter == c
  }

  /** The ceiling of a cell is a limit that was in force at some earlier moment. */
  ghost predicate WasInForce(t: seq<State>, n: nat, c: nat, limit: int) {
    exists k: nat, m: nat :: k <= n < |t| && DrawsOn(t[k], m, c) && t[k].members[m].limit == limit
  }

  lemma {:induction false} CeilingWasInForce(t: seq<State>, ls: seq<Label>, n: nat, c: nat)
    requires IsRun(t, ls) && n < |t| && c < |t[n].counters|
    ensures WasInForce(t, n, c, t[n].counters[c].ceiling)
  {
    if n > 0 {
      var s, l, s' := t[n - 1], ls[n - 1], t[n];
      RunInv(t, ls, n - 1);
      if c < |s.counters| && s'.counters[c].ceiling == s.counters[c].ceiling {
        CeilingWasInForce(t, ls, n - 1, c);
        var k: nat, m: nat :| k <= n - 1 && DrawsOn(t[k], m, c) && t[k].members[m].limit == s.counters[c].ceiling;
        assert DrawsOn(t[k], m, c);
      } else {
        var m := if l.SetLimit? then l.m else |s.members|;
        CeilingRaised(s, l, c);
        assert DrawsOn(t[n], m, c);
      }
    }
  }

  lemma CeilingRaised(s: State, l: Label, c: nat)
    requires Inv(s) && c < |Apply(s, l).counters|
    requires c < |s.counters| ==> Apply(s, l).counters[c].ceiling != s.counters[c].ceiling
    ensures l.SetLimit? || l.NewMember?
    ensures var s', m := Apply(s, l), if l.SetLimit? then l.m else |s.members|;
            DrawsOn(s', m, c) && s'.members[m].limit == s'.counters[c].ceiling
  {
  }

  /** In every interleaving of admissions, releases, corrections, limit changes and reloads, the
      running count never exceeds the largest limit that was ever in force over it. */
  lemma RunningWithinSomeLimit(t: seq<State>, ls: seq<Label>, n: nat, c: nat)
    requires IsRun(t, ls) && n < |t| && c < |t[n].counters|
    ensures exists k: nat, m: nat :: k <= n && DrawsOn(t[k], m, c) && t[n].counters[c].value <= t[k].members[m].limit
  {
    RunInv(t, ls, n);
    CeilingWasInForce(t, ls, n, c);
    var k: nat, m: nat :| k <= n && DrawsOn(t[k], m, c) && t[k].members[m].limit == t[n].counters[c].ceiling;
    assert DrawsOn(t[k], m, c);
  }

  /** While no limit over the cell is ever above `limit`, neither is the count, tentative slots
      included. */
  lemma RunningWithinFixedLimit(t: seq<State>, ls: seq<Label>, n: nat, c: nat, limit: nat)
    requires IsRun(t, ls) && n < |t| && c < |t[n].counters|
    requires forall k: nat, m: nat :: k <= n && DrawsOn(t[k], m, c) ==> t[k].members[m].limit <= limit
    ensures t[n].counters[c].value <= limit
  {
    RunningWithinSomeLimit(t, ls, n, c);
  }

  // ----- Slots are conserved -----------------------------------------------------------------

  /** The cell on which a process holds a slot: tentatively, as an admitted query, or while giving
      it back. */
  function Holds(s: State, proc: Proc): Option<nat>
    requires Fits(s, proc)
  {
    match proc
    case Confirming(_, _, queue, _, _) => Some(s.members[queue[0]].counter)
    case Undoing(_, _, queue, _) => Some(s.members[queue[0]].counter)
    case Admitted(_, _, member, _) => Some(s.members[member].counter)
    case Releasing(member, _) => Some(s.members[member].counter)
    case _ => None
  }

  ghost function Owners(s: State, c: nat): set<nat> {
    set p | p in s.procs && Fits(s, s.procs[p]) && Holds(s, s.procs[p]) == Some(c)
  }

  ghost predicate Conserved(s: State) {
    forall c :: 0 <= c < |s.counters| ==> s.counters[c].value == |Owners(s, c)|
  }

  /** The release of query `p` through group `g` resolves, by name, to the cell it was admitted on. */
  predicate Matched(s: State, p: nat, g: nat) {
    p in s.procs && s.procs[p].Admitted? && Fits(s, s.procs[p]) && g < |s.groups| && Exist(s, s.groups[g]) ==>
      var r := FirstByName(s, s.groups[g], s.members[s.procs[p].member].name);
      r.Some? && r.value < |s.members| && Holds(s, s.procs[p]) == Some(s.members[r.value].counter)
  }

  /** Steps other than corrections, unmatched releases and releases that resolve elsewhere. */
  predicate Faithful(s: State, l: Label) {
    match l
    case BeginRelease(p, g) => Matched(s, p, g)
    case BeginStrayRelease(_, _) => false
    case Fetched(_, _) => false
    case BeginOverwrite(_, _, _) => false
    case _ => true
  }

  predicate Corrects(proc: Proc) {
    proc.StrayReleasing? || proc.ReconcileLimit? || proc.ReconcileLoad? || proc.ReconcileSwap?
    || proc.OverwriteLimit? || proc.OverwriteStore?
  }

  ghost predicate NoCorrections(s: State) {
    forall p :: p in s.procs ==> !Corrects(s.procs[p])
  }

  /** The slots a process holds before and after one action agree with what the action did. */
  predicate Transfers(s: State, proc: Proc, next: Proc, e: Effect) {
    Fits(s, proc) && Fits(s, next) &&
    match e
    case Silent => Holds(s, next) == Holds(s, proc)
    case Take(c) => Holds(s, proc) == None && Holds(s, next) == Some(c)
    case Give(c) => Holds(s, proc) == Some(c) && Holds(s, next) == None
    case Correct(_, _) => false
  }

  lemma MoveHolds(s: State, proc: Proc, spurious: bool)
    requires Sound(s) && ProcInv(s, proc) && !Corrects(proc)
    requires Holds(s, proc).Some? ==> Holds(s, proc).value < |s.counters| && s.counters[Holds(s, proc).value].value > 0
    ensures var (next, e) := Move(s, proc, spurious); Transfers(s, proc, next, e) && !Corrects(next)
  {
    MoveInv(s, proc, spurious);
  }

  /** A cell on which somebody holds a slot is not at zero. */
  lemma OwnedIsPositive(s: State, p: nat)
    requires Inv(s) && Conserved(s) && p in s.procs
    ensures Fits(s, s.procs[p])
    ensures var h := Holds(s, s.procs[p]); h.Some? ==> h.value < |s.counters| && s.counters[h.value].value > 0
  {
    assert ProcInv(s, s.procs[p]);
    var h := Holds(s, s.procs[p]);
    if h.Some? {
      assert p in Owners(s, h.value);
      assert s.counters[h.value].value == |Owners(s, h.value)| > 0;
    }
  }

  /** Membership in `Owners`, independent of where the process map came from. */
  predicate Owns(s: State, p: nat, c: nat) {
    p in s.procs && Fits(s, s.procs[p]) && Holds(s, s.procs[p]) == Some(c)
  }

  lemma HoldsStable(s: State, s': State, proc: Proc)
    requires Grows(s, s') && ProcInv(s, proc)
    ensures Fits(s', proc) && Holds(s', proc) == Holds(s, proc)
  {
    ProcInvStable(s, s', proc);
  }

  lemma OtherOwners(s: State, s': State, p: nat, c: nat)
    requires Inv(s) && Grows(s, s') && p in s.procs && p in s'.procs && s'.procs[p] == s.procs[p]
    ensures Owns(s, p, c) <==> Owns(s', p, c)
  {
    assert ProcInv(s, s.procs[p]);
    HoldsStable(s, s', s.procs[p]);
  }

  /** A step other than an action of a slot holder moves no slot. */
  lemma QuietOwners(s: State, l: Label, p: nat, c: nat)
    requires Inv(s) && Faithful(s, l) && !l.Advance?
    ensures Owns(s, p, c) <==> Owns(Apply(s, l), p, c)
  {
    var s' := Apply(s, l);
    if p in s.procs {
      assert ProcInv(s, s.procs[p]);
      if s'.procs[p] == s.procs[p] {
        StepGrows(s, l);
        OtherOwners(s, s', p, c);
      }
    }
  }

  lemma TransferOwners(s: State, s': State, p: nat, next: Proc, e: Effect, c: nat)
    requires Inv(s) && Grows(s, s') && p in s.procs && ProcInv(s, next)
    requires s'.procs == s.procs[p := next] && Transfers(s, s.procs[p], next, e)
    ensures Owners(s', c) == if e == Take(c) then Owners(s, c) + {p}
                             else if e == Give(c) then Owners(s, c) - {p} else Owners(s, c)
    ensures e == Take(c) ==> p !in Owners(s, c)
    ensures e == Give(c) ==> p in Owners(s, c)
  {
    HoldsStable(s, s', next);
    forall q
      ensures q != p ==> (q in Owners(s, c) <==> q in Owners(s', c))
    {
      if q != p && q in s.procs {
        OtherOwners(s, s', q, c);
        assert Owns(s, q, c) <==> q in Owners(s, c);
        assert Owns(s', q, c) <==> q in Owners(s', c);
      }
    }
  }

  lemma AdvanceShape(s: State, l: Label)
    requires l.Advance? && l.p in s.procs && Fits(s, s.procs[l.p])
    ensures var s' := Apply(s, l);
            && s'.members == s.members && s'.groups == s.groups && s'.clock == s.clock + 1
            && s'.counters == WriteAll(s, EffectOf(s, l))
            && s'.procs == s.procs[l.p := Move(s, s.procs[l.p], l.spurious).0]
    ensures EffectOf(s, l) == Move(s, s.procs[l.p], l.spurious).1
  {
  }

  lemma AdvanceTransfers(s: State, l: Label, s': State, next: Proc, e: Effect)
    requires Inv(s) && Conserved(s) && NoCorrections(s) && l.Advance? && l.p in s.procs
    requires Fits(s, s.procs[l.p]) && s' == Apply(s, l) && (next, e) == Move(s, s.procs[l.p], l.spurious)
    ensures Grows(s, s') && ProcInv(s, next) && Transfers(s, s.procs[l.p], next, e) && !Corrects(next)
  {
    StepGrows(s, l);
    assert ProcInv(s, s.procs[l.p]);
    OwnedIsPositive(s, l.p);
    MoveHolds(s, s.procs[l.p], l.spurious);
    MoveInv(s, s.procs[l.p], l.spurious);
  }

  lemma AdvanceOwners(s: State, l: Label, c: nat)
    requires Inv(s) && Conserved(s) && NoCorrections(s) && l.Advance? && l.p in s.procs
    ensures var e := EffectOf(s, l);
            Owners(Apply(s, l), c) == if e == Take(c) then Owners(s, c) + {l.p}
                                      else if e == Give(c) then Owners(s, c) - {l.p} else Owners(s, c)
    ensures !EffectOf(s, l).Correct?
    ensures EffectOf(s, l) == Take(c) ==> l.p !in Owners(s, c)
    ensures EffectOf(s, l) == Give(c) ==> l.p in Owners(s, c)
  {
    assert ProcInv(s, s.procs[l.p]);
    var s' := Apply(s, l);
    var (next, e) := Move(s, s.procs[l.p], l.spurious);
    AdvanceShape(s, l);
    AdvanceTransfers(s, l, s', next, e);
    TransferOwners(s, s', l.p, next, e, c);
  }

  lemma NoOwnersOfFreshCell(s: State, c: nat)
    requires Inv(s) && c >= |s.counters|
    ensures Owners(s, c) == {}
  {
    forall p
      ensures p !in Owners(s, c)
    {
      assert p in s.procs ==> ProcInv(s, s.procs[p]);
    }
  }

  lemma QuietConserves(s: State, l: Label, c: nat)
    requires Inv(s) && Conserved(s) && Faithful(s, l) && !l.Advance? && c < |Apply(s, l).counters|
    ensures Apply(s, l).counters[c].value == |Owners(Apply(s, l), c)|
  {
    var s' := Apply(s, l);
    forall p
      ensures p in Owners(s, c) <==> p in Owners(s', c)
    {
      QuietOwners(s, l, p, c);
      assert Owns(s, p, c) <==> p in Owners(s, c);
      assert Owns(s', p, c) <==> p in Owners(s', c);
    }
    assert Owners(s, c) == Owners(s', c);
    if c >= |s.counters| { NoOwnersOfFreshCell(s, c); }
  }

  lemma AdvanceConserves(s: State, l: Label, c: nat)
    requires Inv(s) && Conserved(s) && NoCorrections(s) && l.Advance? && c < |s.counters|
    ensures Apply(s, l).counters[c].value == |Owners(Apply(s, l), c)|
  {
    if l.p in s.procs {
      assert ProcInv(s, s.procs[l.p]);
      AdvanceShape(s, l);
      AdvanceOwners(s, l, c);
      CountFollows(s, EffectOf(s, l), l.p, c, Owners(s, c), Owners(Apply(s, l), c));
    } else {
      assert Owners(Apply(s, l), c) == Owners(s, c);
    }
  }

  lemma CountFollows(s: State, e: Effect, p: nat, c: nat, before: set<nat>, after: set<nat>)
    requires EffectFits(s, e) && !e.Correct? && c < |s.counters| && s.counters[c].value == |before|
    requires after == if e == Take(c) then before + {p} else if e == Give(c) then before - {p} else before
    requires (e == Take(c) ==> p !in before) && (e == Give(c) ==> p in before)
    ensures WriteAll(s, e)[c].value == |after|
  {
  }

  lemma StepNoCorrections(s: State, l: Label)
    requires Inv(s) && Conserved(s) && NoCorrections(s) && Faithful(s, l)
    ensures NoCorrections(Apply(s, l))
  {
    if l.Advance? && l.p in s.procs {
      assert ProcInv(s, s.procs[l.p]);
      OwnedIsPositive(s, l.p);
      MoveHolds(s, s.procs[l.p], l.spurious);
      AdvanceShape(s, l);
    }
  }

  lemma StepConserves(s: State, l: Label)
    requires Inv(s) && Conserved(s) && NoCorrections(s) && Faithful(s, l)
    ensures Conserved(Apply(s, l)) && NoCorrections(Apply(s, l))
  {
    StepNoCorrections(s, l);
    forall c | 0 <= c < |Apply(s, l).counters|
      ensures Apply(s, l).counters[c].value == |Owners(Apply(s, l), c)|
    {
      if l.Advance? { AdvanceConserves(s, l, c); } else { QuietConserves(s, l, c); }
    }
  }

  /** Over a run without corrections and with every release matched, a cell's count is exactly the
      number of processes holding one of its slots: tentative, admitted, or being given back. This
      spans the undo path and reloads, and the count is zero once nobody holds a slot. */
  lemma {:induction false} SlotConservation(t: seq<State>, ls: seq<Label>, n: nat)
    requires IsRun(t, ls) && n < |t|
    requires forall i :: 0 <= i < n ==> Faithful(t[i], ls[i])
    ensures Conserved(t[n]) && NoCorrections(t[n])
    ensures forall c :: 0 <= c < |t[n].counters| && Owners(t[n], c) == {} ==> t[n].counters[c].value == 0
  {
    if n > 0 {
      SlotConservation(t, ls, n - 1);
      RunInv(t, ls, n - 1);
      StepConserves(t[n - 1], ls[n - 1]);
    }
  }

  /** Starting to release keeps the count equal to the slots held exactly when the name resolves,
      in the generation used, to the cell the query was admitted on. */
  lemma ReleaseConservesIffMatched(s: State, p: nat, g: nat)
    requires Inv(s) && Conserved(s) && NoCorrections(s)
    ensures Conserved(Apply(s, BeginRelease(p, g))) <==> Matched(s, p, g)
  {
    if Matched(s, p, g) {
      StepConserves(s, BeginRelease(p, g));
    } else {
      var s' := Apply(s, BeginRelease(p, g));
      var c := Holds(s, s.procs[p]).value;
      StepGrows(s, BeginRelease(p, g));
      assert p in Owners(s, c) && p !in Owners(s', c);
      FirstByNameKnown(s, s.groups[g], s.members[s.procs[p].member].name);
      forall q
        ensures q in Owners(s', c) ==> q in Owners(s, c)
      {
        if q != p && q in s.procs { OtherOwners(s, s', q, c); }
      }
      assert Owners(s', c) < Owners(s, c);
      SmallerSet(Owners(s', c), Owners(s, c));
      assert s'.counters[c].value != |Owners(s', c)|;
    }
  }

  lemma SmallerSet(a: set<nat>, b: set<nat>)
    requires a < b
    ensures |a| < |b|
  {
    assert b == a + (b - a);
  }

  lemma {:induction false} FirstOfUnique(s: State, list: seq<nat>, m: nat)
    requires Exist(s, list) && m in list
    requires forall i, j :: 0 <= i < j < |list| ==> s.members[list[i]].name != s.members[list[j]].name
    ensures FirstByName(s, list, s.members[m].name) == Some(m)
  {
    if list[0] != m {
      var j :| 0 <= j < |list| && list[j] == m;
      FirstOfUnique(s, list[1..], m);
    }
  }
}
