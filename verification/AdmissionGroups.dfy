/** A call only ever deals with members of the group it was made on. With distinct names this makes
    releases find the cell they were admitted on, and so conserves slots. */
module AdmissionGroups {
  import opened Wrappers
  import opened AdmissionModel
  import opened AdmissionSafety

  ghost predicate Within(ms: seq<nat>, list: seq<nat>) {
    forall i :: 0 <= i < |ms| ==> ms[i] in list
  }

  /** Every member the call still considers, and the one it returned, is in its group. */
  ghost predicate FromGroup(s: State, proc: Proc)
    requires Fits(s, proc)
  {
    match proc
    case Filtering(g, _, _, eligible, _) => Within(eligible, s.groups[g])
    case Picking(g, _, eligible) => Within(eligible, s.groups[g])
    case Trying(g, _, queue, _) => Within(queue, s.groups[g])
    case Confirming(g, _, queue, _, _) => Within(queue, s.groups[g])
    case Undoing(g, _, queue, _) => Within(queue, s.groups[g])
    case Admitted(g, _, member, _) => member in s.groups[g]
    case _ => true
  }

  lemma FilteringFromGroup(s: State, proc: Proc)
    requires proc.Filtering? && Fits(s, proc) && FromGroup(s, proc) && Fits(s, MoveFiltering(s, proc))
    ensures FromGroup(s, MoveFiltering(s, proc))
  {
    assert Within(proc.eligible + [s.groups[proc.g][proc.i]], s.groups[proc.g]);
  }

  lemma MoveFromGroup(s: State, proc: Proc, spurious: bool)
    requires Fits(s, proc) && FromGroup(s, proc) && Fits(s, Move(s, proc, spurious).0)
    ensures FromGroup(s, Move(s, proc, spurious).0)
  {
    if proc.Filtering? {
      FilteringFromGroup(s, proc);
    } else if proc.Trying? || proc.Undoing? {
      assert Within(proc.queue[1..], s.groups[proc.g]);
    }
  }

  lemma FromGroupLasts(s: State, s': State, proc: Proc)
    requires Grows(s, s') && Fits(s, proc) && Fits(s', proc) && FromGroup(s, proc)
    ensures FromGroup(s', proc)
  {
  }

  lemma AdvanceFromGroup(s: State, l: Label, s': State)
    requires Sound(s) && s' == Apply(s, l) && Grows(s, s') && l.Advance? && l.p in s.procs
    requires ProcInv(s, s.procs[l.p]) && FromGroup(s, s.procs[l.p]) && Fits(s', s'.procs[l.p])
    ensures FromGroup(s', s'.procs[l.p])
  {
    AdvanceShape(s, l);
    MoveInv(s, s.procs[l.p], l.spurious);
    MoveFromGroup(s, s.procs[l.p], l.spurious);
    FromGroupLasts(s, s', s'.procs[l.p]);
  }

  lemma StepFromGroup(s: State, l: Label, s': State, p: nat)
    requires Sound(s) && s' == Apply(s, l) && Grows(s, s') && p in s'.procs && Fits(s', s'.procs[p])
    requires p in s.procs ==> ProcInv(s, s.procs[p]) && FromGroup(s, s.procs[p])
    ensures FromGroup(s', s'.procs[p])
  {
    if p !in s.procs {
      SpawnShape(s, l, p);
    } else if s'.procs[p] == s.procs[p] {
      FromGroupLasts(s, s', s.procs[p]);
    } else if l.Advance? && l.p == p {
      AdvanceFromGroup(s, l, s');
    } else {
      RelabelShape(s, l, p);
    }
  }

  ghost predicate AllFromGroup(s: State) {
    forall p :: p in s.procs ==> Fits(s, s.procs[p]) && FromGroup(s, s.procs[p])
  }

  lemma StepAllFromGroup(s: State, l: Label)
    requires Inv(s) && AllFromGroup(s)
    ensures AllFromGroup(Apply(s, l))
  {
    var s' := Apply(s, l);
    StepInv(s, l);
    StepGrows(s, l);
    forall p | p in s'.procs
      ensures Fits(s', s'.procs[p]) && FromGroup(s', s'.procs[p])
    {
      assert ProcInv(s', s'.procs[p]);
      StepFromGroup(s, l, s', p);
    }
  }

  lemma {:induction false} RunFromGroup(t: seq<State>, ls: seq<Label>, n: nat)
    requires IsRun(t, ls) && n < |t|
    ensures AllFromGroup(t[n])
  {
    if n > 0 {
      RunFromGroup(t, ls, n - 1);
      RunInv(t, ls, n - 1);
      StepAllFromGroup(t[n - 1], ls[n - 1]);
    }
  }

  // ----- Releases by name --------------------------------------------------------------------

  ghost predicate DistinctNames(s: State, list: seq<nat>) {
    forall i, j :: 0 <= i < j < |list| && Known(s, list[i]) && Known(s, list[j]) ==>
      s.members[list[i]].name != s.members[list[j]].name
  }

  /** With distinct member names, a release through the generation that admitted is matched. */
  lemma UniqueNamesMatch(t: seq<State>, ls: seq<Label>, n: nat, p: nat)
    requires IsRun(t, ls) && n < |t| && p in t[n].procs && t[n].procs[p].Admitted?
    requires t[n].procs[p].g < |t[n].groups| && DistinctNames(t[n], t[n].groups[t[n].procs[p].g])
    ensures Matched(t[n], p, t[n].procs[p].g)
  {
    var s := t[n];
    RunInv(t, ls, n);
    RunFromGroup(t, ls, n);
    FirstOfUnique(s, s.groups[s.procs[p].g], s.procs[p].member);
  }

  /** A step that corrects nothing, releases only admitted queries, and those through the generation
      that admitted them. */
  predicate Orderly(s: State, l: Label) {
    match l
    case BeginRelease(p, g) => p in s.procs && s.procs[p].Admitted? ==> g == s.procs[p].g
    case BeginStrayRelease(_, _) => false
    case Fetched(_, _) => false
    case BeginOverwrite(_, _, _) => false
    case _ => true
  }

  /** Over a run without corrections in which every query is released through the manager that
      admitted it, and member names are distinct within each group, each count is exactly the number
      of slots held. */
  lemma OrderlyConservation(t: seq<State>, ls: seq<Label>, n: nat)
    requires IsRun(t, ls) && n < |t|
    requires forall i :: 0 <= i < n ==> Orderly(t[i], ls[i])
    requires forall i, g :: 0 <= i < n && 0 <= g < |t[i].groups| ==> DistinctNames(t[i], t[i].groups[g])
    ensures Conserved(t[n])
    ensures forall c :: 0 <= c < |t[n].counters| && Owners(t[n], c) == {} ==> t[n].counters[c].value == 0
  {
    forall i | 0 <= i < n
      ensures Faithful(t[i], ls[i])
    {
      assert Orderly(t[i], ls[i]);
      OrderlyIsFaithful(t, ls, i);
    }
    SlotConservation(t, ls, n);
  }

  lemma OrderlyIsFaithful(t: seq<State>, ls: seq<Label>, i: nat)
    requires IsRun(t, ls) && i < |ls| && Orderly(t[i], ls[i])
    requires forall g :: 0 <= g < |t[i].groups| ==> DistinctNames(t[i], t[i].groups[g])
    ensures Faithful(t[i], ls[i])
  {
    var s, l := t[i], ls[i];
    if l.BeginRelease? && l.p in s.procs && s.procs[l.p].Admitted? && l.g < |s.groups| {
      UniqueNamesMatch(t, ls, i, l.p);
    }
  }
}
