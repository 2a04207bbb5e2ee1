/** What one call has itself added to the counts, whatever ran beside it. */
module AdmissionNet {
  import opened Wrappers
  import opened AdmissionModel
  import opened AdmissionSafety
  import opened AdmissionGroups

  /** What one step of process `p` adds to cell `c`. */
  function Delta(s: State, l: Label, p: nat, c: nat): int {
    if !(l.Advance? && l.p == p) then 0
    else match EffectOf(s, l)
         case Take(d) => if c == d then 1 else 0
         case Give(d) => if c == d then -1 else 0
         case _ => 0
  }

  /** What process `p` has itself added to cell `c` in the first `n` steps. */
  function Net(t: seq<State>, ls: seq<Label>, n: nat, p: nat, c: nat): int
    requires n <= |ls| < |t|
  {
    if n == 0 then 0 else Net(t, ls, n - 1, p, c) + Delta(t[n - 1], ls[n - 1], p, c)
  }

  /** Process `p`, giving back a tentative slot on cell `c`, finds the count at zero: somebody else
      has already taken its slot off the count. */
  predicate LosesUndo(s: State, l: Label, p: nat, c: nat) {
    && l.Advance? && l.p == p && p in s.procs && s.procs[p].Undoing? && Fits(s, s.procs[p])
    && Holds(s, s.procs[p]) == Some(c) && c < |s.counters| && s.counters[c].value == 0
  }

  /** How often that happened to `p` on cell `c` in the first `n` steps. */
  function Lost(t: seq<State>, ls: seq<Label>, n: nat, p: nat, c: nat): nat
    requires n <= |ls| < |t|
  {
    if n == 0 then 0
    else Lost(t, ls, n - 1, p, c) + if LosesUndo(t[n - 1], ls[n - 1], p, c) then 1 else 0
  }

  /** A process that is in `acquire_cluster` or has returned from it, and is not releasing yet. */
  predicate InCall(proc: Proc) {
    proc.Filtering? || proc.Picking? || proc.Trying? || proc.Confirming? || proc.Undoing?
    || proc.Admitted? || proc.Rejected?
  }

  function Slot(s: State, p: nat, c: nat): int {
    if Owns(s, p, c) then 1 else 0
  }

  /** One action of a call: what it adds is what the call holds more, plus what it lost. */
  lemma MoveDelta(s: State, proc: Proc, spurious: bool, c: nat)
    requires Sound(s) && ProcInv(s, proc) && InCall(proc)
    ensures var (next, e) := Move(s, proc, spurious);
            && Fits(s, next) && InCall(next) && !e.Correct?
            && (Holds(s, next) == Some(c) && Holds(s, proc) != Some(c) <==> e == Take(c))
            && (Holds(s, proc) == Some(c) && Holds(s, next) != Some(c) <==>
                  e == Give(c) || (proc.Undoing? && Holds(s, proc) == Some(c) && c < |s.counters| && s.counters[c].value == 0))
            && (e == Give(c) ==> c < |s.counters| && s.counters[c].value > 0)
  {
    MoveInv(s, proc, spurious);
  }

  lemma AdvanceDelta(s: State, l: Label, s': State, p: nat, c: nat)
    requires Inv(s) && s' == Apply(s, l) && l.Advance? && l.p == p && p in s.procs && InCall(s.procs[p])
    ensures Delta(s, l, p, c) == Slot(s', p, c) - Slot(s, p, c) + if LosesUndo(s, l, p, c) then 1 else 0
  {
    var proc := s.procs[p];
    assert ProcInv(s, proc);
    MoveInv(s, proc, l.spurious);
    MoveDelta(s, proc, l.spurious, c);
    AdvanceShape(s, l);
    StepGrows(s, l);
    HoldsStable(s, s', s'.procs[p]);
  }

  lemma StepDelta(s: State, l: Label, s': State, p: nat, c: nat)
    requires Inv(s) && s' == Apply(s, l) && (p in s'.procs ==> InCall(s'.procs[p]))
    requires p in s.procs ==> InCall(s.procs[p])
    ensures Delta(s, l, p, c) == Slot(s', p, c) - Slot(s, p, c) + if LosesUndo(s, l, p, c) then 1 else 0
  {
    if p !in s.procs {
      if p in s'.procs { SpawnShape(s, l, p); }
    } else if l.Advance? && l.p == p {
      AdvanceDelta(s, l, s', p, c);
    } else if s'.procs[p] == s.procs[p] {
      StepGrows(s, l);
      OtherOwners(s, s', p, c);
    } else {
      RelabelShape(s, l, p);
    }
  }

  /** A process that is in its call was in it, or did not exist, one step earlier. */
  lemma WasInCall(s: State, l: Label, p: nat)
    requires Inv(s) && p in s.procs && InCall(Apply(s, l).procs[p])
    ensures InCall(s.procs[p])
  {
    assert ProcInv(s, s.procs[p]);
    if Apply(s, l).procs[p] != s.procs[p] {
      if l.Advance? && l.p == p { AdvanceShape(s, l); } else { RelabelShape(s, l, p); }
    }
  }

  lemma ProcsStay(s: State, l: Label, p: nat)
    requires p in s.procs
    ensures p in Apply(s, l).procs
  {
  }

  /** In every run, corrections and stray releases included: what a call has added to a cell is one
      if it holds a slot there, plus the number of its undos that found the count at zero. */
  lemma {:induction false} NetIsSlotPlusLost(t: seq<State>, ls: seq<Label>, n: nat, p: nat, c: nat)
    requires IsRun(t, ls) && n <= |ls| && (p in t[n].procs ==> InCall(t[n].procs[p]))
    ensures Net(t, ls, n, p, c) == Slot(t[n], p, c) + Lost(t, ls, n, p, c)
  {
    if n > 0 {
      var s, l := t[n - 1], ls[n - 1];
      RunInv(t, ls, n - 1);
      if p in s.procs {
        ProcsStay(s, l, p);
        WasInCall(s, l, p);
      }
      NetIsSlotPlusLost(t, ls, n - 1, p, c);
      StepDelta(s, l, t[n], p, c);
    }
  }

  /** So a call that returned a member has added exactly one to that member's cell and nothing to any
      other, and one that returned none has added nothing, if and only if none of its undos found
      the count at zero. */
  lemma AnswerIsNetIff(t: seq<State>, ls: seq<Label>, n: nat, p: nat, c: nat)
    requires IsRun(t, ls) && n <= |ls| && p in t[n].procs && (t[n].procs[p].Admitted? || t[n].procs[p].Rejected?)
    ensures Fits(t[n], t[n].procs[p])
    ensures (forall i :: 0 <= i < n ==> !LosesUndo(t[i], ls[i], p, c)) <==>
              Net(t, ls, n, p, c) == if t[n].procs[p].Admitted? && CounterOf(t[n], t[n].procs[p].member) == c then 1 else 0
  {
    RunInv(t, ls, n);
    assert ProcInv(t[n], t[n].procs[p]);
    NetIsSlotPlusLost(t, ls, n, p, c);
    LostIff(t, ls, n, p, c);
  }

  lemma {:induction false} LostIff(t: seq<State>, ls: seq<Label>, n: nat, p: nat, c: nat)
    requires n <= |ls| < |t|
    ensures Lost(t, ls, n, p, c) == 0 <==> forall i :: 0 <= i < n ==> !LosesUndo(t[i], ls[i], p, c)
  {
    if n > 0 { LostIff(t, ls, n - 1, p, c); }
  }

  /** Without corrections and with every release matched no undo is lost, and the equation also
      covers the release: a finished query has added nothing in total. */
  lemma {:induction false} NetIsSlotHeld(t: seq<State>, ls: seq<Label>, n: nat, p: nat, c: nat)
    requires IsRun(t, ls) && n <= |ls|
    requires forall i :: 0 <= i < n ==> Faithful(t[i], ls[i])
    ensures Net(t, ls, n, p, c) == if p in Owners(t[n], c) then 1 else 0
    ensures Lost(t, ls, n, p, c) == 0
  {
    if n > 0 {
      NetIsSlotHeld(t, ls, n - 1, p, c);
      SlotConservation(t, ls, n - 1);
      RunInv(t, ls, n - 1);
      FaithfulDelta(t[n - 1], ls[n - 1], t[n], p, c);
    }
  }

  lemma FaithfulDelta(s: State, l: Label, s': State, p: nat, c: nat)
    requires Inv(s) && Conserved(s) && NoCorrections(s) && Faithful(s, l) && s' == Apply(s, l)
    ensures Delta(s, l, p, c) == (if p in Owners(s', c) then 1 else 0) - (if p in Owners(s, c) then 1 else 0)
    ensures !LosesUndo(s, l, p, c)
  {
    assert Owns(s, p, c) <==> p in Owners(s, c);
    assert Owns(s', p, c) <==> p in Owners(s', c);
    if p in s.procs { OwnedIsPositive(s, p); }
    if l.Advance? {
      if l.p in s.procs { AdvanceOwners(s, l, c); }
    } else {
      QuietOwners(s, l, p, c);
    }
  }
}
