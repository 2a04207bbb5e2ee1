/** Progress of the compare-exchange loops, whatever runs beside them. */
module AdmissionProgress {
  import opened Wrappers
  import opened AdmissionModel
  import opened AdmissionSafety

  /** The member on whose cell the process is about to exchange, and the count it expects there. */
  function Expects(proc: Proc): Option<(nat, nat)> {
    match proc
    case Trying(_, _, queue, stage) =>
      if queue != [] && (stage.AtLimit? || stage.AtSwap?) then Some((queue[0], stage.seen)) else None
    case Undoing(_, _, queue, stage) => if queue != [] && stage.AtSwap? then Some((queue[0], stage.seen)) else None
    case Releasing(m, stage) => if stage.AtSwap? then Some((m, stage.seen)) else None
    case StrayReleasing(m, stage) => if stage.AtSwap? then Some((m, stage.seen)) else None
    case ReconcileSwap(m, _, _, _, _, seen) => Some((m, seen))
    case _ => None
  }

  /** The next action of the process is the exchange itself. */
  predicate Exchanging(proc: Proc) {
    match proc
    case Trying(_, _, queue, stage) => queue != [] && stage.AtSwap?
    case Undoing(_, _, queue, stage) => queue != [] && stage.AtSwap?
    case Releasing(_, stage) => stage.AtSwap?
    case StrayReleasing(_, stage) => stage.AtSwap?
    case ReconcileSwap(_, _, _, _, _, _) => true
    case _ => false
  }

  /** Process `p` writes nothing in this step. */
  predicate Quiet(s: State, l: Label, p: nat) {
    l.Advance? && l.p == p ==> EffectOf(s, l).Silent?
  }

  predicate Reads(s: State, m: nat, v: nat) {
    Known(s, m) && ValueOf(s, m) == v
  }

  /** In step `r` process `p` read the count `v` of member `m`, and it has written nothing since. */
  ghost predicate ReadAt(t: seq<State>, ls: seq<Label>, r: nat, n: nat, p: nat, m: nat, v: nat) {
    && r < n <= |ls| < |t| && ls[r].Advance? && ls[r].p == p && Reads(t[r], m, v)
    && forall j :: r <= j < n ==> Quiet(t[j], ls[j], p)
  }

  lemma MoveExpects(s: State, proc: Proc, spurious: bool)
    requires Fits(s, proc)
    ensures var (next, e) := Move(s, proc, spurious);
            Expects(next).Some? ==>
              && e.Silent?
              && (Expects(next) == Expects(proc) || Reads(s, Expects(next).value.0, Expects(next).value.1))
  {
    if proc.Trying? || proc.Undoing? { assert Known(s, proc.queue[0]); }
  }

  lemma SpawnExpects(s: State, l: Label, p: nat)
    requires p !in s.procs && p in Apply(s, l).procs
    ensures Expects(Apply(s, l).procs[p]).None?
  {
  }

  /** One step of a process that ends up expecting a count: it read it just now, or it expected it
      already and stayed quiet. */
  lemma StepExpects(s: State, l: Label, s': State, p: nat)
    requires Inv(s) && s' == Apply(s, l) && p in s'.procs && Expects(s'.procs[p]).Some?
    ensures Quiet(s, l, p)
    ensures || (p in s.procs && Expects(s.procs[p]) == Expects(s'.procs[p]))
            || (l.Advance? && l.p == p && Reads(s, Expects(s'.procs[p]).value.0, Expects(s'.procs[p]).value.1))
  {
    if p !in s.procs {
      SpawnExpects(s, l, p);
    } else if l.Advance? && l.p == p {
      assert ProcInv(s, s.procs[p]);
      AdvanceShape(s, l);
      MoveExpects(s, s.procs[p], l.spurious);
    } else if s'.procs[p] != s.procs[p] {
      RelabelShape(s, l, p);
    }
  }

  /** `StepExpects`, of step `k` of a run. */
  ghost predicate ExpectsSince(t: seq<State>, ls: seq<Label>, k: nat, p: nat) {
    k < |ls| && k + 1 < |t| && p in t[k + 1].procs && Expects(t[k + 1].procs[p]).Some? ==>
      var e := Expects(t[k + 1].procs[p]);
      && Quiet(t[k], ls[k], p)
      && (|| (p in t[k].procs && Expects(t[k].procs[p]) == e)
          || (ls[k].Advance? && ls[k].p == p && Reads(t[k], e.value.0, e.value.1)))
  }

  lemma {:induction false} ReadChain(t: seq<State>, ls: seq<Label>, n: nat, p: nat) returns (r: nat)
    requires |t| == |ls| + 1 && n < |t| && p !in t[0].procs && forall k: nat :: ExpectsSince(t, ls, k, p)
    requires p in t[n].procs && Expects(t[n].procs[p]).Some?
    ensures var (m, v) := Expects(t[n].procs[p]).value; ReadAt(t, ls, r, n, p, m, v)
  {
    assert ExpectsSince(t, ls, n - 1, p);
    r := n - 1;
    if p in t[n - 1].procs && Expects(t[n - 1].procs[p]) == Expects(t[n].procs[p]) {
      r := ReadChain(t, ls, n - 1, p);
    }
  }

  lemma RunExpects(t: seq<State>, ls: seq<Label>, k: nat, p: nat)
    requires IsRun(t, ls)
    ensures ExpectsSince(t, ls, k, p)
  {
    if k < |ls| && p in t[k + 1].procs && Expects(t[k + 1].procs[p]).Some? {
      RunInv(t, ls, k);
      StepExpects(t[k], ls[k], t[k + 1], p);
    }
  }

  /** Whatever count a process expects, it has read. */
  lemma ExpectedWasRead(t: seq<State>, ls: seq<Label>, n: nat, p: nat) returns (r: nat)
    requires IsRun(t, ls) && n < |t| && p in t[n].procs && Expects(t[n].procs[p]).Some?
    ensures var (m, v) := Expects(t[n].procs[p]).value; ReadAt(t, ls, r, n, p, m, v)
  {
    forall k: nat ensures ExpectsSince(t, ls, k, p) { RunExpects(t, ls, k, p); }
    r := ReadChain(t, ls, n, p);
  }

  /** This step writes to cell `c`. */
  predicate Writes(s: State, l: Label, c: nat) {
    l.Advance? && !EffectOf(s, l).Silent? && EffectOf(s, l).c == c
  }

  lemma OnlyWritesChange(s: State, l: Label, c: nat)
    requires c < |s.counters|
    ensures c < |Apply(s, l).counters| && (Apply(s, l).counters[c].value != s.counters[c].value ==> Writes(s, l, c))
  {
  }

  predicate Holding(s: State, c: nat, v: nat) {
    c < |s.counters| && s.counters[c].value == v
  }

  /** A count that has changed was written to. */
  lemma {:induction false} ChangedWasWritten(t: seq<State>, ls: seq<Label>, r: nat, n: nat, c: nat, v: nat) returns (j: nat)
    requires IsRun(t, ls) && r <= n < |t| && Holding(t[r], c, v) && !Holding(t[n], c, v)
    ensures r <= j < n && Writes(t[j], ls[j], c)
  {
    j := n - 1;
    if Holding(t[n - 1], c, v) {
      OnlyWritesChange(t[n - 1], ls[n - 1], c);
    } else {
      j := ChangedWasWritten(t, ls, r, n - 1, c, v);
    }
  }

  /** An exchange that does not fail spuriously fails only if the count is not the expected one. */
  lemma FailedExchange(s: State, l: Label)
    requires Inv(s) && l.Advance? && !l.spurious && l.p in s.procs && Exchanging(s.procs[l.p]) && EffectOf(s, l).Silent?
    ensures Expects(s.procs[l.p]).Some?
    ensures var (m, v) := Expects(s.procs[l.p]).value; Known(s, m) && !Holding(s, CounterOf(s, m), v)
  {
    assert ProcInv(s, s.procs[l.p]);
    AdvanceShape(s, l);
  }

  /** Lock-freedom, for admissions, undos, releases and reconciliations alike: an exchange that does
      not fail spuriously fails only because, after step `r` in which the process read the count, some
      other process wrote the cell, in step `j`. */
  lemma ExchangeFailsOnlyToAnother(t: seq<State>, ls: seq<Label>, n: nat, p: nat) returns (r: nat, j: nat)
    requires IsRun(t, ls) && n < |ls| && ls[n] == Advance(p, false)
    requires p in t[n].procs && Exchanging(t[n].procs[p]) && EffectOf(t[n], ls[n]).Silent?
    ensures Expects(t[n].procs[p]).Some?
    ensures var (m, v) := Expects(t[n].procs[p]).value;
            && ReadAt(t, ls, r, n, p, m, v) && Known(t[n], m)
            && r <= j < n && ls[j].Advance? && ls[j].p != p && Writes(t[j], ls[j], CounterOf(t[n], m))
  {
    RunInv(t, ls, n);
    FailedExchange(t[n], ls[n]);
    r := ExpectedWasRead(t, ls, n, p);
    var (m, v) := Expects(t[n].procs[p]).value;
    SameCell(t, ls, r, n, m);
    j := ChangedWasWritten(t, ls, r, n, CounterOf(t[n], m), v);
    assert Quiet(t[j], ls[j], p);
  }

  lemma SameCell(t: seq<State>, ls: seq<Label>, r: nat, n: nat, m: nat)
    requires IsRun(t, ls) && r <= n < |t| && Known(t[r], m)
    ensures Known(t[n], m) && CounterOf(t[n], m) == CounterOf(t[r], m)
  {
    RunGrows(t, ls, r, n);
  }
}
