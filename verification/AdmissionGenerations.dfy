/** Reloads: which members draw on one count, and what that bounds. */
module AdmissionGenerations {
  import opened Wrappers
  import opened AdmissionModel
  import opened AdmissionSafety

  // ----- One reload --------------------------------------------------------------------------

  /** A new generation whose predecessor is in the same group draws on the predecessor's cell, and no
      count changes. */
  lemma SameGroupShares(s: State, l: Label, m: nat)
    requires l.NewMember? && l.previous == Some(m) && Known(s, m) && s.members[m].group == l.group
    ensures var s' := Apply(s, l);
            && |s'.members| == |s.members| + 1 && s'.members[..|s.members|] == s.members
            && s'.members[|s.members|].counter == s.members[m].counter
            && |s'.counters| == |s.counters|
            && forall c :: 0 <= c < |s.counters| ==> s'.counters[c].value == s.counters[c].value
  {
  }

  /** Without a predecessor, or with one in another group, it draws on a cell that no earlier member
      draws on, at zero, and no other count changes. */
  lemma OtherwiseFresh(s: State, l: Label)
    requires Inv(s) && l.NewMember?
    requires l.previous.Some? && l.previous.value < |s.members| ==> s.members[l.previous.value].group != l.group
    ensures var s' := Apply(s, l);
            && |s'.members| == |s.members| + 1 && s'.members[..|s.members|] == s.members
            && (forall m :: 0 <= m < |s.members| ==> s'.members[|s.members|].counter != s.members[m].counter)
            && s'.members[|s.members|].counter == |s.counters| && s'.counters[..|s.counters|] == s.counters
            && |s'.counters| == |s.counters| + 1 && s'.counters[|s.counters|].value == 0
  {
    forall m | 0 <= m < |s.members|
      ensures s.members[m].counter < |s.counters|
    {
      assert MemberInv(s, m);
    }
  }

  // ----- Whole runs --------------------------------------------------------------------------

  predicate AllBirths(bs: seq<Label>) {
    forall i :: 0 <= i < |bs| ==> bs[i].NewMember?
  }

  /** The labels that added the members, in their order. */
  function Births(ls: seq<Label>): (bs: seq<Label>)
    ensures AllBirths(bs)
  {
    if ls == [] then []
    else if ls[|ls| - 1].NewMember? then Births(ls[..|ls| - 1]) + [ls[|ls| - 1]]
    else Births(ls[..|ls| - 1])
  }

  lemma BirthsStep(ls: seq<Label>, n: nat)
    requires n < |ls|
    ensures Births(ls[..n + 1]) == if ls[n].NewMember? then Births(ls[..n]) + [ls[n]] else Births(ls[..n])
  {
    assert ls[..n + 1][..n] == ls[..n];
  }

  /** The first generation of member `m`: followed back through predecessors in the same group. */
  function Root(bs: seq<Label>, m: nat): (r: nat)
    requires AllBirths(bs)
    ensures r <= m
  {
    if m < |bs| && bs[m].previous.Some? && bs[m].previous.value < m && bs[bs[m].previous.value].group == bs[m].group
    then Root(bs, bs[m].previous.value) else m
  }

  lemma {:induction false} RootStays(bs: seq<Label>, l: Label, m: nat)
    requires m < |bs| && AllBirths(bs) && l.NewMember?
    ensures AllBirths(bs + [l]) && Root(bs + [l], m) == Root(bs, m)
  {
    if bs[m].previous.Some? && bs[m].previous.value < m && bs[bs[m].previous.value].group == bs[m].group {
      RootStays(bs, l, bs[m].previous.value);
    }
  }

  /** Two members draw on one cell exactly when they are generations of one member. */
  ghost predicate SharedByRoot(s: State, bs: seq<Label>)
    requires AllBirths(bs)
  {
    && |s.members| == |bs|
    && (forall m :: 0 <= m < |bs| ==> s.members[m].group == bs[m].group)
    && (forall m, m' :: 0 <= m < |bs| && 0 <= m' < |bs| ==>
          (s.members[m].counter == s.members[m'].counter <==> Root(bs, m) == Root(bs, m')))
  }

  /** A step that adds no member leaves names, groups and cells of the members as they are. */
  lemma OthersKeepCells(s: State, l: Label)
    requires !l.NewMember?
    ensures |Apply(s, l).members| == |s.members|
    ensures forall m :: 0 <= m < |s.members| ==>
              Apply(s, l).members[m].group == s.members[m].group && Apply(s, l).members[m].counter == s.members[m].counter
  {
  }

  lemma OthersKeepShared(s: State, l: Label, bs: seq<Label>, s': State)
    requires !l.NewMember? && AllBirths(bs) && SharedByRoot(s, bs) && s' == Apply(s, l)
    ensures SharedByRoot(s', bs)
  {
    OthersKeepCells(s, l);
  }

  lemma BirthSharesOrNot(s: State, l: Label, bs: seq<Label>, s': State, m: nat)
    requires Inv(s) && l.NewMember? && AllBirths(bs) && SharedByRoot(s, bs) && s' == Apply(s, l) && m < |bs|
    ensures |s'.members| == |bs| + 1 && AllBirths(bs + [l])
    ensures s'.members[m].counter == s'.members[|bs|].counter <==> Root(bs + [l], m) == Root(bs + [l], |bs|)
  {
    RootStays(bs, l, m);
    if l.previous.Some? && l.previous.value < |bs| && s.members[l.previous.value].group == l.group {
      assert MemberInv(s, l.previous.value);
      SameGroupShares(s, l, l.previous.value);
      RootStays(bs, l, l.previous.value);
    } else {
      OtherwiseFresh(s, l);
    }
  }

  lemma BirthKeeps(s: State, l: Label, bs: seq<Label>, s': State)
    requires Inv(s) && l.NewMember? && AllBirths(bs) && SharedByRoot(s, bs) && s' == Apply(s, l)
    ensures AllBirths(bs + [l]) && SharedByRoot(s', bs + [l])
  {
    forall m, m' | 0 <= m < |bs| + 1 && 0 <= m' < |bs| + 1
      ensures AllBirths(bs + [l]) && |s'.members| == |bs| + 1
      ensures s'.members[m].counter == s'.members[m'].counter <==> Root(bs + [l], m) == Root(bs + [l], m')
    {
      if m < |bs| { BirthSharesOrNot(s, l, bs, s', m); RootStays(bs, l, m); }
      if m' < |bs| { BirthSharesOrNot(s, l, bs, s', m'); RootStays(bs, l, m'); }
    }
  }

  /** In every state of every run, two members draw on one count if and only if they are generations
      of one member, each having named its predecessor in its group. */
  lemma {:induction false} GenerationsShareCell(t: seq<State>, ls: seq<Label>, n: nat)
    requires IsRun(t, ls) && n < |t|
    ensures SharedByRoot(t[n], Births(ls[..n]))
  {
    if n > 0 {
      GenerationsShareCell(t, ls, n - 1);
      RunInv(t, ls, n - 1);
      BirthsStep(ls, n - 1);
      if ls[n - 1].NewMember? {
        BirthKeeps(t[n - 1], ls[n - 1], Births(ls[..n - 1]), t[n]);
      } else {
        OthersKeepShared(t[n - 1], ls[n - 1], Births(ls[..n - 1]), t[n]);
      }
    }
  }

  // ----- What the generations hold together --------------------------------------------------

  /** The member on which a process holds a slot. */
  function HeldOn(proc: Proc): Option<nat> {
    match proc
    case Confirming(_, _, queue, _, _) => if queue == [] then None else Some(queue[0])
    case Undoing(_, _, queue, _) => if queue == [] then None else Some(queue[0])
    case Admitted(_, _, member, _) => Some(member)
    case Releasing(member, _) => Some(member)
    case _ => None
  }

  /** The processes that hold a slot of some generation of the member that began as `r`. */
  function Holders(s: State, bs: seq<Label>, r: nat): set<nat>
    requires AllBirths(bs)
  {
    set p | p in s.procs && HeldOn(s.procs[p]).Some? && HeldOn(s.procs[p]).value < |bs|
            && Root(bs, HeldOn(s.procs[p]).value) == r
  }

  lemma HoldersAreOwners(s: State, bs: seq<Label>, m: nat)
    requires Inv(s) && AllBirths(bs) && SharedByRoot(s, bs) && m < |bs|
    ensures Holders(s, bs, Root(bs, m)) == Owners(s, s.members[m].counter)
  {
    forall p
      ensures p in Holders(s, bs, Root(bs, m)) <==> p in Owners(s, s.members[m].counter)
    {
      if p in s.procs { assert ProcInv(s, s.procs[p]); }
    }
  }

  /** Over any run without corrections and with every release matched, the slots held on all
      generations of a member together are at most a limit that some generation of it has had. */
  lemma GenerationsWithinOneLimit(t: seq<State>, ls: seq<Label>, n: nat, m: nat) returns (k: nat, m': nat)
    requires IsRun(t, ls) && n < |t| && m < |t[n].members|
    requires forall i :: 0 <= i < n ==> Faithful(t[i], ls[i])
    ensures k <= n && m' < |t[k].members| <= |t[n].members|
    ensures Root(Births(ls[..n]), m') == Root(Births(ls[..n]), m)
    ensures |Holders(t[n], Births(ls[..n]), Root(Births(ls[..n]), m))| <= t[k].members[m'].limit
  {
    GenerationsShareCell(t, ls, n);
    RunInv(t, ls, n);
    assert MemberInv(t[n], m);
    var c := t[n].members[m].counter;
    HoldersAreOwners(t[n], Births(ls[..n]), m);
    SlotConservation(t, ls, n);
    k, m' := SomeLimit(t, ls, n, c);
  }

  lemma SomeLimit(t: seq<State>, ls: seq<Label>, n: nat, c: nat) returns (k: nat, m: nat)
    requires IsRun(t, ls) && n < |t| && c < |t[n].counters|
    ensures k <= n && m < |t[k].members| <= |t[n].members| && t[n].members[m].counter == c
    ensures t[n].counters[c].value <= t[k].members[m].limit
  {
    RunningWithinSomeLimit(t, ls, n, c);
    k, m :| k <= n && DrawsOn(t[k], m, c) && t[n].counters[c].value <= t[k].members[m].limit;
    RunGrows(t, ls, k, n);
  }

  /** While no generation of a member has ever had a limit above `limit`, together they never hold
      more slots than that, however often the configuration is reloaded. */
  lemma GenerationsWithinFixedLimit(t: seq<State>, ls: seq<Label>, n: nat, m: nat, limit: nat)
    requires IsRun(t, ls) && n < |t| && m < |t[n].members|
    requires forall i :: 0 <= i < n ==> Faithful(t[i], ls[i])
    requires forall k: nat, m': nat ::
               (k <= n && m' < |t[k].members| && m' < |t[n].members| && Root(Births(ls[..n]), m') == Root(Births(ls[..n]), m)) ==>
                 t[k].members[m'].limit <= limit
    ensures |Holders(t[n], Births(ls[..n]), Root(Births(ls[..n]), m))| <= limit
  {
    var k, m' := GenerationsWithinOneLimit(t, ls, n, m);
  }
}
