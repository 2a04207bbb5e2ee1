/** What a member's settings are, and what an absolute overwrite stores, read off the labels of a
    run. */
module AdmissionSettings {
  import opened Wrappers
  import opened AdmissionModel
  import opened AdmissionSafety

  datatype Field = OfLimit | OfEnabled | OfHealthy | OfBreaker

  datatype Setting = Limit(limit: U64) | Enabled(on: bool) | Healthy(up: bool) | Breaker(state: Option<CircuitState>)

  function Shown(x: Member, f: Field): Setting {
    match f
    case OfLimit => Limit(x.limit)
    case OfEnabled => Enabled(x.enabled)
    case OfHealthy => Healthy(x.healthy)
    case OfBreaker => Breaker(x.breaker)
  }

  /** What the label gives member `m` for the field. A member built without a breaker never gets one. */
  function Given(s: State, l: Label, m: nat, f: Field): Option<Setting> {
    if l.NewMember? && m == |s.members| then
      match f
      case OfLimit => Some(Limit(l.limit))
      case OfEnabled => Some(Enabled(l.enabled))
      case OfHealthy => Some(Healthy(l.healthy))
      case OfBreaker => Some(Breaker(l.breaker))
    else if m >= |s.members| then None
    else if l.SetLimit? && l.m == m && f.OfLimit? then Some(Limit(l.limit))
    else if l.SetEnabled? && l.m == m && f.OfEnabled? then Some(Enabled(l.on))
    else if l.SetHealthy? && l.m == m && f.OfHealthy? then Some(Healthy(l.on))
    else if l.SetBreaker? && l.m == m && f.OfBreaker? && s.members[m].breaker.Some? then Some(Breaker(Some(l.state)))
    else None
  }

  lemma ShownNext(s: State, l: Label, m: nat, f: Field)
    requires m < |Apply(s, l).members| && (m < |s.members| ==> Known(s, m))
    ensures Given(s, l, m, f).None? ==> m < |s.members|
    ensures Shown(Apply(s, l).members[m], f) == if Given(s, l, m, f).Some? then Given(s, l, m, f).value else Shown(s.members[m], f)
  {
  }

  /** In every run, each setting of each member is what the latest label that concerns it gave: the
      one that added the member, or a later one that set it. */
  lemma {:induction false} SettingIsLatest(t: seq<State>, ls: seq<Label>, n: nat, m: nat, f: Field) returns (j: nat)
    requires IsRun(t, ls) && n < |t| && m < |t[n].members|
    ensures j < n && Given(t[j], ls[j], m, f) == Some(Shown(t[n].members[m], f))
    ensures forall i :: j < i < n ==> Given(t[i], ls[i], m, f).None?
  {
    var s, l := t[n - 1], ls[n - 1];
    RunInv(t, ls, n - 1);
    if m < |s.members| { assert MemberInv(s, m); }
    ShownNext(s, l, m, f);
    j := n - 1;
    if Given(s, l, m, f).None? { j := SettingIsLatest(t, ls, n - 1, m, f); }
  }

  // ----- Absolute overwrites -----------------------------------------------------------------

  /** Step `a` began an overwrite of member `m` with `count`. */
  ghost predicate Begun(ls: seq<Label>, n: nat, a: nat, p: nat, m: nat, count: U64) {
    a < n <= |ls| && ls[a] == BeginOverwrite(p, m, count)
  }

  /** Step `b` of the same process then read the limit, and `value` is the smaller of the two. */
  ghost predicate Capped(t: seq<State>, ls: seq<Label>, n: nat, a: nat, b: nat, p: nat, m: nat, count: U64, value: U64) {
    && a < b < n <= |ls| && n < |t| && ls[a] == BeginOverwrite(p, m, count)
    && ls[b].Advance? && ls[b].p == p && m < |t[b].members|
    && value == if count <= t[b].members[m].limit then count else t[b].members[m].limit
  }

  ghost predicate OverwriteStory(t: seq<State>, ls: seq<Label>, n: nat, p: nat, proc: Proc) {
    match proc
    case OverwriteLimit(m, count) => exists a: nat :: Begun(ls, n, a, p, m, count)
    case OverwriteStore(m, value) => exists a: nat, b: nat, count: U64 :: Capped(t, ls, n, a, b, p, m, count, value)
    case _ => true
  }

  /** How a process comes to overwrite. */
  lemma OverwriteMoves(s: State, l: Label, p: nat)
    requires p in Apply(s, l).procs && (p in s.procs ==> Apply(s, l).procs[p] != s.procs[p])
    ensures match Apply(s, l).procs[p]
            case OverwriteLimit(m, count) => l == BeginOverwrite(p, m, count)
            case OverwriteStore(m, value) =>
              && l.Advance? && l.p == p && p in s.procs && s.procs[p].OverwriteLimit? && s.procs[p].member == m < |s.members|
              && value == if s.procs[p].count <= s.members[m].limit then s.procs[p].count else s.members[m].limit
            case _ => true
  {
  }

  lemma {:induction false} RunOverwrites(t: seq<State>, ls: seq<Label>, n: nat, p: nat)
    requires IsRun(t, ls) && n < |t| && p in t[n].procs
    ensures OverwriteStory(t, ls, n, p, t[n].procs[p])
  {
    if n > 0 {
      var s, l := t[n - 1], ls[n - 1];
      if p in s.procs { RunOverwrites(t, ls, n - 1, p); }
      if p in s.procs && t[n].procs[p] == s.procs[p] {
        StoryLasts(t, ls, n - 1, p, s.procs[p]);
      } else {
        OverwriteMoves(s, l, p);
        match t[n].procs[p]
        case OverwriteLimit(m, count) => assert Begun(ls, n, n - 1, p, m, count);
        case OverwriteStore(m, value) =>
          var a: nat :| Begun(ls, n - 1, a, p, m, s.procs[p].count);
          assert Capped(t, ls, n, a, n - 1, p, m, s.procs[p].count, value);
        case _ =>
      }
    }
  }

  lemma StoryLasts(t: seq<State>, ls: seq<Label>, n: nat, p: nat, proc: Proc)
    requires OverwriteStory(t, ls, n, p, proc) && n < |ls| && |t| == |ls| + 1
    ensures OverwriteStory(t, ls, n + 1, p, proc)
  {
    match proc
    case OverwriteLimit(m, count) =>
      var a: nat :| Begun(ls, n, a, p, m, count);
      assert Begun(ls, n + 1, a, p, m, count);
    case OverwriteStore(m, value) =>
      var a: nat, b: nat, count: U64 :| Capped(t, ls, n, a, b, p, m, count, value);
      assert Capped(t, ls, n + 1, a, b, p, m, count, value);
    case _ =>
  }

  lemma StoreWrites(s: State, l: Label, p: nat)
    requires l.Advance? && l.p == p && p in s.procs && s.procs[p].OverwriteStore? && Fits(s, s.procs[p])
    ensures Apply(s, l).counters[CounterOf(s, s.procs[p].member)].value == s.procs[p].value
  {
  }

  /** In every run, what an overwrite stores in the count is the number it was given, or the limit it
      read in between if that is smaller. */
  lemma OverwriteStoresCapped(t: seq<State>, ls: seq<Label>, n: nat, p: nat) returns (a: nat, b: nat, count: U64)
    requires IsRun(t, ls) && n < |ls| && ls[n].Advance? && ls[n].p == p && p in t[n].procs && t[n].procs[p].OverwriteStore?
    ensures Known(t[n], t[n].procs[p].member) && CounterOf(t[n], t[n].procs[p].member) < |t[n + 1].counters|
    ensures Capped(t, ls, n, a, b, p, t[n].procs[p].member, count, t[n + 1].counters[CounterOf(t[n], t[n].procs[p].member)].value)
  {
    RunInv(t, ls, n);
    assert ProcInv(t[n], t[n].procs[p]);
    RunOverwrites(t, ls, n, p);
    StoreWrites(t[n], ls[n], p);
    a, b, count :| Capped(t, ls, n, a, b, p, t[n].procs[p].member, count, t[n].procs[p].value);
  }

  // ----- Releases by name without a slot -----------------------------------------------------

  /** A release that runs alone takes one off the count, whoever had added it. */
  lemma StrayReleaseLowers(s: State, p: nat, m: nat)
    requires Known(s, m) && ValueOf(s, m) > 0 && p !in s.procs
    ensures var s1 := Apply(s, BeginStrayRelease(p, m));
            var s3 := Apply(Apply(s1, Advance(p, false)), Advance(p, false));
            && s3.counters == s.counters[CounterOf(s, m) := s3.counters[CounterOf(s, m)]]
            && s3.counters[CounterOf(s, m)].value == ValueOf(s, m) - 1
  {
    var s1 := Apply(s, BeginStrayRelease(p, m));
    assert s1.procs[p] == StrayReleasing(m, AtRunning);
    var s2 := Apply(s1, Advance(p, false));
    assert s2.procs[p] == StrayReleasing(m, AtSwap(ValueOf(s, m))) && s2.counters == s.counters && s2.members == s.members;
  }
}
