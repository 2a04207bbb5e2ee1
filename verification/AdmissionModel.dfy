/** Admission of queries to the members of cluster groups, as a state machine.

    Any number of processes (acquire/release calls, drift reconcilers, absolute overwrites) run
    against shared atomics. One label is one atomic action: one load, one store or one
    compare-exchange. A weak compare-exchange may fail spuriously. A label that does not apply in
    the current state changes nothing but the clock, so every sequence of labels is a run.

    `Counter.admitted`, `released`, `drift` and `ceiling`, the process fields `since`, `taken` and
    `mark`, and `State.clock` are history: no branch reads them. */
module AdmissionModel {
  import opened Wrappers
  import CircuitBreaker

  const U64_MAX: nat := 0xFFFF_FFFF_FFFF_FFFF

  type U64 = n: int | 0 <= n <= U64_MAX

  type CircuitState = CircuitBreaker.CircuitState

  /** One `running_queries` cell, which several generations of a member may share.
      `ceiling` is the largest limit ever in force over the cell; `drift` is what corrections
      (as opposed to admissions and releases) have added to it. */
  datatype Counter = Counter(value: nat, admitted: nat, released: nat, drift: int, ceiling: U64)

  datatype Member = Member(name: string, group: string, counter: nat, limit: U64,
                           enabled: bool, healthy: bool, breaker: Option<CircuitState>)
  {
    predicate BreakerAllows() {
      breaker.None? || breaker.value.Closed?
    }

    predicate Accepting() {
      enabled && healthy && BreakerAllows()
    }
  }

  /** Where a process stands in `can_accept_query`, then in a load / compare-exchange loop. */
  datatype Stage =
    | AtEnabled
    | AtHealthy
    | AtBreaker
    | AtRunning
    | AtLimit(seen: nat)
    | AtSwap(seen: nat)

  datatype Proc =
    | Filtering(g: nat, since: nat, i: nat, eligible: seq<nat>, stage: Stage)
    | Picking(g: nat, since: nat, eligible: seq<nat>)
    | Trying(g: nat, since: nat, queue: seq<nat>, stage: Stage)
    | Confirming(g: nat, since: nat, queue: seq<nat>, taken: nat, stage: Stage)
    | Undoing(g: nat, since: nat, queue: seq<nat>, stage: Stage)
    | Admitted(g: nat, since: nat, member: nat, taken: nat)
    | Rejected(g: nat, since: nat)
    | Releasing(member: nat, stage: Stage)
    | Done
    | StrayReleasing(member: nat, stage: Stage)
    | Fetching(member: nat, since: nat, mark: Counter)
    | ReconcileLimit(member: nat, since: nat, mark: Counter, target: U64)
    | ReconcileLoad(member: nat, since: nat, mark: Counter, target: U64, max: U64)
    | ReconcileSwap(member: nat, since: nat, mark: Counter, target: U64, max: U64, seen: nat)
    | Reconciled(stored: nat)
    | OverwriteLimit(member: nat, count: U64)
    | OverwriteStore(member: nat, value: U64)

  datatype State = State(counters: seq<Counter>, members: seq<Member>, groups: seq<seq<nat>>,
                         procs: map<nat, Proc>, clock: nat)

  datatype Label =
    | NewMember(name: string, group: string, limit: U64, enabled: bool, healthy: bool,
                breaker: Option<CircuitState>, previous: Option<nat>)
    | NewGroup(list: seq<nat>)
    | BeginAcquire(p: nat, g: nat)
    | Pick(p: nat, k: nat)
    | BeginRelease(p: nat, g: nat)
    | BeginStrayRelease(p: nat, m: nat)
    | Observe(p: nat, m: nat)
    | Fetched(p: nat, target: U64)
    | BeginOverwrite(p: nat, m: nat, count: U64)
    | Advance(p: nat, spurious: bool)
    | SetLimit(m: nat, limit: U64)
    | SetEnabled(m: nat, on: bool)
    | SetHealthy(m: nat, on: bool)
    | SetBreaker(m: nat, state: CircuitState)

  /** What one atomic action does to the counters. */
  datatype Effect = Silent | Take(c: nat) | Give(c: nat) | Correct(c: nat, v: nat)

  const INIT := State([], [], [], map[], 0)

  /** The process only mentions groups and members that exist. */
  predicate Fits(s: State, proc: Proc) {
    match proc
    case Filtering(g, _, i, eligible, stage) =>
      g < |s.groups| && i < |s.groups[g]| && Exist(s, s.groups[g]) && Exist(s, eligible) && !stage.AtSwap?
    case Picking(g, _, eligible) => g < |s.groups| && eligible != [] && Exist(s, eligible)
    case Trying(g, _, queue, _) => g < |s.groups| && queue != [] && Exist(s, queue)
    case Confirming(g, _, queue, _, stage) =>
      g < |s.groups| && queue != [] && Exist(s, queue) && (stage.AtEnabled? || stage.AtHealthy? || stage.AtBreaker?)
    case Undoing(g, _, queue, stage) => g < |s.groups| && queue != [] && Exist(s, queue) && Dropping(stage)
    case Admitted(g, _, member, _) => g < |s.groups| && Known(s, member)
    case Rejected(g, _) => g < |s.groups|
    case Releasing(member, stage) => Known(s, member) && Dropping(stage)
    case StrayReleasing(member, stage) => Known(s, member) && Dropping(stage)
    case Done => true
    case Reconciled(_) => true
    case _ => Known(s, proc.member)
  }

  predicate Exist(s: State, ms: seq<nat>) {
    forall i :: 0 <= i < |ms| ==> Known(s, ms[i])
  }

  predicate Known(s: State, m: nat) {
    m < |s.members| && s.members[m].counter < |s.counters|
  }

  predicate Dropping(stage: Stage) {
    stage.AtRunning? || (stage.AtSwap? && stage.seen > 0)
  }

  function CounterOf(s: State, m: nat): (c: nat)
    requires Known(s, m)
    ensures c < |s.counters|
  {
    s.members[m].counter
  }

  function ValueOf(s: State, m: nat): nat
    requires Known(s, m)
  {
    s.counters[CounterOf(s, m)].value
  }

  /** One load of `can_accept_query`. */
  predicate Passes(m: Member, stage: Stage) {
    match stage
    case AtEnabled => m.enabled
    case AtHealthy => m.healthy
    case AtBreaker => m.BreakerAllows()
    case _ => false
  }

  function After(stage: Stage): Stage {
    match stage
    case AtEnabled => AtHealthy
    case AtHealthy => AtBreaker
    case _ => AtRunning
  }

  /** Go on to the next group member, or leave the filter. */
  function Scan(s: State, g: nat, since: nat, i: nat, eligible: seq<nat>): Proc
    requires g < |s.groups|
  {
    if i < |s.groups[g]| then Filtering(g, since, i, eligible, AtEnabled)
    else if eligible == [] then Rejected(g, since)
    else Picking(g, since, eligible)
  }

  /** Go on to the next candidate, or report that there is none. */
  function Attempt(g: nat, since: nat, queue: seq<nat>): Proc {
    if queue == [] then Rejected(g, since) else Trying(g, since, queue, AtEnabled)
  }

  /** One action of the `decrement_running` loop on a member: where it stands next (`None` when
      the loop returns) and whether the counter went down. */
  function Drop(value: nat, stage: Stage, spurious: bool): (r: (Option<Stage>, bool))
    requires Dropping(stage)
    ensures r.1 ==> value > 0
    ensures r.0.Some? ==> Dropping(r.0.value)
  {
    if stage.AtSwap? && value == stage.seen && !spurious then (None, true)
    else if value == 0 then (None, false)
    else (Some(AtSwap(value)), false)
  }

  /** `counter += target - observed` on u64 with saturation, then capped. */
  function Adjust(observed: nat, target: U64, max: U64, current: nat): U64 {
    if target >= observed then Min(Min(current + (target - observed), U64_MAX), max)
    else Min(Max(current - (observed - target), 0), max)
  }

  /** One atomic action of process `proc`. */
  function Move(s: State, proc: Proc, spurious: bool): (r: (Proc, Effect))
    requires Fits(s, proc)
    ensures EffectFits(s, r.1)
  {
    match proc
    case Filtering(g, since, i, eligible, stage) => (MoveFiltering(s, proc), Silent)
    case Trying(g, since, queue, stage) => MoveTrying(s, proc, spurious)
    case Confirming(g, since, queue, taken, stage) =>
      if !Passes(s.members[queue[0]], stage) then (Undoing(g, since, queue, AtRunning), Silent)
      else if stage.AtBreaker? then (Admitted(g, since, queue[0], taken), Silent)
      else (Confirming(g, since, queue, taken, After(stage)), Silent)
    case Undoing(g, since, queue, stage) =>
      var c := s.members[queue[0]].counter;
      var (next, dropped) := Drop(s.counters[c].value, stage, spurious);
      (if next.Some? then Undoing(g, since, queue, next.value) else Attempt(g, since, queue[1..]),
       if dropped then Give(c) else Silent)
    case Releasing(member, stage) =>
      var c := CounterOf(s, member);
      var (next, dropped) := Drop(s.counters[c].value, stage, spurious);
      (if next.Some? then Releasing(member, next.value) else Done, if dropped then Give(c) else Silent)
    case StrayReleasing(member, stage) =>
      var c := CounterOf(s, member);
      var (next, dropped) := Drop(s.counters[c].value, stage, spurious);
      (if next.Some? then StrayReleasing(member, next.value) else Done, if dropped then Give(c) else Silent)
    case ReconcileLimit(member, since, mark, target) =>
      (ReconcileLoad(member, since, mark, target, s.members[member].limit), Silent)
    case ReconcileLoad(member, since, mark, target, max) =>
      (ReconcileSwap(member, since, mark, target, max, ValueOf(s, member)), Silent)
    case ReconcileSwap(member, since, mark, target, max, seen) =>
      if ValueOf(s, member) == seen && !spurious then
        (Reconciled(Adjust(mark.value, target, max, seen)),
         Correct(CounterOf(s, member), Adjust(mark.value, target, max, seen)))
      else (ReconcileSwap(member, since, mark, target, max, ValueOf(s, member)), Silent)
    case OverwriteLimit(member, count) =>
      (OverwriteStore(member, Min(count, s.members[member].limit)), Silent)
    case OverwriteStore(member, value) => (Done, Correct(CounterOf(s, member), value))
    case _ => (proc, Silent)
  }

  function MoveFiltering(s: State, proc: Proc): Proc
    requires proc.Filtering? && Fits(s, proc)
  {
    var Filtering(g, since, i, eligible, stage) := proc;
    var m := s.groups[g][i];
    match stage
    case AtRunning => Filtering(g, since, i, eligible, AtLimit(s.counters[s.members[m].counter].value))
    case AtLimit(seen) =>
      Scan(s, g, since, i + 1, if seen >= s.members[m].limit then eligible else eligible + [m])
    case _ =>
      if Passes(s.members[m], stage) then Filtering(g, since, i, eligible, After(stage)) else Scan(s, g, since, i + 1, eligible)
  }

  function MoveTrying(s: State, proc: Proc, spurious: bool): (r: (Proc, Effect))
    requires proc.Trying? && Fits(s, proc)
    ensures EffectFits(s, r.1)
  {
    var Trying(g, since, queue, stage) := proc;
    var m := s.members[queue[0]];
    var value := s.counters[m.counter].value;
    match stage
    case AtRunning => (Trying(g, since, queue, AtLimit(value)), Silent)
    case AtLimit(seen) =>
      (if seen >= m.limit then Attempt(g, since, queue[1..]) else Trying(g, since, queue, AtSwap(seen)), Silent)
    case AtSwap(seen) =>
      if value == seen && !spurious then (Confirming(g, since, queue, s.clock + 1, AtEnabled), Take(m.counter))
      else (Trying(g, since, queue, AtLimit(value)), Silent)
    case _ =>
      (if Passes(m, stage) then Trying(g, since, queue, After(stage)) else Attempt(g, since, queue[1..]), Silent)
  }

  predicate EffectFits(s: State, e: Effect) {
    match e
    case Silent => true
    case Give(c) => c < |s.counters| && s.counters[c].value > 0
    case _ => e.c < |s.counters|
  }

  function Write(k: Counter, e: Effect): Counter
    requires e.Give? ==> k.value > 0
  {
    match e
    case Silent => k
    case Take(_) => k.(value := k.value + 1, admitted := k.admitted + 1)
    case Give(_) => k.(value := k.value - 1, released := k.released + 1)
    case Correct(_, v) => k.(value := v, drift := k.drift + v - k.value)
  }

  function WriteAll(s: State, e: Effect): seq<Counter>
    requires EffectFits(s, e)
  {
    if e.Silent? then s.counters else s.counters[e.c := Write(s.counters[e.c], e)]
  }

  /** The first group member with the given name. */
  function FirstByName(s: State, list: seq<nat>, name: string): Option<nat>
    requires Exist(s, list)
  {
    if list == [] then None
    else if s.members[list[0]].name == name then Some(list[0])
    else FirstByName(s, list[1..], name)
  }

  /** The counter effect of a label; only `Advance` has one. */
  function EffectOf(s: State, l: Label): (e: Effect)
    ensures EffectFits(s, e)
  {
    if l.Advance? && l.p in s.procs && Fits(s, s.procs[l.p]) then Move(s, s.procs[l.p], l.spurious).1 else Silent
  }

  function Raise(s: State, c: nat, limit: U64): seq<Counter>
    requires c < |s.counters|
  {
    s.counters[c := s.counters[c].(ceiling := Max(s.counters[c].ceiling, limit))]
  }

  /** A new generation of a member. It shares the previous generation's cell within the same group
      and starts a fresh one otherwise. */
  function AddMember(s: State, l: Label): State
    requires l.NewMember?
  {
    if l.previous.Some? && Known(s, l.previous.value) && s.members[l.previous.value].group == l.group then
      var c := CounterOf(s, l.previous.value);
      s.(counters := Raise(s, c, l.limit),
         members := s.members + [Member(l.name, l.group, c, l.limit, l.enabled, l.healthy, l.breaker)])
    else
      s.(counters := s.counters + [Counter(0, 0, 0, 0, l.limit)],
         members := s.members + [Member(l.name, l.group, |s.counters|, l.limit, l.enabled, l.healthy, l.breaker)])
  }

  /** A finished query releases by name through generation `g`, not always the one it came from. */
  function Release(s: State, p: nat, g: nat): State
    requires p in s.procs && s.procs[p].Admitted? && Fits(s, s.procs[p])
    requires g < |s.groups| && Exist(s, s.groups[g])
  {
    var name := s.members[s.procs[p].member].name;
    match FirstByName(s, s.groups[g], name)
    case Some(m) => s.(procs := s.procs[p := Releasing(m, AtRunning)])
    case None => s.(procs := s.procs[p := Done])
  }

  function Spawn(s: State, p: nat, proc: Proc): State {
    if p in s.procs || !Fits(s, proc) then s else s.(procs := s.procs[p := proc])
  }

  function UpdateMember(s: State, m: nat, f: Member -> Member): State {
    if m < |s.members| then s.(members := s.members[m := f(s.members[m])]) else s
  }

  function Change(s: State, l: Label): State {
    match l
    case NewMember(_, _, _, _, _, _, _) => AddMember(s, l)
    case NewGroup(list) => if Exist(s, list) then s.(groups := s.groups + [list]) else s
    case BeginAcquire(p, g) => if g < |s.groups| then Spawn(s, p, Scan(s, g, s.clock, 0, [])) else s
    case Pick(p, k) =>
      if p in s.procs && s.procs[p].Picking? && k < |s.procs[p].eligible| then
        var Picking(g, since, eligible) := s.procs[p];
        s.(procs := s.procs[p := Trying(g, since, [eligible[k]] + eligible, AtEnabled)])
      else s
    case BeginRelease(p, g) =>
      if p in s.procs && s.procs[p].Admitted? && Fits(s, s.procs[p]) && g < |s.groups| && Exist(s, s.groups[g])
      then Release(s, p, g) else s
    case BeginStrayRelease(p, m) => Spawn(s, p, StrayReleasing(m, AtRunning))
    case Observe(p, m) =>
      if Known(s, m) then Spawn(s, p, Fetching(m, s.clock, s.counters[CounterOf(s, m)])) else s
    case Fetched(p, target) =>
      if p in s.procs && s.procs[p].Fetching? then
        var Fetching(m, since, mark) := s.procs[p];
        s.(procs := s.procs[p := ReconcileLimit(m, since, mark, target)])
      else s
    case BeginOverwrite(p, m, count) => Spawn(s, p, OverwriteLimit(m, count))
    case Advance(p, spurious) =>
      if p in s.procs && Fits(s, s.procs[p]) then
        s.(counters := WriteAll(s, EffectOf(s, l)), procs := s.procs[p := Move(s, s.procs[p], spurious).0])
      else s
    case SetLimit(m, limit) =>
      if Known(s, m) then
        s.(counters := Raise(s, CounterOf(s, m), limit),
           members := s.members[m := s.members[m].(limit := limit)])
      else s
    case SetEnabled(m, on) => UpdateMember(s, m, (x: Member) => x.(enabled := on))
    case SetHealthy(m, on) => UpdateMember(s, m, (x: Member) => x.(healthy := on))
    case SetBreaker(m, b) => UpdateMember(s, m, (x: Member) => x.(breaker := if x.breaker.None? then None else Some(b)))
  }

  function Apply(s: State, l: Label): State {
    Change(s, l).(clock := s.clock + 1)
  }

  /** A run: the states passed through from the empty system under the given labels. */
  ghost predicate IsRun(t: seq<State>, ls: seq<Label>) {
    |t| == |ls| + 1 && t[0] == INIT && forall i :: 0 <= i < |ls| ==> t[i + 1] == Apply(t[i], ls[i])
  }
}
