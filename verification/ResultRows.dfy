/** What the two stores of the result cache hold, step by step, and what a hit or a miss says about
    it. */
module ResultRows {
  import opened Wrappers
  import opened ResultCache

  // ----- The metadata row --------------------------------------------------------------------

  /** The step is a metadata upsert that succeeds. */
  predicate Upserts(s: State, l: Label) {
    l.Upsert? && l.ok && l.p in s.procs && s.procs[l.p].Upserting?
  }

  /** The step replaces or removes a row that expires at `e`: a later upsert, an invalidation, or a
      cleanup once the row has expired. */
  predicate Ends(s: State, l: Label, e: int) {
    || Upserts(s, l)
    || (l.Invalidate? && l.p !in s.procs)
    || (l.Cleanup? && l.p !in s.procs && e <= s.now)
  }

  /** No step after `k` ends a row that expires at `e`. */
  ghost predicate NotEnded(ls: seq<Label>, k: nat, e: int) {
    forall j :: k < j < |ls| ==> !Ends(Run(ls[..j]), ls[j], e)
  }

  predicate Stored(s: State, l: Label, m: Meta) {
    Upserts(s, l) && s.procs[l.p].row == m
  }

  /** Step `k` stored the row `m`, and no later step has ended it. */
  ghost predicate RowFrom(ls: seq<Label>, k: nat, m: Meta) {
    k < |ls| && Stored(Run(ls[..k]), ls[k], m) && NotEnded(ls, k, m.expires)
  }

  lemma RunAppend(ls: seq<Label>, l: Label)
    ensures Run(ls + [l]) == Apply(Run(ls), l)
  {
    assert (ls + [l])[..|ls|] == ls;
  }

  lemma RowStep(s: State, l: Label)
    ensures Upserts(s, l) ==> Apply(s, l).meta == Some(s.procs[l.p].row)
    ensures !Upserts(s, l) ==>
              Apply(s, l).meta == if s.meta.Some? && !Ends(s, l, s.meta.value.expires) then s.meta else None
  {
  }

  lemma SamePrefix(ls: seq<Label>, l: Label, j: nat)
    requires j < |ls|
    ensures (ls + [l])[..j] == ls[..j] && (ls + [l])[j] == ls[j]
  {
  }

  lemma NotEndedLater(ls: seq<Label>, l: Label, k: nat, e: int)
    requires k < |ls|
    ensures NotEnded(ls + [l], k, e) <==> NotEnded(ls, k, e) && !Ends(Run(ls), l, e)
  {
    var all := ls + [l];
    assert all[..|ls|] == ls && all[|ls|] == l;
    forall j | k < j < |ls| ensures Ends(Run(all[..j]), all[j], e) == Ends(Run(ls[..j]), ls[j], e) {
      SamePrefix(ls, l, j);
    }
    if NotEnded(all, k, e) { assert !Ends(Run(all[..|ls|]), all[|ls|], e); }
  }

  lemma RowFromLater(ls: seq<Label>, l: Label, k: nat, m: Meta)
    ensures k < |ls| ==> (RowFrom(ls + [l], k, m) <==> RowFrom(ls, k, m) && !Ends(Run(ls), l, m.expires))
    ensures RowFrom(ls + [l], |ls|, m) <==> Stored(Run(ls), l, m)
  {
    assert (ls + [l])[..|ls|] == ls && (ls + [l])[|ls|] == l;
    if k < |ls| {
      SamePrefix(ls, l, k);
      NotEndedLater(ls, l, k, m.expires);
    }
  }

  lemma {:induction false} RowHolds(ls: seq<Label>, k: nat, m: Meta)
    requires RowFrom(ls, k, m)
    ensures Run(ls).meta == Some(m)
  {
    var front, l := ls[..|ls| - 1], ls[|ls| - 1];
    assert ls == front + [l];
    RowFromLater(front, l, k, m);
    RowStep(Run(front), l);
    if k < |front| { RowHolds(front, k, m); }
  }

  lemma {:induction false} RowComesFrom(ls: seq<Label>, m: Meta) returns (k: nat)
    requires Run(ls).meta == Some(m)
    ensures RowFrom(ls, k, m)
  {
    var front, l := ls[..|ls| - 1], ls[|ls| - 1];
    assert ls == front + [l];
    RowStep(Run(front), l);
    k := |front|;
    if !Upserts(Run(front), l) { k := RowComesFrom(front, m); }
    RowFromLater(front, l, k, m);
  }

  /** In every run the row is exactly the one that the latest upsert stored, as long as neither an
      invalidation nor, after it expired, a cleanup has removed it. */
  lemma RowIff(ls: seq<Label>, m: Meta)
    ensures Run(ls).meta == Some(m) <==> exists k: nat :: RowFrom(ls, k, m)
  {
    if Run(ls).meta == Some(m) { var k := RowComesFrom(ls, m); }
    forall k: nat | RowFrom(ls, k, m) ensures Run(ls).meta == Some(m) { RowHolds(ls, k, m); }
  }

  // ----- The file ----------------------------------------------------------------------------

  /** The step writes the file, even if it reports a failure. */
  predicate Lands(s: State, l: Label) {
    l.Flush? && l.p in s.procs && s.procs[l.p].Flushing? && (l.outcome.Written? || l.outcome.landed)
  }

  predicate Deletes(s: State, l: Label) {
    l.DeleteFile? && l.ok && l.p in s.procs && s.procs[l.p].Deleting?
  }

  predicate Changes(s: State, l: Label) {
    Lands(s, l) || Deletes(s, l)
  }

  ghost predicate NotChanged(ls: seq<Label>, f: nat) {
    forall j :: f < j < |ls| ==> !Changes(Run(ls[..j]), ls[j])
  }

  /** Step `f` wrote the content `c`, and no later step has written or deleted the file. */
  ghost predicate FileFrom(ls: seq<Label>, f: nat, c: Content) {
    && f < |ls| && Lands(Run(ls[..f]), ls[f]) && Run(ls[..f]).procs[ls[f].p].content == c
    && NotChanged(ls, f)
  }

  lemma FileStep(s: State, l: Label)
    ensures Apply(s, l).file == if Lands(s, l) then Some(s.procs[l.p].content) else if Deletes(s, l) then None else s.file
  {
  }

  lemma NotChangedLater(ls: seq<Label>, l: Label, f: nat)
    requires f < |ls|
    ensures NotChanged(ls + [l], f) <==> NotChanged(ls, f) && !Changes(Run(ls), l)
  {
    var all := ls + [l];
    assert all[..|ls|] == ls && all[|ls|] == l;
    forall j | f < j < |ls| ensures Changes(Run(all[..j]), all[j]) == Changes(Run(ls[..j]), ls[j]) {
      SamePrefix(ls, l, j);
    }
    if NotChanged(all, f) { assert !Changes(Run(all[..|ls|]), all[|ls|]); }
  }

  lemma FileFromLater(ls: seq<Label>, l: Label, f: nat, c: Content)
    ensures f < |ls| ==> (FileFrom(ls + [l], f, c) <==> FileFrom(ls, f, c) && !Changes(Run(ls), l))
    ensures FileFrom(ls + [l], |ls|, c) <==> Lands(Run(ls), l) && Run(ls).procs[l.p].content == c
  {
    assert (ls + [l])[..|ls|] == ls && (ls + [l])[|ls|] == l;
    if f < |ls| {
      SamePrefix(ls, l, f);
      NotChangedLater(ls, l, f);
    }
  }

  lemma {:induction false} FileHolds(ls: seq<Label>, f: nat, c: Content)
    requires FileFrom(ls, f, c)
    ensures Run(ls).file == Some(c)
  {
    var front, l := ls[..|ls| - 1], ls[|ls| - 1];
    assert ls == front + [l];
    FileFromLater(front, l, f, c);
    FileStep(Run(front), l);
    if f < |front| { FileHolds(front, f, c); }
  }

  lemma {:induction false} FileComesFrom(ls: seq<Label>, c: Content) returns (f: nat)
    requires Run(ls).file == Some(c)
    ensures FileFrom(ls, f, c)
  {
    var front, l := ls[..|ls| - 1], ls[|ls| - 1];
    assert ls == front + [l];
    FileStep(Run(front), l);
    f := |front|;
    if !Lands(Run(front), l) { f := FileComesFrom(front, c); }
    FileFromLater(front, l, f, c);
  }

  /** In every run the file holds exactly what the latest landed write put there, unless it has been
      deleted since. */
  lemma FileIff(ls: seq<Label>, c: Content)
    ensures Run(ls).file == Some(c) <==> exists f: nat :: FileFrom(ls, f, c)
  {
    if Run(ls).file == Some(c) { var f := FileComesFrom(ls, c); }
    forall f: nat | FileFrom(ls, f, c) ensures Run(ls).file == Some(c) { FileHolds(ls, f, c); }
  }

  // ----- Hits --------------------------------------------------------------------------------

  /** Step `n` is a lookup of reader `p` that found the row stored by step `k`, which had not expired. */
  ghost predicate LookedUp(ls: seq<Label>, n: nat, k: nat, p: nat) {
    && n < |ls| && ls[n] == LookUp(p, true)
    && exists m: Meta :: RowFrom(ls[..n], k, m) && Run(ls[..n]).now < m.expires
  }

  /** Step `r` is a read by `p` of what step `f` had written. */
  ghost predicate ReadAt(ls: seq<Label>, r: nat, f: nat, p: nat, c: Content) {
    r < |ls| && ls[r] == ReadFile(p, true) && FileFrom(ls[..r], f, c)
  }

  lemma LookedUpLater(ls: seq<Label>, l: Label, n: nat, k: nat, p: nat)
    requires LookedUp(ls, n, k, p)
    ensures LookedUp(ls + [l], n, k, p)
  {
    assert (ls + [l])[..n] == ls[..n];
  }

  lemma ReadLater(ls: seq<Label>, l: Label, r: nat, f: nat, p: nat, c: Content)
    requires ReadAt(ls, r, f, p, c)
    ensures ReadAt(ls + [l], r, f, p, c)
  {
    assert (ls + [l])[..r] == ls[..r];
  }

  ghost predicate SomeLookUp(ls: seq<Label>, p: nat) {
    exists n: nat, k: nat :: LookedUp(ls, n, k, p)
  }

  /** A lookup that found a live row, and after it a read of content `c`. */
  ghost predicate SomeRead(ls: seq<Label>, p: nat, c: Content) {
    exists n: nat, k: nat, r: nat, f: nat :: n < r && LookedUp(ls, n, k, p) && ReadAt(ls, r, f, p, c)
  }

  ghost predicate HitStory(ls: seq<Label>, p: nat, rowCount: nat, sink: seq<SinkEvent>) {
    exists c: Content :: SomeRead(ls, p, c) && sink == Events(c, |c.batches|) && rowCount == TotalRows(c.batches)
  }

  ghost predicate ReaderStory(ls: seq<Label>, p: nat, proc: Proc) {
    match proc
    case Fetching => SomeLookUp(ls, p)
    case Replaying(content, _, _, _) => SomeRead(ls, p, content)
    case Hit(rowCount, sink) => HitStory(ls, p, rowCount, sink)
    case _ => true
  }

  lemma StoryLasts(ls: seq<Label>, l: Label, p: nat, proc: Proc)
    requires ReaderStory(ls, p, proc)
    ensures ReaderStory(ls + [l], p, proc)
  {
    match proc
    case Fetching =>
      var n: nat, k: nat :| LookedUp(ls, n, k, p);
      LookedUpLater(ls, l, n, k, p);
    case Replaying(content, _, _, _) => ReadLasts(ls, l, p, content);
    case Hit(rowCount, sink) =>
      var c: Content :| SomeRead(ls, p, c) && sink == Events(c, |c.batches|) && rowCount == TotalRows(c.batches);
      ReadLasts(ls, l, p, c);
    case _ =>
  }

  lemma ReadLasts(ls: seq<Label>, l: Label, p: nat, c: Content)
    requires SomeRead(ls, p, c)
    ensures SomeRead(ls + [l], p, c)
  {
    var n: nat, k: nat, r: nat, f: nat :| n < r && LookedUp(ls, n, k, p) && ReadAt(ls, r, f, p, c);
    LookedUpLater(ls, l, n, k, p);
    ReadLater(ls, l, r, f, p, c);
  }

  /** How a reader comes to its next stage. */
  lemma ReaderMoves(s: State, l: Label, p: nat)
    requires p in Apply(s, l).procs && (p in s.procs ==> Apply(s, l).procs[p] != s.procs[p])
    ensures match Apply(s, l).procs[p]
            case Fetching => l == LookUp(p, true) && s.meta.Some? && s.meta.value.expires > s.now
            case Replaying(content, next, _, _) =>
              || (l == ReadFile(p, true) && p in s.procs && s.procs[p].Fetching? && s.file == Some(content))
              || (p in s.procs && s.procs[p].Replaying? && s.procs[p].content == content)
            case Hit(rowCount, sink) => l.Replay? && l.p == p && p in s.procs && s.procs[p].Replaying?
            case _ => true
  {
  }

  lemma FoundRow(ls: seq<Label>, p: nat)
    requires Run(ls).meta.Some? && Run(ls).meta.value.expires > Run(ls).now
    ensures SomeLookUp(ls + [LookUp(p, true)], p)
  {
    var m := Run(ls).meta.value;
    var k := RowComesFrom(ls, m);
    assert (ls + [LookUp(p, true)])[..|ls|] == ls;
    assert LookedUp(ls + [LookUp(p, true)], |ls|, k, p);
  }

  lemma FoundFile(ls: seq<Label>, p: nat, c: Content)
    requires SomeLookUp(ls, p) && Run(ls).file == Some(c)
    ensures SomeRead(ls + [ReadFile(p, true)], p, c)
  {
    var l := ReadFile(p, true);
    var f := FileComesFrom(ls, c);
    var n: nat, k: nat :| LookedUp(ls, n, k, p);
    LookedUpLater(ls, l, n, k, p);
    assert (ls + [l])[..|ls|] == ls;
    assert ReadAt(ls + [l], |ls|, f, p, c);
  }

  /** The last step of a replay. */
  lemma ReplayEnds(s: State, l: Label, p: nat)
    requires Inv(s) && l.Replay? && l.p == p && p in s.procs && s.procs[p].Replaying? && Apply(s, l).procs[p].Hit?
    ensures var c := s.procs[p].content;
            Apply(s, l).procs[p] == Hit(TotalRows(c.batches), Events(c, |c.batches|))
  {
    assert ProcInv(s, s.procs[p]);
    var c := s.procs[p].content;
    assert c.batches[..|c.batches|] == c.batches;
  }

  lemma StepStory(ls: seq<Label>, l: Label, p: nat)
    requires p in Run(ls + [l]).procs && Inv(Run(ls)) && (p in Run(ls).procs ==> ReaderStory(ls, p, Run(ls).procs[p]))
    ensures ReaderStory(ls + [l], p, Run(ls + [l]).procs[p])
  {
    var s := Run(ls);
    RunAppend(ls, l);
    if p in s.procs && Apply(s, l).procs[p] == s.procs[p] {
      StoryLasts(ls, l, p, s.procs[p]);
    } else {
      ReaderMoves(s, l, p);
      match Apply(s, l).procs[p]
      case Fetching => FoundRow(ls, p);
      case Replaying(content, _, _, _) =>
        if s.procs[p].Fetching? { FoundFile(ls, p, content); } else { ReadLasts(ls, l, p, content); }
      case Hit(_, _) =>
        ReplayEnds(s, l, p);
        ReadLasts(ls, l, p, s.procs[p].content);
      case _ =>
    }
  }

  lemma {:induction false} RunStory(ls: seq<Label>, p: nat)
    requires p in Run(ls).procs
    ensures ReaderStory(ls, p, Run(ls).procs[p])
  {
    if ls != [] {
      var front, l := ls[..|ls| - 1], ls[|ls| - 1];
      assert ls == front + [l];
      RunInv(front);
      if p in Run(front).procs { RunStory(front, p); }
      StepStory(front, l, p);
    }
  }

  /** In every interleaving, a reader that reports a hit looked the row up at step `n`, before it
      expired and with no upsert or invalidation since step `k` had stored it; and at a later step `r`
      it read what step `f` had written, which is what it replayed. */
  lemma HitWasLive(ls: seq<Label>, p: nat) returns (n: nat, k: nat, m: Meta, r: nat, f: nat, c: Content)
    requires p in Run(ls).procs && Run(ls).procs[p].Hit?
    ensures n < r < |ls| && ls[n] == LookUp(p, true) && ls[r] == ReadFile(p, true)
    ensures RowFrom(ls[..n], k, m) && Run(ls[..n]).now < m.expires
    ensures FileFrom(ls[..r], f, c)
    ensures Run(ls).procs[p] == Hit(TotalRows(c.batches), Events(c, |c.batches|))
  {
    RunStory(ls, p);
    var Hit(rowCount, sink) := Run(ls).procs[p];
    c :| SomeRead(ls, p, c) && sink == Events(c, |c.batches|) && rowCount == TotalRows(c.batches);
    n, k, r, f :| n < r && LookedUp(ls, n, k, p) && ReadAt(ls, r, f, p, c);
    m :| RowFrom(ls[..n], k, m) && Run(ls[..n]).now < m.expires;
  }

  // ----- Misses ------------------------------------------------------------------------------

  /** At step `n` reader `p` has reason to report a miss: its lookup failed or there was no row that
      had not expired, its read failed or there was no file, or the first batch could not be read. */
  ghost predicate MissReason(ls: seq<Label>, n: nat, p: nat) {
    && n < |ls| && p in Run(ls[..n]).procs
    && var s := Run(ls[..n]);
    match s.procs[p]
    case LookingUp =>
      || ls[n] == LookUp(p, false)
      || (ls[n] == LookUp(p, true) && forall k: nat, m: Meta :: RowFrom(ls[..n], k, m) ==> m.expires <= s.now)
    case Fetching =>
      || ls[n] == ReadFile(p, false)
      || (ls[n] == ReadFile(p, true) && forall f: nat, c: Content :: !FileFrom(ls[..n], f, c))
    case Replaying(content, next, _, _) =>
      ls[n].Replay? && ls[n].p == p && !ls[n].ok && next == 0 && content.batches != []
    case _ => false
  }

  lemma MissReasonLater(ls: seq<Label>, l: Label, n: nat, p: nat)
    requires MissReason(ls, n, p)
    ensures MissReason(ls + [l], n, p)
  {
    assert (ls + [l])[..n] == ls[..n];
  }

  /** How a reader comes to report a miss. */
  lemma ReaderMisses(s: State, l: Label, p: nat)
    requires p in Apply(s, l).procs && Apply(s, l).procs[p].Miss? && (p in s.procs ==> Apply(s, l).procs[p] != s.procs[p])
    ensures p in s.procs && l.p == p
    ensures match s.procs[p]
            case LookingUp => l == LookUp(p, false) || (l == LookUp(p, true) && !(s.meta.Some? && s.meta.value.expires > s.now))
            case Fetching => l == ReadFile(p, false) || (l == ReadFile(p, true) && s.file.None?)
            case Replaying(content, next, _, _) => l.Replay? && !l.ok && next == 0 && content.batches != []
            case _ => false
  {
  }

  lemma NoLiveRow(ls: seq<Label>, k: nat, m: Meta)
    requires RowFrom(ls, k, m) && !(Run(ls).meta.Some? && Run(ls).meta.value.expires > Run(ls).now)
    ensures m.expires <= Run(ls).now
  {
    RowHolds(ls, k, m);
  }

  lemma NoFile(ls: seq<Label>, f: nat, c: Content)
    requires Run(ls).file.None?
    ensures !FileFrom(ls, f, c)
  {
    if FileFrom(ls, f, c) { FileHolds(ls, f, c); }
  }

  lemma MissHasReason(ls: seq<Label>, l: Label, p: nat)
    requires p in Run(ls + [l]).procs && Run(ls + [l]).procs[p].Miss?
    requires p in Run(ls).procs ==> Run(ls + [l]).procs[p] != Run(ls).procs[p]
    ensures MissReason(ls + [l], |ls|, p)
  {
    var s := Run(ls);
    RunAppend(ls, l);
    ReaderMisses(s, l, p);
    assert (ls + [l])[..|ls|] == ls;
    if s.procs[p].LookingUp? && l.ok {
      forall k: nat, m: Meta | RowFrom(ls, k, m) ensures m.expires <= s.now { NoLiveRow(ls, k, m); }
    } else if s.procs[p].Fetching? && l.ok {
      forall f: nat, c: Content ensures !FileFrom(ls, f, c) { NoFile(ls, f, c); }
    }
  }

  /** In every interleaving, a reader that reports a miss had a reason: so one whose lookup succeeded
      on a live row, and whose read found the file, does not miss unless its first batch fails. */
  lemma {:induction false} MissIsExplained(ls: seq<Label>, p: nat) returns (n: nat)
    requires p in Run(ls).procs && Run(ls).procs[p].Miss?
    ensures MissReason(ls, n, p)
  {
    var front, l := ls[..|ls| - 1], ls[|ls| - 1];
    assert ls == front + [l];
    if p in Run(front).procs && Run(ls).procs[p] == Run(front).procs[p] {
      n := MissIsExplained(front, p);
      MissReasonLater(front, l, n, p);
    } else {
      n := |front|;
      MissHasReason(front, l, p);
    }
  }

  // ----- A result that is written is read back -----------------------------------------------

  /** The state after further labels. */
  function Play(s: State, ls: seq<Label>): State {
    if ls == [] then s else Apply(Play(s, ls[..|ls| - 1]), ls[|ls| - 1])
  }

  lemma PlayAppend(s: State, ls: seq<Label>, l: Label)
    ensures Play(s, ls + [l]) == Apply(Play(s, ls), l)
  {
    assert (ls + [l])[..|ls|] == ls;
  }

  lemma {:induction false} PlayBoth(s: State, a: seq<Label>, b: seq<Label>)
    ensures Play(s, a + b) == Play(Play(s, a), b)
  {
    if b == [] {
      assert a + b == a;
    } else {
      var front, l := b[..|b| - 1], b[|b| - 1];
      PlayBoth(s, a, front);
      assert a + b == (a + front) + [l];
      PlayAppend(s, a + front, l);
    }
  }

  lemma {:induction false} RunIsPlay(a: seq<Label>, b: seq<Label>)
    ensures Run(a + b) == Play(Run(a), b)
  {
    if b == [] {
      assert a + b == a;
    } else {
      var front, l := b[..|b| - 1], b[|b| - 1];
      RunIsPlay(a, front);
      assert a + b == (a + front) + [l];
      RunAppend(a + front, l);
    }
  }

  function Batches(w: nat, bs: seq<Batch>): seq<Label> {
    if bs == [] then [] else Batches(w, bs[..|bs| - 1]) + [WriteBatch(w, bs[|bs| - 1], true)]
  }

  /** Writer `w` writes a result, finalises it and stores its row. */
  function Write(w: nat, ttl: nat, schema: string, bs: seq<Batch>): seq<Label> {
    [NewWriter(w, ttl)] + [WriteSchema(w, schema, true)] + Batches(w, bs)
    + [Finalize(w, true, true)] + [Flush(w, Written)] + [Stamp(w)] + [Upsert(w, true)]
  }

  function Replays(r: nat, n: nat): seq<Label> {
    if n == 0 then [] else Replays(r, n - 1) + [Replay(r, true, true)]
  }

  /** Reader `r` looks the row up, reads the file and replays `n` batches and the end of the stream. */
  function Read(r: nat, n: nat): seq<Label> {
    [NewReader(r)] + [LookUp(r, true)] + [ReadFile(r, true)] + Replays(r, n + 1)
  }

  /** Nothing but process `p` has moved, and the clock stands still. */
  predicate OnlyMoved(s: State, s': State, p: nat) {
    s'.now == s.now && s'.procs.Keys == s.procs.Keys + {p}
  }

  /** Writer `w` has written the batches `bs`. */
  predicate Wrote(s: State, w: nat, ttl: nat, schema: string, bs: seq<Batch>) {
    && w in s.procs && s.procs[w].Writing? && s.procs[w].ttl == ttl
    && s.procs[w].buffer == Some(Content(schema, bs)) && s.procs[w].rowCount == TotalRows(bs)
  }

  function AfterBatches(s: State, w: nat, bs: seq<Batch>): State {
    if bs == [] then s else Apply(AfterBatches(s, w, bs[..|bs| - 1]), WriteBatch(w, bs[|bs| - 1], true))
  }

  lemma {:induction false} PlaysBatches(s: State, w: nat, bs: seq<Batch>)
    ensures Play(s, Batches(w, bs)) == AfterBatches(s, w, bs)
  {
    if bs != [] {
      PlaysBatches(s, w, bs[..|bs| - 1]);
      PlayAppend(s, Batches(w, bs[..|bs| - 1]), WriteBatch(w, bs[|bs| - 1], true));
    }
  }

  lemma WritesOne(s: State, w: nat, ttl: nat, schema: string, bs: seq<Batch>, b: Batch)
    requires Wrote(s, w, ttl, schema, bs)
    ensures var s' := Apply(s, WriteBatch(w, b, true)); Wrote(s', w, ttl, schema, bs + [b]) && OnlyMoved(s, s', w)
  {
    assert (bs + [b])[..|bs|] == bs;
  }

  lemma {:induction false} WritesBatches(s: State, w: nat, ttl: nat, schema: string, bs: seq<Batch>)
    requires Wrote(s, w, ttl, schema, [])
    ensures Wrote(AfterBatches(s, w, bs), w, ttl, schema, bs) && OnlyMoved(s, AfterBatches(s, w, bs), w)
  {
    if bs != [] {
      var front, b := bs[..|bs| - 1], bs[|bs| - 1];
      WritesBatches(s, w, ttl, schema, front);
      WritesOne(AfterBatches(s, w, front), w, ttl, schema, front, b);
      assert bs == front + [b];
    }
  }

  lemma Starts(s: State, w: nat, ttl: nat, schema: string)
    requires w !in s.procs
    ensures var s' := Play(s, [NewWriter(w, ttl)] + [WriteSchema(w, schema, true)]);
            Wrote(s', w, ttl, schema, []) && OnlyMoved(s, s', w)
  {
    PlayAppend(s, [], NewWriter(w, ttl));
    assert [] + [NewWriter(w, ttl)] == [NewWriter(w, ttl)];
    PlayAppend(s, [NewWriter(w, ttl)], WriteSchema(w, schema, true));
  }

  lemma Stores(s: State, w: nat, ttl: nat, c: Content)
    requires w in s.procs && s.procs[w].Writing? && s.procs[w].ttl == ttl && s.procs[w].buffer == Some(c)
    ensures var s' := Play(s, [Finalize(w, true, true)] + [Flush(w, Written)] + [Stamp(w)] + [Upsert(w, true)]);
            OnlyMoved(s, s', w) && s'.file == Some(c) && s'.meta.Some? && s'.meta.value.expires == s.now + ttl
  {
    PlayAppend(s, [], Finalize(w, true, true));
    assert [] + [Finalize(w, true, true)] == [Finalize(w, true, true)];
    PlayAppend(s, [Finalize(w, true, true)], Flush(w, Written));
    PlayAppend(s, [Finalize(w, true, true)] + [Flush(w, Written)], Stamp(w));
    PlayAppend(s, [Finalize(w, true, true)] + [Flush(w, Written)] + [Stamp(w)], Upsert(w, true));
  }

  lemma WritesAll(s: State, w: nat, ttl: nat, schema: string, bs: seq<Batch>)
    requires w !in s.procs
    ensures var s' := Play(s, Write(w, ttl, schema, bs));
            && OnlyMoved(s, s', w) && s'.file == Some(Content(schema, bs))
            && s'.meta.Some? && s'.meta.value.expires == s.now + ttl
  {
    var a, b := [NewWriter(w, ttl)] + [WriteSchema(w, schema, true)], Batches(w, bs);
    var e := [Finalize(w, true, true)] + [Flush(w, Written)] + [Stamp(w)] + [Upsert(w, true)];
    Starts(s, w, ttl, schema);
    WritesBatches(Play(s, a), w, ttl, schema, bs);
    PlaysBatches(Play(s, a), w, bs);
    PlayBoth(s, a, b);
    Stores(Play(s, a + b), w, ttl, Content(schema, bs));
    PlayBoth(s, a + b, e);
    assert Write(w, ttl, schema, bs) == a + b + e;
  }

  /** A reader that has replayed `n` batches. */
  function Replayed(c: Content, n: nat): Proc
    requires n <= |c.batches|
  {
    Replaying(c, n, TotalRows(c.batches[..n]), if n == 0 then [] else Events(c, n))
  }

  lemma ReplaysOne(s: State, r: nat, c: Content, n: nat)
    requires n < |c.batches| && At(s, r, Replayed(c, n))
    ensures At(Apply(s, Replay(r, true, true)), r, Replayed(c, n + 1))
  {
    assert c.batches[..n + 1][..n] == c.batches[..n];
    assert Events(c, n + 1) == Events(c, n) + [OnBatch(c.batches[n])];
  }

  lemma ReplaysEnd(s: State, r: nat, c: Content)
    requires At(s, r, Replayed(c, |c.batches|))
    ensures At(Apply(s, Replay(r, true, true)), r, Hit(TotalRows(c.batches), Events(c, |c.batches|)))
  {
    assert c.batches[..|c.batches|] == c.batches;
  }

  predicate At(s: State, r: nat, proc: Proc) {
    r in s.procs && s.procs[r] == proc
  }

  function AfterReplays(s: State, r: nat, n: nat): State {
    if n == 0 then s else Apply(AfterReplays(s, r, n - 1), Replay(r, true, true))
  }

  lemma {:induction false} PlaysReplays(s: State, r: nat, n: nat)
    ensures Play(s, Replays(r, n)) == AfterReplays(s, r, n)
  {
    if n > 0 {
      PlaysReplays(s, r, n - 1);
      PlayAppend(s, Replays(r, n - 1), Replay(r, true, true));
    }
  }

  lemma {:induction false} ReplaysBatches(s: State, r: nat, c: Content, n: nat)
    requires n <= |c.batches| && At(s, r, Replayed(c, 0))
    ensures At(AfterReplays(s, r, n), r, Replayed(c, n))
  {
    if n > 0 {
      ReplaysBatches(s, r, c, n - 1);
      ReplaysOne(AfterReplays(s, r, n - 1), r, c, n - 1);
    }
  }

  lemma BeginsFound(s: State, r: nat)
    requires r !in s.procs && s.meta.Some? && s.now < s.meta.value.expires
    ensures var s' := Play(s, [NewReader(r)] + [LookUp(r, true)]); At(s', r, Fetching) && s'.file == s.file
  {
    PlayAppend(s, [], NewReader(r));
    assert [] + [NewReader(r)] == [NewReader(r)];
    PlayAppend(s, [NewReader(r)], LookUp(r, true));
  }

  lemma Begins(s: State, r: nat, c: Content)
    requires r !in s.procs && s.file == Some(c) && s.meta.Some? && s.now < s.meta.value.expires
    ensures At(Play(s, [NewReader(r)] + [LookUp(r, true)] + [ReadFile(r, true)]), r, Replayed(c, 0))
  {
    BeginsFound(s, r);
    PlayAppend(s, [NewReader(r)] + [LookUp(r, true)], ReadFile(r, true));
  }

  lemma ReadBack(s: State, r: nat, c: Content)
    requires r !in s.procs && s.file == Some(c) && s.meta.Some? && s.now < s.meta.value.expires
    ensures At(Play(s, Read(r, |c.batches|)), r, Hit(TotalRows(c.batches), Events(c, |c.batches|)))
  {
    var a, n := [NewReader(r)] + [LookUp(r, true)] + [ReadFile(r, true)], |c.batches|;
    Begins(s, r, c);
    ReplaysBatches(Play(s, a), r, c, n);
    ReplaysEnd(AfterReplays(Play(s, a), r, n), r, c);
    PlaysReplays(Play(s, a), r, n + 1);
    PlayBoth(s, a, Replays(r, n + 1));
  }

  /** After any run, a result that is written and stored under a positive time to live is read back
      whole: schema, every batch in order, and the row total. */
  lemma WrittenIsReadBack(ls: seq<Label>, w: nat, r: nat, ttl: nat, schema: string, bs: seq<Batch>)
    requires w !in Run(ls).procs && r !in Run(ls).procs && w != r && ttl > 0
    ensures At(Run(ls + (Write(w, ttl, schema, bs) + Read(r, |bs|))), r,
               Hit(TotalRows(bs), Events(Content(schema, bs), |bs|)))
  {
    var s, a, b := Run(ls), Write(w, ttl, schema, bs), Read(r, |bs|);
    WritesAll(s, w, ttl, schema, bs);
    ReadBack(Play(s, a), r, Content(schema, bs));
    PlayBoth(s, a, b);
    RunIsPlay(ls, a + b);
  }
}
