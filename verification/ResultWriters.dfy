/** Where what the result cache stores comes from: the calls made on its writers, step by step, and
    which steps condemn the file. */
module ResultWriters {
  import opened Wrappers
  import opened ResultCache
  import opened ResultRows

  // ----- What a writer was given -------------------------------------------------------------

  /** Writer `p` takes each schema, and each batch after the first schema, that could be encoded. */
  function NextCalls(calls: seq<WriterCall>, l: Label, p: nat): seq<WriterCall> {
    if l.WriteSchema? && l.p == p && l.ok then calls + [Schema(l.schema)]
    else if l.WriteBatch? && l.p == p && l.ok && calls != [] then calls + [Rows(l.batch)]
    else calls
  }

  /** The calls among `ls` that writer `p` has taken. */
  function CallsOf(ls: seq<Label>, p: nat): seq<WriterCall> {
    if ls == [] then [] else NextCalls(CallsOf(ls[..|ls| - 1], p), ls[|ls| - 1], p)
  }

  /** The rows it was given since the first schema, whether or not they could be encoded. */
  function RowsOf(ls: seq<Label>, p: nat): nat {
    if ls == [] then 0
    else
      var front, l := ls[..|ls| - 1], ls[|ls| - 1];
      RowsOf(front, p) + if l.WriteBatch? && l.p == p && CallsOf(front, p) != [] then l.batch.rows else 0
  }

  /** Step `n` created writer `p`, which has since taken these calls and rows. */
  ghost predicate Taking(ls: seq<Label>, n: nat, p: nat, ttl: nat, calls: seq<WriterCall>, rows: nat) {
    && n < |ls| && ls[n] == NewWriter(p, ttl)
    && calls == CallsOf(ls[n + 1..], p) && rows == RowsOf(ls[n + 1..], p)
  }

  /** Step `n` created writer `p`, which was given the content `c` and `rows` rows and then finalised
      with success at step `z`. */
  ghost predicate Finalized(ls: seq<Label>, n: nat, z: nat, p: nat, ttl: nat, c: Content, rows: nat) {
    && n < z < |ls| && ls[z] == Finalize(p, true, true)
    && Taking(ls[..z], n, p, ttl, CallsOf(ls[n + 1..z], p), rows) && Assemble(CallsOf(ls[n + 1..z], p)) == Some(c)
  }

  /** After that, step `d` read the clock, and the row expires the time to live later. */
  ghost predicate Stamped(ls: seq<Label>, n: nat, z: nat, d: nat, p: nat, ttl: nat, c: Content, row: Meta) {
    && Finalized(ls, n, z, p, ttl, c, row.rows) && z < d < |ls| && ls[d] == Stamp(p)
    && row.expires == Run(ls[..d]).now + ttl
  }

  ghost predicate WriterStory(ls: seq<Label>, p: nat, proc: Proc) {
    match proc
    case Writing(ttl, buffer, rowCount, log) =>
      (buffer.None? <==> log == []) && exists n: nat :: Taking(ls, n, p, ttl, log, rowCount)
    case Flushing(ttl, c, rowCount) => exists n: nat, z: nat :: Finalized(ls, n, z, p, ttl, c, rowCount)
    case Stamping(ttl, rowCount) => exists n: nat, z: nat, c: Content :: Finalized(ls, n, z, p, ttl, c, rowCount)
    case Upserting(row) => exists n: nat, z: nat, d: nat, ttl: nat, c: Content :: Stamped(ls, n, z, d, p, ttl, c, row)
    case _ => true
  }

  // ----- One step ----------------------------------------------------------------------------

  lemma FinalizedLater(ls: seq<Label>, l: Label, n: nat, z: nat, p: nat, ttl: nat, c: Content, rows: nat)
    requires Finalized(ls, n, z, p, ttl, c, rows)
    ensures Finalized(ls + [l], n, z, p, ttl, c, rows)
  {
    assert (ls + [l])[..z] == ls[..z] && (ls + [l])[n + 1..z] == ls[n + 1..z];
  }

  lemma TakingLater(ls: seq<Label>, l: Label, n: nat, p: nat, ttl: nat, calls: seq<WriterCall>, rows: nat)
    requires Taking(ls, n, p, ttl, calls, rows)
    ensures Taking(ls + [l], n, p, ttl, NextCalls(calls, l, p), rows + if l.WriteBatch? && l.p == p && calls != [] then l.batch.rows else 0)
  {
    var rest := ls[n + 1..] + [l];
    assert (ls + [l])[n + 1..] == rest && rest[..|rest| - 1] == ls[n + 1..];
  }

  /** How a process comes to be writing. */
  lemma WritingMoves(s: State, l: Label, p: nat)
    requires p in Apply(s, l).procs && Apply(s, l).procs[p].Writing?
    requires p in s.procs && s.procs[p].Writing? ==> (s.procs[p].buffer.None? <==> s.procs[p].log == [])
    ensures var Writing(ttl, buffer, rows, log) := Apply(s, l).procs[p];
            if p !in s.procs then l == NewWriter(p, ttl) && buffer == None && rows == 0 && log == []
            else
              && s.procs[p].Writing? && s.procs[p].ttl == ttl && log == NextCalls(s.procs[p].log, l, p)
              && (buffer.None? <==> log == [])
              && rows == s.procs[p].rowCount + if l.WriteBatch? && l.p == p && s.procs[p].log != [] then l.batch.rows else 0
  {
  }

  /** How a writer comes to flush. */
  lemma FlushingMoves(s: State, l: Label, p: nat)
    requires p in Apply(s, l).procs && Apply(s, l).procs[p].Flushing? && (p in s.procs ==> ProcInv(s, s.procs[p]))
    ensures p in s.procs
    ensures var Flushing(ttl, c, rows) := Apply(s, l).procs[p];
            || s.procs[p] == Flushing(ttl, c, rows)
            || (l == Finalize(p, true, true) && s.procs[p].Writing? && s.procs[p].ttl == ttl && s.procs[p].rowCount == rows
                && Assemble(s.procs[p].log) == Some(c))
  {
  }

  /** How a writer comes to read the clock. */
  lemma StampingMoves(s: State, l: Label, p: nat)
    requires p in Apply(s, l).procs && Apply(s, l).procs[p].Stamping?
    ensures p in s.procs
    ensures var Stamping(ttl, rows) := Apply(s, l).procs[p];
            (s.procs[p].Stamping? || s.procs[p].Flushing?) && s.procs[p].ttl == ttl && s.procs[p].rowCount == rows
  {
  }

  /** How a writer comes to upsert. */
  lemma UpsertingMoves(s: State, l: Label, p: nat)
    requires p in Apply(s, l).procs && Apply(s, l).procs[p].Upserting?
    ensures p in s.procs
    ensures var row := Apply(s, l).procs[p].row;
            || s.procs[p] == Upserting(row)
            || (l == Stamp(p) && s.procs[p].Stamping? && row == Meta(s.now + s.procs[p].ttl, s.procs[p].rowCount))
  {
  }

  lemma BeginsTaking(ls: seq<Label>, p: nat, ttl: nat)
    ensures Taking(ls + [NewWriter(p, ttl)], |ls|, p, ttl, [], 0)
  {
    assert (ls + [NewWriter(p, ttl)])[|ls| + 1..] == [];
  }

  lemma EndsTaking(ls: seq<Label>, n: nat, p: nat, ttl: nat, calls: seq<WriterCall>, rows: nat, c: Content)
    requires Taking(ls, n, p, ttl, calls, rows) && Assemble(calls) == Some(c)
    ensures Finalized(ls + [Finalize(p, true, true)], n, |ls|, p, ttl, c, rows)
  {
    var all := ls + [Finalize(p, true, true)];
    assert all[..|ls|] == ls && all[n + 1..|ls|] == ls[n + 1..];
  }

  lemma WritingStep(ls: seq<Label>, l: Label, p: nat, w: Proc, proc: Proc)
    requires w.Writing? && WriterStory(ls, p, w) && proc.Writing? && proc.ttl == w.ttl && (proc.buffer.None? <==> proc.log == [])
    requires proc.log == NextCalls(w.log, l, p)
    requires proc.rowCount == w.rowCount + if l.WriteBatch? && l.p == p && w.log != [] then l.batch.rows else 0
    ensures WriterStory(ls + [l], p, proc)
  {
    var n: nat :| Taking(ls, n, p, w.ttl, w.log, w.rowCount);
    TakingLater(ls, l, n, p, w.ttl, w.log, w.rowCount);
  }

  lemma FlushingStep(ls: seq<Label>, l: Label, p: nat, w: Proc, proc: Proc)
    requires WriterStory(ls, p, w) && proc.Flushing?
    requires w == proc || (l == Finalize(p, true, true) && w.Writing? && w.ttl == proc.ttl && w.rowCount == proc.rowCount
                           && Assemble(w.log) == Some(proc.content))
    ensures WriterStory(ls + [l], p, proc)
  {
    if w.Writing? {
      var n: nat :| Taking(ls, n, p, w.ttl, w.log, w.rowCount);
      EndsTaking(ls, n, p, w.ttl, w.log, w.rowCount, proc.content);
    } else {
      var n: nat, z: nat :| Finalized(ls, n, z, p, proc.ttl, proc.content, proc.rowCount);
      FinalizedLater(ls, l, n, z, p, proc.ttl, proc.content, proc.rowCount);
    }
  }

  lemma StampingStep(ls: seq<Label>, l: Label, p: nat, ttl: nat, rows: nat, proc: Proc)
    requires (proc.Flushing? || proc.Stamping?) && WriterStory(ls, p, proc) && proc.ttl == ttl && proc.rowCount == rows
    ensures WriterStory(ls + [l], p, Stamping(ttl, rows))
  {
    if proc.Flushing? {
      var n: nat, z: nat :| Finalized(ls, n, z, p, ttl, proc.content, rows);
      FinalizedLater(ls, l, n, z, p, ttl, proc.content, rows);
    } else {
      var n: nat, z: nat, c: Content :| Finalized(ls, n, z, p, ttl, c, rows);
      FinalizedLater(ls, l, n, z, p, ttl, c, rows);
    }
  }

  lemma UpsertingStep(ls: seq<Label>, l: Label, p: nat, row: Meta, proc: Proc)
    requires WriterStory(ls, p, proc)
    requires proc == Upserting(row)
             || (l == Stamp(p) && proc.Stamping? && row == Meta(Run(ls).now + proc.ttl, proc.rowCount))
    ensures WriterStory(ls + [l], p, Upserting(row))
  {
    if proc.Upserting? {
      var n: nat, z: nat, d: nat, ttl: nat, c: Content :| Stamped(ls, n, z, d, p, ttl, c, row);
      FinalizedLater(ls, l, n, z, p, ttl, c, row.rows);
      SamePrefix(ls, l, d);
      assert Stamped(ls + [l], n, z, d, p, ttl, c, row);
    } else {
      var n: nat, z: nat, c: Content :| Finalized(ls, n, z, p, proc.ttl, c, row.rows);
      FinalizedLater(ls, l, n, z, p, proc.ttl, c, row.rows);
      assert (ls + [l])[..|ls|] == ls;
      assert Stamped(ls + [l], n, z, |ls|, p, proc.ttl, c, row);
    }
  }

  lemma WriterStep(ls: seq<Label>, l: Label, p: nat)
    requires Inv(Run(ls)) && p in Apply(Run(ls), l).procs
    requires p in Run(ls).procs ==> WriterStory(ls, p, Run(ls).procs[p])
    ensures WriterStory(ls + [l], p, Apply(Run(ls), l).procs[p])
  {
    var s := Run(ls);
    var proc := Apply(s, l).procs[p];
    match proc
    case Writing(ttl, _, _, _) =>
      WritingMoves(s, l, p);
      if p in s.procs { WritingStep(ls, l, p, s.procs[p], proc); } else { BeginsTaking(ls, p, ttl); }
    case Flushing(_, _, _) =>
      FlushingMoves(s, l, p);
      FlushingStep(ls, l, p, s.procs[p], proc);
    case Stamping(ttl, rows) =>
      StampingMoves(s, l, p);
      StampingStep(ls, l, p, ttl, rows, s.procs[p]);
    case Upserting(row) =>
      UpsertingMoves(s, l, p);
      UpsertingStep(ls, l, p, row, s.procs[p]);
    case _ =>
  }

  lemma {:induction false} RunWriter(ls: seq<Label>, p: nat)
    requires p in Run(ls).procs
    ensures WriterStory(ls, p, Run(ls).procs[p])
  {
    if ls != [] {
      var front, l := ls[..|ls| - 1], ls[|ls| - 1];
      assert ls == front + [l];
      RunInv(front);
      if p in Run(front).procs { RunWriter(front, p); }
      WriterStep(front, l, p);
    }
  }

  // ----- What the stores hold ----------------------------------------------------------------

  /** In every interleaving, what the file holds is what its writer was given, from its creation to
      its successful finalisation: the last schema and the batches after it. */
  lemma FileIsWhatWasWritten(ls: seq<Label>, f: nat, c: Content) returns (n: nat, z: nat, ttl: nat, rows: nat)
    requires FileFrom(ls, f, c)
    ensures Finalized(ls[..f], n, z, ls[f].p, ttl, c, rows)
  {
    var p := ls[f].p;
    RunWriter(ls[..f], p);
    ttl, rows := Run(ls[..f]).procs[p].ttl, Run(ls[..f]).procs[p].rowCount;
    n, z :| Finalized(ls[..f], n, z, p, ttl, c, rows);
  }

  /** In every interleaving, the row counts what its writer was given since the first schema, and
      expires the time to live of that writer after it read the clock. */
  lemma RowIsWhatWasWritten(ls: seq<Label>, k: nat, m: Meta) returns (n: nat, z: nat, d: nat, ttl: nat, c: Content)
    requires RowFrom(ls, k, m)
    ensures Stamped(ls[..k], n, z, d, ls[k].p, ttl, c, m)
  {
    RunWriter(ls[..k], ls[k].p);
    n, z, d, ttl, c :| Stamped(ls[..k], n, z, d, ls[k].p, ttl, c, m);
  }

  /** Step `n` of reader `p` looked up the row that step `k` had stored and nothing had ended, less
      than its writer's time to live after that writer read the clock at step `d`. */
  ghost predicate FreshLookUp(ls: seq<Label>, n: nat, k: nat, d: nat, p: nat, ttl: nat) {
    && d < k < n < |ls| && ls[n] == LookUp(p, true)
    && Upserts(Run(ls[..k]), ls[k]) && ls[d] == Stamp(ls[k].p)
    && NotEnded(ls[..n], k, Run(ls[..d]).now + ttl) && Run(ls[..n]).now < Run(ls[..d]).now + ttl
  }

  lemma RowIsFresh(ls: seq<Label>, n: nat, k: nat, p: nat, m: Meta) returns (d: nat, ttl: nat)
    requires n < |ls| && ls[n] == LookUp(p, true) && RowFrom(ls[..n], k, m) && Run(ls[..n]).now < m.expires
    ensures FreshLookUp(ls, n, k, d, p, ttl)
  {
    var b, z, c;
    b, z, d, ttl, c := RowIsWhatWasWritten(ls[..n], k, m);
    assert ls[..n][..k] == ls[..k] && ls[..k][..d] == ls[..d] && ls[..n][k] == ls[k];
  }

  /** Step `r` of reader `p` read what one writer had been given until it finalised with success. */
  ghost predicate GenuineRead(ls: seq<Label>, r: nat, f: nat, p: nat, c: Content) {
    && f < r < |ls| && ls[r] == ReadFile(p, true) && FileFrom(ls[..r], f, c)
    && exists n: nat, z: nat, ttl: nat, rows: nat :: Finalized(ls[..f], n, z, ls[f].p, ttl, c, rows)
  }

  lemma ReadIsGenuine(ls: seq<Label>, r: nat, f: nat, p: nat, c: Content)
    requires r < |ls| && ls[r] == ReadFile(p, true) && FileFrom(ls[..r], f, c)
    ensures GenuineRead(ls, r, f, p, c)
  {
    var n, z, ttl, rows := FileIsWhatWasWritten(ls[..r], f, c);
    assert ls[..r][..f] == ls[..f] && ls[..r][f] == ls[f];
  }

  /** In every interleaving, a reader that reports a hit looked the row up while it was fresh, later
      read what one writer had been given, and has replayed exactly that. */
  lemma HitIsFresh(ls: seq<Label>, p: nat) returns (n: nat, k: nat, d: nat, ttl: nat, r: nat, f: nat, c: Content)
    requires p in Run(ls).procs && Run(ls).procs[p].Hit?
    ensures n < r && FreshLookUp(ls, n, k, d, p, ttl) && GenuineRead(ls, r, f, p, c)
    ensures Run(ls).procs[p] == Hit(TotalRows(c.batches), Events(c, |c.batches|))
  {
    var m;
    n, k, m, r, f, c := HitWasLive(ls, p);
    d, ttl := RowIsFresh(ls, n, k, p, m);
    ReadIsGenuine(ls, r, f, p, c);
  }

  // ----- What is given is written ------------------------------------------------------------

  /** Step `n` created writer `p`, which has not been finalised since. */
  ghost predicate WritingSince(ls: seq<Label>, n: nat, p: nat, ttl: nat) {
    && n < |ls| && ls[n] == NewWriter(p, ttl) && p !in Run(ls[..n]).procs
    && forall j :: n < j < |ls| ==> !(ls[j].Finalize? && ls[j].p == p)
  }

  lemma {:induction false} AssembledIff(ls: seq<Label>, p: nat)
    ensures Assemble(CallsOf(ls, p)).None? <==> CallsOf(ls, p) == []
  {
    if ls != [] {
      var calls, l := CallsOf(ls[..|ls| - 1], p), ls[|ls| - 1];
      AssembledIff(ls[..|ls| - 1], p);
      AssembleNext(calls, l, p);
    }
  }

  /** What a writer holds that has taken these calls and rows. */
  function Held(ttl: nat, calls: seq<WriterCall>, rows: nat): Proc {
    Writing(ttl, Assemble(calls), rows, calls)
  }

  lemma AssembleNext(calls: seq<WriterCall>, l: Label, p: nat)
    requires Assemble(calls).None? <==> calls == []
    ensures l.WriteSchema? && l.p == p && l.ok ==> Assemble(NextCalls(calls, l, p)) == Some(Content(l.schema, []))
    ensures l.WriteBatch? && l.p == p && l.ok && calls != [] ==>
              Assemble(NextCalls(calls, l, p)) == Some(Assemble(calls).value.(batches := Assemble(calls).value.batches + [l.batch]))
  {
    var more := NextCalls(calls, l, p);
    if more != calls { assert more[..|calls|] == calls && more[|calls|] == more[|more| - 1]; }
  }

  lemma OthersLeaveWriter(s: State, l: Label, p: nat)
    requires p in s.procs && s.procs[p].Writing? && !((l.WriteSchema? || l.WriteBatch? || l.Finalize?) && l.p == p)
    ensures p in Apply(s, l).procs && Apply(s, l).procs[p] == s.procs[p]
  {
  }

  lemma HeldNext(s: State, l: Label, p: nat, ttl: nat, calls: seq<WriterCall>, rows: nat)
    requires p in s.procs && s.procs[p] == Held(ttl, calls, rows) && (Assemble(calls).None? <==> calls == [])
    requires !(l.Finalize? && l.p == p)
    ensures var rows' := rows + if l.WriteBatch? && l.p == p && calls != [] then l.batch.rows else 0;
            p in Apply(s, l).procs && Apply(s, l).procs[p] == Held(ttl, NextCalls(calls, l, p), rows')
  {
    if (l.WriteSchema? || l.WriteBatch?) && l.p == p {
      AssembleNext(calls, l, p);
    } else {
      OthersLeaveWriter(s, l, p);
    }
  }

  lemma CallsNext(ls: seq<Label>, l: Label, p: nat)
    ensures CallsOf(ls + [l], p) == NextCalls(CallsOf(ls, p), l, p)
    ensures RowsOf(ls + [l], p) == RowsOf(ls, p) + if l.WriteBatch? && l.p == p && CallsOf(ls, p) != [] then l.batch.rows else 0
  {
    assert (ls + [l])[..|ls|] == ls;
  }

  lemma WriterHoldsNext(ls: seq<Label>, l: Label, given: seq<Label>, p: nat, ttl: nat)
    requires At(Run(ls), p, Held(ttl, CallsOf(given, p), RowsOf(given, p))) && !(l.Finalize? && l.p == p)
    ensures At(Run(ls + [l]), p, Held(ttl, CallsOf(given + [l], p), RowsOf(given + [l], p)))
  {
    AssembledIff(given, p);
    CallsNext(given, l, p);
    HeldNext(Run(ls), l, p, ttl, CallsOf(given, p), RowsOf(given, p));
    RunAppend(ls, l);
  }

  lemma WriterBegins(ls: seq<Label>, p: nat, ttl: nat)
    requires p !in Run(ls).procs
    ensures At(Run(ls + [NewWriter(p, ttl)]), p, Held(ttl, [], 0))
  {
    RunAppend(ls, NewWriter(p, ttl));
  }

  lemma {:induction false} WriterHolds(ls: seq<Label>, n: nat, p: nat, ttl: nat)
    requires WritingSince(ls, n, p, ttl)
    ensures At(Run(ls), p, Held(ttl, CallsOf(ls[n + 1..], p), RowsOf(ls[n + 1..], p)))
  {
    var front, l := ls[..|ls| - 1], ls[|ls| - 1];
    assert ls == front + [l];
    if n == |ls| - 1 {
      assert ls[n + 1..] == [];
      WriterBegins(front, p, ttl);
    } else {
      assert front[..n] == ls[..n] && ls[n + 1..] == front[n + 1..] + [l];
      WriterHolds(front, n, p, ttl);
      WriterHoldsNext(front, l, front[n + 1..], p, ttl);
    }
  }

  /** After any run, a writer that has been given some content, in whatever interleaving, goes on to
      flush exactly that content when it is finalised with success. */
  lemma FinalizedIsFlushed(ls: seq<Label>, n: nat, p: nat, ttl: nat, c: Content)
    requires WritingSince(ls, n, p, ttl) && Assemble(CallsOf(ls[n + 1..], p)) == Some(c)
    ensures At(Run(ls + [Finalize(p, true, true)]), p, Flushing(ttl, c, RowsOf(ls[n + 1..], p)))
  {
    WriterHolds(ls, n, p, ttl);
    RunAppend(ls, Finalize(p, true, true));
  }

  // ----- Deletions ---------------------------------------------------------------------------

  /** The step condemns the file: an upsert that fails after the file was written, the invalidation
      of a row, or the cleanup of one that has expired. */
  predicate Condemns(s: State, l: Label, p: nat) {
    || (l == Upsert(p, false) && p in s.procs && s.procs[p].Upserting?)
    || (l == Invalidate(p) && p !in s.procs && s.meta.Some?)
    || (l == Cleanup(p) && p !in s.procs && s.meta.Some? && s.meta.value.expires <= s.now)
  }

  ghost predicate CondemnedAt(ls: seq<Label>, d: nat, p: nat) {
    && d < |ls| && Condemns(Run(ls[..d]), ls[d], p)
    && forall j :: d < j < |ls| ==> !(ls[j].DeleteFile? && ls[j].p == p)
  }

  predicate Condemned(s: State, p: nat) {
    p in s.procs && s.procs[p].Deleting?
  }

  lemma CondemnedStep(s: State, l: Label, p: nat)
    ensures Condemned(Apply(s, l), p) <==> Condemns(s, l, p) || (Condemned(s, p) && !(l.DeleteFile? && l.p == p))
  {
  }

  lemma CondemnedLater(ls: seq<Label>, l: Label, d: nat, p: nat)
    ensures d < |ls| ==> (CondemnedAt(ls + [l], d, p) <==> CondemnedAt(ls, d, p) && !(l.DeleteFile? && l.p == p))
    ensures CondemnedAt(ls + [l], |ls|, p) <==> Condemns(Run(ls), l, p)
  {
    var all := ls + [l];
    assert all[..|ls|] == ls && all[|ls|] == l;
    if d < |ls| { SamePrefix(ls, l, d); }
  }

  lemma {:induction false} CondemnedHolds(ls: seq<Label>, d: nat, p: nat)
    requires CondemnedAt(ls, d, p)
    ensures Condemned(Run(ls), p)
  {
    var front, l := ls[..|ls| - 1], ls[|ls| - 1];
    assert ls == front + [l];
    CondemnedLater(front, l, d, p);
    CondemnedStep(Run(front), l, p);
    if d < |front| { CondemnedHolds(front, d, p); }
  }

  lemma {:induction false} CondemnedComesFrom(ls: seq<Label>, p: nat) returns (d: nat)
    requires Condemned(Run(ls), p)
    ensures CondemnedAt(ls, d, p)
  {
    var front, l := ls[..|ls| - 1], ls[|ls| - 1];
    assert ls == front + [l];
    CondemnedStep(Run(front), l, p);
    d := |front|;
    if !Condemns(Run(front), l, p) { d := CondemnedComesFrom(front, p); }
    CondemnedLater(front, l, d, p);
  }

  /** In every run, a process is about to delete the file if and only if an earlier step of it has
      condemned the file and it has not yet made the attempt. */
  lemma CondemnedIff(ls: seq<Label>, p: nat)
    ensures Condemned(Run(ls), p) <==> exists d: nat :: CondemnedAt(ls, d, p)
  {
    if Condemned(Run(ls), p) { var d := CondemnedComesFrom(ls, p); }
    forall d: nat | CondemnedAt(ls, d, p) ensures Condemned(Run(ls), p) { CondemnedHolds(ls, d, p); }
  }

  // ----- Failed replays ----------------------------------------------------------------------

  /** At step `n` the replay of reader `p` fails for good: the sink refuses, or a batch after the
      first cannot be read. */
  ghost predicate FailReason(ls: seq<Label>, n: nat, p: nat) {
    && n < |ls| && ls[n].Replay? && ls[n].p == p && p in Run(ls[..n]).procs && Run(ls[..n]).procs[p].Replaying?
    && (!ls[n].sinkOk || (!ls[n].ok && 0 < Run(ls[..n]).procs[p].next < |Run(ls[..n]).procs[p].content.batches|))
  }

  lemma ReplayFails(s: State, l: Label, p: nat)
    requires p in Apply(s, l).procs && Apply(s, l).procs[p].Failed? && (p in s.procs ==> Apply(s, l).procs[p] != s.procs[p])
    ensures l.Replay? && l.p == p && p in s.procs && s.procs[p].Replaying?
    ensures !l.sinkOk || (!l.ok && 0 < s.procs[p].next < |s.procs[p].content.batches|)
  {
  }

  /** In every interleaving, a replay fails only for one of these reasons; any earlier trouble is a
      miss, after which the query can still run. */
  lemma {:induction false} FailureIsExplained(ls: seq<Label>, p: nat) returns (n: nat)
    requires p in Run(ls).procs && Run(ls).procs[p].Failed?
    ensures FailReason(ls, n, p)
  {
    var front, l := ls[..|ls| - 1], ls[|ls| - 1];
    assert ls == front + [l];
    if p in Run(front).procs && Run(ls).procs[p] == Run(front).procs[p] {
      n := FailureIsExplained(front, p);
      assert ls[..n] == front[..n];
    } else {
      n := |front|;
      ReplayFails(Run(front), l, p);
    }
  }
}
