/** The query-result cache as a protocol over two stores: one file and one metadata row per key.

    Any number of writers, readers and invalidations of one key interleave; each label is one call
    on a store, one call by the query on its writer, or one record batch handed to a sink. File
    writes are atomic. Store calls may fail, and a failed or timed-out write may still have landed.
    A label that does not apply changes nothing. `State.committed` and a writer's `log` are
    history. */
module ResultCache {
  import opened Wrappers

  datatype Batch = Batch(rows: nat, data: string)

  /** What an Arrow IPC stream decodes to. */
  datatype Content = Content(schema: string, batches: seq<Batch>)

  datatype Meta = Meta(expires: int, rows: nat)

  datatype WriterCall = Schema(schema: string) | Rows(batch: Batch)

  /** What a sink has been given. */
  datatype SinkEvent = OnSchema(schema: string) | OnBatch(batch: Batch)

  datatype Proc =
    | Writing(ttl: nat, buffer: Option<Content>, rowCount: nat, log: seq<WriterCall>)
    | Flushing(ttl: nat, content: Content, rowCount: nat)
    | Stamping(ttl: nat, rowCount: nat)
    | Upserting(row: Meta)
    | Deleting
    | Done
    | LookingUp
    | Fetching
    | Replaying(content: Content, next: nat, rowCount: nat, sink: seq<SinkEvent>)
    | Hit(rowCount: nat, sink: seq<SinkEvent>)
    | Miss(sink: seq<SinkEvent>)
    | Failed(sink: seq<SinkEvent>)

  datatype State = State(file: Option<Content>, meta: Option<Meta>, now: int, procs: map<nat, Proc>,
                         committed: seq<seq<WriterCall>>)

  datatype FlushOutcome = Written | WriteFailed(landed: bool) | TimedOut(landed: bool)

  datatype Label =
    | NewWriter(p: nat, ttl: nat)
    | WriteSchema(p: nat, schema: string, ok: bool)
    | WriteBatch(p: nat, batch: Batch, ok: bool)
    | Finalize(p: nat, success: bool, ok: bool)
    | Flush(p: nat, outcome: FlushOutcome)
    | Stamp(p: nat)
    | Upsert(p: nat, ok: bool)
    | DeleteFile(p: nat, ok: bool)
    | NewReader(p: nat)
    | LookUp(p: nat, ok: bool)
    | ReadFile(p: nat, ok: bool)
    | Replay(p: nat, ok: bool, sinkOk: bool)
    | Invalidate(p: nat)
    | Cleanup(p: nat)
    | Tick(to: int)

  const INIT := State(None, None, 0, map[], [])

  function Become(s: State, p: nat, proc: Proc): State {
    s.(procs := s.procs[p := proc])
  }

  function Start(s: State, p: nat, proc: Proc): State {
    if p in s.procs then s else Become(s, p, proc)
  }

  /** A new schema starts a new buffer; the row count of an earlier one is not reset. */
  function AfterWriterCall(s: State, l: Label): State
    requires (l.WriteSchema? || l.WriteBatch? || l.Finalize?) && l.p in s.procs && s.procs[l.p].Writing?
  {
    var Writing(ttl, buffer, rowCount, log) := s.procs[l.p];
    match l
    case WriteSchema(p, schema, ok) =>
      if ok then Become(s, p, Writing(ttl, Some(Content(schema, [])), rowCount, log + [Schema(schema)])) else s
    case WriteBatch(p, batch, ok) =>
      if buffer.None? then s
      else if !ok then Become(s, p, Writing(ttl, buffer, rowCount + batch.rows, log))
      else Become(s, p, Writing(ttl, Some(buffer.value.(batches := buffer.value.batches + [batch])),
                                rowCount + batch.rows, log + [Rows(batch)]))
    case Finalize(p, success, ok) =>
      if !success || buffer.None? || !ok then Become(s, p, Done)
      else Become(s, p, Flushing(ttl, buffer.value, rowCount)).(committed := s.committed + [log])
  }

  function AfterFlush(s: State, p: nat, outcome: FlushOutcome): State
    requires p in s.procs && s.procs[p].Flushing?
  {
    var Flushing(ttl, content, rowCount) := s.procs[p];
    match outcome
    case Written => Become(s, p, Stamping(ttl, rowCount)).(file := Some(content))
    case _ => if outcome.landed then Become(s, p, Done).(file := Some(content)) else Become(s, p, Done)
  }

  /** One batch, or the end of the stream. The schema goes out before the first batch, or at the end
      when there is none; an error before anything went out is a miss. */
  function AfterReplay(s: State, p: nat, ok: bool, sinkOk: bool): State
    requires p in s.procs && s.procs[p].Replaying? && s.procs[p].next <= |s.procs[p].content.batches|
  {
    var Replaying(content, next, rowCount, sink) := s.procs[p];
    var begun := if next == 0 then [OnSchema(content.schema)] else sink;
    if next == |content.batches| then
      if next > 0 || sinkOk then Become(s, p, Hit(rowCount, begun)) else Become(s, p, Failed(sink))
    else if !ok then
      if next == 0 then Become(s, p, Miss(sink)) else Become(s, p, Failed(sink))
    else
      var batch := content.batches[next];
      if sinkOk then Become(s, p, Replaying(content, next + 1, rowCount + batch.rows, begun + [OnBatch(batch)]))
      else Become(s, p, Failed(begun))
  }

  function Apply(s: State, l: Label): State {
    match l
    case NewWriter(p, ttl) => Start(s, p, Writing(ttl, None, 0, []))
    case WriteSchema(p, _, _) => if p in s.procs && s.procs[p].Writing? then AfterWriterCall(s, l) else s
    case WriteBatch(p, _, _) => if p in s.procs && s.procs[p].Writing? then AfterWriterCall(s, l) else s
    case Finalize(p, _, _) => if p in s.procs && s.procs[p].Writing? then AfterWriterCall(s, l) else s
    case Flush(p, outcome) => if p in s.procs && s.procs[p].Flushing? then AfterFlush(s, p, outcome) else s
    case Stamp(p) =>
      if !(p in s.procs && s.procs[p].Stamping?) then s
      else Become(s, p, Upserting(Meta(s.now + s.procs[p].ttl, s.procs[p].rowCount)))
    case Upsert(p, ok) =>
      if !(p in s.procs && s.procs[p].Upserting?) then s
      else if ok then Become(s, p, Done).(meta := Some(s.procs[p].row))
      else Become(s, p, Deleting)
    case DeleteFile(p, ok) =>
      if !(p in s.procs && s.procs[p].Deleting?) then s
      else if ok then Become(s, p, Done).(file := None)
      else Become(s, p, Done)
    case NewReader(p) => Start(s, p, LookingUp)
    case LookUp(p, ok) =>
      if !(p in s.procs && s.procs[p].LookingUp?) then s
      else Become(s, p, if ok && s.meta.Some? && s.meta.value.expires > s.now then Fetching else Miss([]))
    case ReadFile(p, ok) =>
      if !(p in s.procs && s.procs[p].Fetching?) then s
      else Become(s, p, if ok && s.file.Some? then Replaying(s.file.value, 0, 0, []) else Miss([]))
    case Replay(p, ok, sinkOk) =>
      if p in s.procs && s.procs[p].Replaying? && s.procs[p].next <= |s.procs[p].content.batches|
      then AfterReplay(s, p, ok, sinkOk) else s
    case Invalidate(p) =>
      if p in s.procs then s
      else if s.meta.Some? then Become(s, p, Deleting).(meta := None) else Become(s, p, Done)
    case Cleanup(p) =>
      if p in s.procs then s
      else if s.meta.Some? && s.meta.value.expires <= s.now then Become(s, p, Deleting).(meta := None)
      else Become(s, p, Done)
    case Tick(to) => if to > s.now then s.(now := to) else s
  }

  function Run(ls: seq<Label>): State {
    if ls == [] then INIT else Apply(Run(ls[..|ls| - 1]), ls[|ls| - 1])
  }

  // ----- What a writer's calls amount to -----------------------------------------------------

  /** The last schema written and every batch after it; nothing before the first schema. */
  function Assemble(log: seq<WriterCall>): Option<Content> {
    if log == [] then None
    else
      var before, call := Assemble(log[..|log| - 1]), log[|log| - 1];
      match call
      case Schema(schema) => Some(Content(schema, []))
      case Rows(batch) =>
        if before.None? then None else Some(before.value.(batches := before.value.batches + [batch]))
  }

  function TotalRows(bs: seq<Batch>): nat {
    if bs == [] then 0 else TotalRows(bs[..|bs| - 1]) + bs[|bs| - 1].rows
  }

  function Events(c: Content, n: nat): seq<SinkEvent>
    requires n <= |c.batches|
  {
    if n == 0 then [OnSchema(c.schema)] else Events(c, n - 1) + [OnBatch(c.batches[n - 1])]
  }

  /** Some writer finalised with success after calls that amount to `c`. */
  ghost predicate Committed(s: State, c: Content) {
    exists i :: 0 <= i < |s.committed| && Assemble(s.committed[i]) == Some(c)
  }

  // ----- The invariant -----------------------------------------------------------------------

  ghost predicate ProcInv(s: State, proc: Proc) {
    match proc
    case Writing(_, buffer, _, log) => buffer == Assemble(log)
    case Flushing(_, content, _) => Committed(s, content)
    case Replaying(content, next, rowCount, sink) =>
      && Committed(s, content) && next <= |content.batches|
      && sink == (if next == 0 then [] else Events(content, next))
      && rowCount == TotalRows(content.batches[..next])
    case Hit(rowCount, sink) =>
      exists c :: Committed(s, c) && sink == Events(c, |c.batches|) && rowCount == TotalRows(c.batches)
    case Miss(sink) => sink == []
    case _ => true
  }

  ghost predicate Inv(s: State) {
    && (s.file.Some? ==> Committed(s, s.file.value))
    && forall p :: p in s.procs ==> ProcInv(s, s.procs[p])
  }

  lemma StillCommitted(s: State, s': State, c: Content)
    requires s.committed <= s'.committed && Committed(s, c)
    ensures Committed(s', c)
  {
    var i :| 0 <= i < |s.committed| && Assemble(s.committed[i]) == Some(c);
    assert s'.committed[i] == s.committed[i];
  }

  lemma StillInv(s: State, s': State, proc: Proc)
    requires s.committed <= s'.committed && ProcInv(s, proc)
    ensures ProcInv(s', proc)
  {
    match proc
    case Flushing(_, content, _) => StillCommitted(s, s', content);
    case Replaying(content, _, _, _) => StillCommitted(s, s', content);
    case Hit(rowCount, sink) =>
      var c :| Committed(s, c) && sink == Events(c, |c.batches|) && rowCount == TotalRows(c.batches);
      StillCommitted(s, s', c);
    case _ =>
  }

  lemma WriterKeeps(s: State, l: Label)
    requires Inv(s) && (l.WriteSchema? || l.WriteBatch? || l.Finalize?) && l.p in s.procs && s.procs[l.p].Writing?
    ensures ProcInv(AfterWriterCall(s, l), AfterWriterCall(s, l).procs[l.p])
  {
    var s', log := AfterWriterCall(s, l), s.procs[l.p].log;
    assert ProcInv(s, s.procs[l.p]);
    match l
    case WriteSchema(_, schema, _) => assert (log + [Schema(schema)])[..|log|] == log;
    case WriteBatch(_, batch, _) => assert (log + [Rows(batch)])[..|log|] == log;
    case Finalize(_, _, _) =>
      if s'.procs[l.p].Flushing? { assert s'.committed[|s.committed|] == log; }
  }

  lemma ReplayKeeps(s: State, p: nat, ok: bool, sinkOk: bool)
    requires Inv(s) && p in s.procs && s.procs[p].Replaying? && s.procs[p].next <= |s.procs[p].content.batches|
    ensures ProcInv(AfterReplay(s, p, ok, sinkOk), AfterReplay(s, p, ok, sinkOk).procs[p])
  {
    var s' := AfterReplay(s, p, ok, sinkOk);
    var Replaying(content, next, rowCount, sink) := s.procs[p];
    assert ProcInv(s, s.procs[p]);
    StillCommitted(s, s', content);
    if next == |content.batches| {
      assert content.batches[..next] == content.batches;
    } else {
      assert content.batches[..next + 1][..next] == content.batches[..next];
      assert Events(content, next + 1) == Events(content, next) + [OnBatch(content.batches[next])];
    }
  }

  lemma MoverKeeps(s: State, l: Label, p: nat)
    requires Inv(s) && p in Apply(s, l).procs && (p in s.procs ==> Apply(s, l).procs[p] != s.procs[p])
    ensures ProcInv(Apply(s, l), Apply(s, l).procs[p])
  {
    if p in s.procs { assert ProcInv(s, s.procs[p]); }
    if l.WriteSchema? || l.WriteBatch? || l.Finalize? {
      WriterKeeps(s, l);
    } else if l.Replay? {
      ReplayKeeps(s, p, l.ok, l.sinkOk);
    } else if l.ReadFile? && s.file.Some? {
      StillCommitted(s, Apply(s, l), s.file.value);
    }
  }

  lemma FileKeeps(s: State, l: Label)
    requires Inv(s)
    ensures s.committed <= Apply(s, l).committed
    ensures Apply(s, l).file.Some? ==> Committed(Apply(s, l), Apply(s, l).file.value)
  {
    var s' := Apply(s, l);
    if l.Flush? && l.p in s.procs { assert ProcInv(s, s.procs[l.p]); }
    assert s'.file.Some? ==> Committed(s, s'.file.value);
    if s'.file.Some? { StillCommitted(s, s', s'.file.value); }
  }

  lemma {:induction false} RunInv(ls: seq<Label>)
    ensures Inv(Run(ls))
  {
    if ls != [] {
      var s, l := Run(ls[..|ls| - 1]), ls[|ls| - 1];
      RunInv(ls[..|ls| - 1]);
      FileKeeps(s, l);
      forall p | p in Apply(s, l).procs
        ensures ProcInv(Apply(s, l), Apply(s, l).procs[p])
      {
        if p in s.procs && Apply(s, l).procs[p] == s.procs[p] {
          assert ProcInv(s, s.procs[p]);
          StillInv(s, Apply(s, l), s.procs[p]);
        } else {
          MoverKeeps(s, l, p);
        }
      }
    }
  }

  // ----- Hits and misses ---------------------------------------------------------------------

  /** In every interleaving, a reader that reports a hit has given its sink the schema and then all
      batches of one writer that finalised with success, and reports exactly their row total. */
  lemma HitReplaysOneWriter(ls: seq<Label>, p: nat)
    requires p in Run(ls).procs && Run(ls).procs[p].Hit?
    ensures exists i, c: Content ::
              && 0 <= i < |Run(ls).committed| && Assemble(Run(ls).committed[i]) == Some(c)
              && Run(ls).procs[p].sink == Events(c, |c.batches|)
              && Run(ls).procs[p].rowCount == TotalRows(c.batches)
  {
    RunInv(ls);
    var s := Run(ls);
    assert ProcInv(s, s.procs[p]);
  }

  /** A reader that reports a miss has not touched its sink. */
  lemma MissLeavesSinkUntouched(ls: seq<Label>, p: nat)
    requires p in Run(ls).procs && Run(ls).procs[p].Miss?
    ensures Run(ls).procs[p].sink == []
  {
    RunInv(ls);
    assert ProcInv(Run(ls), Run(ls).procs[p]);
  }
}
