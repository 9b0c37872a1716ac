/** Child writes of a staged document batch: pipeline items, run status and
    progress, and document content, all fenced by the batch command's attempt. */
module StagedBatchFence {
  import opened Wrappers
  import opened ActorExecution
  import Protocol = FencingProtocol

  /** The invocation an actor process runs under. */
  datatype Fence = Fence(kind: SourceKind, sourceId: int, token: Token, version: int)

  /** pipeline_items is unique on (run, key); the pair identifies the row. */
  datatype ItemKey = ItemKey(run: int, key: string)
  datatype ItemRow = ItemRow(attempt: nat, status: Status, error: Option<string>)
  datatype ItemRecord = ItemRecord(key: ItemKey, attempt: nat)

  datatype Progress = Progress(total: int, done: int, failed: int, skipped: int, phase: Option<string>)

  /** A stored embedding, OCR correction or review suggestion. */
  datatype Content = Content(table: string, document: int, body: string)

  datatype BatchError = FenceLost | ChildCancelled

  datatype State = State(
    db: Db,
    batchOf: map<int, int>,  // pipeline run -> batch command
    items: map<ItemKey, ItemRow>,
    progress: map<int, Progress>,
    contents: seq<Content>)

  function RunKey(run: int): SourceKey { SourceKey(PipelineRun, run) }
  function CommandKey(command: int): SourceKey { SourceKey(Command, command) }

  predicate IsCancelled(status: Status) {
    status == CancelRequested || status == Cancelled
  }

  /** _lock_staged_batch_command: the fence names this command and still owns it. */
  predicate OwnsBatch(st: State, fence: Option<Fence>, command: int) {
    && fence.Some? && fence.value.kind == Command && fence.value.sourceId == command
    && OwnsFence(st.db, CommandKey(command), fence.value.version, fence.value.token)
  }

  /** _lock_current_batch_command: vacuous unless the invocation is a command's. */
  predicate CurrentBatchLocked(st: State, fence: Option<Fence>) {
    fence.Some? && fence.value.kind == Command ==> OwnsBatch(st, fence, fence.value.sourceId)
  }

  /** source_fence("pipeline_run", run) as a condition on the row. */
  predicate RunFenceHolds(st: State, fence: Option<Fence>, run: int) {
    match fence
    case None => true
    case Some(f) =>
      if f.kind == PipelineRun && f.sourceId == run then OwnsFence(st.db, RunKey(run), f.version, f.token)
      else if f.kind == Command then
        run in st.batchOf && st.batchOf[run] == f.sourceId && OwnsBatch(st, fence, f.sourceId)
      else true
  }

  /** The guarded writes, as an attempt issues them. */
  datatype Write =
    | StartItem(startKey: ItemKey, command: int)
    | FinishItem(record: ItemRecord, run: int, command: int, outcome: Status, itemError: Option<string>)
    | MarkStatus(statusRun: int, newStatus: Status, statusError: Option<string>)
    | MarkRetrying(retryRun: int, reason: string, backoff: int)
    | MarkCancelled(cancelRun: int, message: string)
    | UpdateProgress(progressRun: int, snapshot: Progress)
    | StoreContent(content: Content, command: int)

  function SetRun(st: State, run: int, row: SourceRow): State {
    st.(db := st.db.(sources := st.db.sources[RunKey(run) := row]))
  }

  predicate LiveChild(st: State, run: int, command: int) {
    && RunKey(run) in st.db.sources && run in st.batchOf && st.batchOf[run] == command
    && !IsCancelled(st.db.sources[RunKey(run)].status)
  }

  function Resumed(st: State, key: ItemKey): ItemRow {
    ItemRow(if key in st.items then st.items[key].attempt + 1 else 1, Running, None)
  }

  /** The state after a write, and whether it raised. */
  function Apply(st: State, fence: Option<Fence>, w: Write): (State, Result<(), BatchError>) {
    match w
    case StartItem(key, command) =>
      if OwnsBatch(st, fence, command) && LiveChild(st, key.run, command)
      then (st.(items := st.items[key := Resumed(st, key)]), Success(()))
      else (st, Failure(FenceLost))
    case FinishItem(record, run, command, outcome, err) =>
      if && OwnsBatch(st, fence, command) && record.key in st.items && record.key.run == run
         && st.items[record.key].attempt == record.attempt
      then (st.(items := st.items[record.key := ItemRow(record.attempt, outcome, err)]), Success(()))
      else (st, Failure(FenceLost))
    case MarkStatus(run, status, err) =>
      if !CurrentBatchLocked(st, fence) then (st, Failure(FenceLost))
      else if && RunKey(run) in st.db.sources && !IsCancelled(st.db.sources[RunKey(run)].status)
              && RunFenceHolds(st, fence, run)
      then (SetRun(st, run, st.db.sources[RunKey(run)].(status := status, error := err)), Success(()))
      else (st, Success(()))
    case MarkRetrying(run, reason, backoff) =>
      if && RunKey(run) in st.db.sources && !IsCancelled(st.db.sources[RunKey(run)].status)
         && RunFenceHolds(st, fence, run)
      then
        var row := st.db.sources[RunKey(run)];
        (SetRun(st, run, row.(status := Retrying, retryCount := row.retryCount + 1,
                              retryAfter := Some(backoff), error := Some(reason))), Success(()))
      else (st, Success(()))
    case MarkCancelled(run, message) =>
      if RunKey(run) in st.db.sources && RunFenceHolds(st, fence, run)
      then (SetRun(st, run, st.db.sources[RunKey(run)].(status := Cancelled, error := Some(message))), Success(()))
      else (st, Success(()))
    case UpdateProgress(run, snapshot) =>
      if !CurrentBatchLocked(st, fence) then (st, Failure(FenceLost))
      else if RunKey(run) in st.db.sources && RunFenceHolds(st, fence, run)
      then (st.(progress := st.progress[run := snapshot]), Success(()))
      else (st, Success(()))
    case StoreContent(content, command) =>
      if OwnsBatch(st, fence, command)
      then (st.(contents := st.contents + [content]), Success(()))
      else (st, Failure(FenceLost))
  }

  // ---------- the same, row by row ----------

  /** The source row is running under this fence's version and token. */
  predicate RunsUnder(db: Db, source: SourceKey, f: Fence) {
    && source in db.sources
    && var row := db.sources[source]; row.status == Running && row.version == f.version && row.token == Some(f.token)
  }

  /** The invocation is the attempt that runs this batch command. */
  predicate RunsBatch(st: State, fence: Option<Fence>, command: int) {
    && fence.Some? && fence.value.kind == Command && fence.value.sourceId == command
    && RunsUnder(st.db, SourceKey(Command, command), fence.value)
  }

  /** A run is out of reach only of an attempt that has lost it, and of a batch that it does not belong to. */
  predicate OutOfReach(st: State, fence: Option<Fence>, run: int) {
    && fence.Some?
    && var f := fence.value;
       || (f.kind == PipelineRun && f.sourceId == run && !RunsUnder(st.db, SourceKey(PipelineRun, run), f))
       || (f.kind == Command && (run !in st.batchOf || st.batchOf[run] != f.sourceId))
       || (f.kind == Command && !RunsUnder(st.db, SourceKey(Command, f.sourceId), f))
  }

  /** Which writes raise: those of a batch attempt that has lost its command, and item and content writes that are
      not for the row as it is. */
  predicate Raises(st: State, fence: Option<Fence>, w: Write) {
    match w
    case StartItem(key, command) =>
      || !RunsBatch(st, fence, command) || SourceKey(PipelineRun, key.run) !in st.db.sources
      || key.run !in st.batchOf || st.batchOf[key.run] != command
      || st.db.sources[SourceKey(PipelineRun, key.run)].status in {CancelRequested, Cancelled}
    case FinishItem(record, run, command, _, _) =>
      || !RunsBatch(st, fence, command) || run != record.key.run || record.key !in st.items
      || record.attempt != st.items[record.key].attempt
    case MarkStatus(_, _, _) =>
      fence.Some? && fence.value.kind == Command && !RunsBatch(st, fence, fence.value.sourceId)
    case UpdateProgress(_, _) =>
      fence.Some? && fence.value.kind == Command && !RunsBatch(st, fence, fence.value.sourceId)
    case StoreContent(_, command) => !RunsBatch(st, fence, command)
    case MarkRetrying(_, _, _) => false
    case MarkCancelled(_, _) => false
  }

  /** A run that is out of reach, or cancelled, is silently left alone. */
  predicate Skipped(st: State, fence: Option<Fence>, w: Write) {
    match w
    case MarkStatus(run, _, _) => OutOfReach(st, fence, run) || MissingOrCancelled(st, run)
    case MarkRetrying(run, _, _) => OutOfReach(st, fence, run) || MissingOrCancelled(st, run)
    case MarkCancelled(run, _) => OutOfReach(st, fence, run) || SourceKey(PipelineRun, run) !in st.db.sources
    case UpdateProgress(run, _) => OutOfReach(st, fence, run) || SourceKey(PipelineRun, run) !in st.db.sources
    case _ => false
  }

  predicate MissingOrCancelled(st: State, run: int) {
    var key := SourceKey(PipelineRun, run);
    key !in st.db.sources || st.db.sources[key].status in {CancelRequested, Cancelled}
  }

  /** Only this run's status, error and retry fields differ. */
  predicate RunChanged(st: State, now: State, run: int, status: Status, error: Option<string>) {
    var key := SourceKey(PipelineRun, run);
    && key in st.db.sources && key in now.db.sources
    && var row, row' := st.db.sources[key], now.db.sources[key];
       && now == st.(db := st.db.(sources := st.db.sources[key := row']))
       && row' == row.(status := status, error := error, retryCount := row'.retryCount, retryAfter := row'.retryAfter)
  }

  predicate RetriesCounted(st: State, now: State, run: int, more: nat, retryAfter: Option<int>) {
    var key := SourceKey(PipelineRun, run);
    && key in st.db.sources && key in now.db.sources
    && now.db.sources[key].retryCount == st.db.sources[key].retryCount + more
    && now.db.sources[key].retryAfter == retryAfter
  }

  /** What a write leaves behind that neither raises nor skips its row. */
  predicate Written(st: State, now: State, w: Write) {
    match w
    case StartItem(key, _) =>
      && key in now.items && now == st.(items := st.items[key := now.items[key]])
      && now.items[key].status == Running && now.items[key].error == None
      && (key in st.items ==> now.items[key].attempt == st.items[key].attempt + 1)
      && (key !in st.items ==> now.items[key].attempt == 1)
    case FinishItem(record, _, _, outcome, err) =>
      now == st.(items := st.items[record.key := ItemRow(record.attempt, outcome, err)])
    case MarkStatus(run, status, err) =>
      && RunChanged(st, now, run, status, err)
      && RetriesCounted(st, now, run, 0, st.db.sources[SourceKey(PipelineRun, run)].retryAfter)
    case MarkRetrying(run, reason, backoff) =>
      RunChanged(st, now, run, Retrying, Some(reason)) && RetriesCounted(st, now, run, 1, Some(backoff))
    case MarkCancelled(run, message) =>
      && RunChanged(st, now, run, Cancelled, Some(message))
      && RetriesCounted(st, now, run, 0, st.db.sources[SourceKey(PipelineRun, run)].retryAfter)
    case UpdateProgress(run, snapshot) => now == st.(progress := st.progress[run := snapshot])
    case StoreContent(content, _) => now == st.(contents := st.contents + [content])
  }

  lemma ReachIsFence(st: State, fence: Option<Fence>, run: int)
    ensures OutOfReach(st, fence, run) <==> !RunFenceHolds(st, fence, run)
  {
  }

  /** Every write raises, skips its row or does exactly what it says, by the rows as they are. */
  lemma WriteRaisesSkipsOrWrites(st: State, fence: Option<Fence>, w: Write)
    ensures var (now, r) := Apply(st, fence, w);
            && (r == Failure(FenceLost) <==> Raises(st, fence, w)) && (r.Success? <==> !Raises(st, fence, w))
            && (if Raises(st, fence, w) || Skipped(st, fence, w) then now == st else Written(st, now, w))
  {
    match w
    case MarkStatus(run, _, _) => ReachIsFence(st, fence, run);
    case MarkRetrying(run, _, _) => ReachIsFence(st, fence, run);
    case MarkCancelled(run, _) => ReachIsFence(st, fence, run);
    case UpdateProgress(run, _) => ReachIsFence(st, fence, run);
    case _ =>
  }

  // ---------- the tables as the helpers update them ----------

  class BatchStore {
    var sources: map<SourceKey, SourceRow>
    var executions: map<int, ExecutionRow>
    var batchOf: map<int, int>
    var items: map<ItemKey, ItemRow>
    var progress: map<int, Progress>
    var contents: seq<Content>

    constructor (st: State)
      ensures Snapshot() == st
    {
      sources, executions := st.db.sources, st.db.executions;
      batchOf, items, progress, contents := st.batchOf, st.items, st.progress, st.contents;
    }

    ghost function Snapshot(): State
      reads this
    {
      State(Db(sources, executions), batchOf, items, progress, contents)
    }

    predicate CommandOwned(fence: Fence, command: int)
      reads this
      ensures CommandOwned(fence, command) <==>
              OwnsFence(Db(sources, executions), CommandKey(command), fence.version, fence.token)
    {
      && CommandKey(command) in sources
      && var row := sources[CommandKey(command)];
         row.status == Running && row.version == fence.version && row.token == Some(fence.token)
    }

    method StartOrResumeStagedPipelineItem(fence: Option<Fence>, key: ItemKey, command: int)
      returns (r: Result<ItemRecord, BatchError>)
      modifies this`items
      ensures var (st, outcome) := Apply(old(Snapshot()), fence, StartItem(key, command));
              && Snapshot() == st && (r.Success? <==> outcome.Success?) && (r.Failure? ==> r == Failure(FenceLost))
      ensures r.Success? ==> r.value == ItemRecord(key, items[key].attempt)
    {
      if fence.None? || fence.value.kind != Command || fence.value.sourceId != command {
        return Failure(FenceLost);
      }
      if !CommandOwned(fence.value, command) {
        return Failure(FenceLost);
      }
      var run := RunKey(key.run);
      if !(run in sources && key.run in batchOf && batchOf[key.run] == command && !IsCancelled(sources[run].status)) {
        return Failure(FenceLost);
      }
      if key in items {
        items := items[key := ItemRow(items[key].attempt + 1, Running, None)];
      } else {
        items := items[key := ItemRow(1, Running, None)];
      }
      return Success(ItemRecord(key, items[key].attempt));
    }

    method FinishStagedPipelineItem(fence: Option<Fence>, record: ItemRecord, run: int, command: int,
                                    status: Status, error: Option<string>)
      returns (r: Result<(), BatchError>)
      modifies this`items
      ensures (Snapshot(), r) == Apply(old(Snapshot()), fence, FinishItem(record, run, command, status, error))
    {
      if fence.None? || fence.value.kind != Command || fence.value.sourceId != command {
        return Failure(FenceLost);
      }
      if !CommandOwned(fence.value, command) {
        return Failure(FenceLost);
      }
      if record.key !in items || record.key.run != run || items[record.key].attempt != record.attempt {
        return Failure(FenceLost);
      }
      items := items[record.key := ItemRow(record.attempt, status, error)];
      return Success(());
    }

    predicate FencedRun(fence: Option<Fence>, run: int)
      reads this
      ensures FencedRun(fence, run) <==> RunFenceHolds(Snapshot(), fence, run)
    {
      match fence
      case None => true
      case Some(f) =>
        if f.kind == PipelineRun && f.sourceId == run then
          RunKey(run) in sources && sources[RunKey(run)].status == Running
          && sources[RunKey(run)].version == f.version && sources[RunKey(run)].token == Some(f.token)
        else if f.kind == Command then
          run in batchOf && batchOf[run] == f.sourceId && CommandOwned(f, f.sourceId)
        else true
    }

    method MarkPipelineRunStatus(fence: Option<Fence>, run: int, status: Status, error: Option<string>)
      returns (r: Result<(), BatchError>)
      modifies this`sources
      ensures (Snapshot(), r) == Apply(old(Snapshot()), fence, MarkStatus(run, status, error))
    {
      if fence.Some? && fence.value.kind == Command && !CommandOwned(fence.value, fence.value.sourceId) {
        return Failure(FenceLost);
      }
      var key := RunKey(run);
      if key in sources && !IsCancelled(sources[key].status) && FencedRun(fence, run) {
        sources := sources[key := sources[key].(status := status, error := error)];
      }
      return Success(());
    }

    method MarkPipelineRunRetrying(fence: Option<Fence>, run: int, reason: string, backoff: int)
      modifies this`sources
      ensures (Snapshot(), Success(())) == Apply(old(Snapshot()), fence, MarkRetrying(run, reason, backoff))
    {
      var key := RunKey(run);
      if key in sources && !IsCancelled(sources[key].status) && FencedRun(fence, run) {
        var row := sources[key];
        sources := sources[key := row.(status := Retrying, retryCount := row.retryCount + 1,
                                       retryAfter := Some(backoff), error := Some(reason))];
      }
    }

    method MarkPipelineRunCancelled(fence: Option<Fence>, run: int, message: string)
      modifies this`sources
      ensures (Snapshot(), Success(())) == Apply(old(Snapshot()), fence, MarkCancelled(run, message))
    {
      var key := RunKey(run);
      if key in sources && FencedRun(fence, run) {
        sources := sources[key := sources[key].(status := Cancelled, error := Some(message))];
      }
    }

    method UpdatePipelineRunProgress(fence: Option<Fence>, run: int, snapshot: Progress)
      returns (r: Result<(), BatchError>)
      modifies this`progress
      ensures (Snapshot(), r) == Apply(old(Snapshot()), fence, UpdateProgress(run, snapshot))
    {
      if fence.Some? && fence.value.kind == Command && !CommandOwned(fence.value, fence.value.sourceId) {
        return Failure(FenceLost);
      }
      if RunKey(run) in sources && FencedRun(fence, run) {
        progress := progress[run := snapshot];
      }
      return Success(());
    }

    /** The fenced form of the embedding, OCR-correction and suggestion writers. */
    method StoreBatchContent(fence: Option<Fence>, content: Content, command: int) returns (r: Result<(), BatchError>)
      modifies this`contents
      ensures (Snapshot(), r) == Apply(old(Snapshot()), fence, StoreContent(content, command))
    {
      if fence.None? || fence.value.kind != Command || fence.value.sourceId != command
         || !CommandOwned(fence.value, command) {
        return Failure(FenceLost);
      }
      contents := contents + [content];
      return Success(());
    }

    /** ensure_staged_batch_active: first the fence, then the children. */
    method EnsureStagedBatchActive(fence: Option<Fence>, command: int, runs: seq<int>)
      returns (r: Result<(), BatchError>)
      ensures r == Failure(FenceLost) <==> !OwnsBatch(Snapshot(), fence, command)
      ensures r == Failure(ChildCancelled) <==>
              && OwnsBatch(Snapshot(), fence, command)
              && exists run :: run in runs && CancelledChild(Snapshot(), run, command)
      ensures r.Success? <==>
              && RunsBatch(Snapshot(), fence, command)
              && forall run <- runs | run in batchOf && batchOf[run] == command
                                      && SourceKey(PipelineRun, run) in sources ::
                   sources[SourceKey(PipelineRun, run)].status !in {CancelRequested, Cancelled}
      ensures r == Failure(FenceLost) <==> !RunsBatch(Snapshot(), fence, command)
    {
      if fence.None? || fence.value.kind != Command || fence.value.sourceId != command
         || !CommandOwned(fence.value, command) {
        return Failure(FenceLost);
      }
      for k := 0 to |runs|
        invariant forall run :: run in runs[..k] ==> !CancelledChild(Snapshot(), run, command)
      {
        var run := runs[k];
        if RunKey(run) in sources && run in batchOf && batchOf[run] == command
            && IsCancelled(sources[RunKey(run)].status) {
          assert CancelledChild(Snapshot(), run, command);
          return Failure(ChildCancelled);
        }
      }
      return Success(());
    }
  }

  predicate CancelledChild(st: State, run: int, command: int) {
    && RunKey(run) in st.db.sources && run in st.batchOf && st.batchOf[run] == command
    && IsCancelled(st.db.sources[RunKey(run)].status)
  }

  // ---------- every interleaving ----------

  /** One committed transaction: of the lifecycle protocol, or a write under any invocation. */
  datatype Event =
    | Lifecycle(step: Protocol.Event)
    | Child(fence: Option<Fence>, write: Write)

  function Step(st: State, ev: Event): State {
    match ev
    case Lifecycle(step) => st.(db := Protocol.Step(st.db, step))
    case Child(fence, write) => Apply(st, fence, write).0
  }

  function Run(st: State, evs: seq<Event>): State {
    if evs == [] then st else Step(Run(st, evs[..|evs| - 1]), evs[|evs| - 1])
  }

  /** A write issued by a batch command's own attempt. */
  lemma BatchWriteNeedsItsFence(st: State, f: Fence, w: Write)
    requires f.kind == Command
    ensures Apply(st, Some(f), w).0 != st ==> OwnsFence(st.db, CommandKey(f.sourceId), f.version, f.token)
  {
  }

  /** A child write leaves every version and token alone. */
  lemma WritesKeepFences(st: State, fence: Option<Fence>, w: Write, source: SourceKey)
    requires source in st.db.sources
    ensures var after := Apply(st, fence, w).0.db.sources;
            && source in after && after[source].version == st.db.sources[source].version
            && after[source].token == st.db.sources[source].token
  {
  }

  lemma StepKeepsSuperseded(st: State, ev: Event, source: SourceKey, version: int, token: Token)
    requires Protocol.Superseded(st.db, source, version, token)
    ensures Protocol.Superseded(Step(st, ev).db, source, version, token)
  {
    match ev
    case Lifecycle(step) =>
      assert [step][..0] == [];
      assert Protocol.Run(st.db, [step]) == Protocol.Step(st.db, step);
      Protocol.SupersededForever(st.db, [step], source, version, token);
    case Child(fence, write) => WritesKeepFences(st, fence, write, source);
  }

  lemma {:induction false} SupersededForever(st: State, evs: seq<Event>, source: SourceKey, version: int, token: Token)
    requires Protocol.Superseded(st.db, source, version, token)
    ensures Protocol.Superseded(Run(st, evs).db, source, version, token)
  {
    if evs != [] {
      var prior := evs[..|evs| - 1];
      SupersededForever(st, prior, source, version, token);
      StepKeepsSuperseded(Run(st, prior), evs[|evs| - 1], source, version, token);
    }
  }

  /** After the batch command is claimed again, no child write of an older attempt
      changes anything, and every write that checks the command row raises. */
  lemma OldBatchAttemptNeverWrites(st: State, claim: Protocol.Event, after: seq<Event>, f: Fence, w: Write)
    requires f.kind == Command && claim.Claim? && claim.source == CommandKey(f.sourceId)
    requires CanClaim(st.db, claim.source, claim.token, claim.executionId)
    requires f.version <= st.db.sources[claim.source].version
    ensures var now := Run(Step(st, Lifecycle(claim)), after);
            && Apply(now, Some(f), w).0 == now
            && (!w.MarkRetrying? && !w.MarkCancelled? ==> Apply(now, Some(f), w).1 == Failure(FenceLost))
  {
    var claimed := Step(st, Lifecycle(claim));
    assert Protocol.Superseded(claimed.db, claim.source, f.version, f.token);
    SupersededForever(claimed, after, claim.source, f.version, f.token);
    BatchWriteNeedsItsFence(Run(claimed, after), f, w);
  }

  predicate RunCancelled(st: State, run: int) {
    RunKey(run) in st.db.sources && IsCancelled(st.db.sources[RunKey(run)].status)
  }

  lemma WriteKeepsCancelled(st: State, fence: Option<Fence>, w: Write, run: int)
    requires RunCancelled(st, run)
    ensures RunCancelled(Apply(st, fence, w).0, run)
  {
  }

  lemma LifecycleKeepsCancelled(st: State, step: Protocol.Event, run: int)
    requires RunCancelled(st, run) && !Protocol.Edits(step, RunKey(run))
    ensures RunCancelled(Step(st, Lifecycle(step)), run)
  {
  }

  /** No lifecycle step and no child write, fenced or not, takes a run out of
      cancel_requested or cancelled; only an explicit edit of that row can. */
  lemma {:induction false} CancellationIsFinal(st: State, evs: seq<Event>, run: int)
    requires RunCancelled(st, run)
    requires forall k | 0 <= k < |evs| :: evs[k].Lifecycle? ==> !Protocol.Edits(evs[k].step, RunKey(run))
    ensures RunCancelled(Run(st, evs), run)
  {
    if evs != [] {
      var before := Run(st, evs[..|evs| - 1]);
      CancellationIsFinal(st, evs[..|evs| - 1], run);
      match evs[|evs| - 1] {
        case Lifecycle(step) => LifecycleKeepsCancelled(before, step, run);
        case Child(fence, write) => WriteKeepsCancelled(before, fence, write, run);
      }
    }
  }

  function AttemptOf(st: State, key: ItemKey): nat {
    if key in st.items then st.items[key].attempt else 0
  }

  lemma StepKeepsAttempts(st: State, ev: Event, key: ItemKey)
    ensures AttemptOf(st, key) <= AttemptOf(Step(st, ev), key)
  {
  }

  lemma {:induction false} ItemAttemptsNeverDecrease(st: State, evs: seq<Event>, key: ItemKey)
    ensures AttemptOf(st, key) <= AttemptOf(Run(st, evs), key)
  {
    if evs != [] {
      ItemAttemptsNeverDecrease(st, evs[..|evs| - 1], key);
      StepKeepsAttempts(Run(st, evs[..|evs| - 1]), evs[|evs| - 1], key);
    }
  }

  /** Once an item has been started again, the record of its earlier attempt
      finishes nothing, under any invocation and after any further events. */
  lemma OldItemAttemptNeverFinishes(st: State, record: ItemRecord, restart: Event, after: seq<Event>,
                                    fence: Option<Fence>, run: int, command: int, outcome: Status, err: Option<string>)
    requires restart.Child? && restart.write.StartItem? && restart.write.startKey == record.key
    requires Apply(st, restart.fence, restart.write).1.Success?
    requires record.attempt <= AttemptOf(st, record.key)
    ensures var now := Run(Step(st, restart), after);
            Apply(now, fence, FinishItem(record, run, command, outcome, err)) == (now, Failure(FenceLost))
  {
    ItemAttemptsNeverDecrease(Step(st, restart), after, record.key);
  }

  /**
   * The guard of a status write names only the cancelled statuses: a failing batch sets a child
   * that has already succeeded back to retrying or failed exactly when it still owns its fence.
   */
  lemma FailureRevivesSucceededChildIff(st: State, fence: Option<Fence>, run: int, status: Status,
                                        error: Option<string>)
    requires RunKey(run) in st.db.sources && st.db.sources[RunKey(run)].status == Succeeded
    requires status == Retrying || status == FailedPermanent
    ensures RunKey(run) in Apply(st, fence, MarkStatus(run, status, error)).0.db.sources
    ensures Apply(st, fence, MarkStatus(run, status, error)).0.db.sources[RunKey(run)].status != Succeeded
            <==> CurrentBatchLocked(st, fence) && RunFenceHolds(st, fence, run)
  {
  }

  /** The invocation of the attempt that the next claim of a command issues. */
  function NextFence(st: State, command: int, token: Token): Fence
    requires CommandKey(command) in st.db.sources
  {
    Fence(Command, command, token, st.db.sources[CommandKey(command)].version + 1)
  }

  lemma RunAppend(st: State, evs: seq<Event>, ev: Event)
    ensures Run(st, evs + [ev]) == Step(Run(st, evs), ev)
  {
    assert (evs + [ev])[..|evs|] == evs;
  }

  /** A child of a claimed batch takes whatever status the batch's own attempt writes. */
  lemma OwnWriteCommits(st: State, fence: Fence, run: int, status: Status, error: Option<string>)
    requires fence.kind == Command && OwnsBatch(st, Some(fence), fence.sourceId)
    requires run in st.batchOf && st.batchOf[run] == fence.sourceId
    requires RunKey(run) in st.db.sources && !IsCancelled(st.db.sources[RunKey(run)].status)
    ensures var after := Step(st, Child(Some(fence), MarkStatus(run, status, error)));
            && OwnsBatch(after, Some(fence), fence.sourceId)
            && after.batchOf == st.batchOf && RunKey(run) in after.db.sources
            && after.db.sources[RunKey(run)].status == status
  {
  }

  /**
   * Such a revival is reached from every initial state: the batch is claimed, its attempt finishes
   * the child, fails afterwards, and sets the child back while its fence is still its own.
   */
  lemma SucceededChildIsRevived(st: State, command: int, run: int, actor: string, token: Token, id: int, attempt: int,
                                status: Status)
    returns (evs: seq<Event>)
    requires Protocol.Initial(st.db) && CanClaim(st.db, CommandKey(command), token, id)
    requires run in st.batchOf && st.batchOf[run] == command
    requires RunKey(run) in st.db.sources && !IsCancelled(st.db.sources[RunKey(run)].status)
    requires status == Retrying || status == FailedPermanent
    ensures |evs| == 3 && evs[0] == Lifecycle(Protocol.Claim(CommandKey(command), actor, token, id, attempt))
    ensures forall k | 1 <= k < 3 :: evs[k].Child? && evs[k].fence == Some(NextFence(st, command, token))
    ensures var done := Run(st, evs[..2]);
            RunKey(run) in done.db.sources && done.db.sources[RunKey(run)].status == Succeeded
    ensures var now := Run(st, evs);
            && RunKey(run) in now.db.sources && now.db.sources[RunKey(run)].status == status
            && OwnsBatch(now, Some(NextFence(st, command, token)), command)
  {
    var fence := NextFence(st, command, token);
    var claim := Lifecycle(Protocol.Claim(CommandKey(command), actor, token, id, attempt));
    var done := Child(Some(fence), MarkStatus(run, Succeeded, None));
    var back := Child(Some(fence), MarkStatus(run, status, Some("batch_failed")));
    RunAppend(st, [], claim);
    RunAppend(st, [] + [claim], done);
    RunAppend(st, [] + [claim] + [done], back);
    OwnWriteCommits(Step(st, claim), fence, run, Succeeded, None);
    OwnWriteCommits(Step(Step(st, claim), done), fence, run, status, Some("batch_failed"));
    evs := [] + [claim] + [done] + [back];
    assert evs[..2] == [] + [claim] + [done];
  }
}
