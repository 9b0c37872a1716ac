/** Fenced actor attempts: durable source rows, their executions, and the
    transactions that claim, activate, settle and recover them. */
module ActorExecution {
  import opened Wrappers

  /** A claim token. Laravel draws a fresh UUID for every claim; only equality matters. */
  type Token = nat

  datatype SourceKind = PipelineRun | Command | WebhookDelivery
  datatype SourceKey = SourceKey(kind: SourceKind, id: int)

  /** Every status string that a source row or an execution row can hold. */
  datatype Status =
    | Pending | Queued | Running | Retrying | Succeeded | Skipped | Blocked
    | Failed | FailedPermanent | CancelRequested | Cancelled
    | Received | Processed | Dismissed

  datatype SourceRow = SourceRow(
    status: Status,
    version: int,
    token: Option<Token>,
    retryCount: nat,
    retryAfter: Option<int>,
    error: Option<string>)

  datatype ExecutionRow = ExecutionRow(
    source: SourceKey,
    actor: string,
    token: Token,
    version: int,
    attempt: int,
    status: Status,
    retryAfter: Option<int>,
    error: Option<string>)

  /** What an attempt remembers between its transactions. */
  datatype Handle = Handle(id: int, source: SourceKey, token: Token, version: int, attempt: int)

  /** The arguments with which a runner activates a claim. */
  datatype Invocation = Invocation(
    actor: string, source: SourceKey, token: Token, version: int, executionId: int, attempt: int)

  datatype Error =
    | IncompleteFence | StaleFence | ClaimConsumed
    | StaleExecution | UnsupportedOutcome | StaleSource

  datatype Db = Db(sources: map<SourceKey, SourceRow>, executions: map<int, ExecutionRow>)

  // ---------- the tables ----------

  /** TRANSITION_MATRIX. */
  function AllowedTargets(current: Status): set<Status> {
    match current
    case Pending => {Pending, Queued, Running, Retrying, Cancelled, FailedPermanent, Skipped}
    case Queued => {Queued, Running, Retrying, Cancelled, FailedPermanent, Skipped}
    case Running => {Running, Succeeded, Skipped, Blocked, Retrying, FailedPermanent, Cancelled}
    case Retrying => {Retrying, Failed, FailedPermanent, Cancelled, Skipped}
    case Succeeded => {Succeeded}
    case Skipped => {Skipped}
    case Blocked => {Blocked}
    case Failed => {Failed}
    case FailedPermanent => {FailedPermanent}
    case Cancelled => {Cancelled}
    case _ => {}
  }

  predicate TransitionAllowed(current: Status, target: Status) {
    target in AllowedTargets(current)
  }

  /** The matrix read by targets: nothing is reopened, and a final status allows only itself. */
  lemma MatrixOnlyGoesForward(current: Status, target: Status)
    ensures TransitionAllowed(current, target) <==>
              || (current == target && current !in {CancelRequested, Received, Processed, Dismissed})
              || (target == Queued && current == Pending)
              || (target == Running && current in {Pending, Queued})
              || (target == Retrying && current in {Pending, Queued, Running})
              || (target in {Cancelled, FailedPermanent, Skipped} && current in {Pending, Queued, Running, Retrying})
              || (target in {Succeeded, Blocked} && current == Running)
              || (target == Failed && current == Retrying)
  {
  }

  /** The status a source row takes when its execution ends with `outcome`. */
  function SourceOutcome(kind: SourceKind, outcome: Status): Option<Status> {
    match (kind, outcome)
    case (PipelineRun, Succeeded) => Some(Succeeded)
    case (PipelineRun, Skipped) => Some(Skipped)
    case (PipelineRun, Blocked) => Some(Blocked)
    case (PipelineRun, Cancelled) => Some(Cancelled)
    case (PipelineRun, FailedPermanent) => Some(FailedPermanent)
    case (PipelineRun, Retrying) => Some(Retrying)
    case (Command, Succeeded) => Some(Succeeded)
    case (Command, Skipped) => Some(Skipped)
    case (Command, Blocked) => Some(Blocked)
    case (Command, Cancelled) => Some(Cancelled)
    case (Command, FailedPermanent) => Some(FailedPermanent)
    case (Command, Retrying) => Some(Pending)
    case (WebhookDelivery, Succeeded) => Some(Processed)
    case (WebhookDelivery, Skipped) => Some(Dismissed)
    case (WebhookDelivery, Blocked) => Some(Blocked)
    case (WebhookDelivery, Cancelled) => Some(FailedPermanent)
    case (WebhookDelivery, FailedPermanent) => Some(FailedPermanent)
    case (WebhookDelivery, Retrying) => Some(Failed)
    case _ => None
  }

  /** The ways an attempt can end. */
  predicate IsOutcome(status: Status) {
    status in {Succeeded, Skipped, Blocked, Cancelled, FailedPermanent, Retrying}
  }

  /** A run shows its attempt's own status; so does a command, but a retry leaves it pending; a delivery has
      words of its own. */
  predicate Mirrors(kind: SourceKind, outcome: Status, shown: Status) {
    match kind
    case PipelineRun => shown == outcome
    case Command => shown == if outcome == Retrying then Pending else outcome
    case WebhookDelivery =>
      && (shown == Processed <==> outcome == Succeeded)
      && (shown == Dismissed <==> outcome == Skipped)
      && (shown == Blocked <==> outcome == Blocked)
      && (shown == Failed <==> outcome == Retrying)
      && (shown == FailedPermanent <==> outcome in {Cancelled, FailedPermanent})
  }

  lemma OutcomeIsMirrored(kind: SourceKind, outcome: Status)
    ensures SourceOutcome(kind, outcome).Some? <==> IsOutcome(outcome)
    ensures IsOutcome(outcome) ==> Mirrors(kind, outcome, SourceOutcome(kind, outcome).value)
  {
  }

  // ---------- what each transaction does to the database ----------

  /** The source row still belongs to this version and token and is running. */
  predicate OwnsFence(db: Db, source: SourceKey, version: int, token: Token) {
    && source in db.sources
    && db.sources[source].status == Running
    && db.sources[source].version == version
    && db.sources[source].token == Some(token)
  }

  predicate CanActivate(db: Db, c: Invocation) {
    && OwnsFence(db, c.source, c.version, c.token)
    && c.executionId in db.executions
    && var e := db.executions[c.executionId];
       && e.token == c.token && e.version == c.version && e.actor == c.actor
       && e.attempt == c.attempt && e.status == Queued && e.source == c.source
  }

  function Activated(db: Db, c: Invocation): Db
    requires CanActivate(db, c)
  {
    var e := db.executions[c.executionId];
    db.(executions := db.executions[c.executionId := e.(status := Running)])
  }

  /** The execution row the settling UPDATE would hit. */
  predicate HoldsRunningExecution(db: Db, h: Handle) {
    && h.id in db.executions
    && var e := db.executions[h.id];
       e.status == Running && e.token == h.token && e.version == h.version
  }

  predicate CanSettle(db: Db, h: Handle, status: Status) {
    && HoldsRunningExecution(db, h)
    && SourceOutcome(h.source.kind, status).Some?
    && OwnsFence(db, h.source, h.version, h.token)
  }

  /** A finished execution: execution row and source row move together and the
      source's fence opens for the next claim. */
  function Settled(db: Db, h: Handle, status: Status, errorType: Option<string>, backoff: Option<int>): Db
    requires CanSettle(db, h, status)
  {
    var e := db.executions[h.id];
    var s := db.sources[h.source];
    var retries := if h.source.kind == PipelineRun && status == Retrying then s.retryCount + 1 else s.retryCount;
    Db(db.sources[h.source :=
         SourceRow(SourceOutcome(h.source.kind, status).value, s.version, None, retries, backoff, errorType)],
       db.executions[h.id := e.(status := status, retryAfter := backoff, error := errorType)])
  }

  /** The row already shows what this call wants to write: an idempotent replay. */
  predicate AlreadySettled(db: Db, h: Handle, status: Status) {
    && h.id in db.executions
    && var e := db.executions[h.id];
       e.status == status && e.token == h.token && e.version == h.version
  }

  /** What one settlement does to the two rows, and that it touches no other. */
  predicate RowsSettled(was: Db, now: Db, h: Handle, status: Status, errorType: Option<string>, backoff: Option<int>) {
    && h.id in was.executions && h.source in was.sources && h.source in now.sources
    && now.executions == was.executions[h.id :=
         was.executions[h.id].(status := status, retryAfter := backoff, error := errorType)]
    && now.sources == was.sources[h.source := now.sources[h.source]]
    && var s, t := was.sources[h.source], now.sources[h.source];
       && Mirrors(h.source.kind, status, t.status)
       && t.version == s.version && t.token == None && t.retryAfter == backoff && t.error == errorType
       && t.retryCount == s.retryCount + if h.source.kind == PipelineRun && status == Retrying then 1 else 0
  }

  lemma SettledRows(db: Db, h: Handle, status: Status, errorType: Option<string>, backoff: Option<int>)
    requires CanSettle(db, h, status)
    ensures IsOutcome(status)
    ensures RowsSettled(db, Settled(db, h, status, errorType, backoff), h, status, errorType, backoff)
  {
    OutcomeIsMirrored(h.source.kind, status);
  }

  function AfterSettle(db: Db, h: Handle, status: Status, errorType: Option<string>, backoff: Option<int>): Db {
    if CanSettle(db, h, status) then Settled(db, h, status, errorType, backoff) else db
  }

  function SettleResult(db: Db, h: Handle, status: Status): Result<bool, Error> {
    if HoldsRunningExecution(db, h) then
      if SourceOutcome(h.source.kind, status).None? then Failure(UnsupportedOutcome)
      else if !OwnsFence(db, h.source, h.version, h.token) then Failure(StaleSource)
      else Success(true)
    else if AlreadySettled(db, h, status) then Success(false)
    else Failure(StaleExecution)
  }

  /** Which answer a settlement gives, by the two rows as they were. */
  predicate AnswersSettlement(was: Db, h: Handle, status: Status, r: Result<bool, Error>) {
    var own := h.id in was.executions && was.executions[h.id].token == h.token
               && was.executions[h.id].version == h.version;
    var runs := own && was.executions[h.id].status == Running;
    var fenced := h.source in was.sources && was.sources[h.source].status == Running
                  && was.sources[h.source].version == h.version && was.sources[h.source].token == Some(h.token);
    && (r == Success(true) <==> runs && IsOutcome(status) && fenced)
    && (r == Success(false) <==> own && !runs && was.executions[h.id].status == status)
    && (r == Failure(UnsupportedOutcome) <==> runs && !IsOutcome(status))
    && (r == Failure(StaleSource) <==> runs && IsOutcome(status) && !fenced)
    && (r == Failure(StaleExecution) <==> !own || (!runs && was.executions[h.id].status != status))
  }

  lemma SettlementIsAnswered(db: Db, h: Handle, status: Status)
    ensures AnswersSettlement(db, h, status, SettleResult(db, h, status))
  {
    OutcomeIsMirrored(h.source.kind, status);
  }

  /** The statuses from which Laravel claims a source. */
  predicate Claimable(kind: SourceKind, status: Status) {
    match kind
    case PipelineRun => status in {Pending, Queued, Retrying}
    case Command => status in {Pending, Queued}
    case WebhookDelivery => status in {Received, Queued, Failed}
  }

  /** Of the settled sources only those whose attempt is to be retried can be claimed again. */
  lemma ClaimableIffRetry(kind: SourceKind, outcome: Status, shown: Status)
    requires IsOutcome(outcome) && Mirrors(kind, outcome, shown)
    ensures Claimable(kind, shown) <==> outcome == Retrying
  {
  }

  /** A new source and a queued one can be claimed, a running one cannot. */
  lemma NewSourcesAreClaimable(kind: SourceKind)
    ensures Claimable(kind, if kind == WebhookDelivery then Received else Pending)
    ensures Claimable(kind, Queued) && !Claimable(kind, Running)
  {
  }

  /** Laravel's claim: a fresh token, the next version, one queued execution. */
  predicate CanClaim(db: Db, source: SourceKey, token: Token, executionId: int) {
    && source in db.sources
    && Claimable(source.kind, db.sources[source].status)
    && executionId !in db.executions
    && forall i <- db.executions :: db.executions[i].token != token
  }

  function Claimed(db: Db, source: SourceKey, actor: string, token: Token, executionId: int, attempt: int): Db
    requires source in db.sources
  {
    var s := db.sources[source];
    Db(db.sources[source := s.(status := Running, version := s.version + 1, token := Some(token))],
       db.executions[executionId :=
         ExecutionRow(source, actor, token, s.version + 1, attempt, Queued, None, None)])
  }

  // ---------- the store ----------

  /** The two tables as the transactions update them. Each method is one
      transaction: a failure restores both tables. */
  class LifecycleStore {
    var sources: map<SourceKey, SourceRow>
    var executions: map<int, ExecutionRow>

    constructor (sources: map<SourceKey, SourceRow>, executions: map<int, ExecutionRow>)
      ensures this.sources == sources && this.executions == executions
    {
      this.sources, this.executions := sources, executions;
    }

    ghost function Snapshot(): Db
      reads this
    {
      Db(sources, executions)
    }

    /** start_actor_execution for a fenced call. */
    method StartActorExecution(actor: string,
                               pipelineRunId: Option<int>, commandId: Option<int>, webhookDeliveryId: Option<int>,
                               token: Token, version: Option<int>, executionId: Option<int>, attempt: Option<int>)
      returns (r: Result<Handle, Error>)
      modifies this
      ensures r.Success? ==>
                && version.Some? && executionId.Some? && attempt.Some?
                && SelectedSources(pipelineRunId, commandId, webhookDeliveryId) == [r.value.source]
                && var c := Invocation(actor, r.value.source, token, version.value, executionId.value, attempt.value);
                   && CanActivate(old(Snapshot()), c)
                   && Snapshot() == Activated(old(Snapshot()), c)
                   && r.value == Handle(executionId.value, c.source, token, version.value, attempt.value)
      ensures r.Success? ==>
                && r.value.id in old(executions) && r.value.source in old(sources) && sources == old(sources)
                && var e, s := old(executions)[r.value.id], old(sources)[r.value.source];
                   && s.status == Running && s.version == r.value.version && s.token == Some(token)
                   && e.status == Queued && e.actor == actor && e.source == r.value.source
                   && e.token == token && e.version == r.value.version && e.attempt == r.value.attempt
                   && executions == old(executions)[r.value.id := e.(status := Running)]
      ensures r.Failure? ==> Snapshot() == old(Snapshot())
      ensures r == Failure(IncompleteFence) <==>
              (|SelectedSources(pipelineRunId, commandId, webhookDeliveryId)| != 1
               || version.None? || executionId.None? || attempt.None?)
      ensures r == Failure(StaleFence) ==>
                !OwnsFence(old(Snapshot()), SelectedSources(pipelineRunId, commandId, webhookDeliveryId)[0],
                           version.value, token)
      ensures r == Failure(ClaimConsumed) ==>
                !CanActivate(old(Snapshot()), Invocation(
                  actor, SelectedSources(pipelineRunId, commandId, webhookDeliveryId)[0],
                  token, version.value, executionId.value, attempt.value))
      ensures r.Failure? ==> r.error in {IncompleteFence, StaleFence, ClaimConsumed}
    {
      var selected := SelectedSources(pipelineRunId, commandId, webhookDeliveryId);
      if |selected| != 1 || version.None? || executionId.None? || attempt.None? {
        return Failure(IncompleteFence);
      }
      var source := selected[0];
      if source !in sources || sources[source].version != version.value
         || sources[source].token != Some(token) || sources[source].status != Running {
        return Failure(StaleFence);
      }
      var id := executionId.value;
      if id !in executions {
        return Failure(ClaimConsumed);
      }
      var e := executions[id];
      if e.token != token || e.version != version.value || e.actor != actor
         || e.attempt != attempt.value || e.status != Queued || e.source != source {
        return Failure(ClaimConsumed);
      }
      executions := executions[id := e.(status := Running)];
      return Success(Handle(id, source, token, version.value, e.attempt));
    }

    /** _transition_source_for_execution. */
    method TransitionSourceForExecution(h: Handle, status: Status, errorType: Option<string>)
      returns (r: Result<(), Error>)
      modifies this`sources
      ensures r.Success?
              <==> && SourceOutcome(h.source.kind, status).Some?
                   && OwnsFence(old(Snapshot()), h.source, h.version, h.token)
      ensures r.Failure? ==> sources == old(sources)
      ensures r.Failure? ==>
                r.error == if SourceOutcome(h.source.kind, status).None? then UnsupportedOutcome else StaleSource
      ensures r.Success? ==>
                var s := old(sources)[h.source];
                sources == old(sources)[h.source := s.(
                  status := SourceOutcome(h.source.kind, status).value, error := errorType,
                  retryCount := s.retryCount + if h.source.kind == PipelineRun && status == Retrying then 1 else 0)]
      ensures r.Success? ==> IsOutcome(status) && Mirrors(h.source.kind, status, sources[h.source].status)
      ensures r == Failure(UnsupportedOutcome) <==> !IsOutcome(status)
    {
      OutcomeIsMirrored(h.source.kind, status);
      var outcome := SourceOutcome(h.source.kind, status);
      if outcome.None? {
        return Failure(UnsupportedOutcome);
      }
      if h.source !in sources {
        return Failure(StaleSource);
      }
      var s := sources[h.source];
      if s.status != Running || s.version != h.version || s.token != Some(h.token) {
        return Failure(StaleSource);
      }
      s := s.(status := outcome.value, error := errorType);
      if h.source.kind == PipelineRun && status == Retrying {
        s := s.(retryCount := s.retryCount + 1);
      }
      sources := sources[h.source := s];
      return Success(());
    }

    /** _release_source_fence. */
    method ReleaseSourceFence(h: Handle, backoff: Option<int>)
      modifies this`sources
      ensures sources ==
              if h.source in old(sources) && old(sources)[h.source].version == h.version
                 && old(sources)[h.source].token == Some(h.token)
              then old(sources)[h.source := old(sources)[h.source].(token := None, retryAfter := backoff)]
              else old(sources)
    {
      if h.source in sources && sources[h.source].version == h.version && sources[h.source].token == Some(h.token) {
        sources := sources[h.source := sources[h.source].(token := None, retryAfter := backoff)];
      }
    }

    /** The body shared by finish_actor_execution and schedule_actor_execution_retry:
        one transaction over the execution row and then the source row. */
    method Settle(h: Handle, status: Status, errorType: Option<string>, backoff: Option<int>)
      returns (r: Result<bool, Error>)
      modifies this
      ensures Snapshot() == AfterSettle(old(Snapshot()), h, status, errorType, backoff)
      ensures r == SettleResult(old(Snapshot()), h, status)
      ensures if r == Success(true) then RowsSettled(old(Snapshot()), Snapshot(), h, status, errorType, backoff)
              else Snapshot() == old(Snapshot())
      ensures AnswersSettlement(old(Snapshot()), h, status, r)
    {
      SettlementIsAnswered(Snapshot(), h, status);
      if CanSettle(Snapshot(), h, status) {
        SettledRows(Snapshot(), h, status, errorType, backoff);
      }
      var savedExecutions := executions;
      var found := FindRunning(h, status);
      if found != Success(true) {
        return found;
      }
      executions := executions[h.id := executions[h.id].(status := status, retryAfter := backoff, error := errorType)];
      var moved := MoveAndRelease(h, status, errorType, backoff);
      if moved.Failure? {
        executions := savedExecutions;  // the transaction rolls back
        return Failure(moved.error);
      }
      return Success(true);
    }

    /** Whether the UPDATE hits a running row of this attempt, finds it settled the same way, or raises. */
    method FindRunning(h: Handle, status: Status) returns (r: Result<bool, Error>)
      ensures r == if HoldsRunningExecution(Snapshot(), h) then Success(true)
                   else if AlreadySettled(Snapshot(), h, status) then Success(false)
                   else Failure(StaleExecution)
    {
      if h.id !in executions {
        return Failure(StaleExecution);
      }
      var e := executions[h.id];
      if e.status == Running && e.token == h.token && e.version == h.version {
        return Success(true);
      }
      if e.status != status || e.token != h.token || e.version != h.version {
        return Failure(StaleExecution);
      }
      return Success(false);
    }

    /** The source half of the transaction. */
    method MoveAndRelease(h: Handle, status: Status, errorType: Option<string>, backoff: Option<int>)
      returns (r: Result<(), Error>)
      modifies this`sources
      ensures r.Success?
              <==> && SourceOutcome(h.source.kind, status).Some?
                   && OwnsFence(old(Snapshot()), h.source, h.version, h.token)
      ensures r.Failure? ==> sources == old(sources)
      ensures r.Failure? ==>
                r.error == if SourceOutcome(h.source.kind, status).None? then UnsupportedOutcome else StaleSource
      ensures r.Success? ==>
                var s := old(sources)[h.source];
                sources == old(sources)[h.source := s.(
                  status := SourceOutcome(h.source.kind, status).value, error := errorType,
                  token := None, retryAfter := backoff,
                  retryCount := s.retryCount + if h.source.kind == PipelineRun && status == Retrying then 1 else 0)]
      ensures r.Success? ==> IsOutcome(status) && Mirrors(h.source.kind, status, sources[h.source].status)
    {
      r := TransitionSourceForExecution(h, status, errorType);
      if r.Success? {
        ReleaseSourceFence(h, backoff);
      }
    }

    method FinishActorExecution(h: Handle, status: Status, errorType: Option<string>) returns (r: Result<bool, Error>)
      modifies this
      ensures Snapshot() == AfterSettle(old(Snapshot()), h, status, errorType, None)
      ensures r == SettleResult(old(Snapshot()), h, status)
      ensures if r == Success(true) then RowsSettled(old(Snapshot()), Snapshot(), h, status, errorType, None)
              else Snapshot() == old(Snapshot())
      ensures AnswersSettlement(old(Snapshot()), h, status, r)
    {
      r := Settle(h, status, errorType, None);
    }

    method ScheduleActorExecutionRetry(h: Handle, retryClass: string, backoffSeconds: int)
      returns (r: Result<bool, Error>)
      modifies this
      ensures Snapshot() == AfterSettle(old(Snapshot()), h, Retrying, Some(retryClass), Some(backoffSeconds))
      ensures r == SettleResult(old(Snapshot()), h, Retrying)
      ensures if r == Success(true)
              then RowsSettled(old(Snapshot()), Snapshot(), h, Retrying, Some(retryClass), Some(backoffSeconds))
              else Snapshot() == old(Snapshot())
      ensures AnswersSettlement(old(Snapshot()), h, Retrying, r)
    {
      r := Settle(h, Retrying, Some(retryClass), Some(backoffSeconds));
    }
  }

  function SelectedSources(pipelineRunId: Option<int>, commandId: Option<int>, webhookDeliveryId: Option<int>)
    : seq<SourceKey>
  {
    (if pipelineRunId.Some? then [SourceKey(PipelineRun, pipelineRunId.value)] else [])
    + (if commandId.Some? then [SourceKey(Command, commandId.value)] else [])
    + (if webhookDeliveryId.Some? then [SourceKey(WebhookDelivery, webhookDeliveryId.value)] else [])
  }

  /** A source is selected exactly when one id is given, and then it is that kind's source of that id. */
  lemma SelectsTheGivenOne(pipelineRunId: Option<int>, commandId: Option<int>, webhookDeliveryId: Option<int>,
                           source: SourceKey)
    ensures SelectedSources(pipelineRunId, commandId, webhookDeliveryId) == [source] <==>
              && pipelineRunId == (if source.kind == PipelineRun then Some(source.id) else None)
              && commandId == (if source.kind == Command then Some(source.id) else None)
              && webhookDeliveryId == (if source.kind == WebhookDelivery then Some(source.id) else None)
  {
    var selected := SelectedSources(pipelineRunId, commandId, webhookDeliveryId);
    if pipelineRunId.Some? {
      assert selected[0] == SourceKey(PipelineRun, pipelineRunId.value);
    } else if commandId.Some? {
      assert selected[0] == SourceKey(Command, commandId.value);
    } else if webhookDeliveryId.Some? {
      assert selected[0] == SourceKey(WebhookDelivery, webhookDeliveryId.value);
    }
    if |selected| == 1 {
      assert selected == [selected[0]];
    }
  }
}
