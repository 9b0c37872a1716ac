/** The lifecycle facade over the store: it refuses impossible final statuses,
    classifies failures, and emits an audit event only for the transaction that won. */
module ExecutionLifecycle {
  import opened Wrappers
  import opened ActorExecution

  datatype RetryClass =
    | TransientNetwork | TransientProvider | TransientPaperless | RateLimited
    | RecoverableProcessing | PermanentValidation | PermanentMissingDocument
    | BugUnexpected | BlockedEmbeddingIndex | BlockedDocumentLock | CancelledByUser

  const RETRYABLE_CLASSES: set<RetryClass> :=
    {TransientNetwork, TransientProvider, TransientPaperless, RateLimited, RecoverableProcessing, BugUnexpected}

  const BACKOFF_SECONDS: seq<int> := [30, 120, 300, 900, 1800]

  predicate ShouldRetry(retryClass: RetryClass, attempt: int, maxAttempts: int) {
    retryClass in RETRYABLE_CLASSES && attempt < maxAttempts
  }

  /** Failures that another attempt cannot mend are never retried, all others until the last attempt. */
  lemma RetriesUnlessFutile(retryClass: RetryClass, attempt: int, maxAttempts: int)
    ensures ShouldRetry(retryClass, attempt, maxAttempts) <==>
              attempt < maxAttempts && !retryClass.PermanentValidation? && !retryClass.PermanentMissingDocument?
              && !retryClass.BlockedEmbeddingIndex? && !retryClass.BlockedDocumentLock? && !retryClass.CancelledByUser?
  {
  }

  function RetryBackoffSeconds(attempt: int): (seconds: int)
    ensures 30 <= seconds <= 1800
  {
    var index := if attempt - 1 < 0 then 0 else attempt - 1;
    if index >= |BACKOFF_SECONDS| then BACKOFF_SECONDS[|BACKOFF_SECONDS| - 1] else BACKOFF_SECONDS[index]
  }

  /** Later attempts never wait less; the delays are 30, 120, 300, 900 and then 1800 seconds. */
  lemma BackoffGrowsToItsLast(attempt: int)
    ensures RetryBackoffSeconds(attempt) <= RetryBackoffSeconds(attempt + 1)
    ensures attempt <= 1 ==> RetryBackoffSeconds(attempt) == 30
    ensures RetryBackoffSeconds(2) == 120 && RetryBackoffSeconds(3) == 300 && RetryBackoffSeconds(4) == 900
    ensures attempt >= 5 ==> RetryBackoffSeconds(attempt) == 1800
  {
    assert BACKOFF_SECONDS == [30, 120, 300, 900, 1800];
  }

  function ClassName(c: RetryClass): string {
    match c
    case TransientNetwork => "transient_network"
    case TransientProvider => "transient_provider"
    case TransientPaperless => "transient_paperless"
    case RateLimited => "rate_limited"
    case RecoverableProcessing => "recoverable_processing"
    case PermanentValidation => "permanent_validation"
    case PermanentMissingDocument => "permanent_missing_document"
    case BugUnexpected => "bug_unexpected"
    case BlockedEmbeddingIndex => "blocked_embedding_index"
    case BlockedDocumentLock => "blocked_document_lock"
    case CancelledByUser => "cancelled"
  }

  /** A stored class name tells the class. */
  lemma ClassNamesDiffer(a: RetryClass, b: RetryClass)
    ensures ClassName(a) == ClassName(b) ==> a == b
  {
  }

  datatype AuditEvent = ActorSucceeded(id: int) | ActorFailed(id: int, status: Status) | ActorRetryScheduled(id: int)

  datatype LifecycleError = InvalidFinalStatus | StoreError(error: Error)

  datatype FailureDisposition = FailureDisposition(retrying: bool, retryClass: RetryClass, backoff: Option<int>)

  class ExecutionLifecycle {
    const handle: Handle
    const store: LifecycleStore
    var emitted: seq<AuditEvent>

    constructor (handle: Handle, store: LifecycleStore)
      ensures this.handle == handle && this.store == store && emitted == []
    {
      this.handle, this.store, emitted := handle, store, [];
    }

    /** A finish is refused before the store is touched, or runs the store's
        transaction; only the call whose transaction moved the rows is heard. */
    method Finish(status: Status, errorType: Option<string>) returns (r: Result<(), LifecycleError>)
      modifies this, store
      ensures r == Failure(InvalidFinalStatus) <==> !TransitionAllowed(Running, status)
      ensures store.Snapshot() ==
              if TransitionAllowed(Running, status)
                  then AfterSettle(old(store.Snapshot()), handle, status, errorType, None)
              else old(store.Snapshot())
      ensures emitted == old(emitted) +
              if CanSettle(old(store.Snapshot()), handle, status)
              then [if status == Succeeded then ActorSucceeded(handle.id) else ActorFailed(handle.id, status)] else []
      ensures TransitionAllowed(Running, status) ==>
                (r.Success? <==> SettleResult(old(store.Snapshot()), handle, status).Success?)
    {
      if !TransitionAllowed(Running, status) {
        return Failure(InvalidFinalStatus);
      }
      var changed := store.FinishActorExecution(handle, status, errorType);
      if changed.Failure? {
        return Failure(StoreError(changed.error));
      }
      if changed.value {
        var event := if status == Succeeded then ActorSucceeded(handle.id) else ActorFailed(handle.id, status);
        emitted := emitted + [event];
      }
      return Success(());
    }

    /** A failure becomes a retry or a permanent failure, decided by class and attempt alone. */
    method Fail(retryClass: RetryClass, maxAttempts: int) returns (r: Result<FailureDisposition, LifecycleError>)
      modifies this, store
      ensures var retry := ShouldRetry(retryClass, handle.attempt, maxAttempts);
              var status := if retry then Retrying else FailedPermanent;
              var backoff := if retry then Some(RetryBackoffSeconds(handle.attempt)) else None;
              && store.Snapshot() == AfterSettle(old(store.Snapshot()), handle, status,
                                                 Some(ClassName(retryClass)), backoff)
              && (r.Success? <==> SettleResult(old(store.Snapshot()), handle, status).Success?)
              && (r.Success? ==> r.value == FailureDisposition(retry, retryClass, backoff))
              && emitted == old(emitted) +
                 if CanSettle(old(store.Snapshot()), handle, status)
                 then [if retry then ActorRetryScheduled(handle.id) else ActorFailed(handle.id, FailedPermanent)]
                 else []
      ensures r.Success? ==>
                && (r.value.retrying <==>
                      handle.attempt < maxAttempts
                      && !retryClass.PermanentValidation? && !retryClass.PermanentMissingDocument?
                      && !retryClass.BlockedEmbeddingIndex? && !retryClass.BlockedDocumentLock?
                      && !retryClass.CancelledByUser?)
                && (r.value.retrying <==> r.value.backoff.Some?)
    {
      RetriesUnlessFutile(retryClass, handle.attempt, maxAttempts);
      if ShouldRetry(retryClass, handle.attempt, maxAttempts) {
        var backoff := RetryBackoffSeconds(handle.attempt);
        var changed := store.ScheduleActorExecutionRetry(handle, ClassName(retryClass), backoff);
        if changed.Failure? {
          return Failure(StoreError(changed.error));
        }
        if changed.value {
          emitted := emitted + [ActorRetryScheduled(handle.id)];
        }
        return Success(FailureDisposition(true, retryClass, Some(backoff)));
      }
      var changed := store.FinishActorExecution(handle, FailedPermanent, Some(ClassName(retryClass)));
      if changed.Failure? {
        return Failure(StoreError(changed.error));
      }
      if changed.value {
        emitted := emitted + [ActorFailed(handle.id, FailedPermanent)];
      }
      return Success(FailureDisposition(false, retryClass, None));
    }
  }
}
