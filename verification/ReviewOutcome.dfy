/**
 * What a document workflow did before it says so: over all runs, which readiness, phases, decision
 * and commit led to the point where it stands (app/temporal/workflows.py).
 */
module ReviewOutcome {
  import opened Wrappers
  import opened DocumentWorkflow

  predicate Decides(decision: Option<Envelope>, suggestion: int, word: string) {
    && decision.Some? && decision.value.payload.Some?
    && decision.value.payload.value.suggestion == Some(suggestion)
    && decision.value.payload.value.decision == Some(word)
  }

  predicate Accepts(decision: Option<Envelope>, suggestion: int) { Decides(decision, suggestion, "accepted") }

  predicate Rejects(decision: Option<Envelope>, suggestion: int) { Decides(decision, suggestion, "rejected") }

  /** A force request for another workflow, about the suggestion under review. */
  predicate Displaces(force: Option<Envelope>, request: Request, suggestion: int) {
    && force.Some? && force.value.payload.Some?
    && force.value.payload.value.replacementWorkflow != Some(request.workflowId)
    && force.value.payload.value.suggestion == Some(suggestion)
  }

  /** The suggestion that this event publishes, or finds published. */
  function Shown(at: Control, cause: Event): Option<int> {
    if at == PublishingReview && cause.ReviewPublished? then Some(cause.suggestion)
    else if at == CheckingReadiness && cause.ReadinessIs? && cause.readiness.Complete? then cause.readiness.suggestion
    else None
  }

  /** What the events of a run have said to the routine so far, in the generation it works on. */
  datatype Record = Record(
    readiness: Option<Readiness>, // the last readiness result
    phases: nat,                  // phases that have succeeded since the configuration was loaded
    review: Option<int>,          // the suggestion published last
    committed: Option<int>,       // the suggestion whose commit succeeded
    displaced: bool)              // the review loop last woke up to a request that displaces the suggestion

  const BLANK := Record(None, 0, None, None, false)

  function Noted(r: Record, s: State, cause: Event): Record {
    var at := s.control;
    Record(
      if at == CheckingReadiness && cause.ReadinessIs? then Some(cause.readiness) else r.readiness,
      if at == LoadingConfiguration && cause.ConfigurationLoaded? then 0
      else if at.InPhase? && cause == PhaseDone(false) then r.phases + 1 else r.phases,
      if Shown(at, cause).Some? then Shown(at, cause) else r.review,
      if at.Committing? && cause.CommitDone? then Some(at.suggestion) else r.committed,
      if at.AwaitingReview? && cause.Wake? then Displaces(s.force, s.request, at.suggestion) else r.displaced)
  }

  /** A task that raises is tried again, so what it was told counts once it passes. */
  function RecordOf(request: Request, evs: seq<Event>): Record {
    if evs == [] then BLANK
    else
      var prior := evs[..|evs| - 1];
      NotedIf(RecordOf(request, prior), Run(Initial(request), prior), evs[|evs| - 1])
  }

  /** Where a workflow can stand with this record behind it. */
  predicate Stands(s: State, r: Record) {
    match Place(s.control)
    case Parked => r.readiness == Some(Waiting)
    case LoadingConfiguration => r.readiness == Some(Ready)
    case InPhase(index) => r.readiness == Some(Ready) && index == r.phases <= 3
    case PublishingReview => r.readiness == Some(Ready) && r.phases == 4
    case AwaitingReview(n) => r.review == Some(n)
    case Committing(n) => r.review == Some(n) && Accepts(s.decision, n)
    case FailingCommit => r.review.Some? && Accepts(s.decision, r.review.value)
    case Projecting(outcome) => ReviewEnds(s, r, outcome)
    case Completed("completed") => r.readiness == Some(Finished)
    case Completed("cancelled") => r.readiness == Some(CancelledRun)
    case Completed(outcome) => ReviewEnds(s, r, outcome)
    case _ => true
  }

  predicate ReviewEnds(s: State, r: Record, outcome: string) {
    && r.review.Some?
    && var n := r.review.value;
       || (outcome == "committed" && Accepts(s.decision, n) && r.committed == Some(n))
       || (outcome == "rejected" && Rejects(s.decision, n))
       || (outcome == "superseded" && r.displaced)
  }

  /** A commit that succeeded is reported, unless the report fails. */
  predicate CommitIsReported(s: State, r: Record) {
    r.committed.Some? ==>
      s.control == Projecting("committed") || s.control == Completed("committed") || s.control == Failed
  }

  predicate Sound(s: State, r: Record) {
    Stands(s, r) && CommitIsReported(s, r) && StuckOk(s.control) && StuckSound(s)
  }

  predicate SoundIf(s: State, cause: Event, r: Record) {
    var t := Transition(s, cause);
    t.Some? ==> Stands(t.value, Noted(r, s, cause)) && CommitIsReported(t.value, Noted(r, s, cause))
  }

  /** The review's end, from a state with the published suggestion on record and nothing committed yet. */
  lemma FinishIsSound(s: State, n: int, r: Record)
    requires r.review == Some(n) && r.committed == None
    ensures var t := FinishReview(s, n); t.Some? ==> Stands(t.value, r) && CommitIsReported(t.value, r)
  {
  }

  lemma ReviewReadinessIsSound(s: State, suggestion: Option<int>, r: Record)
    requires Stands(s, r) && CommitIsReported(s, r) && s.control == CheckingReadiness
    ensures SoundIf(s, ReadinessIs(Complete(suggestion)), r)
  {
    if suggestion.Some? {
      FinishIsSound(Cleared(s), suggestion.value, Noted(r, s, ReadinessIs(Complete(suggestion))));
    }
  }

  lemma GateReadinessIsSound(s: State, readiness: Readiness, r: Record)
    requires Stands(s, r) && CommitIsReported(s, r) && s.control == CheckingReadiness && !readiness.Complete?
    ensures SoundIf(s, ReadinessIs(readiness), r)
  {
  }

  lemma ReadinessIsSound(s: State, readiness: Readiness, r: Record)
    requires Stands(s, r) && CommitIsReported(s, r) && !s.control.Stuck?
    ensures SoundIf(s, ReadinessIs(readiness), r)
  {
    if s.control == CheckingReadiness {
      match readiness
      case Complete(suggestion) => ReviewReadinessIsSound(s, suggestion, r);
      case _ => GateReadinessIsSound(s, readiness, r);
    }
  }

  lemma WakeIsSound(s: State, r: Record)
    requires Stands(s, r) && CommitIsReported(s, r) && !s.control.Stuck?
    ensures SoundIf(s, Wake, r)
  {
    if s.control.AwaitingReview? {
      FinishIsSound(s, s.control.suggestion, Noted(r, s, Wake));
      FinishIsSound(Cleared(s), s.control.suggestion, Noted(r, s, Wake));
    }
  }

  lemma PublishedIsSound(s: State, suggestion: int, r: Record)
    requires Stands(s, r) && CommitIsReported(s, r) && !s.control.Stuck?
    ensures SoundIf(s, ReviewPublished(suggestion), r)
  {
    if s.control == PublishingReview {
      FinishIsSound(s, suggestion, Noted(r, s, ReviewPublished(suggestion)));
    }
  }

  lemma SignalIsSound(s: State, ev: Event, r: Record)
    requires Stands(s, r) && CommitIsReported(s, r) && IsSignal(ev) && !s.control.Stuck?
    ensures SoundIf(s, ev, r)
  {
  }

  lemma RoutineIsSound(s: State, ev: Event, r: Record)
    requires Stands(s, r) && CommitIsReported(s, r) && !s.control.Stuck?
    requires ev.Begin? || ev.Superseded?
    ensures SoundIf(s, ev, r)
  {
  }

  lemma PhaseIsSound(s: State, ev: Event, r: Record)
    requires Stands(s, r) && CommitIsReported(s, r) && !s.control.Stuck?
    requires ev.ConfigurationLoaded? || ev.PhaseDone?
    ensures SoundIf(s, ev, r)
  {
  }

  lemma CompletionIsSound(s: State, ev: Event, r: Record)
    requires Stands(s, r) && CommitIsReported(s, r) && !s.control.Stuck?
    requires ev.CommitDone? || ev.ActivityDone? || ev.RetryTask?
    ensures SoundIf(s, ev, r)
  {
  }

  lemma FailureIsSound(s: State, r: Record)
    requires Stands(s, r) && CommitIsReported(s, r) && !s.control.Stuck?
    ensures SoundIf(s, ActivityFailed, r)
  {
  }

  lemma TransitionIsSound(s: State, ev: Event, r: Record)
    requires Sound(s, r) && !s.control.Stuck?
    ensures SoundIf(s, ev, r)
  {
    match ev
    case ReadinessIs(readiness) => ReadinessIsSound(s, readiness, r);
    case Wake => WakeIsSound(s, r);
    case ReviewPublished(suggestion) => PublishedIsSound(s, suggestion, r);
    case ForceSignal(_) => SignalIsSound(s, ev, r);
    case DecisionSignal(_) => SignalIsSound(s, ev, r);
    case ReadySignal => SignalIsSound(s, ev, r);
    case Begin => RoutineIsSound(s, ev, r);
    case Superseded => RoutineIsSound(s, ev, r);
    case ConfigurationLoaded => PhaseIsSound(s, ev, r);
    case PhaseDone(_) => PhaseIsSound(s, ev, r);
    case ActivityFailed => FailureIsSound(s, r);
    case _ => CompletionIsSound(s, ev, r);
  }

  /** While a task keeps failing, only signals are taken in. */
  lemma StuckIsSound(s: State, ev: Event, r: Record)
    requires Sound(s, r) && s.control.Stuck?
    ensures Transition(s, ev).Some? && Noted(r, s, ev) == r
    ensures Stands(Transition(s, ev).value, r) && CommitIsReported(Transition(s, ev).value, r)
  {
  }

  /** A retry starts from a sound state, too. */
  lemma TriedIsSound(s: State, ev: Event, r: Record)
    requires Sound(s, r) && (s.control.Stuck? ==> ev.RetryTask?)
    ensures var tried := s.(control := Attempted(s, ev).0); Sound(tried, r) && !tried.control.Stuck?
  {
  }

  function NotedIf(r: Record, s: State, ev: Event): Record {
    var (at, cause) := Attempted(s, ev);
    if Transition(s.(control := at), cause).None? then r else Noted(r, s.(control := at), cause)
  }

  lemma RaisedIsSound(s: State, at: Control, cause: Event, r: Record)
    requires Sound(s.(control := at), r) && Transition(s.(control := at), cause).None?
    ensures Stands(s.(control := Stuck(at, cause)), r) && CommitIsReported(s.(control := Stuck(at, cause)), r)
  {
    RaisingEvents(s.(control := at), cause);
    RaisesAt(s.(control := at), cause);
  }

  lemma StepStands(s: State, ev: Event, r: Record)
    requires Sound(s, r)
    ensures Stands(Step(s, ev), NotedIf(r, s, ev)) && CommitIsReported(Step(s, ev), NotedIf(r, s, ev))
  {
    var (at, cause) := Attempted(s, ev);
    if s.control.Stuck? && !ev.RetryTask? {
      StuckIsSound(s, ev, r);
    } else {
      TriedIsSound(s, ev, r);
      if Transition(s.(control := at), cause).Some? {
        TransitionIsSound(s.(control := at), cause, r);
      } else {
        RaisedIsSound(s, at, cause, r);
      }
    }
  }

  lemma StepIsSound(s: State, ev: Event, r: Record)
    requires Sound(s, r)
    ensures Sound(Step(s, ev), NotedIf(r, s, ev))
  {
    StepStands(s, ev, r);
    StepKeepsStuckSound(s, ev);
    StepKeepsStuckOk(s, ev);
  }

  lemma StepKeepsStuckOk(s: State, ev: Event)
    requires StuckOk(s.control)
    ensures StuckOk(Step(s, ev).control)
  {
    var (at, cause) := Attempted(s, ev);
    if Transition(s.(control := at), cause).None? {
      RaisingEvents(s.(control := at), cause);
    }
  }

  lemma {:induction false} RunIsSound(request: Request, evs: seq<Event>)
    ensures Sound(Run(Initial(request), evs), RecordOf(request, evs))
  {
    if evs != [] {
      var prior := evs[..|evs| - 1];
      RunIsSound(request, prior);
      StepIsSound(Run(Initial(request), prior), evs[|evs| - 1], RecordOf(request, prior));
    }
  }

  /**
   * In every run a review is published only after the gate was open and all four phases have succeeded since; it is
   * committed only for a decision that accepts the suggestion published last.
   */
  lemma {:induction false} ReviewFollowsFourPhases(request: Request, evs: seq<Event>)
    ensures var s, r := Run(Initial(request), evs), RecordOf(request, evs);
            && (s.control == PublishingReview ==> r.readiness == Some(Ready) && r.phases == 4)
            && (s.control.InPhase? ==> r.readiness == Some(Ready) && r.phases == s.control.index <= 3)
            && (s.control.AwaitingReview? ==> r.review == Some(s.control.suggestion))
            && (s.control.Committing? ==> r.review == Some(s.control.suggestion)
                                          && Accepts(s.decision, s.control.suggestion))
            && (s.control == Parked ==> r.readiness == Some(Waiting))
  {
    RunIsSound(request, evs);
  }

  /**
   * In every run a workflow is about to report a commit, or has, exactly if the commit activity has succeeded and
   * the report has not failed; and then the decision accepts the suggestion that was published and committed.
   */
  lemma {:induction false} CommittedIffCommitSucceeded(request: Request, evs: seq<Event>)
    ensures CommittedIffSucceeded(Run(Initial(request), evs), RecordOf(request, evs))
  {
    RunIsSound(request, evs);
    SoundIsCommitted(Run(Initial(request), evs), RecordOf(request, evs));
  }

  predicate CommittedIffSucceeded(s: State, r: Record) {
    var committed := s.control == Projecting("committed") || s.control == Completed("committed");
    && (committed <==> r.committed.Some? && !s.control.Failed?)
    && (committed ==> r.committed == r.review && Accepts(s.decision, r.review.value))
  }

  lemma SoundIsCommitted(s: State, r: Record)
    requires Sound(s, r)
    ensures CommittedIffSucceeded(s, r)
  {
  }

  /** A workflow that has completed says exactly what was decided, or which readiness result ended it. */
  lemma {:induction false} CompletedAsDecided(request: Request, evs: seq<Event>)
    ensures CompletesAsDecided(Run(Initial(request), evs), RecordOf(request, evs))
  {
    RunIsSound(request, evs);
    SoundCompletesAsDecided(Run(Initial(request), evs), RecordOf(request, evs));
  }

  predicate CompletesAsDecided(s: State, r: Record) {
    s.control.Completed? ==>
      var result := s.control.result;
      && result in {"committed", "rejected", "superseded", "completed", "cancelled"}
      && (result in {"committed", "rejected"} ==>
            && r.review.Some?
            && (result == "committed" <==> Accepts(s.decision, r.review.value))
            && (result == "rejected" <==> Rejects(s.decision, r.review.value)))
      && (result == "superseded" ==> r.displaced)
      && (result == "completed" ==> r.readiness == Some(Finished))
      && (result == "cancelled" ==> r.readiness == Some(CancelledRun))
  }

  lemma SoundCompletesAsDecided(s: State, r: Record)
    requires Sound(s, r)
    ensures CompletesAsDecided(s, r)
  {
  }

  // ---------- what the routine does next ----------

  /** With no force request pending the readiness result alone decides. */
  lemma ReadinessIsObeyed(s: State, readiness: Readiness)
    requires s.control == CheckingReadiness && s.force == None
    ensures var next := Step(s, ReadinessIs(readiness)).control;
            && (next == LoadingConfiguration <==> readiness == Ready)
            && (next == Parked <==> readiness == Waiting)
            && (next == Completed("completed") <==> readiness == Finished)
            && (next == Completed("cancelled") <==> readiness == CancelledRun)
            && (readiness == Complete(None) ==> next.Stuck?)
            && (readiness.Complete? && readiness.suggestion.Some? ==>
                  Answered(s.decision, readiness.suggestion.value, next))
  {
  }

  /** A decision is answered by the commit or the rejection; if it is neither for this suggestion, the workflow task
      raises. */
  predicate Answered(decision: Option<Envelope>, suggestion: int, next: Control) {
    && (next == AwaitingReview(suggestion) <==> decision == None)
    && (next == Committing(suggestion) <==> Accepts(decision, suggestion))
    && (next == Projecting("rejected") <==> Rejects(decision, suggestion))
    && (next.Stuck? <==> decision.Some? && !Accepts(decision, suggestion) && !Rejects(decision, suggestion))
  }

  /** So it is when the review is published, and when the review loop wakes up without a force request. */
  lemma DecisionIsAnswered(s: State, suggestion: int)
    ensures s.control == PublishingReview ==>
              Answered(s.decision, suggestion, Step(s, ReviewPublished(suggestion)).control)
    ensures s.control == AwaitingReview(suggestion) && s.force == None ==>
              Answered(s.decision, suggestion, Step(s, Wake).control)
  {
  }

  /** A workflow fails exactly when an activity that nothing catches runs out of retries, or when the failure of
      another one has been recorded. */
  lemma FailsIff(s: State, ev: Event)
    requires !s.control.Failed? && !s.control.Stuck?
    ensures Step(s, ev).control.Failed? <==>
              || (ev.ActivityDone? && s.control == FailingDocument(false))
              || (ev.ActivityFailed?
                  && (s.control.Superseding? || s.control.CheckingReadiness? || s.control.LoadingConfiguration?
                      || s.control.FailingCommit? || s.control.Projecting? || s.control.FailingDocument?))
  {
  }

  /** The failure of a phase, of the publication and of the commit is recorded first. */
  lemma FailureIsRecorded(s: State)
    ensures s.control.InPhase? || s.control == PublishingReview ==>
              Step(s, ActivityFailed).control == FailingDocument(false)
    ensures s.control.InPhase? ==> Step(s, PhaseDone(true)).control == FailingDocument(true)
    ensures s.control.Committing? ==> Step(s, ActivityFailed).control == FailingCommit
    ensures s.control == FailingCommit ==> Step(s, ActivityDone).control == FailingDocument(false)
  {
  }
}
