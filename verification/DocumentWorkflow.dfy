/** The document workflow: signal handlers that interleave with the main routine
    at every await, and generations replaced by Continue-As-New. */
module DocumentWorkflow {
  import opened Wrappers

  /** What the handlers see of a signal. A missing field is absent or of the wrong type. */
  datatype Payload = Payload(
    replacementRun: Option<int>,
    replacementWorkflow: Option<string>,
    suggestion: Option<int>,
    decision: Option<string>)

  datatype Envelope = Envelope(payload: Option<Payload>)

  datatype Request = Request(run: int, workflowId: string, document: int)

  datatype SignalError = InvalidPayload | InvalidReplacement | OtherWorkflow

  /** _force_reprocess_pipeline_run_id. */
  function ForcedRun(request: Option<Envelope>): Option<int> {
    if request.None? || request.value.payload.None? then None
    else request.value.payload.value.replacementRun
  }

  /** The pending request after one more force signal. */
  function AfterForce(pending: Option<Envelope>, signal: Envelope): Option<Envelope> {
    if ForcedRun(pending).Some? && ForcedRun(Some(signal)).Some?
        && ForcedRun(Some(signal)).value <= ForcedRun(pending).value
    then pending
    else Some(signal)
  }

  /** What consuming the pending request leads to: the replacement, if it is newer. */
  function Replacement(pending: Option<Envelope>, request: Request): Result<Option<Request>, SignalError> {
    if pending.None? then Success(None)
    else if pending.value.payload.None? then Failure(InvalidPayload)
    else if ForcedRun(pending).None? then Failure(InvalidReplacement)
    else if pending.value.payload.value.replacementWorkflow != Some(request.workflowId) then Failure(OtherWorkflow)
    else if ForcedRun(pending).value <= request.run then Success(None)
    else Success(Some(Request(ForcedRun(pending).value, request.workflowId, request.document)))
  }

  /** The workflow object: three fields that handlers and the main routine share. */
  class DocumentWorkflow {
    var reviewDecision: Option<Envelope>
    var forceReprocess: Option<Envelope>
    var embeddingReady: bool

    constructor ()
      ensures reviewDecision == None && forceReprocess == None && !embeddingReady
    {
      reviewDecision, forceReprocess, embeddingReady := None, None, false;
    }

    /** review_decision_v2: the first decision wins. */
    method ReviewDecision(decision: Envelope)
      modifies this`reviewDecision
      ensures reviewDecision == if old(reviewDecision) == None then Some(decision) else old(reviewDecision)
    {
      if reviewDecision == None {
        reviewDecision := Some(decision);
      }
    }

    /** force_reprocess_v2: the newest generation wins. */
    method ForceReprocess(request: Envelope)
      modifies this`forceReprocess
      ensures forceReprocess == AfterForce(old(forceReprocess), request)
    {
      var currentId := ForcedRun(forceReprocess);
      var replacementId := ForcedRun(Some(request));
      if currentId.Some? && replacementId.Some? && replacementId.value <= currentId.value {
        return;
      }
      forceReprocess := Some(request);
    }

    method EmbeddingReady()
      modifies this`embeddingReady
      ensures embeddingReady
    {
      embeddingReady := true;
    }

    /** _replacement_request: consumes the pending request unless it is malformed. */
    method ReplacementRequest(request: Request) returns (r: Result<Option<Request>, SignalError>)
      modifies this`forceReprocess
      ensures r == Replacement(old(forceReprocess), request)
      ensures forceReprocess == if r.Success? then None else old(forceReprocess)
    {
      if forceReprocess.None? {
        return Success(None);
      }
      var envelope := forceReprocess.value;
      if envelope.payload.None? {
        return Failure(InvalidPayload);
      }
      var payload := envelope.payload.value;
      if payload.replacementRun.None? {
        return Failure(InvalidReplacement);
      }
      if payload.replacementWorkflow != Some(request.workflowId) {
        return Failure(OtherWorkflow);
      }
      forceReprocess := None;
      if payload.replacementRun.value <= request.run {
        return Success(None);
      }
      return Success(Some(Request(payload.replacementRun.value, request.workflowId, request.document)));
    }
  }

  // ---------- the main routine, one transition per stretch between awaits ----------

  /** Where the run is suspended. Signals are handled only at these points. */
  datatype Control =
    | Starting
    | Superseding(superseded: int, replacement: Request)  // supersede_document_processing in flight
    | CheckingReadiness
    | Parked                                               // waiting for the embedding index
    | LoadingConfiguration
    | InPhase(index: nat)                                  // OCR, embedding, classification, judge
    | PublishingReview
    | AwaitingReview(suggestion: int)
    | Committing(suggestion: int)
    | FailingCommit
    | Projecting(projection: string)                       // finish_document_review in flight
    | FailingDocument(permanent: bool)                     // fail_document_processing in flight
    | Completed(result: string)
    | Failed                                               // an activity's failure ended the workflow
    | Stuck(at: Control, cause: Event)                     // the workflow task raised and will be retried

  datatype Readiness = Complete(suggestion: Option<int>) | Finished | CancelledRun | Ready | Waiting

  datatype State = State(
    request: Request,
    force: Option<Envelope>,
    decision: Option<Envelope>,
    ready: bool,
    control: Control,
    consumed: seq<int>,             // the generations this identity has worked on, oldest first
    supersessions: seq<(int, int)>, // supersede activities started, as (old, new)
    continued: seq<int>)            // Continue-As-New targets

  datatype Event =
    | ForceSignal(signal: Envelope)
    | DecisionSignal(decisionSignal: Envelope)
    | ReadySignal
    | Begin
    | Superseded                    // the supersede activity completed
    | ReadinessIs(readiness: Readiness)
    | Wake                          // a wait_condition is re-evaluated
    | ConfigurationLoaded
    | PhaseDone(permanentFailure: bool)
    | ReviewPublished(suggestion: int)
    | CommitDone
    | ActivityDone                  // any other awaited activity completed
    | ActivityFailed                // the awaited activity exhausted its retries
    | RetryTask                     // Temporal runs a failed workflow task again, later signals first

  function Initial(request: Request): State {
    State(request, None, None, false, Starting, [request.run], [], [])
  }

  /** No request is pending: the routine has looked at it. */
  function Cleared(s: State): State {
    s.(force := None)
  }

  /** _continue_if_reprocessed at a point where the routine otherwise goes on as `next`; None if it raises. */
  function ContinueIfReprocessed(s: State, next: Option<State>): Option<State> {
    match Replacement(s.force, s.request)
    case Failure(_) => None
    case Success(None) => next
    case Success(Some(r)) => Some(StartSuperseding(Cleared(s), s.request.run, r))
  }

  function StartSuperseding(s: State, old_: int, r: Request): State {
    s.(control := Superseding(old_, r),
       consumed := s.consumed + [r.run], supersessions := s.supersessions + [(old_, r.run)])
  }

  /** The loop of _continue_if_reprocessed after one supersession completed: a newer
      request extends the chain, otherwise the workflow continues as new. */
  function AfterSupersede(s: State, replacement: Request): Option<State> {
    match Replacement(s.force, replacement)
    case Failure(_) => None
    case Success(Some(newer)) => Some(StartSuperseding(Cleared(s), replacement.run, newer))
    case Success(None) => Some(
      State(replacement, None, None, false, Starting, s.consumed, s.supersessions, s.continued + [replacement.run]))
  }

  function Goto(s: State, control: Control): Option<State> {
    Some(s.(control := control))
  }

  /** _finish_review at its loop condition: a decision that is already there skips the loop. */
  function FinishReview(s: State, suggestion: int): Option<State> {
    if s.decision.None? then Goto(s, AwaitingReview(suggestion)) else Decide(s, suggestion)
  }

  /** The part of _finish_review after its loop. */
  function Decide(s: State, suggestion: int): Option<State>
    requires s.decision.Some?
  {
    if s.decision.value.payload.None? then None
    else
      var payload := s.decision.value.payload.value;
      if payload.suggestion != Some(suggestion) then None
      else if payload.decision == Some("rejected") then Goto(s, Projecting("rejected"))
      else if payload.decision != Some("accepted") then None
      else Goto(s, Committing(suggestion))
  }

  /** One turn of _finish_review's loop, once its wait_condition holds. */
  function ReviewTurn(s: State, suggestion: int): Option<State> {
    if s.force.None? then FinishReview(s, suggestion)
    else if s.force.value.payload.None? then None
    else
      var payload := s.force.value.payload.value;
      if payload.replacementWorkflow != Some(s.request.workflowId) then
        if payload.suggestion != Some(suggestion) then None else Goto(s, Projecting("superseded"))
      else ContinueIfReprocessed(s, FinishReview(Cleared(s), suggestion))
  }

  /** _readiness, from the result of check_document_readiness. */
  function AfterReadiness(s: State, readiness: Readiness): Option<State> {
    ContinueIfReprocessed(s,
      match readiness
      case Complete(None) => None
      case Complete(Some(suggestion)) => FinishReview(Cleared(s), suggestion)
      case Finished => Goto(Cleared(s), Completed("completed"))
      case CancelledRun => Goto(Cleared(s), Completed("cancelled"))
      case Ready => Goto(Cleared(s), LoadingConfiguration)
      case Waiting => Goto(Cleared(s), Parked))
  }

  /** What an event does, or None if the routine raises something that is no activity failure. */
  function Transition(s: State, ev: Event): Option<State> {
    match ev
    case ForceSignal(signal) => Some(if Over(s) then s else s.(force := AfterForce(s.force, signal)))
    case DecisionSignal(decision) => Some(if Over(s) || s.decision.Some? then s else s.(decision := Some(decision)))
    case ReadySignal => Some(if Over(s) then s else s.(ready := true))
    case Begin =>
      if s.control != Starting then Some(s)
      else ContinueIfReprocessed(s, Goto(Cleared(s), CheckingReadiness))
    case Superseded => if s.control.Superseding? then AfterSupersede(s, s.control.replacement) else Some(s)
    case ReadinessIs(readiness) => if s.control == CheckingReadiness then AfterReadiness(s, readiness) else Some(s)
    case Wake =>
      if s.control == Parked && (s.ready || s.force.Some?) then
        // both _continue_if_reprocessed calls around the flag reset run without suspending
        ContinueIfReprocessed(s, Goto(Cleared(s).(ready := false), CheckingReadiness))
      else if s.control.AwaitingReview? && (s.decision.Some? || s.force.Some?) then
        ReviewTurn(s, s.control.suggestion)
      else Some(s)
    case ConfigurationLoaded =>
      if s.control != LoadingConfiguration then Some(s)
      else ContinueIfReprocessed(s, Goto(Cleared(s), InPhase(0)))
    case PhaseDone(permanentFailure) =>
      if !s.control.InPhase? then Some(s)
      else if permanentFailure then Goto(s, FailingDocument(true))
      else
        var index := s.control.index;
        var next := if index < 3 then InPhase(index + 1) else PublishingReview;
        ContinueIfReprocessed(s, Goto(Cleared(s), next))
    case ReviewPublished(suggestion) =>
      if s.control == PublishingReview then FinishReview(s, suggestion) else Some(s)
    case CommitDone => if s.control.Committing? then Goto(s, Projecting("committed")) else Some(s)
    case ActivityDone =>
      match s.control {
        case Projecting(outcome) => Goto(s, Completed(outcome))
        case FailingCommit => Goto(s, FailingDocument(false))
        case FailingDocument(permanent) => if permanent then None else Goto(s, Failed)
        case _ => Some(s)
      }
    case ActivityFailed =>
      match s.control {
        case InPhase(_) => Goto(s, FailingDocument(false))
        case PublishingReview => Goto(s, FailingDocument(false))
        case Committing(_) => Goto(s, FailingCommit)
        case Starting => Some(s)
        case Parked => Some(s)
        case AwaitingReview(_) => Some(s)
        case Completed(_) => Some(s)
        case Stuck(_, _) => Some(s)
        case _ => Goto(s, Failed)
      }
    case RetryTask => Some(s)
  }

  /**
   * Temporal fails the workflow only for an activity's failure. Any other exception fails the
   * workflow task: nothing of the transition is kept, and that is retried with the signals that
   * have arrived since handled first.
   */
  function Step(s: State, ev: Event): State {
    var (at, cause) := Attempted(s, ev);
    match Transition(s.(control := at), cause)
    case Some(t) => t
    case None => s.(control := Stuck(at, cause))
  }

  /** What an event makes the routine try, and from where. */
  function Attempted(s: State, ev: Event): (Control, Event) {
    if ev.RetryTask? && s.control.Stuck? then (s.control.at, s.control.cause) else (s.control, ev)
  }

  predicate Over(s: State) {
    s.control.Completed? || s.control.Failed?
  }

  function Run(s: State, evs: seq<Event>): State {
    if evs == [] then s else Step(Run(s, evs[..|evs| - 1]), evs[|evs| - 1])
  }

  // ---------- generations ----------

  predicate WellFormed(signal: Envelope, workflowId: string) {
    && ForcedRun(Some(signal)).Some?
    && signal.payload.value.replacementWorkflow == Some(workflowId)
  }

  /** Every force signal of the run is well formed for this identity. */
  predicate AllWellFormed(evs: seq<Event>, workflowId: string) {
    forall k | 0 <= k < |evs| && evs[k].ForceSignal? :: WellFormed(evs[k].signal, workflowId)
  }

  function Max(a: int, b: int): int { if a < b then b else a }

  /** The largest generation the identity has been asked for. */
  function Newest(first: int, evs: seq<Event>): int {
    if evs == [] then first
    else
      var last := evs[|evs| - 1];
      var before := Newest(first, evs[..|evs| - 1]);
      if last.ForceSignal? && ForcedRun(Some(last.signal)).Some?
      then Max(before, ForcedRun(Some(last.signal)).value) else before
  }

  /** The await at which the routine is, whether or not the next stretch raised. */
  function Place(c: Control): Control {
    if c.Stuck? then c.at else c
  }

  function Current(s: State): int {
    if Place(s.control).Superseding? then Place(s.control).replacement.run else s.request.run
  }

  predicate PendingOk(s: State) {
    s.force.Some? ==> WellFormed(s.force.value, s.request.workflowId)
  }

  /** Nothing asked for is lost: the current or the pending generation is the newest one. */
  predicate Tracks(s: State, newest: int) {
    && Current(s) <= newest
    && (s.force.Some? ==> ForcedRun(s.force).Some? && ForcedRun(s.force).value <= newest)
    && (Current(s) == newest || (s.force.Some? && ForcedRun(s.force).value == newest))
  }

  /** The generations form one increasing chain whose links are exactly the
      supersessions, and Continue-As-New always went to a link of the chain. */
  predicate Chained(s: State, workflowId: string) {
    var place := Place(s.control);
    && s.request.workflowId == workflowId && StuckOk(s.control)
    && (place.Superseding? ==> place.replacement.workflowId == workflowId)
    && |s.consumed| > 0 && |s.supersessions| == |s.consumed| - 1
    && (forall i | 0 <= i < |s.supersessions| ::
          s.supersessions[i] == (s.consumed[i], s.consumed[i + 1]))
    && (forall i, j | 0 <= i < j < |s.consumed| :: s.consumed[i] < s.consumed[j])
    && (forall i | 0 <= i < |s.continued| :: s.consumed[0] < s.continued[i])
    && (!s.control.Failed? ==> s.consumed[|s.consumed| - 1] == Current(s))
    && (place.Superseding? ==>
          && |s.supersessions| > 0 && s.supersessions[|s.supersessions| - 1]
              == (place.superseded, place.replacement.run)
          && (|s.continued| > 0 ==> s.continued[|s.continued| - 1] <= place.superseded))
    && (forall i, j | 0 <= i < j < |s.continued| :: s.continued[i] < s.continued[j])
    && (|s.continued| > 0 ==> s.continued[|s.continued| - 1] == s.request.run)
  }

  /** Handlers never raise, and a failed task is retried, not piled up. */
  predicate StuckOk(c: Control) {
    c.Stuck? ==> !c.at.Stuck? && !c.at.Completed? && !c.at.Failed? && !IsSignal(c.cause)
  }

  predicate SameChain(s: State, t: State) {
    s.request == t.request && s.consumed == t.consumed && s.supersessions == t.supersessions
        && s.continued == t.continued
  }

  /** A transition consumes a strictly newer generation. */
  predicate Extends(s: State, t: State) {
    && t.control.Superseding?
    && t.control.superseded == Current(s) < t.control.replacement.run
    && t.control.replacement.workflowId == s.request.workflowId
    && SameChain(t, s.(consumed := s.consumed + [t.control.replacement.run],
                       supersessions := s.supersessions + [(Current(s), t.control.replacement.run)]))
  }

  /** A transition continues as new, after its generation's supersession. */
  predicate Continues(s: State, t: State) {
    var place := Place(s.control);
    && place.Superseding?
    && t == State(place.replacement, None, None, false, Starting, s.consumed, s.supersessions,
                  s.continued + [place.replacement.run])
  }

  /** The three things a transition can do to the chain of generations. */
  predicate Shaped(s: State, t: State) {
    || Stays(s, t)
    || (!s.control.Failed? && Extends(s, t))
    || Continues(s, t)
  }

  predicate Stays(s: State, t: State) {
    && SameChain(s, t) && StuckOk(t.control)
    && if Place(s.control).Superseding? then Place(t.control) == Place(s.control) || t.control.Failed?
       else !Place(t.control).Superseding? && (s.control.Failed? ==> t.control.Failed?)
  }

  predicate IsSignal(ev: Event) {
    ev.ForceSignal? || ev.DecisionSignal? || ev.ReadySignal?
  }

  /** The identity of the workflow, as far as the shape of a transition needs it. */
  predicate SameIdentity(s: State) {
    && StuckOk(s.control)
    && (Place(s.control).Superseding? ==> Place(s.control).replacement.workflowId == s.request.workflowId)
  }

  /** A transition that raises leaves the chain alone. */
  predicate ShapedIf(s: State, t: Option<State>) {
    t.Some? ==> Shaped(s, t.value)
  }

  lemma SignalShape(s: State, ev: Event)
    requires IsSignal(ev) && StuckOk(s.control)
    ensures ShapedIf(s, Transition(s, ev))
  {
  }

  lemma SupersededShape(s: State)
    requires PendingOk(s) && SameIdentity(s)
    ensures ShapedIf(s, Transition(s, Superseded))
  {
  }

  lemma ReadinessShape(s: State, readiness: Readiness)
    requires PendingOk(s) && SameIdentity(s)
    ensures ShapedIf(s, Transition(s, ReadinessIs(readiness)))
  {
  }

  lemma WakeShape(s: State)
    requires PendingOk(s) && SameIdentity(s)
    ensures ShapedIf(s, Transition(s, Wake))
  {
  }

  lemma TransitionShape(s: State, ev: Event)
    requires PendingOk(s) && SameIdentity(s)
    ensures ShapedIf(s, Transition(s, ev))
  {
    match ev
    case ForceSignal(_) => SignalShape(s, ev);
    case DecisionSignal(_) => SignalShape(s, ev);
    case ReadySignal => SignalShape(s, ev);
    case Superseded => SupersededShape(s);
    case ReadinessIs(readiness) => ReadinessShape(s, readiness);
    case Wake => WakeShape(s);
    case _ =>
  }

  /** Handlers never raise, and nothing raises while an earlier failure is unresolved. */
  lemma RaisingEvents(s: State, ev: Event)
    requires Transition(s, ev).None?
    ensures !IsSignal(ev) && !s.control.Stuck? && !Over(s)
  {
  }

  /** A parked workflow fails its task only when it is woken for a malformed force request, which stays pending. */
  predicate ParkSound(s: State) {
    StuckOk(s.control) && (s.control.Stuck? && s.control.at == Parked ==> s.control.cause.Wake? && s.force.Some?)
  }

  lemma StepKeepsParkSound(s: State, ev: Event)
    requires ParkSound(s)
    ensures ParkSound(Step(s, ev))
  {
    var (at, cause) := Attempted(s, ev);
    if Transition(s.(control := at), cause).None? {
      RaisingEvents(s.(control := at), cause);
    }
  }

  lemma StepShape(s: State, ev: Event)
    requires PendingOk(s) && SameIdentity(s)
    ensures Shaped(s, Step(s, ev))
  {
    var (at, cause) := Attempted(s, ev);
    var tried := s.(control := at);
    TransitionShape(tried, cause);
    assert Place(at) == Place(s.control) && Current(tried) == Current(s);
    if Transition(tried, cause).None? {
      RaisingEvents(tried, cause);
    }
  }

  lemma ExtendKeepsChain(s: State, t: State, workflowId: string)
    requires Chained(s, workflowId) && !s.control.Failed? && Extends(s, t)
    ensures Chained(t, workflowId)
  {
  }

  lemma StayKeepsChain(s: State, t: State, workflowId: string)
    requires Chained(s, workflowId) && Stays(s, t)
    ensures Chained(t, workflowId)
  {
  }

  lemma ContinueKeepsChain(s: State, t: State, workflowId: string)
    requires Chained(s, workflowId) && Continues(s, t)
    ensures Chained(t, workflowId)
  {
    assert t.control == Starting && Current(t) == Current(s);
  }

  lemma ShapeKeepsChain(s: State, t: State, workflowId: string)
    requires Chained(s, workflowId) && Shaped(s, t)
    ensures Chained(t, workflowId)
  {
    if Stays(s, t) {
      StayKeepsChain(s, t, workflowId);
    } else if !s.control.Failed? && Extends(s, t) {
      ExtendKeepsChain(s, t, workflowId);
    } else {
      ContinueKeepsChain(s, t, workflowId);
    }
  }

  lemma StepKeepsChain(s: State, ev: Event, workflowId: string)
    requires Chained(s, workflowId) && PendingOk(s)
    ensures Chained(Step(s, ev), workflowId)
  {
    StepShape(s, ev);
    ShapeKeepsChain(s, Step(s, ev), workflowId);
  }

  predicate PendingOkIf(t: Option<State>) {
    t.Some? ==> PendingOk(t.value)
  }

  lemma LookKeepsPending(s: State, ev: Event)
    requires PendingOk(s) && (ev.Begin? || ev.Superseded? || ev.ReadinessIs? || ev.Wake?)
    ensures PendingOkIf(Transition(s, ev))
  {
  }

  lemma RoutineKeepsPending(s: State, ev: Event)
    requires PendingOk(s) && !IsSignal(ev) && !(ev.Begin? || ev.Superseded? || ev.ReadinessIs? || ev.Wake?)
    ensures PendingOkIf(Transition(s, ev))
  {
  }

  lemma SignalKeepsPending(s: State, ev: Event)
    requires PendingOk(s) && IsSignal(ev)
    requires ev.ForceSignal? ==> WellFormed(ev.signal, s.request.workflowId)
    ensures PendingOkIf(Transition(s, ev))
  {
  }

  lemma StepKeepsPending(s: State, ev: Event, workflowId: string)
    requires Chained(s, workflowId) && PendingOk(s)
    requires ev.ForceSignal? ==> WellFormed(ev.signal, workflowId)
    ensures PendingOk(Step(s, ev))
  {
    var (at, cause) := Attempted(s, ev);
    var tried := s.(control := at);
    if IsSignal(cause) {
      SignalKeepsPending(tried, cause);
    } else if cause.Begin? || cause.Superseded? || cause.ReadinessIs? || cause.Wake? {
      LookKeepsPending(tried, cause);
    } else {
      RoutineKeepsPending(tried, cause);
    }
  }

  function NewestAfter(ev: Event, newest: int): int
    requires ev.ForceSignal? ==> ForcedRun(Some(ev.signal)).Some?
  {
    if ev.ForceSignal? then Max(newest, ForcedRun(Some(ev.signal)).value) else newest
  }

  /** What a transition owes to the newest generation; one that raises owes nothing. */
  predicate KeepsTrack(s: State, ev: Event, newest: int)
    requires ev.ForceSignal? ==> ForcedRun(Some(ev.signal)).Some?
  {
    Transition(s, ev).Some? ==>
      var t := Transition(s, ev).value;
      && (!Over(t) ==> Tracks(t, NewestAfter(ev, newest)))
      && (t.continued != s.continued ==> t.continued == s.continued + [newest])
  }

  lemma SignalTracks(s: State, ev: Event, workflowId: string, newest: int)
    requires PendingOk(s) && Tracks(s, newest) && !Over(s) && IsSignal(ev)
    requires ev.ForceSignal? ==> WellFormed(ev.signal, workflowId)
    ensures KeepsTrack(s, ev, newest)
  {
  }

  lemma SupersededTracks(s: State, workflowId: string, newest: int)
    requires Chained(s, workflowId) && PendingOk(s) && Tracks(s, newest) && !Over(s)
    ensures KeepsTrack(s, Superseded, newest)
  {
  }

  lemma ReadinessTracks(s: State, workflowId: string, newest: int, readiness: Readiness)
    requires Chained(s, workflowId) && PendingOk(s) && Tracks(s, newest) && !Over(s)
    ensures KeepsTrack(s, ReadinessIs(readiness), newest)
  {
  }

  lemma RoutineTracks(s: State, ev: Event, workflowId: string, newest: int)
    requires Chained(s, workflowId) && PendingOk(s) && Tracks(s, newest) && !Over(s)
    requires ev.Begin? || ev.ConfigurationLoaded? || ev.PhaseDone?
    ensures KeepsTrack(s, ev, newest)
  {
  }

  lemma CompletionTracks(s: State, ev: Event, newest: int)
    requires PendingOk(s) && Tracks(s, newest) && !Over(s)
    requires ev.ReviewPublished? || ev.CommitDone? || ev.ActivityDone? || ev.ActivityFailed? || ev.RetryTask?
    ensures KeepsTrack(s, ev, newest)
  {
  }

  lemma WakeTracks(s: State, workflowId: string, newest: int)
    requires Chained(s, workflowId) && PendingOk(s) && Tracks(s, newest) && !Over(s)
    ensures KeepsTrack(s, Wake, newest)
  {
  }

  lemma TransitionTracks(s: State, ev: Event, workflowId: string, newest: int)
    requires Chained(s, workflowId) && PendingOk(s) && Tracks(s, newest) && !Over(s)
    requires ev.ForceSignal? ==> WellFormed(ev.signal, workflowId)
    ensures KeepsTrack(s, ev, newest)
  {
    match ev
    case ForceSignal(_) => SignalTracks(s, ev, workflowId, newest);
    case DecisionSignal(_) => SignalTracks(s, ev, workflowId, newest);
    case ReadySignal => SignalTracks(s, ev, workflowId, newest);
    case Superseded => SupersededTracks(s, workflowId, newest);
    case ReadinessIs(readiness) => ReadinessTracks(s, workflowId, newest, readiness);
    case Wake => WakeTracks(s, workflowId, newest);
    case Begin => RoutineTracks(s, ev, workflowId, newest);
    case ConfigurationLoaded => RoutineTracks(s, ev, workflowId, newest);
    case PhaseDone(_) => RoutineTracks(s, ev, workflowId, newest);
    case _ => CompletionTracks(s, ev, newest);
  }

  /** A retry starts from the same place, in the same chain. */
  lemma AttemptedIsChained(s: State, ev: Event, workflowId: string, newest: int)
    requires Chained(s, workflowId) && PendingOk(s) && Tracks(s, newest) && !Over(s)
    ensures var tried := s.(control := Attempted(s, ev).0);
            Chained(tried, workflowId) && PendingOk(tried) && Tracks(tried, newest) && !Over(tried)
  {
  }

  /** One step keeps track of the newest generation, and can continue as new only to it. */
  lemma StepTracksNewest(s: State, ev: Event, workflowId: string, newest: int)
    requires Chained(s, workflowId) && PendingOk(s) && Tracks(s, newest) && !Over(s)
    requires ev.ForceSignal? ==> WellFormed(ev.signal, workflowId)
    ensures var t := Step(s, ev);
            && (!Over(t) ==> Tracks(t, NewestAfter(ev, newest)))
            && (t.continued != s.continued ==> t.continued == s.continued + [newest])
  {
    var (at, cause) := Attempted(s, ev);
    AttemptedIsChained(s, ev, workflowId, newest);
    TransitionTracks(s.(control := at), cause, workflowId, newest);
    if Transition(s.(control := at), cause).None? {
      RaisingEvents(s.(control := at), cause);
    }
  }

  lemma OverStaysOver(s: State, ev: Event)
    requires Over(s)
    ensures Over(Step(s, ev))
  {
  }

  predicate Tracked(s: State, workflowId: string, newest: int) {
    Chained(s, workflowId) && PendingOk(s) && (!Over(s) ==> Tracks(s, newest))
  }

  lemma StepKeepsTracked(s: State, ev: Event, workflowId: string, newest: int)
    requires Tracked(s, workflowId, newest)
    requires ev.ForceSignal? ==> WellFormed(ev.signal, workflowId)
    ensures Tracked(Step(s, ev), workflowId, NewestAfter(ev, newest))
  {
    StepKeepsChain(s, ev, workflowId);
    StepKeepsPending(s, ev, workflowId);
    if Over(s) {
      OverStaysOver(s, ev);
    } else {
      StepTracksNewest(s, ev, workflowId, newest);
    }
  }

  lemma {:induction false} RunTracksNewest(request: Request, evs: seq<Event>)
    requires AllWellFormed(evs, request.workflowId)
    ensures var s := Run(Initial(request), evs);
            Tracked(s, request.workflowId, Newest(request.run, evs))
  {
    if evs != [] {
      var prior := evs[..|evs| - 1];
      RunTracksNewest(request, prior);
      StepKeepsTracked(Run(Initial(request), prior), evs[|evs| - 1], request.workflowId, Newest(request.run, prior));
    }
  }

  lemma {:induction false} FirstGenerationStays(request: Request, evs: seq<Event>)
    requires AllWellFormed(evs, request.workflowId)
    ensures var s := Run(Initial(request), evs); |s.consumed| > 0 && s.consumed[0] == request.run
  {
    if evs != [] {
      FirstGenerationStays(request, evs[..|evs| - 1]);
      RunTracksNewest(request, evs[..|evs| - 1]);
      StepShape(Run(Initial(request), evs[..|evs| - 1]), evs[|evs| - 1]);
    }
  }

  /** `t` is the fresh incarnation that continues `s` as `newest`: nothing is pending,
      and every earlier generation of the chain was superseded by its successor. */
  predicate ContinuedTo(s: State, t: State, newest: int) {
    && t.continued == s.continued + [newest]
    && t.request == Request(newest, s.request.workflowId, t.request.document)
    && t.force == None && t.control == Starting
    && (forall c <- s.continued :: c < newest)
    && |t.consumed| > 1 && t.consumed[0] < newest && t.consumed[|t.consumed| - 1] == newest
    && |t.supersessions| == |t.consumed| - 1
    && forall i | 0 <= i < |t.supersessions| :: t.supersessions[i] == (t.consumed[i], t.consumed[i + 1])
  }

  lemma ShapeContinues(s: State, t: State, workflowId: string, newest: int)
    requires Chained(s, workflowId) && Shaped(s, t) && t.continued == s.continued + [newest]
    ensures ContinuedTo(s, t, newest)
  {
    assert !SameChain(s, t);
    ShapeKeepsChain(s, t, workflowId);
    forall c <- s.continued ensures c < newest {
      var i :| 0 <= i < |s.continued| && s.continued[i] == c;
      assert t.continued[i] == c && t.continued[|s.continued|] == newest;
    }
  }

  /** With force signals interleaved at every await: as long as the workflow is open,
      the current or the pending generation is the newest one asked for, and
      Continue-As-New goes exactly there. */
  lemma {:induction false} ContinueAsNewGoesToTheNewestGeneration(request: Request, evs: seq<Event>, ev: Event)
    requires AllWellFormed(evs + [ev], request.workflowId)
    ensures var s := Run(Initial(request), evs);
            var newest := Newest(request.run, evs);
            && (!Over(s) ==>
                  newest == Max(Current(s), if ForcedRun(s.force).Some? then ForcedRun(s.force).value else Current(s)))
            && (Step(s, ev).continued != s.continued ==>
                  ContinuedTo(s, Step(s, ev), newest) && Step(s, ev).consumed[0] == request.run)
  {
    assert (evs + [ev])[..|evs|] == evs && (evs + [ev])[|evs|] == ev;
    forall k | 0 <= k < |evs| && evs[k].ForceSignal? ensures WellFormed(evs[k].signal, request.workflowId) {
      assert (evs + [ev])[k] == evs[k];
    }
    RunTracksNewest(request, evs);
    FirstGenerationStays(request, evs + [ev]);
    StepContinuesToNewest(Run(Initial(request), evs), ev, request.workflowId, Newest(request.run, evs));
  }

  lemma StepContinuesToNewest(s: State, ev: Event, workflowId: string, newest: int)
    requires Tracked(s, workflowId, newest)
    requires ev.ForceSignal? ==> WellFormed(ev.signal, workflowId)
    ensures !Over(s) ==>
              newest == Max(Current(s), if ForcedRun(s.force).Some? then ForcedRun(s.force).value else Current(s))
    ensures Step(s, ev).continued != s.continued ==> ContinuedTo(s, Step(s, ev), newest)
  {
    if Over(s) {
      OverChangesNothing(s, ev);
    } else {
      StepTracksNewest(s, ev, workflowId, newest);
      StepShape(s, ev);
      if Step(s, ev).continued != s.continued {
        ShapeContinues(s, Step(s, ev), workflowId, newest);
      }
    }
  }

  lemma OverChangesNothing(s: State, ev: Event)
    requires Over(s)
    ensures Step(s, ev) == s
  {
  }

  // ---------- where a forced generation can be missed ----------

  /** A newer, well-formed generation is pending. */
  predicate NewerPending(s: State) {
    s.force.Some? && WellFormed(s.force.value, s.request.workflowId) && ForcedRun(s.force).value > s.request.run
  }

  /** A decision that arrives before the review is published makes the routine pass
      by a pending newer generation; without one, the next turn supersedes for it. */
  lemma EarlyDecisionPassesByForcedGeneration(s: State, suggestion: int)
    requires s.control == PublishingReview && NewerPending(s)
    ensures Run(s, [ReviewPublished(suggestion), Wake]).control.Superseding? <==> s.decision.None?
    ensures s.decision.Some? ==> NewerPending(Run(s, [ReviewPublished(suggestion), Wake]))
  {
    var published := Step(s, ReviewPublished(suggestion));
    RunAppend(s, [], ReviewPublished(suggestion));
    RunAppend(s, [ReviewPublished(suggestion)], Wake);
    assert [] + [ReviewPublished(suggestion)] == [ReviewPublished(suggestion)];
    assert [ReviewPublished(suggestion)] + [Wake] == [ReviewPublished(suggestion), Wake];
    if s.decision.Some? {
      EarlyDecisionIsTaken(s, suggestion);
    } else {
      assert published == s.(control := AwaitingReview(suggestion));
      ReviewLoopServesForcedGenerationFirst(published);
    }
  }

  lemma EarlyDecisionIsTaken(s: State, suggestion: int)
    requires s.control == PublishingReview && s.decision.Some?
    ensures var t := Step(s, ReviewPublished(suggestion));
            t == s.(control := t.control) && Step(t, Wake) == t && !t.control.Superseding?
  {
  }

  /** Inside the review loop the order does not matter: a pending newer generation
      is always served before the decision. */
  lemma ReviewLoopServesForcedGenerationFirst(s: State)
    requires s.control.AwaitingReview? && NewerPending(s)
    ensures var forced := Request(ForcedRun(s.force).value, s.request.workflowId, s.request.document);
            Step(s, Wake).control == Superseding(s.request.run, forced)
  {
  }

  /** The newest generation survives a further signal exactly when that signal is well
      formed, or nothing valid was pending: a malformed one replaces a valid one. */
  lemma SignalKeepsPendingGeneration(pending: Envelope, signal: Envelope, workflowId: string)
    requires WellFormed(pending, workflowId)
    ensures WellFormed(AfterForce(Some(pending), signal).value, workflowId) <==>
            WellFormed(signal, workflowId) ||
            (ForcedRun(Some(signal)).Some? && ForcedRun(Some(signal)).value <= ForcedRun(Some(pending)).value)
  {
  }

  lemma RunAppend(s: State, evs: seq<Event>, ev: Event)
    ensures Run(s, evs + [ev]) == Step(Run(s, evs), ev)
  {
    assert (evs + [ev])[..|evs|] == evs;
  }

  function ForceEnvelope(newer: int, workflowId: string): Envelope {
    Envelope(Some(Payload(Some(newer), Some(workflowId), None, None)))
  }

  function RejectEnvelope(suggestion: int): Envelope {
    Envelope(Some(Payload(None, None, Some(suggestion), Some("rejected"))))
  }

  /** The state of a workflow that has had no signal and is suspended at `control`. */
  function Quiet(request: Request, control: Control): State {
    Initial(request).(control := control)
  }

  lemma QuietOpening(r: Request)
    ensures Step(Quiet(r, Starting), Begin) == Quiet(r, CheckingReadiness)
    ensures Step(Quiet(r, CheckingReadiness), ReadinessIs(Ready)) == Quiet(r, LoadingConfiguration)
    ensures Step(Quiet(r, LoadingConfiguration), ConfigurationLoaded) == Quiet(r, InPhase(0))
  {
  }

  lemma QuietPhase(r: Request, index: nat)
    requires index <= 3
    ensures Step(Quiet(r, InPhase(index)), PhaseDone(false)) == Quiet(r, AfterPhases(index + 1))
  {
  }

  /** A run without force signals that leads from the start to the given point, still without any signal. */
  predicate Leads(request: Request, evs: seq<Event>, control: Control) {
    Run(Initial(request), evs) == Quiet(request, control) && forall k :: 0 <= k < |evs| ==> !evs[k].ForceSignal?
  }

  lemma LeadsOn(request: Request, before: seq<Event>, at: Control, ev: Event, to: Control) returns (evs: seq<Event>)
    requires Leads(request, before, at) && !ev.ForceSignal?
    requires Step(Quiet(request, at), ev) == Quiet(request, to)
    ensures Leads(request, evs, to)
  {
    RunAppend(Initial(request), before, ev);
    evs := before + [ev];
  }

  lemma ReachesFirstPhase(request: Request) returns (evs: seq<Event>)
    ensures Leads(request, evs, AfterPhases(0))
  {
    QuietOpening(request);
    evs := LeadsOn(request, [], Starting, Begin, CheckingReadiness);
    evs := LeadsOn(request, evs, CheckingReadiness, ReadinessIs(Ready), LoadingConfiguration);
    evs := LeadsOn(request, evs, LoadingConfiguration, ConfigurationLoaded, InPhase(0));
  }

  /** Where the routine is after `k` phases. */
  function AfterPhases(k: nat): Control {
    if k <= 3 then InPhase(k) else PublishingReview
  }

  lemma OneMorePhase(request: Request, before: seq<Event>, k: nat) returns (evs: seq<Event>)
    requires k <= 3 && Leads(request, before, AfterPhases(k))
    ensures Leads(request, evs, AfterPhases(k + 1))
  {
    QuietPhase(request, k);
    evs := LeadsOn(request, before, InPhase(k), PhaseDone(false), AfterPhases(k + 1));
  }

  /** From the start through `k` phases; after all four the review is being published. */
  lemma ReachesPhase(request: Request, k: nat) returns (evs: seq<Event>)
    requires k <= 4
    ensures Leads(request, evs, AfterPhases(k))
  {
    evs := ReachesFirstPhase(request);
    for i := 0 to k
      invariant Leads(request, evs, AfterPhases(i))
    {
      evs := OneMorePhase(request, evs, i);
    }
  }

  /** What the two signals and the publication do to a quiet workflow that publishes its review. */
  lemma LostSteps(r: Request, newer: int, suggestion: int)
    requires newer > r.run
    ensures var force, reject := ForceEnvelope(newer, r.workflowId), RejectEnvelope(suggestion);
            var forced := Quiet(r, PublishingReview).(force := Some(force));
            var decided := forced.(decision := Some(reject));
            && Step(Quiet(r, PublishingReview), ForceSignal(force)) == forced
            && Step(forced, DecisionSignal(reject)) == decided
            && Step(decided, ReviewPublished(suggestion)) == decided.(control := Projecting("rejected"))
            && Step(decided.(control := Projecting("rejected")), ActivityDone)
                == decided.(control := Completed("rejected"))
  {
  }

  /**
   * So a forced generation can be lost: for every request, newer generation and suggestion there is
   * a run in which both signals arrive while the review is being published, the workflow completes
   * as rejected, the newer request is still pending, and nothing was superseded.
   */
  lemma EarlyDecisionLosesForcedGeneration(request: Request, newer: int, suggestion: int) returns (evs: seq<Event>)
    requires newer > request.run
    ensures AllWellFormed(evs, request.workflowId)
    ensures var s := Run(Initial(request), evs);
            && s.control == Completed("rejected") && NewerPending(s)
            && ForcedRun(s.force) == Some(newer) && s.supersessions == [] && s.continued == []
  {
    var s := Initial(request);
    var force := ForceSignal(ForceEnvelope(newer, request.workflowId));
    var reject := DecisionSignal(RejectEnvelope(suggestion));
    LostSteps(request, newer, suggestion);
    evs := ReachesPhase(request, 4);
    RunAppend(s, evs, force);
    RunAppend(s, evs + [force], reject);
    RunAppend(s, evs + [force] + [reject], ReviewPublished(suggestion));
    RunAppend(s, evs + [force] + [reject] + [ReviewPublished(suggestion)], ActivityDone);
    evs := evs + [force] + [reject] + [ReviewPublished(suggestion)] + [ActivityDone];
  }

  // ---------- exactly when a forced generation is missed ----------

  /** This event asks for a generation newer than the one being worked on. */
  predicate Asks(s: State, ev: Event) {
    ev.ForceSignal? && WellFormed(ev.signal, s.request.workflowId) && ForcedRun(Some(ev.signal)).value > s.request.run
  }

  /** A newer generation was asked for since the review began to be published. */
  predicate AskedWhilePublishing(request: Request, evs: seq<Event>) {
    evs != [] &&
    var prior := evs[..|evs| - 1];
    var s := Run(Initial(request), prior);
    s.control == PublishingReview && (Asks(s, evs[|evs| - 1]) || AskedWhilePublishing(request, prior))
  }

  /**
   * A newer generation was asked for where the routine looks at force requests no more: while the
   * review was being published with the decision there before it was, or after the decision.
   */
  predicate Missed(request: Request, evs: seq<Event>) {
    evs != [] &&
    var prior, last := evs[..|evs| - 1], evs[|evs| - 1];
    var s := Run(Initial(request), prior);
    if s.control == PublishingReview then
      last.ReviewPublished? && s.decision.Some? && AskedWhilePublishing(request, prior)
    else if s.control.Committing? || s.control.Projecting? then
      Asks(s, last) || Missed(request, prior)
    else Over(s) && Missed(request, prior)
  }

  /** What is pending where the routine may look no more. */
  predicate MissedIffPending(request: Request, evs: seq<Event>) {
    var s := Run(Initial(request), evs);
    && (s.control == PublishingReview ==> (NewerPending(s) <==> AskedWhilePublishing(request, evs)))
    && (s.control.Committing? || s.control.Projecting? || s.control.Completed? ==>
          (NewerPending(s) <==> Missed(request, evs)))
  }

  /** The routine raises nowhere behind its decision, and a bad early decision stays one. */
  predicate StuckSound(s: State) {
    s.control.Stuck? ==>
      && !s.control.at.Committing? && !s.control.at.Projecting?
      && (s.control.at == PublishingReview ==>
            s.control.cause.ReviewPublished? && BadDecision(s.decision, s.control.cause.suggestion))
  }

  predicate BadDecision(decision: Option<Envelope>, suggestion: int) {
    && decision.Some?
    && (decision.value.payload.None?
        || decision.value.payload.value.suggestion != Some(suggestion)
        || decision.value.payload.value.decision !in {Some("rejected"), Some("accepted")})
  }

  lemma DecideRaisesIffBad(s: State, suggestion: int)
    requires s.decision.Some?
    ensures Decide(s, suggestion).None? <==> BadDecision(s.decision, suggestion)
  {
  }

  lemma RaisesAt(s: State, ev: Event)
    requires Transition(s, ev).None?
    ensures !s.control.Committing? && !s.control.Projecting?
    ensures s.control == PublishingReview ==> ev.ReviewPublished? && BadDecision(s.decision, ev.suggestion)
  {
    if s.control == PublishingReview && ev.ReviewPublished? && s.decision.Some? {
      DecideRaisesIffBad(s, ev.suggestion);
    }
  }

  lemma StepKeepsStuckSound(s: State, ev: Event)
    requires StuckSound(s) && StuckOk(s.control)
    ensures StuckSound(Step(s, ev))
  {
    var (at, cause) := Attempted(s, ev);
    if Transition(s.(control := at), cause).None? {
      RaisesAt(s.(control := at), cause);
    }
  }

  /** A transition that goes on to publish, commit, project or complete has looked at the request, or stays there. */
  predicate IntoTail(s: State, ev: Event, t: State) {
    && (t.control == PublishingReview && s.control != PublishingReview ==> !NewerPending(t))
    && (t.control.Committing? || t.control.Projecting? || t.control.Completed? ==>
          if s.control == PublishingReview
          then ev.ReviewPublished? && s.decision.Some? && (NewerPending(t) <==> NewerPending(s))
          else s.control.Committing? || s.control.Projecting? || !NewerPending(t))
  }

  predicate IntoTailIf(s: State, ev: Event, t: Option<State>) {
    t.Some? ==> IntoTail(s, ev, t.value)
  }

  lemma ReadinessIntoTail(s: State, readiness: Readiness)
    requires PendingOk(s) && !Over(s)
    ensures IntoTailIf(s, ReadinessIs(readiness), Transition(s, ReadinessIs(readiness)))
  {
  }

  lemma WakeIntoTail(s: State)
    requires PendingOk(s) && !Over(s)
    ensures IntoTailIf(s, Wake, Transition(s, Wake))
  {
  }

  lemma PublishedIntoTail(s: State, suggestion: int)
    requires PendingOk(s) && !Over(s)
    ensures IntoTailIf(s, ReviewPublished(suggestion), Transition(s, ReviewPublished(suggestion)))
  {
  }

  lemma TransitionIntoTail(s: State, ev: Event)
    requires PendingOk(s) && !Over(s)
    ensures IntoTailIf(s, ev, Transition(s, ev))
  {
    match ev
    case ReadinessIs(readiness) => ReadinessIntoTail(s, readiness);
    case Wake => WakeIntoTail(s);
    case ReviewPublished(suggestion) => PublishedIntoTail(s, suggestion);
    case _ =>
  }

  /** A retry does not reach the tail from where it raised inside it. */
  lemma RetryIntoTail(s: State)
    requires PendingOk(s) && StuckSound(s) && StuckOk(s.control) && s.control.Stuck?
    ensures IntoTail(s, RetryTask, Step(s, RetryTask))
  {
    var tried := s.(control := s.control.at);
    if s.control.at == PublishingReview {
      DecideRaisesIffBad(tried, s.control.cause.suggestion);
    } else {
      TransitionIntoTail(tried, s.control.cause);
    }
  }

  lemma StepIntoTail(s: State, ev: Event)
    requires PendingOk(s) && StuckSound(s) && StuckOk(s.control) && !Over(s)
    ensures IntoTail(s, ev, Step(s, ev))
  {
    if ev.RetryTask? && s.control.Stuck? {
      RetryIntoTail(s);
    } else {
      TransitionIntoTail(s, ev);
    }
  }

  /** Inside the stretch only a force signal changes what is pending. */
  lemma StepInTail(s: State, ev: Event, workflowId: string)
    requires Chained(s, workflowId) && PendingOk(s)
    requires s.control == PublishingReview || s.control.Committing? || s.control.Projecting?
    requires ev.ForceSignal? ==> WellFormed(ev.signal, workflowId)
    ensures NewerPending(Step(s, ev)) <==> NewerPending(s) || Asks(s, ev)
  {
  }

  lemma {:induction false} RunMissesIffPending(request: Request, evs: seq<Event>)
    requires AllWellFormed(evs, request.workflowId)
    ensures MissedIffPending(request, evs) && StuckSound(Run(Initial(request), evs))
  {
    if evs != [] {
      var prior, last := evs[..|evs| - 1], evs[|evs| - 1];
      RunMissesIffPending(request, prior);
      RunTracksNewest(request, prior);
      var s := Run(Initial(request), prior);
      StepKeepsStuckSound(s, last);
      if Over(s) {
        OverChangesNothing(s, last);
      } else {
        StepIntoTail(s, last);
        if s.control == PublishingReview || s.control.Committing? || s.control.Projecting? {
          StepInTail(s, last, request.workflowId);
        }
      }
    }
  }

  /**
   * Over all runs from the start with well-formed force signals: a workflow completes and leaves a
   * newer generation pending exactly when that was asked for while the review was being published
   * with a decision before publication, or after the decision, while committing or projecting.
   */
  lemma {:induction false} CompletedLeavesGenerationPendingIffMissed(request: Request, evs: seq<Event>)
    requires AllWellFormed(evs, request.workflowId)
    requires Run(Initial(request), evs).control.Completed?
    ensures NewerPending(Run(Initial(request), evs)) <==> Missed(request, evs)
  {
    RunMissesIffPending(request, evs);
  }

  // ---------- a workflow task that keeps failing ----------

  /**
   * The two places where the routine raises without looking at force requests: after a phase that
   * failed permanently, and at a bad decision that was there before the review was published.
   */
  predicate RaisesUnlooked(c: Control) {
    && c.Stuck?
    && ((c.at == FailingDocument(true) && c.cause.ActivityDone?)
        || (c.at == PublishingReview && c.cause.ReviewPublished?))
  }

  /** ... and raises again, whatever has been signalled. */
  predicate RaisesAgain(s: State) {
    && RaisesUnlooked(s.control)
    && (s.control.at == PublishingReview ==> BadDecision(s.decision, s.control.cause.suggestion))
  }

  lemma RaisesAgainAndAgain(s: State, ev: Event)
    requires RaisesAgain(s)
    ensures var t := Step(s, ev); t.control == s.control && RaisesAgain(t) && SameChain(s, t)
  {
    if ev.RetryTask? && s.control.at == PublishingReview {
      DecideRaisesIffBad(s.(control := s.control.at), s.control.cause.suggestion);
    }
  }

  lemma {:induction false} StuckForGood(s: State, evs: seq<Event>)
    requires RaisesAgain(s)
    ensures var t := Run(s, evs); t.control == s.control && RaisesAgain(t) && SameChain(s, t)
  {
    if evs != [] {
      StuckForGood(s, evs[..|evs| - 1]);
      RaisesAgainAndAgain(Run(s, evs[..|evs| - 1]), evs[|evs| - 1]);
    }
  }

  /** A request that is newer than whatever is pending or being worked on. */
  function Rescue(s: State): Envelope {
    var place := Place(s.control);
    var above := if ForcedRun(s.force).Some? then Max(ForcedRun(s.force).value, Current(s)) else Current(s);
    ForceEnvelope(Max(above, s.request.run) + 1,
                  if place.Superseding? then place.replacement.workflowId else s.request.workflowId)
  }

  lemma RescueIsPending(s: State)
    requires !Over(s)
    ensures Step(s, ForceSignal(Rescue(s))) == s.(force := Some(Rescue(s)))
  {
  }

  /** What a retry finds with the rescuing request pending. */
  lemma RescuedRetry(s: State)
    requires s.control.Stuck? && !RaisesUnlooked(s.control) && StuckOk(s.control)
    requires Transition(s.(control := s.control.at), s.control.cause).None?
    ensures !Step(s.(force := Some(Rescue(s))), RetryTask).control.Stuck?
  {
  }

  /**
   * A workflow whose task has just failed leaves that state after some further events exactly when
   * the routine looks at force requests before it raises: then a newer request is served. Otherwise it
   * stays open for good, whatever is signalled.
   */
  lemma {:induction false} StuckForGoodIffRaisedUnlooked(s: State, ev: Event)
    requires !s.control.Stuck? && Step(s, ev).control.Stuck?
    ensures (forall evs :: Run(Step(s, ev), evs).control.Stuck?) <==> RaisesUnlooked(Step(s, ev).control)
  {
    var t := Step(s, ev);
    RaisingEvents(s, ev);
    RaisesAt(s, ev);
    if RaisesUnlooked(t.control) {
      forall evs ensures Run(t, evs).control.Stuck? {
        StuckForGood(t, evs);
      }
    } else {
      RescueIsPending(t);
      RescuedRetry(t);
      var evs := [ForceSignal(Rescue(t))] + [RetryTask];
      RunAppend(t, [], ForceSignal(Rescue(t)));
      assert [] + [ForceSignal(Rescue(t))] == [ForceSignal(Rescue(t))];
      RunAppend(t, [ForceSignal(Rescue(t))], RetryTask);
      assert !Run(t, evs).control.Stuck?;
    }
  }

  /** So a forced generation is never served once a phase of the current one has failed permanently. */
  lemma {:induction false} PermanentFailureNeverContinues(s: State, evs: seq<Event>)
    requires s.control == FailingDocument(true)
    ensures var t := Run(Step(s, ActivityDone), evs);
            !Over(t) && t.request == s.request && t.continued == s.continued && t.supersessions == s.supersessions
  {
    StuckForGood(Step(s, ActivityDone), evs);
  }

  /** That is reached in every phase: the workflow stays open on its first generation, whatever comes after. */
  lemma PhaseFailureBlocksReprocessing(request: Request, index: nat) returns (evs: seq<Event>)
    requires index <= 3
    ensures forall after :: var t := Run(Run(Initial(request), evs), after);
                            t.control.Stuck? && t.request == request && t.continued == []
  {
    evs := ReachesPhase(request, index);
    RunAppend(Initial(request), evs, PhaseDone(true));
    RunAppend(Initial(request), evs + [PhaseDone(true)], ActivityDone);
    evs := evs + [PhaseDone(true)] + [ActivityDone];
    var s := Run(Initial(request), evs);
    assert s == Quiet(request, Stuck(FailingDocument(true), ActivityDone));
    forall after ensures var t := Run(s, after); t.control.Stuck? && t.request == request && t.continued == [] {
      StuckForGood(s, after);
    }
  }
}
