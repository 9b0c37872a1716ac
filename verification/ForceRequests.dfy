/** How the routine of a document workflow answers force requests, and where it goes on without one. */
module ForceRequests {
  import opened Wrappers
  import opened DocumentWorkflow

  /** The routine cannot act on such a request for this workflow id. */
  predicate Malformed(e: Envelope, workflowId: string) {
    || e.payload.None? || e.payload.value.replacementRun.None?
    || e.payload.value.replacementWorkflow != Some(workflowId)
  }

  /** A request for a generation newer than `run`. */
  predicate AsksBeyond(e: Envelope, workflowId: string, run: int) {
    !Malformed(e, workflowId) && e.payload.value.replacementRun.value > run
  }

  /** A request is refused by the first thing that is wrong with it, and otherwise answered if it is newer. */
  lemma RequestIsReadInOrder(pending: Option<Envelope>, request: Request)
    ensures var r := Replacement(pending, request);
            && (r.Failure? <==> pending.Some? && Malformed(pending.value, request.workflowId))
            && (r == Failure(InvalidPayload) <==> pending.Some? && pending.value.payload == None)
            && (r == Failure(InvalidReplacement) <==>
                  && pending.Some? && pending.value.payload.Some?
                  && pending.value.payload.value.replacementRun == None)
            && (r.Success? && r.value.Some? <==>
                  pending.Some? && AsksBeyond(pending.value, request.workflowId, request.run))
            && (r.Success? && r.value.Some? ==>
                  && r.value.value.run == pending.value.payload.value.replacementRun.value
                  && r.value.value.workflowId == request.workflowId && r.value.value.document == request.document)
  {
  }

  /** The supersession of `request` by the pending generation is started, and the request consumed. */
  predicate Supersedes(s: State, t: State, request: Request) {
    && s.force.Some? && s.force.value.payload.Some? && s.force.value.payload.value.replacementRun.Some?
    && var run := s.force.value.payload.value.replacementRun.value;
       t == s.(force := None, consumed := s.consumed + [run], supersessions := s.supersessions + [(request.run, run)],
               control := Superseding(request.run, Request(run, request.workflowId, request.document)))
  }

  /** Where the routine stands after the next step of its way from the start to the publication. */
  function Next(s: State, ev: Event): Option<Control> {
    if s.control == Starting && ev == Begin then Some(CheckingReadiness)
    else if s.control == Parked && ev == Wake && (s.ready || s.force.Some?) then Some(CheckingReadiness)
    else if s.control == LoadingConfiguration && ev == ConfigurationLoaded then Some(InPhase(0))
    else if s.control.InPhase? && ev == PhaseDone(false) then
      if s.control.index < 3 then Some(InPhase(s.control.index + 1)) else Some(PublishingReview)
    else None
  }

  /**
   * Before each of these steps the routine looks for a force request: a malformed one makes its task raise and stays,
   * a newer generation supersedes the current one, and any other request is dropped.
   */
  lemma LooksBeforeGoingOn(s: State, ev: Event)
    requires Next(s, ev).Some?
    ensures var t := Step(s, ev);
            if s.force.Some? && Malformed(s.force.value, s.request.workflowId)
            then t == s.(control := Stuck(s.control, ev))
            else if s.force.Some? && AsksBeyond(s.force.value, s.request.workflowId, s.request.run)
            then Supersedes(s, t, s.request)
            else t == s.(force := None, control := Next(s, ev).value, ready := s.control != Parked && s.ready)
  {
    RequestIsReadInOrder(s.force, s.request);
  }

  /** So does a readiness result, which then counts as if no request had been pending. */
  lemma LooksAfterReadiness(s: State, readiness: Readiness)
    requires s.control == CheckingReadiness
    ensures var t := Step(s, ReadinessIs(readiness));
            if s.force.Some? && Malformed(s.force.value, s.request.workflowId)
            then t == s.(control := Stuck(s.control, ReadinessIs(readiness)))
            else if s.force.Some? && AsksBeyond(s.force.value, s.request.workflowId, s.request.run)
            then Supersedes(s, t, s.request)
            else if t.control.Stuck? then t == s.(control := Stuck(s.control, ReadinessIs(readiness)))
            else t == Step(s.(force := None), ReadinessIs(readiness))
  {
    RequestIsReadInOrder(s.force, s.request);
  }

  /** After a supersession a still newer generation supersedes that one; otherwise the workflow continues as new. */
  lemma ContinuesAfterSupersession(s: State, old_: int, request: Request)
    requires s.control == Superseding(old_, request)
    ensures var t := Step(s, Superseded);
            if s.force.Some? && Malformed(s.force.value, request.workflowId)
            then t == s.(control := Stuck(s.control, Superseded))
            else if s.force.Some? && AsksBeyond(s.force.value, request.workflowId, request.run)
            then Supersedes(s, t, request)
            else && t.request == request && t.control == Starting && t.force == t.decision == None && !t.ready
                 && t.consumed == s.consumed && t.supersessions == s.supersessions
                 && t.continued == s.continued + [request.run]
  {
    RequestIsReadInOrder(s.force, request);
  }

  /**
   * In the review loop a request for another workflow ends this one as superseded if it names the suggestion under
   * review, and stays pending; one for this workflow is treated as everywhere else, and then the decision counts.
   */
  lemma ReviewLooksFirst(s: State, suggestion: int)
    requires s.control == AwaitingReview(suggestion) && s.force.Some?
    ensures var t, e, stuck := Step(s, Wake), s.force.value, s.(control := Stuck(s.control, Wake));
            if e.payload == None then t == stuck
            else if e.payload.value.replacementWorkflow != Some(s.request.workflowId) then
              t == if e.payload.value.suggestion == Some(suggestion) then s.(control := Projecting("superseded"))
                   else stuck
            else if e.payload.value.replacementRun == None then t == stuck
            else if AsksBeyond(e, s.request.workflowId, s.request.run) then Supersedes(s, t, s.request)
            else if s.decision == None then t == s.(force := None)
            else if t.control.Stuck? then t == stuck
            else t == Step(s.(force := None), Wake)
  {
    RequestIsReadInOrder(s.force, s.request);
  }

  /** Nothing else consumes a request, starts a supersession or continues as new. */
  lemma OnlyLooksConsume(s: State, ev: Event)
    requires !ev.ForceSignal? && !ev.RetryTask? && Next(s, ev) == None
    requires !(ev.ReadinessIs? && s.control == CheckingReadiness) && !(ev.Superseded? && s.control.Superseding?)
    requires !(ev.Wake? && s.control.AwaitingReview?)
    ensures var t := Step(s, ev);
            && t.force == s.force && t.request == s.request && t.consumed == s.consumed
            && t.supersessions == s.supersessions && t.continued == s.continued
            && t.ready == (s.ready || (ev.ReadySignal? && !s.control.Completed? && !s.control.Failed?))
  {
  }

  /** What is reported to the database is what the workflow then returns; a phase's failure is reported first. */
  lemma ReportsBeforeReturning(s: State, outcome: string)
    ensures s.control == Projecting(outcome) ==> Step(s, ActivityDone) == s.(control := Completed(outcome))
    ensures s.control.Committing? ==> Step(s, CommitDone) == s.(control := Projecting("committed"))
    ensures s.control == FailingDocument(false) ==> Step(s, ActivityDone) == s.(control := Failed)
    ensures s.control == FailingDocument(true) ==>
              Step(s, ActivityDone) == s.(control := Stuck(FailingDocument(true), ActivityDone))
  {
  }

  /** A task that raised is tried again from where it stood, with whatever has been signalled since. */
  lemma RetryRepeats(s: State)
    requires s.control.Stuck? && !s.control.at.Stuck?
    ensures Step(s, RetryTask) == Step(s.(control := s.control.at), s.control.cause)
  {
  }
}
