/** What the events around the gate read and write: the answer of a readiness check reaches its workflow, and who
    else writes runs and index rows (app/temporal/outbox.py, app/jobs/embedding_index.py, Laravel). */
module GateEvents {
  import opened Wrappers
  import opened GateWakeup
  import Gate = EmbeddingGate
  import Flow = DocumentWorkflow
  import Review = ReviewOutcome

  /** The routine takes up what the check found: it goes on, parks, ends, or turns to the review. */
  lemma AnswerIsObeyed(s: System, run: int)
    requires run in s.flows && s.flows[run].answer.Some?
    requires s.flows[run].state.control == Flow.CheckingReadiness && s.flows[run].state.force == None
    ensures run in Step(s, Answer(run)).flows
    ensures var f, answer := Step(s, Answer(run)).flows[run], s.flows[run].answer.value;
            && f.answer == None && f.state.request == s.flows[run].state.request
            && (f.state.control == Flow.LoadingConfiguration <==> answer == Gate.GateOpen)
            && (f.state.control == Flow.Parked <==> answer == Gate.GateClosed)
            && (f.state.control == Flow.Completed("completed") <==> answer == Gate.AlreadyFinished)
            && (f.state.control == Flow.Completed("cancelled") <==> answer == Gate.CancelledRun)
            && (answer.ReviewExists? ==>
                  Review.Answered(s.flows[run].state.decision, answer.suggestion, f.state.control))
  {
    Review.ReadinessIsObeyed(s.flows[run].state, Translate(s.flows[run].answer.value));
  }

  /** A workflow that has continued as new no longer works on the old run, which a new execution may then take up. */
  lemma ContinuedFlowLeaves(s: System, run: int, ev: Flow.Event)
    requires run in s.flows && !ev.ReadySignal? && !ev.ReadinessIs?
    ensures run in Step(s, Advance(run, ev)).flows
            <==> Flow.Step(s.flows[run].state, ev).request == s.flows[run].state.request
    ensures forall r :: r != run ==> (r in Step(s, Advance(run, ev)).flows <==> r in s.flows)
    ensures Step(s, Advance(run, ev)).db == s.db
  {
  }

  /** While a workflow stands at the gate its run is not marked; past it every status but "blocked" can be written,
      and a cancellation always. */
  lemma PhasesMarkTheirRun(s: System, run: int, status: Gate.RunStatus)
    ensures var t := Step(s, Mark(run, status));
            if && run in s.db.runs && run in s.flows && status != Gate.Blocked
               && Flow.Place(s.flows[run].state.control) !in {Flow.Parked, Flow.CheckingReadiness}
            then t == s.(db := s.db.(runs := s.db.runs[run := s.db.runs[run].(status := status)]))
            else t == s
    ensures var t := Step(s, CancelRun(run, status));
            if run in s.db.runs && (status == Gate.CancelRequested || status == Gate.Cancelled)
            then t == s.(db := s.db.(runs := s.db.runs[run := s.db.runs[run].(status := status)]))
            else t == s
  {
  }

  /** A start intent that is given up fails its run while that is pending, queued or blocked. */
  lemma DeadLetterFailsWaitingRun(s: System, run: int)
    ensures var t := Step(s, DeadLetterStart(run));
            if && run in s.db.runs && s.db.runs[run].temporal && s.db.runs[run].workflowId != None
               && (s.db.runs[run].status == Gate.Pending || s.db.runs[run].status == Gate.Queued
                   || s.db.runs[run].status == Gate.Blocked)
            then t == s.(db := s.db.(runs := s.db.runs[run :=
                           s.db.runs[run].(status := Gate.FailedRun, indexError := false)]))
            else t == s
  {
  }

  /** A generation's activities are the transactions of the gate, each as it is or without effect. */
  lemma GenerationsUseTheGate(s: System, p: Gate.Progress, command: int)
    ensures Step(s, Project(p)) == s.(db := if Gate.Projectable(s.db, p) then Gate.Projected(s.db, p) else s.db)
    ensures Step(s, Finish(p)) == s.(db := if Gate.Finishable(s.db, p) then Gate.Finished(s.db, p) else s.db)
    ensures Step(s, FailPreparation(command)) == s.(db := Gate.PreparationFailed(s.db, command))
    ensures Gate.Finishable(s.db, p) ==> Gate.FinishedRows(s.db, Step(s, Finish(p)).db, p)
  {
    if Gate.Finishable(s.db, p) {
      Gate.FinishedByRow(s.db, p);
    }
  }

  /** A build actor writes a new row only while no build runs, and later only that row. */
  lemma ActorWritesItsRow(s: System, build: int, row: Gate.BuildRow)
    ensures var t := Step(s, LegacyWrite(build, row));
            && (build !in s.db.builds ==>
                  (build in t.db.builds <==>
                     && row.status == Gate.Building
                     && forall b <- s.db.builds :: s.db.builds[b].status != Gate.Building))
            && (build !in s.db.builds && build in t.db.builds ==> t.db.builds[build] == row.(updatedAt := s.db.clock))
            && (build in s.db.builds ==>
                  t.db.builds[build]
                  == if row.command == s.db.builds[build].command && row.model == s.db.builds[build].model
                     then row.(updatedAt := s.db.clock) else s.db.builds[build])
            && (forall b <- s.db.builds :: b in t.db.builds && (b == build || t.db.builds[b] == s.db.builds[b]))
            && t.db.runs == s.db.runs && t.db.signals == s.db.signals && t.flows == s.flows
  {
  }

  /** Laravel frees an index-blocked run if its own model's index is complete, and asks for its workflow. */
  lemma LaravelReleases(s: System, run: int, laravelModel: string)
    ensures var t := Step(s, Release(run, laravelModel));
            if run in s.db.runs && Gate.IndexBlocked(s.db.runs[run]) && Gate.Ready(s.db.builds, laravelModel)
            then t == s.(db := s.db.(starts := s.db.starts + {run}, runs := s.db.runs[run :=
                           s.db.runs[run].(status := Gate.Pending, indexError := false)]))
            else t == s
  {
  }

  /** An administrator's retry takes a blocked, failed or cancelled run and asks the gate for its own model. */
  lemma LaravelRetries(s: System, run: int, laravelModel: string)
    ensures var t, open := Step(s, Retry(run, laravelModel)), Gate.Ready(s.db.builds, laravelModel);
            if && run in s.db.runs && s.db.runs[run].temporal && s.db.runs[run].workflowId != None
               && (s.db.runs[run].status == Gate.Blocked || s.db.runs[run].status == Gate.FailedRun
                   || s.db.runs[run].status == Gate.Cancelled)
            then t == s.(db := s.db.(runs := s.db.runs[run := s.db.runs[run].(
                           status := if open then Gate.Pending else Gate.Blocked, indexError := !open)]))
            else t == s
  {
  }

  /** A run is created once, and its workflow started for its own id while no other execution of that is open. */
  lemma RunsAndWorkflowsBegin(s: System, run: int, row: Gate.RunRow, request: Flow.Request)
    ensures run !in s.db.runs && run !in s.flows && (row.status != Gate.Blocked || row.indexError) ==>
              Step(s, InsertRun(run, row)) == s.(db := s.db.(runs := s.db.runs[run := row]))
    ensures var t := Step(s, StartFlow(request));
            && t.db == s.db
            && (request.run in t.flows && request.run !in s.flows <==>
                  && request.run !in s.flows && request.run in s.db.runs && s.db.runs[request.run].temporal
                  && s.db.runs[request.run].workflowId == Some(request.workflowId)
                  && forall r <- s.flows ::
                       s.flows[r].state.request.workflowId == request.workflowId ==>
                         s.flows[r].state.control.Completed? || s.flows[r].state.control == Flow.Failed)
            && (request.run in t.flows && request.run !in s.flows ==>
                  t.flows == s.flows[request.run := Parked(Flow.Initial(request), None)])
  {
  }
}
