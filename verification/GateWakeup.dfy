/** Document workflows parked at the gate, index generations that open it, and the
    ready signals between them: whether a parked workflow can be forgotten. */
module GateWakeup {
  import opened Wrappers
  import Gate = EmbeddingGate
  import Flow = DocumentWorkflow

  /** A workflow and the readiness result on its way back to it, if any. */
  datatype Parked = Parked(state: Flow.State, answer: Option<Gate.Readiness>)

  datatype System = System(db: Gate.Db, model: string, flows: map<int, Parked>)

  datatype Event =
    | InsertRun(newRun: int, row: Gate.RunRow)
    | StartFlow(request: Flow.Request)
    | Check(checked: int)                    // check_document_readiness commits
    | Answer(answered: int)                  // ... and its result reaches the workflow
    | Advance(advanced: int, ev: Flow.Event) // any other workflow transition or signal
    | DeliverSignal(key: Gate.SignalKey, target: int) // Temporal routes by workflow id, not by run
    | LoseSignal(lost: Gate.SignalKey)       // its intent ends as a dead letter
    | DeadLetterStart(failed: int)           // so does a start intent of the run
    | Mark(marked: int, status: Gate.RunStatus)  // phase activities of a run that is past the gate
    | CancelRun(cancelled: int, cancelledAs: Gate.RunStatus)
    | Prepare(command: int, build: int, buildModel: string)
    | Project(progress: Gate.Progress)
    | Finish(progress: Gate.Progress)
    | FailPreparation(failedCommand: int)
    | LegacyWrite(legacyBuild: int, index: Gate.BuildRow) // a build or reindex actor writes its index row
    | ChangeModel(newModel: string)                       // another embedding model is configured
    | Release(released: int, laravelModel: string)        // Laravel's recovery of blocked runs
    | Retry(retried: int, laravelModel: string)           // an administrator's retry of a run

  function Translate(r: Gate.Readiness): Flow.Readiness {
    match r
    case ReviewExists(suggestion) => Flow.Complete(Some(suggestion))
    case AlreadyFinished => Flow.Finished
    case CancelledRun => Flow.CancelledRun
    case GateOpen => Flow.Ready
    case GateClosed => Flow.Waiting
  }

  function Moved(s: System, run: int, t: Flow.State, answer: Option<Gate.Readiness>): System
    requires run in s.flows
  {
    if t.request != s.flows[run].state.request then s.(flows := s.flows - {run})  // continued as a newer generation
    else s.(flows := s.flows[run := Parked(t, answer)])
  }

  /** An execution of this workflow id that has not ended. */
  predicate OpenFlow(s: System, run: int, workflowId: string) {
    run in s.flows && !Flow.Over(s.flows[run].state) && s.flows[run].state.request.workflowId == workflowId
  }

  /** mark_failed on an exhausted start intent fails the run it names, if that has not begun. */
  predicate StartFails(s: System, run: int) {
    && run in s.db.runs && s.db.runs[run].temporal && s.db.runs[run].workflowId.Some?
    && s.db.runs[run].status in {Gate.Pending, Gate.Queued, Gate.Blocked}
  }

  predicate InFlight(db: Gate.Db, key: Gate.SignalKey) {
    key in db.signals && db.signals[key] == Gate.InFlight
  }

  predicate SameWorkflow(db: Gate.Db, a: int, b: int) {
    && a in db.runs && b in db.runs
    && db.runs[a].workflowId.Some? && db.runs[a].workflowId == db.runs[b].workflowId
  }

  predicate AtGate(f: Parked) {
    Flow.Place(f.state.control) == Flow.Parked || Flow.Place(f.state.control) == Flow.CheckingReadiness
  }

  /** start_embedding_index_build refuses while any build runs; the later writes go to the row it created. */
  predicate LegacyWritable(db: Gate.Db, build: int, row: Gate.BuildRow) {
    if build in db.builds then row.command == db.builds[build].command && row.model == db.builds[build].model
    else row.status == Gate.Building && forall b <- db.builds :: db.builds[b].status != Gate.Building
  }

  /** Laravel reads its own setting for the model. */
  predicate Releasable(db: Gate.Db, run: int, laravelModel: string) {
    run in db.runs && Gate.IndexBlocked(db.runs[run]) && Gate.Ready(db.builds, laravelModel)
  }

  predicate Retryable(db: Gate.Db, run: int) {
    && run in db.runs && db.runs[run].temporal && db.runs[run].workflowId.Some?
    && db.runs[run].status in {Gate.Blocked, Gate.FailedRun, Gate.Cancelled}
  }

  function Step(s: System, ev: Event): System {
    match ev
    case InsertRun(run, row) =>
      if run !in s.db.runs && run !in s.flows && (row.status == Gate.Blocked ==> row.indexError)
      then s.(db := s.db.(runs := s.db.runs[run := row])) else s
    case StartFlow(request) =>
      if request.run in s.db.runs && request.run !in s.flows && s.db.runs[request.run].temporal
         && s.db.runs[request.run].workflowId == Some(request.workflowId)
         && forall r <- s.flows :: !OpenFlow(s, r, request.workflowId)
      then s.(flows := s.flows[request.run := Parked(Flow.Initial(request), None)]) else s
    case Check(run) =>
      if run in s.flows && run in s.db.runs && s.flows[run].state.control == Flow.CheckingReadiness
      then s.(db := Gate.Checked(s.db, run, s.model),
              flows := s.flows[run := s.flows[run].(answer := Some(Gate.CheckResult(s.db, run, s.model)))])
      else s
    case Answer(run) =>
      if run in s.flows && s.flows[run].answer.Some?
      then Moved(s, run, Flow.Step(s.flows[run].state, Flow.ReadinessIs(Translate(s.flows[run].answer.value))), None)
      else s
    case Advance(run, step) =>
      if run in s.flows && !step.ReadySignal? && !step.ReadinessIs? then
        var was := s.flows[run];
        var now := Flow.Step(was.state, step);
        Moved(s, run, now, if now.control == was.state.control then was.answer else None)
      else s
    case DeliverSignal(key, target) =>
      if InFlight(s.db, key) && key.run in s.db.runs && s.db.runs[key.run].workflowId.Some?
         && OpenFlow(s, target, s.db.runs[key.run].workflowId.value)
      then s.(db := s.db.(signals := s.db.signals[key := Gate.Handled]),
              flows := s.flows[target := s.flows[target].(state := Flow.Step(s.flows[target].state, Flow.ReadySignal))])
      else s
    case LoseSignal(key) =>
      if InFlight(s.db, key) then s.(db := s.db.(signals := s.db.signals[key := Gate.Handled])) else s
    case DeadLetterStart(run) =>
      if StartFails(s, run)
      then
        var row := s.db.runs[run].(status := Gate.FailedRun, indexError := false);
        s.(db := s.db.(runs := s.db.runs[run := row]))
      else s
    case Mark(run, status) =>
      if run in s.db.runs && run in s.flows && !AtGate(s.flows[run]) && status != Gate.Blocked
      then s.(db := s.db.(runs := s.db.runs[run := s.db.runs[run].(status := status)])) else s
    case CancelRun(run, status) =>
      if run in s.db.runs && IsCancelled(status)
      then s.(db := s.db.(runs := s.db.runs[run := s.db.runs[run].(status := status)])) else s
    case Prepare(command, build, model) =>
      if Gate.Preparable(s.db, command)
         && (Gate.IsBuildOf(s.db.builds, build, command)
             || (build !in s.db.builds && forall b <- s.db.builds :: s.db.builds[b].command != Some(command)))
      then s.(db := Gate.Prepared(s.db, command, build, model)) else s
    case Project(p) => if Gate.Projectable(s.db, p) then s.(db := Gate.Projected(s.db, p)) else s
    case Finish(p) => if Gate.Finishable(s.db, p) then s.(db := Gate.Finished(s.db, p)) else s
    case FailPreparation(command) => s.(db := Gate.PreparationFailed(s.db, command))
    case LegacyWrite(build, row) =>
      if LegacyWritable(s.db, build, row)
      then s.(db := s.db.(builds := s.db.builds[build := row.(updatedAt := s.db.clock)], clock := s.db.clock + 1))
      else s
    case ChangeModel(model) => s.(model := model)
    case Release(run, laravelModel) =>
      if Releasable(s.db, run, laravelModel)
      then
        var row := s.db.runs[run].(status := Gate.Pending, indexError := false);
        s.(db := s.db.(runs := s.db.runs[run := row], starts := s.db.starts + {run}))
      else s
    case Retry(run, laravelModel) =>
      if Retryable(s.db, run)
      then
        var row := if Gate.Ready(s.db.builds, laravelModel)
                   then s.db.runs[run].(status := Gate.Pending, indexError := false)
                   else s.db.runs[run].(status := Gate.Blocked, indexError := true);
        s.(db := s.db.(runs := s.db.runs[run := row]))
      else s
  }

  function Run(s: System, evs: seq<Event>): System {
    if evs == [] then s else Step(Run(s, evs[..|evs| - 1]), evs[|evs| - 1])
  }

  // ---------- what must hold for a waiting workflow ----------

  /** Told to wait: parked, or about to park on a "waiting" result. */
  predicate WaitsAtGate(f: Parked) {
    || f.state.control == Flow.Parked
    || (f.state.control == Flow.CheckingReadiness && f.answer == Some(Gate.GateClosed))
    || f.state.control == TOLD_TO_WAIT
  }

  /** The workflow task that takes in the "waiting" result has failed on a malformed force request and is retried. */
  const TOLD_TO_WAIT := Flow.Stuck(Flow.CheckingReadiness, Flow.ReadinessIs(Flow.Waiting))

  /** A ready signal is on its way to the workflow that this run belongs to. */
  ghost predicate SignalInFlight(db: Gate.Db, run: int) {
    exists k :: InFlight(db, k) && SameWorkflow(db, k.run, run)
  }

  /** The workflow will look at the gate again. */
  ghost predicate WillWake(s: System, run: int)
    requires run in s.flows
  {
    s.flows[run].state.ready || SignalInFlight(s.db, run)
  }

  predicate IsCancelled(status: Gate.RunStatus) {
    status == Gate.CancelRequested || status == Gate.Cancelled
  }

  /** A waiting workflow that nothing will wake yet: only a finished generation can. */
  ghost predicate Depends(s: System, run: int)
    requires run in s.flows
  {
    && WaitsAtGate(s.flows[run]) && !WillWake(s, run)
    && run in s.db.runs && !IsCancelled(s.db.runs[run].status)
  }

  /** The next completed generation will find its run, and the gate is still closed. */
  ghost predicate NotForgotten(s: System, run: int)
    requires run in s.flows
  {
    Depends(s, run) ==> Gate.IndexBlocked(s.db.runs[run]) && !Gate.Ready(s.db.builds, s.model)
  }

  ghost predicate NoneForgotten(s: System) {
    forall run <- s.flows :: NotForgotten(s, run)
  }

  /** Temporal runs at most one execution of a workflow id at a time. */
  predicate OnePerWorkflow(s: System) {
    forall a <- s.flows, b <- s.flows ::
      !Flow.Over(s.flows[b].state) && OpenFlow(s, a, s.flows[b].state.request.workflowId) ==> a == b
  }

  /** Bookkeeping that every step keeps. */
  predicate Tidy(s: System) {
    && (forall b <- s.db.builds :: s.db.builds[b].updatedAt < s.db.clock)
    && (forall r <- s.flows :: r in s.db.runs && s.db.runs[r].temporal && s.db.runs[r].workflowId.Some?)
    && (forall r <- s.db.runs :: s.db.runs[r].status == Gate.Blocked ==> s.db.runs[r].indexError)
    && (forall r <- s.flows :: s.flows[r].state.request.run == r
                              && s.db.runs[r].workflowId == Some(s.flows[r].state.request.workflowId))
    && OnePerWorkflow(s)
    && (forall r <- s.flows :: s.flows[r].answer.Some? ==> s.flows[r].state.control == Flow.CheckingReadiness)
    && (forall r <- s.flows :: Flow.ParkSound(s.flows[r].state))
  }

  predicate Initial(s: System) {
    && s.flows == map[] && s.db.signals == map[]
    && (forall b <- s.db.builds :: s.db.builds[b].updatedAt < s.db.clock)
    && (forall r <- s.db.runs :: s.db.runs[r].status == Gate.Blocked ==> s.db.runs[r].indexError)
  }

  lemma MovedKeepsTidy(s: System, run: int, t: Flow.State, answer: Option<Gate.Readiness>)
    requires Tidy(s) && run in s.flows && (answer.Some? ==> t.control == Flow.CheckingReadiness)
    requires Flow.Over(s.flows[run].state) ==> Flow.Over(t)
    requires Flow.ParkSound(t)
    ensures Tidy(Moved(s, run, t, answer))
  {
  }

  lemma AnswerMoves(s: System, run: int)
    requires Tidy(s)
    ensures Tidy(Step(s, Answer(run)))
  {
    if run in s.flows && s.flows[run].answer.Some? {
      var f := s.flows[run];
      Flow.StepKeepsParkSound(f.state, Flow.ReadinessIs(Translate(f.answer.value)));
      MovedKeepsTidy(s, run, Flow.Step(f.state, Flow.ReadinessIs(Translate(f.answer.value))), None);
    }
  }

  lemma AdvanceMoves(s: System, run: int, step: Flow.Event)
    requires Tidy(s)
    ensures Tidy(Step(s, Advance(run, step)))
  {
    if run in s.flows && !step.ReadySignal? && !step.ReadinessIs? {
      var f := s.flows[run];
      var now := Flow.Step(f.state, step);
      Flow.StepKeepsParkSound(f.state, step);
      if Flow.Over(f.state) {
        Flow.OverStaysOver(f.state, step);
      }
      MovedKeepsTidy(s, run, now, if now.control == f.state.control then f.answer else None);
    }
  }

  lemma ReadyOnlySetsFlag(f: Flow.State)
    ensures Flow.Step(f, Flow.ReadySignal) == if Flow.Over(f) then f else f.(ready := true)
  {
  }

  lemma DeliveryKeepsTidy(s: System, key: Gate.SignalKey, target: int)
    requires Tidy(s)
    ensures Tidy(Step(s, DeliverSignal(key, target)))
  {
    if target in s.flows {
      ReadyOnlySetsFlag(s.flows[target].state);
    }
  }

  predicate IsBuildEvent(ev: Event) {
    ev.Prepare? || ev.Project? || ev.Finish? || ev.FailPreparation? || ev.LegacyWrite?
  }

  /** An update of the generations alone, none of them stamped later than the new clock. */
  lemma BuildsKeepTidy(s: System, t: System)
    requires Tidy(s) && t.flows == s.flows && t.model == s.model && t.db.runs == s.db.runs
    requires forall b <- t.db.builds :: t.db.builds[b].updatedAt < t.db.clock
    ensures Tidy(t)
  {
  }

  lemma FinishKeepsTidy(s: System, p: Gate.Progress)
    requires Tidy(s)
    ensures Tidy(Step(s, Finish(p)))
  {
    if Gate.Finishable(s.db, p) {
      var t := Step(s, Finish(p));
      assert forall b <- t.db.builds :: t.db.builds[b].updatedAt < t.db.clock;
      forall r <- s.db.runs
        ensures r in t.db.runs && (t.db.runs[r] == s.db.runs[r] || t.db.runs[r] == Gate.Queue(s.db.runs[r])) {}
      RunsKeepTidy(s, t);
    }
  }

  /** An update of run rows that leaves ownership and identity alone and blocks nothing without the index error. */
  lemma RunsKeepTidy(s: System, t: System)
    requires Tidy(s) && t.flows == s.flows && t.db.runs.Keys >= s.db.runs.Keys
    requires forall b <- t.db.builds :: t.db.builds[b].updatedAt < t.db.clock
    requires forall r <- s.db.runs ::
               t.db.runs[r].temporal == s.db.runs[r].temporal && t.db.runs[r].workflowId == s.db.runs[r].workflowId
    requires forall r <- t.db.runs :: t.db.runs[r].status == Gate.Blocked ==> t.db.runs[r].indexError
    ensures Tidy(t)
  {
  }

  lemma WriteKeepsTidy(s: System, ev: Event)
    requires Tidy(s) && (ev.Prepare? || ev.Project? || ev.LegacyWrite?)
    ensures Tidy(Step(s, ev))
  {
    var t := Step(s, ev);
    assert forall b <- t.db.builds :: t.db.builds[b].updatedAt < t.db.clock;
    BuildsKeepTidy(s, t);
  }

  lemma FailureKeepsTidy(s: System, command: int)
    requires Tidy(s)
    ensures Tidy(Step(s, FailPreparation(command)))
  {
    var t := Step(s, FailPreparation(command));
    assert forall b <- t.db.builds :: t.db.builds[b].updatedAt < t.db.clock;
    BuildsKeepTidy(s, t);
  }

  lemma BuildStepKeepsTidy(s: System, ev: Event)
    requires Tidy(s) && IsBuildEvent(ev)
    ensures Tidy(Step(s, ev))
  {
    match ev
    case Finish(p) => FinishKeepsTidy(s, p);
    case FailPreparation(command) => FailureKeepsTidy(s, command);
    case _ => WriteKeepsTidy(s, ev);
  }

  lemma StartKeepsTidy(s: System, request: Flow.Request)
    requires Tidy(s)
    ensures Tidy(Step(s, StartFlow(request)))
  {
  }

  lemma InsertKeepsTidy(s: System, run: int, row: Gate.RunRow)
    requires Tidy(s)
    ensures Tidy(Step(s, InsertRun(run, row)))
  {
    var t := Step(s, InsertRun(run, row));
    if t != s {
      RunsKeepTidy(s, t);
    }
  }

  /** One run's status changes, to blocked only with the index error. */
  lemma StatusKeepsTidy(s: System, run: int, row: Gate.RunRow)
    requires Tidy(s) && run in s.db.runs
    requires row.temporal == s.db.runs[run].temporal && row.workflowId == s.db.runs[run].workflowId
    requires row.status == Gate.Blocked ==> row.indexError
    ensures Tidy(s.(db := s.db.(runs := s.db.runs[run := row])))
  {
    RunsKeepTidy(s, s.(db := s.db.(runs := s.db.runs[run := row])));
  }

  lemma RowStepKeepsTidy(s: System, ev: Event)
    requires Tidy(s)
    requires ev.CancelRun? || ev.DeadLetterStart? || ev.Retry? || (ev.Mark? && ev.status != Gate.Blocked)
    ensures Tidy(Step(s, ev))
  {
    var t := Step(s, ev);
    if t != s {
      var run := if ev.Mark? then ev.marked else if ev.CancelRun? then ev.cancelled
                 else if ev.Retry? then ev.retried else ev.failed;
      StatusKeepsTidy(s, run, t.db.runs[run]);
      assert t == s.(db := s.db.(runs := s.db.runs[run := t.db.runs[run]]));
    }
  }

  lemma ReleaseKeepsTidy(s: System, ev: Event)
    requires Tidy(s) && ev.Release?
    ensures Tidy(Step(s, ev))
  {
    if Step(s, ev) != s {
      RunsKeepTidy(s, Step(s, ev));
    }
  }

  lemma LossKeepsTidy(s: System, key: Gate.SignalKey)
    requires Tidy(s)
    ensures Tidy(Step(s, LoseSignal(key)))
  {
    RunsKeepTidy(s, Step(s, LoseSignal(key)));
  }

  lemma CheckKeepsTidy(s: System, run: int)
    requires Tidy(s)
    ensures Tidy(Step(s, Check(run)))
  {
    var t := Step(s, Check(run));
    if t != s {
      CheckedWrites(s.db, run, s.model);
      var rows := s.(db := t.db);
      RunsKeepTidy(s, rows);
      AnswerKeepsTidy(rows, run, Some(Gate.CheckResult(s.db, run, s.model)));
    }
  }

  lemma AnswerKeepsTidy(s: System, run: int, answer: Option<Gate.Readiness>)
    requires Tidy(s) && run in s.flows && s.flows[run].state.control == Flow.CheckingReadiness
    ensures Tidy(s.(flows := s.flows[run := s.flows[run].(answer := answer)]))
  {
  }

  lemma StepKeepsTidy(s: System, ev: Event)
    requires Tidy(s)
    ensures Tidy(Step(s, ev))
  {
    match ev
    case Answer(run) => AnswerMoves(s, run);
    case Advance(run, step) => AdvanceMoves(s, run, step);
    case DeliverSignal(key, target) => DeliveryKeepsTidy(s, key, target);
    case StartFlow(request) => StartKeepsTidy(s, request);
    case Check(run) => CheckKeepsTidy(s, run);
    case Prepare(_, _, _) => BuildStepKeepsTidy(s, ev);
    case Project(_) => BuildStepKeepsTidy(s, ev);
    case Finish(_) => BuildStepKeepsTidy(s, ev);
    case FailPreparation(_) => BuildStepKeepsTidy(s, ev);
    case LegacyWrite(_, _) => BuildStepKeepsTidy(s, ev);
    case ChangeModel(_) =>
    case Release(run, _) => ReleaseKeepsTidy(s, ev);
    case InsertRun(run, row) => InsertKeepsTidy(s, run, row);
    case LoseSignal(key) => LossKeepsTidy(s, key);
    case Mark(_, status) => if status != Gate.Blocked { RowStepKeepsTidy(s, ev); }
    case _ => RowStepKeepsTidy(s, ev);
  }

  /** An update that only touches generations, stamping them last and not complete or of
      another model, cannot open a closed gate. */
  lemma StaysClosed(before: map<int, Gate.BuildRow>, after: map<int, Gate.BuildRow>, clock: nat, model: string)
    requires forall b <- before :: b in after && before[b].updatedAt < clock && after[b].model == before[b].model
    requires forall b <- after ::
               || (b in before && after[b] == before[b])
               || (after[b].updatedAt == clock && (after[b].status != Gate.Complete || after[b].model != model))
    ensures Gate.Ready(after, model) ==> Gate.Ready(before, model)
  {
    if Gate.Ready(after, model) {
      var b :| b in after && Gate.IsLatest(after, b, model) && after[b].status == Gate.Complete;
      forall a <- before | before[a].model == model ensures Gate.NotNewerThan(before, a, b) {
        assert Gate.NotNewerThan(after, a, b);
      }
      assert Gate.IsLatest(before, b, model);
    }
  }

  // ---------- one step ----------

  predicate ToldToWait(c: Flow.Control) {
    c == Flow.Parked || c == TOLD_TO_WAIT
  }

  /** How a step that is no ready signal can lead to a waiting workflow. */
  predicate WaitsOnlyBy(f: Flow.State, ev: Flow.Event, t: Flow.State) {
    && (ToldToWait(t.control) ==>
          && t.ready == f.ready
          && (ToldToWait(f.control)
              || (f.control == Flow.CheckingReadiness && ev == Flow.ReadinessIs(Flow.Waiting))))
    && (t.control == Flow.CheckingReadiness && f.control == Flow.CheckingReadiness ==> t.ready == f.ready)
  }

  predicate WaitsOnlyByIf(f: Flow.State, ev: Flow.Event, t: Option<Flow.State>) {
    t.Some? ==> WaitsOnlyBy(f, ev, t.value)
  }

  lemma LookAtGate(f: Flow.State, ev: Flow.Event)
    requires ev.ReadinessIs? || ev.Wake? || ev.Superseded?
    ensures WaitsOnlyByIf(f, ev, Flow.Transition(f, ev))
  {
  }

  lemma RoutineAtGate(f: Flow.State, ev: Flow.Event)
    requires !ev.ReadySignal? && !ev.ReadinessIs? && !ev.Wake? && !ev.Superseded?
    ensures WaitsOnlyByIf(f, ev, Flow.Transition(f, ev))
  {
  }

  lemma TransitionAtGate(f: Flow.State, ev: Flow.Event)
    requires !ev.ReadySignal?
    ensures WaitsOnlyByIf(f, ev, Flow.Transition(f, ev))
  {
    if ev.ReadinessIs? || ev.Wake? || ev.Superseded? { LookAtGate(f, ev); } else { RoutineAtGate(f, ev); }
  }

  lemma RetryAtGate(f: Flow.State)
    requires Flow.ParkSound(f) && f.control.Stuck?
    ensures WaitsOnlyBy(f, Flow.RetryTask, Flow.Step(f, Flow.RetryTask))
  {
    TransitionAtGate(f.(control := f.control.at), f.control.cause);
  }

  /** A workflow is told to wait by a "waiting" result only, and nothing but the ready signal changes the ready
      flag of one that waits. */
  lemma FlowStepAtGate(f: Flow.State, ev: Flow.Event)
    requires !ev.ReadySignal? && Flow.ParkSound(f)
    ensures WaitsOnlyBy(f, ev, Flow.Step(f, ev))
  {
    if ev.RetryTask? && f.control.Stuck? { RetryAtGate(f); } else { TransitionAtGate(f, ev); }
  }

  /** A workflow moves by a transition that is no ready signal and parks only on a "waiting" answer. */
  lemma MoveForgetsNobody(s: System, run: int, t: Flow.State, answer: Option<Gate.Readiness>)
    requires Tidy(s) && NoneForgotten(s) && run in s.flows
    requires WaitsAtGate(Parked(t, answer)) ==> WaitsAtGate(s.flows[run]) && t.ready == s.flows[run].state.ready
    ensures NoneForgotten(Moved(s, run, t, answer))
  {
    var after := Moved(s, run, t, answer);
    forall r <- after.flows ensures NotForgotten(after, r) {
      assert r in s.flows && NotForgotten(s, r);
    }
  }

  /** ... as every step that is no ready signal does. */
  lemma StepMovesOn(s: System, run: int, step: Flow.Event, t: Flow.State, answer: Option<Gate.Readiness>)
    requires Tidy(s) && NoneForgotten(s) && run in s.flows && WaitsOnlyBy(s.flows[run].state, step, t)
    requires step == Flow.ReadinessIs(Flow.Waiting) ==> s.flows[run].answer == Some(Gate.GateClosed)
    requires answer == None || (answer == s.flows[run].answer && t.control == s.flows[run].state.control)
    ensures NoneForgotten(Moved(s, run, t, answer))
  {
    MoveForgetsNobody(s, run, t, answer);
  }

  lemma AnswerIsMove(s: System, run: int) returns (t: Flow.State)
    requires Tidy(s) && run in s.flows && s.flows[run].answer.Some?
    ensures Step(s, Answer(run)) == Moved(s, run, t, None)
    ensures WaitsOnlyBy(s.flows[run].state, Flow.ReadinessIs(Translate(s.flows[run].answer.value)), t)
  {
    var f := s.flows[run];
    t := Flow.Step(f.state, Flow.ReadinessIs(Translate(f.answer.value)));
    FlowStepAtGate(f.state, Flow.ReadinessIs(Translate(f.answer.value)));
  }

  lemma AnswerForgetsNobody(s: System, run: int)
    requires Tidy(s) && NoneForgotten(s)
    ensures NoneForgotten(Step(s, Answer(run)))
  {
    if run in s.flows && s.flows[run].answer.Some? {
      var t := AnswerIsMove(s, run);
      StepMovesOn(s, run, Flow.ReadinessIs(Translate(s.flows[run].answer.value)), t, None);
    }
  }

  lemma AdvanceIsMove(s: System, run: int, step: Flow.Event) returns (t: Flow.State, answer: Option<Gate.Readiness>)
    requires Tidy(s) && run in s.flows && !step.ReadySignal? && !step.ReadinessIs?
    ensures Step(s, Advance(run, step)) == Moved(s, run, t, answer)
    ensures WaitsOnlyBy(s.flows[run].state, step, t)
    ensures answer == None || (answer == s.flows[run].answer && t.control == s.flows[run].state.control)
  {
    var f := s.flows[run];
    t := Flow.Step(f.state, step);
    answer := if t.control == f.state.control then f.answer else None;
    FlowStepAtGate(f.state, step);
  }

  lemma AdvanceForgetsNobody(s: System, run: int, step: Flow.Event)
    requires Tidy(s) && NoneForgotten(s)
    ensures NoneForgotten(Step(s, Advance(run, step)))
  {
    if run in s.flows && !step.ReadySignal? && !step.ReadinessIs? {
      var t, answer := AdvanceIsMove(s, run, step);
      StepMovesOn(s, run, step, t, answer);
    }
  }

  lemma SignalHasOneTarget(s: System, key: Gate.SignalKey, target: int, run: int)
    requires Tidy(s) && key.run in s.db.runs && s.db.runs[key.run].workflowId.Some?
    requires OpenFlow(s, target, s.db.runs[key.run].workflowId.value)
    requires run in s.flows && run != target && !Flow.Over(s.flows[run].state)
    ensures !SameWorkflow(s.db, key.run, run)
  {
  }

  /** The workflow that takes a signal is the only one the signal could have woken. */
  lemma DeliveryForgetsNobody(s: System, key: Gate.SignalKey, target: int)
    requires Tidy(s) && NoneForgotten(s)
    ensures NoneForgotten(Step(s, DeliverSignal(key, target)))
  {
    var t := Step(s, DeliverSignal(key, target));
    if t != s {
      ReadyOnlySetsFlag(s.flows[target].state);
      forall run <- t.flows ensures NotForgotten(t, run) {
        assert NotForgotten(s, run);
        if run != target && Depends(t, run) && SignalInFlight(s.db, run) {
          var k :| InFlight(s.db, k) && SameWorkflow(s.db, k.run, run);
          SignalHasOneTarget(s, key, target, run);
          assert InFlight(t.db, k) && SameWorkflow(t.db, k.run, run);
        }
      }
    }
  }

  lemma SignalsStay(s: System, t: System, run: int)
    requires forall k :: InFlight(s.db, k) ==> InFlight(t.db, k)
    requires forall r <- s.db.runs :: r in t.db.runs && t.db.runs[r].workflowId == s.db.runs[r].workflowId
    ensures SignalInFlight(s.db, run) ==> SignalInFlight(t.db, run)
  {
    if SignalInFlight(s.db, run) {
      var k :| InFlight(s.db, k) && SameWorkflow(s.db, k.run, run);
      assert InFlight(t.db, k) && SameWorkflow(t.db, k.run, run);
    }
  }

  lemma InsertForgetsNobody(s: System, ev: Event)
    requires Tidy(s) && NoneForgotten(s) && (ev.InsertRun? || ev.StartFlow?)
    ensures NoneForgotten(Step(s, ev))
  {
    var t := Step(s, ev);
    forall run <- t.flows ensures NotForgotten(t, run) {
      if run in s.flows { assert NotForgotten(s, run); }
      SignalsStay(s, t, run);
    }
  }

  lemma RunEventForgetsNobody(s: System, ev: Event)
    requires Tidy(s) && NoneForgotten(s) && (ev.Mark? || ev.CancelRun?)
    ensures NoneForgotten(Step(s, ev))
  {
    var t := Step(s, ev);
    forall run <- t.flows ensures NotForgotten(t, run) {
      assert NotForgotten(s, run);
      SignalsStay(s, t, run);
    }
  }

  /** What a readiness check writes: nothing but the status of its own run, which a closed gate leaves blocked. */
  lemma CheckedWrites(db: Gate.Db, run: int, model: string)
    requires run in db.runs && db.runs[run].temporal && db.runs[run].workflowId.Some?
    requires db.runs[run].status == Gate.Blocked ==> db.runs[run].indexError
    ensures var after := Gate.Checked(db, run, model);
            && after == db.(runs := db.runs[run := after.runs[run]])
            && after.runs[run].workflowId == db.runs[run].workflowId
            && after.runs[run].temporal
            && (after.runs[run].status == Gate.Blocked ==> after.runs[run].indexError)
            && (Gate.CheckResult(db, run, model) == Gate.GateClosed ==>
                  Gate.IndexBlocked(after.runs[run]) && !Gate.Ready(db.builds, model))
  {
    assert db.runs[run := db.runs[run]] == db.runs;
  }

  lemma CheckForgetsNobody(s: System, checked: int)
    requires Tidy(s) && NoneForgotten(s)
    ensures NoneForgotten(Step(s, Check(checked)))
  {
    var t := Step(s, Check(checked));
    if t != s {
      CheckedWrites(s.db, checked, s.model);
      forall run <- t.flows ensures NotForgotten(t, run) {
        assert NotForgotten(s, run);
        SignalsStay(s, t, run);
      }
    }
  }

  /** An index event that leaves signals and runs alone and cannot open the gate. */
  lemma IndexEventForgetsNobody(s: System, t: System)
    requires Tidy(s) && NoneForgotten(s)
    requires t.flows == s.flows && t.model == s.model && t.db.runs == s.db.runs && t.db.signals == s.db.signals
    requires !Gate.Ready(s.db.builds, s.model) ==> !Gate.Ready(t.db.builds, s.model)
    ensures NoneForgotten(t)
  {
    forall run <- t.flows ensures NotForgotten(t, run) {
      assert NotForgotten(s, run);
      SignalsStay(s, t, run);
    }
  }

  predicate Completes(s: System, ev: Event) {
    ev.Finish? && Gate.Finishable(s.db, ev.progress) && ev.progress.failed == 0
  }

  /** A generation of the gate's model that is projected after it completed: its stamp makes it the latest. */
  predicate Reopens(s: System, ev: Event) {
    && ev.Project? && Gate.Projectable(s.db, ev.progress)
    && s.db.builds[ev.progress.build].model == s.model && s.db.builds[ev.progress.build].status == Gate.Complete
  }

  /** A build actor completes its row: the gate opens and no Temporal run is released. */
  predicate LegacyCompletes(s: System, ev: Event) {
    && ev.LegacyWrite? && LegacyWritable(s.db, ev.legacyBuild, ev.index)
    && ev.index.status == Gate.Complete && ev.index.model == s.model
  }

  /** The events that can open the gate without releasing anybody. */
  predicate OpensGate(s: System, ev: Event) {
    || Reopens(s, ev)
    || LegacyCompletes(s, ev)
    || (ev.ChangeModel? && Gate.Ready(s.db.builds, ev.newModel))
  }

  lemma GateStaysClosed(s: System, ev: Event)
    requires Tidy(s) && IsBuildEvent(ev) && !OpensGate(s, ev) && !Completes(s, ev)
    ensures Gate.Ready(Step(s, ev).db.builds, s.model) ==> Gate.Ready(s.db.builds, s.model)
  {
    match ev
    case Project(p) =>
      if Gate.Projectable(s.db, p) { ProjectionKeepsClosed(s, p); }
    case Prepare(_, _, _) => StampKeepsClosed(s, ev);
    case LegacyWrite(_, _) => StampKeepsClosed(s, ev);
    case _ => FailureKeepsClosed(s, ev);
  }

  lemma StampKeepsClosed(s: System, ev: Event)
    requires Tidy(s) && (ev.Prepare? || ev.LegacyWrite?) && !OpensGate(s, ev)
    ensures Gate.Ready(Step(s, ev).db.builds, s.model) ==> Gate.Ready(s.db.builds, s.model)
  {
    StaysClosed(s.db.builds, Step(s, ev).db.builds, s.db.clock, s.model);
  }

  lemma FailureKeepsClosed(s: System, ev: Event)
    requires Tidy(s) && (ev.FailPreparation? || ev.Finish?) && !Completes(s, ev)
    ensures Gate.Ready(Step(s, ev).db.builds, s.model) ==> Gate.Ready(s.db.builds, s.model)
  {
    StaysClosed(s.db.builds, Step(s, ev).db.builds, s.db.clock, s.model);
  }

  lemma ProjectionKeepsClosed(s: System, p: Gate.Progress)
    requires Tidy(s) && Gate.Projectable(s.db, p) && !Reopens(s, Project(p))
    ensures Gate.Ready(Gate.Projected(s.db, p).builds, s.model) ==> Gate.Ready(s.db.builds, s.model)
  {
    var before, after := s.db.builds, Gate.Projected(s.db, p).builds;
    if Gate.Ready(after, s.model) {
      var b :| b in after && Gate.IsLatest(after, b, s.model) && after[b].status == Gate.Complete;
      assert b != p.build;
      forall a <- before | before[a].model == s.model ensures Gate.NotNewerThan(before, a, b) {
        assert Gate.NotNewerThan(after, a, b);
      }
      assert Gate.IsLatest(before, b, s.model);
    }
  }

  lemma BuildEventTouchesIndexOnly(s: System, ev: Event)
    requires IsBuildEvent(ev) && !Completes(s, ev)
    ensures var t := Step(s, ev);
            t.flows == s.flows && t.model == s.model && t.db.runs == s.db.runs && t.db.signals == s.db.signals
  {
  }

  lemma BuildEventForgetsNobody(s: System, ev: Event)
    requires Tidy(s) && NoneForgotten(s) && IsBuildEvent(ev) && !OpensGate(s, ev) && !Completes(s, ev)
    ensures NoneForgotten(Step(s, ev))
  {
    GateStaysClosed(s, ev);
    BuildEventTouchesIndexOnly(s, ev);
    IndexEventForgetsNobody(s, Step(s, ev));
  }

  // ---------- the events that can forget a workflow, and exactly when they do ----------

  /** Another ready signal than this one is on its way to the run's workflow. */
  ghost predicate OtherSignal(s: System, key: Gate.SignalKey, run: int) {
    exists k :: k != key && InFlight(s.db, k) && SameWorkflow(s.db, k.run, run)
  }

  /** No waiting workflow depends on this finish unless one of its runs gets a signal for the build. */
  ghost predicate FreshRelease(s: System, build: int) {
    forall run <- s.flows :: Depends(s, run) ==> GetsSignal(s, build, run)
  }

  /** Some blocked run of the workflow has no signal intent for this build yet. */
  ghost predicate GetsSignal(s: System, build: int, run: int) {
    exists r :: r in Gate.BlockedRuns(s.db.runs) && SameWorkflow(s.db, r, run)
                && Gate.SignalKey(r, build) !in s.db.signals
  }

  ghost predicate NobodyDepends(s: System) {
    forall run <- s.flows :: !Depends(s, run)
  }

  /** What has to hold before an event so that it forgets nobody. */
  ghost predicate Harmless(s: System, ev: Event) {
    match ev
    case Finish(p) => Completes(s, ev) ==> FreshRelease(s, p.build)
    case Project(_) => OpensGate(s, ev) ==> NobodyDepends(s)
    case LegacyWrite(_, _) => OpensGate(s, ev) ==> NobodyDepends(s)
    case ChangeModel(_) => OpensGate(s, ev) ==> NobodyDepends(s)
    case DeadLetterStart(run) => StartFails(s, run) && run in s.flows ==> !Depends(s, run)
    case Release(run, laravelModel) => Releasable(s.db, run, laravelModel) && run in s.flows ==> !Depends(s, run)
    case Retry(run, laravelModel) =>
      Retryable(s.db, run) && run in s.flows && WaitsAtGate(s.flows[run]) && !WillWake(s, run) ==>
        !Gate.Ready(s.db.builds, laravelModel) && !Gate.Ready(s.db.builds, s.model)
    case LoseSignal(key) =>
      InFlight(s.db, key) ==>
        forall run <- s.flows | WaitsAtGate(s.flows[run]) && SameWorkflow(s.db, key.run, run) ::
          || s.flows[run].state.ready || OtherSignal(s, key, run) || IsCancelled(s.db.runs[run].status)
          || (Gate.IndexBlocked(s.db.runs[run]) && !Gate.Ready(s.db.builds, s.model))
    case _ => true
  }

  /** A successful finish leaves no index-blocked Temporal run, and each one it found
      has a start intent and a ready-signal intent for this build. */
  lemma FinishReleasesEveryBlockedRun(db: Gate.Db, p: Gate.Progress)
    requires Gate.Finishable(db, p) && p.failed == 0
    ensures var after := Gate.Finished(db, p);
            && Gate.BlockedRuns(after.runs) == {}
            && Gate.BlockedRuns(db.runs) <= after.starts
            && forall r <- Gate.BlockedRuns(db.runs) ::
                 && after.runs[r].status == Gate.Queued
                 && Gate.SignalKey(r, p.build) in after.signals
                 && (Gate.SignalKey(r, p.build) !in db.signals ==>
                       after.signals[Gate.SignalKey(r, p.build)] == Gate.InFlight)
  {
    var after := Gate.Finished(db, p);
    assert forall r <- after.runs :: !Gate.IndexBlocked(after.runs[r]);
    forall r <- Gate.BlockedRuns(db.runs)
      ensures Gate.SignalKey(r, p.build) in Gate.SignalKeys(Gate.BlockedRuns(db.runs), p.build) {}
  }

  /** The signals in flight after a successful finish: the old ones and the new ones it inserted. */
  lemma FinishedSignals(db: Gate.Db, p: Gate.Progress, k: Gate.SignalKey)
    requires Gate.Finishable(db, p) && p.failed == 0
    ensures InFlight(Gate.Finished(db, p), k)
            <==> InFlight(db, k) || (k !in db.signals && k.build == p.build && k.run in Gate.BlockedRuns(db.runs))
  {
    if k.run in Gate.BlockedRuns(db.runs) && k.build == p.build {
      assert k == Gate.SignalKey(k.run, p.build) && k in Gate.SignalKeys(Gate.BlockedRuns(db.runs), p.build);
    }
  }

  lemma FinishedRuns(s: System, p: Gate.Progress, r: int)
    requires Gate.Finishable(s.db, p) && p.failed == 0 && r in s.db.runs
    ensures var after := Gate.Finished(s.db, p);
            && r in after.runs
            && after.runs.Keys == s.db.runs.Keys
            && after.runs[r] == if Gate.IndexBlocked(s.db.runs[r]) then Gate.Queue(s.db.runs[r]) else s.db.runs[r]
  {
  }

  /** Who will wake after a successful finish. */
  lemma WakesAfterFinish(s: System, p: Gate.Progress, run: int)
    requires Tidy(s) && Completes(s, Finish(p)) && run in s.flows
    ensures WillWake(Step(s, Finish(p)), run) <==> WillWake(s, run) || GetsSignal(s, p.build, run)
  {
    var t := Step(s, Finish(p));
    forall r <- s.db.runs ensures r in t.db.runs && t.db.runs[r].workflowId == s.db.runs[r].workflowId {
      FinishedRuns(s, p, r);
    }
    forall k ensures InFlight(t.db, k)
                     <==> InFlight(s.db, k)
                          || (k !in s.db.signals && k.build == p.build && k.run in Gate.BlockedRuns(s.db.runs))
    {
      FinishedSignals(s.db, p, k);
    }
    assert t.db.runs.Keys == s.db.runs.Keys;
    SignalsStay(s, t, run);
    if GetsSignal(s, p.build, run) {
      var r :| r in Gate.BlockedRuns(s.db.runs) && SameWorkflow(s.db, r, run)
               && Gate.SignalKey(r, p.build) !in s.db.signals;
      assert InFlight(t.db, Gate.SignalKey(r, p.build)) && SameWorkflow(t.db, Gate.SignalKey(r, p.build).run, run);
    }
    if SignalInFlight(t.db, run) && !SignalInFlight(s.db, run) {
      var k :| InFlight(t.db, k) && SameWorkflow(t.db, k.run, run);
      assert SameWorkflow(s.db, k.run, run) && k == Gate.SignalKey(k.run, p.build);
    }
  }

  lemma FinishForgetsNobodyIffFresh(s: System, p: Gate.Progress)
    requires Tidy(s) && NoneForgotten(s) && Completes(s, Finish(p))
    ensures NoneForgotten(Step(s, Finish(p))) <==> FreshRelease(s, p.build)
  {
    var t := Step(s, Finish(p));
    forall run <- s.flows ensures NotForgotten(t, run) <==> (Depends(s, run) ==> GetsSignal(s, p.build, run)) {
      assert NotForgotten(s, run);
      FinishForgetsRunIff(s, p, run);
    }
  }

  lemma FinishKeepsFlows(s: System, p: Gate.Progress)
    ensures Step(s, Finish(p)).flows == s.flows && Step(s, Finish(p)).model == s.model
  {
  }

  lemma FinishForgetsRunIff(s: System, p: Gate.Progress, run: int)
    requires Tidy(s) && run in s.flows && NotForgotten(s, run) && Completes(s, Finish(p))
    ensures run in Step(s, Finish(p)).flows
    ensures NotForgotten(Step(s, Finish(p)), run) <==> (Depends(s, run) ==> GetsSignal(s, p.build, run))
  {
    FinishKeepsFlows(s, p);
    FinishedRuns(s, p, run);
    WakesAfterFinish(s, p, run);
    var t := Step(s, Finish(p));
    assert !Gate.IndexBlocked(t.db.runs[run]);
    assert IsCancelled(t.db.runs[run].status) == IsCancelled(s.db.runs[run].status);
    assert Depends(t, run) <==> Depends(s, run) && !GetsSignal(s, p.build, run);
  }

  /** Whatever opens the gate without touching runs and signals forgets the workflows that depend on a finish. */
  lemma OpeningForgetsNobodyIff(s: System, t: System)
    requires Tidy(s) && NoneForgotten(s)
    requires t.flows == s.flows && t.db.runs == s.db.runs && t.db.signals == s.db.signals
    requires Gate.Ready(t.db.builds, t.model)
    ensures NoneForgotten(t) <==> NobodyDepends(s)
  {
    forall run <- s.flows ensures NotForgotten(t, run) <==> !Depends(s, run) {
      SignalsStay(s, t, run);
      SignalsStay(t, s, run);
    }
  }

  lemma LatestIsReady(builds: map<int, Gate.BuildRow>, b: int, model: string)
    requires b in builds && builds[b].model == model && builds[b].status == Gate.Complete
    requires forall a <- builds :: a != b ==> builds[a].updatedAt < builds[b].updatedAt
    ensures Gate.Ready(builds, model)
  {
    assert Gate.IsLatest(builds, b, model) by {
      forall a <- builds | builds[a].model == model ensures Gate.NotNewerThan(builds, a, b) {}
    }
  }

  /** A late projection of a completed generation opens the gate without releasing anybody. */
  lemma LateProjectionForgetsNobodyIff(s: System, p: Gate.Progress)
    requires Tidy(s) && NoneForgotten(s) && Reopens(s, Project(p))
    ensures NoneForgotten(Step(s, Project(p))) <==> NobodyDepends(s)
  {
    LatestIsReady(Step(s, Project(p)).db.builds, p.build, s.model);
    OpeningForgetsNobodyIff(s, Step(s, Project(p)));
  }

  /** So does the completion of a build by an actor, which signals no workflow. */
  lemma LegacyBuildForgetsNobodyIff(s: System, ev: Event)
    requires Tidy(s) && NoneForgotten(s) && LegacyCompletes(s, ev)
    ensures NoneForgotten(Step(s, ev)) <==> NobodyDepends(s)
  {
    LatestIsReady(Step(s, ev).db.builds, ev.legacyBuild, s.model);
    OpeningForgetsNobodyIff(s, Step(s, ev));
  }

  /** Another configured model forgets exactly the dependent workflows, if its index is complete. */
  lemma ModelChangeForgetsNobodyIff(s: System, model: string)
    requires Tidy(s) && NoneForgotten(s)
    ensures NoneForgotten(Step(s, ChangeModel(model))) <==> (Gate.Ready(s.db.builds, model) ==> NobodyDepends(s))
  {
    var t := Step(s, ChangeModel(model));
    if Gate.Ready(s.db.builds, model) {
      OpeningForgetsNobodyIff(s, t);
    } else {
      forall run <- t.flows ensures NotForgotten(t, run) {
        assert NotForgotten(s, run);
        SignalsStay(t, s, run);
      }
    }
  }

  /** One run's row changes, but neither its workflow id nor any signal: who will wake stays the same. */
  lemma RowChange(s: System, t: System, changed: int, run: int)
    requires t.flows == s.flows && t.db.signals == s.db.signals && run in s.flows
    requires t.db.runs.Keys == s.db.runs.Keys && changed in s.db.runs
    requires t.db.runs[changed].workflowId == s.db.runs[changed].workflowId
    requires forall r <- s.db.runs :: r != changed ==> t.db.runs[r] == s.db.runs[r]
    ensures WillWake(t, run) <==> WillWake(s, run)
    ensures run != changed ==> (Depends(t, run) <==> Depends(s, run))
  {
    SignalsStay(s, t, run);
    SignalsStay(t, s, run);
  }

  /** Laravel's recovery releases a run but signals nobody: it forgets the workflow that depends on that run. */
  lemma ReleaseForgetsNobodyIff(s: System, released: int, laravelModel: string)
    requires Tidy(s) && NoneForgotten(s)
    ensures NoneForgotten(Step(s, Release(released, laravelModel))) <==> Harmless(s, Release(released, laravelModel))
  {
    if Releasable(s.db, released, laravelModel) {
      var t := Step(s, Release(released, laravelModel));
      forall run <- s.flows ensures NotForgotten(t, run) <==> !(run == released && Depends(s, run)) {
        assert NotForgotten(s, run);
        RowChange(s, t, released, run);
      }
    }
  }

  /** A retry forgets its run's waiting workflow unless the gate is closed for both models; it can take back a
      cancellation. */
  lemma RetryForgetsNobodyIff(s: System, retried: int, laravelModel: string)
    requires Tidy(s) && NoneForgotten(s)
    ensures NoneForgotten(Step(s, Retry(retried, laravelModel))) <==> Harmless(s, Retry(retried, laravelModel))
  {
    if Retryable(s.db, retried) {
      var t := Step(s, Retry(retried, laravelModel));
      forall run <- s.flows
        ensures NotForgotten(t, run)
                <==> (run == retried && WaitsAtGate(s.flows[run]) && !WillWake(s, run) ==>
                        !Gate.Ready(s.db.builds, laravelModel) && !Gate.Ready(s.db.builds, s.model))
      {
        assert NotForgotten(s, run);
        RowChange(s, t, retried, run);
      }
    }
  }

  /** A dead-lettered start intent forgets a workflow exactly when it fails the run on which that depends. */
  lemma DeadLetterForgetsNobodyIff(s: System, failed: int)
    requires Tidy(s) && NoneForgotten(s)
    ensures NoneForgotten(Step(s, DeadLetterStart(failed))) <==> Harmless(s, DeadLetterStart(failed))
  {
    if StartFails(s, failed) {
      var t := Step(s, DeadLetterStart(failed));
      forall run <- s.flows ensures NotForgotten(t, run) <==> !(run == failed && Depends(s, run)) {
        assert NotForgotten(s, run);
        RowChange(s, t, failed, run);
      }
    }
  }

  /** A lost signal forgets a workflow exactly when nothing else would have woken it or found its run. */
  lemma LostSignalForgetsNobodyIff(s: System, key: Gate.SignalKey)
    requires Tidy(s) && NoneForgotten(s)
    ensures NoneForgotten(Step(s, LoseSignal(key))) <==> Harmless(s, LoseSignal(key))
  {
    var t := Step(s, LoseSignal(key));
    if InFlight(s.db, key) {
      forall run <- s.flows ensures SignalInFlight(t.db, run) <==> OtherSignal(s, key, run) {
        OtherSignalsStay(s, key, run);
      }
      forall run <- s.flows
        ensures NotForgotten(t, run)
                <==> (WaitsAtGate(s.flows[run]) && SameWorkflow(s.db, key.run, run) ==>
                        || s.flows[run].state.ready || OtherSignal(s, key, run) || IsCancelled(s.db.runs[run].status)
                        || (Gate.IndexBlocked(s.db.runs[run]) && !Gate.Ready(s.db.builds, s.model)))
      {
        assert NotForgotten(s, run);
        if !SameWorkflow(s.db, key.run, run) && SignalInFlight(s.db, run) {
          var k :| InFlight(s.db, k) && SameWorkflow(s.db, k.run, run);
          assert k != key && OtherSignal(s, key, run);
        }
      }
    }
  }

  lemma OtherSignalsStay(s: System, key: Gate.SignalKey, run: int)
    requires InFlight(s.db, key)
    ensures SignalInFlight(Step(s, LoseSignal(key)).db, run) <==> OtherSignal(s, key, run)
  {
    var t := Step(s, LoseSignal(key));
    if SignalInFlight(t.db, run) {
      var k :| InFlight(t.db, k) && SameWorkflow(t.db, k.run, run);
      assert k != key && InFlight(s.db, k) && SameWorkflow(s.db, k.run, run);
    }
    if OtherSignal(s, key, run) {
      var k :| k != key && InFlight(s.db, k) && SameWorkflow(s.db, k.run, run);
      assert InFlight(t.db, k) && SameWorkflow(t.db, k.run, run);
    }
  }

  predicate IsFlowEvent(ev: Event) {
    ev.Answer? || ev.Advance? || ev.Check? || ev.InsertRun? || ev.StartFlow? || ev.Mark? || ev.CancelRun?
    || ev.DeliverSignal?
  }

  lemma FlowEventForgetsNobody(s: System, ev: Event)
    requires Tidy(s) && NoneForgotten(s) && IsFlowEvent(ev)
    ensures NoneForgotten(Step(s, ev))
  {
    match ev
    case Answer(run) => AnswerForgetsNobody(s, run);
    case Advance(run, step) => AdvanceForgetsNobody(s, run, step);
    case DeliverSignal(key, target) => DeliveryForgetsNobody(s, key, target);
    case Check(run) => CheckForgetsNobody(s, run);
    case InsertRun(_, _) => InsertForgetsNobody(s, ev);
    case StartFlow(_) => InsertForgetsNobody(s, ev);
    case _ => RunEventForgetsNobody(s, ev);
  }

  lemma IndexEventForgetsNobodyIffHarmless(s: System, ev: Event)
    requires Tidy(s) && NoneForgotten(s) && (IsBuildEvent(ev) || ev.ChangeModel?)
    ensures NoneForgotten(Step(s, ev)) <==> Harmless(s, ev)
  {
    if ev.ChangeModel? {
      ModelChangeForgetsNobodyIff(s, ev.newModel);
    } else if Reopens(s, ev) {
      LateProjectionForgetsNobodyIff(s, ev.progress);
    } else if LegacyCompletes(s, ev) {
      LegacyBuildForgetsNobodyIff(s, ev);
    } else if Completes(s, ev) {
      FinishForgetsNobodyIffFresh(s, ev.progress);
    } else {
      BuildEventForgetsNobody(s, ev);
    }
  }

  /** From a state that has forgotten nobody, an event forgets nobody exactly when it is harmless. */
  lemma StepForgetsNobodyIffHarmless(s: System, ev: Event)
    requires Tidy(s) && NoneForgotten(s)
    ensures NoneForgotten(Step(s, ev)) <==> Harmless(s, ev)
  {
    if IsFlowEvent(ev) {
      FlowEventForgetsNobody(s, ev);
    } else if IsBuildEvent(ev) || ev.ChangeModel? {
      IndexEventForgetsNobodyIffHarmless(s, ev);
    } else {
      match ev
      case LoseSignal(key) => LostSignalForgetsNobodyIff(s, key);
      case DeadLetterStart(run) => DeadLetterForgetsNobodyIff(s, run);
      case Release(run, laravelModel) => ReleaseForgetsNobodyIff(s, run, laravelModel);
      case Retry(run, laravelModel) => RetryForgetsNobodyIff(s, run, laravelModel);
    }
  }

  // ---------- whole runs ----------

  ghost predicate AllHarmless(s: System, evs: seq<Event>) {
    evs == [] ||
    var prior := evs[..|evs| - 1];
    AllHarmless(s, prior) && Harmless(Run(s, prior), evs[|evs| - 1])
  }

  /** No state on the way has forgotten a workflow. */
  ghost predicate NeverForgets(s: System, evs: seq<Event>) {
    NoneForgotten(Run(s, evs)) && (evs == [] || NeverForgets(s, evs[..|evs| - 1]))
  }

  lemma {:induction false} RunKeepsTidy(s: System, evs: seq<Event>)
    requires Initial(s)
    ensures Tidy(Run(s, evs))
  {
    if evs != [] {
      RunKeepsTidy(s, evs[..|evs| - 1]);
      StepKeepsTidy(Run(s, evs[..|evs| - 1]), evs[|evs| - 1]);
    }
  }

  /** In every interleaving no workflow is ever forgotten exactly when every event was harmless when it came. */
  lemma {:induction false} NeverForgetsIffAllHarmless(s: System, evs: seq<Event>)
    requires Initial(s)
    ensures NeverForgets(s, evs) <==> AllHarmless(s, evs)
  {
    if evs != [] {
      var prior := evs[..|evs| - 1];
      NeverForgetsIffAllHarmless(s, prior);
      RunKeepsTidy(s, prior);
      if NeverForgets(s, prior) {
        PriorForgetsNobody(s, prior);
        StepForgetsNobodyIffHarmless(Run(s, prior), evs[|evs| - 1]);
      }
    }
  }

  lemma PriorForgetsNobody(s: System, evs: seq<Event>)
    requires NeverForgets(s, evs)
    ensures NoneForgotten(Run(s, evs))
  {
  }

  /** No lost wake-up: if every event is harmless, a workflow that is parked while the index is complete has its
      ready flag set or a ready signal in flight, unless its run was cancelled. */
  lemma NoLostWakeup(s: System, evs: seq<Event>, run: int)
    requires Initial(s) && AllHarmless(s, evs)
    requires run in Run(s, evs).flows && Run(s, evs).flows[run].state.control == Flow.Parked
    requires Gate.Ready(Run(s, evs).db.builds, Run(s, evs).model)
    ensures run in Run(s, evs).db.runs
    ensures WillWake(Run(s, evs), run) || IsCancelled(Run(s, evs).db.runs[run].status)
  {
    RunKeepsTidy(s, evs);
    NeverForgetsIffAllHarmless(s, evs);
    PriorForgetsNobody(s, evs);
    assert NotForgotten(Run(s, evs), run);
  }

  // ---------- generations that finish once are harmless ----------

  /** The generations that have finished successfully. */
  function CompletedBuilds(s: System, evs: seq<Event>): set<int> {
    if evs == [] then {}
    else
      var prior, last := evs[..|evs| - 1], evs[|evs| - 1];
      CompletedBuilds(s, prior) + if Completes(Run(s, prior), last) then {last.progress.build} else {}
  }

  /** The event does not finish a generation again, project it after it completed, or follow from a dead letter;
      no actor builds an index and no other model is configured; Laravel reads the same model and retries no
      cancelled run. */
  predicate Regular(s: System, evs: seq<Event>, ev: Event) {
    var now := Run(s, evs);
    && (Completes(now, ev) ==> ev.progress.build !in CompletedBuilds(s, evs))
    && !OpensGate(now, ev)
    && !ev.DeadLetterStart? && !ev.LoseSignal?
    && (ev.Release? || ev.Retry? ==> ev.laravelModel == now.model)
    && (ev.Retry? && ev.retried in now.db.runs ==> !IsCancelled(now.db.runs[ev.retried].status))
  }

  predicate Orderly(s: System, evs: seq<Event>) {
    evs == [] || (Orderly(s, evs[..|evs| - 1]) && Regular(s, evs[..|evs| - 1], evs[|evs| - 1]))
  }

  ghost predicate SignalsComeFrom(s: System, builds: set<int>) {
    forall k <- s.db.signals :: k.build in builds
  }

  lemma StepSignals(s: System, ev: Event, builds: set<int>)
    requires SignalsComeFrom(s, builds)
    ensures SignalsComeFrom(Step(s, ev), builds + if Completes(s, ev) then {ev.progress.build} else {})
  {
  }

  lemma {:induction false} SignalsComeFromCompleted(s: System, evs: seq<Event>)
    requires Initial(s)
    ensures SignalsComeFrom(Run(s, evs), CompletedBuilds(s, evs))
  {
    if evs != [] {
      SignalsComeFromCompleted(s, evs[..|evs| - 1]);
      StepSignals(Run(s, evs[..|evs| - 1]), evs[|evs| - 1], CompletedBuilds(s, evs[..|evs| - 1]));
    }
  }

  lemma FirstFinishIsFresh(s: System, build: int, builds: set<int>)
    requires Tidy(s) && NoneForgotten(s) && SignalsComeFrom(s, builds) && build !in builds
    ensures FreshRelease(s, build)
  {
    forall run <- s.flows | Depends(s, run) ensures GetsSignal(s, build, run) {
      assert NotForgotten(s, run);
      assert run in Gate.BlockedRuns(s.db.runs) && SameWorkflow(s.db, run, run);
      assert Gate.SignalKey(run, build) !in s.db.signals;
    }
  }

  lemma RegularIsHarmless(s: System, evs: seq<Event>, ev: Event)
    requires Tidy(Run(s, evs)) && NoneForgotten(Run(s, evs)) && Regular(s, evs, ev)
    requires SignalsComeFrom(Run(s, evs), CompletedBuilds(s, evs))
    ensures Harmless(Run(s, evs), ev)
  {
    var now := Run(s, evs);
    if Completes(now, ev) {
      FirstFinishIsFresh(now, ev.progress.build, CompletedBuilds(s, evs));
    }
    if ev.Release? && ev.released in now.flows {
      assert NotForgotten(now, ev.released);
    }
    if ev.Retry? && ev.retried in now.flows {
      assert NotForgotten(now, ev.retried);
    }
  }

  /** Regular runs are harmless throughout. */
  lemma {:induction false} OrderlyRunsAreHarmless(s: System, evs: seq<Event>)
    requires Initial(s) && Orderly(s, evs)
    ensures AllHarmless(s, evs)
  {
    if evs != [] {
      var prior, last := evs[..|evs| - 1], evs[|evs| - 1];
      OrderlyRunsAreHarmless(s, prior);
      NeverForgetsIffAllHarmless(s, prior);
      PriorForgetsNobody(s, prior);
      RunKeepsTidy(s, prior);
      SignalsComeFromCompleted(s, prior);
      RegularIsHarmless(s, prior, last);
    }
  }
}
