/**
 * Runs that lose their wake-up, one for each event that can forget a parked workflow: after each of
 * them the index is complete, the workflow is parked, and nothing is on its way to wake it.
 */
module LostWakeup {
  import opened Wrappers
  import opened GateWakeup
  import Gate = EmbeddingGate
  import Flow = DocumentWorkflow

  const KEY := Gate.SignalKey(7, 1)

  const FIRST := Gate.Progress(1, 1, 0, 0, 0)
  const SECOND := Gate.Progress(2, 2, 0, 0, 0)

  /** Run 7 with its workflow, two reindex commands, each in progress once it has a build, and at most one signal. */
  predicate Scene(s: System, status: Gate.RunStatus, flow: Parked, builds: map<int, Gate.BuildRow>,
                  signal: Option<Gate.SignalState>, clock: nat) {
    && s.model == "m" && s.db.clock == clock && s.db.builds == builds
    && s.db.runs.Keys == {7} && IsRun(s.db.runs[7], status)
    && s.db.commands.Keys == {1, 2}
    && (forall c <- s.db.commands :: s.db.commands[c].kind == Gate.Reindex && s.db.commands[c].temporal)
    && (forall c <- s.db.commands :: c in builds ==> s.db.commands[c].status == Gate.InProgress)
    && s.flows.Keys == {7} && s.flows[7] == flow
    && (match signal
        case None => s.db.signals == map[]
        case Some(g) => s.db.signals.Keys == {KEY} && s.db.signals[KEY] == g)
  }

  predicate IsRun(row: Gate.RunRow, status: Gate.RunStatus) {
    row.temporal && row.workflowId == Some("w") && row.status == status && row.suggestion == None
    && (status == Gate.Blocked ==> row.indexError)
  }

  function FlowAt(control: Flow.Control): Flow.State {
    Flow.Initial(Flow.Request(7, "w", 70)).(control := control)
  }

  const PARKED := Parked(FlowAt(Flow.Parked), None)
  const CHECKING := Parked(FlowAt(Flow.CheckingReadiness), None)
  const TOLD := Parked(FlowAt(Flow.CheckingReadiness), Some(Gate.GateClosed))

  function Build(status: Gate.BuildStatus, command: int, updatedAt: nat): Gate.BuildRow {
    Gate.BuildRow(Some(command), status, "m", 0, 0, 0, updatedAt)
  }

  /** The row of a build actor. */
  function Legacy(status: Gate.BuildStatus, model: string, updatedAt: nat): Gate.BuildRow {
    Gate.BuildRow(Some(3), status, model, 0, 0, 0, updatedAt)
  }

  const SCENE_START := System(
    Gate.Db(map[],
            map[1 := Gate.CommandRow(Gate.Reindex, true, Gate.Waiting),
                2 := Gate.CommandRow(Gate.Reindex, true, Gate.Waiting)],
            map[7 := Gate.RunRow(true, Some("w"), Gate.Queued, false, None)], {}, map[], 1), "m", map[])

  /** Run 7 is parked at an open gate, and nothing will wake it. */
  ghost predicate Asleep(s: System, status: Gate.RunStatus) {
    && 7 in s.flows && s.flows[7].state.control == Flow.Parked
    && Gate.Ready(s.db.builds, s.model) && !WillWake(s, 7)
    && 7 in s.db.runs && s.db.runs[7].status == status && !IsCancelled(status)
  }

  lemma SceneSleeps(s: System, status: Gate.RunStatus, builds: map<int, Gate.BuildRow>,
                    signal: Option<Gate.SignalState>, clock: nat)
    requires Scene(s, status, PARKED, builds, signal, clock) && signal != Some(Gate.InFlight)
    requires Gate.Ready(builds, "m") && !IsCancelled(status)
    ensures Asleep(s, status)
  {
  }

  // ---------- each step of the scene, on its own ----------

  lemma StartIsInitial()
    ensures Initial(SCENE_START)
  {
  }

  lemma OpeningStep()
    ensures Scene(Step(Step(SCENE_START, StartFlow(Flow.Request(7, "w", 70))), Advance(7, Flow.Begin)),
                  Gate.Queued, CHECKING, map[], None, 1)
  {
  }

  lemma CheckStep(s: System, builds: map<int, Gate.BuildRow>, signal: Option<Gate.SignalState>, clock: nat)
    requires Scene(s, Gate.Queued, CHECKING, builds, signal, clock) && !Gate.Ready(builds, "m")
    ensures Scene(Step(s, Check(7)), Gate.Blocked, TOLD, builds, signal, clock)
  {
  }

  lemma AnswerStep(s: System, builds: map<int, Gate.BuildRow>, signal: Option<Gate.SignalState>, clock: nat)
    requires Scene(s, Gate.Blocked, TOLD, builds, signal, clock)
    ensures Scene(Step(s, Answer(7)), Gate.Blocked, PARKED, builds, signal, clock)
  {
  }

  lemma PrepareStep(s: System, status: Gate.RunStatus, flow: Parked, builds: map<int, Gate.BuildRow>,
                    signal: Option<Gate.SignalState>, clock: nat, b: int)
    requires Scene(s, status, flow, builds, signal, clock) && b in {1, 2}
    requires forall a <- builds :: a != b && builds[a].command == Some(a) && builds[a].status != Gate.Building
    ensures Scene(Step(s, Prepare(b, b, "m")), status, flow, builds[b := Build(Gate.Building, b, clock)], signal,
                  clock + 1)
  {
  }

  function FinishedRow(s: System, builds: map<int, Gate.BuildRow>, clock: nat, b: int): Gate.Db
    requires b in s.db.commands
  {
    s.db.(builds := builds[b := Build(Gate.Complete, b, clock)],
          commands := s.db.commands[b := s.db.commands[b].(status := Gate.InProgress)], clock := clock + 1)
  }

  /** A finish that finds no blocked run releases nobody. */
  lemma QuietFinishStep(s: System, status: Gate.RunStatus, flow: Parked, builds: map<int, Gate.BuildRow>,
                        signal: Option<Gate.SignalState>, clock: nat, b: int)
    requires Scene(s, status, flow, builds, signal, clock) && b in {1, 2} && b in builds && status != Gate.Blocked
    requires builds[b].command == Some(b) && builds[b].model == "m"
    ensures Scene(Step(s, Finish(Gate.Progress(b, b, 0, 0, 0))), status, flow,
                  builds[b := Build(Gate.Complete, b, clock)], signal, clock + 1)
  {
    assert Step(s, Finish(Gate.Progress(b, b, 0, 0, 0))).db == Gate.Released(FinishedRow(s, builds, clock, b), b);
    ReleaseNone(FinishedRow(s, builds, clock, b), b);
  }

  /** A finish of the first generation queues the blocked run, and signals it unless it did before. */
  lemma FinishStep(s: System, flow: Parked, builds: map<int, Gate.BuildRow>, signal: Option<Gate.SignalState>,
                   clock: nat)
    requires Scene(s, Gate.Blocked, flow, builds, signal, clock) && 1 in builds
    requires builds[1].command == Some(1) && builds[1].model == "m"
    ensures Scene(Step(s, Finish(FIRST)), Gate.Queued, flow, builds[1 := Build(Gate.Complete, 1, clock)],
                  if signal.Some? then signal else Some(Gate.InFlight), clock + 1)
  {
    assert Step(s, Finish(FIRST)).db == Gate.Released(FinishedRow(s, builds, clock, 1), 1);
    ReleaseSeven(FinishedRow(s, builds, clock, 1));
  }

  lemma ReleaseNone(db: Gate.Db, b: int)
    requires forall r <- db.runs :: !Gate.IndexBlocked(db.runs[r])
    ensures Gate.Released(db, b) == db
  {
    assert forall r :: r !in Gate.BlockedRuns(db.runs);
    assert Gate.SignalKeys({}, b) == {};
    assert Gate.Released(db, b).runs == db.runs;
    assert Gate.Released(db, b).signals == db.signals;
  }

  lemma ReleaseSeven(db: Gate.Db)
    requires db.runs.Keys == {7} && Gate.IndexBlocked(db.runs[7])
    ensures Gate.Released(db, 1) == db.(runs := Gate.Released(db, 1).runs, starts := db.starts + {7},
                                        signals := if KEY in db.signals then db.signals
                                                   else db.signals[KEY := Gate.InFlight])
    ensures Gate.Released(db, 1).runs.Keys == {7} && Gate.Released(db, 1).runs[7] == Gate.Queue(db.runs[7])
  {
    assert Gate.ReleasedRuns(db, 1, {}).signals == db.signals;
    assert Gate.BlockedRuns(db.runs) == {} + {7};
    Gate.ReleaseOneMore(db, 1, {}, 7);
  }

  /** The ready flag of the parked workflow is set. */
  const READY := Parked(FlowAt(Flow.Parked).(ready := true), None)

  lemma DeliverStep(s: System, builds: map<int, Gate.BuildRow>, clock: nat)
    requires Scene(s, Gate.Queued, PARKED, builds, Some(Gate.InFlight), clock)
    ensures Scene(Step(s, DeliverSignal(KEY, 7)), Gate.Queued, READY, builds, Some(Gate.Handled), clock)
  {
  }

  lemma WakeStep(s: System, builds: map<int, Gate.BuildRow>, signal: Option<Gate.SignalState>, clock: nat)
    requires Scene(s, Gate.Queued, READY, builds, signal, clock)
    ensures Scene(Step(s, Advance(7, Flow.Wake)), Gate.Queued, CHECKING, builds, signal, clock)
  {
  }

  lemma LoseStep(s: System, status: Gate.RunStatus, builds: map<int, Gate.BuildRow>, clock: nat)
    requires Scene(s, status, PARKED, builds, Some(Gate.InFlight), clock)
    ensures Scene(Step(s, LoseSignal(KEY)), status, PARKED, builds, Some(Gate.Handled), clock)
  {
  }

  lemma ProjectStep(s: System, builds: map<int, Gate.BuildRow>, signal: Option<Gate.SignalState>, clock: nat)
    requires Scene(s, Gate.Blocked, PARKED, builds, signal, clock)
    requires 1 in builds && builds[1] == Build(Gate.Complete, 1, builds[1].updatedAt)
    ensures Scene(Step(s, Project(FIRST)), Gate.Blocked, PARKED, builds[1 := Build(Gate.Complete, 1, clock)], signal,
                  clock + 1)
  {
  }

  lemma LegacyStep(s: System, builds: map<int, Gate.BuildRow>, row: Gate.BuildRow, clock: nat)
    requires Scene(s, Gate.Blocked, PARKED, builds, None, clock) && LegacyWritable(s.db, 3, row)
    ensures Scene(Step(s, LegacyWrite(3, row)), Gate.Blocked, PARKED, builds[3 := row.(updatedAt := clock)], None,
                  clock + 1)
  {
  }

  /** A run's row takes another status, the rest stays. */
  lemma StatusStep(s: System, ev: Event, was: Gate.RunStatus, status: Gate.RunStatus,
                   builds: map<int, Gate.BuildRow>, signal: Option<Gate.SignalState>, clock: nat)
    requires Scene(s, was, PARKED, builds, signal, clock) && status != Gate.Blocked
    requires || (ev == DeadLetterStart(7) && was == Gate.Blocked && status == Gate.FailedRun)
             || (ev == CancelRun(7, status) && IsCancelled(status))
             || (ev == Release(7, "n") && was == Gate.Blocked && status == Gate.Pending && Gate.Ready(builds, "n"))
             || (ev == Retry(7, "m") && was == Gate.Cancelled && status == Gate.Pending && Gate.Ready(builds, "m"))
    ensures Scene(Step(s, ev), status, PARKED, builds, signal, clock)
  {
  }

  lemma CompleteIsReady(builds: map<int, Gate.BuildRow>, b: int, model: string)
    requires b in builds && builds[b].model == model && builds[b].status == Gate.Complete
    requires forall a <- builds :: a == b || builds[a].updatedAt < builds[b].updatedAt
    ensures Gate.Ready(builds, model)
  {
    LatestIsReady(builds, b, model);
  }

  // ---------- from the start to where each of them goes wrong ----------

  lemma RunAppend(s: System, evs: seq<Event>, ev: Event)
    ensures Run(s, evs + [ev]) == Step(Run(s, evs), ev)
  {
    assert (evs + [ev])[..|evs|] == evs;
  }

  /** Run the scene through one more event. */
  lemma Then(evs: seq<Event>, ev: Event) returns (more: seq<Event>)
    ensures Run(SCENE_START, more) == Step(Run(SCENE_START, evs), ev)
  {
    RunAppend(SCENE_START, evs, ev);
    more := evs + [ev];
  }

  lemma ThenTwo(evs: seq<Event>, a: Event, b: Event) returns (more: seq<Event>)
    ensures Run(SCENE_START, more) == Step(Step(Run(SCENE_START, evs), a), b)
  {
    more := Then(evs, a);
    more := Then(more, b);
  }

  /** The workflow begins, finds the gate closed and parks. */
  lemma ParkedRun() returns (evs: seq<Event>)
    ensures Scene(Run(SCENE_START, evs), Gate.Blocked, PARKED, map[], None, 1)
  {
    OpeningStep();
    evs := ThenTwo([], StartFlow(Flow.Request(7, "w", 70)), Advance(7, Flow.Begin));
    CheckStep(Run(SCENE_START, evs), map[], None, 1);
    AnswerStep(Step(Run(SCENE_START, evs), Check(7)), map[], None, 1);
    evs := ThenTwo(evs, Check(7), Answer(7));
  }

  const BUILT: map<int, Gate.BuildRow> := map[1 := Build(Gate.Complete, 1, 2)]

  /** A first generation is prepared and finished, after the run has left the blocked state. */
  lemma QuietlyBuilt(evs: seq<Event>, status: Gate.RunStatus) returns (more: seq<Event>)
    requires Scene(Run(SCENE_START, evs), status, PARKED, map[], None, 1) && status != Gate.Blocked
    ensures Scene(Run(SCENE_START, more), status, PARKED, BUILT, None, 3)
  {
    PrepareStep(Run(SCENE_START, evs), status, PARKED, map[], None, 1, 1);
    QuietFinishStep(Step(Run(SCENE_START, evs), Prepare(1, 1, "m")), status, PARKED,
                    map[1 := Build(Gate.Building, 1, 1)], None, 2, 1);
    assert map[1 := Build(Gate.Building, 1, 1)][1 := Build(Gate.Complete, 1, 2)] == BUILT;
    more := ThenTwo(evs, Prepare(1, 1, "m"), Finish(FIRST));
  }

  /** A first generation has released the run; its signal is on the way. */
  lemma Signalled() returns (evs: seq<Event>)
    ensures Scene(Run(SCENE_START, evs), Gate.Queued, PARKED, BUILT, Some(Gate.InFlight), 3)
  {
    evs := ParkedRun();
    PrepareStep(Run(SCENE_START, evs), Gate.Blocked, PARKED, map[], None, 1, 1);
    FinishStep(Step(Run(SCENE_START, evs), Prepare(1, 1, "m")), PARKED, map[1 := Build(Gate.Building, 1, 1)], None, 2);
    assert map[1 := Build(Gate.Building, 1, 1)][1 := Build(Gate.Complete, 1, 2)] == BUILT;
    evs := ThenTwo(evs, Prepare(1, 1, "m"), Finish(FIRST));
  }

  const REBUILDING := map[1 := Build(Gate.Complete, 1, 2), 2 := Build(Gate.Building, 2, 3)]

  /** The workflow takes the signal, but finds a second generation running and parks again. */
  lemma ParkedAgain() returns (evs: seq<Event>)
    ensures Scene(Run(SCENE_START, evs), Gate.Blocked, PARKED, REBUILDING, Some(Gate.Handled), 4)
  {
    evs := Signalled();
    evs := Woken(evs);
    PrepareStep(Run(SCENE_START, evs), Gate.Queued, CHECKING, BUILT, Some(Gate.Handled), 3, 2);
    evs := Then(evs, Prepare(2, 2, "m"));
    evs := CheckedWhileRebuilding(evs);
  }

  lemma Woken(evs: seq<Event>) returns (more: seq<Event>)
    requires Scene(Run(SCENE_START, evs), Gate.Queued, PARKED, BUILT, Some(Gate.InFlight), 3)
    ensures Scene(Run(SCENE_START, more), Gate.Queued, CHECKING, BUILT, Some(Gate.Handled), 3)
  {
    DeliverStep(Run(SCENE_START, evs), BUILT, 3);
    WakeStep(Step(Run(SCENE_START, evs), DeliverSignal(KEY, 7)), BUILT, Some(Gate.Handled), 3);
    more := ThenTwo(evs, DeliverSignal(KEY, 7), Advance(7, Flow.Wake));
  }

  lemma CheckedWhileRebuilding(evs: seq<Event>) returns (more: seq<Event>)
    requires Scene(Run(SCENE_START, evs), Gate.Queued, CHECKING, BUILT[2 := Build(Gate.Building, 2, 3)],
                   Some(Gate.Handled), 4)
    ensures Scene(Run(SCENE_START, more), Gate.Blocked, PARKED, REBUILDING, Some(Gate.Handled), 4)
  {
    assert BUILT[2 := Build(Gate.Building, 2, 3)] == REBUILDING;
    assert !Gate.Ready(REBUILDING, "m") by { assert !Gate.NotNewerThan(REBUILDING, 2, 1); }
    CheckStep(Run(SCENE_START, evs), REBUILDING, Some(Gate.Handled), 4);
    AnswerStep(Step(Run(SCENE_START, evs), Check(7)), REBUILDING, Some(Gate.Handled), 4);
    more := ThenTwo(evs, Check(7), Answer(7));
  }

  /** While the workflow is parked, an actor builds an index for some model. */
  lemma LegacyBuilt(model: string) returns (evs: seq<Event>)
    ensures Scene(Run(SCENE_START, evs), Gate.Blocked, PARKED, map[3 := Legacy(Gate.Complete, model, 2)], None, 3)
  {
    evs := ParkedRun();
    var begun, done := Legacy(Gate.Building, model, 0), Legacy(Gate.Complete, model, 0);
    LegacyStep(Run(SCENE_START, evs), map[], begun, 1);
    assert map[][3 := begun.(updatedAt := 1)] == map[3 := Legacy(Gate.Building, model, 1)];
    LegacyStep(Step(Run(SCENE_START, evs), LegacyWrite(3, begun)), map[3 := Legacy(Gate.Building, model, 1)], done, 2);
    assert map[3 := Legacy(Gate.Building, model, 1)][3 := done.(updatedAt := 2)]
        == map[3 := Legacy(Gate.Complete, model, 2)];
    evs := ThenTwo(evs, LegacyWrite(3, begun), LegacyWrite(3, done));
  }

  // ---------- and the events that lose the wake-up ----------

  /** The activity that finishes a generation can run again after it committed. When
      another generation began in between, the second commit opens the gate, takes the
      run out of the blocked state and finds its signal key taken: the workflow is
      parked, nothing is in flight, and the next finished generation passes it by. */
  lemma RepeatedFinishLosesWakeup() returns (evs: seq<Event>)
    ensures Initial(SCENE_START)
    ensures Asleep(Run(SCENE_START, evs), Gate.Queued)
    ensures Asleep(Run(SCENE_START, evs + [Finish(SECOND)]), Gate.Queued)
  {
    StartIsInitial();
    var builds := REBUILDING[1 := Build(Gate.Complete, 1, 4)];
    evs := FinishedAgain();
    CompleteIsReady(builds, 1, "m");
    SceneSleeps(Run(SCENE_START, evs), Gate.Queued, builds, Some(Gate.Handled), 5);
    NextFinishPassesBy(evs, builds);
  }

  lemma FinishedAgain() returns (evs: seq<Event>)
    ensures Scene(Run(SCENE_START, evs), Gate.Queued, PARKED, REBUILDING[1 := Build(Gate.Complete, 1, 4)],
                  Some(Gate.Handled), 5)
  {
    evs := ParkedAgain();
    FinishStep(Run(SCENE_START, evs), PARKED, REBUILDING, Some(Gate.Handled), 4);
    evs := Then(evs, Finish(FIRST));
  }

  lemma NextFinishPassesBy(evs: seq<Event>, builds: map<int, Gate.BuildRow>)
    requires Scene(Run(SCENE_START, evs), Gate.Queued, PARKED, builds, Some(Gate.Handled), 5)
    requires builds == map[1 := Build(Gate.Complete, 1, 4), 2 := Build(Gate.Building, 2, 3)]
    ensures Asleep(Run(SCENE_START, evs + [Finish(SECOND)]), Gate.Queued)
  {
    QuietFinishStep(Run(SCENE_START, evs), Gate.Queued, PARKED, builds, Some(Gate.Handled), 5, 2);
    RunAppend(SCENE_START, evs, Finish(SECOND));
    CompleteIsReady(builds[2 := Build(Gate.Complete, 2, 5)], 2, "m");
    SceneSleeps(Run(SCENE_START, evs + [Finish(SECOND)]), Gate.Queued, builds[2 := Build(Gate.Complete, 2, 5)],
                Some(Gate.Handled), 6);
  }

  /**
   * The response to a run's start call is lost until its intent is given up, while the workflow
   * runs and parks. The run is failed, and the next finished generation passes it by.
   */
  lemma DeadLetterLosesWakeup() returns (evs: seq<Event>)
    ensures Initial(SCENE_START) && Asleep(Run(SCENE_START, evs), Gate.FailedRun)
  {
    StartIsInitial();
    evs := ParkedRun();
    StatusStep(Run(SCENE_START, evs), DeadLetterStart(7), Gate.Blocked, Gate.FailedRun, map[], None, 1);
    evs := Then(evs, DeadLetterStart(7));
    evs := QuietlyBuilt(evs, Gate.FailedRun);
    CompleteIsReady(BUILT, 1, "m");
    SceneSleeps(Run(SCENE_START, evs), Gate.FailedRun, BUILT, None, 3);
  }

  /** The ready signal of the only generation is given up by the relay. */
  lemma LostSignalLosesWakeup() returns (evs: seq<Event>)
    ensures Initial(SCENE_START) && Asleep(Run(SCENE_START, evs), Gate.Queued)
  {
    StartIsInitial();
    evs := Signalled();
    LoseStep(Run(SCENE_START, evs), Gate.Queued, BUILT, 3);
    evs := Then(evs, LoseSignal(KEY));
    CompleteIsReady(BUILT, 1, "m");
    SceneSleeps(Run(SCENE_START, evs), Gate.Queued, BUILT, Some(Gate.Handled), 3);
  }

  /** A progress report of the first generation arrives while the second is running, and stamps the first as latest. */
  lemma LateProjectionLosesWakeup() returns (evs: seq<Event>)
    ensures Initial(SCENE_START) && Asleep(Run(SCENE_START, evs), Gate.Blocked)
  {
    StartIsInitial();
    evs := ParkedAgain();
    ProjectStep(Run(SCENE_START, evs), REBUILDING, Some(Gate.Handled), 4);
    evs := Then(evs, Project(FIRST));
    CompleteIsReady(REBUILDING[1 := Build(Gate.Complete, 1, 4)], 1, "m");
    SceneSleeps(Run(SCENE_START, evs), Gate.Blocked, REBUILDING[1 := Build(Gate.Complete, 1, 4)],
                Some(Gate.Handled), 5);
  }

  /** A build actor completes the index of the configured model and signals nobody. */
  lemma LegacyBuildLosesWakeup() returns (evs: seq<Event>)
    ensures Initial(SCENE_START) && Asleep(Run(SCENE_START, evs), Gate.Blocked)
  {
    StartIsInitial();
    evs := LegacyBuilt("m");
    var builds := map[3 := Legacy(Gate.Complete, "m", 2)];
    CompleteIsReady(builds, 3, "m");
    SceneSleeps(Run(SCENE_START, evs), Gate.Blocked, builds, None, 3);
  }

  /** A model is configured whose index is complete already. */
  lemma ModelChangeLosesWakeup() returns (evs: seq<Event>)
    ensures Initial(SCENE_START) && Asleep(Run(SCENE_START, evs), Gate.Blocked)
  {
    StartIsInitial();
    evs := LegacyBuilt("n");
    ModelSleeps(Run(SCENE_START, evs), map[3 := Legacy(Gate.Complete, "n", 2)]);
    evs := Then(evs, ChangeModel("n"));
  }

  lemma ModelSleeps(s: System, builds: map<int, Gate.BuildRow>)
    requires Scene(s, Gate.Blocked, PARKED, builds, None, 3) && builds == map[3 := Legacy(Gate.Complete, "n", 2)]
    ensures Asleep(Step(s, ChangeModel("n")), Gate.Blocked)
  {
    CompleteIsReady(builds, 3, "n");
  }

  /** Laravel has another model's setting, finds its gate open, and releases the run of a workflow that waits; the
      next finished generation passes it by. */
  lemma ReleaseLosesWakeup() returns (evs: seq<Event>)
    ensures Initial(SCENE_START) && Asleep(Run(SCENE_START, evs), Gate.Pending)
  {
    StartIsInitial();
    evs := LegacyBuilt("n");
    var builds := map[3 := Legacy(Gate.Complete, "n", 2)];
    CompleteIsReady(builds, 3, "n");
    StatusStep(Run(SCENE_START, evs), Release(7, "n"), Gate.Blocked, Gate.Pending, builds, None, 3);
    evs := Then(evs, Release(7, "n"));
    evs := BuiltBeside(evs, builds);
  }

  lemma BuiltBeside(evs: seq<Event>, builds: map<int, Gate.BuildRow>) returns (more: seq<Event>)
    requires builds == map[3 := Legacy(Gate.Complete, "n", 2)]
    requires Scene(Run(SCENE_START, evs), Gate.Pending, PARKED, builds, None, 3)
    ensures Asleep(Run(SCENE_START, more), Gate.Pending)
  {
    var building := builds[1 := Build(Gate.Building, 1, 3)];
    PrepareStep(Run(SCENE_START, evs), Gate.Pending, PARKED, builds, None, 3, 1);
    QuietFinishStep(Step(Run(SCENE_START, evs), Prepare(1, 1, "m")), Gate.Pending, PARKED, building, None, 4, 1);
    more := ThenTwo(evs, Prepare(1, 1, "m"), Finish(FIRST));
    CompleteIsReady(building[1 := Build(Gate.Complete, 1, 4)], 1, "m");
    SceneSleeps(Run(SCENE_START, more), Gate.Pending, building[1 := Build(Gate.Complete, 1, 4)], None, 5);
  }

  /** A released run is cancelled, its ready signal is given up, which does no harm then, and an administrator
      retries the cancelled run. */
  lemma RetryLosesWakeup() returns (evs: seq<Event>)
    ensures Initial(SCENE_START) && Asleep(Run(SCENE_START, evs), Gate.Pending)
  {
    StartIsInitial();
    evs := Signalled();
    StatusStep(Run(SCENE_START, evs), CancelRun(7, Gate.CancelRequested), Gate.Queued, Gate.CancelRequested, BUILT,
               Some(Gate.InFlight), 3);
    evs := Then(evs, CancelRun(7, Gate.CancelRequested));
    LoseStep(Run(SCENE_START, evs), Gate.CancelRequested, BUILT, 3);
    evs := Then(evs, LoseSignal(KEY));
    StatusStep(Run(SCENE_START, evs), CancelRun(7, Gate.Cancelled), Gate.CancelRequested, Gate.Cancelled, BUILT,
               Some(Gate.Handled), 3);
    evs := Then(evs, CancelRun(7, Gate.Cancelled));
    evs := Retried(evs);
  }

  lemma Retried(evs: seq<Event>) returns (more: seq<Event>)
    requires Scene(Run(SCENE_START, evs), Gate.Cancelled, PARKED, BUILT, Some(Gate.Handled), 3)
    ensures Asleep(Run(SCENE_START, more), Gate.Pending)
  {
    CompleteIsReady(BUILT, 1, "m");
    StatusStep(Run(SCENE_START, evs), Retry(7, "m"), Gate.Cancelled, Gate.Pending, BUILT, Some(Gate.Handled), 3);
    more := Then(evs, Retry(7, "m"));
    SceneSleeps(Run(SCENE_START, more), Gate.Pending, BUILT, Some(Gate.Handled), 3);
  }
}
