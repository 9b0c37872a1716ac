/** The embedding index, the readiness gate that document workflows check, and the
    release of blocked runs when a generation completes. Each method is one
    PostgreSQL transaction; `clock` stands for updated_at in commit order. */
module EmbeddingGate {
  import opened Wrappers

  datatype BuildStatus = Building | Complete | Failed

  datatype BuildRow = BuildRow(command: Option<int>, status: BuildStatus, model: string,
                               total: int, embedded: int, failed: int, updatedAt: nat)

  datatype CommandType = IndexBuild | Reindex | OtherCommand
  datatype CommandStatus = Waiting | InProgress | Succeeded | FailedForever | Retired
  datatype CommandRow = CommandRow(kind: CommandType, temporal: bool, status: CommandStatus)

  datatype RunStatus = Pending | Queued | Blocked | Retrying | Running | Done | CancelRequested | Cancelled | FailedRun
  datatype RunRow = RunRow(temporal: bool, workflowId: Option<string>, status: RunStatus,
                           indexError: bool,           // error_type = 'embedding_index_not_ready'
                           suggestion: Option<int>)

  /** A ready signal is keyed by run and build; its intent is inserted at most once. */
  datatype SignalKey = SignalKey(run: int, build: int)
  datatype SignalState = InFlight | Handled

  datatype Db = Db(builds: map<int, BuildRow>, commands: map<int, CommandRow>, runs: map<int, RunRow>,
                   starts: set<int>, signals: map<SignalKey, SignalState>, clock: nat)

  datatype Error = NoCommand | NotAGeneration | NotTemporal | OtherBuildRunning | NoBuild | CommandNotRunning | NoRun

  datatype Progress = Progress(command: int, build: int, total: int, embedded: int, failed: int)

  // ---------- reading the gate ----------

  /** ORDER BY updated_at DESC, id DESC. */
  predicate NotNewerThan(builds: map<int, BuildRow>, a: int, b: int)
    requires a in builds && b in builds
  {
    builds[a].updatedAt < builds[b].updatedAt || (builds[a].updatedAt == builds[b].updatedAt && a <= b)
  }

  predicate IsLatest(builds: map<int, BuildRow>, b: int, model: string)
    requires b in builds
  {
    builds[b].model == model && forall a <- builds | builds[a].model == model :: NotNewerThan(builds, a, b)
  }

  /** The most recently updated generation of the configured model is complete. */
  predicate Ready(builds: map<int, BuildRow>, model: string) {
    exists b <- builds :: IsLatest(builds, b, model) && builds[b].status == Complete
  }

  /** Two generations are never newest alike, so the gate asks about exactly one of them. */
  lemma ReadyIffLatestComplete(builds: map<int, BuildRow>, b: int, model: string)
    requires b in builds && IsLatest(builds, b, model)
    ensures Ready(builds, model) <==> builds[b].status == Complete
    ensures forall a <- builds | a != b && builds[a].model == model ::
              builds[a].updatedAt < builds[b].updatedAt || (builds[a].updatedAt == builds[b].updatedAt && a < b)
  {
    forall a <- builds | IsLatest(builds, a, model) ensures a == b {
      assert NotNewerThan(builds, a, b) && NotNewerThan(builds, b, a);
    }
  }

  /** If the model has a generation at all, one of them is the newest. */
  lemma {:induction false} LatestExists(builds: map<int, BuildRow>, some: int) returns (b: int)
    requires some in builds
    ensures b in builds && IsLatest(builds, b, builds[some].model)
    decreases builds
  {
    var model := builds[some].model;
    if a :| a in builds && a != some && builds[a].model == model {
      var c := LatestExists(builds - {some}, a);
      b := if NotNewerThan(builds, some, c) then c else some;
      forall d <- builds | builds[d].model == model ensures NotNewerThan(builds, d, b) {
        if d != some {
          assert d in builds - {some} && NotNewerThan(builds - {some}, d, c);
        }
      }
    } else {
      b := some;
    }
  }

  // ---------- what the transactions do ----------

  /** The run that a finished generation releases. */
  predicate IndexBlocked(row: RunRow) {
    row.status == Blocked && row.indexError && row.temporal && row.workflowId.Some?
  }

  function Queue(row: RunRow): RunRow { row.(status := Queued, indexError := false) }

  /** Some blocked runs are queued, each with a start intent and a ready signal;
      an intent whose key exists already is left as it is. */
  function ReleasedRuns(db: Db, build: int, released: set<int>): Db {
    db.(runs := map r <- db.runs :: (if r in released then Queue(db.runs[r]) else db.runs[r]),
        starts := db.starts + released,
        signals := (map k | k in SignalKeys(released, build) :: InFlight) + db.signals)
  }

  function SignalKeys(released: set<int>, build: int): set<SignalKey> {
    set r <- released :: SignalKey(r, build)
  }

  function BlockedRuns(runs: map<int, RunRow>): set<int> {
    set r <- runs | IndexBlocked(runs[r])
  }

  function Released(db: Db, build: int): Db {
    ReleasedRuns(db, build, BlockedRuns(db.runs))
  }

  /** The newest build of a command, which a repeated preparation resumes. */
  predicate IsBuildOf(builds: map<int, BuildRow>, b: int, command: int) {
    b in builds && builds[b].command == Some(command)
    && forall a <- builds | builds[a].command == Some(command) :: a <= b
  }

  predicate Preparable(db: Db, command: int) {
    && command in db.commands && db.commands[command].kind != OtherCommand && db.commands[command].temporal
    && ((exists b <- db.builds :: db.builds[b].command == Some(command))
        || !exists b <- db.builds :: db.builds[b].status == Building && db.builds[b].command != Some(command))
  }

  function Prepared(db: Db, command: int, b: int, model: string): Db
    requires command in db.commands
  {
    var row :=
      if b in db.builds then db.builds[b].(status := Building, updatedAt := db.clock)
      else BuildRow(Some(command), Building, model, 0, 0, 0, db.clock);
    db.(builds := db.builds[b := row],
        commands := db.commands[command := db.commands[command].(status := InProgress)],
        clock := db.clock + 1)
  }

  predicate Finishable(db: Db, p: Progress) {
    && p.build in db.builds && db.builds[p.build].command == Some(p.command)
    && p.command in db.commands
  }

  function Finished(db: Db, p: Progress): Db
    requires Finishable(db, p)
  {
    var ok := p.failed == 0;
    var build := db.builds[p.build].(status := if ok then Complete else Failed,
                                     total := p.total, embedded := p.embedded, failed := p.failed,
                                     updatedAt := db.clock);
    var command := db.commands[p.command].(
      status := if !ok then FailedForever
                else if db.commands[p.command].kind == Reindex then InProgress else Succeeded);
    var after := db.(builds := db.builds[p.build := build], commands := db.commands[p.command := command],
                     clock := db.clock + 1);
    if ok then Released(after, p.build) else after
  }

  function Projected(db: Db, p: Progress): Db
    requires p.build in db.builds
  {
    db.(builds := db.builds[p.build := db.builds[p.build].(total := p.total, embedded := p.embedded,
                                                           failed := p.failed, updatedAt := db.clock)],
        clock := db.clock + 1)
  }

  predicate Projectable(db: Db, p: Progress) {
    && p.build in db.builds && db.builds[p.build].command == Some(p.command)
    && p.command in db.commands && db.commands[p.command].status == InProgress
  }

  function PreparationFailed(db: Db, command: int): Db {
    db.(builds := map b <- db.builds ::
          (if db.builds[b].command == Some(command) && db.builds[b].status == Building
           then db.builds[b].(status := Failed, updatedAt := db.clock) else db.builds[b]),
        commands :=
          if command in db.commands && db.commands[command].status in {Waiting, InProgress}
          then db.commands[command := db.commands[command].(status := FailedForever)] else db.commands,
        clock := db.clock + 1)
  }

  datatype Readiness = ReviewExists(suggestion: int) | AlreadyFinished | CancelledRun | GateOpen | GateClosed

  function CheckResult(db: Db, run: int, model: string): Readiness
    requires run in db.runs
  {
    var row := db.runs[run];
    if row.suggestion.Some? && row.status == Running then ReviewExists(row.suggestion.value)
    else if row.status == Done then AlreadyFinished
    else if row.status == CancelRequested || row.status == Cancelled then CancelledRun
    else if Ready(db.builds, model) then GateOpen
    else GateClosed
  }

  function Checked(db: Db, run: int, model: string): Db
    requires run in db.runs
  {
    var row := db.runs[run];
    match CheckResult(db, run, model)
    case GateOpen =>
      if row.status in {Pending, Blocked, Retrying}
          then db.(runs := db.runs[run := row.(status := Queued, indexError := false)]) else db
    case GateClosed =>
      if row.status != Blocked then db.(runs := db.runs[run := row.(status := Blocked, indexError := true)]) else db
    case _ => db
  }

  lemma ReleaseOneMore(db: Db, build: int, released: set<int>, r: int)
    requires r in db.runs && r !in released
    ensures var was, now := ReleasedRuns(db, build, released), ReleasedRuns(db, build, released + {r});
            && was.runs[r] == db.runs[r]
            && now.runs == was.runs[r := Queue(db.runs[r])]
            && now.starts == was.starts + {r}
            && now.signals == if SignalKey(r, build) in was.signals then was.signals
                              else was.signals[SignalKey(r, build) := InFlight]
  {
    var was, now := ReleasedRuns(db, build, released), ReleasedRuns(db, build, released + {r});
    assert SignalKey(r, build) in SignalKeys(released + {r}, build);
    forall k ensures k in now.signals <==> k in was.signals || k == SignalKey(r, build) {
      if k in SignalKeys(released, build) {
        assert k.run in released && k in SignalKeys(released + {r}, build);
      }
    }
  }

  // ---------- the same, row by row ----------

  /** A finished command failed with its generation; a reindex goes on to discovery, an index build is over. */
  predicate CommandFinished(kind: CommandType, failed: int, status: CommandStatus) {
    && (status == FailedForever <==> failed != 0)
    && (status == InProgress <==> failed == 0 && kind == Reindex)
    && (status == Succeeded <==> failed == 0 && kind != Reindex)
  }

  /** Only this row of the table has changed, or been added. */
  ghost predicate OnlyRow<K, V>(was: map<K, V>, now: map<K, V>, key: K) {
    key in now && now == was[key := now[key]]
  }

  ghost predicate FinishedRows(was: Db, now: Db, p: Progress) {
    && OnlyRow(was.builds, now.builds, p.build) && p.build in was.builds
    && now.builds[p.build] == BuildRow(Some(p.command), if p.failed == 0 then Complete else Failed,
                                       was.builds[p.build].model, p.total, p.embedded, p.failed, was.clock)
    && OnlyRow(was.commands, now.commands, p.command) && p.command in was.commands
    && now.commands[p.command].kind == was.commands[p.command].kind
    && now.commands[p.command].temporal == was.commands[p.command].temporal
    && CommandFinished(was.commands[p.command].kind, p.failed, now.commands[p.command].status)
    && now.clock == was.clock + 1
    && if p.failed == 0 then RunsReleased(was, now, p.build)
       else now.runs == was.runs && now.starts == was.starts && now.signals == was.signals
  }

  /** Every run that waits for the index is queued, with a start intent and one signal intent for this build. */
  ghost predicate RunsReleased(was: Db, now: Db, build: int) {
    && now.runs.Keys == was.runs.Keys
    && (forall r <- was.runs ::
          var row := was.runs[r];
          now.runs[r] == if row.status == Blocked && row.indexError && row.temporal && row.workflowId.Some?
                         then RunRow(true, row.workflowId, Queued, false, row.suggestion) else row)
    && (forall r :: r in now.starts <==> r in was.starts || (r in was.runs && now.runs[r] != was.runs[r]))
    && (forall k :: k in now.signals <==>
                      k in was.signals || (k.build == build && k.run in was.runs && now.runs[k.run] != was.runs[k.run]))
    && (forall k <- now.signals :: now.signals[k] == if k in was.signals then was.signals[k] else InFlight)
  }

  lemma ReleasedByRow(db: Db, build: int)
    ensures RunsReleased(db, Released(db, build), build)
  {
    var now := Released(db, build);
    assert forall r <- db.runs :: now.runs[r] != db.runs[r] <==> r in BlockedRuns(db.runs);
    forall k
      ensures k in SignalKeys(BlockedRuns(db.runs), build) <==> k.build == build && k.run in BlockedRuns(db.runs)
    {
      if k.build == build && k.run in BlockedRuns(db.runs) {
        assert k == SignalKey(k.run, build);
      }
    }
  }

  lemma FinishedByRow(db: Db, p: Progress)
    requires Finishable(db, p)
    ensures FinishedRows(db, Finished(db, p), p)
  {
    var after := db.(builds := Finished(db, p).builds, commands := Finished(db, p).commands, clock := db.clock + 1);
    if p.failed == 0 {
      ReleasedByRow(after, p.build);
    }
  }

  /** A later report of a finished generation is accepted exactly after a successful reindex. */
  lemma ReportAfterFinish(was: Db, now: Db, p: Progress, q: Progress)
    requires FinishedRows(was, now, p) && q.build == p.build && q.command == p.command
    ensures Projectable(now, q) <==> p.failed == 0 && was.commands[p.command].kind == Reindex
  {
  }

  /** What the readiness check answers: an open review, a finished or cancelled run, and otherwise the gate. */
  predicate Answered(row: RunRow, open: bool, answer: Readiness) {
    && (answer == AlreadyFinished <==> row.status == Done)
    && (answer == CancelledRun <==> row.status in {CancelRequested, Cancelled})
    && (answer.ReviewExists? <==> row.status == Running && row.suggestion.Some?)
    && (answer.ReviewExists? ==> row.suggestion == Some(answer.suggestion))
    && (answer == GateOpen ==> open) && (answer == GateClosed ==> !open)
  }

  /** The gate's answer is written to the run, unless it says so already or is further on. */
  function AfterAnswer(row: RunRow, answer: Readiness): RunRow {
    if answer == GateOpen && row.status in {Pending, Blocked, Retrying}
    then RunRow(row.temporal, row.workflowId, Queued, false, row.suggestion)
    else if answer == GateClosed && row.status != Blocked
    then RunRow(row.temporal, row.workflowId, Blocked, true, row.suggestion)
    else row
  }

  // ---------- the transactions ----------

  class GateStore {
    var builds: map<int, BuildRow>
    var commands: map<int, CommandRow>
    var runs: map<int, RunRow>
    var starts: set<int>
    var signals: map<SignalKey, SignalState>
    var clock: nat

    constructor (db: Db)
      ensures Snapshot() == db
    {
      builds, commands, runs, starts, signals, clock := db.builds, db.commands, db.runs, db.starts, db.signals,
          db.clock;
    }

    ghost function Snapshot(): Db
      reads this
    {
      Db(builds, commands, runs, starts, signals, clock)
    }

    /** _prepare_build_projection. `newId` is the id the insert would draw. */
    method PrepareBuildProjection(command: int, model: string, newId: int) returns (r: Result<int, Error>)
      requires forall b <- builds :: b < newId
      modifies this
      ensures r.Success? <==> Preparable(old(Snapshot()), command)
      ensures r.Failure? ==> Snapshot() == old(Snapshot())
      ensures r.Success? ==>
                && Snapshot() == Prepared(old(Snapshot()), command, r.value, model)
                && (IsBuildOf(old(builds), r.value, command)
                    || (r.value == newId && forall b <- old(builds) :: old(builds)[b].command != Some(command)))
      ensures r.Success? ==>
                && OnlyRow(old(builds), builds, r.value) && OnlyRow(old(commands), commands, command)
                && builds[r.value] == (if r.value in old(builds)
                                       then old(builds)[r.value].(status := Building, updatedAt := old(clock))
                                       else BuildRow(Some(command), Building, model, 0, 0, 0, old(clock)))
                && commands[command] == CommandRow(old(commands)[command].kind, true, InProgress)
                && clock == old(clock) + 1
      ensures runs == old(runs) && starts == old(starts) && signals == old(signals)
      ensures r.Failure? ==>
                r.error == if command !in commands then NoCommand
                           else if commands[command].kind !in {IndexBuild, Reindex} then NotAGeneration
                           else if !commands[command].temporal then NotTemporal else OtherBuildRunning
      ensures r == Failure(OtherBuildRunning) ==>
                exists b <- builds :: builds[b].status == Building && builds[b].command != Some(command)
      ensures r.Success? ==>
                && (r.value in old(builds) ==> old(builds)[r.value].command == Some(command))
                && (forall b <- old(builds) | old(builds)[b].command == Some(command) :: b <= r.value)
                && (r.value !in old(builds) ==>
                      && r.value == newId
                      && forall b <- old(builds) :: old(builds)[b].status == Building ==>
                                                      old(builds)[b].command == Some(command))
      ensures (exists b <- old(builds) :: old(builds)[b].command == Some(command)) ==>
                r != Failure(OtherBuildRunning) && (r.Success? ==> r.value in old(builds))
    {
      if command !in commands { return Failure(NoCommand); }
      if commands[command].kind == OtherCommand { return Failure(NotAGeneration); }
      if !commands[command].temporal { return Failure(NotTemporal); }
      var build := newId;
      var own := set b <- builds | builds[b].command == Some(command);
      if own != {} {
        build := Largest(own);
        assert forall a <- builds | builds[a].command == Some(command) :: a in own;
        assert IsBuildOf(builds, build, command);
        builds := builds[build := builds[build].(status := Building, updatedAt := clock)];
      } else {
        assert forall b <- builds :: b !in own;
        if exists b <- builds :: builds[b].status == Building && builds[b].command != Some(command) {
          return Failure(OtherBuildRunning);
        }
        builds := builds[build := BuildRow(Some(command), Building, model, 0, 0, 0, clock)];
      }
      commands := commands[command := commands[command].(status := InProgress)];
      clock := clock + 1;
      return Success(build);
    }

    /** _finish_embedding_generation. */
    method FinishEmbeddingGeneration(p: Progress) returns (r: Result<(), Error>)
      modifies this
      ensures r.Success? <==> Finishable(old(Snapshot()), p)
      ensures Snapshot() == if r.Success? then Finished(old(Snapshot()), p) else old(Snapshot())
      ensures r.Success? ==> FinishedRows(old(Snapshot()), Snapshot(), p)
      ensures r.Failure? <==> p.build !in old(builds) || old(builds)[p.build].command != Some(p.command)
                              || p.command !in old(commands)
      ensures r.Failure? ==> r.error == if p.build in builds && builds[p.build].command == Some(p.command)
                                        then NoCommand else NoBuild
    {
      if Finishable(Snapshot(), p) {
        FinishedByRow(Snapshot(), p);
      }
      if p.build !in builds || builds[p.build].command != Some(p.command) { return Failure(NoBuild); }
      if p.command !in commands { return Failure(NoCommand); }
      var ok := p.failed == 0;
      builds := builds[p.build := builds[p.build].(status := if ok then Complete else Failed, total := p.total,
                                                   embedded := p.embedded, failed := p.failed, updatedAt := clock)];
      var row := commands[p.command];
      commands := commands[p.command := row.(
        status := if !ok then FailedForever else if row.kind == Reindex then InProgress else Succeeded)];
      clock := clock + 1;
      if ok {
        ReleaseBlockedDocumentWorkflows(p.build);
      }
      return Success(());
    }

    /** _release_blocked_document_workflows: one pass over the rows that the query locked. */
    method ReleaseBlockedDocumentWorkflows(build: int)
      modifies this`runs, this`starts, this`signals
      ensures Snapshot() == Released(old(Snapshot()), build)
      ensures RunsReleased(old(Snapshot()), Snapshot(), build)
    {
      var rows := BlockedRuns(runs);
      ghost var before := Snapshot();
      ghost var released := {};
      assert ReleasedRuns(before, build, {}) == before;
      while rows != {}
        invariant rows !! released && rows + released == BlockedRuns(before.runs)
        invariant Snapshot() == ReleasedRuns(before, build, released)
        decreases rows
      {
        ghost var some := Pick(rows);
        var r :| r in rows;
        ReleaseOneMore(before, build, released, r);
        rows, released := rows - {r}, released + {r};
        runs := runs[r := Queue(runs[r])];
        starts := starts + {r};
        if SignalKey(r, build) !in signals {  // ON CONFLICT DO NOTHING
          signals := signals[SignalKey(r, build) := InFlight];
        }
      }
      assert released == BlockedRuns(before.runs);
      ReleasedByRow(before, build);
    }

    method ProjectEmbeddingProgress(p: Progress) returns (r: Result<(), Error>)
      modifies this
      ensures r.Success? <==> Projectable(old(Snapshot()), p)
      ensures Snapshot() == if r.Success? then Projected(old(Snapshot()), p) else old(Snapshot())
      ensures r.Failure? <==> p.build !in old(builds) || old(builds)[p.build].command != Some(p.command)
                              || p.command !in old(commands) || old(commands)[p.command].status != InProgress
      ensures r.Success? ==>
                && OnlyRow(old(builds), builds, p.build) && clock == old(clock) + 1
                && p.build in old(builds)
                && builds[p.build] == BuildRow(Some(p.command), old(builds)[p.build].status, old(builds)[p.build].model,
                                               p.total, p.embedded, p.failed, old(clock))
      ensures commands == old(commands) && runs == old(runs) && starts == old(starts) && signals == old(signals)
    {
      if p.build !in builds || builds[p.build].command != Some(p.command) { return Failure(NoBuild); }
      if p.command !in commands || commands[p.command].status != InProgress { return Failure(CommandNotRunning); }
      builds := builds[p.build := builds[p.build].(total := p.total, embedded := p.embedded, failed := p.failed,
                                                   updatedAt := clock)];
      clock := clock + 1;
      return Success(());
    }

    method FailEmbeddingPreparation(command: int)
      modifies this
      ensures Snapshot() == PreparationFailed(old(Snapshot()), command)
      ensures builds.Keys == old(builds).Keys && clock == old(clock) + 1
      ensures forall b <- builds ::
                builds[b] == if old(builds)[b].command == Some(command) && old(builds)[b].status == Building
                             then old(builds)[b].(status := Failed, updatedAt := old(clock)) else old(builds)[b]
      ensures commands.Keys == old(commands).Keys
      ensures forall c <- commands ::
                commands[c] == if c == command && old(commands)[c].status in {Waiting, InProgress}
                               then old(commands)[c].(status := FailedForever) else old(commands)[c]
      ensures runs == old(runs) && starts == old(starts) && signals == old(signals)
    {
      builds := map b <- builds ::
        (if builds[b].command == Some(command) && builds[b].status == Building
         then builds[b].(status := Failed, updatedAt := clock) else builds[b]);
      if command in commands && commands[command].status in {Waiting, InProgress} {
        commands := commands[command := commands[command].(status := FailedForever)];
      }
      clock := clock + 1;
    }

    /** _check_document_readiness. */
    method CheckDocumentReadiness(run: int, model: string) returns (r: Result<Readiness, Error>)
      modifies this`runs
      ensures r.Failure? <==> run !in old(runs) || !old(runs)[run].temporal
      ensures r.Failure? ==> Snapshot() == old(Snapshot())
      ensures r.Success? ==>
                r.value == CheckResult(old(Snapshot()), run, model)
                    && Snapshot() == Checked(old(Snapshot()), run, model)
      ensures r.Success? ==> Answered(old(runs)[run], Ready(builds, model), r.value)
      ensures r.Success? ==>
                && OnlyRow(old(runs), runs, run)
                && runs[run] == AfterAnswer(old(runs)[run], r.value)
    {
      if run !in runs || !runs[run].temporal { return Failure(NoRun); }
      var row := runs[run];
      if row.suggestion.Some? && row.status == Running { return Success(ReviewExists(row.suggestion.value)); }
      if row.status == Done { return Success(AlreadyFinished); }
      if row.status == CancelRequested || row.status == Cancelled { return Success(CancelledRun); }
      if Ready(builds, model) {
        if row.status in {Pending, Blocked, Retrying} {
          runs := runs[run := row.(status := Queued, indexError := false)];
        }
        return Success(GateOpen);
      }
      if row.status != Blocked {
        runs := runs[run := row.(status := Blocked, indexError := true)];
      }
      return Success(GateClosed);
    }
  }

  /** The largest element, as ORDER BY id DESC LIMIT 1 picks it. */
  method Largest(s: set<int>) returns (m: int)
    requires s != {}
    ensures m in s && forall x <- s :: x <= m
  {
    ghost var some := Pick(s);
    m :| m in s;
    var rest := s - {m};
    while rest != {}
      invariant rest <= s && m in s
      invariant forall x <- s :: x in rest || x <= m
      decreases rest
    {
      some := Pick(rest);
      var x :| x in rest;
      rest := rest - {x};
      if x > m { m := x; }
    }
  }
}
