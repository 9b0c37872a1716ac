/** The advisory lease that document actors share and index builds hold alone, and
    the readiness it makes stable. */
module PipelineFence {
  import opened Wrappers
  import Gate = EmbeddingGate

  // ---------- one lease, with every failure point ----------

  datatype UnlockResult = Released | NotOwned | UnlockRaised

  /** What escapes from the lease, and the cleanup failures noted on it. */
  datatype Raised = Acquisition | Callback | Unlock | Close

  datatype Outcome = Outcome(raised: Option<Raised>, notes: seq<Raised>, unlockTried: bool, closeTried: bool)

  /** _lease around a callback. The first cursor may take the lock and still fail on
      teardown; the server owns the lock from then on. */
  method Lease(lockTaken: bool, teardownFails: bool, callbackFails: bool, unlock: UnlockResult, closeFails: bool)
    returns (o: Outcome)
    ensures o.unlockTried <==> lockTaken
    ensures o.closeTried
    ensures var primary := if !lockTaken || teardownFails then Some(Acquisition)
                           else if callbackFails then Some(Callback) else None;
            var cleanup := (if lockTaken && unlock != Released then [Unlock] else [])
                           + (if closeFails then [Close] else []);
            if primary.Some? then o.raised == primary && o.notes == cleanup
            else if cleanup != [] then o.raised == Some(cleanup[0]) && o.notes == cleanup[1..]
            else o.raised == None && o.notes == []
  {
    var acquired := false;
    var primary: Option<Raised> := None;
    var cleanupFailure: Option<Raised> := None;
    var notes := [];
    if lockTaken {
      acquired := true;
      if teardownFails { primary := Some(Acquisition); }
    } else {
      primary := Some(Acquisition);
    }
    if primary.None? && callbackFails {
      primary := Some(Callback);
    }
    if acquired && unlock != Released {
      if primary.Some? { notes := notes + [Unlock]; } else { cleanupFailure := Some(Unlock); }
    }
    if closeFails {
      if primary.Some? || cleanupFailure.Some? { notes := notes + [Close]; } else { cleanupFailure := Some(Close); }
    }
    o := Outcome(if primary.Some? then primary else cleanupFailure, notes, acquired, true);
  }

  // ---------- stability of a readiness read under the lease ----------

  /** ORDER BY created_at DESC, id DESC: the newest generation of the model is complete. */
  predicate NewestComplete(builds: map<int, Gate.BuildRow>, model: string) {
    exists b <- builds :: IsNewest(builds, b, model) && builds[b].status == Gate.Complete
  }

  predicate IsNewest(builds: map<int, Gate.BuildRow>, b: int, model: string)
    requires b in builds
  {
    builds[b].model == model && forall a <- builds | builds[a].model == model :: a <= b
  }

  /** Sessions holding the lease; a reader is marked once it has read "ready". */
  datatype System = System(db: Gate.Db, model: string, readers: map<int, bool>, writer: Option<int>)

  datatype Event =
    | AcquireShared(session: int)
    | ReadReadiness(session: int)
    | ReleaseShared(session: int)
    | AcquireExclusive(session: int)
    | ReleaseExclusive(session: int)
    | LegacyWrite(session: int, build: int, row: Gate.BuildRow)  // any index write of a legacy build or reindex
    | Prepare(command: int, build: int, buildModel: string)      // takes the same key for its transaction
    | Project(progress: Gate.Progress)
    | Finish(progress: Gate.Progress)
    | FailPreparation(command: int)

  function Step(s: System, ev: Event): System {
    match ev
    case AcquireShared(x) => if s.writer.None? && x !in s.readers then s.(readers := s.readers[x := false]) else s
    case ReadReadiness(x) =>
      if x in s.readers then s.(readers := s.readers[x := NewestComplete(s.db.builds, s.model)]) else s
    case ReleaseShared(x) => s.(readers := s.readers - {x})
    case AcquireExclusive(x) => if s.writer.None? && s.readers == map[] then s.(writer := Some(x)) else s
    case ReleaseExclusive(x) => if s.writer == Some(x) then s.(writer := None) else s
    case LegacyWrite(x, b, row) => if s.writer == Some(x) then s.(db := s.db.(builds := s.db.builds[b := row])) else s
    case Prepare(command, b, model) =>
      if s.writer.None? && s.readers == map[] && Gate.Preparable(s.db, command)
      then s.(db := Gate.Prepared(s.db, command, b, model)) else s
    case Project(p) => if Gate.Projectable(s.db, p) then s.(db := Gate.Projected(s.db, p)) else s
    case Finish(p) => if Gate.Finishable(s.db, p) then s.(db := Gate.Finished(s.db, p)) else s
    case FailPreparation(command) => s.(db := Gate.PreparationFailed(s.db, command))
  }

  /** The reading is the status of the model's generation with the largest id, and "not ready" without one. */
  lemma NewestDecides(builds: map<int, Gate.BuildRow>, b: int, model: string)
    ensures b in builds && builds[b].model == model && (forall a <- builds :: a > b ==> builds[a].model != model) ==>
              (NewestComplete(builds, model) <==> builds[b].status == Gate.Complete)
    ensures (forall a <- builds :: builds[a].model != model) ==> !NewestComplete(builds, model)
  {
    if b in builds && builds[b].model == model && forall a <- builds :: a > b ==> builds[a].model != model {
      assert IsNewest(builds, b, model);
    }
  }

  /** Readers share the lease, a writer has it alone; whoever gets it has read nothing yet, and only its holder
      gives it back. */
  lemma LeaseIsSharedOrExclusive(s: System, x: int)
    ensures var t := Step(s, AcquireShared(x));
            t == if x !in s.readers && s.writer == None then s.(readers := s.readers[x := false]) else s
    ensures var t := Step(s, AcquireExclusive(x));
            t == if s.writer == None && |s.readers| == 0 then s.(writer := Some(x)) else s
    ensures Step(s, ReleaseShared(x)) == s.(readers := map y <- s.readers | y != x :: s.readers[y])
    ensures Step(s, ReleaseExclusive(x)) == if s.writer == Some(x) then s.(writer := None) else s
    ensures var t := Step(s, ReadReadiness(x));
            && t.readers.Keys == s.readers.Keys && t == s.(readers := t.readers)
            && (x in s.readers ==> (t.readers[x] <==> NewestComplete(s.db.builds, s.model)))
            && forall y <- s.readers | y != x :: t.readers[y] == s.readers[y]
  {
    assert |s.readers| == 0 <==> s.readers == map[];
  }

  /** A build writes only as the writer, and a generation is prepared only while nobody holds the lease; what
      Temporal writes later takes no lease. */
  lemma WhoWrites(s: System, ev: Event)
    ensures ev.LegacyWrite? ==>
              Step(s, ev).db.builds == if s.writer == Some(ev.session) then s.db.builds[ev.build := ev.row]
                                       else s.db.builds
    ensures ev.Prepare? ==>
              Step(s, ev).db == if s.writer == None && s.readers.Keys == {} && Gate.Preparable(s.db, ev.command)
                                then Gate.Prepared(s.db, ev.command, ev.build, ev.buildModel) else s.db
    ensures ev.Project? ==>
              Step(s, ev).db == if Gate.Projectable(s.db, ev.progress) then Gate.Projected(s.db, ev.progress) else s.db
    ensures ev.Finish? ==>
              Step(s, ev).db == if Gate.Finishable(s.db, ev.progress) then Gate.Finished(s.db, ev.progress) else s.db
    ensures ev.FailPreparation? ==> Step(s, ev).db == Gate.PreparationFailed(s.db, ev.command)
    ensures Step(s, ev).model == s.model
  {
    assert s.readers.Keys == {} <==> s.readers == map[];
  }

  function Run(s: System, evs: seq<Event>): System {
    if evs == [] then s else Step(Run(s, evs[..|evs| - 1]), evs[|evs| - 1])
  }

  predicate Held(s: System) {
    s.writer.Some? ==> s.readers == map[]
  }

  /** Whoever read "ready" under its shared lease still has a complete newest generation. */
  predicate ReadsHold(s: System) {
    forall x <- s.readers :: s.readers[x] ==> NewestComplete(s.db.builds, s.model)
  }

  /** One outcome per generation: a completed one does not finish again with failures. */
  predicate OneOutcome(s: System, ev: Event) {
    ev.Finish? && Gate.Finishable(s.db, ev.progress) && s.db.builds[ev.progress.build].status == Gate.Complete
    ==> ev.progress.failed == 0
  }

  predicate AllOneOutcome(s: System, evs: seq<Event>) {
    forall k | 0 <= k < |evs| :: OneOutcome(Run(s, evs[..k]), evs[k])
  }

  /** An index update that leaves every complete row complete and adds no row. */
  lemma KeepsNewestComplete(before: map<int, Gate.BuildRow>, after: map<int, Gate.BuildRow>, model: string)
    requires before.Keys == after.Keys
    requires forall b <- before :: after[b].model == before[b].model
              && (before[b].status == Gate.Complete ==> after[b].status == Gate.Complete)
    requires NewestComplete(before, model)
    ensures NewestComplete(after, model)
  {
    var b :| b in before && IsNewest(before, b, model) && before[b].status == Gate.Complete;
    assert IsNewest(after, b, model);
  }

  lemma StepKeepsReads(s: System, ev: Event)
    requires Held(s) && ReadsHold(s) && OneOutcome(s, ev)
    ensures Held(Step(s, ev)) && ReadsHold(Step(s, ev))
  {
    var t := Step(s, ev);
    if (ev.Project? || ev.Finish? || ev.FailPreparation?) && NewestComplete(s.db.builds, s.model) {
      KeepsNewestComplete(s.db.builds, t.db.builds, s.model);
    }
  }

  /** In every interleaving with exclusive builds and Temporal generations, readiness
      that a document actor read on its lease stays true until it releases the lease. */
  lemma {:induction false} ReadinessIsStableUnderLease(s: System, evs: seq<Event>)
    requires s.readers == map[] && AllOneOutcome(s, evs)
    ensures Held(Run(s, evs)) && ReadsHold(Run(s, evs))
  {
    if evs != [] {
      var prior := evs[..|evs| - 1];
      forall k | 0 <= k < |prior| ensures OneOutcome(Run(s, prior[..k]), prior[k]) {
        assert prior[..k] == evs[..k];
        assert OneOutcome(Run(s, evs[..k]), evs[k]);
      }
      ReadinessIsStableUnderLease(s, prior);
      assert OneOutcome(Run(s, evs[..|evs| - 1]), evs[|evs| - 1]);
      StepKeepsReads(Run(s, prior), evs[|evs| - 1]);
    }
  }

  /** The lease alone does not keep the gate open: finishing takes no lock, so a second,
      failing outcome of the newest generation closes it, and only that does. */
  lemma FinishUnderLeaseBreaksReadsIffSecondOutcome(s: System, p: Gate.Progress, x: int)
    requires x in s.readers && s.readers[x] && ReadsHold(s) && Gate.Finishable(s.db, p)
    ensures ReadsHold(Step(s, Finish(p))) <==> !(IsNewest(s.db.builds, p.build, s.model) && p.failed != 0)
  {
    var b :| b in s.db.builds && IsNewest(s.db.builds, b, s.model) && s.db.builds[b].status == Gate.Complete;
    var t := Step(s, Finish(p));
    assert IsNewest(t.db.builds, b, s.model);
    if IsNewest(s.db.builds, p.build, s.model) && p.failed != 0 {
      forall c <- t.db.builds | IsNewest(t.db.builds, c, s.model) ensures t.db.builds[c].status != Gate.Complete {
        assert c <= b && b <= c;
      }
    }
  }

  // ---------- such a second outcome is reachable ----------

  const START := System(
    Gate.Db(map[], map[1 := Gate.CommandRow(Gate.IndexBuild, true, Gate.Waiting)], map[], {}, map[], 1), "m",
        map[], None)

  const BUILT := Gate.BuildRow(Some(1), Gate.Building, "m", 0, 0, 0, 1)

  lemma RunAppend(s: System, evs: seq<Event>, ev: Event)
    ensures Run(s, evs + [ev]) == Step(Run(s, evs), ev)
  {
    assert (evs + [ev])[..|evs|] == evs;
  }

  lemma OnlyBuildIsNewest(s: System, status: Gate.BuildStatus)
    requires s.model == "m" && s.db.builds.Keys == {1} && s.db.builds[1].model == "m" && s.db.builds[1].status == status
    ensures IsNewest(s.db.builds, 1, "m")
    ensures NewestComplete(s.db.builds, s.model) <==> status == Gate.Complete
  {
    assert 1 in s.db.builds.Keys;
  }

  /** One generation prepared and completed. */
  lemma CompletedGeneration() returns (evs: seq<Event>)
    ensures var s := Run(START, evs);
            && s.model == "m" && s.readers == map[] && s.writer == None
            && s.db.commands.Keys == {1} && s.db.builds.Keys == {1}
            && s.db.builds[1].command == Some(1) && s.db.builds[1].model == "m"
                && s.db.builds[1].status == Gate.Complete
  {
    evs := [Prepare(1, 1, "m")] + [Finish(Gate.Progress(1, 1, 0, 0, 0))];
    RunAppend(START, [], Prepare(1, 1, "m"));
    assert [] + [Prepare(1, 1, "m")] == [Prepare(1, 1, "m")];
    var prepared := Step(START, Prepare(1, 1, "m"));
    assert prepared.db.builds == map[1 := BUILT];
    RunAppend(START, [Prepare(1, 1, "m")], Finish(Gate.Progress(1, 1, 0, 0, 0)));
  }

  /**
   * From a system without readers: a generation completes, a reader takes the lease and reads
   * "ready", and the same generation gets a second, failing outcome while the lease is held.
   */
  lemma SecondOutcomeBreaksReading() returns (evs: seq<Event>)
    ensures START.readers == map[] && Held(START) && ReadsHold(START)
    ensures var s := Run(START, evs);
            5 in s.readers && s.readers[5] && !NewestComplete(s.db.builds, s.model) && !ReadsHold(s)
  {
    var second := Finish(Gate.Progress(1, 1, 1, 0, 1));
    evs := CompletedGeneration();
    OnlyBuildIsNewest(Run(START, evs), Gate.Complete);
    RunAppend(START, evs, AcquireShared(5));
    RunAppend(START, evs + [AcquireShared(5)], ReadReadiness(5));
    RunAppend(START, evs + [AcquireShared(5)] + [ReadReadiness(5)], second);
    evs := evs + [AcquireShared(5)] + [ReadReadiness(5)] + [second];
    OnlyBuildIsNewest(Run(START, evs), Gate.Failed);
  }
}
