/** The counting loop of `EmbeddingIndexWorkflow._run_generation` (app/temporal/workflows.py). */
module EmbeddingWorkflow {
  import opened Wrappers
  import opened EmbeddingGate

  /** How one document ends: embedded, gone or otherwise skipped, or out of retries. */
  datatype Outcome = Embedded | NotEmbedded | OutOfRetries

  datatype Counters = Counters(total: int, embedded: nat, failed: nat)

  function Count(outcomes: seq<Outcome>, o: Outcome): (n: nat)
    ensures n <= |outcomes|
  {
    if outcomes == [] then 0
    else Count(outcomes[..|outcomes| - 1], o) + if outcomes[|outcomes| - 1] == o then 1 else 0
  }

  /** The counters after the first `i` documents. */
  function After(outcomes: seq<Outcome>, i: nat): Counters
    requires i <= |outcomes|
  {
    Counters(|outcomes| - Count(outcomes[..i], NotEmbedded), Count(outcomes[..i], Embedded),
             Count(outcomes[..i], OutOfRetries))
  }

  lemma {:induction false} EveryOutcomeIsCounted(outcomes: seq<Outcome>)
    ensures Count(outcomes, Embedded) + Count(outcomes, NotEmbedded) + Count(outcomes, OutOfRetries) == |outcomes|
    ensures Count(outcomes, OutOfRetries) == 0 <==> OutOfRetries !in outcomes
  {
    if outcomes != [] {
      var front := outcomes[..|outcomes| - 1];
      EveryOutcomeIsCounted(front);
      assert outcomes == front + [outcomes[|outcomes| - 1]];
    }
  }

  lemma CountStep(outcomes: seq<Outcome>, i: nat, o: Outcome)
    requires i < |outcomes|
    ensures Count(outcomes[..i + 1], o) == Count(outcomes[..i], o) + if outcomes[i] == o then 1 else 0
  {
    assert outcomes[..i + 1][..i] == outcomes[..i];
  }

  /**
   * At every report the work done is at most the total, exactly the documents still to come are
   * missing from it, and after the last document nothing is missing.
   */
  lemma ReportsAddUp(outcomes: seq<Outcome>, i: nat)
    requires i <= |outcomes|
    ensures var c := After(outcomes, i);
            && c.embedded + c.failed + (|outcomes| - i) == c.total
            && (c.embedded + c.failed == c.total <==> i == |outcomes|)
            && (c.failed == 0 <==> OutOfRetries !in outcomes[..i])
  {
    EveryOutcomeIsCounted(outcomes[..i]);
  }

  /** `marked`: the activity that fails the generation committed; it may run out of retries as well. */
  datatype Ending = Completed(total: int, embedded: nat, failed: nat) | GaveUp(marked: bool)

  /** A build of the command is still running. */
  predicate StillBuilding(builds: map<int, BuildRow>, command: int) {
    exists b <- builds :: builds[b].command == Some(command) && builds[b].status == Building
  }

  /** What a progress report or a finish does to the question whether a build is running. */
  lemma ReportKeepsRunning(db: Db, p: Progress)
    requires Projectable(db, p)
    ensures StillBuilding(Projected(db, p).builds, p.command) <==> StillBuilding(db.builds, p.command)
  {
    var after := Projected(db, p).builds;
    if StillBuilding(db.builds, p.command) {
      var b :| b in db.builds && db.builds[b].command == Some(p.command) && db.builds[b].status == Building;
      assert b in after && after[b].command == Some(p.command) && after[b].status == Building;
    }
    if StillBuilding(after, p.command) {
      var b :| b in after && after[b].command == Some(p.command) && after[b].status == Building;
      assert b in db.builds && db.builds[b].command == Some(p.command) && db.builds[b].status == Building;
    }
  }

  /** Marking a generation failed leaves no build of its command running. */
  lemma MarkedIsNotRunning(db: Db, command: int)
    ensures !StillBuilding(PreparationFailed(db, command).builds, command)
  {
  }

  /** A build left running keeps every command without a build of its own from preparing one. */
  lemma RunningBuildBlocksOthers(db: Db, command: int, other: int)
    requires StillBuilding(db.builds, command) && other != command
    requires !exists b <- db.builds :: db.builds[b].command == Some(other)
    ensures !Preparable(db, other)
  {
    var b :| b in db.builds && db.builds[b].command == Some(command) && db.builds[b].status == Building;
  }

  class EmbeddingIndexWorkflow {
    const store: GateStore
    var reports: seq<Counters>

    constructor (store: GateStore)
      ensures this.store == store && reports == []
    {
      this.store, reports := store, [];
    }

    /** fail_embedding_preparation, which may run out of retries without having committed. */
    method GiveUp(command: int) returns (ending: Ending)
      modifies store
      ensures ending.GaveUp?
      ensures StillBuilding(store.builds, command) <==> !ending.marked && StillBuilding(old(store.builds), command)
      ensures !ending.marked ==> store.Snapshot() == old(store.Snapshot())
      ensures ending.marked && command in old(store.commands) ==>
                && command in store.commands
                && store.commands[command].status == if old(store.commands)[command].status in {Waiting, InProgress}
                                                     then FailedForever else old(store.commands)[command].status
    {
      var committed: bool := *;
      if committed {
        MarkedIsNotRunning(store.Snapshot(), command);
        store.FailEmbeddingPreparation(command);
      }
      ending := GaveUp(committed);
    }

    /** One progress report; it changes no build's status and touches only its own build. */
    method Report(p: Progress) returns (reported: bool)
      modifies store
      ensures StillBuilding(store.builds, p.command) <==> StillBuilding(old(store.builds), p.command)
      ensures store.builds - {p.build} == old(store.builds) - {p.build}
      ensures store.commands == old(store.commands)
      ensures reported ==>
                Projectable(old(store.Snapshot()), p) && store.Snapshot() == Projected(old(store.Snapshot()), p)
    {
      if Projectable(store.Snapshot(), p) {
        ReportKeepsRunning(store.Snapshot(), p);
      }
      var r := store.ProjectEmbeddingProgress(p);
      var exhausted: bool := *;
      reported := r.Success? && !exhausted;
    }

    /**
     * _run_generation for a prepared build, with the outcome of every document. A completed
     * generation is stored with counters that add up, and is complete exactly when no document ran
     * out of retries. One that was given up leaves a build of the command running exactly when the
     * activity that marks it failed did not commit and its builds, without the finished one, were.
     */
    method RunGeneration(command: int, build: int, outcomes: seq<Outcome>)
      returns (ending: Ending, finished: bool)
      requires reports == [] && store as object != this
      modifies this, store
      ensures forall i :: 0 <= i < |reports| ==> i < |outcomes| && reports[i] == After(outcomes, i + 1)
      ensures ending.Completed? ==>
                && finished && |reports| == |outcomes|
                && ending.total == ending.embedded + ending.failed
                && build in store.builds
                && store.builds[build].total == ending.total
                && store.builds[build].embedded == Count(outcomes, Embedded)
                && store.builds[build].failed == Count(outcomes, OutOfRetries)
                && store.builds[build].status == (if OutOfRetries in outcomes then Failed else Complete)
                && command in old(store.commands) && command in store.commands
                && CommandFinished(old(store.commands)[command].kind, Count(outcomes, OutOfRetries),
                                   store.commands[command].status)
      ensures ending.GaveUp? ==>
                (StillBuilding(store.builds, command)
                 <==> !ending.marked && StillBuilding(old(store.builds) - (if finished then {build} else {}), command))
    {
      var total: int, embedded, failed := |outcomes|, 0, 0;
      var r: Result<(), Error>, exhausted: bool;
      finished := false;
      for i := 0 to |outcomes|
        invariant Counters(total, embedded, failed) == After(outcomes, i)
        invariant |reports| == i && forall j :: 0 <= j < i ==> reports[j] == After(outcomes, j + 1)
        invariant StillBuilding(store.builds, command) <==> StillBuilding(old(store.builds), command)
        invariant store.builds - {build} == old(store.builds) - {build}
        invariant store.commands == old(store.commands)
      {
        CountStep(outcomes, i, Embedded);
        CountStep(outcomes, i, NotEmbedded);
        CountStep(outcomes, i, OutOfRetries);
        match outcomes[i] {
          case Embedded => embedded := embedded + 1;
          case NotEmbedded => total := total - 1;
          case OutOfRetries => failed := failed + 1;
        }
        var reported := Report(Progress(command, build, total, embedded, failed));
        if !reported {
          ending := GiveUp(command);
          assert old(store.builds) - {} == old(store.builds);
          return;
        }
        reports := reports + [Counters(total, embedded, failed)];
      }
      assert outcomes[..|outcomes|] == outcomes;
      EveryOutcomeIsCounted(outcomes);
      var progress := Progress(command, build, total, embedded, failed);
      ghost var before := store.Snapshot();
      r := store.FinishEmbeddingGeneration(progress);
      finished := r.Success?;
      exhausted := *;
      if finished {
        FinishedIsNotRunning(before, progress);
      }
      if r.Failure? || exhausted {
        ending := GiveUp(command);
        assert old(store.builds) - {} == old(store.builds);
        return;
      }
      ending := Completed(total, embedded, failed);
    }
  }

  /** A finished build is not running; the command's other builds are as before. */
  lemma FinishedIsNotRunning(db: Db, p: Progress)
    requires Finishable(db, p)
    ensures StillBuilding(Finished(db, p).builds, p.command) <==> StillBuilding(db.builds - {p.build}, p.command)
  {
    var after, others := Finished(db, p).builds, db.builds - {p.build};
    if StillBuilding(after, p.command) {
      var b :| b in after && after[b].command == Some(p.command) && after[b].status == Building;
      assert b in others && others[b].command == Some(p.command) && others[b].status == Building;
    }
    if StillBuilding(others, p.command) {
      var b :| b in others && others[b].command == Some(p.command) && others[b].status == Building;
      assert b in after && after[b].command == Some(p.command) && after[b].status == Building;
    }
  }
}
