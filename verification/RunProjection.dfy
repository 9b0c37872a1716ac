/**
 * The projections of a Temporal document workflow onto its pipeline run
 * (app/temporal/document_phase_activities.py): published for review, finished, superseded.
 */
module RunProjection {
  import opened Wrappers

  /** `pipeline_runs.status`; the statuses these projections neither test nor write are kept by name. */
  datatype Status = Running | Succeeded | FailedPermanent | Cancelled | OtherStatus(name: string)

  /** `progress_current_phase`; the model names the phases these projections test or write. */
  datatype Phase = AwaitingReview | ReviewSuggestion | Done | SupersededPhase | OtherPhase(name: string)

  datatype Row = Row(temporal: bool, status: Status, phase: Option<Phase>)

  datatype Suggestion = PendingSuggestion | StaleSuggestion | OtherSuggestion

  datatype Outcome = Committed | Rejected | Superseded

  datatype Event =
    | SuggestionStored(suggestion: int)
    | WorkflowCompleted(outcome: Outcome)
    | WorkflowSuperseded(replacement: int)

  datatype Error = InvalidOutcome | RunMissing | AlreadyTerminal | NotWaitingForReview

  /** One run with its review suggestions and the events written about it. */
  datatype Db = Db(row: Option<Row>, suggestions: seq<Suggestion>, events: seq<Event>)

  datatype Projection =
    | Publish(suggestion: int)
    | Finish(outcome: Option<Outcome>)
    | Supersede(replacement: int)

  function FinishedStatus(o: Outcome): Status {
    if o.Superseded? then Cancelled else Succeeded
  }

  function FinishedPhase(o: Outcome): Phase {
    if o.Superseded? then SupersededPhase else Done
  }

  function Stale(s: seq<Suggestion>): (r: seq<Suggestion>)
    ensures |r| == |s|
    ensures forall i :: 0 <= i < |s| ==> r[i] == if s[i].PendingSuggestion? then StaleSuggestion else s[i]
  {
    seq(|s|, i requires 0 <= i < |s| => if s[i].PendingSuggestion? then StaleSuggestion else s[i])
  }

  predicate Owned(db: Db) {
    db.row.Some? && db.row.value.temporal
  }

  /** One projection as a transaction. */
  function Projected(db: Db, p: Projection): (Db, Result<(), Error>) {
    match p
    case Publish(suggestion) =>
      if !Owned(db) then (db, Failure(NotWaitingForReview))
      else if db.row.value.phase == Some(AwaitingReview) then (db, Success(()))
      else (db.(row := Some(Row(true, Running, Some(AwaitingReview))),
                events := db.events + [SuggestionStored(suggestion)]), Success(()))
    case Finish(None) => (db, Failure(InvalidOutcome))
    case Finish(Some(o)) =>
      if !Owned(db) then (db, Failure(RunMissing))
      else if && db.row.value.status !in {FailedPermanent, Cancelled}
              && db.row.value.phase in {Some(AwaitingReview), Some(ReviewSuggestion)} then
        (db.(row := Some(Row(true, FinishedStatus(o), Some(FinishedPhase(o)))),
             events := db.events + [WorkflowCompleted(o)]), Success(()))
      else if db.row.value.status == FinishedStatus(o) && db.row.value.phase == Some(FinishedPhase(o)) then
        (db, Success(()))
      else (db, Failure(AlreadyTerminal))
    case Supersede(replacement) =>
      if !Owned(db) then (db, Failure(RunMissing))
      else if db.row.value.status !in {Succeeded, FailedPermanent, Cancelled} then
        (Db(Some(Row(true, Cancelled, Some(SupersededPhase))), Stale(db.suggestions),
            db.events + [WorkflowSuperseded(replacement)]), Success(()))
      else if db.row.value.status == Cancelled && db.row.value.phase == Some(SupersededPhase) then (db, Success(()))
      else (db, Failure(AlreadyTerminal))
  }

  class ProjectionStore {
    var row: Option<Row>
    var suggestions: seq<Suggestion>
    var events: seq<Event>

    ghost function Snapshot(): Db
      reads this
    {
      Db(row, suggestions, events)
    }

    constructor (db: Db)
      ensures Snapshot() == db
    {
      row, suggestions, events := db.row, db.suggestions, db.events;
    }

    /** _finish_document_projection. */
    method FinishDocumentProjection(suggestion: int) returns (r: Result<(), Error>)
      modifies this
      ensures (Snapshot(), r) == Projected(old(Snapshot()), Publish(suggestion))
    {
      var updated := row.Some? && row.value.temporal && row.value.phase != Some(AwaitingReview);
      if updated {
        row := Some(row.value.(status := Running, phase := Some(AwaitingReview)));
      } else {
        if row.Some? && row.value.temporal && row.value.phase == Some(AwaitingReview) {
          return Success(());
        }
        return Failure(NotWaitingForReview);
      }
      events := events + [SuggestionStored(suggestion)];
      r := Success(());
    }

    /** _finish_document_review_projection; None is an outcome the table does not know. */
    method FinishDocumentReview(outcome: Option<Outcome>) returns (r: Result<(), Error>)
      modifies this
      ensures (Snapshot(), r) == Projected(old(Snapshot()), Finish(outcome))
    {
      if outcome.None? {
        return Failure(InvalidOutcome);
      }
      var status, phase := FinishedStatus(outcome.value), FinishedPhase(outcome.value);
      if row.Some? && row.value.temporal
         && row.value.status != FailedPermanent && row.value.status != Cancelled
         && (row.value.phase == Some(AwaitingReview) || row.value.phase == Some(ReviewSuggestion)) {
        row := Some(row.value.(status := status, phase := Some(phase)));
      } else {
        if row.None? || !row.value.temporal {
          return Failure(RunMissing);
        }
        if row.value.status != status || row.value.phase != Some(phase) {
          return Failure(AlreadyTerminal);
        }
        return Success(());
      }
      events := events + [WorkflowCompleted(outcome.value)];
      r := Success(());
    }

    /** _supersede_document_processing_projection. */
    method SupersedeDocumentProcessing(replacement: int) returns (r: Result<(), Error>)
      modifies this
      ensures (Snapshot(), r) == Projected(old(Snapshot()), Supersede(replacement))
    {
      if row.Some? && row.value.temporal
         && row.value.status != Succeeded && row.value.status != FailedPermanent && row.value.status != Cancelled {
        row := Some(row.value.(status := Cancelled, phase := Some(SupersededPhase)));
      } else {
        if row.None? || !row.value.temporal {
          return Failure(RunMissing);
        }
        if row.value.status != Cancelled || row.value.phase != Some(SupersededPhase) {
          return Failure(AlreadyTerminal);
        }
        return Success(());
      }
      suggestions := Stale(suggestions);
      events := events + [WorkflowSuperseded(replacement)];
      r := Success(());
    }
  }

  // ----- Sequences of projections -----

  function Run(db: Db, ps: seq<Projection>): Db
    decreases |ps|
  {
    if ps == [] then db else Run(Projected(db, ps[0]).0, ps[1..])
  }

  predicate Ok(db: Db, p: Projection) {
    Projected(db, p).1.Success?
  }

  /** The row says that its workflow is over, in one of the two ways these projections write. */
  predicate Terminal(db: Db) {
    && Owned(db)
    && (db.row.value.status, db.row.value.phase) in {(Succeeded, Some(Done)), (Cancelled, Some(SupersededPhase))}
  }

  predicate Ends(p: Projection) {
    !p.Publish?
  }

  /** The terminal status that a completion or supersession asks for. */
  function Target(p: Projection): Option<Status>
    requires Ends(p)
  {
    match p
    case Finish(None) => None
    case Finish(Some(o)) => Some(FinishedStatus(o))
    case Supersede(_) => Some(Cancelled)
  }

  function TerminalEvents(events: seq<Event>): nat {
    if events == [] then 0
    else TerminalEvents(events[..|events| - 1]) + if events[|events| - 1].SuggestionStored? then 0 else 1
  }

  /** The first completion or supersession to succeed makes the row terminal and writes one event. */
  lemma SuccessEnds(db: Db, p: Projection)
    requires Ends(p) && Ok(db, p) && !Terminal(db)
    ensures var after := Projected(db, p).0;
            && Terminal(after) && Some(after.row.value.status) == Target(p)
            && |after.events| == |db.events| + 1
            && TerminalEvents(after.events) == TerminalEvents(db.events) + 1
  {
    var after := Projected(db, p).0;
    assert after.events[..|db.events|] == db.events;
  }

  lemma FailureChangesNothing(db: Db, p: Projection)
    requires !Ok(db, p)
    ensures Projected(db, p).0 == db
  {
  }

  /** A terminal row is left alone; the call succeeds exactly when it asks for the status that is there. */
  lemma TerminalStays(db: Db, p: Projection)
    requires Ends(p) && Terminal(db)
    ensures Projected(db, p).0 == db
    ensures Ok(db, p) <==> Target(p) == Some(db.row.value.status)
  {
  }

  lemma {:induction false} TerminalStaysForever(db: Db, ps: seq<Projection>)
    requires Terminal(db) && forall p <- ps :: Ends(p)
    ensures Run(db, ps) == db
  {
    if ps != [] {
      TerminalStays(db, ps[0]);
      TerminalStaysForever(db, ps[1..]);
    }
  }

  /**
   * Of any sequence of completions and supersessions the first that succeeds fixes the run: the
   * ones before it change nothing, the ones after it change nothing, and one event is written.
   */
  lemma {:induction false} FirstSuccessFixesTheRun(db: Db, ps: seq<Projection>, first: nat)
    requires !Terminal(db) && (forall p <- ps :: Ends(p)) && first < |ps|
    requires forall i :: 0 <= i < first ==> !Ok(db, ps[i])
    requires Ok(db, ps[first])
    ensures Run(db, ps) == Projected(db, ps[first]).0
    ensures Terminal(Run(db, ps)) && Some(Run(db, ps).row.value.status) == Target(ps[first])
    ensures TerminalEvents(Run(db, ps).events) == TerminalEvents(db.events) + 1
    ensures forall i :: first < i < |ps| ==> (Ok(Run(db, ps), ps[i]) <==> Target(ps[i]) == Target(ps[first]))
  {
    if first == 0 {
      SuccessEnds(db, ps[0]);
      TerminalStaysForever(Projected(db, ps[0]).0, ps[1..]);
      forall i | 0 < i < |ps| ensures Ok(Run(db, ps), ps[i]) <==> Target(ps[i]) == Target(ps[0]) {
        TerminalStays(Run(db, ps), ps[i]);
      }
    } else {
      FailureChangesNothing(db, ps[0]);
      FirstSuccessFixesTheRun(db, ps[1..], first - 1);
      forall i | first < i < |ps| ensures Ok(Run(db, ps), ps[i]) <==> Target(ps[i]) == Target(ps[first]) {
        assert ps[i] == ps[1..][i - 1];
      }
    }
  }

  // ----- The same, projection by projection -----

  /** What each projection writes when it succeeds for the first time. */
  predicate Writes(was: Db, now: Db, p: Projection) {
    match p
    case Publish(suggestion) =>
      && now.row == Some(Row(true, Running, Some(AwaitingReview))) && now.suggestions == was.suggestions
      && now.events == was.events + [SuggestionStored(suggestion)]
    case Finish(outcome) =>
      && outcome.Some? && now.suggestions == was.suggestions
      && now.row == Some(if outcome == Some(Superseded) then Row(true, Cancelled, Some(SupersededPhase))
                         else Row(true, Succeeded, Some(Done)))
      && now.events == was.events + [WorkflowCompleted(outcome.value)]
    case Supersede(replacement) =>
      && now.row == Some(Row(true, Cancelled, Some(SupersededPhase)))
      && |now.suggestions| == |was.suggestions|
      && (forall i :: 0 <= i < |was.suggestions| ==>
            now.suggestions[i] == if was.suggestions[i] == PendingSuggestion then StaleSuggestion
                                  else was.suggestions[i])
      && now.events == was.events + [WorkflowSuperseded(replacement)]
  }

  /** The row shows what the projection would write. */
  predicate Shows(row: Row, p: Projection) {
    match p
    case Publish(_) => row.phase == Some(AwaitingReview)
    case Finish(Some(Superseded)) => row.status == Cancelled && row.phase == Some(SupersededPhase)
    case Finish(Some(_)) => row.status == Succeeded && row.phase == Some(Done)
    case Finish(None) => false
    case Supersede(_) => row.status == Cancelled && row.phase == Some(SupersededPhase)
  }

  /** The row may still be written: for a review that is awaited, or for a run that has not ended. */
  predicate Writable(row: Row, p: Projection) {
    match p
    case Publish(_) => row.phase != Some(AwaitingReview)
    case Finish(outcome) =>
      && outcome.Some? && row.status != FailedPermanent && row.status != Cancelled
      && (row.phase == Some(AwaitingReview) || row.phase == Some(ReviewSuggestion))
    case Supersede(_) => row.status != Succeeded && row.status != FailedPermanent && row.status != Cancelled
  }

  /** A projection writes a writable run of Temporal, leaves one alone that shows it already, and otherwise raises. */
  lemma ProjectionWritesOrRaises(db: Db, p: Projection)
    ensures var (now, r) := Projected(db, p);
            var mine := db.row.Some? && db.row.value.temporal;
            && (r.Success? <==> mine && (Writable(db.row.value, p) || Shows(db.row.value, p)))
            && (if mine && Writable(db.row.value, p) then Writes(db, now, p) else now == db)
            && (r.Failure? ==> r.error == if p == Finish(None) then InvalidOutcome
                                          else if p.Publish? then NotWaitingForReview
                                          else if !mine then RunMissing else AlreadyTerminal)
  {
  }

  /** If none succeeds, nothing at all has changed. */
  lemma {:induction false} NoSuccessNoChange(db: Db, ps: seq<Projection>)
    requires forall p <- ps :: !Ok(db, p)
    ensures Run(db, ps) == db
  {
    if ps != [] {
      FailureChangesNothing(db, ps[0]);
      NoSuccessNoChange(db, ps[1..]);
    }
  }

  /** Two decisions conflict unnoticed: a rejection after a commit is accepted and leaves no trace. */
  lemma RejectionAfterCommitGoesUnnoticed(db: Db)
    requires !Terminal(db) && Ok(db, Finish(Some(Committed)))
    ensures var after := Projected(db, Finish(Some(Committed))).0;
            Ok(after, Finish(Some(Rejected))) && Projected(after, Finish(Some(Rejected))).0 == after
  {
    SuccessEnds(db, Finish(Some(Committed)));
    TerminalStays(Projected(db, Finish(Some(Committed))).0, Finish(Some(Rejected)));
  }

  lemma {:induction false} EventsOnlyGrow(db: Db, ps: seq<Projection>)
    ensures |db.events| <= |Run(db, ps).events|
    decreases |ps|
  {
    if ps != [] {
      EventsOnlyGrow(Projected(db, ps[0]).0, ps[1..]);
    }
  }

  /**
   * Publication does not look at the status, so it revives a finished run: a terminal run stays as
   * it is through a sequence of projections exactly when none of them is a publication.
   */
  lemma {:induction false} TerminalStaysIffNotPublished(db: Db, ps: seq<Projection>)
    requires Terminal(db)
    ensures Run(db, ps) == db <==> forall p <- ps :: Ends(p)
  {
    if ps != [] {
      var p := ps[0];
      if Ends(p) {
        TerminalStays(db, p);
        TerminalStaysIffNotPublished(db, ps[1..]);
        assert forall q :: q in ps <==> q == p || q in ps[1..];
      } else {
        EventsOnlyGrow(Projected(db, p).0, ps[1..]);
        assert p in ps;
      }
    }
  }

  /** So a late publication lets one run end twice, in two different ways. */
  lemma RevivedRunEndsTwice(db: Db, suggestion: int, replacement: int)
    requires !Terminal(db) && Ok(db, Finish(Some(Committed))) && TerminalEvents(db.events) == 0
    ensures var after := Run(db, [Finish(Some(Committed)), Publish(suggestion), Supersede(replacement)]);
            TerminalEvents(after.events) == 2 && Terminal(after) && after.row.value.status == Cancelled
  {
    var finish, publish, supersede := Finish(Some(Committed)), Publish(suggestion), Supersede(replacement);
    var ps := [finish, publish, supersede];
    SuccessEnds(db, finish);
    var one := Projected(db, finish).0;
    var two := Projected(one, publish).0;
    assert two.events[..|one.events|] == one.events;
    SuccessEnds(two, supersede);
    assert ps[1..] == [publish, supersede] && ps[1..][1..] == [supersede] && [supersede][1..] == [];
    assert Run(db, ps) == Run(one, [publish, supersede]) == Run(two, [supersede]);
    assert Run(two, [supersede]) == Run(Projected(two, supersede).0, []) == Projected(two, supersede).0;
  }
}
