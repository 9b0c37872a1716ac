/** Committing an accepted review: the activity's transactions around one PATCH,
    and their convergence under crashes, retries and overlapping attempts. */
module ReviewCommit {
  import opened Wrappers
  import opened ReviewPatch

  datatype CommandStatus = Pending | Running | Succeeded | FailedPermanent
  datatype CommitStatus = NotCommitted | Queued | CommitRunning | Committed | CommitFailed

  datatype CommandRow = CommandRow(reviewCommit: bool, temporal: bool, workflowId: string, status: CommandStatus)
  datatype SuggestionRow = SuggestionRow(accepted: bool, command: Option<int>, commitStatus: CommitStatus)

  datatype Request = Request(suggestion: int, command: int, workflowId: string)

  datatype AuditEvent = CommitSucceeded(command: int) | CommitFailedEvent(command: int)

  datatype Db = Db(commands: map<int, CommandRow>, suggestions: map<int, SuggestionRow>, events: seq<AuditEvent>)

  datatype Error = NoCommand | NotOwned | PermanentlyFailed

  /** The join that _begin_review_commit locks. */
  predicate Joined(db: Db, r: Request) {
    r.suggestion in db.suggestions && r.command in db.commands
        && db.suggestions[r.suggestion].command == Some(r.command)
  }

  /** This workflow owns the accepted review and its command. */
  predicate Owned(db: Db, r: Request) {
    && Joined(db, r) && db.suggestions[r.suggestion].accepted
    && var c := db.commands[r.command]; c.reviewCommit && c.temporal && c.workflowId == r.workflowId
  }

  predicate Done(db: Db, r: Request)
    requires Joined(db, r)
  {
    db.suggestions[r.suggestion].commitStatus == Committed && db.commands[r.command].status == Succeeded
  }

  predicate OwnsCommand(db: Db, r: Request) {
    r.command in db.commands && db.commands[r.command].temporal && db.commands[r.command].workflowId == r.workflowId
  }

  function SetCommand(db: Db, id: int, status: CommandStatus): Db
    requires id in db.commands
  {
    db.(commands := db.commands[id := db.commands[id].(status := status)])
  }

  function SetCommit(db: Db, id: int, status: CommitStatus): Db
    requires id in db.suggestions
  {
    db.(suggestions := db.suggestions[id := db.suggestions[id].(commitStatus := status)])
  }

  predicate Begins(db: Db, r: Request) {
    Owned(db, r) && !Done(db, r) && db.commands[r.command].status != FailedPermanent
  }

  function Begun(db: Db, r: Request): Db {
    if Begins(db, r) then SetCommit(SetCommand(db, r.command, Running), r.suggestion, CommitRunning) else db
  }

  function Finished(db: Db, r: Request): Db {
    var transitions := OwnsCommand(db, r) && db.commands[r.command].status != Succeeded;
    var db1 := if transitions then SetCommand(db, r.command, Succeeded) else db;
    var db2 := if r.suggestion in db.suggestions && db.suggestions[r.suggestion].command == Some(r.command)
                  && db.suggestions[r.suggestion].accepted
               then SetCommit(db1, r.suggestion, Committed) else db1;
    if transitions then db2.(events := db.events + [CommitSucceeded(r.command)]) else db2
  }

  function Failed(db: Db, r: Request): Db {
    if r.suggestion in db.suggestions && db.suggestions[r.suggestion].commitStatus == Committed then db
    else
      var db1 := if OwnsCommand(db, r) then SetCommand(db, r.command, FailedPermanent) else db;
      var db2 := if r.suggestion in db.suggestions && db.suggestions[r.suggestion].command == Some(r.command)
                 then SetCommit(db1, r.suggestion, CommitFailed) else db1;
      db2.(events := db.events + [CommitFailedEvent(r.command)])
  }

  class ReviewStore {
    var commands: map<int, CommandRow>
    var suggestions: map<int, SuggestionRow>
    var events: seq<AuditEvent>

    constructor (db: Db)
      ensures Snapshot() == db
    {
      commands, suggestions, events := db.commands, db.suggestions, db.events;
    }

    ghost function Snapshot(): Db
      reads this
    {
      Db(commands, suggestions, events)
    }

    /** _begin_review_commit: whether the commit had already finished. */
    method BeginReviewCommit(r: Request) returns (result: Result<bool, Error>)
      modifies this
      ensures Snapshot() == Begun(old(Snapshot()), r)
      ensures result.Failure?
              <==> || !Owned(old(Snapshot()), r)
                   || (!Done(old(Snapshot()), r) && old(commands)[r.command].status == FailedPermanent)
      ensures result.Success? ==> result.value == Done(old(Snapshot()), r)
      ensures result == Success(false) ==>
                && r.command in old(commands) && r.suggestion in old(suggestions)
                && old(commands)[r.command].status != FailedPermanent
                && commands == old(commands)[r.command := old(commands)[r.command].(status := Running)]
                && suggestions == old(suggestions)[r.suggestion :=
                     old(suggestions)[r.suggestion].(commitStatus := CommitRunning)]
      ensures result != Success(false) ==> commands == old(commands) && suggestions == old(suggestions)
      ensures events == old(events)
      ensures result.Success? <==>
                && r.command in old(commands) && r.suggestion in old(suggestions)
                && var c, x := old(commands)[r.command], old(suggestions)[r.suggestion];
                   && c.reviewCommit && c.temporal && c.workflowId == r.workflowId
                   && x.command == Some(r.command) && x.accepted && c.status != FailedPermanent
      ensures result.Success? ==>
                (result.value <==> old(suggestions)[r.suggestion].commitStatus == Committed
                                   && old(commands)[r.command].status == Succeeded)
      ensures result == Failure(PermanentlyFailed) ==>
                r.command in commands && commands[r.command].status == FailedPermanent
    {
      if r.suggestion !in suggestions || r.command !in commands
          || suggestions[r.suggestion].command != Some(r.command) {
        return Failure(NoCommand);
      }
      var s, c := suggestions[r.suggestion], commands[r.command];
      if !s.accepted || !c.reviewCommit || !c.temporal || c.workflowId != r.workflowId {
        return Failure(NotOwned);
      }
      if s.commitStatus == Committed && c.status == Succeeded {
        return Success(true);
      }
      if c.status == FailedPermanent {
        return Failure(PermanentlyFailed);
      }
      commands := commands[r.command := c.(status := Running)];
      suggestions := suggestions[r.suggestion := s.(commitStatus := CommitRunning)];
      return Success(false);
    }

    /** _finish_review_commit. */
    method FinishReviewCommit(r: Request)
      modifies this
      ensures Snapshot() == Finished(old(Snapshot()), r)
      ensures var moved := r.command in old(commands) && old(commands)[r.command].temporal
                           && old(commands)[r.command].workflowId == r.workflowId
                           && old(commands)[r.command].status != Succeeded;
              && commands == (if moved then old(commands)[r.command := old(commands)[r.command].(status := Succeeded)]
                              else old(commands))
              && events == old(events) + if moved then [CommitSucceeded(r.command)] else []
      ensures var recorded := r.suggestion in old(suggestions) && old(suggestions)[r.suggestion].accepted
                              && old(suggestions)[r.suggestion].command == Some(r.command);
              suggestions == if recorded then old(suggestions)[r.suggestion :=
                                                old(suggestions)[r.suggestion].(commitStatus := Committed)]
                             else old(suggestions)
    {
      var transitioned := false;
      if r.command in commands && commands[r.command].status != Succeeded
         && commands[r.command].temporal && commands[r.command].workflowId == r.workflowId {
        commands := commands[r.command := commands[r.command].(status := Succeeded)];
        transitioned := true;
      }
      if r.suggestion in suggestions && suggestions[r.suggestion].command == Some(r.command)
          && suggestions[r.suggestion].accepted {
        suggestions := suggestions[r.suggestion := suggestions[r.suggestion].(commitStatus := Committed)];
      }
      if transitioned {
        events := events + [CommitSucceeded(r.command)];
      }
    }

    /** _fail_review_commit. */
    method FailReviewCommit(r: Request)
      modifies this
      ensures Snapshot() == Failed(old(Snapshot()), r)
      ensures r.suggestion in old(suggestions) && old(suggestions)[r.suggestion].commitStatus == Committed ==>
                commands == old(commands) && suggestions == old(suggestions) && events == old(events)
      ensures r.suggestion !in old(suggestions) || old(suggestions)[r.suggestion].commitStatus != Committed ==>
                && events == old(events) + [CommitFailedEvent(r.command)]
                && (var owned := r.command in old(commands) && old(commands)[r.command].temporal
                                 && old(commands)[r.command].workflowId == r.workflowId;
                    commands == if owned then old(commands)[r.command :=
                                                old(commands)[r.command].(status := FailedPermanent)]
                                else old(commands))
                && (var joined := r.suggestion in old(suggestions)
                                  && old(suggestions)[r.suggestion].command == Some(r.command);
                    suggestions == if joined then old(suggestions)[r.suggestion :=
                                                    old(suggestions)[r.suggestion].(commitStatus := CommitFailed)]
                                   else old(suggestions))
    {
      if r.suggestion in suggestions && suggestions[r.suggestion].commitStatus == Committed {
        return;
      }
      if r.command in commands && commands[r.command].temporal && commands[r.command].workflowId == r.workflowId {
        commands := commands[r.command := commands[r.command].(status := FailedPermanent)];
      }
      if r.suggestion in suggestions && suggestions[r.suggestion].command == Some(r.command) {
        suggestions := suggestions[r.suggestion := suggestions[r.suggestion].(commitStatus := CommitFailed)];
      }
      events := events + [CommitFailedEvent(r.command)];
    }
  }

  // ---------- the activity ----------

  /** commit_review_suggestion_to_paperless, from the document it read. */
  datatype Decision = AlreadyThere | VersionChanged | ChecksumChanged | PatchWith(fields: Fields)

  function Decide(record: Record, doc: Document, assignable: set<int>): Decision {
    var version := record.versionId.Some? && doc.versionId != record.versionId;
    var checksum := record.versionChecksum.Some? && doc.versionChecksum != record.versionChecksum;
    if (version || checksum) && Matches(record, doc, assignable) then AlreadyThere
    else if version then VersionChanged
    else if checksum then ChecksumChanged
    else PatchWith(PatchOf(record, doc, assignable))
  }

  /** patch_reviewed_document's own check, on the document as it is at that moment. */
  predicate Patchable(doc: Document, f: Fields) {
    f.storagePath.Some? ==>
      && f.storagePath.value > 0 && doc.reportsStorage && doc.storagePath.None?
      && doc.versionId.Some? && doc.versionChecksum.Some?
  }

  /** Where one attempt of the activity stands. */
  datatype Attempt =
    | Started                  // begun, nothing read yet
    | Patching(fields: Fields) // about to send this PATCH
    | Finishing                // Paperless shows the review; the projection is left

  datatype State = State(db: Db, doc: Document, attempts: map<int, Attempt>)

  datatype Event =
    | Begin(attempt: int)
    | ReadDocument(attempt: int)
    | SendPatch(attempt: int, versionId: Option<int>,
                versionChecksum: Option<string>)  // Paperless may renumber its version
    | Finish(attempt: int)
    | Crash(attempt: int)
    | GiveUp  // fail_review_commit, after the retries are exhausted

  function Step(s: State, r: Request, record: Record, assignable: set<int>, ev: Event): State {
    match ev
    case Begin(a) =>
      if Begins(s.db, r) then s.(db := Begun(s.db, r), attempts := s.attempts[a := Started])
          else s.(attempts := s.attempts - {a})
    case ReadDocument(a) =>
      if a !in s.attempts || s.attempts[a] != Started then s
      else (
        match Decide(record, s.doc, assignable)
        case AlreadyThere => s.(attempts := s.attempts[a := Finishing])
        case PatchWith(f) => s.(attempts := s.attempts[a := if f == NO_FIELDS then Finishing else Patching(f)])
        case _ => s.(attempts := s.attempts - {a})  // raises
      )
    case SendPatch(a, versionId, versionChecksum) =>
      if a !in s.attempts || !s.attempts[a].Patching? then s
      else if !Patchable(s.doc, s.attempts[a].fields) then s.(attempts := s.attempts - {a})  // raises
      else s.(doc := Applied(s.doc, s.attempts[a].fields).(versionId := versionId, versionChecksum := versionChecksum),
              attempts := s.attempts[a := Finishing])
    case Finish(a) =>
      if a in s.attempts && s.attempts[a] == Finishing
          then s.(db := Finished(s.db, r), attempts := s.attempts - {a}) else s
    case Crash(a) => s.(attempts := s.attempts - {a})
    case GiveUp => s.(db := Failed(s.db, r))
  }

  function Run(s: State, r: Request, record: Record, assignable: set<int>, evs: seq<Event>): State {
    if evs == [] then s
    else Step(Run(s, r, record, assignable, evs[..|evs| - 1]), r, record, assignable, evs[|evs| - 1])
  }

  /**
   * An unchanged version is patched. A changed one is refused, for its version or else for its checksum, unless the
   * document has each value of the review already and the patch would change nothing in it.
   */
  lemma DecideByVersion(record: Record, doc: Document, assignable: set<int>)
    ensures var d := Decide(record, doc, assignable);
            var moved := record.versionId != None && record.versionId != doc.versionId;
            var edited := record.versionChecksum != None && record.versionChecksum != doc.versionChecksum;
            var there := SameMetadata(Applied(doc, PatchOf(record, doc, assignable)), doc);
            && (d.PatchWith? <==> !moved && !edited)
            && (d.PatchWith? ==> d.fields == PatchOf(record, doc, assignable))
            && (d == AlreadyThere <==> (moved || edited) && there)
            && (d == VersionChanged <==> moved && !there)
            && (d == ChecksumChanged <==> edited && !moved && !there)
  {
    MatchesIffPatchChangesNothing(record, doc, assignable);
  }

  /** What each event of an attempt does to the tables and to the attempt; no other attempt is touched. */
  lemma AttemptAdvances(s: State, r: Request, record: Record, assignable: set<int>, a: int)
    ensures var t := Step(s, r, record, assignable, Begin(a));
            if Begins(s.db, r) then t == State(Begun(s.db, r), s.doc, s.attempts[a := Started])
            else t == s.(attempts := s.attempts - {a})
    ensures var t := Step(s, r, record, assignable, ReadDocument(a));
            if a in s.attempts && s.attempts[a] == Started then
              && t.db == s.db && t.doc == s.doc && t.attempts - {a} == s.attempts - {a}
              && (match Decide(record, s.doc, assignable)
                  case AlreadyThere => a in t.attempts && t.attempts[a] == Finishing
                  case VersionChanged => a !in t.attempts
                  case ChecksumChanged => a !in t.attempts
                  case PatchWith(f) =>
                    && a in t.attempts
                    && t.attempts[a] == if f == Fields(None, None, None, None, None, None) then Finishing
                                        else Patching(f))
            else t == s
    ensures var t := Step(s, r, record, assignable, Finish(a));
            t == if a in s.attempts && s.attempts[a] == Finishing
                 then State(Finished(s.db, r), s.doc, s.attempts - {a}) else s
    ensures Step(s, r, record, assignable, Crash(a)) == s.(attempts := s.attempts - {a})
    ensures Step(s, r, record, assignable, GiveUp) == s.(db := Failed(s.db, r))
  {
  }

  /** A patch is sent unless it sets a storage path that is not positive, in a document that has one or does not
      report it, or under no verifiable version; a refused one ends its attempt and changes nothing else. */
  lemma PatchIsSentIff(s: State, r: Request, record: Record, assignable: set<int>, a: int, versionId: Option<int>,
                       versionChecksum: Option<string>)
    requires a in s.attempts && s.attempts[a].Patching?
    ensures var t, f := Step(s, r, record, assignable, SendPatch(a, versionId, versionChecksum)), s.attempts[a].fields;
            var sent := f.storagePath == None
                        || (f.storagePath.value >= 1 && s.doc.reportsStorage && s.doc.storagePath == None
                            && s.doc.versionId != None && s.doc.versionChecksum != None);
            if sent then
              && t.attempts == s.attempts[a := Finishing] && t.db == s.db
              && t.doc == Applied(s.doc, f).(versionId := versionId, versionChecksum := versionChecksum)
            else t == s.(attempts := s.attempts - {a})
  {
  }

  /** The document's metadata without its version. */
  function Metadata(doc: Document): Document {
    doc.(versionId := None, versionChecksum := None)
  }

  function Once(before: Document, record: Record, assignable: set<int>): Document {
    Metadata(Applied(before, PatchOf(record, before, assignable)))
  }

  /** Carrying this PATCH out now leads to the document after one application. */
  predicate LeadsTo(doc: Document, f: Fields, once: Document) {
    Metadata(Applied(doc, f)) == once && Metadata(Applied(once, f)) == once
  }

  /** The document is untouched or shows exactly one application of the patch; every
      pending PATCH leads there, and every finishing attempt has seen the review in it. */
  ghost predicate DocInv(s: State, before: Document, record: Record, assignable: set<int>) {
    && (s.doc == before || Metadata(s.doc) == Once(before, record, assignable))
    && (forall a <- s.attempts :: s.attempts[a].Patching? ==>
          LeadsTo(s.doc, s.attempts[a].fields, Once(before, record, assignable)))
    && (forall a <- s.attempts :: s.attempts[a] == Finishing ==> Matches(record, s.doc, assignable))
  }

  function Successes(events: seq<AuditEvent>, command: int): nat {
    if events == [] then 0
    else Successes(events[..|events| - 1], command) + if events[|events| - 1] == CommitSucceeded(command) then 1 else 0
  }

  /** The review is recorded as committed exactly when one success event was written,
      and then the document shows it. */
  ghost predicate DbInv(s: State, r: Request, record: Record, assignable: set<int>) {
    && Owned(s.db, r)
    && (s.db.commands[r.command].status == Succeeded <==> s.db.suggestions[r.suggestion].commitStatus == Committed)
    && Successes(s.db.events, r.command) == (if Done(s.db, r) then 1 else 0)
    && (Done(s.db, r) ==> Matches(record, s.doc, assignable))
  }

  lemma VersionDoesNotMatter(record: Record, doc: Document, assignable: set<int>)
    ensures Matches(record, doc, assignable) == Matches(record, Metadata(doc), assignable)
    ensures PatchOf(record, doc, assignable) == PatchOf(record, Metadata(doc), assignable)
    ensures forall f :: Metadata(Applied(doc, f)) == Metadata(Applied(Metadata(doc), f)) == Applied(Metadata(doc), f)
  {
  }

  lemma OnceIsStable(before: Document, record: Record, assignable: set<int>)
    ensures var once := Once(before, record, assignable);
            && Matches(record, once, assignable)
            && LeadsTo(before, PatchOf(record, before, assignable), once)
            && LeadsTo(once, PatchOf(record, once, assignable), once)
  {
    PatchConverges(record, before, assignable);
    var applied := Applied(before, PatchOf(record, before, assignable));
    VersionDoesNotMatter(record, applied, assignable);
  }

  lemma ReadKeepsDoc(s: State, r: Request, record: Record, assignable: set<int>, a: int, before: Document)
    requires DocInv(s, before, record, assignable)
    ensures DocInv(Step(s, r, record, assignable, ReadDocument(a)), before, record, assignable)
  {
    if a in s.attempts && s.attempts[a] == Started && Decide(record, s.doc, assignable).PatchWith? {
      PlannedPatchLeads(s.doc, record, assignable, before);
    }
  }

  /** A patch planned on the document leads to one application; one without fields finds the review there. */
  lemma PlannedPatchLeads(doc: Document, record: Record, assignable: set<int>, before: Document)
    requires doc == before || Metadata(doc) == Once(before, record, assignable)
    ensures LeadsTo(doc, PatchOf(record, doc, assignable), Once(before, record, assignable))
    ensures PatchOf(record, doc, assignable) == NO_FIELDS ==> Matches(record, doc, assignable)
  {
    OnceIsStable(before, record, assignable);
    VersionDoesNotMatter(record, doc, assignable);
    PatchConverges(record, doc, assignable);
  }

  lemma SendKeepsDoc(s: State, r: Request, record: Record, assignable: set<int>, ev: Event, before: Document)
    requires DocInv(s, before, record, assignable) && ev.SendPatch?
    ensures DocInv(Step(s, r, record, assignable, ev), before, record, assignable)
    ensures Matches(record, s.doc, assignable) ==> Matches(record, Step(s, r, record, assignable, ev).doc, assignable)
  {
    var a := ev.attempt;
    if a in s.attempts && s.attempts[a].Patching? && Patchable(s.doc, s.attempts[a].fields) {
      var t := Step(s, r, record, assignable, ev);
      OnceIsStable(before, record, assignable);
      assert Metadata(t.doc) == Once(before, record, assignable);
      VersionDoesNotMatter(record, t.doc, assignable);
    }
  }

  lemma StepKeepsDoc(s: State, r: Request, record: Record, assignable: set<int>, ev: Event, before: Document)
    requires DocInv(s, before, record, assignable)
    ensures DocInv(Step(s, r, record, assignable, ev), before, record, assignable)
    ensures Matches(record, s.doc, assignable) ==> Matches(record, Step(s, r, record, assignable, ev).doc, assignable)
  {
    match ev
    case ReadDocument(a) => ReadKeepsDoc(s, r, record, assignable, a, before);
    case SendPatch(_, _, _) => SendKeepsDoc(s, r, record, assignable, ev, before);
    case _ =>
  }

  lemma SuccessesAppend(events: seq<AuditEvent>, ev: AuditEvent, command: int)
    ensures Successes(events + [ev], command)
            == Successes(events, command) + if ev == CommitSucceeded(command) then 1 else 0
  {
    assert (events + [ev])[..|events|] == events;
  }

  /** What the projection of a finished commit does to an owned review. */
  lemma FinishedRecords(db: Db, r: Request)
    requires Owned(db, r)
    ensures var after := Finished(db, r);
            && Owned(after, r) && Done(after, r)
            && after.events == if db.commands[r.command].status == Succeeded then db.events
                               else db.events + [CommitSucceeded(r.command)]
  {
  }

  lemma FailedRecords(db: Db, r: Request)
    requires Owned(db, r)
    requires db.commands[r.command].status == Succeeded <==> db.suggestions[r.suggestion].commitStatus == Committed
    ensures var after := Failed(db, r);
            if Done(db, r) then after == db
            else Owned(after, r) && after.commands[r.command].status != Succeeded
                 && after.suggestions[r.suggestion].commitStatus != Committed
                 && after.events == db.events + [CommitFailedEvent(r.command)]
  {
  }

  lemma FinishKeepsDb(s: State, r: Request, record: Record, assignable: set<int>, a: int, before: Document)
    requires DocInv(s, before, record, assignable) && DbInv(s, r, record, assignable)
    ensures DbInv(Step(s, r, record, assignable, Finish(a)), r, record, assignable)
    ensures Done(s.db, r) ==> Done(Step(s, r, record, assignable, Finish(a)).db, r)
  {
    FinishedRecords(s.db, r);
    SuccessesAppend(s.db.events, CommitSucceeded(r.command), r.command);
  }

  lemma GiveUpKeepsDb(s: State, r: Request, record: Record, assignable: set<int>)
    requires DbInv(s, r, record, assignable)
    ensures DbInv(Step(s, r, record, assignable, GiveUp), r, record, assignable)
    ensures Done(s.db, r) ==> Done(Step(s, r, record, assignable, GiveUp).db, r)
  {
    FailedRecords(s.db, r);
    SuccessesAppend(s.db.events, CommitFailedEvent(r.command), r.command);
  }

  lemma StepKeepsDb(s: State, r: Request, record: Record, assignable: set<int>, ev: Event, before: Document)
    requires DocInv(s, before, record, assignable) && DbInv(s, r, record, assignable)
    ensures DbInv(Step(s, r, record, assignable, ev), r, record, assignable)
    ensures Done(s.db, r) ==> Done(Step(s, r, record, assignable, ev).db, r)
  {
    match ev
    case Finish(a) => FinishKeepsDb(s, r, record, assignable, a, before);
    case SendPatch(_, _, _) => SendKeepsDoc(s, r, record, assignable, ev, before);
    case GiveUp => GiveUpKeepsDb(s, r, record, assignable);
    case _ =>
  }

  /** Before the first attempt: the workflow owns the accepted review, nothing is committed. */
  predicate Fresh(s: State, r: Request) {
    && Owned(s.db, r) && s.attempts == map[]
    && s.db.commands[r.command].status != Succeeded
    && s.db.suggestions[r.suggestion].commitStatus != Committed
    && Successes(s.db.events, r.command) == 0
  }

  lemma {:induction false} RunKeepsInv(s: State, r: Request, record: Record, assignable: set<int>, evs: seq<Event>)
    requires Fresh(s, r)
    ensures var t := Run(s, r, record, assignable, evs);
            DocInv(t, s.doc, record, assignable) && DbInv(t, r, record, assignable)
  {
    if evs != [] {
      var prior := evs[..|evs| - 1];
      RunKeepsInv(s, r, record, assignable, prior);
      StepKeepsDoc(Run(s, r, record, assignable, prior), r, record, assignable, evs[|evs| - 1], s.doc);
      StepKeepsDb(Run(s, r, record, assignable, prior), r, record, assignable, evs[|evs| - 1], s.doc);
    }
  }

  /** Convergence: with crashes between any two steps, any number of overlapping
      attempts, and no other editor, the document is untouched or shows exactly one
      application of the patch; and once the review is recorded as committed it shows
      that application and exactly one success event has been written. */
  lemma ReviewCommitConverges(s: State, r: Request, record: Record, assignable: set<int>, evs: seq<Event>)
    requires Fresh(s, r)
    ensures var t := Run(s, r, record, assignable, evs);
            var once := Once(s.doc, record, assignable);
            && (t.doc == s.doc || Metadata(t.doc) == once)
            && Owned(t.db, r)
            && Successes(t.db.events, r.command)
               == (if t.db.suggestions[r.suggestion].commitStatus == Committed then 1 else 0)
            && (t.db.suggestions[r.suggestion].commitStatus == Committed ==>
                  t.db.commands[r.command].status == Succeeded && SameMetadata(Metadata(t.doc), once))
  {
    RunKeepsInv(s, r, record, assignable, evs);
    MatchesIffPatchChangesNothing(record, s.doc, assignable);
  }

  /** So a committed review is in the document, whatever crashed on the way: each of its values, and no other. */
  lemma CommittedDocumentShowsReview(s: State, r: Request, record: Record, control: set<int>, forbidden: set<int>,
                                     evs: seq<Event>)
    requires Fresh(s, r)
    ensures var t := Run(s, r, record, AssignableTagIds(record.tags, control, forbidden), evs);
            && Owned(t.db, r)
            && (t.db.suggestions[r.suggestion].commitStatus == Committed ==>
                  ShowsReview(record, s.doc, t.doc, control + forbidden))
  {
    var assignable := AssignableTagIds(record.tags, control, forbidden);
    ReviewCommitConverges(s, r, record, assignable, evs);
    PatchShowsReview(record, s.doc, control, forbidden);
    var t := Run(s, r, record, assignable, evs);
    if t.db.suggestions[r.suggestion].commitStatus == Committed {
      SameTags(Metadata(t.doc), Once(s.doc, record, assignable));
    }
  }

  lemma SameTags(a: Document, b: Document)
    requires SameMetadata(a, b)
    ensures forall id :: id in a.tags <==> id in b.tags
  {
    assert forall id :: id in a.tags <==> id in ToSet(a.tags);
    assert forall id :: id in b.tags <==> id in ToSet(b.tags);
  }

  /** A caller can see from the document whether an attempt can commit: its version is the reviewed one, and a storage
      path that has to be filled can be; or its version is another one and it shows the review already. */
  predicate CanCommit(record: Record, doc: Document, assignable: set<int>) {
    if (record.versionId != None && record.versionId != doc.versionId)
       || (record.versionChecksum != None && record.versionChecksum != doc.versionChecksum)
    then SameMetadata(Applied(doc, PatchOf(record, doc, assignable)), doc)
    else
      || record.storagePath == None || doc.storagePath.Some?
      || (record.storagePath.value >= 1 && doc.reportsStorage && doc.versionId != None && doc.versionChecksum != None)
  }

  /** One attempt that nothing disturbs. */
  function Undisturbed(s: State, r: Request, record: Record, assignable: set<int>, a: int, versionId: Option<int>,
                       versionChecksum: Option<string>): State
  {
    var read := Step(Step(s, r, record, assignable, Begin(a)), r, record, assignable, ReadDocument(a));
    var sent := Step(read, r, record, assignable, SendPatch(a, versionId, versionChecksum));
    Step(sent, r, record, assignable, Finish(a))
  }

  lemma ReadThenSent(s: State, r: Request, record: Record, assignable: set<int>, a: int, versionId: Option<int>,
                     versionChecksum: Option<string>)
    requires a in s.attempts && s.attempts[a] == Started
    ensures var read := Step(s, r, record, assignable, ReadDocument(a));
            var sent := Step(read, r, record, assignable, SendPatch(a, versionId, versionChecksum));
            && sent.db == s.db
            && (if CanCommit(record, s.doc, assignable) then a in sent.attempts && sent.attempts[a] == Finishing
                else a !in sent.attempts)
  {
    AttemptAdvances(s, r, record, assignable, a);
    DecideByVersion(record, s.doc, assignable);
    var read := Step(s, r, record, assignable, ReadDocument(a));
    if a in read.attempts && read.attempts[a].Patching? {
      PatchIsSentIff(read, r, record, assignable, a, versionId, versionChecksum);
    }
  }

  /** An undisturbed attempt of a review that is neither committed nor given up commits exactly if it can, with one
      success event; otherwise it leaves the commit running. */
  lemma AttemptCommitsIff(s: State, r: Request, record: Record, assignable: set<int>, a: int, versionId: Option<int>,
                          versionChecksum: Option<string>)
    requires Owned(s.db, r) && s.db.commands[r.command].status !in {Succeeded, FailedPermanent}
    requires s.db.suggestions[r.suggestion].commitStatus != Committed
    ensures var t := Undisturbed(s, r, record, assignable, a, versionId, versionChecksum);
            && a !in t.attempts && r.suggestion in t.db.suggestions && r.command in t.db.commands
            && (if CanCommit(record, s.doc, assignable) then
                  && t.db.suggestions[r.suggestion].commitStatus == Committed
                  && t.db.commands[r.command].status == Succeeded
                  && t.db.events == s.db.events + [CommitSucceeded(r.command)]
                else
                  && t.db.suggestions[r.suggestion].commitStatus == CommitRunning
                  && t.db.commands[r.command].status == Running && t.db.events == s.db.events)
  {
    var begun := Step(s, r, record, assignable, Begin(a));
    AttemptAdvances(s, r, record, assignable, a);
    ReadThenSent(begun, r, record, assignable, a, versionId, versionChecksum);
    var sent := Step(Step(begun, r, record, assignable, ReadDocument(a)), r, record, assignable,
                     SendPatch(a, versionId, versionChecksum));
    AttemptAdvances(sent, r, record, assignable, a);
    FinishedRecords(begun.db, r);
  }

  /** A single attempt that crashes anywhere and is retried never refuses its own
      earlier PATCH, even when Paperless gave the document a new version for it. */
  lemma RetryRecognisesItsOwnPatch(before: Document, record: Record, assignable: set<int>, doc: Document)
    requires Metadata(doc) == Once(before, record, assignable)
    ensures Decide(record, doc, assignable) == AlreadyThere || Decide(record, doc, assignable).PatchWith?
    ensures Decide(record, doc, assignable).PatchWith? ==>
              Patchable(doc, Decide(record, doc, assignable).fields)
              && Applied(doc, Decide(record, doc, assignable).fields) == doc
  {
    OnceIsStable(before, record, assignable);
    VersionDoesNotMatter(record, doc, assignable);
    PatchConverges(record, before, assignable);
  }
}
