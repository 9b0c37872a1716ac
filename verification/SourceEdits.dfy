/**
 * The fencing protocol beside other writers of a source's status (the admin cancellation, the
 * batch's own status writes, edits by hand): exactly when execution and source still agree, and
 * when a running execution can still settle.
 */
module SourceEdits {
  import opened Wrappers
  import opened ActorExecution
  import opened FencingProtocol
  import opened StaleRecovery

  /** A claim or a settlement of the source commits. */
  predicate Moves(db: Db, ev: Event, s: SourceKey) {
    match ev
    case Claim(source, _, token, id, _) => source == s && CanClaim(db, source, token, id)
    case Finish(h, status, _) => h.source == s && CanSettle(db, h, status)
    case Retry(h, _, _) => h.source == s && CanSettle(db, h, Retrying)
    case _ => false
  }

  /** What the last other writer since the newest claim or settlement of the source has left, if any. */
  function LastEdit(db: Db, evs: seq<Event>, s: SourceKey): Option<Status> {
    if evs == [] then None
    else
      var prior, ev := evs[..|evs| - 1], evs[|evs| - 1];
      if Edits(ev, s) then Some(ev.newStatus)
      else if Moves(Run(db, prior), ev, s) then None
      else LastEdit(db, prior, s)
  }

  /** The execution of the source's newest claim. */
  predicate Newest(db: Db, s: SourceKey, i: int) {
    && s in db.sources && i in db.executions
    && db.executions[i].source == s && db.executions[i].version == db.sources[s].version
  }

  /** What the per-kind table says the source shows for an execution's status. */
  function TableStatus(kind: SourceKind, status: Status): Option<Status> {
    if Active(status) then Some(Running) else SourceOutcome(kind, status)
  }

  /** The fence is held exactly while the newest execution is active; the status is the table's or the edit's. */
  ghost predicate Accounted(db: Db, s: SourceKey, edit: Option<Status>)
    requires s in db.sources
  {
    && (edit.Some? ==> db.sources[s].status == edit.value)
    && forall i <- db.executions | Newest(db, s, i) ::
         && db.sources[s].token == (if Active(db.executions[i].status) then Some(db.executions[i].token) else None)
         && TableStatus(s.kind, db.executions[i].status).Some?
         && (edit.None? ==> Some(db.sources[s].status) == TableStatus(s.kind, db.executions[i].status))
  }

  function NextEdit(db: Db, ev: Event, s: SourceKey, edit: Option<Status>): Option<Status> {
    if Edits(ev, s) then Some(ev.newStatus) else if Moves(db, ev, s) then None else edit
  }

  lemma ClaimAccounted(db: Db, ev: Event, s: SourceKey, edit: Option<Status>)
    requires Inv(db) && s in db.sources && Accounted(db, s, edit) && ev.Claim?
    ensures s in Step(db, ev).sources && Accounted(Step(db, ev), s, NextEdit(db, ev, s, edit))
  {
    if CanClaim(db, ev.source, ev.token, ev.executionId) {
      forall i <- db.executions ensures ExecutionInv(db, i) {}
    }
  }

  lemma SettleAccounted(db: Db, s: SourceKey, edit: Option<Status>, h: Handle, status: Status,
                        err: Option<string>, backoff: Option<int>)
    requires Inv(db) && s in db.sources && Accounted(db, s, edit) && CanSettle(db, h, status)
    ensures var after := Settled(db, h, status, err, backoff);
            s in after.sources && Accounted(after, s, if h.source == s then None else edit)
  {
    SettlingHandleNamesItsSource(db, h, status);
    var after := Settled(db, h, status, err, backoff);
    forall i <- after.executions | Newest(after, s, i) && h.source == s ensures i == h.id {
      assert DistinctClaims(db.executions[i], db.executions[h.id]) || i == h.id;
    }
  }

  lemma StepAccounted(db: Db, ev: Event, s: SourceKey, edit: Option<Status>)
    requires Inv(db) && s in db.sources && Accounted(db, s, edit)
    ensures s in Step(db, ev).sources && Accounted(Step(db, ev), s, NextEdit(db, ev, s, edit))
  {
    match ev
    case Claim(_, _, _, _, _) => ClaimAccounted(db, ev, s, edit);
    case Finish(h, status, err) =>
      if CanSettle(db, h, status) { SettleAccounted(db, s, edit, h, status, err, None); }
    case Retry(h, cls, backoff) =>
      if CanSettle(db, h, Retrying) { SettleAccounted(db, s, edit, h, Retrying, Some(cls), Some(backoff)); }
    case _ =>
  }

  lemma {:induction false} RunAccounted(db: Db, evs: seq<Event>, s: SourceKey)
    requires Initial(db) && s in db.sources
    ensures Inv(Run(db, evs)) && s in Run(db, evs).sources
    ensures Accounted(Run(db, evs), s, LastEdit(db, evs, s))
  {
    RunKeepsInv(db, evs);
    if evs != [] {
      RunAccounted(db, evs[..|evs| - 1], s);
      StepAccounted(Run(db, evs[..|evs| - 1]), evs[|evs| - 1], s, LastEdit(db, evs[..|evs| - 1], s));
    }
  }

  /** The last other writer, if there was one, left the status that the table gives for the newest execution. */
  ghost predicate EditFitsTable(db: Db, s: SourceKey, edit: Option<Status>) {
    edit.Some? ==> forall i <- db.executions | Newest(db, s, i) :: TableStatus(s.kind, db.executions[i].status) == edit
  }

  /**
   * After any run, other writers included, the newest execution and its source agree exactly when
   * the last edit since the newest claim or settlement, if any, left the table's own status.
   */
  lemma AgreesIffLastEditFits(db: Db, evs: seq<Event>, s: SourceKey)
    requires Initial(db) && s in db.sources
    ensures s in Run(db, evs).sources
    ensures Agree(Run(db, evs), s) <==> EditFitsTable(Run(db, evs), s, LastEdit(db, evs, s))
  {
    RunAccounted(db, evs, s);
    var now := Run(db, evs);
    forall i <- now.executions ensures Newest(now, s, i)
                                       <==> now.executions[i].source == s
                                            && now.executions[i].version == now.sources[s].version {}
  }

  /**
   * A running execution can settle exactly when it is the newest claim of its source and no edit
   * since then has left the source in another status than running.
   */
  lemma RunningSettlesIffSourceStillRuns(db: Db, evs: seq<Event>, h: Handle, status: Status)
    requires Initial(db) && h.source in db.sources
    requires HoldsRunningExecution(Run(db, evs), h) && Run(db, evs).executions[h.id].source == h.source
    requires SourceOutcome(h.source.kind, status).Some?
    ensures CanSettle(Run(db, evs), h, status)
            <==> Newest(Run(db, evs), h.source, h.id) && LastEdit(db, evs, h.source) in {None, Some(Running)}
  {
    RunAccounted(db, evs, h.source);
  }

  /**
   * A cancel request on a running source strands its execution: every settlement raises, the one
   * with status cancelled included, recovery changes nothing, and the row goes on saying running.
   */
  lemma CancelRequestStrandsExecution(db: Db, s: SourceKey, actor: string, token: Token, id: int, attempt: int)
    returns (evs: seq<Event>, h: Handle)
    requires Initial(db) && CanClaim(db, s, token, id)
    ensures var now := Run(db, evs);
            && HoldsRunningExecution(now, h) && now.executions[h.id].source == h.source == s
            && (forall status :: SourceOutcome(s.kind, status).Some? ==>
                  SettleResult(now, h, status) == Failure(StaleSource))
            && AfterRecovery(now, [h]) == now && RecoveredCount(now, [h]) == 0
  {
    var version := db.sources[s].version + 1;
    h := Handle(id, s, token, version, attempt);
    var claim := Claim(s, actor, token, id, attempt);
    var activate := Activate(Invocation(actor, s, token, version, id, attempt));
    var cancel := Edit(s, CancelRequested);
    evs := [claim, activate, cancel];
    var claimed := Claimed(db, s, actor, token, id, attempt);
    assert evs[..2] == [claim, activate] && evs[..2][..1] == [claim] && evs[..2][..1][..0] == [];
    assert Run(db, [claim]) == Step(Run(db, []), claim) == claimed;
    assert Run(db, [claim, activate]) == Step(claimed, activate);
    var now := Step(Step(claimed, activate), cancel);
    assert Run(db, evs) == now;
    assert [h][..0] == [] && AfterRecovery(now, []) == now;
  }
}
