/** Safety of the fencing protocol over every interleaving of claims, attempts
    and recoveries, with any number of attempts still alive. */
module FencingProtocol {
  import opened Wrappers
  import opened ActorExecution

  /** One committed or rejected transaction. Handles and invocations are arbitrary:
      they stand for every attempt that ever ran, stale ones included. */
  datatype Event =
    | Claim(source: SourceKey, actor: string, token: Token, executionId: int, attemptNo: int)
    | Activate(invocation: Invocation)
    | Finish(handle: Handle, status: Status, errorType: Option<string>)
    | Retry(handle: Handle, retryClass: string, backoff: int)
    | Edit(edited: SourceKey, newStatus: Status)  // any other writer that moves only a source's status

  function Step(db: Db, ev: Event): Db {
    match ev
    case Claim(source, actor, token, id, attempt) =>
      if CanClaim(db, source, token, id) then Claimed(db, source, actor, token, id, attempt) else db
    case Activate(c) => if CanActivate(db, c) then Activated(db, c) else db
    case Finish(h, status, err) => AfterSettle(db, h, status, err, None)
    case Retry(h, cls, backoff) => AfterSettle(db, h, Retrying, Some(cls), Some(backoff))
    case Edit(source, status) =>
      if source in db.sources
      then db.(sources := db.sources[source := db.sources[source].(status := status)])
      else db
  }

  function Run(db: Db, evs: seq<Event>): Db {
    if evs == [] then db else Step(Run(db, evs[..|evs| - 1]), evs[|evs| - 1])
  }

  /** Every token belongs to one execution, at most one execution per source
      version, and a held fence names the execution it was issued to. */
  ghost predicate Inv(db: Db) {
    && (forall i <- db.executions :: ExecutionInv(db, i))
    && (forall i <- db.executions, j <- db.executions ::
          DistinctClaims(db.executions[i], db.executions[j]) || i == j)
    && (forall s <- db.sources :: FenceInv(db, s))
  }

  predicate DistinctClaims(e: ExecutionRow, f: ExecutionRow) {
    e.token != f.token && (e.source != f.source || e.version != f.version)
  }

  ghost predicate ExecutionInv(db: Db, i: int)
    requires i in db.executions
  {
    var e := db.executions[i];
    && e.source in db.sources
    && e.version <= db.sources[e.source].version
    && (e.version < db.sources[e.source].version ==> db.sources[e.source].token != Some(e.token))
  }

  ghost predicate FenceInv(db: Db, s: SourceKey)
    requires s in db.sources
  {
    db.sources[s].token.Some? ==>
      exists i :: i in db.executions && HoldsFence(db, i, s)
  }

  ghost predicate HoldsFence(db: Db, i: int, s: SourceKey)
    requires i in db.executions && s in db.sources
  {
    var e := db.executions[i];
    e.source == s && Some(e.token) == db.sources[s].token && e.version == db.sources[s].version
  }

  /** The tables before any claim: sources in any status, no token held, no execution. */
  ghost predicate Initial(db: Db) {
    db.executions == map[] && forall s <- db.sources :: db.sources[s].token == None
  }

  lemma StepKeepsFence(db: Db, ev: Event, s: SourceKey)
    requires Inv(db) && s in Step(db, ev).sources
    ensures FenceInv(Step(db, ev), s)
  {
    var db' := Step(db, ev);
    if db'.sources[s].token.Some? {
      if ev.Claim? && CanClaim(db, ev.source, ev.token, ev.executionId) && s == ev.source {
        assert HoldsFence(db', ev.executionId, s);
      } else {
        assert FenceInv(db, s);
        var i :| i in db.executions && HoldsFence(db, i, s);
        assert HoldsFence(db', i, s);
      }
    }
  }

  lemma StepKeepsExecution(db: Db, ev: Event, i: int)
    requires Inv(db) && i in Step(db, ev).executions
    ensures ExecutionInv(Step(db, ev), i)
  {
    if i in db.executions { assert ExecutionInv(db, i); }
  }

  lemma StepKeepsInv(db: Db, ev: Event)
    requires Inv(db)
    ensures Inv(Step(db, ev))
  {
    var db' := Step(db, ev);
    forall s <- db'.sources ensures FenceInv(db', s) { StepKeepsFence(db, ev, s); }
    forall i <- db'.executions ensures ExecutionInv(db', i) { StepKeepsExecution(db, ev, i); }
  }

  lemma {:induction false} RunKeepsInv(db: Db, evs: seq<Event>)
    requires Inv(db)
    ensures Inv(Run(db, evs))
  {
    if evs != [] {
      RunKeepsInv(db, evs[..|evs| - 1]);
      StepKeepsInv(Run(db, evs[..|evs| - 1]), evs[|evs| - 1]);
    }
  }

  // ---------- a superseded attempt writes nothing, ever again ----------

  /** The source has moved past the claim that this version and token stand for. */
  predicate Superseded(db: Db, source: SourceKey, version: int, token: Token) {
    && source in db.sources
    && version <= db.sources[source].version
    && (version == db.sources[source].version ==> db.sources[source].token != Some(token))
  }

  lemma {:induction false} SupersededForever(db: Db, evs: seq<Event>, source: SourceKey, version: int, token: Token)
    requires Superseded(db, source, version, token)
    ensures Superseded(Run(db, evs), source, version, token)
  {
    if evs != [] {
      SupersededForever(db, evs[..|evs| - 1], source, version, token);
    }
  }

  /** Once a newer claim has committed, no fenced call of an older attempt changes
      any row, whatever happens in between and even while the old execution row
      still says running; it is refused or is the replay of its own outcome. */
  lemma StaleAttemptNeverWrites(db: Db, before: seq<Event>, claim: Event, after: seq<Event>, h: Handle)
    requires claim.Claim? && claim.source == h.source
    requires CanClaim(Run(db, before), claim.source, claim.token, claim.executionId)
    requires h.version <= Run(db, before).sources[h.source].version
    ensures var now := Run(Step(Run(db, before), claim), after);
            && (forall status, err :: Step(now, Finish(h, status, err)) == now)
            && (forall cls, backoff :: Step(now, Retry(h, cls, backoff)) == now)
            && (forall actor ::
                  Step(now, Activate(Invocation(actor, h.source, h.token, h.version, h.id, h.attempt))) == now)
            && (forall status :: SettleResult(now, h, status) == Success(false) ==> AlreadySettled(now, h, status))
            && (forall status :: SettleResult(now, h, status) != Success(true))
  {
    SupersededForever(Step(Run(db, before), claim), after, h.source, h.version, h.token);
  }

  /** The same for a claim that has been settled: its released token never comes back. */
  lemma SettledAttemptNeverWrites(db: Db, h: Handle, status: Status, err: Option<string>, backoff: Option<int>,
                                  after: seq<Event>)
    requires CanSettle(db, h, status)
    ensures var now := Run(Settled(db, h, status, err, backoff), after);
            && (forall status', err' :: Step(now, Finish(h, status', err')) == now)
            && (forall cls, backoff' :: Step(now, Retry(h, cls, backoff')) == now)
  {
    SupersededForever(Settled(db, h, status, err, backoff), after, h.source, h.version, h.token);
  }

  // ---------- one settlement per claim ----------

  /** This event commits the end of execution `id`. */
  predicate Settles(db: Db, ev: Event, id: int) {
    match ev
    case Finish(h, status, _) => h.id == id && CanSettle(db, h, status)
    case Retry(h, _, _) => h.id == id && CanSettle(db, h, Retrying)
    case _ => false
  }

  function Settlements(db: Db, evs: seq<Event>, id: int): nat {
    if evs == [] then 0
    else
      var prior := evs[..|evs| - 1];
      Settlements(db, prior, id) + if Settles(Run(db, prior), evs[|evs| - 1], id) then 1 else 0
  }

  predicate Active(status: Status) {
    status == Queued || status == Running
  }

  /** However finish, retry and recovery race, at most one of them commits for an
      execution, and exactly then the execution has left its active states. */
  lemma {:induction false} AtMostOneSettlement(db: Db, evs: seq<Event>, id: int)
    requires id !in db.executions
    ensures Settlements(db, evs, id) <= 1
    ensures Settlements(db, evs, id) == 1 <==>
            id in Run(db, evs).executions && !Active(Run(db, evs).executions[id].status)
  {
    if evs != [] {
      AtMostOneSettlement(db, evs[..|evs| - 1], id);
    }
  }

  // ---------- execution and source agree ----------

  /** The newest claim of `s` and the source row tell the same story. */
  ghost predicate Agree(db: Db, s: SourceKey)
    requires s in db.sources
  {
    forall i <- db.executions | db.executions[i].source == s && db.executions[i].version == db.sources[s].version ::
      if Active(db.executions[i].status)
      then db.sources[s].status == Running && db.sources[s].token == Some(db.executions[i].token)
      else SourceOutcome(s.kind, db.executions[i].status) == Some(db.sources[s].status) && db.sources[s].token == None
  }

  predicate Edits(ev: Event, s: SourceKey) {
    ev.Edit? && ev.edited == s
  }

  lemma SettlingHandleNamesItsSource(db: Db, h: Handle, status: Status)
    requires Inv(db) && CanSettle(db, h, status)
    ensures db.executions[h.id].source == h.source
  {
    assert FenceInv(db, h.source);
    var i :| i in db.executions && HoldsFence(db, i, h.source);
    assert DistinctClaims(db.executions[i], db.executions[h.id]) || i == h.id;
  }

  lemma ClaimKeepsAgreement(db: Db, ev: Event, s: SourceKey)
    requires Inv(db) && s in db.sources && Agree(db, s) && ev.Claim?
    ensures s in Step(db, ev).sources && Agree(Step(db, ev), s)
  {
    if CanClaim(db, ev.source, ev.token, ev.executionId) {
      forall i <- db.executions ensures ExecutionInv(db, i) {}
    }
  }

  lemma SettleKeepsAgreement(db: Db, s: SourceKey, h: Handle, status: Status, err: Option<string>, backoff: Option<int>)
    requires Inv(db) && s in db.sources && Agree(db, s) && CanSettle(db, h, status)
    ensures s in Settled(db, h, status, err, backoff).sources && Agree(Settled(db, h, status, err, backoff), s)
  {
    SettlingHandleNamesItsSource(db, h, status);
  }

  lemma StepKeepsAgreement(db: Db, ev: Event, s: SourceKey)
    requires Inv(db) && s in db.sources && Agree(db, s) && !Edits(ev, s)
    ensures s in Step(db, ev).sources && Agree(Step(db, ev), s)
  {
    match ev
    case Finish(h, status, err) =>
      if CanSettle(db, h, status) { SettleKeepsAgreement(db, s, h, status, err, None); }
    case Retry(h, cls, backoff) =>
      if CanSettle(db, h, Retrying) { SettleKeepsAgreement(db, s, h, Retrying, Some(cls), Some(backoff)); }
    case Claim(_, _, _, _, _) => ClaimKeepsAgreement(db, ev, s);
    case _ =>
  }

  /** As long as nothing else writes the source's status, every reachable state maps the
      newest execution to its source by the per-kind table, and the fence is held
      exactly while that execution is active. */
  lemma {:induction false} ExecutionAndSourceAgree(db: Db, evs: seq<Event>, s: SourceKey)
    requires Initial(db) && s in db.sources
    requires forall k | 0 <= k < |evs| :: !Edits(evs[k], s)
    ensures Inv(Run(db, evs)) && s in Run(db, evs).sources && Agree(Run(db, evs), s)
  {
    RunKeepsInv(db, evs);
    if evs != [] {
      var prior := evs[..|evs| - 1];
      ExecutionAndSourceAgree(db, prior, s);
      StepKeepsAgreement(Run(db, prior), evs[|evs| - 1], s);
    }
  }

  /** So after any such run a source whose newest attempt has ended shows how it ended, and can be
      claimed again exactly when the attempt is to be retried. */
  lemma SettledSourceShowsItsOutcome(db: Db, evs: seq<Event>, s: SourceKey, i: int)
    requires Initial(db) && s in db.sources
    requires forall k | 0 <= k < |evs| :: !Edits(evs[k], s)
    requires s in Run(db, evs).sources && i in Run(db, evs).executions
    requires var e := Run(db, evs).executions[i];
             e.source == s && e.version == Run(db, evs).sources[s].version && !Active(e.status)
    ensures var e, row := Run(db, evs).executions[i], Run(db, evs).sources[s];
            && IsOutcome(e.status) && Mirrors(s.kind, e.status, row.status)
            && (Claimable(s.kind, row.status) <==> e.status == Retrying)
  {
    ExecutionAndSourceAgree(db, evs, s);
    OutcomeIsMirrored(s.kind, Run(db, evs).executions[i].status);
    ClaimableIffRetry(s.kind, Run(db, evs).executions[i].status, Run(db, evs).sources[s].status);
  }

  // ---------- histories are paths of the transition matrix ----------

  /** The statuses execution `id` passes through, one entry per change. */
  function History(db: Db, evs: seq<Event>, id: int): seq<Status> {
    if evs == [] then []
    else
      var prior := evs[..|evs| - 1];
      var was, now := Run(db, prior), Run(db, evs);
      if id in now.executions && (id !in was.executions || was.executions[id].status != now.executions[id].status)
      then History(db, prior, id) + [now.executions[id].status]
      else History(db, prior, id)
  }

  /** The only ways one event changes the status of execution `id`. */
  lemma StatusStep(db: Db, ev: Event, id: int)
    ensures var now := Step(db, ev);
            if id !in db.executions then
              id in now.executions ==> now.executions[id].status == Queued
            else
              && id in now.executions
              && var was, next := db.executions[id].status, now.executions[id].status;
                 if Settles(db, ev, id) then was == Running && !Active(next) && TransitionAllowed(Running, next)
                 else was == next || (was == Queued && next == Running)
  {
  }

  /** Queued, then running, then one final status that the matrix allows. */
  predicate IsLifePath(hist: seq<Status>) {
    && |hist| <= 3
    && (|hist| > 0 ==> hist[0] == Queued)
    && (|hist| > 1 ==> hist[1] == Running)
    && (|hist| > 2 ==> !Active(hist[2]))
    && forall k | 0 < k < |hist| :: TransitionAllowed(hist[k - 1], hist[k])
  }

  lemma {:induction false} HistoryIsMatrixPath(db: Db, evs: seq<Event>, id: int)
    requires id !in db.executions
    ensures IsLifePath(History(db, evs, id))
    ensures id in Run(db, evs).executions <==> History(db, evs, id) != []
    ensures History(db, evs, id) != [] ==>
              History(db, evs, id)[|History(db, evs, id)| - 1] == Run(db, evs).executions[id].status
  {
    if evs != [] {
      HistoryIsMatrixPath(db, evs[..|evs| - 1], id);
      StatusStep(Run(db, evs[..|evs| - 1]), evs[|evs| - 1], id);
    }
  }

  // ---------- what the runner reports ----------

  datatype DomainStatus =
    SucceededOutcome | SkippedOutcome | BlockedOutcome | CancelledOutcome | RetryingOutcome
    | FailedPermanentOutcome | ProtocolFailure

  /** outcome_for_source on the row its query found. */
  function OutcomeOf(found: Option<ExecutionRow>): Option<DomainStatus> {
    if found.None? then None
    else
      var row := found.value;
      var unexplained := row.error == None || row.error == Some("");
      match row.status
      case Succeeded => Some(SucceededOutcome)
      case Retrying => Some(RetryingOutcome)
      case Skipped => if unexplained then None else Some(SkippedOutcome)
      case Blocked => if unexplained then None else Some(BlockedOutcome)
      case Cancelled => if unexplained then None else Some(CancelledOutcome)
      case FailedPermanent => if unexplained then None else Some(FailedPermanentOutcome)
      case _ => None
  }

  /** The query: newest execution with this actor, source, token and version. */
  ghost predicate QueryFinds(db: Db, c: Invocation, found: Option<ExecutionRow>) {
    if found.None? then forall i <- db.executions :: !Matches(db.executions[i], c)
    else exists i <- db.executions ::
           && db.executions[i] == found.value && Matches(found.value, c)
           && forall j <- db.executions | Matches(db.executions[j], c) :: j <= i
  }

  predicate Matches(e: ExecutionRow, c: Invocation) {
    e.actor == c.actor && e.source == c.source && e.token == c.token && e.version == c.version
  }

  /** In every reachable state the query has an answer, and it is the only execution of the invocation. */
  lemma QueryAnswers(db: Db, evs: seq<Event>, c: Invocation) returns (found: Option<ExecutionRow>)
    requires Initial(db)
    ensures QueryFinds(Run(db, evs), c, found)
    ensures forall i <- Run(db, evs).executions | Matches(Run(db, evs).executions[i], c) ::
              found == Some(Run(db, evs).executions[i])
  {
    RunKeepsInv(db, evs);
    var now := Run(db, evs);
    found := None;
    if i :| i in now.executions && Matches(now.executions[i], c) {
      found := Some(now.executions[i]);
      forall j <- now.executions | Matches(now.executions[j], c) ensures j == i {
        assert DistinctClaims(now.executions[i], now.executions[j]) || i == j;
      }
    }
  }

  /** The record main prints, and its exit code, after an invocation that raised
      (`failed`) or not, and whose outcome read itself may have failed. */
  function Printed(found: Option<ExecutionRow>, readFailed: bool): DomainStatus {
    if readFailed || OutcomeOf(found).None? then ProtocolFailure else OutcomeOf(found).value
  }

  function ExitCode(outcome: DomainStatus, failed: bool): int {
    if failed || outcome == ProtocolFailure then 1 else 0
  }

  /** An execution that has left its active states got there by one committed event of the run. */
  lemma {:induction false} SettlementHappened(db: Db, evs: seq<Event>, id: int) returns (k: nat)
    requires id !in db.executions && id in Run(db, evs).executions && !Active(Run(db, evs).executions[id].status)
    ensures k < |evs| && Settles(Run(db, evs[..k]), evs[k], id)
    ensures Run(db, evs).executions[id].status == if evs[k].Finish? then evs[k].status else Retrying
    ensures var h := evs[k].handle;
            h.token == Run(db, evs).executions[id].token && h.version == Run(db, evs).executions[id].version
  {
    var last := |evs| - 1;
    if Settles(Run(db, evs[..last]), evs[last], id) {
      k := last;
    } else {
      StatusStep(Run(db, evs[..last]), evs[last], id);
      k := SettlementHappened(db, evs[..last], id);
      assert evs[..last][..k] == evs[..k];
    }
  }

  /** The status that a settling event commits, and the outcome that names it. */
  function CommittedStatus(ev: Event): Status
    requires ev.Finish? || ev.Retry?
  {
    if ev.Finish? then ev.status else Retrying
  }

  function ReportedAs(status: Status): DomainStatus {
    match status
    case Succeeded => SucceededOutcome
    case Retrying => RetryingOutcome
    case Skipped => SkippedOutcome
    case Blocked => BlockedOutcome
    case Cancelled => CancelledOutcome
    case FailedPermanent => FailedPermanentOutcome
    case _ => ProtocolFailure
  }

  /** The runner never infers an outcome: anything but a protocol failure was
      committed by exactly one transaction of the execution with its own token
      and version, and names exactly the status which that transaction wrote. */
  lemma RunnerReportsOnlyCommittedOutcomes(db: Db, evs: seq<Event>, c: Invocation, found: Option<ExecutionRow>,
                                           readFailed: bool)
    returns (k: nat, id: int)
    requires Initial(db) && QueryFinds(Run(db, evs), c, found)
    requires Printed(found, readFailed) != ProtocolFailure
    ensures k < |evs| && Settles(Run(db, evs[..k]), evs[k], id) && Settlements(db, evs, id) == 1
    ensures evs[k].handle.token == c.token && evs[k].handle.version == c.version
    ensures Printed(found, readFailed) == ReportedAs(CommittedStatus(evs[k]))
  {
    id :| id in Run(db, evs).executions && Run(db, evs).executions[id] == found.value && Matches(found.value, c);
    k := SettlementHappened(db, evs, id);
    AtMostOneSettlement(db, evs, id);
  }

  /** Exit code 0 means that the invocation returned normally and its own outcome was committed. */
  lemma ExitZeroMeansCommitted(db: Db, evs: seq<Event>, c: Invocation, found: Option<ExecutionRow>,
                               readFailed: bool, failed: bool)
    returns (k: nat, id: int)
    requires Initial(db) && QueryFinds(Run(db, evs), c, found)
    requires ExitCode(Printed(found, readFailed), failed) == 0
    ensures !failed
    ensures k < |evs| && Settles(Run(db, evs[..k]), evs[k], id) && Settlements(db, evs, id) == 1
    ensures evs[k].handle.token == c.token && evs[k].handle.version == c.version
  {
    k, id := RunnerReportsOnlyCommittedOutcomes(db, evs, c, found, readFailed);
  }

  /** The row says how the attempt ended and, unless it succeeded or will be retried, why. */
  predicate Explained(e: ExecutionRow) {
    e.status in {Succeeded, Retrying}
    || (e.status in {Skipped, Blocked, Cancelled, FailedPermanent} && e.error !in {None, Some("")})
  }

  /** Nothing that was committed is kept back: if the invocation's own execution has ended and is explained, the
      runner finds it and prints its status, and otherwise a protocol failure. */
  lemma CommittedOutcomeIsReported(db: Db, evs: seq<Event>, c: Invocation, found: Option<ExecutionRow>, i: int,
                                   failed: bool)
    requires Initial(db) && QueryFinds(Run(db, evs), c, found)
    requires i in Run(db, evs).executions && Matches(Run(db, evs).executions[i], c)
    ensures var e := Run(db, evs).executions[i];
            && found == Some(e)
            && Printed(found, false) == (if Explained(e) then ReportedAs(e.status) else ProtocolFailure)
            && (ExitCode(Printed(found, false), failed) == 0 <==> !failed && Explained(e))
            && Printed(found, true) == ProtocolFailure && ExitCode(Printed(found, true), failed) == 1
  {
    RunKeepsInv(db, evs);
    var now := Run(db, evs);
    var j :| j in now.executions && now.executions[j] == found.value && Matches(found.value, c);
    assert DistinctClaims(now.executions[i], now.executions[j]) || i == j;
  }
}
