/** The transactional outbox: intents claimed under a lease, delivered to
    Temporal, and acknowledged, delayed or dead-lettered. */
module Outbox {
  import opened Wrappers

  datatype IntentStatus = Pending | Delivering | Delivered | DeadLetter

  datatype Operation = StartWorkflow | SignalWithStart | SignalWorkflow | CancelWorkflow | Unsupported

  /** The owners a payload names; None when the key is absent or not an integer. */
  datatype Payload = Payload(
    command: Option<int>, suggestion: Option<int>, run: Option<int>,
    workflowInput: bool,   // workflow_input and signal_payload are both objects
    body: string)

  datatype IntentRow = IntentRow(
    id: int, key: string, operation: Operation, workflowId: string,
    workflowType: bool, taskQueue: bool, signalName: bool,  // present and non-empty
    payload: Payload,
    status: IntentStatus, attempts: nat, availableAt: int, lockedAt: int)

  /** What a relay holds after claiming: the row as the claim returned it. */
  type Intent = IntentRow

  datatype OwnerStatus = OwnerPending | OwnerQueued | OwnerBlocked | OwnerOther | OwnerFailedPermanent

  datatype OwnerRow = OwnerRow(status: OwnerStatus, temporal: bool, workflowId: string)

  datatype CommitStatus = Committed | CommitFailed | OtherCommitStatus

  /** NULL columns are None. */
  datatype SuggestionRow = SuggestionRow(commitCommand: Option<int>, commitStatus: Option<CommitStatus>)

  /** A claimable row: pending and due, or delivering under an expired lease. */
  predicate Due(row: IntentRow, now: int, leaseSeconds: int) {
    || (row.status == Pending && row.availableAt <= now)
    || (row.status == Delivering && row.lockedAt <= now - leaseSeconds)
  }

  function ClaimedRow(row: IntentRow, now: int): IntentRow {
    row.(status := Delivering, attempts := row.attempts + 1, lockedAt := now)
  }

  function Pow2(n: nat): (p: nat)
    ensures p >= 1
  {
    if n == 0 then 1 else 2 * Pow2(n - 1)
  }

  function Min(a: int, b: int): int { if a < b then a else b }

  function DelaySeconds(attempts: nat): (seconds: int)
    ensures 1 <= seconds <= 60
    ensures attempts >= 6 ==> seconds == 60
  {
    Min(60, Pow2(Min(attempts, 6)))
  }

  /** The delay doubles with every attempt until the cap. */
  lemma DelayDoublesUpToCap(attempts: nat)
    ensures DelaySeconds(0) == 1
    ensures DelaySeconds(attempts + 1) == Min(60, 2 * DelaySeconds(attempts))
  {
    if attempts == 5 {
      assert Pow2(5) == 32 by {
        assert Pow2(2) == 4 && Pow2(3) == 8 && Pow2(4) == 16;
      }
    } else if attempts < 5 {
      Pow2Small(attempts);
    }
  }

  lemma Pow2Small(n: nat)
    requires n < 5
    ensures 2 * Pow2(n) <= 32 && Pow2(n + 1) == 2 * Pow2(n)
  {
    assert Pow2(1) == 2 && Pow2(2) == 4 && Pow2(3) == 8 && Pow2(4) == 16;
  }

  predicate Exhausted(intent: Intent, maxAttempts: int) {
    intent.attempts >= maxAttempts
  }

  function FailedRow(row: IntentRow, intent: Intent, now: int, maxAttempts: int): IntentRow {
    row.(status := if Exhausted(intent, maxAttempts) then DeadLetter else Pending,
         availableAt := now + DelaySeconds(intent.attempts))
  }

  /**
   * A failed delivery is retried after min(60, 2^min(n, 6)) seconds, where n counts its attempts, from then on and
   * not before; after the last attempt it is never due again.
   */
  predicate DueAfterFailure(row: IntentRow, attempts: nat, now: int, maxAttempts: int, later: int, leaseSeconds: int) {
    Due(row, later, leaseSeconds) <==> attempts < maxAttempts && later >= now + DelaySeconds(attempts)
  }

  lemma FailedRowIsDue(row: IntentRow, intent: Intent, now: int, maxAttempts: int, later: int, leaseSeconds: int)
    ensures DueAfterFailure(FailedRow(row, intent, now, maxAttempts), intent.attempts, now, maxAttempts, later,
                            leaseSeconds)
  {
  }

  lemma DelayTable()
    ensures DelaySeconds(1) == 2 && DelaySeconds(2) == 4 && DelaySeconds(3) == 8 && DelaySeconds(4) == 16
    ensures DelaySeconds(5) == 32 && forall n: nat | n >= 6 :: DelaySeconds(n) == 60
  {
    Pow2Small(1);
    Pow2Small(2);
    Pow2Small(3);
    Pow2Small(4);
  }

  /** The table's rows in id order. */
  predicate Ordered(rows: seq<IntentRow>) {
    forall i, j | 0 <= i < j < |rows| :: rows[i].id < rows[j].id
  }

  /** The commands, suggestions and runs that a dead letter fails: only owners
      that Temporal orchestrates and that have not started. */
  function FailedCommands(commands: map<int, OwnerRow>, intent: Intent): map<int, OwnerRow> {
    if intent.operation in {StartWorkflow, SignalWorkflow, SignalWithStart} && intent.payload.command.Some?
       && intent.payload.command.value in commands
       && OwnerFails(commands[intent.payload.command.value], intent, {OwnerPending, OwnerQueued})
    then
      var id := intent.payload.command.value;
      commands[id := commands[id].(status := OwnerFailedPermanent)]
    else commands
  }

  predicate OwnerFails(row: OwnerRow, intent: Intent, startable: set<OwnerStatus>) {
    row.status in startable && row.temporal && row.workflowId == intent.workflowId
  }

  /** A commit status of NULL compares as neither equal nor different, so it is left alone. */
  predicate SuggestionFails(row: SuggestionRow, command: int) {
    row.commitCommand == Some(command) && row.commitStatus.Some? && row.commitStatus != Some(Committed)
  }

  function FailedSuggestions(suggestions: map<int, SuggestionRow>, intent: Intent): map<int, SuggestionRow> {
    if intent.operation in {StartWorkflow, SignalWorkflow, SignalWithStart}
       && intent.payload.suggestion.Some? && intent.payload.command.Some?
       && intent.payload.suggestion.value in suggestions
       && SuggestionFails(suggestions[intent.payload.suggestion.value], intent.payload.command.value)
    then
      var id := intent.payload.suggestion.value;
      suggestions[id := suggestions[id].(commitStatus := Some(CommitFailed))]
    else suggestions
  }

  function FailedRuns(runs: map<int, OwnerRow>, intent: Intent): map<int, OwnerRow> {
    if intent.operation in {StartWorkflow, SignalWithStart} && intent.payload.run.Some?
       && intent.payload.run.value in runs
       && OwnerFails(runs[intent.payload.run.value], intent, {OwnerPending, OwnerQueued, OwnerBlocked})
    then runs[intent.payload.run.value := runs[intent.payload.run.value].(status := OwnerFailedPermanent)]
    else runs
  }

  // The same, owner by owner: who is failed by a dead letter, and that nobody else is touched.

  predicate CommandsFailed(was: map<int, OwnerRow>, now: map<int, OwnerRow>, intent: Intent) {
    && now.Keys == was.Keys
    && forall c <- was ::
         now[c] == if && intent.operation in {StartWorkflow, SignalWorkflow, SignalWithStart}
                      && intent.payload.command == Some(c)
                      && was[c].status in {OwnerPending, OwnerQueued} && was[c].temporal
                      && was[c].workflowId == intent.workflowId
                   then OwnerRow(OwnerFailedPermanent, true, intent.workflowId) else was[c]
  }

  predicate SuggestionsFailed(was: map<int, SuggestionRow>, now: map<int, SuggestionRow>, intent: Intent) {
    && now.Keys == was.Keys
    && forall x <- was ::
         now[x] == if && intent.operation in {StartWorkflow, SignalWorkflow, SignalWithStart}
                      && intent.payload.suggestion == Some(x)
                      && intent.payload.command.Some? && was[x].commitCommand == intent.payload.command
                      && was[x].commitStatus !in {None, Some(Committed)}
                   then SuggestionRow(was[x].commitCommand, Some(CommitFailed)) else was[x]
  }

  predicate RunsFailed(was: map<int, OwnerRow>, now: map<int, OwnerRow>, intent: Intent) {
    && now.Keys == was.Keys
    && forall r <- was ::
         now[r] == if && intent.operation in {StartWorkflow, SignalWithStart} && intent.payload.run == Some(r)
                      && was[r].status in {OwnerPending, OwnerQueued, OwnerBlocked} && was[r].temporal
                      && was[r].workflowId == intent.workflowId
                   then OwnerRow(OwnerFailedPermanent, true, intent.workflowId) else was[r]
  }

  lemma OwnersFailed(commands: map<int, OwnerRow>, suggestions: map<int, SuggestionRow>, runs: map<int, OwnerRow>,
                     intent: Intent)
    ensures CommandsFailed(commands, FailedCommands(commands, intent), intent)
    ensures SuggestionsFailed(suggestions, FailedSuggestions(suggestions, intent), intent)
    ensures RunsFailed(runs, FailedRuns(runs, intent), intent)
  {
  }

  lemma OnlyEarlierRowsAreSmaller(rows: seq<IntentRow>, i: nat)
    requires Ordered(rows) && i < |rows|
    ensures forall j | 0 <= j < |rows| && rows[j].id < rows[i].id :: j < i
  {
  }

  class OutboxStore {
    var rows: seq<IntentRow>
    var commands: map<int, OwnerRow>
    var suggestions: map<int, SuggestionRow>
    var runs: map<int, OwnerRow>

    constructor (rows: seq<IntentRow>, commands: map<int, OwnerRow>, suggestions: map<int, SuggestionRow>,
                 runs: map<int, OwnerRow>)
      ensures this.rows == rows && this.commands == commands && this.suggestions == suggestions && this.runs == runs
    {
      this.rows, this.commands, this.suggestions, this.runs := rows, commands, suggestions, runs;
    }

    /** claim_next_intent: the due row with the smallest id that no concurrent
        transaction has locked. */
    method ClaimNextIntent(now: int, leaseSeconds: int, locked: set<int>) returns (r: Option<Intent>)
      requires Ordered(rows)
      modifies this`rows
      ensures r.None? ==>
                rows == old(rows) && forall i | 0 <= i < |rows| ::
                    rows[i].id in locked || !Due(rows[i], now, leaseSeconds)
      ensures r.Some? ==>
                exists i | 0 <= i < |old(rows)| ::
                  && Due(old(rows[i]), now, leaseSeconds) && old(rows[i]).id !in locked
                  && (forall j | 0 <= j < |old(rows)| && old(rows[j]).id < old(rows[i]).id ::
                        old(rows[j]).id in locked || !Due(old(rows[j]), now, leaseSeconds))
                  && rows == old(rows)[i := ClaimedRow(old(rows[i]), now)]
                  && r.value == rows[i]
    {
      for i := 0 to |rows|
        invariant rows == old(rows)
        invariant forall j | 0 <= j < i :: rows[j].id in locked || !Due(rows[j], now, leaseSeconds)
      {
        if rows[i].id !in locked && Due(rows[i], now, leaseSeconds) {
          OnlyEarlierRowsAreSmaller(rows, i);
          var claimed := ClaimedRow(rows[i], now);
          rows := rows[i := claimed];
          return Some(claimed);
        }
      }
      return None;
    }

    /** The row of `id`, if the table has it. */
    method FindRow(id: int) returns (found: Option<nat>)
      ensures found.Some? ==> found.value < |rows| && rows[found.value].id == id
      ensures found.None? ==> forall i | 0 <= i < |rows| :: rows[i].id != id
    {
      for i := 0 to |rows|
        invariant forall j | 0 <= j < i :: rows[j].id != id
      {
        if rows[i].id == id {
          return Some(i);
        }
      }
      return None;
    }

    method MarkDelivered(intentId: int)
      requires Ordered(rows)
      modifies this`rows
      ensures |rows| == |old(rows)|
      ensures forall i | 0 <= i < |rows| ::
                rows[i] == if old(rows[i]).id == intentId && old(rows[i]).status == Delivering
                           then old(rows[i]).(status := Delivered) else old(rows[i])
    {
      var found := FindRow(intentId);
      if found.Some? && rows[found.value].status == Delivering {
        rows := rows[found.value := rows[found.value].(status := Delivered)];
      }
    }

    /** mark_failed: one transaction over the intent and, for a dead letter, its owners. */
    method MarkFailed(intent: Intent, now: int, maxAttempts: int)
      requires Ordered(rows)
      modifies this
      ensures |rows| == |old(rows)|
      ensures forall i | 0 <= i < |rows| ::
                rows[i] == if old(rows[i]).id == intent.id && old(rows[i]).status == Delivering
                           then FailedRow(old(rows[i]), intent, now, maxAttempts) else old(rows[i])
      ensures var dead := Exhausted(intent, maxAttempts)
                          && exists i | 0 <= i < |old(rows)| ::
                              old(rows[i]).id == intent.id && old(rows[i]).status == Delivering;
              && commands == (if dead then FailedCommands(old(commands), intent) else old(commands))
              && suggestions == (if dead then FailedSuggestions(old(suggestions), intent) else old(suggestions))
              && runs == (if dead then FailedRuns(old(runs), intent) else old(runs))
      ensures forall i | 0 <= i < |rows| && old(rows[i]).id == intent.id && old(rows[i]).status == Delivering ::
                && rows[i].status == (if intent.attempts >= maxAttempts then DeadLetter else Pending)
                && rows[i] == old(rows[i]).(status := rows[i].status, availableAt := rows[i].availableAt)
                && (forall later, leaseSeconds ::
                      DueAfterFailure(rows[i], intent.attempts, now, maxAttempts, later, leaseSeconds))
      ensures intent.attempts < maxAttempts ==>
                commands == old(commands) && suggestions == old(suggestions) && runs == old(runs)
      ensures intent.attempts >= maxAttempts
              && (exists i | 0 <= i < |rows| :: old(rows[i]).id == intent.id && old(rows[i]).status == Delivering) ==>
                && CommandsFailed(old(commands), commands, intent)
                && SuggestionsFailed(old(suggestions), suggestions, intent)
                && RunsFailed(old(runs), runs, intent)
    {
      var found := FindRow(intent.id);
      if found.None? || rows[found.value].status != Delivering {
        return;
      }
      rows := rows[found.value := FailedRow(rows[found.value], intent, now, maxAttempts)];
      if Exhausted(intent, maxAttempts) {
        OwnersFailed(commands, suggestions, runs, intent);
        commands := FailedCommands(commands, intent);
        suggestions := FailedSuggestions(suggestions, intent);
        runs := FailedRuns(runs, intent);
      }
    }
  }
}
