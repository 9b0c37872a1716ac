/** Relays over the outbox and an abstract Temporal server: any number of relays,
    crashes at any point, lost responses, and expired leases. */
module Relay {
  import opened Wrappers
  import opened Outbox

  /**
   * What the server remembers: the workflow ids ever started and those open, the intents whose own
   * operation it accepted, the start intents it refused because their id had been started before,
   * and how many executions every id has had.
   */
  datatype Server = Server(
    started: set<string>, open: set<string>, accepted: set<int>, found: set<int>, created: map<string, nat>)

  /** How one client call ends, seen from the relay. */
  datatype Network = Reachable | ResponseLost | Unreachable

  predicate WellFormed(row: IntentRow) {
    match row.operation
    case StartWorkflow => row.workflowType && row.taskQueue
    case SignalWithStart => row.workflowType && row.taskQueue && row.signalName && row.payload.workflowInput
    case SignalWorkflow => row.signalName
    case CancelWorkflow => true
    case Unsupported => false
  }

  function Created(server: Server, workflowId: string): nat {
    if workflowId in server.created then server.created[workflowId] else 0
  }

  /** Signals and cancellations need an open workflow. */
  predicate NeedsOpen(op: Operation) {
    op == SignalWorkflow || op == CancelWorkflow
  }

  /** The call is well formed, arrives, and the workflow it needs is there. */
  predicate CallReaches(server: Server, row: IntentRow, net: Network) {
    WellFormed(row) && net != Unreachable && (NeedsOpen(row.operation) ==> row.workflowId in server.open)
  }

  /** The server carries the operation out; REJECT_DUPLICATE refuses a start whose id was ever started. */
  predicate CallAccepted(server: Server, row: IntentRow, net: Network) {
    CallReaches(server, row, net) && (row.operation == StartWorkflow ==> row.workflowId !in server.started)
  }

  /** A workflow id gets one more execution. */
  function NewExecution(server: Server, workflowId: string): Server {
    server.(started := server.started + {workflowId}, open := server.open + {workflowId},
            created := server.created[workflowId := Created(server, workflowId) + 1])
  }

  /** deliver_intent: the server's new state, and whether the call returned normally. */
  function Deliver(server: Server, row: IntentRow, net: Network): (Server, bool) {
    if !CallReaches(server, row, net) then (server, false)
    else if !CallAccepted(server, row, net) then
      (server.(found := server.found + {row.id}), net == Reachable)  // "already started" counts as delivered
    else
      var took := server.(accepted := server.accepted + {row.id});
      var starts := row.operation == StartWorkflow
                    || (row.operation == SignalWithStart && row.workflowId !in server.open);
      (if starts then NewExecution(took, row.workflowId) else took, net == Reachable)
  }

  /** What an operation needs and this row lacks; an unknown operation lacks everything. */
  predicate Lacking(row: IntentRow) {
    || row.operation == Unsupported
    || (row.operation in {StartWorkflow, SignalWithStart} && !(row.workflowType && row.taskQueue))
    || (row.operation in {SignalWithStart, SignalWorkflow} && !row.signalName)
    || (row.operation == SignalWithStart && !row.payload.workflowInput)
  }

  /**
   * What a delivery leaves on the server, operation by operation: a start makes an execution of an unused id and is
   * noted as refused for a used one, a signal-with-start makes one exactly if none is open, a signal and a
   * cancellation need an open one; and it returns normally unless it fails at one of these or loses its response.
   */
  predicate Delivery(server: Server, row: IntentRow, net: Network, now: Server, ok: bool) {
    var id := row.workflowId;
    var arrives := !Lacking(row) && net != Unreachable
                   && (row.operation in {SignalWorkflow, CancelWorkflow} ==> id in server.open);
    var refused := row.operation == StartWorkflow && id in server.started;
    var creates := arrives && ((row.operation == StartWorkflow && id !in server.started)
                               || (row.operation == SignalWithStart && id !in server.open));
    && (ok <==> arrives && net == Reachable)
    && now.accepted == server.accepted + (if arrives && !refused then {row.id} else {})
    && now.found == server.found + (if arrives && refused then {row.id} else {})
    && now.started == server.started + (if creates then {id} else {})
    && now.open == server.open + (if creates then {id} else {})
    && now.created == if !creates then server.created
                      else server.created[id := if id in server.created then server.created[id] + 1 else 1]
  }

  lemma DeliveredByOperation(server: Server, row: IntentRow, net: Network)
    ensures var (now, ok) := Deliver(server, row, net); Delivery(server, row, net, now, ok)
  {
  }

  class TemporalServer {
    var started: set<string>
    var open: set<string>
    var accepted: set<int>
    var found: set<int>
    var created: map<string, nat>

    constructor ()
      ensures Snapshot() == Server({}, {}, {}, {}, map[])
    {
      started, open, accepted, found, created := {}, {}, {}, {}, map[];
    }

    ghost function Snapshot(): Server
      reads this
    {
      Server(started, open, accepted, found, created)
    }

    /** A fresh execution of a workflow id. */
    method Create(workflowId: string)
      modifies this`started, this`open, this`created
      ensures Snapshot() == NewExecution(old(Snapshot()), workflowId)
    {
      started := started + {workflowId};
      open := open + {workflowId};
      created := created[workflowId := (if workflowId in created then created[workflowId] else 0) + 1];
    }

    /** Start an execution unless the id was ever used (REJECT_DUPLICATE). */
    method StartRejectingDuplicates(intentId: int, workflowId: string) returns (alreadyStarted: bool)
      modifies this
      ensures alreadyStarted == (workflowId in old(started))
      ensures var before := old(Snapshot());
              Snapshot() == if alreadyStarted then before.(found := before.found + {intentId})
                            else NewExecution(before.(accepted := before.accepted + {intentId}), workflowId)
    {
      alreadyStarted := workflowId in started;
      if alreadyStarted {
        found := found + {intentId};
      } else {
        accepted := accepted + {intentId};
        Create(workflowId);
      }
    }

    /** Signal the open execution of the id, or a fresh one (ALLOW_DUPLICATE, USE_EXISTING). */
    method SignalWithStart(intentId: int, workflowId: string)
      modifies this
      ensures var took := old(Snapshot()).(accepted := old(accepted) + {intentId});
              Snapshot() == if workflowId in old(open) then took else NewExecution(took, workflowId)
    {
      accepted := accepted + {intentId};
      if workflowId !in open {
        Create(workflowId);
      }
    }
  }

  /** deliver_intent against the server object. */
  method DeliverIntent(server: TemporalServer, row: IntentRow, net: Network) returns (ok: bool)
    modifies server
    ensures (server.Snapshot(), ok) == Deliver(old(server.Snapshot()), row, net)
    ensures Delivery(old(server.Snapshot()), row, net, server.Snapshot(), ok)
  {
    DeliveredByOperation(server.Snapshot(), row, net);
    if !WellFormed(row) || net == Unreachable {
      return false;
    }
    if row.operation == StartWorkflow {
      var alreadyStarted := server.StartRejectingDuplicates(row.id, row.workflowId);
    } else if row.operation == SignalWithStart {
      server.SignalWithStart(row.id, row.workflowId);
    } else {
      if row.workflowId !in server.open {
        return false;
      }
      server.accepted := server.accepted + {row.id};
    }
    ok := net == Reachable;
  }

  /** One turn of relay_forever that no other relay interrupts. */
  method RelayTurn(store: OutboxStore, server: TemporalServer, now: int, leaseSeconds: int, maxAttempts: int,
                   net: Network)
    returns (handled: Option<Intent>)
    requires Ordered(store.rows)
    modifies store, server
    ensures handled.None? ==> store.rows == old(store.rows) && server.Snapshot() == old(server.Snapshot())
    ensures handled.Some? ==>
              && server.Snapshot() == Deliver(old(server.Snapshot()), handled.value, net).0
              && exists i | 0 <= i < |old(store.rows)| ::
                   && Due(old(store.rows)[i], now, leaseSeconds) && handled.value == ClaimedRow(old(store.rows)[i], now)
                   && store.rows == old(store.rows)[i :=
                        if Deliver(old(server.Snapshot()), handled.value, net).1
                        then handled.value.(status := Delivered)
                        else FailedRow(handled.value, handled.value, now, maxAttempts)]
  {
    handled := store.ClaimNextIntent(now, leaseSeconds, {});
    if handled.None? {
      return;
    }
    ghost var i :| 0 <= i < |old(store.rows)| && Due(old(store.rows)[i], now, leaseSeconds)
                   && store.rows == old(store.rows)[i := ClaimedRow(old(store.rows)[i], now)]
                       && handled.value == store.rows[i];
    var ok := DeliverIntent(server, handled.value, net);
    Mark(store, handled.value, ok, now, maxAttempts, i);
  }

  /** The acknowledgement of a delivery by the relay that still holds the claim. */
  method Mark(store: OutboxStore, intent: Intent, ok: bool, now: int, maxAttempts: int, ghost i: nat)
    requires Ordered(store.rows) && i < |store.rows| && store.rows[i] == intent && intent.status == Delivering
    modifies store
    ensures store.rows == old(store.rows)[i := if ok then intent.(status := Delivered)
                                               else FailedRow(intent, intent, now, maxAttempts)]
  {
    if ok {
      store.MarkDelivered(intent.id);
    } else {
      store.MarkFailed(intent, now, maxAttempts);
    }
  }

  // ---------- relays, crashes and redelivery ----------

  /** A claim in flight, named by its intent and by the attempt number it was given. */
  datatype ClaimKey = ClaimKey(id: int, attempt: nat)

  datatype Progress = Held | CallReturned | CallFailed

  datatype System = System(
    rows: map<int, IntentRow>,
    server: Server,
    claims: map<ClaimKey, Progress>,
    returned: map<int, set<nat>>,   // the attempts that put each intent back to pending
    takeovers: map<int, nat>)       // claims of each intent under an expired lease

  datatype Event =
    | Insert(row: IntentRow)
    | Claim(claimId: int, claimNow: int, leaseSeconds: int)
    | Attempt(claim: ClaimKey, net: Network)
    | Acknowledge(acked: ClaimKey)
    | Reject(rejected: ClaimKey, rejectNow: int, maxAttempts: int)
    | Crash(lost: ClaimKey)
    | CloseWorkflow(workflowId: string)
    | StartChild(childId: string, force: bool)  // a poll or reindex workflow starts the id beside the outbox

  function Returned(s: System, id: int): set<nat> { if id in s.returned then s.returned[id] else {} }

  function Takeovers(s: System, id: int): nat { if id in s.takeovers then s.takeovers[id] else 0 }

  /** A forced child start may reuse the id of a closed workflow, any other is refused for a used id. */
  predicate ChildStarts(server: Server, workflowId: string, force: bool) {
    if force then workflowId !in server.open else workflowId !in server.started
  }

  function ClaimIntent(row: IntentRow, attempt: nat): Intent {
    row.(attempts := attempt)
  }

  function Step(s: System, ev: Event): System {
    match ev
    case Insert(row) =>
      if row.id !in s.rows && row.status == Pending && row.attempts == 0 && row.id !in s.returned
          && row.id !in s.takeovers
      then s.(rows := s.rows[row.id := row]) else s
    case Claim(id, now, leaseSeconds) =>
      if id in s.rows && Due(s.rows[id], now, leaseSeconds) then
        s.(rows := s.rows[id := ClaimedRow(s.rows[id], now)],
           claims := s.claims[ClaimKey(id, s.rows[id].attempts + 1) := Held],
           takeovers := if s.rows[id].status == Delivering then s.takeovers[id := Takeovers(s, id) + 1]
                        else s.takeovers)
      else s
    case Attempt(claim, net) =>
      if claim in s.claims && s.claims[claim] == Held && claim.id in s.rows then
        var (server, ok) := Deliver(s.server, s.rows[claim.id], net);
        s.(server := server, claims := s.claims[claim := if ok then CallReturned else CallFailed])
      else s
    case Acknowledge(claim) =>
      if claim in s.claims && s.claims[claim] == CallReturned && claim.id in s.rows then
        var row := s.rows[claim.id];
        s.(claims := s.claims - {claim},
           rows := if row.status == Delivering then s.rows[claim.id := row.(status := Delivered)] else s.rows)
      else s
    case Reject(claim, now, maxAttempts) =>
      if claim in s.claims && s.claims[claim] == CallFailed && claim.id in s.rows then
        var row := s.rows[claim.id];
        var intent := ClaimIntent(row, claim.attempt);
        if row.status == Delivering then
          s.(claims := s.claims - {claim},
             rows := s.rows[claim.id := FailedRow(row, intent, now, maxAttempts)],
             returned := if Exhausted(intent, maxAttempts) then s.returned
                         else s.returned[claim.id := Returned(s, claim.id) + {claim.attempt}])
        else s.(claims := s.claims - {claim})
      else s
    case Crash(claim) => s.(claims := s.claims - {claim})
    case CloseWorkflow(workflowId) => s.(server := s.server.(open := s.server.open - {workflowId}))
    case StartChild(id, force) =>
      if ChildStarts(s.server, id, force) then s.(server := NewExecution(s.server, id)) else s
  }

  /** A claim lasts from its claiming to its acknowledgement, its rejection or the crash of its relay, and makes one
      call in between. */
  lemma ClaimLife(s: System, ev: Event, c: ClaimKey)
    ensures var t := Step(s, ev);
            var taken := ev.Claim? && c.id == ev.claimId && c.id in s.rows
                         && Due(s.rows[c.id], ev.claimNow, ev.leaseSeconds) && c.attempt == s.rows[c.id].attempts + 1;
            var answered := (ev.Acknowledge? && ev.acked == c && c in s.claims && s.claims[c] == CallReturned)
                            || (ev.Reject? && ev.rejected == c && c in s.claims && s.claims[c] == CallFailed);
            && (c in t.claims <==> taken || (c in s.claims && ev != Crash(c) && !(answered && c.id in s.rows)))
            && (c in t.claims && t.claims[c] == Held <==>
                  taken || (c in s.claims && s.claims[c] == Held && ev != Crash(c)
                            && !(ev.Attempt? && ev.claim == c && c.id in s.rows)))
            && (c in t.claims && c in s.claims && s.claims[c] != Held && !taken ==> t.claims[c] == s.claims[c])
  {
  }

  function Run(s: System, evs: seq<Event>): System {
    if evs == [] then s else Step(Run(s, evs[..|evs| - 1]), evs[|evs| - 1])
  }

  const EMPTY := System(map[], Server({}, {}, {}, {}, map[]), map[], map[], map[])

  /** Every mark_failed of the run uses the same configured limit. */
  predicate Limit(evs: seq<Event>, maxAttempts: int) {
    forall k | 0 <= k < |evs| && evs[k].Reject? :: evs[k].maxAttempts == maxAttempts
  }

  /** What a normal return of a call for this row means. */
  predicate Delivers(server: Server, row: IntentRow) {
    row.id in server.accepted || (row.operation == StartWorkflow && row.id in server.found)
  }

  /** Attempts are accounted for: one per return to pending, one per takeover, and
      one for the claim that is running or was the last. */
  ghost predicate RowInv(s: System, id: int, maxAttempts: int)
    requires id in s.rows
  {
    var row := s.rows[id];
    && row.id == id
    && row.attempts == |Returned(s, id)| + Takeovers(s, id) + (if row.status == Pending then 0 else 1)
    && (forall a <- Returned(s, id) :: 1 <= a < maxAttempts && a <= row.attempts)
    && (row.status == Delivered ==> Delivers(s.server, row))
  }

  ghost predicate ClaimInv(s: System, c: ClaimKey)
    requires c in s.claims
  {
    && c.id in s.rows
    && 1 <= c.attempt <= s.rows[c.id].attempts
    && c.attempt !in Returned(s, c.id)
    && (s.claims[c] == CallReturned ==> Delivers(s.server, s.rows[c.id]))
  }

  ghost predicate Inv(s: System, maxAttempts: int) {
    && (forall id <- s.rows :: RowInv(s, id, maxAttempts))
    && (forall c <- s.claims :: ClaimInv(s, c))
    && (forall id <- s.returned :: id in s.rows)
    && (forall id <- s.takeovers :: id in s.rows)
  }

  lemma DeliverOnlyAdds(server: Server, row: IntentRow, net: Network)
    ensures var (after, ok) := Deliver(server, row, net);
            && server.accepted <= after.accepted && server.found <= after.found
            && (ok ==> Delivers(after, row))
  {
  }

  lemma ClaimKeepsInv(s: System, id: int, now: int, leaseSeconds: int, maxAttempts: int)
    requires Inv(s, maxAttempts)
    ensures Inv(Step(s, Claim(id, now, leaseSeconds)), maxAttempts)
  {
    var t := Step(s, Claim(id, now, leaseSeconds));
    forall i <- t.rows ensures RowInv(t, i, maxAttempts) {
      assert RowInv(s, i, maxAttempts);
    }
    forall c <- t.claims ensures ClaimInv(t, c) {
      if c in s.claims { assert ClaimInv(s, c); }
      assert id in s.rows ==> RowInv(s, id, maxAttempts);
    }
  }

  lemma AttemptKeepsInv(s: System, claim: ClaimKey, net: Network, maxAttempts: int)
    requires Inv(s, maxAttempts)
    ensures Inv(Step(s, Attempt(claim, net)), maxAttempts)
  {
    var t := Step(s, Attempt(claim, net));
    if t != s {
      assert RowInv(s, claim.id, maxAttempts);
      DeliverOnlyAdds(s.server, s.rows[claim.id], net);
      forall i <- t.rows ensures RowInv(t, i, maxAttempts) { assert RowInv(s, i, maxAttempts); }
      forall c <- t.claims ensures ClaimInv(t, c) { assert ClaimInv(s, c); }
    }
  }

  lemma FailedRowKeepsCount(row: IntentRow, returned: set<nat>, takeovers: nat, attempt: nat, now: int,
                            maxAttempts: int)
    requires row.status == Delivering && row.attempts == |returned| + takeovers + 1
    requires 1 <= attempt <= row.attempts && attempt !in returned
    requires forall a <- returned :: 1 <= a < maxAttempts && a <= row.attempts
    ensures var failed := FailedRow(row, ClaimIntent(row, attempt), now, maxAttempts);
            && failed.id == row.id && failed.attempts == row.attempts && failed.status != Delivered
            && if Exhausted(ClaimIntent(row, attempt), maxAttempts) then failed.status != Pending
               else && failed.status == Pending && attempt < maxAttempts
                    && failed.attempts == |returned + {attempt}| + takeovers
  {
    assert |returned + {attempt}| == |returned| + 1;
  }

  lemma RejectKeepsRow(s: System, claim: ClaimKey, now: int, maxAttempts: int, id: int)
    requires claim in s.claims && claim.id in s.rows && id in s.rows
    requires ClaimInv(s, claim) && RowInv(s, id, maxAttempts)
    ensures id in Step(s, Reject(claim, now, maxAttempts)).rows
    ensures RowInv(Step(s, Reject(claim, now, maxAttempts)), id, maxAttempts)
  {
    var row := s.rows[claim.id];
    if s.claims[claim] == CallFailed && row.status == Delivering {
      if id == claim.id {
        FailedRowKeepsCount(row, Returned(s, id), Takeovers(s, id), claim.attempt, now, maxAttempts);
      } else {
        var t := Step(s, Reject(claim, now, maxAttempts));
        assert t.rows[id] == s.rows[id] && Returned(t, id) == Returned(s, id) && Takeovers(t, id) == Takeovers(s, id);
      }
    }
  }

  lemma RejectKeepsInv(s: System, claim: ClaimKey, now: int, maxAttempts: int)
    requires Inv(s, maxAttempts)
    ensures Inv(Step(s, Reject(claim, now, maxAttempts)), maxAttempts)
  {
    var t := Step(s, Reject(claim, now, maxAttempts));
    if t != s {
      forall i <- t.rows ensures RowInv(t, i, maxAttempts) {
        RejectKeepsRow(s, claim, now, maxAttempts, i);
      }
      forall c <- t.claims ensures ClaimInv(t, c) { assert ClaimInv(s, c); }
    }
  }

  lemma AcknowledgeKeepsInv(s: System, claim: ClaimKey, maxAttempts: int)
    requires Inv(s, maxAttempts)
    ensures Inv(Step(s, Acknowledge(claim)), maxAttempts)
  {
    var t := Step(s, Acknowledge(claim));
    if t != s {
      assert ClaimInv(s, claim) && RowInv(s, claim.id, maxAttempts);
      forall i <- t.rows ensures RowInv(t, i, maxAttempts) { assert RowInv(s, i, maxAttempts); }
      forall c <- t.claims ensures ClaimInv(t, c) { assert ClaimInv(s, c); }
    }
  }

  lemma InsertKeepsInv(s: System, row: IntentRow, maxAttempts: int)
    requires Inv(s, maxAttempts)
    ensures Inv(Step(s, Insert(row)), maxAttempts)
  {
    var t := Step(s, Insert(row));
    if t != s {
      forall i <- t.rows ensures RowInv(t, i, maxAttempts) { if i in s.rows { assert RowInv(s, i, maxAttempts); } }
      forall c <- t.claims ensures ClaimInv(t, c) { assert ClaimInv(s, c); }
    }
  }

  lemma StepKeepsInv(s: System, ev: Event, maxAttempts: int)
    requires Inv(s, maxAttempts)
    requires ev.Reject? ==> ev.maxAttempts == maxAttempts
    ensures Inv(Step(s, ev), maxAttempts)
  {
    match ev
    case Insert(row) => InsertKeepsInv(s, row, maxAttempts);
    case Claim(id, now, leaseSeconds) => ClaimKeepsInv(s, id, now, leaseSeconds, maxAttempts);
    case Attempt(claim, net) => AttemptKeepsInv(s, claim, net, maxAttempts);
    case Acknowledge(claim) => AcknowledgeKeepsInv(s, claim, maxAttempts);
    case Reject(claim, now, _) => RejectKeepsInv(s, claim, now, maxAttempts);
    case _ =>
      var t := Step(s, ev);
      forall i <- t.rows ensures RowInv(t, i, maxAttempts) { assert RowInv(s, i, maxAttempts); }
      forall c <- t.claims ensures ClaimInv(t, c) { assert ClaimInv(s, c); }
  }

  lemma {:induction false} RunKeepsInv(evs: seq<Event>, maxAttempts: int)
    requires Limit(evs, maxAttempts)
    ensures Inv(Run(EMPTY, evs), maxAttempts)
  {
    if evs != [] {
      RunKeepsInv(evs[..|evs| - 1], maxAttempts);
      StepKeepsInv(Run(EMPTY, evs[..|evs| - 1]), evs[|evs| - 1], maxAttempts);
    }
  }

  // ---------- the guarantees ----------

  lemma {:induction false} BoundedSetSize(a: set<nat>, n: nat)
    requires forall x <- a :: 1 <= x <= n
    ensures |a| <= n
  {
    if n > 0 {
      BoundedSetSize(a - {n}, n - 1);
      assert |a| <= |a - {n}| + 1 by {
        if n in a { assert a == (a - {n}) + {n}; } else { assert a == a - {n}; }
      }
    } else {
      assert a == {};
    }
  }

  /** With any number of relays and crashes, an intent is attempted at most
      max_attempts times plus once for every lease that was taken over. */
  lemma AttemptsAreBounded(evs: seq<Event>, maxAttempts: int, id: int)
    requires maxAttempts >= 1 && Limit(evs, maxAttempts)
    requires id in Run(EMPTY, evs).rows
    ensures Run(EMPTY, evs).rows[id].attempts <= maxAttempts + Takeovers(Run(EMPTY, evs), id)
  {
    RunKeepsInv(evs, maxAttempts);
    var s := Run(EMPTY, evs);
    assert RowInv(s, id, maxAttempts);
    BoundedSetSize(Returned(s, id), maxAttempts - 1);
  }

  predicate Terminal(s: System, id: int) {
    id in s.rows && (s.rows[id].status == Delivered || s.rows[id].status == DeadLetter)
  }

  lemma StepKeepsTerminal(s: System, ev: Event, id: int)
    requires Terminal(s, id)
    ensures Terminal(Step(s, ev), id) && Step(s, ev).rows[id] == s.rows[id]
  {
  }

  /** delivered and dead_letter are absorbing: the row never changes again. */
  lemma {:induction false} TerminalIntentsNeverChange(s: System, evs: seq<Event>, id: int)
    requires Terminal(s, id)
    ensures Terminal(Run(s, evs), id) && Run(s, evs).rows[id] == s.rows[id]
  {
    if evs != [] {
      TerminalIntentsNeverChange(s, evs[..|evs| - 1], id);
      StepKeepsTerminal(Run(s, evs[..|evs| - 1]), evs[|evs| - 1], id);
    }
  }
}
