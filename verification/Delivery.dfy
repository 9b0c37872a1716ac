/**
 * What the outbox's final statuses say about the server: when a delivered or dead-lettered intent
 * was carried out, and how many executions redelivery creates.
 */
module Delivery {
  import opened Wrappers
  import opened Outbox
  import opened Relay

  /** The state before event `k` of a run that starts with empty tables. */
  function At(evs: seq<Event>, k: nat): System
    requires k <= |evs|
  {
    Run(EMPTY, evs[..k])
  }

  /** This event is a call for intent `id` that the server answers, one way or the other. */
  predicate Reaches(s: System, ev: Event, id: int) {
    && ev.Attempt? && ev.claim.id == id
    && ev.claim in s.claims && s.claims[ev.claim] == Held && id in s.rows
    && CallReaches(s.server, s.rows[id], ev.net)
  }

  /** ... and the server carries the intent's own operation out. */
  predicate Accepts(s: System, ev: Event, id: int) {
    Reaches(s, ev, id) && CallAccepted(s.server, s.rows[id], ev.net)
  }

  predicate RowsNamed(s: System) {
    forall id <- s.rows :: s.rows[id].id == id
  }

  /** What never changes in a row once it is inserted. */
  predicate SameIntent(a: IntentRow, b: IntentRow) {
    a.operation == b.operation && a.workflowId == b.workflowId
  }

  lemma StepKeepsRows(s: System, ev: Event)
    requires RowsNamed(s)
    ensures RowsNamed(Step(s, ev))
    ensures forall id <- s.rows :: id in Step(s, ev).rows && SameIntent(s.rows[id], Step(s, ev).rows[id])
  {
  }

  lemma StepAccepts(s: System, ev: Event, id: int)
    requires RowsNamed(s)
    ensures id in Step(s, ev).server.accepted <==> id in s.server.accepted || Accepts(s, ev, id)
    ensures id in Step(s, ev).server.found <==> id in s.server.found || (Reaches(s, ev, id) && !Accepts(s, ev, id))
    ensures s.server.started <= Step(s, ev).server.started
  {
  }

  lemma Last(evs: seq<Event>)
    requires evs != []
    ensures var n := |evs| - 1; At(evs, |evs|) == Step(At(evs, n), evs[n])
    ensures forall k :: 0 <= k < |evs| ==> At(evs[..|evs| - 1], k) == At(evs, k)
  {
    assert evs[..|evs|] == evs;
    forall k | 0 <= k < |evs| ensures At(evs[..|evs| - 1], k) == At(evs, k) {
      assert evs[..|evs| - 1][..k] == evs[..k];
    }
  }

  /** The first call for an intent that reached the server. */
  function FirstCall(evs: seq<Event>, id: int): (k: Option<nat>)
    ensures k.Some? ==> k.value < |evs|
  {
    if evs == [] then None
    else
      var n := |evs| - 1;
      var prior := FirstCall(evs[..n], id);
      if prior.Some? then prior else if Reaches(At(evs, n), evs[n], id) then Some(n) else None
  }

  /** Some call for the intent was carried out. */
  ghost predicate CarriedOut(evs: seq<Event>, id: int) {
    exists k :: 0 <= k < |evs| && Accepts(At(evs, k), evs[k], id)
  }

  lemma {:induction false} RowsStayNamed(evs: seq<Event>)
    ensures RowsNamed(Run(EMPTY, evs))
  {
    if evs != [] {
      RowsStayNamed(evs[..|evs| - 1]);
      StepKeepsRows(Run(EMPTY, evs[..|evs| - 1]), evs[|evs| - 1]);
    }
  }

  /**
   * In every run, whatever its status in the end: the server accepted an intent's own operation
   * exactly when one of its calls was well formed, arrived, and found an unused id (start) or an
   * open workflow (signal, cancel); it answered one way or the other exactly when a call arrived.
   */
  lemma {:induction false} CarriedOutIffACallWasAccepted(evs: seq<Event>, id: int)
    ensures var server := Run(EMPTY, evs).server;
            && (id in server.accepted <==> CarriedOut(evs, id))
            && (id in server.accepted + server.found <==> FirstCall(evs, id).Some?)
  {
    if evs != [] {
      var n := |evs| - 1;
      var prior := evs[..n];
      CarriedOutIffACallWasAccepted(prior, id);
      CarriedOutLast(evs, id);
      Last(evs);
      RowsStayNamed(prior);
      StepAccepts(At(evs, n), evs[n], id);
    }
  }

  lemma PriorAccepts(evs: seq<Event>, k: nat, id: int)
    requires k < |evs| - 1
    ensures var prior := evs[..|evs| - 1]; Accepts(At(prior, k), prior[k], id) <==> Accepts(At(evs, k), evs[k], id)
  {
    assert evs[..|evs| - 1][..k] == evs[..k];
  }

  lemma CarriedOutLast(evs: seq<Event>, id: int)
    requires evs != []
    ensures var n := |evs| - 1; CarriedOut(evs, id) <==> CarriedOut(evs[..n], id) || Accepts(At(evs, n), evs[n], id)
  {
    var n := |evs| - 1;
    var prior := evs[..n];
    if CarriedOut(prior, id) {
      var k :| 0 <= k < n && Accepts(At(prior, k), prior[k], id);
      PriorAccepts(evs, k, id);
    }
    if CarriedOut(evs, id) {
      var k :| 0 <= k < |evs| && Accepts(At(evs, k), evs[k], id);
      if k < n {
        PriorAccepts(evs, k, id);
      }
    }
  }

  /** The first call stays where it was, the row stays the same intent, and a start that arrived used its id. */
  lemma {:induction false} FirstCallUsesTheId(evs: seq<Event>, id: int)
    ensures FirstCall(evs, id).Some? ==>
              var s, first := Run(EMPTY, evs), At(evs, FirstCall(evs, id).value);
              && id in s.rows && id in first.rows && SameIntent(first.rows[id], s.rows[id])
              && Reaches(first, evs[FirstCall(evs, id).value], id)
              && (s.rows[id].operation == StartWorkflow ==> s.rows[id].workflowId in s.server.started)
  {
    if evs != [] {
      var n := |evs| - 1;
      FirstCallUsesTheId(evs[..n], id);
      Last(evs);
      RowsStayNamed(evs[..n]);
      StepKeepsRows(At(evs, n), evs[n]);
      StepAccepts(At(evs, n), evs[n], id);
    }
  }

  /** Only the first call of a start intent can be accepted: it uses the id. */
  lemma {:induction false} StartAcceptedByFirstCallOnly(evs: seq<Event>, id: int)
    requires id in Run(EMPTY, evs).rows && Run(EMPTY, evs).rows[id].operation == StartWorkflow
    ensures id in Run(EMPTY, evs).server.accepted
            <==> FirstCall(evs, id).Some?
                 && Accepts(At(evs, FirstCall(evs, id).value), evs[FirstCall(evs, id).value], id)
  {
    if evs != [] {
      var n := |evs| - 1;
      var prior := evs[..n];
      Last(evs);
      RowsStayNamed(prior);
      StepKeepsRows(At(evs, n), evs[n]);
      StepAccepts(At(evs, n), evs[n], id);
      FirstCallUsesTheId(prior, id);
      CarriedOutIffACallWasAccepted(prior, id);
      if id in Run(EMPTY, prior).rows {
        StartAcceptedByFirstCallOnly(prior, id);
      }
    }
  }

  /**
   * A delivered start intent was answered by the server, and its own operation was accepted exactly
   * when its workflow id had not been started when its first call arrived.
   */
  lemma DeliveredStartAcceptedIffIdWasUnused(evs: seq<Event>, maxAttempts: int, id: int)
    requires Limit(evs, maxAttempts)
    requires id in Run(EMPTY, evs).rows && Run(EMPTY, evs).rows[id].operation == StartWorkflow
    requires Run(EMPTY, evs).rows[id].status == Delivered
    ensures var s, first := Run(EMPTY, evs), FirstCall(evs, id);
            && first.Some?
            && (id in s.server.accepted <==> s.rows[id].workflowId !in At(evs, first.value).server.started)
  {
    RunKeepsInv(evs, maxAttempts);
    assert RowInv(Run(EMPTY, evs), id, maxAttempts);
    CarriedOutIffACallWasAccepted(evs, id);
    FirstCallUsesTheId(evs, id);
    StartAcceptedByFirstCallOnly(evs, id);
  }

  /** Every other delivered intent was carried out. */
  lemma DeliveredMeansCarriedOut(evs: seq<Event>, maxAttempts: int, id: int)
    requires Limit(evs, maxAttempts)
    requires id in Run(EMPTY, evs).rows && Run(EMPTY, evs).rows[id].operation != StartWorkflow
    requires Run(EMPTY, evs).rows[id].status == Delivered
    ensures CarriedOut(evs, id)
  {
    RunKeepsInv(evs, maxAttempts);
    assert RowInv(Run(EMPTY, evs), id, maxAttempts);
    CarriedOutIffACallWasAccepted(evs, id);
  }

  /**
   * A dead letter is no proof that nothing happened: it was carried out exactly when one of its
   * claims made a call that the server accepted.
   */
  lemma DeadLetterCarriedOutIff(evs: seq<Event>, id: int)
    requires id in Run(EMPTY, evs).rows && Run(EMPTY, evs).rows[id].status == DeadLetter
    ensures id in Run(EMPTY, evs).server.accepted <==> CarriedOut(evs, id)
    ensures Run(EMPTY, evs).rows[id].operation == StartWorkflow ==>
              (id in Run(EMPTY, evs).server.accepted
               <==> FirstCall(evs, id).Some?
                    && Run(EMPTY, evs).rows[id].workflowId !in At(evs, FirstCall(evs, id).value).server.started)
  {
    CarriedOutIffACallWasAccepted(evs, id);
    FirstCallUsesTheId(evs, id);
    if Run(EMPTY, evs).rows[id].operation == StartWorkflow {
      StartAcceptedByFirstCallOnly(evs, id);
    }
  }

  // ----- How many executions an id gets -----

  /** This event creates an execution of the workflow id. */
  predicate Creates(s: System, ev: Event, workflowId: string) {
    match ev
    case Attempt(claim, _) =>
      && Accepts(s, ev, claim.id) && s.rows[claim.id].workflowId == workflowId
      && (s.rows[claim.id].operation == StartWorkflow
          || (s.rows[claim.id].operation == SignalWithStart && workflowId !in s.server.open))
    case StartChild(id, force) => id == workflowId && ChildStarts(s.server, id, force)
    case _ => false
  }

  predicate CreatesByStart(s: System, ev: Event, workflowId: string) {
    ev.Attempt? && Creates(s, ev, workflowId) && s.rows[ev.claim.id].operation == StartWorkflow
  }

  lemma StepCreates(s: System, ev: Event, w: string)
    ensures Created(Step(s, ev).server, w) == Created(s.server, w) + if Creates(s, ev, w) then 1 else 0
    ensures w in Step(s, ev).server.started <==> w in s.server.started || Creates(s, ev, w)
    ensures CreatesByStart(s, ev, w) ==> w !in s.server.started
    ensures w in Step(s, ev).server.open <==> Creates(s, ev, w) || (w in s.server.open && ev != CloseWorkflow(w))
  {
  }

  /** The executions of an id that start intents created. */
  function StartCreations(evs: seq<Event>, w: string): nat {
    if evs == [] then 0
    else
      var n := |evs| - 1;
      StartCreations(evs[..n], w) + if CreatesByStart(Run(EMPTY, evs[..n]), evs[n], w) then 1 else 0
  }

  /** However often start intents of one workflow id are redelivered, they create at most one execution. */
  lemma {:induction false} StartsCreateAtMostOne(evs: seq<Event>, w: string)
    ensures StartCreations(evs, w) <= 1
    ensures StartCreations(evs, w) == 1 ==> w in Run(EMPTY, evs).server.started
  {
    if evs != [] {
      StartsCreateAtMostOne(evs[..|evs| - 1], w);
      StepCreates(Run(EMPTY, evs[..|evs| - 1]), evs[|evs| - 1], w);
    }
  }

  /** Between `k` and `m` the workflow was closed, and after that not opened again. */
  predicate ClosedSince(evs: seq<Event>, k: nat, m: nat, w: string)
    requires k <= m <= |evs|
    decreases m
  {
    k < m
    && (evs[m - 1] == CloseWorkflow(w)
        || (ClosedSince(evs, k, m - 1, w) && !Creates(At(evs, m - 1), evs[m - 1], w)))
  }

  lemma Next(evs: seq<Event>, m: nat)
    requires m < |evs|
    ensures At(evs, m + 1) == Step(At(evs, m), evs[m])
  {
    assert evs[..m + 1][..m] == evs[..m];
  }

  lemma {:induction false} OpenUnlessClosedSince(evs: seq<Event>, k: nat, m: nat, w: string)
    requires k <= m <= |evs| && w in At(evs, k).server.open
    ensures w !in At(evs, m).server.open <==> ClosedSince(evs, k, m, w)
    decreases m
  {
    if k < m {
      var n := m - 1;
      OpenUnlessClosedSince(evs, k, n, w);
      Next(evs, n);
      StepCreates(At(evs, n), evs[n], w);
    }
  }

  /**
   * A redelivered signal-with-start creates another execution exactly when the workflow, open after
   * the earlier call, has been closed in between and not opened again.
   */
  lemma RedeliveryCreatesIffClosedInBetween(evs: seq<Event>, k: nat, m: nat, id: int)
    requires k < m < |evs|
    requires Reaches(At(evs, k), evs[k], id) && Reaches(At(evs, m), evs[m], id)
    requires At(evs, k).rows[id].operation == SignalWithStart
    requires SameIntent(At(evs, k).rows[id], At(evs, m).rows[id])
    ensures var w := At(evs, m).rows[id].workflowId;
            Created(At(evs, m + 1).server, w) == Created(At(evs, m).server, w) + 1
            <==> ClosedSince(evs, k + 1, m, w)
  {
    var w := At(evs, m).rows[id].workflowId;
    Next(evs, k);
    StepCreates(At(evs, k), evs[k], w);
    OpenUnlessClosedSince(evs, k + 1, m, w);
    Next(evs, m);
    StepCreates(At(evs, m), evs[m], w);
  }

  // ----- Two runs that show what a status does not say -----

  lemma Append(evs: seq<Event>, ev: Event)
    ensures Run(EMPTY, evs + [ev]) == Step(Run(EMPTY, evs), ev)
  {
    assert (evs + [ev])[..|evs|] == evs;
  }

  predicate NewStart(row: IntentRow) {
    && row.status == Pending && row.attempts == 0 && row.availableAt <= 0
    && row.operation == StartWorkflow && row.workflowType && row.taskQueue
  }

  /** A new start intent is inserted and claimed. */
  lemma InsertAndClaim(evs: seq<Event>, row: IntentRow) returns (more: seq<Event>)
    requires NewStart(row) && Limit(evs, 1)
    requires var s := Run(EMPTY, evs);
             row.id !in s.rows && row.id !in s.returned && row.id !in s.takeovers
    ensures Limit(more, 1)
    ensures var s, t := Run(EMPTY, evs), Run(EMPTY, more);
            && t.rows == s.rows[row.id := ClaimedRow(row, 0)]
            && t.claims == s.claims[ClaimKey(row.id, 1) := Held]
            && t.server == s.server && t.returned == s.returned && t.takeovers == s.takeovers
  {
    more := evs + [Insert(row)] + [Claim(row.id, 0, 60)];
    Append(evs, Insert(row));
    Append(evs + [Insert(row)], Claim(row.id, 0, 60));
    assert Run(EMPTY, evs + [Insert(row)]).rows == Run(EMPTY, evs).rows[row.id := row];
  }

  /** The claimed start is called, over a network that may lose the response. */
  lemma CallOnce(evs: seq<Event>, row: IntentRow, net: Network) returns (more: seq<Event>)
    requires NewStart(row) && Limit(evs, 1) && net != Unreachable
    requires var s := Run(EMPTY, evs);
             && row.id in s.rows && s.rows[row.id] == ClaimedRow(row, 0)
             && ClaimKey(row.id, 1) in s.claims && s.claims[ClaimKey(row.id, 1)] == Held
    ensures Limit(more, 1)
    ensures var s, t := Run(EMPTY, evs), Run(EMPTY, more);
            && t.rows == s.rows && t.returned == s.returned && t.takeovers == s.takeovers
            && t.server == Deliver(s.server, row, net).0
            && t.claims == s.claims[ClaimKey(row.id, 1) := if net == Reachable then CallReturned else CallFailed]
  {
    more := evs + [Attempt(ClaimKey(row.id, 1), net)];
    Append(evs, Attempt(ClaimKey(row.id, 1), net));
  }

  /** One start intent is inserted, claimed, called with the response arriving, and acknowledged. */
  lemma DeliverOne(evs: seq<Event>, row: IntentRow) returns (more: seq<Event>)
    requires NewStart(row) && Limit(evs, 1)
    requires var s := Run(EMPTY, evs);
             row.id !in s.rows && row.id !in s.returned && row.id !in s.takeovers
    ensures Limit(more, 1)
    ensures var s, t := Run(EMPTY, evs), Run(EMPTY, more);
            && t.rows == s.rows[row.id := ClaimedRow(row, 0).(status := Delivered)]
            && t.server == Deliver(s.server, row, Reachable).0
            && t.returned == s.returned && t.takeovers == s.takeovers
  {
    var called := InsertAndClaim(evs, row);
    called := CallOnce(called, row, Reachable);
    more := called + [Acknowledge(ClaimKey(row.id, 1))];
    Append(called, Acknowledge(ClaimKey(row.id, 1)));
  }

  /** Two start intents of one workflow id are both delivered, and only the first was accepted. */
  lemma DeliveredStartMayBeRefused(first: IntentRow, second: IntentRow) returns (evs: seq<Event>)
    requires NewStart(first) && NewStart(second) && first.id != second.id && first.workflowId == second.workflowId
    ensures Limit(evs, 1)
    ensures var s := Run(EMPTY, evs);
            && {first.id, second.id} <= s.rows.Keys
            && s.rows[first.id].status == s.rows[second.id].status == Delivered
            && first.id in s.server.accepted && second.id !in s.server.accepted && second.id in s.server.found
            && Created(s.server, first.workflowId) == 1
  {
    evs := DeliverOne([], first);
    evs := DeliverOne(evs, second);
  }

  /** A start whose only response was lost ends as a dead letter although the server accepted it. */
  lemma DeadLetterMayHaveBeenCarriedOut(row: IntentRow) returns (evs: seq<Event>)
    requires NewStart(row)
    ensures Limit(evs, 1)
    ensures var s := Run(EMPTY, evs);
            && row.id in s.rows && s.rows[row.id].status == DeadLetter
            && row.id in s.server.accepted && row.workflowId in s.server.open
  {
    var called := InsertAndClaim([], row);
    called := CallOnce(called, row, ResponseLost);
    evs := called + [Reject(ClaimKey(row.id, 1), 0, 1)];
    Append(called, Reject(ClaimKey(row.id, 1), 0, 1));
  }
}
