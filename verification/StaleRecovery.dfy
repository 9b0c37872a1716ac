/** What recover_stale_executions does and counts (app/execution_lifecycle.py). */
module StaleRecovery {
  import opened Wrappers
  import opened ActorExecution
  import opened FencingProtocol

  const RECOVERY_CLASS := "worker_recovery_stale_actor"

  /** The tables after every handle of the scan has been tried in turn. */
  function AfterRecovery(db: Db, stale: seq<Handle>): Db {
    if stale == [] then db
    else AfterSettle(AfterRecovery(db, stale[..|stale| - 1]), stale[|stale| - 1], Retrying, Some(RECOVERY_CLASS),
                     Some(0))
  }

  /** The handles whose attempt did not raise. */
  function RecoveredCount(db: Db, stale: seq<Handle>): nat {
    if stale == [] then 0
    else
      RecoveredCount(db, stale[..|stale| - 1])
      + if SettleResult(AfterRecovery(db, stale[..|stale| - 1]), stale[|stale| - 1], Retrying).Success? then 1 else 0
  }

  /** The scan returns every row once. */
  predicate DistinctIds(stale: seq<Handle>) {
    forall i, j :: 0 <= i < j < |stale| ==> stale[i].id != stale[j].id
  }

  /** Handles whose attempt still owns its source: recovery moves their rows. */
  function Movable(db: Db, stale: seq<Handle>): nat {
    if stale == [] then 0
    else Movable(db, stale[..|stale| - 1]) + if CanSettle(db, stale[|stale| - 1], Retrying) then 1 else 0
  }

  /** Handles whose row another recovery has set to retrying since the scan. */
  function Replayed(db: Db, stale: seq<Handle>): nat {
    if stale == [] then 0
    else Replayed(db, stale[..|stale| - 1]) + if AlreadySettled(db, stale[|stale| - 1], Retrying) then 1 else 0
  }

  /** The execution rows that differ. */
  function Moved(before: Db, after: Db): set<int> {
    set i <- before.executions.Keys | i !in after.executions || after.executions[i] != before.executions[i]
  }

  /** One recovered row does not decide about another: two attempts never own one source. */
  lemma SettlingIsIndependent(db: Db, g: Handle, h: Handle)
    requires Inv(db) && CanSettle(db, g, Retrying) && g.id != h.id
    ensures var after := Settled(db, g, Retrying, Some(RECOVERY_CLASS), Some(0));
            && (CanSettle(after, h, Retrying) <==> CanSettle(db, h, Retrying))
            && (AlreadySettled(after, h, Retrying) <==> AlreadySettled(db, h, Retrying))
  {
    if h.id in db.executions {
      assert DistinctClaims(db.executions[g.id], db.executions[h.id]);
    }
  }

  lemma {:induction false} RecoveryKeepsInv(db: Db, stale: seq<Handle>)
    requires Inv(db)
    ensures Inv(AfterRecovery(db, stale))
  {
    if stale != [] {
      var prior := AfterRecovery(db, stale[..|stale| - 1]);
      RecoveryKeepsInv(db, stale[..|stale| - 1]);
      StepKeepsInv(prior, Retry(stale[|stale| - 1], RECOVERY_CLASS, 0));
    }
  }

  lemma {:induction false} OthersAreUnaffected(db: Db, stale: seq<Handle>, h: Handle)
    requires Inv(db) && forall g <- stale :: g.id != h.id
    ensures CanSettle(AfterRecovery(db, stale), h, Retrying) <==> CanSettle(db, h, Retrying)
    ensures AlreadySettled(AfterRecovery(db, stale), h, Retrying) <==> AlreadySettled(db, h, Retrying)
  {
    if stale != [] {
      var prior := AfterRecovery(db, stale[..|stale| - 1]);
      OthersAreUnaffected(db, stale[..|stale| - 1], h);
      RecoveryKeepsInv(db, stale[..|stale| - 1]);
      if CanSettle(prior, stale[|stale| - 1], Retrying) {
        SettlingIsIndependent(prior, stale[|stale| - 1], h);
      }
    }
  }

  lemma LastIsFresh(stale: seq<Handle>)
    requires stale != [] && DistinctIds(stale)
    ensures DistinctIds(stale[..|stale| - 1])
    ensures forall g <- stale[..|stale| - 1] :: g.id != stale[|stale| - 1].id
  {
  }

  /**
   * The count is the handles that still owned their source plus those whose row was already
   * retrying, both read off the tables before recovery began.
   */
  lemma {:induction false} RecoveredCountIs(db: Db, stale: seq<Handle>)
    requires Inv(db) && DistinctIds(stale)
    ensures RecoveredCount(db, stale) == Movable(db, stale) + Replayed(db, stale)
  {
    if stale != [] {
      LastIsFresh(stale);
      RecoveredCountIs(db, stale[..|stale| - 1]);
      OthersAreUnaffected(db, stale[..|stale| - 1], stale[|stale| - 1]);
    }
  }

  /** A row is moved exactly if a handle of it could still settle, and then it is retrying. */
  lemma {:induction false} RecoveryMovesExactly(db: Db, stale: seq<Handle>, i: int)
    requires Inv(db) && DistinctIds(stale) && i in db.executions
    ensures var after := AfterRecovery(db, stale);
            && i in after.executions
            && (after.executions[i] != db.executions[i]
                <==> exists h <- stale :: h.id == i && CanSettle(db, h, Retrying))
            && (after.executions[i] != db.executions[i] ==>
                  after.executions[i]
                  == db.executions[i].(status := Retrying, error := Some(RECOVERY_CLASS), retryAfter := Some(0)))
  {
    if stale != [] {
      var n := |stale| - 1;
      LastIsFresh(stale);
      RecoveryMovesExactly(db, stale[..n], i);
      OthersAreUnaffected(db, stale[..n], stale[n]);
      assert forall h :: h in stale <==> h in stale[..n] || h == stale[n];
    }
  }

  lemma {:induction false} MovedRows(db: Db, stale: seq<Handle>)
    requires Inv(db) && DistinctIds(stale)
    ensures |Moved(db, AfterRecovery(db, stale))| == Movable(db, stale)
  {
    if stale == [] {
      assert Moved(db, db) == {};
    } else {
      var n := |stale| - 1;
      var before, after := AfterRecovery(db, stale[..n]), AfterRecovery(db, stale);
      LastIsFresh(stale);
      MovedRows(db, stale[..n]);
      OthersAreUnaffected(db, stale[..n], stale[n]);
      forall i <- db.executions.Keys
        ensures i in Moved(db, after)
                <==> i in Moved(db, before) || (i == stale[n].id && CanSettle(db, stale[n], Retrying))
      {
        RecoveryMovesExactly(db, stale, i);
        RecoveryMovesExactly(db, stale[..n], i);
        assert forall h :: h in stale <==> h in stale[..n] || h == stale[n];
      }
      if CanSettle(db, stale[n], Retrying) {
        RecoveryMovesExactly(db, stale[..n], stale[n].id);
        assert Moved(db, after) == Moved(db, before) + {stale[n].id};
      } else {
        assert Moved(db, after) == Moved(db, before);
      }
    }
  }

  /** So the count is the rows moved exactly when no handle was a replay. */
  lemma CountIsRowsMovedIffNoReplay(db: Db, stale: seq<Handle>)
    requires Inv(db) && DistinctIds(stale)
    ensures var moved := |Moved(db, AfterRecovery(db, stale))|;
            && RecoveredCount(db, stale) == moved + Replayed(db, stale)
            && (RecoveredCount(db, stale) == moved <==> forall h <- stale :: !AlreadySettled(db, h, Retrying))
  {
    RecoveredCountIs(db, stale);
    MovedRows(db, stale);
    NoReplays(db, stale);
  }

  lemma {:induction false} NoReplays(db: Db, stale: seq<Handle>)
    ensures Replayed(db, stale) == 0 <==> forall h <- stale :: !AlreadySettled(db, h, Retrying)
  {
    if stale != [] {
      var n := |stale| - 1;
      NoReplays(db, stale[..n]);
      assert forall h :: h in stale <==> h in stale[..n] || h == stale[n];
    }
  }

  /** The source of a moved execution is released for the next claim and stays so. */
  lemma {:induction false} MovedSourceIsReleased(db: Db, stale: seq<Handle>, h: Handle)
    requires Inv(db) && DistinctIds(stale) && h in stale && CanSettle(db, h, Retrying)
    ensures var after := AfterRecovery(db, stale);
            && h.source in after.sources && after.sources[h.source].token == None
            && Some(after.sources[h.source].status) == SourceOutcome(h.source.kind, Retrying)
  {
    var n := |stale| - 1;
    LastIsFresh(stale);
    if h == stale[n] {
      OthersAreUnaffected(db, stale[..n], h);
    } else {
      assert h in stale[..n];
      MovedSourceIsReleased(db, stale[..n], h);
    }
  }

  /**
   * recover_stale_executions over the handles of the rows that the scan returned. On tables that
   * the protocol can reach it moves exactly the rows whose attempt still owns its source, counts
   * them and the replays, and leaves every other row alone.
   */
  method RecoverStaleExecutions(store: LifecycleStore, stale: seq<Handle>) returns (recovered: nat)
    modifies store
    ensures store.Snapshot() == AfterRecovery(old(store.Snapshot()), stale)
    ensures recovered == RecoveredCount(old(store.Snapshot()), stale)
    ensures Inv(old(store.Snapshot())) && DistinctIds(stale) ==>
              var was, now := old(store.Snapshot()), store.Snapshot();
              && recovered == |Moved(was, now)| + Replayed(was, stale)
              && forall i <- was.executions :: i in now.executions
                   && (now.executions[i] != was.executions[i]
                       <==> exists h <- stale :: h.id == i && CanSettle(was, h, Retrying))
  {
    recovered := 0;
    ghost var start := store.Snapshot();
    for k := 0 to |stale|
      invariant store.Snapshot() == AfterRecovery(start, stale[..k])
      invariant recovered == RecoveredCount(start, stale[..k])
    {
      assert stale[..k + 1][..k] == stale[..k];
      var r := store.ScheduleActorExecutionRetry(stale[k], RECOVERY_CLASS, 0);
      if r.Success? {
        recovered := recovered + 1;
      }
    }
    assert stale[..|stale|] == stale;
    if Inv(start) && DistinctIds(stale) {
      CountIsRowsMovedIffNoReplay(start, stale);
      forall i <- start.executions
        ensures var now := AfterRecovery(start, stale);
                i in now.executions
                && (now.executions[i] != start.executions[i]
                    <==> exists h <- stale :: h.id == i && CanSettle(start, h, Retrying))
      {
        RecoveryMovesExactly(start, stale, i);
      }
    }
  }
}
