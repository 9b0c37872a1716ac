/** When an intent can be claimed again: after its delay, or when the lease of its claim has run out. */
module RelayTiming {
  import opened Wrappers
  import opened Outbox
  import opened Relay
  import opened Delivery

  /** A relay claims intent `id`. */
  predicate Claims(s: System, ev: Event, id: int) {
    ev.Claim? && ev.claimId == id && id in s.rows && Due(s.rows[id], ev.claimNow, ev.leaseSeconds)
  }

  /** A failed attempt puts intent `id` back to pending. */
  predicate Returns(s: System, ev: Event, id: int) {
    && ev.Reject? && ev.rejected.id == id && ev.rejected.attempt < ev.maxAttempts
    && ev.rejected in s.claims && s.claims[ev.rejected] == CallFailed
    && id in s.rows && s.rows[id].status == Delivering
  }

  /** Nobody claims the intent after event `k` and before event `m`. */
  predicate UnclaimedBetween(evs: seq<Event>, k: nat, m: nat, id: int)
    requires k < m <= |evs|
  {
    forall j | k < j < m :: !Claims(At(evs, j), evs[j], id)
  }

  /** The row waits for its time. */
  predicate WaitsUntil(s: System, id: int, time: int) {
    id in s.rows && s.rows[id].status == Pending && s.rows[id].availableAt == time
  }

  lemma StepWaits(s: System, ev: Event, id: int, time: int)
    requires WaitsUntil(s, id, time) && !Claims(s, ev, id)
    ensures WaitsUntil(Step(s, ev), id, time)
  {
  }

  lemma ReturnWaits(s: System, ev: Event, id: int)
    requires Returns(s, ev, id)
    ensures WaitsUntil(Step(s, ev), id, ev.rejectNow + DelaySeconds(ev.rejected.attempt))
  {
  }

  lemma WaitsOn(evs: seq<Event>, k: nat, m: nat, id: int)
    requires k < m <= |evs| && Returns(At(evs, k), evs[k], id) && UnclaimedBetween(evs, k, m, id)
    ensures WaitsUntil(At(evs, m), id, evs[k].rejectNow + DelaySeconds(evs[k].rejected.attempt))
  {
    var time := evs[k].rejectNow + DelaySeconds(evs[k].rejected.attempt);
    Next(evs, k);
    ReturnWaits(At(evs, k), evs[k], id);
    for j := k + 1 to m
      invariant WaitsUntil(At(evs, j), id, time)
    {
      Next(evs, j);
      StepWaits(At(evs, j), evs[j], id, time);
    }
  }

  /**
   * In every run, whatever the other relays do: an intent that failed at its n-th attempt is due again exactly from
   * its delay of min(60, 2^min(n, 6)) seconds on, until it is claimed; so its next claim comes no earlier.
   */
  lemma DueExactlyAfterTheDelay(evs: seq<Event>, k: nat, m: nat, id: int)
    requires k < m <= |evs| && Returns(At(evs, k), evs[k], id) && UnclaimedBetween(evs, k, m, id)
    ensures id in At(evs, m).rows
    ensures forall time, leaseSeconds ::
              Due(At(evs, m).rows[id], time, leaseSeconds)
              <==> time >= evs[k].rejectNow + DelaySeconds(evs[k].rejected.attempt)
    ensures m < |evs| && Claims(At(evs, m), evs[m], id) ==>
              evs[m].claimNow >= evs[k].rejectNow + DelaySeconds(evs[k].rejected.attempt)
  {
    WaitsOn(evs, k, m, id);
  }

  /** The last claim of the row was at this time. */
  predicate LockedSince(s: System, id: int, time: int) {
    id in s.rows && s.rows[id].lockedAt == time
  }

  lemma StepKeepsLock(s: System, ev: Event, id: int, time: int)
    requires LockedSince(s, id, time) && !Claims(s, ev, id)
    ensures LockedSince(Step(s, ev), id, time)
  {
  }

  lemma ClaimLocks(s: System, ev: Event, id: int)
    requires Claims(s, ev, id)
    ensures LockedSince(Step(s, ev), id, ev.claimNow)
  {
  }

  lemma LockStays(evs: seq<Event>, k: nat, m: nat, id: int)
    requires k < m <= |evs| && Claims(At(evs, k), evs[k], id) && UnclaimedBetween(evs, k, m, id)
    ensures LockedSince(At(evs, m), id, evs[k].claimNow)
  {
    Next(evs, k);
    ClaimLocks(At(evs, k), evs[k], id);
    for j := k + 1 to m
      invariant LockedSince(At(evs, j), id, evs[k].claimNow)
    {
      Next(evs, j);
      StepKeepsLock(At(evs, j), evs[j], id, evs[k].claimNow);
    }
  }

  /** A claim that is neither acknowledged nor rejected keeps every other relay out exactly until its lease is over. */
  lemma LeaseKeepsOthersOut(evs: seq<Event>, k: nat, m: nat, id: int)
    requires k < m <= |evs| && Claims(At(evs, k), evs[k], id) && UnclaimedBetween(evs, k, m, id)
    ensures id in At(evs, m).rows
    ensures At(evs, m).rows[id].status == Delivering ==>
              forall time, leaseSeconds ::
                Due(At(evs, m).rows[id], time, leaseSeconds) <==> time >= evs[k].claimNow + leaseSeconds
  {
    LockStays(evs, k, m, id);
  }
}
