/** The sliding-window limiter of app/mcp_tools/_auth.py. */
module RateLimiter {

  const WINDOW := 3600.0

  /** The calls of a list that lie less than an hour before `now`. */
  function Recent(stamps: seq<real>, now: real): (r: seq<real>)
    ensures |r| <= |stamps|
  {
    if stamps == [] then []
    else
      var last := stamps[|stamps| - 1];
      Recent(stamps[..|stamps| - 1], now) + if now - last < WINDOW then [last] else []
  }

  /** Each call of the history found fewer than `max` earlier ones in the hour before it. */
  predicate Admitted(history: seq<real>, max: int) {
    history == [] ||
    var n := |history| - 1;
    Admitted(history[..n], max) && |Recent(history[..n], history[n])| < max
  }

  /** The calls of a history from `start` on and before `end`. */
  function Between(history: seq<real>, start: real, end: real): seq<real> {
    if history == [] then []
    else
      var last := history[|history| - 1];
      Between(history[..|history| - 1], start, end) + if start <= last < end then [last] else []
  }

  /** The calls of a history after `time`. */
  function After(history: seq<real>, time: real): seq<real> {
    if history == [] then []
    else
      var last := history[|history| - 1];
      After(history[..|history| - 1], time) + if time < last then [last] else []
  }

  /** What pruning leaves are the calls of the last 3600 seconds. */
  lemma {:induction false} RecentIsTheLastHour(history: seq<real>, now: real)
    ensures Recent(history, now) == After(history, now - 3600.0)
  {
    if history != [] {
      RecentIsTheLastHour(history[..|history| - 1], now);
    }
  }

  /** Pruning twice with a clock that does not run back is pruning once, at the later time. */
  lemma {:induction false} PruningForgetsNothing(history: seq<real>, earlier: real, now: real)
    requires earlier <= now
    ensures Recent(Recent(history, earlier), now) == Recent(history, now)
  {
    if history != [] {
      var n := |history| - 1;
      PruningForgetsNothing(history[..n], earlier, now);
      RecentAppend(history[..n], history[n], earlier);
      RecentAppend(history[..n], history[n], now);
      RecentAppend(Recent(history[..n], earlier), history[n], now);
      assert history == history[..n] + [history[n]];
    }
  }

  lemma RecentAppend(stamps: seq<real>, last: real, now: real)
    ensures now - last < WINDOW ==> Recent(stamps + [last], now) == Recent(stamps, now) + [last]
    ensures now - last >= WINDOW ==> Recent(stamps + [last], now) == Recent(stamps, now)
  {
    assert (stamps + [last])[..|stamps|] == stamps;
  }

  lemma {:induction false} HourEndingNowIsRecent(history: seq<real>, start: real, now: real)
    requires now < start + WINDOW
    ensures |Between(history, start, start + WINDOW)| <= |Recent(history, now)|
  {
    if history != [] {
      HourEndingNowIsRecent(history[..|history| - 1], start, now);
    }
  }

  /** Every hour, wherever it starts, holds at most `max` calls of an admitted history. */
  lemma {:induction false} EveryHourIsWithinLimit(history: seq<real>, max: nat, start: real)
    requires Admitted(history, max)
    ensures |Between(history, start, start + 3600.0)| <= max
  {
    if history != [] {
      var n := |history| - 1;
      EveryHourIsWithinLimit(history[..n], max, start);
      if start <= history[n] < start + WINDOW {
        HourEndingNowIsRecent(history[..n], start, history[n]);
      }
    }
  }

  /** The stored list is what the last hour of a key's recorded calls was when it was last pruned. */
  predicate Tracks(stamps: seq<real>, calls: seq<real>, prunedAt: real, max: int) {
    stamps == Recent(calls, prunedAt) && Admitted(calls, max)
  }

  lemma TracksAfterCheck(stamps: seq<real>, calls: seq<real>, prunedAt: real, max: int, now: real)
    requires Tracks(stamps, calls, prunedAt, max) && prunedAt <= now
    ensures Recent(stamps, now) == Recent(calls, now)
    ensures Tracks(Recent(stamps, now), calls, now, max)
    ensures |Recent(stamps, now)| < max ==> Tracks(Recent(stamps, now) + [now], calls + [now], now, max)
  {
    PruningForgetsNothing(calls, prunedAt, now);
    RecentAppend(calls, now, now);
    assert (calls + [now])[..|calls|] == calls;
  }

  /** One key's list, pruned and, if there is room, extended by the call. */
  method Decide(stamps: seq<real>, ghost calls: seq<real>, ghost prunedAt: real, max: int, now: real)
    returns (allowed: bool, kept: seq<real>)
    requires Tracks(stamps, calls, prunedAt, max) && prunedAt <= now
    ensures allowed <==> |Recent(calls, now)| < max
    ensures Tracks(kept, if allowed then calls + [now] else calls, now, max)
  {
    TracksAfterCheck(stamps, calls, prunedAt, max, now);
    kept := Recent(stamps, now);
    allowed := |kept| < max;
    if allowed {
      kept := kept + [now];
    }
  }

  /** Every stored list tracks its history, and none was pruned ahead of the clock. */
  ghost predicate AllTrack<Key(!new)>(timestamps: map<Key, seq<real>>, histories: map<Key, seq<real>>,
                                      prunedAt: map<Key, real>, clock: real, max: int)
  {
    && timestamps.Keys == histories.Keys == prunedAt.Keys
    && (forall key :: key in prunedAt ==> prunedAt[key] <= clock)
    && forall key :: key in histories ==> Tracks(timestamps[key], histories[key], prunedAt[key], max)
  }

  lemma AllTrackLater<Key(!new)>(timestamps: map<Key, seq<real>>, histories: map<Key, seq<real>>,
                                 prunedAt: map<Key, real>, clock: real, max: int, now: real)
    requires AllTrack(timestamps, histories, prunedAt, clock, max) && clock <= now
    ensures AllTrack(timestamps, histories, prunedAt, now, max)
  {
  }

  lemma AllTrackUpdate<Key(!new)>(timestamps: map<Key, seq<real>>, histories: map<Key, seq<real>>,
                                  prunedAt: map<Key, real>, now: real, max: int,
                                  key: Key, stamps: seq<real>, calls: seq<real>)
    requires AllTrack(timestamps, histories, prunedAt, now, max) && Tracks(stamps, calls, now, max)
    ensures AllTrack(timestamps[key := stamps], histories[key := calls], prunedAt[key := now], now, max)
  {
  }

  class RateLimiter<Key(==,!new)> {
    const maxPerHour: int
    var timestamps: map<Key, seq<real>>

    /** All calls that were recorded, when each key was last pruned, and the latest time seen. */
    ghost var histories: map<Key, seq<real>>
    ghost var prunedAt: map<Key, real>
    ghost var clock: real

    ghost predicate Valid()
      reads this
    {
      AllTrack(timestamps, histories, prunedAt, clock, maxPerHour)
    }

    ghost function History(key: Key): seq<real>
      reads this
    {
      if key in histories then histories[key] else []
    }

    constructor (limit: int, start: real)
      ensures Valid() && maxPerHour == limit && clock == start && histories == map[]
    {
      maxPerHour := limit;
      timestamps, histories, prunedAt := map[], map[], map[];
      clock := start;
    }

    /**
     * A call is refused exactly when a limit is set and that many accepted calls of the key lie in
     * the hour before it; an accepted call is recorded, a refused one is not, and other keys are
     * untouched. Without a limit nothing is refused or recorded.
     */
    method Check(key: Key, now: real) returns (allowed: bool)
      requires Valid() && clock <= now
      modifies this
      ensures Valid() && clock == now
      ensures allowed <==> maxPerHour <= 0 || |Recent(old(History(key)), now)| < maxPerHour
      ensures histories == if maxPerHour <= 0 then old(histories)
                           else old(histories)[key := if allowed then old(History(key)) + [now] else old(History(key))]
    {
      AllTrackLater(timestamps, histories, prunedAt, clock, maxPerHour, now);
      clock := now;
      if maxPerHour <= 0 {
        return true;
      }
      var stamps := if key in timestamps then timestamps[key] else [];
      ghost var calls := History(key);
      allowed, stamps := Decide(stamps, calls, if key in histories then prunedAt[key] else now, maxPerHour, now);
      calls := if allowed then calls + [now] else calls;
      AllTrackUpdate(timestamps, histories, prunedAt, now, maxPerHour, key, stamps, calls);
      timestamps := timestamps[key := stamps];
      histories, prunedAt := histories[key := calls], prunedAt[key := now];
    }
  }

  /** Over any run of calls, each hour holds at most `maxPerHour` recorded calls of each key. */
  lemma NoHourExceedsTheLimit<Key(!new)>(limiter: RateLimiter<Key>, key: Key, start: real)
    requires limiter.Valid() && limiter.maxPerHour > 0
    ensures |Between(limiter.History(key), start, start + 3600.0)| <= limiter.maxPerHour
  {
    EveryHourIsWithinLimit(limiter.History(key), limiter.maxPerHour, start);
  }
}
