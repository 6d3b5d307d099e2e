/** Properties of the cooldown hook's pruning, expiry and usage recording. */
module CooldownProperties {
  import opened Wrappers
  import opened JsText
  import opened Sequences
  import opened Cooldown

  /** Pruning keeps the surviving timestamps in their original order. */
  lemma PruneKeepsOrder(a: seq<int>, b: seq<int>, now: int)
    ensures Prune(a + b, now) == Prune(a, now) + Prune(b, now)
  {
    FilterAppend(a, b, t => now - t < HourMs);
  }

  /** Pruning again at the same or a later time is pruning once at the later time. */
  lemma PruneLater(ts: seq<int>, now: int, later: int)
    requires now <= later
    ensures Prune(Prune(ts, now), later) == Prune(ts, later)
    ensures |Prune(ts, later)| <= |Prune(ts, now)|
  {
    FilterNarrowing(ts, t => now - t < HourMs, t => later - t < HourMs);
  }

  lemma PruneIdempotent(ts: seq<int>, now: int)
    ensures Prune(Prune(ts, now), now) == Prune(ts, now)
  {
    PruneLater(ts, now, now);
  }

  /**
   * After a cooldown started at `start`, analysis is blocked until 30
   * seconds have passed, and the remaining count never exceeds 30.
   */
  lemma CooldownExpiry(store: Store, decode: string -> Option<seq<int>>, start: int, now: int,
                       hourlyLimitReached: bool)
    requires start <= now
    ensures var r := CooldownRemaining(StartedStore(store, decode, start), now);
      && r.Num? && r.value <= CooldownDurationSeconds
      && (r.value == 0 <==> now >= start + CooldownDurationSeconds * 1000)
      && (now < start + CooldownDurationSeconds * 1000 ==> !CanAnalyze(r, hourlyLimitReached))
  {
    var s := StartedStore(store, decode, start);
    assert s[CooldownKey] == IntToString(start + CooldownDurationSeconds * 1000);
    ParseIntToString(start + CooldownDurationSeconds * 1000);
  }

  /** One recorded use at `now` is counted, after the earlier ones, until an hour has passed. */
  lemma RecordedUse(store: Store, decode: string -> Option<seq<int>>, now: int, later: int)
    requires ReadsBack(decode)
    requires now <= later < now + HourMs
    ensures StoredUsage(StartedStore(store, decode, now), decode, later)
            == StoredUsage(store, decode, later) + [now]
  {
    var withEnd := store[CooldownKey := IntToString(now + CooldownDurationSeconds * 1000)];
    var logged := StoredUsage(withEnd, decode, now);
    assert logged == StoredUsage(store, decode, now);
    var s := StartedStore(store, decode, now);
    assert s[UsageKey] == EncodeUsage(logged + [now]);
    assert decode(EncodeUsage(logged + [now])) == Some(logged + [now]);
    PruneKeepsOrder(logged, [now], later);
    assert Prune([now], later) == [now];
    if UsageKey in store && store[UsageKey] != "" && decode(store[UsageKey]).Some? {
      PruneLater(decode(store[UsageKey]).value, now, later);
    }
  }

  /** The state after `step` has been applied at each of `times`, in order. */
  function Replay<S>(step: (S, int) -> S, s: S, times: seq<int>): S
    decreases |times|
  {
    if times == [] then s else Replay(step, step(s, times[0]), times[1..])
  }

  /** A step that appends its time to a log leaves, after a replay, all the times appended in order. */
  lemma {:induction false} ReplayAppends<S(!new)>(step: (S, int) -> S, log: S -> seq<int>, s: S, times: seq<int>)
    requires forall s': S, k :: 0 <= k < |times| ==> log(step(s', times[k])) == log(s') + [times[k]]
    ensures log(Replay(step, s, times)) == log(s) + times
    decreases |times|
  {
    if times != [] {
      var rest := times[1..];
      assert forall k :: 0 <= k < |rest| ==> rest[k] == times[k + 1];
      ReplayAppends(step, log, step(s, times[0]), rest);
      assert log(s) + [times[0]] + rest == log(s) + times;
    }
  }

  /** `startCooldown` at `t`, as a step on the store. */
  function StartStep(decode: string -> Option<seq<int>>): (Store, int) -> Store {
    (st: Store, t: int) => StartedStore(st, decode, t)
  }

  /** Every use started within the hour before `check` is counted at `check`, after the earlier ones. */
  lemma UsesWithinHourAreCounted(store: Store, decode: string -> Option<seq<int>>,
                                 times: seq<int>, check: int)
    requires ReadsBack(decode)
    requires forall k :: 0 <= k < |times| ==> times[k] <= check < times[k] + HourMs
    ensures StoredUsage(Replay(StartStep(decode), store, times), decode, check)
            == StoredUsage(store, decode, check) + times
  {
    var log := (st: Store) => StoredUsage(st, decode, check);
    forall st: Store, k | 0 <= k < |times|
      ensures log(StartStep(decode)(st, times[k])) == log(st) + [times[k]]
    {
      RecordedUse(st, decode, times[k], check);
    }
    ReplayAppends(StartStep(decode), log, store, times);
  }

  /**
   * From an empty log, the count at `check` is the number of uses in the
   * hour before it, and the allowance is used up exactly when there have
   * been ten or more.
   */
  lemma HourlyCapReached(store: Store, decode: string -> Option<seq<int>>, times: seq<int>, check: int)
    requires ReadsBack(decode)
    requires StoredUsage(store, decode, check) == []
    requires forall k :: 0 <= k < |times| ==> times[k] <= check < times[k] + HourMs
    ensures |StoredUsage(Replay(StartStep(decode), store, times), decode, check)| == |times|
    ensures RequestsRemaining(|StoredUsage(Replay(StartStep(decode), store, times), decode, check)|) == 0
            <==> |times| >= MaxRequestsPerHour
  {
    UsesWithinHourAreCounted(store, decode, times, check);
  }
}
