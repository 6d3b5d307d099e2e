/**
 * The `useCooldown` hook: a client-side throttle on mood analyses kept in
 * the browser's key-value store.  One key holds the end of the current
 * 30-second cooldown as decimal milliseconds; the other holds a JSON log
 * of the timestamps of the analyses started in the last hour.
 *
 * Time is an explicit `now` in milliseconds.  The store is a map from
 * keys to strings.  Parsing the usage log (`JSON.parse`) is the opaque
 * function `decodeUsage`, assumed only to read back what the hook wrote.
 */
module Cooldown {
  import opened Wrappers
  import opened JsText
  import opened Sequences
  import opened JsValues

  const CooldownKey := "mood_analyzer_cooldown"
  const UsageKey := "mood_analyzer_usage"
  const CooldownDurationSeconds := 30
  const MaxRequestsPerHour := 10
  const HourMs := 60 * 60 * 1000

  type Store = map<string, string>

  /** A JavaScript number as far as the hook can produce one: an integer or `NaN`. */
  datatype JsNumber = Num(value: int) | NaN

  function Max(a: int, b: int): (m: int)
    ensures m >= a && m >= b && (m == a || m == b)
  {
    if a >= b then a else b
  }

  /** `Math.ceil(a / b)` for a positive divisor. */
  function CeilDiv(a: int, b: int): (q: int)
    requires b > 0
    ensures b * (q - 1) < a <= b * q
  {
    var f := (-a) / b;
    assert -a == b * f + (-a) % b;
    -f
  }

  // ---------------------------------------------------------------------
  // The usage log

  /** The timestamps less than one hour before `now`, in their original order. */
  function Prune(ts: seq<int>, now: int): (r: seq<int>)
    ensures |r| <= |ts|
    ensures forall t :: t in r <==> t in ts && now - t < HourMs
  {
    Filter(ts, t => now - t < HourMs)
  }

  /** `getUsageData()`: the stored log, pruned; empty when missing, empty or unreadable. */
  function StoredUsage(store: Store, decode: string -> Option<seq<int>>, now: int): (r: seq<int>)
    ensures forall t :: t in r ==> now - t < HourMs
    ensures UsageKey !in store || store[UsageKey] == "" ==> r == []
    ensures UsageKey in store && store[UsageKey] != "" && decode(store[UsageKey]).None? ==> r == []
    ensures UsageKey in store && store[UsageKey] != "" && decode(store[UsageKey]).Some? ==>
              r == Prune(decode(store[UsageKey]).value, now)
  {
    if UsageKey !in store || store[UsageKey] == "" then []
    else match decode(store[UsageKey])
      case None => []
      case Some(ts) => Prune(ts, now)
  }

  function JoinInts(ts: seq<int>): string {
    if ts == [] then ""
    else if |ts| == 1 then IntToString(ts[0])
    else IntToString(ts[0]) + "," + JoinInts(ts[1..])
  }

  /** `JSON.stringify({ timestamps: ts })`. */
  function EncodeUsage(ts: seq<int>): (s: string)
    ensures s != ""
  {
    "{\"timestamps\":[" + JoinInts(ts) + "]}"
  }

  /** The decoder reads back every log the hook can write. */
  ghost predicate ReadsBack(decode: string -> Option<seq<int>>) {
    forall ts :: decode(EncodeUsage(ts)) == Some(ts)
  }

  // ---------------------------------------------------------------------
  // The cooldown key

  /** `if (stored)`: the key is present with a non-empty value. */
  predicate HasCooldownText(store: Store)
    ensures HasCooldownText(store) <==> CooldownKey in store && Truthy(Str(store[CooldownKey]))
  {
    CooldownKey in store && store[CooldownKey] != ""
  }

  /**
   * The seconds left in the cooldown: 0 without a stored end, `NaN` when
   * the stored end is unreadable, else the whole seconds, rounded up,
   * until the stored end, and never negative.
   */
  function CooldownRemaining(store: Store, now: int): (r: JsNumber)
    ensures !HasCooldownText(store) ==> r == Num(0)
    ensures r.NaN? <==> HasCooldownText(store) && ParseInt(store[CooldownKey]).None?
    ensures r.Num? ==> r.value >= 0
    ensures HasCooldownText(store) && ParseInt(store[CooldownKey]).Some? ==>
              var end := ParseInt(store[CooldownKey]).value;
              (r.value == 0 <==> end <= now)
              && (r.value > 0 ==> 1000 * (r.value - 1) < end - now <= 1000 * r.value)
  {
    if !HasCooldownText(store) then Num(0)
    else match ParseInt(store[CooldownKey])
      case None => NaN
      case Some(end) => Num(Max(0, CeilDiv(end - now, 1000)))
  }

  /** Writing or removing the cooldown key leaves the usage log as it was. */
  lemma UsageIgnoresCooldownKey(store: Store, changed: Store, decode: string -> Option<seq<int>>, now: int)
    requires UsageKey in store <==> UsageKey in changed
    requires UsageKey in store ==> changed[UsageKey] == store[UsageKey]
    ensures StoredUsage(changed, decode, now) == StoredUsage(store, decode, now)
  {
  }

  /** The store after `startCooldown()` at `now`. */
  function StartedStore(store: Store, decode: string -> Option<seq<int>>, now: int): (r: Store)
    ensures r.Keys == store.Keys + {CooldownKey, UsageKey}
    ensures r[CooldownKey] == IntToString(now + CooldownDurationSeconds * 1000)
    ensures r[UsageKey] == EncodeUsage(StoredUsage(store, decode, now) + [now])
    ensures forall k :: k in store && k != CooldownKey && k != UsageKey ==> r[k] == store[k]
  {
    var withEnd := store[CooldownKey := IntToString(now + CooldownDurationSeconds * 1000)];
    UsageIgnoresCooldownKey(store, withEnd, decode, now);
    withEnd[UsageKey := EncodeUsage(StoredUsage(withEnd, decode, now) + [now])]
  }

  /** `canAnalyze`. */
  predicate CanAnalyze(cooldownRemaining: JsNumber, hourlyLimitReached: bool)
    ensures hourlyLimitReached ==> !CanAnalyze(cooldownRemaining, hourlyLimitReached)
    ensures cooldownRemaining.NaN? ==> !CanAnalyze(cooldownRemaining, hourlyLimitReached)
    ensures cooldownRemaining.Num? && cooldownRemaining.value != 0 ==> !CanAnalyze(cooldownRemaining, hourlyLimitReached)
    ensures cooldownRemaining == Num(0) && !hourlyLimitReached ==> CanAnalyze(cooldownRemaining, hourlyLimitReached)
  {
    cooldownRemaining == Num(0) && !hourlyLimitReached
  }

  /** `requestsRemaining`: the analyses left this hour, between 0 and the hourly cap. */
  function RequestsRemaining(usageCount: nat): (r: nat)
    ensures r <= MaxRequestsPerHour
    ensures r == 0 <==> usageCount >= MaxRequestsPerHour
    ensures r > 0 ==> r + usageCount == MaxRequestsPerHour
  {
    Max(0, MaxRequestsPerHour - usageCount)
  }

  // ---------------------------------------------------------------------
  // The hook's state

  class CooldownHook {
    var store: Store
    var cooldownRemaining: JsNumber
    var usageCount: nat
    var hourlyLimitReached: bool
    const decodeUsage: string -> Option<seq<int>>

    /** The state right after `useState`, before the mount effect's first check. */
    constructor (initial: Store, decode: string -> Option<seq<int>>)
      ensures store == initial && decodeUsage == decode
      ensures cooldownRemaining == Num(0) && usageCount == 0 && !hourlyLimitReached
    {
      store := initial;
      decodeUsage := decode;
      cooldownRemaining := Num(0);
      usageCount := 0;
      hourlyLimitReached := false;
    }

    /** `updateCooldownState()`, run on mount and every second. */
    method UpdateCooldownState(now: int)
      modifies this
      ensures cooldownRemaining == CooldownRemaining(old(store), now)
      ensures HasCooldownText(old(store)) && cooldownRemaining == Num(0) ==>
                store == old(store) - {CooldownKey}
      ensures !(HasCooldownText(old(store)) && cooldownRemaining == Num(0)) ==> store == old(store)
      ensures usageCount == |StoredUsage(old(store), decodeUsage, now)|
      ensures hourlyLimitReached <==> usageCount >= MaxRequestsPerHour
    {
      if CooldownKey in store && store[CooldownKey] != "" {
        var remaining := CooldownRemaining(store, now);
        cooldownRemaining := remaining;
        if remaining.Num? && remaining.value <= 0 {
          store := store - {CooldownKey};
        }
      } else {
        cooldownRemaining := Num(0);
      }
      UsageIgnoresCooldownKey(old(store), store, decodeUsage, now);
      var usage := StoredUsage(store, decodeUsage, now);
      usageCount := |usage|;
      hourlyLimitReached := |usage| >= MaxRequestsPerHour;
    }

    /** `startCooldown()`: begin a 30-second cooldown and record one use at `now`. */
    method StartCooldown(now: int)
      modifies this
      ensures store == StartedStore(old(store), decodeUsage, now)
      ensures cooldownRemaining == Num(CooldownDurationSeconds)
      ensures usageCount == |StoredUsage(old(store), decodeUsage, now)| + 1
      ensures hourlyLimitReached <==> usageCount >= MaxRequestsPerHour
    {
      var cooldownEnd := now + CooldownDurationSeconds * 1000;
      store := store[CooldownKey := IntToString(cooldownEnd)];
      cooldownRemaining := Num(CooldownDurationSeconds);
      UsageIgnoresCooldownKey(old(store), store, decodeUsage, now);
      var usage := StoredUsage(store, decodeUsage, now) + [now];
      store := store[UsageKey := EncodeUsage(usage)];
      usageCount := |usage|;
      hourlyLimitReached := |usage| >= MaxRequestsPerHour;
    }
  }
}
