/**
 The limiters as objects that prune as they go. Each decision is proved equal to the one taken from
 the whole history, which every object keeps as ghost state.
 */
module QuotaLimiters {
  import opened Prelude
  import opened Quotas
  import opened QuotaCounts
  import opened QuotaTracking
  import opened QuotaTurns

  /** `while events and events[0] <= bound: popleft()` */
  method Prune(events: seq<int>, bound: int) returns (kept: seq<int>)
    ensures kept == DropOld(events, bound)
  {
    kept := events;
    while |kept| > 0 && kept[0] <= bound
      invariant DropOld(kept, bound) == DropOld(events, bound)
    {
      kept := kept[1..];
    }
  }

  /** `sum(1 for item in events if item > after)` */
  method CountRecent(events: seq<int>, after: int) returns (count: nat)
    ensures count == CountAfter(events, after)
  {
    count := 0;
    for i := 0 to |events|
      invariant count == CountAfter(events[..i], after)
    {
      assert events[..i + 1][..i] == events[..i];
      if events[i] > after { count := count + 1; }
    }
    assert events[..|events|] == events;
  }

  // ---------- The in-memory AI limiter ----------

  /** The four checks of `_consume_memory`, in their order, on pruned lists. */
  method DecideRecent(limits: Limits, w: Widths, events: seq<int>, globalCount: nat, now: int) returns (d: Decision)
    ensures d == DecidePruned(limits, w, events, globalCount, now)
  {
    if limits.minute > 0 {
      var count := CountRecent(events, now - w.minute);
      if count >= limits.minute { return Refused(CustomerMinute); }
    }
    if limits.hour > 0 {
      var count := CountRecent(events, now - w.hour);
      if count >= limits.hour { return Refused(CustomerHour); }
    }
    if limits.day > 0 && |events| >= limits.day { return Refused(CustomerDay); }
    if limits.globalDay > 0 && globalCount >= limits.globalDay { return Refused(GlobalDay); }
    return Admitted;
  }

  class AIUsageRateLimiter {
    const limits: Limits
    const w: Widths
    const cooldown: int
    var customerEvents: map<string, seq<int>>
    var globalEvents: seq<int>
    var noticeUntil: map<string, int>
    /** Everything admitted, and the latest clock reading. */
    ghost var history: seq<Admission>
    ghost var latest: int
    /** When each customer was shown a quota notice. */
    ghost var notices: map<string, seq<int>>

    ghost predicate Valid()
      reads this
    {
      MemoryOk(limits, w, history, customerEvents, globalEvents, latest)
    }

    ghost predicate NoticesValid()
      reads this`notices, this`noticeUntil
    {
      cooldown >= 1 && NoticesOk(notices, noticeUntil, cooldown)
    }

    constructor (limits: Limits, cooldownSetting: int, start: int)
      ensures Valid() && NoticesValid() && history == []
      ensures this.limits == limits && w == ROLLING && latest == start && notices == map[]
      ensures w.minute == 60 * 1000 && w.hour == 60 * w.minute && w.day == 24 * w.hour
      ensures cooldown == 1000 * if cooldownSetting > 1 then cooldownSetting else 1
    {
      this.limits, w := limits, ROLLING;
      cooldown := 1000 * if cooldownSetting > 1 then cooldownSetting else 1;
      customerEvents, globalEvents, noticeUntil := map[], [], map[];
      history, latest, notices := [], start, map[];
    }

    /** The pruned deques decide exactly as the whole history would, and go on standing for it. */
    method DecideAndTrack(customer: string, now: int) returns (d: Decision)
      requires Valid() && latest <= now
      modifies this`customerEvents, this`globalEvents, this`history, this`latest
      ensures Valid() && latest == now
      ensures d == Decide(limits, w, old(history), customer, now)
      ensures history == After(old(history), Admission(customer, now), d.Admitted?)
    {
      var events := Prune(Events(customerEvents, customer), now - w.day);
      var everyone := Prune(globalEvents, now - w.day);
      ghost var a := Admission(customer, now);
      d := DecideRecent(limits, w, events, |everyone|, now);
      MemoryTurn(limits, w, history, customerEvents, globalEvents, latest, a, d);
      events := Appended(events, now, d.Admitted?);
      everyone := Appended(everyone, now, d.Admitted? && limits.globalDay > 0);
      Remember(customerEvents[customer := events], everyone, After(history, a, d.Admitted?), now);
    }

    method Remember(events: map<string, seq<int>>, everyone: seq<int>, ghost after: seq<Admission>, ghost now: int)
      requires MemoryOk(limits, w, after, events, everyone, now)
      modifies this`customerEvents, this`globalEvents, this`history, this`latest
      ensures Valid() && latest == now && history == after
    {
      customerEvents, globalEvents := events, everyone;
      history, latest := after, now;
    }

    /**
     `_consume_memory`: a turn is admitted exactly when each of its four windows, counted in everything
     that was ever admitted, has room; otherwise the first full one is named.
     */
    method ConsumeMemory(customer: string, now: int) returns (d: Decision)
      requires Valid() && latest <= now
      modifies this`customerEvents, this`globalEvents, this`history, this`latest
      ensures Valid() && latest == now
      ensures d == Decide(limits, w, old(history), customer, now)
      ensures Answers(d, limits, |Mine(old(history), customer, now - w.minute)|,
                      |Mine(old(history), customer, now - w.hour)|, |Mine(old(history), customer, now - w.day)|,
                      |Everyones(old(history), now - w.day)|)
      ensures history == old(history) + if d.Admitted? then [Admission(customer, now)] else []
    {
      DecidesExactly(limits, w, history, customer, now);
      d := DecideAndTrack(customer, now);
    }

    /** `claim_notice` without Redis: notices to one customer are at least the cooldown, set in seconds, apart. */
    method ClaimNotice(customer: string, now: int) returns (claimed: bool)
      requires NoticesValid()
      modifies this`noticeUntil, this`notices
      ensures NoticesValid()
      ensures claimed <==> (if customer in old(noticeUntil) then old(noticeUntil)[customer] else 0) <= now
      ensures claimed ==> notices == old(notices)[customer := Events(old(notices), customer) + [now]]
      ensures !claimed ==> notices == old(notices)
    {
      var until := if customer in noticeUntil then noticeUntil[customer] else 0;
      if until > now { return false; }
      NoticeKeeps(notices, noticeUntil, cooldown, customer, now);
      noticeUntil := noticeUntil[customer := now + cooldown];
      notices := notices[customer := Events(notices, customer) + [now]];
      return true;
    }
  }

  /** Serving any requests in clock order admits exactly what Admissions says, so every window is bounded. */
  method ServeAll(limiter: AIUsageRateLimiter, requests: seq<Admission>)
    requires limiter.Valid() && limiter.history == []
    requires forall i :: 0 <= i < |requests| ==> limiter.latest <= requests[i].at
    requires forall i, j :: 0 <= i < j < |requests| ==> requests[i].at <= requests[j].at
    modifies limiter
    ensures limiter.Valid() && limiter.history == Admissions(limiter.limits, limiter.w, requests)
    ensures WindowsBounded(limiter.limits, limiter.w, limiter.history)
  {
    for i := 0 to |requests|
      invariant limiter.Valid()
      invariant limiter.history == Admissions(limiter.limits, limiter.w, requests[..i])
      invariant i < |requests| ==> limiter.latest <= requests[i].at
    {
      assert requests[..i + 1] == requests[..i] + [requests[i]];
      OneMoreRequest(limiter.limits, limiter.w, requests[..i], requests[i]);
      var d := limiter.ConsumeMemory(requests[i].customer, requests[i].at);
    }
    assert requests[..|requests|] == requests;
    AnyWindowQuota(limiter.limits, limiter.w, requests);
  }

  // ---------- The Lua script ----------

  /** The four checks of the script, in their order, after its ZREMRANGEBYSCORE commands. */
  method DecideCounted(limits: Limits, w: Widths, mine: seq<int>, everyone: nat, now: int) returns (d: Decision)
    ensures d == DecideScript(limits, w, mine, everyone, now)
  {
    if limits.minute > 0 && ZCount(mine, now - w.minute) >= limits.minute { return Refused(CustomerMinute); }
    if limits.hour > 0 && ZCount(mine, now - w.hour) >= limits.hour { return Refused(CustomerHour); }
    if limits.day > 0 && |mine| >= limits.day { return Refused(CustomerDay); }
    if limits.globalDay > 0 && everyone >= limits.globalDay { return Refused(GlobalDay); }
    return Admitted;
  }

  class AIQuotaKeys {
    const limits: Limits
    const w: Widths
    var customerKeys: map<string, Zset>
    var globalKey: Option<Zset>
    ghost var history: seq<Admission>
    ghost var latest: int

    ghost predicate Valid()
      reads this
    {
      ScriptOk(limits, w, history, customerKeys, globalKey, latest)
    }

    function Key(customer: string): Option<Zset>
      reads this
    {
      KeyIn(customerKeys, customer)
    }

    constructor (limits: Limits, start: int)
      ensures Valid() && history == [] && this.limits == limits && w == ROLLING && latest == start
      ensures w.minute == 60 * 1000 && w.hour == 60 * w.minute && w.day == 24 * w.hour
    {
      this.limits, w := limits, ROLLING;
      customerKeys, globalKey := map[], None;
      history, latest := [], start;
    }

    /** The sorted sets, pruned by score and dropped by PEXPIRE, decide exactly as the whole history would. */
    method DecideAndTrack(customer: string, now: int) returns (d: Decision)
      requires Valid() && latest <= now
      modifies this`customerKeys, this`globalKey, this`history, this`latest
      ensures Valid() && latest == now
      ensures d == Decide(limits, Closed(w), old(history), customer, now)
      ensures history == After(old(history), Admission(customer, now), d.Admitted?)
    {
      ghost var a := Admission(customer, now);
      var mine, everyone := LastDay(Key(customer), now, w.day), LastDay(globalKey, now, w.day);
      d := DecideCounted(limits, w, mine, |everyone|, now);
      ScriptTurn(limits, w, history, customerKeys, globalKey, latest, a, d);
      customerKeys := WithKey(customerKeys, customer, Updated(Key(customer), now, w.day, d.Admitted?));
      if limits.globalDay > 0 { globalKey := Updated(globalKey, now, w.day, d.Admitted?); }
      history := After(history, a, d.Admitted?);
      latest := now;
    }

    /** `_CONSUME_SCRIPT`: the same answer, where an event exactly a minute or an hour old still counts. */
    method ConsumeScript(customer: string, now: int) returns (d: Decision)
      requires Valid() && latest <= now
      modifies this`customerKeys, this`globalKey, this`history, this`latest
      ensures Valid() && latest == now
      ensures d == Decide(limits, Closed(w), old(history), customer, now)
      ensures Answers(d, limits, |Mine(old(history), customer, now - w.minute - 1)|,
                      |Mine(old(history), customer, now - w.hour - 1)|, |Mine(old(history), customer, now - w.day)|,
                      |Everyones(old(history), now - w.day)|)
      ensures history == old(history) + if d.Admitted? then [Admission(customer, now)] else []
    {
      DecidesExactly(limits, Closed(w), history, customer, now);
      assert now - Closed(w).minute == now - w.minute - 1 && now - Closed(w).hour == now - w.hour - 1;
      d := DecideAndTrack(customer, now);
    }
  }

  // ---------- The login throttle ----------

  /** `SlidingWindowRateLimiter`, its window closed at both ends. */
  class SlidingWindowRateLimiter {
    const maxEvents: int
    const window: nat
    var hits: map<string, seq<int>>
    ghost var history: seq<Admission>
    ghost var latest: int

    ghost predicate Valid()
      reads this
    {
      && AllTracked(history, hits, latest, window + 1)
      && AllAtMost(history, window, maxEvents)
    }

    constructor (maxEvents: int, window: nat, start: int)
      ensures Valid() && history == [] && latest == start
      ensures this.maxEvents == maxEvents && this.window == window
    {
      this.maxEvents, this.window := maxEvents, window;
      hits, history, latest := map[], [], start;
    }

    /**
     Allowed exactly while fewer than maxEvents hits of this key lie in [now - window, now]; by
     Valid, no closed window of this length ever holds more than maxEvents allowed hits of a key.
     */
    method Allow(key: string, now: int) returns (allowed: bool)
      requires Valid() && latest <= now
      modifies this`hits, this`history, this`latest
      ensures Valid() && latest == now
      ensures allowed <==> CountAfter(TimesOf(old(history), key), now - window - 1) < maxEvents
      ensures allowed <==> |Mine(old(history), key, now - window - 1)| < maxEvents
      ensures history == old(history) + if allowed then [Admission(key, now)] else []
    {
      var unpruned := if key in hits then hits[key] else [];
      var events := Prune(unpruned, now - window - 1);
      DropOldPrunes(unpruned, now - window - 1);
      assert Tracks(TimesOf(history, key), Events(hits, key), latest, window + 1);
      PrunedCounts(TimesOf(history, key), unpruned, events, latest, now, window + 1, now);
      allowed := |events| < maxEvents;
      MineCounted(history, key, now - window - 1);
      TracksAfterTurn(history, hits, latest, window + 1, Admission(key, now), events, allowed);
      AtMostAfterTurn(history, window, maxEvents, Admission(key, now), allowed);
      if allowed { events := events + [now]; }
      hits := hits[key := events];
      history := After(history, Admission(key, now), allowed);
      latest := now;
    }
  }
}
