/**
 ROLLING quotas decided by counting the whole admission history, and the bound they give for every
 window. Times are whole milliseconds.
 */
module Quotas {

  datatype Admission = Admission(customer: string, at: int)

  /** A limit of zero switches its check off. */
  datatype Limits = Limits(minute: nat, hour: nat, day: nat, globalDay: nat)

  /** How far back the checks look: an event counts when now - at < width. */
  datatype Widths = Widths(minute: int, hour: int, day: int)

  /** The in-memory code counts events strictly after now - 60s, now - 1h and now - 24h. */
  const ROLLING := Widths(60000, 3600000, 86400000)

  /** The two short windows lie within the day. */
  predicate Nested(w: Widths) {
    0 <= w.minute < w.day && 0 <= w.hour < w.day
  }

  /** ZCOUNT takes both ends, so the script also counts an event exactly one minute or one hour old. */
  function Closed(w: Widths): Widths {
    Widths(w.minute + 1, w.hour + 1, w.day)
  }

  datatype Scope = CustomerMinute | CustomerHour | CustomerDay | GlobalDay

  datatype Decision = Admitted | Refused(scope: Scope)

  /** Events later than `after`. */
  function CountAfter(times: seq<int>, after: int): nat {
    if times == [] then 0
    else CountAfter(times[..|times| - 1], after) + if times[|times| - 1] > after then 1 else 0
  }

  /** Events in the window (lo, hi]. */
  function CountWithin(times: seq<int>, lo: int, hi: int): nat {
    if times == [] then 0
    else CountWithin(times[..|times| - 1], lo, hi) + if lo < times[|times| - 1] <= hi then 1 else 0
  }

  /** When this customer's turns were admitted. */
  function TimesOf(history: seq<Admission>, customer: string): seq<int> {
    if history == [] then []
    else
      var n := |history| - 1;
      TimesOf(history[..n], customer) + if history[n].customer == customer then [history[n].at] else []
  }

  function AllTimes(history: seq<Admission>): seq<int> {
    if history == [] then []
    else AllTimes(history[..|history| - 1]) + [history[|history| - 1].at]
  }

  predicate Full(limit: nat, count: nat) {
    limit > 0 && count >= limit
  }

  /** The four checks in their order. */
  function Verdict(limits: Limits, minute: nat, hour: nat, day: nat, globalDay: nat): Decision {
    if Full(limits.minute, minute) then Refused(CustomerMinute)
    else if Full(limits.hour, hour) then Refused(CustomerHour)
    else if Full(limits.day, day) then Refused(CustomerDay)
    else if Full(limits.globalDay, globalDay) then Refused(GlobalDay)
    else Admitted
  }

  /** The decision taken from the whole history, nothing pruned. */
  function Decide(limits: Limits, widths: Widths, history: seq<Admission>, customer: string, now: int): Decision {
    var times := TimesOf(history, customer);
    Verdict(limits, CountAfter(times, now - widths.minute), CountAfter(times, now - widths.hour),
            CountAfter(times, now - widths.day), CountAfter(AllTimes(history), now - widths.day))
  }

  /** The history after these requests, each decided when it comes. */
  function Admissions(limits: Limits, widths: Widths, requests: seq<Admission>): seq<Admission> {
    if requests == [] then []
    else
      var last := requests[|requests| - 1];
      var before := Admissions(limits, widths, requests[..|requests| - 1]);
      if Decide(limits, widths, before, last.customer, last.at).Admitted? then before + [last] else before
  }

  // ---------- Counting ----------

  /** An event joins a window; a window reaching further back counts no less. */
  lemma {:induction false} WindowWithinTail(times: seq<int>, lo: int, hi: int, after: int)
    requires after <= lo
    ensures CountWithin(times, lo, hi) <= CountAfter(times, after)
  {
    if times != [] { WindowWithinTail(times[..|times| - 1], lo, hi, after); }
  }

  lemma {:induction false} TailMonotone(times: seq<int>, early: int, late: int)
    requires early <= late
    ensures CountAfter(times, late) <= CountAfter(times, early)
  {
    if times != [] { TailMonotone(times[..|times| - 1], early, late); }
  }

  lemma AppendCounts(times: seq<int>, x: int, lo: int, hi: int)
    ensures CountWithin(times + [x], lo, hi) == CountWithin(times, lo, hi) + if lo < x <= hi then 1 else 0
  {
    assert (times + [x])[..|times|] == times;
  }

  /** One admission under a limit keeps every window of that width within the limit. */
  lemma WindowStaysBounded(times: seq<int>, now: int, width: int, limit: nat, t: int)
    requires !Full(limit, CountAfter(times, now - width))
    requires WithinLimit(limit, times, width, t)
    ensures WithinLimit(limit, times + [now], width, t)
  {
    AppendCounts(times, now, t - width, t);
    if now <= t { WindowWithinTail(times, t - width, t, now - width); }
  }

  lemma TimesOfAppend(history: seq<Admission>, a: Admission, customer: string)
    ensures TimesOf(history + [a], customer)
         == TimesOf(history, customer) + if a.customer == customer then [a.at] else []
    ensures AllTimes(history + [a]) == AllTimes(history) + [a.at]
  {
    assert (history + [a])[..|history|] == history;
  }

  // ---------- Every window is within its limit ----------

  /** The window of this width that ends at t holds no more than the limit. */
  predicate WithinLimit(limit: nat, times: seq<int>, width: int, t: int) {
    limit > 0 ==> CountWithin(times, t - width, t) <= limit
  }

  /** No window of this width holds more than the limit. */
  ghost predicate Bounded(limit: nat, times: seq<int>, width: int) {
    forall lo, hi :: hi - lo == width && limit > 0 ==> CountWithin(times, lo, hi) <= limit
  }

  ghost predicate WindowsBounded(limits: Limits, widths: Widths, history: seq<Admission>) {
    && (forall c: string ::
          && Bounded(limits.minute, TimesOf(history, c), widths.minute)
          && Bounded(limits.hour, TimesOf(history, c), widths.hour)
          && Bounded(limits.day, TimesOf(history, c), widths.day))
    && Bounded(limits.globalDay, AllTimes(history), widths.day)
  }

  lemma BoundedStays(limit: nat, times: seq<int>, width: int, now: int)
    requires Bounded(limit, times, width) && !Full(limit, CountAfter(times, now - width))
    ensures Bounded(limit, times + [now], width)
  {
    forall lo, hi | hi - lo == width && limit > 0 ensures CountWithin(times + [now], lo, hi) <= limit {
      assert lo == hi - width;
      WindowStaysBounded(times, now, width, limit, hi);
    }
  }

  /** An admission by Decide keeps every window of every customer, and every global window, bounded. */
  lemma AdmissionKeepsWindows(limits: Limits, widths: Widths, history: seq<Admission>, a: Admission)
    requires WindowsBounded(limits, widths, history)
    requires Decide(limits, widths, history, a.customer, a.at).Admitted?
    ensures WindowsBounded(limits, widths, history + [a])
  {
    var after, mine := history + [a], TimesOf(history, a.customer);
    BoundedStays(limits.minute, mine, widths.minute, a.at);
    BoundedStays(limits.hour, mine, widths.hour, a.at);
    BoundedStays(limits.day, mine, widths.day, a.at);
    TimesOfAppend(history, a, a.customer);
    BoundedStays(limits.globalDay, AllTimes(history), widths.day, a.at);
    forall c: string
      ensures Bounded(limits.minute, TimesOf(after, c), widths.minute)
      ensures Bounded(limits.hour, TimesOf(after, c), widths.hour)
      ensures Bounded(limits.day, TimesOf(after, c), widths.day)
    {
      TimesOfAppend(history, a, c);
      assert TimesOf(history, c) + [] == TimesOf(history, c);
    }
  }

  /**
   Any mix of customers, any moment t: the minute, hour and day ending at t hold at most the
   configured number of admitted turns of each customer, and the day at most the global number.
   */
  lemma {:induction false} AnyWindowQuota(limits: Limits, widths: Widths, requests: seq<Admission>)
    ensures WindowsBounded(limits, widths, Admissions(limits, widths, requests))
  {
    if requests != [] {
      var n := |requests| - 1;
      AnyWindowQuota(limits, widths, requests[..n]);
      var before := Admissions(limits, widths, requests[..n]);
      if Decide(limits, widths, before, requests[n].customer, requests[n].at).Admitted? {
        AdmissionKeepsWindows(limits, widths, before, requests[n]);
      }
    }
  }

  lemma OneMoreRequest(limits: Limits, widths: Widths, requests: seq<Admission>, a: Admission)
    ensures var before := Admissions(limits, widths, requests);
            var admitted := Decide(limits, widths, before, a.customer, a.at).Admitted?;
            Admissions(limits, widths, requests + [a]) == (if admitted then before + [a] else before)
  {
    assert (requests + [a])[..|requests|] == requests;
  }

  /** Looking further back never admits more: what the script admits, the in-memory code admits. */
  lemma ScriptIsStricter(limits: Limits, widths: Widths, history: seq<Admission>, customer: string, now: int)
    requires Decide(limits, Closed(widths), history, customer, now).Admitted?
    ensures Decide(limits, widths, history, customer, now).Admitted?
  {
    var times := TimesOf(history, customer);
    TailMonotone(times, now - Closed(widths).minute, now - widths.minute);
    TailMonotone(times, now - Closed(widths).hour, now - widths.hour);
  }

  lemma {:induction false} OneTickMore(times: seq<int>, after: int)
    ensures after !in times ==> CountAfter(times, after - 1) == CountAfter(times, after)
  {
    if times != [] {
      OneTickMore(times[..|times| - 1], after);
      assert times == times[..|times| - 1] + [times[|times| - 1]];
    }
  }

  /** The two stores can disagree only about an event exactly one minute or one hour old. */
  lemma DisagreementIsBorderline(limits: Limits, widths: Widths, history: seq<Admission>, customer: string, now: int)
    requires now - widths.minute !in TimesOf(history, customer) && now - widths.hour !in TimesOf(history, customer)
    ensures Decide(limits, Closed(widths), history, customer, now) == Decide(limits, widths, history, customer, now)
  {
    OneTickMore(TimesOf(history, customer), now - widths.minute);
    OneTickMore(TimesOf(history, customer), now - widths.hour);
  }
}
