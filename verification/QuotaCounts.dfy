/** What the quota decisions and bounds say of the admission history itself, without the counting functions. */
module QuotaCounts {
  import opened Quotas

  /** The customer's turns admitted after this moment, by their place in the history. */
  ghost function Mine(history: seq<Admission>, customer: string, after: int): set<nat> {
    set i: nat | i < |history| && history[i].customer == customer && history[i].at > after
  }

  /** Everybody's turns admitted after this moment. */
  ghost function Everyones(history: seq<Admission>, after: int): set<nat> {
    set i: nat | i < |history| && history[i].at > after
  }

  ghost function MineWithin(history: seq<Admission>, customer: string, lo: int, hi: int): set<nat> {
    set i: nat | i < |history| && history[i].customer == customer && lo < history[i].at <= hi
  }

  ghost function EveryonesWithin(history: seq<Admission>, lo: int, hi: int): set<nat> {
    set i: nat | i < |history| && lo < history[i].at <= hi
  }

  /**
   The answer to counts of the four windows: admitted when each limit is off or not reached, and otherwise
   refused for the first one that is reached.
   */
  predicate Answers(d: Decision, limits: Limits, minute: nat, hour: nat, day: nat, everyone: nat) {
    var minuteRoom := limits.minute == 0 || minute < limits.minute;
    var hourRoom := limits.hour == 0 || hour < limits.hour;
    var dayRoom := limits.day == 0 || day < limits.day;
    var globalRoom := limits.globalDay == 0 || everyone < limits.globalDay;
    match d
    case Admitted => minuteRoom && hourRoom && dayRoom && globalRoom
    case Refused(CustomerMinute) => !minuteRoom
    case Refused(CustomerHour) => minuteRoom && !hourRoom
    case Refused(CustomerDay) => minuteRoom && hourRoom && !dayRoom
    case Refused(GlobalDay) => minuteRoom && hourRoom && dayRoom && !globalRoom
  }

  lemma {:induction false} MineCounted(history: seq<Admission>, customer: string, after: int)
    ensures CountAfter(TimesOf(history, customer), after) == |Mine(history, customer, after)|
  {
    if history != [] {
      var n := |history| - 1;
      var front, a := history[..n], history[n];
      MineCounted(front, customer, after);
      var mine := Mine(front, customer, after);
      assert Mine(history, customer, after) == if a.customer == customer && a.at > after then mine + {n} else mine;
      CountMore(TimesOf(front, customer), a.at, after);
    }
  }

  lemma CountMore(times: seq<int>, x: int, after: int)
    ensures CountAfter(times + [x], after) == CountAfter(times, after) + if x > after then 1 else 0
    ensures times + [] == times
  {
    assert (times + [x])[..|times|] == times;
  }

  lemma {:induction false} EveryonesCounted(history: seq<Admission>, after: int)
    ensures CountAfter(AllTimes(history), after) == |Everyones(history, after)|
  {
    if history != [] {
      var n := |history| - 1;
      EveryonesCounted(history[..n], after);
      var all := Everyones(history[..n], after);
      assert Everyones(history, after) == if history[n].at > after then all + {n} else all;
      CountMore(AllTimes(history[..n]), history[n].at, after);
    }
  }

  lemma {:induction false} MineWithinCounted(history: seq<Admission>, customer: string, lo: int, hi: int)
    ensures CountWithin(TimesOf(history, customer), lo, hi) == |MineWithin(history, customer, lo, hi)|
  {
    if history != [] {
      var n := |history| - 1;
      var front, a := history[..n], history[n];
      MineWithinCounted(front, customer, lo, hi);
      var mine := MineWithin(front, customer, lo, hi);
      assert MineWithin(history, customer, lo, hi)
          == if a.customer == customer && lo < a.at <= hi then mine + {n} else mine;
      AppendCounts(TimesOf(front, customer), a.at, lo, hi);
      assert TimesOf(front, customer) + [] == TimesOf(front, customer);
    }
  }

  lemma {:induction false} EveryonesWithinCounted(history: seq<Admission>, lo: int, hi: int)
    ensures CountWithin(AllTimes(history), lo, hi) == |EveryonesWithin(history, lo, hi)|
  {
    if history != [] {
      var n := |history| - 1;
      EveryonesWithinCounted(history[..n], lo, hi);
      var all := EveryonesWithin(history[..n], lo, hi);
      assert EveryonesWithin(history, lo, hi) == if lo < history[n].at <= hi then all + {n} else all;
      AppendCounts(AllTimes(history[..n]), history[n].at, lo, hi);
    }
  }

  /**
   A decision admits exactly when in each of the four windows fewer turns were admitted than its limit, or
   the limit is zero; a refusal names the first window, in order, that is full.
   */
  lemma DecidesExactly(limits: Limits, w: Widths, history: seq<Admission>, customer: string, now: int)
    ensures Answers(Decide(limits, w, history, customer, now), limits,
                    |Mine(history, customer, now - w.minute)|, |Mine(history, customer, now - w.hour)|,
                    |Mine(history, customer, now - w.day)|, |Everyones(history, now - w.day)|)
  {
    MineCounted(history, customer, now - w.minute);
    MineCounted(history, customer, now - w.hour);
    MineCounted(history, customer, now - w.day);
    EveryonesCounted(history, now - w.day);
  }

  /** Of any requests, no window of a customer, and no day of everybody, holds more admitted turns than its limit. */
  lemma WindowsHold(limits: Limits, w: Widths, requests: seq<Admission>, customer: string, lo: int)
    ensures var admitted := Admissions(limits, w, requests);
            && (limits.minute == 0 || |MineWithin(admitted, customer, lo, lo + w.minute)| <= limits.minute)
            && (limits.hour == 0 || |MineWithin(admitted, customer, lo, lo + w.hour)| <= limits.hour)
            && (limits.day == 0 || |MineWithin(admitted, customer, lo, lo + w.day)| <= limits.day)
            && (limits.globalDay == 0 || |EveryonesWithin(admitted, lo, lo + w.day)| <= limits.globalDay)
  {
    AnyWindowQuota(limits, w, requests);
    BoundedHolds(limits, w, Admissions(limits, w, requests), customer, lo);
  }

  lemma BoundedHolds(limits: Limits, w: Widths, history: seq<Admission>, customer: string, lo: int)
    requires WindowsBounded(limits, w, history)
    ensures limits.minute == 0 || |MineWithin(history, customer, lo, lo + w.minute)| <= limits.minute
    ensures limits.hour == 0 || |MineWithin(history, customer, lo, lo + w.hour)| <= limits.hour
    ensures limits.day == 0 || |MineWithin(history, customer, lo, lo + w.day)| <= limits.day
    ensures limits.globalDay == 0 || |EveryonesWithin(history, lo, lo + w.day)| <= limits.globalDay
  {
    MineBounded(limits.minute, history, customer, w.minute, lo);
    MineBounded(limits.hour, history, customer, w.hour, lo);
    MineBounded(limits.day, history, customer, w.day, lo);
    EveryonesBounded(limits.globalDay, history, w.day, lo);
  }

  lemma EveryonesBounded(limit: nat, history: seq<Admission>, width: int, lo: int)
    requires Bounded(limit, AllTimes(history), width)
    ensures limit == 0 || |EveryonesWithin(history, lo, lo + width)| <= limit
  {
    EveryonesWithinCounted(history, lo, lo + width);
    assert CountWithin(AllTimes(history), lo, lo + width) <= limit || limit == 0;
  }

  lemma MineBounded(limit: nat, history: seq<Admission>, customer: string, width: int, lo: int)
    requires Bounded(limit, TimesOf(history, customer), width)
    ensures limit == 0 || |MineWithin(history, customer, lo, lo + width)| <= limit
  {
    MineWithinCounted(history, customer, lo, lo + width);
    assert CountWithin(TimesOf(history, customer), lo, lo + width) <= limit || limit == 0;
  }

  /** A request is admitted in its turn exactly as decided on what was admitted before it. */
  lemma AdmittedNext(limits: Limits, w: Widths, requests: seq<Admission>, a: Admission)
    ensures var before, after := Admissions(limits, w, requests), Admissions(limits, w, requests + [a]);
            var now, c := a.at, a.customer;
            && (after == before || after == before + [a])
            && (|after| > |before| <==>
                && (limits.minute == 0 || |Mine(before, c, now - w.minute)| < limits.minute)
                && (limits.hour == 0 || |Mine(before, c, now - w.hour)| < limits.hour)
                && (limits.day == 0 || |Mine(before, c, now - w.day)| < limits.day)
                && (limits.globalDay == 0 || |Everyones(before, now - w.day)| < limits.globalDay))
  {
    OneMoreRequest(limits, w, requests, a);
    DecidesExactly(limits, w, Admissions(limits, w, requests), a.customer, a.at);
  }
}
