/** What a pruned list, or a sorted set with an expiry, still knows about the whole history. */
module QuotaTracking {
  import opened Prelude
  import opened Quotas

  function Front(times: seq<int>): seq<int>
    requires times != []
  {
    times[..|times| - 1]
  }

  function Last(times: seq<int>): int
    requires times != []
  {
    times[|times| - 1]
  }

  /** No event is later than `now`. */
  ghost predicate UpTo(times: seq<int>, now: int) {
    times == [] || (Last(times) <= now && UpTo(Front(times), now))
  }

  /** Every event is later than `bound`. */
  ghost predicate AllRecent(times: seq<int>, bound: int) {
    times == [] || (Last(times) > bound && AllRecent(Front(times), bound))
  }

  /** In chronological order. */
  ghost predicate Sorted(times: seq<int>) {
    times == [] || (UpTo(Front(times), Last(times)) && Sorted(Front(times)))
  }

  /** `kept` is `times` without a prefix of events no later than `bound`. */
  ghost predicate Pruned(times: seq<int>, kept: seq<int>, bound: int) {
    if kept == [] then UpTo(times, bound)
    else times != [] && Last(times) == Last(kept) && Pruned(Front(times), Front(kept), bound)
  }

  /** Everything old is gone and, on a chronological list, nothing else. */
  ghost predicate PrunedExactly(times: seq<int>, kept: seq<int>, bound: int) {
    Pruned(times, kept, bound) && (Sorted(times) ==> AllRecent(kept, bound))
  }

  lemma {:induction false} UpToLater(times: seq<int>, early: int, late: int)
    requires UpTo(times, early) && early <= late
    ensures UpTo(times, late)
  {
    if times != [] { UpToLater(Front(times), early, late); }
  }

  lemma {:induction false} PrunedLater(times: seq<int>, kept: seq<int>, early: int, late: int)
    requires Pruned(times, kept, early) && early <= late
    ensures Pruned(times, kept, late)
  {
    if kept == [] { UpToLater(times, early, late); } else { PrunedLater(Front(times), Front(kept), early, late); }
  }

  lemma {:induction false} PrunedTwice(times: seq<int>, kept: seq<int>, less: seq<int>, bound: int)
    requires Pruned(times, kept, bound) && Pruned(kept, less, bound)
    ensures Pruned(times, less, bound)
  {
    if kept != [] && less != [] {
      PrunedTwice(Front(times), Front(kept), Front(less), bound);
    } else if kept != [] {
      PrunedTwice(Front(times), Front(kept), [], bound);
    }
  }

  lemma {:induction false} PrunedSorted(times: seq<int>, kept: seq<int>, bound: int, now: int)
    requires Pruned(times, kept, bound)
    ensures Sorted(times) ==> Sorted(kept)
    ensures UpTo(times, now) ==> UpTo(kept, now)
  {
    if kept != [] {
      PrunedSorted(Front(times), Front(kept), bound, now);
      PrunedSorted(Front(times), Front(kept), bound, Last(times));
    }
  }

  /** Nothing pruned yet. */
  lemma {:induction false} PrunedNone(times: seq<int>, bound: int)
    ensures Pruned(times, times, bound)
  {
    if times != [] { PrunedNone(Front(times), bound); }
  }

  /** One popleft of an old event. */
  lemma {:induction false} PopFront(times: seq<int>, kept: seq<int>, bound: int)
    requires Pruned(times, kept, bound) && kept != [] && kept[0] <= bound
    ensures Pruned(times, kept[1..], bound)
  {
    if |kept| == 1 {
      assert UpTo(Front(times), bound);
    } else {
      PopFront(Front(times), Front(kept), bound);
      assert Front(kept)[1..] == Front(kept[1..]);
    }
  }

  lemma {:induction false} HeadRecent(kept: seq<int>, bound: int)
    requires Sorted(kept) && kept != [] && kept[0] > bound
    ensures AllRecent(kept, bound)
  {
    if |kept| > 1 {
      assert Front(kept)[0] == kept[0];
      HeadRecent(Front(kept), bound);
      HeadUpTo(Front(kept), Last(kept));
    }
  }

  lemma {:induction false} HeadUpTo(times: seq<int>, now: int)
    requires times != [] && UpTo(times, now)
    ensures times[0] <= now
  {
    if |times| > 1 { HeadUpTo(Front(times), now); }
  }

  /** What popping old events from the front leaves. */
  function DropOld(events: seq<int>, bound: int): seq<int> {
    if events != [] && events[0] <= bound then DropOld(events[1..], bound) else events
  }

  lemma DropOldPrunes(events: seq<int>, bound: int)
    ensures PrunedExactly(events, DropOld(events, bound), bound)
  {
    PrunedNone(events, bound);
    DropOldFrom(events, events, bound);
    PrunedSorted(events, DropOld(events, bound), bound, 0);
    var kept := DropOld(events, bound);
    if Sorted(kept) && kept != [] { HeadRecent(kept, bound); }
  }

  lemma {:induction false} DropOldFrom(events: seq<int>, kept: seq<int>, bound: int)
    requires Pruned(events, kept, bound)
    ensures Pruned(events, DropOld(kept, bound), bound)
    ensures DropOld(kept, bound) != [] ==> DropOld(kept, bound)[0] > bound
  {
    if kept != [] && kept[0] <= bound {
      PopFront(events, kept, bound);
      DropOldFrom(events, kept[1..], bound);
    }
  }

  /** A prefix of old events adds nothing to a later count. */
  lemma {:induction false} PruningIsLossless(times: seq<int>, kept: seq<int>, bound: int, after: int)
    requires Pruned(times, kept, bound) && bound <= after
    ensures CountAfter(times, after) == CountAfter(kept, after)
  {
    if kept != [] { PruningIsLossless(Front(times), Front(kept), bound, after); }
    else if times != [] { PruningIsLossless(Front(times), [], bound, after); }
  }

  lemma {:induction false} RecentCount(kept: seq<int>, bound: int)
    requires AllRecent(kept, bound)
    ensures CountAfter(kept, bound) == |kept|
  {
    if kept != [] { RecentCount(Front(kept), bound); }
  }

  // ---------- A list that stands for a history ----------

  /** `kept` still stands for `times` at every moment from `latest` on. */
  ghost predicate Tracks(times: seq<int>, kept: seq<int>, latest: int, span: int) {
    Sorted(times) && UpTo(times, latest) && Pruned(times, kept, latest - span)
  }

  function Events(events: map<string, seq<int>>, key: string): seq<int> {
    if key in events then events[key] else []
  }

  ghost predicate AllTracked(history: seq<Admission>, events: map<string, seq<int>>, latest: int, span: int) {
    forall c :: Tracks(TimesOf(history, c), Events(events, c), latest, span)
  }

  /** The global list is kept only while there is a global limit. */
  ghost predicate GlobalTracked(limit: nat, history: seq<Admission>, events: seq<int>, latest: int, span: int) {
    if limit > 0 then Tracks(AllTimes(history), events, latest, span) else events == []
  }

  /** Pruning again, and admitting one event now, keeps the list faithful. */
  lemma TracksPruned(times: seq<int>, kept: seq<int>, less: seq<int>, latest: int, now: int, span: int)
    requires Tracks(times, kept, latest, span) && latest <= now && Pruned(kept, less, now - span)
    ensures Tracks(times, less, now, span)
    ensures Tracks(times + [now], less + [now], now, span)
  {
    PrunedLater(times, kept, latest - span, now - span);
    PrunedTwice(times, kept, less, now - span);
    UpToLater(times, latest, now);
    assert Front(times + [now]) == times && Front(less + [now]) == less;
  }

  /** Pruned, the list gives the whole history's counts, and its length is the count of the whole span. */
  lemma PrunedCounts(times: seq<int>, kept: seq<int>, less: seq<int>, latest: int, now: int, span: int, after: int)
    requires Tracks(times, kept, latest, span) && latest <= now
    requires PrunedExactly(kept, less, now - span)
    requires after >= now - span
    ensures CountAfter(times, after) == CountAfter(less, after)
    ensures CountAfter(times, now - span) == |less|
  {
    TracksPruned(times, kept, less, latest, now, span);
    PruningIsLossless(times, less, now - span, after);
    PruningIsLossless(times, less, now - span, now - span);
    PrunedSorted(times, kept, latest - span, now);
    RecentCount(less, now - span);
  }

  /** The counts the three customer checks use. */
  lemma CustomerCounts(times: seq<int>, kept: seq<int>, less: seq<int>, latest: int, now: int, w: Widths)
    requires Tracks(times, kept, latest, w.day) && latest <= now
    requires PrunedExactly(kept, less, now - w.day) && Nested(w)
    ensures CountAfter(times, now - w.minute) == CountAfter(less, now - w.minute)
    ensures CountAfter(times, now - w.hour) == CountAfter(less, now - w.hour)
    ensures CountAfter(times, now - w.day) == |less|
  {
    PrunedCounts(times, kept, less, latest, now, w.day, now - w.minute);
    PrunedCounts(times, kept, less, latest, now, w.day, now - w.hour);
  }

  /** The history after a turn that was, or was not, admitted. */
  function After(before: seq<Admission>, a: Admission, admitted: bool): seq<Admission> {
    if admitted then before + [a] else before
  }

  function Appended(times: seq<int>, now: int, admitted: bool): seq<int> {
    if admitted then times + [now] else times
  }

  lemma TimesAfter(before: seq<Admission>, a: Admission, admitted: bool, c: string)
    ensures TimesOf(After(before, a, admitted), c) == Appended(TimesOf(before, c), a.at, admitted && c == a.customer)
    ensures AllTimes(After(before, a, admitted)) == Appended(AllTimes(before), a.at, admitted)
  {
    TimesOfAppend(before, a, c);
    assert TimesOf(before, c) + [] == TimesOf(before, c);
  }

  /** A turn of one customer leaves every customer's list faithful. */
  lemma TracksAfterTurn(before: seq<Admission>, events: map<string, seq<int>>, latest: int, span: int,
                        a: Admission, less: seq<int>, admitted: bool)
    requires AllTracked(before, events, latest, span) && latest <= a.at
    requires Pruned(Events(events, a.customer), less, a.at - span)
    ensures AllTracked(After(before, a, admitted), events[a.customer := Appended(less, a.at, admitted)], a.at, span)
  {
    var events' := events[a.customer := Appended(less, a.at, admitted)];
    forall c ensures Tracks(TimesOf(After(before, a, admitted), c), Events(events', c), a.at, span) {
      assert Tracks(TimesOf(before, c), Events(events, c), latest, span);
      TimesAfter(before, a, admitted, c);
      PrunedNone(Events(events, c), a.at - span);
      TracksPruned(TimesOf(before, c), Events(events, c), if c == a.customer then less else Events(events, c),
                   latest, a.at, span);
    }
  }

  /** The same turn leaves the global list faithful. */
  lemma GlobalAfterTurn(limit: nat, before: seq<Admission>, events: seq<int>, latest: int, span: int,
                        a: Admission, less: seq<int>, admitted: bool)
    requires GlobalTracked(limit, before, events, latest, span) && latest <= a.at
    requires Pruned(events, less, a.at - span)
    ensures GlobalTracked(limit, After(before, a, admitted), Appended(less, a.at, admitted && limit > 0), a.at, span)
  {
    if limit > 0 {
      TracksPruned(AllTimes(before), events, less, latest, a.at, span);
      TimesAfter(before, a, admitted, a.customer);
    }
  }

  // ---------- Sorted sets ----------

  /** A sorted set with its expiry. Members are unique, so its scores are all a command can observe. */
  datatype Zset = Zset(scores: seq<int>, expiresAt: int)

  /** What a command sees of a key: nothing once it has expired. */
  function Scores(key: Option<Zset>, now: int): seq<int> {
    if key.Some? && now < key.value.expiresAt then key.value.scores else []
  }

  /** ZREMRANGEBYSCORE key -inf bound */
  function RemoveUpTo(scores: seq<int>, bound: int): seq<int> {
    if scores == [] then []
    else RemoveUpTo(Front(scores), bound) + if Last(scores) <= bound then [] else [Last(scores)]
  }

  /** ZCOUNT key low +inf */
  function ZCount(scores: seq<int>, low: int): nat {
    if scores == [] then 0
    else ZCount(Front(scores), low) + if Last(scores) >= low then 1 else 0
  }

  lemma {:induction false} ZCountIsTail(scores: seq<int>, low: int)
    ensures ZCount(scores, low) == CountAfter(scores, low - 1)
  {
    if scores != [] { ZCountIsTail(Front(scores), low); }
  }

  /** A key as the script sees it after its first command. */
  function LastDay(key: Option<Zset>, now: int, day: int): seq<int> {
    RemoveUpTo(Scores(key, now), now - day)
  }

  lemma {:induction false} RemoveAll(scores: seq<int>, bound: int)
    requires UpTo(scores, bound)
    ensures RemoveUpTo(scores, bound) == []
  {
    if scores != [] { RemoveAll(Front(scores), bound); }
  }

  /** On a chronological set, removing by score drops a prefix, and exactly the old part. */
  lemma {:induction false} RemoveUpToPrunes(scores: seq<int>, bound: int)
    requires Sorted(scores)
    ensures Pruned(scores, RemoveUpTo(scores, bound), bound)
    ensures AllRecent(RemoveUpTo(scores, bound), bound)
  {
    if scores != [] {
      RemoveUpToPrunes(Front(scores), bound);
      if Last(scores) <= bound {
        UpToLater(Front(scores), Last(scores), bound);
        RemoveAll(Front(scores), bound);
      } else {
        assert Front(RemoveUpTo(scores, bound)) == RemoveUpTo(Front(scores), bound);
      }
    }
  }

  /** How much longer than a day PEXPIRE keeps a key. */
  const GRACE := 60000

  /** The key stands for `times`, and will outlive every one of them by at least a day. */
  ghost predicate KeyTracks(times: seq<int>, key: Option<Zset>, latest: int, day: int) {
    match key
    case None => Tracks(times, [], latest, day)
    case Some(z) => Tracks(times, z.scores, latest, day) && UpTo(times, z.expiresAt - day)
  }

  function KeyIn(keys: map<string, Zset>, customer: string): Option<Zset> {
    if customer in keys then Some(keys[customer]) else None
  }

  function WithKey(keys: map<string, Zset>, customer: string, key: Option<Zset>): map<string, Zset> {
    if key.Some? then keys[customer := key.value] else keys - {customer}
  }

  ghost predicate AllKeysTrack(history: seq<Admission>, keys: map<string, Zset>, latest: int, day: int) {
    forall c :: KeyTracks(TimesOf(history, c), KeyIn(keys, c), latest, day)
  }

  ghost predicate GlobalKeyTracks(limit: nat, history: seq<Admission>, key: Option<Zset>, latest: int, day: int) {
    limit > 0 ==> KeyTracks(AllTimes(history), key, latest, day)
  }

  /** Expiry loses only events older than a day. */
  lemma LiveScores(times: seq<int>, key: Option<Zset>, latest: int, now: int, day: int)
    requires KeyTracks(times, key, latest, day) && latest <= now
    ensures Tracks(times, Scores(key, now), now, day)
  {
    var kept := if key.Some? then key.value.scores else [];
    PrunedNone(kept, now - day);
    TracksPruned(times, kept, kept, latest, now, day);
    if key.Some? && now >= key.value.expiresAt { UpToLater(times, key.value.expiresAt - day, now - day); }
  }

  /** Removal by score too, and what remains is exactly the last day. */
  lemma LastDayTracks(times: seq<int>, key: Option<Zset>, latest: int, now: int, day: int)
    requires KeyTracks(times, key, latest, day) && latest <= now
    ensures Tracks(times, Scores(key, now), now, day)
    ensures PrunedExactly(Scores(key, now), LastDay(key, now, day), now - day)
  {
    LiveScores(times, key, latest, now, day);
    PrunedSorted(times, Scores(key, now), now - day, now);
    RemoveUpToPrunes(Scores(key, now), now - day);
  }

  /** The script's counts are those of the whole history. */
  lemma KeyCounts(times: seq<int>, key: Option<Zset>, latest: int, now: int, w: Widths)
    requires KeyTracks(times, key, latest, w.day) && latest <= now && Nested(w)
    ensures ZCount(LastDay(key, now, w.day), now - w.minute) == CountAfter(times, now - Closed(w).minute)
    ensures ZCount(LastDay(key, now, w.day), now - w.hour) == CountAfter(times, now - Closed(w).hour)
    ensures |LastDay(key, now, w.day)| == CountAfter(times, now - w.day)
  {
    LastDayTracks(times, key, latest, now, w.day);
    var live, scores := Scores(key, now), LastDay(key, now, w.day);
    PrunedCounts(times, live, scores, now, now, w.day, now - w.minute - 1);
    PrunedCounts(times, live, scores, now, now, w.day, now - w.hour - 1);
    ZCountIsTail(scores, now - w.minute);
    ZCountIsTail(scores, now - w.hour);
  }

  /** The key after ZREMRANGEBYSCORE and, on admission, ZADD and PEXPIRE. */
  function Updated(key: Option<Zset>, now: int, day: int, admitted: bool): Option<Zset> {
    var scores := LastDay(key, now, day);
    if admitted then Some(Zset(scores + [now], now + day + GRACE))
    else if key.None? || now >= key.value.expiresAt then None
    else Some(key.value.(scores := scores))
  }

  lemma KeyAfterTurn(times: seq<int>, key: Option<Zset>, latest: int, now: int, day: int, admitted: bool)
    requires KeyTracks(times, key, latest, day) && latest <= now
    ensures KeyTracks(Appended(times, now, admitted), Updated(key, now, day, admitted), now, day)
  {
    LastDayTracks(times, key, latest, now, day);
    TracksPruned(times, Scores(key, now), LastDay(key, now, day), now, now, day);
    if admitted {
      assert Front(times + [now]) == times;
      UpToLater(times, latest, now + GRACE);
    }
  }

  lemma KeyUntouched(times: seq<int>, key: Option<Zset>, latest: int, now: int, day: int)
    requires KeyTracks(times, key, latest, day) && latest <= now
    ensures KeyTracks(times, key, now, day)
  {
    var kept := if key.Some? then key.value.scores else [];
    PrunedNone(kept, now - day);
    TracksPruned(times, kept, kept, latest, now, day);
  }

  lemma KeysAfterTurn(before: seq<Admission>, keys: map<string, Zset>, latest: int, day: int, a: Admission,
                      admitted: bool)
    requires AllKeysTrack(before, keys, latest, day) && latest <= a.at
    ensures AllKeysTrack(After(before, a, admitted),
                         WithKey(keys, a.customer, Updated(KeyIn(keys, a.customer), a.at, day, admitted)), a.at, day)
  {
    var keys' := WithKey(keys, a.customer, Updated(KeyIn(keys, a.customer), a.at, day, admitted));
    forall c ensures KeyTracks(TimesOf(After(before, a, admitted), c), KeyIn(keys', c), a.at, day) {
      assert KeyTracks(TimesOf(before, c), KeyIn(keys, c), latest, day);
      TimesAfter(before, a, admitted, c);
      if c == a.customer {
        KeyAfterTurn(TimesOf(before, c), KeyIn(keys, c), latest, a.at, day, admitted);
      } else {
        KeyUntouched(TimesOf(before, c), KeyIn(keys, c), latest, a.at, day);
      }
    }
  }

  // ---------- Notices and the login throttle ----------

  ghost predicate NoticesOk(notices: map<string, seq<int>>, until: map<string, int>, cooldown: int) {
    forall c :: NoticesSpaced(Events(notices, c), cooldown) && NoticesRemembered(Events(notices, c), until, c, cooldown)
  }

  /** Each notice comes at least the cooldown after the one before it. */
  ghost predicate NoticesSpaced(at: seq<int>, cooldown: int) {
    |at| <= 1 || (Last(Front(at)) + cooldown <= Last(at) && NoticesSpaced(Front(at), cooldown))
  }

  ghost predicate NoticesRemembered(at: seq<int>, until: map<string, int>, customer: string, cooldown: int) {
    at != [] ==> customer in until && Last(at) + cooldown <= until[customer]
  }

  /** So any two notices to one customer are at least the cooldown apart. */
  lemma {:induction false} NoticesApart(at: seq<int>, cooldown: int, i: nat, j: nat)
    requires NoticesSpaced(at, cooldown) && cooldown >= 0 && i < j < |at|
    ensures at[i] + cooldown <= at[j]
  {
    if j < |at| - 1 {
      NoticesApart(Front(at), cooldown, i, j);
    } else if i < j - 1 {
      NoticesApart(Front(at), cooldown, i, j - 1);
    }
  }

  ghost predicate AllAtMost(history: seq<Admission>, window: nat, max: int) {
    forall c, t :: AtMost(TimesOf(history, c), window, t, max)
  }

  /** At most max events in the closed window [t - window, t]. */
  predicate AtMost(times: seq<int>, window: nat, t: int, max: int) {
    CountWithin(times, t - window - 1, t) <= if max > 0 then max else 0
  }

  /** An event allowed below the maximum keeps every closed window of every key within it. */
  lemma AtMostAfterTurn(before: seq<Admission>, window: nat, max: int, a: Admission, allowed: bool)
    requires AllAtMost(before, window, max)
    requires allowed ==> CountAfter(TimesOf(before, a.customer), a.at - window - 1) < max
    ensures AllAtMost(After(before, a, allowed), window, max)
  {
    forall c, t ensures AtMost(TimesOf(After(before, a, allowed), c), window, t, max) {
      var times := TimesOf(before, c);
      assert AtMost(times, window, t, max);
      TimesAfter(before, a, allowed, c);
      if allowed && c == a.customer { WindowStaysBounded(times, a.at, window + 1, max, t); }
    }
  }

  lemma NoticeKeeps(notices: map<string, seq<int>>, until: map<string, int>, cooldown: int, customer: string, now: int)
    requires NoticesOk(notices, until, cooldown) && cooldown >= 0
    requires customer in until ==> until[customer] <= now
    ensures NoticesOk(notices[customer := Events(notices, customer) + [now]],
                      until[customer := now + cooldown], cooldown)
  {
    var at := Events(notices, customer);
    assert NoticesSpaced(at, cooldown) && NoticesRemembered(at, until, customer, cooldown);
    assert Front(at + [now]) == at;
    var notices' := notices[customer := at + [now]];
    forall c ensures NoticesSpaced(Events(notices', c), cooldown)
                     && NoticesRemembered(Events(notices', c), until[customer := now + cooldown], c, cooldown)
    {
      assert NoticesSpaced(Events(notices, c), cooldown) && NoticesRemembered(Events(notices, c), until, c, cooldown);
    }
  }
}
