/** One turn against the pruned state: the decision, and the state it leaves, agree with the whole history. */
module QuotaTurns {
  import opened Prelude
  import opened Quotas
  import opened QuotaTracking

  /** A limit that is switched off does not look at its count. */
  lemma SwitchedOff(limits: Limits, minute: nat, hour: nat, day: nat, one: nat, other: nat)
    requires limits.globalDay == 0 || one == other
    ensures Verdict(limits, minute, hour, day, one) == Verdict(limits, minute, hour, day, other)
  {}

  // ---------- Deques ----------

  ghost predicate MemoryOk(limits: Limits, w: Widths, history: seq<Admission>,
                           events: map<string, seq<int>>, global: seq<int>, latest: int)
  {
    && AllTracked(history, events, latest, w.day)
    && GlobalTracked(limits.globalDay, history, global, latest, w.day)
    && Nested(w)
  }

  /** The four checks on lists that hold just the last day. */
  function DecidePruned(limits: Limits, w: Widths, events: seq<int>, globalCount: nat, now: int): Decision {
    Verdict(limits, CountAfter(events, now - w.minute), CountAfter(events, now - w.hour), |events|, globalCount)
  }

  lemma MemoryDecides(limits: Limits, w: Widths, history: seq<Admission>, events: map<string, seq<int>>,
                      global: seq<int>, latest: int, a: Admission, less: seq<int>, lessGlobal: seq<int>)
    requires AllTracked(history, events, latest, w.day)
    requires GlobalTracked(limits.globalDay, history, global, latest, w.day)
    requires Nested(w) && latest <= a.at
    requires PrunedExactly(Events(events, a.customer), less, a.at - w.day)
    requires PrunedExactly(global, lessGlobal, a.at - w.day)
    ensures DecidePruned(limits, w, less, |lessGlobal|, a.at) == Decide(limits, w, history, a.customer, a.at)
  {
    assert Tracks(TimesOf(history, a.customer), Events(events, a.customer), latest, w.day);
    CustomerCounts(TimesOf(history, a.customer), Events(events, a.customer), less, latest, a.at, w);
    if limits.globalDay > 0 { CustomerCounts(AllTimes(history), global, lessGlobal, latest, a.at, w); }
    SwitchedOff(limits, CountAfter(less, a.at - w.minute), CountAfter(less, a.at - w.hour), |less|,
                |lessGlobal|, CountAfter(AllTimes(history), a.at - w.day));
  }

  lemma MemoryTurn(limits: Limits, w: Widths, history: seq<Admission>, events: map<string, seq<int>>,
                   global: seq<int>, latest: int, a: Admission, d: Decision)
    requires MemoryOk(limits, w, history, events, global, latest) && latest <= a.at
    requires d == DecidePruned(limits, w, DropOld(Events(events, a.customer), a.at - w.day),
                               |DropOld(global, a.at - w.day)|, a.at)
    ensures d == Decide(limits, w, history, a.customer, a.at)
    ensures MemoryOk(limits, w, After(history, a, d.Admitted?),
                     events[a.customer :=
                              Appended(DropOld(Events(events, a.customer), a.at - w.day), a.at, d.Admitted?)],
                     Appended(DropOld(global, a.at - w.day), a.at, d.Admitted? && limits.globalDay > 0), a.at)
  {
    var less, lessGlobal := DropOld(Events(events, a.customer), a.at - w.day), DropOld(global, a.at - w.day);
    DropOldPrunes(Events(events, a.customer), a.at - w.day);
    DropOldPrunes(global, a.at - w.day);
    MemoryDecides(limits, w, history, events, global, latest, a, less, lessGlobal);
    TracksAfterTurn(history, events, latest, w.day, a, less, d.Admitted?);
    GlobalAfterTurn(limits.globalDay, history, global, latest, w.day, a, lessGlobal, d.Admitted?);
  }

  // ---------- Sorted sets ----------

  ghost predicate ScriptOk(limits: Limits, w: Widths, history: seq<Admission>,
                           keys: map<string, Zset>, global: Option<Zset>, latest: int)
  {
    && AllKeysTrack(history, keys, latest, w.day)
    && GlobalKeyTracks(limits.globalDay, history, global, latest, w.day)
    && Nested(w)
  }

  /** The four checks of the script after its ZREMRANGEBYSCORE commands. */
  function DecideScript(limits: Limits, w: Widths, mine: seq<int>, globalCount: nat, now: int): Decision {
    Verdict(limits, ZCount(mine, now - w.minute), ZCount(mine, now - w.hour), |mine|, globalCount)
  }

  /** Equal counts of the customer's windows, and of everybody's unless it is off, decide alike. */
  lemma CountsDecide(limits: Limits, w: Widths, history: seq<Admission>, a: Admission, mine: seq<int>, everyone: nat)
    requires ZCount(mine, a.at - w.minute) == CountAfter(TimesOf(history, a.customer), a.at - Closed(w).minute)
    requires ZCount(mine, a.at - w.hour) == CountAfter(TimesOf(history, a.customer), a.at - Closed(w).hour)
    requires |mine| == CountAfter(TimesOf(history, a.customer), a.at - w.day)
    requires limits.globalDay == 0 || everyone == CountAfter(AllTimes(history), a.at - w.day)
    ensures DecideScript(limits, w, mine, everyone, a.at) == Decide(limits, Closed(w), history, a.customer, a.at)
  {}

  lemma EverybodyCounts(limit: nat, w: Widths, history: seq<Admission>, global: Option<Zset>, latest: int, now: int)
    requires GlobalKeyTracks(limit, history, global, latest, w.day) && Nested(w) && latest <= now
    ensures limit == 0 || |LastDay(global, now, w.day)| == CountAfter(AllTimes(history), now - w.day)
  {
    if limit > 0 { KeyCounts(AllTimes(history), global, latest, now, w); }
  }

  lemma ScriptTurn(limits: Limits, w: Widths, history: seq<Admission>, keys: map<string, Zset>,
                   global: Option<Zset>, latest: int, a: Admission, d: Decision)
    requires ScriptOk(limits, w, history, keys, global, latest) && latest <= a.at
    requires d == DecideScript(limits, w, LastDay(KeyIn(keys, a.customer), a.at, w.day),
                               |LastDay(global, a.at, w.day)|, a.at)
    ensures d == Decide(limits, Closed(w), history, a.customer, a.at)
    ensures ScriptOk(limits, w, After(history, a, d.Admitted?),
                     WithKey(keys, a.customer, Updated(KeyIn(keys, a.customer), a.at, w.day, d.Admitted?)),
                     if limits.globalDay > 0 then Updated(global, a.at, w.day, d.Admitted?) else global, a.at)
  {
    assert KeyTracks(TimesOf(history, a.customer), KeyIn(keys, a.customer), latest, w.day);
    KeyCounts(TimesOf(history, a.customer), KeyIn(keys, a.customer), latest, a.at, w);
    EverybodyCounts(limits.globalDay, w, history, global, latest, a.at);
    CountsDecide(limits, w, history, a, LastDay(KeyIn(keys, a.customer), a.at, w.day), |LastDay(global, a.at, w.day)|);
    KeysAfterTurn(history, keys, latest, w.day, a, d.Admitted?);
    if limits.globalDay > 0 {
      KeyAfterTurn(AllTimes(history), global, latest, a.at, w.day, d.Admitted?);
      TimesAfter(history, a, d.Admitted?, a.customer);
    }
  }
}
