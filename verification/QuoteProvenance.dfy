/** Where the filters of every catalogue lookup come from, over any conversation. */
module QuoteProvenance {
  import opened Prelude
  import opened QuoteContext

  function FilterOf(l: Lookup, k: Field): Option<Value> {
    match k
    case Origin => l.origin
    case Destination => l.destination
    case Goods => l.goods
    case ShippingMethod => l.shippingMethod
    case Weight => l.weight
  }

  /** A text as it was given, or cleaned once or more on its way through the contexts. */
  predicate Renders(text: string, given: string) {
    text == given || text == CleanText(given) || text == CleanText(CleanText(given))
  }

  /** The value's text was said for this field in its turn, or given for it by the row that turn's lookup found. */
  predicate From(turns: seq<Turn>, v: Option<Value>, k: Field) {
    v.Some? ==>
      match v.value.source
      case Customer(t, said) => t < |turns| && Get(Explicit(turns[t]), k) == Some(said) && Renders(v.value.text, said)
      case Database(t) =>
        t < |turns| && k != ShippingMethod && Get(turns[t].found.row, k).Some?
        && Renders(v.value.text, Get(turns[t].found.row, k).value)
  }

  // ---------- Cleaning ----------

  /** A cleaned value is a piece of the given text, at most 191 characters long, without its outer spaces. */
  lemma CleanTextIs(s: string) returns (i: nat, j: nat)
    ensures i <= j <= |s| && CleanText(s) == s[i..j] && j - i <= 191
    ensures forall q :: 0 <= q < i ==> IsSpace(s[q])
    ensures j - i < 191 ==> forall q :: j <= q < |s| ==> IsSpace(s[q])
    ensures j - i > 0 ==> !IsSpace(s[i])
  {
    var end;
    i, end := StripIs(s);
    j := if end - i > 191 then i + 191 else end;
    assert s[i..end][..j - i] == s[i..j];
  }

  /** From the second cleaning on nothing changes. */
  lemma CleaningSettles(s: string)
    ensures CleanText(CleanText(CleanText(s))) == CleanText(CleanText(s))
  {
    var i, j := CleanTextIs(s);
    var a, b := StripIs(CleanText(s));
    TrimmedStays(Strip(CleanText(s)));
  }

  lemma CleanRenders(v: Option<Value>, given: string)
    requires v.Some? && Renders(v.value.text, given)
    ensures Clean(v).Some? ==> Renders(Clean(v).value.text, given) && Clean(v).value.source == v.value.source
  {
    CleaningSettles(given);
  }

  // ---------- Provenance over runs ----------

  ghost predicate AllFrom(turns: seq<Turn>, s: Slots) {
    forall k :: From(turns, Slot(s, k), k)
  }

  ghost predicate ContextFrom(turns: seq<Turn>, c: Context) {
    (c.pending.Some? ==> AllFrom(turns, c.pending.value)) && (c.last.Some? ==> AllFrom(turns, c.last.value))
  }

  ghost predicate LookupFrom(turns: seq<Turn>, l: Option<Lookup>) {
    l.Some? ==> forall k :: From(turns, FilterOf(l.value, k), k)
  }

  ghost predicate ResultFrom(turns: seq<Turn>, r: Result) {
    ContextFrom(turns, r.context) && LookupFrom(turns, r.lookup)
  }

  lemma SafeFrom(turns: seq<Turn>, s: Slots)
    requires AllFrom(turns, s)
    ensures AllFrom(turns, Safe(s))
  {
    forall k ensures From(turns, Slot(Safe(s), k), k) {
      var v := Slot(s, k);
      assert Slot(Safe(s), k) == Clean(v) && From(turns, v, k);
      if v.Some? {
        match v.value.source
        case Customer(t, said) => CleanRenders(v, said);
        case Database(t) => CleanRenders(v, Get(turns[t].found.row, k).value);
      }
    }
  }

  lemma FromLater(turns: seq<Turn>, s: Slots, i: Turn)
    requires AllFrom(turns, s)
    ensures AllFrom(turns + [i], s)
  {
    forall k ensures From(turns + [i], Slot(s, k), k) { assert From(turns, Slot(s, k), k); }
  }

  lemma SaidFrom(turns: seq<Turn>, i: Turn, k: Field)
    ensures From(turns + [i], SaidNow(Get(Explicit(i), k), |turns|), k)
  {}

  lemma MergedFrom(turns: seq<Turn>, base: Slots, i: Turn)
    requires AllFrom(turns + [i], base)
    ensures AllFrom(turns + [i], Merged(base, Explicit(i), |turns|))
  {
    var s := Merged(base, Explicit(i), |turns|);
    forall k ensures From(turns + [i], Slot(s, k), k) {
      SaidFrom(turns, i, k);
      assert From(turns + [i], Slot(base, k), k);
      assert Slot(s, k) == SaidNow(Get(Explicit(i), k), |turns|) || Slot(s, k) == Slot(base, k) || Slot(s, k).None?;
    }
  }

  lemma RouteFrom(turns: seq<Turn>, i: Turn)
    ensures AllFrom(turns + [i], RouteContext(Explicit(i), |turns|))
  {
    var s := RouteContext(Explicit(i), |turns|);
    forall k ensures From(turns + [i], Slot(s, k), k) {
      SaidFrom(turns, i, k);
      assert Slot(s, k) == SaidNow(Get(Explicit(i), k), |turns|) || Slot(s, k).None?;
    }
  }

  lemma CompletedFrom(turns: seq<Turn>, s: Slots, i: Turn)
    requires AllFrom(turns + [i], s)
    ensures AllFrom(turns + [i], Completed(s, i.found.row, |turns|))
  {
    var done := Completed(s, i.found.row, |turns|);
    forall k ensures From(turns + [i], Slot(done, k), k) {
      assert From(turns + [i], Slot(s, k), k);
      assert k != ShippingMethod ==> Slot(done, k) == RowValue(Get(i.found.row, k), Slot(s, k), |turns|);
    }
  }

  /** Slots used as filters of a lookup. */
  lemma LookupOfSlots(turns: seq<Turn>, s: Slots, l: Lookup)
    requires AllFrom(turns, s)
    requires forall k :: FilterOf(l, k) == Slot(s, k) || FilterOf(l, k).None?
    ensures LookupFrom(turns, Some(l))
  {
    forall k ensures From(turns, FilterOf(l, k), k) { assert From(turns, Slot(s, k), k); }
  }

  lemma PriceTurnFrom(turns: seq<Turn>, c: Context, s: Slots, i: Turn, turn: nat)
    requires ContextFrom(turns, c) && AllFrom(turns, s) && AllFrom(turns, Completed(s, i.found.row, turn))
    ensures ResultFrom(turns, PriceTurn(c, s, i, turn))
  {
    SafeFrom(turns, s);
    SafeFrom(turns, Completed(s, i.found.row, turn));
    LookupOfSlots(turns, s, Lookup(PriceQuote, s.origin, s.destination, s.goods, Filter(s), s.weight));
  }

  lemma TransitTurnFrom(turns: seq<Turn>, c: Context, s: Slots, i: Turn)
    requires ContextFrom(turns, c) && AllFrom(turns, s)
    ensures ResultFrom(turns, TransitTurn(c, s, i))
  {
    SafeFrom(turns, s);
    LookupOfSlots(turns, s, Lookup(TransitTime, s.origin, s.destination, s.goods, Filter(s), None));
  }

  lemma RouteTurnFrom(turns: seq<Turn>, c: Context, i: Turn)
    requires ContextFrom(turns + [i], c)
    ensures ResultFrom(turns + [i], RouteTurn(c, i, |turns|))
  {
    var s := RouteContext(Explicit(i), |turns|);
    RouteFrom(turns, i);
    SafeFrom(turns + [i], s);
    LookupOfSlots(turns + [i], s, Lookup(RouteOptions, s.origin, s.destination, s.goods, s.shippingMethod, None));
  }

  /** What a turn may build on. */
  lemma BaseFrom(turns: seq<Turn>, c: Context, i: Turn)
    requires ContextFrom(turns, c)
    ensures AllFrom(turns + [i], Base(i, SafeState(c.pending), SafeState(c.last)))
  {
    if c.pending.Some? {
      SafeFrom(turns, c.pending.value);
      FromLater(turns, Safe(c.pending.value), i);
    }
    if c.last.Some? {
      SafeFrom(turns, c.last.value);
      FromLater(turns, Safe(c.last.value), i);
    }
  }

  lemma ContextLater(turns: seq<Turn>, c: Context, i: Turn, ttl: int)
    requires ContextFrom(turns, c)
    ensures ContextFrom(turns, Expire(c, i.now, ttl)) && ContextFrom(turns + [i], c)
    ensures ContextFrom(turns + [i], Expire(c, i.now, ttl))
  {
    if c.pending.Some? { FromLater(turns, c.pending.value, i); }
    if c.last.Some? { FromLater(turns, c.last.value, i); }
  }

  lemma HandleFrom(turns: seq<Turn>, c: Context, i: Turn, ttl: int)
    requires ContextFrom(turns, c)
    ensures ResultFrom(turns + [i], Handle(c, i, |turns|, ttl))
  {
    ContextLater(turns, c, i, ttl);
    if !i.empty {
      var kept := Expire(c, i.now, ttl);
      var pending, last := SafeState(kept.pending), SafeState(kept.last);
      BaseFrom(turns, kept, i);
      MergedFrom(turns, Base(i, pending, last), i);
      var s := Merged(Base(i, pending, last), Explicit(i), |turns|);
      CompletedFrom(turns, s, i);
      RouteTurnFrom(turns, kept, i);
      TransitTurnFrom(turns + [i], kept, s, i);
      PriceTurnFrom(turns + [i], kept, s, i, |turns|);
    }
  }

  lemma {:induction false} AfterFrom(turns: seq<Turn>, ttl: int)
    ensures ContextFrom(turns, After(turns, ttl))
  {
    if turns != [] {
      var n := |turns| - 1;
      AfterFrom(turns[..n], ttl);
      HandleFrom(turns[..n], After(turns[..n], ttl), turns[n], ttl);
      assert turns[..n] + [turns[n]] == turns;
    }
  }

  /**
   In any conversation the text of every filter of a lookup is one the customer said for that field in
   some turn, or one an earlier lookup's row gave for it, up to the cleaning of remembered values; a
   shipping method is always one the customer said.
   */
  lemma FiltersAreAccountedFor(turns: seq<Turn>, i: Turn, ttl: int, k: Field)
    requires Handle(After(turns, ttl), i, |turns|, ttl).lookup.Some?
    ensures var v := FilterOf(Handle(After(turns, ttl), i, |turns|, ttl).lookup.value, k);
            && From(turns + [i], v, k)
            && (v.Some? && k == ShippingMethod ==> v.value.source.Customer?)
  {
    AfterFrom(turns, ttl);
    HandleFrom(turns, After(turns, ttl), i, ttl);
  }

  // ---------- One turn ----------

  /** A method counts only while it is marked as named by the customer. */
  function SlotOf(s: Slots, k: Field): Option<Value> {
    if k == ShippingMethod then Filter(s) else Slot(s, k)
  }

  /** What a fresh context carries for a field: the pending one if there is one, else the last one for a follow-up. */
  function Carried(c: Context, i: Turn, ttl: int, k: Field): Option<Value> {
    if c.pending.Some? && IsFresh(c.pendingAt, i.now, ttl) then SlotOf(Safe(c.pending.value), k)
    else if c.last.Some? && IsFresh(c.lastAt, i.now, ttl) && IsFollowup(i, true, false) then
      SlotOf(Safe(c.last.value), k)
    else None
  }

  lemma BaseIsCarried(c: Context, i: Turn, ttl: int, k: Field)
    ensures var kept := Expire(c, i.now, ttl);
            SlotOf(Base(i, SafeState(kept.pending), SafeState(kept.last)), k) == Carried(c, i, ttl, k)
  {
    assert SlotOf(NO_SLOTS, k) == None;
  }

  lemma MergedSlot(base: Slots, e: Fields, turn: nat, k: Field)
    ensures SlotOf(Merged(base, e, turn), k) == if Get(e, k).Some? then SaidNow(Get(e, k), turn) else SlotOf(base, k)
  {}

  lemma RouteFilters(c: Context, i: Turn, turn: nat, k: Field)
    ensures var l := RouteTurn(c, i, turn).lookup.value;
            FilterOf(l, k) == if k == Weight then None else SaidNow(Get(Explicit(i), k), turn)
  {}

  lemma TransitFilters(c: Context, s: Slots, i: Turn, k: Field)
    requires TransitTurn(c, s, i).lookup.Some? && k != Weight
    ensures FilterOf(TransitTurn(c, s, i).lookup.value, k) == SlotOf(s, k)
  {}

  lemma PriceFilters(c: Context, s: Slots, i: Turn, turn: nat, k: Field)
    requires PriceTurn(c, s, i, turn).lookup.Some?
    ensures FilterOf(PriceTurn(c, s, i, turn).lookup.value, k) == SlotOf(s, k)
  {}

  /**
   A filter is this turn's own value when it has one; else what a context still within its time
   carries. A listing of route options uses this turn's values only.
   */
  lemma CurrentTurnWins(c: Context, i: Turn, turn: nat, ttl: int, k: Field)
    requires Handle(c, i, turn, ttl).lookup.Some?
    ensures var l := Handle(c, i, turn, ttl).lookup.value;
            var said := Get(Explicit(i), k);
            && (l.kind == RouteOptions ==> FilterOf(l, k) == if k == Weight then None else SaidNow(said, turn))
            && (l.kind == PriceQuote || (l.kind == TransitTime && k != Weight) ==>
                  FilterOf(l, k) == if said.Some? then SaidNow(said, turn) else Carried(c, i, ttl, k))
  {
    var kept := Expire(c, i.now, ttl);
    var pending, last := SafeState(kept.pending), SafeState(kept.last);
    var s := Merged(Base(i, pending, last), Explicit(i), turn);
    BaseIsCarried(c, i, ttl, k);
    MergedSlot(Base(i, pending, last), Explicit(i), turn, k);
    match RequestKind(i, pending, last)
    case RouteOptions => RouteFilters(kept, i, turn, k);
    case TransitTime => if k != Weight { TransitFilters(kept, s, i, k); }
    case PriceQuote => PriceFilters(kept, s, i, turn, k);
  }

  // ---------- What is remembered ----------

  /**
   An answered turn leaves a pending context exactly when it asked for a missing field or showed prices
   that do not match every filter.
   */
  lemma PendingExactly(c: Context, i: Turn, turn: nat, ttl: int)
    requires Handle(c, i, turn, ttl).replied
    ensures var r := Handle(c, i, turn, ttl);
            r.context.pending.Some? <==> r.lookup.None? || (r.lookup.value.kind == PriceQuote && !i.found.matched)
  {}

  /** The context an answered lookup writes. */
  function Written(c: Context, l: Lookup, i: Turn): Option<Slots> {
    if l.kind == PriceQuote && !i.found.matched then c.pending else c.last
  }

  /** For the next turn a field is what the lookup was given or, after a matching price, what its row says. */
  lemma LookupIsRemembered(c: Context, i: Turn, turn: nat, ttl: int, k: Field)
    requires Handle(c, i, turn, ttl).replied && Handle(c, i, turn, ttl).lookup.Some?
    requires Handle(c, i, turn, ttl).lookup.value.kind == PriceQuote
    ensures var r := Handle(c, i, turn, ttl);
            var l := r.lookup.value;
            var written := Written(r.context, l, i);
            && written.Some?
            && SlotOf(written.value, k)
               == Clean(if i.found.matched && k != ShippingMethod
                        then RowValue(Get(i.found.row, k), FilterOf(l, k), turn) else FilterOf(l, k))
  {
    var kept := Expire(c, i.now, ttl);
    var pending, last := SafeState(kept.pending), SafeState(kept.last);
    var s := Merged(Base(i, pending, last), Explicit(i), turn);
    match RequestKind(i, pending, last)
    case PriceQuote => PriceRemembered(kept, s, i, turn, k);
    case _ =>
  }

  lemma PriceRemembered(c: Context, s: Slots, i: Turn, turn: nat, k: Field)
    requires PriceTurn(c, s, i, turn).replied && PriceTurn(c, s, i, turn).lookup.Some?
    ensures var r := PriceTurn(c, s, i, turn);
            var l := r.lookup.value;
            var written := Written(r.context, l, i);
            && written.Some?
            && SlotOf(written.value, k)
               == Clean(if i.found.matched && k != ShippingMethod
                        then RowValue(Get(i.found.row, k), FilterOf(l, k), turn) else FilterOf(l, k))
  {}
}
