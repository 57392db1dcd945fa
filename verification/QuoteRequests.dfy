/** Which message leads to which answer: from the words of a turn and what is remembered to what is served or asked. */
module QuoteRequests {
  import opened Prelude
  import opened QuoteContext
  import opened QuoteProvenance

  /** What a turn was answered as: the kind of its lookup or of its question; NoRequest leaves it to the AI. */
  function Served(r: Result): Kind {
    if r.lookup.Some? then r.lookup.value.kind
    else if r.asked.Some? then r.asked.value.kind
    else NoRequest
  }

  // ---------- What is remembered ----------

  /** A context counts for the configured time, at least a minute; one without a time always counts. */
  predicate Counts(s: Option<Slots>, at: Option<int>, now: int, ttl: int) {
    s.Some? && (at.None? || (now >= at.value && (now <= at.value + 60 || now <= at.value + ttl)))
  }

  predicate HasContext(c: Context, i: Turn, ttl: int) {
    Counts(c.pending, c.pendingAt, i.now, ttl) || Counts(c.last, c.lastAt, i.now, ttl)
  }

  /** The pending context, or else the last one, carries a weight and a category of goods. */
  predicate HasPriceContext(c: Context, i: Turn, ttl: int) {
    if Counts(c.pending, c.pendingAt, i.now, ttl) then CarriesPrice(c.pending.value)
    else Counts(c.last, c.lastAt, i.now, ttl) && CarriesPrice(c.last.value)
  }

  predicate CarriesPrice(s: Slots) {
    && s.weight.Some? && Strip(s.weight.value.text) != []
    && s.goods.Some? && Strip(s.goods.value.text) != []
  }

  /** Local extraction found a country, a category or a method. */
  predicate NamesRoute(i: Turn) {
    exists k :: k != Weight && Get(i.local, k).Some? && Get(i.local, k).value != ""
  }

  /** The turn says a country, a category or a method. */
  predicate SaysRoute(i: Turn) {
    exists k :: k != Weight && Get(Explicit(i), k).Some? && Get(Explicit(i), k).value != ""
  }

  lemma NamesRouteIs(f: Fields)
    ensures AnyRoute(f) <==> exists k :: k != Weight && Get(f, k).Some? && Get(f, k).value != ""
  {
    if k :| k != Weight && Get(f, k).Some? && Get(f, k).value != "" {
      assert k == Origin || k == Destination || k == Goods || k == ShippingMethod;
    }
    assert Get(f, Origin) == f.origin && Get(f, Destination) == f.destination;
    assert Get(f, Goods) == f.goods && Get(f, ShippingMethod) == f.shippingMethod;
  }

  // ---------- The kind of the answer ----------

  /** The words or the remembered price settle that a price is asked for, whatever the model reads. */
  predicate SurelyPrice(c: Context, i: Turn, ttl: int) {
    i.words.price
    || (!i.words.transit && !i.words.options && HasPriceContext(c, i, ttl)
        && (i.local.weight.Some? || (NamesRoute(i) && (i.words.followup || !i.words.shipping))))
  }

  /** Nothing settles the kind: no price, transit or options word, and no remembered price that goes on. */
  predicate Unsettled(c: Context, i: Turn, ttl: int) {
    !i.words.transit && !i.words.options && !SurelyPrice(c, i, ttl)
  }

  /** The message may still be about shipping: it says so, or it goes on with what is remembered. */
  predicate MayBeShipping(c: Context, i: Turn, ttl: int) {
    i.words.shipping || (HasContext(c, i, ttl) && (i.local.weight.Some? || NamesRoute(i) || i.words.followup))
  }

  lemma ServedKind(c: Context, i: Turn, turn: nat, ttl: int)
    requires !i.empty
    ensures var kept := Expire(c, i.now, ttl);
            Served(Handle(c, i, turn, ttl)) == RequestKind(i, SafeState(kept.pending), SafeState(kept.last))
  {}

  lemma Remembered(c: Context, i: Turn, ttl: int)
    ensures var kept := Expire(c, i.now, ttl);
            var pending, last := SafeState(kept.pending), SafeState(kept.last);
            && (pending.Some? <==> Counts(c.pending, c.pendingAt, i.now, ttl))
            && (last.Some? <==> Counts(c.last, c.lastAt, i.now, ttl))
            && (PriceContext(Current(pending, last)) <==> HasPriceContext(c, i, ttl))
            && (AnyRoute(i.local) <==> NamesRoute(i))
  {
    NamesRouteIs(i.local);
  }

  /**
   A price word gets a price: a lookup, or the question for what it misses. Without one, a transit word
   gets a delivery time; without either, an options word gets the routes. What the model reads does not
   matter, nor whether it is asked.
   */
  lemma WordsDecide(c: Context, i: Turn, turn: nat, ttl: int)
    requires !i.empty
    ensures i.words.price ==> Served(Handle(c, i, turn, ttl)) == PriceQuote
    ensures !i.words.price && i.words.transit ==> Served(Handle(c, i, turn, ttl)) == TransitTime
    ensures !i.words.price && !i.words.transit && i.words.options ==> Served(Handle(c, i, turn, ttl)) == RouteOptions
    ensures SurelyPrice(c, i, ttl) ==> Served(Handle(c, i, turn, ttl)) == PriceQuote
  {
    ServedKind(c, i, turn, ttl);
    Remembered(c, i, ttl);
  }

  /** Otherwise the model decides when it sees a catalogue request, and else what was found locally. */
  lemma UnsettledServed(c: Context, i: Turn, turn: nat, ttl: int)
    requires !i.empty && Unsettled(c, i, ttl)
    ensures var r := Served(Handle(c, i, turn, ttl));
            && (!i.semanticEnabled || !MayBeShipping(c, i, ttl) ==> r == NoRequest)
            && (i.semanticEnabled && MayBeShipping(c, i, ttl) ==>
                  if i.semantic.Some? && i.semantic.value.isCatalogRequest then r == i.semantic.value.kind
                  else if i.words.shipping then r == if i.local.weight.Some? then PriceQuote else RouteOptions
                  else r == if i.local.weight.Some? || NamesRoute(i) then PriceQuote else NoRequest)
  {
    ServedKind(c, i, turn, ttl);
    Remembered(c, i, ttl);
  }

  /** So this is exactly when a turn is left to the AI without a lookup or a question. */
  lemma LeftToAiExactly(c: Context, i: Turn, turn: nat, ttl: int)
    ensures var r := Handle(c, i, turn, ttl);
            r.lookup.None? && r.asked.None?
            <==> i.empty
                 || (Unsettled(c, i, ttl)
                     && (|| !i.semanticEnabled || !MayBeShipping(c, i, ttl)
                         || if i.semantic.Some? && i.semantic.value.isCatalogRequest
                            then i.semantic.value.kind == NoRequest
                            else !i.words.shipping && i.local.weight.None? && !NamesRoute(i)))
  {
    if !i.empty {
      WordsDecide(c, i, turn, ttl);
      if Unsettled(c, i, ttl) { UnsettledServed(c, i, turn, ttl); }
      NeverServedAsNothing(c, i, turn, ttl);
    }
  }

  lemma NeverServedAsNothing(c: Context, i: Turn, turn: nat, ttl: int)
    ensures var r := Handle(c, i, turn, ttl); Served(r) == NoRequest <==> r.lookup.None? && r.asked.None?
  {}

  // ---------- The question ----------

  /** What a lookup of this turn would use for a field: what it says, else what is carried over. */
  function Known(c: Context, i: Turn, turn: nat, ttl: int, k: Field): Option<Value> {
    if Get(Explicit(i), k).Some? then SaidNow(Get(Explicit(i), k), turn) else Carried(c, i, ttl, k)
  }

  /** What a price needs, and what a delivery time needs. */
  predicate Needs(kind: Kind, k: Field) {
    if kind == TransitTime then k == Origin || k == Destination else k != ShippingMethod
  }

  /** The order in which missing fields are asked for. */
  function Place(k: Field): nat {
    match k
    case Origin => 0
    case Destination => 1
    case Goods => 2
    case Weight => 3
    case ShippingMethod => 4
  }

  lemma MissingInTransit(s: Slots)
    ensures Missing(s, FOR_TRANSIT) == if s.origin.None? then Some(Origin)
                                       else if s.destination.None? then Some(Destination) else None
  {
    assert FOR_TRANSIT[1..] == [Destination] && [Destination][1..] == [];
    assert Missing(s, [Destination]) == if s.destination.None? then Some(Destination) else None;
  }

  lemma MissingInPrice(s: Slots)
    ensures Missing(s, FOR_PRICE) == if s.origin.None? then Some(Origin)
                                     else if s.destination.None? then Some(Destination)
                                     else if s.goods.None? then Some(Goods)
                                     else if s.weight.None? then Some(Weight) else None
  {
    assert FOR_PRICE[1..] == [Destination, Goods, Weight] && [Destination, Goods, Weight][1..] == [Goods, Weight];
    assert [Goods, Weight][1..] == [Weight] && [Weight][1..] == [];
    assert Missing(s, [Weight]) == if s.weight.None? then Some(Weight) else None;
    assert Missing(s, [Goods, Weight]) == if s.goods.None? then Some(Goods) else Missing(s, [Weight]);
  }

  /**
   A price or a delivery time is looked up exactly when everything it needs is known, by this turn or from
   what is remembered; otherwise the first field that is not is asked for.
   */
  lemma AskedExactly(c: Context, i: Turn, turn: nat, ttl: int, k: Field)
    requires var kind := Served(Handle(c, i, turn, ttl)); kind == PriceQuote || kind == TransitTime
    ensures var r := Handle(c, i, turn, ttl);
            && (r.asked.Some? <==> r.lookup.None?)
            && (r.asked.Some? ==>
                  (r.asked.value.missing == k
                   <==> && Needs(r.asked.value.kind, k) && Known(c, i, turn, ttl, k).None?
                        && forall j :: Needs(r.asked.value.kind, j) && Place(j) < Place(k) ==>
                             Known(c, i, turn, ttl, j).Some?))
            && (r.lookup.Some? && Needs(r.lookup.value.kind, k) ==> Known(c, i, turn, ttl, k).Some?)
  {
    var kept := Expire(c, i.now, ttl);
    var pending, last := SafeState(kept.pending), SafeState(kept.last);
    var s := Merged(Base(i, pending, last), Explicit(i), turn);
    ServedKind(c, i, turn, ttl);
    MissingInTransit(s);
    MissingInPrice(s);
    forall j | j != ShippingMethod ensures Slot(s, j) == Known(c, i, turn, ttl, j) {
      BaseIsCarried(c, i, ttl, j);
      MergedSlot(Base(i, pending, last), Explicit(i), turn, j);
    }
    assert Slot(s, Origin) == s.origin && Slot(s, Destination) == s.destination;
    assert Slot(s, Goods) == s.goods && Slot(s, Weight) == s.weight;
  }

  // ---------- What a turn says and carries ----------

  /** A field is said exactly when local extraction found it, or else the model marks it as said in this message. */
  lemma SaidExactly(i: Turn, k: Field, text: string)
    ensures var local := Get(i.local, k);
            var byModel := i.semanticEnabled && i.semantic.Some? && k in i.semantic.value.explicit
                           && Get(i.semantic.value.fields, k).Some? && Get(i.semantic.value.fields, k).value != "";
            Get(Explicit(i), k) == Some(text)
            <==> if local.Some? && (k == Weight || local.value != "") then text == local.value
                 else byModel && text == Get(i.semantic.value.fields, k).value
  {}

  /**
   Carried over is what the pending context holds; without one, what the last holds, if the message is
   short and names something of a route, or reads as a follow-up.
   */
  lemma CarriedExactly(c: Context, i: Turn, ttl: int, k: Field)
    ensures var pending, last := Counts(c.pending, c.pendingAt, i.now, ttl), Counts(c.last, c.lastAt, i.now, ttl);
            var follows := || i.words.followup
                           || (i.semanticEnabled && i.semantic.Some? && i.semantic.value.isFollowup)
                           || (i.words.short && SaysRoute(i));
            Carried(c, i, ttl, k) == if pending then SlotOf(Safe(c.pending.value), k)
                                     else if last && follows then SlotOf(Safe(c.last.value), k) else None
  {
    NamesRouteIs(Explicit(i));
  }

  // ---------- What is remembered afterwards ----------

  /** A question keeps everything known for the next turn. */
  lemma QuestionKeeps(c: Context, i: Turn, turn: nat, ttl: int, k: Field)
    requires Handle(c, i, turn, ttl).asked.Some?
    ensures var r := Handle(c, i, turn, ttl);
            && r.replied && r.context.pending.Some? && r.context.pendingAt == Some(i.now)
            && SlotOf(r.context.pending.value, k) == Clean(Known(c, i, turn, ttl, k))
  {
    var kept := Expire(c, i.now, ttl);
    var pending, last := SafeState(kept.pending), SafeState(kept.last);
    var s := Merged(Base(i, pending, last), Explicit(i), turn);
    ServedKind(c, i, turn, ttl);
    AskedMarks(kept, s, i, turn);
    BaseIsCarried(c, i, ttl, k);
    MergedSlot(Base(i, pending, last), Explicit(i), turn, k);
    SafeSlot(s, k);
  }

  lemma AskedMarks(c: Context, s: Slots, i: Turn, turn: nat)
    ensures TransitTurn(c, s, i).asked.Some? ==>
              TransitTurn(c, s, i).replied && TransitTurn(c, s, i).context == MarkPending(c, s, i.now)
    ensures PriceTurn(c, s, i, turn).asked.Some? ==>
              PriceTurn(c, s, i, turn).replied && PriceTurn(c, s, i, turn).context == MarkPending(c, s, i.now)
  {}

  lemma SafeSlot(s: Slots, k: Field)
    ensures SlotOf(Safe(s), k) == Clean(SlotOf(s, k))
  {}

  /** An answered delivery time keeps everything known as the last context. */
  lemma TransitKeeps(c: Context, i: Turn, turn: nat, ttl: int, k: Field)
    requires var r := Handle(c, i, turn, ttl); r.lookup.Some? && r.lookup.value.kind == TransitTime && r.replied
    ensures var r := Handle(c, i, turn, ttl);
            && r.context.pending.None? && r.context.last.Some? && r.context.lastAt == Some(i.now)
            && SlotOf(r.context.last.value, k) == Clean(Known(c, i, turn, ttl, k))
  {
    var kept := Expire(c, i.now, ttl);
    var pending, last := SafeState(kept.pending), SafeState(kept.last);
    ServedKind(c, i, turn, ttl);
    BaseIsCarried(c, i, ttl, k);
    MergedSlot(Base(i, pending, last), Explicit(i), turn, k);
    SafeSlot(Merged(Base(i, pending, last), Explicit(i), turn), k);
  }

  /** Listed routes leave only what this turn says of a route, and nothing if it says nothing. */
  lemma RoutesKeep(c: Context, i: Turn, turn: nat, ttl: int, k: Field)
    requires var r := Handle(c, i, turn, ttl); r.lookup.Some? && r.lookup.value.kind == RouteOptions && r.replied
    ensures var r := Handle(c, i, turn, ttl);
            && r.context.pending.None?
            && (r.context.last.Some? <==> SaysRoute(i))
            && (r.context.last.Some? ==>
                  && r.context.lastAt == Some(i.now)
                  && SlotOf(r.context.last.value, k)
                     == if k == Weight then None else Clean(SaidNow(Get(Explicit(i), k), turn)))
  {
    ServedKind(c, i, turn, ttl);
    NamesRouteIs(Explicit(i));
    SafeSlot(RouteContext(Explicit(i), turn), k);
  }

  /** A lookup that fails, or finds nothing to show, leaves the turn to the AI and the contexts as they were. */
  lemma FailureKeeps(c: Context, i: Turn, turn: nat, ttl: int)
    requires var r := Handle(c, i, turn, ttl); r.lookup.Some?
    ensures var r := Handle(c, i, turn, ttl);
            && (!r.replied <==> i.found.error || !i.found.rendered)
            && (!r.replied ==>
                  && r.context.last == (if Counts(c.last, c.lastAt, i.now, ttl) then c.last else None)
                  && r.context.pending == if r.lookup.value.kind != RouteOptions
                                             && Counts(c.pending, c.pendingAt, i.now, ttl)
                                          then c.pending else None)
  {
    ServedKind(c, i, turn, ttl);
  }
}
