/** The quote fields of a `Conversation`, updated in place by `maybe_handle_shipping_quote`. */
module QuoteSession {
  import opened Prelude
  import opened QuoteContext

  const ROUTE_KEYS := [Origin, Destination, Goods, ShippingMethod]
  const SEMANTIC_KEYS := [Origin, Destination, Goods, ShippingMethod, Weight]

  lemma AllKeys()
    ensures forall k :: k in SEMANTIC_KEYS
    ensures forall k :: k in ROUTE_KEYS <==> k != Weight
  {
    var route, all := ROUTE_KEYS, SEMANTIC_KEYS;
    assert route[0] == Origin && route[1] == Destination && route[2] == Goods && route[3] == ShippingMethod;
    assert all[0] == Origin && all[1] == Destination && all[2] == Goods && all[3] == ShippingMethod && all[4] == Weight;
    assert |route| == 4;
    forall k: Field ensures k in SEMANTIC_KEYS {
      match k
      case Origin => assert all[0] == k;
      case Destination => assert all[1] == k;
      case Goods => assert all[2] == k;
      case ShippingMethod => assert all[3] == k;
      case Weight => assert all[4] == k;
    }
  }

  /** The first required field that the slots lack. */
  method FirstMissing(s: Slots, required: seq<Field>) returns (missing: Option<Field>)
    ensures missing == Missing(s, required)
    ensures missing.None? <==> forall k :: k in required ==> Slot(s, k).Some?
    ensures missing.Some? ==>
              exists n :: && 0 <= n < |required| && required[n] == missing.value && Slot(s, required[n]).None?
                          && forall m :: 0 <= m < n ==> Slot(s, required[m]).Some?
  {
    assert required[0..] == required;
    for n := 0 to |required|
      invariant Missing(s, required) == Missing(s, required[n..])
      invariant forall m :: 0 <= m < n ==> Slot(s, required[m]).Some?
    {
      assert required[n..][0] == required[n] && required[n..][1..] == required[n + 1..];
      if Slot(s, required[n]).None? { return Some(required[n]); }
    }
    return None;
  }

  class Conversation {
    var pending: Option<Slots>
    var pendingAt: Option<int>
    var last: Option<Slots>
    var lastAt: Option<int>

    function Remembered(): Context
      reads this
    {
      Context(pending, pendingAt, last, lastAt)
    }

    constructor ()
      ensures Remembered() == NOTHING
    {
      pending, pendingAt, last, lastAt := None, None, None, None;
    }

    method ClearPendingQuote()
      modifies this`pending, this`pendingAt
      ensures Remembered() == ClearPending(old(Remembered()))
    {
      pending, pendingAt := None, None;
    }

    method MarkPendingQuote(slots: Slots, now: int)
      modifies this`pending, this`pendingAt
      ensures Remembered() == MarkPending(old(Remembered()), slots, now)
    {
      pending := Some(Safe(slots));
      pendingAt := Some(now);
    }

    method MarkLastQuote(slots: Slots, now: int)
      modifies this`last, this`lastAt
      ensures Remembered() == MarkLast(old(Remembered()), slots, now)
    {
      last := Some(Safe(slots));
      lastAt := Some(now);
    }

    /** Stale contexts are forgotten before anything reads them. */
    method ForgetStale(now: int, ttl: int)
      modifies this
      ensures Remembered() == Expire(old(Remembered()), now, ttl)
    {
      if pending.Some? && !IsFresh(pendingAt, now, ttl) { pending, pendingAt := None, None; }
      if last.Some? && !IsFresh(lastAt, now, ttl) { last, lastAt := None, None; }
    }

    /**
     `_merge_explicit_slots`: first what was recognised locally, then, for fields still missing, what the
     model marks as said. A field is explicit exactly when it has a value.
     */
    method MergeExplicitSlots(i: Turn) returns (slots: map<Field, string>, explicit: set<Field>)
      ensures explicit == slots.Keys
      ensures forall k :: k in slots <==> LocalField(i, k).Some? || SemanticField(i, k).Some?
      ensures forall k :: LocalField(i, k).Some? ==> slots[k] == LocalField(i, k).value
      ensures forall k :: LocalField(i, k).None? && SemanticField(i, k).Some? ==> slots[k] == SemanticField(i, k).value
      ensures FieldsOf(slots) == Explicit(i)
    {
      slots, explicit := map[], {};
      for n := 0 to |ROUTE_KEYS|
        invariant explicit == slots.Keys
        invariant forall k :: k in slots <==> k in ROUTE_KEYS[..n] && LocalField(i, k).Some?
        invariant forall k :: k in slots ==> slots[k] == LocalField(i, k).value
      {
        var k := ROUTE_KEYS[n];
        assert ROUTE_KEYS[..n + 1] == ROUTE_KEYS[..n] + [k];
        var value := Get(i.local, k);
        if value.Some? && value.value != "" {
          slots := slots[k := value.value];
          explicit := explicit + {k};
        }
      }
      AllKeys();
      assert ROUTE_KEYS[..|ROUTE_KEYS|] == ROUTE_KEYS && SEMANTIC_KEYS[..|SEMANTIC_KEYS|] == SEMANTIC_KEYS;
      if i.local.weight.Some? {
        slots := slots[Weight := i.local.weight.value];
        explicit := explicit + {Weight};
      }
      ghost var local := slots;
      if i.semanticEnabled && i.semantic.Some? {
        for n := 0 to |SEMANTIC_KEYS|
          invariant explicit == slots.Keys
          invariant forall k :: k in slots <==> k in local || (k in SEMANTIC_KEYS[..n] && SemanticField(i, k).Some?)
          invariant forall k :: k in slots ==> slots[k] == if k in local then local[k] else SemanticField(i, k).value
        {
          var k := SEMANTIC_KEYS[n];
          assert SEMANTIC_KEYS[..n + 1] == SEMANTIC_KEYS[..n] + [k];
          var value := Get(i.semantic.value.fields, k);
          if k in i.semantic.value.explicit && value.Some? && value.value != "" && k !in explicit {
            slots := slots[k := value.value];
            explicit := explicit + {k};
          }
        }
      }
    }

    /** The base context overwritten slot by slot with what the turn says. */
    method MergeSlots(base: Slots, said: map<Field, string>, explicit: set<Field>, turn: nat) returns (slots: Slots)
      requires explicit == said.Keys
      ensures slots == Merged(base, FieldsOf(said), turn)
    {
      slots := base;
      if Origin in explicit { slots := slots.(origin := SaidNow(Some(said[Origin]), turn)); }
      if Destination in explicit { slots := slots.(destination := SaidNow(Some(said[Destination]), turn)); }
      if Goods in explicit { slots := slots.(goods := SaidNow(Some(said[Goods]), turn)); }
      if Weight in explicit { slots := slots.(weight := SaidNow(Some(said[Weight]), turn)); }
      if ShippingMethod in explicit {
        slots := slots.(shippingMethod := SaidNow(Some(said[ShippingMethod]), turn), methodExplicit := true);
      } else if !base.methodExplicit {
        slots := slots.(shippingMethod := None, methodExplicit := false);
      }
    }

    method HandleRoute(said: map<Field, string>, i: Turn, turn: nat)
        returns (lookup: Option<Lookup>, asked: Option<Question>, replied: bool)
      requires FieldsOf(said) == Explicit(i)
      modifies this
      ensures Result(Remembered(), lookup, asked, replied) == RouteTurn(old(Remembered()), i, turn)
    {
      var e := FieldsOf(said);
      ClearPendingQuote();
      var s := RouteContext(e, turn);
      lookup := Some(Lookup(RouteOptions, s.origin, s.destination, s.goods, s.shippingMethod, None));
      if i.found.error || !i.found.rendered { return lookup, None, false; }
      if AnyRoute(e) { MarkLastQuote(s, i.now); } else { last, lastAt := None, None; }
      asked, replied := None, true;
    }

    method HandleTransit(s: Slots, i: Turn)
        returns (lookup: Option<Lookup>, asked: Option<Question>, replied: bool)
      modifies this
      ensures Result(Remembered(), lookup, asked, replied) == TransitTurn(old(Remembered()), s, i)
    {
      var missing := FirstMissing(s, FOR_TRANSIT);
      if missing.Some? {
        MarkPendingQuote(s, i.now);
        return None, Some(Question(TransitTime, missing.value)), true;
      }
      lookup := Some(Lookup(TransitTime, s.origin, s.destination, s.goods, Filter(s), None));
      if i.found.error || !i.found.rendered { return lookup, None, false; }
      ClearPendingQuote();
      MarkLastQuote(s, i.now);
      asked, replied := None, true;
    }

    method HandlePrice(s: Slots, i: Turn, turn: nat)
        returns (lookup: Option<Lookup>, asked: Option<Question>, replied: bool)
      modifies this
      ensures Result(Remembered(), lookup, asked, replied) == PriceTurn(old(Remembered()), s, i, turn)
    {
      var missing := FirstMissing(s, FOR_PRICE);
      if missing.Some? {
        MarkPendingQuote(s, i.now);
        return None, Some(Question(PriceQuote, missing.value)), true;
      }
      lookup := Some(Lookup(PriceQuote, s.origin, s.destination, s.goods, Filter(s), s.weight));
      if i.found.error || !i.found.rendered { return lookup, None, false; }
      if i.found.matched {
        ClearPendingQuote();
        MarkLastQuote(Completed(s, i.found.row, turn), i.now);
      } else {
        MarkPendingQuote(s, i.now);
      }
      asked, replied := None, true;
    }

    method MaybeHandleShippingQuote(i: Turn, turn: nat, ttl: int)
        returns (lookup: Option<Lookup>, asked: Option<Question>, replied: bool)
      modifies this
      ensures Result(Remembered(), lookup, asked, replied) == Handle(old(Remembered()), i, turn, ttl)
    {
      if i.empty { return None, None, false; }
      ForgetStale(i.now, ttl);
      var current, before := SafeState(pending), SafeState(last);
      var kind := RequestKind(i, current, before);
      if kind == NoRequest { return None, None, false; }
      var said, explicit := MergeExplicitSlots(i);
      match kind
      case RouteOptions => lookup, asked, replied := HandleRoute(said, i, turn);
      case TransitTime =>
        var slots := MergeSlots(Base(i, current, before), said, explicit, turn);
        lookup, asked, replied := HandleTransit(slots, i);
      case PriceQuote =>
        var slots := MergeSlots(Base(i, current, before), said, explicit, turn);
        lookup, asked, replied := HandlePrice(slots, i, turn);
    }
  }
}
