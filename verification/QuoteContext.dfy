/**
 `maybe_handle_shipping_quote`: which facts a catalogue lookup uses, and what is remembered for the next
 turn. Every value carries where it came from.
 */
module QuoteContext {
  import opened Prelude

  /** Said by the customer in a turn, in these words, or taken from a catalogue row that turn's lookup found. */
  datatype Source = Customer(turn: nat, said: string) | Database(turn: nat)

  datatype Value = Value(text: string, source: Source)

  /** A quote context; `methodExplicit` tells whether the customer named the method. */
  datatype Slots = Slots(
    origin: Option<Value>, destination: Option<Value>, goods: Option<Value>,
    shippingMethod: Option<Value>, methodExplicit: bool, weight: Option<Value>)

  const NO_SLOTS := Slots(None, None, None, None, false, None)

  /** Fields recognised in one message; None where nothing was recognised. */
  datatype Fields = Fields(
    origin: Option<string>, destination: Option<string>, goods: Option<string>,
    shippingMethod: Option<string>, weight: Option<string>)

  datatype Field = Origin | Destination | Goods | ShippingMethod | Weight

  function Get(f: Fields, k: Field): Option<string> {
    match k
    case Origin => f.origin
    case Destination => f.destination
    case Goods => f.goods
    case ShippingMethod => f.shippingMethod
    case Weight => f.weight
  }

  datatype Kind = PriceQuote | TransitTime | RouteOptions | NoRequest

  /** The structured model's reading: values, and which of them it marks as said in this message. */
  datatype Semantic = Semantic(
    fields: Fields, explicit: set<Field>, isCatalogRequest: bool, kind: Kind, isFollowup: bool)

  /** Which word patterns occur, and whether the message is short. */
  datatype Words = Words(price: bool, transit: bool, options: bool, shipping: bool, followup: bool, short: bool)

  /** What a lookup answers: an error, a row to render or not, whether it matches all filters, and its fields. */
  datatype Found = Found(error: bool, rendered: bool, matched: bool, row: Fields)

  datatype Turn = Turn(
    empty: bool, words: Words, local: Fields, semanticEnabled: bool, semantic: Option<Semantic>,
    now: int, found: Found)

  /** The two remembered contexts of a conversation and when they were written. */
  datatype Context = Context(
    pending: Option<Slots>, pendingAt: Option<int>, last: Option<Slots>, lastAt: Option<int>)

  const NOTHING := Context(None, None, None, None)

  /** A call into the catalogue and the filters it gets. */
  datatype Lookup = Lookup(
    kind: Kind, origin: Option<Value>, destination: Option<Value>, goods: Option<Value>,
    shippingMethod: Option<Value>, weight: Option<Value>)

  /** The reply that asks for the first field missing for this kind of request. */
  datatype Question = Question(kind: Kind, missing: Field)

  datatype Result = Result(context: Context, lookup: Option<Lookup>, asked: Option<Question>, replied: bool)

  // ---------- _safe_state ----------

  /** str(item).strip()[:191] */
  function CleanText(s: string): string {
    if |Strip(s)| > 191 then Strip(s)[..191] else Strip(s)
  }

  /** A blank value is dropped. */
  function Clean(v: Option<Value>): Option<Value> {
    if v.None? || Strip(v.value.text) == [] then None
    else Some(v.value.(text := CleanText(v.value.text)))
  }

  function Safe(s: Slots): Slots {
    Slots(Clean(s.origin), Clean(s.destination), Clean(s.goods), Clean(s.shippingMethod), s.methodExplicit,
          Clean(s.weight))
  }

  /** None is the empty dict; a dict that was stored, even with no field, is a context. */
  function SafeState(s: Option<Slots>): Option<Slots> {
    if s.None? then None else Some(Safe(s.value))
  }

  predicate IsFresh(at: Option<int>, now: int, ttl: int) {
    at.None? || 0 <= now - at.value <= (if ttl > 60 then ttl else 60)
  }

  /** Contexts past their time are forgotten. */
  function Expire(c: Context, now: int, ttl: int): Context {
    var c := if c.pending.Some? && !IsFresh(c.pendingAt, now, ttl) then c.(pending := None, pendingAt := None) else c;
    if c.last.Some? && !IsFresh(c.lastAt, now, ttl) then c.(last := None, lastAt := None) else c
  }

  function MarkPending(c: Context, s: Slots, now: int): Context {
    c.(pending := Some(Safe(s)), pendingAt := Some(now))
  }

  function MarkLast(c: Context, s: Slots, now: int): Context {
    c.(last := Some(Safe(s)), lastAt := Some(now))
  }

  function ClearPending(c: Context): Context {
    c.(pending := None, pendingAt := None)
  }

  // ---------- What the message says ----------

  /** An empty text counts as nothing. */
  function Truthy(v: Option<string>): Option<string> {
    if v.Some? && v.value != "" then v else None
  }

  /** What local extraction recognised for a field. */
  function LocalField(i: Turn, k: Field): Option<string> {
    if k == Weight then i.local.weight else Truthy(Get(i.local, k))
  }

  /** What the structured model marks as said for a field. */
  function SemanticField(i: Turn, k: Field): Option<string> {
    if i.semanticEnabled && i.semantic.Some? && k in i.semantic.value.explicit then
      Truthy(Get(i.semantic.value.fields, k))
    else None
  }

  function FieldsOf(said: map<Field, string>): Fields {
    Fields(ValueOf(said, Origin), ValueOf(said, Destination), ValueOf(said, Goods), ValueOf(said, ShippingMethod),
           ValueOf(said, Weight))
  }

  function ValueOf(said: map<Field, string>, k: Field): Option<string> {
    if k in said then Some(said[k]) else None
  }

  function Either(local: Option<string>, semantic: Option<string>): Option<string> {
    if local.Some? then local else semantic
  }

  /** The fields of this turn. */
  function Explicit(i: Turn): Fields {
    Fields(Either(LocalField(i, Origin), SemanticField(i, Origin)),
           Either(LocalField(i, Destination), SemanticField(i, Destination)),
           Either(LocalField(i, Goods), SemanticField(i, Goods)),
           Either(LocalField(i, ShippingMethod), SemanticField(i, ShippingMethod)),
           Either(LocalField(i, Weight), SemanticField(i, Weight)))
  }

  predicate AnyRoute(f: Fields) {
    Truthy(f.origin).Some? || Truthy(f.destination).Some? || Truthy(f.goods).Some? || Truthy(f.shippingMethod).Some?
  }

  function LocalKind(w: Words, local: Fields, hasContext: bool, hasPending: bool, hasPriceContext: bool): Kind {
    if w.price then PriceQuote
    else if w.transit then TransitTime
    else if w.options then RouteOptions
    else if hasPriceContext && w.followup && AnyRoute(local) then PriceQuote
    else if w.shipping then (if local.weight.Some? then PriceQuote else RouteOptions)
    else if hasPending && local.weight.Some? then PriceQuote
    else if hasContext && (local.weight.Some? || AnyRoute(local)) then PriceQuote
    else NoRequest
  }

  predicate IsCandidate(w: Words, kind: Kind, local: Fields, hasContext: bool) {
    kind != NoRequest || w.shipping || w.price
    || (hasContext && (local.weight.Some? || w.followup || AnyRoute(local)))
  }

  predicate IsFollowup(i: Turn, hasContext: bool, hasPending: bool) {
    (hasPending && i.local.weight.Some?)
    || (hasContext
        && ((i.semanticEnabled && i.semantic.Some? && i.semantic.value.isFollowup)
            || i.words.followup || (i.words.short && AnyRoute(Explicit(i)))))
  }

  predicate PriceContext(s: Option<Slots>) {
    s.Some? && s.value.weight.Some? && s.value.goods.Some?
  }

  function Current(pending: Option<Slots>, last: Option<Slots>): Option<Slots> {
    if pending.Some? then pending else last
  }

  function KindOf(i: Turn, pending: Option<Slots>, last: Option<Slots>): Kind {
    LocalKind(i.words, i.local, pending.Some? || last.Some?, pending.Some?, PriceContext(Current(pending, last)))
  }

  predicate IsStrong(i: Turn, pending: Option<Slots>, last: Option<Slots>) {
    i.words.price || i.words.transit || i.words.options
    || (KindOf(i, pending, last) == PriceQuote && PriceContext(Current(pending, last)))
  }

  /** What is asked, once the local reading and the model's have been weighed; NoRequest is left to the AI. */
  function RequestKind(i: Turn, pending: Option<Slots>, last: Option<Slots>): Kind {
    var kind := KindOf(i, pending, last);
    if !IsCandidate(i.words, kind, i.local, pending.Some? || last.Some?) then NoRequest
    else if !i.semanticEnabled && !IsStrong(i, pending, last) then NoRequest
    else if IsStrong(i, pending, last) then kind
    else if i.semanticEnabled && i.semantic.Some? && i.semantic.value.isCatalogRequest then i.semantic.value.kind
    else kind
  }

  // ---------- Slots of this turn ----------

  function SaidNow(text: Option<string>, turn: nat): Option<Value> {
    if text.Some? then Some(Value(text.value, Customer(turn, text.value))) else None
  }

  /** The context a turn builds on. */
  function Base(i: Turn, pending: Option<Slots>, last: Option<Slots>): Slots {
    if pending.Some? then pending.value
    else if IsFollowup(i, pending.Some? || last.Some?, pending.Some?) && last.Some? then last.value
    else NO_SLOTS
  }

  function Or(now: Option<Value>, before: Option<Value>): Option<Value> {
    if now.Some? then now else before
  }

  function Merged(base: Slots, e: Fields, turn: nat): Slots {
    Slots(
      Or(SaidNow(e.origin, turn), base.origin),
      Or(SaidNow(e.destination, turn), base.destination),
      Or(SaidNow(e.goods, turn), base.goods),
      if e.shippingMethod.Some? then SaidNow(e.shippingMethod, turn)
      else if base.methodExplicit then base.shippingMethod else None,
      e.shippingMethod.Some? || base.methodExplicit,
      Or(SaidNow(e.weight, turn), base.weight))
  }

  function Filter(s: Slots): Option<Value> {
    if s.methodExplicit then s.shippingMethod else None
  }

  /** A remembered context of the message's own fields only. */
  function RouteContext(e: Fields, turn: nat): Slots {
    Slots(SaidNow(e.origin, turn), SaidNow(e.destination, turn), SaidNow(e.goods, turn),
          SaidNow(e.shippingMethod, turn),
          e.shippingMethod.Some?, None)
  }

  function RowValue(text: Option<string>, before: Option<Value>, turn: nat): Option<Value> {
    if Truthy(text).Some? then Some(Value(text.value, Database(turn))) else before
  }

  /** What a found price leaves behind: the row's own labels, but never its method. */
  function Completed(s: Slots, row: Fields, turn: nat): Slots {
    Slots(RowValue(row.origin, s.origin, turn), RowValue(row.destination, s.destination, turn),
          RowValue(row.goods, s.goods, turn), Filter(s), s.methodExplicit, RowValue(row.weight, s.weight, turn))
  }

  // ---------- The turn ----------

  function Slot(s: Slots, k: Field): Option<Value> {
    match k
    case Origin => s.origin
    case Destination => s.destination
    case Goods => s.goods
    case ShippingMethod => s.shippingMethod
    case Weight => s.weight
  }

  const FOR_TRANSIT := [Origin, Destination]
  const FOR_PRICE := [Origin, Destination, Goods, Weight]

  /** The first of these fields without a value. */
  function Missing(s: Slots, required: seq<Field>): Option<Field> {
    if required == [] then None
    else if Slot(s, required[0]).None? then Some(required[0])
    else Missing(s, required[1..])
  }

  function RouteTurn(c: Context, i: Turn, turn: nat): Result {
    var e := Explicit(i);
    var cleared := ClearPending(c);
    var s := RouteContext(e, turn);
    var lookup := Some(Lookup(RouteOptions, s.origin, s.destination, s.goods, s.shippingMethod, None));
    if i.found.error || !i.found.rendered then Result(cleared, lookup, None, false)
    else if AnyRoute(e) then Result(MarkLast(cleared, s, i.now), lookup, None, true)
    else Result(cleared.(last := None, lastAt := None), lookup, None, true)
  }

  function TransitTurn(c: Context, s: Slots, i: Turn): Result {
    var missing := Missing(s, FOR_TRANSIT);
    if missing.Some? then Result(MarkPending(c, s, i.now), None, Some(Question(TransitTime, missing.value)), true)
    else
      var lookup := Some(Lookup(TransitTime, s.origin, s.destination, s.goods, Filter(s), None));
      if i.found.error || !i.found.rendered then Result(c, lookup, None, false)
      else Result(MarkLast(ClearPending(c), s, i.now), lookup, None, true)
  }

  function PriceTurn(c: Context, s: Slots, i: Turn, turn: nat): Result {
    var missing := Missing(s, FOR_PRICE);
    if missing.Some? then Result(MarkPending(c, s, i.now), None, Some(Question(PriceQuote, missing.value)), true)
    else
      var lookup := Some(Lookup(PriceQuote, s.origin, s.destination, s.goods, Filter(s), s.weight));
      if i.found.error || !i.found.rendered then Result(c, lookup, None, false)
      else if i.found.matched then
        Result(MarkLast(ClearPending(c), Completed(s, i.found.row, turn), i.now), lookup, None, true)
      else Result(MarkPending(c, s, i.now), lookup, None, true)
  }

  function Handle(c: Context, i: Turn, turn: nat, ttl: int): Result {
    if i.empty then Result(c, None, None, false)
    else
      var c := Expire(c, i.now, ttl);
      var pending, last := SafeState(c.pending), SafeState(c.last);
      match RequestKind(i, pending, last)
      case NoRequest => Result(c, None, None, false)
      case RouteOptions => RouteTurn(c, i, turn)
      case TransitTime => TransitTurn(c, Merged(Base(i, pending, last), Explicit(i), turn), i)
      case PriceQuote => PriceTurn(c, Merged(Base(i, pending, last), Explicit(i), turn), i, turn)
  }

  /** The context after these turns. */
  function After(turns: seq<Turn>, ttl: int): Context {
    if turns == [] then NOTHING
    else
      var n := |turns| - 1;
      Handle(After(turns[..n], ttl), turns[n], n, ttl).context
  }
}
