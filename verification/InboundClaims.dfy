/** The claim invariant of the inbound protocol. */
module InboundClaims {
  import opened Prelude
  import opened QueueScripts
  import opened InboundProtocol
  import opened InboundInvariant

  function Queued(db: Db): multiset<Item> {
    multiset(db.pending) + multiset(db.inflight)
  }

  predicate Conserved(g: Shared) {
    Queued(g.db) + g.settled == g.accepted
  }

  predicate Guarded(g: Shared, item: Item) {
    item.claim.Some? && item.claim.value in g.guarded
  }

  predicate Finished(g: Shared, item: Item) {
    item.claim.Some? && item.claim.value in g.completed
  }

  predicate RecordedFor(g: Shared, item: Item) {
    && item.messageId.Some? && item.claim.Some? && item.messageId.value in g.db.claims
    && g.db.claims[item.messageId.value] == Processing(item.claim.value, true)
  }

  /** A claimed item is queued at most once, and no other queued item carries its token. */
  ghost predicate OneCopy(g: Shared) {
    forall x, y :: x in Queued(g.db) && y in Queued(g.db) && x.claim.Some? && x.claim == y.claim ==>
      x == y && Queued(g.db)[x] == 1
  }

  /** Until its completion is recorded, a guarded item's claim key holds its own token without expiry. */
  ghost predicate ClaimsHeld(g: Shared) {
    forall x :: x in Queued(g.db) && Guarded(g, x) && !Finished(g, x) ==> RecordedFor(g, x)
  }

  ghost predicate PendingUnfinished(g: Shared) {
    forall x :: x in g.db.pending ==> !Finished(g, x)
  }

  ghost predicate TokensIssued(g: Shared) {
    && (forall x :: x in Queued(g.db) && x.claim.Some? ==> x.claim.value < g.nextToken)
    && (forall t :: t in g.guarded ==> t < g.nextToken)
    && (forall t :: t in g.completed ==> t < g.nextToken)
    && (forall id :: id in g.db.claims && g.db.claims[id].Processing? ==> g.db.claims[id].token < g.nextToken)
  }

  /** No two claim keys hold the same token. */
  ghost predicate DistinctRecords(g: Shared) {
    forall id, other ::
      (id in g.db.claims && other in g.db.claims && g.db.claims[id].Processing? && g.db.claims[other].Processing?
       && g.db.claims[id].token == g.db.claims[other].token) ==> id == other
  }

  ghost predicate GuardsPersist(g: Shared) {
    forall id :: id in g.db.claims && g.db.claims[id].Processing? && g.db.claims[id].token in g.guarded ==>
      g.db.claims[id].persistent
  }

  ghost predicate ClaimsOk(g: Shared) {
    OneCopy(g) && ClaimsHeld(g) && PendingUnfinished(g) && TokensIssued(g) && DistinctRecords(g) && GuardsPersist(g)
  }

  /** Records that hold a guarded token are left alone. */
  ghost predicate GuardsKept(g: Shared, h: Shared) {
    && (forall id :: id in g.db.claims && g.db.claims[id].Processing? && g.db.claims[id].token in g.guarded ==>
          id in h.db.claims && h.db.claims[id] == g.db.claims[id])
    && (forall id :: id in h.db.claims && h.db.claims[id].Processing? ==>
          (h.db.claims[id] == Processing(g.nextToken, false) && g.nextToken < h.nextToken)
          || (id in g.db.claims && g.db.claims[id].Processing? && g.db.claims[id].token == h.db.claims[id].token
              && (g.db.claims[id].persistent ==> h.db.claims[id].persistent)))
    && (forall id, other ::
          (id in h.db.claims && other in h.db.claims
           && h.db.claims[id] == h.db.claims[other] == Processing(g.nextToken, false)) ==> id == other)
  }

  /** The claim token of an item that is not queued yet, or whose enqueue failed. */
  function Bearing(pc: Pc): Option<Token> {
    if pc.Claimed? || pc.Unclaim? then pc.item.claim else None
  }

  /** Held items whose completion this worker has not recorded yet. */
  function Unfinished(pc: Pc): seq<Item> {
    if !pc.Driving? then []
    else if pc.phase.Ack? && pc.todo != [] then pc.todo[1..] + pc.rest
    else pc.todo + pc.rest
  }

  ghost predicate Unused(g: Shared, t: Token) {
    && t < g.nextToken && t !in g.guarded && t !in g.completed
    && (forall x :: x in Queued(g.db) ==> x.claim != Some(t))
  }

  ghost predicate WorkerClaims(g: Shared, pc: Pc) {
    && (Bearing(pc).Some? ==> pc.item.messageId.Some? && Unused(g, Bearing(pc).value))
    && (forall y :: y in Unfinished(pc) ==> !Finished(g, y))
  }

  /** None of these items is finished, and none shares this item's claim. */
  ghost predicate OpenBeside(g: Shared, item: Item, others: seq<Item>) {
    forall y :: y in others ==> !Finished(g, y) && (item.claim.Some? ==> y.claim != item.claim)
  }

  ghost predicate AllClaims(s: State) {
    && ClaimsOk(s.shared)
    && (forall v :: 0 <= v < |s.workers| ==> WorkerClaims(s.shared, s.workers[v]))
    && (forall v, u :: 0 <= v < u < |s.workers| && Bearing(s.workers[v]).Some? ==>
          Bearing(s.workers[v]) != Bearing(s.workers[u]))
  }

  /** Commands only the right worker issues: on its own new item, on an item in flight, on an unfinished one. */
  ghost predicate Permitted(g: Shared, c: Command) {
    match c
    case Push(item) => item.claim.Some? ==> item.messageId.Some? && Unused(g, item.claim.value)
    case ReleaseId(item) => !Guarded(g, item)
    case CompleteId(item) => item in g.db.inflight
    case PutBack(item) => !Finished(g, item)
    case _ => true
  }

  /** Whose item the command touches. */
  ghost predicate IssuedBy(g: Shared, pc: Pc, c: Command) {
    && Permitted(g, c)
    && (c.Push? ==> pc.Claimed? && c.item == pc.item)
    && (c.CompleteId? ==> c.item in Held(pc))
  }

  /** All a command can add to the queue, the guards and the completions. */
  ghost predicate AddsOnly(g: Shared, c: Command, h: Shared) {
    && g.nextToken <= h.nextToken
    && (forall x :: x in Queued(h.db) ==> x in Queued(g.db) || (c.Push? && x == c.item))
    && (forall t :: t in h.guarded ==> t in g.guarded || (c.Push? && c.item.claim == Some(t)))
    && (forall t :: t in h.completed ==> t in g.completed || (c.CompleteId? && c.item.claim == Some(t)))
  }

  /** Only a claim that succeeded brings a new token into a worker's hands. */
  predicate BearingMoves(g: Shared, pc: Pc, h: Shared, pc': Pc) {
    Bearing(pc').None? || Bearing(pc') == Bearing(pc)
    || (Bearing(pc') == Some(g.nextToken) && g.nextToken < h.nextToken)
  }
}
