/** The reservation invariant of the inbound protocol, and the steps that keep it. */
module InboundInvariant {
  import opened Prelude
  import opened QueueScripts
  import opened InboundProtocol

  /** Reserved items a worker still has to acknowledge or put back. */
  function Held(pc: Pc): seq<Item> {
    if pc.Driving? then pc.todo + pc.rest else []
  }

  /** The lock token a worker acts under. */
  function TokenOf(pc: Pc): Option<Token> {
    if pc.Driving? then Some(pc.token) else None
  }

  /** A drain that has reserved nothing yet. */
  predicate Unreserved(pc: Pc) {
    pc.Driving? && Held(pc) == [] && !pc.phase.Release?
  }

  /** From the assembled burst on there is always an item in hand; only completion groups have a remainder. */
  predicate Shaped(pc: Pc) {
    pc.Driving? ==>
      match pc.phase
      case Collect => pc.rest == []
      case Burst => pc.todo != [] && pc.rest == []
      case Decide => pc.todo != [] && pc.rest == []
      case Single => pc.todo != [] && pc.rest == []
      case Complete => pc.todo != []
      case Ack => pc.todo != []
      case Requeue => pc.todo != [] && pc.rest == []
      case _ => Held(pc) == []
  }

  /** Everything in flight was popped under one token, and a live lock in that situation is that token. */
  ghost predicate OneOwner(g: Shared) {
    && (g.db.inflight == [] <==> g.poppers == {})
    && (forall t, u :: t in g.poppers && u in g.poppers ==> t == u)
    && (g.db.lock.Some? && g.db.inflight != [] ==> g.poppers == {g.db.lock.value})
  }

  predicate HoldsAll(g: Shared, pc: Pc) {
    pc.Driving? && multiset(g.db.inflight) == multiset(Held(pc)) && g.poppers == {pc.token}
  }

  predicate WorkerOk(g: Shared, pc: Pc) {
    && Shaped(pc)
    && (Held(pc) != [] ==> HoldsAll(g, pc))
    && (Unreserved(pc) && g.db.lock == TokenOf(pc) ==> g.db.inflight == [])
    && (pc.Driving? && pc.phase.Requeue? ==> pc.done + pc.base <= g.db.pending)
  }

  ghost predicate TokensOk(s: State) {
    && (s.shared.db.lock.Some? ==> s.shared.db.lock.value < s.shared.nextToken)
    && (forall t :: t in s.shared.poppers ==> t < s.shared.nextToken)
    && (forall v :: 0 <= v < |s.workers| && TokenOf(s.workers[v]).Some? ==>
          TokenOf(s.workers[v]).value < s.shared.nextToken)
    && (forall v, u :: 0 <= v < u < |s.workers| && TokenOf(s.workers[v]).Some? ==>
          TokenOf(s.workers[v]) != TokenOf(s.workers[u]))
  }

  ghost predicate Reserved(s: State) {
    && TokensOk(s)
    && OneOwner(s.shared)
    && (forall v :: 0 <= v < |s.workers| ==> WorkerOk(s.shared, s.workers[v]))
  }

  // ---------- What one worker's step may do to the shared state ----------

  /** Reservations untouched; the lock may only become free; pending only grows at the back. */
  predicate Quiet(g: Shared, h: Shared) {
    && h.db.inflight == g.db.inflight && h.poppers == g.poppers && g.db.pending <= h.db.pending
    && (h.db.lock == g.db.lock || h.db.lock.None?)
  }

  /** The free lock is granted under a new token while nothing is in flight. */
  predicate Grants(g: Shared, h: Shared) {
    && g.db.inflight == [] && h.db.inflight == [] && h.poppers == g.poppers
    && h.db.pending == g.db.pending
    && h.db.lock == Some(g.nextToken) && h.nextToken == g.nextToken + 1
  }

  /** A worker that holds every reservation, or owns the live lock, changes the reservations. */
  predicate OwnWork(g: Shared, pc: Pc, h: Shared) {
    && pc.Driving?
    && h.db.lock == g.db.lock && h.nextToken == g.nextToken
    && (Held(pc) != [] || g.db.lock == TokenOf(pc))
    && h.poppers == (if h.db.inflight == [] then {} else {pc.token})
  }

  predicate LocalStep(g: Shared, pc: Pc, h: Shared, pc': Pc) {
    && (TokenOf(pc').None?
        || TokenOf(pc') == TokenOf(pc)
        || (TokenOf(pc') == Some(g.nextToken) && h.nextToken == g.nextToken + 1))
    && g.nextToken <= h.nextToken
    && WorkerOk(h, pc')
    && (Quiet(g, h) || Grants(g, h) || OwnWork(g, pc, h))
  }

  /** What Remove and PutBack do to the reservations when the script accepts. */
  predicate Unreserves(g: Shared, h: Shared, item: Item) {
    && multiset(g.db.inflight) == multiset(h.db.inflight) + multiset{item}
    && h.db.lock == g.db.lock && h.nextToken == g.nextToken
    && h.poppers == Since(h.db.inflight, g.poppers)
  }
}
