/** What one worker answers: when it drives, how large its bursts are, and what it makes of a turn's result. */
module InboundBursts {
  import opened Prelude
  import opened QueueScripts
  import opened BurstOrder
  import opened InboundProtocol
  import opened InboundInvariant
  import opened InboundReservation

  /** max(1, configured number) */
  function BurstSize(limit: nat): nat {
    if limit == 0 then 1 else limit
  }

  predicate Fits(g: Shared, pc: Pc) {
    pc.Driving? ==> |pc.todo| + |pc.rest| <= BurstSize(g.limit)
  }

  lemma StepFits(g: Shared, pc: Pc, o: Oracle)
    requires Fits(g, pc) && Shaped(pc)
    ensures Fits(g, WorkerStep(g, pc, o).pc)
  {
    if pc.Driving? { DriveFits(g, pc, o); }
  }

  lemma DriveFits(g: Shared, pc: Pc, o: Oracle)
    requires pc.Driving? && Fits(g, pc) && Shaped(pc)
    ensures Fits(g, DriveStep(g, pc, o).pc)
  {
    match pc.phase
    case Collect => SortBurstKeepsItems(pc.todo);
    case Burst => BurstFits(g, pc.token, pc.todo, o);
    case Ack => AfterAckFits(pc.token, pc.todo[1..], pc.rest, pc.single);
    case _ =>
  }

  lemma BurstFits(g: Shared, t: Token, items: seq<Item>, o: Oracle)
    requires |items| <= BurstSize(g.limit)
    ensures Fits(g, BurstStep(g, t, items, o))
  {
    SelectSplits(items, o.revoked);
    SplitSize(items, Select(items, o.revoked, true), Select(items, o.revoked, false));
  }

  lemma SplitSize(items: seq<Item>, a: seq<Item>, b: seq<Item>)
    requires multiset(a) + multiset(b) == multiset(items)
    ensures |a| + |b| == |items|
  {
    assert |multiset(a)| == |a| && |multiset(b)| == |b| && |multiset(items)| == |items|;
  }

  lemma AfterAckFits(t: Token, left: seq<Item>, rest: seq<Item>, single: bool)
    ensures var pc := AfterAck(t, left, rest, single); pc.Driving? && |pc.todo| + |pc.rest| <= |left| + |rest|
  {}

  lemma {:induction false} RunFits(limit: nat, actions: seq<Action>)
    ensures Run(limit, actions).shared.limit == limit
    ensures forall v :: 0 <= v < |Run(limit, actions).workers| ==>
              Fits(Run(limit, actions).shared, Run(limit, actions).workers[v])
  {
    if actions != [] {
      var past, a := actions[..|actions| - 1], actions[|actions| - 1];
      RunFits(limit, past);
      AfterKeeps(Initial(limit), past);
      var s := Run(limit, past);
      LimitStays(s, a);
      if a.Work? && a.worker < |s.workers| {
        assert WorkerOk(s.shared, s.workers[a.worker]) && Fits(s.shared, s.workers[a.worker]);
        StepFits(s.shared, s.workers[a.worker], a.oracle);
      }
    }
  }

  lemma LimitStays(s: State, a: Action)
    ensures Apply(s, a).shared.limit == s.shared.limit
  {}

  /** In every run no worker ever has more items in hand than the configured burst, which is at least one. */
  lemma BurstsFit(limit: nat, actions: seq<Action>, v: nat)
    requires v < |Run(limit, actions).workers|
    ensures |Held(Run(limit, actions).workers[v])| <= if limit == 0 then 1 else limit
  {
    RunFits(limit, actions);
    assert Fits(Run(limit, actions).shared, Run(limit, actions).workers[v]);
  }

  /** And it goes on collecting until its burst is full or nothing is pending, or the lock is lost. */
  lemma CollectsAll(g: Shared, t: Token, items: seq<Item>)
    requires g.limit > 0
    ensures var n := PopStep(g, t, items);
            && (|items| < g.limit && g.db.lock == Some(t) && g.db.pending != [] ==>
                  n.pc == Holding(t, Collect, items + [g.db.pending[0]])
                  && Execute(g, n.command).db.pending == g.db.pending[1..])
            && (|items| < g.limit && g.db.lock != Some(t) ==> n.pc == Empty(t, Release(Raised)))
            && (|items| == g.limit || (g.db.lock == Some(t) && g.db.pending == [] && items != []) ==>
                  n.pc == Holding(t, Burst, SortBurst(items)) && Execute(g, n.command).db == g.db)
  {}

  /** Who wants the lock drives if it is free with nothing in flight, raises with something, and is done if held. */
  lemma WantsLockExactly(g: Shared, o: Oracle)
    ensures var n := WorkerStep(g, WantLock, o);
            && n.pc == (if g.db.lock.Some? then Returned(Settled)
                        else if g.db.inflight != [] then Returned(Raised)
                        else Empty(g.nextToken, CheckInflight))
            && Execute(g, n.command).db.lock == if g.db.lock.None? && g.db.inflight == [] then Some(g.nextToken)
                                                else g.db.lock
  {}

  /**
   What becomes of a burst in hand: without an answer about revocations all of it goes back; otherwise the
   revoked items are settled first. Combined, one retryable turn puts all back and any other settles all;
   one by one, a retryable turn puts back its item and all after it, and any other settles its item.
   */
  lemma ResultsDecide(g: Shared, t: Token, items: seq<Item>, o: Oracle)
    requires items != [] && WellFormed(items[0])
    ensures !o.storeOk ==> BurstStep(g, t, items, o) == StartRequeue(t, items, g.db.pending)
    ensures o.storeOk && o.revoked == {} ==> BurstStep(g, t, items, o) == Holding(t, Decide, items)
    ensures o.combine && |items| >= 2 ==>
              DecideStep(g, t, items, o)
              == if o.retryable then StartRequeue(t, items, g.db.pending) else Settle(t, items, [], false)
    ensures !(o.combine && |items| >= 2) ==> DecideStep(g, t, items, o) == Holding(t, Single, items)
    ensures SingleStep(g, t, items, o) == if o.retryable then StartRequeue(t, items, g.db.pending)
                                          else Settle(t, [items[0]], items[1..], true)
  {
    if o.revoked == {} { NothingRevoked(g, t, items, o); }
  }

  /** Revoked items are settled first, and what is left is then decided on as a burst of its own. */
  lemma RevokedFirst(g: Shared, t: Token, items: seq<Item>, o: Oracle, i: nat)
    requires o.storeOk && i < |items| && i in o.revoked
    ensures var pc := BurstStep(g, t, items, o);
            var kept := Select(items, o.revoked, false);
            && pc.Driving? && pc.phase.Complete? && pc.todo == Select(items, o.revoked, true) && items[i] in pc.todo
            && AfterAck(t, [], pc.rest, pc.single) == if kept == [] then Empty(t, Refresh) else Holding(t, Decide, kept)
  {
    SelectAt(items, o.revoked, true, i);
  }

  /** After one item of several taken singly the next one has its own turn. */
  lemma NextSingle(g: Shared, t: Token, items: seq<Item>, o: Oracle)
    requires items != [] && !(o.retryable && WellFormed(items[0]))
    ensures var pc := SingleStep(g, t, items, o);
            && pc.Driving? && pc.todo == [items[0]]
            && AfterAck(t, [], pc.rest, pc.single)
               == if |items| == 1 then Empty(t, Refresh) else Holding(t, Single, items[1..])
  {}

  lemma NothingRevoked(g: Shared, t: Token, items: seq<Item>, o: Oracle)
    requires o.revoked == {}
    ensures o.storeOk ==> BurstStep(g, t, items, o) == Holding(t, Decide, items)
  {
    SelectAll(items, o.revoked);
  }

  /** A delivery with an id claims it or is a duplicate; a failed enqueue gives the claim back and asks for a retry. */
  lemma DeliveryDecides(g: Shared, webhook: Item, o: Oracle)
    ensures webhook.messageId.Some? ==>
              WorkerStep(g, Arrived(webhook), o).pc == if webhook.messageId.value in g.db.claims then Duplicate
                                                       else Claimed(webhook.(claim := Some(g.nextToken)))
    ensures webhook.messageId.None? ==> WorkerStep(g, Arrived(webhook), o).pc == Claimed(webhook.(claim := None))
    ensures WorkerStep(g, Duplicate, o).pc == if g.db.pending != [] then WantLock else Returned(Settled)
    ensures o.storeOk ==> var n := WorkerStep(g, Claimed(webhook), o);
              n.pc == WantLock && Execute(g, n.command).db.pending == g.db.pending + [webhook]
    ensures !o.storeOk ==> var n := WorkerStep(g, Claimed(webhook), o);
              n.pc == Unclaim(webhook) && Execute(g, n.command) == g
    ensures var n := WorkerStep(g, Unclaim(webhook), o);
            n.pc == Returned(Retryable)
            && (ClaimLive(g.db.claims, webhook) ==>
                  Execute(g, n.command).db.claims == g.db.claims - {webhook.messageId.value})
  {}
}
