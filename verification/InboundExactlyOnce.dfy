/** Conservation of accepted items, and what a queued item's claim shuts out. */
module InboundExactlyOnce {
  import opened Prelude
  import opened QueueScripts
  import opened BurstOrder
  import opened InboundProtocol
  import opened InboundInvariant
  import opened InboundReservation
  import opened InboundClaims

  // ---------- Conservation ----------

  lemma PopMoves(db: Db, t: Token)
    ensures Queued(Pop(db, t).db) == Queued(db)
  {
    if db.pending != [] {
      assert db.pending == [db.pending[0]] + db.pending[1..];
      assert multiset(db.pending) == multiset{db.pending[0]} + multiset(db.pending[1..]);
    }
  }

  lemma EnqueueMoves(db: Db, item: Item, front: bool)
    ensures Queued(Enqueue(db, item, None, front).db) == Queued(db) + multiset{item}
    ensures item in db.inflight ==> Queued(Enqueue(db, item, Some(item), front).db) == Queued(db)
  {}

  lemma AckMoves(db: Db, item: Item)
    requires Acknowledge(db, item).value
    ensures Queued(Acknowledge(db, item).db) + multiset{item} == Queued(db)
  {}

  predicate MovesItems(c: Command) {
    c.Push? || c.PopFront? || c.Remove? || c.PutBack?
  }

  lemma QueueStill(g: Shared, c: Command)
    requires !MovesItems(c)
    ensures Execute(g, c).db.pending == g.db.pending && Execute(g, c).db.inflight == g.db.inflight
    ensures Execute(g, c).settled == g.settled && Execute(g, c).accepted == g.accepted
  {}

  /** What each command that moves items does to the two lists, the accepted items and the settled ones. */
  lemma PushEffect(g: Shared, item: Item)
    ensures var h := Execute(g, Push(item));
            && Queued(h.db) == Queued(g.db) + multiset{item}
            && h.accepted == g.accepted + multiset{item} && h.settled == g.settled
  {
    EnqueueMoves(g.db, item, false);
  }

  lemma MoveEffect(g: Shared, c: Command)
    requires c.PopFront? || c.PutBack?
    ensures var h := Execute(g, c);
            Queued(h.db) == Queued(g.db) && h.accepted == g.accepted && h.settled == g.settled
  {
    match c
    case PopFront(t) => PopMoves(g.db, t);
    case PutBack(item) => EnqueueMoves(g.db, item, true);
  }

  lemma RemoveEffect(g: Shared, item: Item)
    ensures var h := Execute(g, Remove(item));
            h == g || (Queued(h.db) + multiset{item} == Queued(g.db)
                       && h.accepted == g.accepted && h.settled == g.settled + multiset{item})
  {
    if Acknowledge(g.db, item).value { AckMoves(g.db, item); }
  }

  lemma CommandConserves(g: Shared, c: Command)
    requires Conserved(g)
    ensures Conserved(Execute(g, c))
  {
    if !MovesItems(c) { QueueStill(g, c); }
    else if c.Push? { PushEffect(g, c.item); }
    else if c.Remove? { RemoveEffect(g, c.item); }
    else { MoveEffect(g, c); }
  }

  lemma {:induction false} AfterConserves(s: State, actions: seq<Action>)
    requires Conserved(s.shared)
    ensures Conserved(After(s, actions).shared)
  {
    if actions != [] {
      var before := After(s, actions[..|actions| - 1]);
      AfterConserves(s, actions[..|actions| - 1]);
      var a := actions[|actions| - 1];
      if a.Work? && a.worker < |before.workers| {
        CommandConserves(before.shared, WorkerStep(before.shared, before.workers[a.worker], a.oracle).command);
      }
    }
  }

  /**
   Nothing is lost and nothing is duplicated: after every run, with any crashes, lease losses and
   exceptions, each accepted item is in exactly one of pending, in flight, or acknowledged.
   */
  lemma NothingLost(limit: nat, actions: seq<Action>)
    ensures var g := Run(limit, actions).shared;
            multiset(g.db.pending) + multiset(g.db.inflight) + g.settled == g.accepted
  {
    AfterConserves(Initial(limit), actions);
  }

  // ---------- Claims: the shared state ----------

  lemma DistinctCarry(g: Shared, h: Shared)
    requires TokensIssued(g) && DistinctRecords(g) && GuardsKept(g, h)
    ensures DistinctRecords(h)
  {}

  /** Any step that neither enqueues nor completes a message. */
  lemma ClaimsCarry(g: Shared, h: Shared)
    requires ClaimsOk(g) && g.nextToken <= h.nextToken
    requires h.guarded == g.guarded && h.completed == g.completed
    requires forall x :: x in Queued(h.db) ==> x in Queued(g.db) && Queued(h.db)[x] <= Queued(g.db)[x]
    requires forall x :: x in h.db.pending ==> !Finished(h, x)
    requires GuardsKept(g, h)
    ensures ClaimsOk(h)
  {
    DistinctCarry(g, h);
    assert OneCopy(h) by {
      forall x, y | x in Queued(h.db) && y in Queued(h.db) && x.claim.Some? && x.claim == y.claim
        ensures x == y && Queued(h.db)[x] == 1
      {
        assert x in Queued(g.db) && y in Queued(g.db);
      }
    }
    assert ClaimsHeld(h) by {
      forall x | x in Queued(h.db) && Guarded(h, x) && !Finished(h, x) ensures RecordedFor(h, x) {
        assert x in Queued(g.db) && Guarded(g, x) && !Finished(g, x);
        assert RecordedFor(g, x);
      }
    }
  }

  lemma PushGuards(g: Shared, item: Item)
    requires ClaimsOk(g) && Permitted(g, Push(item))
    ensures ClaimsHeld(Execute(g, Push(item))) && GuardsPersist(Execute(g, Push(item)))
  {
    var h := Execute(g, Push(item));
    assert Queued(h.db) == Queued(g.db) + multiset{item};
    forall x | x in Queued(h.db) && Guarded(h, x) && !Finished(h, x) ensures RecordedFor(h, x) {
      if x in Queued(g.db) && Guarded(g, x) {
        assert !Finished(g, x) && RecordedFor(g, x);
      }
    }
  }

  lemma PushOneCopy(g: Shared, h: Shared, item: Item)
    requires OneCopy(g) && Permitted(g, Push(item)) && Queued(h.db) == Queued(g.db) + multiset{item}
    ensures OneCopy(h)
  {}

  lemma PushClaims(g: Shared, item: Item)
    requires ClaimsOk(g) && Permitted(g, Push(item))
    ensures ClaimsOk(Execute(g, Push(item)))
  {
    var h := Execute(g, Push(item));
    PushEffect(g, item);
    PushGuards(g, item);
    PushOneCopy(g, h, item);
    assert PendingUnfinished(h) && DistinctRecords(h);
  }

  lemma CompleteHeld(g: Shared, h: Shared, item: Item)
    requires OneCopy(g) && ClaimsHeld(g) && TokensIssued(g) && DistinctRecords(g)
    requires h == Execute(g, CompleteId(item)) && item in Queued(g.db)
    ensures ClaimsHeld(h)
  {
    forall x | x in Queued(h.db) && Guarded(h, x) && !Finished(h, x) ensures RecordedFor(h, x) {
      assert x in Queued(g.db) && RecordedFor(g, x);
    }
  }

  lemma CompletePending(g: Shared, h: Shared, item: Item)
    requires OneCopy(g) && PendingUnfinished(g) && item in g.db.inflight
    requires h == Execute(g, CompleteId(item))
    ensures PendingUnfinished(h)
  {
    forall x | x in h.db.pending ensures !Finished(h, x) {
      assert x in Queued(g.db) && item in Queued(g.db) && !Finished(g, x);
      assert Queued(g.db)[x] == multiset(g.db.pending)[x] + multiset(g.db.inflight)[x];
    }
  }

  lemma CompleteClaims(g: Shared, item: Item)
    requires ClaimsOk(g) && Permitted(g, CompleteId(item))
    ensures ClaimsOk(Execute(g, CompleteId(item)))
  {
    var h := Execute(g, CompleteId(item));
    assert Queued(h.db) == Queued(g.db) && item in Queued(g.db);
    CompleteHeld(g, h, item);
    CompletePending(g, h, item);
  }

  lemma PutBackClaims(g: Shared, item: Item)
    requires ClaimsOk(g) && Permitted(g, PutBack(item)) && item in g.db.inflight
    ensures ClaimsOk(Execute(g, PutBack(item)))
  {
    var h := Execute(g, PutBack(item));
    EnqueueMoves(g.db, item, true);
    assert h.db.pending == [item] + g.db.pending && h.db.claims == Persist(g.db.claims, item);
    assert Queued(h.db) == Queued(g.db);
    PersistKeepsGuards(g, h, item);
    ClaimsCarry(g, h);
  }

  lemma PersistKeepsGuards(g: Shared, h: Shared, item: Item)
    requires ClaimsOk(g) && h.db.claims == Persist(g.db.claims, item)
    ensures GuardsKept(g, h)
  {}

  lemma ClaimIdClaims(g: Shared, id: MessageId)
    requires ClaimsOk(g)
    ensures ClaimsOk(Execute(g, ClaimId(id)))
  {
    ClaimsCarry(g, Execute(g, ClaimId(id)));
  }

  lemma ReleaseIdClaims(g: Shared, item: Item)
    requires ClaimsOk(g) && !Guarded(g, item)
    ensures ClaimsOk(Execute(g, ReleaseId(item)))
  {
    ClaimsCarry(g, Execute(g, ReleaseId(item)));
  }

  lemma ExpiryClaims(g: Shared, id: MessageId)
    requires ClaimsOk(g)
    ensures ClaimsOk(g.(db := ExpireClaim(g.db, id)))
  {
    ClaimsCarry(g, g.(db := ExpireClaim(g.db, id)));
  }

  lemma RemoveClaims(g: Shared, item: Item)
    requires ClaimsOk(g)
    ensures ClaimsOk(Execute(g, Remove(item)))
  {
    if Acknowledge(g.db, item).value {
      AckMoves(g.db, item);
      ClaimsCarry(g, Execute(g, Remove(item)));
    }
  }

  lemma PopClaims(g: Shared, t: Token)
    requires ClaimsOk(g)
    ensures ClaimsOk(Execute(g, PopFront(t)))
  {
    PopMoves(g.db, t);
    ClaimsCarry(g, Execute(g, PopFront(t)));
  }

  lemma LockClaims(g: Shared, h: Shared)
    requires ClaimsOk(g) && g.nextToken <= h.nextToken
    requires h == g.(nextToken := h.nextToken, db := g.db.(lock := h.db.lock))
    ensures ClaimsOk(h)
  {
    assert Queued(h.db) == Queued(g.db);
    ClaimsCarry(g, h);
  }

  lemma RefusedPutBack(g: Shared, item: Item)
    requires item !in g.db.inflight
    ensures Execute(g, PutBack(item)) == g
  {}

  lemma CommandClaims(g: Shared, c: Command)
    requires ClaimsOk(g) && Permitted(g, c)
    ensures ClaimsOk(Execute(g, c))
  {
    match c
    case Nothing =>
    case ClaimId(id) => ClaimIdClaims(g, id);
    case Push(item) => PushClaims(g, item);
    case ReleaseId(item) => ReleaseIdClaims(g, item);
    case TakeLock => LockClaims(g, Execute(g, c));
    case DropLock(_) => LockClaims(g, Execute(g, c));
    case PopFront(t) => PopClaims(g, t);
    case CompleteId(item) => CompleteClaims(g, item);
    case Remove(item) => RemoveClaims(g, item);
    case PutBack(item) => if item in g.db.inflight { PutBackClaims(g, item); } else { RefusedPutBack(g, item); }
  }

  lemma PushAdds(g: Shared, item: Item)
    ensures AddsOnly(g, Push(item), Execute(g, Push(item)))
  {
    PushEffect(g, item);
  }

  lemma QuietAdds(g: Shared, c: Command)
    requires !c.Push?
    ensures AddsOnly(g, c, Execute(g, c))
  {
    var h := Execute(g, c);
    assert Queued(h.db) <= Queued(g.db) by {
      if !MovesItems(c) { QueueStill(g, c); }
      else if c.Remove? { RemoveEffect(g, c.item); }
      else { MoveEffect(g, c); }
    }
  }

  // ---------- Claims: the workers ----------

  lemma HeldIsQueued(g: Shared, pc: Pc, item: Item)
    requires WorkerOk(g, pc) && item in Held(pc)
    ensures item in g.db.inflight && item in Queued(g.db)
  {
    assert item in multiset(Held(pc));
    assert item in multiset(g.db.inflight);
  }

  lemma OthersClaims(s: State, w: nat, c: Command, h: Shared, v: nat)
    requires w < |s.workers| && v < |s.workers| && v != w
    requires Reserved(s) && AllClaims(s) && IssuedBy(s.shared, s.workers[w], c) && AddsOnly(s.shared, c, h)
    ensures WorkerClaims(h, s.workers[v])
  {
    var g, pc := s.shared, s.workers[v];
    assert WorkerClaims(g, pc);
    if Bearing(pc).Some? {
      assert Bearing(pc) != Bearing(s.workers[w]);
      if c.CompleteId? { assert c.item in Queued(g.db); }
    }
    if Held(pc) != [] && c.CompleteId? {
      assert Held(s.workers[w]) != [];
      HolderUnique(s, v, w);
    }
  }

  lemma DriveIssued(g: Shared, pc: Pc, o: Oracle)
    requires pc.Driving? && WorkerOk(g, pc) && WorkerClaims(g, pc)
    ensures IssuedBy(g, pc, DriveStep(g, pc, o).command)
  {
    if pc.phase.Complete? {
      assert pc.todo[0] in Held(pc);
      HeldIsQueued(g, pc, pc.todo[0]);
    } else if pc.phase.Requeue? {
      assert pc.todo[|pc.todo| - 1] in Unfinished(pc);
    }
  }

  lemma StepIssued(g: Shared, pc: Pc, o: Oracle)
    requires WorkerOk(g, pc) && WorkerClaims(g, pc)
    ensures IssuedBy(g, pc, WorkerStep(g, pc, o).command)
  {
    if pc.Driving? { DriveIssued(g, pc, o); }
  }

  /** What a driving worker has left to finish: part of what it had, or the item it just popped. */
  predicate Fewer(g: Shared, pc: Pc, pc': Pc) {
    && Bearing(pc').None?
    && (forall y :: y in Unfinished(pc') ==> y in Unfinished(pc) || y in g.db.pending)
  }

  lemma DriveFewer(g: Shared, pc: Pc, o: Oracle)
    requires pc.Driving? && WorkerOk(g, pc)
    ensures Fewer(g, pc, DriveStep(g, pc, o).pc)
  {
    match pc.phase
    case Collect => PopFewer(g, pc);
    case Burst => BurstFewer(g, pc, o);
    case Ack => AckFewer(g, pc);
    case Requeue => RequeueFewer(g, pc);
    case Decide => GroupFewer(g, pc, o);
    case Single => GroupFewer(g, pc, o);
    case _ =>
  }

  lemma AckFewer(g: Shared, pc: Pc)
    requires pc.Driving? && pc.phase.Ack? && pc.todo != []
    ensures Fewer(g, pc, AckStep(g, pc).pc)
  {
    AfterAckShape(pc.token, pc.todo[1..], pc.rest, pc.single);
  }

  lemma RequeueFewer(g: Shared, pc: Pc)
    requires pc.Driving? && pc.phase.Requeue? && pc.todo != []
    ensures Fewer(g, pc, RequeueStep(g, pc).pc)
  {}

  lemma GroupFewer(g: Shared, pc: Pc, o: Oracle)
    requires pc.Driving? && (pc.phase.Decide? || pc.phase.Single?) && WorkerOk(g, pc)
    ensures Fewer(g, pc, DriveStep(g, pc, o).pc)
  {}

  lemma SortedMembers(items: seq<Item>)
    ensures forall y :: y in SortBurst(items) ==> y in items
  {
    SortBurstKeepsItems(items);
    forall y | y in SortBurst(items) ensures y in items {
      assert y in multiset(SortBurst(items)) && y in multiset(items);
    }
  }

  lemma PopFewer(g: Shared, pc: Pc)
    requires pc.Driving? && pc.phase.Collect? && pc.rest == []
    ensures Fewer(g, pc, PopStep(g, pc.token, pc.todo).pc)
  {
    SortedMembers(pc.todo);
    assert Unfinished(pc) == pc.todo;
    assert Unfinished(Holding(pc.token, Burst, SortBurst(pc.todo))) == SortBurst(pc.todo);
  }

  lemma BurstFewer(g: Shared, pc: Pc, o: Oracle)
    requires pc.Driving? && pc.phase.Burst? && WorkerOk(g, pc)
    ensures Fewer(g, pc, BurstStep(g, pc.token, pc.todo, o))
  {
    SelectSplits(pc.todo, o.revoked);
    var inside, outside := Select(pc.todo, o.revoked, true), Select(pc.todo, o.revoked, false);
    forall y | y in inside || y in outside ensures y in pc.todo {
      assert y in multiset(inside) + multiset(outside);
      assert y in multiset(pc.todo);
    }
  }

  lemma TwiceInHand(g: Shared, pc: Pc, item: Item, others: seq<Item>)
    requires ClaimsOk(g) && WorkerOk(g, pc) && WorkerClaims(g, pc)
    requires Held(pc) == Unfinished(pc) == [item] + others
    ensures OpenBeside(g, item, others)
  {
    assert multiset(Held(pc)) == multiset{item} + multiset(others);
    forall y | y in others ensures !Finished(g, y) && (item.claim.Some? ==> y.claim != item.claim) {
      assert y in Held(pc) && item in Held(pc);
      HeldIsQueued(g, pc, y);
      HeldIsQueued(g, pc, item);
      assert y in multiset(others);
      assert Queued(g.db)[y] >= multiset(g.db.inflight)[y];
    }
  }

  /** Recording one completion leaves the other items in hand unfinished. */
  lemma CompletedOwn(g: Shared, h: Shared, item: Item, others: seq<Item>, pc': Pc)
    requires AddsOnly(g, CompleteId(item), h) && Bearing(pc').None?
    requires Unfinished(pc') == others && OpenBeside(g, item, others)
    ensures WorkerClaims(h, pc')
  {}

  lemma InHandOpen(g: Shared, pc: Pc)
    requires ClaimsOk(g) && WorkerOk(g, pc) && WorkerClaims(g, pc) && pc.Driving? && pc.phase.Complete?
    ensures OpenBeside(g, pc.todo[0], pc.todo[1..] + pc.rest)
  {
    assert Held(pc) == [pc.todo[0]] + (pc.todo[1..] + pc.rest);
    TwiceInHand(g, pc, pc.todo[0], pc.todo[1..] + pc.rest);
  }

  lemma CompleteOwn(g: Shared, pc: Pc)
    requires pc.Driving? && pc.phase.Complete? && pc.todo != []
    requires OpenBeside(g, pc.todo[0], pc.todo[1..] + pc.rest)
    ensures WorkerClaims(Execute(g, CompleteId(pc.todo[0])), pc.(phase := Ack))
  {
    QuietAdds(g, CompleteId(pc.todo[0]));
    CompletedOwn(g, Execute(g, CompleteId(pc.todo[0])), pc.todo[0], pc.todo[1..] + pc.rest, pc.(phase := Ack));
  }

  lemma OnlyCompletePhase(g: Shared, pc: Pc, o: Oracle)
    requires pc.Driving? && !pc.phase.Complete?
    ensures var c := DriveStep(g, pc, o).command; !c.CompleteId? && !c.Push?
  {}

  lemma FewerOwn(g: Shared, pc: Pc, c: Command, h: Shared, pc': Pc)
    requires ClaimsOk(g) && WorkerClaims(g, pc) && Fewer(g, pc, pc')
    requires AddsOnly(g, c, h) && !c.CompleteId?
    ensures WorkerClaims(h, pc')
  {}

  lemma DriveOwn(g: Shared, pc: Pc, o: Oracle)
    requires ClaimsOk(g) && WorkerOk(g, pc) && WorkerClaims(g, pc) && pc.Driving?
    ensures var n := DriveStep(g, pc, o); WorkerClaims(Execute(g, n.command), n.pc)
  {
    if pc.phase.Complete? {
      InHandOpen(g, pc);
      CompleteOwn(g, pc);
    } else {
      var n := DriveStep(g, pc, o);
      DriveFewer(g, pc, o);
      OnlyCompletePhase(g, pc, o);
      QuietAdds(g, n.command);
      FewerOwn(g, pc, n.command, Execute(g, n.command), n.pc);
    }
  }

  lemma ArrivedOwn(g: Shared, webhook: Item)
    requires ClaimsOk(g)
    ensures var n := ClaimStep(g, webhook); var h := Execute(g, n.command);
            WorkerClaims(h, n.pc) && BearingMoves(g, Arrived(webhook), h, n.pc)
  {}

  /** Between the claim and the queue the worker bears the claim until it is pushed or given back. */
  lemma BearerOwn(g: Shared, pc: Pc, o: Oracle)
    requires (pc.Claimed? || pc.Unclaim?) && WorkerClaims(g, pc)
    ensures WorkerClaims(Execute(g, WorkerStep(g, pc, o).command), WorkerStep(g, pc, o).pc)
    ensures BearingMoves(g, pc, Execute(g, WorkerStep(g, pc, o).command), WorkerStep(g, pc, o).pc)
  {}

  lemma UndrivenOwn(g: Shared, pc: Pc, o: Oracle)
    requires !pc.Driving? && !pc.Arrived? && WorkerClaims(g, pc)
    ensures WorkerClaims(Execute(g, WorkerStep(g, pc, o).command), WorkerStep(g, pc, o).pc)
    ensures BearingMoves(g, pc, Execute(g, WorkerStep(g, pc, o).command), WorkerStep(g, pc, o).pc)
  {
    if pc.Claimed? || pc.Unclaim? { BearerOwn(g, pc, o); }
  }

  lemma StepOwn(g: Shared, pc: Pc, o: Oracle)
    requires ClaimsOk(g) && WorkerOk(g, pc) && WorkerClaims(g, pc)
    ensures WorkerClaims(Execute(g, WorkerStep(g, pc, o).command), WorkerStep(g, pc, o).pc)
    ensures BearingMoves(g, pc, Execute(g, WorkerStep(g, pc, o).command), WorkerStep(g, pc, o).pc)
  {
    if pc.Driving? {
      DriveOwn(g, pc, o);
      DriveFewer(g, pc, o);
    } else if pc.Arrived? {
      ArrivedOwn(g, pc.webhook);
    } else {
      UndrivenOwn(g, pc, o);
    }
  }

  lemma StepClaims(s: State, w: nat, o: Oracle)
    requires Reserved(s) && AllClaims(s) && w < |s.workers|
    ensures AllClaims(Apply(s, Work(w, o)))
  {
    var g, pc := s.shared, s.workers[w];
    assert WorkerOk(g, pc) && WorkerClaims(g, pc);
    var n := WorkerStep(g, pc, o);
    var h := Execute(g, n.command);
    StepIssued(g, pc, o);
    StepOwn(g, pc, o);
    CommandClaims(g, n.command);
    if n.command.Push? { PushAdds(g, n.command.item); } else { QuietAdds(g, n.command); }
    InstallClaims(s, w, n.command, h, n.pc);
  }

  lemma InstallClaims(s: State, w: nat, c: Command, h: Shared, pc': Pc)
    requires Reserved(s) && AllClaims(s) && w < |s.workers|
    requires IssuedBy(s.shared, s.workers[w], c) && AddsOnly(s.shared, c, h)
    requires ClaimsOk(h) && WorkerClaims(h, pc') && BearingMoves(s.shared, s.workers[w], h, pc')
    ensures AllClaims(State(h, s.workers[w := pc']))
  {
    forall v | 0 <= v < |s.workers| && v != w ensures WorkerClaims(h, s.workers[v]) {
      OthersClaims(s, w, c, h, v);
    }
    forall v | 0 <= v < |s.workers| && Bearing(s.workers[v]).Some?
      ensures Bearing(s.workers[v]).value < s.shared.nextToken
    {
      assert WorkerClaims(s.shared, s.workers[v]);
    }
  }

  lemma ApplyClaims(s: State, a: Action)
    requires Reserved(s) && AllClaims(s)
    ensures AllClaims(Apply(s, a))
  {
    match a
    case Deliver(webhook) => DeliverClaims(s, webhook);
    case Work(w, o) => if w < |s.workers| { StepClaims(s, w, o); }
    case Raise(w) => if w < |s.workers| { IdleClaims(s, w, Unwound(s.workers[w])); }
    case Crash(w) => if w < |s.workers| { IdleClaims(s, w, Returned(Raised)); }
    case LockExpires => LockExpiryClaims(s);
    case ClaimExpires(id) => ClaimExpiryClaims(s, id);
  }

  lemma DeliverClaims(s: State, webhook: Item)
    requires AllClaims(s)
    ensures AllClaims(s.(workers := s.workers + [Arrived(webhook)]))
  {
    assert WorkerClaims(s.shared, Arrived(webhook));
  }

  lemma LockExpiryClaims(s: State)
    requires AllClaims(s)
    ensures AllClaims(Apply(s, LockExpires))
  {
    var h := Apply(s, LockExpires).shared;
    LockClaims(s.shared, h);
    ServerClaims(s, h);
  }

  lemma ClaimExpiryClaims(s: State, id: MessageId)
    requires AllClaims(s)
    ensures AllClaims(Apply(s, ClaimExpires(id)))
  {
    ExpiryClaims(s.shared, id);
    ServerClaims(s, Apply(s, ClaimExpires(id)).shared);
  }

  lemma IdleClaims(s: State, w: nat, pc': Pc)
    requires AllClaims(s) && w < |s.workers| && Bearing(pc').None? && Unfinished(pc') == []
    ensures AllClaims(State(s.shared, s.workers[w := pc']))
  {}

  lemma ServerClaims(s: State, h: Shared)
    requires AllClaims(s) && ClaimsOk(h) && Queued(h.db) == Queued(s.shared.db)
    requires h.guarded == s.shared.guarded && h.completed == s.shared.completed && h.nextToken == s.shared.nextToken
    ensures AllClaims(State(h, s.workers))
  {
    forall v | 0 <= v < |s.workers| ensures WorkerClaims(h, s.workers[v]) {
      assert WorkerClaims(s.shared, s.workers[v]);
    }
  }

  lemma {:induction false} AfterClaims(s: State, actions: seq<Action>)
    requires Reserved(s) && AllClaims(s)
    ensures AllClaims(After(s, actions))
  {
    if actions != [] {
      var past := actions[..|actions| - 1];
      AfterKeeps(s, past);
      AfterClaims(s, past);
      ApplyClaims(After(s, past), actions[|actions| - 1]);
    }
  }

  // ---------- Results over all runs ----------

  /**
   While an item enqueued under its live claim is pending, or in flight with no completion recorded, its
   claim key holds its own unexpiring token. So claiming the id is refused, the item is queued exactly
   once, and any other queued item with that id was enqueued without a live claim or is finished.
   */
  lemma NoSecondCopy(limit: nat, actions: seq<Action>, x: Item, newToken: Token)
    requires var g := Run(limit, actions).shared;
             && Guarded(g, x)
             && (x in g.db.pending || (x in g.db.inflight && !Finished(g, x)))
    ensures var g := Run(limit, actions).shared;
            && RecordedFor(g, x)
            && !ClaimMessage(g.db, x.messageId.value, newToken).value
            && Queued(g.db)[x] == 1
            && (forall y :: y in Queued(g.db) && y.messageId == x.messageId && y != x ==>
                  !Guarded(g, y) || Finished(g, y))
  {
    var g := Run(limit, actions).shared;
    AfterClaims(Initial(limit), actions);
    assert x in Queued(g.db) && !Finished(g, x);
    forall y | y in Queued(g.db) && Guarded(g, y) && !Finished(g, y) && y.messageId == x.messageId ensures y == x {
      assert RecordedFor(g, y) && RecordedFor(g, x);
    }
  }

  /**
   Leaving flight for good: an item with a claim is acknowledged only while its claim key reads
   completed; if it was enqueued under its live claim, that completion was recorded under its own token.
   */
  lemma SettledOnlyCompleted(limit: nat, actions: seq<Action>, x: Item)
    requires var g := Run(limit, actions).shared;
             x.claim.Some? && x.messageId.Some? && x in g.db.inflight && Acknowledge(g.db, x).value
    ensures var g := Run(limit, actions).shared;
            && x.messageId.value in g.db.claims && g.db.claims[x.messageId.value] == Completed
            && (Guarded(g, x) ==> Finished(g, x))
  {
    var g := Run(limit, actions).shared;
    AfterClaims(Initial(limit), actions);
    assert x in Queued(g.db);
    assert Guarded(g, x) && !Finished(g, x) ==> RecordedFor(g, x);
  }
}
