/** When a message id whose item is queued under a live claim is enqueued a second time. */
module InboundSecondCopy {
  import opened Prelude
  import opened QueueScripts
  import opened InboundProtocol
  import opened InboundInvariant
  import opened InboundClaims
  import opened InboundExactlyOnce
  import opened InboundHistory
  import opened InboundReclaim

  /** A queued item's record is live only if it was live when the item was enqueued. */
  ghost predicate LiveMeansGuarded(g: Shared) {
    forall x :: x in Queued(g.db) && ClaimLive(g.db.claims, x) ==> Guarded(g, x)
  }

  /** This record without expiry belongs to an item that is still queued, guarded and unfinished. */
  ghost predicate Backed(g: Shared, id: MessageId, t: Token) {
    exists x :: x in Queued(g.db) && x.messageId == Some(id) && x.claim == Some(t) && Guarded(g, x) && !Finished(g, x)
  }

  ghost predicate PersistentBacked(g: Shared) {
    forall id, t: Token :: id in g.db.claims && g.db.claims[id] == Processing(t, true) ==> Backed(g, id, t)
  }

  ghost predicate BackedOk(g: Shared) {
    LiveMeansGuarded(g) && PersistentBacked(g)
  }

  /** A step after which records are the same or fewer, and guarded queued items stay. */
  lemma FewerRecords(g: Shared, h: Shared)
    requires BackedOk(g) && h.guarded == g.guarded && h.completed == g.completed
    requires forall id :: id in h.db.claims && h.db.claims[id].Processing? && h.db.claims[id].persistent ==>
               id in g.db.claims && g.db.claims[id] == h.db.claims[id]
    requires forall id :: id in h.db.claims && h.db.claims[id].Processing? ==>
               (id in g.db.claims && g.db.claims[id] == h.db.claims[id])
               || (forall x :: x in Queued(h.db) ==> x.claim != Some(h.db.claims[id].token))
    requires forall x :: x in Queued(h.db) ==> x in Queued(g.db)
    requires forall x :: x in Queued(g.db) && RecordedFor(h, x) ==> x in Queued(h.db)
    ensures BackedOk(h)
  {
    forall id, t: Token | id in h.db.claims && h.db.claims[id] == Processing(t, true) ensures Backed(h, id, t) {
      assert Backed(g, id, t);
      var x :| x in Queued(g.db) && x.messageId == Some(id) && x.claim == Some(t) && Guarded(g, x) && !Finished(g, x);
      assert RecordedFor(h, x);
      assert x in Queued(h.db) && Guarded(h, x) && !Finished(h, x);
    }
    forall x | x in Queued(h.db) && ClaimLive(h.db.claims, x) ensures Guarded(h, x) {
      assert x in Queued(g.db);
      assert ClaimLive(g.db.claims, x);
    }
  }

  lemma PushBacked(g: Shared, item: Item)
    requires BackedOk(g) && ClaimsOk(g) && Permitted(g, Push(item))
    ensures BackedOk(Execute(g, Push(item)))
  {
    var h := Execute(g, Push(item));
    PushEffect(g, item);
    forall id, t: Token | id in h.db.claims && h.db.claims[id] == Processing(t, true) ensures Backed(h, id, t) {
      if g.db.claims[id] == Processing(t, true) {
        assert Backed(g, id, t);
        var x :| x in Queued(g.db) && x.messageId == Some(id) && x.claim == Some(t) && Guarded(g, x) && !Finished(g, x);
        assert x in Queued(h.db) && Guarded(h, x) && !Finished(h, x);
      } else {
        assert item in Queued(h.db) && Guarded(h, item) && !Finished(h, item);
      }
    }
    forall x | x in Queued(h.db) && ClaimLive(h.db.claims, x) ensures Guarded(h, x) {
      assert ClaimLive(g.db.claims, x);
      if x in Queued(g.db) { assert Guarded(g, x); } else { assert x == item; }
    }
  }

  lemma PutBackBacked(g: Shared, item: Item)
    requires BackedOk(g) && ClaimsOk(g) && item in g.db.inflight
    ensures BackedOk(Execute(g, PutBack(item)))
  {
    var h := Execute(g, PutBack(item));
    EnqueueMoves(g.db, item, true);
    assert item in Queued(g.db);
    assert ClaimLive(g.db.claims, item) ==> Guarded(g, item);
    assert h.db.claims == g.db.claims;
    FewerRecords(g, h);
  }

  lemma RemoveBacked(g: Shared, item: Item)
    requires BackedOk(g)
    ensures BackedOk(Execute(g, Remove(item)))
  {
    var h := Execute(g, Remove(item));
    if Acknowledge(g.db, item).value {
      AckMoves(g.db, item);
      forall x | x in Queued(g.db) && RecordedFor(h, x) ensures x in Queued(h.db) {
        assert x != item;
        assert Queued(g.db)[x] == Queued(h.db)[x];
      }
      FewerRecords(g, h);
    }
  }

  lemma CompleteBacked(g: Shared, item: Item)
    requires BackedOk(g) && ClaimsOk(g) && Permitted(g, CompleteId(item))
    ensures BackedOk(Execute(g, CompleteId(item)))
  {
    var h := Execute(g, CompleteId(item));
    assert Queued(h.db) == Queued(g.db);
    forall id, t: Token | id in h.db.claims && h.db.claims[id] == Processing(t, true) ensures Backed(h, id, t) {
      assert g.db.claims[id] == Processing(t, true) && Backed(g, id, t);
      var x :| x in Queued(g.db) && x.messageId == Some(id) && x.claim == Some(t) && Guarded(g, x) && !Finished(g, x);
      assert ClaimLive(g.db.claims, item) && item.claim == Some(t) ==> item.messageId == Some(id);
      assert x in Queued(h.db) && Guarded(h, x) && !Finished(h, x);
    }
    forall x | x in Queued(h.db) && ClaimLive(h.db.claims, x) ensures Guarded(h, x) {
      assert ClaimLive(g.db.claims, x);
    }
  }

  lemma ClaimIdBacked(g: Shared, id: MessageId)
    requires BackedOk(g) && ClaimsOk(g)
    ensures BackedOk(Execute(g, ClaimId(id)))
  {
    FewerRecords(g, Execute(g, ClaimId(id)));
  }

  lemma PopBacked(g: Shared, t: Token)
    requires BackedOk(g)
    ensures BackedOk(Execute(g, PopFront(t)))
  {
    PopMoves(g.db, t);
    FewerRecords(g, Execute(g, PopFront(t)));
  }

  lemma CommandBacked(g: Shared, c: Command)
    requires BackedOk(g) && ClaimsOk(g) && Permitted(g, c)
    ensures BackedOk(Execute(g, c))
  {
    match c
    case Push(item) => PushBacked(g, item);
    case PutBack(item) => if item in g.db.inflight { PutBackBacked(g, item); } else { RefusedPutBack(g, item); }
    case Remove(item) => RemoveBacked(g, item);
    case CompleteId(item) => CompleteBacked(g, item);
    case ClaimId(id) => ClaimIdBacked(g, id);
    case PopFront(t) => PopBacked(g, t);
    case _ => QueueStill(g, c); FewerRecords(g, Execute(g, c));
  }

  lemma {:induction false} RunBacked(limit: nat, actions: seq<Action>)
    ensures BackedOk(Run(limit, actions).shared)
  {
    if actions != [] {
      var n := |actions| - 1;
      var s, a := Run(limit, actions[..n]), actions[n];
      RunBacked(limit, actions[..n]);
      AtClaims(limit, actions, n);
      IssuedIsPermitted(s, a);
      SharedAfter(s, a);
      match a
      case LockExpires => FewerRecords(s.shared, Apply(s, a).shared);
      case ClaimExpires(id) => FewerRecords(s.shared, Apply(s, a).shared);
      case _ => CommandBacked(s.shared, Issued(s, a));
    }
  }

  // ---------- Results ----------

  /** An item with this id is queued under its live claim and not finished. */
  ghost predicate InProgress(g: Shared, id: MessageId) {
    exists x :: x in Queued(g.db) && x.messageId == Some(id) && Guarded(g, x) && !Finished(g, x)
  }

  /** The id's claim key holds somebody's processing token that no longer expires. */
  predicate HeldForGood(g: Shared, id: MessageId) {
    id in g.db.claims && g.db.claims[id].Processing? && g.db.claims[id].persistent
  }

  lemma InProgressExactly(g: Shared, id: MessageId)
    requires ClaimsOk(g) && BackedOk(g)
    ensures InProgress(g, id) <==> HeldForGood(g, id)
  {
    if InProgress(g, id) {
      var x :| x in Queued(g.db) && x.messageId == Some(id) && Guarded(g, x) && !Finished(g, x);
      assert RecordedFor(g, x);
    }
    if HeldForGood(g, id) {
      assert Backed(g, id, g.db.claims[id].token);
      var x :| x in Queued(g.db) && x.messageId == Some(id) && x.claim == Some(g.db.claims[id].token)
               && Guarded(g, x) && !Finished(g, x);
    }
  }

  // ---------- Completed, not acknowledged ----------

  /** Step k acknowledges x and so takes it out of flight. */
  predicate Settles(limit: nat, actions: seq<Action>, k: nat, x: Item) {
    && k < |actions|
    && Issued(At(limit, actions, k), actions[k]) == Remove(x)
    && Acknowledge(At(limit, actions, k).shared.db, x).value
  }

  /** Step m recorded the completion of x, and no later step acknowledged x. */
  ghost predicate CompletedAt(limit: nat, actions: seq<Action>, m: nat, x: Item) {
    Completes(limit, actions, m, x) && forall k :: m < k < |actions| ==> !Settles(limit, actions, k, x)
  }

  /** A finished item stays in flight until it is acknowledged. */
  lemma FinishedStays(s: State, a: Action, x: Item)
    requires Reserved(s) && AllClaims(s) && Finished(s.shared, x) && x in s.shared.db.inflight
    requires !(Issued(s, a) == Remove(x) && Acknowledge(s.shared.db, x).value)
    ensures x in Apply(s, a).shared.db.inflight
  {
    var g, c := s.shared, Issued(s, a);
    SharedAfter(s, a);
    IssuedIsPermitted(s, a);
    match c
    case Remove(y) => if Acknowledge(g.db, y).value { StillThere(g.db.inflight, y, x); }
    case PutBack(y) => if y in g.db.inflight { StillThere(g.db.inflight, y, x); }
    case _ =>
  }

  lemma StillThere(list: seq<Item>, y: Item, x: Item)
    requires y in list && x in list && x != y
    ensures x in Forget(list, y)
  {
    assert x in multiset(list);
    assert x in multiset(Forget(list, y)) + multiset{y};
  }

  lemma NextInFlight(limit: nat, actions: seq<Action>, k: nat, x: Item)
    requires k < |actions| && !Settles(limit, actions, k, x)
    requires var g := At(limit, actions, k).shared; x in g.db.inflight && Guarded(g, x) && Finished(g, x)
    ensures var h := At(limit, actions, k + 1).shared; x in h.db.inflight && Guarded(h, x) && Finished(h, x)
  {
    AtClaims(limit, actions, k);
    NextState(limit, actions, k);
    MarksGrow(At(limit, actions, k), actions[k]);
    FinishedStays(At(limit, actions, k), actions[k], x);
  }

  lemma CompletedInFlight(limit: nat, actions: seq<Action>, m: nat, x: Item)
    requires Completes(limit, actions, m, x)
    ensures var g := At(limit, actions, m + 1).shared; x in g.db.inflight && Guarded(g, x) && Finished(g, x)
  {
    var s := At(limit, actions, m);
    AtClaims(limit, actions, m);
    RunBacked(limit, actions[..m]);
    IssuedIsPermitted(s, actions[m]);
    NextState(limit, actions, m);
    SharedAfter(s, actions[m]);
    assert x in Queued(s.shared.db);
  }

  /** From its completion on, x is in flight as long as no step acknowledges it. */
  lemma {:induction false} StaysInFlight(limit: nat, actions: seq<Action>, m: nat, n: nat, x: Item)
    requires CompletedAt(limit, actions, m, x) && m < n <= |actions|
    ensures x in At(limit, actions, n).shared.db.inflight
    ensures Guarded(At(limit, actions, n).shared, x) && Finished(At(limit, actions, n).shared, x)
    decreases n
  {
    if n - 1 == m {
      CompletedInFlight(limit, actions, m, x);
    } else {
      StaysInFlight(limit, actions, m, n - 1, x);
      assert !Settles(limit, actions, n - 1, x);
      NextInFlight(limit, actions, n - 1, x);
    }
  }

  lemma LeavesForGood(g: Shared, x: Item)
    requires ClaimsOk(g) && x in Queued(g.db) && x.claim.Some? && Acknowledge(g.db, x).value
    ensures x !in Queued(Execute(g, Remove(x)).db)
  {
    AckMoves(g.db, x);
    assert Queued(g.db)[x] == 1;
  }

  /** What is still queued was not acknowledged. */
  lemma NotSettled(limit: nat, actions: seq<Action>, k: nat, x: Item)
    requires k < |actions| && Guarded(At(limit, actions, k).shared, x)
    requires x in Queued(Run(limit, actions).shared.db)
    ensures !Settles(limit, actions, k, x)
  {
    assert actions[..|actions|] == actions;
    MarkedLater(limit, actions, k, k + 1, x.claim.value);
    QueuedSince(limit, actions, k + 1, |actions|, x);
    QueuedSince(limit, actions, k, |actions|, x);
    AtClaims(limit, actions, k);
    NextState(limit, actions, k);
    SharedAfter(At(limit, actions, k), actions[k]);
    if Settles(limit, actions, k, x) { LeavesForGood(At(limit, actions, k).shared, x); }
  }

  /** A guarded item is queued and finished exactly between its completion and its acknowledgement. */
  lemma FinishedExactly(limit: nat, actions: seq<Action>, x: Item)
    requires x.messageId.Some?
    ensures var g := Run(limit, actions).shared;
            x in Queued(g.db) && Guarded(g, x) && Finished(g, x)
            <==> exists m: nat :: CompletedAt(limit, actions, m, x)
  {
    var g, n := Run(limit, actions).shared, |actions|;
    assert actions[..n] == actions;
    if m: nat :| CompletedAt(limit, actions, m, x) { StaysInFlight(limit, actions, m, n, x); }
    if x in Queued(g.db) && Guarded(g, x) && Finished(g, x) {
      var m := CompletionStep(limit, actions, n, x.claim.value);
      CompletedWas(limit, actions, m, n, x);
      GuardedBeforeCompleted(limit, actions, m + 1, n, x.claim.value);
      forall k | m < k < n ensures !Settles(limit, actions, k, x) {
        MarkedLater(limit, actions, m + 1, k, x.claim.value);
        NotSettled(limit, actions, k, x);
      }
      assert CompletedAt(limit, actions, m, x);
    }
  }

  // ---------- Results ----------

  /** Beside y another item of its id is queued that was enqueued under its live claim. */
  ghost predicate BesideGuarded(g: Shared, y: Item) {
    exists x :: x in Queued(g.db) && x != y && x.messageId == y.messageId && Guarded(g, x)
  }

  /** Pushing y puts it beside exactly the guarded items that were queued before. */
  lemma PushedBeside(g: Shared, y: Item)
    requires ClaimsOk(g) && Permitted(g, Push(y))
    ensures var h := Execute(g, Push(y));
            && y in Queued(h.db)
            && (BesideGuarded(h, y) <==> exists x :: x in Queued(g.db) && x.messageId == y.messageId && Guarded(g, x))
  {
    var h := Execute(g, Push(y));
    PushEffect(g, y);
    if x :| x in Queued(g.db) && x.messageId == y.messageId && Guarded(g, x) {
      assert x in Queued(h.db) && x != y && Guarded(h, x);
    }
    if x :| x in Queued(h.db) && x != y && x.messageId == y.messageId && Guarded(h, x) {
      assert x in Queued(g.db) && Guarded(g, x);
    }
  }

  lemma PushedUnguarded(g: Shared, y: Item)
    requires ClaimsOk(g) && Permitted(g, Push(y)) && y.messageId.Some? && InProgress(g, y.messageId.value)
    ensures !ClaimLive(g.db.claims, y) && !Guarded(Execute(g, Push(y)), y)
  {
    var x :| x in Queued(g.db) && x.messageId == y.messageId && Guarded(g, x) && !Finished(g, x);
    assert RecordedFor(g, x);
  }

  /** This item of y's id is queued under its live claim and finished. */
  predicate FinishedBeside(g: Shared, y: Item, x: Item) {
    x in Queued(g.db) && x.messageId == y.messageId && Guarded(g, x) && Finished(g, x)
  }

  lemma BesideExactly(g: Shared, y: Item)
    requires ClaimsOk(g) && BackedOk(g) && Permitted(g, Push(y)) && y.messageId.Some?
    ensures var h := Execute(g, Push(y));
            && y in Queued(h.db)
            && (BesideGuarded(h, y)
                <==> HeldForGood(g, y.messageId.value) || exists x :: FinishedBeside(g, y, x))
            && (HeldForGood(g, y.messageId.value) ==> !ClaimLive(g.db.claims, y) && !Guarded(h, y))
  {
    PushedBeside(g, y);
    InProgressExactly(g, y.messageId.value);
    if InProgress(g, y.messageId.value) { PushedUnguarded(g, y); }
    if x :| x in Queued(g.db) && x.messageId == y.messageId && Guarded(g, x) {
      if Finished(g, x) { assert FinishedBeside(g, y, x); } else { assert InProgress(g, y.messageId.value); }
    }
    if x :| FinishedBeside(g, y, x) { assert x in Queued(g.db) && x.messageId == y.messageId && Guarded(g, x); }
  }

  lemma PushIssued(limit: nat, actions: seq<Action>, w: nat, y: Item, o: Oracle)
    requires w < |Run(limit, actions).workers| && Run(limit, actions).workers[w] == Claimed(y) && o.storeOk
    ensures var g := Run(limit, actions).shared;
            && ClaimsOk(g) && BackedOk(g) && Permitted(g, Push(y))
            && Run(limit, actions + [Work(w, o)]).shared == Execute(g, Push(y))
  {
    var s := Run(limit, actions);
    assert actions[..|actions|] == actions;
    assert (actions + [Work(w, o)])[..|actions|] == actions;
    AtClaims(limit, actions, |actions|);
    RunBacked(limit, actions);
    IssuedIsPermitted(s, Work(w, o));
    assert Issued(s, Work(w, o)) == Push(y);
  }

  /**
   The exact case the enqueue script does not refuse. A worker that enqueues y puts it beside another
   queued item of the same id that was enqueued under its live claim if and only if the id's claim key
   holds a processing token without expiry, or some step of the run recorded such an item's completion
   and no later one acknowledged it. In the first case y's own claim was lost before its enqueue.
   */
  lemma EnqueuedTwiceExactly(limit: nat, actions: seq<Action>, w: nat, y: Item, o: Oracle)
    requires w < |Run(limit, actions).workers| && Run(limit, actions).workers[w] == Claimed(y)
    requires y.messageId.Some? && o.storeOk
    ensures var g, h := Run(limit, actions).shared, Run(limit, actions + [Work(w, o)]).shared;
            && y in Queued(h.db)
            && (BesideGuarded(h, y)
                <==> HeldForGood(g, y.messageId.value)
                     || exists m: nat, x: Item :: x.messageId == y.messageId && CompletedAt(limit, actions, m, x))
            && (HeldForGood(g, y.messageId.value) ==> !ClaimLive(g.db.claims, y) && !Guarded(h, y))
  {
    var g := Run(limit, actions).shared;
    PushIssued(limit, actions, w, y, o);
    BesideExactly(g, y);
    if x :| FinishedBeside(g, y, x) { FinishedExactly(limit, actions, x); }
    if m: nat, x: Item :| x.messageId == y.messageId && CompletedAt(limit, actions, m, x) {
      FinishedExactly(limit, actions, x);
      assert FinishedBeside(g, y, x);
    }
  }
}
