/** Exactly when the message id of a queued item can be claimed a second time. */
module InboundReclaim {
  import opened QueueScripts
  import opened InboundProtocol
  import opened InboundClaims
  import opened InboundHistory

  /** Step m records the completion of x, under the token its claim key holds at that moment. */
  predicate Completes(limit: nat, actions: seq<Action>, m: nat, x: Item) {
    m < |actions|
    && Issued(At(limit, actions, m), actions[m]) == CompleteId(x)
    && ClaimLive(At(limit, actions, m).shared.db.claims, x)
  }

  /** Step k claims the id of x while x, enqueued under its live claim, is still queued. */
  predicate Reclaims(limit: nat, actions: seq<Action>, k: nat, x: Item) {
    k < |actions| && x.messageId.Some?
    && Guarded(At(limit, actions, k).shared, x) && x in Queued(At(limit, actions, k).shared.db)
    && Issued(At(limit, actions, k), actions[k]) == ClaimId(x.messageId.value)
    && ClaimMessage(At(limit, actions, k).shared.db, x.messageId.value, At(limit, actions, k).shared.nextToken).value
  }

  /** The completion of x was recorded at one step, and the claim records of its id expired at a later one. */
  ghost predicate CompletedThenExpired(limit: nat, actions: seq<Action>, j: nat, x: Item)
    requires j <= |actions| && x.messageId.Some?
  {
    exists m: nat, e: nat :: m < e < j && Completes(limit, actions, m, x)
      && actions[e] == ClaimExpires(x.messageId.value)
  }

  /** A guarded, queued item whose id is free was completed, and then its record expired. */
  lemma FreeMeansExpired(limit: nat, actions: seq<Action>, j: nat, x: Item)
    requires j <= |actions| && x.messageId.Some?
    requires Guarded(At(limit, actions, j).shared, x) && x in Queued(At(limit, actions, j).shared.db)
    requires x.messageId.value !in At(limit, actions, j).shared.db.claims
    ensures CompletedThenExpired(limit, actions, j, x)
  {
    var t, id := x.claim.value, x.messageId.value;
    AtClaims(limit, actions, j);
    assert !Finished(At(limit, actions, j).shared, x) ==> RecordedFor(At(limit, actions, j).shared, x);
    var m := CompletionStep(limit, actions, j, t);
    CompletedWas(limit, actions, m, j, x);
    var e := ExpiryStep(limit, actions, m + 1, j, id);
  }

  /** The step that completed the token of a guarded item still queued later completed that very item. */
  lemma CompletedWas(limit: nat, actions: seq<Action>, m: nat, j: nat, x: Item)
    requires m < j <= |actions| && x.messageId.Some?
    requires Guarded(At(limit, actions, j).shared, x) && x in Queued(At(limit, actions, j).shared.db)
    requires !Finished(At(limit, actions, m).shared, x) && Finished(At(limit, actions, m + 1).shared, x)
    ensures Completes(limit, actions, m, x)
    ensures ReadsCompleted(At(limit, actions, m + 1).shared, x.messageId.value)
  {
    var s, t := At(limit, actions, m), x.claim.value;
    NextState(limit, actions, m);
    CompletionIssued(s, actions[m], t);
    GuardedBeforeCompleted(limit, actions, m + 1, j, t);
    QueuedSince(limit, actions, m, j, x);
    AtClaims(limit, actions, m);
    IssuedIsPermitted(s, actions[m]);
    var y := Issued(s, actions[m]).item;
    assert y in Queued(s.shared.db) && x in Queued(s.shared.db);
    SharedAfter(s, actions[m]);
  }

  /** After both steps the id is free, unless it was claimed again already. */
  lemma ExpiredMeansFree(limit: nat, actions: seq<Action>, x: Item, m: nat, e: nat)
    requires x.messageId.Some? && m < e < |actions|
    requires Guarded(At(limit, actions, |actions|).shared, x) && x in Queued(At(limit, actions, |actions|).shared.db)
    requires Completes(limit, actions, m, x) && actions[e] == ClaimExpires(x.messageId.value)
    ensures x.messageId.value !in At(limit, actions, |actions|).shared.db.claims
            || exists k: nat :: Reclaims(limit, actions, k, x)
  {
    var id, n := x.messageId.value, |actions|;
    var t := x.claim.value;
    NextState(limit, actions, m);
    SharedAfter(At(limit, actions, m), actions[m]);
    assert ReadsCompleted(At(limit, actions, m + 1).shared, id) && t in At(limit, actions, m + 1).shared.completed;
    GuardedBeforeCompleted(limit, actions, m + 1, n, t);
    var gone := GoneAfter(limit, actions, m + 1, e, id);
    if id in At(limit, actions, n).shared.db.claims {
      var k := ClaimStepAfter(limit, actions, gone, n, id);
      MarkedLater(limit, actions, m + 1, k, t);
      QueuedSince(limit, actions, k, n, x);
      assert Reclaims(limit, actions, k, x);
    }
  }

  /** A completed record is gone at some point up to an expiry of its id. */
  lemma GoneAfter(limit: nat, actions: seq<Action>, i: nat, e: nat, id: MessageId) returns (gone: nat)
    requires i <= e < |actions| && actions[e] == ClaimExpires(id) && ReadsCompleted(At(limit, actions, i).shared, id)
    ensures i <= gone <= e + 1 && id !in At(limit, actions, gone).shared.db.claims
  {
    if ReadsCompleted(At(limit, actions, e).shared, id) {
      NextState(limit, actions, e);
      gone := e + 1;
    } else {
      var earlier := ExpiryStep(limit, actions, i, e, id);
      gone := earlier + 1;
    }
  }

  /**
   While an item enqueued under its live claim is queued, its id can be claimed again, or has been, if
   and only if the item's completion was recorded at some step and its record expired at a later one.
   */
  lemma ReclaimExactly(limit: nat, actions: seq<Action>, x: Item, newToken: Token)
    requires x.messageId.Some? && Guarded(Run(limit, actions).shared, x) && x in Queued(Run(limit, actions).shared.db)
    ensures (ClaimMessage(Run(limit, actions).shared.db, x.messageId.value, newToken).value
             || exists k: nat :: Reclaims(limit, actions, k, x))
       <==> CompletedThenExpired(limit, actions, |actions|, x)
  {
    assert actions[..|actions|] == actions;
    if ClaimMessage(Run(limit, actions).shared.db, x.messageId.value, newToken).value {
      FreeMeansExpired(limit, actions, |actions|, x);
    } else if k: nat :| Reclaims(limit, actions, k, x) {
      FreeMeansExpired(limit, actions, k, x);
    }
    if CompletedThenExpired(limit, actions, |actions|, x) {
      var m: nat, e: nat :| m < e < |actions| && Completes(limit, actions, m, x)
        && actions[e] == ClaimExpires(x.messageId.value);
      ExpiredMeansFree(limit, actions, x, m, e);
    }
  }
}
