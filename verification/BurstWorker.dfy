/**
 The loops of `app/main.py` that move a reserved burst: collect, complete, requeue, process. Each is a
 loop over the store's methods, as one worker runs it between two steps of the others.
 */
module BurstWorker {
  import opened Prelude
  import opened QueueScripts
  import opened BurstOrder
  import opened InboundProtocol
  import opened RedisStore
  import InboundReservation

  /** The claim key lets this item finish: it reads completed already, or holds the item's own token. */
  predicate Completable(claims: map<MessageId, ClaimRecord>, item: Item) {
    item.messageId.None? || item.claim.None? || ClaimLive(claims, item)
    || (item.messageId.value in claims && claims[item.messageId.value] == Completed)
  }

  predicate Finishable(claims: map<MessageId, ClaimRecord>, item: Item) {
    WellFormed(item) && Completable(claims, item)
  }

  ghost predicate AllFinishable(claims: map<MessageId, ClaimRecord>, items: seq<Item>) {
    forall x :: x in items ==> Finishable(claims, x)
  }

  /** Whatever could finish before still can. */
  ghost predicate StillFinishable(before: map<MessageId, ClaimRecord>, after: map<MessageId, ClaimRecord>) {
    forall x :: Completable(before, x) ==> Completable(after, x)
  }

  /** Completing one message never takes another item's way out. */
  lemma CompletionKeepsOthers(db: Db, item: Item, other: Item)
    requires Completable(db.claims, other)
    ensures Completable(CompleteMessage(db, item).claims, other)
  {}

  lemma LongerPrefix(items: seq<Item>, i: nat)
    requires i < |items|
    ensures multiset(items[..i + 1]) == multiset(items[..i]) + multiset{items[i]}
    ensures multiset(items[i..]) == multiset(items[i + 1..]) + multiset{items[i]}
  {
    assert items[..i + 1] == items[..i] + [items[i]];
    assert items[i..] == [items[i]] + items[i + 1..];
  }

  /** Once recorded as completed, a reserved item is accepted for acknowledgement. */
  lemma CompletedCanLeave(db: Db, item: Item)
    requires Completable(db.claims, item) && item in db.inflight
    ensures Acknowledge(CompleteMessage(db, item), item).value
  {}

  /** Of items reserved together, the next one is still in flight while the earlier ones have left. */
  lemma NextStillReserved(items: seq<Item>, i: nat, inflight: seq<Item>, was: multiset<Item>)
    requires i < |items| && multiset(items) <= was
    requires multiset(inflight) + multiset(items[..i]) == was
    ensures items[i] in inflight
  {
    LongerPrefix(items, i);
    assert items == items[..i + 1] + items[i + 1..];
    assert multiset(items) == multiset(items[..i + 1]) + multiset(items[i + 1..]);
    assert was[items[i]] >= multiset(items[..i])[items[i]] + 1;
    assert items[i] in multiset(inflight);
  }

  /** An item missing in flight while later ones have left means the items were not all reserved. */
  lemma MissingWasNotReserved(items: seq<Item>, i: nat, inflight: seq<Item>, was: multiset<Item>)
    requires i < |items| && items[i] !in inflight
    requires multiset(inflight) + multiset(items[i + 1..]) == was
    ensures !(multiset(items) <= was)
  {
    LongerPrefix(items, i);
    assert items == items[..i] + items[i..];
    assert multiset(items) == multiset(items[..i]) + multiset(items[i..]);
    assert multiset(inflight)[items[i]] == 0;
    assert multiset(items)[items[i]] > was[items[i]];
  }

  /** max(1, setting) */
  function BurstLimit(setting: int): (n: nat)
    ensures n >= 1 && n >= setting && (n == setting || n == 1)
  {
    if setting > 1 then setting else 1
  }

  /**
   `_collect_inbound_burst` after its quiet period: pop up to the configured number of items. They leave
   pending from the front in order, join the in-flight list, and are handed over sorted; losing the lock takes nothing.
   */
  method CollectInboundBurst(store: RedisConversationStore, token: Token, setting: int)
      returns (r: Outcome<seq<Item>>)
    modifies store`pending, store`inflight
    ensures store.lock == old(store.lock) && store.claims == old(store.claims) && store.settled == old(store.settled)
    ensures r.Ok? <==> old(store.lock) == Some(token)
    ensures r.Ok? ==>
              var n := if |old(store.pending)| < BurstLimit(setting) then |old(store.pending)| else BurstLimit(setting);
              && r.value == SortBurst(old(store.pending)[..n])
              && store.pending == old(store.pending)[n..]
              && store.inflight == old(store.inflight) + old(store.pending)[..n]
    ensures r.Raised? ==> store.pending == old(store.pending) && store.inflight == old(store.inflight)
  {
    var limit := BurstLimit(setting);
    var items := [];
    while |items| < limit
      invariant |items| <= limit && |items| <= |old(store.pending)|
      invariant items == old(store.pending)[..|items|]
      invariant store.pending == old(store.pending)[|items|..]
      invariant store.inflight == old(store.inflight) + items
      invariant items != [] ==> old(store.lock) == Some(token)
    {
      var popped := store.PopIncomingWork(Some(token));
      if popped.Raised? { return Outcome.Raised(popped.error); }
      if popped.value.None? { break; }
      items := items + [popped.value.value];
    }
    return Ok(SortBurst(items));
  }

  /** One more item of `items` has left: the two parts still add up. */
  lemma OneMoreGone(was: multiset<Item>, left: multiset<Item>, now: multiset<Item>, gone: multiset<Item>, x: Item)
    requires left + gone == was && left == now + multiset{x}
    ensures now + (gone + multiset{x}) == was
  {
    assert now + (gone + multiset{x}) == (now + multiset{x}) + gone;
  }

  /** The loop body of the completion: record, then acknowledge. */
  method CompleteOne(store: RedisConversationStore, item: Item) returns (ok: bool)
    modifies store`claims, store`inflight, store`settled
    ensures store.pending == old(store.pending) && store.lock == old(store.lock)
    ensures !ok ==> store.inflight == old(store.inflight) && store.settled == old(store.settled)
    ensures ok ==> multiset(old(store.inflight)) == multiset(store.inflight) + multiset{item}
                   && store.settled == old(store.settled) + multiset{item}
    ensures item in old(store.inflight) && Finishable(old(store.claims), item) ==> ok
    ensures StillFinishable(old(store.claims), store.claims)
  {
    if !WellFormed(item) { return false; }
    ghost var before := store.Db();
    if Completable(before.claims, item) && item in before.inflight { CompletedCanLeave(before, item); }
    store.CompleteIncomingMessage(item);
    forall x | Completable(before.claims, x) ensures Completable(store.claims, x) {
      CompletionKeepsOthers(before, item, x);
    }
    var done := store.AcknowledgeIncomingWork(item);
    ok := done.Ok?;
  }

  /**
   `_complete_queued_inbound_items`: record the completion of each item, then acknowledge it. On success
   exactly these items are settled; an exception stops at an item and keeps it and the rest in flight.
   */
  method CompleteQueuedInboundItems(store: RedisConversationStore, items: seq<Item>) returns (ok: bool)
    modifies store`claims, store`inflight, store`settled
    ensures store.pending == old(store.pending) && store.lock == old(store.lock)
    ensures multiset(store.inflight) + store.settled == multiset(old(store.inflight)) + old(store.settled)
    ensures ok ==> store.settled == old(store.settled) + multiset(items)
                   && multiset(store.inflight) + multiset(items) == multiset(old(store.inflight))
    ensures multiset(items) <= multiset(old(store.inflight)) && AllFinishable(old(store.claims), items) ==> ok
    ensures StillFinishable(old(store.claims), store.claims)
  {
    var i := 0;
    ghost var was := multiset(store.inflight);
    while i < |items|
      invariant i <= |items|
      invariant store.pending == old(store.pending) && store.lock == old(store.lock)
      invariant store.settled == old(store.settled) + multiset(items[..i])
      invariant multiset(store.inflight) + multiset(items[..i]) == was
      invariant StillFinishable(old(store.claims), store.claims)
    {
      assert items[i] in items;
      if multiset(items) <= was { NextStillReserved(items, i, store.inflight, was); }
      LongerPrefix(items, i);
      ghost var left := multiset(store.inflight);
      var done := CompleteOne(store, items[i]);
      if !done { return false; }
      OneMoreGone(was, left, multiset(store.inflight), multiset(items[..i]), items[i]);
      i := i + 1;
    }
    assert items[..i] == items;
    return true;
  }

  /** The loop body of the requeue: one item from in flight to the front of pending. */
  method PutOneBack(store: RedisConversationStore, item: Item) returns (ok: bool)
    modifies store`pending, store`inflight, store`claims
    ensures store.lock == old(store.lock)
    ensures ok <==> item in old(store.inflight)
    ensures StillFinishable(old(store.claims), store.claims)
    ensures !ok ==> store.pending == old(store.pending) && store.inflight == old(store.inflight)
    ensures ok ==> store.pending == [item] + old(store.pending)
                   && multiset(old(store.inflight)) == multiset(store.inflight) + multiset{item}
  {
    var moved := store.EnqueueIncomingWork(item, Some(item), true);
    ok := moved.Ok?;
  }

  /**
   `_requeue_inbound_items_front`: put the items back one by one from the last to the first. It succeeds
   exactly when all of them are in flight, and then they precede, in order, whatever was pending.
   */
  method RequeueInboundItemsFront(store: RedisConversationStore, items: seq<Item>) returns (ok: bool)
    modifies store`pending, store`inflight, store`claims
    ensures store.lock == old(store.lock) && store.settled == old(store.settled)
    ensures multiset(store.pending) + multiset(store.inflight)
         == multiset(old(store.pending)) + multiset(old(store.inflight))
    ensures ok <==> multiset(items) <= multiset(old(store.inflight))
    ensures StillFinishable(old(store.claims), store.claims)
    ensures ok ==> store.pending == items + old(store.pending)
                   && multiset(store.inflight) + multiset(items) == multiset(old(store.inflight))
  {
    var i := |items|;
    ghost var was := multiset(store.inflight);
    while i > 0
      invariant 0 <= i <= |items|
      invariant store.lock == old(store.lock) && store.settled == old(store.settled)
      invariant store.pending == items[i..] + old(store.pending)
      invariant StillFinishable(old(store.claims), store.claims)
      invariant multiset(store.inflight) + multiset(items[i..]) == was
    {
      i := i - 1;
      ghost var left := multiset(store.inflight);
      var moved := PutOneBack(store, items[i]);
      if !moved {
        MissingWasNotReserved(items, i, store.inflight, was);
        PutBackConserves(items[i + 1..], old(store.pending), store.inflight, was);
        return false;
      }
      OneMoreGone(was, left, multiset(store.inflight), multiset(items[i + 1..]), items[i]);
      LongerPrefix(items, i);
      Prepend(items, i, old(store.pending));
    }
    assert items[0..] == items;
    PutBackConserves(items, old(store.pending), store.inflight, was);
    return true;
  }

  lemma Prepend(items: seq<Item>, i: nat, pending: seq<Item>)
    requires i < |items|
    ensures [items[i]] + (items[i + 1..] + pending) == items[i..] + pending
  {
    assert items[i..] == [items[i]] + items[i + 1..];
  }

  lemma PutBackConserves(back: seq<Item>, pending: seq<Item>, inflight: seq<Item>, was: multiset<Item>)
    requires multiset(inflight) + multiset(back) == was
    ensures multiset(back + pending) + multiset(inflight) == multiset(pending) + was
    ensures multiset(back) <= was
  {}

  // ---------- One burst ----------

  /** These items are exactly what is in flight, and all of them can finish. */
  ghost predicate Whole(items: seq<Item>, inflight: seq<Item>, claims: map<MessageId, ClaimRecord>) {
    multiset(items) == multiset(inflight) && AllFinishable(claims, items)
  }

  /** What happens outside the store while one burst is processed. */
  datatype Outside = Outside(
    revocationKnown: bool,
    revoked: set<nat>,
    combine: bool,
    combinedRetryable: bool,
    retryable: set<nat>)

  /** How many of the surviving items are finished before the first retryable response. */
  function Finished(n: nat, o: Outside): (k: nat)
    ensures k <= n
    ensures o.combine && n >= 2 ==> (k == n <==> !o.combinedRetryable) && (k == 0 <==> o.combinedRetryable)
    ensures !(o.combine && n >= 2) ==> (forall j :: 0 <= j < k ==> j !in o.retryable) && (k < n ==> k in o.retryable)
  {
    if o.combine && n >= 2 then (if o.combinedRetryable then 0 else n)
    else BeforeRetry(0, n, o.retryable)
  }

  function BeforeRetry(i: nat, n: nat, retryable: set<nat>): (k: nat)
    requires i <= n
    ensures i <= k <= n
    ensures forall j :: i <= j < k ==> j !in retryable
    ensures k < n ==> k in retryable
    decreases n - i
  {
    if i == n || i in retryable then i else BeforeRetry(i + 1, n, retryable)
  }

  lemma SelectedAreFinishable(claims: map<MessageId, ClaimRecord>, items: seq<Item>, chosen: set<nat>, inside: bool)
    requires AllFinishable(claims, items)
    ensures AllFinishable(claims, Select(items, chosen, inside))
  {
    InboundReservation.SelectSplits(items, chosen);
    forall x | x in Select(items, chosen, inside) ensures x in items {
      assert x in multiset(Select(items, chosen, inside));
      assert x in multiset(items);
    }
  }

  /** The turns taken when k of these items finish: one turn for all, or one each, up to the retryable one. */
  function Turns(kept: seq<Item>, k: nat, o: Outside): seq<seq<Item>> {
    if o.combine && |kept| >= 2 then [kept] else OneEach(if k < |kept| then kept[..k + 1] else kept)
  }

  function OneEach(items: seq<Item>): seq<seq<Item>> {
    if items == [] then [] else OneEach(items[..|items| - 1]) + [[items[|items| - 1]]]
  }

  /** Each item has its own turn, in order. */
  lemma {:induction false} OneEachIs(items: seq<Item>)
    ensures |OneEach(items)| == |items| && forall i :: 0 <= i < |items| ==> OneEach(items)[i] == [items[i]]
  {
    if items != [] { OneEachIs(items[..|items| - 1]); }
  }

  /** A combined burst has one turn; otherwise the k finished items and the retryable one have their own, in order. */
  lemma TurnsAre(kept: seq<Item>, k: nat, o: Outside)
    requires k <= |kept|
    ensures o.combine && |kept| >= 2 ==> Turns(kept, k, o) == [kept]
    ensures !(o.combine && |kept| >= 2) ==>
              && |Turns(kept, k, o)| == (if k < |kept| then k + 1 else k)
              && forall i :: 0 <= i < |Turns(kept, k, o)| ==> Turns(kept, k, o)[i] == [kept[i]]
  {
    OneEachIs(if k < |kept| then kept[..k + 1] else kept);
  }

  lemma OneEachMore(items: seq<Item>, i: nat)
    requires i < |items|
    ensures OneEach(items[..i + 1]) == OneEach(items[..i]) + [[items[i]]]
  {
    assert items[..i + 1][..i] == items[..i];
  }

  /**
   `_process_inbound_burst` on a whole reservation of finishable items never raises. Revoked items are
   settled without a turn; of the others, in burst order, a prefix is settled and the rest goes back, in
   order, ahead of everything pending; the response is retryable exactly when something went back.
   */
  method ProcessInboundBurst(store: RedisConversationStore, items: seq<Item>, o: Outside)
      returns (r: Ending, ghost turns: seq<seq<Item>>)
    modifies store`pending, store`inflight, store`claims, store`settled
    ensures store.lock == old(store.lock)
    ensures multiset(store.pending) + (multiset(store.inflight) + store.settled)
         == multiset(old(store.pending)) + (multiset(old(store.inflight)) + old(store.settled))
    ensures r == Settled ==> store.pending == old(store.pending)
    ensures StillFinishable(old(store.claims), store.claims)
    ensures items == [] ==> r == Settled && store.pending == old(store.pending)
    ensures !o.revocationKnown ==> turns == []
    ensures items != [] && Whole(items, old(store.inflight), old(store.claims)) ==>
              var kept := Select(items, o.revoked, false);
              var k := Finished(|kept|, o);
              && store.inflight == []
              && (if !o.revocationKnown then
                    r == Retryable && store.pending == items + old(store.pending) && store.settled == old(store.settled)
                  else
                    && r == (if k < |kept| then Retryable else Settled)
                    && store.pending == kept[k..] + old(store.pending)
                    && store.settled == old(store.settled) + multiset(Select(items, o.revoked, true))
                                        + multiset(kept[..k])
                    && turns == Turns(kept, k, o))
    ensures items != [] && Whole(items, old(store.inflight), old(store.claims)) && o.revocationKnown
            && (forall i :: 0 <= i < |items| ==> i !in o.revoked) ==>
              var k := Finished(|items|, o);
              && store.pending == items[k..] + old(store.pending)
              && store.settled == old(store.settled) + multiset(items[..k])
              && turns == Turns(items, k, o)
  {
    turns := [];
    if items == [] { return Settled, turns; }
    if !o.revocationKnown {
      r := PutAllBack(store, items);
      return;
    }
    if forall n :: 0 <= n < |items| ==> n !in o.revoked { InboundReservation.SelectAll(items, o.revoked); }
    r, turns := ProcessKnown(store, items, o);
  }

  /** Without an answer about revocations the whole burst goes back. */
  method PutAllBack(store: RedisConversationStore, items: seq<Item>) returns (r: Ending)
    modifies store`pending, store`inflight, store`claims
    ensures store.lock == old(store.lock)
    ensures multiset(store.pending) + (multiset(store.inflight) + store.settled)
         == multiset(old(store.pending)) + (multiset(old(store.inflight)) + store.settled)
    ensures r != Settled && StillFinishable(old(store.claims), store.claims)
    ensures Whole(items, old(store.inflight), old(store.claims)) ==>
              r == Retryable && store.inflight == [] && store.pending == items + old(store.pending)
  {
    ghost var whole := Whole(items, store.inflight, store.claims);
    ghost var p, f := multiset(store.pending), multiset(store.inflight);
    var back := RequeueInboundItemsFront(store, items);
    Regroup(p, f, multiset(store.pending), multiset(store.inflight), store.settled);
    if !back { return Ending.Raised; }
    if whole { NothingLeft(store.inflight, items); }
    return Retryable;
  }

  /** The revoked items are settled first; the others are processed. */
  method ProcessKnown(store: RedisConversationStore, items: seq<Item>, o: Outside)
      returns (r: Ending, ghost turns: seq<seq<Item>>)
    modifies store`pending, store`inflight, store`claims, store`settled
    ensures store.lock == old(store.lock)
    ensures multiset(store.pending) + (multiset(store.inflight) + store.settled)
         == multiset(old(store.pending)) + (multiset(old(store.inflight)) + old(store.settled))
    ensures r == Settled ==> store.pending == old(store.pending)
    ensures StillFinishable(old(store.claims), store.claims)
    ensures Whole(items, old(store.inflight), old(store.claims)) ==>
              var kept := Select(items, o.revoked, false);
              var k := Finished(|kept|, o);
              && store.inflight == []
              && r == (if k < |kept| then Retryable else Settled)
              && store.pending == kept[k..] + old(store.pending)
              && store.settled == old(store.settled) + multiset(Select(items, o.revoked, true)) + multiset(kept[..k])
              && turns == Turns(kept, k, o)
  {
    turns := [];
    ghost var whole := Whole(items, old(store.inflight), old(store.claims));
    var revoked, kept := Select(items, o.revoked, true), Select(items, o.revoked, false);
    InboundReservation.SelectSplits(items, o.revoked);
    if whole {
      SelectedAreFinishable(store.claims, items, o.revoked, true);
      SelectedAreFinishable(store.claims, items, o.revoked, false);
    }
    if revoked != [] {
      var done := CompleteQueuedInboundItems(store, revoked);
      if !done { return Ending.Raised, turns; }
    }
    if whole { Cancel(multiset(store.inflight), multiset(kept), multiset(revoked)); }
    r, turns := ProcessKept(store, kept, o);
  }

  /** Items that only moved between pending and in flight leave the three-part total alone. */
  lemma Regroup(p: multiset<Item>, i: multiset<Item>, p': multiset<Item>, i': multiset<Item>, s: multiset<Item>)
    requires p + i == p' + i'
    ensures p + (i + s) == p' + (i' + s)
  {
    assert p + (i + s) == (p + i) + s;
    assert p' + (i' + s) == (p' + i') + s;
  }

  /** multiset addition cancels. */
  lemma Cancel(a: multiset<Item>, b: multiset<Item>, c: multiset<Item>)
    requires a + c == c + b
    ensures a == b
  {
    assert a == (a + c) - c;
    assert b == (c + b) - c;
  }

  lemma NothingLeft(left: seq<Item>, items: seq<Item>)
    requires multiset(left) + multiset(items) == multiset(items)
    ensures left == []
  {
    Cancel(multiset(left), multiset{}, multiset(items));
    assert |left| == |multiset(left)|;
  }

  /** The part after the revoked items: one combined turn, or one turn per item. */
  method ProcessKept(store: RedisConversationStore, kept: seq<Item>, o: Outside)
      returns (r: Ending, ghost turns: seq<seq<Item>>)
    modifies store`pending, store`inflight, store`claims, store`settled
    ensures store.lock == old(store.lock)
    ensures multiset(store.pending) + (multiset(store.inflight) + store.settled)
         == multiset(old(store.pending)) + (multiset(old(store.inflight)) + old(store.settled))
    ensures r == Settled ==> store.pending == old(store.pending)
    ensures StillFinishable(old(store.claims), store.claims)
    ensures Whole(kept, old(store.inflight), old(store.claims)) ==>
              var k := Finished(|kept|, o);
              && store.inflight == []
              && r == (if k < |kept| then Retryable else Settled)
              && store.pending == kept[k..] + old(store.pending)
              && store.settled == old(store.settled) + multiset(kept[..k])
              && turns == Turns(kept, k, o)
  {
    ghost var whole := Whole(kept, old(store.inflight), old(store.claims));
    turns := [];
    if o.combine && |kept| >= 2 {
      turns := [kept];
      if o.combinedRetryable {
        ghost var p, f := multiset(store.pending), multiset(store.inflight);
        var back := RequeueInboundItemsFront(store, kept);
        Regroup(p, f, multiset(store.pending), multiset(store.inflight), store.settled);
        if !back { return Ending.Raised, turns; }
        if whole { NothingLeft(store.inflight, kept); }
        assert kept[0..] == kept;
        return Retryable, turns;
      }
      var done := CompleteQueuedInboundItems(store, kept);
      if !done { return Ending.Raised, turns; }
      if whole { NothingLeft(store.inflight, kept); }
      assert kept[..|kept|] == kept;
      return Settled, turns;
    }
    r, turns := ProcessSingly(store, kept, o.retryable);
  }

  /** One turn per item; the first retryable response puts the rest back. */
  method ProcessSingly(store: RedisConversationStore, kept: seq<Item>, retryable: set<nat>)
      returns (r: Ending, ghost turns: seq<seq<Item>>)
    modifies store`pending, store`inflight, store`claims, store`settled
    ensures store.lock == old(store.lock)
    ensures multiset(store.pending) + (multiset(store.inflight) + store.settled)
         == multiset(old(store.pending)) + (multiset(old(store.inflight)) + old(store.settled))
    ensures r == Settled ==> store.pending == old(store.pending)
    ensures StillFinishable(old(store.claims), store.claims)
    ensures Whole(kept, old(store.inflight), old(store.claims)) ==>
              var k := BeforeRetry(0, |kept|, retryable);
              && store.inflight == []
              && r == (if k < |kept| then Retryable else Settled)
              && store.pending == kept[k..] + old(store.pending)
              && store.settled == old(store.settled) + multiset(kept[..k])
              && turns == OneEach(if k < |kept| then kept[..k + 1] else kept)
  {
    turns := [];
    ghost var whole := Whole(kept, store.inflight, store.claims);
    ghost var before := store.settled;
    ghost var k := BeforeRetry(0, |kept|, retryable);
    var i := 0;
    assert kept[0..] == kept;
    while i < |kept|
      invariant i <= |kept|
      invariant store.lock == old(store.lock) && store.pending == old(store.pending)
      invariant multiset(store.inflight) + store.settled == multiset(old(store.inflight)) + old(store.settled)
      invariant StillFinishable(old(store.claims), store.claims)
      invariant whole ==> Progress(store.inflight, store.settled, before, kept, i)
      invariant whole ==> AllFinishable(store.claims, kept)
      invariant whole ==> k == BeforeRetry(i, |kept|, retryable)
      invariant whole ==> turns == OneEach(kept[..i])
    {
      assert kept[i] in kept;
      if WellFormed(kept[i]) { turns := turns + [[kept[i]]]; }
      OneEachMore(kept, i);
      if WellFormed(kept[i]) && i in retryable {
        ghost var p, f := multiset(store.pending), multiset(store.inflight);
        var back := RequeueInboundItemsFront(store, kept[i..]);
        Regroup(p, f, multiset(store.pending), multiset(store.inflight), store.settled);
        if !back { return Ending.Raised, turns; }
        if whole { NothingLeft(store.inflight, kept[i..]); }
        return Retryable, turns;
      }
      LongerPrefix(kept, i);
      var done := CompleteQueuedInboundItems(store, [kept[i]]);
      if !done { return Ending.Raised, turns; }
      if whole { NextProgress(store.inflight, store.settled, before, kept, i); }
      i := i + 1;
    }
    if whole { NothingLeft(store.inflight, []); }
    assert kept[..|kept|] == kept;
    return Settled, turns;
  }

  /** The first i kept items are settled, the others in flight. */
  ghost predicate Progress(inflight: seq<Item>, settled: multiset<Item>, before: multiset<Item>, kept: seq<Item>,
                           i: nat)
    requires i <= |kept|
  {
    multiset(inflight) == multiset(kept[i..]) && settled == before + multiset(kept[..i])
  }

  lemma NextProgress(inflight: seq<Item>, settled: multiset<Item>, before: multiset<Item>, kept: seq<Item>, i: nat)
    requires i < |kept|
    requires multiset(inflight) + multiset([kept[i]]) == multiset(kept[i..])
    requires settled == before + multiset(kept[..i]) + multiset([kept[i]])
    ensures Progress(inflight, settled, before, kept, i + 1)
  {
    LongerPrefix(kept, i);
    Cancel(multiset(inflight), multiset(kept[i + 1..]), multiset{kept[i]});
  }

  // ---------- The drain ----------

  /** No retryable response and no failed revocation check. */
  predicate Smooth(o: Outside) {
    o.revocationKnown && !o.combinedRetryable && o.retryable == {}
  }

  lemma SmoothFinishesAll(n: nat, o: Outside)
    requires Smooth(o)
    ensures Finished(n, o) == n
  {}

  /** What a drain may still count on while every burst goes well. */
  ghost predicate OnTrack(store: RedisConversationStore, total: multiset<Item>)
    reads store
  {
    && store.inflight == []
    && store.settled + multiset(store.pending) == total
    && AllFinishable(store.claims, store.pending)
  }

  /**
   `_drain_inbound_queue` without interference: lock lost, nothing happens and the answer is retryable;
   a settled drain leaves nothing pending; and if every burst goes well and every item can finish, all
   that was pending ends up settled.
   */
  method DrainInboundQueue(store: RedisConversationStore, token: Token, setting: int, outside: nat -> Outside)
      returns (r: Ending)
    modifies store`pending, store`inflight, store`claims, store`settled
    ensures store.lock == old(store.lock)
    ensures multiset(store.pending) + (multiset(store.inflight) + store.settled)
         == multiset(old(store.pending)) + (multiset(old(store.inflight)) + old(store.settled))
    ensures old(store.lock) != Some(token) ==> r == Retryable && store.pending == old(store.pending)
    ensures r == Settled ==> store.pending == []
    ensures (forall k :: Smooth(outside(k))) && old(store.lock) == Some(token) && old(store.inflight) == []
            && AllFinishable(old(store.claims), old(store.pending)) ==>
              r == Settled && store.inflight == [] && store.settled == old(store.settled) + multiset(old(store.pending))
  {
    ghost var total := store.settled + multiset(store.pending);
    ghost var well := (forall k :: Smooth(outside(k))) && store.lock == Some(token) && store.inflight == []
                      && AllFinishable(store.claims, store.pending);
    var burst := 0;
    while true
      invariant store.lock == old(store.lock)
      invariant multiset(store.pending) + (multiset(store.inflight) + store.settled)
             == multiset(old(store.pending)) + (multiset(old(store.inflight)) + old(store.settled))
      invariant old(store.lock) != Some(token) ==> store.pending == old(store.pending)
      invariant well ==> OnTrack(store, total)
      decreases |store.pending|
    {
      var refreshed := store.RefreshConversationProcessing(token);
      if !refreshed { return Retryable; }
      if |store.pending| == 0 { return Settled; }
      r := OneBurst(store, token, setting, outside(burst), total);
      if r != Settled { return r; }
      burst := burst + 1;
    }
  }

  /** Collect one burst and process it. */
  method OneBurst(store: RedisConversationStore, token: Token, setting: int, o: Outside, ghost total: multiset<Item>)
      returns (r: Ending)
    requires store.lock == Some(token) && store.pending != []
    modifies store`pending, store`inflight, store`claims, store`settled
    ensures store.lock == old(store.lock)
    ensures multiset(store.pending) + (multiset(store.inflight) + store.settled)
         == multiset(old(store.pending)) + (multiset(old(store.inflight)) + old(store.settled))
    ensures r == Settled ==> |store.pending| < |old(store.pending)|
    ensures old(OnTrack(store, total)) && Smooth(o) ==> r == Settled && OnTrack(store, total)
  {
    ghost var pending, inflight, settled := store.pending, store.inflight, store.settled;
    ghost var n := if |pending| < BurstLimit(setting) then |pending| else BurstLimit(setting);
    ghost var well := OnTrack(store, total) && Smooth(o);
    var collected := CollectInboundBurst(store, token, setting);
    if collected.Raised? { return Ending.Raised; }
    var items := collected.value;
    CollectedPart(pending, n, store.claims);
    CollectedConserves(pending, n, inflight, settled);
    if well { SortBurstKeepsItems(pending[..n]); }
    r := SettleBurst(store, items, o, well);
  }

  /** Processing the collected burst; when all goes well exactly these items are settled. */
  method SettleBurst(store: RedisConversationStore, items: seq<Item>, o: Outside, ghost well: bool) returns (r: Ending)
    requires items != []
    requires well ==> Smooth(o) && Whole(items, store.inflight, store.claims)
    modifies store`pending, store`inflight, store`claims, store`settled
    ensures store.lock == old(store.lock)
    ensures multiset(store.pending) + (multiset(store.inflight) + store.settled)
         == multiset(old(store.pending)) + (multiset(old(store.inflight)) + old(store.settled))
    ensures r == Settled ==> store.pending == old(store.pending)
    ensures StillFinishable(old(store.claims), store.claims)
    ensures well ==>
              && r == Settled && store.inflight == [] && store.pending == old(store.pending)
              && store.settled == old(store.settled) + multiset(items)
  {
    ghost var settled := store.settled;
    ghost var turns;
    r, turns := ProcessInboundBurst(store, items, o);
    if well {
      var kept, revoked := Select(items, o.revoked, false), Select(items, o.revoked, true);
      InboundReservation.SelectSplits(items, o.revoked);
      SmoothFinishesAll(|kept|, o);
      assert kept[..|kept|] == kept;
      assert settled + multiset(revoked) + multiset(kept) == settled + multiset(items);
    }
  }

  lemma CollectedConserves(pending: seq<Item>, n: nat, inflight: seq<Item>, settled: multiset<Item>)
    requires n <= |pending|
    ensures multiset(pending[n..]) + (multiset(inflight + pending[..n]) + settled)
         == multiset(pending) + (multiset(inflight) + settled)
  {
    assert pending == pending[..n] + pending[n..];
  }

  lemma CollectedPart(pending: seq<Item>, n: nat, claims: map<MessageId, ClaimRecord>)
    requires n <= |pending|
    ensures multiset(pending[..n]) + multiset(pending[n..]) == multiset(pending)
    ensures AllFinishable(claims, pending) ==> AllFinishable(claims, pending[n..])
    ensures AllFinishable(claims, pending) ==> AllFinishable(claims, SortBurst(pending[..n]))
  {
    assert pending == pending[..n] + pending[n..];
    SortBurstKeepsItems(pending[..n]);
    forall x | x in SortBurst(pending[..n]) ensures x in pending {
      assert x in multiset(SortBurst(pending[..n]));
    }
  }
}
