/**
 `InMemoryConversationStore`: the same operations on one sender's lists and dictionaries, with deadlines
 instead of server-side expiry. Each is compared with its script: where they agree, and exactly when not.
 */
module MemoryStore {
  import opened Prelude
  import opened QueueScripts
  import opened RedisStore

  /** A reservation: the item with the receipt its pop issued. */
  datatype Reserved = Reserved(receipt: nat, item: Item)

  datatype Lock = Lock(token: Token, expiresAt: int)

  /** A record without a deadline never expires. */
  datatype Record = Record(state: ClaimRecord, expiresAt: Option<int>)

  predicate Live(r: Record, now: int) {
    r.expiresAt.None? || r.expiresAt.value > now
  }

  function LiveClaims(claims: map<MessageId, Record>, now: int): map<MessageId, ClaimRecord> {
    map id | id in claims && Live(claims[id], now) :: claims[id].state
  }

  function Items(reserved: seq<Reserved>): seq<Item> {
    if reserved == [] then [] else Items(reserved[..|reserved| - 1]) + [reserved[|reserved| - 1].item]
  }

  lemma ItemsAppend(reserved: seq<Reserved>, r: Reserved)
    ensures Items(reserved + [r]) == Items(reserved) + [r.item]
  {
    assert (reserved + [r])[..|reserved|] == reserved;
  }

  lemma {:induction false} ItemsConcat(a: seq<Reserved>, b: seq<Reserved>)
    ensures Items(a + b) == Items(a) + Items(b)
  {
    if b == [] {
      assert a + b == a;
    } else {
      var n := |b| - 1;
      ItemsConcat(a, b[..n]);
      ItemsAppend(a + b[..n], b[n]);
      assert a + b == a + b[..n] + [b[n]];
      assert Items(b) == Items(b[..n]) + [b[n].item];
    }
  }

  /** Dropping one reservation drops one occurrence of its item. */
  lemma ItemsWithout(before: seq<Reserved>, r: Reserved, after: seq<Reserved>)
    ensures multiset(Items(before + [r] + after)) == multiset(Items(before + after)) + multiset{r.item}
  {
    ItemsConcat(before + [r], after);
    ItemsAppend(before, r);
    ItemsConcat(before, after);
    assert Items(before + [r] + after) == Items(before) + [r.item] + Items(after);
  }

  ghost predicate Distinct(reserved: seq<Reserved>) {
    forall i, j :: 0 <= i < j < |reserved| ==> reserved[i].receipt != reserved[j].receipt
  }

  lemma WithoutReceipt(reserved: seq<Reserved>, k: nat)
    requires Distinct(reserved) && k < |reserved|
    ensures var rest := reserved[..k] + reserved[k + 1..];
            Distinct(rest) && forall x :: x in rest <==> x in reserved && x != reserved[k]
  {
    var rest := reserved[..k] + reserved[k + 1..];
    forall x ensures x in rest <==> x in reserved && x != reserved[k] {
      if x in reserved && x != reserved[k] {
        var i :| 0 <= i < |reserved| && reserved[i] == x;
        assert rest[if i < k then i else i - 1] == x;
      }
    }
  }

  /** A record of the item's own processing token loses its deadline, even one that has passed. */
  function Persisted(claims: map<MessageId, Record>, item: Item): map<MessageId, Record> {
    if item.messageId.Some? && item.claim.Some? && item.messageId.value in claims
       && claims[item.messageId.value].state.Processing? && claims[item.messageId.value].state.token == item.claim.value
    then claims[item.messageId.value := Record(Processing(item.claim.value, true), None)]
    else claims
  }

  ghost predicate HasReceipt(reserved: seq<Reserved>, receipt: nat) {
    exists i :: 0 <= i < |reserved| && reserved[i].receipt == receipt
  }

  /** Exactly the reservation r is gone, and with it one occurrence of its item. */
  ghost predicate OneLess(before: seq<Reserved>, after: seq<Reserved>, r: Reserved) {
    && multiset(Items(before)) == multiset(Items(after)) + multiset{r.item}
    && forall x :: x in after <==> x in before && x != r
  }

  /** `for index, reserved in enumerate(queue)`: the first with this receipt, or the end. */
  method FindReceipt(reserved: seq<Reserved>, receipt: nat) returns (k: nat)
    ensures k <= |reserved|
    ensures k < |reserved| ==> reserved[k].receipt == receipt
    ensures k < |reserved| <==> HasReceipt(reserved, receipt)
  {
    k := 0;
    while k < |reserved|
      invariant k <= |reserved|
      invariant forall i :: 0 <= i < k ==> reserved[i].receipt != receipt
    {
      if reserved[k].receipt == receipt { return; }
      k := k + 1;
    }
  }

  lemma RemovedOne(reserved: seq<Reserved>, k: nat, r: Reserved)
    requires Distinct(reserved) && k < |reserved| && reserved[k].receipt == r.receipt
    ensures Distinct(reserved[..k] + reserved[k + 1..])
    ensures r in reserved ==> OneLess(reserved, reserved[..k] + reserved[k + 1..], r)
  {
    WithoutReceipt(reserved, k);
    assert reserved == reserved[..k] + [reserved[k]] + reserved[k + 1..];
    if r in reserved { ItemsWithout(reserved[..k], r, reserved[k + 1..]); }
  }

  /** The memory pop on a database: no owner is checked. */
  function MemoryPop(db: Db): Reply<PopResult> {
    if db.pending == [] then Reply(db, NothingPending)
    else Reply(db.(pending := db.pending[1..], inflight := db.inflight + [db.pending[0]]), Popped(db.pending[0]))
  }

  /** The memory acknowledgement: no completion is checked. */
  function MemoryAcknowledge(db: Db, item: Item): Reply<bool> {
    if item !in db.inflight then Reply(db, false) else Reply(db.(inflight := Forget(db.inflight, item)), true)
  }

  /** The reply accepts, and up to the order of equal reservations its database is this one. */
  ghost predicate AgreesUpToOrder(reply: Reply<bool>, db: Db) {
    && reply.value && reply.db.pending == db.pending && reply.db.lock == db.lock && reply.db.claims == db.claims
    && multiset(reply.db.inflight) == multiset(db.inflight)
  }

  lemma {:induction false} HeldItem(reserved: seq<Reserved>, r: Reserved)
    requires r in reserved
    ensures r.item in Items(reserved)
  {
    var n := |reserved| - 1;
    if r != reserved[n] {
      assert r in reserved[..n];
      HeldItem(reserved[..n], r);
    }
  }

  /** Dropping a reservation and removing its item leave the same items. */
  lemma ForgetsSame(before: seq<Reserved>, after: seq<Reserved>, r: Reserved)
    requires OneLess(before, after, r) && r.item in Items(before)
    ensures multiset(Forget(Items(before), r.item)) == multiset(Items(after))
  {
    assert multiset(Items(before)) == multiset(Forget(Items(before), r.item)) + multiset{r.item};
    assert multiset(Forget(Items(before), r.item)) == multiset(Items(before)) - multiset{r.item};
    assert multiset(Items(after)) == multiset(Items(before)) - multiset{r.item};
  }

  class InMemoryConversationStore {
    var pending: seq<Item>
    var inflight: seq<Reserved>
    var lock: Option<Lock>
    var claims: map<MessageId, Record>
    var nextToken: Token
    var nextReceipt: nat

    /** Receipts are issued once. */
    ghost predicate Valid()
      reads this
    {
      && (forall i :: 0 <= i < |inflight| ==> inflight[i].receipt < nextReceipt)
      && Distinct(inflight)
    }

    /** The lock as a server with expiry would show it now. */
    function LiveLock(now: int): Option<Token>
      reads this
    {
      if lock.Some? && lock.value.expiresAt > now then Some(lock.value.token) else None
    }

    /** What a database with expiry would show now. */
    ghost function View(now: int): Db
      reads this
    {
      Db(pending, Items(inflight), LiveLock(now), LiveClaims(claims, now))
    }

    constructor ()
      ensures Valid() && pending == [] && inflight == [] && lock == None && claims == map[]
    {
      pending, inflight, lock, claims, nextToken, nextReceipt := [], [], None, map[], 0, 0;
    }

    /** As the script: granted only while no live lock exists and nothing is reserved. */
    method ClaimConversationProcessing(now: int, ttl: int) returns (token: Outcome<Option<Token>>)
      requires ttl > 0
      modifies this`lock, this`nextToken
      ensures var db := Db(pending, Items(inflight), old(LiveLock(now)), map[]);
              var reply := ClaimSender(db, old(nextToken));
              LiveLock(now) == reply.db.lock
              && token == match reply.value
                          case Busy => Ok(None)
                          case RecoveryRequired => Raised(RecoveryNeeded)
                          case Granted => Ok(Some(old(nextToken)))
      ensures token.Ok? && token.value.Some? ==>
                forall later :: LiveLock(later) == if later < now + ttl then token.value else None
    {
      if lock.Some? && lock.value.expiresAt > now { return Ok(None); }
      lock := Some(Lock(nextToken, now + ttl));
      var issued := nextToken;
      nextToken := nextToken + 1;
      if |inflight| > 0 {
        lock := None;
        return Raised(RecoveryNeeded);
      }
      return Ok(Some(issued));
    }

    /** Unlike the script it asks nobody for a token. */
    method PopIncomingWork() returns (item: Option<Reserved>)
      requires Valid()
      modifies this`pending, this`inflight, this`nextReceipt
      ensures Valid()
      ensures forall now :: View(now) == MemoryPop(old(View(now))).db
      ensures old(pending) == [] ==> item.None? && pending == [] && inflight == old(inflight)
      ensures old(pending) != [] ==>
                item.Some? && item.value.item == old(pending)[0]
                && pending == old(pending)[1..] && inflight == old(inflight) + [item.value]
    {
      if |pending| == 0 { return None; }
      var reserved := Reserved(nextReceipt, pending[0]);
      nextReceipt := nextReceipt + 1;
      pending := pending[1..];
      ItemsAppend(inflight, reserved);
      inflight := inflight + [reserved];
      return Some(reserved);
    }

    /** Unlike the script it does not ask whether the item's claim reads completed. */
    method AcknowledgeIncomingWork(r: Reserved) returns (ok: Outcome<()>)
      requires Valid()
      modifies this`inflight
      ensures Valid()
      ensures ok.Ok? <==> HasReceipt(old(inflight), r.receipt)
      ensures ok.Raised? ==> inflight == old(inflight)
      ensures ok.Ok? && r in old(inflight) ==> OneLess(old(inflight), inflight, r)
      ensures r in old(inflight) ==>
                ok.Ok? && forall now :: AgreesUpToOrder(MemoryAcknowledge(old(View(now)), r.item), View(now))
    {
      if r in inflight { HeldItem(inflight, r); }
      var k := FindReceipt(inflight, r.receipt);
      if k == |inflight| { return Raised(ReceiptMissing); }
      RemovedOne(inflight, k, r);
      if r in inflight { ForgetsSame(inflight, inflight[..k] + inflight[k + 1..], r); }
      inflight := inflight[..k] + inflight[k + 1..];
      return Ok(());
    }

    /** Any record of the item's own processing token, expired or not, is made permanent. */
    method EnqueueIncomingWork(item: Item, receipt: Option<Reserved>, front: bool) returns (r: Outcome<()>)
      requires Valid()
      modifies this`pending, this`inflight, this`claims
      ensures Valid()
      ensures r.Ok? <==> receipt.None? || HasReceipt(old(inflight), receipt.value.receipt)
      ensures r.Raised? ==> pending == old(pending) && inflight == old(inflight) && claims == old(claims)
      ensures r.Ok? ==> pending == if front then [item] + old(pending) else old(pending) + [item]
      ensures r.Ok? && receipt.None? ==> inflight == old(inflight)
      ensures r.Ok? && receipt.Some? && receipt.value in old(inflight) ==>
                OneLess(old(inflight), inflight, receipt.value)
      ensures r.Ok? ==> claims == Persisted(old(claims), item)
      ensures r.Ok? ==> forall id :: id in claims <==> id in old(claims)
      ensures r.Ok? ==> forall id :: id in claims ==>
                if HoldsClaim(old(claims)[id].state, id, item)
                then claims[id] == Record(Processing(item.claim.value, true), None) else claims[id] == old(claims)[id]
    {
      if receipt.Some? {
        var gone := AcknowledgeIncomingWork(receipt.value);
        if gone.Raised? { return gone; }
      }
      if item.messageId.Some? && item.claim.Some? {
        var id := item.messageId.value;
        if id in claims && claims[id].state.Processing? && claims[id].state.token == item.claim.value {
          claims := claims[id := Record(Processing(item.claim.value, true), None)];
        }
      }
      if front { pending := [item] + pending; } else { pending := pending + [item]; }
      return Ok(());
    }

    method ClaimIncomingMessage(id: MessageId, now: int, ttl: int) returns (token: Option<Token>)
      modifies this`claims, this`nextToken
      ensures token.Some? <==> !(id in old(claims) && Live(old(claims)[id], now))
      ensures token.Some? ==> id in claims && forall later :: Live(claims[id], later) <==> later < now + ttl
      ensures token.Some? ==> token.value == old(nextToken)
                              && claims == old(claims)[id := Record(Processing(token.value, false), Some(now + ttl))]
      ensures token.None? ==> claims == old(claims)
    {
      if id in claims {
        if Live(claims[id], now) { return None; }
        claims := claims - {id};
      }
      token := Some(nextToken);
      nextToken := nextToken + 1;
      claims := claims[id := Record(Processing(token.value, false), Some(now + ttl))];
    }
  }

  // ---------- Exact differences ----------

  /** The two pops agree exactly for the owner of the live lock. */
  lemma PopsAgreeExactly(db: Db, token: Token)
    ensures MemoryPop(db) == Pop(db, token) <==> OwnsSender(db, token)
  {
    if db.pending != [] && !OwnsSender(db, token) {
      assert MemoryPop(db).value.Popped?;
    }
  }

  /** The two acknowledgements agree exactly unless a claimed item in flight is not recorded complete. */
  lemma AcknowledgementsAgreeExactly(db: Db, item: Item)
    ensures MemoryAcknowledge(db, item) == Acknowledge(db, item)
       <==> item !in db.inflight || item.messageId.None? || item.claim.None?
            || (item.messageId.value in db.claims && db.claims[item.messageId.value] == Completed)
  {}
}
