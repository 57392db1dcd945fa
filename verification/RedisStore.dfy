/**
 `RedisConversationStore`: the keys of one sender as fields, each script as a method that reads and
 writes them command by command and is proved equal to the function of the same name.
 */
module RedisStore {
  import opened Prelude
  import opened QueueScripts

  /** The errors the store raises; a returned None is a refusal, not an error. */
  datatype StoreError = RecoveryNeeded | OwnerRequired | OwnerGone | ReceiptMissing | CompletionUnconfirmed

  datatype Outcome<+T> = Ok(value: T) | Raised(error: StoreError)

  /** This record of the id holds the item's own processing token. */
  predicate HoldsClaim(record: ClaimRecord, id: MessageId, item: Item) {
    item.messageId == Some(id) && item.claim.Some? && record.Processing? && record.token == item.claim.value
  }

  class RedisConversationStore {
    var pending: seq<Item>
    var inflight: seq<Item>
    var lock: Option<Token>
    var claims: map<MessageId, ClaimRecord>
    var nextToken: Token
    /** Items acknowledged so far. */
    ghost var settled: multiset<Item>

    constructor ()
      ensures Db() == EMPTY_DB && settled == multiset{}
    {
      pending, inflight, lock, claims, nextToken := [], [], None, map[], 0;
      settled := multiset{};
    }

    ghost function Db(): Db
      reads this
    {
      QueueScripts.Db(pending, inflight, lock, claims)
    }

    method ClaimConversationProcessing() returns (token: Outcome<Option<Token>>)
      modifies this`lock, this`nextToken
      ensures var reply := ClaimSender(old(Db()), old(nextToken));
              Db() == reply.db
              && token == match reply.value
                          case Busy => Ok(None)
                          case RecoveryRequired => Raised(RecoveryNeeded)
                          case Granted => Ok(Some(old(nextToken)))
      ensures nextToken == old(nextToken) + 1
      ensures token == Ok(None) <==> old(lock).Some?
      ensures token == Raised(RecoveryNeeded) <==> old(lock).None? && inflight != []
      ensures lock == if old(lock).None? && inflight == [] then Some(old(nextToken)) else old(lock)
    {
      var issued := nextToken;
      nextToken := nextToken + 1;
      if lock.Some? { return Ok(None); }
      if |inflight| > 0 { return Raised(RecoveryNeeded); }
      lock := Some(issued);
      return Ok(Some(issued));
    }

    method RefreshConversationProcessing(token: Token) returns (owned: bool)
      ensures owned == OwnsSender(Db(), token)
      ensures owned <==> lock == Some(token)
    {
      owned := lock == Some(token);
    }

    method ReleaseConversationProcessing(token: Token)
      modifies this`lock
      ensures Db() == ReleaseSender(old(Db()), token)
      ensures lock == if old(lock) == Some(token) then None else old(lock)
    {
      if lock == Some(token) { lock := None; }
    }

    method EnqueueIncomingWork(item: Item, receipt: Option<Item>, front: bool) returns (r: Outcome<()>)
      modifies this`pending, this`inflight, this`claims
      ensures var reply := Enqueue(old(Db()), item, receipt, front);
              Db() == reply.db && r == if reply.value then Ok(()) else Raised(ReceiptMissing)
      ensures r.Ok? <==> receipt.None? || receipt.value in old(inflight)
      ensures r.Ok? ==> pending == if front then [item] + old(pending) else old(pending) + [item]
      ensures r.Ok? && receipt.Some? ==> multiset(old(inflight)) == multiset(inflight) + multiset{receipt.value}
      ensures r.Ok? && receipt.None? ==> inflight == old(inflight)
      ensures r.Ok? ==> forall id :: id in claims <==> id in old(claims)
      ensures r.Ok? ==> forall id :: id in claims ==>
                if HoldsClaim(old(claims)[id], id, item) then claims[id] == Processing(item.claim.value, true)
                else claims[id] == old(claims)[id]
      ensures !r.Ok? ==> Db() == old(Db())
    {
      if receipt.Some? && receipt.value !in inflight { return Raised(ReceiptMissing); }
      if front { pending := [item] + pending; } else { pending := pending + [item]; }
      if receipt.Some? { inflight := Forget(inflight, receipt.value); }
      if item.messageId.Some? && item.claim.Some? {
        var id := item.messageId.value;
        if id in claims && claims[id].Processing? && claims[id].token == item.claim.value {
          claims := claims[id := Processing(item.claim.value, true)];
        }
      }
      return Ok(());
    }

    method PopIncomingWork(claimToken: Option<Token>) returns (r: Outcome<Option<Item>>)
      modifies this`pending, this`inflight
      ensures claimToken.None? ==> Db() == old(Db()) && r == Raised(OwnerRequired)
      ensures claimToken.Some? ==>
                var reply := Pop(old(Db()), claimToken.value);
                Db() == reply.db
                && r == match reply.value
                        case OwnerLost => Raised(OwnerGone)
                        case NothingPending => Ok(None)
                        case Popped(item) => Ok(Some(item))
      ensures r.Raised? <==> claimToken.None? || old(lock) != claimToken
      ensures r.Ok? && old(pending) == [] ==> r.value.None? && Db() == old(Db())
      ensures r.Ok? && old(pending) != [] ==>
                r.value == Some(old(pending)[0]) && pending == old(pending)[1..]
                && inflight == old(inflight) + [old(pending)[0]]
    {
      if claimToken.None? { return Raised(OwnerRequired); }
      if lock != claimToken { return Raised(OwnerGone); }
      if |pending| == 0 { return Ok(None); }
      var item := pending[0];
      inflight := inflight + [item];
      pending := pending[1..];
      return Ok(Some(item));
    }

    method AcknowledgeIncomingWork(item: Item) returns (r: Outcome<()>)
      modifies this`inflight, this`settled
      ensures var reply := Acknowledge(old(Db()), item);
              Db() == reply.db && r == if reply.value then Ok(()) else Raised(CompletionUnconfirmed)
      ensures settled == if r.Ok? then old(settled) + multiset{item} else old(settled)
      ensures r.Ok? <==>
              && item in old(inflight)
              && (item.messageId.Some? && item.claim.Some? ==>
                    item.messageId.value in claims && claims[item.messageId.value] == Completed)
      ensures r.Ok? ==> multiset(old(inflight)) == multiset(inflight) + multiset{item}
      ensures !r.Ok? ==> inflight == old(inflight)
    {
      if item.messageId.Some? && item.claim.Some? {
        var id := item.messageId.value;
        if !(id in claims && claims[id] == Completed) { return Raised(CompletionUnconfirmed); }
      }
      if item !in inflight { return Raised(CompletionUnconfirmed); }
      inflight := Forget(inflight, item);
      settled := settled + multiset{item};
      return Ok(());
    }

    method ClaimIncomingMessage(id: MessageId) returns (token: Option<Token>)
      modifies this`claims, this`nextToken
      ensures var reply := ClaimMessage(old(Db()), id, old(nextToken));
              Db() == reply.db && token == if reply.value then Some(old(nextToken)) else None
      ensures nextToken == old(nextToken) + 1
      ensures token == if id in old(claims) then None else Some(old(nextToken))
      ensures claims == if token.None? then old(claims) else old(claims)[id := Processing(old(nextToken), false)]
    {
      var issued := nextToken;
      nextToken := nextToken + 1;
      if id in claims { return None; }
      claims := claims[id := Processing(issued, false)];
      return Some(issued);
    }

    method CompleteIncomingMessage(item: Item)
      modifies this`claims
      ensures Db() == CompleteMessage(old(Db()), item)
      ensures forall id :: id in claims <==> id in old(claims)
      ensures forall id :: id in claims ==>
                if HoldsClaim(old(claims)[id], id, item) then claims[id] == Completed else claims[id] == old(claims)[id]
    {
      if item.messageId.Some? && item.claim.Some? {
        var id := item.messageId.value;
        if id in claims && claims[id].Processing? && claims[id].token == item.claim.value {
          claims := claims[id := Completed];
        }
      }
    }

    method ReleaseIncomingMessage(item: Item)
      modifies this`claims
      ensures Db() == ReleaseMessage(old(Db()), item)
      ensures forall id :: id in claims <==> id in old(claims) && !HoldsClaim(old(claims)[id], id, item)
      ensures forall id :: id in claims ==> claims[id] == old(claims)[id]
    {
      if item.messageId.Some? && item.claim.Some? {
        var id := item.messageId.value;
        if id in claims && claims[id].Processing? && claims[id].token == item.claim.value {
          claims := claims - {id};
        }
      }
    }
  }
}
