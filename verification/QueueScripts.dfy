/**
 The Redis commands and Lua scripts of the durable per-sender inbound queue.
 Each script runs atomically, so each is one function from database to database.
 */
module QueueScripts {
  import opened Prelude

  /** A secret random token. Tokens are drawn from a counter, so a new one was never issued before. */
  type Token = nat
  type MessageId = string

  /**
   One queued webhook. The stored JSON text is the item itself, so the receipt of a
   reservation (its raw stored text) is the item as well.
   */
  datatype Item = Item(
    fromNumber: string,
    messageId: Option<MessageId>,
    claim: Option<Token>,
    timestamp: Option<int>,
    body: string)

  /** The value of a message claim key; a persistent record has no expiry. */
  datatype ClaimRecord = Processing(token: Token, persistent: bool) | Completed

  datatype Db = Db(
    pending: seq<Item>,
    inflight: seq<Item>,
    lock: Option<Token>,
    claims: map<MessageId, ClaimRecord>)

  datatype Reply<T> = Reply(db: Db, value: T)
  datatype SenderClaim = Busy | RecoveryRequired | Granted
  datatype PopResult = OwnerLost | NothingPending | Popped(item: Item)

  const EMPTY_DB := Db([], [], None, map[])

  /** LREM key 1 receipt: drop the first reservation that stores this payload. */
  function Forget(list: seq<Item>, item: Item): (r: seq<Item>)
    ensures item !in list ==> r == list
    ensures item in list ==> multiset(list) == multiset(r) + multiset{item}
  {
    if list == [] then []
    else
      assert list == [list[0]] + list[1..];
      if list[0] == item then list[1..] else [list[0]] + Forget(list[1..], item)
  }

  function ClaimSender(db: Db, newToken: Token): Reply<SenderClaim> {
    if db.lock.Some? then Reply(db, Busy)
    else if db.inflight != [] then Reply(db, RecoveryRequired)
    else Reply(db.(lock := Some(newToken)), Granted)
  }

  predicate OwnsSender(db: Db, token: Token) {
    db.lock == Some(token)
  }

  function ReleaseSender(db: Db, token: Token): Db {
    if db.lock == Some(token) then db.(lock := None) else db
  }

  /** Whether the message claim key still holds this item's own processing token. */
  predicate ClaimLive(claims: map<MessageId, ClaimRecord>, item: Item) {
    item.messageId.Some? && item.claim.Some? && item.messageId.value in claims &&
    var record := claims[item.messageId.value];
    record.Processing? && record.token == item.claim.value
  }

  function Persist(claims: map<MessageId, ClaimRecord>, item: Item): map<MessageId, ClaimRecord> {
    if ClaimLive(claims, item) then claims[item.messageId.value := Processing(item.claim.value, true)]
    else claims
  }

  /** Push an item; with a receipt, move it out of flight in the same script. */
  function Enqueue(db: Db, item: Item, receipt: Option<Item>, front: bool): Reply<bool> {
    if receipt.Some? && receipt.value !in db.inflight then Reply(db, false)
    else
      var pending := if front then [item] + db.pending else db.pending + [item];
      var inflight := if receipt.Some? then Forget(db.inflight, receipt.value) else db.inflight;
      Reply(db.(pending := pending, inflight := inflight, claims := Persist(db.claims, item)), true)
  }

  function Pop(db: Db, token: Token): Reply<PopResult> {
    if db.lock != Some(token) then Reply(db, OwnerLost)
    else if db.pending == [] then Reply(db, NothingPending)
    else Reply(db.(pending := db.pending[1..],
                   inflight := db.inflight + [db.pending[0]]),
               Popped(db.pending[0]))
  }

  function Acknowledge(db: Db, item: Item): Reply<bool> {
    if item.messageId.Some? && item.claim.Some? &&
       !(item.messageId.value in db.claims && db.claims[item.messageId.value] == Completed)
    then Reply(db, false)
    else if item !in db.inflight then Reply(db, false)
    else Reply(db.(inflight := Forget(db.inflight, item)), true)
  }

  /** SET NX EX: succeeds only while the key is absent. */
  function ClaimMessage(db: Db, id: MessageId, newToken: Token): Reply<bool> {
    if id in db.claims then Reply(db, false)
    else Reply(db.(claims := db.claims[id := Processing(newToken, false)]), true)
  }

  function CompleteMessage(db: Db, item: Item): Db {
    if ClaimLive(db.claims, item) then db.(claims := db.claims[item.messageId.value := Completed])
    else db
  }

  function ReleaseMessage(db: Db, item: Item): Db {
    if ClaimLive(db.claims, item) then db.(claims := db.claims - {item.messageId.value})
    else db
  }

  /** The server drops the sender lock when its lease runs out. */
  function ExpireLock(db: Db): Db {
    db.(lock := None)
  }

  /** The server drops a claim record that still has an expiry. */
  function ExpireClaim(db: Db, id: MessageId): Db {
    if id in db.claims && (db.claims[id].Completed? || !db.claims[id].persistent)
    then db.(claims := db.claims - {id})
    else db
  }
}
