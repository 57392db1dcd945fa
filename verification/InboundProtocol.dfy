/**
 Any number of workers sharing one sender's queue. Each Redis command is one atomic step of one
 worker; lease expiry, claim expiry, exceptions and crashes may happen between any two steps.
 */
module InboundProtocol {
  import opened Prelude
  import opened QueueScripts
  import opened BurstOrder

  /** How a drive ends: caught up, with a retryable response, or with an exception. */
  datatype Ending = Settled | Retryable | Raised

  /** Where a worker is while it drives the queue under a lock token. */
  datatype Phase =
    | CheckInflight | Refresh | Count | Collect | Burst | Decide | Single
    | Complete | Ack | Requeue | Release(ending: Ending)

  /**
   Where a worker is, between `process_whatsapp_payload` and `_process_inbound_burst`. While driving,
   `todo` and `rest` are the reserved items still to be settled (`rest` after the present group),
   `done` the items already put back and `base` what was pending when putting back began.
   */
  datatype Pc =
    | Arrived(webhook: Item)
    | Claimed(item: Item)
    | Unclaim(item: Item)
    | Duplicate
    | WantLock
    | Driving(token: Token, phase: Phase, todo: seq<Item>, rest: seq<Item>, single: bool,
              done: seq<Item>, base: seq<Item>)
    | Recheck
    | Returned(ending: Ending)

  /** Driving with these items in hand. */
  function Holding(t: Token, phase: Phase, todo: seq<Item>): Pc {
    Driving(t, phase, todo, [], false, [], [])
  }

  function Empty(t: Token, phase: Phase): Pc {
    Holding(t, phase, [])
  }

  function StartRequeue(t: Token, items: seq<Item>, pending: seq<Item>): Pc {
    Driving(t, Requeue, items, [], false, [], pending)
  }

  function Settle(t: Token, todo: seq<Item>, rest: seq<Item>, single: bool): Pc {
    Driving(t, Complete, todo, rest, single, [], [])
  }

  /** Outcomes a worker does not control: store and provider answers, and what was revoked meanwhile. */
  datatype Oracle = Oracle(storeOk: bool, revoked: set<nat>, combine: bool, retryable: bool)

  datatype Action =
    | Deliver(webhook: Item)
    | Work(worker: nat, oracle: Oracle)
    | Raise(worker: nat)
    | Crash(worker: nat)
    | LockExpires
    | ClaimExpires(id: MessageId)

  /**
   What the workers share. The last five fields are history variables that no step reads: the lock
   tokens of all pops since nothing was in flight, the items ever enqueued, the items acknowledged,
   the claims found live when their item was enqueued, and the claims whose completion was recorded.
   */
  datatype Shared = Shared(
    db: Db,
    nextToken: Token,
    limit: nat,
    poppers: set<Token>,
    accepted: multiset<Item>,
    settled: multiset<Item>,
    guarded: set<Token>,
    completed: set<Token>)

  datatype State = State(shared: Shared, workers: seq<Pc>)

  function Initial(limit: nat): State {
    State(Shared(EMPTY_DB, 0, limit, {}, multiset{}, multiset{}, {}, {}), [])
  }

  // ---------- Commands ----------

  /** The one Redis command a step issues. */
  datatype Command =
    | Nothing
    | ClaimId(id: MessageId)
    | Push(item: Item)
    | ReleaseId(item: Item)
    | TakeLock
    | DropLock(token: Token)
    | PopFront(token: Token)
    | CompleteId(item: Item)
    | Remove(item: Item)
    | PutBack(item: Item)

  /** The pops that still matter once this much is in flight. */
  function Since(inflight: seq<Item>, poppers: set<Token>): set<Token> {
    if inflight == [] then {} else poppers
  }

  function ClaimedBy(g: Shared, item: Item): set<Token> {
    if ClaimLive(g.db.claims, item) then {item.claim.value} else {}
  }

  /** The command's effect, history included; a refused command changes nothing. */
  function Execute(g: Shared, c: Command): Shared {
    match c
    case Nothing => g
    case ClaimId(id) =>
      var reply := ClaimMessage(g.db, id, g.nextToken);
      if reply.value then g.(db := reply.db, nextToken := g.nextToken + 1) else g
    case Push(item) =>
      g.(db := Enqueue(g.db, item, None, false).db,
         accepted := g.accepted + multiset{item},
         guarded := g.guarded + ClaimedBy(g, item))
    case ReleaseId(item) => g.(db := ReleaseMessage(g.db, item))
    case TakeLock =>
      var reply := ClaimSender(g.db, g.nextToken);
      if reply.value.Granted? then g.(db := reply.db, nextToken := g.nextToken + 1) else g
    case DropLock(t) => g.(db := ReleaseSender(g.db, t))
    case PopFront(t) =>
      var reply := Pop(g.db, t);
      if reply.value.Popped? then g.(db := reply.db, poppers := g.poppers + {t}) else g
    case CompleteId(item) =>
      g.(db := CompleteMessage(g.db, item), completed := g.completed + ClaimedBy(g, item))
    case Remove(item) =>
      var reply := Acknowledge(g.db, item);
      if !reply.value then g
      else g.(db := reply.db, poppers := Since(reply.db.inflight, g.poppers), settled := g.settled + multiset{item})
    case PutBack(item) =>
      var reply := Enqueue(g.db, item, Some(item), true);
      if !reply.value then g
      else g.(db := reply.db, poppers := Since(reply.db.inflight, g.poppers))
  }

  // ---------- One step of one worker ----------

  /** The command issued and the worker's place afterwards. */
  datatype Next = Next(command: Command, pc: Pc)

  predicate WellFormed(item: Item) {
    item.fromNumber != ""
  }

  function ClaimStep(g: Shared, webhook: Item): Next {
    if webhook.messageId.None? then Next(Nothing, Claimed(webhook.(claim := None)))
    else
      var id := webhook.messageId.value;
      Next(ClaimId(id), if ClaimMessage(g.db, id, g.nextToken).value
                        then Claimed(webhook.(claim := Some(g.nextToken))) else Duplicate)
  }

  function LockStep(g: Shared): Next {
    Next(TakeLock, match ClaimSender(g.db, g.nextToken).value
                   case Busy => Returned(Settled)
                   case RecoveryRequired => Returned(Raised)
                   case Granted => Empty(g.nextToken, CheckInflight))
  }

  /** Pop until the burst is full or the queue is empty. */
  function PopStep(g: Shared, t: Token, items: seq<Item>): Next {
    if |items| >= (if g.limit >= 1 then g.limit else 1) then Next(Nothing, Holding(t, Burst, SortBurst(items)))
    else Next(PopFront(t),
      match Pop(g.db, t).value
      case OwnerLost => Empty(t, Release(Raised))
      case NothingPending => if items == [] then Empty(t, Release(Settled)) else Holding(t, Burst, SortBurst(items))
      case Popped(item) => Holding(t, Collect, items + [item]))
  }

  /** The items at the positions in (or outside) `chosen`, in order. */
  function Select(items: seq<Item>, chosen: set<nat>, inside: bool): seq<Item> {
    if items == [] then []
    else
      var n := |items| - 1;
      var front := Select(items[..n], chosen, inside);
      if (n in chosen) == inside then front + [items[n]] else front
  }

  /** Drop what was revoked while it was queued; without an answer about that, put the whole burst back. */
  function BurstStep(g: Shared, t: Token, items: seq<Item>, o: Oracle): Pc {
    if !o.storeOk then StartRequeue(t, items, g.db.pending)
    else
      var revoked := Select(items, o.revoked, true);
      if revoked == [] then Holding(t, Decide, items)
      else Settle(t, revoked, Select(items, o.revoked, false), false)
  }

  function DecideStep(g: Shared, t: Token, items: seq<Item>, o: Oracle): Pc {
    if !(o.combine && |items| >= 2) then Holding(t, Single, items)
    else if o.retryable then StartRequeue(t, items, g.db.pending)
    else Settle(t, items, [], false)
  }

  function SingleStep(g: Shared, t: Token, items: seq<Item>, o: Oracle): Pc {
    if items == [] then Empty(t, Refresh)
    else if o.retryable && WellFormed(items[0]) then StartRequeue(t, items, g.db.pending)
    else Settle(t, [items[0]], items[1..], true)
  }

  function CompleteStep(pc: Pc): Next
    requires pc.Driving?
  {
    if pc.todo == [] || !WellFormed(pc.todo[0]) then Next(Nothing, Empty(pc.token, Release(Raised)))
    else Next(CompleteId(pc.todo[0]), pc.(phase := Ack))
  }

  function AfterAck(t: Token, left: seq<Item>, rest: seq<Item>, single: bool): Pc {
    if left != [] then Settle(t, left, rest, single)
    else if rest == [] then Empty(t, Refresh)
    else Holding(t, if single then Single else Decide, rest)
  }

  function AckStep(g: Shared, pc: Pc): Next
    requires pc.Driving?
  {
    if pc.todo == [] then Next(Nothing, Empty(pc.token, Release(Raised)))
    else Next(Remove(pc.todo[0]),
              if Acknowledge(g.db, pc.todo[0]).value then AfterAck(pc.token, pc.todo[1..], pc.rest, pc.single)
              else Empty(pc.token, Release(Raised)))
  }

  /** Front insertions run from the last item to the first, each moving one item out of flight. */
  function RequeueStep(g: Shared, pc: Pc): Next
    requires pc.Driving?
  {
    if pc.todo == [] then Next(Nothing, Empty(pc.token, Release(Retryable)))
    else
      var n := |pc.todo| - 1;
      var item := pc.todo[n];
      Next(PutBack(item),
           if item !in g.db.inflight then Empty(pc.token, Release(Raised))
           else if n == 0 then Empty(pc.token, Release(Retryable))
           else pc.(todo := pc.todo[..n], done := [item] + pc.done))
  }

  function DriveStep(g: Shared, pc: Pc, o: Oracle): Next
    requires pc.Driving?
  {
    var t := pc.token;
    match pc.phase
    case CheckInflight => Next(Nothing, Empty(t, if g.db.inflight != [] then Release(Raised) else Refresh))
    case Refresh => Next(Nothing, Empty(t, if OwnsSender(g.db, t) then Count else Release(Retryable)))
    case Count => Next(Nothing, Empty(t, if g.db.pending == [] then Release(Settled) else Collect))
    case Collect => PopStep(g, t, pc.todo)
    case Burst => Next(Nothing, BurstStep(g, t, pc.todo, o))
    case Decide => Next(Nothing, DecideStep(g, t, pc.todo, o))
    case Single => Next(Nothing, SingleStep(g, t, pc.todo, o))
    case Complete => CompleteStep(pc)
    case Ack => AckStep(g, pc)
    case Requeue => RequeueStep(g, pc)
    case Release(ending) => Next(DropLock(t), if ending == Settled then Recheck else Returned(ending))
  }

  function WorkerStep(g: Shared, pc: Pc, o: Oracle): Next {
    match pc
    case Arrived(webhook) => ClaimStep(g, webhook)
    case Claimed(item) => if o.storeOk then Next(Push(item), WantLock) else Next(Nothing, Unclaim(item))
    case Unclaim(item) => Next(ReleaseId(item), Returned(Retryable))
    case Duplicate => Next(Nothing, if g.db.pending != [] then WantLock else Returned(Settled))
    case WantLock => LockStep(g)
    case Driving(_, _, _, _, _, _, _) => DriveStep(g, pc, o)
    case Recheck => Next(Nothing, if g.db.pending == [] then Returned(Settled) else WantLock)
    case Returned(_) => Next(Nothing, pc)
  }

  /** An exception inside the drain runs the `finally` that releases the lock; elsewhere the worker just returns. */
  function Unwound(pc: Pc): Pc {
    if pc.Driving? && !pc.phase.Release? then Empty(pc.token, Release(Raised)) else Returned(Raised)
  }

  /** One action; an action on a worker that does not exist changes nothing. */
  function Apply(s: State, a: Action): State {
    var g := s.shared;
    match a
    case Deliver(webhook) => s.(workers := s.workers + [Arrived(webhook)])
    case Work(w, o) => if w < |s.workers| then Install(s, w, WorkerStep(g, s.workers[w], o)) else s
    case Raise(w) => if w < |s.workers| then Install(s, w, Next(Nothing, Unwound(s.workers[w]))) else s
    case Crash(w) => if w < |s.workers| then Install(s, w, Next(Nothing, Returned(Raised))) else s
    case LockExpires => s.(shared := g.(db := ExpireLock(g.db)))
    case ClaimExpires(id) => s.(shared := g.(db := ExpireClaim(g.db, id)))
  }

  function Install(s: State, w: nat, n: Next): State
    requires w < |s.workers|
  {
    State(Execute(s.shared, n.command), s.workers[w := n.pc])
  }

  /** The state after these actions; every sequence of actions is a run. */
  function After(s: State, actions: seq<Action>): State {
    if actions == [] then s
    else Apply(After(s, actions[..|actions| - 1]), actions[|actions| - 1])
  }

  function Run(limit: nat, actions: seq<Action>): State {
    After(Initial(limit), actions)
  }
}
