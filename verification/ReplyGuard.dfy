/**
 `_send_text_once` for one source message id: any number of workers, crashes and retries around one
 guard key, with a clock. A record lives until its deadline; a token is the number of its claim.
 */
module ReplyGuard {
  import opened Prelude

  type Token = nat

  datatype Value = Processing(token: Token) | Completed

  datatype Record = Record(value: Value, deadline: nat)

  /** What really happened at the provider, and what `_send_text_once` could see of it. */
  datatype Delivery = Delivered | Rejected | Uncertain(accepted: bool)

  datatype Pc =
    | Start
    | Claiming
    | Guarded(token: Token)
    | Sending(token: Token)
    | Finishing(token: Token, reopen: bool)
    | Returned

  /** Outside choices. A command may take effect although its answer is lost; an answer implies the effect. */
  datatype Oracle = Oracle(revoked: bool, applied: bool, answered: bool, delivery: Delivery)

  datatype Action = Deliver | Work(worker: nat, oracle: Oracle) | Crash(worker: nat) | Tick(seconds: nat)

  /** A message the provider accepted: under which claim, and when. */
  datatype Acceptance = Acceptance(token: Token, at: nat)

  /**
   The guard key and the clock; then history: when each claim was made, the claims deleted after a
   definite rejection, when a claim's completion took effect, and the accepted messages in order.
   */
  datatype Shared = Shared(
    ttl: nat,
    now: nat,
    guard: Option<Record>,
    claimedAt: seq<nat>,
    reopened: set<Token>,
    recorded: map<Token, nat>,
    accepted: seq<Acceptance>)

  datatype State = State(shared: Shared, workers: seq<Pc>)

  /** Seconds a guard record lives: what is configured, but at least a minute. */
  function GuardTtl(setting: int): (ttl: nat)
    ensures ttl >= 60 && ttl >= setting && (ttl == 60 || ttl == setting)
  {
    if setting > 60 then setting else 60
  }

  predicate Live(g: Shared) {
    g.guard.Some? && g.now < g.guard.value.deadline
  }

  predicate Owns(g: Shared, t: Token) {
    Live(g) && g.guard.value.value == Processing(t)
  }

  /** SET NX EX. */
  function Claim(g: Shared): Shared {
    if Live(g) then g
    else g.(guard := Some(Record(Processing(|g.claimedAt|), g.now + g.ttl)), claimedAt := g.claimedAt + [g.now])
  }

  function Complete(g: Shared, t: Token): Shared {
    if Owns(g, t) then g.(guard := Some(Record(Completed, g.now + g.ttl)), recorded := g.recorded[t := g.now]) else g
  }

  function Release(g: Shared, t: Token): Shared {
    if Owns(g, t) then g.(guard := None, reopened := g.reopened + {t}) else g
  }

  predicate Accepts(d: Delivery) {
    d.Delivered? || (d.Uncertain? && d.accepted)
  }

  datatype Next = Next(shared: Shared, pc: Pc)

  /** Apply a command unless it was lost, and go on only with an answer. */
  function Issue(g: Shared, after: Shared, pc: Pc, o: Oracle): Next {
    Next(if o.applied || o.answered then after else g, if o.answered then pc else Returned)
  }

  function Step(g: Shared, pc: Pc, o: Oracle): Next {
    match pc
    case Start => Next(g, if o.revoked then Returned else Claiming)
    case Claiming => Issue(g, Claim(g), if Live(g) then Returned else Guarded(|g.claimedAt|), o)
    case Guarded(t) => Next(g, if o.revoked then Finishing(t, false) else Sending(t))
    case Sending(t) =>
      Next(if Accepts(o.delivery) then g.(accepted := g.accepted + [Acceptance(t, g.now)]) else g,
           if o.answered then Finishing(t, o.delivery.Rejected?) else Returned)
    case Finishing(t, reopen) => Issue(g, if reopen then Release(g, t) else Complete(g, t), Returned, o)
    case Returned => Next(g, Returned)
  }

  function Apply(s: State, a: Action): State {
    match a
    case Deliver => s.(workers := s.workers + [Start])
    case Work(w, o) =>
      if w >= |s.workers| then s
      else var n := Step(s.shared, s.workers[w], o); State(n.shared, s.workers[w := n.pc])
    case Crash(w) => if w < |s.workers| then s.(workers := s.workers[w := Returned]) else s
    case Tick(d) => s.(shared := s.shared.(now := s.shared.now + d))
  }

  function Initial(setting: int): State {
    State(Shared(GuardTtl(setting), 0, None, [], {}, map[], []), [])
  }

  /** The state after these actions; every sequence of actions is a run. */
  function After(s: State, actions: seq<Action>): State {
    if actions == [] then s
    else Apply(After(s, actions[..|actions| - 1]), actions[|actions| - 1])
  }

  function Run(setting: int, actions: seq<Action>): State {
    After(Initial(setting), actions)
  }

  // ---------- The invariant ----------

  function TokenOf(pc: Pc): Option<Token> {
    match pc
    case Guarded(t) => Some(t)
    case Sending(t) => Some(t)
    case Finishing(t, _) => Some(t)
    case _ => None
  }

  /** A claim that was not given back keeps the next claim away for a whole TTL. */
  ghost predicate Spaced(g: Shared) {
    forall a, b :: 0 <= a < b < |g.claimedAt| && a !in g.reopened ==> g.claimedAt[b] >= g.claimedAt[a] + g.ttl
  }

  /** Every claim not given back has outlived its TTL or is still protected by the key. */
  ghost predicate Protected(g: Shared) {
    forall a :: 0 <= a < |g.claimedAt| && a !in g.reopened ==>
      g.claimedAt[a] + g.ttl <= g.now || (g.guard.Some? && g.claimedAt[a] + g.ttl <= g.guard.value.deadline)
  }

  /** A recorded completion keeps the next claim away for a whole TTL from its recording. */
  ghost predicate RecordsSpaced(g: Shared) {
    forall a, b :: a in g.recorded && a < b < |g.claimedAt| ==> g.claimedAt[b] >= g.recorded[a] + g.ttl
  }

  ghost predicate RecordsProtected(g: Shared) {
    forall a :: a in g.recorded ==>
      && a < |g.claimedAt| && g.recorded[a] <= g.now && a !in g.reopened
      && (g.recorded[a] + g.ttl <= g.now || (g.guard.Some? && g.recorded[a] + g.ttl <= g.guard.value.deadline))
  }

  /** While the key holds a processing token, it is the last claim's, and its completion is not recorded. */
  predicate LastClaimHolds(g: Shared) {
    g.guard.Some? && g.guard.value.value.Processing? ==>
      g.guard.value.value.token == |g.claimedAt| - 1 && g.guard.value.value.token !in g.recorded
  }

  predicate AcceptanceOk(g: Shared, x: Acceptance) {
    && x.token < |g.claimedAt| && x.token !in g.reopened
    && g.claimedAt[x.token] <= x.at <= g.now
    && (x.token in g.recorded ==> x.at <= g.recorded[x.token])
  }

  ghost predicate AcceptancesOk(g: Shared) {
    && (forall i :: 0 <= i < |g.accepted| ==> AcceptanceOk(g, g.accepted[i]))
    && (forall i, j :: 0 <= i < j < |g.accepted| ==> g.accepted[i].token != g.accepted[j].token)
  }

  ghost predicate SharedOk(g: Shared) {
    && Spaced(g) && Protected(g)
    && RecordsSpaced(g) && RecordsProtected(g)
    && LastClaimHolds(g) && AcceptancesOk(g)
    && (forall a :: 0 <= a < |g.claimedAt| ==> g.claimedAt[a] <= g.now)
    && (forall t :: t in g.reopened ==> t < |g.claimedAt|)
  }

  /** No message has been accepted under this claim. */
  ghost predicate Unsent(g: Shared, t: Token) {
    t < |g.claimedAt| && forall i :: 0 <= i < |g.accepted| ==> g.accepted[i].token != t
  }

  /** What a worker's own token promises: until it sends, its claim is neither answered, recorded nor given back. */
  ghost predicate WorkerOk(g: Shared, pc: Pc) {
    match pc
    case Guarded(t) => Unsent(g, t) && t !in g.reopened && t !in g.recorded
    case Sending(t) => Unsent(g, t) && t !in g.reopened && t !in g.recorded
    case Finishing(t, reopen) => t < |g.claimedAt| && t !in g.reopened && (reopen ==> Unsent(g, t))
    case _ => true
  }

  ghost predicate Invariant(s: State) {
    && SharedOk(s.shared)
    && (forall v :: 0 <= v < |s.workers| ==> WorkerOk(s.shared, s.workers[v]))
    && (forall v, u :: 0 <= v < u < |s.workers| && TokenOf(s.workers[v]).Some? ==>
          TokenOf(s.workers[v]) != TokenOf(s.workers[u]))
  }
}
