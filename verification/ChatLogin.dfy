/**
 The two-step login of one conversation and the replay of the action it interrupted. A handler is the
 list of its store, verifier and dispatch calls in order, and an exception, a failed call or a crash
 ends it after any number of them; only what was saved is there for the next turn.
 */
module ChatLogin {
  import opened Prelude
  import opened Quotas
  import opened CredentialExtraction

  /** A user id or password together with the turn whose message gave it. */
  datatype Cred = Cred(text: string, turn: nat)

  type Customer = nat

  /** `Conversation`: a captured protected action is named by the turn that captured it. */
  datatype Conversation = Conversation(
    verified: Option<Customer>,
    state: AuthState,
    pendingUserid: Option<Cred>,
    pendingRequest: bool,
    pendingTool: Option<nat>)

  const FRESH := Conversation(None, Guest, None, false, None)

  datatype Answer = Accepted(customer: Customer) | Wrong | Unavailable

  datatype Effect =
    | Save(conversation: Conversation)
    | ClearSecret
    | PopSecret
    | StashSecret(password: Cred)
    | Hit(at: int)
    | Verify(userid: Cred, password: Cred, at: int, answer: Answer)
    | Dispatch(tool: nat, customer: Customer)

  /** A handler: effects in order. */
  datatype Program = Done | Do(effect: Effect, next: Program)

  /** What one AI turn reports: authentication needed, perhaps for a tool call, perhaps with request text. */
  datatype AiResult = Plain | AuthRequired(hasText: bool, hasTool: bool)

  /** One processing turn: the message, how it reads, and the outside answers. `calls` is how many succeed. */
  datatype Turn = Turn(
    message: nat,
    scan: Scan,
    cancel: bool,
    topicSwitch: bool,
    logout: bool,
    diverted: bool,
    now: int,
    answer: Answer,
    ai: AiResult,
    timedOut: bool,
    rendered: bool,
    answered: bool,
    calls: nat)

  datatype Entry = Entry(turn: nat, effect: Effect)

  /**
   The saved conversation, the one-time password store, the throttle's hits for this phone; then
   history: the turns so far, every effect with its turn, when the verifier was called, and the
   actions no longer captured.
   */
  datatype World = World(
    conversation: Conversation,
    secret: Option<Cred>,
    hits: seq<int>,
    turns: seq<Turn>,
    log: seq<Entry>,
    checks: seq<int>,
    dropped: set<nat>)

  datatype Throttle = Throttle(max: int, window: nat)

  function Tool(c: Conversation): set<nat> {
    if c.pendingTool.Some? then {c.pendingTool.value} else {}
  }

  function Execute(w: World, turn: nat, e: Effect): (r: World)
    ensures r.log == w.log + [Entry(turn, e)] && r.turns == w.turns
    ensures !e.Save? ==> r.conversation == w.conversation && r.dropped == w.dropped
  {
    var w := w.(log := w.log + [Entry(turn, e)]);
    match e
    case Save(c) => w.(conversation := c, dropped := w.dropped + (Tool(w.conversation) - Tool(c)))
    case ClearSecret => w.(secret := None)
    case PopSecret => w.(secret := None)
    case StashSecret(p) => w.(secret := Some(p))
    case Hit(at) => w.(hits := w.hits + [at])
    case Verify(_, _, at, _) => w.(checks := w.checks + [at])
    case Dispatch(_, _) => w
  }

  function Perform(w: World, turn: nat, p: Program, calls: nat): World
    decreases calls
  {
    if calls == 0 || p.Done? then w
    else Perform(Execute(w, turn, p.effect), turn, p.next, calls - 1)
  }

  /** Two calls of a program, of which the first or the second may be the last to succeed. */
  lemma TwoCalls(w: World, turn: nat, a: Effect, b: Effect, next: Program, calls: nat)
    ensures Perform(w, turn, Do(a, Do(b, next)), calls)
         == if calls == 0 then w
            else if calls == 1 then Execute(w, turn, a)
            else Perform(Execute(Execute(w, turn, a), turn, b), turn, next, calls - 2)
  {
    if calls > 1 {
      assert Perform(w, turn, Do(a, Do(b, next)), calls) == Perform(Execute(w, turn, a), turn, Do(b, next), calls - 1);
    } else if calls == 1 {
      assert Perform(w, turn, Do(a, Do(b, next)), calls) == Perform(Execute(w, turn, a), turn, Do(b, next), 0);
    }
  }

  // ---------- The handlers ----------

  predicate FlowActive(c: Conversation) {
    && c.verified.None?
    && (StateAsksForCredentials(c.state) || c.pendingUserid.Some? || c.pendingRequest || c.pendingTool.Some?)
  }

  function Abandoned(c: Conversation): Conversation {
    Conversation(c.verified, Guest, None, false, None)
  }

  /**
   `_resume_after_auth`, from the freshly verified conversation. A dispatch that times out saves the
   conversation as it was, with the action still captured.
   */
  function ResumeAfterAuth(c: Conversation, i: Turn): Program
    requires c.verified.Some?
  {
    var cleared := c.(pendingTool := None);
    if !c.pendingRequest then Do(Save(cleared), Done)
    else if c.pendingTool.Some? then
      Do(Dispatch(c.pendingTool.value, c.verified.value),
        if i.timedOut then Do(Save(c), Done)
        else if i.rendered then Do(Save(cleared.(pendingRequest := false)), Done)
        else Do(Save(cleared), Do(Save(cleared.(pendingRequest := !i.answered)), Done)))
    else Do(Save(cleared.(pendingRequest := !i.answered)), Done)
  }

  /** What `_attempt_chat_login` does with the verifier's answer. */
  function AfterCheck(c: Conversation, i: Turn): Program {
    match i.answer
    case Accepted(customer) =>
      var verified := c.(verified := Some(customer), pendingUserid := None, state := Authenticated);
      Do(Save(verified), ResumeAfterAuth(verified, i))
    case Wrong => Do(Save(c.(pendingUserid := None, state := AuthenticationFailed)), Done)
    case Unavailable => Do(Save(c.(pendingUserid := None, state := AwaitingCredentials)), Done)
  }

  /** `_attempt_chat_login` with `_complete_authentication`. */
  function AttemptChatLogin(c: Conversation, userid: Cred, password: Cred, allowed: bool, i: Turn): Program {
    if allowed then
      Do(Hit(i.now), Do(Verify(userid, password, i.now, i.answer), Do(ClearSecret, AfterCheck(c, i))))
    else Do(ClearSecret, Do(Save(c.(pendingUserid := None, state := AuthenticationFailed)), Done))
  }

  /** The AI turn: an unauthenticated customer's blocked action is captured, replacing an older one. */
  function HandleAiResult(c: Conversation, turn: nat, i: Turn): Program {
    if c.verified.None? && i.ai.AuthRequired? then
      Do(Save(c.(state := AwaitingCredentials, pendingUserid := None,
                 pendingRequest := i.ai.hasText || c.pendingRequest,
                 pendingTool := if i.ai.hasTool then Some(turn) else None)), Done)
    else Do(Save(c), Done)
  }

  /** `_handle_conversational_auth`; a message it does not claim goes to the AI turn. */
  function HandleConversationalAuth(c: Conversation, e: Extraction, secret: Option<Cred>, allowed: bool,
                                    turn: nat, i: Turn): Program
  {
    if c.verified.Some? then
      if i.logout then Do(ClearSecret, Do(Save(FRESH), Done))
      else if e.isAttempt && (e.username.Some? || e.password.Some?) then Do(Save(c), Done)
      else HandleAiResult(c, turn, i)
    else if !e.isAttempt then HandleAiResult(c, turn, i)
    else if e.ambiguous then
      Do(ClearSecret, Do(Save(c.(pendingUserid := None, state := AwaitingCredentials)), Done))
    else if e.username.Some? then
      var userid := Cred(e.username.value, turn);
      var ask := Do(Save(c.(pendingUserid := Some(userid), state := AwaitingPassword)), Done);
      if c.state == AwaitingUsername then
        Do(PopSecret, if secret.Some? then AttemptChatLogin(c, userid, secret.value, allowed, i) else ask)
      else ask
    else if e.password.Some? then
      var password := Cred(e.password.value, turn);
      if c.pendingUserid.Some? then AttemptChatLogin(c, c.pendingUserid.value, password, allowed, i)
      else Do(StashSecret(password), Do(Save(c.(state := AwaitingUsername)), Done))
    else Do(Save(c.(state := AwaitingCredentials)), Done)
  }

  predicate Interrupted(c: Conversation, i: Turn) {
    FlowActive(c) && (i.cancel || i.topicSwitch)
  }

  function Reading(c: Conversation, i: Turn): Extraction
    requires Scanned(i.scan)
  {
    Extract(i.scan, c.state, c.pendingUserid.Some?, c.state == AwaitingUsername)
  }

  predicate Allows(throttle: Throttle, hits: seq<int>, now: int) {
    CountAfter(hits, now - throttle.window - 1) < throttle.max
  }

  /** The rest of the turn once an interruption has been dealt with; human and outage paths divert it. */
  function Continue(throttle: Throttle, w: World, c: Conversation, secret: Option<Cred>, i: Turn): Program
    requires Scanned(i.scan)
  {
    if i.diverted then Done
    else HandleConversationalAuth(c, Reading(c, i), secret, Allows(throttle, w.hits, i.now), |w.turns|, i)
  }

  /** One inbound text message, as `_process_incoming_message` orders its parts. */
  function Handler(throttle: Throttle, w: World, i: Turn): Program
    requires Scanned(i.scan)
  {
    if Interrupted(w.conversation, i) then
      var c := Abandoned(w.conversation);
      Do(ClearSecret, Do(Save(c),
        if i.cancel then (if i.diverted then Done else Do(Save(c), Done)) else Continue(throttle, w, c, None, i)))
    else Continue(throttle, w, w.conversation, w.secret, i)
  }

  // ---------- Runs ----------

  datatype Action =
    | Process(turn: Turn)
    | SecretExpires
    | ConversationExpires
    | OtherAttempt(now: int)

  function Step(throttle: Throttle, w: World, a: Action): World
    requires a.Process? ==> Scanned(a.turn.scan)
  {
    match a
    case Process(i) =>
      var after := Perform(w, |w.turns|, Handler(throttle, w, i), i.calls);
      after.(turns := w.turns + [i])
    case SecretExpires => w.(secret := None)
    case ConversationExpires => w.(conversation := FRESH, dropped := w.dropped + Tool(w.conversation))
    case OtherAttempt(now) => if Allows(throttle, w.hits, now) then w.(hits := w.hits + [now]) else w
  }

  predicate AllScanned(actions: seq<Action>) {
    forall k :: 0 <= k < |actions| && actions[k].Process? ==> Scanned(actions[k].turn.scan)
  }

  const START := World(FRESH, None, [], [], [], [], {})

  function Run(throttle: Throttle, actions: seq<Action>): World
    requires AllScanned(actions)
  {
    if actions == [] then START
    else Step(throttle, Run(throttle, actions[..|actions| - 1]), actions[|actions| - 1])
  }
}
