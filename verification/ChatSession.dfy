/**
 The login handlers as they run: a local copy of the conversation updated step by step, saved at the
 points the source saves it, and any call may be the one that fails. Each is proved to do exactly the
 calls of its program.
 */
module ChatSession {
  import opened Prelude
  import opened Digits
  import opened CredentialExtraction
  import opened ChatLogin

  lemma {:induction false} TurnsUntouched(w: World, turn: nat, p: Program, calls: nat)
    ensures Perform(w, turn, p, calls).turns == w.turns
    decreases p
  {
    if p.Do? && calls > 0 { TurnsUntouched(Execute(w, turn, p.effect), turn, p.next, calls - 1); }
  }

  class Backend {
    const throttle: Throttle
    const digits: DigitTable
    var conversation: Conversation
    var secret: Option<Cred>
    var hits: seq<int>
    /** How many more calls succeed in this turn. */
    var left: nat
    ghost var turns: seq<Turn>
    ghost var log: seq<Entry>
    ghost var checks: seq<int>
    ghost var dropped: set<nat>

    ghost function World(): World
      reads this
    {
      ChatLogin.World(conversation, secret, hits, turns, log, checks, dropped)
    }

    constructor (throttle: Throttle, digits: DigitTable)
      ensures World() == START && this.throttle == throttle && this.digits == digits
    {
      this.throttle, this.digits := throttle, digits;
      conversation, secret, hits, left := FRESH, None, [], 0;
      turns, log, checks, dropped := [], [], [], {};
    }

    /** The call happened, or failed and changed nothing. */
    twostate predicate Called(turn: nat, e: Effect, ok: bool)
      reads this
    {
      && (ok <==> old(left) > 0)
      && left == (if ok then old(left) - 1 else 0)
      && World() == (if ok then Execute(old(World()), turn, e) else old(World()))
    }

    /** The calls of the program happened, up to the one that failed. */
    twostate predicate Ran(turn: nat, p: Program)
      reads this
    {
      World() == Perform(old(World()), turn, p, old(left))
    }

    method SaveConversation(c: Conversation, turn: nat) returns (ok: bool)
      modifies this
      ensures Called(turn, Save(c), ok)
    {
      if left == 0 { return false; }
      left := left - 1;
      dropped := dropped + (Tool(conversation) - Tool(c));
      conversation := c;
      log := log + [Entry(turn, Save(c))];
      return true;
    }

    method ClearPendingPassword(turn: nat) returns (ok: bool)
      modifies this
      ensures Called(turn, ClearSecret, ok)
    {
      if left == 0 { return false; }
      left := left - 1;
      secret := None;
      log := log + [Entry(turn, ClearSecret)];
      return true;
    }

    method PopPendingPassword(turn: nat) returns (ok: bool, password: Option<Cred>)
      modifies this
      ensures Called(turn, PopSecret, ok) && password == old(secret)
    {
      password := secret;
      if left == 0 { return false, password; }
      left := left - 1;
      secret := None;
      log := log + [Entry(turn, PopSecret)];
      return true, password;
    }

    method StashPendingPassword(password: Cred, turn: nat) returns (ok: bool)
      modifies this
      ensures Called(turn, StashSecret(password), ok)
    {
      if left == 0 { return false; }
      left := left - 1;
      secret := Some(password);
      log := log + [Entry(turn, StashSecret(password))];
      return true;
    }

    method RecordHit(now: int, turn: nat) returns (ok: bool)
      modifies this
      ensures Called(turn, Hit(now), ok)
    {
      if left == 0 { return false; }
      left := left - 1;
      hits := hits + [now];
      log := log + [Entry(turn, Hit(now))];
      return true;
    }

    method AuthenticateCustomer(userid: Cred, password: Cred, now: int, answer: Answer, turn: nat) returns (ok: bool)
      modifies this
      ensures Called(turn, Verify(userid, password, now, answer), ok)
    {
      if left == 0 { return false; }
      left := left - 1;
      checks := checks + [now];
      log := log + [Entry(turn, Verify(userid, password, now, answer))];
      return true;
    }

    method DispatchToolCall(tool: nat, customer: Customer, turn: nat) returns (ok: bool)
      modifies this
      ensures Called(turn, Dispatch(tool, customer), ok)
    {
      if left == 0 { return false; }
      left := left - 1;
      log := log + [Entry(turn, Dispatch(tool, customer))];
      return true;
    }

    // ---------- The handlers ----------

    method Resume(copy: Conversation, i: Turn, turn: nat)
      requires copy.verified.Some?
      modifies this
      ensures Ran(turn, ResumeAfterAuth(copy, i))
    {
      var c := copy;
      var pendingTool := c.pendingTool;
      ghost var p := ResumeAfterAuth(copy, i);
      if p.next.Do? { TwoCalls(World(), turn, p.effect, p.next.effect, p.next.next, left); }
      if !c.pendingRequest {
        c := c.(pendingTool := None);
        var saved := SaveConversation(c, turn);
        return;
      }
      if pendingTool.Some? {
        var dispatched := DispatchToolCall(pendingTool.value, c.verified.value, turn);
        if !dispatched { return; }
        if i.timedOut {
          var saved := SaveConversation(c, turn);
          return;
        }
        c := c.(pendingTool := None);
        if i.rendered {
          c := c.(pendingRequest := false);
          var saved := SaveConversation(c, turn);
          return;
        }
        var kept := SaveConversation(c, turn);
        if !kept { return; }
      }
      c := c.(pendingTool := None, pendingRequest := !i.answered);
      var saved := SaveConversation(c, turn);
    }

    method CompleteAuthentication(copy: Conversation, i: Turn, turn: nat)
      modifies this
      ensures Ran(turn, AfterCheck(copy, i))
    {
      var c := copy;
      match i.answer
      case Accepted(customer) =>
        c := c.(verified := Some(customer), pendingUserid := None, state := Authenticated);
        var saved := SaveConversation(c, turn);
        if saved { Resume(c, i, turn); }
      case Wrong =>
        c := c.(pendingUserid := None, state := AuthenticationFailed);
        var saved := SaveConversation(c, turn);
      case Unavailable =>
        c := c.(pendingUserid := None, state := AwaitingCredentials);
        var saved := SaveConversation(c, turn);
    }

    method Attempt(copy: Conversation, userid: Cred, password: Cred, allowed: bool, i: Turn, turn: nat)
      modifies this
      ensures Ran(turn, AttemptChatLogin(copy, userid, password, allowed, i))
    {
      ghost var p := AttemptChatLogin(copy, userid, password, allowed, i);
      TwoCalls(World(), turn, p.effect, p.next.effect, p.next.next, left);
      if !allowed {
        var cleared := ClearPendingPassword(turn);
        if !cleared { return; }
        var saved := SaveConversation(copy.(pendingUserid := None, state := AuthenticationFailed), turn);
        return;
      }
      var hit := RecordHit(i.now, turn);
      if !hit { return; }
      var checked := AuthenticateCustomer(userid, password, i.now, i.answer, turn);
      if !checked { return; }
      var cleared := ClearPendingPassword(turn);
      if cleared { CompleteAuthentication(copy, i, turn); }
    }

    method RunAiTurn(copy: Conversation, i: Turn, turn: nat)
      modifies this
      ensures Ran(turn, HandleAiResult(copy, turn, i))
    {
      var c := copy;
      if c.verified.None? && i.ai.AuthRequired? {
        c := c.(state := AwaitingCredentials, pendingUserid := None);
        if i.ai.hasText { c := c.(pendingRequest := true); }
        c := c.(pendingTool := if i.ai.hasTool then Some(turn) else None);
      }
      var saved := SaveConversation(c, turn);
    }

    /** The part of `_handle_conversational_auth` for a customer who is not logged in. */
    method HandleCredential(copy: Conversation, e: Extraction, allowed: bool, i: Turn, turn: nat)
      requires copy.verified.None? && e.isAttempt
      modifies this
      ensures Ran(turn, HandleConversationalAuth(copy, e, old(secret), allowed, turn, i))
    {
      var c := copy;
      ghost var p := HandleConversationalAuth(copy, e, secret, allowed, turn, i);
      if p.next.Do? { TwoCalls(World(), turn, p.effect, p.next.effect, p.next.next, left); }
      if e.ambiguous {
        var cleared := ClearPendingPassword(turn);
        if !cleared { return; }
        c := c.(pendingUserid := None, state := AwaitingCredentials);
        var saved := SaveConversation(c, turn);
        return;
      }
      if e.username.Some? {
        var userid := Cred(e.username.value, turn);
        if c.state == AwaitingUsername {
          var popped, password := PopPendingPassword(turn);
          if !popped { return; }
          if password.Some? {
            Attempt(c, userid, password.value, allowed, i, turn);
            return;
          }
        }
        c := c.(pendingUserid := Some(userid), state := AwaitingPassword);
        var saved := SaveConversation(c, turn);
        return;
      }
      if e.password.Some? {
        var password := Cred(e.password.value, turn);
        if c.pendingUserid.Some? {
          Attempt(c, c.pendingUserid.value, password, allowed, i, turn);
          return;
        }
        var stashed := StashPendingPassword(password, turn);
        if !stashed { return; }
        c := c.(state := AwaitingUsername);
        var saved := SaveConversation(c, turn);
        return;
      }
      c := c.(state := AwaitingCredentials);
      var saved := SaveConversation(c, turn);
    }

    method HandleAuth(copy: Conversation, e: Extraction, allowed: bool, i: Turn, turn: nat)
      modifies this
      ensures Ran(turn, HandleConversationalAuth(copy, e, old(secret), allowed, turn, i))
      ensures copy.verified.Some? && i.logout ==>
                && secret == (if old(left) >= 1 then None else old(secret))
                && conversation == if old(left) >= 2 then Conversation(None, Guest, None, false, None)
                                   else old(conversation)
    {
      if copy.verified.Some? && i.logout {
        TwoCalls(World(), turn, ClearSecret, Save(FRESH), Done, left);
        var cleared := ClearPendingPassword(turn);
        if !cleared { return; }
        var saved := SaveConversation(FRESH, turn);
      } else if copy.verified.Some? && e.isAttempt && (e.username.Some? || e.password.Some?) {
        var saved := SaveConversation(copy, turn);
      } else if copy.verified.Some? || !e.isAttempt {
        RunAiTurn(copy, i, turn);
      } else {
        HandleCredential(copy, e, allowed, i, turn);
      }
    }

    /** Extraction and the handlers, unless a human or an outage takes the message. */
    method ContinueTurn(copy: Conversation, raw: Scan, i: Turn, turn: nat)
      requires Scanned(raw) && i.scan == Normalized(digits, raw) && turn == |turns|
      modifies this
      ensures Ran(turn, Continue(throttle, old(World()), copy, old(secret), i))
    {
      if i.diverted { return; }
      var e := ExtractCredentials(
        digits, raw, copy.state, copy.pendingUserid.Some?, copy.state == AwaitingUsername);
      HandleAuth(copy, e, Allows(throttle, hits, i.now), i, turn);
    }

    /**
     One text message in `_process_incoming_message`, as far as the login is concerned. It is read as it
     was written; the turn it becomes in the model has the normalized texts.
     */
    method ProcessMessage(message: Turn, turn: nat)
      requires Scanned(message.scan) && turn == |turns|
      modifies this
      ensures World() == Step(throttle, old(World()), Process(message.(scan := Normalized(digits, message.scan))))
      ensures old(conversation).verified.Some? && message.logout && !message.diverted ==>
                && secret == (if message.calls >= 1 then None else old(secret))
                && conversation == if message.calls >= 2 then Conversation(None, Guest, None, false, None)
                                   else old(conversation)
    {
      var i := message.(scan := Normalized(digits, message.scan));
      left := i.calls;
      var c := conversation;
      TurnsUntouched(World(), turn, Handler(throttle, World(), i), left);
      TwoCalls(World(), turn, ClearSecret, Save(FRESH), Done, left);
      if Interrupted(c, i) {
        AbandonAndContinue(message.scan, i, turn);
      } else {
        ContinueTurn(c, message.scan, i, turn);
      }
      turns := turns + [i];
    }

    /** `_abandon_pending_auth`, and what a cancellation or a change of topic does after it. */
    method AbandonAndContinue(raw: Scan, i: Turn, turn: nat)
      requires Scanned(raw) && i.scan == Normalized(digits, raw) && turn == |turns| && Interrupted(conversation, i)
      modifies this
      ensures Ran(turn, Handler(throttle, old(World()), i))
    {
      var c := conversation.(pendingUserid := None, pendingRequest := false, pendingTool := None, state := Guest);
      ghost var p := Handler(throttle, World(), i);
      TwoCalls(World(), turn, ClearSecret, Save(c), p.next.next, left);
      var cleared := ClearPendingPassword(turn);
      if !cleared { return; }
      var saved := SaveConversation(c, turn);
      if !saved { return; }
      if i.cancel {
        if !i.diverted { var again := SaveConversation(c, turn); }
      } else {
        ContinueTurn(c, raw, i, turn);
      }
    }
  }
}
