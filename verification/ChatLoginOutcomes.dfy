/** What one turn leaves behind, for every kind of message and after any number of successful calls. */
module ChatLoginOutcomes {
  import opened Prelude
  import opened Quotas
  import opened CredentialExtraction
  import opened ChatLogin

  lemma OneCall(w: World, turn: nat, e: Effect, calls: nat)
    ensures Perform(w, turn, Do(e, Done), calls) == if calls == 0 then w else Execute(w, turn, e)
  {
    if calls > 0 {
      assert Perform(w, turn, Do(e, Done), calls) == Perform(Execute(w, turn, e), turn, Done, calls - 1);
    }
  }

  /** A program of two calls: the conversation changes with the second. */
  lemma ThenSave(w: World, turn: nat, e: Effect, c: Conversation, calls: nat)
    requires !e.Save?
    ensures var after := Perform(w, turn, Do(e, Do(Save(c), Done)), calls);
            && after.conversation == (if calls >= 2 then c else w.conversation)
            && after.secret == (if calls >= 1 then Execute(w, turn, e).secret else w.secret)
            && (!e.Hit? ==> after.hits == w.hits)
  {
    TwoCalls(w, turn, e, Save(c), Done, calls);
  }

  // ---------- A customer who is logged in ----------

  /**
   After any run in which a customer is logged in, a logout message forgets the stored password with its
   first call and everything about the conversation, the identity included, with its second.
   */
  lemma LogoutExactly(throttle: Throttle, actions: seq<Action>, i: Turn)
    requires AllScanned(actions) && AllScanned(actions + [Process(i)])
    requires Run(throttle, actions).conversation.verified.Some? && i.logout && !i.diverted
    ensures var w, after := Run(throttle, actions), Run(throttle, actions + [Process(i)]);
            && (after.secret.None? <==> w.secret.None? || i.calls >= 1)
            && (i.calls < 2 ==> after.conversation == w.conversation)
            && (i.calls >= 2 ==>
                  && after.conversation.verified.None? && after.conversation.state == Guest
                  && after.conversation.pendingUserid.None? && after.conversation.pendingTool.None?
                  && !after.conversation.pendingRequest)
  {
    var w := Run(throttle, actions);
    assert (actions + [Process(i)])[..|actions|] == actions;
    assert (actions + [Process(i)])[|actions|] == Process(i);
    ThenSave(w, |w.turns|, ClearSecret, FRESH, i.calls);
  }

  /** Nothing else a logged-in customer writes changes the conversation, the stored password or the throttle. */
  lemma LoggedInStays(throttle: Throttle, w: World, i: Turn)
    requires Scanned(i.scan) && w.conversation.verified.Some? && (!i.logout || i.diverted)
    ensures var after := Step(throttle, w, Process(i));
            after.conversation == w.conversation && after.secret == w.secret && after.hits == w.hits
  {
    if !i.diverted { OneCall(w, |w.turns|, Save(w.conversation), i.calls); }
  }

  // ---------- Interrupting the login ----------

  /** Cancelling forgets the stored password, then the user id, the request and the captured action. */
  lemma CancelExactly(throttle: Throttle, w: World, i: Turn)
    requires Scanned(i.scan) && FlowActive(w.conversation) && i.cancel
    ensures var after := Step(throttle, w, Process(i));
            && after.secret == (if i.calls >= 1 then None else w.secret)
            && after.conversation == (if i.calls >= 2 then Conversation(None, Guest, None, false, None)
                                      else w.conversation)
            && after.hits == w.hits
  {
    var c, turn := Abandoned(w.conversation), |w.turns|;
    var rest := if i.diverted then Done else Do(Save(c), Done);
    TwoCalls(w, turn, ClearSecret, Save(c), rest, i.calls);
    if i.calls >= 2 && !i.diverted {
      OneCall(Execute(Execute(w, turn, ClearSecret), turn, Save(c)), turn, Save(c), i.calls - 2);
    }
  }

  /** The world a change of topic goes on from. */
  function StartedOver(w: World): World {
    w.(conversation := Conversation(None, Guest, None, false, None), secret := None)
  }

  /** A change of topic forgets the same, and then goes on as that message does for a new guest. */
  lemma TopicSwitchStartsOver(throttle: Throttle, w: World, i: Turn)
    requires Scanned(i.scan) && FlowActive(w.conversation) && i.topicSwitch && !i.cancel && i.calls >= 2
    ensures var after := Step(throttle, w, Process(i));
            var anew := Step(throttle, StartedOver(w), Process(i.(calls := i.calls - 2)));
            && after.conversation == anew.conversation && after.secret == anew.secret && after.hits == anew.hits
  {
    var c, turn := Abandoned(w.conversation), |w.turns|;
    var rest := Continue(throttle, w, c, None, i);
    TwoCalls(w, turn, ClearSecret, Save(c), rest, i.calls);
    var w2 := Execute(Execute(w, turn, ClearSecret), turn, Save(c));
    ContinueAgrees(throttle, w, StartedOver(w), i, i.calls - 2);
    SameFields(w2, StartedOver(w), turn, rest, i.calls - 2);
  }

  lemma ContinueAgrees(throttle: Throttle, w: World, v: World, i: Turn, calls: nat)
    requires Scanned(i.scan) && v.hits == w.hits && v.turns == w.turns && FlowActive(w.conversation)
    requires v.conversation == Abandoned(w.conversation) && v.secret.None?
    ensures Continue(throttle, w, Abandoned(w.conversation), None, i) == Handler(throttle, v, i.(calls := calls))
  {
    var j, c := i.(calls := calls), Abandoned(w.conversation);
    assert Reading(c, i) == Reading(c, j);
    assert HandleAiResult(c, |w.turns|, i) == HandleAiResult(c, |w.turns|, j);
  }

  /** Worlds that agree on what is stored go on agreeing. */
  lemma {:induction false} SameFields(a: World, b: World, turn: nat, p: Program, calls: nat)
    requires a.conversation == b.conversation && a.secret == b.secret && a.hits == b.hits
    ensures var x, y := Perform(a, turn, p, calls), Perform(b, turn, p, calls);
            x.conversation == y.conversation && x.secret == y.secret && x.hits == y.hits
    decreases p
  {
    if p.Do? && calls > 0 {
      SameFields(Execute(a, turn, p.effect), Execute(b, turn, p.effect), turn, p.next, calls - 1);
    }
  }

  // ---------- A customer who is not logged in ----------

  /** The message reaches the login handlers: nobody is logged in, nothing interrupts or diverts it. */
  predicate Reaches(c: Conversation, i: Turn) {
    c.verified.None? && !(FlowActive(c) && (i.cancel || i.topicSwitch)) && !i.diverted
  }

  /** A diverted message that interrupts nothing changes nothing. */
  lemma DivertedStays(throttle: Throttle, w: World, i: Turn)
    requires Scanned(i.scan) && i.diverted && !(FlowActive(w.conversation) && (i.cancel || i.topicSwitch))
    ensures var after := Step(throttle, w, Process(i));
            after.conversation == w.conversation && after.secret == w.secret && after.hits == w.hits
  {}

  /**
   A message that is no login attempt gets an AI turn. A blocked action is captured, in place of an older
   one, and its request is kept; a block without an action drops the captured one.
   */
  lemma BlockedIsCaptured(throttle: Throttle, w: World, i: Turn)
    requires Scanned(i.scan) && Reaches(w.conversation, i) && !Reading(w.conversation, i).isAttempt
    ensures var c, after := w.conversation, Step(throttle, w, Process(i));
            && after.secret == w.secret && after.hits == w.hits
            && (i.ai.Plain? || i.calls == 0 ==> after.conversation == c)
            && (i.ai.AuthRequired? && i.calls >= 1 ==>
                  && after.conversation.state == AwaitingCredentials
                  && after.conversation.verified.None? && after.conversation.pendingUserid.None?
                  && (after.conversation.pendingRequest <==> i.ai.hasText || c.pendingRequest)
                  && after.conversation.pendingTool == if i.ai.hasTool then Some(|w.turns|) else None)
  {
    var p := HandleAiResult(w.conversation, |w.turns|, i);
    OneCall(w, |w.turns|, p.effect, i.calls);
  }

  /** A message with several possible values is not guessed at: stored password and user id are forgotten. */
  lemma AmbiguousForgets(throttle: Throttle, w: World, i: Turn)
    requires Scanned(i.scan) && Reaches(w.conversation, i)
    requires Reading(w.conversation, i).isAttempt && Reading(w.conversation, i).ambiguous
    ensures var after := Step(throttle, w, Process(i));
            && after.secret == (if i.calls >= 1 then None else w.secret) && after.hits == w.hits
            && after.conversation == if i.calls < 2 then w.conversation
                                     else w.conversation.(pendingUserid := None, state := AwaitingCredentials)
  {
    ThenSave(w, |w.turns|, ClearSecret, w.conversation.(pendingUserid := None, state := AwaitingCredentials), i.calls);
  }

  /** A user id that completes nothing is remembered, and the password is asked for. */
  lemma UseridIsRemembered(throttle: Throttle, w: World, i: Turn)
    requires Scanned(i.scan) && Reaches(w.conversation, i)
    requires var e := Reading(w.conversation, i); e.isAttempt && !e.ambiguous && e.username.Some?
    requires w.conversation.state != AwaitingUsername || w.secret.None?
    ensures var after := Step(throttle, w, Process(i));
            var userid := Cred(Reading(w.conversation, i).username.value, |w.turns|);
            var last := if w.conversation.state == AwaitingUsername then 2 else 1;
            && after.secret == w.secret && after.hits == w.hits
            && after.conversation == if i.calls >= last then w.conversation.(pendingUserid := Some(userid),
                                                                            state := AwaitingPassword)
                                     else w.conversation
  {
    var userid := Cred(Reading(w.conversation, i).username.value, |w.turns|);
    var c := w.conversation.(pendingUserid := Some(userid), state := AwaitingPassword);
    ThenSave(w, |w.turns|, PopSecret, c, i.calls);
    OneCall(w, |w.turns|, Save(c), i.calls);
  }

  /** A password without a user id is stored, and the user id is asked for. */
  lemma PasswordIsStored(throttle: Throttle, w: World, i: Turn)
    requires Scanned(i.scan) && Reaches(w.conversation, i) && w.conversation.pendingUserid.None?
    requires var e := Reading(w.conversation, i);
             e.isAttempt && !e.ambiguous && e.username.None? && e.password.Some?
    ensures var after := Step(throttle, w, Process(i));
            var password := Cred(Reading(w.conversation, i).password.value, |w.turns|);
            && after.secret == (if i.calls >= 1 then Some(password) else w.secret) && after.hits == w.hits
            && after.conversation == if i.calls >= 2 then w.conversation.(state := AwaitingUsername) else w.conversation
  {
    var password := Cred(Reading(w.conversation, i).password.value, |w.turns|);
    ThenSave(w, |w.turns|, StashSecret(password), w.conversation.(state := AwaitingUsername), i.calls);
  }

  /** An attempt without any value is asked for one. */
  lemma NothingGiven(throttle: Throttle, w: World, i: Turn)
    requires Scanned(i.scan) && Reaches(w.conversation, i)
    requires var e := Reading(w.conversation, i);
             e.isAttempt && !e.ambiguous && e.username.None? && e.password.None?
    ensures var after := Step(throttle, w, Process(i));
            && after.secret == w.secret && after.hits == w.hits
            && after.conversation == if i.calls >= 1 then w.conversation.(state := AwaitingCredentials)
                                     else w.conversation
  {
    OneCall(w, |w.turns|, Save(w.conversation.(state := AwaitingCredentials)), i.calls);
  }

  /**
   An unlabelled message is read by what is awaited: the one token is the user id while a password is
   stored, the whole text is the password once the user id is known, and otherwise, without a login
   phrase, it is a user id only while credentials are asked for.
   */
  lemma UnlabelledReading(c: Conversation, i: Turn)
    requires Scanned(i.scan) && i.scan.whole != "" && !i.scan.sawUsername && !i.scan.sawPassword && !i.scan.authHint
    ensures var e := Reading(c, i);
            && (c.state == AwaitingUsername ==>
                  e.isAttempt && e.password.None?
                  && e.username == if |i.scan.tokens| == 1 then Some(i.scan.tokens[0]) else None)
            && (c.state == AwaitingPassword && c.pendingUserid.Some? ==>
                  e.isAttempt && e.username.None? && e.password == Some(i.scan.whole))
            && (c.state == AwaitingCredentials || c.state == AuthenticationFailed ==>
                  && e.password.None?
                  && e.username == (if |i.scan.loginTokens| == 1 then Some(i.scan.loginTokens[0]) else None)
                  && (e.isAttempt <==> e.username.Some? || c.pendingUserid.Some?))
            && (c.state == Guest || c.state == Authenticated ==> !e.isAttempt)
            && (c.state == AwaitingPassword && c.pendingUserid.None? ==> !e.isAttempt)
  {
    ExtractionExactly(i.scan, c.state, c.pendingUserid.Some?, c.state == AwaitingUsername);
  }

  // ---------- An attempt ----------

  /** The throttle allows exactly while fewer than its maximum hits lie in the closed window that ends now. */
  lemma {:induction false} ThrottleAllowsExactly(throttle: Throttle, hits: seq<int>, now: int)
    ensures Allows(throttle, hits, now) <==> |HitsSince(hits, now - throttle.window)| < throttle.max
  {
    HitsCounted(hits, now - throttle.window);
  }

  ghost function HitsSince(hits: seq<int>, from: int): set<nat> {
    set k: nat | k < |hits| && hits[k] >= from
  }

  lemma {:induction false} HitsCounted(hits: seq<int>, from: int)
    ensures CountAfter(hits, from - 1) == |HitsSince(hits, from)|
  {
    if hits != [] {
      var n := |hits| - 1;
      HitsCounted(hits[..n], from);
      var before := HitsSince(hits[..n], from);
      assert HitsSince(hits, from) == if hits[n] >= from then before + {n} else before;
    }
  }

  /**
   An attempt that the throttle refuses, or that the verifier does not accept, ends with the user id and
   the password forgotten and says why; the captured action stays.
   */
  lemma FailedAttempt(w: World, turn: nat, u: Cred, p: Cred, allowed: bool, i: Turn, calls: nat)
    requires allowed ==> !i.answer.Accepted?
    ensures var after := Perform(w, turn, AttemptChatLogin(w.conversation, u, p, allowed, i), calls);
            var state := if allowed && i.answer.Unavailable? then AwaitingCredentials else AuthenticationFailed;
            && after.conversation == (if calls >= if allowed then 4 else 2
                                      then w.conversation.(pendingUserid := None, state := state)
                                      else w.conversation)
            && after.secret == (if calls >= if allowed then 3 else 1 then None else w.secret)
            && after.hits == if allowed && calls >= 1 then w.hits + [i.now] else w.hits
  {
    var c, program := w.conversation, AttemptChatLogin(w.conversation, u, p, allowed, i);
    TwoCalls(w, turn, program.effect, program.next.effect, program.next.next, calls);
    if allowed && calls >= 2 {
      var w2 := Execute(Execute(w, turn, program.effect), turn, program.next.effect);
      var last := AfterCheck(c, i);
      ThenSave(w2, turn, ClearSecret, last.effect.conversation, calls - 2);
    }
  }

  /** After an accepted attempt the customer is logged in, and nothing of the login is left. */
  lemma AcceptedAttempt(w: World, turn: nat, u: Cred, p: Cred, i: Turn, calls: nat)
    requires i.answer.Accepted? && calls >= 4
    ensures var after := Perform(w, turn, AttemptChatLogin(w.conversation, u, p, true, i), calls);
            && after.conversation.verified == Some(i.answer.customer) && after.conversation.state == Authenticated
            && after.conversation.pendingUserid.None? && after.secret.None? && after.hits == w.hits + [i.now]
  {
    var c, program := w.conversation, AttemptChatLogin(w.conversation, u, p, true, i);
    var last := AfterCheck(c, i);
    var w2 := Execute(Execute(w, turn, program.effect), turn, program.next.effect);
    TwoCalls(w, turn, program.effect, program.next.effect, Do(ClearSecret, last), calls);
    TwoCalls(w2, turn, ClearSecret, last.effect, last.next, calls - 2);
    StaysLoggedIn(Execute(Execute(w2, turn, ClearSecret), turn, last.effect), turn, i, calls - 4);
  }

  lemma StaysLoggedIn(w: World, turn: nat, i: Turn, calls: nat)
    requires w.conversation.verified.Some?
    ensures var after := Perform(w, turn, ResumeAfterAuth(w.conversation, i), calls);
            && after.conversation.verified == w.conversation.verified
            && after.conversation.state == w.conversation.state
            && after.conversation.pendingUserid == w.conversation.pendingUserid
            && after.secret == w.secret && after.hits == w.hits
  {
    var p := ResumeAfterAuth(w.conversation, i);
    if p.next.Do? {
      TwoCalls(w, turn, p.effect, p.next.effect, p.next.next, calls);
      if p.next.next.Do? && calls >= 2 {
        OneCall(Execute(Execute(w, turn, p.effect), turn, p.next.effect), turn, p.next.next.effect, calls - 2);
      }
    } else {
      OneCall(w, turn, p.effect, calls);
    }
  }

  /** A request is kept until it is answered: by the rendered result, or by the AI turn that follows. */
  lemma RequestIsKept(w: World, turn: nat, i: Turn, calls: nat)
    requires w.conversation.verified.Some? && w.conversation.pendingRequest
    ensures var c, after := w.conversation, Perform(w, turn, ResumeAfterAuth(w.conversation, i), calls);
            after.conversation.pendingRequest
            <==> !(if c.pendingTool.None? then calls >= 1 && i.answered
                   else !i.timedOut && if i.rendered then calls >= 2 else calls >= 3 && i.answered)
  {
    var p := ResumeAfterAuth(w.conversation, i);
    if p.next.Do? {
      TwoCalls(w, turn, p.effect, p.next.effect, p.next.next, calls);
      if p.next.next.Do? && calls >= 2 {
        OneCall(Execute(Execute(w, turn, p.effect), turn, p.next.effect), turn, p.next.next.effect, calls - 2);
      }
    } else {
      OneCall(w, turn, p.effect, calls);
    }
  }
}
