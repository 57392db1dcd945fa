/** Every handler of the login flow keeps the invariant, wherever an exception ends it. */
module ChatLoginHandlers {
  import opened Prelude
  import opened CredentialExtraction
  import opened ChatLogin
  import opened ChatLoginInvariant
  import opened ChatLoginSteps

  /** A save that ends a handler. */
  lemma LastSaveGood(throttle: Throttle, msgs: seq<Turn>, w: World, turn: nat, c: Conversation)
    requires Invariant(throttle, msgs, turn, w) && SaveOk(msgs, w, c) && CallOk(msgs, w, turn, Save(c))
    ensures Good(throttle, msgs, w, turn, Do(Save(c), Done))
  {
    SaveKeeps(throttle, msgs, turn, w, turn, c);
    LimitMayGrow(throttle, msgs, turn, w);
    LimitMayGrow(throttle, msgs, turn, Execute(w, turn, Save(c)));
    assert Good(throttle, msgs, Execute(w, turn, Save(c)), turn, Done);
  }

  lemma FirstCallGood(throttle: Throttle, msgs: seq<Turn>, w: World, turn: nat, e: Effect, next: Program)
    requires Invariant(throttle, msgs, turn, w) && CallOk(msgs, w, turn, e)
    requires Good(throttle, msgs, Execute(w, turn, e), turn, next)
    ensures Good(throttle, msgs, w, turn, Do(e, next))
  {
    LimitMayGrow(throttle, msgs, turn, w);
  }

  /** After a save of an identity established by the check three calls before. */
  lemma ResumeGood(throttle: Throttle, msgs: seq<Turn>, w: World, turn: nat, i: Turn)
    requires Invariant(throttle, msgs, turn, w)
    requires w.conversation.verified.Some? && w.conversation.pendingUserid.None?
    requires w.conversation.pendingTool.Some? ==> NotDispatched(w.log, w.conversation.pendingTool.value)
    requires |w.log| >= 3 && w.log[|w.log| - 3].turn == turn && w.log[|w.log| - 3].effect.Verify?
    requires w.log[|w.log| - 3].effect.answer == Accepted(w.conversation.verified.value)
    ensures Good(throttle, msgs, w, turn, ResumeAfterAuth(w.conversation, i))
  {
    var c := w.conversation;
    var cleared := c.(pendingTool := None);
    LimitMayGrow(throttle, msgs, turn, w);
    if !c.pendingRequest {
      LastSaveGood(throttle, msgs, w, turn, cleared);
    } else if c.pendingTool.None? {
      LastSaveGood(throttle, msgs, w, turn, cleared.(pendingRequest := !i.answered));
    } else {
      var d := Dispatch(c.pendingTool.value, c.verified.value);
      DispatchKeeps(throttle, msgs, turn, w, turn, c.pendingTool.value, c.verified.value);
      var w1 := Execute(w, turn, d);
      if i.timedOut {
        LastSaveGood(throttle, msgs, w1, turn, c);
      } else if i.rendered {
        LastSaveGood(throttle, msgs, w1, turn, cleared.(pendingRequest := false));
      } else {
        SaveKeeps(throttle, msgs, turn, w1, turn, cleared);
        LastSaveGood(throttle, msgs, Execute(w1, turn, Save(cleared)), turn, cleared.(pendingRequest := !i.answered));
        FirstCallGood(throttle, msgs, w1, turn, Save(cleared), Do(Save(cleared.(pendingRequest := !i.answered)), Done));
      }
    }
  }

  /** Only an unauthenticated customer can be checked, so a captured action was never dispatched before. */
  lemma CapturedIsFresh(limit: nat, w: World)
    requires Replay(limit, w) && w.conversation.verified.None? && w.conversation.pendingTool.Some?
    ensures NotDispatched(w.log, w.conversation.pendingTool.value)
  {
    forall k | 0 <= k < |w.log| 
      ensures !(w.log[k].effect.Dispatch? && w.log[k].effect.tool == w.conversation.pendingTool.value)
    {
      assert Spent(w, w.log[k]);
    }
  }

  lemma AttemptGood(throttle: Throttle, msgs: seq<Turn>, w: World, turn: nat, u: Cred, p: Cred, allowed: bool, i: Turn)
    requires Invariant(throttle, msgs, turn, w) && w.conversation.verified.None?
    requires TwoTurns(msgs, Entry(turn, Verify(u, p, i.now, i.answer)))
    requires allowed ==> Allows(throttle, w.hits, i.now)
    ensures Good(throttle, msgs, w, turn, AttemptChatLogin(w.conversation, u, p, allowed, i))
  {
    if allowed {
      CheckGood(throttle, msgs, w, turn, Verify(u, p, i.now, i.answer), i);
    } else {
      SecretThenSaveGood(throttle, msgs, w, turn, ClearSecret,
                         w.conversation.(pendingUserid := None, state := AuthenticationFailed));
    }
  }

  /** A hit, the check it allows, and whatever the answer leads to. */
  lemma CheckGood(throttle: Throttle, msgs: seq<Turn>, w: World, turn: nat, check: Effect, i: Turn)
    requires Invariant(throttle, msgs, turn, w) && w.conversation.verified.None?
    requires check.Verify? && check.at == i.now && check.answer == i.answer
    requires TwoTurns(msgs, Entry(turn, check)) && Allows(throttle, w.hits, i.now)
    ensures Good(throttle, msgs, w, turn, Do(Hit(i.now), Do(check, Do(ClearSecret, AfterCheck(w.conversation, i)))))
  {
    var w1 := Execute(w, turn, Hit(i.now));
    var w2 := Execute(w1, turn, check);
    VerifyKeeps(throttle, msgs, turn, w, w1, w2, turn, check);
    assert w2.log == w1.log + [Entry(turn, check)];
    AnswerGood(throttle, msgs, w2, turn, i);
    TwoCallsGood(throttle, msgs, w, turn, Hit(i.now), check, Do(ClearSecret, AfterCheck(w.conversation, i)));
  }

  lemma TwoCallsGood(throttle: Throttle, msgs: seq<Turn>, w: World, turn: nat, first: Effect, second: Effect,
                     next: Program)
    requires Invariant(throttle, msgs, turn, w) && Invariant(throttle, msgs, turn, Execute(w, turn, first))
    requires CallOk(msgs, w, turn, first) && CallOk(msgs, Execute(w, turn, first), turn, second)
    requires Good(throttle, msgs, Execute(Execute(w, turn, first), turn, second), turn, next)
    ensures Good(throttle, msgs, w, turn, Do(first, Do(second, next)))
  {
    FirstCallGood(throttle, msgs, Execute(w, turn, first), turn, second, next);
    FirstCallGood(throttle, msgs, w, turn, first, Do(second, next));
  }

  lemma AnswerGood(throttle: Throttle, msgs: seq<Turn>, w: World, turn: nat, i: Turn)
    requires Invariant(throttle, msgs, turn, w) && w.conversation.verified.None?
    requires |w.log| >= 1 && w.log[|w.log| - 1].turn == turn && w.log[|w.log| - 1].effect.Verify?
    requires w.log[|w.log| - 1].effect.answer == i.answer
    ensures Good(throttle, msgs, w, turn, Do(ClearSecret, AfterCheck(w.conversation, i)))
  {
    SecretKeeps(throttle, msgs, turn, w, turn, ClearSecret);
    AfterCheckGood(throttle, msgs, Execute(w, turn, ClearSecret), turn, i);
    FirstCallGood(throttle, msgs, w, turn, ClearSecret, AfterCheck(w.conversation, i));
  }

  lemma AfterCheckGood(throttle: Throttle, msgs: seq<Turn>, w: World, turn: nat, i: Turn)
    requires Invariant(throttle, msgs, turn, w) && w.conversation.verified.None?
    requires |w.log| >= 2 && w.log[|w.log| - 2].turn == turn && w.log[|w.log| - 2].effect.Verify?
    requires w.log[|w.log| - 2].effect.answer == i.answer
    ensures Good(throttle, msgs, w, turn, AfterCheck(w.conversation, i))
  {
    var c := w.conversation;
    match i.answer
    case Accepted(customer) =>
      var verified := c.(verified := Some(customer), pendingUserid := None, state := Authenticated);
      SaveKeeps(throttle, msgs, turn, w, turn, verified);
      var w1 := Execute(w, turn, Save(verified));
      if c.pendingTool.Some? { CapturedIsFresh(turn, w); }
      ResumeGood(throttle, msgs, w1, turn, i);
      FirstCallGood(throttle, msgs, w, turn, Save(verified), ResumeAfterAuth(verified, i));
    case Wrong => LastSaveGood(throttle, msgs, w, turn, c.(pendingUserid := None, state := AuthenticationFailed));
    case Unavailable => LastSaveGood(throttle, msgs, w, turn, c.(pendingUserid := None, state := AwaitingCredentials));
  }

  lemma AiGood(throttle: Throttle, msgs: seq<Turn>, w: World, turn: nat, i: Turn)
    requires Invariant(throttle, msgs, turn, w)
    ensures Good(throttle, msgs, w, turn, HandleAiResult(w.conversation, turn, i))
  {
    var c := w.conversation;
    if c.verified.None? && i.ai.AuthRequired? && i.ai.hasTool {
      var captured := HandleAiResult(c, turn, i).effect.conversation;
      CaptureKeeps(throttle, msgs, w, turn, captured);
      LimitMayGrow(throttle, msgs, turn, w);
      assert Good(throttle, msgs, Execute(w, turn, Save(captured)), turn, Done);
    } else {
      LastSaveGood(throttle, msgs, w, turn, HandleAiResult(c, turn, i).effect.conversation);
    }
  }

  lemma SecretThenSaveGood(throttle: Throttle, msgs: seq<Turn>, w: World, turn: nat, e: Effect, c: Conversation)
    requires Invariant(throttle, msgs, turn, w) && SaveOk(msgs, w, c)
    requires c.verified == w.conversation.verified || (c == FRESH && turn < |msgs| && msgs[turn].logout)
    requires e.ClearSecret? || e.PopSecret? || (e.StashSecret? && PasswordFrom(msgs, e.password))
    ensures Good(throttle, msgs, w, turn, Do(e, Do(Save(c), Done)))
  {
    SecretKeeps(throttle, msgs, turn, w, turn, e);
    LastSaveGood(throttle, msgs, Execute(w, turn, e), turn, c);
    FirstCallGood(throttle, msgs, w, turn, e, Do(Save(c), Done));
  }

  /** A user id of this turn: ask for the password, or try the one kept from an earlier turn. */
  lemma UsernameGood(throttle: Throttle, msgs: seq<Turn>, w: World, turn: nat, e: Extraction, allowed: bool, i: Turn)
    requires Invariant(throttle, msgs, turn, w) && w.conversation.verified.None?
    requires |msgs| == turn + 1 && e.username.Some? && UserFrom(msgs, Cred(e.username.value, turn))
    requires w.secret.Some? ==> w.secret.value.turn < turn
    requires allowed ==> Allows(throttle, w.hits, i.now)
    requires e.isAttempt && !e.ambiguous
    ensures Good(throttle, msgs, w, turn, HandleConversationalAuth(w.conversation, e, w.secret, allowed, turn, i))
  {
    var c, userid := w.conversation, Cred(e.username.value, turn);
    var asking := c.(pendingUserid := Some(userid), state := AwaitingPassword);
    if c.state != AwaitingUsername {
      LastSaveGood(throttle, msgs, w, turn, asking);
    } else if w.secret.None? {
      SecretThenSaveGood(throttle, msgs, w, turn, PopSecret, asking);
    } else {
      SecretKeeps(throttle, msgs, turn, w, turn, PopSecret);
      AttemptGood(throttle, msgs, Execute(w, turn, PopSecret), turn, userid, w.secret.value, allowed, i);
      FirstCallGood(throttle, msgs, w, turn, PopSecret, AttemptChatLogin(c, userid, w.secret.value, allowed, i));
    }
  }

  lemma PasswordGood(throttle: Throttle, msgs: seq<Turn>, w: World, turn: nat, e: Extraction, allowed: bool, i: Turn)
    requires Invariant(throttle, msgs, turn, w) && w.conversation.verified.None?
    requires |msgs| == turn + 1 && e.username.None?
    requires e.password.Some? && PasswordFrom(msgs, Cred(e.password.value, turn))
    requires w.conversation.pendingUserid.Some? ==> w.conversation.pendingUserid.value.turn < turn
    requires allowed ==> Allows(throttle, w.hits, i.now)
    requires e.isAttempt && !e.ambiguous
    ensures Good(throttle, msgs, w, turn, HandleConversationalAuth(w.conversation, e, w.secret, allowed, turn, i))
  {
    var c, password := w.conversation, Cred(e.password.value, turn);
    if c.pendingUserid.Some? {
      AttemptGood(throttle, msgs, w, turn, c.pendingUserid.value, password, allowed, i);
    } else {
      SecretThenSaveGood(throttle, msgs, w, turn, StashSecret(password), c.(state := AwaitingUsername));
    }
  }

  /** What an extraction of the turn's own message gives. */
  predicate Extracted(msgs: seq<Turn>, turn: nat, e: Extraction, i: Turn) {
    && |msgs| == turn + 1 && msgs[turn] == i
    && (e.username.Some? ==> e.isAttempt && UserFrom(msgs, Cred(e.username.value, turn)))
    && (e.password.Some? ==> e.isAttempt && PasswordFrom(msgs, Cred(e.password.value, turn)))
  }

  /** What is remembered was said in an earlier turn. */
  predicate Remembered(w: World, turn: nat) {
    && (w.secret.Some? ==> w.secret.value.turn < turn)
    && (w.conversation.pendingUserid.Some? ==> w.conversation.pendingUserid.value.turn < turn)
  }

  lemma AuthGood(throttle: Throttle, msgs: seq<Turn>, w: World, turn: nat, e: Extraction, allowed: bool, i: Turn)
    requires Invariant(throttle, msgs, turn, w) && Extracted(msgs, turn, e, i) && Remembered(w, turn)
    requires allowed ==> Allows(throttle, w.hits, i.now)
    ensures Good(throttle, msgs, w, turn, HandleConversationalAuth(w.conversation, e, w.secret, allowed, turn, i))
  {
    var c := w.conversation;
    if c.verified.Some? {
      if i.logout { SecretThenSaveGood(throttle, msgs, w, turn, ClearSecret, FRESH); }
      else if e.isAttempt && (e.username.Some? || e.password.Some?) { LastSaveGood(throttle, msgs, w, turn, c); }
      else { AiGood(throttle, msgs, w, turn, i); }
    } else if !e.isAttempt {
      AiGood(throttle, msgs, w, turn, i);
    } else if e.ambiguous {
      SecretThenSaveGood(throttle, msgs, w, turn, ClearSecret, c.(pendingUserid := None, state := AwaitingCredentials));
    } else if e.username.Some? {
      UsernameGood(throttle, msgs, w, turn, e, allowed, i);
    } else if e.password.Some? {
      PasswordGood(throttle, msgs, w, turn, e, allowed, i);
    } else {
      LastSaveGood(throttle, msgs, w, turn, c.(state := AwaitingCredentials));
    }
  }

  lemma ContinueGood(throttle: Throttle, msgs: seq<Turn>, w: World, turn: nat, i: Turn)
    requires Scanned(i.scan) && |w.turns| == turn && msgs == w.turns + [i]
    requires Invariant(throttle, msgs, turn, w) && Remembered(w, turn)
    ensures Good(throttle, msgs, w, turn, Continue(throttle, w, w.conversation, w.secret, i))
  {
    LimitMayGrow(throttle, msgs, turn, w);
    if !i.diverted {
      var c := w.conversation;
      ExtractionIsOneSided(i.scan, c.state, c.pendingUserid.Some?, c.state == AwaitingUsername);
      AuthGood(throttle, msgs, w, turn, Reading(c, i), Allows(throttle, w.hits, i.now), i);
    }
  }

  lemma HandlerGood(throttle: Throttle, msgs: seq<Turn>, w: World, turn: nat, i: Turn)
    requires Scanned(i.scan) && |w.turns| == turn && msgs == w.turns + [i]
    requires Invariant(throttle, msgs, turn, w) && Remembered(w, turn)
    ensures Good(throttle, msgs, w, turn, Handler(throttle, w, i))
  {
    if Interrupted(w.conversation, i) {
      var c := Abandoned(w.conversation);
      SecretKeeps(throttle, msgs, turn, w, turn, ClearSecret);
      var w1 := Execute(w, turn, ClearSecret);
      SaveKeeps(throttle, msgs, turn, w1, turn, c);
      var w2 := Execute(w1, turn, Save(c));
      LimitMayGrow(throttle, msgs, turn, w2);
      if i.cancel {
        if !i.diverted { LastSaveGood(throttle, msgs, w2, turn, c); }
      } else {
        ContinueGood(throttle, msgs, w2, turn, i);
      }
      var rest := Handler(throttle, w, i).next;
      FirstCallGood(throttle, msgs, w1, turn, Save(c), rest.next);
      FirstCallGood(throttle, msgs, w, turn, ClearSecret, rest);
    } else {
      ContinueGood(throttle, msgs, w, turn, i);
    }
  }
}
