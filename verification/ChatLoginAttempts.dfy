/** What one login attempt leaves behind, exactly, wherever a failing call ends it. */
module ChatLoginAttempts {
  import opened Prelude
  import opened CredentialExtraction
  import opened ChatLogin

  // ---------- Which turns attempt a login ----------

  /** A login attempt: whether it takes the stored password, and the pair it tries. */
  datatype Try = Try(popped: bool, userid: Cred, password: Cred)

  /** The attempt a turn makes, if it makes one. */
  function AttemptOf(w: World, i: Turn): Option<Try>
    requires Scanned(i.scan)
  {
    var c, e, turn := w.conversation, Reading(w.conversation, i), |w.turns|;
    if Interrupted(c, i) || i.diverted || c.verified.Some? || !e.isAttempt || e.ambiguous then None
    else if e.username.Some? then
      if c.state == AwaitingUsername && w.secret.Some? then
        Some(Try(true, Cred(e.username.value, turn), w.secret.value))
      else None
    else if e.password.Some? && c.pendingUserid.Some? then
      Some(Try(false, c.pendingUserid.value, Cred(e.password.value, turn)))
    else None
  }

  function Attempted(throttle: Throttle, w: World, i: Turn, t: Try): Program {
    AttemptChatLogin(w.conversation, t.userid, t.password, Allows(throttle, w.hits, i.now), i)
  }

  lemma AttemptIsHandler(throttle: Throttle, w: World, i: Turn)
    requires Scanned(i.scan) && AttemptOf(w, i).Some?
    ensures var t := AttemptOf(w, i).value;
            Handler(throttle, w, i)
            == if t.popped then Do(PopSecret, Attempted(throttle, w, i, t)) else Attempted(throttle, w, i, t)
  {}

  /** The handler calls the verifier with exactly these values. */
  predicate CallsVerifier(p: Program, u: Cred, password: Cred) {
    && p.Do?
    && ((p.effect.Verify? && p.effect.userid == u && p.effect.password == password)
        || CallsVerifier(p.next, u, password))
  }

  predicate CallsAnyVerifier(p: Program) {
    p.Do? && (p.effect.Verify? || CallsAnyVerifier(p.next))
  }

  /** A turn's program calls the verifier exactly when it attempts a login that the throttle allows. */
  lemma VerifierCalledExactly(throttle: Throttle, w: World, i: Turn)
    requires Scanned(i.scan)
    ensures CallsAnyVerifier(Handler(throttle, w, i)) <==> AttemptOf(w, i).Some? && Allows(throttle, w.hits, i.now)
    ensures CallsAnyVerifier(Handler(throttle, w, i)) ==>
              CallsVerifier(Handler(throttle, w, i), AttemptOf(w, i).value.userid, AttemptOf(w, i).value.password)
  {
    if AttemptOf(w, i).Some? {
      AttemptIsHandler(throttle, w, i);
      AttemptCalls(throttle, w, i, AttemptOf(w, i).value);
    } else if Interrupted(w.conversation, i) {
      NoVerifierAfterAbandoning(throttle, w, i);
    } else if !i.diverted {
      NoVerifierWithoutAttempt(throttle, w, i);
    }
  }

  lemma AttemptCalls(throttle: Throttle, w: World, i: Turn, t: Try)
    ensures CallsAnyVerifier(Attempted(throttle, w, i, t)) <==> Allows(throttle, w.hits, i.now)
    ensures Allows(throttle, w.hits, i.now) ==> CallsVerifier(Attempted(throttle, w, i, t), t.userid, t.password)
  {
    var c := w.conversation;
    var check := Do(Verify(t.userid, t.password, i.now, i.answer), Do(ClearSecret, AfterCheck(c, i)));
    assert CallsAnyVerifier(check) && CallsVerifier(check, t.userid, t.password);
    var refused := Do(Save(c.(pendingUserid := None, state := AuthenticationFailed)), Done);
    assert !CallsAnyVerifier(refused);
  }

  lemma NoVerifierWithoutAttempt(throttle: Throttle, w: World, i: Turn)
    requires Scanned(i.scan) && AttemptOf(w, i).None? && !Interrupted(w.conversation, i) && !i.diverted
    ensures !CallsAnyVerifier(Handler(throttle, w, i))
  {
    OneSave(Handler(throttle, w, i));
    assert Handler(throttle, w, i).Do? ==> !Handler(throttle, w, i).effect.Verify?;
    if Handler(throttle, w, i).Do? { OneSave(Handler(throttle, w, i).next); }
  }

  lemma OneSave(p: Program)
    ensures p.Do? && p.effect.Save? && p.next == Done ==> !CallsAnyVerifier(p)
  {}

  /** An abandoned flow remembers nothing to check. */
  lemma NoVerifierAfterAbandoning(throttle: Throttle, w: World, i: Turn)
    requires Scanned(i.scan) && Interrupted(w.conversation, i)
    ensures !CallsAnyVerifier(Handler(throttle, w, i))
  {
    var c := Abandoned(w.conversation);
    var rest := Handler(throttle, w, i).next.next;
    if i.cancel {
      OneSave(rest);
    } else if !i.diverted {
      NoVerifierFromGuest(c, i, None, Allows(throttle, w.hits, i.now), |w.turns|);
    }
    assert !CallsAnyVerifier(Do(Save(c), rest));
  }

  lemma NoVerifierFromGuest(c: Conversation, i: Turn, secret: Option<Cred>, allowed: bool, turn: nat)
    requires Scanned(i.scan) && c.verified.None? && c.state == Guest && c.pendingUserid.None?
    ensures !CallsAnyVerifier(HandleConversationalAuth(c, Reading(c, i), secret, allowed, turn, i))
  {
    var p := HandleConversationalAuth(c, Reading(c, i), secret, allowed, turn, i);
    OneSave(p);
    OneSave(p.next);
  }

  // ---------- What is left after k calls ----------

  predicate StoresNothing(p: Program) {
    p.Do? ==>
      && !p.effect.StashSecret?
      && (p.effect.Save? ==> p.effect.conversation.pendingUserid.None?)
      && StoresNothing(p.next)
  }

  lemma {:induction false} NothingStored(w: World, turn: nat, p: Program, calls: nat)
    requires StoresNothing(p)
    ensures w.secret.None? ==> Perform(w, turn, p, calls).secret.None?
    ensures w.conversation.pendingUserid.None? ==> Perform(w, turn, p, calls).conversation.pendingUserid.None?
    decreases p
  {
    if p.Do? && calls > 0 { NothingStored(Execute(w, turn, p.effect), turn, p.next, calls - 1); }
  }

  lemma CheckStoresNothing(c: Conversation, i: Turn)
    ensures StoresNothing(AfterCheck(c, i)) && AfterCheck(c, i).Do? && AfterCheck(c, i).effect.Save?
  {
    match i.answer
    case Accepted(customer) =>
      var v := c.(verified := Some(customer), pendingUserid := None, state := Authenticated);
      var cleared := v.(pendingTool := None);
      assert StoresNothing(Do(Save(cleared.(pendingRequest := !i.answered)), Done));
      assert StoresNothing(ResumeAfterAuth(v, i));
    case _ =>
  }

  /** After the check and the clearing of the secret, the first save removes the pending user id. */
  lemma CheckLeaves(w: World, turn: nat, c: Conversation, i: Turn, calls: nat)
    ensures w.secret.None? ==> Perform(w, turn, AfterCheck(c, i), calls).secret.None?
    ensures Perform(w, turn, AfterCheck(c, i), calls).conversation.pendingUserid.None?
       <==> w.conversation.pendingUserid.None? || calls >= 1
  {
    var p := AfterCheck(c, i);
    CheckStoresNothing(c, i);
    NothingStored(w, turn, p, calls);
    if calls >= 1 { NothingStored(Execute(w, turn, p.effect), turn, p.next, calls - 1); }
  }

  /** An attempt from any state, cut anywhere. */
  lemma AttemptLeaves(w: World, turn: nat, u: Cred, p: Cred, allowed: bool, i: Turn, calls: nat)
    ensures var after := Perform(w, turn, AttemptChatLogin(w.conversation, u, p, allowed, i), calls);
            && (after.secret.None? <==> w.secret.None? || calls >= if allowed then 3 else 1)
            && (after.conversation.pendingUserid.None?
                <==> w.conversation.pendingUserid.None? || calls >= if allowed then 4 else 2)
  {
    var c, program := w.conversation, AttemptChatLogin(w.conversation, u, p, allowed, i);
    TwoCalls(w, turn, program.effect, program.next.effect, program.next.next, calls);
    if allowed && calls >= 3 {
      var w2 := Execute(Execute(w, turn, program.effect), turn, program.next.effect);
      assert Perform(w2, turn, Do(ClearSecret, AfterCheck(c, i)), calls - 2)
          == Perform(Execute(w2, turn, ClearSecret), turn, AfterCheck(c, i), calls - 3);
      CheckLeaves(Execute(w2, turn, ClearSecret), turn, c, i, calls - 3);
    }
  }

  /** How many calls of the turn come before those of the attempt itself. */
  function Before(t: Try): nat {
    if t.popped then 1 else 0
  }

  /**
   In any run, a turn that attempts a login leaves no stored password exactly when there was none or
   its clearing call succeeded (taking the stored password is one), and no pending user id exactly
   when there was none or the save after that succeeded, whatever the verifier answered.
   */
  lemma AttemptLeavesExactly(throttle: Throttle, actions: seq<Action>, i: Turn)
    requires AllScanned(actions) && AllScanned(actions + [Process(i)]) && Scanned(i.scan)
    requires AttemptOf(Run(throttle, actions), i).Some?
    ensures var w, after := Run(throttle, actions), Run(throttle, actions + [Process(i)]);
            var t := AttemptOf(w, i).value;
            var allowed := Allows(throttle, w.hits, i.now);
            && (after.secret.None?
                <==> w.secret.None? || i.calls >= if t.popped then 1 else if allowed then 3 else 1)
            && (after.conversation.pendingUserid.None?
                <==> w.conversation.pendingUserid.None? || i.calls >= Before(t) + if allowed then 4 else 2)
  {
    var w := Run(throttle, actions);
    assert (actions + [Process(i)])[..|actions|] == actions;
    var t, turn := AttemptOf(w, i).value, |w.turns|;
    var allowed := Allows(throttle, w.hits, i.now);
    AttemptIsHandler(throttle, w, i);
    if !t.popped {
      AttemptLeaves(w, turn, t.userid, t.password, allowed, i, i.calls);
    } else if i.calls > 0 {
      AttemptLeaves(Execute(w, turn, PopSecret), turn, t.userid, t.password, allowed, i, i.calls - 1);
    }
  }

  // ---------- A successful login and the captured action ----------

  /** Something was dispatched since the log had this length. */
  ghost predicate Dispatched(log: seq<Entry>, from: nat) {
    exists k :: from <= k < |log| && log[k].effect.Dispatch?
  }

  /** These many calls from the saved identity on leave nothing captured. */
  predicate UsesUp(c: Conversation, i: Turn, calls: nat) {
    if c.pendingRequest then calls >= 2 && !i.timedOut else calls >= 1
  }

  lemma ResumeUses(w: World, turn: nat, i: Turn, calls: nat)
    requires w.conversation.verified.Some?
    ensures var c := w.conversation;
            var after := Perform(w, turn, ResumeAfterAuth(c, i), calls);
            && after.conversation.verified == c.verified
            && (after.conversation.pendingTool.None?
                <==> c.pendingTool.None? || UsesUp(c, i, calls))
            && w.log <= after.log
            && (Dispatched(after.log, |w.log|) <==> c.pendingRequest && c.pendingTool.Some? && calls >= 1)
            && (Dispatched(after.log, |w.log|) ==>
                  after.log[|w.log|] == Entry(turn, Dispatch(c.pendingTool.value, c.verified.value)))
  {
    var c, p := w.conversation, ResumeAfterAuth(w.conversation, i);
    if calls > 0 {
      var w1 := Execute(w, turn, p.effect);
      assert Perform(w, turn, p, calls) == Perform(w1, turn, p.next, calls - 1);
      assert w1.log[|w.log|] == Entry(turn, p.effect);
      assert OnlySaves(Do(Save(c.(pendingTool := None, pendingRequest := !i.answered)), Done));
      assert OnlySaves(p.next);
      SavesOnly(w1, turn, p.next, calls - 1);
      if p.next.Do? && calls > 1 {
        var w2 := Execute(w1, turn, p.next.effect);
        assert Perform(w1, turn, p.next, calls - 1) == Perform(w2, turn, p.next.next, calls - 2);
        if p.next.next.Do? && calls > 2 {
          assert Perform(w2, turn, p.next.next, calls - 2) == Execute(w2, turn, p.next.next.effect);
        }
      }
    }
  }

  predicate OnlySaves(p: Program) {
    p.Do? ==> p.effect.Save? && OnlySaves(p.next)
  }

  lemma {:induction false} SavesOnly(w: World, turn: nat, p: Program, calls: nat)
    ensures OnlySaves(p) ==>
              var after := Perform(w, turn, p, calls);
              w.log <= after.log && forall k :: |w.log| <= k < |after.log| ==> after.log[k].effect.Save?
    decreases p
  {
    if p.Do? && calls > 0 { SavesOnly(Execute(w, turn, p.effect), turn, p.next, calls - 1); }
  }

  /**
   A login that the throttle allows and the verifier accepts: the identity is saved with the fourth
   call; the captured action is dispatched, for that customer, exactly when its request is still there
   and a fifth call succeeds; and nothing stays captured once the next save succeeds, unless the
   dispatch timed out.
   */
  lemma LoginUsesUpExactly(w: World, turn: nat, u: Cred, p: Cred, i: Turn, calls: nat)
    requires i.answer.Accepted? && w.conversation.verified.None?
    ensures var c := w.conversation;
            var after := Perform(w, turn, AttemptChatLogin(c, u, p, true, i), calls);
            && after.conversation.verified == (if calls >= 4 then Some(i.answer.customer) else None)
            && (after.conversation.pendingTool.None?
                <==> c.pendingTool.None?
                     || (if c.pendingRequest then calls >= 6 && !i.timedOut else calls >= 5))
            && w.log <= after.log
            && (Dispatched(after.log, |w.log|) <==> c.pendingRequest && c.pendingTool.Some? && calls >= 5)
            && (Dispatched(after.log, |w.log|) ==>
                  |w.log| + 4 < |after.log|
                  && after.log[|w.log| + 4] == Entry(turn, Dispatch(c.pendingTool.value, i.answer.customer)))
  {
    var c, program := w.conversation, AttemptChatLogin(w.conversation, u, p, true, i);
    var last := AfterCheck(c, i);
    var w2 := Execute(Execute(w, turn, program.effect), turn, program.next.effect);
    TwoCalls(w, turn, program.effect, program.next.effect, Do(ClearSecret, last), calls);
    if calls >= 2 { TwoCalls(w2, turn, ClearSecret, last.effect, last.next, calls - 2); }
    if calls >= 4 { FromFourthCall(w, w2, turn, i, calls - 4); }
  }

  /** From the saved identity on. */
  lemma FromFourthCall(w: World, w2: World, turn: nat, i: Turn, calls: nat)
    requires i.answer.Accepted? && w2.conversation == w.conversation
    requires |w2.log| == |w.log| + 2 && w.log <= w2.log
    requires forall k :: |w.log| <= k < |w2.log| ==> !w2.log[k].effect.Dispatch?
    ensures var c, last := w.conversation, AfterCheck(w.conversation, i);
            var after := Perform(Execute(Execute(w2, turn, ClearSecret), turn, last.effect), turn, last.next, calls);
            && after.conversation.verified == Some(i.answer.customer)
            && (after.conversation.pendingTool.None?
                <==> c.pendingTool.None? || UsesUp(c, i, calls))
            && w.log <= after.log
            && (Dispatched(after.log, |w.log|) <==> c.pendingRequest && c.pendingTool.Some? && calls >= 1)
            && (Dispatched(after.log, |w.log|) ==>
                  |w.log| + 4 < |after.log|
                  && after.log[|w.log| + 4] == Entry(turn, Dispatch(c.pendingTool.value, i.answer.customer)))
  {
    var last := AfterCheck(w.conversation, i);
    var w4 := Execute(Execute(w2, turn, ClearSecret), turn, last.effect);
    ResumeUses(w4, turn, i, calls);
    var after := Perform(w4, turn, last.next, calls);
    assert forall k :: |w.log| <= k < |w4.log| ==> after.log[k] == w4.log[k] && !w4.log[k].effect.Dispatch?;
    if Dispatched(after.log, |w.log|) {
      var k :| |w.log| <= k < |after.log| && after.log[k].effect.Dispatch?;
      assert k >= |w4.log|;
    }
  }

  // ---------- A stored password that outlives an attempt ----------

  function Said(message: nat, scan: Scan, calls: nat): Turn {
    Turn(message, scan, false, false, false, false, 0, Wrong, Plain, false, false, false, calls)
  }

  /** A labelled password, a label without a value, a user id, and a bare password whose check is the last call. */
  const PASSWORD_FIRST := Said(0, Scan("password: s3cret", [], ["s3cret"], false, true, false, [], []), 2)
  const LABEL_ONLY := Said(1, Scan("my password", [], [], false, true, false, [], []), 1)
  const USER_ID := Said(2, Scan("55501", [], [], false, false, false, ["55501"], ["55501"]), 1)
  const PASSWORD_CUT := Said(3, Scan("s3cret", [], [], false, false, false, ["s3cret"], ["s3cret"]), 2)

  lemma StashedFirst()
    ensures var w := Step(FIVE_IN_TEN_MINUTES, START, Process(PASSWORD_FIRST));
            w.conversation == FRESH.(state := AwaitingUsername) && w.secret == Some(Cred("s3cret", 0))
            && w.hits == [] && w.turns == [PASSWORD_FIRST]
  {
    TwoCalls(START, 0, StashSecret(Cred("s3cret", 0)), Save(FRESH.(state := AwaitingUsername)), Done, 2);
  }

  lemma LabelKeepsIt(w: World)
    requires w.conversation == FRESH.(state := AwaitingUsername)
    ensures var after := Step(FIVE_IN_TEN_MINUTES, w, Process(LABEL_ONLY));
            after.conversation == FRESH.(state := AwaitingCredentials) && after.secret == w.secret
            && after.hits == w.hits && after.turns == w.turns + [LABEL_ONLY]
  {
    var save := Save(FRESH.(state := AwaitingCredentials));
    assert Handler(FIVE_IN_TEN_MINUTES, w, LABEL_ONLY) == Do(save, Done);
    assert Perform(w, |w.turns|, Do(save, Done), 1) == Execute(w, |w.turns|, save);
  }

  lemma UserIdKeepsIt(w: World)
    requires w.conversation == FRESH.(state := AwaitingCredentials)
    ensures var after := Step(FIVE_IN_TEN_MINUTES, w, Process(USER_ID));
            after.conversation.state == AwaitingPassword && after.conversation.pendingUserid.Some?
            && after.conversation.verified.None? && after.secret == w.secret
            && after.hits == w.hits && after.turns == w.turns + [USER_ID]
  {
    var save := Save(FRESH.(state := AwaitingPassword, pendingUserid := Some(Cred("55501", |w.turns|))));
    assert Handler(FIVE_IN_TEN_MINUTES, w, USER_ID) == Do(save, Done);
    assert Perform(w, |w.turns|, Do(save, Done), 1) == Execute(w, |w.turns|, save);
  }

  function LeftoverRun(): seq<Action> {
    [Process(PASSWORD_FIRST), Process(LABEL_ONLY), Process(USER_ID)]
  }

  lemma LeftoverReached()
    ensures AllScanned(LeftoverRun())
    ensures var w := Run(FIVE_IN_TEN_MINUTES, LeftoverRun());
            w.conversation.state == AwaitingPassword && w.conversation.pendingUserid.Some?
            && w.conversation.verified.None? && w.secret == Some(Cred("s3cret", 0)) && w.hits == []
  {
    var run := LeftoverRun();
    var a, b := run[..1], run[..2];
    assert AllScanned(a) && AllScanned(b) && AllScanned(run);
    assert run[..0] == [] && a[..0] == [] && b[..1] == a;
    assert AllScanned(run[..2]) && AllScanned(b[..1]) && AllScanned(a[..0]);
    StashedFirst();
    assert Run(FIVE_IN_TEN_MINUTES, a) == Step(FIVE_IN_TEN_MINUTES, START, Process(PASSWORD_FIRST));
    LabelKeepsIt(Run(FIVE_IN_TEN_MINUTES, a));
    assert Run(FIVE_IN_TEN_MINUTES, b) == Step(FIVE_IN_TEN_MINUTES, Run(FIVE_IN_TEN_MINUTES, a), Process(LABEL_ONLY));
    UserIdKeepsIt(Run(FIVE_IN_TEN_MINUTES, b));
    assert Run(FIVE_IN_TEN_MINUTES, run) == Step(FIVE_IN_TEN_MINUTES, Run(FIVE_IN_TEN_MINUTES, b), Process(USER_ID));
  }

  /** A run in which the verifier is called and a password stays stored, because the next call fails. */
  lemma LeftoverPasswordHappens()
    ensures AllScanned(LeftoverRun()) && AllScanned(LeftoverRun() + [Process(PASSWORD_CUT)])
    ensures AttemptOf(Run(FIVE_IN_TEN_MINUTES, LeftoverRun()), PASSWORD_CUT).Some?
    ensures Run(FIVE_IN_TEN_MINUTES, LeftoverRun() + [Process(PASSWORD_CUT)]).secret == Some(Cred("s3cret", 0))
  {
    LeftoverReached();
    CutAfterCheck(Run(FIVE_IN_TEN_MINUTES, LeftoverRun()));
    assert (LeftoverRun() + [Process(PASSWORD_CUT)])[..3] == LeftoverRun();
  }

  lemma CutAfterCheck(w: World)
    requires w.conversation.state == AwaitingPassword && w.conversation.pendingUserid.Some?
    requires w.conversation.verified.None? && w.hits == []
    ensures AttemptOf(w, PASSWORD_CUT).Some?
    ensures Step(FIVE_IN_TEN_MINUTES, w, Process(PASSWORD_CUT)).secret == w.secret
  {
    var t := AttemptOf(w, PASSWORD_CUT).value;
    AttemptIsHandler(FIVE_IN_TEN_MINUTES, w, PASSWORD_CUT);
    AttemptLeavesSecret(w, |w.turns|, t.userid, t.password, PASSWORD_CUT);
  }

  lemma AttemptLeavesSecret(w: World, turn: nat, u: Cred, p: Cred, i: Turn)
    ensures Perform(w, turn, AttemptChatLogin(w.conversation, u, p, true, i), 2).secret == w.secret
  {
    var program := AttemptChatLogin(w.conversation, u, p, true, i);
    TwoCalls(w, turn, program.effect, program.next.effect, program.next.next, 2);
  }

  // ---------- The same message twice ----------

  /**
   A message that gave the pending user id comes again, after its reply could not be sent. Both halves
   of the login are then read from it exactly when it has no label, nothing interrupts or diverts it,
   and the throttle allows an attempt.
   */
  lemma RepeatedMessageIsBothHalves(throttle: Throttle, w: World, i: Turn, before: AuthState, hadUser: bool,
                                    hadPassword: bool)
    requires Scanned(i.scan) && w.conversation.verified.None? && w.conversation.state == AwaitingPassword
    requires w.conversation.pendingUserid.Some?
    requires Extract(i.scan, before, hadUser, hadPassword).username == Some(w.conversation.pendingUserid.value.text)
    ensures CallsAnyVerifier(Handler(throttle, w, i))
       <==> !Labelled(i.scan) && !Interrupted(w.conversation, i) && !i.diverted && Allows(throttle, w.hits, i.now)
    ensures CallsAnyVerifier(Handler(throttle, w, i)) ==>
              CallsVerifier(Handler(throttle, w, i), w.conversation.pendingUserid.value, Cred(i.scan.whole, |w.turns|))
  {
    VerifierCalledExactly(throttle, w, i);
    if Labelled(i.scan) {
      assert Reading(w.conversation, i).username.Some?;
    } else {
      assert Reading(w.conversation, i).password == Some(i.scan.whole) && !Reading(w.conversation, i).ambiguous;
    }
  }

  /** A login phrase with a bare user id, in a turn whose calls stop after two. */
  function LoginMessage(message: nat): Turn {
    Turn(message, Scan("login 55501", [], [], false, false, true, ["login", "55501"], ["55501"]),
         false, false, false, false, 0, Wrong, Plain, false, false, false, 2)
  }

  const FIVE_IN_TEN_MINUTES := Throttle(5, 600)

  /** After its first turn the user id is pending, whether or not the answer could be sent. */
  lemma FirstTurnStores(message: nat)
    ensures var t := LoginMessage(message);
            var w := Step(FIVE_IN_TEN_MINUTES, START, Process(t));
            && w.conversation == FRESH.(pendingUserid := Some(Cred("55501", 0)), state := AwaitingPassword)
            && w.turns == [t] && w.hits == [] && |w.log| == 1
  {
    var t := LoginMessage(message);
    var c := FRESH.(pendingUserid := Some(Cred("55501", 0)), state := AwaitingPassword);
    var saved := Execute(START, 0, Save(c));
    assert Handler(FIVE_IN_TEN_MINUTES, START, t) == Do(Save(c), Done);
    assert Perform(START, 0, Do(Save(c), Done), 2) == Perform(saved, 0, Done, 1) == saved;
  }

  /** In its second turn the whole message is tried as the password of that user id. */
  lemma SecondTurnChecks(message: nat, w: World)
    requires w.conversation == FRESH.(pendingUserid := Some(Cred("55501", 0)), state := AwaitingPassword)
    requires w.turns == [LoginMessage(message)] && w.hits == [] && |w.log| == 1
    ensures var after := Step(FIVE_IN_TEN_MINUTES, w, Process(LoginMessage(message)));
            && after.turns == [LoginMessage(message), LoginMessage(message)]
            && |after.log| == 3
            && after.log[2] == Entry(1, Verify(Cred("55501", 0), Cred("login 55501", 1), 0, Wrong))
  {
    var t := LoginMessage(message);
    var check := Verify(Cred("55501", 0), Cred("login 55501", 1), 0, Wrong);
    var rest := Do(ClearSecret, AfterCheck(w.conversation, t));
    assert Allows(FIVE_IN_TEN_MINUTES, w.hits, 0);
    assert Handler(FIVE_IN_TEN_MINUTES, w, t) == Do(Hit(0), Do(check, rest));
    var hit := Execute(w, 1, Hit(0));
    var checked := Execute(hit, 1, check);
    assert Perform(w, 1, Do(Hit(0), Do(check, rest)), 2) == Perform(hit, 1, Do(check, rest), 1)
        == Perform(checked, 1, rest, 0) == checked;
  }

  /** A run in which one message, processed twice, is both user id and password. */
  lemma OneMessageCanBeBoth(message: nat)
    ensures exists throttle: Throttle, actions: seq<Action>, k: nat ::
              && AllScanned(actions) && k < |Run(throttle, actions).log|
              && var w := Run(throttle, actions);
                 w.log[k].effect.Verify?
                 && w.log[k].effect.userid.turn < |w.turns| && w.log[k].effect.password.turn < |w.turns|
                 && w.turns[w.log[k].effect.userid.turn].message == w.turns[w.log[k].effect.password.turn].message
  {
    var t := LoginMessage(message);
    var one, two := [Process(t)], [Process(t), Process(t)];
    assert two[..1] == one && one[..0] == [];
    assert AllScanned(one) && AllScanned(two);
    FirstTurnStores(message);
    assert Run(FIVE_IN_TEN_MINUTES, one) == Step(FIVE_IN_TEN_MINUTES, START, Process(t));
    SecondTurnChecks(message, Run(FIVE_IN_TEN_MINUTES, one));
    assert Run(FIVE_IN_TEN_MINUTES, two) == Step(FIVE_IN_TEN_MINUTES, Run(FIVE_IN_TEN_MINUTES, one), Process(t));
    assert Run(FIVE_IN_TEN_MINUTES, two).log[2].effect.Verify?;
  }
}
