/** What holds of every run of the login flow: expiry, crashes, failed calls and repeated messages included. */
module ChatLoginSafety {
  import opened Prelude
  import opened Quotas
  import opened CredentialExtraction
  import opened ChatLogin
  import opened ChatLoginInvariant
  import opened ChatLoginSteps
  import opened ChatLoginHandlers

  lemma ProcessKeeps(throttle: Throttle, w: World, i: Turn)
    requires Scanned(i.scan) && Invariant(throttle, w.turns, |w.turns|, w)
    ensures Good(throttle, w.turns + [i], w, |w.turns|, Handler(throttle, w, i))
  {
    MessagesMayGrow(throttle, w.turns, |w.turns|, w, i);
    HandlerGood(throttle, w.turns + [i], w, |w.turns|, i);
  }

  /** Expiry and other conversations' attempts. */
  lemma OutsideKeeps(throttle: Throttle, w: World, a: Action)
    requires !a.Process? && Invariant(throttle, w.turns, |w.turns|, w)
    ensures Invariant(throttle, w.turns, |w.turns|, Step(throttle, w, a))
  {
    match a
    case SecretExpires =>
    case ConversationExpires =>
      forall k | 0 <= k < |w.log| ensures Spent(Step(throttle, w, a), w.log[k]) { assert Spent(w, w.log[k]); }
    case OtherAttempt(now) =>
      if Allows(throttle, w.hits, now) { HitThenVerify(throttle, w.hits, w.checks, now); }
  }

  lemma StepKeeps(throttle: Throttle, w: World, a: Action)
    requires Invariant(throttle, w.turns, |w.turns|, w) && (a.Process? ==> Scanned(a.turn.scan))
    ensures Invariant(throttle, Step(throttle, w, a).turns, |Step(throttle, w, a).turns|, Step(throttle, w, a))
  {
    if a.Process? {
      ProcessKeeps(throttle, w, a.turn);
      GoodPrefix(throttle, w.turns + [a.turn], w, |w.turns|, Handler(throttle, w, a.turn), a.turn.calls);
      TurnsAreHistory(throttle, w.turns + [a.turn], Perform(w, |w.turns|, Handler(throttle, w, a.turn), a.turn.calls));
    } else {
      OutsideKeeps(throttle, w, a);
    }
  }

  lemma TurnsAreHistory(throttle: Throttle, msgs: seq<Turn>, w: World)
    requires Invariant(throttle, msgs, |msgs|, w)
    ensures Invariant(throttle, msgs, |msgs|, w.(turns := msgs))
  {
    forall k | 0 <= k < |w.log| ensures Spent(w.(turns := msgs), w.log[k]) { assert Spent(w, w.log[k]); }
  }

  lemma {:induction false} RunKeeps(throttle: Throttle, actions: seq<Action>)
    requires AllScanned(actions)
    ensures Invariant(throttle, Run(throttle, actions).turns, |Run(throttle, actions).turns|, Run(throttle, actions))
  {
    if actions != [] {
      RunKeeps(throttle, actions[..|actions| - 1]);
      StepKeeps(throttle, Run(throttle, actions[..|actions| - 1]), actions[|actions| - 1]);
    }
  }

  /**
   The verifier is only ever given a user id and a password read from the messages of two different
   turns, one of them the present one.
   */
  lemma TwoTurnAuthentication(throttle: Throttle, actions: seq<Action>, k: nat)
    requires AllScanned(actions) && k < |Run(throttle, actions).log| && Run(throttle, actions).log[k].effect.Verify?
    ensures var w := Run(throttle, actions);
            var u, p := w.log[k].effect.userid, w.log[k].effect.password;
            && UserFrom(w.turns, u) && PasswordFrom(w.turns, p)
            && u.turn != p.turn
            && (u.turn == w.log[k].turn || p.turn == w.log[k].turn)
  {
    RunKeeps(throttle, actions);
    assert TwoTurns(Run(throttle, actions).turns, Run(throttle, actions).log[k]);
  }

  /** In a run that processes no message twice, they come from two different messages. */
  lemma TwoMessageAuthentication(throttle: Throttle, actions: seq<Action>, k: nat)
    requires AllScanned(actions) && k < |Run(throttle, actions).log| && Run(throttle, actions).log[k].effect.Verify?
    requires forall a, b :: 0 <= a < b < |Run(throttle, actions).turns| ==>
               Run(throttle, actions).turns[a].message != Run(throttle, actions).turns[b].message
    ensures var w := Run(throttle, actions);
            var u, p := w.log[k].effect.userid.turn, w.log[k].effect.password.turn;
            u < |w.turns| && p < |w.turns| && w.turns[u].message != w.turns[p].message
  {
    TwoTurnAuthentication(throttle, actions, k);
  }

  /** Every closed throttle window holds at most the maximum number of verifier calls of this phone. */
  lemma VerifierIsThrottled(throttle: Throttle, actions: seq<Action>, t: int)
    requires AllScanned(actions)
    ensures CountWithin(Run(throttle, actions).checks, t - throttle.window - 1, t)
         <= if throttle.max > 0 then throttle.max else 0
  {
    RunKeeps(throttle, actions);
    var w := Run(throttle, actions);
    assert CountWithin(w.checks, t - throttle.window - 1, t) <= CountWithin(w.hits, t - throttle.window - 1, t);
  }

  /** Every save of this program keeps the identity or removes it. */
  predicate KeepsIdentity(p: Program, verified: Option<Customer>) {
    p.Do? ==>
      && (p.effect.Save? ==> p.effect.conversation.verified == verified || p.effect.conversation.verified.None?)
      && KeepsIdentity(p.next, verified)
  }

  lemma {:induction false} IdentityKept(w: World, turn: nat, p: Program, calls: nat, verified: Option<Customer>)
    requires KeepsIdentity(p, verified)
    requires w.conversation.verified == verified || w.conversation.verified.None?
    ensures var after := Perform(w, turn, p, calls).conversation.verified; after == verified || after.None?
    decreases p
  {
    if p.Do? && calls > 0 { IdentityKept(Execute(w, turn, p.effect), turn, p.next, calls - 1, verified); }
  }

  /** A turn that begins with a verified customer never makes another one the verified customer. */
  lemma IdentityIsNotReplaced(throttle: Throttle, w: World, i: Turn)
    requires Scanned(i.scan) && w.conversation.verified.Some?
    ensures var after := Step(throttle, w, Process(i)).conversation.verified;
            after == w.conversation.verified || after.None?
  {
    var c := w.conversation;
    assert KeepsIdentity(Do(Save(FRESH), Done), c.verified) && KeepsIdentity(Do(Save(c), Done), c.verified);
    assert KeepsIdentity(HandleAiResult(c, |w.turns|, i), c.verified);
    assert KeepsIdentity(Handler(throttle, w, i), c.verified);
    IdentityKept(w, |w.turns|, Handler(throttle, w, i), i.calls, c.verified);
  }

  /**
   Between two turns the verified identity changes only from none to a customer the verifier accepted
   in the turn between, to none by a logout message, or to none because the conversation expired.
   */
  lemma IdentityChangesOnlyByCheckOrLogout(throttle: Throttle, actions: seq<Action>, a: Action)
    requires AllScanned(actions) && AllScanned(actions + [a])
    ensures var w, after := Run(throttle, actions), Run(throttle, actions + [a]);
            || after.conversation.verified == w.conversation.verified
            || (after.conversation.verified.None? && (a.ConversationExpires? || (a.Process? && a.turn.logout)))
            || (w.conversation.verified.None? && after.conversation.verified.Some?
                && Checked(after, |w.turns|, after.conversation.verified.value))
  {
    var w := Run(throttle, actions);
    assert (actions + [a])[..|actions|] == actions;
    RunKeeps(throttle, actions);
    assert (actions + [a])[|actions|] == a;
    if a.Process? {
      ProcessKeeps(throttle, w, a.turn);
      if w.conversation.verified.Some? { IdentityIsNotReplaced(throttle, w, a.turn); }
      var handler := Handler(throttle, w, a.turn);
      IdentityFollowsChecks(throttle, w.turns + [a.turn], w, |w.turns|, handler, a.turn.calls);
      var done := Perform(w, |w.turns|, handler, a.turn.calls);
      var after := done.(turns := w.turns + [a.turn]);
      assert after == Run(throttle, actions + [a]);
      assert after.log == done.log;
    }
  }

  lemma {:induction false} LoginsFirstAt(log: seq<Entry>, k: nat)
    requires LoginsFirst(log) && k < |log|
    ensures AfterLogin(log, k)
  {
    if k < |log| - 1 {
      LoginsFirstAt(log[..|log| - 1], k);
    }
  }

  lemma {:induction false} DispatchedOnceAt(log: seq<Entry>, j: nat, k: nat)
    requires DispatchedOnce(log) && j < k < |log| && log[j].effect.Dispatch? && log[k].effect.Dispatch?
    ensures log[j].effect.tool != log[k].effect.tool
  {
    var front := log[..|log| - 1];
    if k < |log| - 1 {
      DispatchedOnceAt(front, j, k);
    } else {
      assert front[j] == log[j];
    }
  }

  /**
   Every dispatch of every run comes three calls after the verifier accepted, in the same turn, the very
   customer it is dispatched for, and in a later turn than the one that captured the action.
   */
  lemma DispatchFollowsLogin(throttle: Throttle, actions: seq<Action>, k: nat)
    requires AllScanned(actions) && k < |Run(throttle, actions).log| && Run(throttle, actions).log[k].effect.Dispatch?
    ensures AfterLogin(Run(throttle, actions).log, k)
  {
    RunKeeps(throttle, actions);
    LoginsFirstAt(Run(throttle, actions).log, k);
  }

  /** Each captured action is dispatched at most once, even when its dispatch timed out and it stayed captured. */
  lemma ReplayAtMostOnce(throttle: Throttle, actions: seq<Action>, j: nat, k: nat)
    requires AllScanned(actions)
    requires j < k < |Run(throttle, actions).log|
    requires Run(throttle, actions).log[j].effect.Dispatch? && Run(throttle, actions).log[k].effect.Dispatch?
    ensures var log := Run(throttle, actions).log;
            log[j].effect.tool != log[k].effect.tool && AfterLogin(log, j) && AfterLogin(log, k)
  {
    RunKeeps(throttle, actions);
    DispatchedOnceAt(Run(throttle, actions).log, j, k);
    DispatchFollowsLogin(throttle, actions, j);
    DispatchFollowsLogin(throttle, actions, k);
  }

  /**
   An action that is no longer captured, because it was dispatched, cancelled, replaced, abandoned or
   logged out, is not dispatched by any later turn.
   */
  lemma NeverAfterDropped(throttle: Throttle, actions: seq<Action>, i: Turn, k: nat)
    requires AllScanned(actions) && AllScanned(actions + [Process(i)])
    requires |Run(throttle, actions).log| <= k < |Run(throttle, actions + [Process(i)]).log|
    requires Run(throttle, actions + [Process(i)]).log[k].effect.Dispatch?
    ensures Run(throttle, actions + [Process(i)]).log[k].effect.tool !in Run(throttle, actions).dropped
    ensures Run(throttle, actions).dropped <= Run(throttle, actions + [Process(i)]).dropped
  {
    var w := Run(throttle, actions);
    assert (actions + [Process(i)])[..|actions|] == actions;
    RunKeeps(throttle, actions);
    ProcessKeeps(throttle, w, i);
    DroppedStaysDropped(throttle, w.turns + [i], w, |w.turns|, Handler(throttle, w, i), i.calls);
  }

  /**
   Cancelling, changing the topic or logging out drops the captured action exactly when both of its
   first calls, the clearing of the password and the save, succeed.
   */
  lemma InterruptionDropsExactly(throttle: Throttle, actions: seq<Action>, i: Turn)
    requires AllScanned(actions) && AllScanned(actions + [Process(i)])
    requires Run(throttle, actions).conversation.pendingTool.Some?
    requires Interrupted(Run(throttle, actions).conversation, i)
          || (Run(throttle, actions).conversation.verified.Some? && i.logout && !i.diverted)
    ensures Run(throttle, actions).conversation.pendingTool.value in Run(throttle, actions + [Process(i)]).dropped
       <==> i.calls >= 2
  {
    var w := Run(throttle, actions);
    assert (actions + [Process(i)])[..|actions|] == actions;
    assert (actions + [Process(i)])[|actions|] == Process(i);
    RunKeeps(throttle, actions);
    var turn, p := |w.turns|, Handler(throttle, w, i);
    TwoCalls(w, turn, p.effect, p.next.effect, p.next.next, i.calls);
    if i.calls >= 2 {
      var w2 := Execute(Execute(w, turn, p.effect), turn, p.next.effect);
      DroppedNeverShrinks(w2, turn, p.next.next, i.calls - 2);
    }
  }

  lemma {:induction false} DroppedNeverShrinks(w: World, turn: nat, p: Program, calls: nat)
    ensures w.dropped <= Perform(w, turn, p, calls).dropped
    decreases p
  {
    if p.Do? && calls > 0 { DroppedNeverShrinks(Execute(w, turn, p.effect), turn, p.next, calls - 1); }
  }
}
