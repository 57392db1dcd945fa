/** Each call of a handler keeps the invariant under the condition the handler provides. */
module ChatLoginSteps {
  import opened Prelude
  import opened Quotas
  import opened ChatLogin
  import opened ChatLoginInvariant

  lemma HitThenVerify(throttle: Throttle, hits: seq<int>, checks: seq<int>, at: int)
    requires Throttled(throttle, hits, checks) && Allows(throttle, hits, at)
    ensures Throttled(throttle, hits + [at], checks) && Throttled(throttle, hits + [at], checks + [at])
  {
    HitKeepsWindows(throttle, hits, at);
    forall lo, hi ensures CountWithin(checks, lo, hi) <= CountWithin(hits + [at], lo, hi)
                          && CountWithin(checks + [at], lo, hi) <= CountWithin(hits + [at], lo, hi)
    {
      AppendCounts(hits, at, lo, hi);
      AppendCounts(checks, at, lo, hi);
    }
  }

  lemma HitKeepsWindows(throttle: Throttle, hits: seq<int>, at: int)
    requires HitsBounded(throttle, hits) && Allows(throttle, hits, at)
    ensures HitsBounded(throttle, hits + [at])
  {
    forall lo, hi | hi - lo == throttle.window + 1
      ensures CountWithin(hits + [at], lo, hi) <= if throttle.max > 0 then throttle.max else 0
    {
      WindowStaysBounded(hits, at, throttle.window + 1, throttle.max, hi);
      assert lo == hi - (throttle.window + 1);
    }
  }

  /** What a save may do: keep or drop the captured action, and not log out while keeping a dispatched one. */
  predicate SaveOk(msgs: seq<Turn>, w: World, c: Conversation) {
    && (c.pendingUserid.Some? ==> UserFrom(msgs, c.pendingUserid.value))
    && (c.pendingTool.None? || c.pendingTool == w.conversation.pendingTool)
    && (c.pendingTool.None? || c.verified.Some? || w.conversation.verified.None?)
  }

  lemma SaveKeeps(throttle: Throttle, msgs: seq<Turn>, limit: nat, w: World, turn: nat, c: Conversation)
    requires Invariant(throttle, msgs, limit, w) && SaveOk(msgs, w, c)
    ensures Invariant(throttle, msgs, limit, Execute(w, turn, Save(c)))
  {
    SaveKeepsReplay(limit, w, turn, c);
  }

  lemma SaveKeepsReplay(limit: nat, w: World, turn: nat, c: Conversation)
    requires Replay(limit, w)
    requires c.pendingTool.None? || c.pendingTool == w.conversation.pendingTool
    requires c.pendingTool.None? || c.verified.Some? || w.conversation.verified.None?
    ensures Replay(limit, Execute(w, turn, Save(c)))
  {
    var after := Execute(w, turn, Save(c));
    assert after.log[..|w.log|] == w.log;
    forall k | 0 <= k < |after.log| ensures Spent(after, after.log[k]) {
      if k < |w.log| { assert Spent(w, w.log[k]); }
    }
  }

  /** A capture is named by a turn that no earlier capture can have. */
  lemma CaptureKeeps(throttle: Throttle, msgs: seq<Turn>, w: World, turn: nat, c: Conversation)
    requires Invariant(throttle, msgs, turn, w)
    requires c.pendingUserid.None? && c.pendingTool == Some(turn) && w.conversation.verified.None?
    ensures Invariant(throttle, msgs, turn + 1, Execute(w, turn, Save(c)))
  {
    var after := Execute(w, turn, Save(c));
    assert after.log[..|w.log|] == w.log;
    forall k | 0 <= k < |after.log| ensures Spent(after, after.log[k]) {
      if k < |w.log| { assert Spent(w, w.log[k]); }
    }
  }

  lemma SecretKeeps(throttle: Throttle, msgs: seq<Turn>, limit: nat, w: World, turn: nat, e: Effect)
    requires Invariant(throttle, msgs, limit, w)
    requires e.ClearSecret? || e.PopSecret? || (e.StashSecret? && PasswordFrom(msgs, e.password))
    ensures Invariant(throttle, msgs, limit, Execute(w, turn, e))
  {
    LogKeepsReplay(limit, w, turn, e);
  }

  /** Calls that touch neither the conversation nor a captured action. */
  lemma LogKeepsReplay(limit: nat, w: World, turn: nat, e: Effect)
    requires Replay(limit, w) && !e.Save? && !e.Dispatch?
    ensures Replay(limit, Execute(w, turn, e))
  {
    var after := Execute(w, turn, e);
    assert after.log[..|w.log|] == w.log;
    forall k | 0 <= k < |after.log| ensures Spent(after, after.log[k]) {
      if k < |w.log| { assert Spent(w, w.log[k]); }
    }
  }

  lemma VerifyKeeps(throttle: Throttle, msgs: seq<Turn>, limit: nat, w: World, w1: World, w2: World, turn: nat,
                    check: Effect)
    requires Invariant(throttle, msgs, limit, w) && check.Verify? && Allows(throttle, w.hits, check.at)
    requires TwoTurns(msgs, Entry(turn, check))
    requires w1 == Execute(w, turn, Hit(check.at)) && w2 == Execute(w1, turn, check)
    ensures Invariant(throttle, msgs, limit, w1) && Invariant(throttle, msgs, limit, w2)
  {
    HitThenVerify(throttle, w.hits, w.checks, check.at);
    LogKeepsReplay(limit, w, turn, Hit(check.at));
    LogKeepsReplay(limit, w1, turn, check);
    LogKeepsProvenance(msgs, w, turn, Hit(check.at));
    LogKeepsProvenance(msgs, w1, turn, check);
  }

  lemma LogKeepsProvenance(msgs: seq<Turn>, w: World, turn: nat, e: Effect)
    requires Provenance(msgs, w) && (e.Hit? || e.Verify?) && TwoTurns(msgs, Entry(turn, e))
    ensures Provenance(msgs, Execute(w, turn, e))
  {}

  lemma DispatchKeeps(throttle: Throttle, msgs: seq<Turn>, limit: nat, w: World, turn: nat, tool: nat,
                      customer: Customer)
    requires Invariant(throttle, msgs, limit, w) && limit <= turn
    requires w.conversation.pendingTool == Some(tool) && w.conversation.verified == Some(customer)
    requires NotDispatched(w.log, tool)
    requires AfterLogin(w.log + [Entry(turn, Dispatch(tool, customer))], |w.log|)
    ensures Invariant(throttle, msgs, limit, Execute(w, turn, Dispatch(tool, customer)))
  {
    var after := Execute(w, turn, Dispatch(tool, customer));
    assert after.log[..|w.log|] == w.log;
    forall k | 0 <= k < |after.log| ensures Spent(after, after.log[k]) {
      if k < |w.log| { assert Spent(w, w.log[k]); }
    }
  }

  lemma LimitMayGrow(throttle: Throttle, msgs: seq<Turn>, limit: nat, w: World)
    requires Invariant(throttle, msgs, limit, w)
    ensures Invariant(throttle, msgs, limit + 1, w)
  {}

  /** A message more leaves what came before as it was. */
  lemma MessagesMayGrow(throttle: Throttle, msgs: seq<Turn>, limit: nat, w: World, i: Turn)
    requires Invariant(throttle, msgs, limit, w)
    ensures Invariant(throttle, msgs + [i], limit, w)
  {
    forall k | 0 <= k < |w.log| ensures TwoTurns(msgs + [i], w.log[k]) { assert TwoTurns(msgs, w.log[k]); }
  }

  lemma {:induction false} GoodPrefix(throttle: Throttle, msgs: seq<Turn>, w: World, turn: nat, p: Program, calls: nat)
    requires Good(throttle, msgs, w, turn, p)
    ensures Invariant(throttle, msgs, turn + 1, Perform(w, turn, p, calls))
    decreases p
  {
    match p
    case Done =>
    case Do(e, next) => if calls > 0 { GoodPrefix(throttle, msgs, Execute(w, turn, e), turn, next, calls - 1); }
  }

  lemma DroppedGrows(w: World, turn: nat, e: Effect)
    ensures w.dropped <= Execute(w, turn, e).dropped
  {}

  /** The log only grows, and what was dropped before the handler is not dispatched by it. */
  lemma {:induction false} DroppedStaysDropped(throttle: Throttle, msgs: seq<Turn>, w: World, turn: nat, p: Program,
                                               calls: nat)
    requires Good(throttle, msgs, w, turn, p)
    ensures var after := Perform(w, turn, p, calls);
            && w.log <= after.log && w.dropped <= after.dropped
            && forall k :: |w.log| <= k < |after.log| && after.log[k].effect.Dispatch? ==>
              after.log[k].effect.tool !in w.dropped
    decreases p
  {
    match p
    case Done =>
    case Do(e, next) =>
      if calls > 0 {
        var w1 := Execute(w, turn, e);
        DroppedGrows(w, turn, e);
        DroppedStaysDropped(throttle, msgs, w1, turn, next, calls - 1);
        var after := Perform(w1, turn, next, calls - 1);
        assert after.log[|w.log|] == w1.log[|w.log|] == Entry(turn, e);
      }
  }

  /** A successful check of this customer in this turn. */
  ghost predicate Checked(w: World, turn: nat, customer: Customer) {
    exists k :: 0 <= k < |w.log| && w.log[k].turn == turn && w.log[k].effect.Verify?
                && w.log[k].effect.answer == Accepted(customer)
  }

  lemma {:induction false} IdentityFollowsChecks(throttle: Throttle, msgs: seq<Turn>, w: World, turn: nat, p: Program,
                                                 calls: nat)
    requires Good(throttle, msgs, w, turn, p) && turn < |msgs|
    ensures var after := Perform(w, turn, p, calls);
            || after.conversation.verified == w.conversation.verified
            || (after.conversation.verified.None? && msgs[turn].logout)
            || (after.conversation.verified.Some? && Checked(after, turn, after.conversation.verified.value))
    decreases p
  {
    match p
    case Done =>
    case Do(e, next) =>
      if calls > 0 {
        var w1 := Execute(w, turn, e);
        IdentityFollowsChecks(throttle, msgs, w1, turn, next, calls - 1);
        DroppedStaysDropped(throttle, msgs, w1, turn, next, calls - 1);
        var after := Perform(w1, turn, next, calls - 1);
        if e.Save? && w1.conversation.verified != w.conversation.verified && e.conversation.verified.Some? {
          assert after.log[|w.log| - 2] == w.log[|w.log| - 2];
        }
      }
  }
}
