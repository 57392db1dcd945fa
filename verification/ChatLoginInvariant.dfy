/** What every call of every handler keeps: provenance of credentials, replay of actions, the throttle. */
module ChatLoginInvariant {
  import opened Prelude
  import opened Quotas
  import opened CredentialExtraction
  import opened ChatLogin

  // ---------- Provenance ----------

  predicate UserFrom(msgs: seq<Turn>, c: Cred) {
    c.turn < |msgs| && UsernameIn(msgs[c.turn].scan, c.text)
  }

  predicate PasswordFrom(msgs: seq<Turn>, c: Cred) {
    c.turn < |msgs| && PasswordIn(msgs[c.turn].scan, c.text)
  }

  /** A verifier call: one value from the present turn, the other from an earlier one. */
  predicate TwoTurns(msgs: seq<Turn>, e: Entry) {
    e.effect.Verify? ==>
      var u, p := e.effect.userid, e.effect.password;
      && UserFrom(msgs, u) && PasswordFrom(msgs, p)
      && ((u.turn < p.turn && p.turn == e.turn) || (p.turn < u.turn && u.turn == e.turn))
  }

  ghost predicate Provenance(msgs: seq<Turn>, w: World) {
    && (w.conversation.pendingUserid.Some? ==> UserFrom(msgs, w.conversation.pendingUserid.value))
    && (w.secret.Some? ==> PasswordFrom(msgs, w.secret.value))
    && (forall k :: 0 <= k < |w.log| ==> TwoTurns(msgs, w.log[k]))
  }

  // ---------- Replay ----------

  /** Dispatched for the customer whom a successful check of this very turn established, three calls before. */
  predicate AfterLogin(log: seq<Entry>, k: nat)
    requires k < |log|
  {
    log[k].effect.Dispatch? ==>
      && k >= 3
      && log[k - 3].turn == log[k].turn
      && log[k - 3].effect.Verify?
      && log[k - 3].effect.answer == Accepted(log[k].effect.customer)
      && log[k].effect.tool < log[k].turn
  }

  ghost predicate LoginsFirst(log: seq<Entry>) {
    log == [] || (AfterLogin(log, |log| - 1) && LoginsFirst(log[..|log| - 1]))
  }

  ghost predicate NotDispatched(log: seq<Entry>, tool: nat) {
    forall k :: 0 <= k < |log| ==> !(log[k].effect.Dispatch? && log[k].effect.tool == tool)
  }

  ghost predicate DispatchedOnce(log: seq<Entry>) {
    log == []
    || (DispatchedOnce(log[..|log| - 1])
        && (log[|log| - 1].effect.Dispatch? ==> NotDispatched(log[..|log| - 1], log[|log| - 1].effect.tool)))
  }

  /** A dispatched action is captured no longer, or the customer is still logged in. */
  predicate Spent(w: World, e: Entry) {
    e.effect.Dispatch? ==>
      e.effect.tool in w.dropped || (w.conversation.verified.Some? && w.conversation.pendingTool == Some(e.effect.tool))
  }

  ghost predicate Replay(limit: nat, w: World) {
    && (w.conversation.pendingTool.Some? ==>
          w.conversation.pendingTool.value < limit && w.conversation.pendingTool.value !in w.dropped)
    && (forall id :: id in w.dropped ==> id < limit)
    && (forall k :: 0 <= k < |w.log| ==> Spent(w, w.log[k]))
    && LoginsFirst(w.log)
    && DispatchedOnce(w.log)
  }

  // ---------- Throttle ----------

  /** At most the throttle's maximum in every closed window of its length. */
  ghost predicate HitsBounded(throttle: Throttle, times: seq<int>) {
    forall lo, hi :: hi - lo == throttle.window + 1 ==>
      CountWithin(times, lo, hi) <= if throttle.max > 0 then throttle.max else 0
  }

  /** Each verifier call has its own allowed hit, and the hits respect every window. */
  ghost predicate Throttled(throttle: Throttle, hits: seq<int>, checks: seq<int>) {
    && (forall lo, hi :: CountWithin(checks, lo, hi) <= CountWithin(hits, lo, hi))
    && HitsBounded(throttle, hits)
  }

  // ---------- Together ----------

  ghost predicate Invariant(throttle: Throttle, msgs: seq<Turn>, limit: nat, w: World) {
    Provenance(msgs, w) && Replay(limit, w) && Throttled(throttle, w.hits, w.checks)
  }

  /**
   What a call may do: dispatch only what is still captured, for the verified customer; change the
   identity only to one just checked, or to none by a logout.
   */
  predicate CallOk(msgs: seq<Turn>, w: World, turn: nat, e: Effect) {
    match e
    case Dispatch(tool, customer) => tool !in w.dropped && w.conversation.verified == Some(customer)
    case Save(c) =>
      || c.verified == w.conversation.verified
      || (c == FRESH && turn < |msgs| && msgs[turn].logout)
      || (w.conversation.verified.None? && c.verified.Some? && |w.log| >= 2
          && w.log[|w.log| - 2].turn == turn && w.log[|w.log| - 2].effect.Verify?
          && w.log[|w.log| - 2].effect.answer == Accepted(c.verified.value))
    case _ => true
  }

  /** The invariant holds now and after each further call, and each call is one it may make. */
  ghost predicate Good(throttle: Throttle, msgs: seq<Turn>, w: World, turn: nat, p: Program)
    decreases p
  {
    && Invariant(throttle, msgs, turn + 1, w)
    && (p.Do? ==>
          CallOk(msgs, w, turn, p.effect) && Good(throttle, msgs, Execute(w, turn, p.effect), turn, p.next))
  }
}
