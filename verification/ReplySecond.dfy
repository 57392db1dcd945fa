/** Exactly when a second reply can still be accepted within one guard TTL of an accepted one. */
module ReplySecond {
  import opened Prelude
  import opened ReplyGuard
  import opened ReplyOnce

  const ACCEPTED := Oracle(false, true, true, Delivered)

  /** A worker that has claimed and not sent yet. */
  predicate HoldsUnsent(pc: Pc) {
    pc.Guarded? || pc.Sending?
  }

  /** A worker about to give its live claim back. */
  predicate WillReopen(g: Shared, pc: Pc) {
    pc.Finishing? && pc.reopen && Owns(g, pc.token)
  }

  /** When the key is next free if nobody writes it. */
  function FreeAt(g: Shared): nat {
    if Live(g) then g.guard.value.deadline else g.now
  }

  /**
   A second reply may still come before `limit`: that moment has not passed, and a stalled worker still
   holds a claim it has not sent under, or is about to reopen the key, or the key is free before then.
   */
  ghost predicate Open(s: State, limit: nat) {
    && s.shared.now < limit
    && (FreeAt(s.shared) < limit
        || exists w :: 0 <= w < |s.workers| && (HoldsUnsent(s.workers[w]) || WillReopen(s.shared, s.workers[w])))
  }

  // ---------- Closed stays closed ----------

  ghost predicate Closed(s: State, limit: nat) {
    s.shared.now >= limit
    || (&& s.shared.guard.Some? && s.shared.guard.value.deadline >= limit
        && forall w :: 0 <= w < |s.workers| ==> !HoldsUnsent(s.workers[w]) && NeverReopens(s.shared, s.workers[w]))
  }

  predicate NeverReopens(g: Shared, pc: Pc) {
    pc.Finishing? && pc.reopen ==> g.guard.None? || g.guard.value.value != Processing(pc.token)
  }

  /** No message is accepted before `limit` from a closed state. */
  lemma ClosedStep(s: State, a: Action, limit: nat)
    requires Closed(s, limit) && limit <= s.shared.now + s.shared.ttl
    ensures Closed(Apply(s, a), limit) && s.shared.accepted <= Apply(s, a).shared.accepted
    ensures forall k :: |s.shared.accepted| <= k < |Apply(s, a).shared.accepted| ==>
      Apply(s, a).shared.accepted[k].at >= limit
  {
    if s.shared.now < limit && a.Work? && a.worker < |s.workers| {
      var w, n := a.worker, Step(s.shared, s.workers[a.worker], a.oracle);
      assert !HoldsUnsent(s.workers[w]) && NeverReopens(s.shared, s.workers[w]);
      assert n.shared.guard.Some? && n.shared.guard.value.deadline >= limit;
      forall v | 0 <= v < |s.workers| && v != w ensures NeverReopens(n.shared, s.workers[v]) {
        assert NeverReopens(s.shared, s.workers[v]);
      }
    }
  }

  lemma {:induction false} ClosedForGood(s: State, more: seq<Action>, limit: nat)
    requires Invariant(s) && Closed(s, limit) && limit <= s.shared.now + s.shared.ttl
    ensures Closed(After(s, more), limit) && s.shared.accepted <= After(s, more).shared.accepted
    ensures forall k :: |s.shared.accepted| <= k < |After(s, more).shared.accepted| ==>
      After(s, more).shared.accepted[k].at >= limit
  {
    if more != [] {
      var past := more[..|more| - 1];
      ClosedForGood(s, past, limit);
      AfterKeeps(s, past);
      ClosedStep(After(s, past), more[|more| - 1], limit);
    }
  }

  // ---------- Open can be used ----------

  lemma Then(s: State, past: seq<Action>, a: Action)
    ensures After(s, past + [a]) == Apply(After(s, past), a)
  {
    assert (past + [a])[..|past|] == past;
  }

  /** One more message was accepted between the two states. */
  predicate OneMore(before: State, after: State, x: Acceptance) {
    after.shared.accepted == before.shared.accepted + [x]
  }

  /** A worker that holds a claim sends at once. */
  lemma SendNow(s: State, past: seq<Action>, w: nat) returns (more: seq<Action>, x: Acceptance)
    requires w < |After(s, past).workers| && HoldsUnsent(After(s, past).workers[w])
    ensures x.at == After(s, past).shared.now && OneMore(After(s, past), After(s, past + more), x)
  {
    var go, mid := Work(w, ACCEPTED), After(s, past);
    x := Acceptance(mid.workers[w].token, mid.shared.now);
    Then(s, past, go);
    if mid.workers[w].Sending? {
      more := [go];
    } else {
      Then(s, past + [go], go);
      more := [go] + [go];
      assert past + more == past + [go] + [go];
    }
  }

  /** A new delivery finds the key free and claims it. */
  lemma ClaimNow(s: State, past: seq<Action>) returns (more: seq<Action>)
    requires !Live(After(s, past).shared)
    ensures var mid, after := After(s, past), After(s, past + more);
            && |after.workers| == |mid.workers| + 1 && after.workers[|mid.workers|].Guarded?
            && after.shared.now == mid.shared.now && after.shared.accepted == mid.shared.accepted
  {
    var mid := After(s, past);
    var go := Work(|mid.workers|, ACCEPTED);
    var p1 := past + [Deliver];
    Then(s, past, Deliver);
    Then(s, p1, go);
    assert After(s, p1 + [go]).workers[|mid.workers|] == Claiming && After(s, p1 + [go]).shared == mid.shared;
    Then(s, p1 + [go], go);
    more := [Deliver] + [go] + [go];
    assert past + more == p1 + [go] + [go];
  }

  lemma DeliverNow(s: State, past: seq<Action>) returns (more: seq<Action>, x: Acceptance)
    requires !Live(After(s, past).shared)
    ensures x.at == After(s, past).shared.now && OneMore(After(s, past), After(s, past + more), x)
  {
    var claim := ClaimNow(s, past);
    var rest;
    rest, x := SendNow(s, past + claim, |After(s, past).workers|);
    more := claim + rest;
    assert past + more == past + claim + rest;
  }

  /** Wait until the key is free, then deliver. */
  lemma WaitThenDeliver(s: State, past: seq<Action>) returns (more: seq<Action>, x: Acceptance)
    requires FreeAt(After(s, past).shared) >= After(s, past).shared.now
    ensures x.at == FreeAt(After(s, past).shared) && OneMore(After(s, past), After(s, past + more), x)
  {
    var mid := After(s, past);
    var wait := Tick(FreeAt(mid.shared) - mid.shared.now);
    Then(s, past, wait);
    var rest;
    rest, x := DeliverNow(s, past + [wait]);
    more := [wait] + rest;
    assert past + more == past + [wait] + rest;
  }

  /** Let the worker give its claim back, then deliver. */
  lemma ReopenThenDeliver(s: State, past: seq<Action>, w: nat) returns (more: seq<Action>, x: Acceptance)
    requires w < |After(s, past).workers| && WillReopen(After(s, past).shared, After(s, past).workers[w])
    ensures x.at == After(s, past).shared.now && OneMore(After(s, past), After(s, past + more), x)
  {
    var release := Work(w, ACCEPTED);
    Then(s, past, release);
    var rest;
    rest, x := DeliverNow(s, past + [release]);
    more := [release] + rest;
    assert past + more == past + [release] + rest;
  }

  /** From an open state a second message can be accepted before the limit. */
  lemma OpenIsReached(s: State, past: seq<Action>, limit: nat) returns (more: seq<Action>, x: Acceptance)
    requires Open(After(s, past), limit)
    ensures x.at < limit && OneMore(After(s, past), After(s, past + more), x)
  {
    var mid := After(s, past);
    if FreeAt(mid.shared) < limit {
      more, x := WaitThenDeliver(s, past);
    } else {
      var w :| 0 <= w < |mid.workers| && (HoldsUnsent(mid.workers[w]) || WillReopen(mid.shared, mid.workers[w]));
      if HoldsUnsent(mid.workers[w]) { more, x := SendNow(s, past, w); }
      else { more, x := ReopenThenDeliver(s, past, w); }
    }
  }

  /** In some continuation of the run a further message is accepted before the limit. */
  ghost predicate FurtherPossible(setting: int, actions: seq<Action>, limit: nat) {
    exists more, k :: FurtherBefore(setting, actions, actions + more, k, limit)
  }

  /** In this longer run a further message, the k-th, was accepted before the limit. */
  predicate FurtherBefore(setting: int, actions: seq<Action>, longer: seq<Action>, k: nat, limit: nat) {
    && |Run(setting, actions).shared.accepted| <= k < |Run(setting, longer).shared.accepted|
    && Run(setting, longer).shared.accepted[k].at < limit
  }

  lemma {:induction false} AfterConcat(s: State, a: seq<Action>, b: seq<Action>)
    ensures After(s, a + b) == After(After(s, a), b)
  {
    if b == [] {
      assert a + b == a;
    } else {
      var n := |b| - 1;
      AfterConcat(s, a, b[..n]);
      assert (a + b)[..|a| + n] == a + b[..n];
    }
  }

  /** Up to one TTL ahead, a further message is possible exactly from an open state. */
  lemma OpenExactly(setting: int, actions: seq<Action>, limit: nat)
    requires limit <= Run(setting, actions).shared.now + GuardTtl(setting)
    ensures FurtherPossible(setting, actions, limit) <==> Open(Run(setting, actions), limit)
  {
    var s := Run(setting, actions);
    AfterKeeps(Initial(setting), actions);
    if Open(s, limit) {
      var more, x := OpenIsReached(Initial(setting), actions, limit);
      assert FurtherBefore(setting, actions, actions + more, |s.shared.accepted|, limit);
    } else {
      NotOpenIsClosed(s, limit);
      forall more, k ensures !FurtherBefore(setting, actions, actions + more, k, limit) {
        ClosedForGood(s, more, limit);
        AfterConcat(Initial(setting), actions, more);
      }
    }
  }

  /**
   After any run with an accepted reply, another reply can still be accepted within one TTL of it if and
   only if that TTL is not over and some worker stalls between its claim and its send, or is about to
   give a live claim back, or the key becomes free before the TTL is over.
   */
  lemma SecondReplyExactly(setting: int, actions: seq<Action>, j: nat)
    requires j < |Run(setting, actions).shared.accepted|
    ensures var limit := Run(setting, actions).shared.accepted[j].at + GuardTtl(setting);
            FurtherPossible(setting, actions, limit) <==> Open(Run(setting, actions), limit)
  {
    var s := Run(setting, actions);
    AfterKeeps(Initial(setting), actions);
    assert AcceptanceOk(s.shared, s.shared.accepted[j]);
    OpenExactly(setting, actions, s.shared.accepted[j].at + GuardTtl(setting));
  }

  lemma NotOpenIsClosed(s: State, limit: nat)
    requires !Open(s, limit)
    ensures Closed(s, limit)
  {
    if s.shared.now < limit {
      forall w | 0 <= w < |s.workers| ensures !HoldsUnsent(s.workers[w]) && NeverReopens(s.shared, s.workers[w]) {
        assert !WillReopen(s.shared, s.workers[w]);
      }
    }
  }

  /**
   A worker that still owns the key and reaches its completion closes it for a full TTL from then on,
   whether the message was accepted, its fate is unknown, or it was revoked before the send.
   */
  lemma CompletionCloses(g: Shared, t: Token, o: Oracle)
    requires Owns(g, t) && g.ttl > 0 && (o.applied || o.answered)
    ensures var h := Step(g, Finishing(t, false), o).shared;
            t in h.recorded && h.recorded[t] == g.now && FreeAt(h) == g.now + g.ttl && Live(h)
    ensures !o.delivery.Rejected? && o.answered ==> Step(g, Sending(t), o).pc == Finishing(t, false)
    ensures o.revoked ==> Step(g, Guarded(t), o).pc == Finishing(t, false)
  {}

  /** Worker w is about to record a completion under the key it still owns. */
  predicate Completing(s: State, w: nat) {
    && w < |s.workers| && s.workers[w].Finishing? && !s.workers[w].reopen && Owns(s.shared, s.workers[w].token)
  }

  lemma AfterCompletion(s: State, w: nat, o: Oracle)
    requires Completing(s, w) && s.shared.ttl > 0 && (o.applied || o.answered)
    ensures var h := Apply(s, Work(w, o));
            && h.shared.now == s.shared.now && h.shared.ttl == s.shared.ttl && h.shared.accepted == s.shared.accepted
            && (Open(h, s.shared.now + s.shared.ttl) <==> exists v :: 0 <= v < |s.workers| && HoldsUnsent(s.workers[v]))
  {
    var h := Apply(s, Work(w, o));
    CompletionCloses(s.shared, s.workers[w].token, o);
    assert h.workers == s.workers[w := Returned];
    if v :| 0 <= v < |s.workers| && HoldsUnsent(s.workers[v]) { assert HoldsUnsent(h.workers[v]); }
    if Open(h, s.shared.now + s.shared.ttl) {
      var v :| 0 <= v < |h.workers| && (HoldsUnsent(h.workers[v]) || WillReopen(h.shared, h.workers[v]));
      assert HoldsUnsent(s.workers[v]);
    }
  }

  /**
   Once a completion takes effect in a run, a further message can be accepted within a TTL from then if
   and only if some worker still holds an earlier claim that it has not sent under.
   */
  lemma CompletionShutsExactly(setting: int, actions: seq<Action>, w: nat, o: Oracle)
    requires Completing(Run(setting, actions), w) && (o.applied || o.answered)
    ensures var s := Run(setting, actions);
            FurtherPossible(setting, actions + [Work(w, o)], s.shared.now + GuardTtl(setting))
            <==> exists v :: 0 <= v < |s.workers| && HoldsUnsent(s.workers[v])
  {
    var s := Run(setting, actions);
    Then(Initial(setting), actions, Work(w, o));
    AfterKeeps(Initial(setting), actions);
    AfterCompletion(s, w, o);
    OpenExactly(setting, actions + [Work(w, o)], s.shared.now + GuardTtl(setting));
  }

  // ---------- A run with two replies at one moment ----------

  /** A worker claims and stalls; its record expires. */
  function Stall(): seq<Action> {
    [Deliver] + [Work(0, ACCEPTED)] + [Work(0, ACCEPTED)] + [Tick(60)]
  }

  lemma AfterStall()
    ensures Run(60, Stall())
         == State(Shared(60, 60, Some(Record(Processing(0), 60)), [0], {}, map[], []), [Guarded(0)])
  {
    var p1 := [Deliver];
    var p2 := p1 + [Work(0, ACCEPTED)];
    var p3 := p2 + [Work(0, ACCEPTED)];
    assert [] + p1 == p1;
    Then(Initial(60), [], Deliver);
    Then(Initial(60), p1, Work(0, ACCEPTED));
    assert Run(60, p2) == State(Initial(60).shared, [Claiming]);
    Then(Initial(60), p2, Work(0, ACCEPTED));
    assert Claim(Initial(60).shared) == Shared(60, 0, Some(Record(Processing(0), 60)), [0], {}, map[], []);
    Then(Initial(60), p3, Tick(60));
  }

  /** A second one claims. */
  function Second(): seq<Action> {
    Stall() + [Deliver] + [Work(1, ACCEPTED)] + [Work(1, ACCEPTED)]
  }

  lemma AfterSecond()
    ensures Run(60, Second())
         == State(Shared(60, 60, Some(Record(Processing(1), 120)), [0, 60], {}, map[], []), [Guarded(0), Guarded(1)])
  {
    var p1 := Stall() + [Deliver];
    var p2 := p1 + [Work(1, ACCEPTED)];
    AfterStall();
    Then(Initial(60), Stall(), Deliver);
    assert Run(60, p1).workers == [Guarded(0), Start];
    Then(Initial(60), p1, Work(1, ACCEPTED));
    assert Run(60, p2) == State(Run(60, Stall()).shared, [Guarded(0), Claiming]);
    Then(Initial(60), p2, Work(1, ACCEPTED));
    assert !Live(Run(60, p2).shared);
  }

  /** It sends. */
  function Stalled(): seq<Action> {
    Second() + [Work(1, ACCEPTED)] + [Work(1, ACCEPTED)]
  }

  lemma AfterStalled()
    ensures var s := Run(60, Stalled());
            && s.shared.now == 60 && s.shared.accepted == [Acceptance(1, 60)]
            && |s.workers| == 2 && s.workers[0] == Guarded(0)
  {
    AfterSecond();
    Then(Initial(60), Second(), Work(1, ACCEPTED));
    assert Run(60, Second() + [Work(1, ACCEPTED)]) == State(Run(60, Second()).shared, [Guarded(0), Sending(1)]);
    Then(Initial(60), Second() + [Work(1, ACCEPTED)], Work(1, ACCEPTED));
  }

  /** Then the first one sends too, at the same moment. */
  lemma TwoRepliesAtOnce()
    ensures exists actions: seq<Action> ::
              |Run(60, actions).shared.accepted| == 2
              && Run(60, actions).shared.accepted[0].at == Run(60, actions).shared.accepted[1].at
  {
    AfterStalled();
    var more, x := SendNow(Initial(60), Stalled(), 0);
    assert |Run(60, Stalled() + more).shared.accepted| == 2;
  }
}
