/** What the guard keeps in every run: spaced claims, spaced recordings, one message per claim. */
module ReplyOnce {
  import opened Prelude
  import opened ReplyGuard

  lemma ClaimKeeps(g: Shared)
    requires SharedOk(g) && !Live(g)
    ensures SharedOk(Claim(g)) && WorkerOk(Claim(g), Guarded(|g.claimedAt|))
  {
    var h := Claim(g);
    assert forall a :: 0 <= a < |g.claimedAt| ==> h.claimedAt[a] == g.claimedAt[a];
    assert Spaced(h) && RecordsSpaced(h);
    forall i | 0 <= i < |h.accepted| ensures AcceptanceOk(h, h.accepted[i]) { assert AcceptanceOk(g, g.accepted[i]); }
  }

  lemma CompleteKeeps(g: Shared, t: Token)
    requires SharedOk(g) && t !in g.reopened
    ensures SharedOk(Complete(g, t))
  {
    var h := Complete(g, t);
    forall i | 0 <= i < |h.accepted| ensures AcceptanceOk(h, h.accepted[i]) { assert AcceptanceOk(g, g.accepted[i]); }
    assert Spaced(h) && Protected(h) && RecordsSpaced(h) && RecordsProtected(h);
  }

  lemma ReleaseKeeps(g: Shared, t: Token)
    requires SharedOk(g) && Unsent(g, t)
    ensures SharedOk(Release(g, t))
  {
    var h := Release(g, t);
    if Owns(g, t) {
      assert g.claimedAt[t] <= g.now;
      forall i | 0 <= i < |h.accepted| ensures AcceptanceOk(h, h.accepted[i]) { assert AcceptanceOk(g, g.accepted[i]); }
      assert Protected(h) && Spaced(h) && RecordsProtected(h) && RecordsSpaced(h);
    }
  }

  lemma AcceptKeeps(g: Shared, t: Token)
    requires SharedOk(g) && WorkerOk(g, Sending(t))
    ensures SharedOk(g.(accepted := g.accepted + [Acceptance(t, g.now)]))
  {
    var h := g.(accepted := g.accepted + [Acceptance(t, g.now)]);
    forall i | 0 <= i < |h.accepted| ensures AcceptanceOk(h, h.accepted[i]) {
      if i < |g.accepted| { assert AcceptanceOk(g, g.accepted[i]); }
    }
    assert Spaced(h) && Protected(h) && RecordsSpaced(h) && RecordsProtected(h);
  }

  lemma TickKeeps(g: Shared, d: nat)
    requires SharedOk(g)
    ensures SharedOk(g.(now := g.now + d))
  {
    var h := g.(now := g.now + d);
    forall i | 0 <= i < |h.accepted| ensures AcceptanceOk(h, h.accepted[i]) { assert AcceptanceOk(g, g.accepted[i]); }
    assert Spaced(h) && Protected(h) && RecordsSpaced(h) && RecordsProtected(h);
  }

  lemma StepKeepsShared(g: Shared, pc: Pc, o: Oracle)
    requires SharedOk(g) && WorkerOk(g, pc)
    ensures SharedOk(Step(g, pc, o).shared)
    ensures WorkerOk(Step(g, pc, o).shared, Step(g, pc, o).pc)
  {
    match pc
    case Claiming => if !Live(g) { ClaimKeeps(g); }
    case Sending(t) => AcceptKeeps(g, t);
    case Finishing(t, reopen) =>
      CompleteKeeps(g, t);
      if reopen { ReleaseKeeps(g, t); }
    case _ =>
  }

  /** A step touches only claims of its own token or a new one. */
  lemma StepKeepsOthers(g: Shared, pc: Pc, o: Oracle, other: Pc)
    requires SharedOk(g) && WorkerOk(g, pc) && WorkerOk(g, other)
    requires TokenOf(other).Some? ==> TokenOf(pc) != TokenOf(other)
    ensures WorkerOk(Step(g, pc, o).shared, other)
    ensures TokenOf(other).Some? ==> TokenOf(Step(g, pc, o).pc) != TokenOf(other)
  {}

  lemma WorkKeeps(s: State, w: nat, n: Next)
    requires Invariant(s) && w < |s.workers|
    requires SharedOk(n.shared) && WorkerOk(n.shared, n.pc)
    requires forall v :: 0 <= v < |s.workers| && v != w ==>
               WorkerOk(n.shared, s.workers[v])
               && (TokenOf(s.workers[v]).Some? ==> TokenOf(n.pc) != TokenOf(s.workers[v]))
    ensures Invariant(State(n.shared, s.workers[w := n.pc]))
  {}

  lemma ApplyKeeps(s: State, a: Action)
    requires Invariant(s)
    ensures Invariant(Apply(s, a))
  {
    match a
    case Deliver =>
    case Crash(w) =>
    case Tick(d) =>
      TickKeeps(s.shared, d);
      forall v | 0 <= v < |s.workers| ensures WorkerOk(Apply(s, a).shared, s.workers[v]) {
        assert WorkerOk(s.shared, s.workers[v]);
      }
    case Work(w, o) =>
      if w < |s.workers| {
        var n := Step(s.shared, s.workers[w], o);
        StepKeepsShared(s.shared, s.workers[w], o);
        forall v | 0 <= v < |s.workers| && v != w
          ensures WorkerOk(n.shared, s.workers[v])
                  && (TokenOf(s.workers[v]).Some? ==> TokenOf(n.pc) != TokenOf(s.workers[v]))
        {
          StepKeepsOthers(s.shared, s.workers[w], o, s.workers[v]);
        }
        WorkKeeps(s, w, n);
      }
  }

  lemma {:induction false} AfterKeeps(s: State, actions: seq<Action>)
    requires Invariant(s)
    ensures Invariant(After(s, actions)) && After(s, actions).shared.ttl == s.shared.ttl
    ensures After(s, actions).shared.now >= s.shared.now
  {
    if actions != [] {
      AfterKeeps(s, actions[..|actions| - 1]);
      ApplyKeeps(After(s, actions[..|actions| - 1]), actions[|actions| - 1]);
    }
  }

  // ---------- Results over all runs ----------

  /**
   In every run two accepted messages belong to different claims, neither given back, and the later
   claim comes at least one guard TTL after the earlier one. If the earlier claim's completion was
   recorded, the later claim, and so its message, comes a TTL after the recording and after the earlier
   message.
   */
  lemma AtMostOnceReply(setting: int, actions: seq<Action>, i: nat, j: nat)
    requires i < |Run(setting, actions).shared.accepted| && j < |Run(setting, actions).shared.accepted| && i != j
    requires Run(setting, actions).shared.accepted[i].token <= Run(setting, actions).shared.accepted[j].token
    ensures var g := Run(setting, actions).shared;
            var a, b := g.accepted[i].token, g.accepted[j].token;
            && a < b < |g.claimedAt| && a !in g.reopened && b !in g.reopened
            && g.claimedAt[b] >= g.claimedAt[a] + GuardTtl(setting)
            && (a in g.recorded ==>
                  && g.claimedAt[b] >= g.recorded[a] + GuardTtl(setting)
                  && g.accepted[j].at >= g.accepted[i].at + GuardTtl(setting))
  {
    AfterKeeps(Initial(setting), actions);
    var g := Run(setting, actions).shared;
    assert AcceptanceOk(g, g.accepted[i]) && AcceptanceOk(g, g.accepted[j]);
  }

  /** Before the TTL has passed once, the provider has accepted at most one reply. */
  lemma OneReplyWithinTtl(setting: int, actions: seq<Action>)
    requires Run(setting, actions).shared.now < 60 || Run(setting, actions).shared.now < setting
    ensures |Run(setting, actions).shared.accepted| <= 1
  {
    AfterKeeps(Initial(setting), actions);
    var g := Run(setting, actions).shared;
    if |g.accepted| >= 2 {
      if g.accepted[0].token <= g.accepted[1].token { AtMostOnceReply(setting, actions, 0, 1); }
      else { AtMostOnceReply(setting, actions, 1, 0); }
    }
  }

  /** A second claim sooner than a TTL after an earlier one means that one ended in a definite rejection. */
  lemma OnlyRejectionReopens(setting: int, actions: seq<Action>, a: Token, b: Token)
    requires a < b < |Run(setting, actions).shared.claimedAt|
    requires Run(setting, actions).shared.claimedAt[b] < Run(setting, actions).shared.claimedAt[a] + GuardTtl(setting)
    ensures a in Run(setting, actions).shared.reopened && Unsent(Run(setting, actions).shared, a)
  {
    AfterKeeps(Initial(setting), actions);
    var g := Run(setting, actions).shared;
    forall i | 0 <= i < |g.accepted| ensures g.accepted[i].token != a { assert AcceptanceOk(g, g.accepted[i]); }
  }

  /**
   An accepted reply keeps the guard closed for a TTL from its claim, and a recorded completion for a
   TTL from its recording; until then its claim is the last one.
   */
  lemma AcceptedReplyBlocks(setting: int, actions: seq<Action>, i: nat)
    requires i < |Run(setting, actions).shared.accepted|
    ensures var g := Run(setting, actions).shared;
            var t := g.accepted[i].token;
            && t < |g.claimedAt|
            && (g.now < g.claimedAt[t] + g.ttl || (t in g.recorded && g.now < g.recorded[t] + g.ttl) ==>
                  Live(g) && t == |g.claimedAt| - 1)
  {
    AfterKeeps(Initial(setting), actions);
    var g := Run(setting, actions).shared;
    assert AcceptanceOk(g, g.accepted[i]);
    assert g.claimedAt[|g.claimedAt| - 1] <= g.now;
  }

  /** A definite rejection, once recorded by the claim's own token, lets the next worker claim and send. */
  lemma RejectionLetsRetry(g: Shared, t: Token, rejected: Oracle, next: Oracle)
    requires Owns(g, t) && rejected.delivery.Rejected? && rejected.answered && next.answered
    ensures var sent := Step(g, Sending(t), rejected);
            var finished := Step(sent.shared, sent.pc, rejected);
            finished.shared.accepted == g.accepted
            && Step(finished.shared, Claiming, next).pc == Guarded(|g.claimedAt|)
  {}

  // ---------- One delivery alone ----------

  /** One more step of a worker that is alone. */
  function Taken(n: Next, o: Oracle): Next {
    Step(n.shared, n.pc, o)
  }

  /**
   Undisturbed, with the key free, a reply that is not revoked is claimed, sent, accepted once, and the
   key then reads completed for a TTL.
   */
  lemma DeliveryCompletes(g: Shared, o: Oracle)
    requires !Live(g) && g.ttl > 0 && !o.revoked && o.answered && o.delivery.Delivered?
    ensures var t := |g.claimedAt|;
            var end := Taken(Taken(Taken(Taken(Step(g, Start, o), o), o), o), o);
            && end.pc == Returned
            && end.shared.accepted == g.accepted + [Acceptance(t, g.now)]
            && end.shared.claimedAt == g.claimedAt + [g.now]
            && end.shared.guard == Some(Record(Completed, g.now + g.ttl))
            && t in end.shared.recorded && end.shared.reopened == g.reopened
  {
    var t := |g.claimedAt|;
    var claimed := Claim(g);
    var sent := claimed.(accepted := g.accepted + [Acceptance(t, g.now)]);
    assert Step(g, Start, o) == Next(g, Claiming);
    assert Step(g, Claiming, o) == Next(claimed, Guarded(t));
    assert Step(claimed, Guarded(t), o) == Next(claimed, Sending(t));
    assert Step(claimed, Sending(t), o) == Next(sent, Finishing(t, false));
    assert Owns(sent, t);
    assert Step(sent, Finishing(t, false), o) == Next(Complete(sent, t), Returned);
  }

  /** While the key is live, and after a revocation, nothing is sent and nothing else changes. */
  lemma SuppressedSendsNothing(g: Shared, o: Oracle)
    ensures Live(g) ==> Step(g, Claiming, o) == Next(g, Returned)
    ensures o.revoked ==> Step(g, Start, o) == Next(g, Returned)
    ensures o.revoked ==> forall t :: Step(g, Guarded(t), o) == Next(g, Finishing(t, false))
  {}

  /**
   After the send: accepted or not, an outcome that is not a definite rejection goes on to complete the
   key, a rejection to release it, and a worker that is gone does neither.
   */
  lemma AfterSending(g: Shared, t: Token, o: Oracle)
    ensures var n := Step(g, Sending(t), o);
            && n.shared == (if o.delivery.Delivered? || (o.delivery.Uncertain? && o.delivery.accepted)
                            then g.(accepted := g.accepted + [Acceptance(t, g.now)]) else g)
            && n.pc == if !o.answered then Returned
                       else if o.delivery.Rejected? then Finishing(t, true) else Finishing(t, false)
  {}
}
