/** Exactly when queued work is stranded although the environment is calm: a claim record expired too early. */
module InboundStranded {
  import opened Prelude
  import opened QueueScripts
  import opened InboundProtocol
  import opened InboundInvariant
  import opened InboundHistory
  import opened InboundAwake

  // ---------- Whether a completion stands ----------

  /** Step m records a completion of this id, under the token its key holds at that moment. */
  predicate CompletesId(limit: nat, actions: seq<Action>, m: nat, id: MessageId) {
    && m < |actions|
    && var c := Issued(At(limit, actions, m), actions[m]);
       c.CompleteId? && c.item.messageId == Some(id) && ClaimLive(At(limit, actions, m).shared.db.claims, c.item)
  }

  /** Before step k some step completed this id, and the id's record has not expired since. */
  ghost predicate Stands(limit: nat, actions: seq<Action>, k: nat, id: MessageId)
    requires k <= |actions|
  {
    exists m: nat :: m < k && CompletesId(limit, actions, m, id)
                     && forall e :: m < e < k ==> actions[e] != ClaimExpires(id)
  }

  lemma OneStepCompletes(limit: nat, actions: seq<Action>, k: nat, id: MessageId)
    requires k < |actions|
    ensures ReadsCompleted(At(limit, actions, k + 1).shared, id)
       <==> CompletesId(limit, actions, k, id)
            || (ReadsCompleted(At(limit, actions, k).shared, id) && actions[k] != ClaimExpires(id))
  {
    var s, a := At(limit, actions, k), actions[k];
    NextState(limit, actions, k);
    SharedAfter(s, a);
    if ReadsCompleted(s.shared, id) { CommandKeepsCompleted(s.shared, Issued(s, a), id); }
    else { NewlyCompleted(s.shared, Issued(s, a), id); }
  }

  lemma NewlyCompleted(g: Shared, c: Command, id: MessageId)
    requires !ReadsCompleted(g, id)
    ensures ReadsCompleted(Execute(g, c), id)
       <==> c.CompleteId? && c.item.messageId == Some(id) && ClaimLive(g.db.claims, c.item)
  {
    match c
    case Push(item) => assert Execute(g, c).db.claims == Persist(g.db.claims, item);
    case PutBack(item) => assert Execute(g, c).db.claims == Persist(g.db.claims, item) || Execute(g, c) == g;
    case _ =>
  }

  /** In any run at all, a key reads completed exactly while a completion stands. */
  lemma {:induction false} StandsExactly(limit: nat, actions: seq<Action>, k: nat, id: MessageId)
    requires k <= |actions|
    ensures ReadsCompleted(At(limit, actions, k).shared, id) <==> Stands(limit, actions, k, id)
    decreases k
  {
    if k == 0 {
      assert actions[..0] == [];
    } else {
      StandsExactly(limit, actions, k - 1, id);
      OneStepCompletes(limit, actions, k - 1, id);
      if CompletesId(limit, actions, k - 1, id) {
        assert Stands(limit, actions, k, id);
      } else if Stands(limit, actions, k - 1, id) && actions[k - 1] != ClaimExpires(id) {
        var m: nat :| m < k - 1 && CompletesId(limit, actions, m, id)
                      && forall e :: m < e < k - 1 ==> actions[e] != ClaimExpires(id);
        assert Stands(limit, actions, k, id);
      }
    }
  }

  // ---------- Stranded for good ----------

  /** Something is in flight and nobody will settle it or put it back. */
  ghost predicate Stuck(s: State) {
    && s.shared.db.inflight != []
    && forall v :: 0 <= v < |s.workers| && s.workers[v].Driving? ==> s.workers[v].phase.Release?
  }

  lemma StuckOutsider(g: Shared, pc: Pc, o: Oracle)
    requires g.db.inflight != [] && (pc.Driving? ==> pc.phase.Release?)
    ensures var n := WorkerStep(g, pc, o);
            !n.pc.Driving? && Execute(g, n.command).db.inflight == g.db.inflight
  {}

  lemma StuckStays(s: State, a: Action)
    requires Stuck(s) && Calm(a)
    ensures Stuck(Apply(s, a)) && !Unconfirmed(s, a)
  {
    if a.Work? && a.worker < |s.workers| { StuckOutsider(s.shared, s.workers[a.worker], a.oracle); }
  }

  /** A drive that cannot confirm its acknowledgement strands what it holds. */
  lemma UnconfirmedStrands(s: State, a: Action)
    requires Reserved(s) && AllSmooth(s) && Awake(s) && Calm(a) && Unconfirmed(s, a)
    ensures Stuck(Apply(s, a))
  {
    assert !NoDriver(s);
    var d: nat :| OneDriver(s, d);
    assert d == a.worker;
    BreaksExactly(s, d, a.oracle);
    var pc := s.workers[d];
    assert WorkerOk(s.shared, pc);
    assert pc.todo[0] in Held(pc);
    assert |multiset(s.shared.db.inflight)| == |s.shared.db.inflight|;
    assert Execute(s.shared, Remove(pc.todo[0])) == s.shared;
  }

  /** In a calm environment a run is clean, or it is stuck in the end. */
  lemma {:induction false} CleanOrStuck(limit: nat, actions: seq<Action>)
    requires CalmRun(actions)
    ensures CleanRun(limit, actions) || Stuck(Run(limit, actions))
  {
    if actions != [] {
      var past, last := actions[..|actions| - 1], actions[|actions| - 1];
      CleanOrStuck(limit, past);
      if !CleanRun(limit, past) {
        StuckStays(Run(limit, past), last);
      } else {
        CleanRunAwake(limit, past);
        if Unconfirmed(Run(limit, past), last) { UnconfirmedStrands(Run(limit, past), last); }
        else { CleanOneMore(limit, actions); }
      }
    }
  }

  // ---------- Main results ----------

  /** Step k acknowledges an item of this id, whose acknowledgement needs a completed record. */
  predicate Acknowledges(limit: nat, actions: seq<Action>, k: nat, id: MessageId) {
    && k < |actions|
    && var c := Issued(At(limit, actions, k), actions[k]);
       c.Remove? && Tracked(c.item) && c.item.messageId.value == id
  }

  /** Every acknowledgement of the run comes while a completion of its id stands. */
  ghost predicate AllConfirmed(limit: nat, actions: seq<Action>) {
    forall k: nat, id :: Acknowledges(limit, actions, k, id) ==> Stands(limit, actions, k, id)
  }

  lemma RemovesAtAck(s: State, a: Action)
    ensures Unconfirmed(s, a)
       <==> Issued(s, a).Remove? && Tracked(Issued(s, a).item)
            && !ReadsCompleted(s.shared, Issued(s, a).item.messageId.value)
  {}

  lemma ConfirmedExactly(limit: nat, actions: seq<Action>)
    requires CalmRun(actions)
    ensures CleanRun(limit, actions) <==> AllConfirmed(limit, actions)
  {
    if CleanRun(limit, actions) {
      forall k: nat, id | Acknowledges(limit, actions, k, id) ensures Stands(limit, actions, k, id) {
        assert Clean(At(limit, actions, k), actions[k]);
        RemovesAtAck(At(limit, actions, k), actions[k]);
        StandsExactly(limit, actions, k, id);
      }
    }
    if AllConfirmed(limit, actions) {
      forall k | 0 <= k < |actions| ensures Clean(At(limit, actions, k), actions[k]) {
        var s := At(limit, actions, k);
        RemovesAtAck(s, actions[k]);
        if Unconfirmed(s, actions[k]) {
          var id := Issued(s, actions[k]).item.messageId.value;
          assert Acknowledges(limit, actions, k, id);
          StandsExactly(limit, actions, k, id);
        }
      }
    }
  }

  /**
   In a calm environment in which claim records may expire at any moment, and with every worker
   returned or not enqueued yet: nothing is left pending or in flight and all accepted items are
   settled if and only if every acknowledgement of the run came while a completion of its id stood.
   */
  lemma SettledExactly(limit: nat, actions: seq<Action>)
    requires CalmRun(actions) && AllInactive(Run(limit, actions))
    ensures AllSettled(Run(limit, actions).shared) <==> AllConfirmed(limit, actions)
  {
    ConfirmedExactly(limit, actions);
    CleanOrStuck(limit, actions);
    if CleanRun(limit, actions) { CleanRunAttends(limit, actions); }
  }

  /** After an acknowledgement that was not confirmed the sender can never be claimed again. */
  lemma StrandedForGood(limit: nat, actions: seq<Action>, more: seq<Action>, newToken: Token)
    requires CalmRun(actions + more) && !AllConfirmed(limit, actions)
    ensures var db := Run(limit, actions + more).shared.db;
            db.inflight != [] && !ClaimSender(db, newToken).value.Granted?
  {
    forall k | 0 <= k < |actions| ensures Calm(actions[k]) { assert (actions + more)[k] == actions[k]; }
    ConfirmedExactly(limit, actions);
    var k :| 0 <= k < |actions| && !Clean(At(limit, actions, k), actions[k]);
    assert (actions + more)[..k] == actions[..k] && (actions + more)[k] == actions[k];
    assert !Clean(At(limit, actions + more, k), (actions + more)[k]);
    CleanOrStuck(limit, actions + more);
  }
}
