/** No lost wakeup: in a calm environment queued work is never stranded, and no drive ever breaks off. */
module InboundWakeup {
  import opened Prelude
  import opened QueueScripts
  import opened InboundProtocol
  import opened InboundInvariant
  import opened InboundReservation
  import opened InboundClaims
  import opened InboundExactlyOnce
  import opened InboundHistory
  import opened InboundAwake

  // ---------- Which expiries do no harm ----------

  /** The worker still has to bring this id's claimed item to the queue under its live record. */
  predicate Bears(g: Shared, pc: Pc, id: MessageId) {
    pc.Claimed? && pc.item.messageId == Some(id) && ClaimLive(g.db.claims, pc.item)
  }

  /** The worker has recorded this id's completion and not acknowledged the item yet. */
  predicate Confirms(pc: Pc, id: MessageId) {
    AtAck(pc) && Tracked(pc.todo[0]) && pc.todo[0].messageId == Some(id)
  }

  /** The record that expires is not one between a claim and its push or a completion and its acknowledgement. */
  ghost predicate Harmless(s: State, a: Action) {
    a.ClaimExpires? ==>
      forall v :: 0 <= v < |s.workers| ==>
        !Bears(s.shared, s.workers[v], a.id) && !Confirms(s.workers[v], a.id)
  }

  ghost predicate HarmlessRun(limit: nat, actions: seq<Action>) {
    CalmRun(actions) && forall k :: 0 <= k < |actions| ==> Harmless(At(limit, actions, k), actions[k])
  }

  // ---------- What such runs keep ----------

  /** Nothing claimed was enqueued without its live claim. */
  ghost predicate QueueGuarded(g: Shared) {
    forall x :: x in Queued(g.db) && x.claim.Some? ==> Guarded(g, x)
  }

  /** A claim not yet enqueued is live, and an acknowledgement will find the completion. */
  predicate Backing(g: Shared, pc: Pc) {
    && (pc.Claimed? && pc.item.claim.Some? ==> ClaimLive(g.db.claims, pc.item))
    && (AtAck(pc) && Tracked(pc.todo[0]) ==> ReadsCompleted(g, pc.todo[0].messageId.value))
  }

  ghost predicate Sound(s: State) {
    QueueGuarded(s.shared) && forall v :: 0 <= v < |s.workers| ==> Backing(s.shared, s.workers[v])
  }

  lemma SoundIsConfirmed(s: State, a: Action)
    requires Sound(s)
    ensures !Unconfirmed(s, a)
  {
    if a.Work? && a.worker < |s.workers| { assert Backing(s.shared, s.workers[a.worker]); }
  }

  /** The item whose claim record a command may change under the record's own token. */
  predicate Spares(c: Command, t: Token) {
    match c
    case Push(item) => item.claim != Some(t)
    case PutBack(item) => item.claim != Some(t)
    case ReleaseId(item) => item.claim != Some(t)
    case CompleteId(item) => item.claim != Some(t)
    case _ => true
  }

  /** A live claim survives every command that does not carry its token. */
  lemma ClaimSurvives(g: Shared, c: Command, item: Item)
    requires ClaimLive(g.db.claims, item) && Spares(c, item.claim.value)
    ensures ClaimLive(Execute(g, c).db.claims, item)
  {
    match c
    case Push(y) => assert Execute(g, c).db.claims == Persist(g.db.claims, y);
    case PutBack(y) => assert Execute(g, c).db.claims == Persist(g.db.claims, y) || Execute(g, c) == g;
    case _ =>
  }

  /** What a command of worker w leaves of another worker's backing. */
  lemma OthersBacked(s: State, w: nat, c: Command, v: nat)
    requires w < |s.workers| && v < |s.workers| && v != w
    requires Reserved(s) && AllClaims(s) && IssuedBy(s.shared, s.workers[w], c)
    requires Backing(s.shared, s.workers[v]) && !c.ReleaseId? && !c.PutBack?
    ensures Backing(Execute(s.shared, c), s.workers[v])
  {
    var g, pc := s.shared, s.workers[v];
    if pc.Claimed? && pc.item.claim.Some? {
      assert WorkerClaims(g, pc) && Bearing(pc) == pc.item.claim;
      assert Bearing(pc) != Bearing(s.workers[w]);
      if c.CompleteId? { assert c.item in Queued(g.db); }
      ClaimSurvives(g, c, pc.item);
    }
    if AtAck(pc) && Tracked(pc.todo[0]) { CommandKeepsCompleted(g, c, pc.todo[0].messageId.value); }
  }

  /** A completion finds the claim of its item live, so it is recorded. */
  lemma CompletesOwn(g: Shared, pc: Pc)
    requires ClaimsOk(g) && QueueGuarded(g) && WorkerOk(g, pc) && WorkerClaims(g, pc)
    requires pc.Driving? && pc.phase.Complete? && pc.todo != []
    ensures Backing(Execute(g, CompleteId(pc.todo[0])), pc.(phase := Ack))
  {
    var x := pc.todo[0];
    assert x in Held(pc) && x in Unfinished(pc);
    HeldIsQueued(g, pc, x);
    if Tracked(x) { assert RecordedFor(g, x); }
  }

  lemma ArrivedBacked(g: Shared, webhook: Item)
    ensures var n := ClaimStep(g, webhook); Backing(Execute(g, n.command), n.pc)
  {}

  /** Only a recorded completion leads to an acknowledgement. */
  lemma DriveNotAtAck(g: Shared, pc: Pc, o: Oracle)
    requires pc.Driving? && !pc.phase.Complete? && Shaped(pc)
    ensures var n := DriveStep(g, pc, o); !AtAck(n.pc) && !n.pc.Claimed?
  {
    match pc.phase
    case Ack => AfterAckShape(pc.token, pc.todo[1..], pc.rest, pc.single);
    case _ =>
  }

  lemma OwnBacked(g: Shared, pc: Pc, o: Oracle)
    requires ClaimsOk(g) && QueueGuarded(g) && WorkerOk(g, pc) && WorkerClaims(g, pc)
    ensures Backing(Execute(g, WorkerStep(g, pc, o).command), WorkerStep(g, pc, o).pc)
  {
    match pc
    case Arrived(webhook) => ArrivedBacked(g, webhook);
    case Driving(_, phase, _, _, _, _, _) =>
      if phase.Complete? { CompletesOwn(g, pc); } else { DriveNotAtAck(g, pc, o); }
    case _ =>
  }

  lemma PushGuards(g: Shared, pc: Pc)
    requires QueueGuarded(g) && pc.Claimed? && Backing(g, pc)
    ensures QueueGuarded(Execute(g, Push(pc.item)))
  {
    PushAdds(g, pc.item);
  }

  lemma QuietGuards(g: Shared, c: Command)
    requires QueueGuarded(g) && !c.Push?
    ensures QueueGuarded(Execute(g, c))
  {
    QuietAdds(g, c);
  }

  lemma CommandGuards(g: Shared, pc: Pc, c: Command)
    requires QueueGuarded(g) && Backing(g, pc) && IssuedBy(g, pc, c)
    ensures QueueGuarded(Execute(g, c))
  {
    if c.Push? { PushGuards(g, pc); } else { QuietGuards(g, c); }
  }

  /** A smooth worker gives no claim and no item back. */
  lemma SmoothCommand(g: Shared, pc: Pc, o: Oracle)
    requires Smooth(pc)
    ensures var c := WorkerStep(g, pc, o).command; !c.ReleaseId? && !c.PutBack?
  {}

  lemma InstallSound(s: State, w: nat, c: Command, pc': Pc)
    requires Reserved(s) && AllClaims(s) && Sound(s) && w < |s.workers|
    requires IssuedBy(s.shared, s.workers[w], c) && !c.ReleaseId? && !c.PutBack?
    requires Backing(Execute(s.shared, c), pc')
    ensures Sound(State(Execute(s.shared, c), s.workers[w := pc']))
  {
    assert Backing(s.shared, s.workers[w]);
    CommandGuards(s.shared, s.workers[w], c);
    forall v | 0 <= v < |s.workers| && v != w ensures Backing(Execute(s.shared, c), s.workers[v]) {
      assert Backing(s.shared, s.workers[v]);
      OthersBacked(s, w, c, v);
    }
  }

  lemma WorkSound(s: State, w: nat, o: Oracle)
    requires Reserved(s) && AllClaims(s) && AllSmooth(s) && Sound(s) && w < |s.workers|
    ensures Sound(Apply(s, Work(w, o)))
  {
    var g, pc := s.shared, s.workers[w];
    assert WorkerOk(g, pc) && WorkerClaims(g, pc) && Smooth(pc);
    StepIssued(g, pc, o);
    OwnBacked(g, pc, o);
    SmoothCommand(g, pc, o);
    InstallSound(s, w, WorkerStep(g, pc, o).command, WorkerStep(g, pc, o).pc);
  }

  lemma ExpirySound(s: State, id: MessageId)
    requires Sound(s) && Harmless(s, ClaimExpires(id))
    ensures Sound(Apply(s, ClaimExpires(id)))
  {
    forall v | 0 <= v < |s.workers| ensures Backing(Apply(s, ClaimExpires(id)).shared, s.workers[v]) {
      assert Backing(s.shared, s.workers[v]);
      assert !Bears(s.shared, s.workers[v], id) && !Confirms(s.workers[v], id);
    }
  }

  lemma StepSound(s: State, a: Action)
    requires Reserved(s) && AllClaims(s) && AllSmooth(s) && Sound(s) && Calm(a) && Harmless(s, a)
    ensures Sound(Apply(s, a))
  {
    match a
    case Work(w, o) => if w < |s.workers| { WorkSound(s, w, o); }
    case ClaimExpires(id) => ExpirySound(s, id);
    case Deliver(_) =>
  }

  lemma HarmlessFront(limit: nat, actions: seq<Action>)
    requires HarmlessRun(limit, actions) && actions != []
    ensures HarmlessRun(limit, actions[..|actions| - 1])
    ensures Harmless(Run(limit, actions[..|actions| - 1]), actions[|actions| - 1])
  {
    var past := actions[..|actions| - 1];
    assert Harmless(At(limit, actions, |past|), actions[|past|]);
    forall k | 0 <= k < |past| ensures Harmless(At(limit, past, k), past[k]) {
      assert past[..k] == actions[..k];
      assert Harmless(At(limit, actions, k), actions[k]);
    }
  }

  lemma {:induction false} HarmlessRunSound(limit: nat, actions: seq<Action>)
    requires HarmlessRun(limit, actions)
    ensures Sound(Run(limit, actions)) && CleanRun(limit, actions)
  {
    if actions != [] {
      var past, last := actions[..|actions| - 1], actions[|actions| - 1];
      HarmlessFront(limit, actions);
      HarmlessRunSound(limit, past);
      CleanRunAwake(limit, past);
      AfterClaims(Initial(limit), past);
      StepSound(Run(limit, past), last);
      SoundIsConfirmed(Run(limit, past), last);
      CleanOneMore(limit, actions);
    }
  }

  // ---------- Main result ----------

  /**
   No lost wakeup: after every run in a calm environment whose expiries do no harm, pending work means
   that some worker is about to compete for the lock or to recheck the queue, or is driving under the
   live lock. So when every worker has returned, or has not enqueued yet, nothing is pending or in
   flight and every accepted item is settled. And no step of the run broke a drive off.
   */
  lemma NoLostWakeup(limit: nat, actions: seq<Action>)
    requires HarmlessRun(limit, actions)
    ensures var s := Run(limit, actions);
            && (s.shared.db.pending != [] ==> Attended(s))
            && (AllInactive(s) ==> AllSettled(s.shared))
            && (forall v :: 0 <= v < |s.workers| ==> !Broken(s.workers[v]))
  {
    HarmlessRunSound(limit, actions);
    CleanRunAttends(limit, actions);
    CleanRunAwake(limit, actions);
  }
}
