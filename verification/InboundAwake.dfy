/** While no drive breaks off, pending work always has somebody awake for it. */
module InboundAwake {
  import opened Prelude
  import opened QueueScripts
  import opened InboundProtocol
  import opened InboundInvariant
  import opened InboundReservation
  import opened InboundClaims
  import opened InboundExactlyOnce
  import opened InboundHistory

  // ---------- What the environment may do ----------

  /**
   An environment that delivers well-formed messages, whose store answers and whose turns are not
   retryable; no worker crashes or is interrupted and the lease is kept. Claim records may expire.
   */
  predicate Calm(a: Action) {
    match a
    case Deliver(webhook) => WellFormed(webhook)
    case Work(_, o) => o.storeOk && !o.retryable
    case ClaimExpires(_) => true
    case _ => false
  }

  predicate CalmRun(actions: seq<Action>) {
    forall k :: 0 <= k < |actions| ==> Calm(actions[k])
  }

  /** An item whose acknowledgement asks for a completed claim record. */
  predicate Tracked(item: Item) {
    item.messageId.Some? && item.claim.Some?
  }

  predicate AtAck(pc: Pc) {
    pc.Driving? && pc.phase.Ack? && pc.todo != []
  }

  /** The worker is about to acknowledge an item whose claim record does not read completed. */
  predicate Unconfirmed(s: State, a: Action) {
    a.Work? && a.worker < |s.workers| && AtAck(s.workers[a.worker])
    && var item := s.workers[a.worker].todo[0];
       Tracked(item) && !ReadsCompleted(s.shared, item.messageId.value)
  }

  predicate Clean(s: State, a: Action) {
    Calm(a) && !Unconfirmed(s, a)
  }

  ghost predicate CleanRun(limit: nat, actions: seq<Action>) {
    forall k :: 0 <= k < |actions| ==> Clean(At(limit, actions, k), actions[k])
  }

  // ---------- What a calm environment keeps ----------

  /** The worker brings only well-formed items, gives no claim back and puts nothing back. */
  predicate Smooth(pc: Pc) {
    match pc
    case Arrived(webhook) => WellFormed(webhook)
    case Claimed(item) => WellFormed(item)
    case Unclaim(_) => false
    case Driving(_, phase, _, _, _, _, _) => !phase.Requeue?
    case _ => true
  }

  ghost predicate AllSmooth(s: State) {
    && (forall x :: x in Queued(s.shared.db) ==> WellFormed(x))
    && (forall v :: 0 <= v < |s.workers| ==> Smooth(s.workers[v]))
  }

  lemma StepSmooth(g: Shared, pc: Pc, o: Oracle)
    requires Smooth(pc) && Shaped(pc) && o.storeOk && !o.retryable
    ensures Smooth(WorkerStep(g, pc, o).pc)
    ensures WorkerStep(g, pc, o).command.Push? ==> WellFormed(WorkerStep(g, pc, o).command.item)
  {
    if AtAck(pc) { AfterAckShape(pc.token, pc.todo[1..], pc.rest, pc.single); }
  }

  lemma CalmSmooth(s: State, a: Action)
    requires Reserved(s) && AllSmooth(s) && Calm(a)
    ensures AllSmooth(Apply(s, a))
  {
    SharedAfter(s, a);
    var c := Issued(s, a);
    if a.Work? && a.worker < |s.workers| {
      assert WorkerOk(s.shared, s.workers[a.worker]);
      StepSmooth(s.shared, s.workers[a.worker], a.oracle);
    }
    if c.Push? { PushAdds(s.shared, c.item); } else { QuietAdds(s.shared, c); }
  }

  // ---------- Drives ----------

  /** A drive that has failed, or answered with a retryable response, and is giving the lock back. */
  predicate Broken(pc: Pc) {
    pc.Driving? && pc.phase.Release? && !pc.phase.ending.Settled?
  }

  predicate Waiting(pc: Pc) {
    pc.WantLock? || pc.Recheck?
  }

  ghost predicate NoDriver(s: State) {
    && s.shared.db.lock.None? && s.shared.db.inflight == []
    && (forall v :: 0 <= v < |s.workers| ==> !s.workers[v].Driving?)
  }

  ghost predicate OneDriver(s: State, d: nat) {
    && d < |s.workers| && s.workers[d].Driving? && !Broken(s.workers[d])
    && s.shared.db.lock == Some(s.workers[d].token)
    && (Held(s.workers[d]) == [] ==> s.shared.db.inflight == [])
    && (forall v :: 0 <= v < |s.workers| && v != d ==> !s.workers[v].Driving?)
  }

  ghost predicate SomeoneWaits(s: State) {
    exists v :: 0 <= v < |s.workers| && Waiting(s.workers[v])
  }

  ghost predicate Awake(s: State) {
    && (NoDriver(s) || exists d: nat :: OneDriver(s, d))
    && (s.shared.db.pending != [] && s.shared.db.lock.None? ==> SomeoneWaits(s))
  }

  /** A drive ends settled only by finding nothing pending before it reserved anything. */
  lemma EndsSettled(g: Shared, pc: Pc, o: Oracle)
    requires pc.Driving? && WorkerOk(g, pc)
    ensures var n := DriveStep(g, pc, o);
            n.pc.Driving? && n.pc.phase == Release(Settled) ==>
              Held(pc) == [] && Execute(g, n.command).db.inflight == g.db.inflight
  {
    match pc.phase
    case Ack => AfterAckShape(pc.token, pc.todo[1..], pc.rest, pc.single);
    case _ =>
  }

  lemma OtherCommandsKeepLock(g: Shared, c: Command)
    requires !c.TakeLock? && !c.DropLock?
    ensures Execute(g, c).db.lock == g.db.lock
  {}

  lemma DriveCommand(g: Shared, pc: Pc, o: Oracle)
    requires pc.Driving? && !pc.phase.Release?
    ensures var c := DriveStep(g, pc, o).command; !c.TakeLock? && !c.DropLock?
  {}

  lemma DriverKeepsLock(g: Shared, pc: Pc, o: Oracle)
    requires pc.Driving? && Shaped(pc)
    ensures var n := DriveStep(g, pc, o);
            if pc.phase.Release? then n.command == DropLock(pc.token) && !n.pc.Driving?
                 && (pc.phase.ending.Settled? ==> n.pc == Recheck)
            else n.pc.Driving? && n.pc.token == pc.token && Execute(g, n.command).db.lock == g.db.lock
  {
    if !pc.phase.Release? {
      DriveCommand(g, pc, o);
      OtherCommandsKeepLock(g, DriveStep(g, pc, o).command);
    }
    if pc.phase.Ack? { AfterAckShape(pc.token, pc.todo[1..], pc.rest, pc.single); }
  }

  lemma EmptyHands(g: Shared, pc: Pc)
    requires WorkerOk(g, pc) && pc.Driving? && !pc.phase.Release? && g.db.lock == Some(pc.token) && Held(pc) == []
    ensures g.db.inflight == []
  {}

  /** A drive gives up its lock only with nothing in flight. */
  lemma DriverAdvances(g: Shared, pc: Pc, o: Oracle)
    requires pc.Driving? && WorkerOk(g, pc) && OneOwner(g) && !Broken(pc) && g.db.lock == Some(pc.token)
    requires Held(pc) == [] ==> g.db.inflight == []
    requires !Broken(DriveStep(g, pc, o).pc) && !pc.phase.Release?
    ensures var n := DriveStep(g, pc, o); var h := Execute(g, n.command);
            && n.pc.Driving? && n.pc.token == pc.token && h.db.lock == g.db.lock
            && (Held(n.pc) == [] ==> h.db.inflight == [])
  {
    var n := DriveStep(g, pc, o);
    DriverKeepsLock(g, pc, o);
    DriveLocal(g, pc, o);
    if n.pc.phase.Release? {
      EndsSettled(g, pc, o);
    } else if Held(n.pc) == [] {
      EmptyHands(Execute(g, n.command), n.pc);
    }
  }

  /** In a calm environment the driver breaks off exactly at an acknowledgement it cannot confirm. */
  lemma BreaksExactly(s: State, d: nat, o: Oracle)
    requires Reserved(s) && AllSmooth(s) && OneDriver(s, d) && Calm(Work(d, o))
    ensures Broken(WorkerStep(s.shared, s.workers[d], o).pc) <==> Unconfirmed(s, Work(d, o))
  {
    var g, pc := s.shared, s.workers[d];
    assert WorkerOk(g, pc);
    match pc.phase
    case Complete =>
      assert pc.todo[0] in Held(pc);
      HeldIsQueued(g, pc, pc.todo[0]);
    case Ack => AckBreaksExactly(g, pc);
    case _ => NeverBreaks(g, pc, o);
  }

  lemma AckBreaksExactly(g: Shared, pc: Pc)
    requires WorkerOk(g, pc) && AtAck(pc)
    ensures Broken(AckStep(g, pc).pc)
       <==> Tracked(pc.todo[0]) && !ReadsCompleted(g, pc.todo[0].messageId.value)
  {
    assert pc.todo[0] in Held(pc);
    HeldIsQueued(g, pc, pc.todo[0]);
    AfterAckShape(pc.token, pc.todo[1..], pc.rest, pc.single);
  }

  lemma NeverBreaks(g: Shared, pc: Pc, o: Oracle)
    requires WorkerOk(g, pc) && pc.Driving? && Smooth(pc) && !Broken(pc) && o.storeOk && !o.retryable
    requires !pc.phase.Complete? && !pc.phase.Ack? && g.db.lock == Some(pc.token)
    ensures !Broken(DriveStep(g, pc, o).pc)
  {}

  lemma DriverAwake(s: State, d: nat, o: Oracle)
    requires Reserved(s) && Awake(s) && OneDriver(s, d) && AllSmooth(s) && Clean(s, Work(d, o))
    ensures Awake(Apply(s, Work(d, o)))
  {
    var s' := Apply(s, Work(d, o));
    assert WorkerOk(s.shared, s.workers[d]);
    DriverKeepsLock(s.shared, s.workers[d], o);
    BreaksExactly(s, d, o);
    if s.workers[d].phase.Release? {
      assert Waiting(s'.workers[d]);
      assert NoDriver(s');
    } else {
      DriverAdvances(s.shared, s.workers[d], o);
      assert OneDriver(s', d);
    }
  }

  /** What a worker outside the drain does to the lock, the lists and the waiting set. */
  lemma OutsiderStep(g: Shared, pc: Pc, o: Oracle)
    requires !pc.Driving?
    ensures var n := WorkerStep(g, pc, o); var h := Execute(g, n.command);
            && h.db.inflight == g.db.inflight
            && (g.db.lock.Some? ==> h.db.lock == g.db.lock && !n.pc.Driving?)
            && (g.db.lock.None? && g.db.inflight == [] && pc.WantLock? ==>
                  n.pc.Driving? && h.db.lock == Some(n.pc.token) && !n.pc.phase.Release?)
            && (!pc.WantLock? ==> h.db.lock == g.db.lock && !n.pc.Driving?)
            && (h.db.pending != [] && (pc.Recheck? || h.db.pending != g.db.pending) ==> Waiting(n.pc))
  {}

  lemma OutsiderAwake(s: State, w: nat, o: Oracle)
    requires Reserved(s) && Awake(s) && w < |s.workers| && !s.workers[w].Driving?
    ensures Awake(Apply(s, Work(w, o)))
  {
    var s' := Apply(s, Work(w, o));
    OutsiderStep(s.shared, s.workers[w], o);
    if NoDriver(s) {
      if s.workers[w].WantLock? {
        assert OneDriver(s', w);
      } else {
        assert NoDriver(s');
        if s'.shared.db.pending != [] && !Waiting(s'.workers[w]) {
          var v :| 0 <= v < |s.workers| && Waiting(s.workers[v]);
          assert Waiting(s'.workers[v]);
        } else if Waiting(s'.workers[w]) {
          assert SomeoneWaits(s');
        }
      }
    } else {
      var d: nat :| OneDriver(s, d);
      assert OneDriver(s', d);
    }
  }

  lemma CleanAwake(s: State, a: Action)
    requires Reserved(s) && AllSmooth(s) && Awake(s) && Clean(s, a)
    ensures Awake(Apply(s, a))
  {
    var s' := Apply(s, a);
    if a.Work? && a.worker < |s.workers| {
      if s.workers[a.worker].Driving? {
        var d: nat :| OneDriver(s, d);
        assert d == a.worker;
        DriverAwake(s, d, a.oracle);
      } else {
        OutsiderAwake(s, a.worker, a.oracle);
      }
    } else {
      if NoDriver(s) {
        assert NoDriver(s');
        if s.shared.db.pending != [] {
          var v :| 0 <= v < |s.workers| && Waiting(s.workers[v]);
          assert Waiting(s'.workers[v]);
        }
      } else {
        var d: nat :| OneDriver(s, d);
        assert OneDriver(s', d);
      }
    }
  }

  /** The run without its last action. */
  lemma CleanFront(limit: nat, actions: seq<Action>)
    requires CleanRun(limit, actions) && actions != []
    ensures CleanRun(limit, actions[..|actions| - 1])
    ensures Clean(Run(limit, actions[..|actions| - 1]), actions[|actions| - 1])
  {
    var past := actions[..|actions| - 1];
    assert Clean(At(limit, actions, |past|), actions[|past|]);
    forall k | 0 <= k < |past| ensures Clean(At(limit, past, k), past[k]) {
      assert past[..k] == actions[..k];
      assert Clean(At(limit, actions, k), actions[k]);
    }
  }

  lemma CleanOneMore(limit: nat, actions: seq<Action>)
    requires actions != [] && CleanRun(limit, actions[..|actions| - 1])
    requires Clean(Run(limit, actions[..|actions| - 1]), actions[|actions| - 1])
    ensures CleanRun(limit, actions)
  {
    var past := actions[..|actions| - 1];
    forall k | 0 <= k < |actions| ensures Clean(At(limit, actions, k), actions[k]) {
      if k < |past| {
        assert Clean(At(limit, past, k), past[k]);
        assert past[..k] == actions[..k];
      }
    }
  }

  lemma {:induction false} CleanRunAwake(limit: nat, actions: seq<Action>)
    requires CleanRun(limit, actions)
    ensures Reserved(Run(limit, actions)) && AllSmooth(Run(limit, actions)) && Awake(Run(limit, actions))
  {
    AfterKeeps(Initial(limit), actions);
    if actions == [] {
      assert NoDriver(Run(limit, actions));
    } else {
      var past := actions[..|actions| - 1];
      CleanFront(limit, actions);
      CleanRunAwake(limit, past);
      CalmSmooth(Run(limit, past), actions[|past|]);
      CleanAwake(Run(limit, past), actions[|past|]);
    }
  }

  /** Not yet enqueued, or finished. */
  predicate Inactive(pc: Pc) {
    pc.Arrived? || pc.Claimed? || pc.Unclaim? || pc.Duplicate? || pc.Returned?
  }

  ghost predicate AllInactive(s: State) {
    forall v :: 0 <= v < |s.workers| ==> Inactive(s.workers[v])
  }

  /** Nothing is pending or in flight, and every accepted item is settled. */
  predicate AllSettled(g: Shared) {
    g.db.pending == [] && g.db.inflight == [] && g.settled == g.accepted
  }

  /** Some worker is about to compete for the lock or to recheck the queue, or drives under the live lock. */
  ghost predicate Attended(s: State) {
    SomeoneWaits(s)
    || exists d :: 0 <= d < |s.workers| && s.workers[d].Driving? && s.shared.db.lock == Some(s.workers[d].token)
  }

  /** What a clean run promises. */
  lemma CleanRunAttends(limit: nat, actions: seq<Action>)
    requires CleanRun(limit, actions)
    ensures var s := Run(limit, actions);
            && (s.shared.db.pending != [] ==> Attended(s))
            && (AllInactive(s) ==> AllSettled(s.shared))
  {
    var s := Run(limit, actions);
    CleanRunAwake(limit, actions);
    AfterConserves(Initial(limit), actions);
    if !NoDriver(s) {
      var d: nat :| OneDriver(s, d);
      assert s.workers[d].Driving? && s.shared.db.lock == Some(s.workers[d].token);
    }
  }
}
