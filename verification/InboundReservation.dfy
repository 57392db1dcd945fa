/** Exclusive reservation and requeue order, over every interleaving of any number of workers. */
module InboundReservation {
  import opened Prelude
  import opened QueueScripts
  import opened BurstOrder
  import opened InboundProtocol
  import opened InboundInvariant

  // ---------- Such a step keeps the invariant for every other worker ----------

  /**
   Exclusive reservation: two workers never hold unacknowledged work at once, and a worker whose
   token is the live lock never coexists with another worker's unacknowledged work.
   */
  lemma HolderUnique(s: State, v: nat, w: nat)
    requires Reserved(s) && v < |s.workers| && w < |s.workers|
    requires Held(s.workers[v]) != []
    requires Held(s.workers[w]) != []
             || (TokenOf(s.workers[w]).Some? && s.shared.db.lock == TokenOf(s.workers[w]))
    ensures v == w
  {
    assert WorkerOk(s.shared, s.workers[v]) && WorkerOk(s.shared, s.workers[w]);
    assert |multiset(s.shared.db.inflight)| > 0;
    assert TokenOf(s.workers[v]) == TokenOf(s.workers[w]);
  }

  lemma OthersUndisturbed(s: State, w: nat, h: Shared, pc': Pc, v: nat)
    requires w < |s.workers| && v < |s.workers| && v != w
    requires Reserved(s) && LocalStep(s.shared, s.workers[w], h, pc')
    ensures WorkerOk(h, s.workers[v])
  {
    assert WorkerOk(s.shared, s.workers[v]) && WorkerOk(s.shared, s.workers[w]);
    if !Quiet(s.shared, h) && !Grants(s.shared, h) {
      assert |multiset(Held(s.workers[w]))| == |Held(s.workers[w])|;
      if Held(s.workers[v]) != [] { HolderUnique(s, v, w); }
    }
  }

  lemma TokensKept(s: State, w: nat, h: Shared, pc': Pc)
    requires w < |s.workers| && Reserved(s) && LocalStep(s.shared, s.workers[w], h, pc')
    ensures TokensOk(State(h, s.workers[w := pc'])) && OneOwner(h)
  {
    assert WorkerOk(s.shared, s.workers[w]);
  }

  lemma StepKeeps(s: State, w: nat, h: Shared, pc': Pc)
    requires w < |s.workers| && Reserved(s) && LocalStep(s.shared, s.workers[w], h, pc')
    ensures Reserved(State(h, s.workers[w := pc']))
  {
    TokensKept(s, w, h, pc');
    forall v | 0 <= v < |s.workers| && v != w ensures WorkerOk(h, s.workers[v]) {
      OthersUndisturbed(s, w, h, pc', v);
    }
  }

  // ---------- Every step of the protocol is of this kind ----------

  /** Sorting is only a rearrangement of what is in hand. */
  lemma BurstReady(g: Shared, pc: Pc, sorted: seq<Item>)
    requires pc.Driving? && pc.phase.Collect? && pc.todo != [] && WorkerOk(g, pc)
    requires multiset(sorted) == multiset(pc.todo) && |sorted| == |pc.todo|
    ensures LocalStep(g, pc, g, Holding(pc.token, Burst, sorted))
  {
    assert Held(pc) == pc.todo && Held(Holding(pc.token, Burst, sorted)) == sorted;
  }

  lemma PopOwned(g: Shared, pc: Pc, h: Shared, item: Item)
    requires pc.Driving? && pc.phase.Collect? && WorkerOk(g, pc) && OneOwner(g) && g.db.lock == Some(pc.token)
    requires h.db.inflight == g.db.inflight + [item] && h.poppers == g.poppers + {pc.token}
    requires h.db.lock == g.db.lock && h.nextToken == g.nextToken
    ensures LocalStep(g, pc, h, Holding(pc.token, Collect, pc.todo + [item]))
  {
    assert Held(pc) == pc.todo && Held(Holding(pc.token, Collect, pc.todo + [item])) == pc.todo + [item];
    assert multiset(g.db.inflight) == multiset(pc.todo);
    assert multiset(h.db.inflight) == multiset(pc.todo + [item]);
  }

  lemma PopLocal(g: Shared, pc: Pc)
    requires pc.Driving? && pc.phase.Collect? && WorkerOk(g, pc) && OneOwner(g)
    ensures var n := PopStep(g, pc.token, pc.todo); LocalStep(g, pc, Execute(g, n.command), n.pc)
  {
    var n := PopStep(g, pc.token, pc.todo);
    if n.pc.phase.Burst? {
      SortBurstKeepsItems(pc.todo);
      BurstReady(g, pc, SortBurst(pc.todo));
    } else if n.pc.phase.Collect? {
      PopOwned(g, pc, Execute(g, n.command), g.db.pending[0]);
    }
  }

  lemma {:induction false} SelectSplits(items: seq<Item>, chosen: set<nat>)
    ensures multiset(Select(items, chosen, true)) + multiset(Select(items, chosen, false)) == multiset(items)
  {
    if items != [] {
      var n := |items| - 1;
      SelectSplits(items[..n], chosen);
      assert items == items[..n] + [items[n]];
      assert multiset(items) == multiset(items[..n]) + multiset{items[n]};
    }
  }

  /** How many of the first i positions are chosen, or are not. */
  function CountBefore(i: nat, chosen: set<nat>, inside: bool): nat {
    if i == 0 then 0
    else CountBefore(i - 1, chosen, inside) + if inside then (if i - 1 in chosen then 1 else 0)
                                              else if i - 1 in chosen then 0 else 1
  }

  /** Selecting keeps the order: an item at such a position comes after the selected ones before it. */
  lemma {:induction false} SelectAt(items: seq<Item>, chosen: set<nat>, inside: bool, i: nat)
    ensures |Select(items, chosen, inside)| == CountBefore(|items|, chosen, inside)
    ensures i < |items| && ((i in chosen) <==> inside) ==>
              var r := CountBefore(i, chosen, inside);
              r < |Select(items, chosen, inside)| && Select(items, chosen, inside)[r] == items[i]
  {
    if items != [] {
      var n := |items| - 1;
      SelectAt(items[..n], chosen, inside, i);
    }
  }

  /** With none of the positions chosen everything else is everything, as it was. */
  lemma {:induction false} SelectAll(items: seq<Item>, chosen: set<nat>)
    requires forall i :: 0 <= i < |items| ==> i !in chosen
    ensures Select(items, chosen, false) == items && Select(items, chosen, true) == []
  {
    if items != [] {
      SelectAll(items[..|items| - 1], chosen);
    }
  }

  lemma RequeueStarts(g: Shared, pc: Pc)
    requires pc.Driving? && WorkerOk(g, pc) && pc.todo != [] && pc.rest == []
    ensures LocalStep(g, pc, g, StartRequeue(pc.token, pc.todo, g.db.pending))
  {
    assert [] + g.db.pending == g.db.pending;
    assert Held(pc) == pc.todo == Held(StartRequeue(pc.token, pc.todo, g.db.pending));
  }

  lemma BurstLocal(g: Shared, pc: Pc, o: Oracle)
    requires pc.Driving? && pc.phase.Burst? && WorkerOk(g, pc)
    ensures LocalStep(g, pc, g, BurstStep(g, pc.token, pc.todo, o))
  {
    assert Held(pc) == pc.todo;
    var inside, outside := Select(pc.todo, o.revoked, true), Select(pc.todo, o.revoked, false);
    if !o.storeOk {
      RequeueStarts(g, pc);
    } else if inside != [] {
      SelectSplits(pc.todo, o.revoked);
      assert multiset(inside + outside) == multiset(pc.todo);
    }
  }

  lemma GroupLocal(g: Shared, pc: Pc, o: Oracle)
    requires pc.Driving? && (pc.phase.Decide? || pc.phase.Single?) && WorkerOk(g, pc)
    ensures LocalStep(g, pc, g, DriveStep(g, pc, o).pc) && DriveStep(g, pc, o).command.Nothing?
  {
    assert Held(pc) == pc.todo == [pc.todo[0]] + pc.todo[1..];
    RequeueStarts(g, pc);
  }

  /** Removing an item from both the worker's hands and the in-flight list is the owner's own work. */
  lemma OwnedStep(g: Shared, pc: Pc, h: Shared, pc': Pc, item: Item)
    requires pc.Driving? && OneOwner(g) && WorkerOk(g, pc) && Held(pc) != []
    requires multiset(Held(pc)) == multiset(Held(pc')) + multiset{item}
    requires multiset(g.db.inflight) == multiset(h.db.inflight) + multiset{item}
    requires h.db.lock == g.db.lock && h.nextToken == g.nextToken
    requires h.poppers == Since(h.db.inflight, g.poppers)
    requires pc'.Driving? && pc'.token == pc.token && Shaped(pc')
    requires pc'.phase.Requeue? ==> pc'.done + pc'.base <= h.db.pending
    ensures LocalStep(g, pc, h, pc')
  {
    Cancel(multiset(h.db.inflight), multiset(Held(pc')), item);
    assert |multiset(h.db.inflight)| == |h.db.inflight|;
    assert |multiset(Held(pc'))| == |Held(pc')|;
  }

  lemma Cancel(a: multiset<Item>, b: multiset<Item>, item: Item)
    requires a + multiset{item} == b + multiset{item}
    ensures a == b
  {
    assert a == a + multiset{item} - multiset{item};
    assert b == b + multiset{item} - multiset{item};
  }

  lemma AfterAckShape(t: Token, left: seq<Item>, rest: seq<Item>, single: bool)
    ensures var pc := AfterAck(t, left, rest, single);
            && pc.Driving? && pc.token == t && Shaped(pc) && Held(pc) == left + rest
            && !pc.phase.Release? && !pc.phase.Requeue? && !pc.phase.Ack?
  {}

  lemma AckOwned(g: Shared, pc: Pc, h: Shared, item: Item, left: seq<Item>)
    requires pc.Driving? && pc.todo == [item] + left && WorkerOk(g, pc) && OneOwner(g) && Unreserves(g, h, item)
    ensures LocalStep(g, pc, h, AfterAck(pc.token, left, pc.rest, pc.single))
  {
    assert Held(pc) == [item] + (left + pc.rest);
    assert multiset(Held(pc)) == multiset{item} + multiset(left + pc.rest);
    AfterAckShape(pc.token, left, pc.rest, pc.single);
    OwnedStep(g, pc, h, AfterAck(pc.token, left, pc.rest, pc.single), item);
  }

  lemma RemoveUnreserves(g: Shared, item: Item)
    requires Acknowledge(g.db, item).value
    ensures Unreserves(g, Execute(g, Remove(item)), item)
  {}

  lemma PutBackUnreserves(g: Shared, item: Item)
    requires item in g.db.inflight
    ensures Unreserves(g, Execute(g, PutBack(item)), item)
    ensures Execute(g, PutBack(item)).db.pending == [item] + g.db.pending
  {}

  lemma Abandons(g: Shared, pc: Pc)
    requires pc.Driving?
    ensures LocalStep(g, pc, g, Empty(pc.token, Release(Raised)))
  {}

  lemma AckLocal(g: Shared, pc: Pc)
    requires pc.Driving? && pc.phase.Ack? && WorkerOk(g, pc) && OneOwner(g)
    ensures var n := AckStep(g, pc); LocalStep(g, pc, Execute(g, n.command), n.pc)
  {
    var item, left := pc.todo[0], pc.todo[1..];
    assert pc.todo == [item] + left;
    if Acknowledge(g.db, item).value {
      RemoveUnreserves(g, item);
      AckOwned(g, pc, Execute(g, Remove(item)), item, left);
    } else {
      Abandons(g, pc);
    }
  }

  /** Where the worker is once one more item is back. */
  function RequeueNext(pc: Pc, front: seq<Item>, item: Item): Pc
    requires pc.Driving?
  {
    if front == [] then Empty(pc.token, Release(Retryable)) else pc.(todo := front, done := [item] + pc.done)
  }

  lemma RequeueOwned(g: Shared, pc: Pc, h: Shared, front: seq<Item>, item: Item)
    requires pc.Driving? && pc.phase.Requeue? && pc.todo == front + [item]
    requires WorkerOk(g, pc) && OneOwner(g) && Unreserves(g, h, item) && h.db.pending == [item] + g.db.pending
    ensures LocalStep(g, pc, h, RequeueNext(pc, front, item))
  {
    var pc' := RequeueNext(pc, front, item);
    assert Held(pc) == front + [item];
    assert multiset(Held(pc)) == multiset(front) + multiset{item};
    assert Held(pc') == front;
    assert [item] + (pc.done + pc.base) == [item] + pc.done + pc.base;
    OwnedStep(g, pc, h, pc', item);
  }

  lemma RequeueIssues(g: Shared, pc: Pc, front: seq<Item>, item: Item)
    requires pc.Driving? && pc.todo == front + [item]
    ensures RequeueStep(g, pc)
         == Next(PutBack(item),
                 if item in g.db.inflight then RequeueNext(pc, front, item) else Empty(pc.token, Release(Raised)))
  {
    assert pc.todo[..|front|] == front;
  }

  lemma RequeueMoves(g: Shared, pc: Pc, front: seq<Item>, item: Item)
    requires pc.Driving? && pc.phase.Requeue? && pc.todo == front + [item]
    requires WorkerOk(g, pc) && OneOwner(g) && item in g.db.inflight
    ensures LocalStep(g, pc, Execute(g, PutBack(item)), RequeueNext(pc, front, item))
  {
    PutBackUnreserves(g, item);
    RequeueOwned(g, pc, Execute(g, PutBack(item)), front, item);
  }

  lemma RequeueLocal(g: Shared, pc: Pc)
    requires pc.Driving? && pc.phase.Requeue? && WorkerOk(g, pc) && OneOwner(g)
    ensures LocalStep(g, pc, Execute(g, RequeueStep(g, pc).command), RequeueStep(g, pc).pc)
  {
    var front, item := pc.todo[..|pc.todo| - 1], pc.todo[|pc.todo| - 1];
    RequeueIssues(g, pc, front, item);
    if item in g.db.inflight {
      RequeueMoves(g, pc, front, item);
    } else {
      assert Execute(g, PutBack(item)) == g;
      Abandons(g, pc);
    }
  }

  lemma DriveLocal(g: Shared, pc: Pc, o: Oracle)
    requires pc.Driving? && WorkerOk(g, pc) && OneOwner(g)
    ensures var n := DriveStep(g, pc, o); LocalStep(g, pc, Execute(g, n.command), n.pc)
  {
    match pc.phase
    case Collect => PopLocal(g, pc);
    case Burst => BurstLocal(g, pc, o);
    case Decide => GroupLocal(g, pc, o);
    case Single => GroupLocal(g, pc, o);
    case Ack => AckLocal(g, pc);
    case Requeue => RequeueLocal(g, pc);
    case _ => IdleLocal(g, pc, o);
  }

  /** The steps that only look: the shared state stays and nothing is in hand afterwards. */
  lemma LookLocal(g: Shared, pc: Pc, o: Oracle)
    requires pc.Driving? && WorkerOk(g, pc)
    requires pc.phase.CheckInflight? || pc.phase.Refresh? || pc.phase.Count?
    ensures DriveStep(g, pc, o).command.Nothing? && LocalStep(g, pc, g, DriveStep(g, pc, o).pc)
  {}

  lemma CompleteLocal(g: Shared, pc: Pc)
    requires pc.Driving? && WorkerOk(g, pc) && pc.phase.Complete?
    ensures var n := CompleteStep(pc); LocalStep(g, pc, Execute(g, n.command), n.pc)
  {
    var n := CompleteStep(pc);
    if n.command.CompleteId? { assert Held(n.pc) == Held(pc); }
  }

  lemma ReleaseLocal(g: Shared, pc: Pc, ending: Ending)
    requires pc.Driving? && WorkerOk(g, pc) && pc.phase == Release(ending)
    ensures LocalStep(g, pc, Execute(g, DropLock(pc.token)), if ending == Settled then Recheck else Returned(ending))
  {}

  lemma IdleLocal(g: Shared, pc: Pc, o: Oracle)
    requires pc.Driving? && WorkerOk(g, pc)
    requires pc.phase.CheckInflight? || pc.phase.Refresh? || pc.phase.Count? || pc.phase.Complete? || pc.phase.Release?
    ensures var n := DriveStep(g, pc, o); LocalStep(g, pc, Execute(g, n.command), n.pc)
  {
    match pc.phase
    case Complete => CompleteLocal(g, pc);
    case Release(ending) => ReleaseLocal(g, pc, ending);
    case _ => LookLocal(g, pc, o);
  }

  lemma WorkLocal(g: Shared, pc: Pc, o: Oracle)
    requires WorkerOk(g, pc) && OneOwner(g)
    ensures var n := WorkerStep(g, pc, o); LocalStep(g, pc, Execute(g, n.command), n.pc)
  {
    if pc.Driving? { DriveLocal(g, pc, o); }
  }

  lemma WorkKeeps(s: State, w: nat, o: Oracle)
    requires Reserved(s) && w < |s.workers|
    ensures Reserved(Apply(s, Work(w, o)))
  {
    var n := WorkerStep(s.shared, s.workers[w], o);
    WorkLocal(s.shared, s.workers[w], o);
    StepKeeps(s, w, Execute(s.shared, n.command), n.pc);
  }

  lemma UnwindKeeps(s: State, w: nat, pc': Pc)
    requires Reserved(s) && w < |s.workers| && (pc' == Unwound(s.workers[w]) || pc' == Returned(Raised))
    ensures Reserved(State(s.shared, s.workers[w := pc']))
  {
    StepKeeps(s, w, s.shared, pc');
  }

  lemma ServerKeeps(s: State, h: Shared)
    requires Reserved(s) && h == s.shared.(db := h.db)
    requires h.db.pending == s.shared.db.pending && h.db.inflight == s.shared.db.inflight
    requires h.db.lock == s.shared.db.lock || h.db.lock.None?
    ensures Reserved(State(h, s.workers))
  {
    forall v | 0 <= v < |s.workers| ensures WorkerOk(h, s.workers[v]) {
      assert WorkerOk(s.shared, s.workers[v]);
    }
  }

  lemma DeliverKeeps(s: State, webhook: Item)
    requires Reserved(s)
    ensures Reserved(s.(workers := s.workers + [Arrived(webhook)]))
  {
    assert WorkerOk(s.shared, Arrived(webhook));
  }

  lemma ApplyKeeps(s: State, a: Action)
    requires Reserved(s)
    ensures Reserved(Apply(s, a))
  {
    match a
    case Deliver(webhook) => DeliverKeeps(s, webhook);
    case Work(w, o) => if w < |s.workers| { WorkKeeps(s, w, o); }
    case Raise(w) => if w < |s.workers| { UnwindKeeps(s, w, Unwound(s.workers[w])); }
    case Crash(w) => if w < |s.workers| { UnwindKeeps(s, w, Returned(Raised)); }
    case LockExpires => ServerKeeps(s, Apply(s, a).shared);
    case ClaimExpires(_) => ServerKeeps(s, Apply(s, a).shared);
  }

  lemma {:induction false} AfterKeeps(s: State, actions: seq<Action>)
    requires Reserved(s)
    ensures Reserved(After(s, actions))
  {
    if actions != [] {
      AfterKeeps(s, actions[..|actions| - 1]);
      ApplyKeeps(After(s, actions[..|actions| - 1]), actions[|actions| - 1]);
    }
  }

  // ---------- Results over all runs ----------

  /**
   In every reachable state all in-flight items were popped under one lock token, the live lock (if
   any) is that token, and at most one worker still has unacknowledged items, namely the one with
   that token; its items are then exactly what is in flight. Leases may expire at any point.
   */
  lemma ExclusiveReservation(limit: nat, actions: seq<Action>)
    ensures var s := Run(limit, actions);
            && |s.shared.poppers| <= 1
            && (s.shared.db.inflight != [] && s.shared.db.lock.Some? ==> s.shared.poppers == {s.shared.db.lock.value})
            && (forall v :: 0 <= v < |s.workers| && Held(s.workers[v]) != [] ==>
                  multiset(Held(s.workers[v])) == multiset(s.shared.db.inflight)
                  && TokenOf(s.workers[v]).Some? && s.shared.poppers == {TokenOf(s.workers[v]).value})
            && (forall v, w :: 0 <= v < |s.workers| && 0 <= w < |s.workers|
                  && Held(s.workers[v]) != [] && Held(s.workers[w]) != []
                  ==> v == w)
  {
    var s := Run(limit, actions);
    AfterKeeps(Initial(limit), actions);
    if s.shared.poppers != {} {
      var t :| t in s.shared.poppers;
      assert s.shared.poppers == {t};
    }
    forall v | 0 <= v < |s.workers| && Held(s.workers[v]) != []
      ensures HoldsAll(s.shared, s.workers[v])
    {
      assert WorkerOk(s.shared, s.workers[v]);
    }
    forall v, w | 0 <= v < |s.workers| && 0 <= w < |s.workers|
                  && Held(s.workers[v]) != [] && Held(s.workers[w]) != []
      ensures v == w
    {
      HolderUnique(s, v, w);
    }
  }

  /** A requeue in progress: the items still in hand, then those already put back, are the given items. */
  predicate Requeueing(pc: Pc, t: Token, items: seq<Item>, base: seq<Item>) {
    pc.Driving? && pc.token == t && pc.phase.Requeue? && pc.todo + pc.done == items && pc.base == base
  }

  /** Once a worker has left its requeue it never drives again. */
  predicate Leaving(pc: Pc) {
    (pc.Driving? && pc.phase.Release? && !pc.phase.ending.Settled?) || pc.Returned?
  }

  lemma RequeueAdvances(s: State, w: nat, a: Action, t: Token, items: seq<Item>, base: seq<Item>)
    requires w < |s.workers| && (Requeueing(s.workers[w], t, items, base) || Leaving(s.workers[w]))
    ensures w < |Apply(s, a).workers|
    ensures Requeueing(Apply(s, a).workers[w], t, items, base) || Leaving(Apply(s, a).workers[w])
  {
    var pc := s.workers[w];
    if a.Work? && a.worker == w && Requeueing(pc, t, items, base) && pc.todo != [] {
      var last := |pc.todo| - 1;
      assert pc.todo == pc.todo[..last] + [pc.todo[last]];
      assert pc.todo[..last] + ([pc.todo[last]] + pc.done) == items;
    }
  }

  lemma {:induction false} RequeuePersists(s: State, w: nat, actions: seq<Action>, t: Token, items: seq<Item>,
                                           base: seq<Item>)
    requires w < |s.workers| && Requeueing(s.workers[w], t, items, base)
    ensures w < |After(s, actions).workers|
    ensures Requeueing(After(s, actions).workers[w], t, items, base) || Leaving(After(s, actions).workers[w])
  {
    if actions != [] {
      var before := actions[..|actions| - 1];
      RequeuePersists(s, w, before, t, items, base);
      RequeueAdvances(After(s, before), w, actions[|actions| - 1], t, items, base);
    }
  }

  lemma LastRequeued(g: Shared, pc: Pc, t: Token, items: seq<Item>, base: seq<Item>)
    requires Requeueing(pc, t, items, base) && WorkerOk(g, pc)
    requires RequeueStep(g, pc).pc == Empty(t, Release(Retryable))
    ensures items + base <= Execute(g, RequeueStep(g, pc).command).db.pending
  {
    assert |pc.todo| == 1 && pc.todo == [pc.todo[0]];
    assert items + base == [pc.todo[0]] + (pc.done + base);
  }

  /**
   Requeue order: a worker starts putting back `items`; whatever the rest of the system does meanwhile,
   the step that puts back the last of them leaves all of them at the front of pending, in burst order,
   ahead of everything that was pending at the start and of everything that arrived since.
   */
  lemma RequeueOrder(limit: nat, past: seq<Action>, w: nat, t: Token, items: seq<Item>,
                     meanwhile: seq<Action>, o: Oracle)
    requires var s := Run(limit, past);
             w < |s.workers| && items != [] && s.workers[w] == StartRequeue(t, items, s.shared.db.pending)
    ensures var s := Run(limit, past);
            var mid := After(s, meanwhile);
            && w < |mid.workers|
            && (Requeueing(mid.workers[w], t, items, s.shared.db.pending) || Leaving(mid.workers[w]))
            && (mid.workers[w].Driving? && mid.workers[w].phase.Requeue?
                && WorkerStep(mid.shared, mid.workers[w], o).pc == Empty(t, Release(Retryable))
                ==> items + s.shared.db.pending <= Apply(mid, Work(w, o)).shared.db.pending)
  {
    var s := Run(limit, past);
    var base := s.shared.db.pending;
    AfterKeeps(Initial(limit), past);
    AfterKeeps(s, meanwhile);
    assert items + [] == items;
    RequeuePersists(s, w, meanwhile, t, items, base);
    var mid := After(s, meanwhile);
    var pc := mid.workers[w];
    assert WorkerOk(mid.shared, pc);
    if Requeueing(pc, t, items, base) && RequeueStep(mid.shared, pc).pc == Empty(t, Release(Retryable)) {
      LastRequeued(mid.shared, pc, t, items, base);
    }
  }
}
