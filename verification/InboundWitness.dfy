/** Short runs in which a message id is taken a second time, or queued work is stranded. */
module InboundWitness {
  import opened Prelude
  import opened QueueScripts
  import opened BurstOrder
  import opened InboundProtocol
  import opened InboundClaims
  import opened InboundReclaim
  import opened InboundAwake
  import opened InboundStranded

  const WEBHOOK := Item("9613", Some("m"), None, None, "hello")

  const GOES_WELL := Oracle(true, {}, false, false)

  function Tagged(t: Token): Item {
    WEBHOOK.(claim := Some(t))
  }

  // ---------- Putting runs together ----------

  lemma Then(s: State, past: seq<Action>, a: Action)
    ensures After(s, past + [a]) == Apply(After(s, past), a)
  {
    assert (past + [a])[..|past|] == past;
  }

  lemma First(s: State, a: Action)
    ensures After(s, [a]) == Apply(s, a)
  {
    assert [] + [a] == [a];
    Then(s, [], a);
  }

  lemma {:induction false} AfterConcat(s: State, a: seq<Action>, b: seq<Action>)
    ensures After(s, a + b) == After(After(s, a), b)
  {
    if b == [] {
      assert a + b == a;
    } else {
      var n := |b| - 1;
      AfterConcat(s, a, b[..n]);
      assert a + b == a + b[..n] + [b[n]];
      Then(s, a + b[..n], b[n]);
    }
  }

  // ---------- One worker serves one item ----------

  /** Worker w takes these many undisturbed steps. */
  function Works(w: nat, k: nat): seq<Action> {
    if k == 0 then [] else Works(w, k - 1) + [Work(w, GOES_WELL)]
  }

  lemma Next1(s: State, w: nat, k: nat)
    ensures After(s, Works(w, k + 1)) == Apply(After(s, Works(w, k)), Work(w, GOES_WELL))
  {
    Then(s, Works(w, k), Work(w, GOES_WELL));
  }

  function Locked(g: Shared): Shared {
    g.(db := g.db.(lock := Some(g.nextToken)), nextToken := g.nextToken + 1)
  }

  lemma LockSteps(g: Shared, ws: seq<Pc>, w: nat)
    requires w < |ws| && ws[w] == WantLock && g.db.lock.None? && g.db.inflight == []
    ensures var t, h := g.nextToken, Locked(g);
            && Apply(State(g, ws), Work(w, GOES_WELL)) == State(h, ws[w := Empty(t, CheckInflight)])
            && Apply(State(h, ws[w := Empty(t, CheckInflight)]), Work(w, GOES_WELL))
            == State(h, ws[w := Empty(t, Refresh)])
  {
    assert Execute(g, TakeLock) == Locked(g);
    assert ws[w := Empty(g.nextToken, CheckInflight)][w := Empty(g.nextToken, Refresh)]
        == ws[w := Empty(g.nextToken, Refresh)];
  }

  lemma CheckSteps(h: Shared, ws: seq<Pc>, w: nat, t: Token)
    requires w < |ws| && h.db.lock == Some(t) && h.db.pending != []
    ensures Apply(State(h, ws[w := Empty(t, Refresh)]), Work(w, GOES_WELL)) == State(h, ws[w := Empty(t, Count)])
    ensures Apply(State(h, ws[w := Empty(t, Count)]), Work(w, GOES_WELL)) == State(h, ws[w := Empty(t, Collect)])
  {
    assert ws[w := Empty(t, Refresh)][w := Empty(t, Count)] == ws[w := Empty(t, Count)];
    assert ws[w := Empty(t, Count)][w := Empty(t, Collect)] == ws[w := Empty(t, Collect)];
  }

  /** It takes the lock, finds nothing in flight and something pending. */
  lemma TakesLock(g: Shared, ws: seq<Pc>, w: nat)
    requires w < |ws| && ws[w] == WantLock && g.db.lock.None? && g.db.inflight == [] && g.db.pending != []
    ensures After(State(g, ws), Works(w, 4)) == State(Locked(g), ws[w := Empty(g.nextToken, Collect)])
  {
    var s, t := State(g, ws), g.nextToken;
    LockSteps(g, ws, w);
    CheckSteps(Locked(g), ws, w, t);
    Next1(s, w, 0);
    Next1(s, w, 1);
    Next1(s, w, 2);
    Next1(s, w, 3);
  }

  function Popped1(g: Shared, t: Token, x: Item): Shared {
    g.(db := g.db.(pending := [], inflight := [x]), poppers := {t})
  }

  lemma OneSorted(x: Item)
    ensures SortBurst([x]) == [x]
  {
    SortBurstKeepsItems([x]);
    assert SortBurst([x])[0] in multiset(SortBurst([x]));
  }

  /** It reserves the item. */
  lemma Reserves(g: Shared, ws: seq<Pc>, w: nat, t: Token, x: Item)
    requires w < |ws| && ws[w] == Empty(t, Collect) && g.db.lock == Some(t) && g.limit == 1
    requires g.db.pending == [x] && g.db.inflight == [] && g.poppers == {}
    ensures After(State(g, ws), Works(w, 2)) == State(Popped1(g, t, x), ws[w := Holding(t, Burst, [x])])
  {
    var s, h := State(g, ws), Popped1(g, t, x);
    Next1(s, w, 0);
    assert Execute(g, PopFront(t)) == h;
    assert After(s, Works(w, 1)) == State(h, ws[w := Holding(t, Collect, [x])]);
    Next1(s, w, 1);
    OneSorted(x);
  }

  /** It decides to settle it. */
  lemma Decides(g: Shared, ws: seq<Pc>, w: nat, t: Token, x: Item)
    requires w < |ws| && ws[w] == Holding(t, Burst, [x])
    ensures After(State(g, ws), Works(w, 3)) == State(g, ws[w := Settle(t, [x], [], true)])
  {
    var s := State(g, ws);
    Next1(s, w, 0);
    assert Select([x], {}, true) == [];
    assert After(s, Works(w, 1)) == State(g, ws[w := Holding(t, Decide, [x])]);
    Next1(s, w, 1);
    assert After(s, Works(w, 2)) == State(g, ws[w := Holding(t, Single, [x])]);
    Next1(s, w, 2);
    assert [x][1..] == [];
  }

  /** Nine steps in all. */
  function Serving(w: nat): seq<Action> {
    Works(w, 4) + (Works(w, 2) + Works(w, 3))
  }

  /** From wanting the lock to the completion of the only pending item. */
  lemma Serves(g: Shared, ws: seq<Pc>, w: nat, x: Item)
    requires w < |ws| && ws[w] == WantLock && g.db.lock.None? && g.limit == 1
    requires g.db.pending == [x] && g.db.inflight == [] && g.poppers == {}
    ensures After(State(g, ws), Serving(w))
         == State(Popped1(Locked(g), g.nextToken, x), ws[w := Settle(g.nextToken, [x], [], true)])
  {
    var t := g.nextToken;
    var ws1, ws2 := ws[w := Empty(t, Collect)], ws[w := Holding(t, Burst, [x])];
    TakesLock(g, ws, w);
    AfterConcat(State(g, ws), Works(w, 4), Works(w, 2) + Works(w, 3));
    Reserves(Locked(g), ws1, w, t, x);
    assert ws1[w := Holding(t, Burst, [x])] == ws2;
    AfterConcat(State(Locked(g), ws1), Works(w, 2), Works(w, 3));
    Decides(Popped1(Locked(g), t, x), ws2, w, t, x);
    assert ws2[w := Settle(t, [x], [], true)] == ws[w := Settle(t, [x], [], true)];
  }

  /** The completion is recorded, the acknowledgement comes next. */
  function Confirming(t: Token, x: Item): Pc {
    Driving(t, Ack, [x], [], true, [], [])
  }

  // ---------- Two deliveries of one id ----------

  /** The first delivery loses its claim before it enqueues; the second enqueues. */
  function TwoDeliveries(): seq<Action> {
    [Deliver(WEBHOOK)] + [Deliver(WEBHOOK)] + [Work(0, GOES_WELL)] + [ClaimExpires("m")] + [Work(1, GOES_WELL)]
    + [Work(1, GOES_WELL)]
  }

  function SecondQueued(): Shared {
    Shared(Db([Tagged(1)], [], None, map["m" := Processing(1, true)]), 2, 1, {}, multiset{Tagged(1)}, multiset{},
           {1}, {})
  }

  lemma AfterTwoDeliveries()
    ensures Run(1, TwoDeliveries()) == State(SecondQueued(), [Claimed(Tagged(0)), WantLock])
  {
    var s := Initial(1);
    var p1 := [Deliver(WEBHOOK)];
    var p2 := p1 + [Deliver(WEBHOOK)];
    var p3 := p2 + [Work(0, GOES_WELL)];
    var p4 := p3 + [ClaimExpires("m")];
    var p5 := p4 + [Work(1, GOES_WELL)];
    First(s, Deliver(WEBHOOK));
    Then(s, p1, Deliver(WEBHOOK));
    assert Run(1, p2).workers == [Arrived(WEBHOOK), Arrived(WEBHOOK)];
    Then(s, p2, Work(0, GOES_WELL));
    assert Run(1, p3).workers == [Claimed(Tagged(0)), Arrived(WEBHOOK)];
    Then(s, p3, ClaimExpires("m"));
    assert Run(1, p4).shared.db.claims == map[];
    Then(s, p4, Work(1, GOES_WELL));
    assert Run(1, p5).workers == [Claimed(Tagged(0)), Claimed(Tagged(1))];
    Then(s, p5, Work(1, GOES_WELL));
  }

  /** The first delivery then enqueues its item beside the one in progress. */
  lemma SecondCopyHappens()
    ensures var g := Run(1, TwoDeliveries() + [Work(0, GOES_WELL)]).shared;
            && g.db.pending == [Tagged(1), Tagged(0)]
            && Guarded(g, Tagged(1)) && !Finished(g, Tagged(1)) && !Guarded(g, Tagged(0))
  {
    AfterTwoDeliveries();
    Then(Initial(1), TwoDeliveries(), Work(0, GOES_WELL));
  }

  /** The second delivery is served up to its recorded completion. */
  function SecondCompleted(): seq<Action> {
    TwoDeliveries() + Serving(1) + [Work(1, GOES_WELL)]
  }

  lemma RecordsCompletion(g: Shared, ws: seq<Pc>, w: nat, t: Token, c: Token)
    requires w < |ws| && ws[w] == Settle(t, [Tagged(c)], [], true)
    requires g.db.claims == map["m" := Processing(c, true)]
    ensures Apply(State(g, ws), Work(w, GOES_WELL))
         == State(g.(db := g.db.(claims := map["m" := Completed]), completed := g.completed + {c}),
                  ws[w := Confirming(t, Tagged(c))])
  {
    assert ClaimLive(g.db.claims, Tagged(c));
    assert g.db.claims["m" := Completed] == map["m" := Completed];
  }

  function SecondInFlight(): Shared {
    Shared(Db([], [Tagged(1)], Some(2), map["m" := Completed]), 3, 1, {2}, multiset{Tagged(1)}, multiset{}, {1}, {1})
  }

  lemma AfterSecondServed()
    ensures Run(1, TwoDeliveries() + Serving(1))
         == State(Popped1(Locked(SecondQueued()), 2, Tagged(1)),
                  [Claimed(Tagged(0)), Settle(2, [Tagged(1)], [], true)])
  {
    var ws := [Claimed(Tagged(0)), WantLock];
    AfterTwoDeliveries();
    AfterConcat(Initial(1), TwoDeliveries(), Serving(1));
    Serves(SecondQueued(), ws, 1, Tagged(1));
    assert ws[1 := Settle(2, [Tagged(1)], [], true)] == [Claimed(Tagged(0)), Settle(2, [Tagged(1)], [], true)];
  }

  lemma AfterSecondCompleted()
    ensures Run(1, SecondCompleted())
         == State(SecondInFlight(), [Claimed(Tagged(0)), Confirming(2, Tagged(1))])
  {
    var g, pc := Popped1(Locked(SecondQueued()), 2, Tagged(1)), Settle(2, [Tagged(1)], [], true);
    AfterSecondServed();
    Then(Initial(1), TwoDeliveries() + Serving(1), Work(1, GOES_WELL));
    RecordsCompletion(g, [Claimed(Tagged(0)), pc], 1, 2, 1);
    assert {} + {1} == {1};
  }

  /** The first delivery enqueues its item beside the completed one, which is still in flight. */
  lemma CopyBesideCompletedHappens()
    ensures var g := Run(1, SecondCompleted() + [Work(0, GOES_WELL)]).shared;
            && g.db.pending == [Tagged(0)] && g.db.inflight == [Tagged(1)]
            && Guarded(g, Tagged(1)) && Finished(g, Tagged(1)) && !Guarded(g, Tagged(0))
  {
    AfterSecondCompleted();
    Then(Initial(1), SecondCompleted(), Work(0, GOES_WELL));
  }

  // ---------- A completed item that was never acknowledged ----------

  /** One worker claims the id and enqueues its item. */
  function Enqueued(): seq<Action> {
    [Deliver(WEBHOOK)] + [Work(0, GOES_WELL)] + [Work(0, GOES_WELL)]
  }

  function Queued1(): Shared {
    Shared(Db([Tagged(0)], [], None, map["m" := Processing(0, true)]), 1, 1, {}, multiset{Tagged(0)}, multiset{},
           {0}, {})
  }

  lemma AfterEnqueued()
    ensures Run(1, Enqueued()) == State(Queued1(), [WantLock])
  {
    var s, w := Initial(1), Work(0, GOES_WELL);
    var p1 := [Deliver(WEBHOOK)];
    First(s, Deliver(WEBHOOK));
    Then(s, p1, w);
    assert Run(1, p1 + [w]).workers == [Claimed(Tagged(0))];
    Then(s, p1 + [w], w);
  }

  /** It completes the item and is gone before the acknowledgement. */
  function Gone(): seq<Action> {
    Enqueued() + Serving(0) + [Work(0, GOES_WELL)] + [Crash(0)]
  }

  function InFlight(claims: map<MessageId, ClaimRecord>): Shared {
    Shared(Db([], [Tagged(0)], Some(1), claims), 2, 1, {1}, multiset{Tagged(0)}, multiset{}, {0}, {0})
  }

  lemma AfterGone()
    ensures Run(1, Gone()) == State(InFlight(map["m" := Completed]), [Returned(Raised)])
  {
    var p1 := Enqueued() + Serving(0);
    AfterEnqueued();
    AfterConcat(Initial(1), Enqueued(), Serving(0));
    Serves(Queued1(), [WantLock], 0, Tagged(0));
    Then(Initial(1), p1, Work(0, GOES_WELL));
    RecordsCompletion(Popped1(Locked(Queued1()), 1, Tagged(0)), [Settle(1, [Tagged(0)], [], true)], 0, 1, 0);
    Then(Initial(1), p1 + [Work(0, GOES_WELL)], Crash(0));
  }

  /** The record expires and the id is delivered again. */
  function Lost(): seq<Action> {
    Gone() + [ClaimExpires("m")] + [Deliver(WEBHOOK)]
  }

  lemma AfterLost()
    ensures Run(1, Lost()) == State(InFlight(map[]), [Returned(Raised), Arrived(WEBHOOK)])
  {
    AfterGone();
    Then(Initial(1), Gone(), ClaimExpires("m"));
    assert map["m" := Completed] - {"m"} == map[];
    Then(Initial(1), Gone() + [ClaimExpires("m")], Deliver(WEBHOOK));
  }

  /** A second delivery claims the id while the first item is still in flight. */
  lemma ReclaimHappens()
    ensures Reclaims(1, Lost() + [Work(1, GOES_WELL)], |Lost()|, Tagged(0))
    ensures Tagged(0) in Run(1, Lost() + [Work(1, GOES_WELL)]).shared.db.inflight
    ensures Run(1, Lost() + [Work(1, GOES_WELL)]).workers == [Returned(Raised), Claimed(Tagged(2))]
  {
    AfterLost();
    var all := Lost() + [Work(1, GOES_WELL)];
    assert all[..|Lost()|] == Lost();
    Then(Initial(1), Lost(), Work(1, GOES_WELL));
  }

  // ---------- Stranded in a calm environment ----------

  /** The claim expires before its item is enqueued. */
  function EnqueuedLate(): seq<Action> {
    [Deliver(WEBHOOK)] + [Work(0, GOES_WELL)] + [ClaimExpires("m")] + [Work(0, GOES_WELL)]
  }

  function QueuedLate(): Shared {
    Shared(Db([Tagged(0)], [], None, map[]), 1, 1, {}, multiset{Tagged(0)}, multiset{}, {}, {})
  }

  lemma AfterEnqueuedLate()
    ensures Run(1, EnqueuedLate()) == State(QueuedLate(), [WantLock])
  {
    var s, w := Initial(1), Work(0, GOES_WELL);
    var p1 := [Deliver(WEBHOOK)];
    First(s, Deliver(WEBHOOK));
    Then(s, p1, w);
    assert Run(1, p1 + [w]).workers == [Claimed(Tagged(0))];
    Then(s, p1 + [w], ClaimExpires("m"));
    assert Run(1, p1 + [w] + [ClaimExpires("m")]).shared.db.claims == map[];
    Then(s, p1 + [w] + [ClaimExpires("m")], w);
  }

  /** It is then served like any other, up to an acknowledgement that is refused. */
  function Stranding(): seq<Action> {
    EnqueuedLate() + Serving(0) + Works(0, 3)
  }

  lemma NothingToComplete(g: Shared, x: Item, t: Token)
    requires g.db.claims == map[] && WellFormed(x)
    ensures Apply(State(g, [Settle(t, [x], [], true)]), Work(0, GOES_WELL))
         == State(g, [Confirming(t, x)])
  {
    assert Execute(g, CompleteId(x)) == g;
  }

  lemma CannotAcknowledge(g: Shared, x: Item, t: Token)
    requires g.db.claims == map[] && Tracked(x)
    ensures Apply(State(g, [Confirming(t, x)]), Work(0, GOES_WELL))
         == State(g, [Empty(t, Release(Raised))])
  {}

  lemma GivesLockBack(g: Shared, t: Token)
    requires g.db.lock == Some(t)
    ensures Apply(State(g, [Empty(t, Release(Raised))]), Work(0, GOES_WELL))
         == State(g.(db := g.db.(lock := None)), [Returned(Raised)])
  {}

  /** Nothing to complete, a refused acknowledgement, and the lock given back. */
  lemma BreaksOff(g: Shared, x: Item, t: Token)
    requires g.db.claims == map[] && Tracked(x) && WellFormed(x) && g.db.lock == Some(t)
    ensures After(State(g, [Settle(t, [x], [], true)]), Works(0, 3))
         == State(g.(db := g.db.(lock := None)), [Returned(Raised)])
  {
    var s := State(g, [Settle(t, [x], [], true)]);
    NothingToComplete(g, x, t);
    CannotAcknowledge(g, x, t);
    GivesLockBack(g, t);
    Next1(s, 0, 0);
    Next1(s, 0, 1);
    Next1(s, 0, 2);
  }

  lemma AfterLateServed()
    ensures Run(1, EnqueuedLate() + Serving(0))
         == State(Popped1(Locked(QueuedLate()), 1, Tagged(0)), [Settle(1, [Tagged(0)], [], true)])
  {
    AfterEnqueuedLate();
    AfterConcat(Initial(1), EnqueuedLate(), Serving(0));
    Serves(QueuedLate(), [WantLock], 0, Tagged(0));
  }

  lemma AfterStranding()
    ensures Run(1, Stranding())
         == State(Popped1(QueuedLate().(nextToken := 2), 1, Tagged(0)), [Returned(Raised)])
  {
    var g := Popped1(Locked(QueuedLate()), 1, Tagged(0));
    AfterLateServed();
    AfterConcat(Initial(1), EnqueuedLate() + Serving(0), Works(0, 3));
    BreaksOff(g, Tagged(0), 1);
  }

  lemma WorksCalm(w: nat, k: nat)
    ensures CalmRun(Works(w, k))
  {}

  /**
   In a calm environment the only worker has returned, and the message it accepted is in flight and not
   settled: its claim record expired before the enqueue, and its acknowledgement was not confirmed.
   */
  lemma StrandedHappens()
    ensures CalmRun(Stranding()) && AllInactive(Run(1, Stranding()))
    ensures Run(1, Stranding()).shared.db.inflight == [Tagged(0)] && Run(1, Stranding()).shared.settled == multiset{}
    ensures !AllConfirmed(1, Stranding())
  {
    WorksCalm(0, 2);
    WorksCalm(0, 3);
    WorksCalm(0, 4);
    AfterStranding();
    SettledExactly(1, Stranding());
  }
}
