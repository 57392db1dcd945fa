/** Exactly when the staff calls on pooled connections can come to wait in a circle. */
module LockCircles {
  import opened Prelude
  import opened NamedLocks
  import opened LockOrder

  predicate Leaks(a: Action) {
    a.Abort? || a.ReleaseFails?
  }

  /** Nothing more leaks. */
  predicate LeakFree(more: seq<Action>) {
    forall i :: 0 <= i < |more| ==> !Leaks(more[i])
  }

  lemma {:induction false} AfterConcat(st: State, a: seq<Action>, b: seq<Action>)
    ensures After(st, a + b) == After(After(st, a), b)
  {
    if b == [] {
      assert a + b == a;
    } else {
      var n := |b| - 1;
      AfterConcat(st, a, b[..n]);
      assert (a + b)[..|a| + n] == a + b[..n];
    }
  }

  lemma One(st: State, a: Action)
    ensures After(st, [a]) == Apply(st, a)
  {
    assert [a][..0] == [];
    assert After(st, [a][..0]) == st;
  }

  lemma Two(st: State, a: Action, b: Action)
    ensures After(st, [a] + [b]) == Apply(Apply(st, a), b)
    ensures !Leaks(a) && !Leaks(b) ==> LeakFree([a] + [b])
  {
    One(st, a);
    One(Apply(st, a), b);
    AfterConcat(st, [a], [b]);
  }

  /** Without a new leak nothing more is leaked. */
  lemma {:induction false} LeaksWereThere(st: State, more: seq<Action>)
    requires LeakFree(more)
    ensures EmailLeaked(After(st, more)) ==> EmailLeaked(st)
    ensures TwoLeakedAccounts(After(st, more)) ==> TwoLeakedAccounts(st)
  {
    if more != [] {
      var n := |more| - 1;
      var mid, a := After(st, more[..n]), more[n];
      LeaksWereThere(st, more[..n]);
      assert !Leaks(a);
      forall p | 0 <= p < |Apply(mid, a).sessions|
        ensures LeakedEmail(Apply(mid, a).sessions[p]) ==> p < |mid.sessions| && LeakedEmail(mid.sessions[p])
        ensures LeakedAccount(Apply(mid, a).sessions[p]) ==> p < |mid.sessions| && LeakedAccount(mid.sessions[p])
      {
        LeakIsOld(mid, a, p);
      }
    }
  }

  lemma LeakIsOld(st: State, a: Action, p: nat)
    requires !Leaks(a) && p < |Apply(st, a).sessions|
    ensures Apply(st, a).sessions[p].leaked == {}
            || (p < |st.sessions| && Apply(st, a).sessions[p].leaked == st.sessions[p].leaked)
  {}

  /** A connection can always finish its call, keeping what it leaked. */
  lemma {:induction false} Drain(st: State, p: nat) returns (more: seq<Action>)
    requires Invariant(st) && p < |st.sessions|
    ensures LeakFree(more) && Invariant(After(st, more))
    ensures After(st, more).sessions == st.sessions[p := Session(st.sessions[p].leaked, [], [])]
    decreases |st.sessions[p].left|, |st.sessions[p].taken|
  {
    var x := st.sessions[p];
    if Idle(x) {
      assert st.sessions[p := x] == st.sessions;
      more := [];
    } else {
      var a := if x.left != [] then Stop(p) else Release(p);
      var next := Apply(st, a);
      ApplyKeeps(st, a);
      One(st, a);
      var rest := Drain(next, p);
      more := [a] + rest;
      AfterConcat(st, [a], rest);
    }
  }

  lemma BeginIdle(st: State, s: nat, call: Call)
    requires Invariant(st) && s < |st.sessions| && Idle(st.sessions[s])
    ensures Invariant(Apply(st, Begin(s, call)))
    ensures Apply(st, Begin(s, call)).sessions == st.sessions[s := Session(st.sessions[s].leaked, [], Names(call))]
  {
    ApplyKeeps(st, Begin(s, call));
    NamesSorted(call);
  }

  lemma AcquireMoves(st: State, s: nat)
    requires Invariant(st) && s < |st.sessions| && st.sessions[s].left != [] && st.sessions[s].left[0] !in st.owner
    ensures Invariant(Apply(st, Acquire(s)))
    ensures var x := st.sessions[s];
            Apply(st, Acquire(s)).sessions == st.sessions[s := Session(x.leaked, x.taken + [x.left[0]], x.left[1..])]
  {
    ApplyKeeps(st, Acquire(s));
  }

  lemma WaitsFor(st: State, a: nat, b: nat)
    requires Invariant(st) && a < |st.sessions| && b < |st.sessions| && a != b
    requires st.sessions[a].left != [] && Holds(st.sessions[b], st.sessions[a].left[0])
    ensures Waits(st, a, b)
  {}

  /** Two idle connections that leaked account names: each asks for what the other leaked. */
  lemma Cross(st: State, p: nat, q: nat, x: nat, y: nat) returns (more: seq<Action>)
    requires Invariant(st) && p < |st.sessions| && q < |st.sessions| && p != q
    requires Idle(st.sessions[p]) && Account(x) in st.sessions[p].leaked
    requires Idle(st.sessions[q]) && Account(y) in st.sessions[q].leaked
    ensures LeakFree(more) && Circle(After(st, more), [p, q, p])
  {
    var a, b := Begin(p, Delete(y)), Begin(q, Delete(x));
    var s1 := Apply(st, a);
    var s2 := Apply(s1, b);
    BeginIdle(st, p, Delete(y));
    BeginIdle(s1, q, Delete(x));
    WaitsFor(s2, p, q);
    WaitsFor(s2, q, p);
    Two(st, a, b);
    more := [a] + [b];
  }

  /** A new connection r updates account `id` to address e and takes the account; p is asked to delete the account. */
  function TrapRun(p: nat, r: nat, e: nat, id: nat): seq<Action> {
    ([Connect] + [Begin(r, Update(id, Some(e)))]) + ([Acquire(r)] + [Begin(p, Delete(id))])
  }

  /** If p has leaked the address, and the account is free, p and r wait for each other. */
  lemma Trap(st: State, p: nat, e: nat, id: nat)
    requires Invariant(st) && p < |st.sessions| && Idle(st.sessions[p]) && Email(e) in st.sessions[p].leaked
    requires Account(id) !in st.owner
    ensures LeakFree(TrapRun(p, |st.sessions|, e, id))
    ensures Circle(After(st, TrapRun(p, |st.sessions|, e, id)), [p, |st.sessions|, p])
  {
    var r, update := |st.sessions|, Update(id, Some(e));
    var s1 := Apply(st, Connect);
    var s2 := Apply(s1, Begin(r, update));
    ApplyKeeps(st, Connect);
    BeginIdle(s1, r, update);
    NobodyHolds(s2, Account(id));
    TrapCloses(s2, p, r, e, id);
    Two(st, Connect, Begin(r, update));
    AfterConcat(st, [Connect] + [Begin(r, update)], [Acquire(r)] + [Begin(p, Delete(id))]);
  }

  /** A name that no connection holds is free. */
  lemma NobodyHolds(st: State, k: Key)
    requires Invariant(st)
    ensures k in st.owner ==> st.owner[k] < |st.sessions| && Holds(st.sessions[st.owner[k]], k)
  {}

  lemma Trapped(st: State, p: nat, r: nat, e: nat, id: nat)
    requires Invariant(st) && p < |st.sessions| && r < |st.sessions| && p != r
    requires Idle(st.sessions[p]) && Email(e) in st.sessions[p].leaked
    requires st.sessions[r] == Session({}, [Account(id)], [Email(e)])
    ensures Circle(Apply(st, Begin(p, Delete(id))), [p, r, p])
  {
    BeginIdle(st, p, Delete(id));
    WaitsFor(Apply(st, Begin(p, Delete(id))), p, r);
    WaitsFor(Apply(st, Begin(p, Delete(id))), r, p);
  }

  lemma TrapCloses(st: State, p: nat, r: nat, e: nat, id: nat)
    requires Invariant(st) && p < |st.sessions| && r < |st.sessions| && p != r
    requires Idle(st.sessions[p]) && Email(e) in st.sessions[p].leaked
    requires st.sessions[r] == Session({}, [], Names(Update(id, Some(e)))) && Account(id) !in st.owner
    ensures Circle(After(st, [Acquire(r)] + [Begin(p, Delete(id))]), [p, r, p])
  {
    var a, b := Acquire(r), Begin(p, Delete(id));
    var s1 := Apply(st, a);
    var names := [Account(id), Email(e)];
    assert Names(Update(id, Some(e))) == names;
    AcquireMoves(st, r);
    assert names[1..] == [Email(e)] && [] + [Account(id)] == [Account(id)];
    Trapped(s1, p, r, e, id);
    Two(st, a, b);
  }

  /** Some account's name is not taken: there are more accounts than names taken. */
  lemma {:induction false} FreeAbove(taken: set<nat>) returns (id: nat)
    ensures forall i :: i in taken ==> i < id
  {
    if taken == {} {
      id := 0;
    } else {
      var i :| i in taken;
      var rest := FreeAbove(taken - {i});
      id := if i < rest then rest else i + 1;
      forall j | j in taken ensures j < id { assert j == i || j in taken - {i}; }
    }
  }

  lemma FreeAccount(owner: map<Key, nat>) returns (id: nat)
    ensures Account(id) !in owner
  {
    var taken := set k | k in owner :: k.place;
    id := FreeAbove(taken);
    assert Account(id) in owner ==> Account(id).place in taken;
  }

  /** From one leaked address a circle can be reached without another leak. */
  lemma EmailTraps(st: State, p: nat, e: nat) returns (more: seq<Action>, path: seq<nat>)
    requires Invariant(st) && p < |st.sessions| && Email(e) in st.sessions[p].leaked
    ensures LeakFree(more) && Circle(After(st, more), path)
  {
    var first := Drain(st, p);
    var mid := After(st, first);
    var id := FreeAccount(mid.owner);
    var rest := TrapRun(p, |mid.sessions|, e, id);
    Trap(mid, p, e, id);
    more, path := first + rest, [p, |mid.sessions|, p];
    AfterConcat(st, first, rest);
  }

  /** So it can from two leaked account names. */
  lemma AccountsTrap(st: State, p: nat, q: nat, x: nat, y: nat) returns (more: seq<Action>, path: seq<nat>)
    requires Invariant(st) && p < |st.sessions| && q < |st.sessions| && p != q
    requires Account(x) in st.sessions[p].leaked && Account(y) in st.sessions[q].leaked
    ensures LeakFree(more) && Circle(After(st, more), path)
  {
    var first := Drain(st, p);
    var mid := After(st, first);
    var second := Drain(mid, q);
    var rest := Cross(After(mid, second), p, q, x, y);
    more, path := first + (second + rest), [p, q, p];
    AfterConcat(mid, second, rest);
    AfterConcat(st, first, second + rest);
  }

  /** Each leak that CircleNeedsLeaks names does lead to a circle. */
  lemma LeaksTrap(st: State) returns (more: seq<Action>, path: seq<nat>)
    requires Invariant(st) && (EmailLeaked(st) || TwoLeakedAccounts(st))
    ensures LeakFree(more) && Circle(After(st, more), path)
  {
    if EmailLeaked(st) {
      var p :| 0 <= p < |st.sessions| && LeakedEmail(st.sessions[p]);
      var k :| k in st.sessions[p].leaked && k.Email?;
      more, path := EmailTraps(st, p, k.place);
    } else {
      var p, q :| 0 <= p < q < |st.sessions| && LeakedAccount(st.sessions[p]) && LeakedAccount(st.sessions[q]);
      var k :| k in st.sessions[p].leaked && k.Account?;
      var l :| l in st.sessions[q].leaked && l.Account?;
      more, path := AccountsTrap(st, p, q, k.place, l.place);
    }
  }

  /**
   After any run of staff calls, connections can come to wait in a circle without any further leak if
   and only if some connection has leaked an e-mail's name, or two have leaked account names.
   */
  lemma CircleExactly(actions: seq<Action>)
    ensures (exists more, path :: LeakFree(more) && Circle(Run(actions + more), path))
       <==> EmailLeaked(Run(actions)) || TwoLeakedAccounts(Run(actions))
  {
    var start := State(map[], []);
    AfterKeeps(start, actions);
    if more, path :| LeakFree(more) && Circle(Run(actions + more), path) {
      AfterConcat(start, actions, more);
      AfterKeeps(Run(actions), more);
      CircleNeedsLeaks(Run(actions + more), path);
      LeaksWereThere(Run(actions), more);
    }
    if EmailLeaked(Run(actions)) || TwoLeakedAccounts(Run(actions)) {
      var more, path := LeaksTrap(Run(actions));
      AfterConcat(start, actions, more);
      assert LeakFree(more) && Circle(Run(actions + more), path);
    }
  }

  // ---------- Such a run ----------

  /** An account is created; the release of its address raises, and the connection returns to the pool with it. */
  function LeakingCreate(): seq<Action> {
    ([Connect] + [Begin(0, Create(7))]) + ([Acquire(0)] + [ReleaseFails(0)])
  }

  lemma AfterLeakingCreate()
    ensures Invariant(Run(LeakingCreate())) && Run(LeakingCreate()).sessions == [Session({Email(7)}, [], [])]
  {
    var start := State(map[], []);
    var begun := Apply(Apply(start, Connect), Begin(0, Create(7)));
    ApplyKeeps(start, Connect);
    Two(start, Connect, Begin(0, Create(7)));
    BeginIdle(Apply(start, Connect), 0, Create(7));
    assert begun.sessions == [Session({}, [], [Email(7)])];
    CreateLeaks(begun);
    AfterConcat(start, [Connect] + [Begin(0, Create(7))], [Acquire(0)] + [ReleaseFails(0)]);
    AfterKeeps(start, LeakingCreate());
  }

  lemma CreateLeaks(st: State)
    requires Invariant(st) && st.sessions == [Session({}, [], [Email(7)])]
    ensures After(st, [Acquire(0)] + [ReleaseFails(0)]).sessions == [Session({Email(7)}, [], [])]
  {
    NobodyHolds(st, Email(7));
    AcquireMoves(st, 0);
    assert [Email(7)][1..] == [] && [] + [Email(7)] == [Email(7)];
    ReleaseLeaks(Apply(st, Acquire(0)));
    Two(st, Acquire(0), ReleaseFails(0));
  }

  lemma ReleaseLeaks(st: State)
    requires st.sessions == [Session({}, [Email(7)], [])]
    ensures Apply(st, ReleaseFails(0)).sessions == [Session({Email(7)}, [], [])]
  {
    assert [Email(7)][..0] == [] && {} + {Email(7)} == {Email(7)};
  }

  /** Another connection updates account 3 to that address, and the first one is asked to delete account 3. */
  function CircleRun(): seq<Action> {
    LeakingCreate() + TrapRun(0, 1, 7, 3)
  }

  /** They wait for each other. */
  lemma CircleHappens()
    ensures Circle(Run(CircleRun()), [0, 1, 0])
  {
    var st := Run(LeakingCreate());
    AfterLeakingCreate();
    NobodyHolds(st, Account(3));
    Trap(st, 0, 7, 3);
    AfterConcat(State(map[], []), LeakingCreate(), TrapRun(0, 1, 7, 3));
  }
}
