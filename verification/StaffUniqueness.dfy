/** Unique staff addresses in every interleaving: by the unique key and the check, and by the locks alone. */
module StaffUniqueness {
  import opened Prelude
  import opened StaffEmails

  // ---------- The unique key with the check ----------

  /** The unique key never sees a row without a normalization, so a checked call must still differ from those. */
  ghost predicate DiffersFromUnnormalized(t: Text, rows: Rows, c: Call) {
    NewAddress(c).Some? ==>
      forall id :: Live(rows, id) && rows[id].normalized.None? && Own(c) != Some(id) ==>
        Address(t, rows[id].email) != Address(t, NewAddress(c).value)
  }

  ghost predicate RowsOk(t: Text, rows: Rows) {
    Unique(t, rows) && AllCanonical(t, rows)
  }

  predicate CallAgrees(t: Text, c: Call) {
    NewAddress(c).Some? ==> Agrees(t, NewAddress(c).value)
  }

  ghost predicate SessionOk(t: Text, rows: Rows, x: Session) {
    CallAgrees(t, x.call) && (x.stage.Checked? ==> DiffersFromUnnormalized(t, rows, x.call))
  }

  ghost predicate Guarded(t: Text, st: State) {
    RowsOk(t, st.rows) && forall v :: 0 <= v < |st.sessions| ==> SessionOk(t, st.rows, st.sessions[v])
  }

  /** A row that agrees and is normalized has just one key. */
  lemma OneKey(t: Text, r: Row)
    requires Canonical(t, r)
    ensures Keys(t, r) == {Address(t, r.email)}
  {}

  /** A passed check includes the rows without a normalization. */
  lemma PassesCoversUnnormalized(t: Text, rows: Rows, c: Call)
    requires Passes(t, rows, c) && AllCanonical(t, rows)
    ensures DiffersFromUnnormalized(t, rows, c)
  {
    if NewAddress(c).Some? {
      forall id | Live(rows, id) && Own(c) != Some(id)
        ensures Address(t, rows[id].email) != Address(t, NewAddress(c).value)
      {
        OneKey(t, rows[id]);
      }
    }
  }

  /** What the key lets through keeps the rows unique. */
  lemma AdmittedKeepsUnique(t: Text, rows: Rows, c: Call, newId: nat)
    requires RowsOk(t, rows) && CallAgrees(t, c) && Admitted(t, rows, c) && DiffersFromUnnormalized(t, rows, c)
    requires c.Create? ==> newId !in rows
    ensures RowsOk(t, Written(t, rows, c, newId))
  {
    if NewAddress(c).Some? {
      var e := NewAddress(c).value;
      var r := Row(e, Some(t.fold(e)), false);
      OneKey(t, r);
      forall id | Live(rows, id) && Own(c) != Some(id) ensures Keys(t, r) !! Keys(t, rows[id]) {
        OneKey(t, rows[id]);
        assert rows[id].normalized.Some? ==> t.collate(rows[id].normalized.value) != t.collate(t.fold(e));
      }
    }
  }

  /** A write never makes a row without a normalization. */
  lemma WriteKeepsDiffers(t: Text, rows: Rows, c: Call, newId: nat, other: Call)
    requires DiffersFromUnnormalized(t, rows, other)
    ensures DiffersFromUnnormalized(t, Written(t, rows, c, newId), other)
  {
    var after := Written(t, rows, c, newId);
    if NewAddress(other).Some? {
      forall id | Live(after, id) && after[id].normalized.None? && Own(other) != Some(id)
        ensures Address(t, after[id].email) != Address(t, NewAddress(other).value)
      {
        assert Live(rows, id) && rows[id] == after[id];
      }
    }
  }

  lemma AdvanceGuarded(t: Text, st: State, v: nat, newId: nat)
    requires Guarded(t, st) && v < |st.sessions|
    ensures Guarded(t, Advance(t, st, v, newId))
  {
    var x := st.sessions[v];
    assert SessionOk(t, st.rows, x);
    if x.stage.Holding? && Passes(t, st.rows, x.call) { PassesCoversUnnormalized(t, st.rows, x.call); }
    if x.stage.Checked? && !(x.call.Create? && newId in st.rows) && Admitted(t, st.rows, x.call) {
      AdmittedKeepsUnique(t, st.rows, x.call, newId);
      forall u | 0 <= u < |st.sessions| && u != v
        ensures SessionOk(t, Written(t, st.rows, x.call, newId), st.sessions[u])
      {
        assert SessionOk(t, st.rows, st.sessions[u]);
        if st.sessions[u].stage.Checked? { WriteKeepsDiffers(t, st.rows, x.call, newId, st.sessions[u].call); }
      }
    }
  }

  lemma {:induction false} RunGuarded(t: Text, rows: Rows, actions: seq<Action>)
    requires RowsOk(t, rows) && AllAgree(t, actions)
    ensures Guarded(t, Run(t, rows, actions))
  {
    if actions != [] {
      var past, a := actions[..|actions| - 1], actions[|actions| - 1];
      RunGuarded(t, rows, past);
      var st := Run(t, rows, past);
      match a
      case Begin(c) =>
      case Step(v, newId) => if v < |st.sessions| { AdvanceGuarded(t, st, v, newId); }
      case Close(v) => if v < |st.sessions| { assert SessionOk(t, st.rows, st.sessions[v]); }
    }
  }

  /**
   From unique canonical accounts, every interleaving of calls, refusals and lost connections leaves no
   two live accounts whose addresses the database takes for equal. Of the texts in the run only the
   addresses that the calls write need to agree.
   */
  lemma AddressesStayUnique(t: Text, rows: Rows, actions: seq<Action>, i: nat, j: nat)
    requires Unique(t, rows) && AllCanonical(t, rows) && AllAgree(t, actions) && i != j
    requires Live(Run(t, rows, actions).rows, i) && Live(Run(t, rows, actions).rows, j)
    ensures var after := Run(t, rows, actions).rows;
            Keys(t, after[i]) !! Keys(t, after[j]) && Address(t, after[i].email) != Address(t, after[j].email)
  {
    RunGuarded(t, rows, actions);
    var after := Run(t, rows, actions).rows;
    OneKey(t, after[i]);
    OneKey(t, after[j]);
  }

  // ---------- The locks alone ----------

  ghost predicate Disjoint(a: seq<Lock>, b: seq<Lock>) {
    forall l :: l in a ==> l !in b
  }

  /** No lock is held twice. */
  ghost predicate Exclusive(t: Text, sessions: seq<Session>) {
    forall v, u :: 0 <= v < |sessions| && 0 <= u < |sessions| && v != u ==>
      Disjoint(Held(t, sessions[v]), Held(t, sessions[u]))
  }

  ghost predicate ChecksStand(t: Text, rows: Rows, sessions: seq<Session>) {
    forall v :: 0 <= v < |sessions| && sessions[v].stage.Checked? ==> Passes(t, rows, sessions[v].call)
  }

  predicate Told(t: Text, a: Call, b: Call) {
    NewAddress(a).Some? && NewAddress(b).Some? ==> SameNameIfEqual(t, NewAddress(a).value, NewAddress(b).value)
  }

  ghost predicate AllTold(t: Text, sessions: seq<Session>) {
    forall v, u :: 0 <= v < |sessions| && 0 <= u < |sessions| ==> Told(t, sessions[v].call, sessions[u].call)
  }

  predicate Sized(t: Text, x: Session) {
    x.stage.Taking? ==> x.stage.got <= |Plan(t, x.call)|
  }

  ghost predicate Locked(t: Text, st: State) {
    Exclusive(t, st.sessions) && ChecksStand(t, st.rows, st.sessions) && AllTold(t, st.sessions)
    && forall v :: 0 <= v < |st.sessions| ==> CallAgrees(t, st.sessions[v].call) && Sized(t, st.sessions[v])
  }

  /** A commit does not invalidate a check passed under locks disjoint from its own. */
  lemma WriteKeepsOtherCheck(t: Text, rows: Rows, c: Call, newId: nat, other: Call)
    requires Passes(t, rows, c) && Passes(t, rows, other) && CallAgrees(t, c)
    requires c.Create? ==> newId !in rows
    requires Disjoint(Plan(t, c), Plan(t, other)) && Told(t, c, other)
    ensures Passes(t, Written(t, rows, c, newId), other)
  {
    var mine, theirs := NewAddress(other), NewAddress(c);
    if mine.Some? { assert Email(t.fold(mine.value)) in Plan(t, other); }
    if theirs.Some? {
      assert Email(t.fold(theirs.value)) in Plan(t, c);
      OneKey(t, Row(theirs.value, Some(t.fold(theirs.value)), false));
    }
    if !c.Create? { assert Account(c.id) in Plan(t, c); }
    if !other.Create? { assert Account(other.id) in Plan(t, other); }
    if mine.Some? {
      var after := Written(t, rows, c, newId);
      forall id | Live(after, id) && Own(other) != Some(id)
        ensures t.collate(t.fold(mine.value)) !in Keys(t, after[id])
      {
        if id in rows && rows[id] == after[id] { assert Live(rows, id); }
      }
    }
  }

  /** Moving one session on keeps everything when it holds no lock that another one has. */
  lemma SessionMoves(t: Text, st: State, v: nat, x: Session)
    requires Locked(t, st) && v < |st.sessions| && x.call == st.sessions[v].call
    requires forall u :: 0 <= u < |st.sessions| && u != v ==>
               Disjoint(Held(t, x), Held(t, st.sessions[u])) && Disjoint(Held(t, st.sessions[u]), Held(t, x))
    requires (x.stage.Checked? ==> Passes(t, st.rows, x.call)) && Sized(t, x)
    ensures Locked(t, st.(sessions := st.sessions[v := x]))
  {}

  /** A session that holds no more than before. */
  lemma SessionKeepsLocks(t: Text, st: State, v: nat, x: Session)
    requires Locked(t, st) && v < |st.sessions| && x.call == st.sessions[v].call
    requires forall l :: l in Held(t, x) ==> l in Held(t, st.sessions[v])
    requires (x.stage.Checked? ==> Passes(t, st.rows, x.call)) && Sized(t, x)
    ensures Locked(t, st.(sessions := st.sessions[v := x]))
  {
    forall u | 0 <= u < |st.sessions| && u != v
      ensures Disjoint(Held(t, x), Held(t, st.sessions[u])) && Disjoint(Held(t, st.sessions[u]), Held(t, x))
    {
      assert Disjoint(Held(t, st.sessions[v]), Held(t, st.sessions[u]));
      assert Disjoint(Held(t, st.sessions[u]), Held(t, st.sessions[v]));
    }
    SessionMoves(t, st, v, x);
  }

  lemma TakeKeeps(t: Text, st: State, v: nat, got: nat)
    requires Locked(t, st) && v < |st.sessions| && st.sessions[v].stage == Taking(got)
    requires got < |Plan(t, st.sessions[v].call)| && Free(t, st, Plan(t, st.sessions[v].call)[got])
    ensures Locked(t, st.(sessions := st.sessions[v := st.sessions[v].(stage := Taking(got + 1))]))
  {
    var x := st.sessions[v];
    var y := x.(stage := Taking(got + 1));
    var plan := Plan(t, x.call);
    assert plan[..got + 1] == plan[..got] + [plan[got]];
    forall u | 0 <= u < |st.sessions| && u != v
      ensures Disjoint(Held(t, y), Held(t, st.sessions[u])) && Disjoint(Held(t, st.sessions[u]), Held(t, y))
    {
      assert Disjoint(Held(t, x), Held(t, st.sessions[u])) && Disjoint(Held(t, st.sessions[u]), Held(t, x));
      assert plan[got] !in Held(t, st.sessions[u]);
    }
    SessionMoves(t, st, v, y);
  }

  lemma CommitKeeps(t: Text, st: State, v: nat, newId: nat)
    requires Locked(t, st) && v < |st.sessions| && st.sessions[v].stage.Checked?
    requires st.sessions[v].call.Create? ==> newId !in st.rows
    ensures Locked(t, State(Written(t, st.rows, st.sessions[v].call, newId),
                            st.sessions[v := st.sessions[v].(stage := Committed)]))
  {
    var c := st.sessions[v].call;
    SessionKeepsLocks(t, st, v, st.sessions[v].(stage := Committed));
    var sessions := st.sessions[v := st.sessions[v].(stage := Committed)];
    var rows := Written(t, st.rows, c, newId);
    forall u | 0 <= u < |sessions| && sessions[u].stage.Checked? ensures Passes(t, rows, sessions[u].call) {
      assert Passes(t, st.rows, st.sessions[u].call) && Passes(t, st.rows, c);
      assert Disjoint(Held(t, st.sessions[v]), Held(t, st.sessions[u]));
      WriteKeepsOtherCheck(t, st.rows, c, newId, st.sessions[u].call);
    }
  }

  lemma AdvanceLocked(t: Text, st: State, v: nat, newId: nat)
    requires Locked(t, st) && v < |st.sessions|
    ensures Locked(t, Advance(t, st, v, newId))
  {
    var x := st.sessions[v];
    match x.stage
    case Taking(got) =>
      if got >= |Plan(t, x.call)| {
        LastTaken(t, st, v);
      } else if Free(t, st, Plan(t, x.call)[got]) {
        TakeKeeps(t, st, v, got);
      }
    case Holding =>
      SessionKeepsLocks(t, st, v, x.(stage := if Passes(t, st.rows, x.call) then Checked else Gone));
    case Checked =>
      if !(x.call.Create? && newId in st.rows) {
        if Admitted(t, st.rows, x.call) { CommitKeeps(t, st, v, newId); }
        else { SessionKeepsLocks(t, st, v, x.(stage := Gone)); }
      }
    case Committed => SessionKeepsLocks(t, st, v, x.(stage := Gone));
    case Gone =>
  }

  /** All taken: the session goes on holding them. */
  lemma LastTaken(t: Text, st: State, v: nat)
    requires Locked(t, st) && v < |st.sessions| && st.sessions[v].stage.Taking?
    requires st.sessions[v].stage.got == |Plan(t, st.sessions[v].call)|
    ensures Locked(t, st.(sessions := st.sessions[v := st.sessions[v].(stage := Holding)]))
  {
    SessionKeepsLocks(t, st, v, st.sessions[v].(stage := Holding));
  }

  lemma BeginLocked(t: Text, st: State, c: Call)
    requires Locked(t, st) && CallAgrees(t, c) && Told(t, c, c)
    requires forall v :: 0 <= v < |st.sessions| ==> Told(t, c, st.sessions[v].call) && Told(t, st.sessions[v].call, c)
    ensures Locked(t, Apply(t, st, Begin(c)))
  {}

  /** The calls of a state are calls the run began. */
  ghost predicate Begun(st: State, actions: seq<Action>) {
    forall v :: 0 <= v < |st.sessions| ==> exists k :: 0 <= k < |actions| && actions[k] == Begin(st.sessions[v].call)
  }

  lemma {:induction false} RunBegun(t: Text, rows: Rows, actions: seq<Action>)
    ensures Begun(Run(t, rows, actions), actions)
  {
    if actions != [] {
      var n := |actions| - 1;
      var st, after := Run(t, rows, actions[..n]), Run(t, rows, actions);
      RunBegun(t, rows, actions[..n]);
      forall v | 0 <= v < |after.sessions|
        ensures exists k :: 0 <= k < |actions| && actions[k] == Begin(after.sessions[v].call)
      {
        if v < |st.sessions| {
          assert after.sessions[v].call == st.sessions[v].call;
          var k :| 0 <= k < n && actions[..n][k] == Begin(st.sessions[v].call);
          assert actions[k] == Begin(after.sessions[v].call);
        } else {
          assert actions[n] == Begin(after.sessions[v].call);
        }
      }
    }
  }

  lemma NewCallIsTold(t: Text, st: State, actions: seq<Action>, c: Call)
    requires Begun(st, actions) && LockNamesTell(t, actions + [Begin(c)])
    ensures Told(t, c, c)
    ensures forall v :: 0 <= v < |st.sessions| ==> Told(t, c, st.sessions[v].call) && Told(t, st.sessions[v].call, c)
  {
    var all := actions + [Begin(c)];
    assert all[|actions|] == Begin(c);
    forall v | 0 <= v < |st.sessions| ensures Told(t, c, st.sessions[v].call) && Told(t, st.sessions[v].call, c) {
      var k :| 0 <= k < |actions| && actions[k] == Begin(st.sessions[v].call);
      assert all[k] == Begin(st.sessions[v].call);
    }
  }

  lemma {:induction false} RunLocked(t: Text, rows: Rows, actions: seq<Action>)
    requires AllAgree(t, actions) && LockNamesTell(t, actions)
    ensures Locked(t, Run(t, rows, actions))
  {
    if actions != [] {
      var past, a := actions[..|actions| - 1], actions[|actions| - 1];
      var st := Run(t, rows, past);
      RunLocked(t, rows, past);
      match a
      case Begin(c) =>
        RunBegun(t, rows, past);
        assert actions == past + [Begin(c)];
        NewCallIsTold(t, st, past, c);
        BeginLocked(t, st, c);
      case Step(v, newId) => if v < |st.sessions| { AdvanceLocked(t, st, v, newId); }
      case Close(v) => if v < |st.sessions| { SessionKeepsLocks(t, st, v, st.sessions[v].(stage := Gone)); }
    }
  }

  /**
   Where addresses that the database takes for equal have one lock name, the locks suffice: a check that
   a call has passed still holds when it writes, whatever others committed since. So the unique key can
   refuse the write only because of a row marked deleted, which the check does not see.
   */
  lemma CheckStandsUntilWrite(t: Text, rows: Rows, actions: seq<Action>, v: nat)
    requires AllAgree(t, actions) && LockNamesTell(t, actions)
    requires v < |Run(t, rows, actions).sessions| && Run(t, rows, actions).sessions[v].stage.Checked?
    ensures var st := Run(t, rows, actions);
            && Passes(t, st.rows, st.sessions[v].call)
            && (!Admitted(t, st.rows, st.sessions[v].call) ==> exists id :: id in st.rows && st.rows[id].deleted)
  {
    RunLocked(t, rows, actions);
    var st := Run(t, rows, actions);
    var c := st.sessions[v].call;
    if !Admitted(t, st.rows, c) {
      var n := t.fold(NewAddress(c).value);
      var id :| id in st.rows && Own(c) != Some(id) && st.rows[id].normalized.Some?
                && t.collate(st.rows[id].normalized.value) == t.collate(n);
      assert t.collate(n) in Keys(t, st.rows[id]);
      assert !Live(st.rows, id);
    }
  }

  /**
   Otherwise they do not: two addresses that the database takes for equal but that fold differently
   take different locks and pass their checks side by side, and only the unique key refuses the second.
   */
  lemma OnlyTheKeyRefuses(t: Text, rows: Rows, a: string, b: string, newId: nat)
    requires Address(t, a) == Address(t, b) && t.fold(a) != t.fold(b) && newId !in rows
    requires NoConflict(t, rows, t.fold(a), None) && KeyAllows(t, rows, t.fold(a), None)
    ensures Disjoint(Plan(t, Create(a)), Plan(t, Create(b)))
    ensures Passes(t, rows, Create(a)) && Passes(t, rows, Create(b)) && Admitted(t, rows, Create(a))
    ensures var after := Written(t, rows, Create(a), newId);
            !Passes(t, after, Create(b)) && !Admitted(t, after, Create(b))
  {
    var after := Written(t, rows, Create(a), newId);
    assert Live(after, newId) && t.collate(t.fold(b)) in Keys(t, after[newId]);
  }

  // ---------- Why stored rows have to be canonical ----------

  /**
   A stored row stops a second account with its own address, by the check or by the key, if and only if
   one of its keys is that address; without that the second account is admitted and is a duplicate.
   */
  lemma DuplicateAdmittedExactly(t: Text, rows: Rows, id: nat, newId: nat)
    requires Live(rows, id) && newId !in rows
    requires NoConflict(t, rows, t.fold(rows[id].email), Some(id))
    requires KeyAllows(t, rows, t.fold(rows[id].email), Some(id))
    ensures var again := Create(rows[id].email);
            && (Passes(t, rows, again) && Admitted(t, rows, again)
                <==> Address(t, rows[id].email) !in Keys(t, rows[id]))
            && !Unique(t, Written(t, rows, again, newId))
  {
    var after := Written(t, rows, Create(rows[id].email), newId);
    assert Live(after, id) && Live(after, newId);
    var shared := t.collate(t.lower(rows[id].email));
    assert shared in Keys(t, after[id]) && shared in Keys(t, after[newId]);
  }
}
