/** Pooled connections that take the named locks of staff calls, and leak some: when they can wait in a circle. */
module LockOrder {
  import opened Prelude
  import opened NamedLocks

  /** A call that takes named locks: create an account, update one and perhaps its address, or delete one. */
  datatype Call = Create(email: nat) | Update(id: nat, newEmail: Option<nat>) | Delete(id: nat)

  /** The names a call asks for. */
  function Names(c: Call): seq<Key> {
    match c
    case Create(e) => [Email(e)]
    case Update(id, e) => [Account(id)] + if e.Some? then [Email(e.value)] else []
    case Delete(id) => [Account(id)]
  }

  /** The names a connection still holds from earlier calls, those it has taken in order, and those it wants. */
  datatype Session = Session(leaked: set<Key>, taken: seq<Key>, left: seq<Key>)

  datatype State = State(owner: map<Key, nat>, sessions: seq<Session>)

  /**
   Open a connection; begin a call on an idle one; take the next name; stop taking, because a name was
   refused or the work is done; release the last name. A release that raises, or a GET_LOCK that raises
   and so ends the call, leaks; losing the connection frees everything.
   */
  datatype Action =
    | Connect
    | Begin(s: nat, call: Call)
    | Acquire(s: nat)
    | Stop(s: nat)
    | Release(s: nat)
    | ReleaseFails(s: nat)
    | Abort(s: nat)
    | Close(s: nat)

  predicate Holds(x: Session, k: Key) {
    k in x.leaked || k in x.taken
  }

  predicate Idle(x: Session) {
    x.taken == [] && x.left == []
  }

  function Keys(taken: seq<Key>): set<Key> {
    set k | k in taken
  }

  /** The connection after the action, which does what it can. */
  function Moved(x: Session, a: Action): Session {
    match a
    case Begin(_, call) => if Idle(x) then x.(left := SortedKeys(Names(call))) else x
    case Acquire(_) => if x.left != [] then Session(x.leaked, x.taken + [x.left[0]], x.left[1..]) else x
    case Stop(_) => x.(left := [])
    case Release(_) => if x.left == [] && x.taken != [] then x.(taken := x.taken[..|x.taken| - 1]) else x
    case ReleaseFails(_) =>
      if x.left == [] && x.taken != [] then
        Session(x.leaked + {x.taken[|x.taken| - 1]}, x.taken[..|x.taken| - 1], [])
      else x
    case Abort(_) => if x.left != [] then Session(x.leaked + Keys(x.taken), [], []) else x
    case Close(_) => Session({}, [], [])
    case Connect => x
  }

  /** A name is free, or the connection holds it already: named locks can be taken again by their holder. */
  predicate Available(owner: map<Key, nat>, s: nat, k: Key) {
    k !in owner || owner[k] == s
  }

  /** Who holds what once connection s has moved on to y. */
  function Owners(owner: map<Key, nat>, s: nat, y: Session): map<Key, nat> {
    map k | k in owner.Keys + y.leaked + Keys(y.taken) && (Holds(y, k) || (k in owner && owner[k] != s))
      :: if Holds(y, k) then s else owner[k]
  }

  function Apply(st: State, a: Action): State {
    if a.Connect? then st.(sessions := st.sessions + [Session({}, [], [])])
    else if a.s >= |st.sessions| then st
    else
      var x := st.sessions[a.s];
      if a.Acquire? && x.left != [] && !Available(st.owner, a.s, x.left[0]) then st
      else State(Owners(st.owner, a.s, Moved(x, a)), st.sessions[a.s := Moved(x, a)])
  }

  function After(st: State, actions: seq<Action>): State {
    if actions == [] then st else Apply(After(st, actions[..|actions| - 1]), actions[|actions| - 1])
  }

  function Run(actions: seq<Action>): State {
    After(State(map[], []), actions)
  }

  // ---------- The invariant ----------

  /** Where a call stands: an account's name is asked for before an e-mail's, and nothing is taken twice. */
  predicate Shaped(x: Session) {
    || x.left == []
    || (x.taken == [] && (|x.left| == 1 || (|x.left| == 2 && x.left[0].Account? && x.left[1].Email?)))
    || (|x.taken| == 1 && x.taken[0].Account? && |x.left| == 1 && x.left[0].Email?)
  }

  /** The table and the connections agree on who holds what. */
  ghost predicate Agree(owner: map<Key, nat>, sessions: seq<Session>) {
    && (forall k :: k in owner ==> owner[k] < |sessions| && Holds(sessions[owner[k]], k))
    && (forall s, k :: 0 <= s < |sessions| && Holds(sessions[s], k) ==> k in owner && owner[k] == s)
  }

  ghost predicate AllShaped(sessions: seq<Session>) {
    forall s :: 0 <= s < |sessions| ==> Shaped(sessions[s])
  }

  ghost predicate Invariant(st: State) {
    AllShaped(st.sessions) && Agree(st.owner, st.sessions)
  }

  /** sorted(set(...)) puts the account's name first. */
  lemma NamesSorted(c: Call)
    ensures SortedKeys(Names(c)) == Names(c)
  {
    if c.Update? && c.newEmail.Some? {
      var a, e := Account(c.id), Email(c.newEmail.value);
      assert Names(c) == [a, e] && [a, e][1..] == [e];
      OneSorted(e);
      assert Insert(a, [e]) == [a] + [e];
    } else {
      OneSorted(Names(c)[0]);
    }
  }

  lemma OneSorted(k: Key)
    ensures SortedKeys([k]) == [k]
  {
    assert [k][1..] == [];
  }

  lemma MovedShaped(x: Session, a: Action)
    requires Shaped(x)
    ensures Shaped(Moved(x, a))
  {
    if a.Begin? { NamesSorted(a.call); }
  }

  /** A move to names that are its own or free keeps the table right. */
  lemma MoveKeepsAgree(owner: map<Key, nat>, sessions: seq<Session>, s: nat, y: Session)
    requires Agree(owner, sessions) && s < |sessions|
    requires forall k :: Holds(y, k) ==> Available(owner, s, k)
    ensures Agree(Owners(owner, s, y), sessions[s := y])
  {
    var owner', sessions' := Owners(owner, s, y), sessions[s := y];
    forall k | k in owner' ensures owner'[k] < |sessions'| && Holds(sessions'[owner'[k]], k) {
      if !Holds(y, k) { assert k in owner && owner[k] != s && Holds(sessions[owner[k]], k); }
    }
    forall u, k | 0 <= u < |sessions'| && Holds(sessions'[u], k) ensures k in owner' && owner'[k] == u {
      if u == s { assert Holds(y, k); } else { assert Holds(sessions[u], k) && k in owner && owner[k] == u; }
    }
  }

  /** Every move but taking a name holds nothing new. */
  lemma MovedHolds(x: Session, a: Action, k: Key)
    requires Holds(Moved(x, a), k)
    ensures Holds(x, k) || (a.Acquire? && x.left != [] && k == x.left[0])
  {}

  lemma ApplyKeeps(st: State, a: Action)
    requires Invariant(st)
    ensures Invariant(Apply(st, a))
  {
    if !a.Connect? && a.s < |st.sessions| {
      var x := st.sessions[a.s];
      if !(a.Acquire? && x.left != [] && !Available(st.owner, a.s, x.left[0])) {
        MovedShaped(x, a);
        forall k | Holds(Moved(x, a), k) ensures Available(st.owner, a.s, k) { MovedHolds(x, a, k); }
        MoveKeepsAgree(st.owner, st.sessions, a.s, Moved(x, a));
      }
    }
  }

  lemma {:induction false} AfterKeeps(st: State, actions: seq<Action>)
    requires Invariant(st)
    ensures Invariant(After(st, actions))
  {
    if actions != [] {
      AfterKeeps(st, actions[..|actions| - 1]);
      ApplyKeeps(After(st, actions[..|actions| - 1]), actions[|actions| - 1]);
    }
  }

  /**
   What one connection holds and wants after each action: a name that was free or its own is taken; a
   GET_LOCK that raises ends the call and keeps what was taken; a release frees the last name, or keeps it
   when it raises; losing the connection frees everything.
   */
  lemma MovesExactly(st: State, s: nat)
    requires Invariant(st) && s < |st.sessions|
    ensures var x := st.sessions[s];
            && (x.left != [] ==>
                  && Apply(st, Abort(s)).sessions[s] == Session(x.leaked + Keys(x.taken), [], [])
                  && Apply(st, Stop(s)).sessions[s] == Session(x.leaked, x.taken, [])
                  && Apply(st, Acquire(s)).sessions[s]
                     == if x.left[0] in st.owner && st.owner[x.left[0]] != s then x
                        else Session(x.leaked, x.taken + [x.left[0]], x.left[1..]))
            && (x.left == [] && x.taken != [] ==>
                  var last := x.taken[|x.taken| - 1];
                  && Apply(st, Release(s)).sessions[s] == Session(x.leaked, x.taken[..|x.taken| - 1], [])
                  && Apply(st, ReleaseFails(s)).sessions[s]
                     == Session(x.leaked + {last}, x.taken[..|x.taken| - 1], []))
            && Apply(st, Close(s)).sessions[s] == Session({}, [], [])
            && forall k :: k in Apply(st, Close(s)).owner <==> k in st.owner && st.owner[k] != s
  {
    ApplyKeeps(st, Close(s));
  }

  // ---------- Waiting ----------

  /** a cannot go on until b, another connection, gives up the name a wants next. */
  predicate Waits(st: State, a: nat, b: nat) {
    a < |st.sessions| && a != b && st.sessions[a].left != []
    && st.sessions[a].left[0] in st.owner && st.owner[st.sessions[a].left[0]] == b
  }

  ghost predicate WaitingPath(st: State, path: seq<nat>) {
    |path| >= 2 && forall i :: 0 <= i < |path| - 1 ==> Waits(st, path[i], path[i + 1])
  }

  ghost predicate Circle(st: State, path: seq<nat>) {
    WaitingPath(st, path) && path[0] == path[|path| - 1]
  }

  lemma OneHolder(st: State, a: nat, b: nat, k: Key)
    requires Invariant(st) && a < |st.sessions| && b < |st.sessions|
    requires Holds(st.sessions[a], k) && Holds(st.sessions[b], k)
    ensures a == b
  {
    assert Holds(st.sessions[a], k) && st.owner[k] == a;
    assert Holds(st.sessions[b], k) && st.owner[k] == b;
  }

  // ---------- What a circle needs ----------

  predicate LeakedEmail(x: Session) {
    exists k :: k in x.leaked && k.Email?
  }

  predicate LeakedAccount(x: Session) {
    exists k :: k in x.leaked && k.Account?
  }

  /** Some connection has leaked an e-mail's name. */
  ghost predicate EmailLeaked(st: State) {
    exists p :: 0 <= p < |st.sessions| && LeakedEmail(st.sessions[p])
  }

  /** Two connections have leaked account names. */
  ghost predicate TwoLeakedAccounts(st: State) {
    exists p, q :: 0 <= p < q < |st.sessions| && LeakedAccount(st.sessions[p]) && LeakedAccount(st.sessions[q])
  }

  /** Whoever is waited for while waiting itself has leaked the name, or holds an account's and wants an e-mail's. */
  lemma WaitedForLeaked(st: State, a: nat, b: nat, c: nat)
    requires Invariant(st) && Waits(st, a, b) && Waits(st, b, c)
    ensures var k := st.sessions[a].left[0];
            k in st.sessions[b].leaked || (k.Account? && st.sessions[b].left[0].Email?)
  {
    assert Shaped(st.sessions[b]) && Holds(st.sessions[b], st.sessions[a].left[0]);
  }

  /** Along a circle, without a leaked e-mail name, each connection has leaked the account name it is asked for. */
  lemma CircleLeaks(st: State, a: nat, b: nat, c: nat, d: nat)
    requires Invariant(st) && !EmailLeaked(st) && Waits(st, a, b) && Waits(st, b, c) && Waits(st, c, d)
    ensures LeakedAccount(st.sessions[b])
  {
    WaitedForLeaked(st, a, b, c);
    WaitedForLeaked(st, b, c, d);
    assert !LeakedEmail(st.sessions[b]) && !LeakedEmail(st.sessions[c]);
  }

  /** The step after step i of a circle. */
  function NextOf(path: seq<nat>, i: nat): nat
    requires i < |path| - 1
  {
    if i + 1 == |path| - 1 then 0 else i + 1
  }

  lemma CircleSteps(st: State, path: seq<nat>, i: nat)
    requires Circle(st, path) && i < |path| - 1
    ensures NextOf(path, i) < |path| - 1 && Waits(st, path[i], path[NextOf(path, i)])
  {
    assert Waits(st, path[i], path[i + 1]);
  }

  /** A circle of waiting connections needs a leaked e-mail name or two connections with leaked account names. */
  lemma CircleNeedsLeaks(st: State, path: seq<nat>)
    requires Invariant(st) && Circle(st, path)
    ensures EmailLeaked(st) || TwoLeakedAccounts(st)
  {
    var i1 := NextOf(path, 0);
    CircleSteps(st, path, 0);
    CircleSteps(st, path, i1);
    var i2 := NextOf(path, i1);
    CircleSteps(st, path, i2);
    var i3 := NextOf(path, i2);
    CircleSteps(st, path, i3);
    if !EmailLeaked(st) {
      CircleLeaks(st, path[0], path[i1], path[i2], path[i3]);
      CircleLeaks(st, path[i1], path[i2], path[i3], path[NextOf(path, i3)]);
      var p, q := path[i1], path[i2];
      assert p != q;
      assert LeakedAccount(st.sessions[if p < q then p else q]) && LeakedAccount(st.sessions[if p < q then q else p]);
    }
  }

  /** With no e-mail name leaked and at most one connection that leaked account names, nobody waits in a circle. */
  lemma NoDeadlock(actions: seq<Action>, path: seq<nat>)
    requires WaitingPath(Run(actions), path)
    requires !EmailLeaked(Run(actions)) && !TwoLeakedAccounts(Run(actions))
    ensures path[0] != path[|path| - 1]
  {
    AfterKeeps(State(map[], []), actions);
    if path[0] == path[|path| - 1] { CircleNeedsLeaks(Run(actions), path); }
  }
}
