/** Creating, updating and deleting staff accounts from many connections: addresses stay unique. */
module StaffEmails {
  import opened Prelude

  /**
   Python's casefold of a stripped address, the database's LOWER(TRIM(...)), and the collation: two texts
   compare equal in the database exactly when they collate to the same key.
   */
  datatype Text = Text(fold: string -> string, lower: string -> string, collate: string -> string)

  datatype Row = Row(email: string, normalized: Option<string>, deleted: bool)

  type Rows = map<nat, Row>

  /** What an address is to the database once it is normalized. */
  function Address(t: Text, email: string): string {
    t.collate(t.fold(email))
  }

  /** What the conflict query compares with: email_normalized = %s OR LOWER(TRIM(email)) = %s. */
  function Keys(t: Text, r: Row): set<string> {
    {t.collate(t.lower(r.email))} + if r.normalized.Some? then {t.collate(r.normalized.value)} else {}
  }

  predicate Live(rows: Rows, id: nat) {
    id in rows && !rows[id].deleted
  }

  /** For this address lowering and folding make no difference to the database. */
  predicate Agrees(t: Text, email: string) {
    t.collate(t.lower(email)) == Address(t, email)
  }

  /** The row's address agrees, and its stored normalization is one of that address. */
  predicate Canonical(t: Text, r: Row) {
    Agrees(t, r.email) && (r.normalized.Some? ==> t.collate(r.normalized.value) == Address(t, r.email))
  }

  ghost predicate AllCanonical(t: Text, rows: Rows) {
    forall id :: Live(rows, id) ==> Canonical(t, rows[id])
  }

  ghost predicate Unique(t: Text, rows: Rows) {
    forall i, j :: Live(rows, i) && Live(rows, j) && i != j ==> Keys(t, rows[i]) !! Keys(t, rows[j])
  }

  /** No live row other than `own` has this normalized address: `_find_email_conflict` finds nothing. */
  ghost predicate NoConflict(t: Text, rows: Rows, normalized: string, own: Option<nat>) {
    forall id :: Live(rows, id) && own != Some(id) ==> t.collate(normalized) !in Keys(t, rows[id])
  }

  /** The unique key on email_normalized, which also covers rows marked deleted, accepts it for this row. */
  ghost predicate KeyAllows(t: Text, rows: Rows, normalized: string, own: Option<nat>) {
    forall id :: id in rows && own != Some(id) && rows[id].normalized.Some? ==>
      t.collate(rows[id].normalized.value) != t.collate(normalized)
  }

  // ---------- Connections ----------

  datatype Lock = Account(id: nat) | Email(normalized: string)

  datatype Call = Create(email: string) | Update(id: nat, newEmail: Option<string>) | Delete(id: nat)

  /** The address a call writes, and the row it may already belong to. */
  function NewAddress(c: Call): Option<string> {
    match c
    case Create(e) => Some(e)
    case Update(_, e) => e
    case Delete(_) => None
  }

  function Own(c: Call): Option<nat> {
    if c.Create? then None else Some(c.id)
  }

  /** The names a call takes, in their string order. */
  function Plan(t: Text, c: Call): seq<Lock> {
    (if c.Create? then [] else [Account(c.id)])
    + if NewAddress(c).Some? then [Email(t.fold(NewAddress(c).value))] else []
  }

  /** Taking its locks; holding them all; past its checks; written and committed; gone. */
  datatype Stage = Taking(got: nat) | Holding | Checked | Committed | Gone

  datatype Session = Session(call: Call, stage: Stage)

  function Held(t: Text, x: Session): seq<Lock> {
    match x.stage
    case Taking(got) => if got <= |Plan(t, x.call)| then Plan(t, x.call)[..got] else []
    case Gone => []
    case _ => Plan(t, x.call)
  }

  datatype State = State(rows: Rows, sessions: seq<Session>)

  ghost predicate Free(t: Text, st: State, l: Lock) {
    forall v :: 0 <= v < |st.sessions| ==> l !in Held(t, st.sessions[v])
  }

  /** The check of a call: the account is there, and the address is nobody else's. */
  ghost predicate Passes(t: Text, rows: Rows, c: Call) {
    && (!c.Create? ==> Live(rows, c.id))
    && (NewAddress(c).Some? ==> NoConflict(t, rows, t.fold(NewAddress(c).value), Own(c)))
  }

  /** The write goes through unless the unique key raises an integrity error. */
  ghost predicate Admitted(t: Text, rows: Rows, c: Call) {
    NewAddress(c).Some? ==> KeyAllows(t, rows, t.fold(NewAddress(c).value), Own(c))
  }

  /** The rows after the call commits; `newId` is the database's next id. */
  function Written(t: Text, rows: Rows, c: Call, newId: nat): Rows {
    match c
    case Create(e) => rows[newId := Row(e, Some(t.fold(e)), false)]
    case Update(id, e) =>
      if e.Some? && id in rows then rows[id := Row(e.value, Some(t.fold(e.value)), rows[id].deleted)] else rows
    case Delete(id) => rows - {id}
  }

  datatype Action = Begin(call: Call) | Step(v: nat, newId: nat) | Close(v: nat)

  /** One step of one connection; a step that cannot be taken now changes nothing. */
  ghost function Apply(t: Text, st: State, a: Action): State {
    match a
    case Begin(c) => st.(sessions := st.sessions + [Session(c, Taking(0))])
    case Close(v) =>
      if v < |st.sessions| then st.(sessions := st.sessions[v := st.sessions[v].(stage := Gone)]) else st
    case Step(v, newId) => if v < |st.sessions| then Advance(t, st, v, newId) else st
  }

  ghost function Advance(t: Text, st: State, v: nat, newId: nat): State
    requires v < |st.sessions|
  {
    var x := st.sessions[v];
    match x.stage
    case Taking(got) =>
      if got >= |Plan(t, x.call)| then st.(sessions := st.sessions[v := x.(stage := Holding)])
      else if Free(t, st, Plan(t, x.call)[got]) then st.(sessions := st.sessions[v := x.(stage := Taking(got + 1))])
      else st
    case Holding => st.(sessions := st.sessions[v := x.(stage := if Passes(t, st.rows, x.call) then Checked else Gone)])
    case Checked =>
      if x.call.Create? && newId in st.rows then st
      else if !Admitted(t, st.rows, x.call) then st.(sessions := st.sessions[v := x.(stage := Gone)])
      else State(Written(t, st.rows, x.call, newId), st.sessions[v := x.(stage := Committed)])
    case Committed => st.(sessions := st.sessions[v := x.(stage := Gone)])
    case Gone => st
  }

  ghost function Run(t: Text, rows: Rows, actions: seq<Action>): State {
    if actions == [] then State(rows, [])
    else Apply(t, Run(t, rows, actions[..|actions| - 1]), actions[|actions| - 1])
  }

  /** Every address written by a call of the run agrees. */
  predicate AllAgree(t: Text, actions: seq<Action>) {
    forall k :: 0 <= k < |actions| && actions[k].Begin? && NewAddress(actions[k].call).Some? ==>
      Agrees(t, NewAddress(actions[k].call).value)
  }

  /** Addresses written in the run that the database takes for equal have the same lock name. */
  predicate LockNamesTell(t: Text, actions: seq<Action>) {
    forall j, k ::
      && 0 <= j < |actions| && 0 <= k < |actions| && actions[j].Begin? && actions[k].Begin?
      && NewAddress(actions[j].call).Some? && NewAddress(actions[k].call).Some? ==>
      SameNameIfEqual(t, NewAddress(actions[j].call).value, NewAddress(actions[k].call).value)
  }

  predicate SameNameIfEqual(t: Text, a: string, b: string) {
    Address(t, a) == Address(t, b) ==> t.fold(a) == t.fold(b)
  }
}
