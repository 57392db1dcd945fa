/** One staff call with nothing between its steps: exactly when it is refused, and what it writes. */
module StaffCalls {
  import opened Prelude
  import opened StaffEmails

  /** The call begins, takes its names one by one, passes its check and writes. */
  function Alone(t: Text, c: Call, newId: nat): seq<Action> {
    [Begin(c)] + Steps(|Plan(t, c)| + 3, newId)
  }

  function Steps(n: nat, newId: nat): seq<Action> {
    if n == 0 then [] else Steps(n - 1, newId) + [Step(0, newId)]
  }

  lemma {:induction false} StepsSize(n: nat, newId: nat)
    ensures |Steps(n, newId)| == n
  {
    if n > 0 { StepsSize(n - 1, newId); }
  }

  lemma NextStep(t: Text, rows: Rows, c: Call, newId: nat, n: nat)
    ensures Run(t, rows, [Begin(c)] + Steps(n + 1, newId))
         == Apply(t, Run(t, rows, [Begin(c)] + Steps(n, newId)), Step(0, newId))
  {
    var all := [Begin(c)] + Steps(n + 1, newId);
    StepsSize(n, newId);
    assert all[..|all| - 1] == [Begin(c)] + Steps(n, newId);
  }

  lemma Begins(t: Text, rows: Rows, c: Call)
    ensures Run(t, rows, [Begin(c)]) == State(rows, [Session(c, Taking(0))])
  {
    assert [Begin(c)][..0] == [];
    assert Run(t, rows, []) == State(rows, []);
  }

  lemma TakesNext(t: Text, rows: Rows, c: Call, newId: nat, n: nat)
    requires n < |Plan(t, c)|
    ensures Apply(t, State(rows, [Session(c, Taking(n))]), Step(0, newId)) == State(rows, [Session(c, Taking(n + 1))])
  {
    NotTakenYet(t, rows, c, n);
  }

  lemma {:induction false} TakesAll(t: Text, rows: Rows, c: Call, newId: nat, n: nat)
    requires n <= |Plan(t, c)|
    ensures Run(t, rows, [Begin(c)] + Steps(n, newId)) == State(rows, [Session(c, Taking(n))])
  {
    if n == 0 {
      assert [Begin(c)] + Steps(0, newId) == [Begin(c)];
      Begins(t, rows, c);
    } else {
      TakesAll(t, rows, c, newId, n - 1);
      NextStep(t, rows, c, newId, n - 1);
      TakesNext(t, rows, c, newId, n - 1);
    }
  }

  /** Its own next name is none of those it holds. */
  lemma NotTakenYet(t: Text, rows: Rows, c: Call, n: nat)
    requires n < |Plan(t, c)|
    ensures Free(t, State(rows, [Session(c, Taking(n))]), Plan(t, c)[n])
  {}

  /** The address is free for the account: no other live account equals it, and no other row is keyed by it. */
  ghost predicate AddressFree(t: Text, rows: Rows, email: string, own: Option<nat>) {
    && (forall id :: id in rows && !rows[id].deleted && own != Some(id) ==>
          t.collate(t.lower(rows[id].email)) != t.collate(t.fold(email)))
    && (forall id :: id in rows && own != Some(id) && rows[id].normalized.Some? ==>
          t.collate(rows[id].normalized.value) != t.collate(t.fold(email)))
  }

  lemma AddressFreeIs(t: Text, rows: Rows, email: string, own: Option<nat>)
    ensures NoConflict(t, rows, t.fold(email), own) && KeyAllows(t, rows, t.fold(email), own)
       <==> AddressFree(t, rows, email, own)
  {
    var n := t.fold(email);
    if AddressFree(t, rows, email, own) {
      forall id | Live(rows, id) && own != Some(id) ensures t.collate(n) !in Keys(t, rows[id]) {
        assert id in rows && !rows[id].deleted;
      }
    }
    if NoConflict(t, rows, n, own) {
      forall id | id in rows && !rows[id].deleted && own != Some(id)
        ensures t.collate(t.lower(rows[id].email)) != t.collate(n)
      {
        assert Live(rows, id) && t.collate(t.lower(rows[id].email)) in Keys(t, rows[id]);
      }
    }
  }

  function One(rows: Rows, c: Call, stage: Stage): State {
    State(rows, [Session(c, stage)])
  }

  /** Holding all names it checks; a passed check is followed by the write. */
  lemma LastSteps(t: Text, rows: Rows, c: Call, newId: nat)
    ensures Apply(t, One(rows, c, Taking(|Plan(t, c)|)), Step(0, newId)) == One(rows, c, Holding)
    ensures Apply(t, One(rows, c, Holding), Step(0, newId))
         == One(rows, c, if Passes(t, rows, c) then Checked else Gone)
    ensures Apply(t, One(rows, c, Gone), Step(0, newId)) == One(rows, c, Gone)
  {}

  lemma WriteStep(t: Text, rows: Rows, c: Call, newId: nat)
    requires newId !in rows
    ensures Apply(t, One(rows, c, Checked), Step(0, newId))
         == if Admitted(t, rows, c) then One(Written(t, rows, c, newId), c, Committed) else One(rows, c, Gone)
  {}

  lemma AloneEnds(t: Text, rows: Rows, c: Call, newId: nat)
    requires newId !in rows
    ensures Run(t, rows, Alone(t, c, newId)).rows
         == if Passes(t, rows, c) && Admitted(t, rows, c) then Written(t, rows, c, newId) else rows
  {
    var n := |Plan(t, c)|;
    TakesAll(t, rows, c, newId, n);
    LastSteps(t, rows, c, newId);
    WriteStep(t, rows, c, newId);
    NextStep(t, rows, c, newId, n);
    NextStep(t, rows, c, newId, n + 1);
    NextStep(t, rows, c, newId, n + 2);
  }

  /** Creating an account succeeds exactly when the address is free; it adds one live row and changes no other. */
  lemma CreateExactly(t: Text, rows: Rows, email: string, newId: nat)
    requires newId !in rows
    ensures var after := Run(t, rows, Alone(t, Create(email), newId)).rows;
            && (AddressFree(t, rows, email, None) ==>
                  && after.Keys == rows.Keys + {newId}
                  && after[newId].email == email && after[newId].normalized == Some(t.fold(email))
                  && !after[newId].deleted
                  && forall id :: id in rows ==> after[id] == rows[id])
            && (!AddressFree(t, rows, email, None) ==> after == rows)
  {
    AloneEnds(t, rows, Create(email), newId);
    AddressFreeIs(t, rows, email, None);
  }

  /** Changing an address succeeds exactly for a live account and a free address, and changes that row only. */
  lemma UpdateExactly(t: Text, rows: Rows, id: nat, email: string, newId: nat)
    requires newId !in rows
    ensures var after := Run(t, rows, Alone(t, Update(id, Some(email)), newId)).rows;
            var done := id in rows && !rows[id].deleted && AddressFree(t, rows, email, Some(id));
            && (done ==>
                  && after.Keys == rows.Keys
                  && after[id] == Row(email, Some(t.fold(email)), false)
                  && forall other :: other in rows && other != id ==> after[other] == rows[other])
            && (!done ==> after == rows)
  {
    AloneEnds(t, rows, Update(id, Some(email)), newId);
    AddressFreeIs(t, rows, email, Some(id));
  }

  /** An update without an address leaves all addresses alone. */
  lemma UpdateKeepsAddresses(t: Text, rows: Rows, id: nat, newId: nat)
    requires newId !in rows
    ensures Run(t, rows, Alone(t, Update(id, None), newId)).rows == rows
  {
    AloneEnds(t, rows, Update(id, None), newId);
  }

  /** Deleting removes a live account and nothing else. */
  lemma DeleteExactly(t: Text, rows: Rows, id: nat, newId: nat)
    requires newId !in rows
    ensures var after := Run(t, rows, Alone(t, Delete(id), newId)).rows;
            && (id in rows && !rows[id].deleted ==>
                  after.Keys == rows.Keys - {id} && forall other :: other in after ==> after[other] == rows[other])
            && (!(id in rows && !rows[id].deleted) ==> after == rows)
  {
    AloneEnds(t, rows, Delete(id), newId);
  }

  /** The names a call waits for: its account's, and its new address's under the folded address. */
  lemma NamesTaken(t: Text, rows: Rows, c: Call, newId: nat, l: Lock)
    ensures var st := Run(t, rows, [Begin(c)] + Steps(|Plan(t, c)|, newId));
            |st.sessions| == 1
            && (l in Held(t, st.sessions[0])
                <==> (!c.Create? && l == Account(c.id))
                     || (NewAddress(c).Some? && l == Email(t.fold(NewAddress(c).value))))
  {
    TakesAll(t, rows, c, newId, |Plan(t, c)|);
    assert Plan(t, c)[..|Plan(t, c)|] == Plan(t, c);
  }
}
