/** Runs of the inbound protocol step by step: what each step can change about an item and its claim. */
module InboundHistory {
  import opened Prelude
  import opened QueueScripts
  import opened InboundProtocol
  import opened InboundInvariant
  import opened InboundReservation
  import opened InboundClaims
  import opened InboundExactlyOnce

  /** The state before step k of a run. */
  function At(limit: nat, actions: seq<Action>, k: nat): State
    requires k <= |actions|
  {
    Run(limit, actions[..k])
  }

  /** The command an action issues in a state. */
  function Issued(s: State, a: Action): Command {
    if a.Work? && a.worker < |s.workers| then WorkerStep(s.shared, s.workers[a.worker], a.oracle).command else Nothing
  }

  lemma NextState(limit: nat, actions: seq<Action>, k: nat)
    requires k < |actions|
    ensures At(limit, actions, k + 1) == Apply(At(limit, actions, k), actions[k])
  {
    assert actions[..k + 1][..k] == actions[..k];
  }

  lemma AtClaims(limit: nat, actions: seq<Action>, k: nat)
    requires k <= |actions|
    ensures Reserved(At(limit, actions, k)) && AllClaims(At(limit, actions, k))
  {
    AfterKeeps(Initial(limit), actions[..k]);
    AfterClaims(Initial(limit), actions[..k]);
  }

  // ---------- One step ----------

  /** An action changes the shared state by its command, or by an expiry. */
  lemma SharedAfter(s: State, a: Action)
    ensures Apply(s, a).shared == match a
                                  case LockExpires => s.shared.(db := ExpireLock(s.shared.db))
                                  case ClaimExpires(id) => s.shared.(db := ExpireClaim(s.shared.db, id))
                                  case _ => Execute(s.shared, Issued(s, a))
  {}

  lemma IssuedIsPermitted(s: State, a: Action)
    requires Reserved(s) && AllClaims(s)
    ensures Permitted(s.shared, Issued(s, a))
  {
    if a.Work? && a.worker < |s.workers| {
      assert WorkerOk(s.shared, s.workers[a.worker]) && WorkerClaims(s.shared, s.workers[a.worker]);
      StepIssued(s.shared, s.workers[a.worker], a.oracle);
    }
  }

  /** Guards and completions are never forgotten. */
  lemma MarksGrow(s: State, a: Action)
    ensures s.shared.guarded <= Apply(s, a).shared.guarded && s.shared.completed <= Apply(s, a).shared.completed
  {
    SharedAfter(s, a);
  }

  /** A token that is guarded or completed is carried by no new item and newly guarded by no step. */
  lemma NoNewCarrier(s: State, a: Action, t: Token, x: Item)
    requires Reserved(s) && AllClaims(s) && (t in s.shared.guarded || t in s.shared.completed)
    ensures t in Apply(s, a).shared.guarded ==> t in s.shared.guarded
    ensures x.claim == Some(t) && x in Queued(Apply(s, a).shared.db) ==> x in Queued(s.shared.db)
  {
    var g, c := s.shared, Issued(s, a);
    SharedAfter(s, a);
    IssuedIsPermitted(s, a);
    if c.Push? { PushAdds(g, c.item); } else { QuietAdds(g, c); }
  }

  /** A completion is recorded by completing an item whose claim is live. */
  lemma CompletionIssued(s: State, a: Action, t: Token)
    requires t !in s.shared.completed && t in Apply(s, a).shared.completed
    ensures var c := Issued(s, a);
            && c.CompleteId? && ClaimLive(s.shared.db.claims, c.item) && c.item.claim == Some(t)
            && Apply(s, a).shared.guarded == s.shared.guarded
  {
    SharedAfter(s, a);
  }

  predicate ReadsCompleted(g: Shared, id: MessageId) {
    id in g.db.claims && g.db.claims[id] == Completed
  }

  lemma CommandKeepsCompleted(g: Shared, c: Command, id: MessageId)
    requires ReadsCompleted(g, id)
    ensures ReadsCompleted(Execute(g, c), id)
  {
    match c
    case Push(item) => assert Execute(g, c).db.claims == Persist(g.db.claims, item);
    case PutBack(item) => assert Execute(g, c).db.claims == Persist(g.db.claims, item) || Execute(g, c) == g;
    case _ =>
  }

  /** A completed record goes only by its expiry. */
  lemma CompletedUntilExpiry(s: State, a: Action, id: MessageId)
    requires ReadsCompleted(s.shared, id) && !ReadsCompleted(Apply(s, a).shared, id)
    ensures a == ClaimExpires(id) && id !in Apply(s, a).shared.db.claims
  {
    SharedAfter(s, a);
    CommandKeepsCompleted(s.shared, Issued(s, a), id);
  }

  /** An absent record comes back only by a claim. */
  lemma AbsentUntilClaimed(s: State, a: Action, id: MessageId)
    requires id !in s.shared.db.claims && id in Apply(s, a).shared.db.claims
    ensures Issued(s, a) == ClaimId(id)
  {
    SharedAfter(s, a);
  }

  // ---------- Many steps ----------

  /** One step back for an item whose token was marked before. */
  lemma QueuedBefore(limit: nat, actions: seq<Action>, k: nat, t: Token, x: Item)
    requires k < |actions| && x.claim == Some(t)
    requires t in At(limit, actions, k).shared.guarded || t in At(limit, actions, k).shared.completed
    requires x in Queued(At(limit, actions, k + 1).shared.db)
    ensures x in Queued(At(limit, actions, k).shared.db)
  {
    AtClaims(limit, actions, k);
    NextState(limit, actions, k);
    NoNewCarrier(At(limit, actions, k), actions[k], t, x);
  }

  /** What is queued under a marked token was queued all the time since it was marked. */
  lemma {:induction false} QueuedSince(limit: nat, actions: seq<Action>, i: nat, j: nat, x: Item)
    requires i <= j <= |actions| && x.claim.Some?
    requires Guarded(At(limit, actions, i).shared, x) || Finished(At(limit, actions, i).shared, x)
    requires x in Queued(At(limit, actions, j).shared.db)
    ensures x in Queued(At(limit, actions, i).shared.db)
    decreases j
  {
    if i < j {
      MarkedLater(limit, actions, i, j - 1, x.claim.value);
      QueuedBefore(limit, actions, j - 1, x.claim.value, x);
      QueuedSince(limit, actions, i, j - 1, x);
    }
  }

  lemma {:induction false} MarkedLater(limit: nat, actions: seq<Action>, i: nat, j: nat, t: Token)
    requires i <= j <= |actions|
    ensures t in At(limit, actions, i).shared.guarded ==> t in At(limit, actions, j).shared.guarded
    ensures t in At(limit, actions, i).shared.completed ==> t in At(limit, actions, j).shared.completed
    decreases j
  {
    if i < j {
      MarkedLater(limit, actions, i, j - 1, t);
      NextState(limit, actions, j - 1);
      MarksGrow(At(limit, actions, j - 1), actions[j - 1]);
    }
  }

  /** A token guarded at last was guarded before it was completed. */
  lemma {:induction false} GuardedBeforeCompleted(limit: nat, actions: seq<Action>, i: nat, j: nat, t: Token)
    requires i <= j <= |actions|
    requires t in At(limit, actions, i).shared.completed && t in At(limit, actions, j).shared.guarded
    ensures t in At(limit, actions, i).shared.guarded
    decreases j
  {
    if i < j {
      MarkedLater(limit, actions, i, j - 1, t);
      AtClaims(limit, actions, j - 1);
      NextState(limit, actions, j - 1);
      NoNewCarrier(At(limit, actions, j - 1), actions[j - 1], t, Item("", None, None, None, ""));
      GuardedBeforeCompleted(limit, actions, i, j - 1, t);
    }
  }

  /** The step that completed a token. */
  lemma {:induction false} CompletionStep(limit: nat, actions: seq<Action>, j: nat, t: Token) returns (m: nat)
    requires j <= |actions| && t in At(limit, actions, j).shared.completed
    ensures m < j
    ensures t !in At(limit, actions, m).shared.completed && t in At(limit, actions, m + 1).shared.completed
  {
    assert actions[..0] == [];
    m := j - 1;
    if t in At(limit, actions, m).shared.completed { m := CompletionStep(limit, actions, m, t); }
  }

  /** The expiry that ended a completed record. */
  lemma {:induction false} ExpiryStep(limit: nat, actions: seq<Action>, i: nat, j: nat, id: MessageId) returns (e: nat)
    requires i <= j <= |actions|
    requires ReadsCompleted(At(limit, actions, i).shared, id) && !ReadsCompleted(At(limit, actions, j).shared, id)
    ensures i <= e < j && actions[e] == ClaimExpires(id) && id !in At(limit, actions, e + 1).shared.db.claims
    decreases j - i
  {
    RecordEnds(limit, actions, i, id);
    e := i;
    if ReadsCompleted(At(limit, actions, i + 1).shared, id) { e := ExpiryStep(limit, actions, i + 1, j, id); }
  }

  lemma RecordEnds(limit: nat, actions: seq<Action>, k: nat, id: MessageId)
    requires k < |actions| && ReadsCompleted(At(limit, actions, k).shared, id)
    ensures ReadsCompleted(At(limit, actions, k + 1).shared, id)
            || (actions[k] == ClaimExpires(id) && id !in At(limit, actions, k + 1).shared.db.claims)
  {
    NextState(limit, actions, k);
    var s := At(limit, actions, k);
    if !ReadsCompleted(Apply(s, actions[k]).shared, id) { CompletedUntilExpiry(s, actions[k], id); }
  }

  /** The claim that brought an absent record back. */
  lemma {:induction false} ClaimStepAfter(limit: nat, actions: seq<Action>, i: nat, j: nat, id: MessageId)
      returns (k: nat)
    requires i <= j <= |actions|
    requires id !in At(limit, actions, i).shared.db.claims && id in At(limit, actions, j).shared.db.claims
    ensures i <= k < j && Issued(At(limit, actions, k), actions[k]) == ClaimId(id)
    ensures id !in At(limit, actions, k).shared.db.claims
    decreases j - i
  {
    NextState(limit, actions, i);
    if id in At(limit, actions, i + 1).shared.db.claims {
      AbsentUntilClaimed(At(limit, actions, i), actions[i], id);
      k := i;
    } else {
      k := ClaimStepAfter(limit, actions, i + 1, j, id);
    }
  }
}
