/**
 MariaDB named locks as the staff repository takes them: sorted, one after another, released in reverse.
 One connection may hold a name several times.
 */
module NamedLocks {
  import opened Prelude

  /** A lock name: its kind, and its place in the string order among the names of that kind. */
  datatype Key = Account(place: nat) | Email(place: nat)

  /** The string order: the prefix of account names sorts before that of e-mail names. */
  predicate Below(k: Key, l: Key) {
    if k.Account? == l.Account? then k.place < l.place else k.Account?
  }

  /** What GET_LOCK answers: 1, something else, or an exception that took no lock. */
  datatype Answer = Granted | Refused | Broken

  ghost predicate Increasing(keys: seq<Key>) {
    forall i, j :: 0 <= i < j < |keys| ==> Below(keys[i], keys[j])
  }

  function Insert(key: Key, sorted: seq<Key>): seq<Key> {
    if sorted == [] || Below(key, sorted[0]) then [key] + sorted
    else if key == sorted[0] then sorted
    else [sorted[0]] + Insert(key, sorted[1..])
  }

  /** sorted(set(keys)) */
  function SortedKeys(keys: seq<Key>): seq<Key> {
    if keys == [] then [] else Insert(keys[0], SortedKeys(keys[1..]))
  }

  lemma {:induction false} InsertSound(key: Key, sorted: seq<Key>)
    requires Increasing(sorted)
    ensures Increasing(Insert(key, sorted))
    ensures forall k :: k in Insert(key, sorted) <==> k == key || k in sorted
  {
    if sorted != [] && Below(sorted[0], key) {
      InsertSound(key, sorted[1..]);
      assert sorted == [sorted[0]] + sorted[1..];
      var rest := Insert(key, sorted[1..]);
      forall j | 0 <= j < |rest| ensures Below(sorted[0], rest[j]) { assert rest[j] in rest; }
    } else if sorted != [] && Below(key, sorted[0]) {
      forall i, j | 0 <= i < j < |sorted| + 1 ensures Below(([key] + sorted)[i], ([key] + sorted)[j])
      {
        if i == 0 && j > 1 { assert Below(sorted[0], sorted[j - 1]); }
      }
    }
  }

  /** Each name once, in increasing order. */
  lemma {:induction false} SortedKeysSound(keys: seq<Key>)
    ensures Increasing(SortedKeys(keys))
    ensures forall k :: k in SortedKeys(keys) <==> k in keys
  {
    if keys != [] {
      SortedKeysSound(keys[1..]);
      InsertSound(keys[0], SortedKeys(keys[1..]));
      assert keys == [keys[0]] + keys[1..];
    }
  }

  // ---------- One connection ----------

  /** The server side of one connection: how often it holds each name. */
  class Connection {
    var held: multiset<Key>

    constructor ()
      ensures held == multiset{}
    {
      held := multiset{};
    }

    method GetLock(key: Key, answer: Answer) returns (result: Option<bool>)
      modifies this
      ensures held == if answer.Granted? then old(held) + multiset{key} else old(held)
      ensures result == match answer
                        case Granted => Some(true)
                        case Refused => Some(false)
                        case Broken => None
    {
      match answer
      case Granted => held := held + multiset{key}; return Some(true);
      case Refused => return Some(false);
      case Broken => return None;
    }

    method ReleaseLock(key: Key, works: bool)
      modifies this
      ensures held == if works then old(held) - multiset{key} else old(held)
    {
      if works { held := held - multiset{key}; }
    }
  }

  /** The first name that is not granted, or the end. */
  function FirstFailure(keys: seq<Key>, answers: Key -> Answer): (n: nat)
    ensures n <= |keys|
    ensures forall i :: 0 <= i < n ==> answers(keys[i]).Granted?
    ensures n < |keys| ==> !answers(keys[n]).Granted?
  {
    if keys == [] || !answers(keys[0]).Granted? then 0 else 1 + FirstFailure(keys[1..], answers)
  }

  lemma {:induction false} FirstFailureIs(keys: seq<Key>, answers: Key -> Answer, n: nat)
    requires n <= |keys| && forall i :: 0 <= i < n ==> answers(keys[i]).Granted?
    requires n < |keys| ==> !answers(keys[n]).Granted?
    ensures FirstFailure(keys, answers) == n
  {
    if n > 0 { FirstFailureIs(keys[1..], answers, n - 1); }
  }

  /** The names whose release raised: the exception is swallowed and the lock stays. */
  function Stuck(keys: seq<Key>, works: Key -> bool): multiset<Key> {
    if keys == [] then multiset{}
    else Stuck(keys[1..], works) + if works(keys[0]) then multiset{} else multiset{keys[0]}
  }

  /** `_release_named_locks`: every name is tried, in reverse; exactly those whose release works are freed. */
  method ReleaseNamedLocks(conn: Connection, keys: seq<Key>, works: Key -> bool)
    requires multiset(keys) <= conn.held
    modifies conn
    ensures conn.held == old(conn.held) - multiset(keys) + Stuck(keys, works)
  {
    var i := |keys|;
    ghost var rest := conn.held - multiset(keys);
    assert keys[..|keys|] == keys && keys[|keys|..] == [];
    while i > 0
      invariant 0 <= i <= |keys|
      invariant conn.held == rest + multiset(keys[..i]) + Stuck(keys[i..], works)
    {
      i := i - 1;
      OneReleased(conn.held, rest, keys, i, works);
      conn.ReleaseLock(keys[i], works(keys[i]));
    }
    assert keys[..0] == [] && keys[0..] == keys;
  }

  lemma OneReleased(now: multiset<Key>, rest: multiset<Key>, keys: seq<Key>, i: nat, works: Key -> bool)
    requires i < |keys| && now == rest + multiset(keys[..i + 1]) + Stuck(keys[i + 1..], works)
    ensures (if works(keys[i]) then now - multiset{keys[i]} else now)
         == rest + multiset(keys[..i]) + Stuck(keys[i..], works)
  {
    assert keys[..i + 1] == keys[..i] + [keys[i]];
    assert keys[i..][1..] == keys[i + 1..];
  }

  /** What a failed acquisition leaves behind. */
  function LeftBehind(keys: seq<Key>, answers: Key -> Answer, works: Key -> bool): multiset<Key> {
    var plan := SortedKeys(keys);
    var n := FirstFailure(plan, answers);
    if n < |plan| && answers(plan[n]).Refused? then Stuck(plan[..n], works) else multiset(plan[..n])
  }

  /**
   `_acquire_named_locks`: all names in increasing order, or an exception. A refusal releases what was
   taken, as far as the releases work; an exception of GET_LOCK itself releases nothing.
   */
  method AcquireNamedLocks(conn: Connection, keys: seq<Key>, answers: Key -> Answer, works: Key -> bool)
      returns (acquired: Option<seq<Key>>)
    modifies conn
    ensures var plan := SortedKeys(keys);
            acquired == if FirstFailure(plan, answers) == |plan| then Some(plan) else None
    ensures conn.held == old(conn.held)
                         + if acquired.Some? then multiset(SortedKeys(keys)) else LeftBehind(keys, answers, works)
  {
    var plan := SortedKeys(keys);
    ghost var before := conn.held;
    var i := 0;
    while i < |plan|
      invariant i <= |plan|
      invariant forall j :: 0 <= j < i ==> answers(plan[j]).Granted?
      invariant conn.held == before + multiset(plan[..i])
    {
      var result := conn.GetLock(plan[i], answers(plan[i]));
      if result != Some(true) {
        FirstFailureIs(plan, answers, i);
        if result == Some(false) {
          ReleaseNamedLocks(conn, plan[..i], works);
          BackTo(before, multiset(plan[..i]));
        }
        return None;
      }
      OneMore(before, plan, i);
      i := i + 1;
    }
    FirstFailureIs(plan, answers, i);
    assert plan[..i] == plan;
    return Some(plan);
  }

  lemma BackTo(before: multiset<Key>, taken: multiset<Key>)
    ensures before + taken - taken == before
  {}

  lemma OneMore(before: multiset<Key>, plan: seq<Key>, i: nat)
    requires i < |plan|
    ensures before + multiset(plan[..i]) + multiset{plan[i]} == before + multiset(plan[..i + 1])
  {
    assert plan[..i + 1] == plan[..i] + [plan[i]];
  }

  /** A release that raised leaves its name held. */
  lemma {:induction false} NothingStuck(keys: seq<Key>, works: Key -> bool)
    ensures Stuck(keys, works) == multiset{} <==> forall i :: 0 <= i < |keys| ==> works(keys[i])
  {
    if keys != [] {
      NothingStuck(keys[1..], works);
      if !works(keys[0]) { assert keys[0] in Stuck(keys, works); }
      assert forall i :: 1 <= i < |keys| ==> keys[1..][i - 1] == keys[i];
    }
  }

  /** Exactly the names whose release raises stay, as often as they were taken. */
  lemma {:induction false} StuckExactly(keys: seq<Key>, works: Key -> bool, k: Key)
    ensures Stuck(keys, works)[k] == if works(k) then 0 else multiset(keys)[k]
  {
    if keys != [] {
      StuckExactly(keys[1..], works, k);
      assert keys == [keys[0]] + keys[1..];
      assert multiset(keys) == multiset{keys[0]} + multiset(keys[1..]);
    }
  }

  /**
   What a failed acquisition leaves held: of the names before the one that failed, all of them if it
   raised, and those whose release raises if it was refused.
   */
  lemma LeftBehindExactly(keys: seq<Key>, answers: Key -> Answer, works: Key -> bool, k: Key)
    requires FirstFailure(SortedKeys(keys), answers) < |SortedKeys(keys)|
    ensures var plan := SortedKeys(keys);
            var failed := plan[FirstFailure(plan, answers)];
            LeftBehind(keys, answers, works)[k]
            == if k in keys && Below(k, failed) && (answers(failed).Broken? || !works(k)) then 1 else 0
  {
    var plan := SortedKeys(keys);
    var n := FirstFailure(plan, answers);
    SortedKeysSound(keys);
    StuckExactly(plan[..n], works, k);
    OnceBelow(plan, n, k);
    assert k in plan <==> k in keys;
  }

  lemma {:induction false} OnceBelow(plan: seq<Key>, n: nat, k: Key)
    requires Increasing(plan) && n < |plan|
    ensures multiset(plan[..n])[k] == if k in plan && Below(k, plan[n]) then 1 else 0
  {
    AtMostOnce(plan[..n], k);
    if k in plan {
      var i :| 0 <= i < |plan| && plan[i] == k;
      if i < n { assert plan[..n][i] == k; }
    }
    if k in plan[..n] {
      var j :| 0 <= j < n && plan[..n][j] == k;
      assert plan[j] == k && Below(plan[j], plan[n]);
    }
  }

  lemma {:induction false} AtMostOnce(sorted: seq<Key>, k: Key)
    requires Increasing(sorted)
    ensures multiset(sorted)[k] == if k in sorted then 1 else 0
  {
    if sorted != [] {
      var n := |sorted| - 1;
      AtMostOnce(sorted[..n], k);
      assert sorted == sorted[..n] + [sorted[n]];
      assert multiset(sorted) == multiset(sorted[..n]) + multiset{sorted[n]};
      if k in sorted[..n] {
        var i :| 0 <= i < n && sorted[..n][i] == k;
        assert Below(sorted[i], sorted[n]);
      }
    }
  }

  /**
   A failed acquisition leaves no lock held exactly when the first name failed, or the failure was a
   refusal and every release worked.
   */
  lemma FailedAcquireLeavesNothing(keys: seq<Key>, answers: Key -> Answer, works: Key -> bool)
    requires FirstFailure(SortedKeys(keys), answers) < |SortedKeys(keys)|
    ensures var plan := SortedKeys(keys);
            var n := FirstFailure(plan, answers);
            LeftBehind(keys, answers, works) == multiset{}
            <==> n == 0 || (answers(plan[n]).Refused? && forall i :: 0 <= i < n ==> works(plan[i]))
  {
    var plan := SortedKeys(keys);
    var n := FirstFailure(plan, answers);
    NothingStuck(plan[..n], works);
    assert forall i :: 0 <= i < n ==> plan[..n][i] == plan[i];
    if n > 0 { assert plan[..n][0] in multiset(plan[..n]); }
  }

  /** Two names, of which the second cannot be asked for, or is refused while a release fails: one stays held. */
  lemma LeakHappens(a: Key, b: Key, answers: Key -> Answer, works: Key -> bool)
    requires Below(a, b) && answers(a).Granted? && !answers(b).Granted?
    ensures FirstFailure(SortedKeys([b, a]), answers) == 1 && SortedKeys([b, a]) == [a, b]
    ensures answers(b).Broken? || !works(a) ==> LeftBehind([b, a], answers, works) == multiset{a}
  {
    assert SortedKeys([a]) == [a] && [b, a][1..] == [a];
    assert [b][1..] == [] && Insert(b, [a]) == [a] + Insert(b, []);
    FirstFailureIs([a, b], answers, 1);
    assert [a, b][..1] == [a] && [a][1..] == [];
    assert !works(a) ==> Stuck([a], works) == multiset{a};
  }
}
