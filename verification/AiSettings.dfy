/**
 Updating the AI control settings from many sessions: one settings row behind a row lock, a version
 check, and an audit row in the same transaction.
 */
module AiSettings {
  import opened Prelude
  import opened Digits

  /**
   What the text library does: str.strip, str.upper, the value of a decimal digit of any script, which
   the pattern of times and int() both accept, and which zone names are known.
   */
  datatype Text = Text(
    strip: string -> string, upper: string -> string, digit: DigitTable, knownZone: string -> bool)

  /** Stored times: hours to 23 and minutes to 59, where the tens and what follows a 2 are ASCII digits. */
  predicate IsTime(t: Text, s: string) {
    && |s| == 5 && s[2] == ':'
    && (('0' <= s[0] <= '1' && t.digit(s[1]).Some?) || (s[0] == '2' && '0' <= s[1] <= '3'))
    && '0' <= s[3] <= '5' && t.digit(s[4]).Some?
  }

  /** What int() reads. */
  function Digit(t: Text, c: char): nat {
    if t.digit(c).Some? then t.digit(c).value else 0
  }

  /** `_parse_time_minutes` */
  function ParseTime(t: Text, s: string): (m: Option<nat>)
    ensures m.Some? <==> IsTime(t, s)
    ensures Decimal(t.digit) && m.Some? ==> m.value < 1440
  {
    if !IsTime(t, s) then None
    else Some((10 * Digit(t, s[0]) + Digit(t, s[1])) * 60 + 10 * Digit(t, s[3]) + Digit(t, s[4]))
  }

  /**
   Two accepted times mean the same minute exactly when they have the same tens and their other digits
   have the same values.
   */
  lemma SameMinuteExactly(t: Text, a: string, b: string)
    requires Decimal(t.digit) && IsTime(t, a) && IsTime(t, b)
    ensures ParseTime(t, a) == ParseTime(t, b)
       <==> a[0] == b[0] && a[3] == b[3] && t.digit(a[1]) == t.digit(b[1]) && t.digit(a[4]) == t.digit(b[4])
  {
    var h, k := 10 * Digit(t, a[0]) + Digit(t, a[1]), 10 * Digit(t, b[0]) + Digit(t, b[1]);
    var m, n := 10 * Digit(t, a[3]) + Digit(t, a[4]), 10 * Digit(t, b[3]) + Digit(t, b[4]);
    assert m < 60 && n < 60;
    if ParseTime(t, a) == ParseTime(t, b) {
      assert h * 60 + m == k * 60 + n;
      assert h == k && m == n;
      TwoDigits(Digit(t, a[0]), Digit(t, a[1]), Digit(t, b[0]), Digit(t, b[1]));
      TwoDigits(Digit(t, a[3]), Digit(t, a[4]), Digit(t, b[3]), Digit(t, b[4]));
    }
  }

  lemma TwoDigits(a: nat, b: nat, c: nat, d: nat)
    requires a < 10 && b < 10 && c < 10 && d < 10 && 10 * a + b == 10 * c + d
    ensures a == c && b == d
  {}

  function TwoDigitText(n: nat): string
    requires n < 100
  {
    [('0' as int + n / 10) as char, ('0' as int + n % 10) as char]
  }

  /** Every minute of the day has its ordinary text. */
  lemma OrdinaryTimes(t: Text, hour: nat, minute: nat)
    requires Decimal(t.digit) && hour < 24 && minute < 60
    ensures ParseTime(t, TwoDigitText(hour) + ":" + TwoDigitText(minute)) == Some(60 * hour + minute)
  {
    var s := TwoDigitText(hour) + ":" + TwoDigitText(minute);
    assert s[0] == TwoDigitText(hour)[0] && s[1] == TwoDigitText(hour)[1] && s[2] == ':';
    assert s[3] == TwoDigitText(minute)[0] && s[4] == TwoDigitText(minute)[1];
    assert t.digit(s[0]) == Some(hour / 10) && t.digit(s[1]) == Some(hour % 10);
    assert t.digit(s[3]) == Some(minute / 10) && t.digit(s[4]) == Some(minute % 10);
  }

  /** A digit of another script spells the same minute differently. */
  lemma TwoSpellings(t: Text, c: char)
    requires Decimal(t.digit) && t.digit(c) == Some(0) && c != '0'
    ensures IsTime(t, "10:30") && IsTime(t, "1" + [c] + ":30") && "10:30" != "1" + [c] + ":30"
    ensures ParseTime(t, "10:30") == ParseTime(t, "1" + [c] + ":30") == Some(630)
  {
    var s := "1" + [c] + ":30";
    assert s[1] == c && s[2] == ':' && s[3] == '3' && s[4] == '0';
  }

  datatype Payload = Payload(
    mode: string, manual: bool, start: string, end: string, zone: string, version: int)

  /** Cleaning a cleaned text changes nothing. */
  ghost predicate Idempotent(t: Text) {
    forall s: string ::
      t.strip(t.strip(s)) == t.strip(s) && t.upper(t.strip(t.upper(t.strip(s)))) == t.upper(t.strip(s))
  }

  function Clean(t: Text, p: Payload): Payload {
    Payload(t.upper(t.strip(p.mode)), p.manual, t.strip(p.start), t.strip(p.end), t.strip(p.zone), p.version)
  }

  /** The checks shared by reading a row and accepting a request, on cleaned texts. */
  predicate Acceptable(t: Text, p: Payload) {
    && (p.mode == "MANUAL" || p.mode == "SCHEDULED")
    && IsTime(t, p.start) && IsTime(t, p.end) && ParseTime(t, p.start) != ParseTime(t, p.end)
    && p.zone != "" && |p.zone| <= 128 && t.knownZone(p.zone)
    && p.version >= 1
  }

  /** `_normalize_configuration`: None stands for the error a stored row that is not valid raises. */
  function Read(t: Text, row: Payload): Option<Payload> {
    if Acceptable(t, Clean(t, row)) then Some(Clean(t, row)) else None
  }

  /** A request as `update_settings` passes it on; its version is the one the manager saw. */
  function Accept(t: Text, request: Payload): Option<Payload> {
    if Acceptable(t, Clean(t, request)) then Some(Clean(t, request)) else None
  }

  datatype Audit = Audit(oldConfig: Payload, newConfig: Payload)

  /** Waiting for the row; holding it with what was read; rows written, not committed; finished. */
  datatype Pc =
    | Waiting(request: Payload)
    | Reading(request: Payload)
    | Written(request: Payload, current: Payload)
    | Finished

  datatype Db = Db(row: Payload, audit: seq<Audit>)

  datatype State = State(db: Db, sessions: seq<Pc>)

  datatype Action = Update(isSupervisor: bool, request: Payload) | Step(s: nat) | Rollback(s: nat)

  predicate HoldsRow(pc: Pc) {
    pc.Reading? || pc.Written?
  }

  ghost predicate RowFree(sessions: seq<Pc>) {
    forall s :: 0 <= s < |sessions| ==> !HoldsRow(sessions[s])
  }

  /** The request's values under the next version. */
  function NewPayload(request: Payload, current: Payload): Payload {
    request.(version := current.version + 1)
  }

  /** The statements between SELECT ... FOR UPDATE and commit: a version check, an update, an audit row. */
  function AfterCheck(t: Text, row: Payload, request: Payload): Pc {
    match Read(t, row)
    case None => Finished
    case Some(current) => if current.version != request.version then Finished else Written(request, current)
  }

  function Commit(db: Db, request: Payload, current: Payload): Db {
    Db(NewPayload(request, current), db.audit + [Audit(current, NewPayload(request, current))])
  }

  ghost function Apply(t: Text, st: State, a: Action): State {
    match a
    case Update(isSupervisor, request) =>
      var accepted := Accept(t, request);
      if isSupervisor && accepted.Some? then st.(sessions := st.sessions + [Waiting(accepted.value)]) else st
    case Rollback(s) => if s < |st.sessions| then st.(sessions := st.sessions[s := Finished]) else st
    case Step(s) =>
      if s >= |st.sessions| then st
      else
        match st.sessions[s]
        case Waiting(request) =>
          if RowFree(st.sessions) then st.(sessions := st.sessions[s := Reading(request)]) else st
        case Reading(request) => st.(sessions := st.sessions[s := AfterCheck(t, st.db.row, request)])
        case Written(request, current) => State(Commit(st.db, request, current), st.sessions[s := Finished])
        case Finished => st
  }

  ghost function Run(t: Text, row: Payload, actions: seq<Action>): State {
    if actions == [] then State(Db(row, []), [])
    else Apply(t, Run(t, row, actions[..|actions| - 1]), actions[|actions| - 1])
  }

  // ---------- The chain ----------

  /** What the row reads as after the first n audit rows. */
  function ReadAfter(first: Payload, audit: seq<Audit>): Payload {
    if audit == [] then first else audit[|audit| - 1].newConfig
  }

  /** Each audit row starts where the one before ended and raises the version by one. */
  ghost predicate Chained(first: Payload, audit: seq<Audit>) {
    audit == [] ||
    var front, last := audit[..|audit| - 1], audit[|audit| - 1];
    && last.oldConfig == ReadAfter(first, front)
    && last.newConfig.version == last.oldConfig.version + 1
    && Chained(first, front)
  }

  predicate SessionOk(t: Text, row: Payload, pc: Pc) {
    match pc
    case Waiting(request) => Accept(t, request) == Some(request)
    case Reading(request) => Accept(t, request) == Some(request)
    case Written(request, current) =>
      Accept(t, request) == Some(request) && Read(t, row) == Some(current) && request.version == current.version
    case Finished => true
  }

  ghost predicate Invariant(t: Text, first: Payload, st: State) {
    && Read(t, st.db.row) == Some(ReadAfter(first, st.db.audit))
    && Chained(first, st.db.audit)
    && (forall s :: 0 <= s < |st.sessions| ==> SessionOk(t, st.db.row, st.sessions[s]))
    && (forall s, u :: 0 <= s < u < |st.sessions| && HoldsRow(st.sessions[s]) ==> !HoldsRow(st.sessions[u]))
  }

  lemma CleanTwice(t: Text, p: Payload)
    requires Idempotent(t)
    ensures Clean(t, Clean(t, p)) == Clean(t, p)
  {
    assert t.strip(t.strip(p.start)) == t.strip(p.start);
    assert t.strip(t.strip(p.end)) == t.strip(p.end);
    assert t.strip(t.strip(p.zone)) == t.strip(p.zone);
    assert t.strip(t.strip(p.mode)) == t.strip(p.mode);
  }

  /** Committing the holder's update extends the chain, and the new row reads as it was written. */
  lemma CommitKeeps(t: Text, first: Payload, st: State, s: nat)
    requires Invariant(t, first, st) && s < |st.sessions| && st.sessions[s].Written?
    ensures Invariant(t, first, Apply(t, st, Step(s)))
  {
    var request, current := st.sessions[s].request, st.sessions[s].current;
    var written := NewPayload(request, current);
    var after := Commit(st.db, request, current);
    assert SessionOk(t, st.db.row, st.sessions[s]);
    assert after.audit[..|st.db.audit|] == st.db.audit;
    assert Read(t, written) == Some(written);
    forall u | 0 <= u < |st.sessions| && u != s ensures SessionOk(t, written, st.sessions[u]) {
      assert SessionOk(t, st.db.row, st.sessions[u]);
      assert !HoldsRow(st.sessions[u]);
    }
  }

  lemma SessionMoves(t: Text, first: Payload, st: State, s: nat, pc: Pc)
    requires Invariant(t, first, st) && s < |st.sessions| && SessionOk(t, st.db.row, pc)
    requires HoldsRow(pc) ==> HoldsRow(st.sessions[s]) || RowFree(st.sessions)
    ensures Invariant(t, first, st.(sessions := st.sessions[s := pc]))
  {}

  lemma UpdateKeeps(t: Text, first: Payload, st: State, isSupervisor: bool, request: Payload)
    requires Idempotent(t) && Invariant(t, first, st)
    ensures Invariant(t, first, Apply(t, st, Update(isSupervisor, request)))
  {
    CleanTwice(t, request);
  }

  lemma ApplyKeeps(t: Text, first: Payload, st: State, a: Action)
    requires Idempotent(t) && Invariant(t, first, st)
    ensures Invariant(t, first, Apply(t, st, a))
  {
    match a
    case Update(isSupervisor, request) => UpdateKeeps(t, first, st, isSupervisor, request);
    case Rollback(s) => if s < |st.sessions| { SessionMoves(t, first, st, s, Finished); }
    case Step(s) => if s < |st.sessions| { StepKeeps(t, first, st, s); }
  }

  lemma StepKeeps(t: Text, first: Payload, st: State, s: nat)
    requires Invariant(t, first, st) && s < |st.sessions|
    ensures Invariant(t, first, Apply(t, st, Step(s)))
  {
    assert SessionOk(t, st.db.row, st.sessions[s]);
    match st.sessions[s]
    case Waiting(request) => if RowFree(st.sessions) { SessionMoves(t, first, st, s, Reading(request)); }
    case Reading(request) => SessionMoves(t, first, st, s, AfterCheck(t, st.db.row, request));
    case Written(_, _) => CommitKeeps(t, first, st, s);
    case Finished =>
  }

  lemma {:induction false} RunKeeps(t: Text, row: Payload, actions: seq<Action>)
    requires Idempotent(t) && Read(t, row).Some?
    ensures Invariant(t, Read(t, row).value, Run(t, row, actions))
  {
    if actions != [] {
      RunKeeps(t, row, actions[..|actions| - 1]);
      ApplyKeeps(t, Read(t, row).value, Run(t, row, actions[..|actions| - 1]), actions[|actions| - 1]);
    }
  }

  // ---------- Main results ----------

  lemma {:induction false} ChainedAt(first: Payload, audit: seq<Audit>, i: nat)
    requires Chained(first, audit) && i < |audit|
    ensures audit[i].oldConfig == (if i == 0 then first else audit[i - 1].newConfig)
    ensures audit[i].newConfig.version == audit[i].oldConfig.version + 1
    ensures audit[i].oldConfig.version == first.version + i
  {
    var front := audit[..|audit| - 1];
    if i < |audit| - 1 {
      ChainedAt(first, front, i);
    } else if i > 0 {
      ChainedAt(first, front, i - 1);
    }
  }

  /**
   In every interleaving of updates, refusals and rollbacks, each audit row begins with what the row
   before it ended with and raises the version by one, the last one is what the stored row reads as, so
   the row stays readable, and the version counts the commits.
   */
  lemma AuditChain(t: Text, row: Payload, actions: seq<Action>, i: nat)
    requires Idempotent(t) && Read(t, row).Some?
    ensures var first, db := Read(t, row).value, Run(t, row, actions).db;
            && (i < |db.audit| ==>
                  db.audit[i].oldConfig == (if i == 0 then first else db.audit[i - 1].newConfig)
                  && db.audit[i].newConfig.version == db.audit[i].oldConfig.version + 1)
            && Read(t, db.row) == Some(ReadAfter(first, db.audit))
            && Read(t, db.row).value.version == first.version + |db.audit|
  {
    RunKeeps(t, row, actions);
    var first, audit := Read(t, row).value, Run(t, row, actions).db.audit;
    if i < |audit| { ChainedAt(first, audit, i); }
    ChainedVersion(first, audit);
  }

  lemma ChainedVersion(first: Payload, audit: seq<Audit>)
    requires Chained(first, audit)
    ensures ReadAfter(first, audit).version == first.version + |audit|
  {
    if audit != [] { ChainedAt(first, audit, |audit| - 1); }
  }

  /** A session commits only what its manager asked for, against the version its manager saw. */
  lemma CommitsWhatWasAsked(t: Text, row: Payload, actions: seq<Action>, s: nat)
    requires Idempotent(t) && Read(t, row).Some? && ReadyToCommit(Run(t, row, actions), s)
    ensures var before, after := Run(t, row, actions), Run(t, row, actions + [Step(s)]);
            var request := before.sessions[s].request;
            && |after.db.audit| == |before.db.audit| + 1
            && after.db.audit[|before.db.audit|].oldConfig.version == request.version
            && after.db.row == request.(version := request.version + 1)
  {
    RunKeeps(t, row, actions);
    assert (actions + [Step(s)])[..|actions|] == actions;
    assert SessionOk(t, Run(t, row, actions).db.row, Run(t, row, actions).sessions[s]);
  }

  predicate ReadyToCommit(st: State, s: nat) {
    s < |st.sessions| && st.sessions[s].Written?
  }

  /** Step i of a run is a commit. */
  ghost predicate Commits(t: Text, row: Payload, actions: seq<Action>, i: nat) {
    i < |actions| && actions[i].Step? && ReadyToCommit(Run(t, row, actions[..i]), actions[i].s)
  }

  /** The request it commits. */
  ghost function Committed(t: Text, row: Payload, actions: seq<Action>, i: nat): Payload
    requires Commits(t, row, actions, i)
  {
    Run(t, row, actions[..i]).sessions[actions[i].s].request
  }

  /** What the stored row reads as before step k. */
  ghost function VersionAt(t: Text, row: Payload, actions: seq<Action>, k: nat): int
    requires Idempotent(t) && Read(t, row).Some? && k <= |actions|
  {
    RunKeeps(t, row, actions[..k]);
    Read(t, Run(t, row, actions[..k]).db.row).value.version
  }

  /** A commit expected the version it found and raises it by one; no other step changes it. */
  lemma VersionSteps(t: Text, row: Payload, actions: seq<Action>, k: nat)
    requires Idempotent(t) && Read(t, row).Some? && k < |actions|
    ensures Commits(t, row, actions, k) ==>
              && Committed(t, row, actions, k).version == VersionAt(t, row, actions, k)
              && VersionAt(t, row, actions, k + 1) == VersionAt(t, row, actions, k) + 1
    ensures !Commits(t, row, actions, k) ==> VersionAt(t, row, actions, k + 1) == VersionAt(t, row, actions, k)
  {
    var past := actions[..k];
    assert actions[..k + 1] == past + [actions[k]];
    assert (past + [actions[k]])[..k] == past;
    RunKeeps(t, row, past);
    RunKeeps(t, row, actions[..k + 1]);
    if Commits(t, row, actions, k) {
      CommitsWhatWasAsked(t, row, past, actions[k].s);
      AuditChain(t, row, past, 0);
      AuditChain(t, row, actions[..k + 1], 0);
      assert SessionOk(t, Run(t, row, past).db.row, Run(t, row, past).sessions[actions[k].s]);
    }
  }

  lemma {:induction false} VersionGrows(t: Text, row: Payload, actions: seq<Action>, i: nat, j: nat)
    requires Idempotent(t) && Read(t, row).Some? && i <= j <= |actions|
    ensures VersionAt(t, row, actions, i) <= VersionAt(t, row, actions, j)
    decreases j
  {
    if i < j {
      VersionGrows(t, row, actions, i, j - 1);
      VersionSteps(t, row, actions, j - 1);
    }
  }

  /** Of two requests that are committed the later one expected a higher version: no two share one. */
  lemma OneCommitPerVersion(t: Text, row: Payload, actions: seq<Action>, i: nat, j: nat)
    requires Idempotent(t) && Read(t, row).Some?
    requires i < j && Commits(t, row, actions, i) && Commits(t, row, actions, j)
    ensures Committed(t, row, actions, i).version < Committed(t, row, actions, j).version
  {
    VersionSteps(t, row, actions, i);
    VersionGrows(t, row, actions, i + 1, j);
    VersionSteps(t, row, actions, j);
  }

  // ---------- One update alone ----------

  /** The request is well formed: each value as the settings require it, on the cleaned texts. */
  predicate WellFormed(t: Text, p: Payload) {
    var mode, start, end, zone := t.upper(t.strip(p.mode)), t.strip(p.start), t.strip(p.end), t.strip(p.zone);
    && (mode == "MANUAL" || mode == "SCHEDULED")
    && ParseTime(t, start).Some? && ParseTime(t, end).Some? && ParseTime(t, start) != ParseTime(t, end)
    && 0 < |zone| <= 128 && t.knownZone(zone)
    && p.version >= 1
  }

  /** A request by itself: it is made, takes the row, is checked and commits. */
  function Alone(isSupervisor: bool, request: Payload): seq<Action> {
    [Update(isSupervisor, request)] + [Step(0)] + [Step(0)] + [Step(0)]
  }

  lemma Next(t: Text, row: Payload, past: seq<Action>, a: Action)
    ensures Run(t, row, past + [a]) == Apply(t, Run(t, row, past), a)
  {
    assert (past + [a])[..|past|] == past;
  }

  lemma Begins(t: Text, row: Payload, isSupervisor: bool, request: Payload)
    ensures Run(t, row, [Update(isSupervisor, request)])
         == State(Db(row, []), if isSupervisor && WellFormed(t, request) then [Waiting(Clean(t, request))] else [])
  {
    assert [] + [Update(isSupervisor, request)] == [Update(isSupervisor, request)];
    Next(t, row, [], Update(isSupervisor, request));
  }

  lemma Proceeds(t: Text, db: Db, request: Payload)
    ensures Apply(t, State(db, [Waiting(request)]), Step(0)) == State(db, [Reading(request)])
    ensures Apply(t, State(db, [Reading(request)]), Step(0)) == State(db, [AfterCheck(t, db.row, request)])
    ensures Apply(t, State(db, [Finished]), Step(0)) == State(db, [Finished])
    ensures Apply(t, State(db, []), Step(0)) == State(db, [])
  {}

  /**
   An update commits exactly when a supervisor asks for it, the request is well formed, the stored row can
   be read, and its version is the one the request expects. It then stores the cleaned request under the
   next version and adds one audit row from what was read to what was stored; otherwise nothing changes.
   */
  lemma UpdateExactly(t: Text, row: Payload, isSupervisor: bool, request: Payload)
    ensures var after := Run(t, row, Alone(isSupervisor, request)).db;
            var stored := Payload(t.upper(t.strip(request.mode)), request.manual, t.strip(request.start),
                                  t.strip(request.end), t.strip(request.zone), request.version + 1);
            var before := Payload(t.upper(t.strip(row.mode)), row.manual, t.strip(row.start), t.strip(row.end),
                                  t.strip(row.zone), row.version);
            after == if isSupervisor && WellFormed(t, request) && WellFormed(t, row) && row.version == request.version
                     then Db(stored, [Audit(before, stored)]) else Db(row, [])
  {
    var u, p := Update(isSupervisor, request), Clean(t, request);
    Begins(t, row, isSupervisor, request);
    Proceeds(t, Db(row, []), p);
    Next(t, row, [u], Step(0));
    Next(t, row, [u] + [Step(0)], Step(0));
    Next(t, row, [u] + [Step(0)] + [Step(0)], Step(0));
    var written := Audit(Clean(t, row), NewPayload(p, Clean(t, row)));
    assert [] + [written] == [written];
  }
}
