/** The daily AI schedule: which minutes it covers and when it next changes. Instants are seconds. */
module AiSchedule {
  import opened Prelude

  const DAY := 1440

  /** Minutes of the day at which the AI goes on and off. They differ. */
  datatype Schedule = Schedule(start: nat, end: nat)

  predicate Valid(s: Schedule) {
    s.start < DAY && s.end < DAY && s.start != s.end
  }

  /** `_scheduled_enabled` at a local minute of the day. */
  predicate Covers(s: Schedule, minute: nat) {
    if s.start < s.end then s.start <= minute < s.end else minute >= s.start || minute < s.end
  }

  function Wrap(x: int): nat {
    x % DAY
  }

  lemma WrapIs(x: int)
    requires -DAY <= x < 2 * DAY
    ensures Wrap(x) == if x < 0 then x + DAY else if x < DAY then x else x - DAY
  {}

  /** The minutes covered are those less far after the start than the end is. */
  lemma CoversClosedForm(s: Schedule, minute: nat)
    requires Valid(s) && minute < DAY
    ensures Covers(s, minute) <==> Wrap(minute - s.start) < Wrap(s.end - s.start)
  {
    WrapIs(minute - s.start);
    WrapIs(s.end - s.start);
  }

  /** The local minute of the day at an instant: any clock, with any daylight-saving rules. */
  type Clock = int -> nat

  /** The start of the k-th whole minute after an instant. */
  function Boundary(now: int, k: int): int {
    (now / 60 + k) * 60
  }

  predicate Differs(s: Schedule, clock: Clock, now: int, k: int, current: bool) {
    Covers(s, clock(Boundary(now, k))) != current
  }

  const SCAN := 48 * 60 + 5

  /**
   `_next_schedule_transition`: the first later minute boundary whose state differs from the present one,
   or nothing if none of the next 2885 does.
   */
  method NextScheduleTransition(s: Schedule, clock: Clock, now: int, current: bool) returns (r: Option<int>)
    ensures r.Some? ==> FirstBoundary(s, clock, now, current, r.value)
    ensures r.None? ==> forall k :: 1 <= k <= SCAN ==> !Differs(s, clock, now, k, current)
  {
    var cursor := now / 60 * 60 + 60;
    for i := 0 to SCAN
      invariant cursor == Boundary(now, i + 1)
      invariant forall k :: 1 <= k <= i ==> !Differs(s, clock, now, k, current)
    {
      if Covers(s, clock(cursor)) != current {
        assert FirstDiffering(s, clock, now, current, i + 1);
        return Some(cursor);
      }
      cursor := cursor + 60;
    }
    return None;
  }

  /** The instant is the first boundary within the scan whose state differs. */
  ghost predicate FirstBoundary(s: Schedule, clock: Clock, now: int, current: bool, instant: int) {
    exists k :: 1 <= k <= SCAN && FirstDiffering(s, clock, now, current, k) && instant == Boundary(now, k)
  }

  ghost predicate FirstDiffering(s: Schedule, clock: Clock, now: int, current: bool, k: int) {
    Differs(s, clock, now, k, current) && forall j :: 1 <= j < k ==> !Differs(s, clock, now, j, current)
  }

  // ---------- A fixed offset ----------

  /** A zone that is a whole number of minutes ahead of UTC, all year. */
  ghost predicate FixedOffset(clock: Clock, offset: int) {
    forall t :: clock(t) == Wrap(t / 60 + offset)
  }

  /** Minutes until the schedule's state ends that holds at this minute. */
  function Remaining(s: Schedule, minute: nat): nat {
    Wrap((if Covers(s, minute) then s.end else s.start) - minute)
  }

  lemma WrapStep(minute: nat, k: nat, base: int)
    requires minute == Wrap(base) && k <= DAY
    ensures Wrap(base + k) == if minute + k < DAY then minute + k else minute + k - DAY
  {
    assert base == base / DAY * DAY + minute;
    WrapIs(minute + k);
    WrapAdds(base / DAY, minute + k);
  }

  lemma WrapAdds(days: int, x: int)
    ensures Wrap(days * DAY + x) == Wrap(x)
  {}

  /** The state lasts exactly Remaining minutes: no earlier minute differs, and that one does. */
  lemma StateLasts(s: Schedule, minute: nat, k: nat)
    requires Valid(s) && minute < DAY && k <= Remaining(s, minute)
    ensures 1 <= Remaining(s, minute) < DAY
    ensures var later := if minute + k < DAY then minute + k else minute + k - DAY;
            Covers(s, later) == Covers(s, minute) <==> k < Remaining(s, minute)
  {
    WrapIs(s.end - minute);
    WrapIs(s.start - minute);
  }

  /**
   With a fixed offset the scan always finds the change, exactly (boundary - minute) mod 1440 minutes
   after the present minute, between 1 and 1439.
   */
  lemma ScanIsClosedForm(s: Schedule, clock: Clock, offset: int, now: int, k: int)
    requires Valid(s) && FixedOffset(clock, offset)
    ensures var minute := clock(now);
            var wait := Remaining(s, minute);
            && 1 <= wait <= 1439 && wait <= SCAN
            && (1 <= k ==> (FirstDiffering(s, clock, now, Covers(s, minute), k) <==> k == wait))
  {
    var minute := clock(now);
    var wait := Remaining(s, minute);
    forall j: nat | j <= wait ensures Covers(s, clock(Boundary(now, j))) == Covers(s, minute) <==> j < wait {
      LocalAt(clock, offset, now, j);
      WrapStep(minute, j, now / 60 + offset);
      StateLasts(s, minute, j);
    }
    StateLasts(s, minute, 0);
    assert Differs(s, clock, now, wait, Covers(s, minute));
    assert forall j :: 1 <= j < wait ==> !Differs(s, clock, now, j, Covers(s, minute));
  }

  /** So with a fixed offset NextScheduleTransition never answers None, and answers exactly that boundary. */
  lemma ScanAnswer(s: Schedule, clock: Clock, offset: int, now: int, r: Option<int>)
    requires Valid(s) && FixedOffset(clock, offset)
    requires var current := Covers(s, clock(now));
             && (r.Some? ==> FirstBoundary(s, clock, now, current, r.value))
             && (r.None? ==> forall k :: 1 <= k <= SCAN ==> !Differs(s, clock, now, k, current))
    ensures r == Some(Boundary(now, Remaining(s, clock(now))))
  {
    var current := Covers(s, clock(now));
    var wait := Remaining(s, clock(now));
    ScanIsClosedForm(s, clock, offset, now, wait);
    assert Differs(s, clock, now, wait, current);
    if r.Some? {
      var k :| 1 <= k <= SCAN && FirstDiffering(s, clock, now, current, k) && r.value == Boundary(now, k);
      ScanIsClosedForm(s, clock, offset, now, k);
    }
  }

  lemma LocalAt(clock: Clock, offset: int, now: int, j: nat)
    requires FixedOffset(clock, offset)
    ensures clock(Boundary(now, j)) == Wrap(now / 60 + offset + j)
  {
    assert Boundary(now, j) / 60 == now / 60 + j;
  }

  // ---------- evaluate_ai_availability ----------

  datatype Mode = Manual | Scheduled
  datatype Reason = ManualOn | ManualOff | WithinSchedule | OutsideSchedule

  datatype Effective = Effective(enabled: bool, reason: Reason, next: Option<int>)

  /** In scheduled mode the next change is a later instant with the opposite state; manual mode has none. */
  method EvaluateAvailability(mode: Mode, manualEnabled: bool, s: Schedule, clock: Clock, now: int)
      returns (e: Effective)
    ensures e.enabled == if mode == Manual then manualEnabled else Covers(s, clock(now))
    ensures e.reason == match (mode, e.enabled)
                        case (Manual, true) => ManualOn
                        case (Manual, false) => ManualOff
                        case (Scheduled, true) => WithinSchedule
                        case (Scheduled, false) => OutsideSchedule
    ensures mode == Manual ==> e.next.None?
    ensures e.next.Some? ==>
              && now < e.next.value <= (now / 60 + 2885) * 60 && e.next.value % 60 == 0
              && Covers(s, clock(e.next.value)) != e.enabled
    ensures mode == Scheduled ==>
              forall t :: now < t <= (now / 60 + 2885) * 60 && t % 60 == 0 && (e.next.Some? ==> t < e.next.value) ==>
                Covers(s, clock(t)) == e.enabled
  {
    if mode == Manual {
      return Effective(manualEnabled, if manualEnabled then ManualOn else ManualOff, None);
    }
    var enabled := Covers(s, clock(now));
    var next := NextScheduleTransition(s, clock, now, enabled);
    forall t | now < t <= (now / 60 + 2885) * 60 && t % 60 == 0 && (next.Some? ==> t < next.value)
      ensures Covers(s, clock(t)) == enabled
    {
      var k := t / 60 - now / 60;
      assert Boundary(now, k) == t && 1 <= k <= SCAN;
      assert !Differs(s, clock, now, k, enabled);
    }
    return Effective(enabled, if enabled then WithinSchedule else OutsideSchedule, next);
  }
}
