/**
 * Scheduling arithmetic of backend/complete_api.py: the dates of
 * `POST /sessions/create-recurring`, the weekly sessions of
 * `POST /sessions/assign-to-slot`, and the duration and label of
 * `POST /coach/time-slots`.
 *
 * A date is a day number of the proleptic Gregorian calendar as Python's
 * `date.toordinal()` counts it (day 1 is Monday 1 January of year 1); a time
 * of day is a number of minutes after midnight; an instant is a day number
 * times 1440 plus a time of day.
 */
module Scheduling {
  import opened Models

  const MinutesPerDay: int := 1440

  /** A time of day, `HH:MM`, in minutes after midnight. */
  type Minute = m: int | 0 <= m < 1440

  /** Python's `weekday()`: 0 is Monday, 6 is Sunday. */
  function Weekday(day: int): int
  {
    (day + 6) % 7
  }

  /** The weekday advances by one each day and repeats every seven. */
  lemma WeekdayNext(day: int)
    ensures 0 <= Weekday(day) < 7
    ensures Weekday(day + 1) == (Weekday(day) + 1) % 7
    ensures Weekday(day + 7) == Weekday(day)
  {
  }

  /** `datetime.combine(date, time)`: the instant of a time of day on a date. */
  function At(day: int, time: Minute): int
  {
    day * MinutesPerDay + time
  }

  /** An instant gives back its date and its time of day. */
  lemma AtParts(day: int, time: Minute)
    ensures At(day, time) / MinutesPerDay == day
    ensures At(day, time) % MinutesPerDay == time
  {
  }

  /** Instants order first by date, then by time of day. */
  lemma AtOrder(d1: int, t1: Minute, d2: int, t2: Minute)
    ensures At(d1, t1) < At(d2, t2) <==> d1 < d2 || (d1 == d2 && t1 < t2)
  {
  }

  // ---------------------------------------------------------------------
  // Recurring sessions
  // ---------------------------------------------------------------------

  /** The days between consecutive sessions of a recurrence type. */
  function Period(recurrenceType: string): nat
  {
    match recurrenceType
    case "weekly" => 7
    case "biweekly" => 14
    case "monthly" => 30
    case _ => 1
  }

  /**
   * The day offset of session `i` from the start date, as the handler's
   * `if`/`elif` chain computes it: `daily` and any unknown type step one day,
   * `weekly` one week, `biweekly` two weeks, `monthly` thirty days.
   */
  function DayOffset(recurrenceType: string, i: nat): int
  {
    if recurrenceType == "daily" then i
    else if recurrenceType == "weekly" then 7 * i
    else if recurrenceType == "biweekly" then 7 * (i * 2)
    else if recurrenceType == "monthly" then i * 30
    else i
  }

  /** Every offset is a whole number of periods, so offsets grow by one period per session. */
  lemma DayOffsetIsPeriods(recurrenceType: string, i: nat)
    ensures DayOffset(recurrenceType, i) == Period(recurrenceType) * i
    ensures DayOffset(recurrenceType, i + 1) == DayOffset(recurrenceType, i) + Period(recurrenceType)
    ensures Period(recurrenceType) >= 1
  {
  }

  lemma DayOffsetIncreasing(recurrenceType: string, i: nat, j: nat)
    requires i < j
    ensures DayOffset(recurrenceType, i) + Period(recurrenceType) <= DayOffset(recurrenceType, j)
  {
  }

  /** The request body of `POST /sessions/create-recurring`. */
  datatype RecurringRequest = RecurringRequest(
    clientId: string,
    recurrenceType: string,
    startDay: int,
    numSessions: int,
    time: Minute,
    durationMinutes: int,
    location: string,
    notes: Option<string>)

  /** The `metadata` document stored with each generated session. */
  datatype RecurrenceMetadata = RecurrenceMetadata(recurrenceType: string, sessionNumber: int, totalSessions: int)

  /** One row inserted into `scheduled_sessions` by the generator. */
  datatype RecurringSession = RecurringSession(
    clientId: string,
    scheduledAt: int,
    durationMinutes: int,
    status: SessionStatus,
    location: string,
    notes: Option<string>,
    metadata: RecurrenceMetadata)

  /** What the handler reports: the count and the rows it inserted. */
  datatype RecurringOutcome = RecurringOutcome(sessionsCreated: int, sessions: seq<RecurringSession>)

  /** The session the handler inserts on iteration `i`. */
  function PlannedSession(data: RecurringRequest, i: nat): RecurringSession
  {
    RecurringSession(data.clientId, At(data.startDay + DayOffset(data.recurrenceType, i), data.time),
                     data.durationMinutes, Scheduled, data.location, data.notes,
                     RecurrenceMetadata(data.recurrenceType, i + 1, data.numSessions))
  }

  /** `range(num_sessions)` is empty for a count that is zero or negative. */
  function RangeLength(n: int): nat
  {
    if n > 0 then n else 0
  }

  /**
   * The generator: `num_sessions` sessions (none when that is not positive),
   * the `i`-th numbered `i + 1` of `num_sessions`, on the start date plus its
   * recurrence offset at the requested time of day, all `scheduled`; the
   * reported count is the number of rows; the instants strictly increase.
   */
  method CreateRecurringSessions(data: RecurringRequest) returns (out: RecurringOutcome)
    ensures |out.sessions| == RangeLength(data.numSessions)
    ensures out.sessionsCreated == |out.sessions|
    ensures forall i :: 0 <= i < |out.sessions| ==> out.sessions[i] == PlannedSession(data, i)
    ensures forall i :: 0 <= i < |out.sessions| ==>
      && out.sessions[i].metadata.sessionNumber == i + 1
      && out.sessions[i].metadata.totalSessions == data.numSessions
      && out.sessions[i].status == Scheduled
      && out.sessions[i].scheduledAt % MinutesPerDay == data.time
      && out.sessions[i].scheduledAt / MinutesPerDay == data.startDay + Period(data.recurrenceType) * i
    ensures forall i, j :: 0 <= i < j < |out.sessions| ==> out.sessions[i].scheduledAt < out.sessions[j].scheduledAt
  {
    var created: seq<RecurringSession> := [];
    var i := 0;
    while i < data.numSessions
      invariant 0 <= i == |created| <= RangeLength(data.numSessions)
      invariant forall k :: 0 <= k < i ==> created[k] == PlannedSession(data, k)
    {
      var sessionDay: int;
      if data.recurrenceType == "daily" {
        sessionDay := data.startDay + i;
      } else if data.recurrenceType == "weekly" {
        sessionDay := data.startDay + 7 * i;
      } else if data.recurrenceType == "biweekly" {
        sessionDay := data.startDay + 7 * (i * 2);
      } else if data.recurrenceType == "monthly" {
        sessionDay := data.startDay + i * 30;
      } else {
        sessionDay := data.startDay + i;
      }
      var scheduledAt := At(sessionDay, data.time);
      var metadata := RecurrenceMetadata(data.recurrenceType, i + 1, data.numSessions);
      created := created + [RecurringSession(data.clientId, scheduledAt, data.durationMinutes, Scheduled,
                                             data.location, data.notes, metadata)];
      i := i + 1;
    }
    out := RecurringOutcome(|created|, created);
    forall k | 0 <= k < |created|
      ensures created[k].scheduledAt % MinutesPerDay == data.time
      ensures created[k].scheduledAt / MinutesPerDay == data.startDay + Period(data.recurrenceType) * k
    {
      DayOffsetIsPeriods(data.recurrenceType, k);
      AtParts(data.startDay + DayOffset(data.recurrenceType, k), data.time);
    }
    forall a, b | 0 <= a < b < |created|
      ensures created[a].scheduledAt < created[b].scheduledAt
    {
      DayOffsetIncreasing(data.recurrenceType, a, b);
      AtOrder(data.startDay + DayOffset(data.recurrenceType, a), data.time,
              data.startDay + DayOffset(data.recurrenceType, b), data.time);
    }
  }

  // ---------------------------------------------------------------------
  // Weekly slot assignment
  // ---------------------------------------------------------------------

  /**
   * The handler's `days_ahead`: the slot's weekday minus the start date's,
   * plus seven once if that is negative.
   */
  function DaysAhead(dayOfWeek: int, startDay: int): int
  {
    var d := dayOfWeek - Weekday(startDay);
    if d < 0 then d + 7 else d
  }

  /**
   * For a weekday in 0..6 the first session falls on the first date on or
   * after the start date with that weekday: within the next six days, on
   * the start date itself exactly when it already has that weekday, and no
   * earlier date in between has it.
   */
  lemma DaysAheadFindsNextWeekday(dayOfWeek: int, startDay: int)
    requires 0 <= dayOfWeek < 7
    ensures var d := DaysAhead(dayOfWeek, startDay);
      && 0 <= d < 7
      && Weekday(startDay + d) == dayOfWeek
      && (d == 0 <==> Weekday(startDay) == dayOfWeek)
      && (forall day :: startDay <= day < startDay + d ==> Weekday(day) != dayOfWeek)
  {
  }

  /** Moving `e` days ahead (less than a week) moves the weekday `e` places round. */
  lemma WeekdayPlus(day: int, e: int)
    requires 0 <= e < 7
    ensures Weekday(day + e) == (Weekday(day) + e) % 7
  {
  }

  /**
   * The stored `day_of_week` of a slot is only checked by indexing a
   * seven-element list, which Python also allows for -7..-1. For such a
   * slot the handler's `days_ahead` can be negative: a slot stored with -2
   * (labelled `Sat`) and a start date on a Sunday put the first session on
   * the Saturday before the start date.
   */
  lemma DaysAheadBeforeStart()
    ensures Weekday(7) == 6 && DayAbbrev(-2) == "Sat"
    ensures DaysAhead(-2, 7) == -1
  {
  }

  /**
   * The first-date offset with the weekday reduced modulo 7, as the
   * slot label reads it: always within the next six days and on the labelled
   * weekday; for a weekday in 0..6 it is the handler's `days_ahead`.
   */
  function NextWeekdayOffset(dayOfWeek: int, startDay: int): (d: int)
    ensures 0 <= d < 7
    ensures Weekday(startDay + d) == dayOfWeek % 7
    ensures 0 <= dayOfWeek < 7 ==> d == DaysAhead(dayOfWeek, startDay)
  {
    WeekdayPlus(startDay, (dayOfWeek - Weekday(startDay)) % 7);
    (dayOfWeek - Weekday(startDay)) % 7
  }

  /** The stored slot as `assign_client_to_slot` reads it back. */
  datatype SlotRecord = SlotRecord(dayOfWeek: int, startTime: Minute, locationType: Option<string>)

  /** One row inserted into `scheduled_sessions` for a slot. */
  datatype SlotSession = SlotSession(
    clientId: string,
    timeSlotId: string,
    scheduledAt: int,
    status: SessionStatus,
    location: string)

  /** `structure.get('location_type', 'online')`. */
  function SlotLocation(slot: SlotRecord): string
  {
    if slot.locationType.Some? then slot.locationType.value else "online"
  }

  /**
   * The sessions of `assign_client_to_slot`: `num_sessions` of them (none
   * when that is not positive), the first on `days_ahead` days after the
   * start date and each next one a week later, all at the slot's start time,
   * `scheduled`, at the slot's location (`online` when none is stored). For
   * a weekday in 0..6 every session falls on that weekday, on or after the
   * start date.
   */
  method AssignClientToSlot(timeSlotId: string, slot: SlotRecord, clientId: string, startDay: int, numSessions: int)
    returns (sessionsCreated: int, sessions: seq<SlotSession>)
    ensures |sessions| == RangeLength(numSessions) && sessionsCreated == |sessions|
    ensures forall i :: 0 <= i < |sessions| ==>
      && sessions[i].scheduledAt == At(startDay + DaysAhead(slot.dayOfWeek, startDay) + 7 * i, slot.startTime)
      && sessions[i].status == Scheduled
      && sessions[i].location == SlotLocation(slot)
      && sessions[i].clientId == clientId && sessions[i].timeSlotId == timeSlotId
    ensures forall i :: 0 <= i < |sessions| - 1 ==> sessions[i + 1].scheduledAt == sessions[i].scheduledAt + 7 * MinutesPerDay
    ensures 0 <= slot.dayOfWeek < 7 ==> forall i :: 0 <= i < |sessions| ==>
      && Weekday(sessions[i].scheduledAt / MinutesPerDay) == slot.dayOfWeek
      && startDay <= sessions[i].scheduledAt / MinutesPerDay
      && sessions[i].scheduledAt % MinutesPerDay == slot.startTime
  {
    var daysAhead := slot.dayOfWeek - Weekday(startDay);
    if daysAhead < 0 {
      daysAhead := daysAhead + 7;
    }
    var nextDate := startDay + daysAhead;
    sessions := [];
    var i := 0;
    while i < numSessions
      invariant 0 <= i == |sessions| <= RangeLength(numSessions)
      invariant forall k :: 0 <= k < i ==> sessions[k] == SlotSession(clientId, timeSlotId, At(nextDate + 7 * k, slot.startTime), Scheduled, SlotLocation(slot))
    {
      var sessionDatetime := At(nextDate + 7 * i, slot.startTime);
      sessions := sessions + [SlotSession(clientId, timeSlotId, sessionDatetime, Scheduled, SlotLocation(slot))];
      i := i + 1;
    }
    sessionsCreated := |sessions|;
    if 0 <= slot.dayOfWeek < 7 {
      forall k | 0 <= k < |sessions|
        ensures Weekday(sessions[k].scheduledAt / MinutesPerDay) == slot.dayOfWeek
        ensures startDay <= sessions[k].scheduledAt / MinutesPerDay
        ensures sessions[k].scheduledAt % MinutesPerDay == slot.startTime
      {
        DaysAheadFindsNextWeekday(slot.dayOfWeek, startDay);
        AtParts(nextDate + 7 * k, slot.startTime);
        WeeksKeepWeekday(nextDate, k);
      }
    }
  }

  /** Whole weeks after a date fall on the same weekday, one week at a time. */
  lemma {:induction false} WeeksKeepWeekday(day: int, k: nat)
    ensures Weekday(day + 7 * k) == Weekday(day)
  {
    if k > 0 {
      WeeksKeepWeekday(day, k - 1);
      WeekdayNext(day + 7 * (k - 1));
      assert day + 7 * (k - 1) + 7 == day + 7 * k;
    }
  }

  // ---------------------------------------------------------------------
  // Time slots
  // ---------------------------------------------------------------------

  const DayAbbrevs: seq<string> := ["Mon", "Tue", "Wed", "Thu", "Fri", "Sat", "Sun"]

  /** Python list indexing: -7..-1 count from the end. */
  function DayAbbrev(dayOfWeek: int): string
    requires -7 <= dayOfWeek < 7
  {
    if dayOfWeek >= 0 then DayAbbrevs[dayOfWeek] else DayAbbrevs[dayOfWeek + 7]
  }

  function Digit(n: int): char
    requires 0 <= n < 10
  {
    (48 + n) as char
  }

  /** A time of day written `HH:MM`, as `strptime(..., "%H:%M")` reads it back. */
  function FormatClock(m: Minute): string
  {
    [Digit(m / 60 / 10), Digit(m / 60 % 10), ':', Digit(m % 60 / 10), Digit(m % 60 % 10)]
  }

  predicate IsDigit(c: char)
  {
    '0' <= c <= '9'
  }

  function DigitValue(c: char): int
    requires IsDigit(c)
  {
    c as int - 48
  }

  /** The value of one or two digits. */
  function FieldValue(t: string): nat
    requires 1 <= |t| <= 2 && forall k :: 0 <= k < |t| ==> IsDigit(t[k])
  {
    if |t| == 1 then DigitValue(t[0]) else DigitValue(t[0]) * 10 + DigitValue(t[1])
  }

  /**
   * One or two digits whose value is below `bound`: what `%H` (bound 24)
   * and `%M` (bound 60) match, `9` as well as `09`.
   */
  predicate IsClockField(t: string, bound: int)
  {
    1 <= |t| <= 2 && (forall k :: 0 <= k < |t| ==> IsDigit(t[k])) && FieldValue(t) < bound
  }

  /** The texts of a field holding `n`: two digits, or one digit when `n` is below ten. */
  function FieldTexts(n: int): set<string>
    requires 0 <= n < 100
  {
    {[Digit(n / 10), Digit(n % 10)]} + (if n < 10 then {[Digit(n)]} else {})
  }

  /** Every text that spells the time of day `m` as hours, a colon and minutes. */
  function Spellings(m: Minute): set<string>
  {
    set h, mm | h in FieldTexts(m / 60) && mm in FieldTexts(m % 60) :: h + ":" + mm
  }

  /** The time `s` holds with its colon at `k`, when both sides are fields in range. */
  function ReadClock(s: string, k: nat): (r: Option<Minute>)
    requires k < |s| && s[k] == ':'
    ensures r.Some? ==> s in Spellings(r.value)
  {
    if IsClockField(s[..k], 24) && IsClockField(s[k + 1..], 60) then
      var m := FieldValue(s[..k]) * 60 + FieldValue(s[k + 1..]);
      FieldSpelled(s[..k], 24);
      FieldSpelled(s[k + 1..], 60);
      assert s == s[..k] + ":" + s[k + 1..];
      Some(m)
    else None
  }

  /**
   * `strptime(text, "%H:%M")` as minutes after midnight: an hour of one or
   * two digits below 24, a colon, and a minute of one or two digits below
   * 60, with nothing before or after; any other text is no time. What it
   * reads is a time the text spells.
   */
  function ParseClock(s: string): (r: Option<Minute>)
    ensures r.Some? ==> s in Spellings(r.value)
  {
    if 2 <= |s| && s[1] == ':' then ReadClock(s, 1)
    else if 3 <= |s| && s[2] == ':' then ReadClock(s, 2)
    else None
  }

  /** A field text holds the value it spells. */
  lemma FieldSpelled(t: string, bound: int)
    requires IsClockField(t, bound) && bound <= 100
    ensures t in FieldTexts(FieldValue(t))
  {
    if |t| == 1 {
      assert t == [Digit(FieldValue(t))];
    } else {
      assert t == [Digit(FieldValue(t) / 10), Digit(FieldValue(t) % 10)];
    }
  }

  /** A spelling of a value is a field text of that value. */
  lemma SpellingField(n: int, t: string, bound: int)
    requires 0 <= n < bound <= 100 && t in FieldTexts(n)
    ensures IsClockField(t, bound) && FieldValue(t) == n
  {
  }

  /** Every spelling of a time of day, padded or not, is read as that time. */
  lemma ParseClockReadsSpellings(m: Minute, s: string)
    requires s in Spellings(m)
    ensures ParseClock(s) == Some(m)
  {
    var h, mm :| h in FieldTexts(m / 60) && mm in FieldTexts(m % 60) && s == h + ":" + mm;
    SpellingField(m / 60, h, 24);
    SpellingField(m % 60, mm, 60);
    assert s[..|h|] == h && s[|h| + 1..] == mm;
    if |h| == 2 {
      assert IsDigit(s[1]);
    }
  }

  /** A text of five characters is read only when it is the padded `HH:MM` form. */
  lemma PaddedClock(s: string)
    requires |s| == 5 && ParseClock(s).Some?
    ensures FormatClock(ParseClock(s).value) == s
  {
    var m := ParseClock(s).value;
    assert s[2] == ':' && s[1] != ':';
    assert s == s[..2] + ":" + s[3..];
    assert m / 60 == FieldValue(s[..2]) && m % 60 == FieldValue(s[3..]);
  }

  /** Writing a time of day as `HH:MM` and reading it back gives the same time. */
  lemma ClockRoundTrip(m: Minute)
    ensures ParseClock(FormatClock(m)) == Some(m)
  {
    var h, mm := [Digit(m / 60 / 10), Digit(m / 60 % 10)], [Digit(m % 60 / 10), Digit(m % 60 % 10)];
    assert h in FieldTexts(m / 60) && mm in FieldTexts(m % 60);
    assert FormatClock(m) == h + ":" + mm;
    ParseClockReadsSpellings(m, FormatClock(m));
  }

  /** The stored slot: its label and its length in minutes. */
  datatype TimeSlot = TimeSlot(name: string, durationMinutes: int)

  /** The slot's label: the day abbreviation, a space, the start text, `-` and the end text. */
  function SlotLabel(dayOfWeek: int, startTime: string, endTime: string): (name: string)
    requires -7 <= dayOfWeek < 7
    ensures |name| == 5 + |startTime| + |endTime|
    ensures name[..3] == DayAbbrevs[dayOfWeek % 7] && name[3] == ' '
    ensures name[4..4 + |startTime|] == startTime
    ensures name[4 + |startTime|] == '-'
    ensures name[5 + |startTime|..] == endTime
  {
    var name := DayAbbrev(dayOfWeek) + " " + startTime + "-" + endTime;
    assert name[4..4 + |startTime|] == startTime;
    assert name[5 + |startTime|..] == endTime;
    name
  }

  /**
   * The duration and label of `create_time_slot`. Both times must read as
   * `%H:%M`, otherwise `strptime` raises `ValueError`; the duration is the
   * end time minus the start time in minutes (negative when the end comes
   * first); the label echoes both texts as given. A `day_of_week` outside
   * the list's index range -7..6 raises `IndexError`. The handler turns
   * either error into a 500.
   */
  function CreateTimeSlot(dayOfWeek: int, startTime: string, endTime: string): (r: Result<TimeSlot, ApiError>)
    ensures r.Success? <==> ParseClock(startTime).Some? && ParseClock(endTime).Some? && -7 <= dayOfWeek < 7
    ensures r.Failure? ==> r.error.ServerError?
    ensures r.Success? ==> ParseClock(startTime).value + r.value.durationMinutes == ParseClock(endTime).value
    ensures r.Success? ==> r.value.name == SlotLabel(dayOfWeek, startTime, endTime)
  {
    var e := ParseClock(endTime);
    var st := ParseClock(startTime);
    if e.None? || st.None? then
      Failure(ServerError("time data does not match format '%H:%M'"))
    else if -7 <= dayOfWeek < 7 then
      Success(TimeSlot(SlotLabel(dayOfWeek, startTime, endTime), e.value as int - st.value as int))
    else
      Failure(ServerError("list index out of range"))
  }
}
