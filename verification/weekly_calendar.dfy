/** The weekly appointment grid: its hourly slot lists, the Sunday-aligned
    seven-day window, week navigation, the month header and the lookup of
    the appointments that occupy a (date, slot) cell. */
module WeeklyCalendar {
  import opened Options
  import opened Lists
  import opened Text
  import opened Calendar

  // ---------------------------------------------------------------- slots

  /** `${hour.toString().padStart(2, '0')}:00` */
  function HourLabel(hour: nat): string
  {
    PadStart(NatToString(hour), 2, '0') + ":00"
  }

  /** `s` is the zero-padded slot label "HH:00" of hour `h`. */
  predicate IsHourSlot(s: string, h: int)
  {
    && 0 <= h < 100
    && |s| == 5
    && s[0] == DigitChar(h / 10)
    && s[1] == DigitChar(h % 10)
    && s[2..] == ":00"
  }

  /** The label of an hour below 100 is its two digits and ":00". */
  lemma {:induction false} HourLabelIsHourSlot(h: nat)
    requires h < 100
    ensures IsHourSlot(HourLabel(h), h)
  {
    if h >= 10 {
      assert NatToString(h / 10) == [DigitChar(h / 10)];
    }
    assert PadStart(NatToString(h), 2, '0') == [DigitChar(h / 10), DigitChar(h % 10)];
  }

  /** An hour has exactly one slot label. */
  lemma HourSlotUnique(s: string, t: string, h: int)
    requires IsHourSlot(s, h) && IsHourSlot(t, h)
    ensures s == t
  {
    assert s == s[..2] + s[2..];
    assert t == t[..2] + t[2..];
  }

  /** `TIME_SLOTS`: one slot per hour from 07:00 to 22:00, sixteen in all, slot
      `i` labelling hour `7 + i`, so consecutive slots are one hour apart. */
  function TimeSlots(): (slots: seq<string>)
    ensures |slots| == 16
    ensures forall i :: 0 <= i < 16 ==> IsHourSlot(slots[i], 7 + i)
  {
    var slots := seq(16, i requires 0 <= i => HourLabel(i + 7));
    assert forall i :: 0 <= i < 16 ==> IsHourSlot(slots[i], 7 + i) by {
      forall i | 0 <= i < 16
        ensures IsHourSlot(slots[i], 7 + i)
      {
        HourLabelIsHourSlot(i + 7);
      }
    }
    slots
  }

  /** The first full slot is "07:00" and the last "22:00". */
  lemma TimeSlotsBounds()
    ensures TimeSlots()[0] == "07:00" && TimeSlots()[15] == "22:00"
  {
    HourSlotUnique(TimeSlots()[0], "07:00", 7);
    HourSlotUnique(TimeSlots()[15], "22:00", 22);
  }

  /** `COMPACT_TIME_SLOTS`: every second hour from 08:00 to 20:00. */
  const COMPACT_TIME_SLOTS: seq<string> :=
    ["08:00", "10:00", "12:00", "14:00", "16:00", "18:00", "20:00"]

  /** Compact slot `k` is the full slot of hour `8 + 2k`, so every compact slot
      is also a full slot. */
  lemma {:induction false} CompactSlotsAreFull()
    ensures |COMPACT_TIME_SLOTS| == 7
    ensures forall k :: 0 <= k < 7 ==> COMPACT_TIME_SLOTS[k] == TimeSlots()[2 * k + 1]
  {
    forall k | 0 <= k < 7
      ensures COMPACT_TIME_SLOTS[k] == TimeSlots()[2 * k + 1]
    {
      assert IsHourSlot(COMPACT_TIME_SLOTS[k], 8 + 2 * k);
      HourSlotUnique(COMPACT_TIME_SLOTS[k], TimeSlots()[2 * k + 1], 8 + 2 * k);
    }
  }

  /** `compact ? COMPACT_TIME_SLOTS : TIME_SLOTS`: the grid's rows. */
  function SlotsFor(compact: bool): (slots: seq<string>)
    ensures |slots| == if compact then 7 else 16
    ensures forall k :: 0 <= k < |slots| ==> slots[k] in TimeSlots()
    ensures slots == COMPACT_TIME_SLOTS <==> compact
  {
    CompactSlotsAreFull();
    if compact then COMPACT_TIME_SLOTS else TimeSlots()
  }

  // ---------------------------------------------------------------- weeks

  /** `getWeekStart`: step back by the day of the week to reach Sunday. */
  function WeekStart(d: Day): (s: Day)
    ensures DayOfWeek(s) == SUNDAY
    ensures s <= d <= s + 6
  {
    var s := d - DayOfWeek(d);
    DayOfWeekShift(s, 0);
    assert s + 4 == 7 * ((d + 4) / 7);
    s
  }

  /** The week start is the only Sunday at most six days before the date. */
  lemma {:induction false} WeekStartUnique(d: Day, s: Day)
    requires DayOfWeek(s) == SUNDAY && s <= d <= s + 6
    ensures s == WeekStart(d)
  {
    DayOfWeekAdvance(s, d - s);
  }

  /** A Sunday is its own week start. */
  lemma WeekStartOfSunday(d: Day)
    requires DayOfWeek(d) == SUNDAY
    ensures WeekStart(d) == d
  {
    WeekStartUnique(d, d);
  }

  /** `generateWeekDays`: the seven days from `start` on, built one at a time. */
  method GenerateWeekDays(start: Day) returns (days: seq<Day>)
    ensures |days| == 7
    ensures forall i :: 0 <= i < 7 ==> days[i] == start + i
    ensures days == WeekDays(start)
  {
    days := [];
    var i := 0;
    while i < 7
      invariant 0 <= i <= 7
      invariant |days| == i
      invariant forall k :: 0 <= k < i ==> days[k] == start + k
    {
      days := days + [start + i];
      i := i + 1;
    }
  }

  /** The seven days from `start` on, as a value. */
  function WeekDays(start: Day): seq<Day>
  {
    seq(7, i requires 0 <= i < 7 => start + i)
  }

  /** The grid's navigation state: `selectedWeekStart` and `currentWeek`. */
  datatype WeekView = WeekView(weekStart: Day, week: seq<Day>)

  /** A well-formed view shows the seven days of a week that starts on Sunday. */
  predicate ValidView(v: WeekView)
  {
    DayOfWeek(v.weekStart) == SUNDAY && v.week == WeekDays(v.weekStart)
  }

  /** The effect run when the selected date changes: show its week. */
  function ShowDate(selected: Day): (v: WeekView)
    ensures ValidView(v)
    ensures |v.week| == 7 && selected in v.week
    ensures DayOfWeek(v.week[0]) == SUNDAY && DayOfWeek(v.week[6]) == SATURDAY
  {
    var start := WeekStart(selected);
    DayOfWeekAdvance(start, 6);
    assert WeekDays(start)[selected - start] == selected;
    WeekView(start, WeekDays(start))
  }

  /** `goToPreviousWeek`: the week start moves back seven days. */
  function PreviousWeek(v: WeekView): (r: WeekView)
    ensures r.weekStart == v.weekStart - 7
    ensures DayOfWeek(v.weekStart) == SUNDAY ==> ValidView(r)
  {
    DayOfWeekShift(v.weekStart, -1);
    WeekView(v.weekStart - 7, WeekDays(v.weekStart - 7))
  }

  /** `goToNextWeek`: the week start moves forward seven days. */
  function NextWeek(v: WeekView): (r: WeekView)
    ensures r.weekStart == v.weekStart + 7
    ensures DayOfWeek(v.weekStart) == SUNDAY ==> ValidView(r)
  {
    DayOfWeekShift(v.weekStart, 1);
    WeekView(v.weekStart + 7, WeekDays(v.weekStart + 7))
  }

  /** Going forward a week and back again restores the view, and so does the
      opposite order. */
  lemma NavigationRoundTrip(v: WeekView)
    requires ValidView(v)
    ensures PreviousWeek(NextWeek(v)) == v
    ensures NextWeek(PreviousWeek(v)) == v
  {
  }

  /** Every navigated view is the view of any date it shows: navigating and
      picking a date in the new week agree. */
  lemma {:induction false} NavigationMatchesShowDate(v: WeekView, k: int)
    requires ValidView(v) && 0 <= k < 7
    ensures ShowDate(NextWeek(v).week[k]) == NextWeek(v)
    ensures ShowDate(PreviousWeek(v).week[k]) == PreviousWeek(v)
  {
    WeekStartUnique(v.weekStart + 7 + k, v.weekStart + 7);
    WeekStartUnique(v.weekStart - 7 + k, v.weekStart - 7);
  }

  // ---------------------------------------------------------------- header

  /** Which of the two header forms `getMonthYear` renders; the pt-BR month
      and year text itself is not modelled. `None` stands for the
      `undefined` first or last day of a week not yet built. */
  datatype Header =
    | SingleMonth(first: Option<Day>)
    | TwoMonths(first: Option<Day>, last: Option<Day>)

  /** `getMonthYear`: compare the month of `currentWeek[0]` and `currentWeek[6]`
      (`undefined` equals `undefined`). */
  function MonthYearHeader(week: seq<Day>): (h: Header)
    ensures |week| >= 7 ==> (h.SingleMonth? <==> MonthIndex(week[0]) == MonthIndex(week[6]))
    ensures |week| >= 7 ==> h.first == Some(week[0])
    ensures h.TwoMonths? && |week| >= 7 ==> h.last == Some(week[6])
    ensures |week| == 0 ==> h == SingleMonth(None)
  {
    var first := if |week| > 0 then Some(week[0]) else None;
    var last := if |week| > 6 then Some(week[6]) else None;
    var firstMonth := if first.Some? then Some(MonthIndex(first.value)) else None;
    var lastMonth := if last.Some? then Some(MonthIndex(last.value)) else None;
    if firstMonth == lastMonth then SingleMonth(first) else TwoMonths(first, last)
  }

  /** For a built week the header names one month exactly when its Sunday
      and its Saturday fall in the same month. */
  lemma HeaderOfView(v: WeekView)
    requires ValidView(v)
    ensures MonthYearHeader(v.week).SingleMonth?
        <==> MonthIndex(v.weekStart) == MonthIndex(v.weekStart + 6)
  {
    assert |v.week| == 7 && v.week[0] == v.weekStart && v.week[6] == v.weekStart + 6;
  }

  // ---------------------------------------------------------------- slot lookup

  /** A calendar appointment as the grid receives it. */
  datatype Appointment = Appointment(
    id: string,
    startTime: string,
    endTime: string,
    clientName: Option<string>,
    serviceName: Option<string>,
    status: string)

  /** What a successfully parsed date-time string yields: its UTC calendar
      day (`toISOString().split('T')[0]`) and its local "HH:MM"
      (`toTimeString().substring(0, 5)`). */
  datatype Stamp = Stamp(day: Day, time: string)

  /** Does `apt` occupy the cell of `day` and slot `time`? `parse` stands for
      `new Date(...)` on a string containing 'T': `None` is an Invalid Date. */
  predicate Occupies(apt: Appointment, day: Day, time: string, parse: string -> Option<Stamp>)
  {
    if |apt.startTime| == 0 then false
    else if 'T' in apt.startTime then
      match parse(apt.startTime)
      case None => false
      case Some(stamp) => stamp.day == day && stamp.time == time
    else Take(apt.startTime, 5) == time
  }

  /** `getAppointmentsForSlot`: an invalid cell date (`None`) yields nothing;
      otherwise the appointments occupying the cell, in their original order. */
  function AppointmentsForSlot(date: Option<Day>, time: string, appointments: seq<Appointment>,
                               parse: string -> Option<Stamp>): (r: seq<Appointment>)
    ensures IsSublist(r, appointments)
    ensures date.None? ==> r == []
    ensures forall a :: a in r ==> multiset(r)[a] == multiset(appointments)[a]
    ensures forall a :: a in r ==> |a.startTime| > 0
    ensures forall a :: a in appointments && |a.startTime| > 0 && 'T' !in a.startTime && date.Some?
              ==> (a in r <==> Take(a.startTime, 5) == time)
    ensures forall a :: a in appointments && 'T' in a.startTime && parse(a.startTime).None?
              ==> a !in r
    ensures forall a :: a in appointments && 'T' in a.startTime && parse(a.startTime).Some? && date.Some?
              ==> (a in r <==> parse(a.startTime).value == Stamp(date.value, time))
  {
    match date
    case None => []
    case Some(day) => Filter(appointments, a => Occupies(a, day, time, parse))
  }

  /** What an occupied cell shows: the first occupant's client name, or the
      placeholder "(Sem título)" when it has none, the service line (absent in
      compact mode, which does not render it), and whether it gets the
      completed colour. */
  datatype CellSummary = CellSummary(title: string, serviceName: Option<string>, completed: bool)

  /** The cell rendering: empty without occupants, otherwise a summary of the
      first one. */
  function SummarizeCell(occupants: seq<Appointment>, compact: bool): (r: Option<CellSummary>)
    ensures r.None? <==> |occupants| == 0
    ensures r.Some? ==> (r.value.completed <==> occupants[0].status == "completed")
    ensures r.Some? && occupants[0].clientName.Some? && occupants[0].clientName.value != "" ==>
              r.value.title == occupants[0].clientName.value
    ensures r.Some? && (occupants[0].clientName.None? || occupants[0].clientName.value == "") ==>
              r.value.title == "(Sem título)"
    ensures r.Some? ==> r.value.serviceName == (if compact then None else occupants[0].serviceName)
  {
    if |occupants| == 0 then None
    else
      var first := occupants[0];
      var title := if first.clientName.Some? && first.clientName.value != "" then first.clientName.value
                   else "(Sem título)";
      var service := if compact then None else first.serviceName;
      Some(CellSummary(title, service, first.status == "completed"))
  }

  // ---------------------------------------------------------------- scenarios

  /** 2025-08-26 is a Tuesday; its grid runs from Sunday 2025-08-24 to Saturday
      2025-08-30 under a one-month header. */
  lemma AugustWeek()
    ensures DayOfWeek(FromCivil(CivilDate(2025, 8, 26))) == 2
    ensures ToCivil(ShowDate(FromCivil(CivilDate(2025, 8, 26))).week[0]) == CivilDate(2025, 8, 24)
    ensures ToCivil(ShowDate(FromCivil(CivilDate(2025, 8, 26))).week[6]) == CivilDate(2025, 8, 30)
    ensures MonthYearHeader(ShowDate(FromCivil(CivilDate(2025, 8, 26))).week).SingleMonth?
  {
    assert FromCivil(CivilDate(2025, 8, 26)) == 20326;
    assert DayOfWeek(20326) == 2;
    WeekStartUnique(20326, 20324);
    var v := ShowDate(20326);
    assert v.weekStart == 20324;
    assert v.week[0] == 20324 && v.week[6] == 20330;
    assert ShiftedDay(20324) / 146097 == 5 && ShiftedDay(20324) % 146097 == 9307;
    assert YearOfEra(9307) == 25 && DayOfYear(9307, 25) == 176;
    assert MarchMonth(176) == 5 && DayOfMonth(176, 5) == 24;
    assert ShiftedDay(20330) / 146097 == 5 && ShiftedDay(20330) % 146097 == 9313;
    assert YearOfEra(9313) == 25 && DayOfYear(9313, 25) == 182;
    assert MarchMonth(182) == 5 && DayOfMonth(182, 5) == 30;
  }

  /** The week of 2026-01-01 starts on Sunday 2025-12-28, and its header names
      two months. */
  lemma NewYearWeek()
    ensures ToCivil(ShowDate(FromCivil(CivilDate(2026, 1, 1))).weekStart) == CivilDate(2025, 12, 28)
    ensures MonthYearHeader(ShowDate(FromCivil(CivilDate(2026, 1, 1))).week).TwoMonths?
  {
    assert FromCivil(CivilDate(2026, 1, 1)) == 20454;
    assert DayOfWeek(20450) == SUNDAY;
    WeekStartUnique(20454, 20450);
    var v := ShowDate(20454);
    assert v.weekStart == 20450;
    assert v.week[0] == 20450 && v.week[6] == 20456;
    assert ShiftedDay(20450) / 146097 == 5 && ShiftedDay(20450) % 146097 == 9433;
    assert YearOfEra(9433) == 25 && DayOfYear(9433, 25) == 302;
    assert MarchMonth(302) == 9 && DayOfMonth(302, 9) == 28;
    assert ShiftedDay(20456) / 146097 == 5 && ShiftedDay(20456) % 146097 == 9439;
    assert YearOfEra(9439) == 25 && DayOfYear(9439, 25) == 308;
    assert MarchMonth(308) == 10 && DayOfMonth(308, 10) == 3;
  }

  /** A bare "09:00:00" start fills the 09:00 cell and not the 10:00 one; an
      empty start fills none. */
  lemma BareTimeCells(day: Day, parse: string -> Option<Stamp>)
    ensures AppointmentsForSlot(Some(day), "09:00", [Appointment("a", "09:00:00", "10:00:00", None, None, "scheduled")], parse)
         == [Appointment("a", "09:00:00", "10:00:00", None, None, "scheduled")]
    ensures AppointmentsForSlot(Some(day), "10:00", [Appointment("a", "09:00:00", "10:00:00", None, None, "scheduled")], parse)
         == []
    ensures AppointmentsForSlot(Some(day), "09:00", [Appointment("b", "", "", None, None, "scheduled")], parse)
         == []
  {
    var a := Appointment("a", "09:00:00", "10:00:00", None, None, "scheduled");
    assert 'T' !in a.startTime;
    assert Take(a.startTime, 5) == "09:00";
    assert Occupies(a, day, "09:00", parse);
    assert !Occupies(a, day, "10:00", parse);
    assert Filter([a], x => Occupies(x, day, "09:00", parse)) == [a];
  }
}
