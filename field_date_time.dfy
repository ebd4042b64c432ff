/** The booking start/end date-and-time field: which time slots fall on a
    chosen day, the start hours each slot offers on that day, the first
    offered time, how a chosen time becomes a display date, which inputs are
    disabled, and how choosing or clearing a date or a time rewrites the
    other form fields and the calendar's month.

    Instants are milliseconds since the epoch. The listing's time zone is
    hidden inside `ZoneOps`, whose functions stand for the time utilities
    the component imports; the lemmas state what they assume of them. The
    browser's own time zone is a fixed offset, `localOffset`. */
module FieldDateAndTimeInput {

  import opened Wrappers
  import opened JsNumbers
  import JsValues

  type Instant = int

  const SECOND := 1000
  const MINUTE := 60 * SECOND
  const HOUR := 60 * MINUTE
  const DAY := 24 * HOUR

  /** A bookable interval, `{ attributes: { start, end } }`. */
  datatype TimeSlot = TimeSlot(start: Instant, end: Instant)

  /** One option of a time select, `{ timestamp, timeOfDay }`. */
  datatype StartHour = StartHour(timestamp: Instant, timeOfDay: string)

  /** The time utilities, with the listing's time zone fixed:
      `resetToStartOfDay(d, tz, days)`, `isInRange(d, start, end, 'day', tz)`,
      `getStartHours(intl, tz, start, end)`, `dateIsAfter`, `dateIsAfterOnly`,
      `timeOfDayFromLocalToTimeZone(d, tz)`, `getMonthStartInTimeZone(d, tz)`,
      `nextMonthFn`, `prevMonthFn`. */
  datatype ZoneOps = ZoneOps(
    resetToStartOfDay: (Instant, int) -> Instant,
    isInRangeDay: (Instant, Instant, Instant) -> bool,
    getStartHours: (Instant, Instant) -> seq<StartHour>,
    dateIsAfter: (Instant, Instant) -> bool,
    dateIsAfterOnly: (Instant, Instant) -> bool,
    localToTimeZone: Instant -> Instant,
    monthStart: Instant -> Instant,
    nextMonth: Instant -> Instant,
    prevMonth: Instant -> Instant)

  /** What is assumed of `dateIsAfter(a, b)`: true when `a` is later, false
      when `a` is earlier; equal instants may go either way. */
  ghost predicate IsAfterComparison(f: (Instant, Instant) -> bool) {
    forall a: Instant, b: Instant :: (a > b ==> f(a, b)) && (f(a, b) ==> a >= b)
  }

  /** What is assumed of `getStartHours(start, end)`: every hour it offers
      lies between the two. */
  ghost predicate HoursBetween(g: (Instant, Instant) -> seq<StartHour>) {
    forall s: Instant, e: Instant, i :: 0 <= i < |g(s, e)| ==> s <= g(s, e)[i].timestamp <= e
  }

  function Max(a: int, b: int): int { if a >= b then a else b }
  function Min(a: int, b: int): int { if a <= b then a else b }

  // ---------------------------------------------------------------------
  // Slots on a day

  /** Order-preserving sub-sequence. */
  predicate IsSubsequence<T(==)>(sub: seq<T>, sup: seq<T>)
    decreases |sup|
  {
    if sub == [] then true
    else if sup == [] then false
    else (sub[0] == sup[0] && IsSubsequence(sub[1..], sup[1..])) || IsSubsequence(sub, sup[1..])
  }

  predicate OnDay(ops: ZoneOps, date: Instant, t: TimeSlot) {
    ops.isInRangeDay(date, t.start, t.end)
  }

  /** `slots.filter(t => isInRange(date, t.start, t.end, 'day', tz))` */
  function SlotsOnDay(ops: ZoneOps, date: Instant, slots: seq<TimeSlot>): (r: seq<TimeSlot>)
    ensures forall i :: 0 <= i < |r| ==> OnDay(ops, date, r[i])
    ensures forall i :: 0 <= i < |slots| && OnDay(ops, date, slots[i]) ==> slots[i] in r
    ensures IsSubsequence(r, slots)
    ensures forall t :: multiset(r)[t] == (if OnDay(ops, date, t) then multiset(slots)[t] else 0)
  {
    if slots == [] then []
    else
      var rest := SlotsOnDay(ops, date, slots[1..]);
      assert forall i :: 1 <= i < |slots| ==> slots[i] == slots[1..][i - 1];
      assert slots == [slots[0]] + slots[1..];
      if OnDay(ops, date, slots[0]) then
        assert ([slots[0]] + rest)[1..] == rest;
        [slots[0]] + rest
      else
        rest
  }

  /** Filtering a filtered list changes nothing. */
  lemma {:induction false} SlotsOnDayIdempotent(ops: ZoneOps, date: Instant, slots: seq<TimeSlot>)
    ensures SlotsOnDay(ops, date, SlotsOnDay(ops, date, slots)) == SlotsOnDay(ops, date, slots)
  {
    if slots != [] {
      var rest := SlotsOnDay(ops, date, slots[1..]);
      SlotsOnDayIdempotent(ops, date, slots[1..]);
      if OnDay(ops, date, slots[0]) {
        assert ([slots[0]] + rest)[1..] == rest;
      }
    }
  }

  /** `getTimeSlots(timeSlots, date, tz)`: nothing for a missing or empty
      list, else the slots on that day, in order. */
  function GetTimeSlots(ops: ZoneOps, timeSlots: Option<seq<TimeSlot>>, date: Instant): (r: seq<TimeSlot>)
    ensures timeSlots.None? || timeSlots.value == [] ==> r == []
    ensures timeSlots.Some? ==> IsSubsequence(r, timeSlots.value)
    ensures forall i :: 0 <= i < |r| ==> OnDay(ops, date, r[i])
    ensures timeSlots.Some? ==>
              forall i :: 0 <= i < |timeSlots.value| && OnDay(ops, date, timeSlots.value[i]) ==> timeSlots.value[i] in r
    ensures timeSlots.Some? ==>
              forall t :: multiset(r)[t] == (if OnDay(ops, date, t) then multiset(timeSlots.value)[t] else 0)
  {
    if timeSlots.Some? && timeSlots.value != [] then SlotsOnDay(ops, date, timeSlots.value) else []
  }

  /** The start-date handler filters a day's slots and then the first-time
      lookup filters them again; the second filter changes nothing. */
  lemma GetTimeSlotsIdempotent(ops: ZoneOps, timeSlots: Option<seq<TimeSlot>>, date: Instant)
    ensures GetTimeSlots(ops, Some(GetTimeSlots(ops, timeSlots, date)), date) == GetTimeSlots(ops, timeSlots, date)
  {
    if timeSlots.Some? && timeSlots.value != [] {
      SlotsOnDayIdempotent(ops, date, timeSlots.value);
    }
  }

  // ---------------------------------------------------------------------
  // Hours on a day

  /** The per-slot limits: the later of the day's start and the slot's
      start, and the earlier of the slot's end and the next day's start. */
  function SlotLimits(ops: ZoneOps, dayStart: Instant, nextDate: Instant, t: TimeSlot): (r: (Instant, Instant))
    ensures IsAfterComparison(ops.dateIsAfter) ==> r.0 == Max(dayStart, t.start) && r.1 == Min(t.end, nextDate)
  {
    (if ops.dateIsAfter(dayStart, t.start) then dayStart else t.start,
     if ops.dateIsAfter(t.end, nextDate) then nextDate else t.end)
  }

  function SlotHours(ops: ZoneOps, dayStart: Instant, nextDate: Instant, t: TimeSlot): seq<StartHour> {
    var (startLimit, endLimit) := SlotLimits(ops, dayStart, nextDate, t);
    ops.getStartHours(startLimit, endLimit)
  }

  /** The `reduce` that concatenates the slots' hours onto an accumulator. */
  function HoursFold(ops: ZoneOps, dayStart: Instant, nextDate: Instant, acc: seq<StartHour>,
                     slots: seq<TimeSlot>): seq<StartHour>
    decreases |slots|
  {
    if slots == [] then acc
    else HoursFold(ops, dayStart, nextDate, acc + SlotHours(ops, dayStart, nextDate, slots[0]), slots[1..])
  }

  /** The hours of every slot, slot by slot. */
  function AllHours(ops: ZoneOps, dayStart: Instant, nextDate: Instant, slots: seq<TimeSlot>): seq<StartHour>
    decreases |slots|
  {
    if slots == [] then []
    else SlotHours(ops, dayStart, nextDate, slots[0]) + AllHours(ops, dayStart, nextDate, slots[1..])
  }

  lemma {:induction false} HoursFoldIsConcatenation(ops: ZoneOps, dayStart: Instant, nextDate: Instant,
                                                    acc: seq<StartHour>, slots: seq<TimeSlot>)
    ensures HoursFold(ops, dayStart, nextDate, acc, slots) == acc + AllHours(ops, dayStart, nextDate, slots)
    decreases |slots|
  {
    if slots != [] {
      var h := SlotHours(ops, dayStart, nextDate, slots[0]);
      HoursFoldIsConcatenation(ops, dayStart, nextDate, acc + h, slots[1..]);
      assert (acc + h) + AllHours(ops, dayStart, nextDate, slots[1..])
          == acc + (h + AllHours(ops, dayStart, nextDate, slots[1..]));
    }
  }

  /** `getAvailableTime(intl, tz, bookingStart, slots)`: nothing without
      slots or a start; otherwise every slot's hours within the start's day,
      concatenated in slot order. */
  function GetAvailableTime(ops: ZoneOps, bookingStart: Option<Instant>, slots: seq<TimeSlot>): (r: seq<StartHour>)
    ensures slots == [] || bookingStart.None? ==> r == []
    ensures slots != [] && bookingStart.Some? ==>
              var dayStart := ops.resetToStartOfDay(bookingStart.value, 0);
              r == AllHours(ops, dayStart, ops.resetToStartOfDay(dayStart, 1), slots)
  {
    if slots == [] || bookingStart.None? then []
    else
      var dayStart := ops.resetToStartOfDay(bookingStart.value, 0);
      var nextDate := ops.resetToStartOfDay(dayStart, 1);
      HoursFoldIsConcatenation(ops, dayStart, nextDate, [], slots);
      HoursFold(ops, dayStart, nextDate, [], slots)
  }

  /** Each slot's limits lie after the day's start and before the next
      day's start. */
  lemma SlotLimitsWithinDay(ops: ZoneOps, dayStart: Instant, nextDate: Instant, t: TimeSlot)
    requires IsAfterComparison(ops.dateIsAfter)
    ensures dayStart <= SlotLimits(ops, dayStart, nextDate, t).0
    ensures SlotLimits(ops, dayStart, nextDate, t).1 <= nextDate
  {
  }

  lemma {:induction false} AllHoursWithin(ops: ZoneOps, dayStart: Instant, nextDate: Instant, slots: seq<TimeSlot>)
    requires IsAfterComparison(ops.dateIsAfter) && HoursBetween(ops.getStartHours)
    ensures forall i :: 0 <= i < |AllHours(ops, dayStart, nextDate, slots)| ==>
              dayStart <= AllHours(ops, dayStart, nextDate, slots)[i].timestamp <= nextDate
    decreases |slots|
  {
    if slots != [] {
      var h := SlotHours(ops, dayStart, nextDate, slots[0]);
      var rest := AllHours(ops, dayStart, nextDate, slots[1..]);
      AllHoursWithin(ops, dayStart, nextDate, slots[1..]);
      SlotLimitsWithinDay(ops, dayStart, nextDate, slots[0]);
      var all := h + rest;
      forall i | 0 <= i < |all|
        ensures dayStart <= all[i].timestamp <= nextDate
      {
        if i >= |h| {
          assert all[i] == rest[i - |h|];
        }
      }
    }
  }

  /** Every hour offered for a start date lies within that date's day. */
  lemma AvailableHoursWithinDay(ops: ZoneOps, bookingStart: Instant, slots: seq<TimeSlot>)
    requires IsAfterComparison(ops.dateIsAfter) && HoursBetween(ops.getStartHours)
    ensures var dayStart := ops.resetToStartOfDay(bookingStart, 0);
            var r := GetAvailableTime(ops, Some(bookingStart), slots);
            forall i :: 0 <= i < |r| ==>
              dayStart <= r[i].timestamp <= ops.resetToStartOfDay(dayStart, 1)
  {
    var dayStart := ops.resetToStartOfDay(bookingStart, 0);
    AllHoursWithin(ops, dayStart, ops.resetToStartOfDay(dayStart, 1), slots);
  }

  /** `getFirstTimeValue(intl, tz, timeSlots, date).time`: the first
      offered hour's timestamp as a string, `null` when there is none or it
      is 0. */
  function GetFirstTimeValue(ops: ZoneOps, timeSlots: Option<seq<TimeSlot>>, date: Instant): (time: Option<string>)
    ensures var times := GetAvailableTime(ops, Some(date), GetTimeSlots(ops, timeSlots, date));
            (time.Some? <==> |times| > 0 && times[0].timestamp != 0)
            && (time.Some? ==> NumberOf(time) == Some(times[0].timestamp) && time.value != "")
  {
    var times := GetAvailableTime(ops, Some(date), GetTimeSlots(ops, timeSlots, date));
    if |times| > 0 && times[0].timestamp != 0 then
      NumberOfText(times[0].timestamp);
      Some(IntToText(times[0].timestamp))
    else
      None
  }

  // ---------------------------------------------------------------------
  // Display dates

  /** A `Date` object a display field holds. */
  type DisplayDate = Instant

  /** Calendar parts of an instant in the browser's time zone. */
  function LocalDay(t: Instant, localOffset: int): int { (t + localOffset) / DAY }
  function LocalHours(t: Instant, localOffset: int): int { ((t + localOffset) % DAY) / HOUR }
  function LocalMinutes(t: Instant, localOffset: int): int { ((t + localOffset) % HOUR) / MINUTE }
  function LocalSeconds(t: Instant, localOffset: int): int { ((t + localOffset) % MINUTE) / SECOND }
  function LocalMillis(t: Instant, localOffset: int): int { (t + localOffset) % SECOND }

  /** `addTimeToDate(oldTime, oldDate)`: the hour of `Number(oldTime)` set on
      `oldDate` with minutes and seconds zeroed; the milliseconds stay. When
      `oldTime` is not a number its hour is `NaN`, which moment's setter
      skips, so the date keeps its own hour. */
  function AddTimeToDate(oldTime: Option<string>, oldDate: Instant, localOffset: int): (r: DisplayDate)
    ensures LocalDay(r, localOffset) == LocalDay(oldDate, localOffset)
    ensures NumberOf(oldTime).Some? ==>
              LocalHours(r, localOffset) == LocalHours(NumberOf(oldTime).value, localOffset)
    ensures NumberOf(oldTime).None? ==> LocalHours(r, localOffset) == LocalHours(oldDate, localOffset)
    ensures LocalMinutes(r, localOffset) == 0 && LocalSeconds(r, localOffset) == 0
    ensures LocalMillis(r, localOffset) == LocalMillis(oldDate, localOffset)
  {
    var hour :=
      match NumberOf(oldTime)
      case Some(ms) => LocalHours(ms, localOffset)
      case None => LocalHours(oldDate, localOffset);
    HourOfDay(if NumberOf(oldTime).Some? then NumberOf(oldTime).value else oldDate, localOffset);
    SetHour(oldDate, hour, localOffset);
    HourSetOn(oldDate, hour, localOffset)
  }

  /** `oldDate` with its local hour set to `hour` and its minutes and
      seconds cleared. */
  function HourSetOn(oldDate: Instant, hour: int, localOffset: int): Instant {
    var x := oldDate + localOffset;
    oldDate - x % DAY + hour * HOUR + x % SECOND
  }

  lemma HourOfDay(t: Instant, localOffset: int)
    ensures 0 <= LocalHours(t, localOffset) < 24
  {
    var x := (t + localOffset) % DAY;
    DivModOf(x, HOUR, x / HOUR, x % HOUR);
    if x / HOUR >= 24 {
      AtLeastOnce(x / HOUR - 23, HOUR);
    }
  }

  lemma SetHour(oldDate: Instant, hour: int, localOffset: int)
    requires 0 <= hour < 24
    ensures var t := HourSetOn(oldDate, hour, localOffset);
            LocalDay(t, localOffset) == LocalDay(oldDate, localOffset)
            && LocalHours(t, localOffset) == hour
            && LocalMinutes(t, localOffset) == 0 && LocalSeconds(t, localOffset) == 0
            && LocalMillis(t, localOffset) == LocalMillis(oldDate, localOffset)
  {
    var x := oldDate + localOffset;
    var day := x / DAY;
    var rest := x % DAY;
    var millis := x % SECOND;
    assert x == day * DAY + rest;
    assert x == (day * 86400) * SECOND + rest;
    ShiftMod(rest, day * 86400);
    assert millis == rest % SECOND;
    TimeParts(day, hour, millis);
    assert HourSetOn(oldDate, hour, localOffset) + localOffset == day * DAY + hour * HOUR + millis;
  }

  lemma ShiftMod(r: int, n: int)
    ensures (n * SECOND + r) % SECOND == r % SECOND
  {
  }

  /** Euclidean division has one quotient and one remainder. */
  lemma DivModOf(x: int, k: int, q: int, r: int)
    requires k > 0 && x == q * k + r && 0 <= r < k
    ensures x / k == q && x % k == r
  {
    var q' := x / k;
    var r' := x % k;
    assert x == q' * k + r';
    var d := q - q';
    assert d * k == q * k - q' * k;
    assert d * k == r' - r;
    if d > 0 {
      AtLeastOnce(d, k);
    } else if d < 0 {
      AtLeastOnce(-d, k);
    }
  }

  lemma AtLeastOnce(d: int, k: int)
    requires d > 0 && k > 0
    ensures d * k >= k
  {
    assert d * k == (d - 1) * k + k;
    assert (d - 1) * k >= 0;
  }

  /** The parts of `day * DAY + hour * HOUR + millis`. */
  lemma TimeParts(day: int, hour: int, millis: int)
    requires 0 <= hour < 24 && 0 <= millis < SECOND
    ensures var x := day * DAY + hour * HOUR + millis;
            x / DAY == day && (x % DAY) / HOUR == hour && (x % HOUR) / MINUTE == 0
            && (x % MINUTE) / SECOND == 0 && x % SECOND == millis
  {
    var x := day * DAY + hour * HOUR + millis;
    DivModOf(x, DAY, day, hour * HOUR + millis);
    DivModOf(hour * HOUR + millis, HOUR, hour, millis);
    DivModOf(x, HOUR, day * 24 + hour, millis);
    DivModOf(millis, MINUTE, 0, millis);
    DivModOf(x, MINUTE, (day * 24 + hour) * 60, millis);
    DivModOf(millis, SECOND, 0, millis);
    DivModOf(x, SECOND, ((day * 24 + hour) * 60) * 60, millis);
  }

  // ---------------------------------------------------------------------
  // Form values

  /** A date field's value `{ date }`; `{ date: null }` is a cleared one. */
  datatype DateValue = DateValue(date: Option<Instant>)

  /** The six form fields the component reads and writes; `None` is a
      missing or `null` value. */
  datatype BookingValues = BookingValues(
    bookingStartDate: Option<DateValue>,
    bookingStartTime: Option<string>,
    bookingEndDate: Option<DateValue>,
    bookingEndTime: Option<string>,
    bookingDisplayStart: Option<DisplayDate>,
    bookingDisplayEnd: Option<DisplayDate>)

  /** `v && v.date ? v.date : null` */
  function DateOf(v: Option<DateValue>): (d: Option<Instant>)
    ensures d.Some? <==> v.Some? && v.value.date.Some?
    ensures d.Some? ==> d == v.value.date
  {
    if v.Some? then v.value.date else None
  }

  function StartDateOf(values: BookingValues): Option<Instant> { DateOf(values.bookingStartDate) }
  function EndDateOf(values: BookingValues): Option<Instant> { DateOf(values.bookingEndDate) }

  predicate StartTimeDisabled(values: BookingValues) {
    StartDateOf(values).None?
  }

  predicate EndDateDisabled(values: BookingValues) {
    StartDateOf(values).None? || !JsValues.IsTruthyText(values.bookingStartTime)
  }

  predicate EndTimeDisabled(values: BookingValues) {
    StartDateOf(values).None? || !JsValues.IsTruthyText(values.bookingStartTime) || EndDateOf(values).None?
  }

  /** Each input is disabled whenever the one before it is, and enabled
      exactly when everything before it is set. */
  lemma DisabledCascade(values: BookingValues)
    ensures StartTimeDisabled(values) ==> EndDateDisabled(values)
    ensures EndDateDisabled(values) ==> EndTimeDisabled(values)
    ensures !EndDateDisabled(values) <==>
              StartDateOf(values).Some? && JsValues.IsTruthyText(values.bookingStartTime)
    ensures !EndTimeDisabled(values) <==>
              StartDateOf(values).Some? && JsValues.IsTruthyText(values.bookingStartTime) && EndDateOf(values).Some?
  {
  }

  /** The options of the start-time select. */
  function AvailableStartTimes(ops: ZoneOps, timeSlots: Option<seq<TimeSlot>>, values: BookingValues): (r: seq<StartHour>)
    ensures StartDateOf(values).None? ==> r == []
    ensures StartDateOf(values).Some? ==>
              r == GetAvailableTime(ops, StartDateOf(values), GetTimeSlots(ops, timeSlots, StartDateOf(values).value))
  {
    match StartDateOf(values)
    case None => []
    case Some(d) => GetAvailableTime(ops, Some(d), GetTimeSlots(ops, timeSlots, d))
  }

  /** The options of the end-time select. */
  function AvailableEndTimes(ops: ZoneOps, timeSlots: Option<seq<TimeSlot>>, values: BookingValues): (r: seq<StartHour>)
    ensures EndDateOf(values).None? ==> r == []
    ensures EndDateOf(values).Some? ==>
              r == GetAvailableTime(ops, EndDateOf(values), GetTimeSlots(ops, timeSlots, EndDateOf(values).value))
  {
    match EndDateOf(values)
    case None => []
    case Some(d) => GetAvailableTime(ops, Some(d), GetTimeSlots(ops, timeSlots, d))
  }

  /** `isOutsideRange(day, bookingStartDate, tz)`: with no start date every
      day is outside; otherwise the days not after the start's day are. */
  function IsOutsideRange(ops: ZoneOps, day: Instant, bookingStartDate: Option<Instant>): (r: bool)
    ensures bookingStartDate.None? ==> r
  {
    if bookingStartDate.None? then true
    else !ops.dateIsAfterOnly(ops.localToTimeZone(day), ops.resetToStartOfDay(bookingStartDate.value, 0))
  }

  /** With a strict comparison, a day is selectable as the end date exactly
      when it is after the start of the start date's day. */
  lemma OutsideRangeIffNotAfterStart(ops: ZoneOps, day: Instant, start: Instant)
    requires forall a: Instant, b: Instant :: ops.dateIsAfterOnly(a, b) <==> a > b
    ensures IsOutsideRange(ops, day, Some(start)) <==>
              ops.localToTimeZone(day) <= ops.resetToStartOfDay(start, 0)
  {
  }

  /** `endOfRange(date, tz)`: the start of the last bookable day. */
  function EndOfRange(ops: ZoneOps, dayCountAvailableForBooking: int, date: Instant): Instant {
    ops.resetToStartOfDay(date, dayCountAvailableForBooking - 1)
  }

  /** The calendar's "next month" arrow shows while the next month does not
      start after the last bookable day. */
  predicate ShowNextMonth(ops: ZoneOps, dayCountAvailableForBooking: int, today: Instant, currentMonth: Instant) {
    !ops.dateIsAfter(ops.nextMonth(currentMonth), EndOfRange(ops, dayCountAvailableForBooking, today))
  }

  /** The "previous month" arrow shows while the previous month starts after
      today's month. */
  predicate ShowPrevMonth(ops: ZoneOps, today: Instant, currentMonth: Instant) {
    ops.dateIsAfter(ops.prevMonth(currentMonth), ops.monthStart(today))
  }

  /** On today's month there is no way back. */
  lemma NoPrevMonthAtStart(ops: ZoneOps, today: Instant)
    requires IsAfterComparison(ops.dateIsAfter)
    requires ops.prevMonth(ops.monthStart(today)) < ops.monthStart(today)
    ensures !ShowPrevMonth(ops, today, ops.monthStart(today))
  {
  }

  /** The "next month" arrow shows before the bookable range ends and is
      gone once the next month starts after it. */
  lemma NextMonthWithinRange(ops: ZoneOps, dayCountAvailableForBooking: int, today: Instant, currentMonth: Instant)
    requires IsAfterComparison(ops.dateIsAfter)
    ensures ops.nextMonth(currentMonth) < EndOfRange(ops, dayCountAvailableForBooking, today) ==>
              ShowNextMonth(ops, dayCountAvailableForBooking, today, currentMonth)
    ensures ops.nextMonth(currentMonth) > EndOfRange(ops, dayCountAvailableForBooking, today) ==>
              !ShowNextMonth(ops, dayCountAvailableForBooking, today, currentMonth)
  {
  }

  datatype MonthStep = PrevMonth | NextMonth

  /** The component: its props, the form values it writes, and the month the
      calendars show. */
  class DateAndTimeInput {
    const ops: ZoneOps
    const timeSlots: Option<seq<TimeSlot>>
    const today: Instant
    const localOffset: int
    var values: BookingValues
    var currentMonth: Instant

    /** An end time is only ever held together with an end date. */
    predicate Valid()
      reads this
    {
      JsValues.IsTruthyText(values.bookingEndTime) ==> EndDateOf(values).Some?
    }

    constructor(ops: ZoneOps, timeSlots: Option<seq<TimeSlot>>, today: Instant, localOffset: int)
      ensures this.ops == ops && this.timeSlots == timeSlots
      ensures this.today == today && this.localOffset == localOffset
      ensures values == BookingValues(None, None, None, None, None, None)
      ensures currentMonth == ops.monthStart(today)
      ensures Valid()
    {
      this.ops := ops;
      this.timeSlots := timeSlots;
      this.today := today;
      this.localOffset := localOffset;
      values := BookingValues(None, None, None, None, None, None);
      currentMonth := ops.monthStart(today);
    }

    method OnMonthClick(step: MonthStep)
      modifies this
      ensures step.PrevMonth? ==> currentMonth == ops.prevMonth(old(currentMonth))
      ensures step.NextMonth? ==> currentMonth == ops.nextMonth(old(currentMonth))
      ensures values == old(values)
    {
      currentMonth := if step.PrevMonth? then ops.prevMonth(currentMonth) else ops.nextMonth(currentMonth);
    }

    /** Closing the start-date calendar goes back to today's month. */
    method OnStartDateClose()
      modifies this
      ensures currentMonth == ops.monthStart(today)
      ensures values == old(values)
    {
      currentMonth := ops.monthStart(today);
    }

    /** Clearing the start date nulls the start time, the end date and the
        end time and goes back to today's month; the display fields stay.
        Choosing one writes the date, its first offered time and the
        matching display start, and clears every end field. Either way,
        the end time cannot be chosen afterwards. */
    method OnBookingStartDateChange(value: Option<DateValue>)
      modifies this
      requires Valid()
      ensures Valid()
      ensures value.None? || value.value.date.None? ==>
                values == old(values).(bookingStartTime := None, bookingEndDate := Some(DateValue(None)),
                                       bookingEndTime := None)
                && currentMonth == ops.monthStart(today)
      ensures value.Some? && value.value.date.Some? ==>
                var startDate := ops.localToTimeZone(value.value.date.value);
                var startTime := GetFirstTimeValue(ops, Some(GetTimeSlots(ops, timeSlots, startDate)), startDate);
                values == BookingValues(Some(DateValue(Some(startDate))), startTime, Some(DateValue(None)), None,
                                        Some(AddTimeToDate(startTime, startDate, localOffset)), None)
                && currentMonth == old(currentMonth)
      ensures EndTimeDisabled(values)
    {
      if value.None? || value.value.date.None? {
        values := values.(bookingStartTime := None, bookingEndDate := Some(DateValue(None)), bookingEndTime := None);
        currentMonth := ops.monthStart(today);
        return;
      }
      var startDate := ops.localToTimeZone(value.value.date.value);
      var slotsOnStartDate := GetTimeSlots(ops, timeSlots, startDate);
      var startTime := GetFirstTimeValue(ops, Some(slotsOnStartDate), startDate);
      var displayStart := AddTimeToDate(startTime, startDate, localOffset);
      values := BookingValues(Some(DateValue(Some(startDate))), startTime, Some(DateValue(None)), None,
                              Some(displayStart), None);
    }

    /** Choosing a start time writes it and the display start; the end
        fields stay as they are. */
    method OnBookingStartTimeChange(value: string)
      modifies this
      requires Valid()
      requires !StartTimeDisabled(values)
      ensures Valid()
      ensures values == old(values).(bookingStartTime := Some(value),
                                     bookingDisplayStart := Some(AddTimeToDate(Some(value), StartDateOf(old(values)).value, localOffset)))
      ensures currentMonth == old(currentMonth)
    {
      var displayStart := AddTimeToDate(Some(value), StartDateOf(values).value, localOffset);
      values := values.(bookingStartTime := Some(value), bookingDisplayStart := Some(displayStart));
    }

    /** Choosing an end time writes it and the display end. */
    method OnBookingEndTimeChange(value: string)
      modifies this
      requires Valid()
      requires !EndTimeDisabled(values)
      ensures Valid()
      ensures values == old(values).(bookingEndTime := Some(value),
                                     bookingDisplayEnd := Some(AddTimeToDate(Some(value), EndDateOf(old(values)).value, localOffset)))
      ensures currentMonth == old(currentMonth)
    {
      var displayEnd := AddTimeToDate(Some(value), EndDateOf(values).value, localOffset);
      values := values.(bookingEndTime := Some(value), bookingDisplayEnd := Some(displayEnd));
    }

    /** Clearing the end date nulls only the end time. Choosing one writes
        the date, its first offered time and the matching display end. */
    method OnBookingEndDateChange(value: Option<DateValue>)
      modifies this
      requires Valid()
      ensures Valid()
      ensures value.None? || value.value.date.None? ==> values == old(values).(bookingEndTime := None)
      ensures value.Some? && value.value.date.Some? ==>
                var endDate := ops.localToTimeZone(value.value.date.value);
                var endTime := GetFirstTimeValue(ops, Some(GetTimeSlots(ops, timeSlots, endDate)), endDate);
                values == old(values).(bookingEndDate := Some(DateValue(Some(endDate))), bookingEndTime := endTime,
                                       bookingDisplayEnd := Some(AddTimeToDate(endTime, endDate, localOffset)))
      ensures currentMonth == old(currentMonth)
    {
      if value.None? || value.value.date.None? {
        values := values.(bookingEndTime := None);
        return;
      }
      var endDate := ops.localToTimeZone(value.value.date.value);
      var slotsOnEndDate := GetTimeSlots(ops, timeSlots, endDate);
      var endTime := GetFirstTimeValue(ops, Some(slotsOnEndDate), endDate);
      var displayEnd := AddTimeToDate(endTime, endDate, localOffset);
      values := values.(bookingEndDate := Some(DateValue(Some(endDate))), bookingEndTime := endTime,
                        bookingDisplayEnd := Some(displayEnd));
    }
  }

  /** The first time the start-date handler writes is the first hour offered
      on that day: filtering the day's slots twice is filtering them once. */
  lemma StartTimeIsFirstOffered(ops: ZoneOps, timeSlots: Option<seq<TimeSlot>>, startDate: Instant)
    ensures GetFirstTimeValue(ops, Some(GetTimeSlots(ops, timeSlots, startDate)), startDate)
            == GetFirstTimeValue(ops, timeSlots, startDate)
  {
    GetTimeSlotsIdempotent(ops, timeSlots, startDate);
  }
}
