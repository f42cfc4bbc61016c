/** Opening hours (Booking) and shifts (Technician), for zones with a fixed offset from UTC.

    Instants are microseconds; a zone is the offset that turns an instant into local time. */
module Hours {
  import opened Wrappers

  const MINUTE: int := 60_000_000
  const DAY: int := 1440 * MINUTE

  /** Minutes after local midnight. */
  datatype Window = Window(from: int, to: int)

  function SinceMidnight(t: int, zone: int): int {
    (t + zone) % DAY
  }

  function LocalMidnight(t: int, zone: int): int {
    t - SinceMidnight(t, zone)
  }

  /** Monday is 1 and Sunday 7; day 0 of the epoch was a Thursday. */
  function IsoWeekday(t: int, zone: int): int {
    ((t + zone) / DAY + 3) % 7 + 1
  }

  /** HOUR * 60 + MINUTE of the local time: seconds are dropped. */
  function MinuteOfDay(t: int, zone: int): int {
    SinceMidnight(t, zone) / MINUTE
  }

  function LatestEnd(hours: map<int, Window>, zone: int, start: int): Option<int> {
    var d := IsoWeekday(start, zone);
    if d in hours then Some(LocalMidnight(start, zone) + hours[d].to * MINUTE) else None
  }

  predicate WithinHours(hours: map<int, Window>, zone: int, start: int) {
    var d := IsoWeekday(start, zone);
    d in hours && start >= LocalMidnight(start, zone) + hours[d].from * MINUTE
  }

  /** The shift clause of the claim query. */
  predicate ShiftAdmits(shifts: map<int, Window>, zone: int, start: int, end: int) {
    var d := IsoWeekday(start, zone);
    d in shifts && shifts[d].from <= MinuteOfDay(start, zone) && shifts[d].to >= MinuteOfDay(end, zone)
  }

  /** What Booking and the claim query check together. */
  predicate Accepted(hours: map<int, Window>, shifts: map<int, Window>, zone: int, start: int, minutes: int) {
    var end := start + minutes * MINUTE;
    && minutes >= 1
    && WithinHours(hours, zone, start)
    && LatestEnd(hours, zone, start).Some? && end <= LatestEnd(hours, zone, start).value
    && ShiftAdmits(shifts, zone, start, end)
  }

  /** Booked time lies inside the shop's hours of the start's local day. */
  lemma BookedInsideHours(hours: map<int, Window>, shifts: map<int, Window>, zone: int, start: int, minutes: int)
    requires Accepted(hours, shifts, zone, start, minutes)
    ensures var h, midnight, end := hours[IsoWeekday(start, zone)], LocalMidnight(start, zone),
        start + minutes * MINUTE;
            midnight + h.from * MINUTE <= start < end <= midnight + h.to * MINUTE
  {
  }

  /** Local time of day advances with the clock until local midnight. */
  lemma SameDay(t: int, zone: int, span: int)
    requires 0 <= span && SinceMidnight(t, zone) + span < DAY
    ensures SinceMidnight(t + span, zone) == SinceMidnight(t, zone) + span
  {
    var x := t + zone;
    assert x == x / DAY * DAY + x % DAY;
    DivDay(x + span, x / DAY, x % DAY + span);
  }

  lemma NextMidnight(t: int, zone: int, span: int)
    requires SinceMidnight(t, zone) + span == DAY
    ensures SinceMidnight(t + span, zone) == 0
  {
    var x := t + zone;
    assert x == x / DAY * DAY + x % DAY;
    DivDay(x + span, x / DAY + 1, 0);
  }

  lemma DivDay(x: int, q: int, r: int)
    requires 0 <= r < DAY && x == q * DAY + r
    ensures x / DAY == q && x % DAY == r
  {
  }

  lemma DivMinute(x: int, q: int, r: int)
    requires 0 <= r < MINUTE && x == q * MINUTE + r
    ensures x / MINUTE == q && x % MINUTE == r
  {
  }

  predicate WholeMinute(t: int, zone: int) {
    SinceMidnight(t, zone) % MINUTE == 0
  }

  /** The shift covers [start, end). */
  predicate Covers(w: Window, zone: int, start: int, end: int) {
    var midnight := LocalMidnight(start, zone);
    midnight + w.from * MINUTE <= start && end <= midnight + w.to * MINUTE
  }

  /** The shift covers [start, end) but for less than a minute at the end. */
  predicate AlmostCovers(w: Window, zone: int, start: int, end: int) {
    var midnight := LocalMidnight(start, zone);
    midnight + w.from * MINUTE <= start && end < midnight + w.to * MINUTE + MINUTE
  }

  /** When the shop closes before midnight the shift covers the booked time but for less than
      a minute, and covers it entirely if and only if the start is on a whole minute or the
      shift has a minute to spare. */
  lemma BookedInsideShift(hours: map<int, Window>, shifts: map<int, Window>, zone: int, start: int, minutes: int)
    requires Accepted(hours, shifts, zone, start, minutes) && hours[IsoWeekday(start, zone)].to < 1440
    ensures var w, end := shifts[IsoWeekday(start, zone)], start + minutes * MINUTE;
            && AlmostCovers(w, zone, start, end)
            && (Covers(w, zone, start, end) <==> WholeMinute(start, zone) || MinuteOfDay(end, zone) < w.to)
  {
    var w, end, s := shifts[IsoWeekday(start, zone)], start + minutes * MINUTE, SinceMidnight(start, zone);
    SameDay(start, zone, minutes * MINUTE);
    SplitMinutes(s);
    SplitMinutes(s + minutes * MINUTE);
    MinutesLater(s, minutes);
  }

  lemma SplitMinutes(s: int)
    ensures s == s / MINUTE * MINUTE + s % MINUTE && 0 <= s % MINUTE < MINUTE
  {
  }

  lemma MinutesLater(s: int, minutes: int)
    ensures (s + minutes * MINUTE) % MINUTE == s % MINUTE
  {
    DivMinute(s + minutes * MINUTE, s / MINUTE + minutes, s % MINUTE);
  }

  /** A shop that closes at midnight breaks the claim: a job ending at local midnight ends at
      minute 0 of the next day, which every shift admits. */
  lemma MidnightCloseAdmitsAnyShift()
    ensures var hours := map[4 := Window(480, 1440)];
            var shifts := map[4 := Window(480, 1020)];
            var start := 1380 * MINUTE;
            && Accepted(hours, shifts, 0, start, 60)
            && !AlmostCovers(shifts[4], 0, start, start + 60 * MINUTE)
  {
    var start := 1380 * MINUTE;
    DivDay(start, 0, start);
    DivDay(start + 60 * MINUTE, 1, 0);
    DivMinute(start, 1380, 0);
  }

  /** In general (closing times up to midnight, as the schema allows) the claim holds if and
      only if the job does not end at local midnight, or the shift runs to midnight itself. */
  lemma ShiftHoldsUnlessMidnight(hours: map<int, Window>, shifts: map<int, Window>, zone: int, start: int, minutes: int)
    requires Accepted(hours, shifts, zone, start, minutes) && hours[IsoWeekday(start, zone)].to <= 1440
    requires shifts[IsoWeekday(start, zone)].to <= 1440
    ensures var w, end := shifts[IsoWeekday(start, zone)], start + minutes * MINUTE;
            AlmostCovers(w, zone, start, end) <==> SinceMidnight(end, zone) != 0 || w.to == 1440
  {
    var w, span, s := shifts[IsoWeekday(start, zone)], minutes * MINUTE, SinceMidnight(start, zone);
    SplitMinutes(s);
    if s + span < DAY {
      SameDay(start, zone, span);
      SplitMinutes(s + span);
    } else {
      NextMidnight(start, zone, span);
    }
  }

  /** Exactly when the shift covers the booked time, for closing times up to midnight: a job that
      ends at local midnight needs a shift that runs to midnight, any other a start on a whole
      minute or a minute to spare. */
  lemma ShiftCoversIff(hours: map<int, Window>, shifts: map<int, Window>, zone: int, start: int, minutes: int)
    requires Accepted(hours, shifts, zone, start, minutes) && hours[IsoWeekday(start, zone)].to <= 1440
    ensures var w, end := shifts[IsoWeekday(start, zone)], start + minutes * MINUTE;
            Covers(w, zone, start, end) <==>
            if SinceMidnight(end, zone) == 0 then w.to >= 1440
            else WholeMinute(start, zone) || MinuteOfDay(end, zone) < w.to
  {
    var span, s := minutes * MINUTE, SinceMidnight(start, zone);
    SplitMinutes(s);
    if s + span < DAY {
      SameDay(start, zone, span);
      SplitMinutes(s + span);
      MinutesLater(s, minutes);
    } else {
      NextMidnight(start, zone, span);
    }
  }

  // ---- What local time is, from outside ---------------------------------------------------

  /** Local time of day: UTC moved by the offset, counted from local midnight. */
  lemma LocalTime(t: int, zone: int)
    ensures SinceMidnight(t, zone) == SinceMidnight(t + zone, 0)
    ensures 0 <= t < DAY ==> SinceMidnight(t, 0) == t
    ensures SinceMidnight(t + DAY, zone) == SinceMidnight(t, zone)
    ensures LocalMidnight(t, zone) <= t < LocalMidnight(t, zone) + DAY
    ensures SinceMidnight(LocalMidnight(t, zone), zone) == 0
    ensures MinuteOfDay(t, zone) * MINUTE <= SinceMidnight(t, zone) < (MinuteOfDay(t, zone) + 1) * MINUTE
  {
    var x := t + zone;
    assert x == x / DAY * DAY + x % DAY;
    DivDay(x + DAY, x / DAY + 1, x % DAY);
    DivDay(x - x % DAY, x / DAY, 0);
    SplitMinutes(x % DAY);
  }

  /** Weekdays run from Monday, 1, to Sunday, 7, one after the other, each for one local day, and
      1 January 1970 was a Thursday. */
  lemma WeekdaysRun(t: int, zone: int)
    ensures 1 <= IsoWeekday(t, zone) <= 7
    ensures IsoWeekday(t + DAY, zone) == IsoWeekday(t, zone) % 7 + 1
    ensures IsoWeekday(LocalMidnight(t, zone), zone) == IsoWeekday(t, zone)
    ensures IsoWeekday(t, zone) == IsoWeekday(t + zone, 0)
    ensures 0 <= t < DAY ==> IsoWeekday(t, 0) == 4
  {
    var x := t + zone;
    assert x == x / DAY * DAY + x % DAY;
    DivDay(x + DAY, x / DAY + 1, x % DAY);
    DivDay(x - x % DAY, x / DAY, 0);
  }

  /** A Saturday morning in 2026, for one. */
  lemma SaturdayIsSaturday()
    ensures IsoWeekday(20456 * DAY + 600 * MINUTE, 0) == 6
  {
    DivDay(20456 * DAY + 600 * MINUTE, 20456, 600 * MINUTE);
  }

  /** A start is accepted, with an end, exactly when both lie inside the hours of the local day. */
  lemma OpenExactly(hours: map<int, Window>, zone: int, start: int, end: int)
    ensures (&& WithinHours(hours, zone, start) && LatestEnd(hours, zone, start).Some?
             && end <= LatestEnd(hours, zone, start).value)
            <==>
            && IsoWeekday(start, zone) in hours
            && var w := hours[IsoWeekday(start, zone)];
               && w.from * 60_000_000 <= SinceMidnight(start, zone)
               && SinceMidnight(start, zone) + (end - start) <= w.to * 60_000_000
  {
  }

  /** The shift clause, in bare terms: the weekday of the start has a shift; the start is not before
      it; the local time of day of the end is less than a minute after it. */
  lemma ShiftExactly(shifts: map<int, Window>, zone: int, start: int, end: int)
    ensures ShiftAdmits(shifts, zone, start, end) <==>
            && IsoWeekday(start, zone) in shifts
            && var w := shifts[IsoWeekday(start, zone)];
               w.from * 60_000_000 <= SinceMidnight(start, zone) && SinceMidnight(end, zone) < (w.to + 1) * 60_000_000
  {
    SplitMinutes(SinceMidnight(start, zone));
    SplitMinutes(SinceMidnight(end, zone));
  }
}
