/** Staffed time: how many milliseconds of an interval fall into a calendar's local opening hours. */
module Calendar {
  import opened Options

  const MINUTE := 60_000
  const HOUR := 3_600_000
  const DAY := 86_400_000
  const LONGEST := 366 * DAY

  /** Local minutes after midnight, half-open; `until` may be 1440. */
  datatype Window = Window(from: nat, until: nat)

  /** None: nobody reviewed that day. Some([]): closed. */
  type Hours = Option<seq<Window>>

  datatype Exception = Exception(day: int, hours: Hours)

  /** Days are numbered from 1970-01-01; `weekly[0]` is Monday. */
  datatype ServiceCalendar = ServiceCalendar(validFrom: int, validUntil: int, weekly: seq<Hours>, exceptions: seq<Exception>)

  datatype Duration = Known(milliseconds: int) | Unknown(reason: Reason)
  datatype Reason = CalendarUnknown | InvalidInterval | IntervalTooLarge | OutsideReviewedCalendar | UnknownDay

  /** What the calendar's schema asks of one day's windows. */
  predicate HoursOk(h: Hours) {
    h.Some? ==>
      && |h.value| <= 8
      && (forall i :: 0 <= i < |h.value| ==> h.value[i].from < h.value[i].until <= 1440)
      && (forall i :: 0 < i < |h.value| ==> h.value[i - 1].until <= h.value[i].from)
  }

  predicate CalendarOk(c: ServiceCalendar) {
    && |c.weekly| == 7 && (forall i :: 0 <= i < 7 ==> HoursOk(c.weekly[i]))
    && |c.exceptions| <= 400 && c.validFrom <= c.validUntil
    && (forall i :: 0 <= i < |c.exceptions| ==>
          HoursOk(c.exceptions[i].hours) && c.validFrom <= c.exceptions[i].day <= c.validUntil)
    && (forall i, j :: 0 <= i < j < |c.exceptions| ==> c.exceptions[i].day != c.exceptions[j].day)
  }

  // ------------------------------------------------------------------ the zone

  /** Local time minus UTC, in milliseconds, at an instant. */
  type Offset = int -> int

  /** Whole hours, and the same throughout every UTC hour. */
  ghost predicate WholeHours(offset: Offset) {
    && (forall t: int :: offset(t) % HOUR == 0)
    && (forall s: int, t: int :: HourOf(s) == HourOf(t) ==> offset(s) == offset(t))
  }

  /** The local date never goes back. */
  ghost predicate DatesRunForward(offset: Offset) {
    forall s: int, t: int :: s <= t ==> LocalDay(offset, s) <= LocalDay(offset, t)
  }

  function HourOf(t: int): int { t / 3_600_000 * 3_600_000 }

  function LocalDay(offset: Offset, t: int): int { (t + offset(t)) / DAY }

  function LocalMs(offset: Offset, t: int): int { (t + offset(t)) % DAY }

  // ------------------------------------------------------------------ the simple measure

  function ExceptionOn(exceptions: seq<Exception>, day: int): Option<Hours> {
    if exceptions == [] then None
    else if exceptions[|exceptions| - 1].day == day then Some(exceptions[|exceptions| - 1].hours)
    else ExceptionOn(exceptions[..|exceptions| - 1], day)
  }

  function HoursOn(c: ServiceCalendar, day: int): Hours
    requires |c.weekly| == 7
  {
    var e := ExceptionOn(c.exceptions, day);
    if e.Some? then e.value else c.weekly[(day + 3) % 7]
  }

  predicate Open(windows: seq<Window>, ms: int) {
    exists i :: 0 <= i < |windows| && windows[i].from * MINUTE <= ms < windows[i].until * MINUTE
  }

  /** At this instant the local clock shows a time inside one of that local day's windows. */
  predicate Staffed(c: ServiceCalendar, offset: Offset, t: int)
    requires |c.weekly| == 7
  {
    var h := HoursOn(c, LocalDay(offset, t));
    h.Some? && Open(h.value, LocalMs(offset, t))
  }

  predicate Reviewed(c: ServiceCalendar, offset: Offset, t: int)
    requires |c.weekly| == 7
  {
    HoursOn(c, LocalDay(offset, t)).Some?
  }

  /** How many of the instants lo, lo + 1, ..., hi - 1 satisfy p. */
  ghost function Count(p: int -> bool, lo: int, hi: int): nat
    decreases hi - lo
  {
    if hi <= lo then 0 else Count(p, lo, hi - 1) + if p(hi - 1) then 1 else 0
  }

  ghost function StaffedMs(c: ServiceCalendar, offset: Offset, from: int, until: int): nat
    requires |c.weekly| == 7
  {
    Count(t => Staffed(c, offset, t), from, until)
  }

  // ------------------------------------------------------------------ counting

  lemma {:induction false} CountSplits(p: int -> bool, a: int, b: int, c: int)
    requires a <= b <= c
    ensures Count(p, a, c) == Count(p, a, b) + Count(p, b, c)
    decreases c - b
  {
    if b < c { CountSplits(p, a, b, c - 1); }
  }

  lemma {:induction false} CountAgrees(p: int -> bool, q: int -> bool, lo: int, hi: int)
    requires forall t :: lo <= t < hi ==> p(t) == q(t)
    ensures Count(p, lo, hi) == Count(q, lo, hi)
    decreases hi - lo
  {
    if lo < hi { CountAgrees(p, q, lo, hi - 1); }
  }

  /** Disjoint conditions count separately. */
  lemma {:induction false} CountAdds(p: int -> bool, q: int -> bool, r: int -> bool, lo: int, hi: int)
    requires forall t :: lo <= t < hi ==> (r(t) <==> p(t) || q(t)) && !(p(t) && q(t))
    ensures Count(r, lo, hi) == Count(p, lo, hi) + Count(q, lo, hi)
    decreases hi - lo
  {
    if lo < hi { CountAdds(p, q, r, lo, hi - 1); }
  }

  function Max(a: int, b: int): int { if a < b then b else a }
  function Min(a: int, b: int): int { if a < b then a else b }

  /** An interval inside an interval. */
  lemma {:induction false} CountInterval(a: int, b: int, lo: int, hi: int)
    ensures Count(t => a <= t < b, lo, hi) == Max(0, Min(hi, b) - Max(lo, a))
    decreases hi - lo
  {
    if lo < hi { CountInterval(a, b, lo, hi - 1); }
  }

  // ------------------------------------------------------------------ one UTC hour

  lemma HourBounds(t: int)
    ensures HourOf(t) <= t < HourOf(t) + HOUR && HourOf(HourOf(t)) == HourOf(t)
  {
  }

  lemma InsideHour(hour: int, t: int)
    requires HourOf(hour) == hour && hour <= t < hour + HOUR
    ensures HourOf(t) == hour
  {
    assert t / HOUR == hour / HOUR;
  }

  /** Throughout a UTC hour the local date stands still and the local clock runs with the UTC one. */
  lemma OneLocalHour(offset: Offset, hour: int, t: int)
    requires WholeHours(offset) && HourOf(hour) == hour && hour <= t < hour + HOUR
    ensures LocalDay(offset, t) == LocalDay(offset, hour)
    ensures LocalMs(offset, t) == LocalMs(offset, hour) + (t - hour)
    ensures LocalMs(offset, hour) % HOUR == 0
  {
    InsideHour(hour, t);
    assert offset(t) == offset(hour);
    var k := hour / HOUR + offset(hour) / HOUR;
    assert hour + offset(hour) == k * HOUR;
    WholeHourOfDay(k, t - hour);
  }

  lemma WholeHourOfDay(k: int, d: int)
    requires 0 <= d < HOUR
    ensures (k * HOUR + d) / DAY == (k * HOUR) / DAY
    ensures (k * HOUR + d) % DAY == (k * HOUR) % DAY + d
    ensures (k * HOUR) % DAY % HOUR == 0
  {
    var day, h := k / 24, k % 24;
    assert k * HOUR == day * DAY + h * HOUR;
    assert 0 <= h * HOUR + d < DAY;
    DivModIs(k * HOUR, day, h * HOUR);
    DivModIs(k * HOUR + d, day, h * HOUR + d);
  }

  lemma DivModIs(n: int, q: int, r: int)
    requires n == q * DAY + r && 0 <= r < DAY
    ensures n / DAY == q && n % DAY == r
  {
  }

  /** Windows overlap nowhere, so a local time is in at most one of them. */
  lemma {:induction false} WindowsOrdered(windows: seq<Window>, i: nat, j: nat)
    requires HoursOk(Some(windows)) && i < j < |windows|
    ensures windows[i].until <= windows[j].from
    decreases j
  {
    if i < j - 1 { WindowsOrdered(windows, i, j - 1); }
  }

  /** What one window contributes to one slice: the source's `max`/`min` expression. */
  function SliceOfWindow(w: Window, hour: int, localHour: int, from: int, until: int): int {
    var a := hour + Max(0, w.from * MINUTE - localHour);
    var b := hour + Min(HOUR, w.until * MINUTE - localHour);
    Max(0, Min(until, b) - Max(from, a))
  }

  /** In the slice, being inside the window is being inside [a, b). */
  lemma WindowInSlice(w: Window, hour: int, localHour: int, from: int, until: int)
    ensures Count(t => w.from * MINUTE <= localHour + (t - hour) < w.until * MINUTE, Max(from, hour), Min(until, hour + HOUR))
            == SliceOfWindow(w, hour, localHour, from, until)
  {
    var lo, hi := Max(from, hour), Min(until, hour + HOUR);
    var a := hour + Max(0, w.from * MINUTE - localHour);
    var b := hour + Min(HOUR, w.until * MINUTE - localHour);
    CountAgrees(t => w.from * MINUTE <= localHour + (t - hour) < w.until * MINUTE, t => a <= t < b, lo, hi);
    CountInterval(a, b, lo, hi);
  }

  ghost function OpenMs(windows: seq<Window>, hour: int, localHour: int, lo: int, hi: int): nat {
    Count(t => Open(windows, localHour + (t - hour)), lo, hi)
  }

  /** Adding the next window adds its share. */
  lemma NextWindow(windows: seq<Window>, k: nat, hour: int, localHour: int, from: int, until: int)
    requires HoursOk(Some(windows)) && k < |windows|
    ensures var lo, hi := Max(from, hour), Min(until, hour + HOUR);
            OpenMs(windows[..k + 1], hour, localHour, lo, hi)
            == OpenMs(windows[..k], hour, localHour, lo, hi) + SliceOfWindow(windows[k], hour, localHour, from, until)
  {
    var lo, hi := Max(from, hour), Min(until, hour + HOUR);
    var w := windows[k];
    WindowInSlice(w, hour, localHour, from, until);
    var before := t => Open(windows[..k], localHour + (t - hour));
    var inside := t => w.from * MINUTE <= localHour + (t - hour) < w.until * MINUTE;
    var after := t => Open(windows[..k + 1], localHour + (t - hour));
    forall t | lo <= t < hi ensures (after(t) <==> before(t) || inside(t)) && !(before(t) && inside(t)) {
      NextWindowAt(windows, k, localHour + (t - hour));
    }
    CountAdds(before, inside, after, lo, hi);
  }

  lemma NextWindowAt(windows: seq<Window>, k: nat, ms: int)
    requires HoursOk(Some(windows)) && k < |windows|
    ensures var w := windows[k];
            && (Open(windows[..k + 1], ms) <==> Open(windows[..k], ms) || w.from * MINUTE <= ms < w.until * MINUTE)
            && !(Open(windows[..k], ms) && w.from * MINUTE <= ms < w.until * MINUTE)
  {
    var w := windows[k];
    if w.from * MINUTE <= ms < w.until * MINUTE {
      assert windows[..k + 1][k] == w;
      forall i | 0 <= i < k ensures !(windows[..k][i].from * MINUTE <= ms < windows[..k][i].until * MINUTE) {
        WindowsOrdered(windows, i, k);
      }
    }
    if Open(windows[..k], ms) {
      var i :| 0 <= i < k && windows[..k][i].from * MINUTE <= ms < windows[..k][i].until * MINUTE;
      assert windows[..k + 1][i] == windows[..k][i];
    }
  }

  /** A whole slice: the instants open under that hour's windows are the staffed ones. */
  lemma SliceIsStaffed(c: ServiceCalendar, offset: Offset, hour: int, from: int, until: int)
    requires CalendarOk(c) && WholeHours(offset) && HourOf(hour) == hour && Reviewed(c, offset, hour)
    ensures var lo, hi := Max(from, hour), Min(until, hour + HOUR);
            OpenMs(HoursOn(c, LocalDay(offset, hour)).value, hour, LocalMs(offset, hour), lo, hi) == StaffedMs(c, offset, lo, hi)
  {
    var lo, hi := Max(from, hour), Min(until, hour + HOUR);
    var windows := HoursOn(c, LocalDay(offset, hour)).value;
    forall t | lo <= t < hi ensures Open(windows, LocalMs(offset, hour) + (t - hour)) == Staffed(c, offset, t) {
      OneLocalHour(offset, hour, t);
    }
    CountAgrees(t => Open(windows, LocalMs(offset, hour) + (t - hour)), t => Staffed(c, offset, t), lo, hi);
  }

  lemma {:induction false} ExceptionHours(exceptions: seq<Exception>, day: int)
    requires forall i :: 0 <= i < |exceptions| ==> HoursOk(exceptions[i].hours)
    ensures ExceptionOn(exceptions, day).Some? ==> HoursOk(ExceptionOn(exceptions, day).value)
  {
    if exceptions != [] && exceptions[|exceptions| - 1].day != day {
      ExceptionHours(exceptions[..|exceptions| - 1], day);
    }
  }

  lemma HoursOnOk(c: ServiceCalendar, day: int)
    requires CalendarOk(c)
    ensures HoursOk(HoursOn(c, day))
  {
    ExceptionHours(c.exceptions, day);
  }

  // ------------------------------------------------------------------ the source's loops

  /** One UTC hour's share of [from, until), window by window. */
  method SliceMs(windows: seq<Window>, hour: int, localHour: int, from: int, until: int) returns (milliseconds: int)
    requires HoursOk(Some(windows))
    ensures milliseconds == OpenMs(windows, hour, localHour, Max(from, hour), Min(until, hour + HOUR))
  {
    milliseconds := 0;
    NoWindows(hour, localHour, Max(from, hour), Min(until, hour + HOUR));
    for k := 0 to |windows|
      invariant milliseconds == OpenMs(windows[..k], hour, localHour, Max(from, hour), Min(until, hour + HOUR))
    {
      var a := hour + Max(0, windows[k].from * MINUTE - localHour);
      var b := hour + Min(HOUR, windows[k].until * MINUTE - localHour);
      NextWindow(windows, k, hour, localHour, from, until);
      milliseconds := milliseconds + Max(0, Min(until, b) - Max(from, a));
    }
    assert windows[..|windows|] == windows;
  }

  lemma {:induction false} NoWindows(hour: int, localHour: int, lo: int, hi: int)
    ensures OpenMs([], hour, localHour, lo, hi) == 0
    decreases hi - lo
  {
    if lo < hi {
      NoWindows(hour, localHour, lo, hi - 1);
      assert !Open([], localHour + (hi - 1 - hour));
    }
  }

  /** Whether the calendar answers at all, said of the interval and not of the loop. An empty interval
      that does not start on a full hour still asks for its own day. */
  ghost predicate Answers(c: ServiceCalendar, offset: Offset, from: int, until: int)
    requires |c.weekly| == 7
  {
    && from <= until <= from + LONGEST
    && InsideDates(c, offset, from, until) && DaysReviewed(c, offset, from, until)
  }

  predicate InsideDates(c: ServiceCalendar, offset: Offset, from: int, until: int) {
    c.validFrom <= LocalDay(offset, from) && LocalDay(offset, Max(from, until - 1)) <= c.validUntil
  }

  ghost predicate DaysReviewed(c: ServiceCalendar, offset: Offset, from: int, until: int)
    requires |c.weekly| == 7
  {
    && (forall t :: from <= t < until ==> Reviewed(c, offset, t))
    && (from == until && from != HourOf(from) ==> Reviewed(c, offset, from))
  }

  /** The answer is the simple measure whenever there is one, and there is one exactly when the interval
      is ordered, short enough, inside the reviewed dates and without unreviewed days. */
  method CalendarStaffedDuration(calendar: Option<ServiceCalendar>, offset: Offset, from: int, until: int) returns (d: Duration)
    requires WholeHours(offset)
    ensures calendar.None? || !CalendarOk(calendar.value) <==> d == Unknown(CalendarUnknown)
    ensures calendar.Some? && CalendarOk(calendar.value) ==>
              && (d.Known? <==> Answers(calendar.value, offset, from, until))
              && (d.Known? ==> d.milliseconds == StaffedMs(calendar.value, offset, from, until))
              && (d == Unknown(InvalidInterval) <==> until < from)
              && (d == Unknown(IntervalTooLarge) <==> from + LONGEST < until)
              && (d == Unknown(OutsideReviewedCalendar) <==>
                    from <= until <= from + LONGEST && !InsideDates(calendar.value, offset, from, until))
              && (d == Unknown(UnknownDay) <==>
                    from <= until <= from + LONGEST && InsideDates(calendar.value, offset, from, until)
                    && !DaysReviewed(calendar.value, offset, from, until))
  {
    if calendar.None? || !CalendarOk(calendar.value) { return Unknown(CalendarUnknown); }
    var c := calendar.value;
    if from > until { return Unknown(InvalidInterval); }
    if until - from > LONGEST { return Unknown(IntervalTooLarge); }
    if LocalDay(offset, from) < c.validFrom || LocalDay(offset, Max(from, until - 1)) > c.validUntil {
      return Unknown(OutsideReviewedCalendar);
    }
    var known, milliseconds := AddSlices(c, offset, from, until);
    d := if known then Known(milliseconds) else Unknown(UnknownDay);
  }

  /** The loop over UTC hours. */
  method AddSlices(c: ServiceCalendar, offset: Offset, from: int, until: int) returns (known: bool, milliseconds: int)
    requires WholeHours(offset) && CalendarOk(c) && from <= until
    ensures known <==> DaysReviewed(c, offset, from, until)
    ensures known ==> milliseconds == StaffedMs(c, offset, from, until)
  {
    milliseconds := 0;
    var hour := HourOf(from);
    known := true;
    StartSlices(c, offset, from, until);
    while hour < until
      invariant SlicesDone(c, offset, from, until, hour, milliseconds)
      decreases until - hour
    {
      known, milliseconds := Turn(c, offset, from, until, hour, milliseconds);
      if !known { return; }
      hour := hour + HOUR;
    }
    AllSlices(c, offset, from, until, hour, milliseconds);
  }

  method Turn(c: ServiceCalendar, offset: Offset, from: int, until: int, hour: int, before: int) returns (known: bool, milliseconds: int)
    requires WholeHours(offset) && CalendarOk(c) && from <= until && hour < until && SlicesDone(c, offset, from, until, hour, before)
    ensures known ==> SlicesDone(c, offset, from, until, hour + HOUR, milliseconds)
    ensures !known ==> !DaysReviewed(c, offset, from, until)
  {
    var share := OneSlice(c, offset, hour, from, until);
    NextSlice(c, offset, from, until, hour, before, share);
    known := share.Some?;
    milliseconds := if known then before + share.value else before;
  }

  /** One hour's share; None when its day is unreviewed. */
  method OneSlice(c: ServiceCalendar, offset: Offset, hour: int, from: int, until: int) returns (share: Option<int>)
    requires WholeHours(offset) && CalendarOk(c) && HourOf(hour) == hour
    ensures share.Some? <==> Reviewed(c, offset, hour)
    ensures share.Some? ==> share.value == StaffedMs(c, offset, Max(from, hour), Min(until, hour + HOUR))
  {
    var windows := HoursOn(c, LocalDay(offset, hour));
    if windows.None? { return None; }
    HoursOnOk(c, LocalDay(offset, hour));
    var ms := SliceMs(windows.value, hour, LocalMs(offset, hour), from, until);
    SliceIsStaffed(c, offset, hour, from, until);
    share := Some(ms);
  }

  /** The days of all slices before `hour` are reviewed. */
  ghost predicate ReviewedBefore(c: ServiceCalendar, offset: Offset, from: int, until: int, hour: int)
    requires |c.weekly| == 7
  {
    && (forall t :: from <= t < until && t < hour ==> Reviewed(c, offset, t))
    && (from == until && hour != HourOf(from) ==> Reviewed(c, offset, from))
  }

  /** Everything before `hour` is reviewed and counted. */
  ghost predicate SlicesDone(c: ServiceCalendar, offset: Offset, from: int, until: int, hour: int, milliseconds: int)
    requires |c.weekly| == 7
  {
    && HourOf(hour) == hour && HourOf(from) <= hour
    && ReviewedBefore(c, offset, from, until, hour)
    && milliseconds == StaffedMs(c, offset, from, Min(until, Max(from, hour)))
  }

  lemma StartSlices(c: ServiceCalendar, offset: Offset, from: int, until: int)
    requires |c.weekly| == 7 && from <= until
    ensures SlicesDone(c, offset, from, until, HourOf(from), 0)
  {
    HourBounds(from);
  }

  lemma NextSlice(c: ServiceCalendar, offset: Offset, from: int, until: int, hour: int, milliseconds: int, share: Option<int>)
    requires WholeHours(offset) && CalendarOk(c) && from <= until && hour < until
    requires SlicesDone(c, offset, from, until, hour, milliseconds)
    requires share.Some? <==> Reviewed(c, offset, hour)
    requires share.Some? ==> share.value == StaffedMs(c, offset, Max(from, hour), Min(until, hour + HOUR))
    ensures share.Some? ==> SlicesDone(c, offset, from, until, hour + HOUR, milliseconds + share.value)
    ensures share.None? ==> !DaysReviewed(c, offset, from, until)
  {
    SliceDecides(c, offset, hour, from, until);
    SlicesAddUp(c, offset, hour, from, until);
    NextHour(hour);
  }

  lemma SliceDecides(c: ServiceCalendar, offset: Offset, hour: int, from: int, until: int)
    requires WholeHours(offset) && CalendarOk(c) && HourOf(hour) == hour && HourOf(from) <= hour < until && from <= until
    requires ReviewedBefore(c, offset, from, until, hour)
    ensures Reviewed(c, offset, hour) ==> ReviewedBefore(c, offset, from, until, hour + HOUR)
    ensures !Reviewed(c, offset, hour) ==> !DaysReviewed(c, offset, from, until)
  {
    var t := SliceReviewed(c, offset, hour, from, until);
    HourBounds(from);
  }

  lemma AllSlices(c: ServiceCalendar, offset: Offset, from: int, until: int, hour: int, milliseconds: int)
    requires |c.weekly| == 7 && from <= until <= hour && SlicesDone(c, offset, from, until, hour, milliseconds)
    ensures DaysReviewed(c, offset, from, until) && milliseconds == StaffedMs(c, offset, from, until)
  {
    HourBounds(from);
  }

  lemma NextHour(hour: int)
    requires HourOf(hour) == hour
    ensures HourOf(hour + HOUR) == hour + HOUR
  {
    assert (hour + HOUR) / HOUR == hour / HOUR + 1;
  }

  /** The slice's day is the day of every instant of the interval in it. */
  lemma SliceReviewed(c: ServiceCalendar, offset: Offset, hour: int, from: int, until: int) returns (t: int)
    requires CalendarOk(c) && WholeHours(offset) && HourOf(hour) == hour && HourOf(from) <= hour < until && from <= until
    ensures forall s :: hour <= s < hour + HOUR ==> (Reviewed(c, offset, s) <==> Reviewed(c, offset, hour))
    ensures hour <= t < hour + HOUR && from <= t && (t < until || t == from == until)
    ensures forall s :: hour <= s < hour + HOUR ==> (Reviewed(c, offset, s) <==> Reviewed(c, offset, t))
  {
    HourBounds(from);
    forall s | hour <= s < hour + HOUR ensures Reviewed(c, offset, s) <==> Reviewed(c, offset, hour) {
      OneLocalHour(offset, hour, s);
    }
    SameHour(hour, from);
    t := Max(from, hour);
  }

  lemma SameHour(hour: int, from: int)
    requires HourOf(hour) == hour && HourOf(from) <= hour
    ensures hour <= from ==> hour == HourOf(from) && from < hour + HOUR
  {
    HourBounds(from);
    if hour <= from { assert hour / HOUR <= from / HOUR; }
  }

  lemma SlicesAddUp(c: ServiceCalendar, offset: Offset, hour: int, from: int, until: int)
    requires |c.weekly| == 7 && HourOf(hour) == hour && HourOf(from) <= hour < until && from <= until
    ensures StaffedMs(c, offset, from, Min(until, Max(from, hour + HOUR)))
            == StaffedMs(c, offset, from, Min(until, Max(from, hour))) + StaffedMs(c, offset, Max(from, hour), Min(until, hour + HOUR))
  {
    SameHour(hour, from);
    CountSplits(t => Staffed(c, offset, t), from, Min(until, Max(from, hour)), Min(until, Max(from, hour + HOUR)));
  }

  // ------------------------------------------------------------------ what follows for callers

  /** Staffed time adds up over consecutive intervals. */
  lemma StaffedTimeAddsUp(c: ServiceCalendar, offset: Offset, a: int, b: int, d: int)
    requires CalendarOk(c) && a <= b <= d
    ensures StaffedMs(c, offset, a, d) == StaffedMs(c, offset, a, b) + StaffedMs(c, offset, b, d)
  {
    CountSplits(t => Staffed(c, offset, t), a, b, d);
  }

  /** Where the whole is known so are the parts, and where the parts are and the whole is not too long,
      so is the whole. */
  lemma KnownTogether(c: ServiceCalendar, offset: Offset, a: int, b: int, d: int)
    requires CalendarOk(c) && DatesRunForward(offset) && a <= b < d
    ensures Answers(c, offset, a, d) <==> Answers(c, offset, a, b) && Answers(c, offset, b, d) && d <= a + LONGEST
  {
    assert LocalDay(offset, a) <= LocalDay(offset, b) <= LocalDay(offset, d - 1);
    if a < b { assert LocalDay(offset, b - 1) <= LocalDay(offset, d - 1); }
  }

  /** What `CalendarStaffedDuration` answers, reasons aside. */
  ghost function Answer(c: ServiceCalendar, offset: Offset, from: int, until: int): Option<int>
    requires CalendarOk(c)
  {
    if Answers(c, offset, from, until) then Some(StaffedMs(c, offset, from, until)) else None
  }

  /** An answer for the whole is the sum of the answers for its parts, and there is one exactly when both
      parts have theirs and the whole is not too long. */
  lemma AnswersAddUp(c: ServiceCalendar, offset: Offset, a: int, b: int, d: int)
    requires CalendarOk(c) && DatesRunForward(offset) && a <= b < d
    ensures Answer(c, offset, a, d) == match (Answer(c, offset, a, b), Answer(c, offset, b, d))
                                       case (Some(x), Some(y)) => if d <= a + LONGEST then Some(x + y) else None
                                       case _ => None
  {
    KnownTogether(c, offset, a, b, d);
    StaffedTimeAddsUp(c, offset, a, b, d);
  }
}
