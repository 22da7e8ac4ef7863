/** Recurring time windows (internal/core/domain/timewindow.go) at a fixed UTC offset.
    The branchy membership test is shown to hold exactly inside the window's
    occurrences, from which the length of an active week follows. */
module Windows {
  import opened Domain

  const DAY := 1440
  const WEEK := 7 * DAY

  /** `t` is a UTC minute; day 0 of the epoch was a Thursday. */
  function LocalDay(t: int, offset: int): int {
    (t + offset) / DAY
  }

  function LocalMinute(t: int, offset: int): int {
    (t + offset) % DAY
  }

  function Weekday(day: int): int {
    (day + 4) % 7
  }

  function PreviousWeekday(day: int): int {
    if day == 0 then 6 else day - 1
  }

  predicate IsDayMatch(window: TimeWindow, weekday: int, minute: int) {
    if window.days == [] then true
    else if window.CrossesMidnight() && minute < window.end.ToMinutes() then PreviousWeekday(weekday) in window.days
    else weekday in window.days
  }

  predicate IsInWindow(window: TimeWindow, t: int) {
    window.offset.Some? &&
    var minute := LocalMinute(t, window.offset.value);
    && IsDayMatch(window, Weekday(LocalDay(t, window.offset.value)), minute)
    && if window.CrossesMidnight()
       then minute >= window.start.ToMinutes() || minute < window.end.ToMinutes()
       else window.start.ToMinutes() <= minute < window.end.ToMinutes()
  }

  predicate IsInAnyWindow(windows: seq<TimeWindow>, t: int) {
    exists i :: 0 <= i < |windows| && IsInWindow(windows[i], t)
  }

  function EvaluateSchedule(schedule: Schedule, t: int): PowerState {
    if schedule.windows == [] || IsInAnyWindow(schedule.windows, t) then schedule.desired
    else schedule.desired.Opposite()
  }

  // ---------------------------------------------------------------- occurrences

  /** The window opens on this local day. */
  predicate Opens(window: TimeWindow, day: int) {
    window.days == [] || Weekday(day) in window.days
  }

  function Length(window: TimeWindow): int {
    (window.end.ToMinutes() - window.start.ToMinutes()) % DAY
  }

  /** Local minute `local` lies in the occurrence that opens on `day`. */
  predicate During(window: TimeWindow, day: int, local: int) {
    var opening := day * DAY + window.start.ToMinutes();
    Opens(window, day) && opening <= local < opening + Length(window)
  }

  /** Some occurrence covers local minute `local`. */
  ghost predicate Covered(window: TimeWindow, local: int) {
    exists day: int :: During(window, day, local)
  }

  predicate Proper(window: TimeWindow) {
    window.start.IsValid() && window.end.IsValid() && window.offset.Some?
  }

  lemma WeekdayBefore(day: int)
    ensures PreviousWeekday(Weekday(day)) == Weekday(day - 1)
  {
  }

  /** A minute is in the window exactly when some occurrence covers it, including
      occurrences that run past midnight from Saturday into Sunday. */
  lemma InWindowExactlyDuringAnOccurrence(window: TimeWindow, t: int)
    requires Proper(window)
    ensures IsInWindow(window, t) <==> Covered(window, t + window.offset.value)
  {
    var local := t + window.offset.value;
    var day := LocalDay(t, window.offset.value);
    InWindowIsTodayOrYesterday(window, t);
    if d: int :| During(window, d, local) {
      OccurrencesAreShort(window, d, t);
    }
  }

  /** The two occurrences that can cover a minute are that of its own day and that of
      the day before. */
  lemma InWindowIsTodayOrYesterday(window: TimeWindow, t: int)
    requires Proper(window)
    ensures var day, local := LocalDay(t, window.offset.value), t + window.offset.value;
            IsInWindow(window, t) <==> During(window, day, local) || During(window, day - 1, local)
  {
    hide Weekday;
    var day := LocalDay(t, window.offset.value);
    WeekdayBefore(day);
    LengthIs(window);
    assert t + window.offset.value == day * DAY + LocalMinute(t, window.offset.value);
  }

  lemma LengthIs(window: TimeWindow)
    requires Proper(window)
    ensures Length(window) == window.end.ToMinutes() - window.start.ToMinutes() + if window.CrossesMidnight() then DAY else 0
  {
  }

  lemma OccurrencesAreShort(window: TimeWindow, d: int, t: int)
    requires Proper(window) && During(window, d, t + window.offset.value)
    ensures d == LocalDay(t, window.offset.value) || d == LocalDay(t, window.offset.value) - 1
  {
    hide Opens;
    LengthIs(window);
  }

  ghost predicate CoveredAt(window: TimeWindow, t: int) {
    window.offset.Some? && Covered(window, t + window.offset.value)
  }

  /** A schedule asks for its state exactly during its windows' occurrences, always when
      it has no window, and for the opposite otherwise. */
  lemma ScheduleFollowsOccurrences(schedule: Schedule, t: int)
    requires forall i :: 0 <= i < |schedule.windows| ==> schedule.windows[i].start.IsValid() && schedule.windows[i].end.IsValid()
    ensures EvaluateSchedule(schedule, t) == schedule.desired <==>
              schedule.windows == [] ||
              exists i :: 0 <= i < |schedule.windows| && CoveredAt(schedule.windows[i], t)
  {
    forall i | 0 <= i < |schedule.windows|
      ensures IsInWindow(schedule.windows[i], t) <==> CoveredAt(schedule.windows[i], t)
    {
      if schedule.windows[i].offset.Some? {
        InWindowExactlyDuringAnOccurrence(schedule.windows[i], t);
      }
    }
  }

  // ---------------------------------------------------------------- an active week

  function Active(window: TimeWindow, t: int): nat {
    if IsInWindow(window, t) then 1 else 0
  }

  /** How many of the `n` minutes from `from` on are in the window. */
  function ActiveMinutes(window: TimeWindow, from: int, n: nat): nat {
    if n == 0 then 0 else ActiveMinutes(window, from, n - 1) + Active(window, from + n - 1)
  }

  function OpenDays(window: TimeWindow): set<int> {
    set d | 0 <= d < 7 && (window.days == [] || d in window.days)
  }

  function Opening(window: TimeWindow, day: int): nat {
    if Opens(window, day) then 1 else 0
  }

  /** Minutes of the first `m` minutes of a local day that belong to an occurrence
      opening the same day, and to one that opened the day before. */
  function SameDay(window: TimeWindow, m: nat): nat {
    var start, end := window.start.ToMinutes(), if window.CrossesMidnight() then DAY else window.end.ToMinutes();
    if m <= start || end <= start then 0 else if m <= end then m - start else end - start
  }

  function NextDay(window: TimeWindow, m: nat): nat
    requires window.end.IsValid()
  {
    if !window.CrossesMidnight() then 0 else if m <= window.end.ToMinutes() then m else window.end.ToMinutes()
  }

  function Share(window: TimeWindow, day: int, minutes: nat): nat {
    if Opens(window, day) then minutes else 0
  }

  lemma LocalClock(day: int, minute: int)
    requires 0 <= minute < DAY
    ensures (day * DAY + minute) / DAY == day && (day * DAY + minute) % DAY == minute
  {
  }

  lemma ActiveAt(window: TimeWindow, day: int, minute: nat)
    requires Proper(window) && minute < DAY
    ensures Active(window, day * DAY - window.offset.value + minute)
            == Share(window, day, SameDay(window, minute + 1) - SameDay(window, minute))
               + Share(window, day - 1, NextDay(window, minute + 1) - NextDay(window, minute))
  {
    LocalClock(day, minute);
    WeekdayBefore(day);
    var t := day * DAY - window.offset.value + minute;
    assert LocalDay(t, window.offset.value) == day && LocalMinute(t, window.offset.value) == minute;
  }

  lemma {:induction false} DayPrefix(window: TimeWindow, day: int, m: nat)
    requires Proper(window) && m <= DAY
    ensures ActiveMinutes(window, day * DAY - window.offset.value, m)
            == Share(window, day, SameDay(window, m)) + Share(window, day - 1, NextDay(window, m))
  {
    if m > 0 {
      DayPrefix(window, day, m - 1);
      ActiveAt(window, day, m - 1);
    }
  }

  lemma {:induction false} MinutesAdd(window: TimeWindow, from: int, m: nat, n: nat)
    ensures ActiveMinutes(window, from, m + n) == ActiveMinutes(window, from, m) + ActiveMinutes(window, from + m, n)
  {
    if n > 0 {
      MinutesAdd(window, from, m, n - 1);
    }
  }

  function OpeningsFrom(window: TimeWindow, day: int, n: nat): nat {
    if n == 0 then 0 else OpeningsFrom(window, day, n - 1) + Opening(window, day + n - 1)
  }

  lemma NoMinutes(window: TimeWindow, from: int)
    ensures ActiveMinutes(window, from, 0) == 0
  {
  }

  lemma {:induction false} Days(window: TimeWindow, day: int, n: nat)
    requires Proper(window)
    ensures ActiveMinutes(window, day * DAY - window.offset.value, n * DAY)
            == OpeningsFrom(window, day, n) * SameDay(window, DAY) + OpeningsFrom(window, day - 1, n) * NextDay(window, DAY)
  {
    hide ActiveMinutes, SameDay, NextDay, Opens;
    if n == 0 {
      NoMinutes(window, day * DAY - window.offset.value);
    } else {
      Days(window, day, n - 1);
      var from := day * DAY - window.offset.value;
      MinutesAdd(window, from, (n - 1) * DAY, DAY);
      DayPrefix(window, day + n - 1, DAY);
      Distribute(OpeningsFrom(window, day, n - 1), Opens(window, day + n - 1), SameDay(window, DAY));
      Distribute(OpeningsFrom(window, day - 1, n - 1), Opens(window, day + n - 2), NextDay(window, DAY));
      assert from + (n - 1) * DAY == (day + n - 1) * DAY - window.offset.value;
    }
  }

  lemma Distribute(n: nat, more: bool, x: nat)
    ensures (n + if more then 1 else 0) * x == n * x + if more then x else 0
  {
  }

  /** Day 3 of the epoch was a Sunday. */
  lemma {:induction false} OpeningsAreOpenDays(window: TimeWindow, n: nat)
    requires n <= 7
    ensures OpeningsFrom(window, 3, n) == |OpenBefore(window, n)|
  {
    hide OpenBefore, Opens;
    OpenOneMore(window, n);
    if n > 0 {
      OpeningsAreOpenDays(window, n - 1);
    }
  }

  /** The listed weekdays before `n`. */
  function OpenBefore(window: TimeWindow, n: nat): set<int> {
    set d | 0 <= d < n && (window.days == [] || d in window.days)
  }

  lemma OpenOneMore(window: TimeWindow, n: nat)
    requires n <= 7
    ensures n == 0 ==> OpenBefore(window, n) == {}
    ensures n > 0 ==> n - 1 !in OpenBefore(window, n - 1)
    ensures n > 0 ==> OpenBefore(window, n) == OpenBefore(window, n - 1) + if Opens(window, 3 + n - 1) then {n - 1} else {}
  {
    if n > 0 {
      assert Weekday(3 + n - 1) == n - 1;
    }
  }

  lemma OneDayEarlier(window: TimeWindow)
    ensures OpeningsFrom(window, 2, 7) == OpeningsFrom(window, 3, 7)
  {
    assert Opening(window, 2) == Opening(window, 9);
    Shifted(window, 2, 6);
  }

  lemma {:induction false} Shifted(window: TimeWindow, day: int, n: nat)
    ensures OpeningsFrom(window, day, n + 1) == Opening(window, day) + OpeningsFrom(window, day + 1, n)
  {
    if n > 0 {
      Shifted(window, day, n - 1);
    }
  }

  /** Membership repeats weekly, so any two weeks have the same number of active minutes. */
  lemma {:induction false} AnyWeek(window: TimeWindow, from: int, later: int)
    requires from <= later
    ensures ActiveMinutes(window, from, WEEK) == ActiveMinutes(window, later, WEEK)
    decreases later - from
  {
    hide ActiveMinutes, Active;
    if from < later {
      MinutesAdd(window, from, 1, WEEK - 1);
      MinutesAdd(window, from + 1, WEEK - 1, 1);
      OneMinute(window, from);
      OneMinute(window, from + WEEK);
      WeekLater(window, from);
      AnyWeek(window, from + 1, later);
    }
  }

  lemma OneMinute(window: TimeWindow, from: int)
    ensures ActiveMinutes(window, from, 1) == Active(window, from)
  {
    assert ActiveMinutes(window, from, 0) == 0;
  }

  lemma WeekLater(window: TimeWindow, t: int)
    ensures Active(window, t + WEEK) == Active(window, t)
  {
    if window.offset.Some? {
      assert LocalMinute(t + WEEK, window.offset.value) == LocalMinute(t, window.offset.value);
      assert LocalDay(t + WEEK, window.offset.value) == LocalDay(t, window.offset.value) + 7;
    }
  }

  lemma OccurrenceSplitsAtMidnight(window: TimeWindow)
    requires Proper(window)
    ensures SameDay(window, DAY) + NextDay(window, DAY) == Length(window)
  {
  }

  lemma SundayWeek(window: TimeWindow)
    requires Proper(window)
    ensures ActiveMinutes(window, 3 * DAY - window.offset.value, WEEK) == |OpenDays(window)| * Length(window)
  {
    hide ActiveMinutes, OpeningsFrom, SameDay, NextDay, Length;
    Days(window, 3, 7);
    OneDayEarlier(window);
    OccurrenceSplitsAtMidnight(window);
    Factor(OpeningsFrom(window, 3, 7), SameDay(window, DAY), NextDay(window, DAY));
    assert |OpenDays(window)| == OpeningsFrom(window, 3, 7) by {
      OpeningsAreOpenDays(window, 7);
      assert OpenBefore(window, 7) == OpenDays(window);
    }
  }

  lemma Factor(n: int, a: int, b: int)
    ensures n * a + n * b == n * (a + b)
  {
  }

  /** Every week has as many active minutes as the window has distinct days, times its length. */
  lemma WeekIsDaysTimesLength(window: TimeWindow, from: int)
    requires Proper(window)
    ensures ActiveMinutes(window, from, WEEK) == |OpenDays(window)| * Length(window)
  {
    hide ActiveMinutes;
    var sunday := 3 * DAY - window.offset.value;
    SundayWeek(window);
    if from <= sunday {
      AnyWeek(window, from, sunday);
    } else {
      AnyWeek(window, sunday, from);
    }
  }
}
