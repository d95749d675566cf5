/** When a job runs next. Instants are microseconds of local time at a fixed offset, counted from
    midnight of 1 January 1970, which was a Thursday. */
module Schedule {
  const SECOND: int := 1_000_000
  const MINUTE: int := 60 * SECOND
  const HOUR: int := 60 * MINUTE
  const DAY: int := 24 * HOUR

  /** Monday is 0. */
  datatype Spec =
    | Once(at: int)
    | Interval(seconds: int)
    | Daily(hour: int, minute: int)
    | Weekly(weekday: int, hour: int, minute: int)
    | Unknown

  predicate ClockTime(hour: int, minute: int) {
    0 <= hour < 24 && 0 <= minute < 60
  }

  /** The times and weekdays the parser hands out. */
  predicate Sound(spec: Spec) {
    match spec
    case Daily(h, m) => ClockTime(h, m)
    case Weekly(w, h, m) => 0 <= w < 7 && ClockTime(h, m)
    case _ => true
  }

  function Weekday(t: int): int {
    (t / DAY + 3) % 7
  }

  /** now.replace(hour=.., minute=.., second=0, microsecond=0) */
  function AtClock(now: int, hour: int, minute: int): int {
    now / DAY * DAY + hour * HOUR + minute * MINUTE
  }

  function NextRun(spec: Spec, now: int): int {
    match spec
    case Once(at) => at
    case Interval(seconds) => now + seconds * SECOND
    case Daily(hour, minute) =>
      var dt := AtClock(now, hour, minute);
      if dt > now then dt else dt + DAY
    case Weekly(weekday, hour, minute) =>
      var dt := AtClock(now, hour, minute) + (weekday - Weekday(now)) % 7 * DAY;
      if dt > now then dt else dt + 7 * DAY
    case Unknown => now + 3650 * DAY
  }

  /** Does the clock show this time, to the microsecond? */
  predicate Shows(t: int, hour: int, minute: int) {
    t % DAY == hour * HOUR + minute * MINUTE
  }

  /** The calendar: the first day is a Thursday, and every 24 hours the next weekday begins at midnight. */
  lemma CalendarIs(t: int, hour: int, minute: int)
    ensures 0 <= t < 86_400_000_000 ==> Weekday(t) == 3
    ensures Weekday(t + 86_400_000_000) == (Weekday(t) + 1) % 7
    ensures Shows(t, hour, minute) <==> t % 86_400_000_000 == (hour * 60 + minute) * 60_000_000
  {
    assert (t + 86_400_000_000) / DAY == t / DAY + 1;
  }

  predicate Occurs(spec: Spec, t: int) {
    match spec
    case Daily(h, m) => Shows(t, h, m)
    case Weekly(w, h, m) => Shows(t, h, m) && Weekday(t) == w
    case _ => false
  }

  lemma SplitDay(day: int, rest: int)
    requires 0 <= rest < DAY
    ensures (day * DAY + rest) / DAY == day && (day * DAY + rest) % DAY == rest
  {}

  lemma DayRest(t: int)
    ensures t == t / DAY * DAY + t % DAY && 0 <= t % DAY < DAY
  {}

  /** A time later than a given instant, on a day of its own. */
  lemma Later(now: int, rest: int, t: int)
    requires 0 <= rest < DAY && t % DAY == rest
    ensures t == t / DAY * DAY + rest
    ensures now < t ==> now / DAY <= t / DAY
    ensures now < t && now / DAY * DAY + rest <= now ==> now / DAY < t / DAY
  {
    DayRest(now);
    DayRest(t);
  }

  lemma DailyIsFirst(spec: Spec, now: int, t: int)
    requires spec.Daily? && Sound(spec)
    ensures now < NextRun(spec, now) <= now + DAY
    ensures Occurs(spec, NextRun(spec, now))
    ensures now < t && Occurs(spec, t) ==> NextRun(spec, now) <= t
  {
    var rest, d := spec.hour * HOUR + spec.minute * MINUTE, now / DAY;
    DayRest(now);
    SplitDay(d, rest);
    SplitDay(d + 1, rest);
    if Occurs(spec, t) { Later(now, rest, t); }
  }

  /** The day a weekly job runs next: the first with its weekday on which the time is still to come. */
  lemma WeeklyDay(spec: Spec, now: int) returns (n: int)
    requires spec.Weekly? && Sound(spec)
    ensures var rest, d := spec.hour * HOUR + spec.minute * MINUTE, now / DAY;
            && NextRun(spec, now) == n * DAY + rest && now < NextRun(spec, now) <= now + 7 * DAY
            && (n + 3) % 7 == spec.weekday
            && (n == d + DaysAhead(spec.weekday, d) || n == d + DaysAhead(spec.weekday, d) + 7)
            && (n == d + DaysAhead(spec.weekday, d) + 7 ==> DaysAhead(spec.weekday, d) == 0 && d * DAY + rest <= now)
  {
    var rest, d := spec.hour * HOUR + spec.minute * MINUTE, now / DAY;
    var k := DaysAhead(spec.weekday, d);
    DayRest(now);
    DaysAheadFirst(spec.weekday, d, d);
    n := if (d + k) * DAY + rest > now then d + k else d + k + 7;
  }

  lemma WeeklyIsFirst(spec: Spec, now: int, t: int)
    requires spec.Weekly? && Sound(spec)
    ensures now < NextRun(spec, now) <= now + 7 * DAY
    ensures Occurs(spec, NextRun(spec, now))
    ensures now < t && Occurs(spec, t) ==> NextRun(spec, now) <= t
  {
    var rest := spec.hour * HOUR + spec.minute * MINUTE;
    var n := WeeklyDay(spec, now);
    SplitDay(n, rest);
    DaysAheadFirst(spec.weekday, now / DAY, t / DAY);
    if now < t && Occurs(spec, t) {
      hide NextRun;
      hide DaysAhead;
      Later(now, rest, t);
      assert n <= t / DAY;
    }
  }

  /** How many days after day d the weekday comes. */
  function DaysAhead(weekday: int, d: int): int {
    (weekday - (d + 3) % 7) % 7
  }

  lemma DaysAheadFirst(w: int, d: int, e: int)
    requires 0 <= w < 7
    ensures var k := DaysAhead(w, d);
            && 0 <= k < 7 && (d + k + 3) % 7 == w && (d + k + 7 + 3) % 7 == w
            && ((e + 3) % 7 == w && d <= e ==> d + k <= e)
            && ((e + 3) % 7 == w && d + k < e ==> d + k + 7 <= e)
  {}

  /** A daily or weekly job runs next at the first instant strictly after now that shows its clock time,
      on its weekday. */
  lemma NextIsFirst(spec: Spec, now: int, t: int)
    requires (spec.Daily? || spec.Weekly?) && Sound(spec)
    ensures now < NextRun(spec, now) <= now + if spec.Daily? then DAY else 7 * DAY
    ensures Occurs(spec, NextRun(spec, now))
    ensures now < t && Occurs(spec, t) ==> NextRun(spec, now) <= t
  {
    if spec.Daily? { DailyIsFirst(spec, now, t); } else { WeeklyIsFirst(spec, now, t); }
  }

  /** The next run is always still to come exactly for the schedules that repeat forwards. */
  lemma NextIsLater(spec: Spec)
    requires Sound(spec)
    ensures (forall now :: NextRun(spec, now) > now) <==> !spec.Once? && (spec.Interval? ==> spec.seconds > 0)
  {
    if spec.Once? { assert NextRun(spec, spec.at) == spec.at; }
    if spec.Interval? && spec.seconds <= 0 { assert NextRun(spec, 0) <= 0; }
    if spec.Daily? || spec.Weekly? {
      forall now ensures NextRun(spec, now) > now { NextIsFirst(spec, now, now); }
    }
  }
}
