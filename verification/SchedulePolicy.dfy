/** Weekly access schedules (auth_engine.py): optional day list, optional start and end time,
    and windows that run past midnight. */
module SchedulePolicy {

  const DAY := 1440
  const WEEK := 10080

  type Weekday = d: nat | d < 7
  type Minute = m: nat | m < 1440

  /** A time bound after `int()` and `time()`: empty, not a time of day, or a minute. */
  datatype Bound = Missing | Malformed | At(minute: Minute)

  /** One entry of the day list after stripping and lower-casing. */
  datatype DayToken = Name(day: Weekday) | Digits(value: nat) | Junk

  /** An empty or blank day field restricts nothing; a list of commas restricts everything. */
  datatype Days = Unrestricted | Listed(tokens: seq<DayToken>)

  datatype Rule = Rule(days: Days, start: Bound, end: Bound)

  datatype Moment = Moment(day: Weekday, minute: Minute)

  function Yesterday(d: Weekday): Weekday {
    (d + 6) % 7
  }

  predicate Names(t: DayToken, d: Weekday) {
    t == Name(d) || t == Digits(d)
  }

  predicate DayAllowed(days: Days, d: Weekday) {
    match days
    case Unrestricted => true
    case Listed(tokens) => exists i :: 0 <= i < |tokens| && Names(tokens[i], d)
  }

  /** `_check_schedule`. */
  predicate CheckSchedule(rule: Rule, now: Moment) {
    if rule.start.Missing? != rule.end.Missing? then false
    else if rule.start.Malformed? || rule.end.Malformed? then false
    else if rule.days.Unrestricted? && rule.start.Missing? then false
    else
      && (rule.days.Listed? ==>
            if rule.start.At? && rule.start.minute > rule.end.minute && now.minute <= rule.end.minute
            then DayAllowed(rule.days, Yesterday(now.day))
            else DayAllowed(rule.days, now.day))
      && (rule.start.At? ==>
            if rule.start.minute <= rule.end.minute
            then rule.start.minute <= now.minute <= rule.end.minute
            else now.minute >= rule.start.minute || now.minute <= rule.end.minute)
  }

  // ---------------------------------------------------------------------------
  // The specification: a union of intervals on the circle of the week
  // ---------------------------------------------------------------------------

  function MinuteOfWeek(now: Moment): (w: nat)
    ensures w < WEEK
  {
    DAY * now.day + now.minute
  }

  /** A rule that says something: at least one restriction, and both bounds or neither. */
  predicate WellFormed(rule: Rule) {
    || (rule.start.At? && rule.end.At?)
    || (rule.start.Missing? && rule.end.Missing? && rule.days.Listed?)
  }

  function First(rule: Rule): int
    requires WellFormed(rule)
  {
    if rule.start.At? then rule.start.minute else 0
  }

  /** The last minute of a window, counted from the midnight its day begins with. */
  function Last(rule: Rule): int
    requires WellFormed(rule)
  {
    if rule.start.Missing? then DAY - 1
    else if rule.end.minute < rule.start.minute then rule.end.minute + DAY
    else rule.end.minute
  }

  /** The window that opens on day `d` contains minute `w` of some week. */
  predicate InWindow(rule: Rule, d: Weekday, w: int)
    requires WellFormed(rule)
  {
    DAY * d + First(rule) <= w <= DAY * d + Last(rule)
  }

  /** On the circle of the week. */
  ghost predicate Covered(rule: Rule, d: Weekday, w: int)
    requires WellFormed(rule)
  {
    exists x: int :: x % WEEK == w && InWindow(rule, d, x)
  }

  lemma CoveredNow(rule: Rule, d: Weekday, now: Moment)
    requires WellFormed(rule)
    ensures Covered(rule, d, MinuteOfWeek(now)) <==>
              InWindow(rule, d, MinuteOfWeek(now)) || InWindow(rule, d, MinuteOfWeek(now) + WEEK)
  {
    var w := MinuteOfWeek(now);
    if Covered(rule, d, w) {
      var x: int :| x % WEEK == w && InWindow(rule, d, x);
      assert x == w || x == w + WEEK;
    }
    if InWindow(rule, d, w) {
      assert w % WEEK == w;
    }
    if InWindow(rule, d, w + WEEK) {
      assert (w + WEEK) % WEEK == w;
    }
  }

  /** The day whose window is open at this moment, if any is. */
  function OpeningDay(rule: Rule, now: Moment): Weekday
    requires WellFormed(rule)
  {
    if Last(rule) >= DAY && now.minute <= Last(rule) - DAY then Yesterday(now.day) else now.day
  }

  lemma OnlyTheOpeningDayCovers(rule: Rule, d: Weekday, now: Moment)
    requires WellFormed(rule) && Covered(rule, d, MinuteOfWeek(now))
    ensures d == OpeningDay(rule, now)
  {
    CoveredNow(rule, d, now);
  }

  /** The schedule is active exactly in the union, over the allowed days, of the windows that
      open on them, modulo the week; an ill-formed rule is never active. */
  lemma ScheduleIsUnionOfWindows(rule: Rule, now: Moment)
    ensures CheckSchedule(rule, now) <==>
              WellFormed(rule) && exists d: Weekday :: DayAllowed(rule.days, d) && Covered(rule, d, MinuteOfWeek(now))
  {
    if WellFormed(rule) {
      var d := OpeningDay(rule, now);
      CoveredNow(rule, d, now);
      if exists e: Weekday :: DayAllowed(rule.days, e) && Covered(rule, e, MinuteOfWeek(now)) {
        var e: Weekday :| DayAllowed(rule.days, e) && Covered(rule, e, MinuteOfWeek(now));
        OnlyTheOpeningDayCovers(rule, e, now);
      }
    }
  }

  /** A day list without times means those whole days and no other. */
  lemma DaysOnlyMeansWholeDays(tokens: seq<DayToken>, now: Moment)
    ensures CheckSchedule(Rule(Listed(tokens), Missing, Missing), now) <==> DayAllowed(Listed(tokens), now.day)
    ensures !CheckSchedule(Rule(Listed([]), Missing, Missing), now)
  {
  }

  /** A window keeps its whole length when it runs past midnight, whichever day it opens on,
      Sunday included. */
  lemma WindowIsContiguous(rule: Rule, d: Weekday, offset: nat)
    requires WellFormed(rule) && DayAllowed(rule.days, d) && offset <= Last(rule) - First(rule)
    ensures var w := (DAY * d + First(rule) + offset) % WEEK;
            CheckSchedule(rule, Moment(w / DAY, w % DAY))
  {
    var x := DAY * d + First(rule) + offset;
    var w := x % WEEK;
    var now := Moment(w / DAY, w % DAY);
    assert MinuteOfWeek(now) == w;
    assert InWindow(rule, d, x);
    assert Covered(rule, d, w);
    ScheduleIsUnionOfWindows(rule, now);
  }
}
