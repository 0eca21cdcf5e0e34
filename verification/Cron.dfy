/** Cron expressions in UTC: when they fire, and the search for the next firing. Instants are whole seconds
    since 0001-01-01T00:00:00. */
module Cron {
  import opened Wrappers
  import opened Calendar

  /** Day steps searched before an expression is given up. */
  const SEARCH_DAYS: nat := 366 * 9

  const DAY: nat := 86400

  datatype CronExpr = CronExpr(
    minutes: set<int>,
    hours: set<int>,
    days: set<int>,
    months: set<int>,
    weekdays: set<int>,
    anyDay: bool,
    anyWeekday: bool,
    seconds: set<int>)
  {
    /** What parsing guarantees: no field is empty, and every value is in its field's range. */
    ghost predicate Valid() {
      && Field(seconds, 0, 59) && Field(minutes, 0, 59) && Field(hours, 0, 23)
      && Field(days, 1, 31) && Field(months, 1, 12) && Field(weekdays, 0, 6)
    }

    predicate DayMatches(n: nat) {
      var byMonthDay, byWeekday := DateOf(n).day in days, Weekday(n) in weekdays;
      if anyDay && anyWeekday then true
      else if anyDay then byWeekday
      else if anyWeekday then byMonthDay
      else byMonthDay || byWeekday
    }

    predicate DayFires(n: nat) {
      DateOf(n).month in months && DayMatches(n)
    }

    /** Does the expression fire at the instant `t`? */
    predicate Fires(t: nat) {
      DayFires(t / DAY) && t % DAY / 3600 in hours && t % 3600 / 60 in minutes && t % 60 in seconds
    }
  }

  ghost predicate Field(values: set<int>, low: int, high: int) {
    (exists v :: v in values) && forall v :: v in values ==> low <= v <= high
  }

  // ---- the obvious specification: scan second by second ----

  ghost function Scan(e: CronExpr, from: nat, until: nat): (r: Option<nat>)
    ensures r.Some? ==> from <= r.value < until && e.Fires(r.value) && forall t: nat :: from <= t < r.value ==> !e.Fires(t)
    ensures r.None? ==> forall t: nat :: from <= t < until ==> !e.Fires(t)
    decreases until - from
  {
    if from >= until then None else if e.Fires(from) then Some(from) else Scan(e, from + 1, until)
  }

  /** The end of the search that starts right after `ts`. */
  function Horizon(ts: nat): nat {
    ((ts + 1) / DAY + SEARCH_DAYS) * DAY
  }

  /** The first firing after `ts` within the search, if any. */
  ghost function NextFiring(e: CronExpr, ts: nat): Option<nat> {
    Scan(e, ts + 1, Horizon(ts))
  }

  // ---- instants ----

  function Instant(day: nat, hour: int, minute: int, second: int): int {
    day * DAY + SecondOfDay(hour, minute, second)
  }

  function SecondOfDay(hour: int, minute: int, second: int): int {
    hour * 3600 + minute * 60 + second
  }

  lemma {:induction false} Decompose(t: nat)
    ensures t == Instant(t / DAY, t % DAY / 3600, t % 3600 / 60, t % 60)
    ensures 0 <= t % DAY / 3600 < 24 && 0 <= t % 3600 / 60 < 60 && 0 <= t % 60 < 60
  {
    var r := t % DAY;
    RemainderIs(t, 3600, 24 * (t / DAY) + r / 3600, r % 3600);
    var m := t % 3600;
    RemainderIs(t, 60, 60 * (t / 3600) + m / 60, m % 60);
  }

  lemma {:induction false} RemainderIs(t: nat, b: nat, k: nat, r: nat)
    requires b > 0 && t == k * b + r && r < b
    ensures t % b == r && t / b == k
  {
    if t / b < k {
      assert (t / b + 1) * b <= k * b by { Mono(t / b + 1, k, b); }
    } else if t / b > k {
      assert (k + 1) * b <= t / b * b by { Mono(k + 1, t / b, b); }
    }
  }

  lemma {:induction false} Mono(x: nat, y: nat, b: nat)
    requires x <= y
    ensures x * b <= y * b
  {
  }

  lemma {:induction false} Compose(day: nat, hour: int, minute: int, second: int)
    requires 0 <= hour < 24 && 0 <= minute < 60 && 0 <= second < 60
    ensures var t := Instant(day, hour, minute, second);
            t >= 0 && t / DAY == day && t % DAY / 3600 == hour && t % 3600 / 60 == minute && t % 60 == second
  {
    var t := Instant(day, hour, minute, second);
    Decompose(t);
    var d, h, m, s := t / DAY, t % DAY / 3600, t % 3600 / 60, t % 60;
    Unique(day, SecondOfDay(hour, minute, second), d, SecondOfDay(h, m, s));
  }

  lemma {:induction false} Unique(d: nat, x: int, e: nat, y: int)
    requires d * DAY + x == e * DAY + y && 0 <= x < DAY && 0 <= y < DAY
    ensures d == e && x == y
  {
  }

  /** When an expression fires, on the clock and the calendar: at the hours, minutes, seconds and months of its
      fields, on the days its day fields allow. Two plain lists of days allow a day that is in either; a star in
      one of the fields leaves the days to the other, and two stars allow every day. */
  lemma {:induction false} FiresWhen(e: CronExpr, day: nat, hour: int, minute: int, second: int)
    requires 0 <= hour < 24 && 0 <= minute < 60 && 0 <= second < 60
    ensures var onTime := hour in e.hours && minute in e.minutes && second in e.seconds && DateOf(day).month in e.months;
            var t := day * 86400 + hour * 3600 + minute * 60 + second;
            && (!e.anyDay && !e.anyWeekday ==>
                  (e.Fires(t) <==> onTime && (DateOf(day).day in e.days || Weekday(day) in e.weekdays)))
            && (e.anyDay && !e.anyWeekday ==> (e.Fires(t) <==> onTime && Weekday(day) in e.weekdays))
            && (!e.anyDay && e.anyWeekday ==> (e.Fires(t) <==> onTime && DateOf(day).day in e.days))
            && (e.anyDay && e.anyWeekday ==> (e.Fires(t) <==> onTime))
  {
    hide DateOf, Weekday;
    Compose(day, hour, minute, second);
  }

  // ---- the search ----

  predicate Ascending(s: seq<int>) {
    forall i, j :: 0 <= i < j < |s| ==> s[i] < s[j]
  }

  predicate Within(s: seq<int>, low: int, high: int) {
    forall v :: v in s ==> low <= v <= high
  }

  /** The values of a field in ascending order. */
  function Sorted(values: set<int>, low: int, high: int): (r: seq<int>)
    ensures Ascending(r) && Within(r, low, high)
    ensures forall v :: v in r <==> v in values && low <= v <= high
    decreases high - low + 1
  {
    if low > high then []
    else
      var rest := Sorted(values, low + 1, high);
      AscendingCons(low, rest, high);
      if low in values then [low] + rest else rest
  }

  lemma {:induction false} AscendingCons(low: int, rest: seq<int>, high: int)
    requires Ascending(rest) && Within(rest, low + 1, high) && low <= high
    ensures Ascending([low] + rest) && Within([low] + rest, low, high) && Within(rest, low, high)
  {
    forall j | 0 <= j < |rest|
      ensures low < rest[j]
    {
      assert rest[j] in rest;
    }
  }

  datatype Clock = Clock(hour: int, minute: int, second: int) {
    function Second(): int {
      SecondOfDay(hour, minute, second)
    }
  }

  /** The clock times a day's fields allow, from `start` on. */
  ghost predicate Allowed(hours: seq<int>, minutes: seq<int>, seconds: seq<int>, start: Clock, c: Clock) {
    c.hour in hours && c.minute in minutes && c.second in seconds && start.Second() <= c.Second()
  }

  /** The earliest allowed clock time of a day: hour by hour, minute by minute, second by second. */
  method FirstOnDay(hours: seq<int>, minutes: seq<int>, seconds: seq<int>, start: Clock) returns (r: Option<Clock>)
    requires Ascending(hours) && Ascending(minutes) && Ascending(seconds)
    requires Within(minutes, 0, 59) && Within(seconds, 0, 59) && 0 <= start.minute < 60 && 0 <= start.second < 60
    ensures r.Some? ==> Allowed(hours, minutes, seconds, start, r.value)
    ensures forall c :: Allowed(hours, minutes, seconds, start, c) ==> r.Some? && r.value.Second() <= c.Second()
  {
    var i := 0;
    while i < |hours|
      invariant 0 <= i <= |hours|
      invariant forall c :: Allowed(hours, minutes, seconds, start, c) ==> c.hour !in hours[..i]
    {
      var hour := hours[i];
      if hour >= start.hour {
        r := FirstInHour(hour, minutes, seconds, start);
        if r.Some? {
          forall c | Allowed(hours, minutes, seconds, start, c)
            ensures r.value.Second() <= c.Second()
          {
            Later(hours, i, c.hour);
          }
          return;
        }
      }
      assert hours[..i + 1] == hours[..i] + [hour];
      i := i + 1;
    }
    assert hours[..i] == hours;
    r := None;
  }

  lemma {:induction false} Later(values: seq<int>, i: nat, v: int)
    requires Ascending(values) && i < |values| && v in values && v !in values[..i]
    ensures values[i] <= v
  {
    var k :| 0 <= k < |values| && values[k] == v;
    assert forall x :: 0 <= x < i ==> values[..i][x] == values[x];
  }

  method FirstInHour(hour: int, minutes: seq<int>, seconds: seq<int>, start: Clock) returns (r: Option<Clock>)
    requires Ascending(minutes) && Ascending(seconds) && Within(minutes, 0, 59) && Within(seconds, 0, 59)
    requires 0 <= start.minute < 60 && 0 <= start.second < 60 && start.hour <= hour
    ensures r.Some? ==> Allowed([hour], minutes, seconds, start, r.value)
    ensures forall c :: Allowed([hour], minutes, seconds, start, c) ==> r.Some? && r.value.Second() <= c.Second()
  {
    var sameHour := hour == start.hour;
    var j := 0;
    while j < |minutes|
      invariant 0 <= j <= |minutes|
      invariant forall c :: Allowed([hour], minutes, seconds, start, c) ==> c.minute !in minutes[..j]
    {
      var minute := minutes[j];
      assert minute in minutes;
      if !(sameHour && minute < start.minute) {
        r := FirstInMinute(hour, minute, seconds, start);
        if r.Some? {
          forall c | Allowed([hour], minutes, seconds, start, c)
            ensures r.value.Second() <= c.Second()
          {
            Later(minutes, j, c.minute);
          }
          return;
        }
      }
      assert minutes[..j + 1] == minutes[..j] + [minute];
      j := j + 1;
    }
    assert minutes[..j] == minutes;
    r := None;
  }

  method FirstInMinute(hour: int, minute: int, seconds: seq<int>, start: Clock) returns (r: Option<Clock>)
    requires Ascending(seconds) && Within(seconds, 0, 59) && 0 <= minute < 60
    requires 0 <= start.minute < 60 && 0 <= start.second < 60
    requires start.hour < hour || (start.hour == hour && start.minute <= minute)
    ensures r.Some? ==> Allowed([hour], [minute], seconds, start, r.value)
    ensures forall c :: Allowed([hour], [minute], seconds, start, c) ==> r.Some? && r.value.Second() <= c.Second()
  {
    var sameMinute := hour == start.hour && minute == start.minute;
    var k := 0;
    while k < |seconds|
      invariant 0 <= k <= |seconds|
      invariant forall c :: Allowed([hour], [minute], seconds, start, c) ==> c.second !in seconds[..k]
    {
      var second := seconds[k];
      if !(sameMinute && second < start.second) {
        forall c | Allowed([hour], [minute], seconds, start, c)
          ensures second <= c.second
        {
          Later(seconds, k, c.second);
        }
        return Some(Clock(hour, minute, second));
      }
      assert seconds[..k + 1] == seconds[..k] + [second];
      k := k + 1;
    }
    assert seconds[..k] == seconds;
    r := None;
  }

  function Reading(t: nat): Clock {
    Clock(t % DAY / 3600, t % 3600 / 60, t % 60)
  }

  lemma {:induction false} ReadingOf(t: nat)
    ensures var c := Reading(t);
            && 0 <= c.hour < 24 && 0 <= c.minute < 60 && 0 <= c.second < 60 && 0 <= c.Second() < DAY
            && t == t / DAY * DAY + c.Second()
  {
    Decompose(t);
  }

  lemma {:induction false} DayOf(t: nat, day: nat)
    requires day * DAY <= t < (day + 1) * DAY
    ensures t / DAY == day
  {
    RemainderIs(t, DAY, day, t - day * DAY);
  }

  lemma {:induction false} FiresByReading(e: CronExpr, t: nat)
    ensures e.Fires(t) <==>
            e.DayFires(t / DAY) && Reading(t).hour in e.hours && Reading(t).minute in e.minutes && Reading(t).second in e.seconds
  {
    hide CronExpr.DayFires;
  }

  lemma {:induction false} ReadingIs(day: nat, c: Clock)
    requires 0 <= c.hour < 24 && 0 <= c.minute < 60 && 0 <= c.second < 60
    ensures 0 <= c.Second() < DAY && Reading(day * DAY + c.Second()) == c && (day * DAY + c.Second()) / DAY == day
  {
    Compose(day, c.hour, c.minute, c.second);
    DayOf(day * DAY + c.Second(), day);
  }

  /** The clock times at which an expression may fire, from `start` on. */
  ghost predicate Possible(e: CronExpr, start: Clock, c: Clock) {
    Allowed(Sorted(e.hours, 0, 23), Sorted(e.minutes, 0, 59), Sorted(e.seconds, 0, 59), start, c)
  }

  lemma {:induction false} PossibleMeans(e: CronExpr, start: Clock, c: Clock)
    requires e.Valid()
    ensures Possible(e, start, c) <==>
            c.hour in e.hours && c.minute in e.minutes && c.second in e.seconds && start.Second() <= c.Second()
    ensures Possible(e, start, c) ==> 0 <= c.hour < 24 && 0 <= c.minute < 60 && 0 <= c.second < 60
  {
    hide Sorted, Clock.Second;
  }

  /** The earliest allowed clock time of a firing day is its first firing from `start` on. */
  lemma {:induction false} FirstOfDay(e: CronExpr, day: nat, start: Clock, r: Option<Clock>, t: nat)
    requires e.Valid() && 0 <= start.Second()
    requires forall c :: Possible(e, start, c) ==> r.Some? && r.value.Second() <= c.Second()
    requires day * DAY + start.Second() <= t < (day + 1) * DAY && e.Fires(t)
    ensures r.Some? && day * DAY + r.value.Second() <= t
  {
    hide CronExpr.Fires, CronExpr.DayFires, Possible, Reading, Clock.Second;
    DayOf(t, day);
    ReadingOf(t);
    FiresByReading(e, t);
    PossibleMeans(e, start, Reading(t));
  }

  lemma {:induction false} PossibleFires(e: CronExpr, day: nat, start: Clock, c: Clock)
    requires e.Valid() && e.DayFires(day) && Possible(e, start, c)
    ensures start.Second() <= c.Second() && 0 <= c.Second() < DAY && e.Fires(day * DAY + c.Second())
  {
    hide CronExpr.Fires, CronExpr.DayFires, Possible, Reading, Clock.Second;
    PossibleMeans(e, start, c);
    ReadingIs(day, c);
    FiresByReading(e, day * DAY + c.Second());
  }

  /** Nothing fires on a day that does not match. */
  lemma {:induction false} QuietDay(e: CronExpr, day: nat, t: nat)
    requires !e.DayFires(day) && day * DAY <= t < (day + 1) * DAY
    ensures !e.Fires(t)
  {
    assert t / DAY == day;
  }

  /** Everything from `start` on that day has been looked at. */
  lemma {:induction false} DayDone(e: CronExpr, day: nat, start: Clock, r: Option<Clock>)
    requires e.Valid() && 0 <= start.Second()
    requires e.DayFires(day) ==> forall c :: Possible(e, start, c) ==> r.Some? && r.value.Second() <= c.Second()
    requires r.Some? ==> e.DayFires(day) && 0 <= r.value.Second() < DAY
    ensures forall x: nat ::
              day * DAY + start.Second() <= x < day * DAY + (if r.Some? then r.value.Second() else DAY) ==>
                !e.Fires(x)
  {
    hide CronExpr.Fires, CronExpr.DayFires, Possible, Clock.Second;
    forall x: nat | day * DAY + start.Second() <= x < day * DAY + (if r.Some? then r.value.Second() else DAY)
      ensures !e.Fires(x)
    {
      if !e.DayFires(day) {
        QuietDay(e, day, x);
      } else if e.Fires(x) {
        FirstOfDay(e, day, start, r, x);
      }
    }
  }

  /** One day of the search. */
  method SearchDay(e: CronExpr, day: nat, date: Date, start: Clock) returns (r: Option<nat>)
    requires e.Valid() && date == DateOf(day) && 0 <= start.minute < 60 && 0 <= start.second < 60 && 0 <= start.Second()
    ensures r.Some? ==> day * DAY + start.Second() <= r.value < (day + 1) * DAY && e.Fires(r.value)
    ensures forall x: nat :: day * DAY + start.Second() <= x < (if r.Some? then r.value else (day + 1) * DAY) ==> !e.Fires(x)
  {
    hide CronExpr.Fires, Possible, Clock.Second, DateOf, Sorted, Allowed;
    var first := None;
    if date.month in e.months && e.DayMatches(day) {
      var hours, minutes, seconds := Sorted(e.hours, 0, 23), Sorted(e.minutes, 0, 59), Sorted(e.seconds, 0, 59);
      first := FirstOnDay(hours, minutes, seconds, start);
      PossibleIsAllowed(e, start);
      if first.Some? { PossibleFires(e, day, start, first.value); }
    }
    DayDone(e, day, start, first);
    r := if first.Some? then Some(day * DAY + first.value.Second()) else None;
  }

  lemma {:induction false} PossibleIsAllowed(e: CronExpr, start: Clock)
    ensures forall c :: Possible(e, start, c) <==>
              Allowed(Sorted(e.hours, 0, 23), Sorted(e.minutes, 0, 59), Sorted(e.seconds, 0, 59), start, c)
  {
  }

  /** The first firing strictly after `ts`, day by day and then within the day. */
  method NextAfter(e: CronExpr, ts: nat) returns (r: Option<nat>)
    requires e.Valid()
    ensures r == NextFiring(e, ts)
  {
    hide CronExpr.Fires, Clock.Second, DateOf, Reading;
    var from := ts + 1;
    ReadingOf(from);
    var day, date, start := from / DAY, DateOf(from / DAY), Reading(from);
    var n := 0;
    while n < SEARCH_DAYS
      invariant 0 <= n <= SEARCH_DAYS && day == from / DAY + n && date == DateOf(day)
      invariant 0 <= start.minute < 60 && 0 <= start.second < 60 && 0 <= start.Second()
      invariant from <= day * DAY + start.Second() && (n > 0 ==> start.Second() == 0)
      invariant forall x: nat :: from <= x < day * DAY + start.Second() ==> !e.Fires(x)
    {
      r := SearchDay(e, day, date, start);
      if r.Some? {
        ScanIs(e, from, Horizon(ts), r);
        return;
      }
      Midnight();
      Tomorrow(day);
      date, day, start, n := NextDay(date), day + 1, Clock(0, 0, 0), n + 1;
    }
    r := None;
    ScanIs(e, from, Horizon(ts), r);
  }

  lemma {:induction false} Midnight()
    ensures Clock(0, 0, 0).Second() == 0
  {
  }

  lemma {:induction false} ScanIs(e: CronExpr, from: nat, until: nat, r: Option<nat>)
    requires r.Some? ==> from <= r.value < until && e.Fires(r.value) && forall x: nat :: from <= x < r.value ==> !e.Fires(x)
    requires r.None? ==> forall x: nat :: from <= x < until ==> !e.Fires(x)
    ensures Scan(e, from, until) == r
  {
  }

  // ---- the budget is large enough ----

  /** A day that fires comes again within the search, after any day. */
  lemma {:induction false} FiringDayRecurs(e: CronExpr, n: nat, firing: nat) returns (later: nat)
    requires e.DayFires(firing)
    ensures n < later < n + SEARCH_DAYS && e.DayFires(later)
  {
    hide DateOf, Weekday;
    var date := DateOf(firing);
    if (e.anyDay && e.anyWeekday) || (!e.anyDay && date.day in e.days) {
      later := DayRecurs(n, date);
    } else {
      WeekdayRange(firing);
      later := WeekdayRecurs(n, date.month, Weekday(firing));
    }
  }

  lemma {:induction false} WeekdayRange(n: nat)
    ensures Weekday(n) < 7
  {
  }

  /** If an expression fires at all, ever, it fires within the search from any instant. */
  lemma {:induction false} SearchIsLongEnough(e: CronExpr, ts: nat, firing: nat)
    requires e.Fires(firing)
    ensures NextFiring(e, ts).Some?
  {
    hide CronExpr.Fires, CronExpr.DayFires, Reading, Clock.Second, Scan;
    FiresByReading(e, firing);
    ReadingOf(firing);
    var c, n := Reading(firing), (ts + 1) / DAY;
    var later := FiringDayRecurs(e, n, firing / DAY);
    ReadingIs(later, c);
    var t := later * DAY + c.Second();
    FiresByReading(e, t);
    ReadingOf(ts + 1);
    assert ts + 1 <= t < Horizon(ts) && e.Fires(t);
  }

  /** Giving up is never premature: the search finds nothing only if there is nothing to find, and
      then it finds nothing from any other instant either. */
  lemma {:induction false} GivesUpOnlyOnTheUnsatisfiable(e: CronExpr, ts: nat)
    ensures NextFiring(e, ts).Some? <==> exists t: nat :: e.Fires(t)
  {
    hide CronExpr.Fires, Scan;
    if t: nat :| e.Fires(t) {
      SearchIsLongEnough(e, ts, t);
    }
  }

  /** Later starts give no earlier firings, and any start short of a firing gives that firing. */
  lemma {:induction false} NextFiringIsMonotone(e: CronExpr, a: nat, b: nat)
    requires a <= b && NextFiring(e, a).Some?
    ensures NextFiring(e, b).Some? && NextFiring(e, a).value <= NextFiring(e, b).value
    ensures b < NextFiring(e, a).value ==> NextFiring(e, b) == NextFiring(e, a)
  {
    hide CronExpr.Fires, Scan;
    SearchIsLongEnough(e, b, NextFiring(e, a).value);
  }
}
