/** Run ids of schedule ticks: the schedule's id and the fire time in UTC, to the millisecond. */
module Ticks {
  import opened Calendar
  import opened Cron
  import Decimals

  /** Instants in milliseconds since 0001-01-01T00:00:00Z. */
  type Milliseconds = nat

  /** A number with leading zeros up to a width. */
  function Padded(n: nat, width: nat): (s: string)
    ensures Decimals.AllDigits(s) && |s| >= width
  {
    Zeros(n, width) + Decimals.Render(n)
  }

  function Zeros(n: nat, width: nat): (s: string)
    ensures |s| + |Decimals.Render(n)| >= width && forall i :: 0 <= i < |s| ==> s[i] == '0'
  {
    var have := |Decimals.Render(n)|;
    if have >= width then "" else seq(width - have, i => '0')
  }

  lemma {:induction false} ParsePadded(zeros: string, s: string)
    requires Decimals.AllDigits(s) && forall i :: 0 <= i < |zeros| ==> zeros[i] == '0'
    ensures Decimals.AllDigits(zeros + s) && Decimals.Parse(zeros + s) == Decimals.Parse(s)
    decreases |zeros| + |s|
  {
    if s != [] {
      var init := s[..|s| - 1];
      ParsePadded(zeros, init);
      assert (zeros + s)[..|zeros + s| - 1] == zeros + init;
    } else if zeros != [] {
      var init := zeros[..|zeros| - 1];
      ParsePadded(init, []);
      assert zeros + [] == zeros && init + [] == init;
      assert zeros[..|zeros| - 1] == init;
    } else {
      assert zeros + s == [];
    }
  }

  lemma {:induction false} PaddedIsInjective(a: nat, b: nat, width: nat)
    requires Padded(a, width) == Padded(b, width)
    ensures a == b
  {
    ParsePadded(Zeros(a, width), Decimals.Render(a));
    ParsePadded(Zeros(b, width), Decimals.Render(b));
    Decimals.ParseRender(a);
    Decimals.ParseRender(b);
  }

  /** `2026-09-03T02:00:00.000Z` */
  function Stamp(t: Milliseconds): string {
    var date, c := DateOf(t / 1000 / DAY), Reading(t / 1000);
    Padded(date.year, 4) + "-" + (Padded(date.month, 2) + "-" + (Padded(date.day, 2) + "T" +
    (Padded(c.hour, 2) + ":" + (Padded(c.minute, 2) + ":" + (Padded(c.second, 2) + "." + (Padded(t % 1000, 3) + "Z"))))))
  }

  function ScheduledRunId(scheduleId: string, fireAt: Milliseconds): string {
    scheduleId + "@" + Stamp(fireAt)
  }

  // ---- reading an id back ----

  /** Texts that agree up to the first separator agree on both sides of it. */
  lemma {:induction false} SplitAtFirst(a: string, b: string, c: char, x: string, y: string)
    requires a + [c] + x == b + [c] + y && c !in a && c !in b
    ensures a == b && x == y
  {
    var s, t := a + [c] + x, b + [c] + y;
    assert s[|a|] == c && t[|b|] == c;
    assert forall i :: 0 <= i < |a| ==> s[i] in a;
    assert forall i :: 0 <= i < |b| ==> t[i] in b;
    assert s[..|a|] == a && t[..|b|] == b && s[|a| + 1..] == x && t[|b| + 1..] == y;
  }

  /** Texts that agree and have no separator after the last one agree on both sides of it. */
  lemma {:induction false} SplitAtLast(a: string, b: string, c: char, x: string, y: string)
    requires a + [c] + x == b + [c] + y && c !in x && c !in y
    ensures a == b && x == y
  {
    var s, t := a + [c] + x, b + [c] + y;
    assert s[|a|] == c && t[|b|] == c;
    assert forall i :: |a| < i < |s| ==> s[i] in x;
    assert forall i :: |b| < i < |t| ==> t[i] in y;
    assert s[..|a|] == a && t[..|b|] == b && s[|a| + 1..] == x && t[|b| + 1..] == y;
  }

  lemma {:induction false} FieldsAgree(a: nat, b: nat, width: nat, c: char, x: string, y: string)
    requires Padded(a, width) + [c] + x == Padded(b, width) + [c] + y && !Decimals.IsDigit(c)
    ensures a == b && x == y
  {
    SplitAtFirst(Padded(a, width), Padded(b, width), c, x, y);
    PaddedIsInjective(a, b, width);
  }

  /** A stamp tells the millisecond. */
  lemma {:induction false} StampIsInjective(s: Milliseconds, t: Milliseconds)
    requires Stamp(s) == Stamp(t)
    ensures s == t
  {
    hide DateOf, Reading, Padded, Clock.Second;
    var d, e, b, c := DateOf(s / 1000 / DAY), DateOf(t / 1000 / DAY), Reading(s / 1000), Reading(t / 1000);
    ReadingOf(s / 1000);
    ReadingOf(t / 1000);
    var s7, t7 := Padded(s % 1000, 3) + "Z", Padded(t % 1000, 3) + "Z";
    var s6, t6 := Padded(b.second, 2) + "." + s7, Padded(c.second, 2) + "." + t7;
    var s5, t5 := Padded(b.minute, 2) + ":" + s6, Padded(c.minute, 2) + ":" + t6;
    var s4, t4 := Padded(b.hour, 2) + ":" + s5, Padded(c.hour, 2) + ":" + t5;
    var s3, t3 := Padded(d.day, 2) + "T" + s4, Padded(e.day, 2) + "T" + t4;
    var s2, t2 := Padded(d.month, 2) + "-" + s3, Padded(e.month, 2) + "-" + t3;
    FieldsAgree(d.year, e.year, 4, '-', s2, t2);
    FieldsAgree(d.month, e.month, 2, '-', s3, t3);
    FieldsAgree(d.day, e.day, 2, 'T', s4, t4);
    FieldsAgree(b.hour, c.hour, 2, ':', s5, t5);
    FieldsAgree(b.minute, c.minute, 2, ':', s6, t6);
    FieldsAgree(b.second, c.second, 2, '.', s7, t7);
    assert s7 == s7 + [] && t7 == t7 + [];
    FieldsAgree(s % 1000, t % 1000, 3, 'Z', [], []);
    SameDay(s / 1000, t / 1000);
  }

  /** Equal dates and equal clock readings are equal seconds. */
  lemma {:induction false} SameDay(a: nat, b: nat)
    requires DateOf(a / DAY) == DateOf(b / DAY) && Reading(a) == Reading(b)
    ensures a == b
  {
    hide DateOf, Reading, DayNumber;
    NumberOfDate(a / DAY);
    NumberOfDate(b / DAY);
    ReadingOf(a);
    ReadingOf(b);
  }

  lemma {:induction false} StampHasNoAt(t: Milliseconds)
    ensures '@' !in Stamp(t)
  {
    hide DateOf, Reading, Padded;
    var date, c := DateOf(t / 1000 / DAY), Reading(t / 1000);
    ReadingOf(t / 1000);
    NoAt(date.year, 4);
    NoAt(date.month, 2);
    NoAt(date.day, 2);
    NoAt(c.hour, 2);
    NoAt(c.minute, 2);
    NoAt(c.second, 2);
    NoAt(t % 1000, 3);
  }

  lemma {:induction false} NoAt(n: nat, width: nat)
    ensures '@' !in Padded(n, width)
  {
  }

  /** Two ticks share a run id exactly when they are of the same schedule and the same millisecond. */
  lemma {:induction false} OneIdPerTick(a: string, b: string, s: Milliseconds, t: Milliseconds)
    ensures ScheduledRunId(a, s) == ScheduledRunId(b, t) <==> a == b && s == t
  {
    hide Stamp;
    if ScheduledRunId(a, s) == ScheduledRunId(b, t) {
      StampHasNoAt(s);
      StampHasNoAt(t);
      SplitAtLast(a, b, '@', Stamp(s), Stamp(t));
      StampIsInjective(s, t);
    }
  }
}
