/** From the text of a cron expression to its fields. */
module CronParsing {
  import opened Wrappers
  import opened Calendar
  import opened Cron
  import Decimals

  type Names = map<string, int>

  const MONTHS: Names := map[
    "jan" := 1, "feb" := 2, "mar" := 3, "apr" := 4, "may" := 5, "jun" := 6,
    "jul" := 7, "aug" := 8, "sep" := 9, "oct" := 10, "nov" := 11, "dec" := 12]

  const WEEKDAYS: Names := map["sun" := 0, "mon" := 1, "tue" := 2, "wed" := 3, "thu" := 4, "fri" := 5, "sat" := 6]

  const NO_NAMES: Names := map[]

  // ---- text ----

  /** The pieces between separators; always at least one. */
  function SplitOn(s: string, c: char): (r: seq<string>)
    ensures r != []
  {
    if s == [] then [""]
    else
      var rest := SplitOn(s[1..], c);
      if s[0] == c then [""] + rest else [[s[0]] + rest[0]] + rest[1..]
  }

  /** What comes before the first `c`, and what comes after it. */
  function Partition(s: string, c: char): (string, string) {
    if s == [] then ("", "")
    else if s[0] == c then ("", s[1..])
    else var p := Partition(s[1..], c); ([s[0]] + p.0, p.1)
  }

  predicate IsNumeral(s: string) {
    s != "" && Decimals.AllDigits(s)
  }

  function Lower(s: string): string {
    seq(|s|, i requires 0 <= i < |s| => if 'A' <= s[i] <= 'Z' then (s[i] as int + 32) as char else s[i])
  }

  /** A name or a number. */
  function Token(token: string, names: Names): Option<int> {
    var t := Lower(token);
    if t in names then Some(names[t])
    else if IsNumeral(t) then Some(Decimals.Parse(t))
    else None
  }

  // ---- one part of a field ----

  datatype Span = Span(first: int, last: int, step: nat) {
    predicate Has(v: int) {
      first <= v <= last && step > 0 && (v - first) % step == 0
    }
  }

  /** `*`, a value or a range, each with an optional step; None when it is malformed or out of range. */
  function PartSpan(part: string, low: int, high: int, names: Names): (r: Option<Span>)
    ensures r.Some? ==> low <= r.value.first <= r.value.last <= high && r.value.step >= 1
  {
    var (body, stepText) := Partition(part, '/');
    if stepText != "" && (!IsNumeral(stepText) || Decimals.Parse(stepText) < 1) then None
    else
      var step := if stepText != "" then Decimals.Parse(stepText) else 1;
      var ends :=
        if body == "*" then (Some(low), Some(high))
        else if '-' in body then var (a, b) := Partition(body, '-'); (Token(a, names), Token(b, names))
        else (Token(body, names), if stepText != "" then Some(high) else Token(body, names));
      match ends
      case (Some(first), Some(last)) =>
        if !(low <= first <= high && low <= last <= high) || first > last then None else Some(Span(first, last, step))
      case _ => None
  }

  // ---- a field ----

  /** What a field denotes: the union of its parts, if all of them are well formed. */
  ghost function FieldOf(text: string, low: int, high: int, names: Names): Option<set<int>> {
    var parts := SplitOn(text, ',');
    if forall k :: 0 <= k < |parts| ==> PartSpan(parts[k], low, high, names).Some?
    then Some(set v: int | low <= v <= high && InParts(parts, |parts|, low, high, names, v))
    else None
  }

  ghost predicate InParts(parts: seq<string>, n: nat, low: int, high: int, names: Names, v: int)
    requires n <= |parts|
  {
    exists k :: 0 <= k < n && PartSpan(parts[k], low, high, names).Some? && PartSpan(parts[k], low, high, names).value.Has(v)
  }

  /** Adds the values of a span, stepping from its first to its last. */
  method AddSpan(before: set<int>, span: Span) returns (values: set<int>)
    requires span.step >= 1
    ensures forall x :: x in values <==> x in before || span.Has(x)
  {
    values := before;
    var v, k := span.first, 0;
    while v <= span.last
      invariant v == span.first + k * span.step && k >= 0
      invariant forall x :: x in values <==> x in before || (span.Has(x) && x < v)
      decreases span.last - v
    {
      forall x | v <= x < v + span.step
        ensures span.Has(x) <==> x == v
      {
        OnStep(x - span.first, span.step, k);
        OnStep(v - span.first, span.step, k);
      }
      values := values + {v};
      v, k := v + span.step, k + 1;
    }
  }

  /** In each stretch of `step` values exactly the first is a multiple. */
  lemma {:induction false} OnStep(y: int, step: nat, k: nat)
    requires step >= 1 && k * step <= y < k * step + step
    ensures y % step == 0 <==> y == k * step
  {
    assert 0 <= k * step;
    RemainderIs(y, step, k, y - k * step);
  }

  lemma {:induction false} OneMorePart(parts: seq<string>, n: nat, low: int, high: int, names: Names, span: Span,
      v: int)
    requires n < |parts| && PartSpan(parts[n], low, high, names) == Some(span)
    ensures InParts(parts, n + 1, low, high, names, v) <==> InParts(parts, n, low, high, names, v) || span.Has(v)
    ensures span.Has(v) ==> low <= v <= high
  {
    hide PartSpan, Span.Has;
    if InParts(parts, n + 1, low, high, names, v) && !InParts(parts, n, low, high, names, v) {
      var k :| 0 <= k < n + 1 && PartSpan(parts[k], low, high, names).Some? && PartSpan(parts[k], low, high, names).value.Has(v);
      assert k == n;
    }
    SpanIsWithin(parts[n], low, high, names, v);
  }

  lemma {:induction false} SpanIsWithin(part: string, low: int, high: int, names: Names, v: int)
    ensures PartSpan(part, low, high, names).Some? && PartSpan(part, low, high, names).value.Has(v) ==> low <= v <= high
  {
    hide Partition, Token, Decimals.Parse, IsNumeral;
  }

  method ParseField(text: string, low: int, high: int, names: Names) returns (r: Option<set<int>>, unrestricted: bool)
    ensures r == FieldOf(text, low, high, names)
    ensures unrestricted <==> |text| > 0 && text[0] == '*'
  {
    hide PartSpan, Span.Has, InParts;
    unrestricted := |text| > 0 && text[0] == '*';
    var parts := SplitOn(text, ',');
    var values: set<int> := {};
    NoParts(parts, low, high, names);
    var i := 0;
    while i < |parts|
      invariant 0 <= i <= |parts|
      invariant forall k :: 0 <= k < i ==> PartSpan(parts[k], low, high, names).Some?
      invariant forall v :: v in values <==> low <= v <= high && InParts(parts, i, low, high, names, v)
    {
      var span := PartSpan(parts[i], low, high, names);
      if span.None? {
        return None, unrestricted;
      }
      var more := AddSpan(values, span.value);
      forall v
        ensures v in more <==> low <= v <= high && InParts(parts, i + 1, low, high, names, v)
      {
        OneMorePart(parts, i, low, high, names, span.value, v);
      }
      values := more;
      i := i + 1;
    }
    assert values == set v: int | low <= v <= high && InParts(parts, |parts|, low, high, names, v);
    r := Some(values);
  }

  lemma {:induction false} NoParts(parts: seq<string>, low: int, high: int, names: Names)
    ensures forall v :: !InParts(parts, 0, low, high, names, v)
  {
  }

  // ---- a whole expression ----

  /** What the fields denote: five of them, or six with a leading seconds field. */
  ghost function Denoted(fields: seq<string>): Option<CronExpr> {
    if |fields| == 6 then WithSeconds(FieldOf(fields[0], 0, 59, NO_NAMES), fields[1..])
    else if |fields| == 5 then WithSeconds(Some({0}), fields)
    else None
  }

  predicate Unrestricted(text: string) {
    |text| > 0 && text[0] == '*'
  }

  ghost function WithSeconds(seconds: Option<set<int>>, fields: seq<string>): Option<CronExpr>
    requires |fields| == 5
  {
    var minutes, hours := FieldOf(fields[0], 0, 59, NO_NAMES), FieldOf(fields[1], 0, 23, NO_NAMES);
    var days, months := FieldOf(fields[2], 1, 31, NO_NAMES), FieldOf(fields[3], 1, 12, MONTHS);
    var weekdays := FieldOf(fields[4], 0, 7, WEEKDAYS);
    if seconds.Some? && minutes.Some? && hours.Some? && days.Some? && months.Some? && weekdays.Some?
    then Some(CronExpr(minutes.value, hours.value, days.value, months.value, Modulo7(weekdays.value),
                       Unrestricted(fields[2]), Unrestricted(fields[4]), seconds.value))
    else None
  }

  /** 7 is Sunday too. */
  function Modulo7(weekdays: set<int>): (r: set<int>)
    ensures forall v :: v in weekdays ==> v % 7 in r
    ensures forall v :: v in r ==> exists w :: w in weekdays && v == w % 7
    ensures forall v :: v in r ==> 0 <= v <= 6
  {
    set v | v in weekdays :: v % 7
  }

  /** Every field of a well-formed expression has a value, and all of them are in range. */
  lemma {:induction false} FieldIsField(text: string, low: int, high: int, names: Names)
    ensures FieldOf(text, low, high, names).Some? ==> Field(FieldOf(text, low, high, names).value, low, high)
  {
    hide PartSpan, SplitOn;
    var parts, values := SplitOn(text, ','), FieldOf(text, low, high, names);
    if values.Some? {
      var span := PartSpan(parts[0], low, high, names).value;
      FirstOfSpan(parts[0], low, high, names);
      assert InParts(parts, |parts|, low, high, names, span.first);
      assert span.first in values.value;
    }
  }

  lemma {:induction false} FirstOfSpan(part: string, low: int, high: int, names: Names)
    ensures var span := PartSpan(part, low, high, names);
            span.Some? ==> span.value.Has(span.value.first) && low <= span.value.first <= high
  {
    hide Partition, Token, Decimals.Parse, IsNumeral;
  }

  lemma {:induction false} DenotedIsValid(fields: seq<string>)
    ensures Denoted(fields).Some? ==> Denoted(fields).value.Valid()
  {
    hide FieldOf;
    assert 0 in {0};
    if |fields| == 6 {
      FieldIsField(fields[0], 0, 59, NO_NAMES);
      FiveAreValid(FieldOf(fields[0], 0, 59, NO_NAMES), fields[1..]);
    } else if |fields| == 5 {
      FiveAreValid(Some({0}), fields);
    }
  }

  lemma {:induction false} FiveAreValid(seconds: Option<set<int>>, fields: seq<string>)
    requires |fields| == 5 && (seconds.Some? ==> Field(seconds.value, 0, 59))
    ensures WithSeconds(seconds, fields).Some? ==> WithSeconds(seconds, fields).value.Valid()
  {
    hide FieldOf;
    FieldIsField(fields[0], 0, 59, NO_NAMES);
    FieldIsField(fields[1], 0, 23, NO_NAMES);
    FieldIsField(fields[2], 1, 31, NO_NAMES);
    FieldIsField(fields[3], 1, 12, MONTHS);
    FieldIsField(fields[4], 0, 7, WEEKDAYS);
    var weekdays := FieldOf(fields[4], 0, 7, WEEKDAYS);
    if weekdays.Some? {
      var v :| v in weekdays.value;
      assert v % 7 in Modulo7(weekdays.value);
    }
  }

  /** Accepts exactly the well-formed expressions that ever fire: what is accepted fires again after
      every instant, and what is refused is malformed or never fires at all. */
  method Parse(fields: seq<string>) returns (r: Option<CronExpr>)
    ensures r.Some? ==> r == Denoted(fields) && r.value.Valid() && forall ts: nat :: NextFiring(r.value, ts).Some?
    ensures r.None? ==> Denoted(fields).None? || forall t: nat :: !Denoted(fields).value.Fires(t)
  {
    hide FieldOf, CronExpr.Fires, CronExpr.Valid, NextFiring;
    var seconds: Option<set<int>>, rest := Some({0}), fields;
    if |fields| == 6 {
      var parsed, _ := ParseField(fields[0], 0, 59, NO_NAMES);
      seconds, rest := parsed, fields[1..];
    } else if |fields| != 5 {
      return None;
    }
    var minutes, _ := ParseField(rest[0], 0, 59, NO_NAMES);
    var hours, _ := ParseField(rest[1], 0, 23, NO_NAMES);
    var days, anyDay := ParseField(rest[2], 1, 31, NO_NAMES);
    var months, _ := ParseField(rest[3], 1, 12, MONTHS);
    var weekdays, anyWeekday := ParseField(rest[4], 0, 7, WEEKDAYS);
    if seconds.None? || minutes.None? || hours.None? || days.None? || months.None? || weekdays.None? {
      return None;
    }
    var e := CronExpr(minutes.value, hours.value, days.value, months.value, Modulo7(weekdays.value),
                        anyDay, anyWeekday, seconds.value);
    assert Denoted(fields) == Some(e);
    DenotedIsValid(fields);
    var first := NextAfter(e, EPOCH_DAY * DAY);
    GivesUpOnlyOnTheUnsatisfiable(e, EPOCH_DAY * DAY);
    if first.None? {
      return None;
    }
    forall ts: nat
      ensures NextFiring(e, ts).Some?
    {
      GivesUpOnlyOnTheUnsatisfiable(e, ts);
    }
    r := Some(e);
  }

  // ---- from the text ----

  const ALIASES: map<string, string> := map[
    "@yearly" := "0 0 1 1 *", "@annually" := "0 0 1 1 *", "@monthly" := "0 0 1 * *", "@weekly" := "0 0 * * 0",
    "@daily" := "0 0 * * *", "@midnight" := "0 0 * * *", "@hourly" := "0 * * * *"]

  /** The ASCII characters that separate words. */
  predicate IsBlank(c: char) {
    c == ' ' || '\t' <= c <= '\r' || '\U{1c}' <= c <= '\U{1f}'
  }

  predicate AllBlank(s: string) {
    forall i :: 0 <= i < |s| ==> IsBlank(s[i])
  }

  function DropBlanks(s: string): string {
    if s != [] && IsBlank(s[0]) then DropBlanks(s[1..]) else s
  }

  function DropBlanksAtEnd(s: string): string {
    if s != [] && IsBlank(s[|s| - 1]) then DropBlanksAtEnd(s[..|s| - 1]) else s
  }

  function Strip(s: string): string {
    DropBlanksAtEnd(DropBlanks(s))
  }

  /** How many characters come before the first blank. */
  function WordLength(s: string): (n: nat)
    ensures n <= |s| && forall i :: 0 <= i < n ==> !IsBlank(s[i])
    ensures n < |s| ==> IsBlank(s[n])
  {
    if s == [] || IsBlank(s[0]) then 0 else 1 + WordLength(s[1..])
  }

  /** The words between blanks. */
  function Words(s: string): (r: seq<string>)
    ensures forall k :: 0 <= k < |r| ==> r[k] != "" && forall i :: 0 <= i < |r[k]| ==> !IsBlank(r[k][i])
    decreases |s|
  {
    if s == [] then []
    else if IsBlank(s[0]) then Words(s[1..])
    else var n := WordLength(s); [s[..n]] + Words(s[n..])
  }

  lemma {:induction false} WordLengthIs(s: string, n: nat)
    requires n <= |s| && (forall i :: 0 <= i < n ==> !IsBlank(s[i])) && (n < |s| ==> IsBlank(s[n]))
    ensures WordLength(s) == n
  {
    if n > 0 {
      WordLengthIs(s[1..], n - 1);
    }
  }

  lemma {:induction false} BlanksHaveNoWords(gap: string, s: string)
    requires AllBlank(gap)
    ensures Words(gap + s) == Words(s)
  {
    if gap == [] {
      assert gap + s == s;
    } else {
      assert (gap + s)[1..] == gap[1..] + s;
      BlanksHaveNoWords(gap[1..], s);
    }
  }

  /** Text without a blank is one word. */
  lemma {:induction false} WordIsOne(s: string)
    requires s != "" && forall i :: 0 <= i < |s| ==> !IsBlank(s[i])
    ensures Words(s) == [s] && Words("") == []
  {
    hide IsBlank;
    WordLengthIs(s, |s|);
    assert s[..|s|] == s && s[|s|..] == "" && [s] + [] == [s];
  }

  /** Blanks separate words, however many they are. */
  lemma {:induction false} BlanksSeparate(a: string, gap: string, b: string)
    requires gap != "" && AllBlank(gap)
    ensures Words(a + gap + b) == Words(a) + Words(b)
    decreases |a|
  {
    hide IsBlank, WordLength;
    var s := a + gap + b;
    if a == [] {
      assert s == gap + b;
      BlanksHaveNoWords(gap, b);
    } else if IsBlank(a[0]) {
      assert s[1..] == a[1..] + gap + b;
      BlanksSeparate(a[1..], gap, b);
    } else {
      var n := WordLength(a);
      assert s[n..] == a[n..] + gap + b && s[..n] == a[..n];
      assert forall i :: 0 <= i < n ==> s[i] == a[i];
      assert IsBlank(s[n]) by { assert s[n] == if n < |a| then a[n] else gap[0]; }
      WordLengthIs(s, n);
      BlanksSeparate(a[n..], gap, b);
    }
  }

  lemma {:induction false} StripIsInside(s: string)
    returns (before: string, after: string)
    ensures AllBlank(before) && AllBlank(after) && s == before + Strip(s) + after
  {
    var rest;
    before, rest := FrontBlanks(s);
    after := EndBlanks(rest);
  }

  lemma {:induction false} FrontBlanks(s: string)
    returns (before: string, rest: string)
    ensures AllBlank(before) && rest == DropBlanks(s) && s == before + rest
  {
    if s != [] && IsBlank(s[0]) {
      var more;
      more, rest := FrontBlanks(s[1..]);
      before := [s[0]] + more;
    } else {
      before, rest := "", s;
    }
  }

  lemma {:induction false} EndBlanks(s: string)
    returns (after: string)
    ensures AllBlank(after) && s == DropBlanksAtEnd(s) + after
  {
    if s != [] && IsBlank(s[|s| - 1]) {
      var more := EndBlanks(s[..|s| - 1]);
      after := more + [s[|s| - 1]];
    } else {
      after := "";
    }
  }

  /** Stripping loses no word. */
  lemma {:induction false} StripKeepsWords(s: string)
    ensures Words(Strip(s)) == Words(s)
  {
    hide Strip, Words;
    var before, after := StripIsInside(s);
    assert s == before + (Strip(s) + after);
    BlanksHaveNoWords(before, Strip(s) + after);
    if after != "" {
      assert Strip(s) + after == Strip(s) + after + "";
      BlanksSeparate(Strip(s), after, "");
      assert Words("") == [] by { NoWords(); }
    } else {
      assert Strip(s) + after == Strip(s);
    }
  }

  lemma {:induction false} NoWords()
    ensures Words("") == []
  {
  }

  /** An alias stands for its expression; anything else for itself. */
  function Expanded(text: string): string {
    var t := Strip(text);
    if Lower(t) in ALIASES then ALIASES[Lower(t)] else t
  }

  /** The text's words, or its alias's. */
  lemma {:induction false} ExpandedWords(text: string)
    ensures Words(Expanded(text)) == if Lower(Strip(text)) in ALIASES then Words(ALIASES[Lower(Strip(text))]) else Words(text)
  {
    hide Strip, Words;
    StripKeepsWords(text);
  }

  /** From the text: aliases, blanks around and between the fields, and then the fields. */
  method ParseText(text: string) returns (r: Option<CronExpr>)
    ensures var fields := if Lower(Strip(text)) in ALIASES then Words(ALIASES[Lower(Strip(text))]) else Words(text);
            && (r.Some? ==> r == Denoted(fields) && r.value.Valid() && forall ts: nat :: NextFiring(r.value, ts).Some?)
            && (r.None? ==> Denoted(fields).None? || forall t: nat :: !Denoted(fields).value.Fires(t))
  {
    hide Strip, Words, Lower, Denoted, CronExpr.Fires, CronExpr.Valid, NextFiring;
    ExpandedWords(text);
    r := Parse(Words(Expanded(text)));
  }
}
