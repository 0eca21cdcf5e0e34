/** The language of cron fields: how a field is written, and which values it means. */
module CronFields {
  import opened Wrappers
  import opened CronParsing
  import Decimals

  /** A value, written as a numeral or as a name in small or capital letters. */
  datatype Value = Numeral(digits: string) | Name(spelling: string, key: string)

  datatype Extent = Star | Single(value: Value) | Range(first: Value, last: Value)

  /** What is written before the slash, and what after it, if there is one. */
  datatype Part = Part(extent: Extent, slash: Option<string>)

  // ---- how it is written ----

  predicate SmallLetter(c: char) { 'a' <= c <= 'z' }

  predicate AllSmall(name: string) {
    name != "" && forall i :: 0 <= i < |name| ==> SmallLetter(name[i])
  }

  /** Names are words of small letters. */
  ghost predicate Plain(names: Names) {
    forall name :: name in names ==> AllSmall(name)
  }

  /** The same letters, small or capital. */
  ghost predicate Spells(spelling: string, key: string) {
    && |spelling| == |key|
    && forall i :: 0 <= i < |key| ==>
         spelling[i] == key[i] || (SmallLetter(key[i]) && spelling[i] as int == key[i] as int + 'A' as int - 'a' as int)
  }

  ghost predicate IsValue(v: Value, names: Names) {
    match v
    case Numeral(digits) => digits != "" && Decimals.AllDigits(digits)
    case Name(spelling, key) => key in names && Spells(spelling, key)
  }

  ghost predicate IsPart(part: Part, names: Names) {
    && (match part.extent
        case Star => true
        case Single(value) => IsValue(value, names)
        case Range(first, last) => IsValue(first, names) && IsValue(last, names))
    && (part.slash.Some? ==> Decimals.AllDigits(part.slash.value))
  }

  function Written(v: Value): string {
    match v
    case Numeral(digits) => digits
    case Name(spelling, _) => spelling
  }

  function WrittenExtent(extent: Extent): string {
    match extent
    case Star => "*"
    case Single(value) => Written(value)
    case Range(first, last) => Written(first) + "-" + Written(last)
  }

  function WrittenPart(part: Part): string {
    if part.slash.None? then WrittenExtent(part.extent) else WrittenExtent(part.extent) + "/" + part.slash.value
  }

  function WrittenField(texts: seq<string>): string {
    if texts == [] then "" else if |texts| == 1 then texts[0] else texts[0] + "," + WrittenField(texts[1..])
  }

  // ---- what it means ----

  ghost function Number(v: Value, names: Names): int
    requires IsValue(v, names)
  {
    match v
    case Numeral(digits) => Decimals.Parse(digits)
    case Name(_, key) => names[key]
  }

  /** A slash with nothing behind it gives no step. */
  ghost predicate Stepped(part: Part) {
    part.slash.Some? && part.slash.value != ""
  }

  ghost function Step(part: Part, names: Names): nat
    requires IsPart(part, names)
  {
    if Stepped(part) then Decimals.Parse(part.slash.value) else 1
  }

  ghost function From(part: Part, low: int, names: Names): int
    requires IsPart(part, names)
  {
    match part.extent
    case Star => low
    case Single(value) => Number(value, names)
    case Range(first, _) => Number(first, names)
  }

  /** A single value with a step goes on to the end of the field. */
  ghost function To(part: Part, high: int, names: Names): int
    requires IsPart(part, names)
  {
    match part.extent
    case Star => high
    case Single(value) => if Stepped(part) then high else Number(value, names)
    case Range(_, last) => Number(last, names)
  }

  ghost predicate InRange(part: Part, low: int, high: int, names: Names)
    requires IsPart(part, names)
  {
    low <= From(part, low, names) <= To(part, high, names) <= high && Step(part, names) >= 1
  }

  /** Every so many from the first value on, up to the last. */
  ghost predicate Means(part: Part, low: int, high: int, names: Names, v: int)
    requires IsPart(part, names)
  {
    From(part, low, names) <= v <= To(part, high, names) && exists k: nat :: v == From(part, low, names) + k * Step(part, names)
  }

  // ---- text ----

  lemma {:induction false} PartitionFinds(a: string, c: char, b: string)
    requires c !in a
    ensures Partition(a + [c] + b, c) == (a, b) && Partition(a, c) == (a, "")
  {
    if a == [] {
      assert (a + [c] + b)[1..] == b;
    } else {
      var s := a + [c] + b;
      assert s[0] == a[0] && s[1..] == a[1..] + [c] + b;
      PartitionFinds(a[1..], c, b);
      assert [a[0]] + a[1..] == a;
    }
  }

  lemma {:induction false} PartitionSplits(s: string, c: char)
    ensures var p := Partition(s, c); c !in p.0 && if c in s then s == p.0 + [c] + p.1 else p == (s, "")
  {
    if s != [] && s[0] != c {
      PartitionSplits(s[1..], c);
      var p := Partition(s[1..], c);
      assert s == [s[0]] + s[1..];
      if c in s[1..] {
        assert [s[0]] + (p.0 + [c] + p.1) == [s[0]] + p.0 + [c] + p.1;
      }
    }
  }

  lemma {:induction false} LowerSpells(s: string)
    ensures forall key :: (forall i :: 0 <= i < |key| ==> SmallLetter(key[i])) ==> (Lower(s) == key <==> Spells(s, key))
  {
    forall key: string | forall i :: 0 <= i < |key| ==> SmallLetter(key[i])
      ensures Lower(s) == key <==> Spells(s, key)
    {
      if Spells(s, key) {
        assert forall i :: 0 <= i < |s| ==> Lower(s)[i] == key[i];
      }
      if Lower(s) == key {
        assert forall i :: 0 <= i < |s| ==> Lower(s)[i] == key[i];
      }
    }
  }

  /** A value is read as the number it means, and has no separator in it. */
  lemma {:induction false} ValueIsRead(v: Value, names: Names)
    requires Plain(names) && IsValue(v, names)
    ensures Token(Written(v), names) == Some(Number(v, names))
    ensures Written(v) != "*" && '-' !in Written(v) && '/' !in Written(v) && ',' !in Written(v)
  {
    match v
    case Numeral(digits) =>
      assert Lower(digits) == digits;
      assert Decimals.IsDigit(digits[0]);
      assert forall name :: name in names ==> AllSmall(name) && SmallLetter(name[0]);
    case Name(spelling, key) =>
      LowerSpells(spelling);
      assert AllSmall(key);
      assert forall i :: 0 <= i < |spelling| ==> SmallLetter(key[i]);
      assert spelling[0] != '*';
      assert forall i :: 0 <= i < |spelling| ==> spelling[i] != '-' && spelling[i] != '/' && spelling[i] != ',';
  }

  /** What is read as a number is a value. */
  lemma {:induction false} ReadIsValue(text: string, names: Names)
    returns (v: Value)
    requires Plain(names) && Token(text, names).Some?
    ensures IsValue(v, names) && Written(v) == text
  {
    LowerSpells(text);
    if Lower(text) in names {
      v := Name(text, Lower(text));
    } else {
      v := Numeral(text);
      forall i | 0 <= i < |text|
        ensures Decimals.IsDigit(text[i])
      {
        assert Decimals.IsDigit(Lower(text)[i]);
      }
    }
  }

  // ---- a part ----

  lemma {:induction false} ExtentHasNoSlash(part: Part, names: Names)
    requires Plain(names) && IsPart(part, names)
    ensures '/' !in WrittenExtent(part.extent) && ',' !in WrittenExtent(part.extent)
  {
    match part.extent
    case Star =>
    case Single(value) => ValueIsRead(value, names);
    case Range(first, last) =>
      ValueIsRead(first, names);
      ValueIsRead(last, names);
  }

  /** The two ends a part's extent is read as. */
  function Ends(body: string, stepped: bool, low: int, high: int, names: Names): (Option<int>, Option<int>) {
    if body == "*" then (Some(low), Some(high))
    else if '-' in body then var (a, b) := Partition(body, '-'); (Token(a, names), Token(b, names))
    else (Token(body, names), if stepped then Some(high) else Token(body, names))
  }

  lemma {:induction false} EndsAreRead(part: Part, low: int, high: int, names: Names)
    requires Plain(names) && IsPart(part, names)
    ensures Ends(WrittenExtent(part.extent), Stepped(part), low, high, names) ==
            (Some(From(part, low, names)), Some(To(part, high, names)))
  {
    hide Token, Partition;
    match part.extent
    case Star =>
    case Single(value) => ValueIsRead(value, names);
    case Range(first, last) =>
      ValueIsRead(first, names);
      ValueIsRead(last, names);
      PartitionFinds(Written(first), '-', Written(last));
  }

  lemma {:induction false} SpanIs(text: string, low: int, high: int, names: Names)
    ensures var p := Partition(text, '/');
            var ends := Ends(p.0, p.1 != "", low, high, names);
            if p.1 != "" && (!Decimals.AllDigits(p.1) || Decimals.Parse(p.1) < 1) then PartSpan(text, low, high, names).None?
            else if ends.0.None? || ends.1.None? then PartSpan(text, low, high, names).None?
            else if low <= ends.0.value <= ends.1.value <= high
            then PartSpan(text, low, high, names) == Some(Span(ends.0.value, ends.1.value, if p.1 != "" then Decimals.Parse(p.1) else 1))
            else PartSpan(text, low, high, names).None?
  {
    hide Token, Partition, Decimals.Parse;
  }

  /** A part in range is read as exactly the values it means, and refused out of range. */
  lemma {:induction false} PartMeans(part: Part, low: int, high: int, names: Names)
    requires Plain(names) && IsPart(part, names)
    ensures var span := PartSpan(WrittenPart(part), low, high, names);
            if InRange(part, low, high, names)
            then span.Some? && forall v :: span.value.Has(v) <==> Means(part, low, high, names, v)
            else span.None?
  {
    hide Token, Decimals.Parse, PartSpan, Ends, Span.Has;
    ExtentHasNoSlash(part, names);
    PartitionFinds(WrittenExtent(part.extent), '/', if part.slash.Some? then part.slash.value else "");
    SpanIs(WrittenPart(part), low, high, names);
    EndsAreRead(part, low, high, names);
    if InRange(part, low, high, names) {
      forall v
        ensures Span(From(part, low, names), To(part, high, names), Step(part, names)).Has(v) <==> Means(part, low, high, names, v)
      {
        HasIsMeans(From(part, low, names), To(part, high, names), Step(part, names), v);
      }
    }
  }

  lemma {:induction false} HasIsMeans(first: int, last: int, step: nat, v: int)
    requires step >= 1
    ensures Span(first, last, step).Has(v) <==> first <= v <= last && exists k: nat :: v == first + k * step
  {
    if Span(first, last, step).Has(v) {
      var k := (v - first) / step;
      assert v == first + k * step;
    }
    if first <= v && exists k: nat :: v == first + k * step {
      var k: nat :| v == first + k * step;
      OnStep(v - first, step, k);
    }
  }

  /** Text that is read as a part is one. */
  lemma {:induction false} ReadIsPart(text: string, low: int, high: int, names: Names)
    returns (part: Part)
    requires Plain(names) && PartSpan(text, low, high, names).Some?
    ensures IsPart(part, names) && WrittenPart(part) == text
  {
    hide Token, Decimals.Parse, PartSpan, Partition;
    var p := Partition(text, '/');
    PartitionSplits(text, '/');
    SpanIs(text, low, high, names);
    var extent := ReadIsExtent(p.0, p.1 != "", low, high, names);
    part := Part(extent, if '/' in text then Some(p.1) else None);
  }

  lemma {:induction false} ReadIsExtent(body: string, stepped: bool, low: int, high: int, names: Names)
    returns (extent: Extent)
    requires Plain(names) && Ends(body, stepped, low, high, names).0.Some? && Ends(body, stepped, low, high, names).1.Some?
    ensures WrittenExtent(extent) == body && IsPart(Part(extent, None), names)
  {
    hide Token, Partition;
    if body == "*" {
      extent := Star;
    } else if '-' in body {
      var p := Partition(body, '-');
      PartitionSplits(body, '-');
      var a := ReadIsValue(p.0, names);
      var b := ReadIsValue(p.1, names);
      extent := Range(a, b);
    } else {
      var v := ReadIsValue(body, names);
      extent := Single(v);
    }
  }

  // ---- a field ----

  lemma {:induction false} SplitFinds(texts: seq<string>, c: char)
    requires texts != [] && c == ',' && forall i :: 0 <= i < |texts| ==> c !in texts[i]
    ensures SplitOn(WrittenField(texts), c) == texts
  {
    if |texts| == 1 {
      NoSeparator(texts[0], c);
      assert texts == [texts[0]];
    } else {
      SplitFinds(texts[1..], c);
      FirstPiece(texts[0], c, WrittenField(texts[1..]));
      assert texts == [texts[0]] + texts[1..];
    }
  }

  lemma {:induction false} NoSeparator(a: string, c: char)
    requires c !in a
    ensures SplitOn(a, c) == [a]
  {
    if a != [] {
      NoSeparator(a[1..], c);
      assert a == [a[0]] + a[1..];
    }
  }

  lemma {:induction false} FirstPiece(a: string, c: char, rest: string)
    requires c !in a
    ensures SplitOn(a + [c] + rest, c) == [a] + SplitOn(rest, c)
  {
    var s := a + [c] + rest;
    if a == [] {
      assert s[0] == c && s[1..] == rest;
    } else {
      assert s[0] == a[0] && s[1..] == a[1..] + [c] + rest;
      FirstPiece(a[1..], c, rest);
      assert a == [a[0]] + a[1..];
    }
  }

  lemma {:induction false} SplitIsWritten(s: string)
    ensures WrittenField(SplitOn(s, ',')) == s
  {
    if s != [] {
      SplitIsWritten(s[1..]);
      var rest := SplitOn(s[1..], ',');
      if s[0] == ',' {
        assert ([""] + rest)[1..] == rest;
      } else {
        assert ([[s[0]] + rest[0]] + rest[1..])[1..] == rest[1..];
      }
    }
  }

  ghost function Texts(parts: seq<Part>): (r: seq<string>)
    ensures |r| == |parts| && forall i :: 0 <= i < |r| ==> r[i] == WrittenPart(parts[i])
  {
    seq(|parts|, i requires 0 <= i < |parts| => WrittenPart(parts[i]))
  }

  lemma {:induction false} PartHasNoComma(part: Part, names: Names)
    requires Plain(names) && IsPart(part, names)
    ensures ',' !in WrittenPart(part)
  {
    ExtentHasNoSlash(part, names);
    if part.slash.Some? {
      assert forall i :: 0 <= i < |part.slash.value| ==> Decimals.IsDigit(part.slash.value[i]);
    }
  }

  /** Parts joined by commas mean every value that one of them means, and are refused if one is out of range. */
  lemma {:induction false} FieldMeans(parts: seq<Part>, low: int, high: int, names: Names)
    requires Plain(names) && parts != [] && forall k :: 0 <= k < |parts| ==> IsPart(parts[k], names)
    ensures var values := FieldOf(WrittenField(Texts(parts)), low, high, names);
            if forall k :: 0 <= k < |parts| ==> InRange(parts[k], low, high, names)
            then values.Some? && forall v :: v in values.value <==> exists k :: 0 <= k < |parts| && Means(parts[k], low, high, names, v)
            else values.None?
  {
    hide PartSpan, SplitOn, WrittenPart, IsPart, InRange, Means, Span.Has, Plain;
    var texts := Texts(parts);
    forall k | 0 <= k < |parts|
      ensures ',' !in texts[k]
      ensures var span := PartSpan(texts[k], low, high, names);
              if InRange(parts[k], low, high, names)
              then span.Some? && forall v :: span.value.Has(v) <==> Means(parts[k], low, high, names, v)
              else span.None?
    {
      PartHasNoComma(parts[k], names);
      PartMeans(parts[k], low, high, names);
    }
    SplitFinds(texts, ',');
    if forall k :: 0 <= k < |parts| ==> InRange(parts[k], low, high, names) {
      forall v
        ensures v in FieldOf(WrittenField(texts), low, high, names).value <==>
                exists k :: 0 <= k < |parts| && Means(parts[k], low, high, names, v)
      {
        UnionMeans(parts, texts, low, high, names, v);
      }
    }
  }

  lemma {:induction false} UnionMeans(parts: seq<Part>, texts: seq<string>, low: int, high: int, names: Names, v: int)
    requires |texts| == |parts| && forall k :: 0 <= k < |parts| ==> IsPart(parts[k], names)
    requires forall k :: 0 <= k < |parts| ==>
               && PartSpan(texts[k], low, high, names).Some?
               && (PartSpan(texts[k], low, high, names).value.Has(v) <==> Means(parts[k], low, high, names, v))
    ensures low <= v <= high && InParts(texts, |texts|, low, high, names, v) <==>
            exists k :: 0 <= k < |parts| && Means(parts[k], low, high, names, v)
  {
    hide PartSpan, IsPart, Means, Span.Has;
    if k :| 0 <= k < |parts| && Means(parts[k], low, high, names, v) {
      SpanIsWithin(texts[k], low, high, names, v);
      assert PartSpan(texts[k], low, high, names).value.Has(v);
    }
    if InParts(texts, |texts|, low, high, names, v) {
      var k :| 0 <= k < |texts| && PartSpan(texts[k], low, high, names).Some? && PartSpan(texts[k], low, high, names).value.Has(v);
      assert Means(parts[k], low, high, names, v);
    }
  }

  /** Text that is read as a field is parts joined by commas; any other is refused. */
  lemma {:induction false} ReadIsField(text: string, low: int, high: int, names: Names)
    returns (parts: seq<Part>)
    requires Plain(names) && FieldOf(text, low, high, names).Some?
    ensures parts != [] && (forall k :: 0 <= k < |parts| ==> IsPart(parts[k], names)) && WrittenField(Texts(parts)) == text
  {
    hide PartSpan, SplitOn, WrittenPart, IsPart, Plain;
    var texts := SplitOn(text, ',');
    parts := PartsOf(texts, low, high, names);
    SplitIsWritten(text);
    assert Texts(parts) == texts;
  }

  lemma {:induction false} PartsOf(texts: seq<string>, low: int, high: int, names: Names)
    returns (parts: seq<Part>)
    requires Plain(names) && forall k :: 0 <= k < |texts| ==> PartSpan(texts[k], low, high, names).Some?
    ensures |parts| == |texts| && forall k :: 0 <= k < |parts| ==> IsPart(parts[k], names) && WrittenPart(parts[k]) == texts[k]
  {
    hide PartSpan, WrittenPart, IsPart, Plain;
    if texts == [] {
      parts := [];
    } else {
      var first := ReadIsPart(texts[0], low, high, names);
      var rest := PartsOf(texts[1..], low, high, names);
      parts := [first] + rest;
    }
  }

  const MONTH_NAMES := ["jan", "feb", "mar", "apr", "may", "jun", "jul", "aug", "sep", "oct", "nov", "dec"]

  const DAY_NAMES := ["sun", "mon", "tue", "wed", "thu", "fri", "sat"]

  lemma {:induction false} NamesAreSmall()
    ensures forall i :: 0 <= i < |MONTH_NAMES| ==> AllSmall(MONTH_NAMES[i])
    ensures forall i :: 0 <= i < |DAY_NAMES| ==> AllSmall(DAY_NAMES[i])
  {
  }

  lemma {:induction false} NamesAreListed()
    ensures MONTHS.Keys == set i | 0 <= i < |MONTH_NAMES| :: MONTH_NAMES[i]
    ensures WEEKDAYS.Keys == set i | 0 <= i < |DAY_NAMES| :: DAY_NAMES[i]
  {
    assert MONTH_NAMES[0] == "jan" && MONTH_NAMES[1] == "feb" && MONTH_NAMES[2] == "mar" && MONTH_NAMES[3] == "apr";
    assert MONTH_NAMES[4] == "may" && MONTH_NAMES[5] == "jun" && MONTH_NAMES[6] == "jul" && MONTH_NAMES[7] == "aug";
    assert MONTH_NAMES[8] == "sep" && MONTH_NAMES[9] == "oct" && MONTH_NAMES[10] == "nov" && MONTH_NAMES[11] == "dec";
    assert DAY_NAMES[0] == "sun" && DAY_NAMES[1] == "mon" && DAY_NAMES[2] == "tue" && DAY_NAMES[3] == "wed";
    assert DAY_NAMES[4] == "thu" && DAY_NAMES[5] == "fri" && DAY_NAMES[6] == "sat";
  }

  /** The names of months and days are as the theorems above ask. */
  lemma {:induction false} NamesArePlain()
    ensures Plain(MONTHS) && Plain(WEEKDAYS) && Plain(NO_NAMES)
  {
    hide AllSmall;
    NamesAreSmall();
    NamesAreListed();
    forall name | name in MONTHS
      ensures AllSmall(name)
    {
      assert name in MONTHS.Keys;
    }
    forall name | name in WEEKDAYS
      ensures AllSmall(name)
    {
      assert name in WEEKDAYS.Keys;
    }
  }

  /** Months are counted from 1. */
  lemma {:induction false} MonthsAreCounted()
    ensures forall i :: 0 <= i < 12 ==> MONTH_NAMES[i] in MONTHS && MONTHS[MONTH_NAMES[i]] == i + 1
  {
  }

  /** Days of the week are counted from Sunday, which is 0. */
  lemma {:induction false} DaysAreCounted()
    ensures forall i :: 0 <= i < 7 ==> DAY_NAMES[i] in WEEKDAYS && WEEKDAYS[DAY_NAMES[i]] == i
  {
  }
}
