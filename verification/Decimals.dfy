/** Decimal numerals, as `str` renders and `int` reads them. */
module Decimals {

  predicate IsDigit(c: char) { '0' <= c <= '9' }

  predicate AllDigits(s: string) { forall i :: 0 <= i < |s| ==> IsDigit(s[i]) }

  function Digit(d: nat): (c: char)
    requires d < 10
    ensures IsDigit(c) && c as int - '0' as int == d
  {
    ('0' as int + d) as char
  }

  /** The decimal numeral of `n`, without leading zeros. */
  function Render(n: nat): (s: string)
    ensures s != [] && AllDigits(s)
  {
    if n < 10 then [Digit(n)] else Render(n / 10) + [Digit(n % 10)]
  }

  function Parse(s: string): nat
    requires AllDigits(s)
  {
    if s == [] then 0 else 10 * Parse(s[..|s| - 1]) + (s[|s| - 1] as int - '0' as int)
  }

  /** A numeral that `Render` can produce. */
  predicate Canonical(s: string) {
    s != [] && AllDigits(s) && (|s| > 1 ==> s[0] != '0')
  }

  lemma {:induction false} ParseRender(n: nat)
    ensures Parse(Render(n)) == n
  {
    if n >= 10 {
      ParseRender(n / 10);
      assert Render(n)[..|Render(n)| - 1] == Render(n / 10);
    }
  }

  lemma {:induction false} RenderIsCanonical(n: nat)
    ensures Canonical(Render(n)) && (Render(n)[0] == '0' ==> n == 0)
  {
    if n >= 10 {
      RenderIsCanonical(n / 10);
    }
  }

  lemma {:induction false} ParseIsPositive(s: string)
    requires Canonical(s) && s[0] != '0'
    ensures Parse(s) > 0
  {
    if |s| > 1 {
      ParseIsPositive(s[..|s| - 1]);
    }
  }

  lemma {:induction false} RenderParse(s: string)
    requires Canonical(s)
    ensures Render(Parse(s)) == s
  {
    var init, d := s[..|s| - 1], s[|s| - 1] as int - '0' as int;
    if |s| > 1 {
      RenderParse(init);
      ParseIsPositive(init);
      assert Parse(s) / 10 == Parse(init) && Parse(s) % 10 == d;
      assert s == init + [s[|s| - 1]];
    }
  }

  /** A numeral reads back to itself exactly when it is canonical. */
  lemma {:induction false} RenderParseIff(s: string)
    requires s != [] && AllDigits(s)
    ensures Render(Parse(s)) == s <==> Canonical(s)
  {
    if Canonical(s) {
      RenderParse(s);
    } else {
      RenderIsCanonical(Parse(s));
    }
  }
}
