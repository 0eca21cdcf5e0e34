/** Retry policies for steps and compensations: an attempt budget and a capped, jittered
    exponential backoff. Delays are reals; the random draw is a parameter. */
module Retry {

  /** A raised exception: its class, the names of that class and all its bases, and its message. */
  datatype Exc = Exc(kind: string, bases: set<string>, message: string)

  const ALWAYS_FINAL := {"NonRetryable", "SerializationError"}

  datatype RetryPolicy = RetryPolicy(
    maxAttempts: int,
    initialInterval: real,
    backoff: real,
    maxInterval: real,
    jitter: real,
    nonRetryable: set<string>)
  {
    predicate ShouldRetry(exc: Exc, attempt: nat) {
      if exc.bases * ALWAYS_FINAL != {} then false
      else if exc.bases * nonRetryable != {} then false
      else attempt < maxAttempts
    }

    /** The wait before the attempt after `attempt`, without jitter. */
    function BaseDelay(attempt: nat): real {
      var exponent := if attempt >= 1 then attempt - 1 else 0;
      Min(initialInterval * Power(backoff, exponent), maxInterval)
    }

    /** The jittered wait; `draw` stands for one uniform draw, scaled to [-1, 1]. */
    function Delay(attempt: nat, draw: real): real {
      Jittered(BaseDelay(attempt), jitter, draw)
    }

    /** The number of the last attempt a step can reach. */
    function Budget(): nat {
      if maxAttempts < 1 then 1 else maxAttempts
    }
  }

  function Min(a: real, b: real): real { if a <= b then a else b }

  function Max(a: real, b: real): real { if a >= b then a else b }

  function Abs(a: real): real { if a >= 0.0 then a else -a }

  function Jittered(base: real, jitter: real, draw: real): real {
    Max(if jitter != 0.0 then base * (1.0 + jitter * draw) else base, 0.0)
  }

  /** The longest wait that any draw makes of `base`. */
  function Widest(base: real, jitter: real): real {
    Max(base + Abs(base * jitter), 0.0)
  }

  /** `maxInterval` with its jitter. */
  function Cap(maxInterval: real, jitter: real): real {
    Max(maxInterval, 0.0) * (1.0 + Abs(jitter))
  }

  function Power(b: real, n: nat): real {
    if n == 0 then 1.0 else b * Power(b, n - 1)
  }

  lemma {:induction false} MulMono(a: real, b: real, c: real)
    requires a <= b && 0.0 <= c
    ensures a * c <= b * c
  {
    assert 0.0 <= (b - a) * c;
  }

  lemma {:induction false} PowerNonNegative(b: real, n: nat)
    requires 0.0 <= b
    ensures 0.0 <= Power(b, n)
  {
    if n > 0 {
      PowerNonNegative(b, n - 1);
      MulMono(0.0, b, Power(b, n - 1));
    }
  }

  lemma {:induction false} Scaled(x: real, draw: real)
    requires -1.0 <= draw <= 1.0
    ensures x * draw <= Abs(x)
  {
    if x >= 0.0 { MulMono(draw, 1.0, x); } else { MulMono(-draw, 1.0, -x); }
  }

  lemma {:induction false} JitterIsBounded(base: real, jitter: real, draw: real)
    requires -1.0 <= draw <= 1.0
    ensures 0.0 <= Jittered(base, jitter, draw) <= Widest(base, jitter)
    ensures Jittered(base, jitter, Farthest(base, jitter)) == Widest(base, jitter)
  {
    Scaled(base * jitter, draw);
    assert base * (1.0 + jitter * draw) == base + (base * jitter) * draw;
    assert base * (1.0 + jitter * -1.0) == base - base * jitter;
  }

  /** The draw that makes a wait longest. */
  function Farthest(base: real, jitter: real): real {
    if base * jitter >= 0.0 then 1.0 else -1.0
  }

  /** Whatever the numbers of the policy: no draw takes a wait below 0 or above the widest one, and one
      draw gives the widest. That one is at most `maxInterval` and its jitter, unless a negative delay
      meets a jitter above 1, which turns it around. */
  lemma {:induction false} DelayIsCapped(p: RetryPolicy, attempt: nat, draw: real)
    requires -1.0 <= draw <= 1.0
    ensures var base := p.BaseDelay(attempt);
            && 0.0 <= p.Delay(attempt, draw) <= Widest(base, p.jitter)
            && p.Delay(attempt, Farthest(base, p.jitter)) == Widest(base, p.jitter)
            && (0.0 <= base || Abs(p.jitter) <= 1.0 ==> Widest(base, p.jitter) <= Cap(p.maxInterval, p.jitter))
  {
    BaseIsCapped(p, attempt);
    hide RetryPolicy.BaseDelay, Jittered, Widest, Cap, Farthest;
    JitterIsBounded(p.BaseDelay(attempt), p.jitter, draw);
    if 0.0 <= p.BaseDelay(attempt) || Abs(p.jitter) <= 1.0 {
      WidestIsCapped(p.BaseDelay(attempt), p.jitter, p.maxInterval);
    }
  }

  lemma {:induction false} BaseIsCapped(p: RetryPolicy, attempt: nat)
    ensures p.BaseDelay(attempt) <= p.maxInterval
  {
  }

  lemma {:induction false} AbsOfProduct(base: real, jitter: real)
    ensures Abs(base * jitter) == Abs(base) * Abs(jitter)
  {
    if base >= 0.0 {
      if jitter >= 0.0 { MulMono(0.0, jitter, base); } else { MulMono(0.0, -jitter, base); }
    } else {
      if jitter >= 0.0 { MulMono(0.0, jitter, -base); } else { MulMono(0.0, -jitter, -base); }
    }
  }

  lemma {:induction false} Product(a: real, b: real)
    requires 0.0 <= a && 0.0 <= b
    ensures 0.0 <= a * b
  {
  }

  lemma {:induction false} WidestIsCapped(base: real, jitter: real, maxInterval: real)
    requires base <= maxInterval && (0.0 <= base || Abs(jitter) <= 1.0)
    ensures Widest(base, jitter) <= Cap(maxInterval, jitter)
  {
    AbsOfProduct(base, jitter);
    if base >= 0.0 {
      Outwards(base, Abs(jitter), Max(maxInterval, 0.0));
    } else {
      Inwards(base, Abs(jitter), Max(maxInterval, 0.0));
    }
  }

  lemma {:induction false} Outwards(base: real, j: real, top: real)
    requires 0.0 <= base <= top && 0.0 <= j
    ensures 0.0 <= base + base * j <= top * (1.0 + j)
  {
    MulMono(base, top, 1.0 + j);
    Product(base, j);
    assert base + base * j == base * (1.0 + j);
  }

  lemma {:induction false} Inwards(base: real, j: real, top: real)
    requires base < 0.0 <= top && 0.0 <= j <= 1.0
    ensures base + (-base) * j <= 0.0 <= top * (1.0 + j)
  {
    MulMono(j, 1.0, -base);
    Product(top, 1.0 + j);
    assert (-base) * j == j * (-base);
  }

  /** With a backoff of at least 1 the waits never shrink, and a wait that reached the cap stays there. */
  lemma {:induction false} BackoffGrows(p: RetryPolicy, attempt: nat)
    requires 0.0 <= p.initialInterval && 1.0 <= p.backoff && 1 <= attempt
    ensures p.BaseDelay(attempt) <= p.BaseDelay(attempt + 1)
    ensures p.BaseDelay(attempt) == p.maxInterval ==> p.BaseDelay(attempt + 1) == p.maxInterval
  {
    var grown := Power(p.backoff, attempt - 1);
    PowerNonNegative(p.backoff, attempt - 1);
    MulMono(1.0, p.backoff, grown);
    MulMono(grown, Power(p.backoff, attempt), p.initialInterval);
  }

  /** The first wait is the initial interval, each further one the former times the backoff factor, until the
      cap; without a draw to either side the wait is just that. */
  lemma {:induction false} WaitsMultiply(p: RetryPolicy, attempt: nat)
    requires 1 <= attempt
    ensures p.BaseDelay(1) == if p.initialInterval <= p.maxInterval then p.initialInterval else p.maxInterval
    ensures p.BaseDelay(attempt) < p.maxInterval ==>
              p.BaseDelay(attempt + 1) == if p.BaseDelay(attempt) * p.backoff <= p.maxInterval
                                          then p.BaseDelay(attempt) * p.backoff else p.maxInterval
    ensures p.Delay(attempt, 0.0) == if p.BaseDelay(attempt) >= 0.0 then p.BaseDelay(attempt) else 0.0
  {
    var grown := Power(p.backoff, attempt - 1);
    assert Power(p.backoff, attempt) == p.backoff * grown;
    assert p.initialInterval * (p.backoff * grown) == p.initialInterval * grown * p.backoff;
    assert Power(p.backoff, 0) == 1.0;
  }
}
