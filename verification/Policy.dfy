/** Retry policies, the key a namespace pins them under, and the retry delay. */
module Policy {
  import opened Decimal

  datatype Backoff =
    | NoBackoff
    | Fixed(delayMs: nat)
    | Exponential(initialMs: nat, multiplier: nat, maxMs: nat)

  datatype RetryPolicy =
    | Never
    | Count(maxRetries: nat, backoff: Backoff)
    | Infinite(backoff: Backoff)

  function BackoffKey(b: Backoff): string {
    match b
    case NoBackoff => "none"
    case Fixed(d) => "fixed:" + Format(d)
    case Exponential(i, m, x) => "exponential:" + (Format(i) + ":" + (Format(m) + ":" + Format(x)))
  }

  function PolicyKey(p: RetryPolicy): string {
    match p
    case Never => "never"
    case Count(m, b) => "count:" + (Format(m) + ":" + BackoffKey(b))
    case Infinite(b) => "infinite:" + BackoffKey(b)
  }

  lemma BackoffKeyInjective(a: Backoff, b: Backoff)
    requires BackoffKey(a) == BackoffKey(b)
    ensures a == b
  {
    assert BackoffKey(a)[0] == BackoffKey(b)[0];
    match (a, b)
    case (Fixed(d), Fixed(e)) =>
      AppendInjective("fixed:", Format(d), Format(e));
      FormatInjective(d, e);
    case (Exponential(i, m, x), Exponential(j, n, y)) =>
      var s, t := Format(m) + ":" + Format(x), Format(n) + ":" + Format(y);
      AppendInjective("exponential:", Format(i) + ":" + s, Format(j) + ":" + t);
      FieldInjective(i, s, j, t);
      FieldInjective(m, Format(x), n, Format(y));
      FormatInjective(x, y);
    case _ =>
  }

  /** Two workers that pass the policy check of one namespace run the very same policy. */
  lemma PolicyKeyInjective(p: RetryPolicy, q: RetryPolicy)
    requires PolicyKey(p) == PolicyKey(q)
    ensures p == q
  {
    assert PolicyKey(p)[0] == PolicyKey(q)[0];
    match (p, q)
    case (Count(m, a), Count(n, b)) =>
      AppendInjective("count:", Format(m) + ":" + BackoffKey(a), Format(n) + ":" + BackoffKey(b));
      FieldInjective(m, BackoffKey(a), n, BackoffKey(b));
      BackoffKeyInjective(a, b);
    case (Infinite(a), Infinite(b)) =>
      AppendInjective("infinite:", BackoffKey(a), BackoffKey(b));
      BackoffKeyInjective(a, b);
    case _ =>
  }

  /** The decision of the script: does failure number `failures` still get a retry? */
  predicate Retries(p: RetryPolicy, failures: int) {
    match p
    case Never => false
    case Count(m, _) => failures <= m
    case Infinite(_) => true
  }

  function Min(a: int, b: int): int {
    if a <= b then a else b
  }

  function Max(a: int, b: int): int {
    if a <= b then b else a
  }

  /** The value of `delay_ms` after the script's loop, for failure number `failures`. */
  function CappedDelay(initial: nat, multiplier: nat, max: nat, failures: int): nat
    decreases failures
  {
    if failures <= 1 then initial else Min(CappedDelay(initial, multiplier, max, failures - 1) * multiplier, max)
  }

  /** The delay of a retry in milliseconds; 0 means the job goes straight back to `ready`. */
  function DelayMs(b: Backoff, failures: int): nat {
    match b
    case NoBackoff => 0
    case Fixed(d) => d
    case Exponential(i, m, x) => CappedDelay(i, m, x, failures)
  }

  function BackoffOf(p: RetryPolicy): Backoff {
    match p
    case Never => NoBackoff
    case Count(_, b) => b
    case Infinite(b) => b
  }

  function Pow(b: nat, e: nat): nat {
    if e == 0 then 1 else b * Pow(b, e - 1)
  }

  lemma MulMonotone(a: nat, b: nat, m: nat)
    requires a <= b
    ensures a * m <= b * m
  {
    assert b * m == a * m + (b - a) * m;
  }

  lemma MulRegroup(a: nat, b: nat, c: nat)
    ensures a * b * c == a * (c * b)
  {
  }

  /** min(min(x, cap) * m, cap) == min(x * m, cap), also for m == 0. */
  lemma CapOnce(x: nat, m: nat, cap: nat)
    ensures Min(Min(x, cap) * m, cap) == Min(x * m, cap)
  {
    if cap < x {
      if m == 0 {
        assert x * m == cap * m == 0;
      } else {
        MulMonotone(cap, x, m);
        MulMonotone(1, m, cap);
      }
    }
  }

  /** The loop computes the capped power: from the second failure on the delay is
      min(initial * multiplier^(n-1), max), for every multiplier including 0 and 1. The first delay is not capped. */
  lemma {:induction false} BackoffClosedForm(initial: nat, multiplier: nat, max: nat, failures: nat)
    requires failures >= 1
    ensures failures == 1 ==> CappedDelay(initial, multiplier, max, failures) == initial
    ensures failures >= 2 ==>
              CappedDelay(initial, multiplier, max, failures) == Min(initial * Pow(multiplier, failures - 1), max)
  {
    if failures == 2 {
      assert Pow(multiplier, 1) == multiplier;
    } else if failures > 2 {
      BackoffClosedForm(initial, multiplier, max, failures - 1);
      var p := Pow(multiplier, failures - 2);
      CapOnce(initial * p, multiplier, max);
      MulRegroup(initial, p, multiplier);
    }
  }

  lemma BackoffBounded(initial: nat, multiplier: nat, max: nat, failures: nat)
    requires failures >= 1
    ensures CappedDelay(initial, multiplier, max, failures) <= Max(initial, max)
  {
  }

  lemma {:induction false} BackoffMonotone(initial: nat, multiplier: nat, max: nat, n: nat, m: nat)
    requires 1 <= n <= m
    requires multiplier >= 1 && initial <= max
    ensures CappedDelay(initial, multiplier, max, n) <= CappedDelay(initial, multiplier, max, m)
  {
    if n < m {
      BackoffMonotone(initial, multiplier, max, n, m - 1);
      BackoffBounded(initial, multiplier, max, m - 1);
      MulMonotone(1, multiplier, CappedDelay(initial, multiplier, max, m - 1));
    }
  }

  /** What a policy means by the delay after failure number `n`, without the script's loop. */
  predicate IsDelay(b: Backoff, n: nat, delay: nat)
    requires n >= 1
  {
    match b
    case NoBackoff => delay == 0
    case Fixed(d) => delay == d
    case Exponential(initial, multiplier, max) =>
      delay == if n == 1 then initial else Min(initial * Pow(multiplier, n - 1), max)
  }

  lemma DelayIs(b: Backoff, n: nat)
    requires n >= 1
    ensures IsDelay(b, n, DelayMs(b, n))
  {
    if b.Exponential? {
      BackoffClosedForm(b.initialMs, b.multiplier, b.maxMs, n);
    }
  }

  /** The policy allows no run after failure number `n`. */
  predicate GivesUp(p: RetryPolicy, n: nat) {
    match p
    case Never => true
    case Count(allowed, _) => n > allowed
    case Infinite(_) => false
  }
}
