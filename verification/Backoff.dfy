/** Retry delays: crates/worker/src/backoff.rs in 64-bit arithmetic. */
module Backoff {
  import opened Basics

  const I64_MIN: int := -0x8000_0000_0000_0000
  const I64_MAX: int := 0x7FFF_FFFF_FFFF_FFFF
  const U32: int := 0x1_0000_0000

  predicate I64(n: int) {
    I64_MIN <= n <= I64_MAX
  }

  datatype Policy = Policy(backoff: string, initial: int, max: int)

  /** `Overflow` where a 64-bit operation leaves its range, `Panic` where `clamp` is given a
      maximum below its minimum. */
  datatype Outcome = Delay(ms: int) | Overflow | Panic

  function Pow2(n: nat): (r: int)
    ensures r >= 1
  {
    if n == 0 then 1 else 2 * Pow2(n - 1)
  }

  /** Division that truncates toward zero. */
  function Quarter(n: int): int {
    if n >= 0 then n / 4 else -(-n / 4)
  }

  /** The exponent, after the cast to 32 bits. */
  function Exponent(attempt: int): nat {
    Max(attempt - 1, 0) % U32
  }

  predicate Exponential(policy: Policy) {
    policy.backoff != "fixed" && policy.backoff != "linear"
  }

  /** The delay before jitter, in exact arithmetic. */
  function Base(policy: Policy, attempt: int): int {
    if policy.backoff == "fixed" then policy.initial
    else if policy.backoff == "linear" then policy.initial * attempt
    else policy.initial * Pow2(Exponent(attempt))
  }

  /** Whether computing the base delay stays in range: the power is computed first. */
  predicate BaseFits(policy: Policy, attempt: int) {
    && (Exponential(policy) ==> I64(Pow2(Exponent(attempt))))
    && I64(Base(policy, attempt))
  }

  /** What the random generator may return. */
  predicate Jitters(base: int, jitter: int) {
    var range := Quarter(base);
    if range > 0 then -range <= jitter <= range else jitter == 0
  }

  function Clamp(n: int, max: int): int {
    if n < 0 then 0 else if n > max then max else n
  }

  function ComputeBackoff(policy: Policy, attempt: int, jitter: int): Outcome {
    if !BaseFits(policy, attempt) then Overflow
    else
      var delay := Base(policy, attempt);
      if !I64(delay + jitter) then Overflow
      else if policy.max < 0 then Panic
      else Delay(Clamp(delay + jitter, policy.max))
  }

  ghost predicate Possible(policy: Policy, attempt: int, ms: int) {
    exists jitter: int :: Jitters(Base(policy, attempt), jitter) && ComputeBackoff(policy, attempt, jitter) == Delay(ms)
  }

  predicate Sensible(policy: Policy) {
    I64(policy.initial) && policy.initial >= 0 && I64(policy.max) && policy.max >= 0
  }

  /** A negative base delay becomes no delay at all, and a negative maximum panics. */
  lemma NegativePolicies(policy: Policy, attempt: int, jitter: int)
    requires BaseFits(policy, attempt) && Jitters(Base(policy, attempt), jitter) && I64(Base(policy, attempt) + jitter)
    ensures policy.max >= 0 && Base(policy, attempt) < 0 ==> ComputeBackoff(policy, attempt, jitter) == Delay(0)
    ensures policy.max < 0 <==> ComputeBackoff(policy, attempt, jitter) == Panic
  {
  }

  /** No jitter can make the computation fail, exactly when the delay lengthened by a quarter
      still fits. */
  lemma AlwaysDefined(policy: Policy, attempt: int)
    requires Sensible(policy) && attempt >= 1
    ensures (forall jitter: int :: Jitters(Base(policy, attempt), jitter) ==> ComputeBackoff(policy, attempt, jitter).Delay?)
            <==> BaseFits(policy, attempt) && Base(policy, attempt) + Base(policy, attempt) / 4 <= I64_MAX
  {
    BaseNatural(policy, attempt);
    var b := Base(policy, attempt);
    assert Jitters(b, Quarter(b));
  }

  lemma BaseNatural(policy: Policy, attempt: int)
    requires Sensible(policy) && attempt >= 1
    ensures Base(policy, attempt) >= 0
  {
    if policy.backoff == "linear" {
      Product(policy.initial, attempt);
    } else if Exponential(policy) {
      Product(policy.initial, Pow2(Exponent(attempt)));
    }
  }

  lemma Product(a: int, b: int)
    requires a >= 0 && b >= 0
    ensures a * b >= 0
  {
  }

  /** The delays that can come out are exactly those within a quarter of the base delay, cut
      at the maximum. */
  lemma WithinAQuarter(policy: Policy, attempt: int, ms: int)
    requires Sensible(policy) && attempt >= 1 && BaseFits(policy, attempt)
    requires Base(policy, attempt) + Base(policy, attempt) / 4 <= I64_MAX
    ensures var b := Base(policy, attempt);
            Possible(policy, attempt, ms) <==>
              (if b - b / 4 > policy.max then policy.max else b - b / 4) <= ms <= (if b + b / 4 > policy.max then policy.max else b + b / 4)
    ensures Possible(policy, attempt, ms) ==> 0 <= ms <= policy.max
  {
    BaseNatural(policy, attempt);
    var b := Base(policy, attempt);
    if (if b - b / 4 > policy.max then policy.max else b - b / 4) <= ms <= (if b + b / 4 > policy.max then policy.max else b + b / 4) {
      var jitter := if ms < policy.max then ms - b else if b <= policy.max && policy.max <= b + b / 4 then policy.max - b
                    else if b > policy.max && b - b / 4 <= policy.max then policy.max - b
                    else if b - b / 4 > policy.max then 0 else ms - b;
      assert Jitters(b, jitter);
      assert ComputeBackoff(policy, attempt, jitter) == Delay(ms);
    }
  }

  lemma {:induction false} Pow2Grows(m: nat, n: nat)
    requires m <= n
    ensures Pow2(m) <= Pow2(n)
  {
    if m < n {
      Pow2Grows(m, n - 1);
    }
  }

  lemma Pow2Fits(n: nat)
    requires I64(Pow2(n))
    ensures n <= 62
  {
    if n >= 63 {
      Pow2Grows(63, n);
      assert Pow2(63) == 2 * Pow2(62);
      Pow2At(62);
    }
  }

  lemma Pow2At(n: nat)
    requires n == 62
    ensures Pow2(n) == 0x4000_0000_0000_0000
  {
    assert Pow2(10) == 1024;
    assert Pow2(20) == 1024 * Pow2(10);
    assert Pow2(30) == 1024 * Pow2(20);
    assert Pow2(40) == 1024 * Pow2(30);
    assert Pow2(50) == 1024 * Pow2(40);
    assert Pow2(60) == 1024 * Pow2(50);
  }

  function Power(n: nat): int {
    if n == 0 then 1 else Power(n - 1) + Power(n - 1)
  }

  lemma {:induction false} PowerIsPow2(n: nat)
    ensures Power(n) == Pow2(n)
  {
    if n > 0 {
      PowerIsPow2(n - 1);
    }
  }

  /** Before jitter, a "fixed" delay is the initial one, a "linear" one the initial one times
      the attempt, and any other the initial one doubled for each attempt after the first. */
  lemma DelayByPolicy(policy: Policy, attempt: int)
    requires 1 <= attempt <= 63
    ensures policy.backoff == "fixed" ==> Base(policy, attempt) == policy.initial
    ensures policy.backoff == "linear" ==> Base(policy, attempt) == policy.initial * attempt
    ensures policy.backoff != "fixed" && policy.backoff != "linear" ==> Base(policy, attempt) == policy.initial * Power(attempt - 1)
    ensures policy.backoff != "fixed" && policy.backoff != "linear" ==> Base(policy, 1) == policy.initial
  {
    PowerIsPow2(attempt - 1);
    assert "fixed" != "linear" by { assert "fixed"[0] == 'f' && "linear"[0] == 'l'; }
  }

  /** An exponential delay never gets shorter from one attempt to the next, whatever the
      jitter. */
  lemma ExponentialGrows(policy: Policy, attempt: int, first: int, second: int)
    requires Sensible(policy) && Exponential(policy) && 1 <= attempt
    requires Possible(policy, attempt, first) && Possible(policy, attempt + 1, second)
    ensures first <= second
  {
    PossibleExponent(policy, attempt, first);
    BaseNatural(policy, attempt);
    Doubles(policy, attempt);
    hide Exponent, Pow2, Base, BaseFits;
  }

  lemma Doubles(policy: Policy, attempt: int)
    requires Exponential(policy) && 1 <= attempt && Exponent(attempt) <= 62
    ensures Base(policy, attempt + 1) == 2 * Base(policy, attempt)
  {
    NextExponent(attempt);
    Twice(policy.initial, Exponent(attempt));
    hide Exponent;
  }

  lemma NextExponent(attempt: int)
    requires 1 <= attempt && Exponent(attempt) <= 62
    ensures Exponent(attempt + 1) == Exponent(attempt) + 1
  {
  }

  lemma Twice(initial: int, n: nat)
    ensures initial * Pow2(n + 1) == 2 * (initial * Pow2(n))
  {
    var p := Pow2(n);
    assert Pow2(n + 1) == 2 * p;
    hide Pow2;
    assert initial * (2 * p) == 2 * (initial * p);
  }

  /** That is from one attempt to the next only: from attempt 64 on the power does not fit,
      until the cast makes the delay start again from the initial one. */
  lemma GrowthWraps(initial: int)
    requires I64(initial + initial / 4) && initial >= 0
    ensures var policy := Policy("exponential", initial, I64_MAX);
            (forall ms: int :: !Possible(policy, 64, ms)) && Possible(policy, U32 + 1, initial)
  {
    var policy := Policy("exponential", initial, I64_MAX);
    assert Base(policy, U32 + 1) == initial;
    assert Jitters(initial, 0) && ComputeBackoff(policy, U32 + 1, 0) == Delay(initial);
    assert Exponent(64) == 63;
    if I64(Pow2(63)) {
      Pow2Fits(63);
    }
  }

  // A whole run

  function Sum(waits: seq<int>): int {
    if waits == [] then 0 else Sum(waits[..|waits| - 1]) + waits[|waits| - 1]
  }

  /** The waits of a run whose attempts 1, 2, ... have failed. */
  ghost predicate Waits(policy: Policy, waits: seq<int>) {
    forall i | 0 <= i < |waits| :: Possible(policy, i + 1, waits[i])
  }

  lemma PossibleBounds(policy: Policy, attempt: int, ms: int)
    requires Sensible(policy) && attempt >= 1 && Possible(policy, attempt, ms)
    ensures 0 <= ms <= policy.max && 4 * ms <= 5 * Base(policy, attempt)
  {
    BaseNatural(policy, attempt);
  }

  lemma {:induction false} CappedTotal(policy: Policy, waits: seq<int>)
    requires Sensible(policy) && Waits(policy, waits)
    ensures 0 <= Sum(waits) <= |waits| * policy.max
  {
    hide Possible;
    if waits != [] {
      var n := |waits| - 1;
      CappedTotal(policy, waits[..n]);
      PossibleBounds(policy, n + 1, waits[n]);
      Distribute(policy.max, n, 1);
    }
  }

  /** A run of n attempts waits at most five quarters of initial * (2^(n-1) - 1) between them,
      and never more than n - 1 times the maximum. */
  lemma {:induction false} ExponentialTotal(policy: Policy, waits: seq<int>)
    requires Sensible(policy) && Exponential(policy) && Waits(policy, waits)
    ensures 4 * Sum(waits) <= 5 * (policy.initial * (Pow2(|waits|) - 1))
    ensures Sum(waits) <= |waits| * policy.max
  {
    CappedTotal(policy, waits);
    if waits != [] {
      var n := |waits| - 1;
      ExponentialTotal(policy, waits[..n]);
      PossibleBounds(policy, n + 1, waits[n]);
      LastExponent(policy, waits);
      hide Possible;
      Distribute(policy.initial, Pow2(n) - 1, Pow2(n));
      assert Pow2(n + 1) - 1 == (Pow2(n) - 1) + Pow2(n);
    } else {
      assert Pow2(0) - 1 == 0;
    }
  }

  lemma {:induction false} LastExponent(policy: Policy, waits: seq<int>)
    requires Exponential(policy) && Waits(policy, waits) && waits != []
    ensures |waits| <= 63 && Exponent(|waits|) == |waits| - 1
  {
    var n := |waits|;
    if n > 1 {
      LastExponent(policy, waits[..n - 1]);
    }
    PossibleExponent(policy, n, waits[n - 1]);
    hide Possible;
  }

  lemma PossibleExponent(policy: Policy, attempt: int, ms: int)
    requires Exponential(policy) && Possible(policy, attempt, ms)
    ensures Exponent(attempt) <= 62
  {
    Pow2Fits(Exponent(attempt));
  }

  lemma Distribute(a: int, b: int, c: int)
    ensures a * (b + c) == a * b + a * c
  {
  }

  /** A run with a linear policy waits at most five eighths of initial * n * (n - 1). */
  lemma {:induction false} LinearTotal(policy: Policy, waits: seq<int>)
    requires Sensible(policy) && policy.backoff == "linear" && Waits(policy, waits)
    ensures 8 * Sum(waits) <= 5 * (policy.initial * ((|waits| + 1) * |waits|))
  {
    if waits != [] {
      var n := |waits| - 1;
      LinearTotal(policy, waits[..n]);
      PossibleBounds(policy, n + 1, waits[n]);
      LinearStep(policy.initial, n);
    } else {
      assert (0 + 1) * 0 == 0;
    }
  }

  lemma LinearStep(initial: int, n: nat)
    ensures initial * ((n + 2) * (n + 1)) == initial * ((n + 1) * n) + 2 * (initial * (n + 1))
  {
    assert (n + 2) * (n + 1) == (n + 1) * n + 2 * (n + 1);
    Distribute(initial, (n + 1) * n, 2 * (n + 1));
  }
}
