/** The Agent's bounded exponential reconnect delay. */
module Backoff {
  import opened Primitives

  /** Durations count nanoseconds; the longest is 2^64 - 1 seconds and a fraction. */
  const DURATION_MAX: nat := U64_MAX * 1_000_000_000 + 999_999_999
  const U32_MAX: nat := 0xffff_ffff

  datatype Config = Config(
    initial: nat, max: nat, multiplier: nat, jitter: nat, stableReset: nat, maxAttempts: Option<nat>)

  datatype ConfigError =
    | ZeroInitialDelay | ZeroMaxDelay | InitialDelayExceedsMaximum | ZeroMultiplier
    | JitterTooLarge | ZeroStableSessionReset | ZeroMaxAttempts

  function Validate(c: Config): Result<(), ConfigError> {
    if c.initial == 0 then Err(ZeroInitialDelay)
    else if c.max == 0 then Err(ZeroMaxDelay)
    else if c.initial > c.max then Err(InitialDelayExceedsMaximum)
    else if c.multiplier == 0 then Err(ZeroMultiplier)
    else if c.jitter > 50 then Err(JitterTooLarge)
    else if c.stableReset == 0 then Err(ZeroStableSessionReset)
    else if c.maxAttempts == Some(0) then Err(ZeroMaxAttempts)
    else Ok(())
  }

  /** A validated configuration whose fields are of their types. */
  predicate Valid(c: Config) {
    Validate(c).Ok? && c.max <= DURATION_MAX && c.multiplier <= U32_MAX
  }

  function Pow(m: nat, k: nat): nat {
    if k == 0 then 1 else m * Pow(m, k - 1)
  }

  /** The exponential, capped. */
  function Capped(c: Config, k: nat): nat {
    Min(c.initial * Pow(c.multiplier, k), c.max)
  }

  /** The delay before jitter: the first failure waits the initial delay. */
  function Base(c: Config, failures: nat): nat {
    Capped(c, if failures == 0 then 0 else failures - 1)
  }

  // ------------------------------------------------------------- arithmetic

  lemma MulMonotone(a: nat, b: nat, m: nat)
    requires a <= b
    ensures a * m <= b * m
  {
  }

  lemma {:induction false} PowGrows(m: nat, k: nat)
    requires m >= 2
    ensures Pow(2, k) <= Pow(m, k) && Pow(m, k) >= 1
  {
    if k > 0 {
      PowGrows(m, k - 1);
      MulMonotone(Pow(2, k - 1), Pow(m, k - 1), 2);
      MulMonotone(2, m, Pow(m, k - 1));
    }
  }

  lemma {:induction false} PowOfOne(k: nat)
    ensures Pow(1, k) == 1
  {
    if k > 0 { PowOfOne(k - 1); }
  }

  lemma {:induction false} PowMonotone(m: nat, j: nat, k: nat)
    requires m >= 1 && j <= k
    ensures 1 <= Pow(m, j) <= Pow(m, k)
    decreases k
  {
    if k > 0 {
      PowMonotone(m, if j < k then j else k - 1, k - 1);
      MulMonotone(1, m, Pow(m, k - 1));
    }
  }

  lemma {:induction false} PowOfTwoSum(j: nat, k: nat)
    ensures Pow(2, j + k) == Pow(2, j) * Pow(2, k)
    decreases j
  {
    if j > 0 { PowOfTwoSum(j - 1, k); }
  }

  lemma {:induction false} PowOfTen(k: nat)
    ensures Pow(1000, k) <= Pow(2, 10 * k)
  {
    if k > 0 {
      PowOfTen(k - 1);
      PowOfTwoSum(10, 10 * (k - 1));
      assert Pow(2, 10) == 1024;
      MulMonotone(1000, 1024, Pow(1000, k - 1));
      MulMonotone(Pow(1000, k - 1), Pow(2, 10 * (k - 1)), 1024);
    }
  }

  lemma TwoTo64()
    ensures Pow(2, 64) == U64_MAX + 1
  {
    assert Pow(2, 8) == 0x100;
    PowOfTwoSum(8, 8);
    assert Pow(2, 16) == 0x1_0000;
    PowOfTwoSum(16, 16);
    assert Pow(2, 32) == 0x1_0000_0000;
    PowOfTwoSum(32, 32);
  }

  /** No duration reaches 2^94: 2^64 seconds of 10^9 nanoseconds, and 10^9 < 2^30. */
  lemma DurationsAreShort(k: nat)
    requires k == 94
    ensures DURATION_MAX < Pow(2, k)
  {
    TwoTo64();
    assert Pow(1000, 3) == 1_000_000_000;
    PowOfTen(3);
    PowOfTwoSum(64, 30);
    MulMonotone(1_000_000_000, Pow(2, 30), U64_MAX + 1);
  }

  lemma CapProduct(p: nat, m: nat, max: nat)
    requires m >= 1
    ensures Min(Min(p, max) * m, max) == Min(p * m, max)
  {
    if p > max {
      MulMonotone(1, m, max);
      MulMonotone(max, p, m);
    }
  }

  lemma Regroup(a: nat, b: nat, m: nat)
    ensures a * (m * b) == (a * b) * m
  {
  }

  /** One more multiplication: the cap commutes with the product. */
  lemma CapStep(initial: nat, power: nat, m: nat, max: nat)
    requires m >= 1
    ensures Min(Min(initial * power, max) * m, max) == Min(initial * (m * power), max)
  {
    Regroup(initial, power, m);
    CapProduct(initial * power, m, max);
  }

  // ----------------------------------------------------------------- the loop

  /** The loop: it multiplies until the cap, treats an overflow as the cap, and runs at
      most 94 times whatever the failure count. */
  method DelayBase(c: Config, failures: nat) returns (base: nat, rounds: nat)
    requires Valid(c)
    ensures base == Base(c, failures)
    ensures rounds <= 94
  {
    var exponent := if failures == 0 then 0 else failures - 1;
    base, rounds := c.initial, 0;
    CappedStart(c);
    if c.multiplier > 1 {
      while rounds < exponent
        invariant rounds <= exponent && rounds < 94
        invariant base == Capped(c, rounds)
      {
        base := NextBase(c, base, rounds);
        rounds := rounds + 1;
        EndsByThen(c, rounds);
        if base == c.max {
          CappedGrows(c, rounds, exponent);
          return;
        }
      }
    } else {
      CappedOfOne(c, exponent);
    }
  }

  /** One round: the product, or the cap if the product is no duration at all. */
  method NextBase(c: Config, base: nat, ghost rounds: nat) returns (next: nat)
    requires Valid(c) && c.multiplier > 1 && base == Capped(c, rounds)
    ensures next == Capped(c, rounds + 1)
  {
    CapStep(c.initial, Pow(c.multiplier, rounds), c.multiplier, c.max);
    var product := base * c.multiplier;
    next := Min(if product > DURATION_MAX then c.max else product, c.max);
  }

  lemma CappedStart(c: Config)
    requires Valid(c)
    ensures Capped(c, 0) == c.initial
  {
  }

  lemma CappedOfOne(c: Config, k: nat)
    requires Valid(c) && c.multiplier == 1
    ensures Capped(c, k) == c.initial
  {
    PowOfOne(k);
  }

  lemma CappedGrows(c: Config, j: nat, k: nat)
    requires Valid(c) && j <= k
    ensures 1 <= Capped(c, j) <= Capped(c, k) <= c.max
  {
    PowMonotone(c.multiplier, j, k);
    MulMonotone(Pow(c.multiplier, j), Pow(c.multiplier, k), c.initial);
    MulMonotone(1, Pow(c.multiplier, j), c.initial);
  }

  lemma EndsByThen(c: Config, rounds: nat)
    requires Valid(c) && c.multiplier > 1
    ensures Capped(c, rounds) < c.max ==> rounds < 94
  {
    if Capped(c, rounds) < c.max && rounds >= 94 {
      var k := 94;
      DurationsAreShort(k);
      PowMonotone(2, k, rounds);
      PowGrows(c.multiplier, rounds);
      MulMonotone(1, c.initial, Pow(c.multiplier, rounds));
    }
  }

  // ------------------------------------------------------------------- jitter

  /** The share of `base` that the jitter leaves, with scaling exact. */
  function Jittered(c: Config, base: real, sample: nat): real
    requires c.jitter <= 100
  {
    var lower := base * ((100 - c.jitter) as real / 100.0);
    lower + (base - lower) * (Min(sample, 1000) as real / 1000.0)
  }

  function Factor(c: Config, sample: nat): real
    requires c.jitter <= 100
  {
    var low := (100 - c.jitter) as real / 100.0;
    low + (1.0 - low) * (Min(sample, 1000) as real / 1000.0)
  }

  lemma FactorBounds(c: Config, sample: nat)
    requires c.jitter <= 100
    ensures (100 - c.jitter) as real / 100.0 <= Factor(c, sample) <= 1.0
  {
    var low := (100 - c.jitter) as real / 100.0;
    var share := Min(sample, 1000) as real / 1000.0;
    assert 0.0 <= low <= 1.0 && 0.0 <= share <= 1.0;
    Scale(1.0 - low, 0.0, share);
    Scale(1.0 - low, share, 1.0);
  }

  lemma Scale(x: real, a: real, b: real)
    requires x >= 0.0 && a <= b
    ensures x * a <= x * b
  {
  }

  lemma JitteredIsScaled(c: Config, base: real, sample: nat)
    requires c.jitter <= 100
    ensures Jittered(c, base, sample) == base * Factor(c, sample)
  {
    var low := (100 - c.jitter) as real / 100.0;
    var share := Min(sample, 1000) as real / 1000.0;
    assert (base - base * low) * share == base * ((1.0 - low) * share);
  }

  /** The delay lies between (100 - jitter)% of the capped exponential and all of it,
      and is never zero. */
  lemma DelayIsBounded(c: Config, failures: nat, sample: nat)
    requires Valid(c)
    ensures var base := Base(c, failures) as real; var delay := Jittered(c, base, sample);
            && base * ((100 - c.jitter) as real / 100.0) <= delay <= base <= c.max as real
            && 0.0 < delay
  {
    var base := Base(c, failures) as real;
    var low := (100 - c.jitter) as real / 100.0;
    CappedGrows(c, if failures == 0 then 0 else failures - 1, if failures == 0 then 0 else failures - 1);
    FactorBounds(c, sample);
    JitteredIsScaled(c, base, sample);
    Scale(base, low, Factor(c, sample));
    Scale(base, Factor(c, sample), 1.0);
    Scale(base, 0.5, low);
  }

  lemma JitterKeepsOrder(c: Config, a: real, b: real, sample: nat)
    requires c.jitter <= 50 && a <= b
    ensures Jittered(c, a, sample) <= Jittered(c, b, sample)
  {
    FactorBounds(c, sample);
    JitteredIsScaled(c, a, sample);
    JitteredIsScaled(c, b, sample);
    Scale(Factor(c, sample), a, b);
  }

  /** For the same sample the delay never shrinks as failures mount. */
  lemma DelayNeverShrinks(c: Config, m: nat, n: nat, sample: nat)
    requires Valid(c) && m <= n
    ensures Jittered(c, Base(c, m) as real, sample) <= Jittered(c, Base(c, n) as real, sample)
  {
    CappedGrows(c, if m == 0 then 0 else m - 1, if n == 0 then 0 else n - 1);
    JitterKeepsOrder(c, Base(c, m) as real, Base(c, n) as real, sample);
  }
}
