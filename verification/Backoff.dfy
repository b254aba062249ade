/** The delay before a retry: doubling up to a maximum, plus jitter, in 64-bit nanoseconds. */
module Backoff {

  const MAX_INT64 := 0x7FFF_FFFF_FFFF_FFFF
  const TWO_TO_THE_64 := 0x1_0000_0000_0000_0000

  /** Every arithmetic result of this type is checked to be a 64-bit value. */
  newtype int64 = x: int | -0x8000_0000_0000_0000 <= x <= 0x7FFF_FFFF_FFFF_FFFF

  /** What a 64-bit addition leaves of a sum of two non-negative values. */
  function Wrapped(sum: int): int {
    if sum <= MAX_INT64 then sum else sum - TWO_TO_THE_64
  }

  function Power2(n: nat): nat {
    if n == 0 then 1 else 2 * Power2(n - 1)
  }

  function Min(a: int, b: int): int {
    if a <= b then a else b
  }

  /** The configured bounds as the function first straightens them. */
  function ClampedMinimum(minimum: int): int {
    if minimum <= 0 then 1 else minimum
  }

  function ClampedMaximum(minimum: int, maximum: int): int {
    if maximum < ClampedMinimum(minimum) then ClampedMinimum(minimum) else maximum
  }

  /** The closed form of the delay without jitter. */
  function Base(minimum: int, maximum: int, attempt: int): int {
    Min(ClampedMinimum(minimum) * Power2(if attempt < 0 then 0 else attempt), ClampedMaximum(minimum, maximum))
  }

  lemma {:induction false} Power2Monotone(m: nat, n: nat)
    requires m <= n
    ensures 1 <= Power2(m) <= Power2(n)
    decreases n
  {
    if m < n {
      Power2Monotone(m, n - 1);
    } else if n > 0 {
      Power2Monotone(n - 1, n - 1);
    }
  }

  lemma ScaleMonotone(a: int, x: int, y: int)
    requires 0 <= a && x <= y
    ensures a * x <= a * y
  {
  }

  lemma BaseBounds(minimum: int, maximum: int, attempt: int)
    ensures 1 <= ClampedMinimum(minimum) <= Base(minimum, maximum, attempt) <= ClampedMaximum(minimum, maximum)
  {
    var n: nat := if attempt < 0 then 0 else attempt;
    Power2Monotone(0, n);
    ScaleMonotone(ClampedMinimum(minimum), 1, Power2(n));
  }

  lemma BaseNondecreasing(minimum: int, maximum: int, earlier: int, later: int)
    requires earlier <= later
    ensures Base(minimum, maximum, earlier) <= Base(minimum, maximum, later)
  {
    var m: nat := if earlier < 0 then 0 else earlier;
    var n: nat := if later < 0 then 0 else later;
    Power2Monotone(m, n);
    ScaleMonotone(ClampedMinimum(minimum), Power2(m), Power2(n));
  }

  /** The closed form, attempt by attempt: it starts at the minimum and doubles up to the maximum; bounds
      that make no sense and negative attempts are straightened first. */
  lemma BaseRecurrence(minimum: int, maximum: int, attempt: int)
    ensures 0 < minimum <= maximum && attempt <= 0 ==> Base(minimum, maximum, attempt) == minimum
    ensures 0 < minimum <= maximum && attempt >= 0 ==>
      var next := 2 * Base(minimum, maximum, attempt);
      Base(minimum, maximum, attempt + 1) == if next <= maximum then next else maximum
    ensures minimum <= 0 ==> Base(minimum, maximum, attempt) == Base(1, maximum, attempt)
    ensures maximum < minimum && 0 < minimum ==> Base(minimum, maximum, attempt) == minimum
  {
    var n: nat := if attempt < 0 then 0 else attempt;
    var low := ClampedMinimum(minimum);
    Power2Monotone(0, n);
    ScaleMonotone(low, 1, Power2(n));
    Regroup(low, 2, Power2(n));
  }

  /** The delay: `draw` is the random source, of which only the remainder below the jitter limit
      matters. The last addition is written out because it can leave 64 bits. */
  function DelayOf(minimum: int, maximum: int, attempt: int, draw: nat): int {
    var base := Base(minimum, maximum, attempt);
    if base < 4 then base else Wrapped(base + draw % (base / 4))
  }

  /** The value the doubling loop holds after n rounds. */
  function Doubled(low: int, n: nat): int {
    if n == 0 then low else 2 * Doubled(low, n - 1)
  }

  lemma {:induction false} DoubledIsProduct(low: int, n: nat)
    ensures Doubled(low, n) == low * Power2(n)
  {
    if n > 0 {
      DoubledIsProduct(low, n - 1);
      calc {
        2 * (low * Power2(n - 1));
      == { Regroup(2, low, Power2(n - 1)); }
        low * (2 * Power2(n - 1));
      }
    }
  }

  lemma Regroup(a: int, b: int, c: int)
    ensures a * (b * c) == b * (a * c)
  {
  }

  /** Once the maximum is reached it stays. */
  lemma {:induction false} DoubledMonotone(low: int, m: nat, n: nat)
    requires 0 < low && m <= n
    ensures 0 < Doubled(low, m) <= Doubled(low, n)
    decreases n
  {
    if m < n {
      DoubledMonotone(low, m, n - 1);
    } else if n > 0 {
      DoubledMonotone(low, n - 1, n - 1);
    }
  }

  /** The early exit of the doubling loop changes nothing. */
  method WithoutJitter(minimum: int64, maximum: int64, attempt: int) returns (backoff: int64)
    ensures backoff as int == Base(minimum as int, maximum as int, attempt)
  {
    var low: int64 := if minimum <= 0 then 1 else minimum;
    var high: int64 := if maximum < low then low else maximum;
    var rounds: nat := if attempt < 0 then 0 else attempt;
    DoubledIsProduct(low as int, rounds);
    backoff := low;
    for n := 0 to rounds
      invariant low <= backoff <= high
      invariant backoff as int == Doubled(low as int, n)
    {
      if backoff >= high || backoff > high / 2 {
        DoublingExceeds(backoff as int, high as int);
        DoubledMonotone(low as int, n + 1, rounds);
        return high;
      }
      backoff := backoff * 2;
    }
  }

  /** No intermediate step but the last leaves 64 bits. */
  method Delay(minimum: int64, maximum: int64, attempt: int, draw: nat) returns (delay: int64)
    ensures delay as int == DelayOf(minimum as int, maximum as int, attempt, draw)
    ensures IsDelay(minimum as int, maximum as int, attempt, delay as int)
  {
    var backoff := WithoutJitter(minimum, maximum, attempt);
    BaseBounds(minimum as int, maximum as int, attempt);
    var jitterLimit := backoff / 4;
    if jitterLimit <= 0 {
      return backoff;
    }
    var jitter := draw % (jitterLimit as int);
    delay := Wrapped(backoff as int + jitter) as int64;
  }

  lemma DoublingExceeds(backoff: int, high: int)
    requires backoff >= high || backoff > high / 2
    requires 0 < backoff <= high
    ensures high <= 2 * backoff
  {
  }

  /** Whatever is drawn, the delay lies in [base, base + base/4), exactly when the largest such
      sum fits in 64 bits. */
  lemma DelayInRangeExactlyWhen(minimum: int, maximum: int, attempt: int)
    requires maximum <= MAX_INT64 && minimum <= MAX_INT64
    ensures var base := Base(minimum, maximum, attempt);
            (forall draw: nat :: base <= DelayOf(minimum, maximum, attempt, draw) < base + (if base < 4 then 1 else base / 4))
            <==> base < 4 || base + base / 4 - 1 <= MAX_INT64
  {
    var base := Base(minimum, maximum, attempt);
    BaseBounds(minimum, maximum, attempt);
    if base >= 4 && base + base / 4 - 1 > MAX_INT64 {
      var draw: nat := base / 4 - 1;
      assert draw % (base / 4) == draw by { RemainderOfSmaller(draw, base / 4); }
      assert DelayOf(minimum, maximum, attempt, draw) < base;
    }
  }

  lemma RemainderOfSmaller(a: nat, b: nat)
    requires a < b
    ensures a % b == a
  {
  }

  /** A delay the backoff can give after an attempt. */
  ghost predicate IsDelay(minimum: int, maximum: int, attempt: int, delay: int) {
    exists draw: nat :: DelayOf(minimum, maximum, attempt, draw) == delay
  }

  /** Every length in the range can be drawn, and is taken as drawn. */
  lemma DelayTakesDraw(minimum: int, maximum: int, attempt: int, draw: nat)
    ensures var base := Base(minimum, maximum, attempt);
            && (base < 4 ==> DelayOf(minimum, maximum, attempt, draw) == base)
            && (base >= 4 && draw < base / 4 && base + draw <= 9223372036854775807 ==>
                  DelayOf(minimum, maximum, attempt, draw) == base + draw)
            && (base >= 4 && draw < base / 4 && base + draw > 9223372036854775807 ==>
                  DelayOf(minimum, maximum, attempt, draw) == base + draw - 18446744073709551616)
  {
    var base := Base(minimum, maximum, attempt);
    if base >= 4 && draw < base / 4 { RemainderOfSmaller(draw, base / 4); }
  }

  ghost predicate InRange(minimum: int, maximum: int, attempt: int, draw: nat) {
    var base := Base(minimum, maximum, attempt);
    base <= DelayOf(minimum, maximum, attempt, draw) < base + (if base < 4 then 1 else base / 4)
  }

  lemma {:induction false} Power2Exceeds(n: nat)
    ensures n < Power2(n)
  {
    if n > 0 {
      Power2Exceeds(n - 1);
    }
  }

  /** Enough attempts reach the maximum. */
  lemma BaseReachesMaximum(minimum: int, maximum: int)
    requires 0 < minimum <= maximum
    ensures Base(minimum, maximum, maximum) == maximum
  {
    Power2Exceeds(maximum);
    ScaleMonotone(Power2(maximum), 1, minimum);
  }

  /** A configuration keeps every delay in range, at all attempts and draws, exactly when its maximum
      leaves room for its jitter. */
  lemma AllDelaysInRangeExactlyWhen(minimum: int, maximum: int)
    requires 0 < minimum <= maximum <= MAX_INT64
    ensures (forall attempt: int, draw: nat :: InRange(minimum, maximum, attempt, draw))
            <==> maximum < 4 || maximum + maximum / 4 - 1 <= MAX_INT64
  {
    if maximum < 4 || maximum + maximum / 4 - 1 <= MAX_INT64 {
      forall attempt: int, draw: nat
        ensures InRange(minimum, maximum, attempt, draw)
      {
        BaseBounds(minimum, maximum, attempt);
        DelayInRangeExactlyWhen(minimum, maximum, attempt);
      }
    } else {
      BaseReachesMaximum(minimum, maximum);
      DelayInRangeExactlyWhen(minimum, maximum, maximum);
      var draw: nat :| !(maximum <= DelayOf(minimum, maximum, maximum, draw) < maximum + maximum / 4);
      assert !InRange(minimum, maximum, maximum, draw);
    }
  }

  /** A retry never waits less than the configured minimum nor 1.25 times the maximum or more, at
      any attempt, when the configured maximum leaves room for its jitter. */
  lemma ConfiguredDelayBounds(minimum: int, maximum: int, attempt: int, draw: nat)
    requires 0 < minimum <= maximum && maximum + maximum / 4 <= MAX_INT64
    ensures minimum <= DelayOf(minimum, maximum, attempt, draw) <= maximum + maximum / 4
  {
    BaseBounds(minimum, maximum, attempt);
    DelayInRangeExactlyWhen(minimum, maximum, attempt);
  }

  /** Such a maximum is accepted by the configuration check, which only wants it positive and at
      least the minimum: the delay can then come out negative. */
  lemma JitterCanOverflow()
    ensures exists draw: nat :: DelayOf(MAX_INT64, MAX_INT64, 0, draw) < 0
  {
    assert Power2(0) == 1;
    assert Base(MAX_INT64, MAX_INT64, 0) == MAX_INT64;
    RemainderOfSmaller(1, MAX_INT64 / 4);
    assert DelayOf(MAX_INT64, MAX_INT64, 0, 1) < 0;
  }
}
