/**
 Properties of the lux conversion that relate several of its steps or hold
 for every input: the bucket partition, the inclusive bounds, the zero cases,
 the worked value and the output range.
 */
module LuxProperties {
  import opened Bits
  import opened Registers
  import opened Lux

  /**
   With nondecreasing bounds, a ratio lies in exactly one bucket, and that
   bucket is the one the lookup picks.
   */
  lemma ExactlyOneBucket(t: seq<Bucket>, ratio: nat, i: int)
    requires |t| > 0 && Nondecreasing(t)
    ensures InBucket(t, i, ratio) <==> i == BucketIndex(t, ratio)
  {
  }

  /** Every ratio falls in some bucket of either package's table. */
  lemma EveryRatioHasABucket(packageCs: bool, ratio: nat)
    ensures exists i :: InBucket(Table(packageCs), i, ratio)
  {
    var t := Table(packageCs);
    ExactlyOneBucket(t, ratio, BucketIndex(t, ratio));
  }

  /**
   Bounds are inclusive: a ratio exactly equal to the bound of one of the
   first seven rows selects that row.
   */
  lemma BoundSelectsItsOwnRow(packageCs: bool, i: nat)
    requires i < 7
    ensures BucketIndex(Table(packageCs), Table(packageCs)[i].k) == i
    ensures Select(Table(packageCs)[i].k, packageCs) == Table(packageCs)[i].Pair()
  {
    var t := Table(packageCs);
    var ratio := t[i].k;
    assert InBucket(t, i, ratio);
    ExactlyOneBucket(t, ratio, i);
  }

  /**
   Every guard of the package's if/elif chain fails: the ratio is above
   K1..K7 (so no `ratio <= Ki` arm holds) and not above K8 (so the
   `ratio > K8` arm does not hold either). The chain then leaves b and m at
   their initial zero.
   */
  ghost predicate ChainFallsThrough(ratio: nat, packageCs: bool)
  {
    var t := Table(packageCs);
    (forall i :: 0 <= i < 7 ==> t[i].k < ratio) && ratio <= t[7].k
  }

  /**
   No ratio falls through either chain, because K8 equals K7 in both tables:
   a ratio above K7 is above K8.
   */
  lemma NoRatioFallsThrough(ratio: nat, packageCs: bool)
    ensures !ChainFallsThrough(ratio, packageCs)
  {
    var t := Table(packageCs);
    assert t[7].k == t[6].k;
  }

  /** A ratio above the top bound selects the open top row, whose pair is zero. */
  lemma AboveTopBoundSelectsZero(packageCs: bool, ratio: nat)
    requires ratio > 0x29a
    ensures Select(ratio, packageCs) == Coefficients(0, 0)
  {
    var t := Table(packageCs);
    assert InBucket(t, 7, ratio);
    ExactlyOneBucket(t, ratio, 7);
  }

  /** Any gain code other than GAIN_0X multiplies the channel scale by 16. */
  lemma GainMultipliesScale(integration: nat, gain: nat)
    requires gain != GAIN_0X
    ensures ChannelScale(integration, gain) == 16 * ChannelScale(integration, GAIN_0X)
  {
    Pow2Values();
  }

  /** The per-integration scale constants, each with and without gain. */
  lemma ScaleTable(integration: nat, gain: nat)
    ensures integration == INTEG_TIME_13MS ==> ChannelScale(integration, gain) == (if gain == GAIN_0X then 0x7517 else 0x7517 * 16)
    ensures integration == INTEG_TIME_101MS ==> ChannelScale(integration, gain) == (if gain == GAIN_0X then 0x0FE7 else 0x0FE7 * 16)
    ensures integration !in {INTEG_TIME_13MS, INTEG_TIME_101MS} ==> ChannelScale(integration, gain) == (if gain == GAIN_0X then 1024 else 16384)
  {
    Pow2Values();
  }

  /**
   The two integration-time constants are 322/11 and 322/81 of 2^10 rounded
   to the nearest integer (13.7 ms and 101 ms relative to 402 ms).
   */
  lemma ScaleConstantsAreRoundedRatios()
    ensures 2 * 11 * CH_SCALE_TINT0 - 11 <= 2 * 322 * 1024 < 2 * 11 * CH_SCALE_TINT0 + 11
    ensures 2 * 81 * CH_SCALE_TINT1 - 81 <= 2 * 322 * 1024 < 2 * 81 * CH_SCALE_TINT1 + 81
  {
  }

  /** When the rounded ratio exceeds the top bound 0x29a, the lux is zero. */
  lemma InfraredDominatedReadsZero(integration: nat, gain: nat, packageCs: bool, ch0: nat, ch1: nat)
    ensures
      var scale := ChannelScale(integration, gain);
      Ratio(ScaleChannel(ch0, scale), ScaleChannel(ch1, scale)) > 0x29a ==>
        CalculateLux(integration, gain, packageCs, ch0, ch1) == 0
  {
    Pow2Values();
    var scale := ChannelScale(integration, gain);
    var ratio := Ratio(ScaleChannel(ch0, scale), ScaleChannel(ch1, scale));
    if ratio > 0x29a {
      AboveTopBoundSelectsZero(packageCs, ratio);
    }
  }

  /**
   The worked value: T/FN/CL package, 402 ms, 16x gain, ch0 = 1000 and
   ch1 = 100 scale to 16000 and 1600, round to ratio 51, fall in the first
   bucket and give 443 lux.
   */
  lemma WorkedExample()
    ensures ChannelScale(INTEG_TIME_402MS, GAIN_16X) == 16384
    ensures ScaleChannel(1000, 16384) == 16000 && ScaleChannel(100, 16384) == 1600
    ensures Ratio(16000, 1600) == 51
    ensures Select(51, false) == Coefficients(0x1f2, 0x1be)
    ensures CalculateLux(INTEG_TIME_402MS, GAIN_16X, false, 1000, 100) == 443
  {
    Pow2Values();
  }

  /**
   Bound on the lux of 16-bit counts: the largest scaled channel 0
   (0xFFFF at 13.7 ms with gain) times the largest b of either table, rounded.
   */
  const MAX_LUX: nat := 1202728

  /**
   For 16-bit raw counts the lux is at most MAX_LUX, under 2^32, whatever
   the integration and gain codes and the package.
   */
  lemma LuxBoundedForU16(integration: nat, gain: nat, packageCs: bool, ch0: nat, ch1: nat)
    requires ch0 < 0x1_0000 && ch1 < 0x1_0000
    ensures CalculateLux(integration, gain, packageCs, ch0, ch1) <= MAX_LUX < 0x1_0000_0000
  {
    Pow2Values();
    var scale := ChannelScale(integration, gain);
    var c0 := ScaleChannel(ch0, scale);
    var c1 := ScaleChannel(ch1, scale);
    var c := Select(Ratio(c0, c1), packageCs);
    assert c.b <= 0x282;
    MulMonotone(ch0, scale, 0xFFFF, 16 * 0x7517);
    assert c0 * 1024 <= 0xFFFF * 16 * 0x7517;
    assert c0 <= 30693931;
    MulMonotone(c0, c.b, 30693931, 0x282);
    var temp := Weighted(c0, c1, c);
    assert temp <= 30693931 * 0x282;
  }
}
