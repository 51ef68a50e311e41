/**
 The driver's fixed-point lux conversion (`TSL2561.calculate_lux`): two raw
 ADC counts, the integration-time and gain codes the device is configured
 with, and the package type go in; an integer lux value comes out. Only
 integer shifts, multiplies and one division are used.
 */
module Lux {
  import opened Bits
  import opened Registers

  const LUX_SCALE: nat := 14        // lux carries 2^14 fixed-point fraction
  const RATIO_SCALE: nat := 9       // channel ratio is scaled by 2^9
  const CH_SCALE: nat := 10         // channel values are scaled by 2^10
  const CH_SCALE_TINT0: nat := 0x7517  // 322/11 * 2^10, for 13.7 ms
  const CH_SCALE_TINT1: nat := 0x0FE7  // 322/81 * 2^10, for 101 ms

  // T, FN and CL package: ratio bounds K, intercepts B and slopes M.
  const K1T: nat := 0x0040
  const B1T: nat := 0x01f2
  const M1T: nat := 0x01be
  const K2T: nat := 0x0080
  const B2T: nat := 0x0214
  const M2T: nat := 0x02d1
  const K3T: nat := 0x00c0
  const B3T: nat := 0x023f
  const M3T: nat := 0x037b
  const K4T: nat := 0x0100
  const B4T: nat := 0x0270
  const M4T: nat := 0x03fe
  const K5T: nat := 0x0138
  const B5T: nat := 0x016f
  const M5T: nat := 0x01fc
  const K6T: nat := 0x019a
  const B6T: nat := 0x00d2
  const M6T: nat := 0x00fb
  const K7T: nat := 0x029a
  const B7T: nat := 0x0018
  const M7T: nat := 0x0012
  const K8T: nat := 0x029a
  const B8T: nat := 0x0000
  const M8T: nat := 0x0000

  // CS package.
  const K1C: nat := 0x0043
  const B1C: nat := 0x0204
  const M1C: nat := 0x01ad
  const K2C: nat := 0x0085
  const B2C: nat := 0x0228
  const M2C: nat := 0x02c1
  const K3C: nat := 0x00c8
  const B3C: nat := 0x0253
  const M3C: nat := 0x0363
  const K4C: nat := 0x010a
  const B4C: nat := 0x0282
  const M4C: nat := 0x03df
  const K5C: nat := 0x014d
  const B5C: nat := 0x0177
  const M5C: nat := 0x01dd
  const K6C: nat := 0x019a
  const B6C: nat := 0x0101
  const M6C: nat := 0x0127
  const K7C: nat := 0x029a
  const B7C: nat := 0x0037
  const M7C: nat := 0x002b
  const K8C: nat := 0x029a
  const B8C: nat := 0x0000
  const M8C: nat := 0x0000

  /** The (b, m) pair that weights channel 0 and channel 1. */
  datatype Coefficients = Coefficients(b: nat, m: nat)

  /** One row of a coefficient table: the bucket's inclusive upper ratio bound and its pair. */
  datatype Bucket = Bucket(k: nat, b: nat, m: nat)
  {
    function Pair(): Coefficients { Coefficients(b, m) }
  }

  /** Ratio bounds never decrease along the table. */
  ghost predicate Nondecreasing(t: seq<Bucket>)
  {
    forall i, j :: 0 <= i < j < |t| ==> t[i].k <= t[j].k
  }

  /**
   The shape both packages' tables have: eight rows, bounds nondecreasing,
   the first seven strictly increasing, and an open top row that repeats the
   seventh bound and contributes nothing.
   */
  ghost predicate WellFormedTable(t: seq<Bucket>)
  {
    && |t| == 8
    && Nondecreasing(t)
    && (forall i :: 0 < i < 7 ==> t[i - 1].k < t[i].k)
    && t[7].k == t[6].k
    && t[7].Pair() == Coefficients(0, 0)
  }

  /** The coefficient table of the package selected by `packageCs`. */
  function Table(packageCs: bool): (t: seq<Bucket>)
    ensures WellFormedTable(t)
  {
    if packageCs then
      [Bucket(K1C, B1C, M1C), Bucket(K2C, B2C, M2C), Bucket(K3C, B3C, M3C), Bucket(K4C, B4C, M4C),
       Bucket(K5C, B5C, M5C), Bucket(K6C, B6C, M6C), Bucket(K7C, B7C, M7C), Bucket(K8C, B8C, M8C)]
    else
      [Bucket(K1T, B1T, M1T), Bucket(K2T, B2T, M2T), Bucket(K3T, B3T, M3T), Bucket(K4T, B4T, M4T),
       Bucket(K5T, B5T, M5T), Bucket(K6T, B6T, M6T), Bucket(K7T, B7T, M7T), Bucket(K8T, B8T, M8T)]
  }

  /**
   Index of the bucket a ratio falls in: the first row whose bound is at
   least the ratio, or the last row when the ratio exceeds every earlier bound.
   */
  function BucketIndex(t: seq<Bucket>, ratio: nat): (i: nat)
    requires |t| > 0
    ensures i < |t|
    ensures forall j :: 0 <= j < i ==> t[j].k < ratio
    ensures i < |t| - 1 ==> ratio <= t[i].k
    decreases |t|
  {
    if |t| == 1 || ratio <= t[0].k then 0 else 1 + BucketIndex(t[1..], ratio)
  }

  /** Bucket i covers the ratios above the previous bound up to and including its own. */
  ghost predicate InBucket(t: seq<Bucket>, i: int, ratio: nat)
  {
    && 0 <= i < |t|
    && (i == 0 || t[i - 1].k < ratio)
    && (i == |t| - 1 || ratio <= t[i].k)
  }

  /** The values b and m hold before the if/elif chain assigns them. */
  const Unset: Coefficients := Coefficients(0, 0)

  /** The coefficients the driver's if/elif chain picks for the T, FN and CL package. */
  function SelectT(ratio: nat): Coefficients
  {
    if ratio >= 0 && ratio <= K1T then Coefficients(B1T, M1T)
    else if ratio <= K2T then Coefficients(B2T, M2T)
    else if ratio <= K3T then Coefficients(B3T, M3T)
    else if ratio <= K4T then Coefficients(B4T, M4T)
    else if ratio <= K5T then Coefficients(B5T, M5T)
    else if ratio <= K6T then Coefficients(B6T, M6T)
    else if ratio <= K7T then Coefficients(B7T, M7T)
    else if ratio > K8T then Coefficients(B8T, M8T)
    else Unset
  }

  /** The coefficients the driver's if/elif chain picks for the CS package. */
  function SelectCS(ratio: nat): Coefficients
  {
    if ratio >= 0 && ratio <= K1C then Coefficients(B1C, M1C)
    else if ratio <= K2C then Coefficients(B2C, M2C)
    else if ratio <= K3C then Coefficients(B3C, M3C)
    else if ratio <= K4C then Coefficients(B4C, M4C)
    else if ratio <= K5C then Coefficients(B5C, M5C)
    else if ratio <= K6C then Coefficients(B6C, M6C)
    else if ratio <= K7C then Coefficients(B7C, M7C)
    else if ratio > K8C then Coefficients(B8C, M8C)
    else Unset
  }

  /**
   The driver's coefficient choice. Both chains agree with a lookup of the
   package's table at the ratio's bucket.
   */
  function Select(ratio: nat, packageCs: bool): (c: Coefficients)
    ensures c == Table(packageCs)[BucketIndex(Table(packageCs), ratio)].Pair()
  {
    if packageCs then
      SelectCSMatchesTable(ratio);
      SelectCS(ratio)
    else
      SelectTMatchesTable(ratio);
      SelectT(ratio)
  }

  lemma SelectTMatchesTable(ratio: nat)
    ensures SelectT(ratio) == Table(false)[BucketIndex(Table(false), ratio)].Pair()
  {
    var t := Table(false);
    var i := BucketIndex(t, ratio);
    if ratio <= K1T { assert i == 0; }
    else if ratio <= K2T { assert i == 1 by { assert t[0].k < ratio; } }
    else if ratio <= K3T { assert i == 2 by { assert t[1].k < ratio; } }
    else if ratio <= K4T { assert i == 3 by { assert t[2].k < ratio; } }
    else if ratio <= K5T { assert i == 4 by { assert t[3].k < ratio; } }
    else if ratio <= K6T { assert i == 5 by { assert t[4].k < ratio; } }
    else if ratio <= K7T { assert i == 6 by { assert t[5].k < ratio; } }
    else { assert i == 7 by { assert t[6].k < ratio; } }
  }

  lemma SelectCSMatchesTable(ratio: nat)
    ensures SelectCS(ratio) == Table(true)[BucketIndex(Table(true), ratio)].Pair()
  {
    var t := Table(true);
    var i := BucketIndex(t, ratio);
    if ratio <= K1C { assert i == 0; }
    else if ratio <= K2C { assert i == 1 by { assert t[0].k < ratio; } }
    else if ratio <= K3C { assert i == 2 by { assert t[1].k < ratio; } }
    else if ratio <= K4C { assert i == 3 by { assert t[2].k < ratio; } }
    else if ratio <= K5C { assert i == 4 by { assert t[3].k < ratio; } }
    else if ratio <= K6C { assert i == 5 by { assert t[4].k < ratio; } }
    else if ratio <= K7C { assert i == 6 by { assert t[5].k < ratio; } }
    else { assert i == 7 by { assert t[6].k < ratio; } }
  }

  /**
   Channel scale factor: 2^10 by default, the 13.7 ms or 101 ms constant when
   that integration code is configured, then shifted left by 4 when the gain
   code is anything but GAIN_0X.
   */
  function ChannelScale(integration: nat, gain: nat): (s: nat)
    ensures s >= Pow2(CH_SCALE)
    ensures gain == GAIN_0X ==> s in {CH_SCALE_TINT0, CH_SCALE_TINT1, Pow2(CH_SCALE)}
    ensures gain != GAIN_0X ==> s % 16 == 0 && s / 16 in {CH_SCALE_TINT0, CH_SCALE_TINT1, Pow2(CH_SCALE)}
    ensures s <= 16 * CH_SCALE_TINT0
  {
    Pow2Values();
    var s := if integration == INTEG_TIME_13MS then CH_SCALE_TINT0
             else if integration == INTEG_TIME_101MS then CH_SCALE_TINT1
             else Shl(1, CH_SCALE);
    if gain != GAIN_0X then Shl(s, 4) else s
  }

  /** A raw count scaled by the channel scale, with the 2^10 fraction stripped. */
  function ScaleChannel(raw: nat, scale: nat): (c: nat)
    ensures c * Pow2(CH_SCALE) <= raw * scale < (c + 1) * Pow2(CH_SCALE)
    ensures scale >= Pow2(CH_SCALE) ==> c >= raw
  {
    var product := raw * scale;
    var c := Shr(product, CH_SCALE);
    ShrBounds(product, CH_SCALE);
    if scale >= Pow2(CH_SCALE) then
      ScaledAtLeastRaw(raw, scale, c);
      c
    else c
  }

  lemma ScaledAtLeastRaw(raw: nat, scale: nat, c: nat)
    requires scale >= Pow2(CH_SCALE) && raw * scale < (c + 1) * Pow2(CH_SCALE)
    ensures c >= raw
  {
    var p := Pow2(CH_SCALE);
    MulMonotone(raw, p, raw, scale);
    MulLessCancel(raw, c + 1, p);
  }

  /**
   The channel-1 to channel-0 ratio scaled by 2^9 and rounded to the nearest
   integer, halves rounding up; zero when channel 0 is zero, without dividing.
   */
  function Ratio(channel0: nat, channel1: nat): (r: nat)
    ensures channel0 == 0 ==> r == 0
    ensures channel0 > 0 ==> (2 * r - 1) * channel0 <= 2 * Pow2(RATIO_SCALE) * channel1 < (2 * r + 1) * channel0
  {
    var ratio1 := if channel0 != 0 then Shl(channel1, RATIO_SCALE + 1) / channel0 else 0;
    var r := Shr(ratio1 + 1, 1);
    if channel0 != 0 then
      Pow2Values();
      var x := Shl(channel1, RATIO_SCALE + 1);
      assert x == 2 * Pow2(RATIO_SCALE) * channel1;
      assert ratio1 * channel0 <= x < (ratio1 + 1) * channel0 by { DivBounds(x, channel0); }
      assert r == (ratio1 + 1) / 2 by { assert Shr(ratio1 + 1, 1) == Shr((ratio1 + 1) / 2, 0); }
      assert ratio1 == 2 * r - 1 || ratio1 == 2 * r;
      if ratio1 == 2 * r then
        assert (2 * r + 1) * channel0 == (ratio1 + 1) * channel0;
        assert (2 * r - 1) * channel0 <= ratio1 * channel0 by { MulMonotoneInt(2 * r - 1, ratio1, channel0); }
        r
      else
        assert (2 * r - 1) * channel0 == ratio1 * channel0;
        assert (ratio1 + 1) * channel0 <= (2 * r + 1) * channel0 by { MulMonotoneInt(ratio1 + 1, 2 * r + 1, channel0); }
        r
    else r
  }

  /** channel0*b - channel1*m, clamped at zero: the driver never reports negative light. */
  function Weighted(channel0: nat, channel1: nat, c: Coefficients): (t: nat)
    ensures t >= channel0 * c.b - channel1 * c.m
    ensures t == 0 || t == channel0 * c.b - channel1 * c.m
    ensures t <= channel0 * c.b
  {
    var temp := channel0 * c.b - channel1 * c.m;
    if temp < 0 then 0 else temp
  }

  /** Strip the 2^14 fixed-point fraction, rounding to nearest with halves up. */
  function RoundLux(temp: nat): (lux: nat)
    ensures 2 * temp - Pow2(LUX_SCALE) < 2 * lux * Pow2(LUX_SCALE) <= 2 * temp + Pow2(LUX_SCALE)
  {
    Pow2Values();
    ShrBounds(temp + Shl(1, LUX_SCALE - 1), LUX_SCALE);
    Shr(temp + Shl(1, LUX_SCALE - 1), LUX_SCALE)
  }

  /**
   `calculate_lux(ch0, ch1)` for a device configured with `integration` and
   `gain`, with the class constant PACKAGE_CS passed as `packageCs`. The result
   is the nearest integer to max(0, c0*b - c1*m) / 2^14, where c0 and c1 are the
   scaled channels and (b, m) is the table row of the bucket their ratio falls in.
   */
  function CalculateLux(integration: nat, gain: nat, packageCs: bool, ch0: nat, ch1: nat): (lux: nat)
    ensures
      var scale := ChannelScale(integration, gain);
      var c0 := ScaleChannel(ch0, scale);
      var c1 := ScaleChannel(ch1, scale);
      var t := Table(packageCs);
      var row := t[BucketIndex(t, Ratio(c0, c1))];
      var temp := if c0 * row.b >= c1 * row.m then c0 * row.b - c1 * row.m else 0;
      2 * temp - Pow2(LUX_SCALE) < 2 * lux * Pow2(LUX_SCALE) <= 2 * temp + Pow2(LUX_SCALE)
    ensures ch0 == 0 ==> lux == 0
  {
    var scale := ChannelScale(integration, gain);
    var channel0 := ScaleChannel(ch0, scale);
    var channel1 := ScaleChannel(ch1, scale);
    var ratio := Ratio(channel0, channel1);
    var c := Select(ratio, packageCs);
    var t := Table(packageCs);
    assert c == t[BucketIndex(t, ratio)].Pair();
    var temp := Weighted(channel0, channel1, c);
    assert temp == if channel0 * c.b >= channel1 * c.m then channel0 * c.b - channel1 * c.m else 0;
    var lux := RoundLux(temp);
    assert ch0 == 0 ==> lux == 0 by {
      if ch0 == 0 {
        DarkWeighsZero(scale, channel1, c);
      }
    }
    lux
  }

  /** A zero raw channel 0 scales to zero, weighs zero and rounds to zero lux. */
  lemma DarkWeighsZero(scale: nat, channel1: nat, c: Coefficients)
    ensures RoundLux(Weighted(ScaleChannel(0, scale), channel1, c)) == 0
  {
    var channel0 := ScaleChannel(0, scale);
    NoFractionBelowOne(channel0, Pow2(CH_SCALE));
    var temp := Weighted(channel0, channel1, c);
    assert temp == 0;
    NoFractionBelowOne(RoundLux(temp), Pow2(LUX_SCALE));
  }

  /** A count whose product with a positive unit stays within half a unit is zero. */
  lemma NoFractionBelowOne(x: nat, unit: nat)
    requires unit >= 1 && 2 * x * unit <= unit
    ensures x == 0
  {
  }

  lemma MulMonotone(a: nat, b: nat, c: nat, d: nat)
    requires a <= c && b <= d
    ensures a * b <= c * d
  {
    assert a * b <= a * d;
    assert a * d <= c * d;
  }

  lemma MulMonotoneInt(a: int, b: int, c: nat)
    requires a <= b
    ensures a * c <= b * c
  {
    assert b * c - a * c == (b - a) * c;
  }

  lemma MulLessCancel(a: nat, b: nat, c: nat)
    requires c > 0 && a * c < b * c
    ensures a < b
  {
    if a >= b {
      MulMonotone(b, c, a, c);
    }
  }
}
