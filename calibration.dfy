/** The fixed-point calibration of drivers/dac/ad3552r/ad3552r.c: the
    output-range tables, the custom range from gain and feedback-resistor
    settings (ad3552r_get_custom_range) and the scale / offset pair
    (ad3552r_calc_gain_and_offset), reported as an integer part plus
    millionths. All of it is integer arithmetic with C's truncating
    division. */
module Calibration {
  import opened CInt

  datatype Option<T> = None | Some(value: T)

  /** The two supported variants and their product identifiers. */
  datatype ChipId = AD3542R | AD3552R

  function ChipIdCode(c: ChipId): bv16
  {
    match c
    case AD3542R => 0x4008
    case AD3552R => 0x4009
  }

  /** AD3552R_RANGE_MAX_VALUE: the last index of the variant's range
      table. */
  function RangeMax(c: ChipId): nat
  {
    if c.AD3542R? then 5 else 4
  }

  /** ad3542r_ch_ranges / ad3552r_ch_ranges, in millivolts: (min, max). */
  function TableRange(c: ChipId, idx: nat): (r: (int, int))
    requires idx <= RangeMax(c)
    ensures r.0 < r.1
  {
    if c.AD3542R? then
      [(0, 2500), (0, 3000), (0, 5000), (0, 10000), (-2500, 7500), (-5000, 5000)][idx]
    else
      [(0, 2500), (0, 5000), (0, 10000), (-5000, 5000), (-10000, 10000)][idx]
  }

  /** gains_scaling_table, in thousandths: gain codes 0..3 halve the gain. */
  function GainScale(code: nat): (g: int)
    requires code < 4
    ensures g * Pow2(code) == 1000
  {
    [1000, 500, 250, 125][code]
  }

  function Pow2(k: nat): nat
  {
    if k == 0 then 1 else 2 * Pow2(k - 1)
  }

  const VREF_MV: int := 2500
  const GAIN_SCALE: int := 1000

  /** ad3552r_get_custom_range: the output range, in millivolts, of a
      channel whose range is overridden. `common` is 2.5 V * 1.03 * rfb in
      millivolts; the 64-bit intermediate results are assigned to 32-bit
      `v_min` / `v_max`. */
  function CustomRange(rfb: u16, p: nat, n: nat, gainOffset: int): (r: (int, int))
    requires p < 4 && n < 4
    ensures -0x8000_0000 <= r.0 < 0x8000_0000 && -0x8000_0000 <= r.1 < 0x8000_0000
  {
    var common := 2575 * rfb;
    var up := Div((1024 * GainScale(n) + GAIN_SCALE * gainOffset) * common, 1024 * GAIN_SCALE);
    var down := Div((1024 * GainScale(p) - GAIN_SCALE * gainOffset) * common, 1024 * GAIN_SCALE);
    (Wrap32(VREF_MV - down), Wrap32(VREF_MV + up))
  }

  /** With no gain offset the custom range never wraps: it contains
      2.5 V, reaches at most 2575 * rfb millivolts to either side, and is
      symmetric when the two gain codes agree. */
  lemma CustomRangeNoOffset(rfb: u16, p: nat, n: nat)
    requires p < 4 && n < 4
    ensures var r := CustomRange(rfb, p, n, 0);
      r.0 <= VREF_MV <= r.1 &&
      r.1 - VREF_MV <= 2575 * rfb && VREF_MV - r.0 <= 2575 * rfb &&
      (p == n ==> r.0 + r.1 == 2 * VREF_MV)
  {
    var common := 2575 * rfb;
    GainedSpread(common, GainScale(n));
    GainedSpread(common, GainScale(p));
    assert (1024 * GainScale(n) + GAIN_SCALE * 0) * common == 1024 * GainScale(n) * common;
    assert (1024 * GainScale(p) - GAIN_SCALE * 0) * common == 1024 * GainScale(p) * common;
  }

  /** The share `1024 * g * common / 1024000` of a gain g <= 1000 lies in
      0..common. */
  lemma GainedSpread(common: nat, g: nat)
    requires g <= 1000
    ensures 0 <= Div(1024 * g * common, 1024 * GAIN_SCALE) <= common
  {
    var x := 1024 * g * common;
    ProductBound(g, common);
    DivRem(x, 1024000);
    var q := Div(x, 1024000);
    assert 1024000 * Abs(q) < 1024000 * (common + 1);
    MulCancel(1024000, Abs(q), common + 1);
  }

  /** `1024 * g * common` lies in 0..1024000 * common for g <= 1000. */
  lemma ProductBound(g: nat, common: nat)
    requires g <= 1000
    ensures 0 <= 1024 * g * common <= 1024000 * common
  {
    assert g * common <= 1000 * common;
    assert 1024 * g * common == 1024 * (g * common);
  }

  lemma MulCancel(a: nat, b: nat, c: nat)
    requires a > 0 && a * b < a * c
    ensures b < c
  {
  }

  /** The four numbers ad3552r_calc_gain_and_offset stores for a channel. */
  datatype Calib = Calib(scaleInt: int, scaleDec: int, offsetInt: int, offsetDec: int)

  /** ad3552r_calc_gain_and_offset as written: `tmp = v_min * 65536` is a
      product of two 32-bit `int`s, so it wraps before it is widened. */
  function ScaleOffsetAsWritten(vMin: int, vMax: int): (c: Calib)
    requires Wrap32(vMax - vMin) != 0
  {
    var span := Wrap32(vMax - vMin);
    var tmp := Wrap32(vMin * 65536);
    Calib(Div(span, 65536), DivRoundClosest(Rem(span, 65536) * 1000000, 65536),
          Div(tmp, span), Div(Rem(tmp, span) * 1000000, span))
  }

  /** ad3552r_calc_gain_and_offset with the product formed in 64 bits and
      the zero-span case skipped (None: the stored values stay as they
      were). */
  function ScaleOffset(vMin: int, vMax: int): (c: Option<Calib>)
    ensures c.None? <==> Wrap32(vMax - vMin) == 0
  {
    var span := Wrap32(vMax - vMin);
    if span == 0 then None
    else
      var tmp := vMin * 65536;
      Some(Calib(Div(span, 65536), DivRoundClosest(Rem(span, 65536) * 1000000, 65536),
                 Div(tmp, span), Div(Rem(tmp, span) * 1000000, span)))
  }

  /** Scale is span / 65536 and offset 65536 * v_min / span, each as a
      truncated integer part plus the remainder in millionths: the scale's
      rounded to the nearest, the offset's truncated toward zero. */
  lemma ScaleOffsetMeaning(vMin: int, vMax: int)
    requires Wrap32(vMax - vMin) != 0
    ensures var c := ScaleOffset(vMin, vMax).value;
      var span := Wrap32(vMax - vMin);
      var tmp := vMin * 65536;
      span == 65536 * c.scaleInt + Rem(span, 65536) &&
      tmp == span * c.offsetInt + Rem(tmp, span) &&
      Abs(Rem(tmp, span)) < Abs(span) &&
      (span > 0 ==> (0 <= c.scaleDec <= 1000000 &&
         -32768 < 65536 * c.scaleDec - Rem(span, 65536) * 1000000 <= 32768)) &&
      Abs(span) * Abs(c.offsetDec) <= Abs(Rem(tmp, span)) * 1000000 &&
      Abs(c.offsetDec) < 1000000
  {
    var span := Wrap32(vMax - vMin);
    var tmp := vMin * 65536;
    var c := ScaleOffset(vMin, vMax).value;
    DivRem(span, 65536);
    DivRem(tmp, span);
    var r := Rem(tmp, span);
    DivRem(r * 1000000, span);
    assert Abs(r * 1000000) == Abs(r) * 1000000;
    FractionBound(r, span);
    if span > 0 {
      ScaleFraction(span);
    }
  }

  /** The scale's fraction: the remainder of span / 65536 in millionths,
      rounded to the nearest. */
  lemma ScaleFraction(span: int)
    requires span > 0
    ensures var x := Rem(span, 65536) * 1000000;
      var q := DivRoundClosest(x, 65536);
      0 <= q <= 1000000 && -32768 < 65536 * q - x <= 32768
  {
    DivRem(span, 65536);
    var x := Rem(span, 65536) * 1000000;
    DivRoundClosestNearest(x, 65536);
    var q := DivRoundClosest(x, 65536);
    assert 0 <= Rem(span, 65536) <= 65535;
    assert x <= 65535000000;
    assert 65536 * q <= x + 32768;
  }

  /** A remainder below the divisor in magnitude gives fewer than a million
      millionths. */
  lemma FractionBound(r: int, d: int)
    requires d != 0 && Abs(r) < Abs(d)
    ensures Abs(Div(r * 1000000, d)) < 1000000
  {
    var q := Div(r * 1000000, d);
    DivRem(r * 1000000, d);
    assert Abs(r * 1000000) == Abs(r) * 1000000;
    assert Abs(d) * Abs(q) <= Abs(r) * 1000000;
    assert Abs(d) * Abs(q) < Abs(d) * 1000000;
    MulCancel(Abs(d), Abs(q), 1000000);
  }

  /** The whole recompute for one channel: table range or custom range,
      then scale and offset. */
  function ChannelCalib(chip: ChipId, rangeOverride: bool, range: nat, rfb: u16,
                        p: nat, n: nat, gainOffset: int): Option<Calib>
    requires p < 4 && n < 4 && range <= RangeMax(chip)
  {
    var r := if rangeOverride then CustomRange(rfb, p, n, gainOffset) else TableRange(chip, range);
    ScaleOffset(r.0, r.1)
  }

  /** Worked values: the symmetric +-10 V range is 20000 mV over 65536
      codes, 0.305176 mV per code, with the zero code at -32768. */
  lemma TableCalibExampleTenVolt()
    ensures ChannelCalib(AD3552R, false, 4, 0, 0, 0, 0) == Some(Calib(0, 305176, -32768, 0))
  {
  }

  /** +-5 V on either variant: half the scale, the same offset. */
  lemma TableCalibExampleFiveVolt()
    ensures ChannelCalib(AD3552R, false, 3, 0, 0, 0, 0) == Some(Calib(0, 152588, -32768, 0))
    ensures ChannelCalib(AD3542R, false, 5, 0, 0, 0, 0) == Some(Calib(0, 152588, -32768, 0))
  {
  }

  /** 0..2.5 V: a unipolar range has offset 0. */
  lemma TableCalibExampleUnipolar()
    ensures ChannelCalib(AD3552R, false, 0, 0, 0, 0, 0) == Some(Calib(0, 38147, 0, 0))
  {
  }

  /** Every table range has a non-zero span that fits 32 bits, so only the
      custom range can reach the zero-span case. */
  lemma TableRangeSpanNonZero(c: ChipId, idx: nat)
    requires idx <= RangeMax(c)
    ensures ScaleOffset(TableRange(c, idx).0, TableRange(c, idx).1).Some?
  {
  }

  // ---- Findings.

  /** The 32-bit product wraps for a custom range on the AD3552R's
      feedback setting 14 with both gain codes 0: v_min is -33550 mV, and
      -33550 * 65536 is below -2^31. The as-written offset comes out
      positive, the intended one negative. */
  lemma OffsetProductOverflows()
    ensures CustomRange(14, 0, 0, 0) == (-33550, 38550)
    ensures ScaleOffsetAsWritten(-33550, 38550).offsetInt == 29073
    ensures ScaleOffset(-33550, 38550).Some?
    ensures ScaleOffset(-33550, 38550).value.offsetInt == -30495
  {
    assert Wrap32(-33550 * 65536) == 2096234496;
  }

  /** Overriding the range while the feedback resistor is still 0 (its
      initial value) gives v_min == v_max == 2500 mV: the span is 0, and the
      as-written recompute divides by it. */
  lemma ZeroSpanReachable(p: nat, n: nat)
    requires p < 4 && n < 4
    ensures CustomRange(0, p, n, 0) == (2500, 2500)
    ensures Wrap32(CustomRange(0, p, n, 0).1 - CustomRange(0, p, n, 0).0) == 0
    ensures ScaleOffset(2500, 2500).None?
  {
  }
}
