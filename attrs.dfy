/** The attribute interface of drivers/dac/ad3552r/ad3552r.c: the CRC
    toggle, ad3552r_get/set_dev_value, the code and gain-register paths,
    ad3552r_get/set_ch_value with the calibration recompute they trigger,
    and ad3552r_get_scale / ad3552r_get_offset. */
module Attrs {
  import opened CInt
  import opened Fields
  import opened Registers
  import opened Calibration
  import opened Device
  import opened RegIo

  // ---------------------------------------------------------------------
  // CRC on/off.

  /** AD3552R_CRC_ENABLE_VALUE and AD3552R_CRC_DISABLE_VALUE. */
  const CRC_ENABLE_VALUE: bv16 := 0x42
  const CRC_DISABLE_VALUE: bv16 := 0x03

  /** The register value _ad3552r_set_crc_enable writes for `en`. */
  function CrcRegValue(en: u16): bv16
  {
    if en != 0 then CRC_ENABLE_VALUE else CRC_DISABLE_VALUE
  }

  /** How _ad3552r_get_crc_enable reads the field back: 1, 0, or an
      unexpected value (None). */
  function CrcDecode(reg: bv16): (r: Option<bv16>)
    ensures r.Some? <==> reg == CRC_ENABLE_VALUE || reg == CRC_DISABLE_VALUE
  {
    if reg == CRC_ENABLE_VALUE then Some(1)
    else if reg == CRC_DISABLE_VALUE then Some(0)
    else None
  }

  /** What the setter writes, the getter decodes to the flag's truth
      value; both values lie inside the CRC-enable field. */
  lemma CrcValueRoundTrip(en: u16)
    ensures CrcDecode(CrcRegValue(en)) == Some(if en != 0 then 1 else 0)
    ensures FieldGet(MASK_CRC_ENABLE, CrcRegValue(en)) == CrcRegValue(en)
  {
  }

  /** _ad3552r_get_crc_enable. */
  function GetCrcEnable(d: Dev): (g: Got)
    ensures var r := GetRegAttr(d, CrcEnable);
      g.dev == r.dev &&
      (IsErr(r.err) ==> g.err == r.err) &&
      (!IsErr(r.err) && CrcDecode(r.val).None? ==> g.err == FAILURE) &&
      (!IsErr(r.err) && CrcDecode(r.val).Some? ==> g.err == SUCCESS && g.val == CrcDecode(r.val).value)
  {
    var r := GetRegAttr(d, CrcEnable);
    if IsErr(r.err) then r
    else match CrcDecode(r.val)
      case None => Got(FAILURE, r.val, r.dev)
      case Some(v) => Got(SUCCESS, v, r.dev)
  }

  /** _ad3552r_set_crc_enable: a whole-register write of INTERFACE_CONFIG_C,
      then, only if it succeeded, the flag is stored (as a uint8_t). */
  function SetCrcEnable(d: Dev, en: u16): (s: Step)
    ensures var w := WriteReg(d, INTERFACE_CONFIG_C, CrcRegValue(en));
      (IsErr(w.err) ==> s == w) &&
      (!IsErr(w.err) ==> s == Step(SUCCESS, w.dev.(crcEn := ToU8(en))))
  {
    var w := WriteReg(d, DevAttrReg(CrcEnable), CrcRegValue(en));
    if IsErr(w.err) then w else Step(SUCCESS, w.dev.(crcEn := ToU8(en)))
  }

  /** The flag changes only when the write went through, and then holds
      `en` cut to a byte. */
  lemma CrcFlagFollowsWrite(d: Dev, en: u16)
    ensures var s := SetCrcEnable(d, en);
      (IsErr(s.err) ==> s.dev.crcEn == d.crcEn) &&
      (!IsErr(s.err) ==> s.dev.crcEn == en % 0x100)
  {
  }

  /** ad3552r_get_dev_value. */
  function GetDevValue(d: Dev, a: DevAttr): (g: Got)
    ensures a.CrcEnable? ==> g == GetCrcEnable(d)
    ensures !a.CrcEnable? ==> g == GetRegAttr(d, a)
  {
    if a.CrcEnable? then GetCrcEnable(d) else GetRegAttr(d, a)
  }

  /** ad3552r_set_dev_value. Setting an interface attribute this way
      changes the device but not the cached `spi_cfg`. */
  function SetDevValue(d: Dev, a: DevAttr, val: u16): (s: Step)
    ensures a.CrcEnable? ==> s == SetCrcEnable(d, val)
    ensures !a.CrcEnable? ==> s == SetRegAttr(d, a, val as bv16) && s.dev.cfg == d.cfg
  {
    if a.CrcEnable? then SetCrcEnable(d, val) else SetRegAttr(d, a, val as bv16)
  }

  // ---------------------------------------------------------------------
  // Channel records and the calibration recompute.

  /** `desc->ch_data[ch] = c`. */
  function SetCh(d: Dev, ch: nat, c: Channel): (e: Dev)
    requires ch < |d.ch|
  {
    d.(ch := d.ch[ch := c])
  }

  /** The calibration a channel's parameters give (None: zero span). */
  function CalibOf(chip: ChipId, c: Channel): Option<Calib>
    requires ChannelOk(chip, c)
  {
    ChannelCalib(chip, c.rangeOverride, c.range, c.rfb, c.p, c.n, c.gainOffset)
  }

  /** The record `c` after ad3552r_calc_gain_and_offset: the scale and
      offset recomputed, or left as they were when the span is zero. */
  function Recalibrated(chip: ChipId, c: Channel): (r: Channel)
    requires ChannelOk(chip, c)
    ensures ChannelOk(chip, r) && r == c.(calib := r.calib)
  {
    match CalibOf(chip, c)
    case None => c
    case Some(k) => c.(calib := k)
  }

  /** ad3552r_calc_gain_and_offset for channel `ch`. */
  function Recalc(d: Dev, ch: nat): (e: Dev)
    requires Valid(d) && ch < NUM_CH
    ensures Valid(e)
  {
    SetCh(d, ch, Recalibrated(d.chip, d.ch[ch]))
  }

  /** A table range always recalibrates, to the scale and offset of the
      table entry. */
  lemma RecalcTableRange(chip: ChipId, c: Channel)
    requires ChannelOk(chip, c) && !c.rangeOverride
    ensures var r := TableRange(chip, c.range);
      Recalibrated(chip, c).calib == ScaleOffset(r.0, r.1).value
  {
    TableRangeSpanNonZero(chip, c.range);
  }

  // ---------------------------------------------------------------------
  // Code registers.

  /** _ad3552r_set_code_value: the 24-bit DAC register, the value cut to 12
      bits in fast mode. */
  function SetCodeValue(d: Dev, ch: nat, val: u16): (s: Step)
    requires |d.ch| == NUM_CH && ch < NUM_CH
    ensures s == WriteReg(d, ChDac24(ch), if d.ch[ch].fastEn then (val as bv16) & MASK_DAC_12B else val as bv16)
  {
    WriteReg(d, CodeRegAddr(ch, true, false), if d.ch[ch].fastEn then (val as bv16) & MASK_DAC_12B else val as bv16)
  }

  /** _ad3552r_get_code_value. */
  function GetCodeValue(d: Dev, ch: nat): (g: Got)
    requires ch < NUM_CH
    ensures g == ReadReg(d, ChDac24(ch))
  {
    ReadReg(d, CodeRegAddr(ch, true, false))
  }

  /** The code registers are in the secondary region: with address
      ascension cached as on, code accesses are refused without traffic. */
  lemma CodeAccessRefusedWhenAscending(d: Dev, ch: nat, val: u16)
    requires |d.ch| == NUM_CH && ch < NUM_CH && d.cfg.addrAsc != 0
    ensures SetCodeValue(d, ch, val) == Step(-EINVAL, d)
    ensures GetCodeValue(d, ch).err == -EINVAL && GetCodeValue(d, ch).dev == d
  {
  }

  // ---------------------------------------------------------------------
  // The gain register (CH_GAIN(ch)).

  /** The gain-register field each gain attribute occupies; the offset's
      field is its ninth bit. */
  function GainMask(a: ChAttr): (m: bv16)
    requires IsGainAttr(a)
    ensures IsDriverMask(m)
  {
    match a
    case GainOffset => MASK_CH_OFFSET_BIT_8
    case RangeOverride => MASK_CH_RANGE_OVERRIDE
    case GainOffsetPolarity => MASK_CH_OFFSET_POLARITY
    case GainScalingP => MASK_CH_GAIN_SCALING_P
    case GainScalingN => MASK_CH_GAIN_SCALING_N
  }

  /** The software record after a gain attribute is stored. The offset goes
      to `offset`, a field the custom range does not read. */
  function GainStore(c: Channel, a: ChAttr, val: u16): Channel
    requires IsGainAttr(a)
  {
    match a
    case GainOffset => c.(offset := val)
    case RangeOverride => c.(rangeOverride := val != 0)
    case GainOffsetPolarity => c.(offsetPolarity := val != 0)
    case GainScalingP => c.(p := val)
    case GainScalingN => c.(n := val)
  }

  /** A gain scaling code above 3 is refused. */
  predicate BadScaling(a: ChAttr, val: u16)
  {
    (a.GainScalingP? || a.GainScalingN?) && val > 3
  }

  /** The address the offset's low byte is written to: the driver passes
      the mask AD3552R_MASK_CH_OFFSET_BITS_0_7 where an address belongs. */
  const OFFSET_LOW_ADDR: u8 := 0xFF

  /** The value put into the gain register's field: the offset's bit 8, or
      the attribute's value itself. */
  function GainFieldValue(a: ChAttr, val: u16): bv16
  {
    if a.GainOffset? then (val as bv16) >> 8 else val as bv16
  }

  /** _ad3552r_set_gain_value: read CH_GAIN(ch); refuse a scaling code
      above 3; otherwise store and write the attribute. */
  function SetGainValue(d: Dev, a: ChAttr, ch: nat, val: u16): (s: Step)
    requires Valid(d) && ch < NUM_CH && IsGainAttr(a)
    ensures Valid(s.dev) && s.dev.chip == d.chip && s.dev.ch[1 - ch] == d.ch[1 - ch]
  {
    var r := ReadReg(d, ChGain(ch));
    if IsErr(r.err) then Step(r.err, r.dev)
    else if BadScaling(a, val) then Step(-EINVAL, r.dev)
    else StoreGain(r.dev, a, ch, val, r.val)
  }

  /** The rest of _ad3552r_set_gain_value once CH_GAIN(ch) has been read as
      `reg`: store the attribute in the record (for the offset, also write
      its low byte), then write the gain register back. A failed write
      leaves the record updated but its calibration stale. */
  function StoreGain(d: Dev, a: ChAttr, ch: nat, val: u16, reg: bv16): (s: Step)
    requires Valid(d) && ch < NUM_CH && IsGainAttr(a) && !BadScaling(a, val)
    ensures Valid(s.dev) && s.dev.chip == d.chip && s.dev.ch[1 - ch] == d.ch[1 - ch]
    ensures var c := GainStore(d.ch[ch], a, val);
      (IsErr(s.err) ==> s.dev.ch[ch] == c) &&
      (!IsErr(s.err) ==> (s.err == SUCCESS && s.dev.ch[ch] == Recalibrated(d.chip, c)))
  {
    var d1 := SetCh(d, ch, GainStore(d.ch[ch], a, val));
    var w0 := WriteOffsetLow(d1, a, val);
    if IsErr(w0.err) then w0
    else WriteGainReg(w0.dev, a, ch, val, reg)
  }

  /** For the offset only: its low byte written to OFFSET_LOW_ADDR. */
  function WriteOffsetLow(d: Dev, a: ChAttr, val: u16): (s: Step)
    ensures SameButBus(d, s.dev)
    ensures !a.GainOffset? ==> s == Step(SUCCESS, d)
    ensures a.GainOffset? ==> s == WriteReg(d, OFFSET_LOW_ADDR, (val as bv16) & MASK_CH_OFFSET_BITS_0_7)
  {
    if a.GainOffset? then WriteReg(d, OFFSET_LOW_ADDR, (val as bv16) & MASK_CH_OFFSET_BITS_0_7)
    else Step(SUCCESS, d)
  }

  /** The final write of _ad3552r_set_gain_value: the attribute's field
      merged into the value read, then the recompute on success. */
  function WriteGainReg(d: Dev, a: ChAttr, ch: nat, val: u16, reg: bv16): (s: Step)
    requires Valid(d) && ch < NUM_CH && IsGainAttr(a)
    ensures Valid(s.dev) && s.dev.chip == d.chip && s.dev.ch[1 - ch] == d.ch[1 - ch]
    ensures IsErr(s.err) ==> s.dev.ch[ch] == d.ch[ch]
    ensures !IsErr(s.err) ==> s.err == SUCCESS && s.dev.ch[ch] == Recalibrated(d.chip, d.ch[ch])
  {
    var w := WriteReg(d, ChGain(ch), MergeField(reg, GainMask(a), GainFieldValue(a, val)));
    if IsErr(w.err) then w
    else Step(SUCCESS, Recalc(w.dev, ch))
  }

  /** A scaling code above 3 fails with -EINVAL after the register read and
      before anything is stored or written. */
  lemma BadScalingRefused(d: Dev, a: ChAttr, ch: nat, val: u16)
    requires Valid(d) && ch < NUM_CH && IsGainAttr(a) && BadScaling(a, val)
    ensures var r := ReadReg(d, ChGain(ch));
      SetGainValue(d, a, ch, val) == (if IsErr(r.err) then Step(r.err, r.dev) else Step(-EINVAL, r.dev))
    ensures SetGainValue(d, a, ch, val).dev.ch == d.ch
    ensures IsErr(SetGainValue(d, a, ch, val).err)
  {
  }

  /** A successful gain write leaves only the attribute's field of the gain
      register changed, and the field holds the value stored. */
  lemma GainWriteValue(current: bv16, a: ChAttr, val: u16)
    requires IsGainAttr(a)
    ensures var m := GainMask(a);
      var reg := MergeField(current, m, GainFieldValue(a, val));
      reg & !m == current & !m &&
      FieldGet(m, reg) == GainFieldValue(a, val) & Shr(m, LowestSetBit(m))
  {
    var m := GainMask(a);
    var v := GainFieldValue(a, val);
    MergeFieldKeepsOutside(current, m, v);
    FieldRoundTrip(current, m, v);
  }

  /** The offset setter stores `offset`, but the custom range reads
      `gain_offset`: after a successful call the channel's calibration is
      what its other parameters give, whatever offset was set. */
  lemma OffsetDoesNotReachCalibration(d: Dev, ch: nat, val: u16)
    requires Valid(d) && ch < NUM_CH
    requires !IsErr(SetGainValue(d, GainOffset, ch, val).err)
    ensures var e := SetGainValue(d, GainOffset, ch, val).dev;
      e.ch[ch] == Recalibrated(d.chip, d.ch[ch]).(offset := val)
  {
  }

  /** _ad3552r_get_gain_value. For the offset, CH_GAIN(ch) is read twice
      and the result is the first value with the second's bit 0 copied to
      bit 8; the offset's low-byte register is never read. */
  function GetGainValue(d: Dev, a: ChAttr, ch: nat): (g: Got)
    requires ch < NUM_CH && IsGainAttr(a)
    ensures SameButBus(d, g.dev)
  {
    var r := ReadReg(d, ChGain(ch));
    if IsErr(r.err) then r
    else if a.GainOffset? then
      var r2 := ReadReg(r.dev, ChGain(ch));
      if IsErr(r2.err) then Got(r2.err, r.val, r2.dev)
      else Got(SUCCESS, r.val | ((r2.val & MASK_CH_OFFSET_BIT_8) << 8), r2.dev)
    else Got(SUCCESS, FieldGet(GainMask(a), r.val), r.dev)
  }

  /** Get after set, for the four field attributes: when CH_GAIN(ch) reads
      back the register that the gain write merged, the getter returns the
      value set, cut to the attribute's field. */
  lemma GetGainAfterSet(d: Dev, a: ChAttr, ch: nat, current: bv16, val: u16)
    requires ch < NUM_CH && IsGainAttr(a) && !a.GainOffset?
    requires ReadReg(d, ChGain(ch)).err == SUCCESS
    requires ReadReg(d, ChGain(ch)).val == MergeField(current, GainMask(a), GainFieldValue(a, val))
    ensures var m := GainMask(a);
      GetGainValue(d, a, ch) ==
        Got(SUCCESS, (val as bv16) & Shr(m, LowestSetBit(m)), ReadReg(d, ChGain(ch)).dev)
  {
    FieldRoundTrip(current, GainMask(a), GainFieldValue(a, val));
  }

  /** The offset's bit 8 comes from bit 0 of the second read of CH_GAIN(ch),
      and nothing above bit 8 is set. */
  lemma GainOffsetBitEight(d: Dev, ch: nat)
    requires ch < NUM_CH
    requires !IsErr(GetGainValue(d, GainOffset, ch).err)
    ensures var r := ReadReg(d, ChGain(ch));
      var r2 := ReadReg(r.dev, ChGain(ch));
      !IsErr(r2.err) &&
      GetGainValue(d, GainOffset, ch).val >> 8 == r2.val & MASK_CH_OFFSET_BIT_8
  {
    var r := ReadReg(d, ChGain(ch));
    assert r.val < 0x100 by { ReadGainByte(d, ch); }
  }

  /** CH_GAIN(ch) is a one-byte register. */
  lemma ReadGainByte(d: Dev, ch: nat)
    requires ch < NUM_CH
    ensures ReadReg(d, ChGain(ch)).val < 0x100
  {
  }

  /** Get after set, for the offset: when both reads of CH_GAIN(ch) return
      the register that the offset write merged, only bit 8 of the offset
      set comes back; the low byte is the gain register's own. */
  lemma GetGainOffsetAfterSet(d: Dev, ch: nat, current: bv16, val: u16)
    requires ch < NUM_CH
    requires var r := ReadReg(d, ChGain(ch));
      var r2 := ReadReg(r.dev, ChGain(ch));
      var reg := MergeField(current, MASK_CH_OFFSET_BIT_8, GainFieldValue(GainOffset, val));
      r.err == SUCCESS && r2.err == SUCCESS && r.val == reg && r2.val == reg
    ensures var g := GetGainValue(d, GainOffset, ch);
      g.err == SUCCESS &&
      g.val & 0x100 == (val as bv16) & 0x100 &&
      g.val & 0xFF == ReadReg(d, ChGain(ch)).val & 0xFF
  {
    FieldRoundTrip(current, MASK_CH_OFFSET_BIT_8, GainFieldValue(GainOffset, val));
    GainOffsetBitEight(d, ch);
    GainOffsetReadsGainRegister(d, ch);
  }

  /** The offset read back carries the gain register's own low byte, not
      the offset byte that the setter wrote elsewhere. */
  lemma GainOffsetReadsGainRegister(d: Dev, ch: nat)
    requires ch < NUM_CH
    requires !IsErr(GetGainValue(d, GainOffset, ch).err)
    ensures var r := ReadReg(d, ChGain(ch));
      !IsErr(r.err) && GetGainValue(d, GainOffset, ch).val & 0xFF == r.val & 0xFF
  {
  }

  // ---------------------------------------------------------------------
  // ad3552r_get_ch_value / ad3552r_set_ch_value.

  /** The two software-LDAC registers cannot be read. */
  predicate WriteOnly(addr: u8)
  {
    addr == SW_LDAC_24B || addr == SW_LDAC_16B
  }

  /** ad3552r_get_ch_value. */
  function GetChValue(d: Dev, a: ChAttr, ch: nat): (g: Got)
    requires |d.ch| == NUM_CH && ch < NUM_CH
    ensures SameButBus(d, g.dev)
    ensures a.FastEn? ==> g == Got(SUCCESS, if d.ch[ch].fastEn then 1 else 0, d)
    ensures a.Rfb? ==> g == Got(SUCCESS, d.ch[ch].rfb as bv16, d)
    ensures a.Code? ==> g == GetCodeValue(d, ch)
    ensures IsGainAttr(a) ==> g == GetGainValue(d, a, ch)
  {
    if a.FastEn? then Got(SUCCESS, if d.ch[ch].fastEn then 1 else 0, d)
    else if a.Code? then GetCodeValue(d, ch)
    else if a.Rfb? then Got(SUCCESS, d.ch[ch].rfb as bv16, d)
    else if IsGainAttr(a) then GetGainValue(d, a, ch)
    else
      ChAttrDispatchPartition(a);
      var addr := ChAttrReg(a);
      if WriteOnly(addr) then Got(-EINVAL, 0, d)
      else
        var r := ReadReg(d, addr);
        if IsErr(r.err) then r
        else Got(SUCCESS, FieldGet(ChAttrMask(a, ch), r.val), r.dev)
  }

  /** Get after set, for the table attributes: when the attribute's register
      reads back a value merged into channel `ch`'s field, the getter returns
      the value set, cut to the field. */
  lemma GetChValueAfterSet(d: Dev, a: ChAttr, ch: nat, current: bv16, val: bv16)
    requires |d.ch| == NUM_CH && ch < NUM_CH && InChTable(a) && !a.TriggerSoftwareLdac?
    requires ReadReg(d, ChAttrReg(a)).err == SUCCESS
    requires ReadReg(d, ChAttrReg(a)).val == MergeField(current, ChAttrMask(a, ch), val)
    ensures var m := ChAttrMask(a, ch);
      GetChValue(d, a, ch) ==
        Got(SUCCESS, val & Shr(m, LowestSetBit(m)), ReadReg(d, ChAttrReg(a)).dev)
  {
    var m := ChAttrMask(a, ch);
    ChAttrMaskIsDriverMask(a, ch);
    FieldRoundTrip(current, m, val);
    TableRead(d, a, ch);
  }

  /** The same read gives the other channel's field as it was in `current`:
      setting one channel's table attribute leaves the other channel's. */
  lemma GetChValueOtherChannelKept(d: Dev, a: ChAttr, ch: nat, current: bv16, val: bv16)
    requires |d.ch| == NUM_CH && ch < NUM_CH && InChTable(a) && !a.TriggerSoftwareLdac?
    requires ReadReg(d, ChAttrReg(a)).err == SUCCESS
    requires ReadReg(d, ChAttrReg(a)).val == MergeField(current, ChAttrMask(a, ch), val)
    ensures GetChValue(d, a, 1 - ch).val == FieldGet(ChAttrMask(a, 1 - ch), current)
  {
    var m := ChAttrMask(a, ch);
    MergeFieldKeepsOutside(current, m, val);
    ChMasksDisjoint(a);
    OtherFieldKept(MergeField(current, m, val), current, m, ChAttrMask(a, 1 - ch));
    TableRead(d, a, 1 - ch);
  }

  /** Every table mask is one of the driver's field masks. */
  lemma ChAttrMaskIsDriverMask(a: ChAttr, ch: nat)
    requires InChTable(a) && ch < NUM_CH
    ensures IsDriverMask(ChAttrMask(a, ch))
  {
  }

  /** The table branch of the channel getter, for a readable attribute. */
  lemma TableRead(d: Dev, a: ChAttr, ch: nat)
    requires |d.ch| == NUM_CH && ch < NUM_CH && InChTable(a) && !a.TriggerSoftwareLdac?
    ensures var r := ReadReg(d, ChAttrReg(a));
      !IsErr(r.err) ==> GetChValue(d, a, ch) == Got(SUCCESS, FieldGet(ChAttrMask(a, ch), r.val), r.dev)
  {
    ChAttrDispatchPartition(a);
  }

  /** A register that agrees with `current` outside the field `m` holds the
      same value as `current` in any field disjoint from `m`. */
  lemma OtherFieldKept(reg: bv16, current: bv16, m: bv16, m': bv16)
    requires m' != 0 && m & m' == 0 && reg & !m == current & !m
    ensures FieldGet(m', reg) == FieldGet(m', current)
  {
    DisjointMaskedEqual(reg, current, m, m');
  }

  /** Reading the software-LDAC trigger is refused with no transfer; every
      other table attribute is read from its register. */
  lemma SoftwareLdacIsWriteOnly(d: Dev, ch: nat)
    requires |d.ch| == NUM_CH && ch < NUM_CH
    ensures GetChValue(d, TriggerSoftwareLdac, ch) == Got(-EINVAL, 0, d)
    ensures forall a :: InChTable(a) && !a.TriggerSoftwareLdac? ==> !WriteOnly(ChAttrReg(a))
  {
  }

  /** ad3552r_set_ch_value. */
  function SetChValue(d: Dev, a: ChAttr, ch: nat, val: u16): (s: Step)
    requires Valid(d) && ch < NUM_CH
    ensures Valid(s.dev) && s.dev.chip == d.chip && s.dev.ch[1 - ch] == d.ch[1 - ch]
  {
    if a.FastEn? then Step(SUCCESS, SetCh(d, ch, d.ch[ch].(fastEn := val != 0)))
    else if a.Code? then SetCodeValue(d, ch, val)
    else if a.Rfb? then Step(SUCCESS, Recalc(SetCh(d, ch, d.ch[ch].(rfb := val)), ch))
    else if IsGainAttr(a) then SetGainValue(d, a, ch, val)
    else
      ChAttrDispatchPartition(a);
      SetTableValue(d, a, ch, val)
  }

  /** The table branch of ad3552r_set_ch_value: update the field, then,
      for the range selector, store the reduced value and recompute. */
  function SetTableValue(d: Dev, a: ChAttr, ch: nat, val: u16): (s: Step)
    requires Valid(d) && ch < NUM_CH && InChTable(a)
    ensures Valid(s.dev) && s.dev.chip == d.chip && s.dev.ch[1 - ch] == d.ch[1 - ch]
  {
    var s := UpdateRegField(d, ChAttrReg(a), ChAttrMask(a, ch), val as bv16);
    if IsErr(s.err) || !a.OutputRangeSel? then s
    else
      var c := s.dev.ch[ch].(range := RangeIndex(d.chip, val));
      Step(s.err, Recalc(SetCh(s.dev, ch, c), ch))
  }

  /** Fast mode and the feedback resistor live only in the record: setting
      them succeeds with no transfer, and the resistor triggers a
      recompute. */
  lemma SoftwareAttrsNoTraffic(d: Dev, ch: nat, val: u16)
    requires Valid(d) && ch < NUM_CH
    ensures SetChValue(d, FastEn, ch, val) == Step(SUCCESS, SetCh(d, ch, d.ch[ch].(fastEn := val != 0)))
    ensures SetChValue(d, Rfb, ch, val) ==
      Step(SUCCESS, SetCh(d, ch, Recalibrated(d.chip, d.ch[ch].(rfb := val))))
  {
  }

  /** `val %= AD3552R_RANGE_MAX_VALUE(chip_id) + 1`: the stored range
      selector is the written value reduced to a valid table index. */
  function RangeIndex(chip: ChipId, v: nat): (r: nat)
    ensures r <= RangeMax(chip)
    ensures v <= RangeMax(chip) ==> r == v
  {
    v % (RangeMax(chip) + 1)
  }

  /** A table attribute updates its field in the shared register; a failed
      update, or any attribute but the range selector, changes no channel
      record. */
  lemma SetTableAttr(d: Dev, a: ChAttr, ch: nat, val: u16)
    requires Valid(d) && ch < NUM_CH && InChTable(a)
    ensures var u := UpdateRegField(d, ChAttrReg(a), ChAttrMask(a, ch), val as bv16);
      var s := SetTableValue(d, a, ch, val);
      s.err == u.err &&
      (IsErr(u.err) || !a.OutputRangeSel? ==> s == u && s.dev.ch == d.ch)
  {
  }

  /** Once the register update went through, the range selector stores the
      value reduced modulo the number of ranges and keeps the other fields
      of the record but the calibration. */
  lemma SetRangeStored(d: Dev, ch: nat, val: u16)
    requires Valid(d) && ch < NUM_CH
    requires !IsErr(UpdateRegField(d, CH0_CH1_OUTPUT_RANGE, ChAttrMask(OutputRangeSel, ch), val as bv16).err)
    ensures var s := SetTableValue(d, OutputRangeSel, ch, val);
      s.dev.ch[ch] == Recalibrated(d.chip, d.ch[ch].(range := RangeIndex(d.chip, val))) &&
      s.dev.ch[ch].range <= RangeMax(d.chip) &&
      s.dev.ch[1 - ch] == d.ch[1 - ch]
  {
  }

  // ---------------------------------------------------------------------
  // ad3552r_get_scale / ad3552r_get_offset.

  /** The (integer, millionths) pair the getters hand out. */
  datatype Fixed = Fixed(err: int, integer: int, dec: int)

  function GetScale(d: Dev, ch: nat): (f: Fixed)
    requires |d.ch| == NUM_CH
    ensures ch >= NUM_CH <==> f.err == -EINVAL
    ensures ch < NUM_CH ==> f == Fixed(SUCCESS, d.ch[ch].calib.scaleInt, d.ch[ch].calib.scaleDec)
  {
    if ch >= NUM_CH then Fixed(-EINVAL, 0, 0)
    else Fixed(SUCCESS, d.ch[ch].calib.scaleInt, d.ch[ch].calib.scaleDec)
  }

  function GetOffset(d: Dev, ch: nat): (f: Fixed)
    requires |d.ch| == NUM_CH
    ensures ch >= NUM_CH <==> f.err == -EINVAL
    ensures ch < NUM_CH ==> f == Fixed(SUCCESS, d.ch[ch].calib.offsetInt, d.ch[ch].calib.offsetDec)
  {
    if ch >= NUM_CH then Fixed(-EINVAL, 0, 0)
    else Fixed(SUCCESS, d.ch[ch].calib.offsetInt, d.ch[ch].calib.offsetDec)
  }
}
