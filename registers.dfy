/** The register map of the AD3552R / AD3542R and the constant tables of
    drivers/dac/ad3552r/ad3552r.c that index it: register widths, bit
    fields, and the attribute -> (address, mask) maps. Addresses and masks
    come from the device's register map (ad3552r.h is not part of this
    model). The orderings the code relies on are proved in
    `AddressOrdering`. The other values are assumed, REG_ADDR_MAX = 0x4C
    among them: every chunk address of a CRC transfer is reduced modulo
    it, so a chunk at or above 0x4C takes its address and CRC seed from
    this value. */
module Registers {
  import opened CInt
  import opened Fields

  // ---- Primary region: single-byte configuration registers.
  const INTERFACE_CONFIG_A: u8 := 0x00
  const INTERFACE_CONFIG_B: u8 := 0x01
  const PRODUCT_ID_L: u8 := 0x04
  const PRODUCT_ID_H: u8 := 0x05
  const SCRATCH_PAD: u8 := 0x0A
  const STREAM_MODE: u8 := 0x0E
  const TRANSFER_REGISTER: u8 := 0x0F
  const INTERFACE_CONFIG_C: u8 := 0x10
  const INTERFACE_CONFIG_D: u8 := 0x14
  const SH_REFERENCE_CONFIG: u8 := 0x15
  const POWERDOWN_CONFIG: u8 := 0x18
  const CH0_CH1_OUTPUT_RANGE: u8 := 0x19

  function ChGain(ch: nat): u8 requires ch < NUM_CH { 0x1C + ch * 2 }

  // ---- Secondary region: DAC codes and LDAC/select, 16-bit then 24-bit.
  const SECONDARY_REGION_ADDR: u8 := 0x28
  const HW_LDAC_16B: u8 := 0x28
  const CH_SELECT_16B: u8 := 0x2F
  const SW_LDAC_16B: u8 := 0x32
  const HW_LDAC_24B: u8 := 0x37
  const CH_SELECT_24B: u8 := 0x41
  const SW_LDAC_24B: u8 := 0x45
  /** Size of the address space the CRC stream addressing wraps around.
      Assumed: one past the highest register, channel 1's 24-bit input
      register at 0x4B. */
  const REG_ADDR_MAX: u8 := 0x4C

  /** Multi-byte registers are named by their highest address: the device
      accesses them in descending order. */
  function ChDac16(ch: nat): u8 requires ch < NUM_CH { 0x2C - (1 - ch) * 2 }
  function ChInput16(ch: nat): u8 requires ch < NUM_CH { 0x36 - (1 - ch) * 2 }
  function ChDac24(ch: nat): u8 requires ch < NUM_CH { 0x3D - (1 - ch) * 3 }
  function ChInput24(ch: nat): u8 requires ch < NUM_CH { 0x4B - (1 - ch) * 3 }

  const NUM_CH: nat := 2
  const MAX_REG_SIZE: nat := 3

  lemma AddressOrdering()
    ensures HW_LDAC_16B < HW_LDAC_24B < REG_ADDR_MAX <= 256
    ensures SECONDARY_REGION_ADDR == 0x28
    ensures forall ch :: 0 <= ch < NUM_CH ==> ChGain(ch) < SECONDARY_REGION_ADDR
  {
  }

  // ---- Bit fields.
  const MASK_SOFTWARE_RESET: bv16 := 0x81
  const MASK_ADDR_ASCENSION: bv16 := 0x20
  const MASK_SINGLE_INST: bv16 := 0x80
  const MASK_INTERFACE_NOT_READY: bv16 := 0x80
  const MASK_CRC_ENABLE: bv16 := 0xC3
  const MASK_LENGTH: bv16 := 0xFF
  const MASK_STREAM_LENGTH_KEEP_VALUE: bv16 := 0x04
  const MASK_SDO_DRIVE_STRENGTH: bv16 := 0x0C
  const MASK_REFERENCE_VOLTAGE_SEL: bv16 := 0x03
  const MASK_CH_RANGE_OVERRIDE: bv16 := 0x80
  const MASK_CH_GAIN_SCALING_N: bv16 := 0x60
  const MASK_CH_GAIN_SCALING_P: bv16 := 0x18
  const MASK_CH_OFFSET_POLARITY: bv16 := 0x04
  const MASK_CH_OFFSET_BIT_8: bv16 := 0x01
  /** Used by the driver as a register ADDRESS for the offset low byte. */
  const MASK_CH_OFFSET_BITS_0_7: bv16 := 0xFF
  const MASK_ALL_CH: bv16 := 0x03
  const MASK_DAC_12B: bv16 := 0xFFF0

  function MaskChDacPowerdown(ch: nat): bv16 requires ch < NUM_CH { if ch == 0 then 0x10 else 0x20 }
  function MaskChAmplifierPowerdown(ch: nat): bv16 requires ch < NUM_CH { if ch == 0 then 0x01 else 0x02 }
  function MaskChOutputRangeSel(ch: nat): bv16 requires ch < NUM_CH { if ch == 0 then 0x0F else 0xF0 }
  function MaskCh(ch: nat): bv16 requires ch < NUM_CH { if ch == 0 then 0x01 else 0x02 }

  // ---- Register width.

  /** The six LDAC / channel-select registers are single bytes even though
      they sit in the multi-byte part of the map. */
  predicate IsLdacOrSelect(addr: u8)
  {
    addr == HW_LDAC_16B || addr == CH_SELECT_16B || addr == SW_LDAC_16B ||
    addr == HW_LDAC_24B || addr == CH_SELECT_24B || addr == SW_LDAC_24B
  }

  /** _ad3552r_reg_len: the width in bytes of the register at `addr`. It is
      never 0, so the `reg_len == 0` guards of the register accessors are
      dead code. */
  function RegLen(addr: u8): (n: nat)
    ensures 1 <= n <= MAX_REG_SIZE
  {
    if IsLdacOrSelect(addr) then 1
    else if addr > HW_LDAC_24B then 3
    else if addr > HW_LDAC_16B then 2
    else 1
  }

  /** One byte for the six LDAC / select registers and the primary region,
      three above HW_LDAC_24B, two in between. */
  lemma RegLenByRegion(addr: u8)
    ensures RegLen(addr) == 1 <==> IsLdacOrSelect(addr) || addr <= HW_LDAC_16B
    ensures RegLen(addr) == 3 <==> !IsLdacOrSelect(addr) && addr > HW_LDAC_24B
    ensures RegLen(addr) == 2 <==> !IsLdacOrSelect(addr) && HW_LDAC_16B < addr <= HW_LDAC_24B
  {
  }

  /** Apart from the six single-byte exceptions, the width only grows with
      the address: three contiguous tiers. */
  lemma RegLenTiers(a: u8, b: u8)
    requires !IsLdacOrSelect(a) && !IsLdacOrSelect(b) && a <= b
    ensures RegLen(a) <= RegLen(b)
  {
  }

  /** `reg_full_mask = (1 << (8 * reg_len)) - 1`, stored in a uint16_t: a
      3-byte register's full mask truncates to 0xFFFF. */
  function FullMask(addr: u8): (m: bv16)
  {
    if RegLen(addr) == 1 then 0xFF else 0xFFFF
  }

  /** The table above is the C expression evaluated in 32 bits and cut to
      16: one byte gives 0xFF, two and three bytes give 0xFFFF. */
  lemma FullMaskIsTruncatedShift(addr: u8)
    ensures var n := RegLen(addr);
      var full: bv32 := (1 << (8 * n)) - 1;
      FullMask(addr) == (full & 0xFFFF) as bv16
    ensures RegLen(addr) == 1 <==> FullMask(addr) == 0xFF
  {
    var n := RegLen(addr);
    if n == 1 {
      assert ((1 as bv32 << 8) - 1) & 0xFFFF == 0xFF;
    } else if n == 2 {
      assert ((1 as bv32 << 16) - 1) & 0xFFFF == 0xFFFF;
    } else {
      assert ((1 as bv32 << 24) - 1) & 0xFFFF == 0xFFFF;
    }
  }

  // ---- Attribute tables (addr_mask_map, addr_mask_map_ch).

  /** Device attributes: the public ones and the serial-interface ones the
      driver uses internally. */
  datatype DevAttr =
    | SdoDriveStrength | VrefSelect | CrcEnable
    | AddrAscension | SingleInst | StreamMode | StreamLengthKeepValue

  function DevAttrReg(a: DevAttr): u8
  {
    match a
    case AddrAscension => INTERFACE_CONFIG_A
    case SingleInst => INTERFACE_CONFIG_B
    case StreamMode => STREAM_MODE
    case StreamLengthKeepValue => TRANSFER_REGISTER
    case SdoDriveStrength => INTERFACE_CONFIG_D
    case VrefSelect => SH_REFERENCE_CONFIG
    case CrcEnable => INTERFACE_CONFIG_C
  }

  function DevAttrMask(a: DevAttr): (m: bv16)
    ensures m != 0
  {
    match a
    case AddrAscension => MASK_ADDR_ASCENSION
    case SingleInst => MASK_SINGLE_INST
    case StreamMode => MASK_LENGTH
    case StreamLengthKeepValue => MASK_STREAM_LENGTH_KEEP_VALUE
    case SdoDriveStrength => MASK_SDO_DRIVE_STRENGTH
    case VrefSelect => MASK_REFERENCE_VOLTAGE_SEL
    case CrcEnable => MASK_CRC_ENABLE
  }

  /** Every device attribute lives in the single-byte primary region, so
      its accesses are never refused for address ascension. */
  lemma DevAttrRegsArePrimary(a: DevAttr)
    ensures DevAttrReg(a) < SECONDARY_REGION_ADDR && RegLen(DevAttrReg(a)) == 1
  {
  }

  /** Channel attributes, in the order of the driver's enumeration. */
  datatype ChAttr =
    | DacPowerdown | AmplifierPowerdown | OutputRangeSel
    | RangeOverride | GainOffset | GainOffsetPolarity | GainScalingP | GainScalingN
    | TriggerSoftwareLdac | HwLdacMask | Rfb | Select | Code | FastEn

  /** `attr >= AD3552R_CH_RANGE_OVERRIDE && attr <= AD3552R_CH_GAIN_SCALING_N`. */
  predicate IsGainAttr(a: ChAttr)
  {
    a.RangeOverride? || a.GainOffset? || a.GainOffsetPolarity? || a.GainScalingP? || a.GainScalingN?
  }

  /** Attributes with an entry in addr_mask_map_ch. */
  predicate InChTable(a: ChAttr)
  {
    a.DacPowerdown? || a.AmplifierPowerdown? || a.OutputRangeSel? ||
    a.TriggerSoftwareLdac? || a.HwLdacMask? || a.Select?
  }

  /** The dispatch of get/set_ch_value is exhaustive: an attribute is
      handled without the table (fast mode, code, feedback resistor), by the
      gain-register path, or through the table -- exactly one of them. */
  lemma ChAttrDispatchPartition(a: ChAttr)
    ensures (a.FastEn? || a.Code? || a.Rfb?) || IsGainAttr(a) || InChTable(a)
    ensures !(IsGainAttr(a) && InChTable(a))
    ensures (a.FastEn? || a.Code? || a.Rfb?) ==> !IsGainAttr(a) && !InChTable(a)
  {
  }

  function ChAttrReg(a: ChAttr): u8
    requires InChTable(a)
  {
    match a
    case DacPowerdown => POWERDOWN_CONFIG
    case AmplifierPowerdown => POWERDOWN_CONFIG
    case OutputRangeSel => CH0_CH1_OUTPUT_RANGE
    case TriggerSoftwareLdac => SW_LDAC_16B
    case HwLdacMask => HW_LDAC_16B
    case Select => CH_SELECT_16B
  }

  function ChAttrMask(a: ChAttr, ch: nat): (m: bv16)
    requires InChTable(a) && ch < NUM_CH
    ensures m != 0
  {
    match a
    case DacPowerdown => MaskChDacPowerdown(ch)
    case AmplifierPowerdown => MaskChAmplifierPowerdown(ch)
    case OutputRangeSel => MaskChOutputRangeSel(ch)
    case TriggerSoftwareLdac => MaskCh(ch)
    case HwLdacMask => MaskCh(ch)
    case Select => MaskCh(ch)
  }

  /** The two channels' masks for one attribute select disjoint bits of the
      shared register, so updating one channel's field leaves the other's. */
  lemma ChMasksDisjoint(a: ChAttr)
    requires InChTable(a)
    ensures ChAttrMask(a, 0) & ChAttrMask(a, 1) == 0
  {
  }

  // ---- Code registers (_get_code_reg_addr).

  /** Address of channel `ch`'s code register: DAC or input register, 16-bit
      (fast) or 24-bit (precision) layout. */
  function CodeRegAddr(ch: nat, isDac: bool, isFast: bool): (a: u8)
    requires ch < NUM_CH
    ensures a >= SECONDARY_REGION_ADDR && !IsLdacOrSelect(a)
    ensures RegLen(a) == if isFast then 2 else 3
  {
    if isDac then (if isFast then ChDac16(ch) else ChDac24(ch))
    else (if isFast then ChInput16(ch) else ChInput24(ch))
  }
}
