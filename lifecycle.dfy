/** Bring-up of the part: the reset and its bounded readiness poll, the
    scratch-pad self-test, the product-ID check, the configuration of the
    reference, drive strength and channels, and the init sequence that
    runs them in order. */
module Lifecycle {
  import opened CInt
  import opened Registers
  import opened Calibration
  import opened Device
  import opened RegIo
  import opened Attrs

  /** INTERFACE_CONFIG_B reads this right after a reset. */
  const DEFAULT_CONFIG_B_VALUE: bv16 := 0x8
  /** The number of INTERFACE_CONFIG_B reads the reset waits at most. */
  const RESET_TIMEOUT: nat := 5000
  const SCRATCH_PAD_TEST_VAL1: bv16 := 0x34
  const SCRATCH_PAD_TEST_VAL2: bv16 := 0xB2

  // ---------------------------------------------------------------------
  // ad3552r_reset

  /** The outcome of the readiness poll: its status, the values the
      successful reads returned, in order, and the state after it. */
  datatype Polled = Polled(err: int, vals: seq<bv16>, dev: Dev)

  /** A register read as the poll sees it: the outcome from the state it
      starts in. */
  type Reader = Dev -> Got

  /** INTERFACE_CONFIG_B read through ad3552r_read_reg. */
  function ConfigBRead(): Reader
  {
    e => ReadReg(e, INTERFACE_CONFIG_B)
  }

  /** The poll loop of ad3552r_reset with `timeout` reads left, each done
      by `read`. Until the default value 0x8 has been seen (`first`),
      values are only compared with it; afterwards the loop ends at the
      first value with NOT_READY clear. A failed read ends it with that
      error, and the last allowed read that does not end it gives -EIO. */
  function PollWith(read: Reader, d: Dev, timeout: nat, first: bool): Polled
    requires timeout >= 1
    decreases timeout
  {
    var r := read(d);
    if IsErr(r.err) then Polled(r.err, [], r.dev)
    else if first && Ready(r.val) then Polled(SUCCESS, [r.val], r.dev)
    else if timeout == 1 then Polled(-EIO, [r.val], r.dev)
    else
      var p := PollWith(read, r.dev, timeout - 1, first || r.val == DEFAULT_CONFIG_B_VALUE);
      Polled(p.err, [r.val] + p.vals, p.dev)
  }

  /** The poll of ad3552r_reset. */
  function Poll(d: Dev, timeout: nat, first: bool): (p: Polled)
    requires timeout >= 1
    ensures SameButBus(d, p.dev)
  {
    PollFrame(ConfigBRead(), d, timeout, first);
    PollWith(ConfigBRead(), d, timeout, first)
  }

  /** Reads that leave all but the bus alone, and fail only with negative
      codes. */
  ghost predicate BusRead(read: Reader)
  {
    forall e :: SameButBus(e, read(e).dev) && (read(e).err == SUCCESS || IsErr(read(e).err))
  }

  /** `read` is ad3552r_read_reg of INTERFACE_CONFIG_B. */
  ghost predicate ReadsConfigB(read: Reader)
  {
    forall e {:trigger ReadReg(e, INTERFACE_CONFIG_B)} :: read(e) == ReadReg(e, INTERFACE_CONFIG_B)
  }

  lemma ConfigBReadReadsConfigB()
    ensures ReadsConfigB(ConfigBRead())
  {
  }

  lemma ConfigBReadIsBusRead()
    ensures BusRead(ConfigBRead())
  {
  }

  lemma {:induction false} PollFrame(read: Reader, d: Dev, timeout: nat, first: bool)
    requires timeout >= 1 && BusRead(read)
    ensures SameButBus(d, PollWith(read, d, timeout, first).dev)
    decreases timeout
  {
    var r := read(d);
    if !IsErr(r.err) && !(first && Ready(r.val)) && timeout > 1 {
      PollFrame(read, r.dev, timeout - 1, first || r.val == DEFAULT_CONFIG_B_VALUE);
    }
  }

  /** The poll reads at most `timeout` times, running out of reads is
      -EIO, and it fails only with negative codes. */
  lemma {:induction false} PollBounds(read: Reader, d: Dev, timeout: nat, first: bool)
    requires timeout >= 1 && BusRead(read)
    ensures var p := PollWith(read, d, timeout, first);
      |p.vals| <= timeout &&
      (|p.vals| == timeout && p.err != SUCCESS ==> p.err == -EIO) &&
      (p.err == SUCCESS || IsErr(p.err))
    decreases timeout
  {
    var r := read(d);
    if !IsErr(r.err) && !(first && Ready(r.val)) && timeout > 1 {
      PollBounds(read, r.dev, timeout - 1, first || r.val == DEFAULT_CONFIG_B_VALUE);
    }
  }

  /** A successful poll ends on a value with NOT_READY clear. */
  lemma {:induction false} PollEndsReady(read: Reader, d: Dev, timeout: nat, first: bool)
    requires timeout >= 1
    ensures var p := PollWith(read, d, timeout, first);
      p.err == SUCCESS ==> |p.vals| >= 1 && Ready(Last(p.vals))
    decreases timeout
  {
    var r := read(d);
    if IsErr(r.err) {
    } else if first && Ready(r.val) {
      assert PollWith(read, d, timeout, first).vals == [r.val];
    } else if timeout > 1 {
      var first' := first || r.val == DEFAULT_CONFIG_B_VALUE;
      PollEndsReady(read, r.dev, timeout - 1, first');
      var p := PollWith(read, r.dev, timeout - 1, first');
      assert PollWith(read, d, timeout, first) == Polled(p.err, [r.val] + p.vals, p.dev);
      if p.err == SUCCESS {
        LastCons(r.val, p.vals);
      }
    }
  }

  /** A poll started before the default value was seen succeeds only after
      reading it: success needs the default value, then a ready one. */
  lemma {:induction false} PollSawDefault(read: Reader, d: Dev, timeout: nat, first: bool)
    requires timeout >= 1
    ensures var p := PollWith(read, d, timeout, first);
      p.err == SUCCESS && !first ==> ReadyAfterDefault(p.vals)
    decreases timeout
  {
    var r := read(d);
    if !first && !IsErr(r.err) && timeout > 1 {
      var first' := r.val == DEFAULT_CONFIG_B_VALUE;
      var p := PollWith(read, r.dev, timeout - 1, first');
      assert PollWith(read, d, timeout, first) == Polled(p.err, [r.val] + p.vals, p.dev);
      if p.err == SUCCESS {
        PollEndsReady(read, r.dev, timeout - 1, first');
        PollSawDefault(read, r.dev, timeout - 1, first');
        DefaultThenReady(r.val, p.vals);
      }
    }
  }

  /** INTERFACE_CONFIG_B with its NOT_READY bit clear. */
  predicate Ready(v: bv16)
  {
    v & MASK_INTERFACE_NOT_READY == 0
  }

  /** The last value read. */
  function Last(vals: seq<bv16>): bv16
    requires |vals| >= 1
  {
    vals[|vals| - 1]
  }

  lemma LastCons(v: bv16, vals: seq<bv16>)
    requires |vals| >= 1
    ensures Last([v] + vals) == Last(vals)
  {
  }

  /** The reads show the default value, and later a value with NOT_READY
      clear as the last one. */
  predicate ReadyAfterDefault(vals: seq<bv16>)
  {
    |vals| >= 2 && Ready(Last(vals)) &&
    exists i :: 0 <= i < |vals| - 1 && vals[i] == DEFAULT_CONFIG_B_VALUE
  }

  /** One more read in front of a ready ending supplies the default value
      when it is one, and keeps one seen later. */
  lemma DefaultThenReady(v: bv16, vals: seq<bv16>)
    requires |vals| >= 1 && Ready(Last(vals))
    requires v == DEFAULT_CONFIG_B_VALUE || ReadyAfterDefault(vals)
    ensures ReadyAfterDefault([v] + vals)
  {
    var w := [v] + vals;
    LastCons(v, vals);
    if v == DEFAULT_CONFIG_B_VALUE {
      assert w[0] == DEFAULT_CONFIG_B_VALUE;
    } else {
      var i :| 0 <= i < |vals| - 1 && vals[i] == DEFAULT_CONFIG_B_VALUE;
      assert w[i + 1] == vals[i];
    }
  }

  /** The start of the reset: a pulse on the reset pin when there is one,
      otherwise the software-reset bits of INTERFACE_CONFIG_A. */
  function ResetStart(d: Dev): (s: Step)
    ensures s.dev.cfg == d.cfg && s.dev.ch == d.ch && s.dev.chip == d.chip && s.dev.crcEn == d.crcEn
  {
    if d.hasReset then Step(SUCCESS, d.(pulses := d.pulses + [ResetPulse]))
    else UpdateRegField(d, INTERFACE_CONFIG_A, MASK_SOFTWARE_RESET, MASK_SOFTWARE_RESET)
  }

  /** ad3552r_reset: start the reset, poll for readiness, then clear
      address ascension in the device, which leaves the cached `spi_cfg`
      as it was. It succeeds only after the poll saw the default value and
      then readiness within the read budget; an exhausted budget is -EIO. */
  function Reset(d: Dev): (s: Step)
    ensures s.err == SUCCESS || IsErr(s.err)
    ensures s.dev.cfg == d.cfg && s.dev.ch == d.ch && s.dev.chip == d.chip && s.dev.crcEn == d.crcEn
    ensures var s0 := ResetStart(d);
      s.err == SUCCESS ==>
        !IsErr(s0.err) &&
        var p := Poll(s0.dev, RESET_TIMEOUT, false);
        p.err == SUCCESS && ReadyAfterDefault(p.vals) && |p.vals| <= RESET_TIMEOUT
    ensures var s0 := ResetStart(d);
      var p := Poll(s0.dev, RESET_TIMEOUT, false);
      !IsErr(s0.err) && |p.vals| == RESET_TIMEOUT && p.err != SUCCESS ==> s.err == -EIO
  {
    var s0 := ResetStart(d);
    if IsErr(s0.err) then s0
    else
      var p := Poll(s0.dev, RESET_TIMEOUT, false);
      ConfigBReadIsBusRead();
      PollBounds(ConfigBRead(), s0.dev, RESET_TIMEOUT, false);
      PollSawDefault(ConfigBRead(), s0.dev, RESET_TIMEOUT, false);
      if IsErr(p.err) then Step(p.err, p.dev)
      else
        var s := SetRegAttr(p.dev, AddrAscension, 0);
        if IsErr(s.err) then s else Step(SUCCESS, s.dev)
  }

  // ---------------------------------------------------------------------
  // ad3552r_check_scratch_pad

  /** One half of the self-test: write `v` to the scratch pad and read it
      back. */
  function ScratchProbe(d: Dev, v: bv16): (s: Step)
    ensures s.err == SUCCESS || IsErr(s.err)
    ensures SameButBus(d, s.dev)
  {
    var w := WriteReg(d, SCRATCH_PAD, v);
    if w.err < 0 then w
    else
      var r := ReadReg(w.dev, SCRATCH_PAD);
      if r.err < 0 then Step(r.err, r.dev)
      else if r.val != v then Step(-ENODEV, r.dev)
      else Step(SUCCESS, r.dev)
  }

  /** The write of `v` and the read after it both went through, and the
      read returned `v`. */
  predicate ReadsBack(d: Dev, v: bv16)
  {
    var w := WriteReg(d, SCRATCH_PAD, v);
    !IsErr(w.err) &&
    var r := ReadReg(w.dev, SCRATCH_PAD);
    !IsErr(r.err) && r.val == v
  }

  /** ad3552r_check_scratch_pad: 0x34, then 0xB2. */
  function ScratchPad(d: Dev): (s: Step)
    ensures s.err == SUCCESS || IsErr(s.err)
    ensures SameButBus(d, s.dev)
  {
    var s1 := ScratchProbe(d, SCRATCH_PAD_TEST_VAL1);
    if s1.err < 0 then s1 else ScratchProbe(s1.dev, SCRATCH_PAD_TEST_VAL2)
  }

  /** The self-test passes exactly when both values read back, and a value
      that does not read back, with no transfer failing, is -ENODEV. */
  lemma ScratchPadVerdict(d: Dev)
    ensures var s1 := ScratchProbe(d, SCRATCH_PAD_TEST_VAL1);
      ScratchPad(d).err == SUCCESS <==>
        ReadsBack(d, SCRATCH_PAD_TEST_VAL1) && ReadsBack(s1.dev, SCRATCH_PAD_TEST_VAL2)
    ensures forall v ::
      var w := WriteReg(d, SCRATCH_PAD, v);
      var r := ReadReg(w.dev, SCRATCH_PAD);
      !IsErr(w.err) && !IsErr(r.err) && r.val != v ==> ScratchProbe(d, v).err == -ENODEV
  {
  }

  // ---------------------------------------------------------------------
  // The product-ID check of ad3552r_init.

  /** `id = L; id |= H << 8` in a uint16_t. */
  function ChipIdOf(lo: bv16, hi: bv16): bv16
  {
    lo | (hi << 8)
  }

  /** For byte-wide reads the assembled ID matches the variant's code
      exactly when the high byte is 0x40 and the low byte 0x08 (AD3542R)
      or 0x09 (AD3552R). */
  lemma ChipIdMatch(lo: bv16, hi: bv16, c: ChipId)
    requires lo < 0x100 && hi < 0x100
    ensures ChipIdOf(lo, hi) == ChipIdCode(c) <==>
      hi == 0x40 && lo == (if c.AD3542R? then 0x08 else 0x09)
  {
    ChipIdBytes(lo, hi);
  }

  /** Both bytes can be recovered from the assembled ID. */
  lemma ChipIdBytes(lo: bv16, hi: bv16)
    requires lo < 0x100 && hi < 0x100
    ensures ChipIdOf(lo, hi) & 0xFF == lo && ChipIdOf(lo, hi) >> 8 == hi
  {
  }

  /** A 1-byte register reads as a value below 0x100. */
  lemma ByteRegisterRead(d: Dev, addr: u8)
    requires RegLen(addr) == 1
    ensures ReadReg(d, addr).val < 0x100
  {
  }

  /** Read PRODUCT_ID_L, then PRODUCT_ID_H, and compare the assembled ID
      with the requested variant's; any non-zero read status fails. */
  function CheckChipId(d: Dev, c: ChipId): (s: Step)
    ensures s.err == SUCCESS || IsErr(s.err)
    ensures SameButBus(d, s.dev)
  {
    var l := ReadReg(d, PRODUCT_ID_L);
    if l.err != SUCCESS then Step(l.err, l.dev)
    else
      var h := ReadReg(l.dev, PRODUCT_ID_H);
      if h.err != SUCCESS then Step(h.err, h.dev)
      else if ChipIdOf(l.val, h.val) != ChipIdCode(c) then Step(-ENODEV, h.dev)
      else Step(SUCCESS, h.dev)
  }

  /** The check passes exactly when both reads go through and return the
      variant's two ID bytes; if they go through with other bytes, the
      answer is -ENODEV. */
  lemma ChipIdVerdict(d: Dev, c: ChipId)
    ensures var l := ReadReg(d, PRODUCT_ID_L);
      var h := ReadReg(l.dev, PRODUCT_ID_H);
      var ok := l.err == SUCCESS && h.err == SUCCESS;
      (CheckChipId(d, c).err == SUCCESS <==>
        ok && h.val == 0x40 && l.val == (if c.AD3542R? then 0x08 else 0x09)) &&
      (ok && !(h.val == 0x40 && l.val == (if c.AD3542R? then 0x08 else 0x09)) ==>
        CheckChipId(d, c).err == -ENODEV)
  {
    var l := ReadReg(d, PRODUCT_ID_L);
    var h := ReadReg(l.dev, PRODUCT_ID_H);
    ByteRegisterRead(d, PRODUCT_ID_L);
    ByteRegisterRead(l.dev, PRODUCT_ID_H);
    ChipIdMatch(l.val, h.val, c);
  }

  // ---------------------------------------------------------------------
  // ad3552r_configure_device

  /** A channel's output range: an index into the variant's table, or the
      custom gain/offset configuration. */
  datatype RangeParam = TableRangeParam(idx: u8) | CustomRangeParam

  /** struct ad3552r_channel_init. `customStatus` is the status the custom
      gain configuration returns for this channel. */
  datatype ChannelParam = ChannelParam(en: bool, fastEn: bool, range: RangeParam, customStatus: int)

  /** The parts of struct ad3552r_init_param the model uses. */
  datatype InitParam = InitParam(
    chip: ChipId, crcEn: u8, useExternalVref: bool, vrefOutEnable: bool,
    sdoDriveStrength: u8, channels: seq<ChannelParam>,
    hasReset: bool, hasLdac: bool)

  /** enum ad3552r_vref_select. */
  const INTERNAL_VREF_PIN_FLOATING: u16 := 0
  const INTERNAL_VREF_PIN_2P5V: u16 := 1
  const EXTERNAL_VREF_PIN_INPUT: u16 := 2

  /** The reference selection: an external reference wins over the
      internal one driven out, which wins over a floating pin. */
  function VrefValue(p: InitParam): (v: u16)
    ensures v <= 2
    ensures p.useExternalVref <==> v == EXTERNAL_VREF_PIN_INPUT
    ensures v == INTERNAL_VREF_PIN_2P5V <==> !p.useExternalVref && p.vrefOutEnable
  {
    if p.useExternalVref then EXTERNAL_VREF_PIN_INPUT
    else if p.vrefOutEnable then INTERNAL_VREF_PIN_2P5V
    else INTERNAL_VREF_PIN_FLOATING
  }

  /** One iteration of the channel loop. An enabled channel takes its fast
      mode flag first; a table range above the variant's maximum is then
      -EINVAL, otherwise the range is stored and written through
      ad3552r_set_ch_value. A disabled channel has its amplifier powered
      down. */
  function ConfigureChannel(d: Dev, c: ChannelParam, i: nat): (s: Step)
    requires Valid(d) && i < NUM_CH
    ensures Valid(s.dev) && s.dev.chip == d.chip && s.dev.ch[1 - i] == d.ch[1 - i]
  {
    if c.en then
      var d1 := SetCh(d, i, d.ch[i].(fastEn := c.fastEn));
      match c.range
      case CustomRangeParam =>
        if IsErr(c.customStatus) then Step(c.customStatus, d1) else Step(SUCCESS, d1)
      case TableRangeParam(r) =>
        if r as nat > RangeMax(d.chip) then Step(-EINVAL, d1)
        else SetChValue(SetCh(d1, i, d1.ch[i].(range := r)), OutputRangeSel, i, r)
    else SetChValue(d, AmplifierPowerdown, i, 1)
  }

  /** The channel loop from channel `i` on; the first failure ends it. */
  function ConfigureChannels(d: Dev, cs: seq<ChannelParam>, i: nat): (s: Step)
    requires Valid(d) && |cs| == NUM_CH && i <= NUM_CH
    ensures Valid(s.dev) && s.dev.chip == d.chip
    ensures s.err == SUCCESS || IsErr(s.err)
    decreases NUM_CH - i
  {
    if i == NUM_CH then Step(SUCCESS, d)
    else
      var s := ConfigureChannel(d, cs[i], i);
      if IsErr(s.err) then s else ConfigureChannels(s.dev, cs, i + 1)
  }

  /** ad3552r_configure_device, with the LDAC pin reduced to its presence. */
  function Configure(d: Dev, p: InitParam): (s: Step)
    requires Valid(d) && |p.channels| == NUM_CH
    ensures Valid(s.dev) && s.dev.chip == d.chip
    ensures s.err == SUCCESS || IsErr(s.err)
  {
    var s1 := SetDevValue(d, VrefSelect, VrefValue(p));
    if IsErr(s1.err) then s1
    else if p.sdoDriveStrength > 3 then Step(-EINVAL, s1.dev)
    else
      var s2 := SetDevValue(s1.dev, SdoDriveStrength, p.sdoDriveStrength);
      if IsErr(s2.err) then s2
      else
        var s3 := ConfigureChannels(s2.dev, p.channels, 0);
        if IsErr(s3.err) then s3 else Step(SUCCESS, s3.dev.(hasLdac := p.hasLdac))
  }

  /** A drive strength above 3 is refused right after the reference is
      selected: nothing else is sent. */
  lemma DriveStrengthRejected(d: Dev, p: InitParam)
    requires Valid(d) && |p.channels| == NUM_CH && p.sdoDriveStrength > 3
    ensures var v := SetDevValue(d, VrefSelect, VrefValue(p));
      Configure(d, p) == if IsErr(v.err) then v else Step(-EINVAL, v.dev)
  {
  }

  /** An enabled channel with a table range above the variant's maximum is
      refused with no transfer, after its fast-mode flag was stored. */
  lemma ChannelRangeRejected(d: Dev, c: ChannelParam, i: nat)
    requires Valid(d) && i < NUM_CH
    requires c.en && c.range.TableRangeParam? && c.range.idx as nat > RangeMax(d.chip)
    ensures ConfigureChannel(d, c, i) == Step(-EINVAL, SetCh(d, i, d.ch[i].(fastEn := c.fastEn)))
  {
  }

  /** An out-of-table range on any enabled channel makes the whole
      configuration fail. */
  lemma RangeRejected(d: Dev, p: InitParam, k: nat)
    requires Valid(d) && |p.channels| == NUM_CH && k < NUM_CH
    requires var c := p.channels[k];
      c.en && c.range.TableRangeParam? && c.range.idx as nat > RangeMax(d.chip)
    ensures IsErr(Configure(d, p).err)
  {
    var s1 := SetDevValue(d, VrefSelect, VrefValue(p));
    if !IsErr(s1.err) && p.sdoDriveStrength <= 3 {
      var s2 := SetDevValue(s1.dev, SdoDriveStrength, p.sdoDriveStrength);
      if !IsErr(s2.err) {
        ChannelsRangeRejected(s2.dev, p.channels, 0, k);
      }
    }
  }

  lemma {:induction false} ChannelsRangeRejected(d: Dev, cs: seq<ChannelParam>, i: nat, k: nat)
    requires Valid(d) && |cs| == NUM_CH && i <= k < NUM_CH
    requires cs[k].en && cs[k].range.TableRangeParam? && cs[k].range.idx as nat > RangeMax(d.chip)
    ensures IsErr(ConfigureChannels(d, cs, i).err)
    decreases NUM_CH - i
  {
    var s := ConfigureChannel(d, cs[i], i);
    if i == k {
      ChannelRangeRejected(d, cs[i], i);
    } else if !IsErr(s.err) {
      ChannelsRangeRejected(s.dev, cs, i + 1, k);
    }
  }

  /** A successfully configured enabled channel with a table range holds
      that range and its fast-mode flag. */
  lemma ChannelConfigured(d: Dev, c: ChannelParam, i: nat)
    requires Valid(d) && i < NUM_CH && c.en && c.range.TableRangeParam?
    requires !IsErr(ConfigureChannel(d, c, i).err)
    ensures var e := ConfigureChannel(d, c, i).dev;
      e.ch[i].range == c.range.idx as nat && e.ch[i].fastEn == c.fastEn
  {
    var r := c.range.idx;
    var d1 := SetCh(d, i, d.ch[i].(fastEn := c.fastEn));
    assert r as nat <= RangeMax(d.chip);
    var d2 := SetCh(d1, i, d1.ch[i].(range := r));
    assert ConfigureChannel(d, c, i) == SetTableValue(d2, OutputRangeSel, i, r);
    SetTableAttr(d2, OutputRangeSel, i, r);
    SetRangeStored(d2, i, r);
  }

  // ---------------------------------------------------------------------
  // ad3552r_init

  /** The descriptor calloc hands out, on a bus that will answer with
      `replies`: everything zero, the reset pin present or not. */
  function FreshDev(p: InitParam, replies: seq<Reply>): (d: Dev)
    ensures Valid(d)
  {
    Dev(SpiCfg(0, 0, 0, 0), 0, AD3542R, [ZERO_CHANNEL, ZERO_CHANNEL],
        p.hasReset, false, [], replies, [])
  }

  /** The checks of ad3552r_init before the configuration: reset, the CRC
      setting, the scratch-pad test and the product ID. */
  function Probe(d: Dev, p: InitParam): (s: Step)
    ensures s.err == SUCCESS || IsErr(s.err)
    ensures s.dev.ch == d.ch && s.dev.chip == d.chip
  {
    var r := Reset(d);
    if IsErr(r.err) then r
    else
      var c := SetDevValue(r.dev, CrcEnable, p.crcEn);
      if IsErr(c.err) then c
      else
        var sp := ScratchPad(c.dev);
        if IsErr(sp.err) then sp
        else CheckChipId(sp.dev, p.chip)
  }

  /** ad3552r_init: the checks, then the variant is recorded and the device
      configured; a failed configuration is reported as -ENODEV. */
  function Init(p: InitParam, replies: seq<Reply>): (s: Step)
    requires |p.channels| == NUM_CH
    ensures s.err == SUCCESS || IsErr(s.err)
    ensures s.err == SUCCESS ==> Valid(s.dev) && s.dev.chip == p.chip
    ensures var b := Probe(FreshDev(p, replies), p);
      b.err == SUCCESS ==>
        var c := Configure(b.dev.(chip := p.chip), p);
        (s.err == SUCCESS <==> !IsErr(c.err)) && (IsErr(c.err) ==> s.err == -ENODEV)
  {
    var b := Probe(FreshDev(p, replies), p);
    if b.err != SUCCESS then b
    else
      var c := Configure(b.dev.(chip := p.chip), p);
      if IsErr(c.err) then Step(-ENODEV, c.dev) else c
  }

  /** Init succeeds only when the ID check passed: the two ID registers
      read back the variant's bytes. */
  lemma InitChecksChipId(p: InitParam, replies: seq<Reply>)
    requires |p.channels| == NUM_CH
    requires Init(p, replies).err == SUCCESS
    ensures Probe(FreshDev(p, replies), p).err == SUCCESS
  {
  }
}
