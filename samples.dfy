/** The sample write path: the LDAC trigger, the two-channel frame of
    ad3552r_write_all_channels and the sample loop of
    ad3552r_write_samples. */
module Samples {
  import opened CInt
  import opened Bytes
  import opened Registers
  import opened Calibration
  import opened Device
  import opened Transfer
  import opened RegIo

  /** enum ad3552r_write_mode. */
  datatype WriteMode = WriteDacRegs | WriteInputRegs | WriteInputRegsAndTriggerLdac

  // ---------------------------------------------------------------------
  // ad3552r_ldac_trigger

  /** Without an LDAC pin the mask goes to the software-LDAC register;
      with one, the pin is pulsed. */
  function LdacTrigger(d: Dev, mask: bv16): (s: Step)
    ensures s.dev.cfg == d.cfg && s.dev.ch == d.ch && s.dev.chip == d.chip && s.dev.hasLdac == d.hasLdac
    ensures d.hasLdac ==> s.err == SUCCESS && s.dev.sent == d.sent && s.dev.pulses == d.pulses + [LdacPulse]
    ensures !d.hasLdac ==> s.dev.pulses == d.pulses && |s.dev.sent| >= |d.sent|
  {
    if !d.hasLdac then WriteReg(d, SW_LDAC_24B, mask)
    else Step(SUCCESS, d.(pulses := d.pulses + [LdacPulse]))
  }

  /** The software trigger writes the low byte of the mask, with no
      refusal: the register is a 1-byte one and ascension is off. */
  lemma SoftwareLdacWritesMaskByte(d: Dev, mask: bv16)
    requires !d.hasLdac && d.cfg.addrAsc == 0
    ensures var s := LdacTrigger(d, mask);
      s.err == Exchange(d, false, SW_LDAC_24B, [(mask & 0xFF) as bv8, 0, 0], 1).err &&
      |s.dev.sent| > |d.sent|
  {
  }

  // ---------------------------------------------------------------------
  // ad3552r_write_all_channels

  /** The buffer handed to the transfer and the number of bytes sent. */
  datatype Frame = Frame(buff: seq<bv8>, len: nat)

  /** The 7-byte buffer of ad3552r_write_all_channels, built as the code
      builds it: channel 0 big-endian, masked to 12 bits in fast mode or
      padded with a zero byte otherwise, then channel 1 likewise, except
      that the fast-mode mask lands on `buff[len + 1]` (byte 5), and the
      software-LDAC mask when `trailer` holds. */
  function AllChannelsBuffer(fast: bool, v0: bv16, v1: bv16, trailer: bool): (f: Frame)
    ensures |f.buff| == 7 && f.len <= 7
  {
    var h0 := Be16(v0);
    var h1 := Be16(v1);
    var b1: seq<bv8> := [h0[0], h0[1], 0, 0, 0, 0, 0];
    var b2 := if fast then b1[1 := b1[1] & 0xF0] else b1;
    var len1 := if fast then 2 else 3;
    var b3 := b2[len1 := h1[0]][len1 + 1 := h1[1]];
    var len2 := len1 + 2;
    var b4 := if fast then b3[len2 + 1 := b3[len2 + 1] & 0xF0] else b3;
    var len3 := if fast then len2 else len2 + 1;
    if trailer then Frame(b4[len3 := MASK_ALL_CH as bv8], len3 + 1) else Frame(b4, len3)
  }

  /** The codes part of the frame byte by byte, before any trailer. */
  lemma CodesBytes(fast: bool, v0: bv16, v1: bv16)
    ensures var h0 := Be16(v0);
      var h1 := Be16(v1);
      AllChannelsBuffer(fast, v0, v1, false) ==
        if fast then Frame([h0[0], h0[1] & 0xF0, h1[0], h1[1], 0, 0, 0], 4)
        else Frame([h0[0], h0[1], 0, h1[0], h1[1], 0, 0], 6)
  {
  }

  /** The bytes sent in fast mode: channel 0 cut to its top 12 bits but
      channel 1 with its low four bits as given, then the LDAC mask when
      asked for. */
  lemma FastLayout(v0: bv16, v1: bv16, trailer: bool)
    ensures var f := AllChannelsBuffer(true, v0, v1, trailer);
      f.len == (if trailer then 5 else 4) &&
      f.buff[..4] == Be16(v0 & MASK_DAC_12B) + Be16(v1) &&
      (trailer ==> f.buff[4] == 0x03)
  {
    var f := AllChannelsBuffer(true, v0, v1, trailer);
    var m := Be16(v0 & MASK_DAC_12B);
    var h1 := Be16(v1);
    Be16Masked(v0);
    assert f.buff[0] == m[0] && f.buff[1] == m[1] && f.buff[2] == h1[0] && f.buff[3] == h1[1];
    assert f.buff[..4] == m + h1;
  }

  /** The bytes sent in precision mode: both values big-endian, each
      followed by a zero byte, then the LDAC mask when asked for. */
  lemma PrecisionLayout(v0: bv16, v1: bv16, trailer: bool)
    ensures var f := AllChannelsBuffer(false, v0, v1, trailer);
      f.len == (if trailer then 7 else 6) &&
      f.buff[..6] == Be16(v0) + [0] + Be16(v1) + [0] &&
      (trailer ==> f.buff[6] == 0x03)
  {
    var f := AllChannelsBuffer(false, v0, v1, trailer);
    var h0 := Be16(v0);
    var h1 := Be16(v1);
    assert f.buff[0] == h0[0] && f.buff[1] == h0[1] && f.buff[2] == 0;
    assert f.buff[3] == h1[0] && f.buff[4] == h1[1] && f.buff[5] == 0;
    assert f.buff[..6] == h0 + [0] + h1 + [0];
  }

  /** Masking to 12 bits keeps the high byte and the top nibble of the low
      byte. */
  lemma Be16Masked(v: bv16)
    ensures Be16(v & MASK_DAC_12B)[0] == Be16(v)[0]
    ensures Be16(v & MASK_DAC_12B)[1] == Be16(v)[1] & 0xF0
  {
    assert (v & 0xFFF0) >> 8 == v >> 8;
    assert (v & 0xFFF0) & 0xFF == (v & 0xFF) & 0xF0;
  }

  /** ad3552r_write_all_channels: one transfer of both channels' codes,
      starting at channel 1's code register, then the LDAC trigger when
      the mode asks for it. Channel 0's fast-mode flag decides the layout
      of both. */
  function WriteAllChannels(d: Dev, v0: bv16, v1: bv16, mode: WriteMode): (s: Step)
    requires |d.ch| == NUM_CH
    ensures s.dev.cfg == d.cfg && s.dev.ch == d.ch && s.dev.chip == d.chip && s.dev.hasLdac == d.hasLdac
    ensures !IsErr(s.err) ==> |s.dev.sent| > |d.sent|
  {
    var fast := d.ch[0].fastEn;
    var trigger := mode == WriteInputRegsAndTriggerLdac;
    var f := AllChannelsBuffer(fast, v0, v1, trigger && !d.hasLdac);
    var x := TransferData(d, None, false, CodeRegAddr(1, mode == WriteDacRegs, fast), f.buff, f.len);
    if IsErr(x.err) then Step(x.err, x.dev)
    else if trigger then LdacTrigger(x.dev, MASK_ALL_CH)
    else Step(SUCCESS, x.dev)
  }

  // ---------------------------------------------------------------------
  // ad3552r_write_samples

  /** find_first_set_bit: the index of the lowest set bit, 32 when there
      is none (the word shifted right until its low bit is set). */
  function FirstSetBit(w: bv32): (k: nat)
    ensures k <= 32
  {
    FirstSetBitFrom(w, 0)
  }

  function FirstSetBitFrom(w: bv32, k: nat): (r: nat)
    requires k <= 32
    ensures k <= r <= 32
    decreases 32 - k
  {
    if k == 32 || w == 0 then 32
    else if w & 1 == 1 then k
    else FirstSetBitFrom(w >> 1, k + 1)
  }

  /** The first set bit names a channel exactly when one of the two low
      bits is set: bit 0 gives channel 0, bit 1 alone channel 1. */
  lemma FirstSetBitChannel(w: bv32)
    ensures FirstSetBit(w) < NUM_CH <==> w & 3 != 0
    ensures FirstSetBit(w) == 0 <==> w & 1 != 0
  {
    if w & 1 == 0 && w != 0 {
      assert (w >> 1) & 1 == 1 <==> w & 2 != 0;
      assert (w >> 1) != 0;
    }
  }

  /** The all-channel loop from sample `i` on: pairs of codes, one frame
      per sample; the first failure ends it. */
  function WriteAllFrom(d: Dev, data: seq<bv16>, samples: nat, mode: WriteMode, i: nat): (s: Step)
    requires |d.ch| == NUM_CH && i <= samples && |data| >= 2 * samples
    ensures s.err == SUCCESS || IsErr(s.err)
    ensures s.dev.cfg == d.cfg && s.dev.ch == d.ch && s.dev.chip == d.chip && s.dev.hasLdac == d.hasLdac
    ensures s.err == SUCCESS ==> |s.dev.sent| >= |d.sent| + (samples - i)
    decreases samples - i
  {
    if i == samples then Step(SUCCESS, d)
    else
      var w := WriteAllChannels(d, data[2 * i], data[2 * i + 1], mode);
      if IsErr(w.err) then w else WriteAllFrom(w.dev, data, samples, mode, i + 1)
  }

  /** The single-channel loop from sample `i` on: each code written to
      `addr`, followed by the LDAC trigger when the mode asks for it, with
      the channel mask cut to the trigger's 16 bits. */
  function WriteChannelFrom(d: Dev, addr: u8, data: seq<bv16>, samples: nat, mask: bv32, mode: WriteMode, i: nat): (s: Step)
    requires i <= samples && |data| >= samples
    ensures s.err == SUCCESS || IsErr(s.err)
    ensures s.dev.cfg == d.cfg && s.dev.ch == d.ch && s.dev.chip == d.chip && s.dev.hasLdac == d.hasLdac
    ensures s.err == SUCCESS ==> |s.dev.sent| >= |d.sent| + (samples - i)
    ensures s.err == SUCCESS && d.hasLdac && mode == WriteInputRegsAndTriggerLdac ==>
      |s.dev.pulses| == |d.pulses| + (samples - i)
    ensures mode != WriteInputRegsAndTriggerLdac ==> s.dev.pulses == d.pulses
    decreases samples - i
  {
    if i == samples then Step(SUCCESS, d)
    else
      var w := WriteReg(d, addr, data[i]);
      if IsErr(w.err) then w
      else
        var t := if mode == WriteInputRegsAndTriggerLdac then LdacTrigger(w.dev, (mask & 0xFFFF) as bv16) else w;
        if IsErr(t.err) then t else WriteChannelFrom(t.dev, addr, data, samples, mask, mode, i + 1)
  }

  /** One pass of the single-channel loop: sample `i` is written to
      `addr`; after a successful write the mode's LDAC trigger gets the
      channel mask cut to 16 bits; after that the loop goes on with sample
      `i + 1`. The first failure ends the loop with its status. */
  lemma WriteChannelFromStep(d: Dev, addr: u8, data: seq<bv16>, samples: nat, mask: bv32, mode: WriteMode, i: nat)
    requires i < samples && |data| >= samples
    ensures var w := WriteReg(d, addr, data[i]);
      var s := WriteChannelFrom(d, addr, data, samples, mask, mode, i);
      (IsErr(w.err) ==> s == w) &&
      (!IsErr(w.err) && mode != WriteInputRegsAndTriggerLdac ==>
        s == WriteChannelFrom(w.dev, addr, data, samples, mask, mode, i + 1)) &&
      (!IsErr(w.err) && mode == WriteInputRegsAndTriggerLdac ==>
        var t := LdacTrigger(w.dev, (mask & 0xFFFF) as bv16);
        s == if IsErr(t.err) then t else WriteChannelFrom(t.dev, addr, data, samples, mask, mode, i + 1))
  {
  }

  /** What ad3552r_write_samples demands of its caller: two codes per
      sample for both channels, one otherwise. */
  predicate SamplesFit(data: seq<bv16>, samples: nat, chMask: bv32)
  {
    if chMask == MASK_ALL_CH as bv32 then |data| >= 2 * samples
    else |data| >= samples
  }

  /** ad3552r_write_samples. The guard meant to refuse two channels in
      different modes compares channel 0's flag with itself. A mask whose
      first set bit names no channel is refused here; the C code indexes
      the channel records with it unchecked (see MaskIndexPastChannels). */
  function WriteSamples(d: Dev, data: seq<bv16>, samples: nat, chMask: bv32, mode: WriteMode): (s: Step)
    requires |d.ch| == NUM_CH && SamplesFit(data, samples, chMask)
    ensures s.err == SUCCESS || IsErr(s.err)
    ensures s.dev.cfg == d.cfg && s.dev.ch == d.ch && s.dev.chip == d.chip
  {
    if chMask == MASK_ALL_CH as bv32 && d.ch[0].fastEn != d.ch[0].fastEn then Step(-EINVAL, d)
    else if chMask == MASK_ALL_CH as bv32 then WriteAllFrom(d, data, samples, mode, 0)
    else if FirstSetBit(chMask) >= NUM_CH then Step(-EINVAL, d)
    else
      var ch := FirstSetBit(chMask);
      var addr := CodeRegAddr(ch, mode == WriteDacRegs, d.ch[ch].fastEn);
      WriteChannelFrom(d, addr, data, samples, chMask, mode, 0)
  }

  /** The mixed-mode guard never fires: both channels go through the
      all-channel loop whatever their fast-mode flags, laid out by
      channel 0's flag. */
  lemma MixedModesNotRefused(d: Dev, data: seq<bv16>, samples: nat, mode: WriteMode)
    requires |d.ch| == NUM_CH && |data| >= 2 * samples
    ensures WriteSamples(d, data, samples, MASK_ALL_CH as bv32, mode) == WriteAllFrom(d, data, samples, mode, 0)
  {
  }

  /** As written, the single-channel path indexes the two channel records
      with the first set bit of any mask: an empty mask gives 32 and the
      mask 0b100 gives 2, both past the last record. */
  lemma MaskIndexPastChannels()
    ensures FirstSetBit(0) == 32 && FirstSetBit(4) == 2
    ensures FirstSetBit(0) >= NUM_CH && FirstSetBit(4) >= NUM_CH
  {
    assert FirstSetBitFrom(1, 2) == 2;
    assert FirstSetBitFrom(2, 1) == 2;
    assert FirstSetBitFrom(4, 0) == 2;
  }

  /** A single-channel mask that sets neither of the two low bits is
      refused with nothing sent; one that sets either writes the code
      register of the channel its first set bit names. */
  lemma UnnamedChannelRefused(d: Dev, data: seq<bv16>, samples: nat, chMask: bv32, mode: WriteMode)
    requires |d.ch| == NUM_CH && SamplesFit(data, samples, chMask) && chMask != MASK_ALL_CH as bv32
    ensures chMask & 3 == 0 ==> WriteSamples(d, data, samples, chMask, mode) == Step(-EINVAL, d)
    ensures chMask & 3 != 0 ==>
      FirstSetBit(chMask) < NUM_CH &&
      var ch := FirstSetBit(chMask);
      WriteSamples(d, data, samples, chMask, mode) ==
        WriteChannelFrom(d, CodeRegAddr(ch, mode == WriteDacRegs, d.ch[ch].fastEn), data, samples, chMask, mode, 0)
  {
    FirstSetBitChannel(chMask);
  }

  /** A single channel's samples go through ad3552r_write_reg, so with
      address ascension cached as on the first one is refused and nothing
      is sent; the two-channel path uses the transfer directly and is not
      refused. */
  lemma SingleChannelRefusedWhenAscending(d: Dev, data: seq<bv16>, samples: nat, chMask: bv32, mode: WriteMode)
    requires |d.ch| == NUM_CH && SamplesFit(data, samples, chMask)
    requires chMask != MASK_ALL_CH as bv32 && samples > 0 && d.cfg.addrAsc != 0
    ensures WriteSamples(d, data, samples, chMask, mode) == Step(-EINVAL, d)
  {
  }
}
