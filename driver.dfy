/** The driver descriptor `struct ad3552r_desc` as an object whose
    operations update it in place. Every method is proved to leave the
    object in the state, and to return the status, that the function of
    the same name in the other modules gives for the state it started
    from. */
module Driver {
  import opened CInt
  import opened Bytes
  import opened Registers
  import opened Calibration
  import opened Device
  import opened Transfer
  import opened Fields
  import opened RegIo
  import opened Attrs
  import opened Lifecycle
  import opened Samples

  /** memcpy into `dst` at `at`, clipped to the array. */
  method CopyInto(dst: array<bv8>, at: nat, src: seq<bv8>)
    modifies dst
    ensures dst[..] == Overwrite(old(dst[..]), at, src)
  {
    var k := 0;
    while k < |src| && at + k < dst.Length
      invariant 0 <= k <= |src|
      invariant forall j :: 0 <= j < dst.Length && at <= j < at + k ==> dst[j] == src[j - at]
      invariant forall j :: 0 <= j < dst.Length && !(at <= j < at + k) ==> dst[j] == old(dst[j])
      decreases |src| - k
    {
      dst[at + k] := src[k];
      k := k + 1;
    }
  }

  class Ad3552r {
    var cfg: SpiCfg
    var crcEn: u8
    var chip: ChipId
    /** `ch_data`, the per-channel records held inside the descriptor. */
    var ch: seq<Channel>
    var hasReset: bool
    var hasLdac: bool
    /** The bus: transfers sent so far, replies still to come, and the
        pulses driven on the reset and LDAC pins. */
    var sent: seq<seq<Segment>>
    var replies: seq<Reply>
    var pulses: seq<Pulse>

    /** The descriptor as a value. */
    ghost function State(): Dev
      reads this
    {
      Dev(cfg, crcEn, chip, ch, hasReset, hasLdac, sent, replies, pulses)
    }

    ghost predicate Valid()
      reads this
    {
      Device.Valid(State())
    }

    /** spi_transfer: record the segments, consume the next reply. */
    method SpiTransfer(msgs: seq<Segment>) returns (reply: Reply)
      modifies this
      ensures (reply, State()) == Device.Spi(old(State()), msgs)
      ensures cfg == old(cfg) && crcEn == old(crcEn)
    {
      if |replies| > 0 {
        reply := replies[0];
        replies := replies[1..];
      } else {
        reply := Reply(SUCCESS, []);
      }
      sent := sent + [msgs];
    }

    /** The `out` buffer of one chunk: 0xFF filler for a read continuation,
        otherwise the instruction byte on the first chunk, `reg_len` bytes
        from `data + i` and their CRC from `crcInit`. Returns the number of
        bytes to clock. */
    static method BuildFrame(out: array<bv8>, instr: bv8, isRead: bool, data: seq<bv8>, c: Chunk, crcInit: bv8)
      returns (n: nat)
      requires out.Length == MAX_REG_SIZE + 2 && 1 <= c.len <= MAX_REG_SIZE
      requires crcInit == ChunkSeed(instr, c)
      modifies out
      ensures n <= out.Length && out[..n] == ChunkTx(instr, isRead, data, c)
    {
      if isRead && c.i > 0 {
        n := FillFrame(out, c.len + 1);
      } else {
        n := CrcFrame(out, instr, Window(data, c.i, c.len), c.i == 0, crcInit);
      }
    }

    /** The filler frame of a read's continuation chunk: `n` bytes of 0xFF. */
    static method FillFrame(out: array<bv8>, n: nat) returns (m: nat)
      requires n <= out.Length
      modifies out
      ensures m == n && out[..m] == Fill(0xFF, n)
    {
      var j := 0;
      while j < n
        invariant 0 <= j <= n
        invariant forall k :: 0 <= k < j ==> out[k] == 0xFF
      {
        out[j] := 0xFF;
        j := j + 1;
      }
      m := n;
    }

    /** A CRC frame: the instruction byte when `first`, the body, then the
        body's CRC from `crcInit`. */
    static method CrcFrame(out: array<bv8>, instr: bv8, body: seq<bv8>, first: bool, crcInit: bv8)
      returns (n: nat)
      requires |body| + 2 <= out.Length
      modifies out
      ensures n <= out.Length && out[..n] == (if first then [instr] else []) + body + [Crc8(body, crcInit)]
    {
      var pos := 0;
      if first {
        out[0] := instr;
        pos := 1;
      }
      CopyInto(out, pos, body);
      assert out[pos..pos + |body|] == body;
      out[pos + |body|] := Crc8(out[pos..pos + |body|], crcInit);
      n := pos + |body| + 1;
      ghost var head: seq<bv8> := if first then [instr] else [];
      assert out[..pos] == head;
      assert out[..n] == out[..pos] + out[pos..pos + |body|] + [out[pos + |body|]];
    }

    /** The check after one chunk: on a read, copy the received bytes into
        the caller's buffer, then compare their CRC; on a write, compare
        the echoed CRC byte with the one sent. */
    static method CheckChunk(inn: array<bv8>, out: array<bv8>, n: nat, data: array<bv8>,
                             instr: bv8, isRead: bool, c: Chunk, crcInit: bv8, ghost rx: seq<bv8>)
      returns (err: int)
      requires inn.Length == MAX_REG_SIZE + 2 && out.Length == MAX_REG_SIZE + 2 && 1 <= c.len <= MAX_REG_SIZE
      requires crcInit == ChunkSeed(instr, c)
      requires n <= MAX_REG_SIZE + 2 && out[..n] == ChunkTx(instr, isRead, data[..], c)
      requires inn[..n] == Window(rx, 0, n)
      requires data != inn && data != out
      modifies data
      ensures (err, data[..]) == ChunkCheck(instr, isRead, old(data[..]), c, rx)
    {
      var off := if c.i == 0 then 1 else 0;
      if isRead {
        assert inn[off..off + c.len] == Window(rx, 0, n)[off..off + c.len];
        CopyInto(data, c.i, inn[off..off + c.len]);
        if inn[off + c.len] != Crc8(inn[off..off + c.len], crcInit) {
          err := -EBADMSG;
        } else {
          err := SUCCESS;
        }
      } else {
        if inn[c.len + off] != out[c.len + off] {
          err := -EBADMSG;
        } else {
          err := SUCCESS;
        }
      }
    }

    /** The body of the do-while loop for chunk `c`: build the frame,
        send it, and check the answer. */
    method SendChunk(ghost p: Plan, ghost step: StepFn, out: array<bv8>, inn: array<bv8>, data: array<bv8>,
                     instr: bv8, isRead: bool, c: Chunk, len: nat) returns (err: int)
      requires out.Length == MAX_REG_SIZE + 2 && inn.Length == MAX_REG_SIZE + 2 && out != inn
      requires data != inn && data != out && 1 <= c.len <= MAX_REG_SIZE && p.len == len
      requires IsCrcStep(step, p, instr, isRead)
      modifies this, out, inn, data
      ensures Xfer(err, data[..], State()) == step(old(data[..]), c, old(State()))
      ensures cfg == old(cfg)
    {
      assert step(data[..], c, State()) == ChunkStep(p, instr, isRead, data[..], c, State());
      var crcInit := if c.i > 0 then c.addr as bv8 else Crc8([instr], CRC_SEED);
      ghost var d0 := State();
      ghost var data0 := data[..];
      var n := BuildFrame(out, instr, isRead, data[..], c, crcInit);
      var seg := Segment(out[..n], n, !(c.i + c.len == len));
      assert seg == ChunkSegment(p, instr, isRead, data0, c);
      var reply := SpiTransfer([seg]);
      if IsErr(reply.status) {
        assert data[..] == data0;
        return reply.status;
      }
      CopyInto(inn, 0, Window(reply.rx, 0, n));
      assert inn[..n] == Window(reply.rx, 0, n);
      err := CheckChunk(inn, out, n, data, instr, isRead, c, crcInit, reply.rx);
    }

    /** _ad3552r_transfer_with_crc: the instruction byte, then the chunk
        loop. */
    method TransferWithCrc(isRead: bool, addr: u8, data: array<bv8>, len: nat) returns (err: int)
      modifies this, data
      ensures Xfer(err, data[..], State()) == CrcExchange(old(State()), isRead, addr, old(data[..]), len)
    {
      var instr := Instr(addr, isRead);
      ghost var p := PlanOf(cfg, addr, len);
      CrcLoopRunsSchedule(CrcStep(p, instr, isRead), p, 0, 0, data[..], State());
      err := ChunkLoop(p, CrcStep(p, instr, isRead), instr, isRead, addr, data, len);
    }

    /** The do-while loop over register-sized chunks, each sent in one
        message with its CRC and checked before the next one. */
    method ChunkLoop(ghost p: Plan, ghost step: StepFn, instr: bv8, isRead: bool, addr: u8,
                     data: array<bv8>, len: nat) returns (err: int)
      requires p.len == len && p.asc == (cfg.addrAsc != 0)
      requires forall inc :: p.addrAt(inc) == ChunkAddr(addr, cfg.streamLen, inc)
      requires IsCrcStep(step, p, instr, isRead)
      modifies this, data
      ensures Xfer(err, data[..], State()) == CrcLoop(step, p, 0, 0, old(data[..]), old(State()))
    {
      ghost var target := CrcLoop(step, p, 0, 0, data[..], State());
      var out := new bv8[MAX_REG_SIZE + 2];
      var inn := new bv8[MAX_REG_SIZE + 2];
      var i: nat := 0;
      var inc: int := 0;
      while true
        invariant i <= len && cfg == old(cfg)
        invariant CrcLoop(step, p, i, inc, data[..], State()) == target
        decreases len - i
      {
        var next, inc';
        err, next, inc' := ChunkTurn(p, step, out, inn, data, instr, isRead, addr, i, inc, len);
        if err != SUCCESS || next >= len {
          return;
        }
        i, inc := next, inc';
      }
    }

    /** One pass of the do-while body: the chunk at offset `i` is sent and
        checked, and the offset and increment move past it. */
    method ChunkTurn(ghost p: Plan, ghost step: StepFn, out: array<bv8>, inn: array<bv8>, data: array<bv8>,
                     instr: bv8, isRead: bool, addr: u8, i: nat, inc: int, len: nat)
      returns (err: int, next: nat, inc': int)
      requires i <= len && p.len == len && p.asc == (cfg.addrAsc != 0)
      requires forall inc :: p.addrAt(inc) == ChunkAddr(addr, cfg.streamLen, inc)
      requires IsCrcStep(step, p, instr, isRead)
      requires out.Length == MAX_REG_SIZE + 2 && inn.Length == MAX_REG_SIZE + 2
      requires out != inn && data != inn && data != out
      modifies this, out, inn, data
      ensures cfg == old(cfg) && next > i
      ensures var x := CrcLoop(step, p, i, inc, old(data[..]), old(State()));
        if err != SUCCESS || next >= len then Xfer(err, data[..], State()) == x
        else CrcLoop(step, p, next, inc', data[..], State()) == x
    {
      var a := NextAddr(addr, cfg.streamLen, inc);
      assert a == p.addrAt(inc);
      var regLen := RegLen(a);
      var c := Chunk(i, inc, a, regLen);
      assert c == ChunkAt(p, i, inc);
      CrcLoopHead(step, p, i, inc, data[..], State());
      err := SendChunk(p, step, out, inn, data, instr, isRead, c, len);
      inc' := inc + Signed(cfg.addrAsc != 0, regLen);
      next := i + regLen;
    }

    /** The register a chunk starts at: the base address advanced by the
        increment, wrapped within the stream length when one is set. */
    static method NextAddr(addr: u8, streamLen: u8, inc: int) returns (a: u8)
      ensures a == ChunkAddr(addr, streamLen, inc)
    {
      if streamLen != 0 {
        a := ToU8(addr + Rem(inc, streamLen));
      } else {
        a := ToU8(addr + inc);
      }
      a := a % REG_ADDR_MAX;
    }

    // -------------------------------------------------------------------
    // ad3552r_transfer and the register accessors

    /** The transfer without CRC: the instruction byte, then `len` bytes
        clocked out of or into `data`, in one message. */
    method PlainExchange(isRead: bool, addr: u8, data: array<bv8>, len: nat) returns (err: int)
      modifies this, data
      ensures Xfer(err, data[..], State()) == Transfer.PlainExchange(old(State()), isRead, addr, old(data[..]), len)
    {
      var instr := Instr(addr, isRead);
      var body := Segment(if isRead then [] else Window(data[..], 0, len), len, false);
      var reply := SpiTransfer([Segment([instr], 1, false), body]);
      if isRead {
        CopyInto(data, 0, Window(reply.rx, 1, len));
      }
      err := reply.status;
    }

    /** The exchange as ad3552r_transfer chooses it from the CRC flag. */
    method Exchange(isRead: bool, addr: u8, data: array<bv8>, len: nat) returns (err: int)
      modifies this, data
      ensures Xfer(err, data[..], State()) == Transfer.Exchange(old(State()), isRead, addr, old(data[..]), len)
    {
      if crcEn != 0 {
        err := TransferWithCrc(isRead, addr, data, len);
      } else {
        err := PlainExchange(isRead, addr, data, len);
      }
    }

    /** ad3552r_transfer: the optional interface update, whose status is
        dropped, then the exchange. */
    method TransferData(want: Option<SpiCfg>, isRead: bool, addr: u8, data: array<bv8>, len: nat) returns (err: int)
      modifies this, data
      ensures Xfer(err, data[..], State()) == RegIo.TransferData(old(State()), want, isRead, addr, old(data[..]), len)
    {
      if want.Some? {
        var _ := UpdateSpiCfg(want.value);
      }
      err := Exchange(isRead, addr, data, len);
    }

    /** The buffer of ad3552r_write_reg: the value masked to 12 bits for a
        2-byte register, then its low byte alone for a 1-byte register or
        its two bytes big-endian otherwise. */
    static method PackInto(buf: array<bv8>, addr: u8, val: bv16)
      requires buf.Length == MAX_REG_SIZE && buf[..] == [0, 0, 0]
      modifies buf
      ensures buf[..] == PackReg(addr, val)
    {
      var n := RegLen(addr);
      var v := val;
      if n == 2 {
        v := v & MASK_DAC_12B;
      }
      if n == 1 {
        buf[0] := (v & 0xFF) as bv8;
      } else {
        var b := Be16(v);
        buf[0], buf[1] := b[0], b[1];
      }
    }

    /** ad3552r_write_reg. */
    method WriteReg(addr: u8, val: bv16) returns (err: int)
      modifies this
      ensures Step(err, State()) == RegIo.WriteReg(old(State()), addr, val)
    {
      if addr >= SECONDARY_REGION_ADDR && cfg.addrAsc != 0 {
        return -EINVAL;
      }
      var buf := new bv8[MAX_REG_SIZE](_ => 0);
      assert buf[..] == [0, 0, 0];
      PackInto(buf, addr, val);
      err := Exchange(false, addr, buf, RegLen(addr));
    }

    /** ad3552r_read_reg; the value is 0 when the read fails. */
    method ReadReg(addr: u8) returns (err: int, val: bv16)
      modifies this
      ensures Got(err, val, State()) == RegIo.ReadReg(old(State()), addr)
    {
      if addr >= SECONDARY_REGION_ADDR && cfg.addrAsc != 0 {
        return -EINVAL, 0;
      }
      var n := RegLen(addr);
      var buf := new bv8[MAX_REG_SIZE](_ => 0);
      assert buf[..] == [0, 0, 0];
      err := Exchange(true, addr, buf, n);
      if IsErr(err) {
        return err, 0;
      }
      if n == 1 {
        val := buf[0] as bv16;
      } else {
        val := FromBe16(buf[0], buf[1]);
      }
      err := SUCCESS;
    }

    /** _ad3552r_update_reg_field. */
    method UpdateRegField(addr: u8, mask: bv16, val: bv16) returns (err: int)
      requires mask != 0
      modifies this
      ensures Step(err, State()) == RegIo.UpdateRegField(old(State()), addr, mask, val)
    {
      var reg: bv16;
      if mask == FullMask(addr) {
        reg := val;
      } else {
        err, reg := ReadReg(addr);
        if IsErr(err) {
          return;
        }
        reg := MergeField(reg, mask, val);
      }
      err := WriteReg(addr, reg);
    }

    /** _ad3552r_set_reg_attr. */
    method SetRegAttr(a: DevAttr, val: bv16) returns (err: int)
      modifies this
      ensures Step(err, State()) == RegIo.SetRegAttr(old(State()), a, val)
    {
      err := UpdateRegField(DevAttrReg(a), DevAttrMask(a), val);
    }

    /** One field of _update_spi_cfg: its attribute written when `write`
        holds, the status so far kept otherwise; then the cached
        configuration becomes `next`. */
    method SyncField(prev: int, write: bool, a: DevAttr, v: u8, next: SpiCfg) returns (err: int)
      modifies this
      ensures Step(err, State()) == SyncStep(Step(prev, old(State())), write, a, v, next)
    {
      err := prev;
      if write {
        err := SetRegAttr(a, v as bv16);
      }
      cfg := next;
    }

    /** _update_spi_cfg: each changed field is written and then cached,
        whether or not its write succeeded; the stream length follows its
        own rule on the keep flag found on entry. */
    method UpdateSpiCfg(want: SpiCfg) returns (err: int)
      modifies this
      ensures Step(err, State()) == SyncSpiCfg(old(State()), want)
    {
      var cur := cfg;
      var writeLen := (cur.streamLen != want.streamLen || cur.keepValue == 0) && !(cur.keepValue == 0 && want.streamLen == 0);
      assert writeLen == WritesStreamLen(cur, want);
      err := SyncField(SUCCESS, cur.addrAsc != want.addrAsc, AddrAscension, want.addrAsc,
                       cur.(addrAsc := want.addrAsc));
      err := SyncField(err, cur.singleInstr != want.singleInstr, SingleInst, want.singleInstr,
                       cfg.(singleInstr := want.singleInstr));
      err := SyncField(err, cur.keepValue != want.keepValue, StreamLengthKeepValue, want.keepValue,
                       cfg.(keepValue := want.keepValue));
      err := SyncField(err, writeLen, StreamMode, want.streamLen, want);
    }

    // -------------------------------------------------------------------
    // Attributes

    /** _ad3552r_set_crc_enable: the flag is stored only after the write
        went through. */
    method SetCrcEnable(en: u16) returns (err: int)
      modifies this
      ensures Step(err, State()) == Attrs.SetCrcEnable(old(State()), en)
    {
      err := WriteReg(DevAttrReg(CrcEnable), CrcRegValue(en));
      if IsErr(err) {
        return;
      }
      crcEn := ToU8(en);
      err := SUCCESS;
    }

    /** ad3552r_set_dev_value. */
    method SetDevValue(a: DevAttr, val: u16) returns (err: int)
      modifies this
      ensures Step(err, State()) == Attrs.SetDevValue(old(State()), a, val)
    {
      if a.CrcEnable? {
        err := SetCrcEnable(val);
      } else {
        err := SetRegAttr(a, val as bv16);
      }
    }

    /** ad3552r_calc_gain_and_offset: the scale and offset of channel `i`
        recomputed from its range parameters. */
    method Recalc(i: nat)
      requires Valid() && i < NUM_CH
      modifies this
      ensures State() == Attrs.Recalc(old(State()), i)
    {
      ch := ch[i := Recalibrated(chip, ch[i])];
    }

    /** _ad3552r_set_gain_value. */
    method SetGainValue(a: ChAttr, i: nat, val: u16) returns (err: int)
      requires Valid() && i < NUM_CH && IsGainAttr(a)
      modifies this
      ensures Step(err, State()) == Attrs.SetGainValue(old(State()), a, i, val)
    {
      var reg: bv16;
      err, reg := ReadReg(ChGain(i));
      if IsErr(err) {
        return;
      }
      if BadScaling(a, val) {
        return -EINVAL;
      }
      err := StoreGain(a, i, val, reg);
    }

    /** The attribute stored in channel `i`'s record (for the offset, its
        low byte also written), then the gain register written back. */
    method StoreGain(a: ChAttr, i: nat, val: u16, reg: bv16) returns (err: int)
      requires Valid() && i < NUM_CH && IsGainAttr(a) && !BadScaling(a, val)
      modifies this
      ensures Step(err, State()) == Attrs.StoreGain(old(State()), a, i, val, reg)
    {
      ch := ch[i := GainStore(ch[i], a, val)];
      assert State() == SetCh(old(State()), i, GainStore(old(ch[i]), a, val));
      err := WriteOffsetLow(a, val);
      if IsErr(err) {
        return;
      }
      err := WriteGainReg(a, i, val, reg);
    }

    /** For the offset only, its low byte written to OFFSET_LOW_ADDR. */
    method WriteOffsetLow(a: ChAttr, val: u16) returns (err: int)
      modifies this
      ensures Step(err, State()) == Attrs.WriteOffsetLow(old(State()), a, val)
    {
      err := SUCCESS;
      if a.GainOffset? {
        err := WriteReg(OFFSET_LOW_ADDR, (val as bv16) & MASK_CH_OFFSET_BITS_0_7);
      }
    }

    /** The gain register with the attribute's field merged in, then the
        recompute once the write went through. */
    method WriteGainReg(a: ChAttr, i: nat, val: u16, reg: bv16) returns (err: int)
      requires Valid() && i < NUM_CH && IsGainAttr(a)
      modifies this
      ensures Step(err, State()) == Attrs.WriteGainReg(old(State()), a, i, val, reg)
    {
      err := WriteReg(ChGain(i), MergeField(reg, GainMask(a), GainFieldValue(a, val)));
      if IsErr(err) {
        return;
      }
      Recalc(i);
      err := SUCCESS;
    }

    /** ad3552r_set_ch_value. */
    method SetChValue(a: ChAttr, i: nat, val: u16) returns (err: int)
      requires Valid() && i < NUM_CH
      modifies this
      ensures Step(err, State()) == Attrs.SetChValue(old(State()), a, i, val)
    {
      if a.FastEn? {
        ch := ch[i := ch[i].(fastEn := val != 0)];
        return SUCCESS;
      } else if a.Code? {
        err := SetCodeValue(i, val);
        return;
      } else if a.Rfb? {
        ch := ch[i := ch[i].(rfb := val)];
        Recalc(i);
        return SUCCESS;
      } else if IsGainAttr(a) {
        err := SetGainValue(a, i, val);
        return;
      }
      ChAttrDispatchPartition(a);
      err := SetTableValue(a, i, val);
    }

    /** _ad3552r_set_code_value. */
    method SetCodeValue(i: nat, val: u16) returns (err: int)
      requires |ch| == NUM_CH && i < NUM_CH
      modifies this
      ensures Step(err, State()) == Attrs.SetCodeValue(old(State()), i, val)
    {
      err := WriteReg(CodeRegAddr(i, true, false), if ch[i].fastEn then (val as bv16) & MASK_DAC_12B else val as bv16);
    }

    /** The table branch of ad3552r_set_ch_value: the register field, then
        for the range selector the reduced value stored and the recompute. */
    method SetTableValue(a: ChAttr, i: nat, val: u16) returns (err: int)
      requires Valid() && i < NUM_CH && InChTable(a)
      modifies this
      ensures Step(err, State()) == Attrs.SetTableValue(old(State()), a, i, val)
    {
      err := UpdateRegField(ChAttrReg(a), ChAttrMask(a, i), val as bv16);
      if IsErr(err) {
        return;
      }
      if a.OutputRangeSel? {
        var c := ch[i];
        assert ChannelOk(chip, c);
        StoreChannel(i, c.(range := RangeIndex(chip, val as nat)));
      }
    }

    /** A channel record replaced by `c`, then its scale and offset
        recomputed. */
    method StoreChannel(i: nat, c: Channel)
      requires Valid() && i < NUM_CH && ChannelOk(chip, c)
      modifies this
      ensures State() == Attrs.Recalc(SetCh(old(State()), i, c), i)
    {
      ch := ch[i := c];
      Recalc(i);
    }

    // -------------------------------------------------------------------
    // ad3552r_reset

    /** One read of INTERFACE_CONFIG_B, seen as the poll's `read`. */
    method ReadConfigB(ghost read: Reader) returns (err: int, val: bv16)
      requires ReadsConfigB(read)
      modifies this
      ensures Got(err, val, State()) == read(old(State()))
    {
      err, val := ReadReg(INTERFACE_CONFIG_B);
    }

    /** The readiness poll of ad3552r_reset, with its read budget counted
        down in `timeout`. */
    method PollReady() returns (err: int)
      modifies this
      ensures var p := Poll(old(State()), RESET_TIMEOUT, false);
        Step(err, State()) == Step(p.err, p.dev)
    {
      ConfigBReadReadsConfigB();
      err := PollLoop(ConfigBRead());
    }

    /** The loop of the poll, for any `read` that reads INTERFACE_CONFIG_B. */
    method PollLoop(ghost read: Reader) returns (err: int)
      requires ReadsConfigB(read)
      modifies this
      ensures var p := PollWith(read, old(State()), RESET_TIMEOUT, false);
        Step(err, State()) == Step(p.err, p.dev)
    {
      var timeout: nat := RESET_TIMEOUT;
      var firstCheck := false;
      ghost var target := PollWith(read, State(), RESET_TIMEOUT, false);
      while true
        invariant 1 <= timeout <= RESET_TIMEOUT
        invariant PollWith(read, State(), timeout, firstCheck).err == target.err
        invariant PollWith(read, State(), timeout, firstCheck).dev == target.dev
        decreases timeout
      {
        var val: bv16;
        err, val := ReadConfigB(read);
        if IsErr(err) {
          return;
        }
        if !firstCheck {
          if val == DEFAULT_CONFIG_B_VALUE {
            firstCheck := true;
          }
        } else if Ready(val) {
          break;
        }
        timeout := timeout - 1;
        if timeout == 0 {
          return -EIO;
        }
      }
      err := SUCCESS;
    }

    /** ad3552r_reset: the pin pulse or the software-reset bits, the poll,
        then address ascension cleared in the device. */
    method Reset() returns (err: int)
      modifies this
      ensures Step(err, State()) == Lifecycle.Reset(old(State()))
    {
      if hasReset {
        pulses := pulses + [ResetPulse];
      } else {
        err := UpdateRegField(INTERFACE_CONFIG_A, MASK_SOFTWARE_RESET, MASK_SOFTWARE_RESET);
        if IsErr(err) {
          return;
        }
      }
      err := PollReady();
      if IsErr(err) {
        return;
      }
      err := SetRegAttr(AddrAscension, 0);
      if IsErr(err) {
        return;
      }
      err := SUCCESS;
    }

    // -------------------------------------------------------------------
    // Bring-up

    /** One half of ad3552r_check_scratch_pad. */
    method ScratchProbe(v: bv16) returns (err: int)
      modifies this
      ensures Step(err, State()) == Lifecycle.ScratchProbe(old(State()), v)
    {
      err := WriteReg(SCRATCH_PAD, v);
      if err < 0 {
        return;
      }
      var val: bv16;
      err, val := ReadReg(SCRATCH_PAD);
      if err < 0 {
        return;
      }
      if v != val {
        return -ENODEV;
      }
      err := SUCCESS;
    }

    /** ad3552r_check_scratch_pad. */
    method ScratchPad() returns (err: int)
      modifies this
      ensures Step(err, State()) == Lifecycle.ScratchPad(old(State()))
    {
      err := ScratchProbe(SCRATCH_PAD_TEST_VAL1);
      if err < 0 {
        return;
      }
      err := ScratchProbe(SCRATCH_PAD_TEST_VAL2);
    }

    /** The product-ID check of ad3552r_init. */
    method CheckChipId(c: ChipId) returns (err: int)
      modifies this
      ensures Step(err, State()) == Lifecycle.CheckChipId(old(State()), c)
    {
      var val: bv16;
      err, val := ReadReg(PRODUCT_ID_L);
      if err != SUCCESS {
        return;
      }
      var lo := val;
      err, val := ReadReg(PRODUCT_ID_H);
      if err != SUCCESS {
        return;
      }
      if ChipIdOf(lo, val) != ChipIdCode(c) {
        return -ENODEV;
      }
      err := SUCCESS;
    }

    /** One pass of the channel loop of ad3552r_configure_device. */
    method ConfigureChannel(c: ChannelParam, i: nat) returns (err: int)
      requires Valid() && i < NUM_CH
      modifies this
      ensures Step(err, State()) == Lifecycle.ConfigureChannel(old(State()), c, i)
    {
      if !c.en {
        err := SetChValue(AmplifierPowerdown, i, 1);
        return;
      }
      ch := ch[i := ch[i].(fastEn := c.fastEn)];
      match c.range
      case CustomRangeParam =>
        err := if IsErr(c.customStatus) then c.customStatus else SUCCESS;
      case TableRangeParam(r) =>
        if r as nat > RangeMax(chip) {
          return -EINVAL;
        }
        ch := ch[i := ch[i].(range := r)];
        err := SetChValue(OutputRangeSel, i, r);
    }

    /** ad3552r_configure_device, with the LDAC pin reduced to its
        presence. */
    method Configure(p: InitParam) returns (err: int)
      requires Valid() && |p.channels| == NUM_CH
      modifies this
      ensures Step(err, State()) == Lifecycle.Configure(old(State()), p)
    {
      err := SetDevValue(VrefSelect, VrefValue(p));
      if IsErr(err) {
        return;
      }
      if p.sdoDriveStrength > 3 {
        return -EINVAL;
      }
      err := SetDevValue(SdoDriveStrength, p.sdoDriveStrength);
      if IsErr(err) {
        return;
      }
      err := ConfigureChannels(p.channels);
      if IsErr(err) {
        return;
      }
      hasLdac := p.hasLdac;
      err := SUCCESS;
    }

    /** The channel loop of ad3552r_configure_device; the first failure
        ends it. */
    method ConfigureChannels(cs: seq<ChannelParam>) returns (err: int)
      requires Valid() && |cs| == NUM_CH
      modifies this
      ensures Step(err, State()) == Lifecycle.ConfigureChannels(old(State()), cs, 0)
    {
      ghost var target := Lifecycle.ConfigureChannels(State(), cs, 0);
      var i := 0;
      while i < NUM_CH
        invariant i <= NUM_CH && Valid()
        invariant Lifecycle.ConfigureChannels(State(), cs, i) == target
      {
        err := ConfigureChannel(cs[i], i);
        if IsErr(err) {
          return;
        }
        i := i + 1;
      }
      err := SUCCESS;
    }

    /** The zeroed descriptor calloc hands out, on a bus that will answer
        with `replies`. */
    constructor (p: InitParam, replies: seq<Reply>)
      ensures State() == FreshDev(p, replies)
    {
      cfg := SpiCfg(0, 0, 0, 0);
      crcEn := 0;
      chip := AD3542R;
      ch := [ZERO_CHANNEL, ZERO_CHANNEL];
      hasReset := p.hasReset;
      hasLdac := false;
      sent := [];
      this.replies := replies;
      pulses := [];
    }

    /** ad3552r_init: a fresh descriptor taken through reset, the CRC
        setting, the self-test, the ID check and the configuration. */
    static method Init(p: InitParam, replies: seq<Reply>) returns (err: int, dev: Ad3552r)
      requires |p.channels| == NUM_CH
      ensures fresh(dev)
      ensures Step(err, dev.State()) == Lifecycle.Init(p, replies)
    {
      dev := new Ad3552r(p, replies);
      err := dev.Probe(p);
      if err != SUCCESS {
        return;
      }
      err := dev.Adopt(p);
    }

    /** The end of ad3552r_init: the variant recorded, then the
        configuration, whose failure is reported as -ENODEV. */
    method Adopt(p: InitParam) returns (err: int)
      requires Device.Valid(State().(chip := p.chip)) && |p.channels| == NUM_CH
      modifies this
      ensures var c := Lifecycle.Configure(old(State()).(chip := p.chip), p);
        Step(err, State()) == if IsErr(c.err) then Step(-ENODEV, c.dev) else c
    {
      chip := p.chip;
      err := Configure(p);
      if IsErr(err) {
        err := -ENODEV;
      }
    }

    /** The checks of ad3552r_init before the configuration. */
    method Probe(p: InitParam) returns (err: int)
      modifies this
      ensures Step(err, State()) == Lifecycle.Probe(old(State()), p)
    {
      err := Reset();
      if IsErr(err) {
        return;
      }
      err := SetDevValue(CrcEnable, p.crcEn as u16);
      if IsErr(err) {
        return;
      }
      err := ScratchPad();
      if IsErr(err) {
        return;
      }
      err := CheckChipId(p.chip);
    }

    // -------------------------------------------------------------------
    // Samples

    /** ad3552r_ldac_trigger. */
    method LdacTrigger(mask: bv16) returns (err: int)
      modifies this
      ensures Step(err, State()) == Samples.LdacTrigger(old(State()), mask)
    {
      if !hasLdac {
        err := WriteReg(SW_LDAC_24B, mask);
        return;
      }
      pulses := pulses + [LdacPulse];
      err := SUCCESS;
    }

    /** The buffer of ad3552r_write_all_channels, built in place. */
    static method BuildAllChannels(buff: array<bv8>, fast: bool, v0: bv16, v1: bv16, trailer: bool)
      returns (len: nat)
      requires buff.Length == 7 && buff[..] == [0, 0, 0, 0, 0, 0, 0]
      modifies buff
      ensures Frame(buff[..], len) == AllChannelsBuffer(fast, v0, v1, trailer)
    {
      len := PutCodes(buff, fast, v0, v1);
      if trailer {
        buff[len] := MASK_ALL_CH as bv8;
        len := len + 1;
      }
    }

    /** Both channels' codes, before the LDAC trailer. */
    static method PutCodes(buff: array<bv8>, fast: bool, v0: bv16, v1: bv16) returns (len: nat)
      requires buff.Length == 7 && buff[..] == [0, 0, 0, 0, 0, 0, 0]
      modifies buff
      ensures Frame(buff[..], len) == AllChannelsBuffer(fast, v0, v1, false)
      ensures len == if fast then 4 else 6
    {
      len := PutFirst(buff, fast, v0);
      len := PutSecond(buff, len, fast, v1);
      CodesBytes(fast, v0, v1);
      var h0, h1 := Be16(v0), Be16(v1);
      if fast {
        assert buff[..] == [h0[0], h0[1] & 0xF0, h1[0], h1[1], 0, 0, 0];
      } else {
        assert buff[..] == [h0[0], h0[1], 0, h1[0], h1[1], 0, 0];
      }
    }

    /** Channel 0's code, big-endian; in fast mode its low nibble is
        cleared, otherwise a zero pad byte follows. */
    static method PutFirst(buff: array<bv8>, fast: bool, v0: bv16) returns (len: nat)
      requires buff.Length == 7 && buff[..] == [0, 0, 0, 0, 0, 0, 0]
      modifies buff
      ensures len == if fast then 2 else 3
      ensures var h0 := Be16(v0);
        buff[..] == if fast then [h0[0], h0[1] & 0xF0, 0, 0, 0, 0, 0] else [h0[0], h0[1], 0, 0, 0, 0, 0]
    {
      var h0 := Be16(v0);
      buff[0], buff[1] := h0[0], h0[1];
      len := 2;
      if fast {
        buff[1] := buff[1] & 0xF0;
        assert buff[..] == [h0[0], h0[1] & 0xF0, 0, 0, 0, 0, 0];
      } else {
        len := len + 1;
        assert buff[..] == [h0[0], h0[1], 0, 0, 0, 0, 0];
      }
    }

    /** Channel 1's code at `len`, then the fast-mode mask on the byte
        after its low byte, or the zero pad byte. */
    static method PutSecond(buff: array<bv8>, len0: nat, fast: bool, v1: bv16) returns (len: nat)
      requires buff.Length == 7 && len0 == (if fast then 2 else 3)
      modifies buff
      ensures len == len0 + (if fast then 2 else 3)
      ensures var h1 := Be16(v1);
        buff[..] == if fast then old(buff[..])[2 := h1[0]][3 := h1[1]][5 := old(buff[5]) & 0xF0]
                    else old(buff[..])[3 := h1[0]][4 := h1[1]]
    {
      var h1 := Be16(v1);
      len := len0;
      buff[len], buff[len + 1] := h1[0], h1[1];
      len := len + 2;
      if fast {
        buff[len + 1] := buff[len + 1] & 0xF0;
      } else {
        len := len + 1;
      }
    }

    /** ad3552r_write_all_channels. */
    method WriteAllChannels(v0: bv16, v1: bv16, mode: WriteMode) returns (err: int)
      requires |ch| == NUM_CH
      modifies this
      ensures Step(err, State()) == Samples.WriteAllChannels(old(State()), v0, v1, mode)
    {
      var fast := ch[0].fastEn;
      var buff := new bv8[7](_ => 0);
      assert buff[..] == [0, 0, 0, 0, 0, 0, 0];
      var len := BuildAllChannels(buff, fast, v0, v1, mode == WriteInputRegsAndTriggerLdac && !hasLdac);
      err := TransferData(None, false, CodeRegAddr(1, mode == WriteDacRegs, fast), buff, len);
      if IsErr(err) {
        return;
      }
      if mode == WriteInputRegsAndTriggerLdac {
        err := LdacTrigger(MASK_ALL_CH);
        return;
      }
      err := SUCCESS;
    }

    /** ad3552r_write_samples. */
    method WriteSamples(data: seq<bv16>, samples: nat, chMask: bv32, mode: WriteMode) returns (err: int)
      requires |ch| == NUM_CH && SamplesFit(data, samples, chMask)
      modifies this
      ensures Step(err, State()) == Samples.WriteSamples(old(State()), data, samples, chMask, mode)
    {
      if chMask == MASK_ALL_CH as bv32 && ch[0].fastEn != ch[0].fastEn {
        return -EINVAL;
      }
      if chMask == MASK_ALL_CH as bv32 {
        err := WriteAllLoop(data, samples, mode);
        return;
      }
      var c := FirstSetBit(chMask);
      if c >= NUM_CH {
        return -EINVAL;
      }
      var addr := CodeRegAddr(c, mode == WriteDacRegs, ch[c].fastEn);
      err := WriteChannelLoop(addr, data, samples, chMask, mode);
    }

    /** The loop over samples when both channels are written: one
        two-channel write per sample, stopping at the first error. */
    method WriteAllLoop(data: seq<bv16>, samples: nat, mode: WriteMode) returns (err: int)
      requires |ch| == NUM_CH && |data| >= 2 * samples
      modifies this
      ensures Step(err, State()) == WriteAllFrom(old(State()), data, samples, mode, 0)
    {
      ghost var d0 := State();
      var i := 0;
      while i < samples
        invariant i <= samples && |ch| == NUM_CH
        invariant WriteAllFrom(State(), data, samples, mode, i) == WriteAllFrom(d0, data, samples, mode, 0)
      {
        err := WriteAllChannels(data[2 * i], data[2 * i + 1], mode);
        if IsErr(err) {
          return;
        }
        i := i + 1;
      }
      err := SUCCESS;
    }

    /** The loop over samples for one channel: each code written to
        `addr`, then the LDAC trigger when the mode asks for it. */
    method WriteChannelLoop(addr: u8, data: seq<bv16>, samples: nat, chMask: bv32, mode: WriteMode)
      returns (err: int)
      requires |data| >= samples
      modifies this
      ensures Step(err, State()) == WriteChannelFrom(old(State()), addr, data, samples, chMask, mode, 0)
    {
      ghost var d0 := State();
      var i := 0;
      while i < samples
        invariant i <= samples
        invariant WriteChannelFrom(State(), addr, data, samples, chMask, mode, i) ==
                  WriteChannelFrom(d0, addr, data, samples, chMask, mode, 0)
      {
        err := WriteReg(addr, data[i]);
        if IsErr(err) {
          return;
        }
        if mode == WriteInputRegsAndTriggerLdac {
          err := LdacTrigger((chMask & 0xFFFF) as bv16);
          if IsErr(err) {
            return;
          }
        }
        i := i + 1;
      }
      err := SUCCESS;
    }
  }
}
