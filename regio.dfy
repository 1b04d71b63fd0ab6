/** Register accesses of drivers/dac/ad3552r/ad3552r.c: ad3552r_write_reg,
    ad3552r_read_reg, the read-modify-write _ad3552r_update_reg_field, the
    device-attribute accessors, the cache sync _update_spi_cfg and the
    public ad3552r_transfer. */
module RegIo {
  import opened CInt
  import opened Bytes
  import opened Fields
  import opened Registers
  import opened Calibration
  import opened Device
  import opened Transfer

  /** Outcome of an operation that only reports a status. */
  datatype Step = Step(err: int, dev: Dev)

  /** Outcome of an operation that also reads a value; `val` is meaningful
      only when `err` is not an error. */
  datatype Got = Got(err: int, val: bv16, dev: Dev)

  /** Registers at or above SECONDARY_REGION_ADDR are refused while address
      ascension is cached as on. */
  predicate Refused(d: Dev, addr: u8)
  {
    addr >= SECONDARY_REGION_ADDR && d.cfg.addrAsc != 0
  }

  /** The 3-byte buffer ad3552r_write_reg sends: the low byte of a 1-byte
      register; the value masked to 12 bits, big-endian, for a 2-byte
      register; the value big-endian then a zero byte for a 3-byte one. */
  function PackReg(addr: u8, val: bv16): (buf: seq<bv8>)
    ensures |buf| == MAX_REG_SIZE
  {
    var n := RegLen(addr);
    if n == 1 then [(val & 0xFF) as bv8, 0, 0]
    else if n == 2 then Be16(val & MASK_DAC_12B) + [0]
    else Be16(val) + [0]
  }

  /** How ad3552r_read_reg turns the buffer into a value: `buf[0]` for a
      1-byte register, big-endian `buf[0..1]` otherwise. */
  function UnpackReg(addr: u8, buf: seq<bv8>): bv16
  {
    if RegLen(addr) == 1 then ByteAt(buf, 0) as bv16 else FromBe16(ByteAt(buf, 0), ByteAt(buf, 1))
  }

  /** Byte `k` of the buffer, 0 past its end. */
  function ByteAt(buf: seq<bv8>, k: nat): bv8
  {
    if k < |buf| then buf[k] else 0
  }

  /** Reading back what was packed gives the value cut to what the register
      holds: its low byte, its top 12 bits, or all 16 bits. */
  lemma PackUnpack(addr: u8, val: bv16)
    ensures UnpackReg(addr, PackReg(addr, val)) ==
      if RegLen(addr) == 1 then val & 0xFF
      else if RegLen(addr) == 2 then val & MASK_DAC_12B
      else val
  {
    var buf := PackReg(addr, val);
    if RegLen(addr) == 1 {
      assert buf[0] == (val & 0xFF) as bv8;
      assert ((val & 0xFF) as bv8) as bv16 == val & 0xFF;
    } else if RegLen(addr) == 2 {
      var b := Be16(val & MASK_DAC_12B);
      assert buf[0] == b[0] && buf[1] == b[1];
      Be16RoundTrip(val & MASK_DAC_12B);
    } else {
      var b := Be16(val);
      assert buf[0] == b[0] && buf[1] == b[1];
      Be16RoundTrip(val);
    }
  }

  /** ad3552r_write_reg. */
  function WriteReg(d: Dev, addr: u8, val: bv16): (s: Step)
    ensures Refused(d, addr) ==> s == Step(-EINVAL, d)
    ensures !Refused(d, addr) ==>
      s.err == Exchange(d, false, addr, PackReg(addr, val), RegLen(addr)).err &&
      |s.dev.sent| > |d.sent|
    ensures SameButBus(d, s.dev)
  {
    if Refused(d, addr) then Step(-EINVAL, d)
    else
      var x := Exchange(d, false, addr, PackReg(addr, val), RegLen(addr));
      Step(x.err, x.dev)
  }

  /** ad3552r_read_reg: a zeroed buffer of the register's width is read and
      unpacked. */
  function ReadReg(d: Dev, addr: u8): (g: Got)
    ensures Refused(d, addr) ==> g.err == -EINVAL && g.dev == d
    ensures !Refused(d, addr) ==>
      var x := Exchange(d, true, addr, [0, 0, 0], RegLen(addr));
      g.err == (if IsErr(x.err) then x.err else SUCCESS) &&
      (!IsErr(x.err) ==> g.val == UnpackReg(addr, x.data)) &&
      |g.dev.sent| > |d.sent|
    ensures SameButBus(d, g.dev)
  {
    if Refused(d, addr) then Got(-EINVAL, 0, d)
    else
      var x := Exchange(d, true, addr, [0, 0, 0], RegLen(addr));
      if IsErr(x.err) then Got(x.err, 0, x.dev)
      else Got(SUCCESS, UnpackReg(addr, x.data), x.dev)
  }

  /** With CRC off, a register read hands back the bytes the device clocked
      out after the instruction byte. */
  lemma ReadRegPlain(d: Dev, addr: u8)
    requires d.crcEn == 0 && !Refused(d, addr) && !IsErr(NextReply(d).status)
    ensures var g := ReadReg(d, addr);
      var rx := Window(NextReply(d).rx, 1, RegLen(addr));
      g.err == SUCCESS &&
      g.val == (if RegLen(addr) == 1 then rx[0] as bv16 else FromBe16(rx[0], rx[1]))
  {
  }

  /** The value _ad3552r_update_reg_field writes: the whole value for a
      full-width mask, the merge with the current contents otherwise. */
  function FieldWriteValue(addr: u8, mask: bv16, current: bv16, val: bv16): bv16
    requires mask != 0
  {
    if mask == FullMask(addr) then val else MergeField(current, mask, val)
  }

  /** _ad3552r_update_reg_field. */
  function UpdateRegField(d: Dev, addr: u8, mask: bv16, val: bv16): (s: Step)
    requires mask != 0
    ensures SameButBus(d, s.dev)
    ensures mask == FullMask(addr) ==> s == WriteReg(d, addr, val)
    ensures mask != FullMask(addr) ==>
      var g := ReadReg(d, addr);
      if IsErr(g.err) then s == Step(g.err, g.dev)
      else s == WriteReg(g.dev, addr, FieldWriteValue(addr, mask, g.val, val))
    ensures !Refused(d, addr) ==> |s.dev.sent| > |d.sent|
  {
    if mask == FullMask(addr) then WriteReg(d, addr, val)
    else
      var g := ReadReg(d, addr);
      if IsErr(g.err) then Step(g.err, g.dev)
      else WriteReg(g.dev, addr, MergeField(g.val, mask, val))
  }

  /** The merged value keeps every bit of the register outside the field,
      and for the driver's masks the field reads back as the value. */
  lemma FieldWriteKeepsOthers(addr: u8, mask: bv16, current: bv16, val: bv16)
    requires IsDriverMask(mask) && mask != FullMask(addr)
    ensures FieldWriteValue(addr, mask, current, val) & !mask == current & !mask
    ensures FieldGet(mask, FieldWriteValue(addr, mask, current, val)) == val & Shr(mask, LowestSetBit(mask))
  {
    MergeFieldKeepsOutside(current, mask, val);
    FieldRoundTrip(current, mask, val);
  }

  /** A failed read ends the update: one transfer, no write. */
  lemma UpdateReadFailureNoWrite(d: Dev, addr: u8, mask: bv16, val: bv16)
    requires mask != 0 && mask != FullMask(addr) && !Refused(d, addr)
    requires IsErr(Exchange(d, true, addr, [0, 0, 0], RegLen(addr)).err)
    ensures var s := UpdateRegField(d, addr, mask, val);
      IsErr(s.err) && s.dev == Exchange(d, true, addr, [0, 0, 0], RegLen(addr)).dev
  {
  }

  /** _ad3552r_set_reg_attr. */
  function SetRegAttr(d: Dev, a: DevAttr, val: bv16): Step
  {
    UpdateRegField(d, DevAttrReg(a), DevAttrMask(a), val)
  }

  /** _ad3552r_get_reg_attr: the field is extracted even from a failed
      read (whose value is then meaningless). */
  function GetRegAttr(d: Dev, a: DevAttr): (g: Got)
    ensures g.err == ReadReg(d, DevAttrReg(a)).err && g.dev == ReadReg(d, DevAttrReg(a)).dev
  {
    var g := ReadReg(d, DevAttrReg(a));
    Got(g.err, FieldGet(DevAttrMask(a), g.val), g.dev)
  }

  /** Get after set: when the attribute's register reads back a value that
      the field update merged, the getter returns the value set, cut to the
      field's width, and a failed read passes its status through. */
  lemma GetRegAttrAfterSet(d: Dev, a: DevAttr, current: bv16, val: bv16)
    requires ReadReg(d, DevAttrReg(a)).err == SUCCESS
    requires ReadReg(d, DevAttrReg(a)).val == MergeField(current, DevAttrMask(a), val)
    ensures GetRegAttr(d, a).err == SUCCESS
    ensures GetRegAttr(d, a).val == val & Shr(DevAttrMask(a), LowestSetBit(DevAttrMask(a)))
  {
    FieldRoundTrip(current, DevAttrMask(a), val);
  }

  // ---------------------------------------------------------------------
  // _update_spi_cfg

  /** Whether the stream-length register is written, given the cached
      configuration on entry: when the length changes or the cached keep
      flag was 0, unless that flag was 0 and the new length is 0. */
  predicate WritesStreamLen(cur: SpiCfg, cfg: SpiCfg)
  {
    (cur.streamLen != cfg.streamLen || cur.keepValue == 0) &&
    !(cur.keepValue == 0 && cfg.streamLen == 0)
  }

  /** Whether _update_spi_cfg touches the device at all. */
  predicate SyncWrites(cur: SpiCfg, cfg: SpiCfg)
  {
    cur.addrAsc != cfg.addrAsc || cur.singleInstr != cfg.singleInstr ||
    cur.keepValue != cfg.keepValue || WritesStreamLen(cur, cfg)
  }

  /** One attribute write of the sync when `write` holds; otherwise the
      status so far is kept and nothing is sent. */
  function SyncWrite(s: Step, write: bool, a: DevAttr, v: u8): (r: Step)
    ensures SameButBus(s.dev, r.dev)
    ensures !write ==> r == s
    ensures write ==> r == SetRegAttr(s.dev, a, v as bv16) && |r.dev.sent| > |s.dev.sent|
  {
    if write then
      DevAttrRegsArePrimary(a);
      SetRegAttr(s.dev, a, v as bv16)
    else s
  }

  /** _update_spi_cfg: writes the changed fields, in the order address
      ascension, single instruction, keep flag, stream length, caching each
      requested value right after its write whether or not it succeeded.
      The status is that of the last write performed. */
  function SyncSpiCfg(d: Dev, cfg: SpiCfg): (s: Step)
    ensures s.dev.cfg == cfg
    ensures !SyncWrites(d.cfg, cfg) ==> s == Step(SUCCESS, d.(cfg := cfg))
  {
    var cur := d.cfg;
    var c1 := cur.(addrAsc := cfg.addrAsc);
    var c2 := c1.(singleInstr := cfg.singleInstr);
    var c3 := c2.(keepValue := cfg.keepValue);
    var s1 := SyncStep(Step(SUCCESS, d), cur.addrAsc != cfg.addrAsc, AddrAscension, cfg.addrAsc, c1);
    var s2 := SyncStep(s1, cur.singleInstr != cfg.singleInstr, SingleInst, cfg.singleInstr, c2);
    var s3 := SyncStep(s2, cur.keepValue != cfg.keepValue, StreamLengthKeepValue, cfg.keepValue, c3);
    SyncStep(s3, WritesStreamLen(cur, cfg), StreamMode, cfg.streamLen, cfg)
  }

  /** One field of the sync: the optional write, then the cache holding
      `next` whatever the write's status. */
  function SyncStep(s: Step, write: bool, a: DevAttr, v: u8, next: SpiCfg): (r: Step)
    ensures SameButLink(s.dev, r.dev) && r.dev.cfg == next
    ensures !write ==> r == Step(s.err, s.dev.(cfg := next))
  {
    var w := SyncWrite(s, write, a, v);
    Step(w.err, w.dev.(cfg := next))
  }

  /** The sync changes nothing but the cached configuration and the bus. */
  lemma SyncSpiCfgFrame(d: Dev, cfg: SpiCfg)
    ensures SameButLink(d, SyncSpiCfg(d, cfg).dev)
    ensures SyncWrites(d.cfg, cfg) ==> |SyncSpiCfg(d, cfg).dev.sent| > |d.sent|
  {
  }

  /** With the keep flag cleared, the stream length is rewritten even when
      it has not changed, unless it is 0. */
  lemma SyncRewritesLengthWithoutKeep(d: Dev, cfg: SpiCfg)
    requires d.cfg.keepValue == 0 && cfg.streamLen != 0
    ensures SyncWrites(d.cfg, cfg)
    ensures |SyncSpiCfg(d, cfg).dev.sent| > |d.sent|
  {
    SyncSpiCfgFrame(d, cfg);
  }

  /** ad3552r_transfer: the optional configuration update (whose status is
      discarded), then the exchange. */
  function TransferData(d: Dev, cfg: Option<SpiCfg>, isRead: bool, addr: u8, data: seq<bv8>, len: nat): (x: Xfer)
    ensures cfg.None? ==> x == Exchange(d, isRead, addr, data, len)
    ensures cfg.Some? ==> x == Exchange(SyncSpiCfg(d, cfg.value).dev, isRead, addr, data, len)
  {
    var d1 := if cfg.Some? then SyncSpiCfg(d, cfg.value).dev else d;
    Exchange(d1, isRead, addr, data, len)
  }
}
