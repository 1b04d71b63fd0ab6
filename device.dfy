/** The driver's state (struct ad3552r_desc) as a value, and the SPI bus it
    talks through. The bus is an oracle: every transfer appends its
    segments to `sent` and consumes the next entry of `replies`, which
    gives the transfer's status and the bytes clocked in. */
module Device {
  import opened CInt
  import opened Registers
  import opened Calibration

  // ---- Error codes (no-OS error.h: SUCCESS, FAILURE and negated errno
  // values; only their distinctness matters here).
  const SUCCESS: int := 0
  const FAILURE: int := -1
  const EIO: int := 5
  const ENODEV: int := 19
  const EINVAL: int := 22
  const EBADMSG: int := 74

  /** IS_ERR_VALUE. */
  predicate IsErr(err: int) { err < 0 }

  /** One `struct spi_msg`: the bytes driven on MOSI (none for a pure read),
      the number of bytes clocked, and whether chip-select is kept asserted
      after it. */
  datatype Segment = Segment(tx: seq<bv8>, len: nat, csChange: bool)

  /** What the bus answers to one spi_transfer call: its status and the
      bytes clocked in over all its segments, in order. */
  datatype Reply = Reply(status: int, rx: seq<bv8>)

  /** struct ad3552_transfer_config: the serial-interface settings cached in
      `desc->spi_cfg`. */
  datatype SpiCfg = SpiCfg(addrAsc: u8, singleInstr: u8, keepValue: u8, streamLen: u8)

  /** The per-channel record `desc->ch_data[ch]`. `offset` is what the gain
      setter stores; `gainOffset` is the field the custom range reads,
      which no code path writes. */
  datatype Channel = Channel(
    fastEn: bool, range: nat, rangeOverride: bool, rfb: u16,
    p: nat, n: nat, offset: u16, gainOffset: int, offsetPolarity: bool,
    calib: Calib)

  /** Pulses on the optional reset and LDAC pins. */
  datatype Pulse = ResetPulse | LdacPulse

  datatype Dev = Dev(
    cfg: SpiCfg, crcEn: u8, chip: ChipId, ch: seq<Channel>,
    hasReset: bool, hasLdac: bool,
    sent: seq<seq<Segment>>, replies: seq<Reply>, pulses: seq<Pulse>)

  /** The channel records the calibration tables can be indexed with. */
  predicate ChannelOk(chip: ChipId, c: Channel)
  {
    c.p < 4 && c.n < 4 && c.range <= RangeMax(chip)
  }

  /** Two channel records, each usable as a calibration-table index. */
  predicate Valid(d: Dev)
  {
    |d.ch| == NUM_CH && ChannelOk(d.chip, d.ch[0]) && ChannelOk(d.chip, d.ch[1])
  }

  /** The zeroed record calloc leaves before any configuration. */
  const ZERO_CHANNEL: Channel :=
    Channel(false, 0, false, 0, 0, 0, 0, 0, false, Calib(0, 0, 0, 0))

  /** The reply to the next transfer: an exhausted script answers success
      with no bytes (undriven lines read as 0). */
  function NextReply(d: Dev): Reply
  {
    if |d.replies| > 0 then d.replies[0] else Reply(SUCCESS, [])
  }

  /** spi_transfer(desc->spi, msgs, n): records the segments and consumes
      one reply. */
  function Spi(d: Dev, msgs: seq<Segment>): (r: (Reply, Dev))
    ensures r.0 == NextReply(d)
    ensures r.1.sent == d.sent + [msgs]
    ensures |d.replies| > 0 ==> r.1.replies == d.replies[1..]
    ensures r.1 == d.(sent := r.1.sent, replies := r.1.replies)
  {
    (NextReply(d), d.(sent := d.sent + [msgs], replies := if |d.replies| > 0 then d.replies[1..] else []))
  }

  /** Transfers, and only transfers, grow the trace: the part of the state
      a register access may touch. */
  predicate SameButBus(d: Dev, e: Dev)
  {
    SameButLink(d, e) && e.cfg == d.cfg
  }

  /** A register access leaves everything but the bus and the cached
      interface configuration as it was. */
  predicate SameButLink(d: Dev, e: Dev)
  {
    e.crcEn == d.crcEn && e.chip == d.chip && e.ch == d.ch &&
    e.hasReset == d.hasReset && e.hasLdac == d.hasLdac && e.pulses == d.pulses
  }
}
