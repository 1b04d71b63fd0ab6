/** ad3552r_transfer and _ad3552r_transfer_with_crc as functions of the
    device state: the instruction byte, the plain two-segment transfer,
    and the CRC-framed transfer split into register-sized chunks. */
module Transfer {
  import opened CInt
  import opened Bytes
  import opened Registers
  import opened Device

  /** `instr = addr & ~READ_BIT`, with READ_BIT set for a read. */
  function Instr(addr: u8, isRead: bool): (b: bv8)
    ensures (b & 0x80 != 0) == isRead
    ensures b & 0x7F == (addr as bv8) & 0x7F
  {
    ((addr as bv8) & 0x7F) | (if isRead then 0x80 else 0)
  }

  /** The outcome of one transfer: status, the caller's buffer afterwards,
      and the device state afterwards. */
  datatype Xfer = Xfer(err: int, data: seq<bv8>, dev: Dev)

  // ---------------------------------------------------------------------
  // Plain transfer (CRC off).

  /** The instruction byte, then `len` data bytes: driven from `data` on a
      write, clocked into `data` on a read. */
  function PlainExchange(d: Dev, isRead: bool, addr: u8, data: seq<bv8>, len: nat): (x: Xfer)
    ensures x.dev.sent == d.sent + [[Segment([Instr(addr, isRead)], 1, false),
                                     Segment(if isRead then [] else Window(data, 0, len), len, false)]]
    ensures x.err == NextReply(d).status
    ensures SameButBus(d, x.dev)
    ensures isRead ==> x.data == Overwrite(data, 0, Window(NextReply(d).rx, 1, len))
    ensures !isRead ==> x.data == data
  {
    var msgs := [Segment([Instr(addr, isRead)], 1, false),
                 Segment(if isRead then [] else Window(data, 0, len), len, false)];
    var (reply, d') := Spi(d, msgs);
    Xfer(reply.status, if isRead then Overwrite(data, 0, Window(reply.rx, 1, len)) else data, d')
  }

  // ---------------------------------------------------------------------
  // The chunk plan of the CRC transfer.

  /** What the chunk plan depends on: the register the chunk at a given
      address increment lives at, the direction of the cached interface
      configuration, and the transfer length. */
  datatype Plan = Plan(addrAt: int -> u8, asc: bool, len: nat)

  /** One iteration of the do-while loop: buffer offset `i`, address
      increment `inc`, chunk address and the register width there. */
  datatype Chunk = Chunk(i: nat, inc: int, addr: u8, len: nat)

  /** `sign * x` with `sign = addr_asc ? 1 : -1`. */
  function Signed(asc: bool, x: int): int { if asc then x else -x }

  /** `addr = data->addr + (stream_len ? inc % stream_len : inc)` into a
      uint8_t, then `% REG_ADDR_MAX`. */
  function ChunkAddr(base: u8, streamLen: u8, inc: int): (a: u8)
    ensures a < REG_ADDR_MAX
  {
    var step := if streamLen != 0 then Rem(inc, streamLen) else inc;
    ToU8(base + step) % REG_ADDR_MAX
  }

  /** The plan of a transfer of `len` bytes from register `addr` under the
      interface configuration `cfg`. */
  function PlanOf(cfg: SpiCfg, addr: u8, len: nat): (p: Plan)
    ensures p.asc == (cfg.addrAsc != 0) && p.len == len
    ensures forall inc :: p.addrAt(inc) == ChunkAddr(addr, cfg.streamLen, inc)
  {
    Plan(inc => ChunkAddr(addr, cfg.streamLen, inc), cfg.addrAsc != 0, len)
  }

  /** The chunk the loop body works on at offset `i` with increment `inc`. */
  function ChunkAt(p: Plan, i: nat, inc: int): (c: Chunk)
    ensures c.i == i && c.inc == inc && c.addr == p.addrAt(inc)
    ensures c.len == RegLen(c.addr) && 1 <= c.len <= MAX_REG_SIZE
  {
    var a := p.addrAt(inc);
    Chunk(i, inc, a, RegLen(a))
  }

  /** The chunks the loop visits from offset `i` with increment `inc`: one
      at least (do-while), then one more while `i + reg_len < len`, each
      step moving the offset by the width and the increment by
      `sign * width`. */
  function Schedule(p: Plan, i: nat, inc: int): (s: seq<Chunk>)
    requires i <= p.len
    ensures |s| >= 1 && s[0] == ChunkAt(p, i, inc)
    ensures s[|s| - 1].i + s[|s| - 1].len >= p.len
    decreases p.len - i
  {
    var c := ChunkAt(p, i, inc);
    if i + c.len < p.len then [c] + Schedule(p, i + c.len, inc + Signed(p.asc, c.len))
    else [c]
  }

  /** The next chunk after `c`, when the loop goes on. */
  function Successor(p: Plan, c: Chunk): Chunk
  {
    ChunkAt(p, c.i + c.len, c.inc + Signed(p.asc, c.len))
  }

  /** Every chunk but the last ends inside the transfer and is followed by
      its successor; the last one reaches the end. */
  lemma {:induction false} ScheduleSteps(p: Plan, i: nat, inc: int)
    requires i <= p.len
    ensures forall k :: 0 <= k < |Schedule(p, i, inc)| - 1 ==>
      Schedule(p, i, inc)[k].i + Schedule(p, i, inc)[k].len < p.len
    ensures forall j, k {:trigger Schedule(p, i, inc)[j], Schedule(p, i, inc)[k]} ::
      0 <= j && k == j + 1 && k < |Schedule(p, i, inc)| ==>
      Schedule(p, i, inc)[k] == Successor(p, Schedule(p, i, inc)[j])
    decreases p.len - i
  {
    var s := Schedule(p, i, inc);
    var c := ChunkAt(p, i, inc);
    if i + c.len < p.len {
      var rest := Schedule(p, i + c.len, inc + Signed(p.asc, c.len));
      assert s == [c] + rest;
      ScheduleSteps(p, i + c.len, inc + Signed(p.asc, c.len));
      forall k | 0 <= k < |s| - 1
        ensures s[k].i + s[k].len < p.len && s[k + 1] == Successor(p, s[k])
      {
        if k == 0 {
          assert s[0] == c;
          assert c.i == i;
          assert s[0].i + s[0].len < p.len;
          assert s[1] == rest[0];
          assert rest[0] == ChunkAt(p, i + c.len, inc + Signed(p.asc, c.len));
          assert s[1] == Successor(p, s[0]);
        } else {
          assert s[k] == rest[k - 1] && s[k + 1] == rest[k];
          assert k - 1 < |rest| - 1;
          assert rest[k - 1].i + rest[k - 1].len < p.len;
        }
      }
    } else {
      assert |s| == 1;
    }
  }

  /** Starting from offset 0 the increment is always `sign * i`: the k-th
      address is the base moved by the buffer offset. */
  lemma {:induction false} ScheduleIncTracksOffset(p: Plan, i: nat, inc: int)
    requires i <= p.len && inc == Signed(p.asc, i)
    ensures forall c :: c in Schedule(p, i, inc) ==>
      c.inc == Signed(p.asc, c.i) && c == ChunkAt(p, c.i, c.inc)
    decreases p.len - i
  {
    var s := Schedule(p, i, inc);
    if |s| > 1 {
      var c0 := s[0];
      var rest := Schedule(p, i + c0.len, inc + Signed(p.asc, c0.len));
      assert s == [c0] + rest;
      ScheduleIncTracksOffset(p, i + c0.len, inc + Signed(p.asc, c0.len));
      forall c | c in s ensures c.inc == Signed(p.asc, c.i) && c == ChunkAt(p, c.i, c.inc) {
        if c != c0 {
          assert c in rest;
        }
      }
    }
  }

  /** Offsets strictly increase, so at most `len + 1` chunks are run. */
  lemma {:induction false} ScheduleOffsets(p: Plan, i: nat, inc: int)
    requires i <= p.len
    ensures forall k :: 0 <= k < |Schedule(p, i, inc)| ==> Schedule(p, i, inc)[k].i >= i + k
    ensures |Schedule(p, i, inc)| <= p.len - i + 1
    decreases p.len - i
  {
    var s := Schedule(p, i, inc);
    if |s| > 1 {
      var c := s[0];
      var rest := Schedule(p, i + c.len, inc + Signed(p.asc, c.len));
      assert s == [c] + rest;
      ScheduleOffsets(p, i + c.len, inc + Signed(p.asc, c.len));
      forall k | 1 <= k < |s| ensures s[k].i >= i + k {
        assert s[k] == rest[k - 1];
      }
    }
  }

  /** `cs_change = !(i + reg_len == len)`. */
  function CsChange(p: Plan, c: Chunk): bool
  {
    !(c.i + c.len == p.len)
  }

  /** Chip-select stays asserted between the chunks of one transfer; only
      the last chunk can release it, and it does so exactly when the
      register widths add up to the transfer length. */
  lemma ScheduleCsChange(p: Plan, i: nat, inc: int)
    requires i <= p.len
    ensures var s := Schedule(p, i, inc);
      (forall k :: 0 <= k < |s| - 1 ==> CsChange(p, s[k])) &&
      (!CsChange(p, s[|s| - 1]) <==> s[|s| - 1].i + s[|s| - 1].len == p.len)
  {
    ScheduleSteps(p, i, inc);
  }

  // ---------------------------------------------------------------------
  // One CRC-framed chunk.

  /** crc_init: the CRC of the instruction byte for the first chunk, the
      chunk address afterwards. */
  function ChunkSeed(instr: bv8, c: Chunk): bv8
  {
    if c.i > 0 then c.addr as bv8 else Crc8([instr], CRC_SEED)
  }

  /** Bytes on the wire for a chunk: `reg_len + 1`, plus the instruction
      byte on the first chunk. */
  function FrameLen(c: Chunk): nat
  {
    c.len + 1 + (if c.i == 0 then 1 else 0)
  }

  /** The `out` buffer sent for a chunk: 0xFF filler for the continuation of
      a read; otherwise the instruction byte (first chunk only), `reg_len`
      bytes of the caller's buffer, and their CRC. */
  function ChunkTx(instr: bv8, isRead: bool, data: seq<bv8>, c: Chunk): (tx: seq<bv8>)
    ensures |tx| == FrameLen(c) || (isRead && c.i > 0 && |tx| == c.len + 1)
    ensures c.i == 0 ==> |tx| == c.len + 2 && tx[0] == instr
    ensures !(isRead && c.i > 0) ==>
      tx[FrameLen(c) - 1] == Crc8(Window(data, c.i, c.len), ChunkSeed(instr, c))
  {
    if isRead && c.i > 0 then Fill(0xFF, c.len + 1)
    else
      var body := Window(data, c.i, c.len);
      (if c.i == 0 then [instr] else []) + body + [Crc8(body, ChunkSeed(instr, c))]
  }

  /** The CRC byte of the first frame covers the instruction byte and the
      data together, from the standard seed: chaining through
      crc8(instr) is the same as one CRC over the whole frame. */
  lemma FirstFrameCrc(instr: bv8, isRead: bool, data: seq<bv8>, c: Chunk)
    requires c.i == 0
    ensures ChunkTx(instr, isRead, data, c)[c.len + 1] == Crc8([instr] + Window(data, 0, c.len), CRC_SEED)
  {
    Crc8Chain([instr], Window(data, 0, c.len), CRC_SEED);
  }

  function ChunkSegment(p: Plan, instr: bv8, isRead: bool, data: seq<bv8>, c: Chunk): Segment
  {
    var tx := ChunkTx(instr, isRead, data, c);
    Segment(tx, |tx|, CsChange(p, c))
  }

  /** Checking one chunk's answer, given the bytes clocked in: on a read the
      received data are copied into the buffer first, then their CRC is
      compared; on a write the echoed CRC must equal the one sent. */
  function ChunkCheck(instr: bv8, isRead: bool, data: seq<bv8>, c: Chunk, rx: seq<bv8>): (r: (int, seq<bv8>))
    ensures r.0 == SUCCESS || r.0 == -EBADMSG
    ensures !isRead ==> r.1 == data
  {
    var tx := ChunkTx(instr, isRead, data, c);
    var inBuf := Window(rx, 0, |tx|);
    var off := if c.i == 0 then 1 else 0;
    if isRead then
      var got := inBuf[off..off + c.len];
      (if inBuf[off + c.len] != Crc8(got, ChunkSeed(instr, c)) then -EBADMSG else SUCCESS,
       Overwrite(data, c.i, got))
    else
      (if inBuf[c.len + off] != tx[c.len + off] then -EBADMSG else SUCCESS, data)
  }

  /** A read chunk copies the received bytes after the instruction echo (on
      the first chunk) into the buffer, and succeeds exactly when the byte
      after them is their CRC. */
  lemma ReadCheckMeaning(instr: bv8, data: seq<bv8>, c: Chunk, rx: seq<bv8>)
    ensures var r := ChunkCheck(instr, true, data, c, rx);
      var off := if c.i == 0 then 1 else 0;
      var got := Window(rx, off, c.len);
      r.1 == Overwrite(data, c.i, got) &&
      (r.0 == SUCCESS <==> Window(rx, off + c.len, 1)[0] == Crc8(got, ChunkSeed(instr, c)))
  {
    var tx := ChunkTx(instr, true, data, c);
    var inBuf := Window(rx, 0, |tx|);
    var off := if c.i == 0 then 1 else 0;
    WindowSlice(rx, 0, |tx|, off, c.len);
    WindowSlice(rx, 0, |tx|, off + c.len, 1);
  }

  /** A write chunk succeeds exactly when the device echoes the CRC byte
      that was sent last. */
  lemma WriteCheckMeaning(instr: bv8, data: seq<bv8>, c: Chunk, rx: seq<bv8>)
    ensures var r := ChunkCheck(instr, false, data, c, rx);
      r.0 == SUCCESS <==> Window(rx, FrameLen(c) - 1, 1)[0] == ChunkTx(instr, false, data, c)[FrameLen(c) - 1]
  {
    var tx := ChunkTx(instr, false, data, c);
    var inBuf := Window(rx, 0, |tx|);
    var off := if c.i == 0 then 1 else 0;
    assert c.len + off == FrameLen(c) - 1;
    assert inBuf[c.len + off] == Window(rx, FrameLen(c) - 1, 1)[0];
  }

  /** The first chunk of a read whose CRC byte does not match what was
      received: -EBADMSG, with the data already copied. */
  lemma FirstReadCheckFails(instr: bv8, data: seq<bv8>, c: Chunk, rx: seq<bv8>)
    requires c.i == 0
    requires Window(rx, 1 + c.len, 1)[0] != Crc8(Window(rx, 1, c.len), Crc8([instr], CRC_SEED))
    ensures ChunkCheck(instr, true, data, c, rx) == (-EBADMSG, Overwrite(data, 0, Window(rx, 1, c.len)))
  {
    ReadCheckMeaning(instr, data, c, rx);
  }

  /** A first write chunk whose echoed CRC byte differs from the one sent
      fails its check and leaves the buffer alone. */
  lemma FirstWriteCheckFails(instr: bv8, data: seq<bv8>, c: Chunk, rx: seq<bv8>)
    requires c.i == 0
    requires Window(rx, c.len + 1, 1)[0] != Crc8([instr] + Window(data, 0, c.len), CRC_SEED)
    ensures ChunkCheck(instr, false, data, c, rx) == (-EBADMSG, data)
  {
    FirstFrameCrc(instr, false, data, c);
    WriteCheckMeaning(instr, data, c, rx);
  }

  /** One iteration of the loop body: the chunk's message is sent; a failed
      transfer returns its status, otherwise the answer is checked. */
  function ChunkStep(p: Plan, instr: bv8, isRead: bool, data: seq<bv8>, c: Chunk, d: Dev): (x: Xfer)
    ensures SameButBus(d, x.dev) && |x.dev.sent| == |d.sent| + 1
  {
    var (reply, d') := Spi(d, [ChunkSegment(p, instr, isRead, data, c)]);
    if IsErr(reply.status) then Xfer(reply.status, data, d')
    else
      var (err, data') := ChunkCheck(instr, isRead, data, c, reply.rx);
      Xfer(err, data', d')
  }

  /** What one chunk does to the buffer and the device. The run and the
      loop below are stated for any such step; the transfer uses ChunkStep. */
  type StepFn = (seq<bv8>, Chunk, Dev) -> Xfer

  function CrcStep(p: Plan, instr: bv8, isRead: bool): StepFn
  {
    (data: seq<bv8>, c: Chunk, d: Dev) => ChunkStep(p, instr, isRead, data, c, d)
  }

  /** `step` is ChunkStep for this transfer. */
  ghost predicate IsCrcStep(step: StepFn, p: Plan, instr: bv8, isRead: bool)
  {
    forall data, c, d {:trigger ChunkStep(p, instr, isRead, data, c, d)} ::
      step(data, c, d) == ChunkStep(p, instr, isRead, data, c, d)
  }

  /** The chunks of `s` run in order; the first failing transfer or CRC
      check ends the run with its error. */
  function CrcRun(step: StepFn, s: seq<Chunk>, data: seq<bv8>, d: Dev): Xfer
    decreases |s|
  {
    if s == [] then Xfer(SUCCESS, data, d)
    else
      var x := step(data, s[0], d);
      if x.err != SUCCESS then x
      else CrcRun(step, s[1..], x.data, x.dev)
  }

  /** A run of ChunkStep touches only the bus and sends one message per
      chunk it gets to, at least one when there is any. */
  lemma {:induction false} CrcRunFrame(p: Plan, instr: bv8, isRead: bool, s: seq<Chunk>, data: seq<bv8>, d: Dev)
    ensures var x := CrcRun(CrcStep(p, instr, isRead), s, data, d);
      SameButBus(d, x.dev) &&
      (|d.sent| < |x.dev.sent| <= |d.sent| + |s| || (s == [] && x.dev == d))
    decreases |s|
  {
    if s != [] {
      var x := ChunkStep(p, instr, isRead, data, s[0], d);
      if x.err == SUCCESS {
        CrcRunFrame(p, instr, isRead, s[1..], x.data, x.dev);
      }
    }
  }

  /** The do-while loop as it runs from offset `i` with increment `inc`:
      one chunk, then the next one while the chunk succeeded and
      `i + reg_len < len`. */
  function CrcLoop(step: StepFn, p: Plan, i: nat, inc: int, data: seq<bv8>, d: Dev): Xfer
    requires i <= p.len
    decreases p.len - i
  {
    var c := ChunkAt(p, i, inc);
    var x := step(data, c, d);
    if x.err != SUCCESS || i + c.len >= p.len then x
    else CrcLoop(step, p, i + c.len, inc + Signed(p.asc, c.len), x.data, x.dev)
  }

  /** The loop visits exactly the chunk schedule: running it is running
      the schedule's chunks in order. */
  lemma {:induction false} CrcLoopRunsSchedule(step: StepFn, p: Plan, i: nat, inc: int, data: seq<bv8>, d: Dev)
    requires i <= p.len
    ensures CrcLoop(step, p, i, inc, data, d) == CrcRun(step, Schedule(p, i, inc), data, d)
    decreases p.len - i
  {
    var c := ChunkAt(p, i, inc);
    var x := step(data, c, d);
    CrcLoopHead(step, p, i, inc, data, d);
    if i + c.len < p.len {
      var inc' := inc + Signed(p.asc, c.len);
      var rest := Schedule(p, i + c.len, inc');
      assert Schedule(p, i, inc) == [c] + rest;
      CrcRunCons(step, c, rest, data, d);
      if x.err == SUCCESS {
        CrcLoopRunsSchedule(step, p, i + c.len, inc', x.data, x.dev);
      }
    } else {
      assert Schedule(p, i, inc) == [c];
      CrcRunCons(step, c, [], data, d);
    }
  }

  /** One turn of the loop: its chunk, then either the end or the rest. */
  lemma CrcLoopHead(step: StepFn, p: Plan, i: nat, inc: int, data: seq<bv8>, d: Dev)
    requires i <= p.len
    ensures var c := ChunkAt(p, i, inc);
      var x := step(data, c, d);
      CrcLoop(step, p, i, inc, data, d) ==
        if x.err != SUCCESS || i + c.len >= p.len then x
        else CrcLoop(step, p, i + c.len, inc + Signed(p.asc, c.len), x.data, x.dev)
  {
  }

  /** Running `[c] + rest` runs `c`, then `rest` when `c` succeeded. */
  lemma CrcRunCons(step: StepFn, c: Chunk, rest: seq<Chunk>, data: seq<bv8>, d: Dev)
    ensures var x := step(data, c, d);
      CrcRun(step, [c] + rest, data, d) ==
        if x.err != SUCCESS then x else CrcRun(step, rest, x.data, x.dev)
  {
    assert ([c] + rest)[1..] == rest;
  }

  /** A run whose first chunk fails ends with that chunk's outcome. */
  lemma CrcRunFirst(step: StepFn, s: seq<Chunk>, data: seq<bv8>, d: Dev)
    requires s != []
    ensures var x := step(data, s[0], d);
      x.err != SUCCESS ==> CrcRun(step, s, data, d) == x
  {
  }

  /** _ad3552r_transfer_with_crc. */
  function CrcExchange(d: Dev, isRead: bool, addr: u8, data: seq<bv8>, len: nat): (x: Xfer)
    ensures SameButBus(d, x.dev)
    ensures |d.sent| < |x.dev.sent| <= |d.sent| + len + 1
  {
    var p := PlanOf(d.cfg, addr, len);
    ScheduleOffsets(p, 0, 0);
    CrcRunFrame(p, Instr(addr, isRead), isRead, Schedule(p, 0, 0), data, d);
    CrcRun(CrcStep(p, Instr(addr, isRead), isRead), Schedule(p, 0, 0), data, d)
  }

  /** The body of ad3552r_transfer after the optional configuration update:
      CRC-framed when `crc_en` is set, plain otherwise. */
  function Exchange(d: Dev, isRead: bool, addr: u8, data: seq<bv8>, len: nat): (x: Xfer)
    ensures SameButBus(d, x.dev)
    ensures |x.dev.sent| > |d.sent|
  {
    if d.crcEn != 0 then CrcExchange(d, isRead, addr, data, len)
    else PlainExchange(d, isRead, addr, data, len)
  }

  /** A CRC failure on the first chunk of a read is reported as -EBADMSG
      after the received bytes have already been copied into the buffer. */
  lemma ReadCrcMismatch(d: Dev, addr: u8, data: seq<bv8>, len: nat)
    requires d.crcEn != 0 && !IsErr(NextReply(d).status)
    requires var a := ChunkAddr(addr, d.cfg.streamLen, 0);
      var rx := NextReply(d).rx;
      Window(rx, 1 + RegLen(a), 1)[0] != Crc8(Window(rx, 1, RegLen(a)), Crc8([Instr(addr, true)], CRC_SEED))
    ensures var x := Exchange(d, true, addr, data, len);
      var a := ChunkAddr(addr, d.cfg.streamLen, 0);
      x.err == -EBADMSG && x.data == Overwrite(data, 0, Window(NextReply(d).rx, 1, RegLen(a))) &&
      |x.dev.sent| == |d.sent| + 1
  {
    var p := PlanOf(d.cfg, addr, len);
    var instr := Instr(addr, true);
    var s := Schedule(p, 0, 0);
    var c := s[0];
    var a := ChunkAddr(addr, d.cfg.streamLen, 0);
    assert c == Chunk(0, 0, a, RegLen(a));
    var rx := NextReply(d).rx;
    var x := ChunkStep(p, instr, true, data, c, d);
    FirstReadCheckFails(instr, data, c, rx);
    assert x.err == -EBADMSG;
    CrcRunFirst(CrcStep(p, instr, true), s, data, d);
  }

  /** On a write, the device must echo the CRC byte it was sent: any other
      echo of the first chunk's CRC position is -EBADMSG. */
  lemma WriteEchoMismatch(d: Dev, addr: u8, data: seq<bv8>, len: nat)
    requires d.crcEn != 0 && !IsErr(NextReply(d).status)
    requires var a := ChunkAddr(addr, d.cfg.streamLen, 0);
      var c := Chunk(0, 0, a, RegLen(a));
      Window(NextReply(d).rx, c.len + 1, 1)[0] != Crc8([Instr(addr, false)] + Window(data, 0, c.len), CRC_SEED)
    ensures var x := Exchange(d, false, addr, data, len);
      x.err == -EBADMSG && x.data == data && |x.dev.sent| == |d.sent| + 1
  {
    var p := PlanOf(d.cfg, addr, len);
    var instr := Instr(addr, false);
    var s := Schedule(p, 0, 0);
    var c := s[0];
    var a := ChunkAddr(addr, d.cfg.streamLen, 0);
    assert c == Chunk(0, 0, a, RegLen(a));
    FirstWriteCheckFails(instr, data, c, NextReply(d).rx);
    var x := ChunkStep(p, instr, false, data, c, d);
    assert x.err == -EBADMSG;
    CrcRunFirst(CrcStep(p, instr, false), s, data, d);
  }
}
