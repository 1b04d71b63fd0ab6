/** Byte buffers as the driver handles them: fixed windows into a caller's
    buffer, big-endian 16-bit packing, and the CRC-8 the device checks. */
module Bytes {

  /** `n` bytes of `s` starting at `at`; positions past the end of `s` read
      as 0 (in C they would be read past the caller's buffer). */
  function Window(s: seq<bv8>, at: nat, n: nat): (w: seq<bv8>)
    ensures |w| == n
    ensures forall k :: 0 <= k < n && at + k < |s| ==> w[k] == s[at + k]
    ensures forall k :: 0 <= k < n && at + k >= |s| ==> w[k] == 0
  {
    seq(n, k requires 0 <= k < n => if at + k < |s| then s[at + k] else 0)
  }

  /** `s` with `src` copied in at `at`; bytes that would land past the end of
      `s` are dropped (in C they would be written past the caller's buffer). */
  function Overwrite(s: seq<bv8>, at: nat, src: seq<bv8>): (r: seq<bv8>)
    ensures |r| == |s|
    ensures forall k :: 0 <= k < |s| && at <= k < at + |src| ==> r[k] == src[k - at]
    ensures forall k :: 0 <= k < |s| && !(at <= k < at + |src|) ==> r[k] == s[k]
  {
    seq(|s|, k requires 0 <= k < |s| => if at <= k < at + |src| then src[k - at] else s[k])
  }

  /** `n` copies of the byte `b` (memset). */
  function Fill(b: bv8, n: nat): (r: seq<bv8>)
    ensures |r| == n && forall k :: 0 <= k < n ==> r[k] == b
  {
    seq(n, _ => b)
  }

  /** put_unaligned_be16: most significant byte first. */
  function Be16(v: bv16): (r: seq<bv8>)
    ensures |r| == 2
  {
    [(v >> 8) as bv8, (v & 0xFF) as bv8]
  }

  /** get_unaligned_be16. */
  function FromBe16(hi: bv8, lo: bv8): bv16
  {
    (hi as bv16 << 8) | lo as bv16
  }

  lemma Be16RoundTrip(v: bv16)
    ensures FromBe16(Be16(v)[0], Be16(v)[1]) == v
  {
  }

  lemma WindowOfOverwrite(s: seq<bv8>, at: nat, src: seq<bv8>)
    requires at + |src| <= |s|
    ensures Window(Overwrite(s, at, src), at, |src|) == src
  {
  }

  /** A slice of a window is the window at the shifted position. */
  lemma WindowSlice(s: seq<bv8>, at: nat, n: nat, i: nat, m: nat)
    requires i + m <= n
    ensures Window(s, at, n)[i..i + m] == Window(s, at + i, m)
  {
  }

  // ---------------------------------------------------------------------
  // CRC-8, polynomial x^8 + x^2 + x + 1 (0x07), most significant bit first.

  const CRC_POLY: bv8 := 0x07
  const CRC_SEED: bv8 := 0xA5

  /** One step of polynomial division: shift left, reduce on carry-out. */
  function CrcShift(c: bv8): bv8
  {
    if c & 0x80 != 0 then (c << 1) ^ CRC_POLY else c << 1
  }

  /** `k` division steps, as the inner loop of crc8_populate_msb runs them. */
  function CrcShifts(c: bv8, k: nat): bv8
    decreases k
  {
    if k == 0 then c else CrcShifts(CrcShift(c), k - 1)
  }

  /** Entry `b` of the 256-entry table that crc8_populate_msb builds: `b`
      shifted through eight division steps. */
  function CrcTable(b: bv8): bv8
  {
    CrcShifts(b, 8)
  }

  /** crc8(table, data, n, seed): `crc = table[crc ^ byte]` over the bytes,
      starting from `seed`. */
  function Crc8(data: seq<bv8>, seed: bv8): bv8
    decreases |data|
  {
    if data == [] then seed else Crc8(data[1..], CrcTable(seed ^ data[0]))
  }

  /** CRC over a concatenation chains through the intermediate value: the
      CRC of `a` is the seed for `b`. */
  lemma {:induction false} Crc8Chain(a: seq<bv8>, b: seq<bv8>, seed: bv8)
    ensures Crc8(a + b, seed) == Crc8(b, Crc8(a, seed))
    decreases |a|
  {
    if a == [] {
      assert a + b == b;
    } else {
      assert (a + b)[1..] == a[1..] + b;
      Crc8Chain(a[1..], b, CrcTable(seed ^ a[0]));
    }
  }

  /** Reference value: the instruction-byte seed the driver computes for a
      write to register 0 is table[0xA5]. */
  lemma Crc8Reference()
    ensures CrcTable(0xA5) == 0x72
    ensures Crc8([0x00], CRC_SEED) == 0x72
  {
  }
}
