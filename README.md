# AD3552R / AD3542R register engine

A Dafny model of the register engine of the no-OS driver for the Analog
Devices AD3552R and AD3542R two-channel 16-bit DACs
(`drivers/dac/ad3552r/ad3552r.c`), with proofs about it.

The driver keeps a small descriptor. It holds the cached serial-interface
configuration `spi_cfg`, the `crc_en` flag, the chip variant and two
per-channel records (range, gain codes, feedback resistor, fast mode, and
the computed scale and offset). It talks to the part over SPI.

The model has two layers:

- **Pure functions over a value `Device.Dev`.** They give each C function
  its meaning, and the lemmas are stated about them. The modules are
  `Registers`, `RegIo`, `Transfer`, `Attrs`, `Calibration`, `Lifecycle` and
  `Samples`.
- **The class `Driver.Ad3552r`.** It holds the same state in fields that its
  methods update in place, with the loops of the C code:
  - the CRC do-while loop, on byte arrays;
  - the reset poll;
  - the channel loop;
  - the sample loops;
  - the in-place building of the two-channel buffer.

  Each method is proved to end in the state, and return the status, that
  the function of the same name gives.

The SPI bus is an oracle. Every `spi_transfer` appends its segments to the
`sent` trace and consumes the next entry of `replies`, which supplies the
status and the bytes clocked in. An exhausted reply list answers success
with no bytes, and undriven bytes read as 0. The reset and LDAC pins are
booleans, and their pulses are recorded in `pulses`.

The CRC is the table-driven CRC-8 the driver uses: polynomial 0x07,
MSB first, `crc = table[crc ^ byte]`, with the table built by eight
division steps per entry. Register addresses and masks come from the
part's register map; `ad3552r.h` is not part of this model. The orderings
the code relies on are proved in `Registers.AddressOrdering`; the values
assumed for the header are listed under "## Left out".

C integer semantics are written out:

- truncating `/` and `%` (`CInt.Div`, `CInt.Rem`);
- the `uint8_t` wrap of the chunk address (`CInt.ToU8`);
- the 32-bit wrap of `int` products (`CInt.Wrap32`);
- the 16-bit truncation of the full-mask expression (`Registers.FullMask`);
- the `uint16_t` cut of the sample mask handed to the LDAC trigger.

## Model

| member | source | states |
|---|---|---|
| CInt.DivRem | drivers/dac/ad3552r/ad3552r.c:697-706 | C's division: `a == b*(a/b) + a%b`, quotient truncated toward zero, remainder smaller than the divisor with the dividend's sign |
| CInt.DivRemExamples | drivers/dac/ad3552r/ad3552r.c:703-706 | truncation on negative operands: -7/2 is -3 rem -1, 7/-2 is -3 rem 1 |
| CInt.DivRoundClosestNearest | drivers/dac/ad3552r/ad3552r.c:701 | DIV_ROUND_CLOSEST of a non-negative value is the quotient rounded to nearest, halves up |
| CInt.Wrap32 | drivers/dac/ad3552r/ad3552r.c:660-665 | an `int32_t` assignment keeps the value modulo 2^32 in the signed range, and leaves in-range values alone |
| Bytes.Window | drivers/dac/ad3552r/ad3552r.c:384 | `n` bytes from offset `at`, byte by byte; bytes past the end read as 0 |
| Bytes.Overwrite | drivers/dac/ad3552r/ad3552r.c:401 | memcpy into a buffer: the copied range holds the source, every other byte is unchanged, length kept |
| Bytes.Fill | drivers/dac/ad3552r/ad3552r.c:375 | memset: `n` bytes, all equal to `b` |
| Bytes.Be16RoundTrip | drivers/dac/ad3552r/ad3552r.c:471 | get_unaligned_be16 inverts put_unaligned_be16 |
| Bytes.WindowOfOverwrite | drivers/dac/ad3552r/ad3552r.c:401 | reading back the range just copied gives the source |
| Bytes.Crc8Chain | drivers/dac/ad3552r/ad3552r.c:370-386 | the CRC over `a + b` is the CRC of `b` seeded with the CRC of `a` |
| Bytes.Crc8Reference | drivers/dac/ad3552r/ad3552r.c:84-85 | with polynomial 0x07 and seed 0xA5, table[0xA5] is 0x72, so the CRC of one zero byte is 0x72 |
| Fields.MergeFieldKeepsOutside | drivers/dac/ad3552r/ad3552r.c:269 | `(reg & ~mask) \| field_prep(mask, val)` keeps all bits outside `mask` and puts the prepared value inside |
| Fields.FieldRoundTrip | drivers/dac/ad3552r/ad3552r.c:249 | for every mask the driver uses, field_get after the merge returns the value cut to the field's width |
| Registers.AddressOrdering | drivers/dac/ad3552r/ad3552r.c:233-236 | HW_LDAC_16B < HW_LDAC_24B < REG_ADDR_MAX <= 256, SECONDARY_REGION_ADDR == 0x28, gain registers below it |
| Registers.RegLen | drivers/dac/ad3552r/ad3552r.c:220-240 | the register width is 1, 2 or 3, never 0, so the `reg_len == 0` guards are dead |
| Registers.RegLenByRegion | drivers/dac/ad3552r/ad3552r.c:220-240 | width 1 iff LDAC/select register or address <= HW_LDAC_16B; 3 iff above HW_LDAC_24B otherwise; 2 in between (all iff) |
| Registers.RegLenTiers | drivers/dac/ad3552r/ad3552r.c:233-239 | apart from the six exceptions the width is monotone in the address |
| Registers.FullMaskIsTruncatedShift | drivers/dac/ad3552r/ad3552r.c:261 | `(1 << 8*reg_len) - 1` cut to 16 bits is 0xFF for one byte and 0xFFFF for two or three |
| Registers.DevAttrRegsArePrimary | drivers/dac/ad3552r/ad3552r.c:112-140 | every device attribute register is a 1-byte register below the secondary region |
| Registers.ChAttrDispatchPartition | drivers/dac/ad3552r/ad3552r.c:865-885 | each channel attribute takes exactly one of the three branches of get/set_ch_value |
| Registers.ChMasksDisjoint | drivers/dac/ad3552r/ad3552r.c:158-189 | the two channels' masks of one table attribute are disjoint |
| Registers.CodeRegAddr | drivers/dac/ad3552r/ad3552r.c:593-608 | a code register lies in the secondary region, is no LDAC/select register, and is 2 bytes wide in fast mode, 3 otherwise |
| Device.Spi | drivers/dac/ad3552r/ad3552r.c:391 | a transfer appends its segments to the trace, answers the next reply and consumes it, and changes nothing else |
| Calibration.TableRange | drivers/dac/ad3552r/ad3552r.c:191-206 | every table entry has min < max |
| Calibration.GainScale | drivers/dac/ad3552r/ad3552r.c:208-213 | gain code k scales by 1000 / 2^k |
| Calibration.CustomRange | drivers/dac/ad3552r/ad3552r.c:642-666 | the custom range, from 64-bit arithmetic assigned to 32-bit `v_min`/`v_max`, lies in the int32 range |
| Calibration.CustomRangeNoOffset | drivers/dac/ad3552r/ad3552r.c:642-666 | without gain offset: v_min <= 2500 <= v_max, each side within 2575*rfb mV, symmetric when the gain codes agree |
| Calibration.GainedSpread | drivers/dac/ad3552r/ad3552r.c:657-659 | the gain-scaled share of `common` lies in 0..common |
| Calibration.ScaleOffset | drivers/dac/ad3552r/ad3552r.c:668-707 | the recompute yields nothing exactly when the span is 0 |
| Calibration.ScaleOffsetMeaning | drivers/dac/ad3552r/ad3552r.c:697-706 | scale_int/offset_int are the truncated quotients of span/65536 and 65536*v_min/span; scale_dec is the remainder in millionths, rounded to nearest; offset_dec is the truncated remainder, below 10^6 |
| Calibration.ScaleFraction | drivers/dac/ad3552r/ad3552r.c:698-701 | scale_dec lies in 0..10^6 and within half a unit of the exact fraction |
| Calibration.FractionBound | drivers/dac/ad3552r/ad3552r.c:706 | offset_dec is below 10^6 in magnitude |
| Calibration.TableCalibExampleTenVolt | drivers/dac/ad3552r/ad3552r.c:200-206 | the ±10 V range gives scale 0.305176 and offset -32768 |
| Calibration.TableCalibExampleFiveVolt | drivers/dac/ad3552r/ad3552r.c:191-206 | ±5 V gives scale 0.152588 and offset -32768 on both variants |
| Calibration.TableCalibExampleUnipolar | drivers/dac/ad3552r/ad3552r.c:200-206 | 0..2.5 V gives scale 0.038147 and offset 0 |
| Calibration.TableRangeSpanNonZero | drivers/dac/ad3552r/ad3552r.c:191-206 | a table range always has a non-zero span |
| Calibration.OffsetProductOverflows | drivers/dac/ad3552r/ad3552r.c:703 | the as-written 32-bit product `v_min * 65536` wraps for a reachable custom range (see Findings) |
| Calibration.ZeroSpanReachable | drivers/dac/ad3552r/ad3552r.c:697-706 | a custom range with rfb 0 has span 0 (see Findings) |
| RegIo.PackReg | drivers/dac/ad3552r/ad3552r.c:465-471 | the write buffer is always 3 bytes |
| RegIo.PackUnpack | drivers/dac/ad3552r/ad3552r.c:465-502 | reading back a packed value gives its low byte (1 byte), its top 12 bits (2 bytes) or all 16 bits (3 bytes) |
| RegIo.WriteReg | drivers/dac/ad3552r/ad3552r.c:446-474 | refused (-EINVAL, no transfer) iff addr >= 0x28 with ascension on; otherwise one transfer of the packed buffer with the transfer's status; only bus state changes |
| RegIo.ReadReg | drivers/dac/ad3552r/ad3552r.c:476-505 | the same refusal; otherwise the transfer's error or SUCCESS with the unpacked buffer |
| RegIo.ReadRegPlain | drivers/dac/ad3552r/ad3552r.c:435-443 | with CRC off, the value is the bytes clocked after the instruction byte: one byte, or big-endian two |
| RegIo.UpdateRegField | drivers/dac/ad3552r/ad3552r.c:254-273 | full mask: a write of `val` with no read; otherwise one read, then a write of the merge, or the read's error with no write |
| RegIo.FieldWriteKeepsOthers | drivers/dac/ad3552r/ad3552r.c:269 | the merged value keeps every bit outside the mask and reads back the field's value |
| RegIo.UpdateReadFailureNoWrite | drivers/dac/ad3552r/ad3552r.c:265-267 | a failed read returns its error after exactly that one transfer |
| RegIo.GetRegAttr | drivers/dac/ad3552r/ad3552r.c:242-252 | status and state are those of the register read; the value is stated by `RegIo.GetRegAttrAfterSet` |
| RegIo.GetRegAttrAfterSet | drivers/dac/ad3552r/ad3552r.c:248-249 | get after set: when the register reads back what the field update merged, the getter succeeds with the value set, cut to the field's width |
| RegIo.SyncWrite | drivers/dac/ad3552r/ad3552r.c:290-314 | a skipped field changes nothing; a written one is the attribute write and sends a transfer |
| RegIo.SyncStep | drivers/dac/ad3552r/ad3552r.c:290-294 | after a field step the cache holds the requested value whether or not its write ran or failed |
| RegIo.SyncSpiCfg | drivers/dac/ad3552r/ad3552r.c:283-315 | after the sync the cached configuration equals the requested one; when no field needs writing it returns SUCCESS with no transfer |
| RegIo.SyncSpiCfgFrame | drivers/dac/ad3552r/ad3552r.c:283-315 | the sync changes only the cache and the bus, and sends something when any field needs writing |
| RegIo.SyncRewritesLengthWithoutKeep | drivers/dac/ad3552r/ad3552r.c:309-314 | with the keep flag 0 on entry, a non-zero stream length is rewritten even when unchanged |
| RegIo.TransferData | drivers/dac/ad3552r/ad3552r.c:417-444 | the configuration update runs first and its status is dropped; the result is the exchange's |
| Transfer.Instr | drivers/dac/ad3552r/ad3552r.c:429-430 | the read bit is set iff reading; the low seven bits are the address's |
| Transfer.PlainExchange | drivers/dac/ad3552r/ad3552r.c:435-443 | one two-segment transfer (instruction, then `len` bytes); its status; a read fills the buffer from the clocked bytes, a write leaves it |
| Transfer.ChunkAddr | drivers/dac/ad3552r/ad3552r.c:357-362 | the chunk address is below REG_ADDR_MAX |
| Transfer.PlanOf | drivers/dac/ad3552r/ad3552r.c:352-362 | the direction follows addr_asc; each chunk's address is `uint8(addr + (stream_len ? inc % stream_len : inc)) % REG_ADDR_MAX` |
| Transfer.ChunkAt | drivers/dac/ad3552r/ad3552r.c:357-363 | a chunk at the computed address spans that register's width, 1..3 |
| Transfer.Schedule | drivers/dac/ad3552r/ad3552r.c:355-411 | the do-while runs at least one chunk, starts at offset `i`, and its last chunk reaches `len` |
| Transfer.ScheduleSteps | drivers/dac/ad3552r/ad3552r.c:409-411 | every chunk but the last ends before `len` and is followed by the chunk at `i + reg_len`, `inc ± reg_len` |
| Transfer.ScheduleIncTracksOffset | drivers/dac/ad3552r/ad3552r.c:409-410 | from offset 0 the increment is always `±i` |
| Transfer.ScheduleOffsets | drivers/dac/ad3552r/ad3552r.c:410-411 | offsets strictly increase, so at most `len + 1` chunks run |
| Transfer.ScheduleCsChange | drivers/dac/ad3552r/ad3552r.c:390 | chip-select stays asserted on every chunk but the last, which releases it iff `i + reg_len == len` |
| Transfer.ChunkTx | drivers/dac/ad3552r/ad3552r.c:366-387 | a frame is `reg_len + 1` bytes (+1 for the instruction on the first chunk), starts with the instruction on the first chunk, and ends with the CRC of the data from crc_init (not for read continuations) |
| Transfer.FirstFrameCrc | drivers/dac/ad3552r/ad3552r.c:370-386 | the first frame's CRC equals one CRC over instruction and data from 0xA5 |
| Transfer.ChunkCheck | drivers/dac/ad3552r/ad3552r.c:396-408 | the check yields SUCCESS or -EBADMSG, and a write never changes the buffer |
| Transfer.ReadCheckMeaning | drivers/dac/ad3552r/ad3552r.c:396-404 | a read chunk copies the received bytes first, then succeeds iff the next byte is their CRC (both directions) |
| Transfer.WriteCheckMeaning | drivers/dac/ad3552r/ad3552r.c:405-407 | a write chunk succeeds iff the echoed CRC byte equals the one sent (both directions) |
| Transfer.FirstReadCheckFails | drivers/dac/ad3552r/ad3552r.c:396-404 | a wrong CRC on the first read chunk is -EBADMSG with the data already copied |
| Transfer.FirstWriteCheckFails | drivers/dac/ad3552r/ad3552r.c:405-407 | a wrong echo on the first write chunk is -EBADMSG with the buffer untouched |
| Transfer.ChunkStep | drivers/dac/ad3552r/ad3552r.c:389-408 | one chunk sends exactly one message and changes only bus state |
| Transfer.CrcRunFrame | drivers/dac/ad3552r/ad3552r.c:355-411 | a run sends between one and one-per-chunk messages and changes only bus state |
| Transfer.CrcLoopRunsSchedule | drivers/dac/ad3552r/ad3552r.c:355-411 | the do-while loop is exactly the in-order run of the chunk schedule, stopping at the first error |
| Transfer.CrcExchange | drivers/dac/ad3552r/ad3552r.c:338-414 | the CRC transfer sends between 1 and `len + 1` messages and changes only bus state |
| Transfer.Exchange | drivers/dac/ad3552r/ad3552r.c:432-443 | every transfer sends at least one message and changes only bus state |
| Transfer.ReadCrcMismatch | drivers/dac/ad3552r/ad3552r.c:396-404 | a read whose first CRC does not match returns -EBADMSG after one message, with the received bytes already in the buffer |
| Transfer.WriteEchoMismatch | drivers/dac/ad3552r/ad3552r.c:405-407 | a write whose first echoed CRC differs returns -EBADMSG after one message, buffer unchanged |
| Attrs.CrcDecode | drivers/dac/ad3552r/ad3552r.c:516-522 | decoding succeeds iff the register holds 0x42 or 0x03 |
| Attrs.CrcValueRoundTrip | drivers/dac/ad3552r/ad3552r.c:516-533 | what the setter writes decodes to the flag's truth value, and lies inside the CRC field |
| Attrs.GetCrcEnable | drivers/dac/ad3552r/ad3552r.c:507-525 | a read error is passed on; an unexpected value is FAILURE; otherwise SUCCESS with 1 or 0 |
| Attrs.SetCrcEnable | drivers/dac/ad3552r/ad3552r.c:527-541 | writes 0x42 or 0x03 to INTERFACE_CONFIG_C; a failed write returns its error, otherwise the flag becomes `en` |
| Attrs.CrcFlagFollowsWrite | drivers/dac/ad3552r/ad3552r.c:535-538 | the flag changes only after a successful write, and then holds `en` cut to 8 bits |
| Attrs.GetDevValue | drivers/dac/ad3552r/ad3552r.c:543-553 | the CRC attribute goes through the CRC getter, the others through the field read |
| Attrs.SetDevValue | drivers/dac/ad3552r/ad3552r.c:569-591 | the CRC attribute goes through the CRC setter; the others update the field and leave the cached `spi_cfg` as it was |
| Attrs.Recalibrated | drivers/dac/ad3552r/ad3552r.c:668-707 | the recompute changes only the record's scale and offset |
| Attrs.Recalc | drivers/dac/ad3552r/ad3552r.c:668-707 | the records stay usable as table indices |
| Attrs.RecalcTableRange | drivers/dac/ad3552r/ad3552r.c:674-684 | without override the channel is calibrated from its table range |
| Attrs.SetCodeValue | drivers/dac/ad3552r/ad3552r.c:610-624 | writes the 24-bit DAC register, with the value masked to 12 bits in fast mode |
| Attrs.GetCodeValue | drivers/dac/ad3552r/ad3552r.c:626-639 | reads the 24-bit DAC register |
| Attrs.CodeAccessRefusedWhenAscending | drivers/dac/ad3552r/ad3552r.c:617-634 | with ascension on, code reads and writes are -EINVAL with no transfer |
| Attrs.GainMask | drivers/dac/ad3552r/ad3552r.c:721-753 | every gain field mask is one the field round-trip covers |
| Attrs.SetGainValue | drivers/dac/ad3552r/ad3552r.c:709-763 | the other channel's record is unchanged and the records stay usable |
| Attrs.StoreGain | drivers/dac/ad3552r/ad3552r.c:721-762 | on error the record holds the stored attribute uncalibrated; on success it is that record recalibrated |
| Attrs.WriteOffsetLow | drivers/dac/ad3552r/ad3552r.c:722-727 | only the offset writes its low byte, to the address 0xFF; other attributes send nothing |
| Attrs.WriteGainReg | drivers/dac/ad3552r/ad3552r.c:754-762 | a failed write leaves the record; a successful one recalibrates it |
| Attrs.BadScalingRefused | drivers/dac/ad3552r/ad3552r.c:739-750 | a scaling code > 3 is refused after the read, before any store or write, so the gain table index stays in 0..3 |
| Attrs.GainWriteValue | drivers/dac/ad3552r/ad3552r.c:754 | the written gain register differs from the read one only in the attribute's field, which holds the value |
| Attrs.OffsetDoesNotReachCalibration | drivers/dac/ad3552r/ad3552r.c:723 | the offset setter stores `offset`, and the calibration ignores it |
| Attrs.GetGainValue | drivers/dac/ad3552r/ad3552r.c:765-805 | only bus state changes; the value is stated by `Attrs.GetGainAfterSet`, `Attrs.GainOffsetBitEight` and `Attrs.GetGainOffsetAfterSet` |
| Attrs.GetGainAfterSet | drivers/dac/ad3552r/ad3552r.c:787-805 | get after set for range override, polarity and the two scaling codes: when CH_GAIN reads back the merged gain write, the getter succeeds with the value set, cut to the attribute's field |
| Attrs.GainOffsetBitEight | drivers/dac/ad3552r/ad3552r.c:778-784 | the offset's bits from 8 up are bit 0 of the second CH_GAIN read |
| Attrs.GetGainOffsetAfterSet | drivers/dac/ad3552r/ad3552r.c:778-786 | get after set for the offset: bit 8 of the offset set comes back, and the low byte is the gain register's own, not the offset's |
| Attrs.GainOffsetReadsGainRegister | drivers/dac/ad3552r/ad3552r.c:778-786 | the offset read back carries the gain register's low byte |
| Attrs.GetChValue | drivers/dac/ad3552r/ad3552r.c:807-852 | fast mode and rfb come from the record with no transfer; code and gain attributes take their paths; only bus state changes; the table branch's value is stated by `Attrs.GetChValueAfterSet` |
| Attrs.GetChValueAfterSet | drivers/dac/ad3552r/ad3552r.c:845-850 | get after set for a readable table attribute: when its register reads back a value merged into channel `ch`'s field, the getter succeeds with the value set, cut to the field |
| Attrs.GetChValueOtherChannelKept | drivers/dac/ad3552r/ad3552r.c:845-850 | the same read gives the other channel's field as it was before the merge |
| Attrs.SoftwareLdacIsWriteOnly | drivers/dac/ad3552r/ad3552r.c:837-843 | reading the software-LDAC trigger is -EINVAL with no transfer; no other table attribute is write-only |
| Attrs.SetChValue | drivers/dac/ad3552r/ad3552r.c:854-897 | the other channel's record is unchanged and the records stay usable |
| Attrs.SetTableValue | drivers/dac/ad3552r/ad3552r.c:884-896 | the other channel's record is unchanged and the records stay usable |
| Attrs.SoftwareAttrsNoTraffic | drivers/dac/ad3552r/ad3552r.c:866-874 | fast mode and rfb succeed with no transfer; rfb recalibrates |
| Attrs.RangeIndex | drivers/dac/ad3552r/ad3552r.c:891 | the stored range is a valid table index and equals the value when that is already in range |
| Attrs.SetTableAttr | drivers/dac/ad3552r/ad3552r.c:884-887 | the status is the field update's; a failure, or any attribute but the range, changes no record |
| Attrs.SetRangeStored | drivers/dac/ad3552r/ad3552r.c:890-894 | after the update the range holds `val % (max+1)` and the record is recalibrated; the other channel is unchanged |
| Attrs.GetScale | drivers/dac/ad3552r/ad3552r.c:931-941 | -EINVAL iff the channel is out of range; otherwise the stored scale |
| Attrs.GetOffset | drivers/dac/ad3552r/ad3552r.c:943-953 | -EINVAL iff the channel is out of range; otherwise the stored offset |
| Samples.LdacTrigger | drivers/dac/ad3552r/ad3552r.c:1220-1231 | with a pin: one pulse, no transfer, SUCCESS; without one: no pulse; records, configuration and chip unchanged either way |
| Samples.SoftwareLdacWritesMaskByte | drivers/dac/ad3552r/ad3552r.c:1222-1224 | the software trigger sends the mask's low byte to SW_LDAC_24B |
| Samples.AllChannelsBuffer | drivers/dac/ad3552r/ad3552r.c:1239-1259 | the buffer is 7 bytes and at most 7 are sent |
| Samples.CodesBytes | drivers/dac/ad3552r/ad3552r.c:1243-1255 | the codes part byte by byte, with fast mode's mask landing on byte 5 |
| Samples.FastLayout | drivers/dac/ad3552r/ad3552r.c:1242-1259 | fast mode sends channel 0 cut to 12 bits but channel 1 unmasked, then the LDAC byte when asked |
| Samples.PrecisionLayout | drivers/dac/ad3552r/ad3552r.c:1242-1259 | precision mode sends each code big-endian plus a zero byte, then the LDAC byte when asked |
| Samples.Be16Masked | drivers/dac/ad3552r/ad3552r.c:1246 | masking to 12 bits is `buff[1] &= 0xF0` on the big-endian bytes |
| Samples.WriteAllChannels | drivers/dac/ad3552r/ad3552r.c:1233-1274 | records and configuration are unchanged; success means at least one transfer |
| Samples.FirstSetBit | drivers/dac/ad3552r/ad3552r.c:1304 | the index of the lowest set bit is at most 32 |
| Samples.FirstSetBitChannel | drivers/dac/ad3552r/ad3552r.c:1304-1306 | the first set bit names a channel iff bit 0 or 1 is set; it is 0 iff bit 0 is |
| Samples.WriteAllFrom | drivers/dac/ad3552r/ad3552r.c:1294-1301 | success means one transfer per remaining sample at least; records unchanged |
| Samples.WriteChannelFrom | drivers/dac/ad3552r/ad3552r.c:1307-1317 | success means a write per sample, plus one pulse per sample when the pin triggers; no pulses in other modes |
| Samples.WriteChannelFromStep | drivers/dac/ad3552r/ad3552r.c:1307-1317 | sample `i` is written to `addr`; a failed write ends the loop with its status; otherwise the LDAC trigger follows with the mask cut to 16 bits when the mode asks, and the loop goes on with sample `i + 1` |
| Samples.WriteSamples | drivers/dac/ad3552r/ad3552r.c:1281-1320 | status is SUCCESS or an error; records, chip and configuration unchanged |
| Samples.MixedModesNotRefused | drivers/dac/ad3552r/ad3552r.c:1289-1292 | the self-comparison guard never fires: both channels always go to the all-channel loop |
| Samples.MaskIndexPastChannels | drivers/dac/ad3552r/ad3552r.c:1304-1306 | as written, masks 0 and 0b100 give channel indices 32 and 2, past the two channel records (see Findings) |
| Samples.UnnamedChannelRefused | drivers/dac/ad3552r/ad3552r.c:1304-1310 | a single-channel mask with neither low bit set is -EINVAL with nothing sent; otherwise the samples go to the code register of the first set bit's channel |
| Samples.SingleChannelRefusedWhenAscending | drivers/dac/ad3552r/ad3552r.c:1304-1310 | with ascension on, a single-channel write is -EINVAL with nothing sent |
| Lifecycle.Poll | drivers/dac/ad3552r/ad3552r.c:1193-1211 | the poll changes only bus state |
| Lifecycle.PollFrame | drivers/dac/ad3552r/ad3552r.c:1193-1211 | the poll loop changes only bus state |
| Lifecycle.PollBounds | drivers/dac/ad3552r/ad3552r.c:1175-1210 | at most `timeout` reads; using them all without success is -EIO; failures are negative |
| Lifecycle.PollEndsReady | drivers/dac/ad3552r/ad3552r.c:1204-1205 | success ends on a value with NOT_READY clear |
| Lifecycle.PollSawDefault | drivers/dac/ad3552r/ad3552r.c:1201-1206 | success from the start means 0x8 was read before the final ready value |
| Lifecycle.DefaultThenReady | drivers/dac/ad3552r/ad3552r.c:1201-1206 | prefixing a read keeps "default, then ready" and supplies it when the read is 0x8 |
| Lifecycle.ResetStart | drivers/dac/ad3552r/ad3552r.c:1180-1191 | the start of the reset leaves records, configuration and CRC flag |
| Lifecycle.Reset | drivers/dac/ad3552r/ad3552r.c:1173-1218 | success only after the poll saw 0x8 then readiness within 5000 reads; an exhausted budget is -EIO; the cached configuration is not changed |
| Lifecycle.ScratchProbe | drivers/dac/ad3552r/ad3552r.c:906-915 | status SUCCESS or an error; only bus state changes |
| Lifecycle.ScratchPad | drivers/dac/ad3552r/ad3552r.c:899-929 | status SUCCESS or an error; only bus state changes |
| Lifecycle.ScratchPadVerdict | drivers/dac/ad3552r/ad3552r.c:899-929 | the test passes iff 0x34 and then 0xB2 read back; a wrong read-back with no failing transfer is -ENODEV |
| Lifecycle.ChipIdMatch | drivers/dac/ad3552r/ad3552r.c:1127-1135 | `L \| H << 8` equals 0x4008/0x4009 iff H is 0x40 and L is 0x08/0x09 |
| Lifecycle.ChipIdBytes | drivers/dac/ad3552r/ad3552r.c:1127-1134 | both bytes are recovered from the assembled ID |
| Lifecycle.ByteRegisterRead | drivers/dac/ad3552r/ad3552r.c:499-500 | a 1-byte register reads below 0x100 |
| Lifecycle.CheckChipId | drivers/dac/ad3552r/ad3552r.c:1120-1139 | status SUCCESS or an error; only bus state changes |
| Lifecycle.ChipIdVerdict | drivers/dac/ad3552r/ad3552r.c:1120-1139 | the check passes iff both reads succeed with the variant's bytes; other bytes give -ENODEV |
| Lifecycle.VrefValue | drivers/dac/ad3552r/ad3552r.c:1008-1013 | external reference iff requested; internal 2.5 V iff not external and output enabled |
| Lifecycle.ConfigureChannel | drivers/dac/ad3552r/ad3552r.c:1028-1054 | the other channel's record is unchanged and the records stay usable |
| Lifecycle.ConfigureChannels | drivers/dac/ad3552r/ad3552r.c:1028-1055 | status SUCCESS or an error; records stay usable |
| Lifecycle.Configure | drivers/dac/ad3552r/ad3552r.c:1001-1069 | status SUCCESS or an error; records stay usable; chip unchanged |
| Lifecycle.DriveStrengthRejected | drivers/dac/ad3552r/ad3552r.c:1015-1022 | a drive strength > 3 is -EINVAL right after the reference write |
| Lifecycle.ChannelRangeRejected | drivers/dac/ad3552r/ad3552r.c:1030-1036 | a table range above the variant's maximum is -EINVAL with no transfer, after fast mode is stored |
| Lifecycle.RangeRejected | drivers/dac/ad3552r/ad3552r.c:1028-1036 | such a range on any enabled channel makes the configuration fail |
| Lifecycle.ChannelsRangeRejected | drivers/dac/ad3552r/ad3552r.c:1028-1036 | the same for the channel loop from any channel up to the bad one |
| Lifecycle.ChannelConfigured | drivers/dac/ad3552r/ad3552r.c:1030-1041 | a configured table-range channel holds the requested range and fast-mode flag |
| Lifecycle.FreshDev | drivers/dac/ad3552r/ad3552r.c:1081 | the zeroed descriptor has usable records |
| Lifecycle.Probe | drivers/dac/ad3552r/ad3552r.c:1102-1139 | status SUCCESS or an error; records and chip unchanged |
| Lifecycle.Init | drivers/dac/ad3552r/ad3552r.c:1071-1159 | after the checks pass, init succeeds iff configuration does, and a failed configuration is -ENODEV; success records the variant |
| Lifecycle.InitChecksChipId | drivers/dac/ad3552r/ad3552r.c:1120-1150 | init succeeds only if reset, CRC setting, scratch pad and ID check all passed |
| Driver.CopyInto | drivers/dac/ad3552r/ad3552r.c:401 | the array afterwards is the memcpy of the source at the offset |
| Driver.Ad3552r.SpiTransfer | drivers/dac/ad3552r/ad3552r.c:391 | the object's state and reply are those of the bus oracle |
| Driver.Ad3552r.BuildFrame | drivers/dac/ad3552r/ad3552r.c:373-387 | the first `n` bytes of `out` are the chunk's frame |
| Driver.Ad3552r.FillFrame | drivers/dac/ad3552r/ad3552r.c:375 | `out` begins with `n` bytes of 0xFF |
| Driver.Ad3552r.CrcFrame | drivers/dac/ad3552r/ad3552r.c:377-386 | `out` holds the optional instruction byte, the body and its CRC |
| Driver.Ad3552r.CheckChunk | drivers/dac/ad3552r/ad3552r.c:396-408 | status and buffer are the chunk check's |
| Driver.Ad3552r.SendChunk | drivers/dac/ad3552r/ad3552r.c:365-408 | one loop body: status, buffer and state are those of the chunk step |
| Driver.Ad3552r.TransferWithCrc | drivers/dac/ad3552r/ad3552r.c:338-414 | status, buffer and state are those of the CRC transfer |
| Driver.Ad3552r.ChunkLoop | drivers/dac/ad3552r/ad3552r.c:355-411 | the do-while loop on arrays computes the loop function |
| Driver.Ad3552r.ChunkTurn | drivers/dac/ad3552r/ad3552r.c:356-410 | one pass moves the offset past the chunk and keeps the remaining loop equal to the original |
| Driver.Ad3552r.NextAddr | drivers/dac/ad3552r/ad3552r.c:357-362 | the address computation equals the chunk address |
| Driver.Ad3552r.PlainExchange | drivers/dac/ad3552r/ad3552r.c:435-443 | status, buffer and state are those of the plain transfer |
| Driver.Ad3552r.Exchange | drivers/dac/ad3552r/ad3552r.c:432-443 | status, buffer and state are those of the transfer chosen by the CRC flag |
| Driver.Ad3552r.TransferData | drivers/dac/ad3552r/ad3552r.c:417-444 | status, buffer and state are those of ad3552r_transfer |
| Driver.Ad3552r.PackInto | drivers/dac/ad3552r/ad3552r.c:465-471 | the array holds the packed register value |
| Driver.Ad3552r.WriteReg | drivers/dac/ad3552r/ad3552r.c:446-474 | status and state are those of the register write |
| Driver.Ad3552r.ReadReg | drivers/dac/ad3552r/ad3552r.c:476-505 | status, value and state are those of the register read |
| Driver.Ad3552r.UpdateRegField | drivers/dac/ad3552r/ad3552r.c:254-273 | status and state are those of the field update |
| Driver.Ad3552r.SetRegAttr | drivers/dac/ad3552r/ad3552r.c:275-280 | status and state are those of the attribute write |
| Driver.Ad3552r.SyncField | drivers/dac/ad3552r/ad3552r.c:290-294 | one field of the sync, the cache set whatever the write's status |
| Driver.Ad3552r.UpdateSpiCfg | drivers/dac/ad3552r/ad3552r.c:283-315 | status and state are those of the sync; the cache becomes the requested configuration |
| Driver.Ad3552r.SetCrcEnable | drivers/dac/ad3552r/ad3552r.c:527-541 | status and state are those of the CRC setter |
| Driver.Ad3552r.SetDevValue | drivers/dac/ad3552r/ad3552r.c:569-591 | status and state are those of the device-attribute setter |
| Driver.Ad3552r.Recalc | drivers/dac/ad3552r/ad3552r.c:668-707 | the channel's record is recalibrated in place |
| Driver.Ad3552r.SetGainValue | drivers/dac/ad3552r/ad3552r.c:709-763 | status and state are those of the gain setter |
| Driver.Ad3552r.StoreGain | drivers/dac/ad3552r/ad3552r.c:721-762 | the store and the writes after the range check |
| Driver.Ad3552r.WriteOffsetLow | drivers/dac/ad3552r/ad3552r.c:722-727 | the offset low-byte write |
| Driver.Ad3552r.WriteGainReg | drivers/dac/ad3552r/ad3552r.c:754-762 | the gain register write and the recompute |
| Driver.Ad3552r.SetChValue | drivers/dac/ad3552r/ad3552r.c:854-897 | status and state are those of the channel-attribute setter |
| Driver.Ad3552r.SetCodeValue | drivers/dac/ad3552r/ad3552r.c:610-624 | status and state are those of the code write |
| Driver.Ad3552r.SetTableValue | drivers/dac/ad3552r/ad3552r.c:884-896 | status and state are those of the table branch |
| Driver.Ad3552r.StoreChannel | drivers/dac/ad3552r/ad3552r.c:890-894 | the record is replaced and recalibrated |
| Driver.Ad3552r.ReadConfigB | drivers/dac/ad3552r/ad3552r.c:1195-1197 | one INTERFACE_CONFIG_B read |
| Driver.Ad3552r.PollReady | drivers/dac/ad3552r/ad3552r.c:1193-1211 | status and state are those of the poll |
| Driver.Ad3552r.PollLoop | drivers/dac/ad3552r/ad3552r.c:1193-1211 | the counted loop computes the poll function |
| Driver.Ad3552r.Reset | drivers/dac/ad3552r/ad3552r.c:1173-1218 | status and state are those of the reset |
| Driver.Ad3552r.ScratchProbe | drivers/dac/ad3552r/ad3552r.c:906-915 | one write/read-back probe |
| Driver.Ad3552r.ScratchPad | drivers/dac/ad3552r/ad3552r.c:899-929 | status and state are those of the self-test |
| Driver.Ad3552r.CheckChipId | drivers/dac/ad3552r/ad3552r.c:1120-1139 | status and state are those of the ID check |
| Driver.Ad3552r.ConfigureChannel | drivers/dac/ad3552r/ad3552r.c:1028-1054 | one pass of the channel loop |
| Driver.Ad3552r.Configure | drivers/dac/ad3552r/ad3552r.c:1001-1069 | status and state are those of the configuration |
| Driver.Ad3552r.ConfigureChannels | drivers/dac/ad3552r/ad3552r.c:1028-1055 | the loop computes the channel-loop function |
| Driver.Ad3552r.constructor | drivers/dac/ad3552r/ad3552r.c:1081 | the descriptor starts zeroed |
| Driver.Ad3552r.Init | drivers/dac/ad3552r/ad3552r.c:1071-1159 | a fresh descriptor, and the status and state of the init function |
| Driver.Ad3552r.Adopt | drivers/dac/ad3552r/ad3552r.c:1140-1146 | the variant is recorded, then configuration failures become -ENODEV |
| Driver.Ad3552r.Probe | drivers/dac/ad3552r/ad3552r.c:1102-1139 | status and state are those of the checks |
| Driver.Ad3552r.LdacTrigger | drivers/dac/ad3552r/ad3552r.c:1220-1231 | status and state are those of the trigger |
| Driver.Ad3552r.BuildAllChannels | drivers/dac/ad3552r/ad3552r.c:1239-1259 | the in-place buffer and length are the two-channel frame |
| Driver.Ad3552r.PutCodes | drivers/dac/ad3552r/ad3552r.c:1242-1255 | the codes part, 4 bytes in fast mode and 6 otherwise |
| Driver.Ad3552r.PutFirst | drivers/dac/ad3552r/ad3552r.c:1242-1248 | channel 0's bytes |
| Driver.Ad3552r.PutSecond | drivers/dac/ad3552r/ad3552r.c:1250-1255 | channel 1's bytes and the fast-mode mask on byte 5 |
| Driver.Ad3552r.WriteAllChannels | drivers/dac/ad3552r/ad3552r.c:1233-1274 | status and state are those of the two-channel write |
| Driver.Ad3552r.WriteSamples | drivers/dac/ad3552r/ad3552r.c:1281-1320 | status and state are those of the sample write |
| Driver.Ad3552r.WriteAllLoop | drivers/dac/ad3552r/ad3552r.c:1294-1301 | the loop computes the all-channel sample function |
| Driver.Ad3552r.WriteChannelLoop | drivers/dac/ad3552r/ad3552r.c:1307-1317 | the loop computes the single-channel sample function |

## Left out

- `ad3552r_config_custom_gain` and the custom branch of `ad3552r_configure_device` are opaque. They route channel attributes through the device-attribute setter with no channel index, and the table entries that indexes are defined in `ad3552r.h`, which is not part of this model. Their status is the `customStatus` input of each channel parameter. Their bus traffic (up to six device-attribute writes) and any state change they make are not modelled.
- GPIO handling (`gpio_get_optional`, `gpio_direction_output`, `gpio_remove`), `spi_init`/`spi_remove`, `calloc`/`free` and the delays are platform calls. The reset and LDAC pins are presence flags, a pulse is a trace event, and none of these calls fails in the model.
- The error rollback at the end of `ad3552r_init` and `ad3552r_remove` only release platform handles. `Lifecycle.Init` returns the failing status and the state at that point.
- The NULL checks on `desc`, `data` and `val` are not modelled: references are never null here.
- The QSPI-only code (`AD3552R_QSPI_IMPLEMENTED`), the unreachable lines after the `return` in `ad3552r_get_dev_value`, `ad3552r_get_status` (debug only) and all logging are left out.
- `crc8_populate_msb` and `crc8` are not part of this model. Their behaviour is defined in `Bytes` as the table-driven CRC-8 with polynomial 0x07.
- `find_first_set_bit` is not part of this model. `Samples.FirstSetBit` defines it as the index of the lowest set bit, or 32 when there is none.
- C buffer overruns are not modelled as memory corruption. A chunk read or write past the caller's buffer reads zeros and drops the excess bytes (`Bytes.Window`, `Bytes.Overwrite`).
- The value returned by a failed register read is 0 in the model; in C it is left unspecified.
- `crc_en` is a `uint8_t` here: `ToU8(en)` is stored, so it takes the struct field's width.
- Attribute values are given as `u16`; the model does not pass values wider than `uint16_t` through the attribute setters.
- `ch_data` is a `seq<Channel>` field of the class, not an array. The C struct embeds the array by value, so nothing aliases it.
- The getters (`ad3552r_get_dev_value`, `ad3552r_get_ch_value`, the gain and code getters, `ad3552r_get_scale`, `ad3552r_get_offset`) are modelled as functions over the state only, with no class method.
- Attrs.SetGainValue, Attrs.SetChValue, Attrs.SetTableValue and Lifecycle.ConfigureChannel state only the frame properties in their own contracts. Their branch-level promises are the lemmas beside them (Attrs.StoreGain, Attrs.BadScalingRefused, Attrs.SetTableAttr, Attrs.SetRangeStored, Attrs.SoftwareAttrsNoTraffic, Lifecycle.ChannelRangeRejected, Lifecycle.ChannelConfigured).
- Samples.WriteAllChannels, Samples.WriteSamples and Samples.WriteAllFrom state frame and transfer-count properties; the exact bytes sent are stated by Samples.CodesBytes, Samples.FastLayout and Samples.PrecisionLayout.
- Samples.WriteChannelFrom states frame, transfer-count and pulse-count properties; what each pass sends, and in which order, is stated by Samples.WriteChannelFromStep.
- Attrs.Recalibrated uses the corrected `Calibration.ScaleOffset`, not the code as written. On inputs where `v_min * 65536` leaves the 32-bit range, the model's offset differs from the C code's. With a zero span the model keeps the old scale and offset, where the C code divides by zero (see Findings).
- Samples.WriteSamples refuses a single-channel mask whose first set bit is not 0 or 1 with -EINVAL. The C code instead reads past `ch_data` (see Findings).
- Channel indices: the channel getters and setters (`ad3552r_get_ch_value`, `ad3552r_set_ch_value`, the gain and code helpers, `Attrs.Recalc`) require `ch < 2`. The C code does not check the index at lines 807-897, and a larger one reads and writes past `ch_data`, which is undefined behaviour.
- Header values are assumed, because `ad3552r.h` is not part of this model. The register addresses and masks in `Registers` follow the part's register map. `REG_ADDR_MAX = 0x4C` is an assumption: one past the highest register, channel 1's 24-bit input register at 0x4B. Only the orderings in `Registers.AddressOrdering` are proved about these values. A CRC chunk whose address is at or above 0x4C takes its address, and so its CRC seed, from this assumed value. Examples are the offset low-byte write to 0xFF (`Attrs.WriteOffsetLow`, chunk address 0xFF % 0x4C = 0x1B) and a descending address that wraps through `uint8_t`.
- Transfer.CrcExchange bounds the number of messages. The per-chunk content is stated by Transfer.ChunkTx and Transfer.CrcLoopRunsSchedule, not as one closed formula over the whole transfer.
- The reset poll budget is the constant 5000 reads. Timing is not modelled.

## Findings

| source | as written | input that shows it | evidently intended | confidence | as-written member | corrected member |
|---|---|---|---|---|---|---|
| drivers/dac/ad3552r/ad3552r.c:703 | `tmp = v_min * 65536` multiplies two 32-bit `int`s, so the product wraps before it is widened to `int64_t` | custom range on the AD3552R with rfb 14, both gain codes 0, gain offset 0: v_min = -33550 mV and v_max = 38550 mV; the product is below -2^31, so offset_int comes out 29073 | the product formed in 64 bits, giving offset_int -30495 | not executed; high (the arithmetic is proved) | Calibration.OffsetProductOverflows | Calibration.ScaleOffsetMeaning |
| drivers/dac/ad3552r/ad3552r.c:697-706 | `span = v_max - v_min` is used as a divisor with no zero check | range override enabled while rfb is still 0 (its calloc value): v_min = v_max = 2500 mV, span 0, then division by zero at lines 704-706 | the recompute skipped when the span is 0 | not executed; high (the zero span is proved) | Calibration.ZeroSpanReachable | Calibration.ScaleOffset |
| drivers/dac/ad3552r/ad3552r.c:1304-1306 | `ch = find_first_set_bit(ch_mask)` indexes `ch_data[ch]` with no bound check | `ch_mask` 0 gives `ch` 32, and `ch_mask` 0b100 gives `ch` 2; both read past the two-entry `ch_data` | a mask naming no channel refused with -EINVAL before the index | not executed; high (the indices are proved) | Samples.MaskIndexPastChannels | Samples.UnnamedChannelRefused |

The model's recompute (`Attrs.Recalibrated`) uses the corrected
`Calibration.ScaleOffset`. The product is formed in 64 bits, and a zero
span leaves the stored scale and offset as they were. The as-written
function is `Calibration.ScaleOffsetAsWritten`; it requires a non-zero span.
