# MSP codec model

A Dafny model of the MultiWii Serial Protocol (MSP) codec of the
`msp_protocol` Rust crate: the streaming parser (`src/msp/parser.rs`), the
packet type with its two serializers and the direction byte mapping
(`src/msp/packet.rs`), and the command-code table (`src/msp/commands.rs`).

- **Checksum** (`checksum.dfy`): the V1 exclusive-or checksum and
  CRC-8/DVB-S2 (ETSI EN 302 307, clause 5.1.4: polynomial 0xD5, initial
  register 0, no reflection, no final exclusive-or), defined bit by bit.
  It proves the catalogue check value, and that digesting in chunks
  equals digesting at once.
- **Packet** (`packet.rs` → `packet.dfy`): `MspPacket`, the direction and
  its network byte, the error kinds, the frame sizes, and `Serialize` /
  `SerializeV2` as methods writing into an `array<bv8>` (the Rust
  `&mut [u8]`). Each is proved to write exactly the frame function
  `EncodeV1` / `EncodeV2`, or to report a size mismatch and leave the
  buffer alone. The `as u8` / `as u16` narrowings of the length and the
  command are written out.
- **Parser** (`parser.rs` → `parser.dfy`): the transition `Step` is a pure
  function on the parser's field values, one `StepX` per state. The
  class `MspParser` has the Rust struct's fields, and `Parse` is proved to
  perform exactly `Step` on them. `Inv` is the invariant kept between any
  two calls. It shows that the `usize` decrement of the remaining length
  never underflows.
- **ParserProperties** (`parser_props.dfy`): `Run` feeds a byte stream to
  the parser. Proved about it:
  - noise skipping and resynchronisation;
  - the header and payload phases of both revisions;
  - the outcome of a whole frame with an arbitrary checksum byte;
  - the round trips `parse(serialize(p))` for V1 (command cut to 8 bits)
    and V2 (exact);
  - the rejection of a corrupted checksum byte.
- **Commands** (`commands.rs` → `commands.dfy`): the 147 command names
  with their codes. `FromPrimitive` is the partial inverse, proved to
  invert `Code` exactly and to fail exactly on unassigned codes.
- **PacketTests** (`packet_tests.dfy`): the vectors of the crate's unit
  tests, and the round-trip client as a method. The method serializes
  into a fresh buffer, feeds it byte by byte to a fresh `MspParser`, and
  keeps the last packet; it is proved to give back the packet.

Where the repository's own text and code differ, the model follows the
code. The comments on the direction bytes at `parser.rs:92-93` say `'>'`
for 60 and `'<'` for 62, but 60 is `'<'` and 62 is `'>'`. The code maps
60 to `ToFlightController` and 62 to `FromFlightController`, which agrees
with `to_byte` (`packet.rs:43-50`). That mapping is what
`Parser.DirectionFromByte` models.

## Model

| member | source | states |
|---|---|---|
| Checksum.XorByte | src/msp/packet.rs:86 | definition: one byte folded into the V1 checksum (also `parser.rs:161`, `parser.rs:172`, `parser.rs:183`); no contract of its own, its use is stated by `ParserProperties.XorCons` and `ParserProperties.HeaderRestV1` |
| Checksum.Xor | src/msp/packet.rs:84-87 | definition: the exclusive-or of a byte string, 0 when empty; no contract of its own, its properties are `Checksum.XorAppend` and `Checksum.XorTwoThen` |
| Checksum.XorAppend | src/msp/packet.rs:84-87 | the V1 checksum of a concatenation is the exclusive-or of the parts' checksums |
| Checksum.XorTwoThen | src/msp/packet.rs:84-87 | the checksum seeded with `output[3] ^ output[4]` is the exclusive-or over length, command and payload |
| Checksum.ShiftRounds | src/msp/packet.rs:112-114 | definition: the eight shift-and-fold rounds of the 0xD5 register; no contract of its own, pinned by `Checksum.CheckValueRegisters` |
| Checksum.Update | src/msp/packet.rs:112-114 | definition: one byte fed to the register; no contract of its own, pinned by `Checksum.CheckValueRegisters` |
| Checksum.Digest | src/msp/parser.rs:192-194 | definition: the bytes fed to the register first to last (the engine's `digest`, also `packet.rs:113`); no contract of its own, its property is `Checksum.DigestAppend` |
| Checksum.Crc8 | src/msp/packet.rs:112-114 | definition: the digest from the initial register 0; no contract of its own, pinned by `Checksum.CheckValue` |
| Checksum.DigestAppend | src/msp/parser.rs:190-195 | digesting `a` then `b` equals digesting `a + b`, which makes the parser's deferred payload digest equal to the serializer's single digest |
| Checksum.CheckValueRegisters | src/msp/packet.rs:112-114 | the register after each byte of "123456789" |
| Checksum.CheckValue | src/msp/packet.rs:112-114 | CRC-8/DVB-S2("123456789") = 0xBC, the catalogue check value of the engine `crc8dvb_s2` |
| Packet.LenAsU8 | src/msp/packet.rs:79 | definition: `data.len() as u8`, the low 8 bits; no contract of its own, its property is `Packet.LenAsU8Exact` |
| Packet.LenToLeBytes | src/msp/packet.rs:108 | definition: `(data.len() as u16).to_le_bytes()`; no contract of its own, its property is `Packet.LenLeBytesExact` |
| Packet.LeLength | src/msp/parser.rs:135-137 | definition: the little-endian length read by the parser, widened to `usize`; no contract of its own, its property is `Packet.LenLeBytesExact` |
| Packet.LowByte | src/msp/packet.rs:80 | definition: `self.cmd as u8`; no contract of its own, its property is `ParserProperties.LowByteExact` |
| Packet.FromLeBytes | src/msp/parser.rs:119-121 | definition: `u16::from_le_bytes`; no contract of its own, its properties are `Packet.LeBytesInverse` and `Packet.LeBytesRoundTrip` |
| Packet.ToLeBytes | src/msp/packet.rs:107 | definition: `u16::to_le_bytes`, low byte first; no contract of its own, its properties are `Packet.LeBytesInverse` and `Packet.LeBytesRoundTrip` |
| Packet.LenAsU8Exact | src/msp/packet.rs:79 | a length below 256 survives `as u8` |
| Packet.LenLeBytesExact | src/msp/packet.rs:108 | a length below 65536 survives `as u16`, little-endian writing and the parser's reading (parser.rs:135-137) |
| Packet.LeBytesInverse | src/msp/packet.rs:107 | reading back the little-endian bytes of a `u16` command gives the command (parser.rs:119-121) |
| Packet.LeBytesRoundTrip | src/msp/parser.rs:119-121 | writing back a command read from two bytes gives the same two bytes |
| Packet.V1Frame | src/msp/packet.rs:76-88 | the V1 frame: '$' 'M', direction, length and command bytes in place, payload in place, last byte the exclusive-or from the length byte to the end of the payload |
| Packet.V1FrameFields | src/msp/packet.rs:76-88 | any byte string with the V1 fields in place is the V1 frame |
| Packet.V2Frame | src/msp/packet.rs:103-114 | the V2 frame: '$' 'X', direction, flag 0, command and length bytes, payload, last byte the CRC-8/DVB-S2 from the flag to the end of the payload |
| Packet.V2FrameFields | src/msp/packet.rs:103-114 | any byte string with the V2 fields in place is the V2 frame |
| Packet.FoldChecksum | src/msp/packet.rs:84-87 | the checksum loop returns the seed exclusive-or the payload's checksum |
| Packet.WriteHeaderV2 | src/msp/packet.rs:103-108 | the first eight bytes are '$' 'X', the direction byte, flag 0, and the command and length bytes given, and every later byte is unchanged |
| Packet.MspPacketDirection.ToByte | src/msp/packet.rs:43-50 | the network byte is one of '<' (60), '>' (62) and '!' (33); `Packet.ToByteInjective` and `ParserProperties.DirectionRoundTrip` are its partners |
| Packet.ToByteInjective | src/msp/packet.rs:43-50 | the three directions have distinct network bytes |
| Packet.MspPacket.EncodeV1 | src/msp/packet.rs:68-91 | the frame `serialize` writes: 6 + payload length bytes, the direction byte at 2, the payload from 5, and last the exclusive-or from the length byte to the end of the payload |
| Packet.MspPacket.EncodeV2 | src/msp/packet.rs:94-117 | the frame `serialize_v2` writes: 9 + payload length bytes, the direction byte at 2, bytes 4 and 5 reading back as the command, the payload from 8, and last the CRC-8/DVB-S2 from the flag to the end of the payload |
| Packet.MspPacket.PacketSizeBytes | src/msp/packet.rs:55-59 | 6 + payload length, the length of the V1 frame |
| Packet.MspPacket.PacketSizeBytesV2 | src/msp/packet.rs:62-65 | 9 + payload length, the length of the V2 frame |
| Packet.MspPacket.Serialize | src/msp/packet.rs:68-91 | error exactly when the buffer length differs from the frame size, with the buffer unchanged; otherwise the buffer holds the V1 frame, with the length and command cut to 8 bits |
| Packet.MspPacket.SerializeV2 | src/msp/packet.rs:94-117 | error exactly when the buffer length differs from the V2 frame size, with the buffer unchanged; otherwise the buffer holds the V2 frame |
| Parser.ResetFields | src/msp/parser.rs:224-233 | definition: the field values `reset` leaves, for a given revision; no contract of its own, stated by `Parser.MspParser.Reset`, `Parser.MspParser.StateIsBetweenPackets` and `Parser.Step` |
| Parser.Calculated | src/msp/parser.rs:190-196 | definition: the checksum the Crc state compares with, the deferred V2 digest or the V1 exclusive-or; no contract of its own, stated by `ParserProperties.CalculatedV2` and `ParserProperties.UpToChecksumV1` |
| Parser.Inv | src/msp/parser.rs:67-222 | definition: the invariant between calls (phase and revision agree, frame sizes fit their length fields, at least one byte awaited in a payload state); kept by `Parser.StepKeepsInv` and `Parser.MspParser.Parse` |
| Parser.DirectionFromByte | src/msp/parser.rs:90-99 | a direction is decoded exactly when some direction has that network byte, and it is that direction |
| Parser.StepHeader1 | src/msp/parser.rs:69-75 | never an error; the next state is Header2 exactly when the byte is '$' |
| Parser.StepHeader2 | src/msp/parser.rs:77-88 | an error exactly for a byte other than 'M' and 'X', with a reset that keeps the revision; otherwise the revision is V2 exactly for 'X' |
| Parser.StepDirection | src/msp/parser.rs:90-105 | an error exactly for a byte that is no direction's, with a reset; otherwise the direction read has that byte |
| Parser.StepFlagV2 | src/msp/parser.rs:107-112 | the flag byte never fails |
| Parser.StepCommandV2 | src/msp/parser.rs:114-127 | the command bytes never fail |
| Parser.StepDataLengthV2 | src/msp/parser.rs:129-146 | the length bytes never fail |
| Parser.StepDataV2 | src/msp/parser.rs:148-156 | a V2 payload byte never fails and keeps collected + remaining constant |
| Parser.StepDataLength | src/msp/parser.rs:158-164 | the V1 length byte never fails |
| Parser.StepCommand | src/msp/parser.rs:166-176 | the V1 command byte never fails |
| Parser.StepData | src/msp/parser.rs:178-188 | a V1 payload byte never fails and keeps collected + remaining constant |
| Parser.StepCrc | src/msp/parser.rs:190-218 | resets keeping the revision; a packet exactly when the byte equals the computed checksum, carrying the command, direction and payload collected; otherwise `CrcMismatch` with the byte as `expected` and the computed value as `calculated` |
| Parser.Step | src/msp/parser.rs:67-222 | only header, direction and checksum bytes can fail, only the checksum byte completes a packet, and after an error or a packet the fields are the reset values |
| Parser.StepKeepsInv | src/msp/parser.rs:67-222 | every transition keeps the invariant (phase and revision agree, frame sizes fit their length fields, at least one byte awaited in a payload state) |
| Parser.MspParser.constructor | src/msp/parser.rs:47-58 | a new parser has the reset values, revision V1, and satisfies the invariant |
| Parser.MspParser.StateIsBetweenPackets | src/msp/parser.rs:61-63 | true exactly when the fields are the reset values |
| Parser.MspParser.Reset | src/msp/parser.rs:224-233 | all fields back to their initial values except the revision |
| Parser.MspParser.Parse | src/msp/parser.rs:67-222 | the new fields and the result are exactly `Step` of the old fields and the input; the invariant is kept |
| Parser.MspParser.ParseHeader1 | src/msp/parser.rs:69-75 | performs `StepHeader1` on the fields |
| Parser.MspParser.ParseHeader2 | src/msp/parser.rs:77-88 | performs `StepHeader2` on the fields |
| Parser.MspParser.ParseDirection | src/msp/parser.rs:90-105 | performs `StepDirection` on the fields |
| Parser.MspParser.ParseFlagV2 | src/msp/parser.rs:107-112 | performs `StepFlagV2` on the fields |
| Parser.MspParser.ParseCommandV2 | src/msp/parser.rs:114-127 | performs `StepCommandV2` on the fields |
| Parser.MspParser.ParseDataLengthV2 | src/msp/parser.rs:129-146 | performs `StepDataLengthV2` on the fields |
| Parser.MspParser.ParseDataV2 | src/msp/parser.rs:148-156 | performs `StepDataV2` on the fields |
| Parser.MspParser.ParseDataLength | src/msp/parser.rs:158-164 | performs `StepDataLength` on the fields |
| Parser.MspParser.ParseCommand | src/msp/parser.rs:166-176 | performs `StepCommand` on the fields |
| Parser.MspParser.ParseData | src/msp/parser.rs:178-188 | performs `StepData` on the fields |
| Parser.MspParser.ParseCrc | src/msp/parser.rs:190-218 | performs `StepCrc` on the fields |
| ParserProperties.Run | src/msp/parser.rs:67-222 | feeding a stream keeps the invariant and gives one outcome per byte |
| ParserProperties.RunAppendState | src/msp/parser.rs:67-222 | feeding `a` then `b` ends in the state of feeding `a + b` |
| ParserProperties.RunAppendOutcomes | src/msp/parser.rs:67-222 | feeding `a + b` gives the outcomes of `a` followed by those of `b` |
| ParserProperties.RunAppend | src/msp/parser.rs:67-222 | both of the above |
| ParserProperties.RunSnoc | src/msp/parser.rs:67-222 | one more byte adds that byte's `Step` outcome |
| ParserProperties.QuietRunAppend | src/msp/parser.rs:67-222 | two runs without packets or errors make one |
| ParserProperties.QuietStep | src/msp/parser.rs:67-222 | a byte whose outcome is pending is a quiet run |
| ParserProperties.QuietSnoc | src/msp/parser.rs:67-222 | a quiet run extended by a pending byte is quiet |
| ParserProperties.NoiseIsSkipped | src/msp/parser.rs:69-75 | between packets, bytes other than '$' are all pending and leave the fields unchanged |
| ParserProperties.NoiseThenStream | src/msp/parser.rs:69-75 | noise before a stream changes neither the stream's outcomes nor the final fields |
| ParserProperties.ResyncV1 | src/msp/parser.rs:69-75 | a V1 frame after noise still yields its packet at its last byte |
| ParserProperties.DirectionRoundTrip | src/msp/parser.rs:90-99 | the parser decodes every byte `to_byte` writes back to its direction (packet.rs:43-50) |
| ParserProperties.HeaderStartV1 | src/msp/parser.rs:69-105 | '$' 'M' and a direction byte lead to DataLength in V1 with that direction |
| ParserProperties.HeaderRestV1 | src/msp/parser.rs:158-176 | the length and command bytes set the remaining length and the command, and seed the checksum with their exclusive-or |
| ParserProperties.HeaderV1 | src/msp/parser.rs:69-176 | a V1 header read from any revision is quiet and ends with its direction, command, length and checksum seed |
| ParserProperties.HeaderStartV2 | src/msp/parser.rs:69-112 | '$' 'X', a direction and the flag lead to CommandV2 in V2 with the flag digested |
| ParserProperties.CommandBytesV2 | src/msp/parser.rs:114-127 | two command bytes set the little-endian command and are digested |
| ParserProperties.LengthBytesV2 | src/msp/parser.rs:129-146 | two length bytes set the little-endian length and are digested; a zero length goes to Crc |
| ParserProperties.HeaderRestV2 | src/msp/parser.rs:114-146 | the four command and length bytes together |
| ParserProperties.DigestThree | src/msp/parser.rs:111-138 | three digests in a row equal one digest of the concatenation |
| ParserProperties.HeaderV2 | src/msp/parser.rs:69-146 | a V2 header read from any revision is quiet and ends with its direction, command, length and the digest of flag, command and length |
| ParserProperties.PayloadLastV1 | src/msp/parser.rs:178-188 | the last V1 payload byte leads to Crc |
| ParserProperties.PayloadDoneConsV1 | src/msp/parser.rs:178-188 | finishing the payload after one more byte equals finishing it from before that byte |
| ParserProperties.PayloadConsV1 | src/msp/parser.rs:178-188 | a V1 payload byte followed by the rest of the payload is quiet |
| ParserProperties.PayloadV1 | src/msp/parser.rs:178-188 | the V1 payload phase appends every byte, folds it into the checksum, and ends in Crc |
| ParserProperties.XorCons | src/msp/parser.rs:183 | folding one byte and then the rest equals folding the whole |
| ParserProperties.PayloadLastV2 | src/msp/parser.rs:148-156 | the last V2 payload byte leads to Crc |
| ParserProperties.PayloadConsV2 | src/msp/parser.rs:148-156 | a V2 payload byte followed by the rest of the payload is quiet |
| ParserProperties.PayloadV2 | src/msp/parser.rs:148-156 | the V2 payload phase appends every byte and ends in Crc, the digest deferred |
| ParserProperties.ChecksumByte | src/msp/parser.rs:190-218 | the checksum byte resets the fields and yields the packet exactly on a match, a `CrcMismatch` otherwise |
| ParserProperties.QuietThenLast | src/msp/parser.rs:67-222 | the last outcome of a stream after a quiet prefix is the last byte's `Step` |
| ParserProperties.HeaderDoneEmptyV1 | src/msp/parser.rs:169-170 | with length 0 the V1 header leads straight to the checksum byte |
| ParserProperties.PayloadDoneHeaderV1 | src/msp/parser.rs:166-188 | the header fields followed by the payload lead to the checksum byte |
| ParserProperties.UpToChecksumV1 | src/msp/parser.rs:69-188 | a V1 frame up to its checksum byte is quiet and awaits the exclusive-or of length, command and payload |
| ParserProperties.FrameV1 | src/msp/parser.rs:67-222 | a whole V1 frame with any checksum byte: all earlier bytes pending; the last byte yields the packet exactly when it is the checksum, a `CrcMismatch` otherwise; the fields end reset in V1 |
| ParserProperties.HeaderDoneEmptyV2 | src/msp/parser.rs:140-141 | with length 0 the V2 header leads straight to the checksum byte |
| ParserProperties.PayloadDoneHeaderV2 | src/msp/parser.rs:140-156 | the header fields followed by the payload lead to the checksum byte |
| ParserProperties.UpToChecksumV2 | src/msp/parser.rs:69-156 | a V2 frame up to its checksum byte is quiet, with the header digested and the payload held |
| ParserProperties.CalculatedV2 | src/msp/parser.rs:192-194 | the deferred digest is the CRC-8/DVB-S2 of flag, command, length and payload in frame order |
| ParserProperties.FrameV2 | src/msp/parser.rs:67-222 | a whole V2 frame with any checksum byte: all earlier bytes pending; the last byte yields the packet exactly when it is the CRC, a `CrcMismatch` otherwise; the fields end reset in V2 |
| ParserProperties.V1FrameSplit | src/msp/packet.rs:76-88 | a V1 frame is header, payload and checksum byte |
| ParserProperties.V2FrameSplit | src/msp/packet.rs:103-114 | a V2 frame is header, payload and CRC byte |
| ParserProperties.V1FrameParses | src/msp/packet.rs:68-91 | parsing a V1 frame yields its packet at the last byte |
| ParserProperties.RoundTripV1 | src/msp/packet.rs:68-91 | parsing the V1 frame of a packet with payload below 256 yields that packet with its command cut to the low byte, all earlier bytes pending, and the parser reset |
| ParserProperties.LowByteExact | src/msp/packet.rs:80 | a command below 256 survives `as u8` |
| ParserProperties.RoundTripV1Exact | src/msp/packet.rs:174-218 | a packet whose command and payload length fit one byte comes back unchanged through V1 |
| ParserProperties.RoundTripV2 | src/msp/packet.rs:94-117 | parsing the V2 frame of a packet with payload below 65536 yields the packet unchanged, all earlier bytes pending, and the parser reset |
| ParserProperties.V1FrameCorrupt | src/msp/parser.rs:197-204 | a V1 frame with any other checksum byte is rejected at that byte, and the parser ends reset in V1 |
| ParserProperties.CorruptChecksumV1 | src/msp/parser.rs:197-204 | replacing a V1 frame's checksum by any other byte gives `CrcMismatch` with that byte and the true checksum, and leaves the parser reset in V1 |
| ParserProperties.RecoverAfterCorruptV1 | src/msp/parser.rs:197-204 | after a V1 frame rejected for its checksum, any following intact V1 frame still yields its packet at its last byte |
| ParserProperties.CorruptChecksumV2 | src/msp/parser.rs:197-204 | replacing a V2 frame's CRC by any other byte gives `CrcMismatch` with that byte and the true CRC, and leaves the parser reset in V2 |
| ParserProperties.LastPacket | src/msp/packet.rs:161-168 | the packet kept is one of the outcomes |
| ParserProperties.LastPacketSnoc | src/msp/packet.rs:163-168 | one more outcome replaces the kept packet exactly when it is a packet |
| ParserProperties.LastPacketAtEnd | src/msp/packet.rs:183-189 | a packet at the last outcome is the one kept |
| PacketTests.SerializeVector | src/msp/packet.rs:142-159 | the test packet's frame is 8 bytes, `24 4D 3C 02 02 BE EF 51`, and 2 ^ 2 ^ 0xBE ^ 0xEF = 81 |
| PacketTests.CorruptedVector | src/msp/parser.rs:197-204 | that frame with last byte 0xAE fails with `CrcMismatch(0xAE, 81)`, and the parser ends reset |
| PacketTests.CorruptedThenIntactVector | src/msp/parser.rs:197-204 | the intact frame sent after the corrupted one still yields the test packet at its last byte |
| PacketTests.ParseAll | src/msp/packet.rs:161-168 | the test loop leaves the parser on `Run` of the stream and keeps its last packet |
| PacketTests.RoundTrip | src/msp/packet.rs:175-190 | serializing into a buffer of the packet's size and parsing with a new parser gives back the packet |
| PacketTests.RoundTripV2 | src/msp/packet.rs:94-117 | the same through `serialize_v2`, for any command |
| PacketTests.RoundTripTests | src/msp/packet.rs:192-217 | the three packets of the round-trip test all come back |
| PacketTests.SerializeVectorV2 | src/msp/packet.rs:103-114 | command 515 with payload `44 20 00 80` serializes to `24 58 3C 00 03 02 04 00 44 20 00 80 FC` |
| PacketTests.CrcRegistersV2 | src/msp/packet.rs:112-114 | the register after each byte of `00 03 02 04 00 44 20 00 80` |
| PacketTests.CrcVectorV2 | src/msp/packet.rs:112-114 | CRC-8/DVB-S2 of `00 03 02 04 00 44 20 00 80` is 0xFC |
| Commands.Code | src/msp/commands.rs:8-190 | definition: the discriminant of each command, section by section; no contract of its own, its properties are `Commands.LeftInverse`, `Commands.CodeInjective` and `Commands.FromPrimitiveNone` |
| Commands.CommonCode | src/msp/commands.rs:9-13 | definition: the codes of the section's commands as in the table; no contract of its own, its property is `Commands.LeftInverseCommon` |
| Commands.CleanflightSetupCode | src/msp/commands.rs:16-31 | definition: the codes of the section's commands as in the table; no contract of its own, its property is `Commands.LeftInverseCleanflightSetup` |
| Commands.CleanflightTuningCode | src/msp/commands.rs:32-46 | definition: the codes of the section's commands as in the table; no contract of its own, its property is `Commands.LeftInverseCleanflightTuning` |
| Commands.CleanflightLoggingCode | src/msp/commands.rs:47-60 | definition: the codes of the section's commands as in the table; no contract of its own, its property is `Commands.LeftInverseCleanflightLogging` |
| Commands.CleanflightDevicesCode | src/msp/commands.rs:62-75 | definition: the codes of the section's commands as in the table; no contract of its own, its property is `Commands.LeftInverseCleanflightDevices` |
| Commands.OsdCode | src/msp/commands.rs:78-83 | definition: the codes of the section's commands as in the table; no contract of its own, its property is `Commands.LeftInverseOsd` |
| Commands.MultiWiiQueriesCode | src/msp/commands.rs:86-109 | definition: the codes of the section's commands as in the table; no contract of its own, its property is `Commands.LeftInverseMultiWiiQueries` |
| Commands.MultiWiiSettingsCode | src/msp/commands.rs:111-128 | definition: the codes of the section's commands as in the table; no contract of its own, its property is `Commands.LeftInverseMultiWiiSettings` |
| Commands.MultiWiiStorageCode | src/msp/commands.rs:131-139 | definition: the codes of the section's commands as in the table; no contract of its own, its property is `Commands.LeftInverseMultiWiiStorage` |
| Commands.BaseflightCode | src/msp/commands.rs:142-153 | definition: the codes of the section's commands as in the table; no contract of its own, its property is `Commands.LeftInverseBaseflight` |
| Commands.BetaflightCode | src/msp/commands.rs:156-166 | definition: the codes of the section's commands as in the table; no contract of its own, its property is `Commands.LeftInverseBetaflight` |
| Commands.InavCode | src/msp/commands.rs:169-189 | definition: the codes of the section's commands as in the table; no contract of its own, its property is `Commands.LeftInverseInav` |
| Commands.FromPrimitive | src/msp/commands.rs:4-190 | a name is returned only for its own code |
| Commands.LookupCommon | src/msp/commands.rs:9-13 | a name of the section is returned only for its own code |
| Commands.LookupCleanflightSetup | src/msp/commands.rs:16-31 | a name of the section is returned only for its own code |
| Commands.LookupCleanflightTuning | src/msp/commands.rs:32-46 | a name of the section is returned only for its own code |
| Commands.LookupCleanflightLogging | src/msp/commands.rs:47-60 | a name of the section is returned only for its own code |
| Commands.LookupCleanflightDevices | src/msp/commands.rs:62-75 | a name of the section is returned only for its own code |
| Commands.LookupOsd | src/msp/commands.rs:78-83 | a name of the section is returned only for its own code |
| Commands.LookupMultiWiiQueries | src/msp/commands.rs:86-109 | a name of the section is returned only for its own code |
| Commands.LookupMultiWiiSettings | src/msp/commands.rs:111-128 | a name of the section is returned only for its own code |
| Commands.LookupMultiWiiStorage | src/msp/commands.rs:131-139 | a name of the section is returned only for its own code |
| Commands.LookupBaseflight | src/msp/commands.rs:142-153 | a name of the section is returned only for its own code |
| Commands.LookupBetaflight | src/msp/commands.rs:156-166 | a name of the section is returned only for its own code |
| Commands.LookupInav | src/msp/commands.rs:169-189 | a name of the section is returned only for its own code |
| Commands.LeftInverseCommon | src/msp/commands.rs:9-13 | every name of the section is found again from its code |
| Commands.LeftInverseCleanflightSetup | src/msp/commands.rs:16-31 | every name of the section is found again from its code |
| Commands.LeftInverseCleanflightTuning | src/msp/commands.rs:32-46 | every name of the section is found again from its code |
| Commands.LeftInverseCleanflightLogging | src/msp/commands.rs:47-60 | every name of the section is found again from its code |
| Commands.LeftInverseCleanflightDevices | src/msp/commands.rs:62-75 | every name of the section is found again from its code |
| Commands.LeftInverseOsd | src/msp/commands.rs:78-83 | every name of the section is found again from its code |
| Commands.LeftInverseMultiWiiQueries | src/msp/commands.rs:86-109 | every name of the section is found again from its code |
| Commands.LeftInverseMultiWiiSettings | src/msp/commands.rs:111-128 | every name of the section is found again from its code |
| Commands.LeftInverseMultiWiiStorage | src/msp/commands.rs:131-139 | every name of the section is found again from its code |
| Commands.LeftInverseBaseflight | src/msp/commands.rs:142-153 | every name of the section is found again from its code |
| Commands.LeftInverseBetaflight | src/msp/commands.rs:156-166 | every name of the section is found again from its code |
| Commands.LeftInverseInav | src/msp/commands.rs:169-189 | every name of the section is found again from its code |
| Commands.LeftInverse | src/msp/commands.rs:4-190 | `from_primitive(code(c)) == Some(c)` for every command |
| Commands.CodeInjective | src/msp/commands.rs:8-190 | two commands have the same code exactly when they are the same command |
| Commands.FromPrimitiveNone | src/msp/commands.rs:4-190 | the lookup fails exactly on codes no command has |
| Commands.From | src/msp/commands.rs:192-196 | `From<u16>` returns the command with the given code |
| Commands.Msp2CodesAboveByte | src/msp/commands.rs:169-189 | exactly the INAV (MSP version 2) commands have codes above 255, all in 0x1003..0x2021 |
| Commands.Msp2NotCarriedByV1 | src/msp/commands.rs:169-189 | no MSP version 2 command survives a V1 frame's one-byte command field (packet.rs:80) |
| Commands.CommonSettingInV1IsFcVersion | src/msp/commands.rs:169-170 | `MSP2_COMMON_SETTING` (0x1003) cut to a byte reads as `MSP_FC_VERSION` (3) |

## Left out

- `MspPacket::decode_as` (`packet.rs:119-134`) and `src/msp/data.rs` are left out. They reinterpret the payload through `packed_struct` and unsafe pointer casts, which are foreign code. The payload is `seq<bv8>` in place of the `SmallVec` wrapper.
- The `crc_any` engine is replaced by the bit-by-bit CRC-8/DVB-S2 of `Checksum`. `Checksum.CheckValue` pins the choice of engine.
- The error kinds `InvalidData`, `InvalidHeader1` and `InvalidDataLength` are declared, but nothing produces them in the source or the model.
- The examples and `src/helpers.rs` are left out. They do serial I/O and printing, and use the codec only as callers.
- Commands.From: the panic of `unwrap_or_else(panic!)` on an unassigned code becomes a precondition. `Commands.FromPrimitiveNone` states exactly which codes it excludes.
- Commands.FromPrimitive: the lookup looks a code up in its range first, then in the sections of that range. This changes how the lookup is computed, not what it returns, and `Commands.LeftInverse` / `Commands.FromPrimitiveNone` pin down its result.
- The command enumeration is grouped into twelve section constructors (for example `MultiWiiQueries(MSP_IDENT)`) rather than one flat enumeration of 147 names. The names and codes are those of the table. The grouping keeps each section's proofs small enough for the verifier.
- Parser.MspParser.Parse: each state's branch is a method of its own (`ParseHeader1` … `ParseCrc`), and the V1 checksum loop of `serialize` is the method `Packet.FoldChecksum`, and the header writes of `serialize_v2` are the method `Packet.WriteHeaderV2`. All are splits into helpers with the same behaviour.
- The V1 results cover payloads of at most 255 bytes and the V2 results payloads of at most 65535 bytes (RoundTripV1, RoundTripV2, CorruptChecksumV1, CorruptChecksumV2). For longer payloads the serializers write the truncated length, which the model computes (`LenAsU8`, `LenToLeBytes`), but no round trip holds.
- After a V2 checksum byte the Rust parser briefly stores the CRC in `packet_crc` before `reset` clears it. The model computes that value in `Calculated` and never stores it, because the field is reset in the same call either way.
