/** The unit tests of the packet module, as statements about the model:
    the serialization vector, the corrupted checksum of that vector, a V2
    vector, and the `roundtrip` client that serializes a packet into a
    buffer and feeds the buffer to a fresh parser byte by byte. */
module PacketTests {
  import opened Wrappers
  import opened Checksum
  import opened Packet
  import opened Parser
  import opened ParserProperties

  /** The packet of the serialization test. */
  function TestPacket(): MspPacket
  {
    MspPacket(2, ToFlightController, [0xBE, 0xEF])
  }

  /** Its V1 frame is 8 bytes: '$' 'M' '<', length 2, command 2, the
      payload, and checksum 2 ^ 2 ^ 0xBE ^ 0xEF = 81. */
  lemma SerializeVector()
    ensures TestPacket().PacketSizeBytes() == 8
    ensures TestPacket().EncodeV1() == [0x24, 0x4D, 0x3C, 2, 2, 0xBE, 0xEF, 81]
    ensures (2 as bv8) ^ 2 ^ 0xBE ^ 0xEF == 81
  {
    var e := TestPacket().EncodeV1();
    assert e[..3] == [0x24, 0x4D, 0x3C];
    assert e[5..7] == [0xBE, 0xEF];
    assert Xor([0xBE, 0xEF]) == 0xBE ^ 0xEF by {
      assert [0xBE, 0xEF][1..] == [0xEF];
      assert [0xEF][1..] == [];
    }
  }

  /** The vector with its checksum byte replaced by 0xAE is rejected at
      that byte: 0xAE seen, 81 computed; the parser is then reset. */
  lemma CorruptedVector()
    ensures Run(ResetFields(V1), [0x24, 0x4D, 0x3C, 2, 2, 0xBE, 0xEF, 0xAE]).0 == ResetFields(V1)
    ensures Run(ResetFields(V1), [0x24, 0x4D, 0x3C, 2, 2, 0xBE, 0xEF, 0xAE]).1[7] == Err(CrcMismatch(0xAE, 81))
  {
    SerializeVector();
    var e := TestPacket().EncodeV1();
    assert e[..|e| - 1] + [0xAE] == [0x24, 0x4D, 0x3C, 2, 2, 0xBE, 0xEF, 0xAE];
    CorruptChecksumV1(V1, TestPacket(), 0xAE);
  }

  /** After the corrupted vector, the intact vector still yields the test
      packet at its last byte. */
  lemma CorruptedThenIntactVector()
    ensures Run(ResetFields(V1), [0x24, 0x4D, 0x3C, 2, 2, 0xBE, 0xEF, 0xAE] + TestPacket().EncodeV1()).1[15] == Ok(Some(TestPacket()))
  {
    SerializeVector();
    var e := TestPacket().EncodeV1();
    assert e[..|e| - 1] + [0xAE] == [0x24, 0x4D, 0x3C, 2, 2, 0xBE, 0xEF, 0xAE];
    RecoverAfterCorruptV1(V1, TestPacket(), 0xAE, TestPacket());
  }

  /** Feeds every byte of `bytes` to `parser`, keeping the last packet it
      returns: the loop of the round-trip test. */
  method ParseAll(parser: MspParser, bytes: seq<bv8>) returns (parsed: Option<MspPacket>)
    requires parser.Valid()
    modifies parser
    ensures parser.Valid()
    ensures parser.Snapshot() == Run(old(parser.Snapshot()), bytes).0
    ensures parsed == LastPacket(Run(old(parser.Snapshot()), bytes).1)
  {
    ghost var f := parser.Snapshot();
    parsed := None;
    for i := 0 to |bytes|
      invariant parser.Valid()
      invariant parser.Snapshot() == Run(f, bytes[..i]).0
      invariant parsed == LastPacket(Run(f, bytes[..i]).1)
    {
      RunSnoc(f, bytes[..i], bytes[i]);
      assert bytes[..i + 1] == bytes[..i] + [bytes[i]];
      var s := parser.Parse(bytes[i]);
      LastPacketSnoc(Run(f, bytes[..i]).1, s);
      if s.Ok? && s.value.Some? {
        parsed := s.value;
      }
    }
    assert bytes[..|bytes|] == bytes;
  }

  /** The round-trip test: a packet whose command and payload length fit
      one byte, serialized into a buffer of its size and parsed by a fresh
      parser, comes back as itself. */
  method RoundTrip(p: MspPacket) returns (parsed: Option<MspPacket>)
    requires p.cmd <= 0xFF && |p.data| < 0x100
    ensures parsed == Some(p)
  {
    var output := new bv8[p.PacketSizeBytes()];
    var r := p.Serialize(output);
    assert r.Ok?;
    var parser := new MspParser();
    parsed := ParseAll(parser, output[..]);
    RoundTripV1Exact(V1, p);
    LastPacketAtEnd(Run(ResetFields(V1), p.EncodeV1()).1, p);
  }

  /** The same round trip through V2: any packet whose payload length fits
      16 bits comes back as itself, whatever its command. */
  method RoundTripV2(p: MspPacket) returns (parsed: Option<MspPacket>)
    requires |p.data| < 0x1_0000
    ensures parsed == Some(p)
  {
    var output := new bv8[p.PacketSizeBytesV2()];
    var r := p.SerializeV2(output);
    assert r.Ok?;
    var parser := new MspParser();
    parsed := ParseAll(parser, output[..]);
    ParserProperties.RoundTripV2(V1, p);
    LastPacketAtEnd(Run(ResetFields(V1), p.EncodeV2()).1, p);
  }

  /** The packets of the round-trip test all come back. */
  method RoundTripTests() returns (ok: bool)
    ensures ok
  {
    var a := RoundTrip(MspPacket(1, ToFlightController, [0x00, 0x00, 0x00]));
    var b := RoundTrip(MspPacket(200, FromFlightController, []));
    var c := RoundTrip(MspPacket(100, Unsupported, [0x44, 0x20, 0x00, 0x80]));
    ok := a.Some? && b.Some? && c.Some? && a.value.cmd == 1 && b.value.cmd == 200 && c.value.cmd == 100;
  }

  /** The packet with command 515 and payload 44 20 00 80 needs V2: its V2
      frame is '$' 'X' '<' and flag 0, the command little-endian (03 02)
      and the length 4 little-endian, the payload, and CRC-8/DVB-S2 0xFC. */
  lemma SerializeVectorV2()
    ensures MspPacket(515, ToFlightController, [0x44, 0x20, 0x00, 0x80]).EncodeV2()
         == [0x24, 0x58, 0x3C, 0x00] + ([0x03, 0x02] + [0x04, 0x00]) + [0x44, 0x20, 0x00, 0x80] + [0xFC]
  {
    var p := MspPacket(515, ToFlightController, [0x44, 0x20, 0x00, 0x80]);
    assert ToLeBytes(515) == [0x03, 0x02];
    assert LenToLeBytes(4) == [0x04, 0x00];
    V2FrameSplit(0x3C, 0x03, 0x02, 0x04, 0x00, p.data);
    CrcVectorV2();
  }

  /** The register after each byte of 00 03 02 04 00 44 20 00 80. */
  lemma CrcRegistersV2()
    ensures Update(0x00, 0x00) == 0x00 && Update(0x00, 0x03) == 0xAA
    ensures Update(0xAA, 0x02) == 0x62 && Update(0x62, 0x04) == 0xB8
    ensures Update(0xB8, 0x00) == 0x30 && Update(0x30, 0x44) == 0x95
    ensures Update(0x95, 0x20) == 0x32 && Update(0x32, 0x00) == 0x89
    ensures Update(0x89, 0x80) == 0xFC
  {
  }

  /** CRC-8/DVB-S2 over the flag, command and length bytes, then the
      payload, of the V2 vector. */
  lemma CrcVectorV2()
    ensures Crc8([0x00, 0x03, 0x02, 0x04, 0x00] + [0x44, 0x20, 0x00, 0x80]) == 0xFC
  {
    CrcRegistersV2();
    DigestAppend(CrcInit, [0x00, 0x03, 0x02, 0x04, 0x00], [0x44, 0x20, 0x00, 0x80]);
    assert Digest(CrcInit, [0x00, 0x03, 0x02, 0x04, 0x00]) == 0x30;
    assert Digest(0x30, [0x44, 0x20, 0x00, 0x80]) == 0xFC;
  }
}
