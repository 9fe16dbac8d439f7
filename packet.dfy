/** MSP packets and their two wire encodings (src/msp/packet.rs). */
module Packet {
  import opened Wrappers
  import opened Checksum

  /** Rust's `u16`. */
  type u16 = bv16

  /** The sync byte '$' that opens every frame. */
  const Sync: bv8 := 0x24
  /** The revision tag 'M' of a V1 frame. */
  const VersionTagV1: bv8 := 0x4D
  /** The revision tag 'X' of a V2 frame. */
  const VersionTagV2: bv8 := 0x58

  /** `n as u8` for a length `n`: keeps the low 8 bits. */
  function LenAsU8(n: nat): bv8
  {
    (n % 0x100) as bv8
  }

  /** `(n as u16).to_le_bytes()` for a length `n`: the low 16 bits of `n`,
      low byte first. */
  function LenToLeBytes(n: nat): seq<bv8>
  {
    [LenAsU8(n), LenAsU8(n / 0x100)]
  }

  /** `u16::from_le_bytes([lo, hi])` widened to a length. */
  function LeLength(lo: bv8, hi: bv8): nat
  {
    lo as int + 0x100 * hi as int
  }

  /** A length that fits in 8 bits survives `as u8` and back. */
  lemma LenAsU8Exact(n: nat)
    requires n < 0x100
    ensures LenAsU8(n) as int == n
  {
    assert n % 0x100 == n;
    assert (n as bv8) as int == n;
  }

  /** A length that fits in 16 bits survives `as u16`, `to_le_bytes` and
      `from_le_bytes`. */
  lemma LenLeBytesExact(n: nat)
    requires n < 0x1_0000
    ensures LeLength(LenToLeBytes(n)[0], LenToLeBytes(n)[1]) == n
  {
    LenAsU8Exact(n % 0x100);
    LenAsU8Exact(n / 0x100);
  }

  /** `x as u8`: the low byte of a 16-bit value. */
  function LowByte(x: u16): bv8
  {
    (x & 0xFF) as bv8
  }

  /** `u16::from_le_bytes([lo, hi])`. */
  function FromLeBytes(lo: bv8, hi: bv8): u16
  {
    (lo as bv16) | ((hi as bv16) << 8)
  }

  /** `x.to_le_bytes()`: low byte first. */
  function ToLeBytes(x: u16): seq<bv8>
  {
    [LowByte(x), (x >> 8) as bv8]
  }

  /** Writing a `u16` little-endian and reading it back gives it again. */
  lemma LeBytesInverse(x: u16)
    ensures FromLeBytes(ToLeBytes(x)[0], ToLeBytes(x)[1]) == x
  {
  }

  /** Reading two bytes as a little-endian `u16` and writing it back gives
      the same two bytes. */
  lemma LeBytesRoundTrip(lo: bv8, hi: bv8)
    ensures ToLeBytes(FromLeBytes(lo, hi)) == [lo, hi]
  {
  }

  /** A V1 frame with direction byte `dir`, length byte `len` and command
      byte `cmd`: '$' 'M', those three bytes, the payload, and the
      exclusive-or of everything from the length byte to the end of the
      payload. */
  function V1Frame(dir: bv8, len: bv8, cmd: bv8, data: seq<bv8>): (r: seq<bv8>)
    ensures |r| == 6 + |data|
    ensures r[..3] == [Sync, VersionTagV1, dir]
    ensures r[3] == len && r[4] == cmd
    ensures r[5..|r| - 1] == data
    ensures r[|r| - 1] == Xor(r[3..|r| - 1]) == len ^ cmd ^ Xor(data)
  {
    var body := [len, cmd] + data;
    var r := [Sync, VersionTagV1, dir] + body + [len ^ cmd ^ Xor(data)];
    assert r[3..|r| - 1] == body;
    XorTwoThen(len, cmd, data);
    r
  }

  /** A byte string with the fields of a V1 frame, each in its place, is
      that frame. */
  lemma V1FrameFields(dir: bv8, len: bv8, cmd: bv8, data: seq<bv8>, frame: seq<bv8>)
    requires |frame| == 6 + |data|
    requires frame[0] == Sync && frame[1] == VersionTagV1 && frame[2] == dir
    requires frame[3] == len && frame[4] == cmd
    requires frame[5..|frame| - 1] == data
    requires frame[|frame| - 1] == len ^ cmd ^ Xor(data)
    ensures frame == V1Frame(dir, len, cmd, data)
  {
    var n := |frame|;
    assert frame == [frame[0], frame[1], frame[2], frame[3], frame[4]] + frame[5..n - 1] + [frame[n - 1]];
  }

  /** A V2 frame with direction byte `dir`, command bytes `c0 c1` and length
      bytes `l0 l1`: '$' 'X', the direction, flag 0, those four bytes, the
      payload, and the CRC-8/DVB-S2 of everything from the flag byte to the
      end of the payload. */
  function V2Frame(dir: bv8, c0: bv8, c1: bv8, l0: bv8, l1: bv8, data: seq<bv8>): (r: seq<bv8>)
    ensures |r| == 9 + |data|
    ensures r[..4] == [Sync, VersionTagV2, dir, 0]
    ensures r[4] == c0 && r[5] == c1 && r[6] == l0 && r[7] == l1
    ensures r[8..|r| - 1] == data
    ensures r[|r| - 1] == Crc8(r[3..|r| - 1]) == Crc8([0, c0, c1, l0, l1] + data)
  {
    var body := [0, c0, c1, l0, l1] + data;
    var r := [Sync, VersionTagV2, dir] + body + [Crc8(body)];
    assert r[3..|r| - 1] == body;
    r
  }

  /** A byte string with the fields of a V2 frame, each in its place, is
      that frame. */
  lemma V2FrameFields(dir: bv8, c0: bv8, c1: bv8, l0: bv8, l1: bv8, data: seq<bv8>, frame: seq<bv8>)
    requires |frame| == 9 + |data|
    requires frame[0] == Sync && frame[1] == VersionTagV2 && frame[2] == dir && frame[3] == 0
    requires frame[4] == c0 && frame[5] == c1 && frame[6] == l0 && frame[7] == l1
    requires frame[8..|frame| - 1] == data
    requires frame[|frame| - 1] == Crc8(frame[3..|frame| - 1])
    ensures frame == V2Frame(dir, c0, c1, l0, l1, data)
  {
    var n := |frame|;
    assert frame[3..n - 1] == [0, c0, c1, l0, l1] + data;
    assert frame == [frame[0], frame[1], frame[2]] + frame[3..n - 1] + [frame[n - 1]];
  }

  /** The V1 checksum loop: folds every payload byte into `seed` by
      exclusive-or. */
  method FoldChecksum(seed: bv8, data: seq<bv8>) returns (crc: bv8)
    ensures crc == seed ^ Xor(data)
  {
    crc := seed;
    for i := 0 to |data|
      invariant crc == seed ^ Xor(data[..i])
    {
      XorAppend(data[..i], [data[i]]);
      assert data[..i + 1] == data[..i] + [data[i]];
      crc := crc ^ data[i];
    }
    assert data[..|data|] == data;
  }

  /** Writes the first eight bytes of a V2 frame: '$' 'X', the direction
      byte, flag 0, and the command and length bytes. */
  method WriteHeaderV2(output: array<bv8>, dir: bv8, c0: bv8, c1: bv8, l0: bv8, l1: bv8)
    requires output.Length >= 9
    modifies output
    ensures output[0] == Sync && output[1] == VersionTagV2 && output[2] == dir && output[3] == 0
    ensures output[4] == c0 && output[5] == c1 && output[6] == l0 && output[7] == l1
    ensures forall i | 8 <= i < output.Length :: output[i] == old(output[i])
  {
    output[0] := Sync;
    output[1] := VersionTagV2;
    output[2] := dir;
    output[3] := 0;
    output[4], output[5] := c0, c1;
    output[6], output[7] := l0, l1;
  }

  /** The packet's desired destination. */
  datatype MspPacketDirection = ToFlightController | FromFlightController | Unsupported
  {
    /** The network byte of the direction: '<', '>' or '!'. */
    function ToByte(): (b: bv8)
      ensures b == 0x3C || b == 0x3E || b == 0x21
    {
      match this
      case ToFlightController => 0x3C
      case FromFlightController => 0x3E
      case Unsupported => 0x21
    }
  }

  /** The three directions have three distinct network bytes. */
  lemma ToByteInjective(d: MspPacketDirection, e: MspPacketDirection)
    ensures d.ToByte() == e.ToByte() ==> d == e
  {
  }

  /** Packet errors.  `InvalidData`, `InvalidHeader1` and `InvalidDataLength`
      are declared by the protocol library but nothing produces them. */
  datatype MspPacketParseError =
    | OutputBufferSizeMismatch
    | CrcMismatch(expected: bv8, calculated: bv8)
    | InvalidData
    | InvalidHeader1
    | InvalidHeader2
    | InvalidDirection
    | InvalidDataLength

  /** A decoded MSP packet: command code, direction and payload. */
  datatype MspPacket = MspPacket(cmd: u16, direction: MspPacketDirection, data: seq<bv8>)
  {
    /** The V1 frame of the packet:
        '$' 'M' direction, length and command (each cut to 8 bits), the
        payload, and the exclusive-or of everything from the length byte
        to the end of the payload. */
    function EncodeV1(): (r: seq<bv8>)
      ensures |r| == 6 + |data| && r[2] == direction.ToByte()
      ensures r[5..|r| - 1] == data && r[|r| - 1] == Xor(r[3..|r| - 1])
    {
      V1Frame(direction.ToByte(), LenAsU8(|data|), LowByte(cmd), data)
    }

    /** The V2 frame of the packet:
        '$' 'X' direction, flag 0, the command and the length (cut to 16
        bits) little-endian, the payload, and the CRC-8/DVB-S2 of everything
        from the flag byte to the end of the payload. */
    function EncodeV2(): (r: seq<bv8>)
      ensures |r| == 9 + |data| && r[2] == direction.ToByte()
      ensures FromLeBytes(r[4], r[5]) == cmd
      ensures r[8..|r| - 1] == data && r[|r| - 1] == Crc8(r[3..|r| - 1])
    {
      var c, l := ToLeBytes(cmd), LenToLeBytes(|data|);
      V2Frame(direction.ToByte(), c[0], c[1], l[0], l[1], data)
    }

    /** Number of bytes of the V1 frame. */
    function PacketSizeBytes(): (n: nat)
      ensures n == |EncodeV1()|
    {
      6 + |data|
    }

    /** Number of bytes of the V2 frame. */
    function PacketSizeBytesV2(): (n: nat)
      ensures n == |EncodeV2()|
    {
      9 + |data|
    }

    /** Writes the V1 frame into `output`, which must have exactly its size;
        otherwise reports the mismatch and leaves `output` alone. */
    method Serialize(output: array<bv8>) returns (r: Result<(), MspPacketParseError>)
      modifies output
      ensures r.Err? <==> output.Length != PacketSizeBytes()
      ensures r.Err? ==> r.error == OutputBufferSizeMismatch && output[..] == old(output[..])
      ensures r.Ok? ==> output[..] == EncodeV1()
    {
      var l := output.Length;
      if l != PacketSizeBytes() {
        return Err(OutputBufferSizeMismatch);
      }
      var lenByte, cmdByte := LenAsU8(|data|), LowByte(cmd);
      output[0] := Sync;
      output[1] := VersionTagV1;
      output[2] := direction.ToByte();
      output[3] := lenByte;
      output[4] := cmdByte;
      forall i | 5 <= i < l - 1 {
        output[i] := data[i - 5];
      }
      assert output[5..l - 1] == data;
      var crc := FoldChecksum(output[3] ^ output[4], data);
      output[l - 1] := crc;
      V1FrameFields(direction.ToByte(), lenByte, cmdByte, data, output[..]);
      return Ok(());
    }

    /** Writes the V2 frame into `output`, which must have exactly its size;
        otherwise reports the mismatch and leaves `output` alone. */
    method SerializeV2(output: array<bv8>) returns (r: Result<(), MspPacketParseError>)
      modifies output
      ensures r.Err? <==> output.Length != PacketSizeBytesV2()
      ensures r.Err? ==> r.error == OutputBufferSizeMismatch && output[..] == old(output[..])
      ensures r.Ok? ==> output[..] == EncodeV2()
    {
      var l := output.Length;
      if l != PacketSizeBytesV2() {
        return Err(OutputBufferSizeMismatch);
      }
      var cmdLe, lenLe := ToLeBytes(cmd), LenToLeBytes(|data|);
      WriteHeaderV2(output, direction.ToByte(), cmdLe[0], cmdLe[1], lenLe[0], lenLe[1]);
      forall i | 8 <= i < l - 1 {
        output[i] := data[i - 8];
      }
      assert l == 9 + |data|;
      assert forall i | 8 <= i < l - 1 :: output[i] == data[i - 8];
      assert output[8..l - 1] == data;
      output[l - 1] := Crc8(output[3..l - 1]);
      V2FrameFields(direction.ToByte(), cmdLe[0], cmdLe[1], lenLe[0], lenLe[1], data, output[..]);
      return Ok(());
    }
  }
}
