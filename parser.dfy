/** The streaming MSP frame parser (src/msp/parser.rs): a byte-at-a-time
    state machine that skips noise up to a '$', reads a V1 or V2 header,
    collects the payload and checks the final checksum byte.

    `Step` is the parser's transition as a pure function on the values of
    its fields; the class `MspParser` holds those fields and updates them in
    place, and its `Parse` method is proved to perform exactly `Step`. */
module Parser {
  import opened Wrappers
  import opened Checksum
  import opened Packet

  /** Where the parser is within a frame. */
  datatype MspParserState =
    | Header1 | Header2 | Direction | FlagV2 | DataLength | DataLengthV2
    | Command | CommandV2 | Data | DataV2 | Crc

  /** Wire revision of the frame being read. */
  datatype MspVersion = V1 | V2

  /** Outcome of feeding one byte: no packet yet, a packet, or an error. */
  type ParseResult = Result<Option<MspPacket>, MspPacketParseError>

  /** The values of all fields of an `MspParser` at one moment.
      `crcV2` is the register of the CRC-8/DVB-S2 engine. */
  datatype ParserFields = ParserFields(
    state: MspParserState,
    version: MspVersion,
    direction: MspPacketDirection,
    cmd: u16,
    remaining: nat,
    data: seq<bv8>,
    crc: bv8,
    crcV2: bv8)

  /** Decodes a direction byte: 60 ('<'), 62 ('>') and 33 ('!'); any other
      byte has no direction.  Exactly the inverse of `ToByte`. */
  function DirectionFromByte(b: bv8): (r: Option<MspPacketDirection>)
    ensures r.Some? ==> r.value.ToByte() == b
    ensures r.None? <==> forall d: MspPacketDirection :: d.ToByte() != b
  {
    if b == 60 then Some(ToFlightController)
    else if b == 62 then Some(FromFlightController)
    else if b == 33 then Some(Unsupported)
    else None
  }

  /** The field values `reset` leaves (`new` leaves those of revision V1):
      everything cleared except the revision of the last frame. */
  function ResetFields(version: MspVersion): ParserFields
  {
    ParserFields(Header1, version, ToFlightController, 0, 0, [], 0, CrcInit)
  }

  /** What the parser expects the checksum byte to be. */
  function Calculated(f: ParserFields): bv8
  {
    if f.version == V2 then Digest(f.crcV2, f.data) else f.crc
  }

  /** The invariant that holds between any two calls of `parse`, one
      alternative per phase: the revision agrees with the phase, nothing is
      held between frames, a frame's `|data| + remaining` stays within what
      its length field can declare, and `remaining` is at least 1 whenever a
      payload byte is awaited (so the decrement in `Data` and `DataV2` never
      underflows). */
  predicate Inv(f: ParserFields)
  {
    || (f.state in {Header1, Header2, Direction} &&
        f.direction == ToFlightController && f.cmd == 0 && f.remaining == 0 &&
        f.data == [] && f.crc == 0 && f.crcV2 == CrcInit)
    || (f.state == DataLength &&
        f.version == V1 && f.cmd == 0 && f.remaining == 0 && f.data == [] &&
        f.crc == 0 && f.crcV2 == CrcInit)
    || (f.state == Command &&
        f.version == V1 && f.cmd == 0 && f.data == [] && f.remaining < 0x100 &&
        f.crcV2 == CrcInit)
    || (f.state == Data &&
        f.version == V1 && f.cmd <= 0xFF && 1 <= f.remaining &&
        |f.data| + f.remaining < 0x100 && f.crcV2 == CrcInit)
    || (f.state == FlagV2 &&
        f.version == V2 && f.cmd == 0 && f.remaining == 0 && f.data == [] &&
        f.crc == 0 && f.crcV2 == CrcInit)
    || (f.state == CommandV2 &&
        f.version == V2 && f.cmd == 0 && f.remaining == 0 && |f.data| < 2 && f.crc == 0)
    || (f.state == DataLengthV2 &&
        f.version == V2 && f.remaining == 0 && |f.data| < 2 && f.crc == 0)
    || (f.state == DataV2 &&
        f.version == V2 && 1 <= f.remaining && |f.data| + f.remaining < 0x1_0000 && f.crc == 0)
    || (f.state == Crc && f.remaining == 0 &&
        (f.version == V1 ==> f.cmd <= 0xFF && |f.data| < 0x100 && f.crcV2 == CrcInit) &&
        (f.version == V2 ==> |f.data| < 0x1_0000 && f.crc == 0))
  }

  /** `Header1`: wait for the sync byte '$'; any other byte is skipped
      with a reset and without an error. */
  function StepHeader1(f: ParserFields, input: bv8): (r: (ParserFields, ParseResult))
    requires f.state == Header1
    ensures r.1 == Ok(None)
    ensures r.0.state == Header2 <==> input == Sync
  {
    if input == Sync then (f.(state := Header2), Ok(None))
    else (ResetFields(f.version), Ok(None))
  }

  /** `Header2`: 'M' selects V1, 'X' selects V2, anything else is an
      `InvalidHeader2` error (the revision is then left as it was). */
  function StepHeader2(f: ParserFields, input: bv8): (r: (ParserFields, ParseResult))
    requires f.state == Header2
    ensures r.1.Err? <==> input != VersionTagV1 && input != VersionTagV2
    ensures r.1.Err? ==> r == (ResetFields(f.version), Err(InvalidHeader2))
    ensures r.1.Ok? ==> r.1.value.None? && r.0.state == Direction &&
                        (r.0.version == V2 <==> input == VersionTagV2)
  {
    if input == VersionTagV1 then (f.(version := V1, state := Direction), Ok(None))
    else if input == VersionTagV2 then (f.(version := V2, state := Direction), Ok(None))
    else (ResetFields(f.version), Err(InvalidHeader2))
  }

  /** `Direction`: decode the direction byte, or fail with `InvalidDirection`. */
  function StepDirection(f: ParserFields, input: bv8): (r: (ParserFields, ParseResult))
    requires f.state == Direction
    ensures r.1.Err? <==> DirectionFromByte(input).None?
    ensures r.1.Err? ==> r == (ResetFields(f.version), Err(InvalidDirection))
    ensures r.1.Ok? ==> r.1.value.None? && r.0.direction.ToByte() == input
  {
    match DirectionFromByte(input)
    case None => (ResetFields(f.version), Err(InvalidDirection))
    case Some(d) =>
      (f.(direction := d, state := if f.version == V1 then DataLength else FlagV2), Ok(None))
  }

  /** `FlagV2`: the flag byte goes only into the CRC. */
  function StepFlagV2(f: ParserFields, input: bv8): (r: (ParserFields, ParseResult))
    requires f.state == FlagV2
    ensures r.1 == Ok(None)
  {
    (f.(state := CommandV2, data := [], crcV2 := Digest(f.crcV2, [input])), Ok(None))
  }

  /** `CommandV2`: collect two bytes, then take them as the little-endian
      command and digest them. */
  function StepCommandV2(f: ParserFields, input: bv8): (r: (ParserFields, ParseResult))
    requires f.state == CommandV2
    ensures r.1 == Ok(None)
  {
    var data := f.data + [input];
    if |data| == 2 then
      (f.(cmd := FromLeBytes(data[0], data[1]), crcV2 := Digest(f.crcV2, data),
          data := [], state := DataLengthV2), Ok(None))
    else (f.(data := data), Ok(None))
  }

  /** `DataLengthV2`: collect two bytes, then take them as the little-endian
      payload length and digest them; a zero length goes straight to `Crc`. */
  function StepDataLengthV2(f: ParserFields, input: bv8): (r: (ParserFields, ParseResult))
    requires f.state == DataLengthV2
    ensures r.1 == Ok(None)
  {
    var data := f.data + [input];
    if |data| == 2 then
      var len := LeLength(data[0], data[1]);
      (f.(remaining := len, crcV2 := Digest(f.crcV2, data), data := [],
          state := if len == 0 then Crc else DataV2), Ok(None))
    else (f.(data := data), Ok(None))
  }

  /** `DataV2`: collect one payload byte (its digest is deferred to `Crc`). */
  function StepDataV2(f: ParserFields, input: bv8): (r: (ParserFields, ParseResult))
    requires f.state == DataV2 && 1 <= f.remaining
    ensures r.1 == Ok(None)
    ensures |r.0.data| + r.0.remaining == |f.data| + f.remaining
  {
    var remaining := f.remaining - 1;
    (f.(data := f.data + [input], remaining := remaining,
        state := if remaining == 0 then Crc else DataV2), Ok(None))
  }

  /** `DataLength`: the V1 length byte; it seeds the checksum. */
  function StepDataLength(f: ParserFields, input: bv8): (r: (ParserFields, ParseResult))
    requires f.state == DataLength
    ensures r.1 == Ok(None)
  {
    (f.(remaining := input as nat, state := Command, crc := XorByte(f.crc, input), data := []), Ok(None))
  }

  /** `Command`: the V1 command byte; a zero length goes straight to `Crc`. */
  function StepCommand(f: ParserFields, input: bv8): (r: (ParserFields, ParseResult))
    requires f.state == Command
    ensures r.1 == Ok(None)
  {
    (f.(cmd := input as bv16, state := if f.remaining == 0 then Crc else Data,
        crc := XorByte(f.crc, input)), Ok(None))
  }

  /** `Data`: collect one V1 payload byte and fold it into the checksum. */
  function StepData(f: ParserFields, input: bv8): (r: (ParserFields, ParseResult))
    requires f.state == Data && 1 <= f.remaining
    ensures r.1 == Ok(None)
    ensures |r.0.data| + r.0.remaining == |f.data| + f.remaining
  {
    var remaining := f.remaining - 1;
    (f.(data := f.data + [input], remaining := remaining, crc := XorByte(f.crc, input),
        state := if remaining == 0 then Crc else Data), Ok(None))
  }

  /** `Crc`: the checksum byte.  A match emits the packet collected; a
      mismatch reports the byte seen as `expected` and the parser's own
      value as `calculated`.  Either way the parser is reset. */
  function StepCrc(f: ParserFields, input: bv8): (r: (ParserFields, ParseResult))
    requires f.state == Crc
    ensures r.0 == ResetFields(f.version)
    ensures r.1.Ok? <==> input == Calculated(f)
    ensures r.1.Ok? ==> r.1.value == Some(MspPacket(f.cmd, f.direction, f.data))
    ensures r.1.Err? ==> r.1.error == CrcMismatch(input, Calculated(f))
  {
    var calculated := Calculated(f);
    if input != calculated then
      (ResetFields(f.version), Err(CrcMismatch(input, calculated)))
    else
      (ResetFields(f.version), Ok(Some(MspPacket(f.cmd, f.direction, f.data))))
  }

  /** One call of `parse`: the new field values and the outcome.  The
      invariant is kept, only the header and checksum bytes can fail, only
      the checksum byte can complete a packet, and after an error or a
      packet the parser is back to its reset values. */
  function Step(f: ParserFields, input: bv8): (r: (ParserFields, ParseResult))
    requires Inv(f)
    ensures r.1.Err? || r.1.value.Some? ==> r.0 == ResetFields(f.version)
    ensures r.1.Err? ==> f.state in {Header2, Direction, Crc}
    ensures r.1.Ok? && r.1.value.Some? ==> f.state == Crc
  {
    match f.state
    case Header1 => StepHeader1(f, input)
    case Header2 => StepHeader2(f, input)
    case Direction => StepDirection(f, input)
    case FlagV2 => StepFlagV2(f, input)
    case CommandV2 => StepCommandV2(f, input)
    case DataLengthV2 => StepDataLengthV2(f, input)
    case DataV2 => StepDataV2(f, input)
    case DataLength => StepDataLength(f, input)
    case Command => StepCommand(f, input)
    case Data => StepData(f, input)
    case Crc => StepCrc(f, input)
  }

  /** `parse` keeps the invariant. */
  lemma StepKeepsInv(f: ParserFields, input: bv8)
    requires Inv(f)
    ensures Inv(Step(f, input).0)
  {
    match f.state
    case Header1 => assert Inv(StepHeader1(f, input).0);
    case Header2 => assert Inv(StepHeader2(f, input).0);
    case Direction => assert Inv(StepDirection(f, input).0);
    case FlagV2 => assert Inv(StepFlagV2(f, input).0);
    case CommandV2 => assert Inv(StepCommandV2(f, input).0);
    case DataLengthV2 => assert Inv(StepDataLengthV2(f, input).0);
    case DataV2 => assert Inv(StepDataV2(f, input).0);
    case DataLength => assert Inv(StepDataLength(f, input).0);
    case Command => assert Inv(StepCommand(f, input).0);
    case Data => assert Inv(StepData(f, input).0);
    case Crc => assert Inv(StepCrc(f, input).0);
  }

  /** Parser that can find packets in a raw byte stream. */
  class MspParser {
    var state: MspParserState
    var packetVersion: MspVersion
    var packetDirection: MspPacketDirection
    var packetCmd: u16
    var packetDataLengthRemaining: nat
    var packetData: seq<bv8>
    var packetCrc: bv8
    var packetCrcV2: bv8

    /** The current values of all fields. */
    ghost function Snapshot(): ParserFields
      reads this
    {
      ParserFields(state, packetVersion, packetDirection, packetCmd,
                   packetDataLengthRemaining, packetData, packetCrc, packetCrcV2)
    }

    ghost predicate Valid()
      reads this
    {
      Inv(Snapshot())
    }

    /** A fresh parser waits for the header of a V1 frame. */
    constructor ()
      ensures Valid() && Snapshot() == ResetFields(V1)
    {
      state := Header1;
      packetVersion := V1;
      packetDirection := ToFlightController;
      packetDataLengthRemaining := 0;
      packetCmd := 0;
      packetData := [];
      packetCrc := 0;
      packetCrcV2 := CrcInit;
    }

    /** Whether the parser waits for the header of a new frame; between any
        two calls of `Parse`, that is exactly when it holds nothing of a
        frame. */
    function StateIsBetweenPackets(): (b: bool)
      reads this
      requires Valid()
      ensures b <==> Snapshot() == ResetFields(packetVersion)
    {
      state == Header1
    }

    /** Abandons the frame being read; only the revision is kept. */
    method Reset()
      modifies this
      ensures Snapshot() == ResetFields(old(packetVersion))
    {
      state := Header1;
      packetDirection := ToFlightController;
      packetDataLengthRemaining := 0;
      packetCmd := 0;
      packetData := [];
      packetCrc := 0;
      packetCrcV2 := CrcInit;
    }

    /** Feeds the next byte of the stream: performs exactly `Step`.  Each
        state's branch is a method of its own. */
    method Parse(input: bv8) returns (r: ParseResult)
      requires Valid()
      modifies this
      ensures Valid()
      ensures Snapshot() == Step(old(Snapshot()), input).0
      ensures r == Step(old(Snapshot()), input).1
    {
      match state {
        case Header1 => r := ParseHeader1(input);
        case Header2 => r := ParseHeader2(input);
        case Direction => r := ParseDirection(input);
        case FlagV2 => r := ParseFlagV2(input);
        case CommandV2 => r := ParseCommandV2(input);
        case DataLengthV2 => r := ParseDataLengthV2(input);
        case DataV2 => r := ParseDataV2(input);
        case DataLength => r := ParseDataLength(input);
        case Command => r := ParseCommand(input);
        case Data => r := ParseData(input);
        case Crc => r := ParseCrc(input);
      }
      assert Snapshot() == Step(old(Snapshot()), input).0;
      StepKeepsInv(old(Snapshot()), input);
    }

    /** The `Header1` branch of `Parse`. */
    method ParseHeader1(input: bv8) returns (r: ParseResult)
      requires state == Header1
      modifies this
      ensures Snapshot() == StepHeader1(old(Snapshot()), input).0
      ensures r == StepHeader1(old(Snapshot()), input).1
    {
      if input == Sync {
        state := Header2;
      } else {
        Reset();
      }
      r := Ok(None);
    }

    /** The `Header2` branch of `Parse`. */
    method ParseHeader2(input: bv8) returns (r: ParseResult)
      requires state == Header2
      modifies this
      ensures Snapshot() == StepHeader2(old(Snapshot()), input).0
      ensures r == StepHeader2(old(Snapshot()), input).1
    {
      if input == VersionTagV1 {
        packetVersion := V1;
      } else if input == VersionTagV2 {
        packetVersion := V2;
      } else {
        Reset();
        return Err(InvalidHeader2);
      }
      state := Direction;
      r := Ok(None);
    }

    /** The `Direction` branch of `Parse`. */
    method ParseDirection(input: bv8) returns (r: ParseResult)
      requires state == Direction
      modifies this
      ensures Snapshot() == StepDirection(old(Snapshot()), input).0
      ensures r == StepDirection(old(Snapshot()), input).1
    {
      var d := DirectionFromByte(input);
      if d.None? {
        Reset();
        return Err(InvalidDirection);
      }
      packetDirection := d.value;
      state := if packetVersion == V1 then DataLength else FlagV2;
      r := Ok(None);
    }

    /** The `FlagV2` branch of `Parse`. */
    method ParseFlagV2(input: bv8) returns (r: ParseResult)
      requires state == FlagV2
      modifies this
      ensures Snapshot() == StepFlagV2(old(Snapshot()), input).0
      ensures r == StepFlagV2(old(Snapshot()), input).1
    {
      state := CommandV2;
      packetData := [];
      packetCrcV2 := Digest(packetCrcV2, [input]);
      r := Ok(None);
    }

    /** The `CommandV2` branch of `Parse`. */
    method ParseCommandV2(input: bv8) returns (r: ParseResult)
      requires state == CommandV2
      modifies this
      ensures Snapshot() == StepCommandV2(old(Snapshot()), input).0
      ensures r == StepCommandV2(old(Snapshot()), input).1
    {
      packetData := packetData + [input];
      if |packetData| == 2 {
        packetCmd := FromLeBytes(packetData[0], packetData[1]);
        packetCrcV2 := Digest(packetCrcV2, packetData);
        packetData := [];
        state := DataLengthV2;
      }
      r := Ok(None);
    }

    /** The `DataLengthV2` branch of `Parse`. */
    method ParseDataLengthV2(input: bv8) returns (r: ParseResult)
      requires state == DataLengthV2
      modifies this
      ensures Snapshot() == StepDataLengthV2(old(Snapshot()), input).0
      ensures r == StepDataLengthV2(old(Snapshot()), input).1
    {
      packetData := packetData + [input];
      if |packetData| == 2 {
        packetDataLengthRemaining := LeLength(packetData[0], packetData[1]);
        packetCrcV2 := Digest(packetCrcV2, packetData);
        packetData := [];
        if packetDataLengthRemaining == 0 {
          state := Crc;
        } else {
          state := DataV2;
        }
      }
      r := Ok(None);
    }

    /** The `DataV2` branch of `Parse`. */
    method ParseDataV2(input: bv8) returns (r: ParseResult)
      requires state == DataV2 && 1 <= packetDataLengthRemaining
      modifies this
      ensures Snapshot() == StepDataV2(old(Snapshot()), input).0
      ensures r == StepDataV2(old(Snapshot()), input).1
    {
      packetData := packetData + [input];
      packetDataLengthRemaining := packetDataLengthRemaining - 1;
      if packetDataLengthRemaining == 0 {
        state := Crc;
      }
      r := Ok(None);
    }

    /** The `DataLength` branch of `Parse`. */
    method ParseDataLength(input: bv8) returns (r: ParseResult)
      requires state == DataLength
      modifies this
      ensures Snapshot() == StepDataLength(old(Snapshot()), input).0
      ensures r == StepDataLength(old(Snapshot()), input).1
    {
      var length: nat := input as nat;
      packetDataLengthRemaining := length;
      state := Command;
      packetCrc := XorByte(packetCrc, input);
      packetData := [];
      r := Ok(None);
    }

    /** The `Command` branch of `Parse`. */
    method ParseCommand(input: bv8) returns (r: ParseResult)
      requires state == Command
      modifies this
      ensures Snapshot() == StepCommand(old(Snapshot()), input).0
      ensures r == StepCommand(old(Snapshot()), input).1
    {
      packetCmd := input as bv16;
      if packetDataLengthRemaining == 0 {
        state := Crc;
      } else {
        state := Data;
      }
      packetCrc := XorByte(packetCrc, input);
      r := Ok(None);
    }

    /** The `Data` branch of `Parse`. */
    method ParseData(input: bv8) returns (r: ParseResult)
      requires state == Data && 1 <= packetDataLengthRemaining
      modifies this
      ensures Snapshot() == StepData(old(Snapshot()), input).0
      ensures r == StepData(old(Snapshot()), input).1
    {
      packetCrc := XorByte(packetCrc, input);
      packetData := packetData + [input];
      packetDataLengthRemaining := packetDataLengthRemaining - 1;
      if packetDataLengthRemaining == 0 {
        state := Crc;
      }
      r := Ok(None);
    }

    /** The `Crc` branch of `Parse`. */
    method ParseCrc(input: bv8) returns (r: ParseResult)
      requires state == Crc
      modifies this
      ensures Snapshot() == StepCrc(old(Snapshot()), input).0
      ensures r == StepCrc(old(Snapshot()), input).1
    {
      if packetVersion == V2 {
        packetCrcV2 := Digest(packetCrcV2, packetData);
        packetCrc := packetCrcV2;
      }
      var calculated := packetCrc;
      if input != calculated {
        Reset();
        return Err(CrcMismatch(input, calculated));
      }
      var packet := MspPacket(packetCmd, packetDirection, packetData);
      packetData := [];
      Reset();
      r := Ok(Some(packet));
    }
  }
}
