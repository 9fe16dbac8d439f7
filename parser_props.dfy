/** Properties of the MSP parser over whole byte streams: feeding a stream
    one byte at a time (`Run`), skipping noise between frames, the state a
    well-formed frame leaves just before its checksum byte, and the round
    trips from `serialize` / `serialize_v2` back through `parse`. */
module ParserProperties {
  import opened Wrappers
  import opened Checksum
  import opened Packet
  import opened Parser

  /** Feeds `bytes` to a parser whose fields are `f`, one call of `parse`
      per byte: the final fields and the outcome of each call, in order. */
  function Run(f: ParserFields, bytes: seq<bv8>): (r: (ParserFields, seq<ParseResult>))
    requires Inv(f)
    ensures Inv(r.0) && |r.1| == |bytes|
    decreases |bytes|
  {
    if bytes == [] then (f, [])
    else
      StepKeepsInv(f, bytes[0]);
      var s := Step(f, bytes[0]);
      var rest := Run(s.0, bytes[1..]);
      (rest.0, [s.1] + rest.1)
  }

  /** No call produced a packet or an error. */
  predicate AllPending(outs: seq<ParseResult>)
  {
    forall i | 0 <= i < |outs| :: outs[i] == Ok(None)
  }

  /** Feeding `a` and then `b` ends where feeding `a + b` ends. */
  lemma {:induction false} RunAppendState(f: ParserFields, a: seq<bv8>, b: seq<bv8>)
    requires Inv(f)
    ensures Run(f, a + b).0 == Run(Run(f, a).0, b).0
    decreases |a|
  {
    if a == [] {
      assert a + b == b;
    } else {
      StepKeepsInv(f, a[0]);
      assert (a + b)[0] == a[0];
      assert (a + b)[1..] == a[1..] + b;
      RunAppendState(Step(f, a[0]).0, a[1..], b);
    }
  }

  /** Feeding `a` and then `b` yields the outcomes of feeding `a + b`. */
  lemma {:induction false} RunAppendOutcomes(f: ParserFields, a: seq<bv8>, b: seq<bv8>)
    requires Inv(f)
    ensures Run(f, a + b).1 == Run(f, a).1 + Run(Run(f, a).0, b).1
    decreases |a|
  {
    if a == [] {
      assert a + b == b;
    } else {
      StepKeepsInv(f, a[0]);
      var s := Step(f, a[0]);
      assert (a + b)[0] == a[0];
      assert (a + b)[1..] == a[1..] + b;
      RunAppendOutcomes(s.0, a[1..], b);
      ConsAssoc(s.1, Run(s.0, a[1..]).1, Run(Run(s.0, a[1..]).0, b).1);
    }
  }

  /** Regrouping a concatenation that starts with one element. */
  lemma ConsAssoc<T>(h: T, x: seq<T>, y: seq<T>)
    ensures [h] + (x + y) == ([h] + x) + y
  {
  }

  /** Feeding `a` and then `b` is feeding `a + b`. */
  lemma RunAppend(f: ParserFields, a: seq<bv8>, b: seq<bv8>)
    requires Inv(f)
    ensures Run(f, a + b).0 == Run(Run(f, a).0, b).0
    ensures Run(f, a + b).1 == Run(f, a).1 + Run(Run(f, a).0, b).1
  {
    RunAppendState(f, a, b);
    RunAppendOutcomes(f, a, b);
  }

  /** Feeding `bytes` from `f` ends in `g` without any packet or error. */
  predicate QuietRun(f: ParserFields, bytes: seq<bv8>, g: ParserFields)
  {
    Inv(f) && Run(f, bytes).0 == g && AllPending(Run(f, bytes).1)
  }

  /** Two quiet runs in a row make one. */
  lemma QuietRunAppend(f: ParserFields, a: seq<bv8>, g: ParserFields, b: seq<bv8>, h: ParserFields)
    requires QuietRun(f, a, g) && QuietRun(g, b, h)
    ensures QuietRun(f, a + b, h)
  {
    RunAppend(f, a, b);
  }

  /** One byte whose outcome is `Ok(None)` is a quiet run. */
  lemma QuietStep(f: ParserFields, x: bv8)
    requires Inv(f) && Step(f, x).1 == Ok(None)
    ensures QuietRun(f, [x], Step(f, x).0)
  {
    assert [x][1..] == [];
  }

  /** Between frames, bytes other than '$' are skipped: each returns
      `Ok(None)` and the parser stays where it was, between packets. */
  lemma {:induction false} NoiseIsSkipped(f: ParserFields, noise: seq<bv8>)
    requires Inv(f) && f.state == Header1
    requires forall i | 0 <= i < |noise| :: noise[i] != Sync
    ensures QuietRun(f, noise, f)
    decreases |noise|
  {
    if noise != [] {
      assert Step(f, noise[0]) == (f, Ok(None));
      QuietStep(f, noise[0]);
      NoiseIsSkipped(f, noise[1..]);
      assert noise == [noise[0]] + noise[1..];
      QuietRunAppend(f, [noise[0]], f, noise[1..], f);
    }
  }

  /** The fields once the V1 payload `rest` is in: checksum awaited. */
  function PayloadDoneV1(g: ParserFields, rest: seq<bv8>): ParserFields
  {
    g.(state := Crc, remaining := 0, data := g.data + rest, crc := g.crc ^ Xor(rest))
  }

  /** The last V1 payload byte: the checksum is awaited next. */
  lemma PayloadLastV1(g: ParserFields, x: bv8)
    requires Inv(g) && g.state == Data && g.remaining == 1
    ensures QuietRun(g, [x], PayloadDoneV1(g, [x]))
  {
    QuietStep(g, x);
    XorCons(g.crc, x, []);
  }

  /** Finishing the payload after one more byte is finishing it from before
      that byte. */
  lemma PayloadDoneConsV1(g: ParserFields, x: bv8, tail: seq<bv8>)
    requires g.state == Data && 1 <= g.remaining
    ensures PayloadDoneV1(StepData(g, x).0, tail) == PayloadDoneV1(g, [x] + tail)
  {
    XorCons(g.crc, x, tail);
    assert StepData(g, x).0.data + tail == g.data + ([x] + tail);
  }

  /** One V1 payload byte, followed by the rest of the payload. */
  lemma PayloadConsV1(g: ParserFields, x: bv8, tail: seq<bv8>)
    requires Inv(g) && g.state == Data
    requires QuietRun(StepData(g, x).0, tail, PayloadDoneV1(StepData(g, x).0, tail))
    ensures QuietRun(g, [x] + tail, PayloadDoneV1(g, [x] + tail))
  {
    QuietStep(g, x);
    PayloadDoneConsV1(g, x, tail);
    QuietRunAppend(g, [x], StepData(g, x).0, tail, PayloadDoneV1(g, [x] + tail));
  }

  /** The V1 payload phase: while bytes are awaited, each is appended to the
      payload and folded into the checksum, and `|data| + remaining` stays
      the declared length; after the last one the parser awaits the
      checksum. */
  lemma {:induction false} PayloadV1(g: ParserFields, rest: seq<bv8>)
    requires Inv(g) && g.state == Data && g.remaining == |rest|
    ensures QuietRun(g, rest, PayloadDoneV1(g, rest))
    decreases |rest|
  {
    var x, tail := rest[0], rest[1..];
    assert rest == [x] + tail;
    if tail != [] {
      StepKeepsInv(g, x);
      PayloadV1(StepData(g, x).0, tail);
      PayloadConsV1(g, x, tail);
    } else {
      PayloadLastV1(g, x);
    }
  }

  /** Folding one more byte into a checksum. */
  lemma XorCons(crc: bv8, x: bv8, tail: seq<bv8>)
    ensures XorByte(crc, x) ^ Xor(tail) == crc ^ Xor([x] + tail)
  {
    assert ([x] + tail)[1..] == tail;
  }

  /** The fields once the V2 payload `rest` is in: checksum awaited. */
  function PayloadDoneV2(g: ParserFields, rest: seq<bv8>): ParserFields
  {
    g.(state := Crc, remaining := 0, data := g.data + rest)
  }

  /** The last V2 payload byte: the checksum is awaited next. */
  lemma PayloadLastV2(g: ParserFields, x: bv8)
    requires Inv(g) && g.state == DataV2 && g.remaining == 1
    ensures QuietRun(g, [x], PayloadDoneV2(g, [x]))
  {
    QuietStep(g, x);
  }

  /** One V2 payload byte, followed by the rest of the payload. */
  lemma PayloadConsV2(g: ParserFields, x: bv8, tail: seq<bv8>)
    requires Inv(g) && g.state == DataV2
    requires QuietRun(StepDataV2(g, x).0, tail, PayloadDoneV2(StepDataV2(g, x).0, tail))
    ensures QuietRun(g, [x] + tail, PayloadDoneV2(g, [x] + tail))
  {
    QuietStep(g, x);
    assert StepDataV2(g, x).0.data + tail == g.data + ([x] + tail);
    QuietRunAppend(g, [x], StepDataV2(g, x).0, tail, PayloadDoneV2(g, [x] + tail));
  }

  /** The V2 payload phase: as in V1, but the payload digest is deferred to
      the checksum byte. */
  lemma {:induction false} PayloadV2(g: ParserFields, rest: seq<bv8>)
    requires Inv(g) && g.state == DataV2 && g.remaining == |rest|
    ensures QuietRun(g, rest, PayloadDoneV2(g, rest))
    decreases |rest|
  {
    var x, tail := rest[0], rest[1..];
    assert rest == [x] + tail;
    if tail != [] {
      StepKeepsInv(g, x);
      PayloadV2(StepDataV2(g, x).0, tail);
      PayloadConsV2(g, x, tail);
    } else {
      PayloadLastV2(g, x);
    }
  }

  /** One more byte whose outcome is `Ok(None)` extends a quiet run. */
  lemma QuietSnoc(f: ParserFields, a: seq<bv8>, g: ParserFields, x: bv8)
    requires QuietRun(f, a, g) && Step(g, x).1 == Ok(None)
    ensures QuietRun(f, a + [x], Step(g, x).0)
  {
    QuietStep(g, x);
    QuietRunAppend(f, a, g, [x], Step(g, x).0);
  }

  /** Every direction byte the serializer writes is decoded back to its
      direction. */
  lemma DirectionRoundTrip(d: MspPacketDirection)
    ensures DirectionFromByte(d.ToByte()) == Some(d)
  {
    ToByteInjective(d, DirectionFromByte(d.ToByte()).value);
  }

  /** The fields once a V1 header has been read: direction, command and
      length taken from it, the checksum seeded with the length and command
      bytes, and the payload (if any) awaited. */
  function HeaderDoneV1(d: MspPacketDirection, len: bv8, cmd: bv8): ParserFields
  {
    ParserFields(if len == 0 then Crc else Data, V1, d, cmd as u16, len as nat, [], len ^ cmd, CrcInit)
  }

  /** `$ M <dir>`: the revision and the direction. */
  lemma HeaderStartV1(v: MspVersion, d: MspPacketDirection)
    ensures QuietRun(ResetFields(v), [Sync, VersionTagV1, d.ToByte()],
                     ParserFields(DataLength, V1, d, 0, 0, [], 0, CrcInit))
  {
    var f0 := ResetFields(v);
    QuietStep(f0, Sync);
    var f1 := Step(f0, Sync).0;
    QuietSnoc(f0, [Sync], f1, VersionTagV1);
    assert [Sync] + [VersionTagV1] == [Sync, VersionTagV1];
    var f2 := Step(f1, VersionTagV1).0;
    DirectionRoundTrip(d);
    QuietSnoc(f0, [Sync, VersionTagV1], f2, d.ToByte());
    assert [Sync, VersionTagV1] + [d.ToByte()] == [Sync, VersionTagV1, d.ToByte()];
  }

  /** The two transitions of `HeaderRestV1`, one byte each. */
  lemma HeaderRestStepsV1(d: MspPacketDirection, len: bv8, cmd: bv8)
    ensures var f0 := ParserFields(DataLength, V1, d, 0, 0, [], 0, CrcInit);
            var f1 := ParserFields(Command, V1, d, 0, len as nat, [], len, CrcInit);
            && Inv(f0) && Step(f0, len) == (f1, Ok(None))
            && Step(f1, cmd) == (HeaderDoneV1(d, len, cmd), Ok(None))
  {
  }

  /** The length and command bytes of a V1 header. */
  lemma HeaderRestV1(d: MspPacketDirection, len: bv8, cmd: bv8)
    ensures QuietRun(ParserFields(DataLength, V1, d, 0, 0, [], 0, CrcInit), [len, cmd], HeaderDoneV1(d, len, cmd))
  {
    var f0 := ParserFields(DataLength, V1, d, 0, 0, [], 0, CrcInit);
    var f1 := ParserFields(Command, V1, d, 0, len as nat, [], len, CrcInit);
    HeaderRestStepsV1(d, len, cmd);
    QuietStep(f0, len);
    QuietSnoc(f0, [len], f1, cmd);
    assert [len] + [cmd] == [len, cmd];
  }

  /** A V1 header `$ M <dir> <len> <cmd>` read from between packets is
      quiet and ends in `HeaderDoneV1`, whatever revision was current. */
  lemma HeaderV1(v: MspVersion, d: MspPacketDirection, len: bv8, cmd: bv8)
    ensures QuietRun(ResetFields(v), [Sync, VersionTagV1, d.ToByte()] + [len, cmd], HeaderDoneV1(d, len, cmd))
  {
    HeaderStartV1(v, d);
    HeaderRestV1(d, len, cmd);
    QuietRunAppend(ResetFields(v), [Sync, VersionTagV1, d.ToByte()], ParserFields(DataLength, V1, d, 0, 0, [], 0, CrcInit),
                   [len, cmd], HeaderDoneV1(d, len, cmd));
  }

  /** The fields once a V2 header has been read: direction, little-endian
      command and length taken from it, the flag, command and length bytes
      digested, and the payload (if any) awaited. */
  function HeaderDoneV2(d: MspPacketDirection, flag: bv8, c0: bv8, c1: bv8, l0: bv8, l1: bv8): ParserFields
  {
    ParserFields(if LeLength(l0, l1) == 0 then Crc else DataV2, V2, d, FromLeBytes(c0, c1),
                 LeLength(l0, l1), [], 0, Digest(CrcInit, [flag] + [c0, c1] + [l0, l1]))
  }

  /** The four transitions of `HeaderStartV2`, one byte each. */
  lemma HeaderStartStepsV2(v: MspVersion, d: MspPacketDirection, flag: bv8)
    ensures var f1 := ParserFields(Header2, v, ToFlightController, 0, 0, [], 0, CrcInit);
            var f2 := ParserFields(Direction, V2, ToFlightController, 0, 0, [], 0, CrcInit);
            var f3 := ParserFields(FlagV2, V2, d, 0, 0, [], 0, CrcInit);
            && Inv(ResetFields(v)) && Step(ResetFields(v), Sync) == (f1, Ok(None))
            && Step(f1, VersionTagV2) == (f2, Ok(None)) && Step(f2, d.ToByte()) == (f3, Ok(None))
            && Step(f3, flag) == (ParserFields(CommandV2, V2, d, 0, 0, [], 0, Digest(CrcInit, [flag])), Ok(None))
  {
    DirectionRoundTrip(d);
  }

  /** `$ X <dir> <flag>`: the revision, direction and flag. */
  lemma HeaderStartV2(v: MspVersion, d: MspPacketDirection, flag: bv8)
    ensures QuietRun(ResetFields(v), [Sync, VersionTagV2, d.ToByte(), flag],
                     ParserFields(CommandV2, V2, d, 0, 0, [], 0, Digest(CrcInit, [flag])))
  {
    var f0 := ResetFields(v);
    var f1 := ParserFields(Header2, v, ToFlightController, 0, 0, [], 0, CrcInit);
    var f2 := ParserFields(Direction, V2, ToFlightController, 0, 0, [], 0, CrcInit);
    var f3 := ParserFields(FlagV2, V2, d, 0, 0, [], 0, CrcInit);
    HeaderStartStepsV2(v, d, flag);
    QuietStep(f0, Sync);
    QuietSnoc(f0, [Sync], f1, VersionTagV2);
    assert [Sync] + [VersionTagV2] == [Sync, VersionTagV2];
    QuietSnoc(f0, [Sync, VersionTagV2], f2, d.ToByte());
    assert [Sync, VersionTagV2] + [d.ToByte()] == [Sync, VersionTagV2, d.ToByte()];
    QuietSnoc(f0, [Sync, VersionTagV2, d.ToByte()], f3, flag);
    assert [Sync, VersionTagV2, d.ToByte()] + [flag] == [Sync, VersionTagV2, d.ToByte(), flag];
  }

  /** The two command bytes of a V2 header: the little-endian command is
      taken and digested. */
  lemma CommandBytesV2(f: ParserFields, c0: bv8, c1: bv8)
    requires Inv(f) && f.state == CommandV2 && f.data == []
    ensures QuietRun(f, [c0, c1],
                     f.(state := DataLengthV2, cmd := FromLeBytes(c0, c1), crcV2 := Digest(f.crcV2, [c0, c1])))
  {
    QuietStep(f, c0);
    var f1 := Step(f, c0).0;
    QuietSnoc(f, [c0], f1, c1);
    assert [c0] + [c1] == [c0, c1];
  }

  /** The two length bytes of a V2 header: the little-endian length is
      taken and digested, and the payload (if any) is awaited. */
  lemma LengthBytesV2(f: ParserFields, l0: bv8, l1: bv8)
    requires Inv(f) && f.state == DataLengthV2 && f.data == []
    ensures QuietRun(f, [l0, l1],
                     f.(state := if LeLength(l0, l1) == 0 then Crc else DataV2, remaining := LeLength(l0, l1),
                        crcV2 := Digest(f.crcV2, [l0, l1])))
  {
    QuietStep(f, l0);
    var f1 := Step(f, l0).0;
    QuietSnoc(f, [l0], f1, l1);
    assert [l0] + [l1] == [l0, l1];
  }

  /** The two command bytes and the two length bytes of a V2 header. */
  lemma HeaderRestV2(d: MspPacketDirection, crc: bv8, c0: bv8, c1: bv8, l0: bv8, l1: bv8)
    ensures QuietRun(ParserFields(CommandV2, V2, d, 0, 0, [], 0, crc), [c0, c1] + [l0, l1],
                     ParserFields(if LeLength(l0, l1) == 0 then Crc else DataV2, V2, d, FromLeBytes(c0, c1),
                                  LeLength(l0, l1), [], 0, Digest(Digest(crc, [c0, c1]), [l0, l1])))
  {
    var f0 := ParserFields(CommandV2, V2, d, 0, 0, [], 0, crc);
    CommandBytesV2(f0, c0, c1);
    var f2 := ParserFields(DataLengthV2, V2, d, FromLeBytes(c0, c1), 0, [], 0, Digest(crc, [c0, c1]));
    LengthBytesV2(f2, l0, l1);
    QuietRunAppend(f0, [c0, c1], f2, [l0, l1],
                   ParserFields(if LeLength(l0, l1) == 0 then Crc else DataV2, V2, d, FromLeBytes(c0, c1),
                                LeLength(l0, l1), [], 0, Digest(Digest(crc, [c0, c1]), [l0, l1])));
  }

  /** Digesting three chunks one after another is digesting them at once. */
  lemma DigestThree(crc: bv8, a: seq<bv8>, b: seq<bv8>, c: seq<bv8>)
    ensures Digest(Digest(Digest(crc, a), b), c) == Digest(crc, a + b + c)
  {
    DigestAppend(crc, a, b);
    DigestAppend(crc, a + b, c);
  }

  /** A V2 header `$ X <dir> <flag> <cmd lo> <cmd hi> <len lo> <len hi>`
      read from between packets is quiet and ends in `HeaderDoneV2`,
      whatever revision was current. */
  lemma HeaderV2(v: MspVersion, d: MspPacketDirection, flag: bv8, c0: bv8, c1: bv8, l0: bv8, l1: bv8)
    ensures QuietRun(ResetFields(v), [Sync, VersionTagV2, d.ToByte(), flag] + ([c0, c1] + [l0, l1]),
                     HeaderDoneV2(d, flag, c0, c1, l0, l1))
  {
    var crc := Digest(CrcInit, [flag]);
    HeaderStartV2(v, d, flag);
    HeaderRestV2(d, crc, c0, c1, l0, l1);
    DigestThree(CrcInit, [flag], [c0, c1], [l0, l1]);
    QuietRunAppend(ResetFields(v), [Sync, VersionTagV2, d.ToByte(), flag],
                   ParserFields(CommandV2, V2, d, 0, 0, [], 0, crc), [c0, c1] + [l0, l1],
                   HeaderDoneV2(d, flag, c0, c1, l0, l1));
  }

  /** What the checksum byte `b` yields when the parser has collected
      packet `p` and computed the checksum `calculated`. */
  function ChecksumOutcome(p: MspPacket, calculated: bv8, b: bv8): ParseResult
  {
    if b == calculated then Ok(Some(p)) else Err(CrcMismatch(b, calculated))
  }

  /** The checksum byte: the parser resets (keeping the revision) and
      emits the packet collected exactly when the byte matches. */
  lemma ChecksumByte(g: ParserFields, b: bv8)
    requires Inv(g) && g.state == Crc
    ensures Step(g, b) == (ResetFields(g.version), ChecksumOutcome(MspPacket(g.cmd, g.direction, g.data), Calculated(g), b))
  {
  }

  /** The last byte of a run that ends a quiet prefix. */
  lemma QuietThenLast(f: ParserFields, a: seq<bv8>, g: ParserFields, b: bv8)
    requires QuietRun(f, a, g)
    ensures Run(f, a + [b]).0 == Step(g, b).0
    ensures AllPending(Run(f, a + [b]).1[..|a|])
    ensures Run(f, a + [b]).1[|a|] == Step(g, b).1
  {
    RunAppend(f, a, [b]);
    assert [b][1..] == [];
    assert Run(f, a + [b]).1[..|a|] == Run(f, a).1;
  }

  /** The fields of a V1 frame awaiting its checksum byte. */
  function ChecksumDueV1(d: MspPacketDirection, len: bv8, cmd: bv8, data: seq<bv8>): ParserFields
  {
    ParserFields(Crc, V1, d, cmd as u16, 0, data, len ^ cmd ^ Xor(data), CrcInit)
  }

  /** With no payload, the header alone leads to the checksum byte. */
  lemma HeaderDoneEmptyV1(d: MspPacketDirection, cmd: bv8)
    ensures HeaderDoneV1(d, 0, cmd) == ChecksumDueV1(d, 0, cmd, [])
  {
  }

  /** With a payload, reading it after the header leads to the checksum
      byte. */
  lemma PayloadDoneHeaderV1(d: MspPacketDirection, len: bv8, cmd: bv8, data: seq<bv8>)
    requires len != 0
    ensures PayloadDoneV1(HeaderDoneV1(d, len, cmd), data) == ChecksumDueV1(d, len, cmd, data)
  {
    assert [] + data == data;
  }

  /** A V1 frame up to its checksum byte: the parser awaits the checksum,
      holding the direction, command and payload, with the exclusive-or of
      the length, command and payload bytes. */
  lemma UpToChecksumV1(v: MspVersion, d: MspPacketDirection, len: bv8, cmd: bv8, data: seq<bv8>)
    requires |data| == len as nat
    ensures QuietRun(ResetFields(v), [Sync, VersionTagV1, d.ToByte(), len, cmd] + data, ChecksumDueV1(d, len, cmd, data))
  {
    var header := [Sync, VersionTagV1, d.ToByte(), len, cmd];
    HeaderV1(v, d, len, cmd);
    assert [Sync, VersionTagV1, d.ToByte()] + [len, cmd] == header;
    var g := HeaderDoneV1(d, len, cmd);
    if data == [] {
      assert len == 0;
      assert header + data == header;
      HeaderDoneEmptyV1(d, cmd);
    } else {
      assert g.state == Data && g.remaining == |data|;
      PayloadV1(g, data);
      PayloadDoneHeaderV1(d, len, cmd, data);
      QuietRunAppend(ResetFields(v), header, g, data, ChecksumDueV1(d, len, cmd, data));
    }
  }

  /** A whole V1 frame with checksum byte `b`, read from between packets:
      every byte before `b` is pending; `b` yields the packet exactly when
      it is the exclusive-or of length, command and payload, and a
      `CrcMismatch` otherwise; the parser ends reset, in revision V1. */
  lemma FrameV1(v: MspVersion, d: MspPacketDirection, len: bv8, cmd: bv8, data: seq<bv8>, b: bv8)
    requires |data| == len as nat
    ensures var bytes := [Sync, VersionTagV1, d.ToByte(), len, cmd] + data;
            var r := Run(ResetFields(v), bytes + [b]);
            && r.0 == ResetFields(V1)
            && AllPending(r.1[..|bytes|])
            && r.1[|bytes|] == ChecksumOutcome(MspPacket(cmd as u16, d, data), len ^ cmd ^ Xor(data), b)
  {
    var bytes := [Sync, VersionTagV1, d.ToByte(), len, cmd] + data;
    var g := ChecksumDueV1(d, len, cmd, data);
    UpToChecksumV1(v, d, len, cmd, data);
    QuietThenLast(ResetFields(v), bytes, g, b);
    ChecksumByte(g, b);
  }

  /** The fields of a V2 frame awaiting its checksum byte. */
  function ChecksumDueV2(d: MspPacketDirection, flag: bv8, c0: bv8, c1: bv8, l0: bv8, l1: bv8, data: seq<bv8>): ParserFields
  {
    ParserFields(Crc, V2, d, FromLeBytes(c0, c1), 0, data, 0, Digest(CrcInit, [flag] + [c0, c1] + [l0, l1]))
  }

  /** With no payload, the header alone leads to the checksum byte. */
  lemma HeaderDoneEmptyV2(d: MspPacketDirection, flag: bv8, c0: bv8, c1: bv8, l0: bv8, l1: bv8)
    requires LeLength(l0, l1) == 0
    ensures HeaderDoneV2(d, flag, c0, c1, l0, l1) == ChecksumDueV2(d, flag, c0, c1, l0, l1, [])
  {
  }

  /** With a payload, reading it after the header leads to the checksum
      byte. */
  lemma PayloadDoneHeaderV2(d: MspPacketDirection, flag: bv8, c0: bv8, c1: bv8, l0: bv8, l1: bv8, data: seq<bv8>)
    ensures PayloadDoneV2(HeaderDoneV2(d, flag, c0, c1, l0, l1), data) == ChecksumDueV2(d, flag, c0, c1, l0, l1, data)
  {
    assert [] + data == data;
  }

  /** A V2 frame up to its checksum byte: the parser awaits the checksum,
      holding the direction, command and payload, with the flag, command
      and length bytes digested and the payload still to digest. */
  lemma UpToChecksumV2(v: MspVersion, d: MspPacketDirection, flag: bv8, c0: bv8, c1: bv8, l0: bv8, l1: bv8, data: seq<bv8>)
    requires |data| == LeLength(l0, l1)
    ensures QuietRun(ResetFields(v), [Sync, VersionTagV2, d.ToByte(), flag] + ([c0, c1] + [l0, l1]) + data,
                     ChecksumDueV2(d, flag, c0, c1, l0, l1, data))
  {
    var header := [Sync, VersionTagV2, d.ToByte(), flag] + ([c0, c1] + [l0, l1]);
    HeaderV2(v, d, flag, c0, c1, l0, l1);
    var g := HeaderDoneV2(d, flag, c0, c1, l0, l1);
    if data == [] {
      assert header + data == header;
      HeaderDoneEmptyV2(d, flag, c0, c1, l0, l1);
    } else {
      assert g.state == DataV2 && g.remaining == |data|;
      PayloadV2(g, data);
      PayloadDoneHeaderV2(d, flag, c0, c1, l0, l1, data);
      QuietRunAppend(ResetFields(v), header, g, data, ChecksumDueV2(d, flag, c0, c1, l0, l1, data));
    }
  }

  /** The checksum a V2 frame is checked against: the CRC-8/DVB-S2 of the
      flag, command, length and payload bytes, in frame order. */
  lemma CalculatedV2(d: MspPacketDirection, flag: bv8, c0: bv8, c1: bv8, l0: bv8, l1: bv8, data: seq<bv8>)
    ensures Calculated(ChecksumDueV2(d, flag, c0, c1, l0, l1, data)) == Crc8([flag, c0, c1, l0, l1] + data)
  {
    var header := [flag] + [c0, c1] + [l0, l1];
    assert header == [flag, c0, c1, l0, l1];
    DigestAppend(CrcInit, header, data);
  }

  /** A whole V2 frame with checksum byte `b`, read from between packets:
      every byte before `b` is pending; `b` yields the packet exactly when
      it is the CRC-8/DVB-S2 of flag, command, length and payload, and a
      `CrcMismatch` otherwise; the parser ends reset, in revision V2. */
  lemma FrameV2(v: MspVersion, d: MspPacketDirection, flag: bv8, c0: bv8, c1: bv8, l0: bv8, l1: bv8, data: seq<bv8>, b: bv8)
    requires |data| == LeLength(l0, l1)
    ensures var bytes := [Sync, VersionTagV2, d.ToByte(), flag] + ([c0, c1] + [l0, l1]) + data;
            var r := Run(ResetFields(v), bytes + [b]);
            && r.0 == ResetFields(V2)
            && AllPending(r.1[..|bytes|])
            && r.1[|bytes|] == ChecksumOutcome(MspPacket(FromLeBytes(c0, c1), d, data), Crc8([flag, c0, c1, l0, l1] + data), b)
  {
    var bytes := [Sync, VersionTagV2, d.ToByte(), flag] + ([c0, c1] + [l0, l1]) + data;
    var g := ChecksumDueV2(d, flag, c0, c1, l0, l1, data);
    UpToChecksumV2(v, d, flag, c0, c1, l0, l1, data);
    QuietThenLast(ResetFields(v), bytes, g, b);
    ChecksumByte(g, b);
    CalculatedV2(d, flag, c0, c1, l0, l1, data);
  }

  /** A V1 frame is its header, its payload and its checksum byte. */
  lemma V1FrameSplit(dir: bv8, len: bv8, cmd: bv8, data: seq<bv8>)
    ensures V1Frame(dir, len, cmd, data) == [Sync, VersionTagV1, dir, len, cmd] + data + [len ^ cmd ^ Xor(data)]
  {
    var head := [Sync, VersionTagV1, dir];
    assert head + ([len, cmd] + data) == head + [len, cmd] + data;
    assert head + [len, cmd] == [Sync, VersionTagV1, dir, len, cmd];
  }

  /** A V2 frame is its header, its payload and its checksum byte. */
  lemma V2FrameSplit(dir: bv8, c0: bv8, c1: bv8, l0: bv8, l1: bv8, data: seq<bv8>)
    ensures V2Frame(dir, c0, c1, l0, l1, data)
         == [Sync, VersionTagV2, dir, 0] + ([c0, c1] + [l0, l1]) + data + [Crc8([0, c0, c1, l0, l1] + data)]
  {
    var head := [Sync, VersionTagV2, dir];
    var body := [0, c0, c1, l0, l1] + data;
    assert head + body == head + [0, c0, c1, l0, l1] + data;
    assert head + [0, c0, c1, l0, l1] == [Sync, VersionTagV2, dir, 0] + ([c0, c1] + [l0, l1]);
  }

  /** Parsing a V1 frame as the serializer lays it out: pending up to the
      checksum byte, which yields the packet. */
  lemma V1FrameParses(v: MspVersion, d: MspPacketDirection, len: bv8, cmd: bv8, data: seq<bv8>)
    requires |data| == len as nat
    ensures var e := V1Frame(d.ToByte(), len, cmd, data);
            var r := Run(ResetFields(v), e);
            && r.0 == ResetFields(V1)
            && AllPending(r.1[..|e| - 1])
            && r.1[|e| - 1] == Ok(Some(MspPacket(cmd as u16, d, data)))
  {
    var b := len ^ cmd ^ Xor(data);
    V1FrameSplit(d.ToByte(), len, cmd, data);
    FrameV1(v, d, len, cmd, data, b);
  }

  /** The round trip through V1 (the `serialize` test): parsing the V1
      frame of a packet whose payload fits the length byte yields, at its
      last byte, that packet with its command cut to the low byte, with
      every earlier byte pending and the parser reset afterwards. */
  lemma RoundTripV1(v: MspVersion, p: MspPacket)
    requires |p.data| < 0x100
    ensures var e := p.EncodeV1();
            var r := Run(ResetFields(v), e);
            && r.0 == ResetFields(V1)
            && AllPending(r.1[..|e| - 1])
            && r.1[|e| - 1] == Ok(Some(p.(cmd := LowByte(p.cmd) as u16)))
  {
    LenAsU8Exact(|p.data|);
    V1FrameParses(v, p.direction, LenAsU8(|p.data|), LowByte(p.cmd), p.data);
  }

  /** A command that fits one byte survives the V1 round trip unchanged. */
  lemma LowByteExact(x: u16)
    requires x <= 0xFF
    ensures LowByte(x) as u16 == x
  {
  }

  /** The V1 round trip of the `roundtrip` test: a packet whose command and
      payload length fit one byte comes back as itself. */
  lemma RoundTripV1Exact(v: MspVersion, p: MspPacket)
    requires p.cmd <= 0xFF && |p.data| < 0x100
    ensures var e := p.EncodeV1();
            Run(ResetFields(v), e).1[|e| - 1] == Ok(Some(p))
  {
    RoundTripV1(v, p);
    LowByteExact(p.cmd);
  }

  /** The round trip through V2: parsing the V2 frame of a packet whose
      payload fits the 16-bit length yields, at its last byte, the packet
      itself (the command is carried whole), with every earlier byte
      pending and the parser reset afterwards. */
  lemma RoundTripV2(v: MspVersion, p: MspPacket)
    requires |p.data| < 0x1_0000
    ensures var e := p.EncodeV2();
            var r := Run(ResetFields(v), e);
            && r.0 == ResetFields(V2)
            && AllPending(r.1[..|e| - 1])
            && r.1[|e| - 1] == Ok(Some(p))
  {
    var c, l := ToLeBytes(p.cmd), LenToLeBytes(|p.data|);
    LeBytesInverse(p.cmd);
    LenLeBytesExact(|p.data|);
    V2FrameSplit(p.direction.ToByte(), c[0], c[1], l[0], l[1], p.data);
    FrameV2(v, p.direction, 0, c[0], c[1], l[0], l[1], p.data, Crc8([0, c[0], c[1], l[0], l[1]] + p.data));
  }

  /** A V1 frame as the serializer lays it out, with its checksum byte
      replaced by any other byte `b`: rejected at that byte. */
  lemma V1FrameCorrupt(v: MspVersion, d: MspPacketDirection, len: bv8, cmd: bv8, data: seq<bv8>, b: bv8)
    requires |data| == len as nat
    requires b != V1Frame(d.ToByte(), len, cmd, data)[5 + |data|]
    ensures var e := V1Frame(d.ToByte(), len, cmd, data);
            var r := Run(ResetFields(v), e[..|e| - 1] + [b]);
            && r.0 == ResetFields(V1)
            && r.1[|e| - 1] == Err(CrcMismatch(b, e[|e| - 1]))
  {
    var e := V1Frame(d.ToByte(), len, cmd, data);
    V1FrameSplit(d.ToByte(), len, cmd, data);
    assert e[..|e| - 1] == [Sync, VersionTagV1, d.ToByte(), len, cmd] + data;
    FrameV1(v, d, len, cmd, data, b);
  }

  /** A V1 frame whose checksum byte is replaced by any other byte `b` is
      rejected at that byte, with `b` reported as `expected` and the true
      checksum as `calculated`; the parser is then reset, in V1. */
  lemma CorruptChecksumV1(v: MspVersion, p: MspPacket, b: bv8)
    requires |p.data| < 0x100
    requires b != p.EncodeV1()[|p.EncodeV1()| - 1]
    ensures var e := p.EncodeV1();
            var r := Run(ResetFields(v), e[..|e| - 1] + [b]);
            && r.0 == ResetFields(V1)
            && r.1[|e| - 1] == Err(CrcMismatch(b, e[|e| - 1]))
  {
    LenAsU8Exact(|p.data|);
    V1FrameCorrupt(v, p.direction, LenAsU8(|p.data|), LowByte(p.cmd), p.data, b);
  }

  /** A V2 frame whose checksum byte is replaced by any other byte `b` is
      rejected at that byte, with `b` reported as `expected` and the true
      CRC as `calculated`; the parser is then reset, in V2. */
  lemma CorruptChecksumV2(v: MspVersion, p: MspPacket, b: bv8)
    requires |p.data| < 0x1_0000
    requires b != p.EncodeV2()[|p.EncodeV2()| - 1]
    ensures var e := p.EncodeV2();
            var r := Run(ResetFields(v), e[..|e| - 1] + [b]);
            && r.0 == ResetFields(V2)
            && r.1[|e| - 1] == Err(CrcMismatch(b, e[|e| - 1]))
  {
    var c, l := ToLeBytes(p.cmd), LenToLeBytes(|p.data|);
    var e := p.EncodeV2();
    LenLeBytesExact(|p.data|);
    V2FrameSplit(p.direction.ToByte(), c[0], c[1], l[0], l[1], p.data);
    assert e[..|e| - 1] == [Sync, VersionTagV2, p.direction.ToByte(), 0] + ([c[0], c[1]] + [l[0], l[1]]) + p.data;
    FrameV2(v, p.direction, 0, c[0], c[1], l[0], l[1], p.data, b);
  }

  /** A rejected frame leaves nothing behind: after a V1 frame whose
      checksum byte was corrupted, the next well-formed V1 frame still
      yields its packet at its last byte. */
  lemma RecoverAfterCorruptV1(v: MspVersion, p: MspPacket, b: bv8, q: MspPacket)
    requires |p.data| < 0x100
    requires b != p.EncodeV1()[|p.EncodeV1()| - 1]
    requires q.cmd <= 0xFF && |q.data| < 0x100
    ensures var bad := p.EncodeV1()[..|p.EncodeV1()| - 1] + [b];
            var good := q.EncodeV1();
            Run(ResetFields(v), bad + good).1[|bad| + |good| - 1] == Ok(Some(q))
  {
    var f := ResetFields(v);
    var bad := p.EncodeV1()[..|p.EncodeV1()| - 1] + [b];
    var good := q.EncodeV1();
    CorruptChecksumV1(v, p, b);
    RunAppend(f, bad, good);
    RoundTripV1Exact(V1, q);
  }

  /** Noise before a stream does not change what the stream yields: the
      noise bytes are pending, and the rest of the outcomes and the final
      fields are those of the stream alone. */
  lemma NoiseThenStream(v: MspVersion, noise: seq<bv8>, bytes: seq<bv8>)
    requires forall i | 0 <= i < |noise| :: noise[i] != Sync
    ensures var r := Run(ResetFields(v), noise + bytes);
            && AllPending(r.1[..|noise|])
            && r.1[|noise|..] == Run(ResetFields(v), bytes).1
            && r.0 == Run(ResetFields(v), bytes).0
  {
    var f := ResetFields(v);
    NoiseIsSkipped(f, noise);
    RunAppend(f, noise, bytes);
    var r := Run(f, noise + bytes);
    assert r.1[..|noise|] == Run(f, noise).1;
  }

  /** The parser resynchronises: a V1 frame preceded by bytes other than
      '$' is still parsed into its packet at its last byte. */
  lemma ResyncV1(v: MspVersion, noise: seq<bv8>, p: MspPacket)
    requires forall i | 0 <= i < |noise| :: noise[i] != Sync
    requires p.cmd <= 0xFF && |p.data| < 0x100
    ensures var e := p.EncodeV1();
            Run(ResetFields(v), noise + e).1[|noise| + |e| - 1] == Ok(Some(p))
  {
    var e := p.EncodeV1();
    NoiseThenStream(v, noise, e);
    RoundTripV1Exact(v, p);
    var r := Run(ResetFields(v), noise + e);
    assert r.1[|noise|..][|e| - 1] == r.1[|noise| + |e| - 1];
  }

  /** Feeding one more byte: the last outcome is that byte's `Step`. */
  lemma RunSnoc(f: ParserFields, a: seq<bv8>, x: bv8)
    requires Inv(f)
    ensures Run(f, a + [x]).0 == Step(Run(f, a).0, x).0
    ensures Run(f, a + [x]).1 == Run(f, a).1 + [Step(Run(f, a).0, x).1]
  {
    RunAppend(f, a, [x]);
    assert [x][1..] == [];
  }

  /** The last packet among a sequence of outcomes, as a caller keeping
      the latest `Ok(Some(p))` would hold it. */
  function LastPacket(outs: seq<ParseResult>): (r: Option<MspPacket>)
    ensures r.Some? ==> exists i | 0 <= i < |outs| :: outs[i] == Ok(Some(r.value))
    decreases |outs|
  {
    if outs == [] then None
    else
      var last := outs[|outs| - 1];
      if last.Ok? && last.value.Some? then last.value
      else LastPacket(outs[..|outs| - 1])
  }

  /** The packet kept after one more outcome. */
  lemma LastPacketSnoc(outs: seq<ParseResult>, o: ParseResult)
    ensures LastPacket(outs + [o]) == if o.Ok? && o.value.Some? then o.value else LastPacket(outs)
  {
    assert (outs + [o])[..|outs|] == outs;
  }

  /** After a stream with a single packet at its end, that packet is the
      one kept. */
  lemma LastPacketAtEnd(outs: seq<ParseResult>, p: MspPacket)
    requires |outs| > 0 && outs[|outs| - 1] == Ok(Some(p))
    ensures LastPacket(outs) == Some(p)
  {
  }
}
