/** The two frame checksums of the MultiWii Serial Protocol.

    V1 frames end in the exclusive-or of the length, command and payload
    bytes.  V2 frames end in CRC-8/DVB-S2: the CRC-8 of ETSI EN 302 307,
    clause 5.1.4 (generator polynomial 0xD5, initial register 0, no input or
    output reflection, no final exclusive-or).  The repository obtains the
    latter from the `crc_any` crate; here it is defined bit by bit. */
module Checksum {

  /** The generator polynomial x^8 + x^7 + x^6 + x^4 + x^2 + 1, without its x^8 term. */
  const Poly: bv8 := 0xD5

  /** The register value of a fresh CRC-8/DVB-S2 engine. */
  const CrcInit: bv8 := 0

  /** Folds one byte into a V1 checksum. */
  function XorByte(crc: bv8, b: bv8): bv8
  {
    crc ^ b
  }

  /** Exclusive-or of all bytes of `s` (0 for the empty sequence). */
  function Xor(s: seq<bv8>): bv8
  {
    if s == [] then 0 else s[0] ^ Xor(s[1..])
  }

  /** The exclusive-or of a concatenation is the exclusive-or of its parts. */
  lemma {:induction false} XorAppend(a: seq<bv8>, b: seq<bv8>)
    ensures Xor(a + b) == Xor(a) ^ Xor(b)
  {
    if a == [] {
      assert a + b == b;
    } else {
      assert (a + b)[1..] == a[1..] + b;
      XorAppend(a[1..], b);
    }
  }

  /** The exclusive-or of two leading bytes and a tail. */
  lemma XorTwoThen(a: bv8, b: bv8, s: seq<bv8>)
    ensures Xor([a, b] + s) == a ^ b ^ Xor(s)
  {
    var t := [a, b] + s;
    assert t[1..] == [b] + s && t[1..][1..] == s;
    assert Xor(t) == a ^ (b ^ Xor(s));
  }

  /** `k` rounds of the shift register: shift left, and fold in the
      polynomial whenever the bit shifted out was set. */
  function ShiftRounds(c: bv8, k: nat): bv8
    decreases k
  {
    if k == 0 then c
    else ShiftRounds(if c & 0x80 != 0 then (c << 1) ^ Poly else c << 1, k - 1)
  }

  /** Feeds one byte into the register `crc`. */
  function Update(crc: bv8, b: bv8): bv8
  {
    ShiftRounds(crc ^ b, 8)
  }

  /** Feeds the bytes of `s`, first to last, into the register `crc`; the
      register is then the CRC (there is no final exclusive-or). */
  function Digest(crc: bv8, s: seq<bv8>): bv8
    decreases s
  {
    if s == [] then crc else Digest(Update(crc, s[0]), s[1..])
  }

  /** CRC-8/DVB-S2 of a whole byte string. */
  function Crc8(s: seq<bv8>): bv8
  {
    Digest(CrcInit, s)
  }

  /** Digesting in chunks gives the same register as digesting their
      concatenation at once: a receiver may defer part of the input and
      digest it later in bulk. */
  lemma {:induction false} DigestAppend(crc: bv8, a: seq<bv8>, b: seq<bv8>)
    ensures Digest(crc, a + b) == Digest(Digest(crc, a), b)
    decreases a
  {
    if a == [] {
      assert a + b == b;
    } else {
      assert (a + b)[1..] == a[1..] + b;
      DigestAppend(Update(crc, a[0]), a[1..], b);
    }
  }

  /** The register after each byte of the ASCII string "123456789". */
  lemma CheckValueRegisters()
    ensures Update(0x00, 0x31) == 0x23 && Update(0x23, 0x32) == 0x87
    ensures Update(0x87, 0x33) == 0xE7 && Update(0xE7, 0x34) == 0x8A
    ensures Update(0x8A, 0x35) == 0x64 && Update(0x64, 0x36) == 0xB0
    ensures Update(0xB0, 0x37) == 0xBB && Update(0xBB, 0x38) == 0x45
    ensures Update(0x45, 0x39) == 0xBC
  {
  }

  /** The catalogue check value of CRC-8/DVB-S2: the CRC of the ASCII
      string "123456789" is 0xBC. */
  lemma CheckValue()
    ensures Crc8([0x31, 0x32, 0x33, 0x34, 0x35, 0x36, 0x37, 0x38, 0x39]) == 0xBC
  {
    CheckValueRegisters();
  }
}
