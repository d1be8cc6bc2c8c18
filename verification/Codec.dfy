/** Byte-level formats: big-endian words, the probe header, and length-prefixed control frames. */
module Codec {
  import opened Protocol

  type byte = b: int | 0 <= b < 0x100
  type u16 = n: int | 0 <= n < 0x1_0000
  type u32 = n: int | 0 <= n < 0x1_0000_0000
  type i64 = n: int | -0x8000_0000_0000_0000 <= n < 0x8000_0000_0000_0000

  // ----- big-endian words -----

  function PutU16(n: u16): (b: seq<byte>)
    ensures |b| == 2
  {
    [n / 0x100, n % 0x100]
  }

  function GetU16(b: seq<byte>): u16
    requires |b| == 2
  {
    var hi: int := b[0];
    hi * 0x100 + b[1]
  }

  function PutU32(n: u32): (b: seq<byte>)
    ensures |b| == 4
  {
    PutU16(n / 0x1_0000) + PutU16(n % 0x1_0000)
  }

  function GetU32(b: seq<byte>): u32
    requires |b| == 4
  {
    GetU16(b[..2]) * 0x1_0000 + GetU16(b[2..])
  }

  /** A signed 64-bit value in two's complement. */
  function PutI64(n: i64): (b: seq<byte>)
    ensures |b| == 8
  {
    var u := if n < 0 then n + 0x1_0000_0000_0000_0000 else n;
    PutU32(u / 0x1_0000_0000) + PutU32(u % 0x1_0000_0000)
  }

  function GetI64(b: seq<byte>): i64
    requires |b| == 8
  {
    var u := GetU32(b[..4]) * 0x1_0000_0000 + GetU32(b[4..]);
    if u < 0x8000_0000_0000_0000 then u else u - 0x1_0000_0000_0000_0000
  }

  lemma U16Inverse(n: u16, b: seq<byte>)
    requires |b| == 2
    ensures GetU16(PutU16(n)) == n && PutU16(GetU16(b)) == b
  {
  }

  lemma U32Inverse(n: u32, b: seq<byte>)
    requires |b| == 4
    ensures GetU32(PutU32(n)) == n && PutU32(GetU32(b)) == b
  {
    U16Inverse(n / 0x1_0000, b[..2]);
    U16Inverse(n % 0x1_0000, b[2..]);
    assert PutU32(n)[..2] == PutU16(n / 0x1_0000) && PutU32(n)[2..] == PutU16(n % 0x1_0000);
    assert b == b[..2] + b[2..];
  }

  lemma I64Inverse(n: i64, b: seq<byte>)
    requires |b| == 8
    ensures GetI64(PutI64(n)) == n && PutI64(GetI64(b)) == b
  {
    var u := if n < 0 then n + 0x1_0000_0000_0000_0000 else n;
    U32Inverse(u / 0x1_0000_0000, b[..4]);
    U32Inverse(u % 0x1_0000_0000, b[4..]);
    assert PutI64(n)[..4] == PutU32(u / 0x1_0000_0000) && PutI64(n)[4..] == PutU32(u % 0x1_0000_0000);
    assert b == b[..4] + b[4..];
  }

  /** Most significant byte first. */
  lemma U16Bytes(b: seq<byte>)
    requires |b| == 2
    ensures var v: seq<int> := b; GetU16(b) == v[0] * 0x100 + v[1]
  {
  }

  lemma U32Bytes(b: seq<byte>)
    requires |b| == 4
    ensures var v: seq<int> := b; GetU32(b) == v[0] * 0x100_0000 + v[1] * 0x1_0000 + v[2] * 0x100 + v[3]
  {
    U16Bytes(b[..2]);
    U16Bytes(b[2..]);
  }

  /** And two's complement. */
  lemma I64Bytes(b: seq<byte>)
    requires |b| == 8
    ensures var v: seq<int> := b;
      GetI64(b) == (v[0] * 0x100_0000 + v[1] * 0x1_0000 + v[2] * 0x100 + v[3]) * 0x1_0000_0000
                   + v[4] * 0x100_0000 + v[5] * 0x1_0000 + v[6] * 0x100 + v[7]
                   - if v[0] < 0x80 then 0 else 0x1_0000_0000_0000_0000
  {
    U32Bytes(b[..4]);
    U32Bytes(b[4..]);
  }

  // ----- probe header -----

  const HEADER_SIZE := 48
  const HEADER_VERSION := 1

  datatype Header = Header(
    version: byte,
    sessionID: u32,
    testID: u32,
    direction: byte,
    family: byte,
    udpPort: u16,
    payloadSize: u16,
    sequence: u32,
    sendUnixNano: i64)

  function Zeros(n: nat): (z: seq<byte>)
    ensures |z| == n && forall i :: 0 <= i < n ==> z[i] == 0
  {
    seq(n, i => 0)
  }

  function Marshal(h: Header): (b: seq<byte>)
    ensures |b| == HEADER_SIZE
  {
    [h.version, 0, 0, 0] + PutU32(h.sessionID) + PutU32(h.testID) + [h.direction, h.family]
    + PutU16(h.udpPort) + PutU16(h.payloadSize) + PutU32(h.sequence) + PutI64(h.sendUnixNano) + Zeros(18)
  }

  /** None when the buffer is too short. */
  function Unmarshal(b: seq<byte>): Option<Header> {
    if |b| < HEADER_SIZE then None
    else Some(Header(b[0], GetU32(b[4..8]), GetU32(b[8..12]), b[12], b[13],
                     GetU16(b[14..16]), GetU16(b[16..18]), GetU32(b[18..22]), GetI64(b[22..30])))
  }

  predicate ValidHeader(h: Header) {
    && h.version == HEADER_VERSION
    && (h.direction == DirectionCode(Uplink) || h.direction == DirectionCode(Downlink))
    && (h.family == FamilyCode(IPv4) || h.family == FamilyCode(IPv6))
  }

  /** Where Marshal puts the fields. */
  lemma MarshalSlices(h: Header, rest: seq<byte>)
    ensures var b := Marshal(h) + rest;
      && b[0] == h.version && b[4..8] == PutU32(h.sessionID) && b[8..12] == PutU32(h.testID)
      && b[12] == h.direction && b[13] == h.family
      && b[14..16] == PutU16(h.udpPort) && b[16..18] == PutU16(h.payloadSize)
      && b[18..22] == PutU32(h.sequence) && b[22..30] == PutI64(h.sendUnixNano)
  {
  }

  /** The 48 bytes of a header, field by field and most significant byte first; the time is in two's
      complement, and bytes of no field are zero. */
  lemma MarshalFields(h: Header)
    ensures var b: seq<int> := Marshal(h);
      && |b| == 48
      && b[0] == h.version && b[12] == h.direction && b[13] == h.family
      && b[4] * 0x100_0000 + b[5] * 0x1_0000 + b[6] * 0x100 + b[7] == h.sessionID
      && b[8] * 0x100_0000 + b[9] * 0x1_0000 + b[10] * 0x100 + b[11] == h.testID
      && b[14] * 0x100 + b[15] == h.udpPort
      && b[16] * 0x100 + b[17] == h.payloadSize
      && b[18] * 0x100_0000 + b[19] * 0x1_0000 + b[20] * 0x100 + b[21] == h.sequence
      && (forall i :: 1 <= i < 4 || 30 <= i < 48 ==> b[i] == 0)
    ensures var b: seq<int> := Marshal(h);
      (b[22] * 0x100_0000 + b[23] * 0x1_0000 + b[24] * 0x100 + b[25]) * 0x1_0000_0000
      + b[26] * 0x100_0000 + b[27] * 0x1_0000 + b[28] * 0x100 + b[29]
      == h.sendUnixNano + if h.sendUnixNano < 0 then 0x1_0000_0000_0000_0000 else 0
  {
    var b := Marshal(h);
    MarshalSlices(h, []);
    assert b + [] == b;
    U32Inverse(h.sessionID, b[4..8]);
    U32Inverse(h.testID, b[8..12]);
    U16Inverse(h.udpPort, b[14..16]);
    U16Inverse(h.payloadSize, b[16..18]);
    U32Inverse(h.sequence, b[18..22]);
    I64Inverse(h.sendUnixNano, b[22..30]);
    U32Bytes(b[4..8]);
    U32Bytes(b[8..12]);
    U16Bytes(b[14..16]);
    U16Bytes(b[16..18]);
    U32Bytes(b[18..22]);
    I64Bytes(b[22..30]);
  }

  /** Unmarshal inverts Marshal for all field values, whatever follows the header. */
  lemma UnmarshalMarshal(h: Header, rest: seq<byte>)
    ensures Unmarshal(Marshal(h) + rest) == Some(h)
  {
    MarshalSlices(h, rest);
    U32Inverse(h.sessionID, Zeros(4));
    U32Inverse(h.testID, Zeros(4));
    U16Inverse(h.udpPort, Zeros(2));
    U16Inverse(h.payloadSize, Zeros(2));
    U32Inverse(h.sequence, Zeros(4));
    I64Inverse(h.sendUnixNano, Zeros(8));
  }

  /** Marshal gives back every byte that Unmarshal looks at. */
  lemma MarshalUnmarshal(b: seq<byte>)
    requires |b| >= HEADER_SIZE
    ensures var m := Marshal(Unmarshal(b).value);
      m[0] == b[0] && forall i :: 4 <= i < 30 ==> m[i] == b[i]
  {
    var h := Unmarshal(b).value;
    MarshalSlices(h, []);
    assert Marshal(h) + [] == Marshal(h);
    U32Inverse(0, b[4..8]);
    U32Inverse(0, b[8..12]);
    U16Inverse(0, b[14..16]);
    U16Inverse(0, b[16..18]);
    U32Inverse(0, b[18..22]);
    I64Inverse(0, b[22..30]);
    var m := Marshal(h);
    forall i | 4 <= i < 30 ensures m[i] == b[i] {
      if i < 8 { assert m[4..8][i - 4] == b[4..8][i - 4]; }
      else if i < 12 { assert m[8..12][i - 8] == b[8..12][i - 8]; }
      else if 14 <= i < 16 { assert m[14..16][i - 14] == b[14..16][i - 14]; }
      else if 16 <= i < 18 { assert m[16..18][i - 16] == b[16..18][i - 16]; }
      else if 18 <= i < 22 { assert m[18..22][i - 18] == b[18..22][i - 18]; }
      else if 22 <= i { assert m[22..30][i - 22] == b[22..30][i - 22]; }
    }
  }

  // ----- control frames -----

  const MAX_FRAME := 0x10_0000

  datatype Parsed = Message(body: seq<byte>, rest: seq<byte>) | BadLength | ShortRead

  /** What writeMessage puts on the connection; the length wraps as an int32 does. */
  function Frame(body: seq<byte>): seq<byte> {
    PutU32(|body| % 0x1_0000_0000) + body
  }

  /** The int32 that readMessage assembles from a length word. */
  function Signed(word: u32): int {
    if word < 0x8000_0000 then word else word - 0x1_0000_0000
  }

  /** readMessage on a stream, when every read fills its buffer. */
  function Parse(stream: seq<byte>): Parsed {
    if |stream| < 4 then ShortRead
    else
      var length := Signed(GetU32(stream[..4]));
      if length <= 0 || length > MAX_FRAME then BadLength
      else if |stream| < 4 + length then ShortRead
      else Message(stream[4..4 + length], stream[4 + length..])
  }

  /** A frame is read back, and nothing behind it consumed, exactly when its body has between
      one and 2^20 bytes. */
  lemma ParseFrame(body: seq<byte>, rest: seq<byte>)
    ensures Parse(Frame(body) + rest) == Message(body, rest) <==> 1 <= |body| <= MAX_FRAME
  {
    var stream := Frame(body) + rest;
    U32Inverse(|body| % 0x1_0000_0000, Zeros(4));
    assert stream[..4] == PutU32(|body| % 0x1_0000_0000);
    if 1 <= |body| <= MAX_FRAME {
      assert stream[4..4 + |body|] == body;
      assert stream[4 + |body|..] == rest;
    }
  }

  /** What a failed write leaves of a frame is never taken for a message. */
  lemma CutFrame(body: seq<byte>, k: nat)
    requires 1 <= |body| <= MAX_FRAME && k < |Frame(body)|
    ensures Parse(Frame(body)[..k]) == ShortRead
  {
    U32Inverse(|body| % 0x1_0000_0000, Zeros(4));
    if 4 <= k { assert Frame(body)[..k][..4] == PutU32(|body|); }
  }

  /** A length word of n, most significant byte first, announces a body of n bytes if and only if n is
      between one and 2^20. */
  lemma LengthWords(word: seq<byte>, rest: seq<byte>)
    requires |word| == 4
    ensures var b: seq<int> := word;
      var n := b[0] * 0x100_0000 + b[1] * 0x1_0000 + b[2] * 0x100 + b[3];
      && (Parse(word + rest) == BadLength <==> !(1 <= n <= 0x10_0000))
      && (1 <= n <= 0x10_0000 ==>
            Parse(word + rest) == if n <= |rest| then Message(rest[..n], rest[n..]) else ShortRead)
  {
    assert (word + rest)[..4] == word;
    U32Bytes(word);
    var n := GetU32(word);
    if 1 <= n <= |rest| {
      assert (word + rest)[4..4 + n] == rest[..n] && (word + rest)[4 + n..] == rest[n..];
    }
  }

  /** The frame of a body is its length, most significant byte first, and the body. */
  lemma FrameBytes(body: seq<byte>)
    requires |body| < 0x1_0000_0000
    ensures var b: seq<int> := Frame(body);
      && |b| == 4 + |body| && b[4..] == body
      && b[0] * 0x100_0000 + b[1] * 0x1_0000 + b[2] * 0x100 + b[3] == |body|
  {
    U32Inverse(|body|, PutU32(|body|));
    U32Bytes(PutU32(|body|));
  }

  function Frames(bodies: seq<seq<byte>>): seq<byte> {
    if bodies == [] then [] else Frame(bodies[0]) + Frames(bodies[1..])
  }

  /** Reading a stream message by message until it is empty; None if a read fails. */
  function ParseAll(stream: seq<byte>): Option<seq<seq<byte>>>
    decreases |stream|
  {
    if stream == [] then Some([])
    else
      match Parse(stream)
      case Message(body, rest) =>
        (match ParseAll(rest)
         case Some(bodies) => Some([body] + bodies)
         case None => None)
      case _ => None
  }

  /** Any list of admissible bodies survives the connection. */
  lemma {:induction false} FramesRoundTrip(bodies: seq<seq<byte>>)
    requires forall i :: 0 <= i < |bodies| ==> 1 <= |bodies[i]| <= MAX_FRAME
    ensures ParseAll(Frames(bodies)) == Some(bodies)
    decreases |bodies|
  {
    if bodies != [] {
      ParseFrame(bodies[0], Frames(bodies[1..]));
      FramesRoundTrip(bodies[1..]);
      assert bodies == [bodies[0]] + bodies[1..];
    }
  }

  /** A connection with the bytes still to be read and those written to it. */
  class Conn {
    var inbound: seq<byte>
    var outbound: seq<byte>

    constructor ()
      ensures inbound == [] && outbound == []
    {
      inbound, outbound := [], [];
    }

    /** The connection takes `room` more bytes before a write fails. */
    method WriteMessage(body: seq<byte>, room: nat) returns (ok: bool)
      modifies this
      ensures ok == (|Frame(body)| <= room) && inbound == old(inbound)
      ensures outbound == old(outbound) + if ok then Frame(body) else Frame(body)[..room]
    {
      var length := PutU32(|body| % 0x1_0000_0000);
      if room < |length| {
        outbound := outbound + length[..room];
        return false;
      }
      outbound := outbound + length;
      if room < |length| + |body| {
        outbound := outbound + body[..room - |length|];
        assert length + body[..room - |length|] == Frame(body)[..room];
        return false;
      }
      outbound := outbound + body;
      assert old(outbound) + length + body == old(outbound) + Frame(body);
      return true;
    }

    /** A failed read has consumed the length word, if the stream had one, and nothing more. */
    method ReadMessage() returns (r: Parsed)
      modifies this
      ensures outbound == old(outbound)
      ensures r == Parse(old(inbound))
      ensures inbound == if r.Message? then r.rest else if |old(inbound)| < 4 then old(inbound) else old(inbound)[4..]
    {
      if |inbound| < 4 {
        return ShortRead;
      }
      var word := inbound[..4];
      inbound := inbound[4..];
      var length := Signed(GetU32(word));
      if length <= 0 || length > MAX_FRAME {
        return BadLength;
      }
      if |inbound| < length {
        return ShortRead;
      }
      var body := inbound[..length];
      inbound := inbound[length..];
      r := Message(body, inbound);
    }
  }
}
