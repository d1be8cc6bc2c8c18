/** The probe engine: a sender that rewrites the header of one reused buffer, and a receiver that
    parses, validates, matches and summarises what arrives. */
module Probe {
  import opened Protocol
  import opened Codec

  // ----- headers -----

  /** The mutable header object. */
  class ProbeHeader {
    var version: byte
    var sessionID: u32
    var testID: u32
    var direction: byte
    var family: byte
    var udpPort: u16
    var payloadSize: u16
    var sequence: u32
    var sendUnixNano: i64

    function Value(): Header
      reads this
    {
      Header(version, sessionID, testID, direction, family, udpPort, payloadSize, sequence, sendUnixNano)
    }

    constructor ()
      ensures Value() == Header(0, 0, 0, 0, 0, 0, 0, 0, 0)
    {
      version, sessionID, testID, direction, family := 0, 0, 0, 0, 0;
      udpPort, payloadSize, sequence, sendUnixNano := 0, 0, 0, 0;
    }

    method SetFromParams(config: SenderConfig, seq': u32, now: i64)
      modifies this
      ensures Value() == HeaderFor(config, seq', now)
    {
      version := HEADER_VERSION;
      sessionID := config.sessionID;
      testID := config.testID;
      direction := DirectionCode(config.direction);
      family := FamilyCode(config.family);
      udpPort := config.udpPort;
      payloadSize := config.payloadSize;
      sequence := seq';
      sendUnixNano := now;
    }

    /** The buffer is filled field by field; bytes no field covers stay zero. */
    method MarshalBinary() returns (buf: array<byte>)
      ensures fresh(buf) && buf[..] == Marshal(Value())
    {
      buf := new byte[HEADER_SIZE](i => 0);
      buf[0] := version;
      ghost var start := [version, 0, 0, 0];
      assert buf[..] == start + Zeros(44);
      PutNext(buf, 4, PutU32(sessionID), start);
      PutNext(buf, 8, PutU32(testID), start + PutU32(sessionID));
      ghost var ids := start + PutU32(sessionID) + PutU32(testID);
      PutNext(buf, 12, [direction, family], ids);
      PutNext(buf, 14, PutU16(udpPort), ids + [direction, family]);
      ghost var sizes := ids + [direction, family] + PutU16(udpPort);
      PutNext(buf, 16, PutU16(payloadSize), sizes);
      PutNext(buf, 18, PutU32(sequence), sizes + PutU16(payloadSize));
      PutNext(buf, 22, PutI64(sendUnixNano), sizes + PutU16(payloadSize) + PutU32(sequence));
    }

    method UnmarshalBinary(data: seq<byte>) returns (ok: bool)
      modifies this
      ensures ok <==> Unmarshal(data).Some?
      ensures ok ==> Unmarshal(data) == Some(Value())
      ensures !ok ==> Value() == old(Value())
    {
      if |data| < HEADER_SIZE {
        return false;
      }
      version := data[0];
      sessionID := GetU32(data[4..8]);
      testID := GetU32(data[8..12]);
      direction := data[12];
      family := data[13];
      udpPort := GetU16(data[14..16]);
      payloadSize := GetU16(data[16..18]);
      sequence := GetU32(data[18..22]);
      sendUnixNano := GetI64(data[22..30]);
      return true;
    }
  }

  /** Copies bytes into a buffer from an offset on. */
  method Put(buf: array<byte>, at: nat, bytes: seq<byte>)
    requires at + |bytes| <= buf.Length
    modifies buf
    ensures buf[..] == old(buf[..at]) + bytes + old(buf[at + |bytes|..])
  {
    for i := 0 to |bytes|
      invariant buf[..at] == old(buf[..at])
      invariant buf[at..at + i] == bytes[..i]
      invariant buf[at + i..] == old(buf[at + i..])
    {
      buf[at + i] := bytes[i];
    }
  }

  /** Put, right behind what has been written to a zeroed buffer. */
  method PutNext(buf: array<byte>, at: nat, bytes: seq<byte>, ghost done: seq<byte>)
    requires |done| == at && at + |bytes| <= buf.Length
    requires buf[..] == done + Zeros(buf.Length - at)
    modifies buf
    ensures buf[..] == done + bytes + Zeros(buf.Length - at - |bytes|)
  {
    Put(buf, at, bytes);
  }

  // ----- sending -----

  datatype SenderConfig = SenderConfig(
    sessionID: u32, testID: u32, direction: Direction, family: Family,
    udpPort: u16, payloadSize: u16, packetCount: int)

  datatype SendResult = Sent(count: int, sequenceEnd: u32) | SendFailed

  function HeaderFor(c: SenderConfig, sequence: u32, now: i64): Header {
    Header(HEADER_VERSION, c.sessionID, c.testID, DirectionCode(c.direction), FamilyCode(c.family),
           c.udpPort, c.payloadSize, sequence, now)
  }

  /** A packet number as the 32-bit sequence number it is sent under. */
  function Wrap(i: nat): (s: u32)
    ensures s <= i && (i < 0x1_0000_0000 ==> s == i)
  {
    i % 0x1_0000_0000
  }

  /** The sequence number of the last of i packets. */
  function LastSequence(i: nat): u32 { if i == 0 then 0 else Wrap(i - 1) }

  /** Packet i: its header followed by a payload of zeros.  clock(i) is the time of the i-th call
      of time.Now; the first one serves the header prepared before the loop. */
  function Packet(c: SenderConfig, clock: nat -> i64, i: nat): seq<byte> {
    Marshal(HeaderFor(c, Wrap(i), clock(i + 1))) + Zeros(c.payloadSize)
  }

  function Packets(c: SenderConfig, clock: nat -> i64, n: nat): (ps: seq<seq<byte>>)
    ensures |ps| == n && forall i :: 0 <= i < n ==> ps[i] == Packet(c, clock, i)
  {
    if n == 0 then [] else Packets(c, clock, n - 1) + [Packet(c, clock, n - 1)]
  }

  /** One turn of the send loop up to the socket call: the header of the reused buffer is replaced. */
  method FillPacket(c: SenderConfig, clock: nat -> i64, i: nat, header: ProbeHeader, buf: array<byte>)
    requires buf.Length == HEADER_SIZE + c.payloadSize && buf[HEADER_SIZE..] == Zeros(c.payloadSize)
    modifies header, buf
    ensures buf[..] == Packet(c, clock, i) && buf[HEADER_SIZE..] == Zeros(c.payloadSize)
  {
    header.SetFromParams(c, Wrap(i), clock(i + 1));
    var headerBytes := header.MarshalBinary();
    ghost var payload := buf[HEADER_SIZE..];
    Put(buf, 0, headerBytes[..]);
    assert buf[..] == headerBytes[..] + payload;
  }

  function Count(n: int): nat { if n < 0 then 0 else n }

  /** How far the socket follows from packet i on. */
  function Taken(accepts: nat -> bool, i: nat, n: nat): (k: nat)
    requires i <= n
    ensures i <= k <= n && (k < n ==> !accepts(k)) && forall j: nat :: i <= j < k ==> accepts(j)
    decreases n - i
  {
    if i < n && accepts(i) then Taken(accepts, i + 1, n) else i
  }

  /** The header and the buffer that the loop will reuse. */
  method NewPacket(c: SenderConfig, now: i64) returns (header: ProbeHeader, buf: array<byte>)
    ensures fresh(header) && fresh(buf) && buf.Length == HEADER_SIZE + c.payloadSize
    ensures buf[HEADER_SIZE..] == Zeros(c.payloadSize)
  {
    buf := new byte[HEADER_SIZE + c.payloadSize](i => 0);
    header := new ProbeHeader();
    header.SetFromParams(c, 0, now);
    var headerBytes := header.MarshalBinary();
    Put(buf, 0, headerBytes[..]);
  }

  class Sender {
    const config: SenderConfig
    var wire: seq<seq<byte>>    // packets handed to the socket

    constructor (config: SenderConfig)
      ensures this.config == config && wire == []
    {
      this.config := config;
      wire := [];
    }

    /** resolved: the target address resolves; accepts(i): the socket takes packet i.  Every
        packet written is exactly Packet(i), although header and buffer are reused. */
    method Send(resolved: bool, accepts: nat -> bool, clock: nat -> i64) returns (r: SendResult)
      modifies this
      ensures var n := Count(config.packetCount);
        var k := if resolved then Taken(accepts, 0, n) else 0;
        && wire == old(wire) + Packets(config, clock, k)
        && (r.Sent? <==> resolved && k == n)
        && (r.Sent? ==> r.count == config.packetCount
                        && r.sequenceEnd == if n == 0 then 0 else (n - 1) % 0x1_0000_0000)
    {
      if !resolved {
        assert wire == old(wire) + Packets(config, clock, 0);
        return SendFailed;
      }
      var header, buf := NewPacket(config, clock(0));
      var n, sequence: u32 := Count(config.packetCount), 0;
      for i := 0 to n
        invariant fresh(buf) && fresh(header) && buf.Length == HEADER_SIZE + config.payloadSize
        invariant buf[HEADER_SIZE..] == Zeros(config.payloadSize)
        invariant wire == old(wire) + Packets(config, clock, i)
        invariant Taken(accepts, 0, n) == Taken(accepts, i, n)
        invariant sequence == LastSequence(i)
      {
        sequence := Wrap(i);
        FillPacket(config, clock, i, header, buf);
        if !accepts(i) {
          return SendFailed;
        }
        wire := wire + [buf[..]];
        assert wire == old(wire) + (Packets(config, clock, i) + [Packet(config, clock, i)]);
      }
      return Sent(config.packetCount, sequence);
    }
  }

  // ----- receiving -----

  datatype ReceiverConfig = ReceiverConfig(sessionID: u32, testID: u32, direction: Direction, family: Family)

  datatype ReceivedPacket = ReceivedPacket(sequence: u32, header: Header, matched: bool)

  /** What one turn of the receive loop meets. */
  datatype Event = Quit | ReadTimeout | ReadError | Datagram(data: seq<byte>)

  predicate MatchesExpected(c: ReceiverConfig, h: Header) {
    && h.sessionID == c.sessionID
    && h.testID == c.testID
    && h.direction == DirectionCode(c.direction)
    && h.family == FamilyCode(c.family)
  }

  const BUFFER_SIZE := 65535

  /** What a datagram contributes: nothing unless it starts with a valid header. */
  function Accept(c: ReceiverConfig, data: seq<byte>): seq<ReceivedPacket> {
    match Unmarshal(data)
    case None => []
    case Some(h) => if ValidHeader(h) then [ReceivedPacket(h.sequence, h, MatchesExpected(c, h))] else []
  }

  /** What a run of the loop accepts; it ends with the first Quit or ReadError. */
  function Accepted(c: ReceiverConfig, events: seq<Event>): seq<ReceivedPacket> {
    if events == [] || events[0].Quit? || events[0].ReadError? then []
    else (if events[0].Datagram? then Accept(c, events[0].data) else []) + Accepted(c, events[1..])
  }

  /** Does the loop end with a read error? */
  predicate EndsInError(events: seq<Event>) {
    events != [] && !events[0].Quit? && (events[0].ReadError? || EndsInError(events[1..]))
  }

  /** Event k is a failing read, with no earlier one and no quit before it. */
  ghost predicate FailsAt(events: seq<Event>, k: nat) {
    && k < |events| && events[k].ReadError?
    && forall j :: 0 <= j < k ==> !events[j].Quit? && !events[j].ReadError?
  }

  /** The loop ends with an error exactly when a read fails before it is told to quit. */
  lemma {:induction false} ErrorBeforeQuit(events: seq<Event>)
    ensures EndsInError(events) <==> exists k: nat :: FailsAt(events, k)
    decreases |events|
  {
    if events != [] {
      ErrorBeforeQuit(events[1..]);
      if k: nat :| FailsAt(events[1..], k) {
        if !events[0].Quit? && !events[0].ReadError? {
          forall j | 0 <= j < k + 1 ensures !events[j].Quit? && !events[j].ReadError? {
            if j > 0 { assert events[j] == events[1..][j - 1]; }
          }
          assert FailsAt(events, k + 1);
        }
      }
      if k: nat :| FailsAt(events, k) && k > 0 { assert FailsAt(events[1..], k - 1); }
      assert events[0].ReadError? ==> FailsAt(events, 0);
    }
  }

  function MatchedSeqs(received: seq<ReceivedPacket>): seq<u32> {
    if received == [] then []
    else
      var p := received[|received| - 1];
      MatchedSeqs(received[..|received| - 1]) + (if p.matched then [p.sequence] else [])
  }

  datatype ReceiverResult = ReceiverResult(
    received: nat, matched: nat, sequenceMin: u32, sequenceMax: u32, firstSeq: u32, lastSeq: u32)

  /** The summary of a list of received packets, described by what its fields mean. */
  ghost predicate Summarises(r: ReceiverResult, received: seq<ReceivedPacket>) {
    var seqs := MatchedSeqs(received);
    && r.received == |received|
    && r.matched == |seqs|
    && (seqs == [] ==> r.sequenceMin == r.sequenceMax == r.firstSeq == r.lastSeq == 0)
    && (seqs != [] ==>
          && r.firstSeq == seqs[0] && r.lastSeq == seqs[|seqs| - 1]
          && r.sequenceMin in seqs && r.sequenceMax in seqs
          && forall i :: 0 <= i < |seqs| ==> r.sequenceMin <= seqs[i] <= r.sequenceMax)
  }

  /** Only the first bytes of a datagram matter to Unmarshal. */
  lemma HeaderPrefix(data: seq<byte>, n: nat)
    requires HEADER_SIZE <= n <= |data|
    ensures Unmarshal(data[..HEADER_SIZE]) == Unmarshal(data)
  {
    var b := data[..HEADER_SIZE];
    assert b[4..8] == data[4..8] && b[8..12] == data[8..12] && b[14..16] == data[14..16]
           && b[16..18] == data[16..18] && b[18..22] == data[18..22] && b[22..30] == data[22..30];
  }

  /** ReadFrom fills the reused buffer from its start; a long enough read leaves no old byte in
      the part that is parsed. */
  method Take(c: ReceiverConfig, data: seq<byte>, buf: array<byte>) returns (accepted: seq<ReceivedPacket>)
    requires buf.Length == BUFFER_SIZE
    modifies buf
    ensures accepted == Accept(c, data)
  {
    accepted := [];
    var n := if |data| < BUFFER_SIZE then |data| else BUFFER_SIZE;
    Put(buf, 0, data[..n]);
    if n >= HEADER_SIZE {
      HeaderPrefix(data, n);
      assert buf[..HEADER_SIZE] == data[..HEADER_SIZE];
      var header := new ProbeHeader();
      var ok := header.UnmarshalBinary(buf[..HEADER_SIZE]);
      var h := header.Value();
      if ok && ValidHeader(h) {
        accepted := [ReceivedPacket(h.sequence, h, MatchesExpected(c, h))];
      }
    }
  }

  class Receiver {
    const config: ReceiverConfig
    var received: seq<ReceivedPacket>

    constructor (config: ReceiverConfig)
      ensures this.config == config && received == []
    {
      this.config := config;
      received := [];
    }

    /** Runs the loop over the events it meets; failed: it ended with a read error. */
    method Receive(events: seq<Event>) returns (failed: bool)
      modifies this
      ensures received == old(received) + Accepted(config, events) && failed == EndsInError(events)
    {
      failed := false;
      var buf := new byte[BUFFER_SIZE](i => 0);
      var i := 0;
      while i < |events|
        invariant 0 <= i <= |events| && fresh(buf) && buf.Length == BUFFER_SIZE
        invariant received + Accepted(config, events[i..]) == old(received) + Accepted(config, events)
        invariant !failed && EndsInError(events[i..]) == EndsInError(events)
      {
        var event := events[i];
        assert events[i..][1..] == events[i + 1..];
        i := i + 1;
        match event {
          case Quit => return;
          case ReadError => failed := true; return;
          case ReadTimeout =>
          case Datagram(data) =>
            var accepted := Take(config, data, buf);
            ghost var later := Accepted(config, events[i..]);
            assert received + (accepted + later) == (received + accepted) + later;
            received := received + accepted;
        }
      }
    }

    method Result() returns (r: ReceiverResult)
      ensures Summarises(r, received)
    {
      r := ReceiverResult(0, 0, 0, 0, 0, 0);
      if received == [] {
        return;
      }
      var seqs: seq<u32> := [];
      var count := 0;
      for i := 0 to |received|
        invariant count == i && seqs == MatchedSeqs(received[..i])
      {
        assert received[..i + 1][..i] == received[..i];
        count := count + 1;
        if received[i].matched {
          seqs := seqs + [received[i].sequence];
        }
      }
      assert received[..|received|] == received;
      r := r.(received := count, matched := |seqs|);
      if seqs != [] {
        var minSeq, maxSeq := seqs[0], seqs[0];
        for i := 1 to |seqs|
          invariant minSeq in seqs && maxSeq in seqs
          invariant forall j :: 0 <= j < i ==> minSeq <= seqs[j] <= maxSeq
        {
          if seqs[i] < minSeq { minSeq := seqs[i]; }
          if seqs[i] > maxSeq { maxSeq := seqs[i]; }
        }
        r := r.(firstSeq := seqs[0], lastSeq := seqs[|seqs| - 1], sequenceMin := minSeq, sequenceMax := maxSeq);
      }
    }
  }
}
