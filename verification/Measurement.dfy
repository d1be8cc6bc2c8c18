/** End to end: what the loss numbers mean when the network loses and reorders probes but neither
    duplicates nor invents them. */
module Measurement {
  import opened Protocol
  import opened Sorting
  import opened Codec
  import opened Probe

  /** The network delivers the packets with these numbers, in this order. */
  ghost predicate Delivery(order: seq<nat>, n: nat) {
    Distinct(order) && forall i :: 0 <= i < |order| ==> order[i] < n
  }

  /** Sender and receiver were configured for the same test, and its probes are valid ones. */
  predicate SameTest(s: SenderConfig, r: ReceiverConfig) {
    r == ReceiverConfig(s.sessionID, s.testID, s.direction, s.family) && s.direction != Both
  }

  /** The arrivals as the receive loop meets them, with idle polls wherever they happen, up to its end. */
  ghost predicate Arrivals(events: seq<Event>, order: seq<nat>, s: SenderConfig, clock: nat -> i64)
    decreases |events|
  {
    if events == [] || events[0].Quit? || events[0].ReadError? then order == []
    else if events[0].ReadTimeout? then Arrivals(events[1..], order, s, clock)
    else order != [] && events[0] == Datagram(Packet(s, clock, order[0])) && Arrivals(events[1..], order[1..], s, clock)
  }

  function Probed(s: SenderConfig, clock: nat -> i64, i: nat): ReceivedPacket {
    ReceivedPacket(Wrap(i), HeaderFor(s, Wrap(i), clock(i + 1)), true)
  }

  predicate SameNumbers(s: SenderConfig, r: ReceiverConfig) {
    s.sessionID == r.sessionID && s.testID == r.testID && s.direction == r.direction && s.family == r.family
  }

  /** Every probe is accepted, and it is matched exactly when session, test, direction and family agree. */
  lemma ProbeIsAccepted(s: SenderConfig, r: ReceiverConfig, clock: nat -> i64, i: nat)
    requires s.direction != Both
    ensures Accept(r, Packet(s, clock, i)) == [Probed(s, clock, i).(matched := SameNumbers(s, r))]
  {
    UnmarshalMarshal(HeaderFor(s, Wrap(i), clock(i + 1)), Zeros(s.payloadSize));
  }

  /** A packet of the test is always accepted and matched, under its own sequence number. */
  lemma PacketIsMatched(s: SenderConfig, r: ReceiverConfig, clock: nat -> i64, i: nat)
    requires SameTest(s, r)
    ensures Accept(r, Packet(s, clock, i)) == [Probed(s, clock, i)]
  {
    ProbeIsAccepted(s, r, clock, i);
  }

  /** The receiver records exactly the delivered packets, in order of arrival. */
  lemma {:induction false} ReceivedInOrder(
    events: seq<Event>, order: seq<nat>, s: SenderConfig, r: ReceiverConfig, clock: nat -> i64)
    requires SameTest(s, r) && Arrivals(events, order, s, clock)
    ensures |Accepted(r, events)| == |order|
    ensures forall k :: 0 <= k < |order| ==> Accepted(r, events)[k] == Probed(s, clock, order[k])
    decreases |events|
  {
    if events != [] && !events[0].Quit? && !events[0].ReadError? {
      if events[0].ReadTimeout? {
        ReceivedInOrder(events[1..], order, s, r, clock);
      } else {
        PacketIsMatched(s, r, clock, order[0]);
        ReceivedInOrder(events[1..], order[1..], s, r, clock);
      }
    }
  }

  lemma {:induction false} AllMatched(received: seq<ReceivedPacket>)
    requires forall k :: 0 <= k < |received| ==> received[k].matched
    ensures |MatchedSeqs(received)| == |received|
    ensures forall k :: 0 <= k < |received| ==> MatchedSeqs(received)[k] == received[k].sequence
    decreases |received|
  {
    if received != [] {
      AllMatched(received[..|received| - 1]);
    }
  }

  // ----- datagrams, byte by byte -----

  /** Probe i on the wire: version, direction and family codes, and its number modulo 2^32, each at its
      place and most significant byte first; everything behind the header is zero. */
  lemma PacketBytes(c: SenderConfig, clock: nat -> i64, i: nat)
    ensures var b: seq<int> := Packet(c, clock, i);
      && |b| == 48 + c.payloadSize && b[0] == 1
      && b[12] == (match c.direction case Uplink => 0 case Downlink => 1 case Both => 2)
      && b[13] == (match c.family case IPv4 => 0 case IPv6 => 1)
      && b[18] * 0x100_0000 + b[19] * 0x1_0000 + b[20] * 0x100 + b[21] == i % 0x1_0000_0000
      && forall k :: 30 <= k < |b| ==> b[k] == 0
    ensures var b: seq<int> := Packet(c, clock, i);
      && b[4] * 0x100_0000 + b[5] * 0x1_0000 + b[6] * 0x100 + b[7] == c.sessionID
      && b[8] * 0x100_0000 + b[9] * 0x1_0000 + b[10] * 0x100 + b[11] == c.testID
      && b[14] * 0x100 + b[15] == c.udpPort && b[16] * 0x100 + b[17] == c.payloadSize
      && (b[22] * 0x100_0000 + b[23] * 0x1_0000 + b[24] * 0x100 + b[25]) * 0x1_0000_0000
         + b[26] * 0x100_0000 + b[27] * 0x1_0000 + b[28] * 0x100 + b[29]
         == clock(i + 1) + if clock(i + 1) < 0 then 0x1_0000_0000_0000_0000 else 0
  {
    hide Marshal;
    MarshalFields(HeaderFor(c, Wrap(i), clock(i + 1)));
  }

  /** A datagram is recorded if and only if it has at least 48 bytes, version 1, direction 0 or 1 and
      family 0 or 1; under the number in its bytes 18 to 21; and as matched if and only if session, test,
      direction and family are the receiver's. */
  lemma AcceptedBytes(c: ReceiverConfig, data: seq<byte>)
    ensures Accept(c, data) != [] <==>
      |data| >= 48 && data[0] == 1 && (data[12] == 0 || data[12] == 1) && (data[13] == 0 || data[13] == 1)
    ensures Accept(c, data) != [] ==>
      var b: seq<int>, p := data, Accept(c, data)[0];
      && Accept(c, data) == [p]
      && p.sequence == b[18] * 0x100_0000 + b[19] * 0x1_0000 + b[20] * 0x100 + b[21]
      && (p.matched <==>
            && b[4] * 0x100_0000 + b[5] * 0x1_0000 + b[6] * 0x100 + b[7] == c.sessionID
            && b[8] * 0x100_0000 + b[9] * 0x1_0000 + b[10] * 0x100 + b[11] == c.testID
            && b[12] == (match c.direction case Uplink => 0 case Downlink => 1 case Both => 2)
            && b[13] == (match c.family case IPv4 => 0 case IPv6 => 1))
  {
    if |data| >= 48 {
      U32Bytes(data[4..8]);
      U32Bytes(data[8..12]);
      U32Bytes(data[18..22]);
    }
  }

  // ----- foreign packets -----

  /** A valid header, but not one of this test. */
  predicate Foreign(c: ReceiverConfig, data: seq<byte>) {
    match Unmarshal(data)
    case None => false
    case Some(h) => ValidHeader(h) && !MatchesExpected(c, h)
  }

  /** Does the receive loop meet such a packet before it ends? */
  predicate MeetsForeign(c: ReceiverConfig, events: seq<Event>) {
    && events != [] && !events[0].Quit? && !events[0].ReadError?
    && ((events[0].Datagram? && Foreign(c, events[0].data)) || MeetsForeign(c, events[1..]))
  }

  lemma {:induction false} MatchedCount(received: seq<ReceivedPacket>)
    ensures |MatchedSeqs(received)| <= |received|
    ensures |MatchedSeqs(received)| == |received| <==> forall k :: 0 <= k < |received| ==> received[k].matched
    decreases |received|
  {
    if received != [] {
      var n := |received| - 1;
      MatchedCount(received[..n]);
      assert received == received[..n] + [received[n]];
    }
  }

  lemma {:induction false} UnmatchedIsForeign(c: ReceiverConfig, events: seq<Event>)
    ensures (forall k :: 0 <= k < |Accepted(c, events)| ==> Accepted(c, events)[k].matched)
            <==> !MeetsForeign(c, events)
    decreases |events|
  {
    if events != [] && !events[0].Quit? && !events[0].ReadError? {
      UnmatchedIsForeign(c, events[1..]);
      var first := if events[0].Datagram? then Accept(c, events[0].data) else [];
      var later := Accepted(c, events[1..]);
      assert Accepted(c, events) == first + later;
      assert forall k :: 0 <= k < |later| ==> Accepted(c, events)[|first| + k] == later[k];
      assert forall k :: 0 <= k < |first| ==> Accepted(c, events)[k] == first[k];
    }
  }

  /** The count an uplink Result reports, received, and the one a downlink test reports, matched,
      agree if and only if the loop meets no foreign packet; otherwise received is the larger. */
  lemma ReceivedEqualsMatched(c: ReceiverConfig, events: seq<Event>)
    ensures |MatchedSeqs(Accepted(c, events))| <= |Accepted(c, events)|
    ensures |MatchedSeqs(Accepted(c, events))| == |Accepted(c, events)| <==> !MeetsForeign(c, events)
  {
    MatchedCount(Accepted(c, events));
    UnmatchedIsForeign(c, events);
  }

  /** A probe whose numbers differ is such a packet: received, and not matched. */
  lemma ForeignPacketIsReceived(c: ReceiverConfig, other: SenderConfig, clock: nat -> i64, i: nat)
    requires !SameNumbers(other, c) && other.direction != Both
    ensures var events := [Datagram(Packet(other, clock, i)), Quit];
      && |Accepted(c, events)| == 1 && MatchedSeqs(Accepted(c, events)) == []
  {
    var data := Packet(other, clock, i);
    var events := [Datagram(data), Quit];
    ProbeIsAccepted(other, c, clock, i);
    assert Accepted(c, events[1..]) == [];
    assert Accepted(c, events) == Accept(c, data);
    assert MatchedSeqs([]) == [];
  }

  // ----- counting -----

  /** The numbers below n. */
  ghost function Numbers(n: nat): (s: set<nat>)
    ensures |s| == n && forall i: nat :: i in s <==> i < n
  {
    if n == 0 then {} else Numbers(n - 1) + {n - 1}
  }

  ghost function Elements(order: seq<nat>): (s: set<nat>)
    ensures forall i: nat :: i in s <==> i in order
  {
    set i | i in order
  }

  lemma {:induction false} DistinctSize(order: seq<nat>)
    requires Distinct(order)
    ensures |Elements(order)| == |order|
    decreases |order|
  {
    if order != [] {
      var last, front := order[|order| - 1], order[..|order| - 1];
      DistinctSize(front);
      assert order == front + [last];
      assert Elements(order) == Elements(front) + {last};
    }
  }

  lemma DeliveryCounts(order: seq<nat>, n: nat)
    requires Delivery(order, n)
    ensures |order| <= n && |Numbers(n) - Elements(order)| == n - |order|
  {
    DistinctSize(order);
    assert Elements(order) <= Numbers(n);
    assert Numbers(n) == Elements(order) + (Numbers(n) - Elements(order));
  }

  /** The probes that were never matched, by sequence number. */
  ghost function Missing(n: nat, seqs: seq<u32>): set<nat> {
    set i | i in Numbers(n) && i !in seqs
  }

  lemma MissingIsUndelivered(n: nat, seqs: seq<u32>, order: seq<nat>)
    requires |seqs| == |order| && forall k :: 0 <= k < |order| ==> seqs[k] == order[k]
    ensures Missing(n, seqs) == Numbers(n) - Elements(order)
  {
    forall i: nat ensures i in seqs <==> i in order {
      if i in seqs { var k :| 0 <= k < |seqs| && seqs[k] == i; assert order[k] == i; }
      if i in order { var k :| 0 <= k < |order| && order[k] == i; assert seqs[k] == i; }
    }
  }

  lemma MatchedInOrder(
    events: seq<Event>, order: seq<nat>, s: SenderConfig, r: ReceiverConfig, clock: nat -> i64)
    requires SameTest(s, r) && Arrivals(events, order, s, clock)
    ensures var received := Accepted(r, events);
      && |received| == |MatchedSeqs(received)| == |order|
      && forall k :: 0 <= k < |order| ==> MatchedSeqs(received)[k] == Wrap(order[k])
  {
    ReceivedInOrder(events, order, s, r, clock);
    AllMatched(Accepted(r, events));
  }

  /** For every loss and reordering of the n packets of a test: all arrivals are counted as received
      and as matched, so 0 <= n - received; every matched sequence number is one that was sent;
      and when sequence numbers do not wrap, the loss is exactly the number of probes missing. */
  lemma LossIsExact(
    s: SenderConfig, r: ReceiverConfig, clock: nat -> i64, events: seq<Event>, order: seq<nat>, n: nat)
    requires SameTest(s, r) && Delivery(order, n) && Arrivals(events, order, s, clock)
    ensures var seqs := MatchedSeqs(Accepted(r, events));
      && |Accepted(r, events)| == |seqs| == |order| <= n
      && (forall k :: 0 <= k < |seqs| ==> seqs[k] == Wrap(order[k]) < n)
      && (n <= 0x1_0000_0000 ==> n - |seqs| == |Missing(n, seqs)|)
  {
    var seqs := MatchedSeqs(Accepted(r, events));
    MatchedInOrder(events, order, s, r, clock);
    DeliveryCounts(order, n);
    if n <= 0x1_0000_0000 {
      MissingIsUndelivered(n, seqs, order);
    }
  }

  lemma SummaryExtremes(received: seq<ReceivedPacket>, order: seq<nat>, result: ReceiverResult)
    requires Summarises(result, received) && |MatchedSeqs(received)| == |order| > 0
    requires forall k :: 0 <= k < |order| ==> MatchedSeqs(received)[k] == Wrap(order[k])
    ensures result.firstSeq == Wrap(order[0]) && result.lastSeq == Wrap(order[|order| - 1])
    ensures forall k :: 0 <= k < |order| ==> result.sequenceMin <= Wrap(order[k]) <= result.sequenceMax
    ensures exists k :: 0 <= k < |order| && Wrap(order[k]) == result.sequenceMin
    ensures exists k :: 0 <= k < |order| && Wrap(order[k]) == result.sequenceMax
  {
    var seqs := MatchedSeqs(received);
    hide MatchedSeqs, Wrap;
    var i :| 0 <= i < |seqs| && seqs[i] == result.sequenceMin;
    var j :| 0 <= j < |seqs| && seqs[j] == result.sequenceMax;
    assert Wrap(order[i]) == result.sequenceMin && Wrap(order[j]) == result.sequenceMax;
  }

  lemma SummaryBound(
    s: SenderConfig, r: ReceiverConfig, clock: nat -> i64, events: seq<Event>, order: seq<nat>, n: nat,
    result: ReceiverResult)
    requires SameTest(s, r) && Delivery(order, n) && Arrivals(events, order, s, clock)
    requires Summarises(result, Accepted(r, events))
    ensures result.received == result.matched == |order| <= n
    ensures result.matched > 0 ==>
      && result.sequenceMax < n
      && result.firstSeq == Wrap(order[0]) && result.lastSeq == Wrap(order[|order| - 1])
      && (forall k :: 0 <= k < |order| ==> result.sequenceMin <= Wrap(order[k]) <= result.sequenceMax)
      && (exists k :: 0 <= k < |order| && Wrap(order[k]) == result.sequenceMin)
      && (exists k :: 0 <= k < |order| && Wrap(order[k]) == result.sequenceMax)
  {
    LossIsExact(s, r, clock, events, order, n);
    MatchedInOrder(events, order, s, r, clock);
    if order != [] { SummaryExtremes(Accepted(r, events), order, result); }
  }

  method SendAll(sender: Sender, clock: nat -> i64) returns (sent: int)
    modifies sender
    ensures sent == sender.config.packetCount
    ensures sender.wire == old(sender.wire) + Packets(sender.config, clock, Count(sent))
  {
    sent := sender.config.packetCount;
    var accepts := (i: nat) => true;
    assert Taken(accepts, 0, Count(sent)) == Count(sent);
    var r := sender.Send(true, accepts, clock);
    sent := r.count;
  }

  method ReceiveAll(receiver: Receiver, events: seq<Event>) returns (result: ReceiverResult)
    requires receiver.received == []
    modifies receiver
    ensures Summarises(result, Accepted(receiver.config, events))
  {
    var failed := receiver.Receive(events);
    assert receiver.received == Accepted(receiver.config, events);
    result := receiver.Result();
  }

  /** The whole probe path: what Send emits, delivered in any order and with any loss, is summarised
      by a fresh receiver as received = matched = the number delivered, at most the number sent. */
  method Measure(
    sender: Sender, receiver: Receiver, clock: nat -> i64, events: seq<Event>, ghost order: seq<nat>)
    returns (sent: int, result: ReceiverResult)
    requires SameTest(sender.config, receiver.config) && receiver.received == []
    requires Delivery(order, Count(sender.config.packetCount)) && Arrivals(events, order, sender.config, clock)
    modifies sender, receiver
    ensures sent == sender.config.packetCount
    ensures sender.wire == old(sender.wire) + Packets(sender.config, clock, Count(sent))
    ensures result.received == result.matched == |order| <= Count(sent)
    ensures result.matched > 0 ==> result.sequenceMax < sent
  {
    sent := SendAll(sender, clock);
    result := ReceiveAll(receiver, events);
    SummaryBound(sender.config, receiver.config, clock, events, order, Count(sent), result);
  }
}
