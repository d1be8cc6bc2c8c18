/** Conversations with the probes themselves: which of them are in flight, and which the receiver
    has taken in which order.  The counts a client returns are tied to packets on the wire. */
module ConversationProbes {
  import opened Protocol
  import opened Sorting
  import opened Session
  import opened Conversation
  import opened ConversationInvariant
  import SessionInvariant
  import ConversationTheorems
  import Codec
  import P = Probe
  import M = Measurement

  /** A conversation whose probes have numbers: those in flight, and those taken by the receiver. */
  datatype Traffic = Traffic(w: World, flight: set<nat>, log: seq<nat>)

  /** A move of the conversation; probe says which packet the network loses or delivers. */
  datatype Carried = Carried(m: Move, probe: nat)

  /** A probe is sent under the next number; one that leaves the network was in it. */
  function Carry(x: Traffic, a: Carried): Option<Traffic> {
    match Advance(x.w, a.m)
    case None => None
    case Some(w) =>
      if w.emitted != x.w.emitted then Some(Traffic(w, x.flight + {x.w.emitted}, x.log))
      else if w.inFlight == x.w.inFlight then Some(x.(w := w))
      else if a.probe !in x.flight then None
      else Some(Traffic(w, x.flight - {a.probe}, if a.m.Lose? then x.log else x.log + [a.probe]))
  }

  function Transmit(x: Traffic, acts: seq<Carried>): Option<Traffic>
    decreases |acts|
  {
    if acts == [] then Some(x)
    else
      match Carry(x, acts[0])
      case None => None
      case Some(x') => Transmit(x', acts[1..])
  }

  function Silent(p: Params, tcp6: bool): Traffic { Traffic(Begin(p, tcp6), {}, []) }

  // ----- the counters of a conversation count these probes -----

  /** Probes taken so far: accepted by the server's receiver, or matched by the client's. */
  function TakenBy(w: World): int { if Up(w) then ReceiverCount(w.s) else w.matched }

  /** The effect of a move on the counters. */
  ghost predicate OneProbeMoves(w: World, w': World, lose: bool) {
    || (w'.emitted == w.emitted && w'.inFlight == w.inFlight && TakenBy(w') == TakenBy(w))
    || (w'.emitted == w.emitted + 1 && w'.inFlight == w.inFlight + 1 && TakenBy(w') == TakenBy(w))
    || (w'.emitted == w.emitted && w'.inFlight == w.inFlight - 1 && TakenBy(w') == TakenBy(w) + if lose then 0 else 1)
  }

  lemma ClientCounts(w: World)
    requires ClientStep(w).Some?
    ensures OneProbeMoves(w, ClientStep(w).value, false)
  {
  }

  lemma ServerCounts(w: World)
    requires SessionInvariant.Inv(w.s) && ServerStep(w).Some?
    ensures OneProbeMoves(w, ServerStep(w).value, false)
  {
    HandlerEffect(w.s, if w.s.h.HRecv? then Got(Data(w.queue[0])) else Yes);
  }

  lemma SectionCounts(w: World)
    requires SessionInvariant.Channels(w.s) && WLocks(w.s.w) && w.s.holder == ByWorker
    ensures ReceiverCount(WSection(w.s, Yes)) == ReceiverCount(w.s)
  {
  }

  lemma PlainCounts(w: World, probe: bool)
    requires SessionInvariant.Channels(w.s) && WorkerDirection(w)
    requires !WLocks(w.s.w) && WorkerStep(w, probe).Some?
    ensures OneProbeMoves(w, WorkerStep(w, probe).value, false)
  {
  }

  /** A receiver works for an uplink, a sender for a downlink. */
  ghost predicate WorkerDirection(w: World) {
    && (SessionInvariant.Receiving(w.s.w) ==> Up(w) && w.s.sockOpen)
    && (w.s.w.WSend? ==> !Up(w))
  }

  lemma WorkerRuns(w: World)
    requires w.p.direction != Both && SessionInvariant.WorkerState(w.s) && Side(w.s, w.delivered, w.p)
    ensures WorkerDirection(w)
  {
  }

  lemma WorkCounts(w: World, probe: bool)
    requires WorldInv(w) && WorkerStep(w, probe).Some?
    ensures OneProbeMoves(w, WorkerStep(w, probe).value, false)
  {
    if WLocks(w.s.w) {
      if w.s.holder == ByWorker { SectionCounts(w); }
    } else {
      WorkerRuns(w);
      PlainCounts(w, probe);
    }
  }

  lemma MoveCounts(w: World, m: Move)
    requires WorldInv(w) && Advance(w, m).Some?
    ensures OneProbeMoves(w, Advance(w, m).value, m.Lose?)
  {
    hide SessionInvariant.Inv, ServerStep, WorkerStep, ClientStep;
    match m
    case Server => ServerCounts(w);
    case Work(probe) => WorkCounts(w, probe);
    case Client => ClientCounts(w);
    case _ => NetworkCounts(w, m);
  }

  lemma NetworkCounts(w: World, m: Move)
    requires (m.Arrive? || m.Lose?) && Advance(w, m).Some?
    ensures OneProbeMoves(w, Advance(w, m).value, m.Lose?)
  {
  }

  // ----- probes are conserved one by one -----

  /** Every probe sent is in flight, in the log once, or lost. */
  ghost predicate Conserved(x: Traffic) {
    && |x.flight| == x.w.inFlight
    && |x.log| == TakenBy(x.w)
    && Distinct(x.log)
    && (forall i :: i in x.flight ==> i < x.w.emitted)
    && (forall k :: 0 <= k < |x.log| ==> x.log[k] < x.w.emitted && x.log[k] !in x.flight)
  }

  lemma CarryConserves(x: Traffic, a: Carried)
    requires Conserved(x) && Carry(x, a).Some?
    requires OneProbeMoves(x.w, Advance(x.w, a.m).value, a.m.Lose?)
    ensures Conserved(Carry(x, a).value)
    ensures x.log <= Carry(x, a).value.log && |Carry(x, a).value.log| <= |x.log| + 1
  {
    assert x.w.emitted !in x.flight;
  }

  /** Whenever the conversation can move, so can its traffic. */
  lemma CarryFollows(x: Traffic, m: Move) returns (probe: nat)
    requires WorldInv(x.w) && Conserved(x) && Advance(x.w, m).Some?
    ensures Carry(x, Carried(m, probe)).Some?
  {
    MoveCounts(x.w, m);
    probe := 0;
    if x.flight != {} { probe :| probe in x.flight; }
  }

  lemma {:induction false} TransmitInv(x: Traffic, acts: seq<Carried>)
    requires WorldInv(x.w) && Conserved(x) && Transmit(x, acts).Some?
    ensures var x' := Transmit(x, acts).value; WorldInv(x'.w) && Conserved(x') && x'.w.p == x.w.p
    decreases |acts|
  {
    hide WorldInv, ServerStep;
    if acts != [] {
      MoveCounts(x.w, acts[0].m);
      CarryConserves(x, acts[0]);
      StepWorldInv(x.w, acts[0].m);
      ConversationTheorems.StepMeasure(x.w, acts[0].m);
      TransmitInv(Carry(x, acts[0]).value, acts[1..]);
    }
  }

  lemma SilentInv(p: Params, tcp6: bool)
    requires p.direction != Both && (p.family == IPv6 ==> tcp6)
    ensures WorldInv(Silent(p, tcp6).w) && Conserved(Silent(p, tcp6))
  {
    hide WorldInv;
    InitialInv(p, tcp6);
  }

  // ----- what a returned result says about packets -----

  /** The engine's configurations for a test: session and test number are zero, the port and the
      payload size are cut to 16 bits. */
  function SenderFor(p: Params): P.SenderConfig {
    P.SenderConfig(0, 0, p.direction, p.family,
                   (if p.direction == Uplink then p.udpPort else p.clientReceivePort) % 0x1_0000,
                   p.payloadSize % 0x1_0000, p.packetCount)
  }

  function ReceiverFor(p: Params): P.ReceiverConfig { P.ReceiverConfig(0, 0, p.direction, p.family) }

  /** The probes a returned result counts: the first ones taken. */
  function Counted(x: Traffic): seq<nat>
    requires x.w.c.CReturned?
  {
    if 0 <= x.w.c.r.received <= |x.log| then x.log[..x.w.c.r.received] else x.log
  }

  /** A result counts probes from the front of the log, all of them when an uplink send_complete
      met the receiver's channels. */
  lemma CountedProbes(x: Traffic)
    requires WorldInv(x.w) && Conserved(x) && x.w.c.CReturned?
    ensures 0 <= x.w.c.r.received == |Counted(x)| <= |x.log|
    ensures Up(x.w) && x.w.s.g.sc == Seen ==> Counted(x) == x.log
  {
    if Up(x.w) && x.w.s.g.sc == Seen { SeenIsCounted(x.w); }
  }

  /** The receiver has finished, and the Result carries its final count. */
  lemma SeenIsCounted(w: World)
    requires WorldInv(w) && w.c.CReturned? && Up(w) && w.s.g.sc == Seen
    ensures w.c.r.received == ReceiverCount(w.s)
  {
    assert w.s.f.state == Completed && w.s.doneCloses == 1 && w.s.w == WDone;
  }

  lemma ReturnedSent(w: World)
    requires WorldInv(w) && w.c.CReturned?
    ensures w.c.r.sent == w.p.packetCount && w.c.r.lost == w.c.r.sent - w.c.r.received
  {
  }

  lemma CountedDelivery(x: Traffic)
    requires WorldInv(x.w) && Conserved(x) && x.w.c.CReturned?
    ensures M.Delivery(Counted(x), x.w.emitted) && x.w.emitted <= Total(x.w.p)
  {
    hide Side;
    CountedProbes(x);
  }

  /** For every schedule, loss and reordering, when the client has returned: a receiver that meets
      the packets it counts accepts and matches exactly those, and when sequence numbers do not
      wrap the reported loss is the number of the test's packets that are missing from them. */
  lemma LossCountsPackets(
    p: Params, tcp6: bool, acts: seq<Carried>, x: Traffic, clock: nat -> Codec.i64, events: seq<P.Event>)
    requires p.direction != Both && (p.family == IPv6 ==> tcp6) && 0 <= p.packetCount
    requires Transmit(Silent(p, tcp6), acts) == Some(x) && x.w.c.CReturned?
    requires M.Arrivals(events, Counted(x), SenderFor(p), clock)
    ensures var r, received := x.w.c.r, P.Accepted(ReceiverFor(p), events);
      && r.sent == p.packetCount
      && r.received == |received| == |P.MatchedSeqs(received)| <= p.packetCount
      && (Up(x.w) && x.w.s.g.sc == Seen ==> Counted(x) == x.log)
      && (p.packetCount <= 0x1_0000_0000 ==> r.lost == |M.Missing(p.packetCount, P.MatchedSeqs(received))|)
  {
    hide WorldInv, Conserved;
    SilentInv(p, tcp6);
    TransmitInv(Silent(p, tcp6), acts);
    CountedProbes(x);
    ReturnedSent(x.w);
    CountedDelivery(x);
    M.LossIsExact(SenderFor(p), ReceiverFor(p), clock, events, Counted(x), p.packetCount);
  }

  // ----- tests of one direction and family look alike -----

  /** Some test of this direction and family has sent this datagram. */
  ghost predicate ProbeOf(d: Direction, f: Family, data: seq<Codec.byte>) {
    exists p: Params, clock: nat -> Codec.i64, i: nat ::
      p.direction == d && p.family == f && data == P.Packet(SenderFor(p), clock, i)
  }

  /** Session and test number are always zero, so a receiver accepts every probe of every test, and
      matches it if and only if the two tests agree in direction and family. */
  lemma TestsLookAlike(p: Params, q: Params, clock: nat -> Codec.i64, i: nat)
    requires p.direction != Both
    ensures var a := P.Accept(ReceiverFor(q), P.Packet(SenderFor(p), clock, i));
      |a| == 1 && a[0].sequence == P.Wrap(i) && (a[0].matched <==> p.direction == q.direction && p.family == q.family)
  {
    M.ProbeIsAccepted(SenderFor(p), ReceiverFor(q), clock, i);
  }

  /** A probe of a test: its length, session and test zero, and the port of its direction. */
  lemma TestPacketBytes(p: Params, clock: nat -> Codec.i64, i: nat)
    ensures var b: seq<int> := P.Packet(SenderFor(p), clock, i);
      && |b| == 48 + p.payloadSize % 0x1_0000
      && (forall k :: 4 <= k < 12 ==> b[k] == 0)
      && b[14] * 0x100 + b[15] == (if p.direction == Uplink then p.udpPort else p.clientReceivePort) % 0x1_0000
  {
    M.PacketBytes(SenderFor(p), clock, i);
  }

  /** Datagrams met before the receive loop ends. */
  function Arrived(events: seq<P.Event>): nat {
    if events == [] || events[0].Quit? || events[0].ReadError? then 0
    else (if events[0].Datagram? then 1 else 0) + Arrived(events[1..])
  }

  /** Whichever tests of its direction and family they come from, a receiver counts all probes that
      arrive. */
  lemma {:induction false} LateProbesCount(q: Params, events: seq<P.Event>)
    requires q.direction != Both
    requires forall k :: 0 <= k < |events| && events[k].Datagram? ==> ProbeOf(q.direction, q.family, events[k].data)
    ensures var received := P.Accepted(ReceiverFor(q), events);
      |received| == Arrived(events) && forall k :: 0 <= k < |received| ==> received[k].matched
    decreases |events|
  {
    if events != [] && !events[0].Quit? && !events[0].ReadError? {
      LateProbesCount(q, events[1..]);
      if events[0].Datagram? {
        var p: Params, clock: nat -> Codec.i64, i: nat :|
          p.direction == q.direction && p.family == q.family && events[0].data == P.Packet(SenderFor(p), clock, i);
        TestsLookAlike(p, q, clock, i);
      }
    }
  }

  /** So probes that an earlier test left in the network make a test of n packets report a negative
      loss: it has n minus the arrivals. */
  lemma LossCanBeNegative(p: Params, q: Params, clock: nat -> Codec.i64) returns (events: seq<P.Event>)
    requires p.direction == q.direction != Both && p.family == q.family && 0 <= q.packetCount
    ensures forall k :: 0 <= k < q.packetCount ==>
      k < |events| && events[k] == P.Datagram(P.Packet(SenderFor(q), clock, k))
    ensures |events| == q.packetCount + 2 && events[q.packetCount] == P.Datagram(P.Packet(SenderFor(p), clock, 0))
    ensures q.packetCount - |P.MatchedSeqs(P.Accepted(ReceiverFor(q), events))| == -1
  {
    var n := q.packetCount;
    events := seq(n, k requires 0 <= k => P.Datagram(P.Packet(SenderFor(q), clock, k)))
      + [P.Datagram(P.Packet(SenderFor(p), clock, 0)), P.Quit];
    forall k | 0 <= k < |events| && events[k].Datagram? ensures ProbeOf(q.direction, q.family, events[k].data) {
      if k < n { assert events[k].data == P.Packet(SenderFor(q), clock, k); }
    }
    LateProbesCount(q, events);
    AllArrive(events, n + 1);
    M.AllMatched(P.Accepted(ReceiverFor(q), events));
  }

  lemma {:induction false} AllArrive(events: seq<P.Event>, n: nat)
    requires |events| == n + 1 && events[n] == P.Quit && forall k :: 0 <= k < n ==> events[k].Datagram?
    ensures Arrived(events) == n
    decreases n
  {
    if n > 0 { AllArrive(events[1..], n - 1); }
  }
}
