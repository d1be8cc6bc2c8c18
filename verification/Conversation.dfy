/** The client scripts RunUplink and RunDownlink, run against a session over the control
    connection and a network that loses and delays probes.  The slot is acquired, address
    families agree, nothing times out and socket operations succeed. */
module Conversation {
  import opened Protocol
  import opened Session

  datatype TestResult = TestResult(direction: Direction, sent: int, received: int, lost: int)

  datatype CPc =
    | CHello | CPrepare | CAwaitReady | CStart
    | CProbe(i: nat)                  // uplink: probe i of sender.Send
    | CComplete                       // uplink: send_complete
    | CAwaitComplete | CCount         // downlink: wait for send_complete, read the matched count
    | CFetch(counted: nat)
    | CAwaitResult(counted: nat)
    | CReturned(r: TestResult)
    | CRefused                        // an error return: some other message, or a broken frame

  datatype World = World(
    p: Params,           // the client's test parameters
    s: Sess,
    c: CPc,
    queue: seq<Msg>,     // client to server
    delivered: nat,      // messages the server has read
    read: nat,           // half-frames the client has read
    emitted: nat,        // probes sent
    inFlight: nat,       // probes neither lost nor accepted yet
    matched: nat)        // probes the client's receiver has matched (downlink)

  datatype Move =
    | Server             // the message handler
    | Work(probe: bool)  // the worker; a receiver may find a probe waiting
    | Client
    | Arrive             // the client's receiver takes a probe
    | Lose               // the network drops a probe

  function Begin(p: Params, tcp6: bool): World {
    World(p, Session.Initial(tcp6), CHello, [], 0, 0, 0, 0, 0)
  }

  predicate Up(w: World) { w.p.direction == Uplink }

  function Post(w: World, m: Msg, c: CPc): World {
    w.(queue := w.queue + [m], c := c)
  }

  /** recvResponse: the next frame, read as a length word and a body. */
  function Receive(w: World): Option<Msg>
    requires w.read + 2 <= |w.s.out|
  {
    var (len, body) := (w.s.out[w.read], w.s.out[w.read + 1]);
    if len.LenWord? && body == Body(len.m) then Some(len.m) else None
  }

  /** What the client does with the reply it waited for. */
  function OnReply(w: World, m: Option<Msg>): CPc {
    match w.c
    case CAwaitReady => if m == Some(MReady) then CStart else CRefused
    case CAwaitComplete => if m == Some(MSendComplete) then CCount else CRefused
    case CAwaitResult(k) =>
      if m.Some? && m.value.MResult? then
        var got := if Up(w) then m.value.received else k;
        CReturned(TestResult(w.p.direction, m.value.sent, got, m.value.sent - got))
      else CRefused
    case _ => CRefused
  }

  predicate Awaits(c: CPc) { c.CAwaitReady? || c.CAwaitComplete? || c.CAwaitResult? }

  function ClientStep(w: World): Option<World> {
    if Awaits(w.c) then
      if w.read + 2 <= |w.s.out| then Some(w.(c := OnReply(w, Receive(w)), read := w.read + 2)) else None
    else
      match w.c
      case CHello => Some(Post(w, MHello(PROTOCOL_VERSION), CPrepare))
      case CPrepare => Some(Post(w, MPrepare(w.p), CAwaitReady))
      case CStart => Some(Post(w, MStart, if Up(w) then CProbe(0) else CAwaitComplete))
      case CProbe(i) =>
        if i < w.p.packetCount then Some(w.(c := CProbe(i + 1), emitted := w.emitted + 1, inFlight := w.inFlight + 1))
        else Some(w.(c := CComplete))
      case CComplete => Some(Post(w, MSendComplete, CFetch(0)))
      case CCount => Some(w.(c := CFetch(w.matched)))
      case CFetch(k) => Some(Post(w, MFetchResult, CAwaitResult(k)))
      case _ => None
  }

  function ServerStep(w: World): Option<World> {
    if w.s.h.HRecv? then
      if w.queue == [] then None
      else
        match HStep(w.s, Got(Data(w.queue[0])))
        case None => None
        case Some(s') => Some(w.(s := s', queue := w.queue[1..], delivered := w.delivered + 1))
    else
      match HStep(w.s, Yes)
      case None => None
      case Some(s') => Some(w.(s := s'))
  }

  function WorkerStep(w: World, probe: bool): Option<World> {
    if w.s.w.WRead? && probe && w.inFlight == 0 then None
    else
      match WStep(w.s, if w.s.w.WRead? && !probe then No else Yes)
      case None => None
      case Some(s') =>
        if w.s.w.WRead? && probe then Some(w.(s := s', inFlight := w.inFlight - 1))
        else if w.s.w.WSend? && w.s.w.i < w.s.w.count then
          Some(w.(s := s', emitted := w.emitted + 1, inFlight := w.inFlight + 1))
        else Some(w.(s := s'))
  }

  /** RunDownlink's receiver listens from just before Start until the script returns. */
  predicate Listening(c: CPc) {
    c.CStart? || c.CAwaitComplete? || c.CCount? || c.CFetch? || c.CAwaitResult?
  }

  function Advance(w: World, a: Move): Option<World> {
    match a
    case Server => ServerStep(w)
    case Work(probe) => WorkerStep(w, probe)
    case Client => ClientStep(w)
    case Arrive =>
      if !Up(w) && Listening(w.c) && w.inFlight > 0 then
        Some(w.(inFlight := w.inFlight - 1, matched := w.matched + 1))
      else None
    case Lose => if w.inFlight > 0 then Some(w.(inFlight := w.inFlight - 1)) else None
  }

  function Play(w: World, acts: seq<Move>): Option<World>
    decreases |acts|
  {
    if acts == [] then Some(w)
    else
      match Advance(w, acts[0])
      case None => None
      case Some(w') => Play(w', acts[1..])
  }
}
