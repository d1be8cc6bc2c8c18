/** The vocabulary shared by the control plane and the probe engine: directions,
    address families, session states with their transition table, and control messages. */
module Protocol {
  datatype Option<+T> = None | Some(value: T)

  datatype Direction = Uplink | Downlink | Both

  datatype Family = IPv4 | IPv6

  /** The numbers behind the enumerations, which order plans and reports and appear on the wire. */
  function DirectionCode(d: Direction): (c: nat)
    ensures c <= 2
  {
    match d case Uplink => 0 case Downlink => 1 case Both => 2
  }

  function FamilyCode(f: Family): (c: nat)
    ensures c <= 1
  {
    match f case IPv4 => 0 case IPv6 => 1
  }

  datatype SessionState = Idle | Preparing | Ready | Running | Collecting | Completed | Failed | Cancelled

  const PROTOCOL_VERSION := 1

  /** The transition table. */
  predicate CanTransition(from: SessionState, to: SessionState) {
    match from
    case Idle => to == Preparing
    case Preparing => to == Ready || to == Cancelled || to == Failed
    case Ready => to == Running || to == Cancelled
    case Running => to == Collecting || to == Cancelled
    case Collecting => to == Completed || to == Failed
    case Completed => to == Idle
    case Failed => to == Idle
    case Cancelled => to == Idle
  }

  predicate IsTerminal(s: SessionState) {
    s == Completed || s == Failed || s == Cancelled
  }

  predicate IsActive(s: SessionState) {
    s != Idle && !IsTerminal(s)
  }

  /** Position along a session's life; the three terminal states share the last position. */
  function Rank(s: SessionState): (r: nat)
    ensures r <= 5
    ensures r == 5 <==> IsTerminal(s)
  {
    match s
    case Idle => 0
    case Preparing => 1
    case Ready => 2
    case Running => 3
    case Collecting => 4
    case Completed => 5
    case Failed => 5
    case Cancelled => 5
  }

  /** What a Prepare message carries. */
  datatype Params = Params(
    direction: Direction,
    family: Family,
    udpPort: int,
    payloadSize: int,
    packetCount: int,
    intervalMs: int,
    clientReceivePort: int)

  /** Control messages; the tag and the payload of a decoded envelope always agree. */
  datatype Msg =
    | MHello(clientVersion: int)
    | MPrepare(params: Params)
    | MStart
    | MSendComplete
    | MFetchResult
    | MCancel
    | MReady
    | MResult(sent: int, received: int)
    | MBusy
    | MInvalidRequest
    | MInternalError
}
