/** The inductive invariant of a conversation. */
module ConversationInvariant {
  import opened Protocol
  import opened Session
  import opened SessionInvariant
  import opened Conversation
  import opened SessionTheorems

  /** The messages a script sends, in order. */
  function Script(p: Params): seq<Msg> {
    if p.direction == Uplink then [MHello(PROTOCOL_VERSION), MPrepare(p), MStart, MSendComplete, MFetchResult]
    else [MHello(PROTOCOL_VERSION), MPrepare(p), MStart, MFetchResult]
  }

  function Last(p: Params): nat { if p.direction == Uplink then 5 else 4 }

  /** How much of the script lies behind a client position. */
  function Posted(c: CPc, up: bool): nat {
    match c
    case CHello => 0
    case CPrepare => 1
    case CAwaitReady => 2
    case CStart => 2
    case CProbe(_) => 3
    case CComplete => 3
    case CAwaitComplete => 3
    case CCount => 3
    case CFetch(_) => if up then 4 else 3
    case CAwaitResult(_) => if up then 5 else 4
    case CReturned(_) => if up then 5 else 4
    case CRefused => 0
  }

  /** Half-frames the client has read by then. */
  function ReadBy(c: CPc, up: bool): nat {
    match c
    case CHello => 0
    case CPrepare => 0
    case CAwaitReady => 0
    case CStart => 2
    case CProbe(_) => 2
    case CComplete => 2
    case CAwaitComplete => 2
    case CCount => 4
    case CFetch(_) => if up then 2 else 4
    case CAwaitResult(_) => if up then 2 else 4
    case CReturned(_) => if up then 4 else 6
    case CRefused => 0
  }

  predicate RightDirection(c: CPc, up: bool) {
    match c
    case CProbe(_) => up
    case CComplete => up
    case CAwaitComplete => !up
    case CCount => !up
    case CRefused => false
    case _ => true
  }

  /** The session state between messages, d of which have been handled. */
  predicate Between(d: nat, st: SessionState, up: bool) {
    if d <= 1 then st == Preparing
    else if d == 2 then st == Ready
    else if d == 3 then st == Running || (!up && st == Collecting)
    else if d == 4 && up then st == Collecting
    else st == Completed
  }

  /** Where the handler is, after d messages. */
  ghost predicate ServerAt(h: HPc, d: nat, f: Fields, p: Params) {
    var st, up := f.state, p.direction == Uplink;
    && d <= Last(p)
    && (Rank(st) >= 2 ==> f.params == p && d >= 2)
    && match h
       case HInit => d == 0
       case HEnter => d == 0
       case HTop(_) => Between(d, st, up)
       case HCtx => d < Last(p) && Between(d, st, up)
       case HRecv => d < Last(p) && Between(d, st, up)
       case HPrepCheck(q) => d == 2 && st == Preparing && q == p
       case HPrepStore(q) => d == 2 && q == p
       case HPrepSet => d == 2 && f.params == p
       case HWrite(m, _, _) => if m == MReady then d == 2 else m.MResult? && d == Last(p)
       case HStartCheck => d == 3 && st == Ready
       case HStartSet => d == 3
       case HSpawn => d == 3
       case HScCheck => up && d == 4 && st == Running
       case HScClose => d == 4
       case HScWait(_) => d == 4
       case HScSet => up && d == 4
       case HFrCheck => d == Last(p) && st == Collecting
       case HFrSet => d == Last(p)
       case HResult => d == Last(p)
       case HCloseConn(ok) => d == Last(p) && ok
       case HDone => d == Last(p) && st == Completed
       case _ => false
  }

  /** The worker never fails, and a downlink sender moves the state exactly when it is done. */
  ghost predicate WorkerAt(s: Sess, up: bool) {
    match s.w
    case WIdle => Rank(s.f.state) <= 3
    case WDone => if up then s.g.bound else Rank(s.f.state) >= 4
    case WCloseDone => s.g.bound
    case WWrite(m, _, _) => !up && m == MSendComplete && Rank(s.f.state) >= 4
    case WNewSender => s.f.state == Running
    case WSend(_, _) => s.f.state == Running
    case WCount(_) => s.f.state == Running
    case WSetCollecting => s.f.state == Running
    case WSelect(_) => s.sockOpen
    case WRead(_) => s.sockOpen
    case _ => true
  }

  // ----- what has been written -----

  function ReadyHalves(h: HPc, d: nat): nat {
    if d < 2 then 0
    else if d > 2 then 2
    else
      match h
      case HPrepCheck(_) => 0
      case HPrepStore(_) => 0
      case HPrepSet => 0
      case HWrite(_, body, _) => if body then 1 else 0
      case _ => 2
  }

  function CompleteHalves(w: WPc, up: bool): nat {
    if up then 0
    else
      match w
      case WWrite(_, body, _) => if body then 1 else 0
      case WDone => 2
      case _ => 0
  }

  function ResultHalves(h: HPc, d: nat, p: Params): nat {
    if d < Last(p) then 0
    else
      match h
      case HFrCheck => 0
      case HFrSet => 0
      case HResult => 0
      case HWrite(_, body, _) => if body then 1 else 0
      case _ => 2
  }

  /** The first k halves of a frame. */
  function Halves(m: Msg, k: nat): seq<Chunk> {
    if k == 0 then [] else if k == 1 then [LenWord(m)] else [LenWord(m), Body(m)]
  }

  function ResultMsg(s: Sess): Msg { if s.g.results == [] then MBusy else s.g.results[0] }

  /** Whole frames in order, with at most the last one half written. */
  ghost predicate Wire(s: Sess, d: nat, p: Params) {
    var a := ReadyHalves(s.h, d);
    var b := CompleteHalves(s.w, p.direction == Uplink);
    var r := ResultHalves(s.h, d, p);
    && s.out == Halves(MReady, a) + Halves(MSendComplete, b) + Halves(ResultMsg(s), r)
    && (b > 0 || r > 0 ==> a == 2)
    && (r > 0 ==> p.direction == Uplink || b == 2)
    && (d == Last(p) ==> p.direction == Uplink || s.w == WDone)
    && (s.h.HWrite? && s.h.m.MResult? ==> s.g.results == [s.h.m])
    && (r > 0 ==> s.g.results != [])
    && (s.h.HWrite? ==> !s.w.WWrite?)
  }

  // ----- probes -----

  /** Probes the server's receiver has accepted. */
  function ReceiverCount(s: Sess): int {
    match s.w
    case WSelect(n) => n
    case WRead(n) => n
    case WCloseSock(n) => n
    case WPublish(n) => n
    case _ => s.f.receivedCount
  }

  function Total(p: Params): nat { if p.packetCount < 0 then 0 else p.packetCount }

  /** Probes are conserved: accepted, in flight and lost probes add up to those emitted. */
  ghost predicate Probes(w: World) {
    && w.emitted <= Total(w.p)
    && (Up(w) ==>
          && 0 <= ReceiverCount(w.s) && ReceiverCount(w.s) + w.inFlight <= w.emitted
          && 0 <= w.s.f.receivedCount <= ReceiverCount(w.s)
          && w.matched == 0
          && (w.c.CProbe? ==> w.emitted == w.c.i)
          && (w.c.CComplete? || Posted(w.c, true) >= 4 ==> w.emitted == Total(w.p))
          && (Posted(w.c, true) <= 2 ==> w.emitted == 0))
    && (!Up(w) ==>
          && w.matched + w.inFlight <= w.emitted
          && w.s.f.receivedCount == 0
          && (w.s.w.WSend? ==> w.emitted == w.s.w.i && w.s.w.count == w.p.packetCount)
          && (w.s.w.WCount? || w.s.w.WSetCollecting? || w.s.w.WWrite? || w.s.w.WDone? ==> w.emitted == Total(w.p))
          && (w.s.w.WIdle? || w.s.w.WNewSender? ==> w.emitted == 0))
    && (w.c.CFetch? ==> w.c.counted <= w.matched)
    && (w.c.CAwaitResult? ==> w.c.counted <= w.matched)
    && (w.s.g.results != [] ==>
          && w.s.g.results[0].MResult?
          && 0 <= w.s.g.results[0].received <= if Up(w) then ReceiverCount(w.s) else 0)
  }

  /** What the client returns. */
  predicate GoodReturn(w: World, r: TestResult) {
    && r.direction == w.p.direction
    && r.sent == w.p.packetCount
    && r.lost == r.sent - r.received
    && (if Up(w) then w.s.g.results == [MResult(r.sent, r.received)] else 0 <= r.received <= w.matched)
  }

  ghost predicate ClientAt(w: World) {
    var up := Up(w);
    && RightDirection(w.c, up)
    && w.delivered <= Posted(w.c, up) <= |Script(w.p)|
    && w.queue == Script(w.p)[w.delivered..Posted(w.c, up)]
    && w.read == ReadBy(w.c, up) <= |w.s.out|
    && (w.c.CReturned? ==> GoodReturn(w, w.c.r))
  }

  ghost predicate Quiet(s: Sess, d: nat, p: Params) {
    && !s.g.timedOut
    && (s.connOpen || (d == Last(p) && (s.h.HTop? || s.h.HDone?)))
    && (p.family == IPv6 ==> s.tcp6)
  }

  /** The server's side of the conversation, after d messages. */
  ghost predicate Side(s: Sess, d: nat, p: Params) {
    && ServerAt(s.h, d, s.f, p)
    && WorkerAt(s, p.direction == Uplink)
    && Wire(s, d, p)
    && Quiet(s, d, p)
  }

  ghost predicate WorldInv(w: World) {
    && w.p.direction != Both
    && Inv(w.s)
    && Side(w.s, w.delivered, w.p)
    && ClientAt(w)
    && Probes(w)
  }

  lemma InitialInv(p: Params, tcp6: bool)
    requires p.direction != Both && (p.family == IPv6 ==> tcp6)
    ensures WorldInv(Begin(p, tcp6))
  {
    InitInv(tcp6);
  }

  // ----- the client -----

  lemma ReplyInv(w: World)
    requires WorldInv(w) && Awaits(w.c) && ClientStep(w).Some?
    ensures ClientAt(ClientStep(w).value) && Probes(ClientStep(w).value)
  {
    hide HandlerAt, Channels;
  }

  lemma PostClientAt(w: World, m: Msg, c: CPc)
    requires ClientAt(w) && Posted(w.c, Up(w)) < |Script(w.p)| && m == Script(w.p)[Posted(w.c, Up(w))]
    requires Posted(c, Up(w)) == Posted(w.c, Up(w)) + 1 && ReadBy(c, Up(w)) == ReadBy(w.c, Up(w))
    requires RightDirection(c, Up(w)) && !c.CReturned?
    ensures ClientAt(Post(w, m, c))
  {
    var k := Posted(w.c, Up(w));
    assert Script(w.p)[w.delivered..k] + [m] == Script(w.p)[w.delivered..k + 1];
  }

  predicate Posts(c: CPc) { c.CHello? || c.CPrepare? || c.CStart? || c.CComplete? || c.CFetch? }

  lemma PostProbes(w: World)
    requires WorldInv(w) && Posts(w.c)
    ensures Probes(ClientStep(w).value)
  {
    hide Inv;
  }

  lemma PostInv(w: World)
    requires ClientAt(w) && Posts(w.c)
    ensures ClientAt(ClientStep(w).value)
  {
    PostClientAt(w, Script(w.p)[Posted(w.c, Up(w))], ClientStep(w).value.c);
  }

  lemma ProbeInv(w: World)
    requires WorldInv(w) && (w.c.CProbe? || w.c.CCount?)
    ensures ClientAt(ClientStep(w).value) && Probes(ClientStep(w).value)
  {
  }

  lemma ClientInv(w: World)
    requires WorldInv(w) && ClientStep(w).Some?
    ensures WorldInv(ClientStep(w).value)
  {
    ClientFrame(w);
    if Awaits(w.c) { ReplyInv(w); }
    else if w.c.CProbe? || w.c.CCount? { ProbeInv(w); }
    else { PostInv(w); PostProbes(w); }
  }

  /** The client leaves the session alone. */
  lemma ClientFrame(w: World)
    requires ClientStep(w).Some?
    ensures var w' := ClientStep(w).value; w'.s == w.s && w'.delivered == w.delivered && w'.p == w.p
    ensures Awaits(w.c) || w.c.CProbe? || w.c.CCount? || Posts(w.c)
  {
  }

  lemma NetworkInv(w: World, a: Move)
    requires WorldInv(w) && (a.Arrive? || a.Lose?) && Advance(w, a).Some?
    ensures WorldInv(Advance(w, a).value)
  {
  }

  // ----- the handler -----

  predicate Ending(h: HPc) { h.HScClose? || h.HScSet? || h.HFrSet? }

  lemma EarlySectionSide(s: Sess, d: nat, p: Params)
    requires Inv(s) && Side(s, d, p) && p.direction != Both && HLocks(s.h) && s.holder == ByHandler
    ensures !Ending(s.h) ==> Side(HSection(s), d, p)
  {
    hide WorkerState;
  }

  lemma EndSectionSide(s: Sess, d: nat, p: Params)
    requires Inv(s) && Side(s, d, p) && p.direction != Both && Ending(s.h) && s.holder == ByHandler
    ensures Side(HSection(s), d, p)
  {
    hide AfterRead, Channels;
  }

  lemma SectionSide(s: Sess, d: nat, p: Params)
    requires Inv(s) && Side(s, d, p) && p.direction != Both && HLocks(s.h) && s.holder == ByHandler
    ensures Side(HSection(s), d, p)
  {
    if Ending(s.h) { EndSectionSide(s, d, p); } else { EarlySectionSide(s, d, p); }
  }

  lemma ReadSide(s: Sess, d: nat, p: Params)
    requires Inv(s) && Side(s, d, p) && p.direction != Both && HReadsState(s.h)
    ensures Side(s.(h := HStateRead(s)), d, p)
  {
    hide Results, Channels;
  }

  lemma WriteSide(s: Sess, d: nat, p: Params)
    requires Inv(s) && Side(s, d, p) && p.direction != Both && s.h.HWrite?
    ensures Side(HPlain(s, Yes).value, d, p)
  {
  }

  lemma StartSide(s: Sess, d: nat, p: Params)
    requires Inv(s) && Side(s, d, p) && p.direction != Both && (s.h.HCtx? || s.h.HPrepStore? || s.h.HSpawn?)
    ensures Side(HPlain(s, Yes).value, d, p)
  {
  }

  lemma EndSide(s: Sess, d: nat, p: Params)
    requires Inv(s) && Side(s, d, p) && p.direction != Both && (s.h.HScWait? || s.h.HResult? || s.h.HCloseConn?)
    ensures HEnabled(s, Yes) ==> Side(HPlain(s, Yes).value, d, p)
  {
    hide Channels, Results;
  }

  lemma RecvServerAt(s: Sess, d: nat, p: Params)
    requires Inv(s) && Side(s, d, p) && p.direction != Both && s.h.HRecv? && d < |Script(p)|
    requires d == 3 && p.direction == Downlink ==> s.w == WDone
    ensures ServerAt(Dispatch(Script(p)[d]), d + 1, s.f, p)
  {
  }

  lemma RecvSide(s: Sess, d: nat, p: Params)
    requires Inv(s) && Side(s, d, p) && p.direction != Both && s.h.HRecv? && d < |Script(p)|
    requires d == 3 && p.direction == Downlink ==> s.w == WDone
    ensures HStep(s, Got(Data(Script(p)[d]))).Some?
    ensures Side(HStep(s, Got(Data(Script(p)[d]))).value, d + 1, p)
  {
    hide Channels;
    RecvServerAt(s, d, p);
  }

  lemma WorkerSectionSide(s: Sess, d: nat, p: Params)
    requires Inv(s) && Side(s, d, p) && p.direction != Both && WLocks(s.w) && s.holder == ByWorker
    ensures Side(WSection(s, Yes), d, p)
  {
  }

  lemma WorkerPlainSide(s: Sess, d: nat, p: Params, c: Choice)
    requires Inv(s) && Side(s, d, p) && p.direction != Both && !WLocks(s.w) && WStep(s, c).Some?
    requires if s.w.WRead? then c != Fail else c == Yes
    ensures Side(WStep(s, c).value, d, p)
  {
  }

  /** A handler step concerns the client only through what it writes. */
  lemma HandlerClientAt(w: World, s: Sess)
    requires ClientAt(w) && HandlerFrame(w.s, s)
    ensures ClientAt(w.(s := s))
  {
  }

  lemma HandlerProbes(w: World, s: Sess)
    requires WorldInv(w)
    requires HandlerFrame(w.s, s)
    ensures Probes(w.(s := s))
    ensures w.queue != [] ==> Probes(w.(s := s, queue := w.queue[1..], delivered := w.delivered + 1))
  {
  }

  ghost predicate HandlerFrame(s: Sess, s': Sess) {
    && s'.f.receivedCount == s.f.receivedCount
    && (s'.w == s.w || (s.w == WIdle && (s'.w == WNewSender || s'.w == WInstall)))
    && (s'.g.results == s.g.results || (s.g.results == [] && s'.g.results == [ResultOf(s.f)]))
    && |s.out| <= |s'.out|
  }

  lemma HandlerPlainEffect(s: Sess, c: Choice)
    requires Inv(s) && !HLocks(s.h) && !HReadsState(s.h) && HPlain(s, c).Some?
    ensures HandlerFrame(s, HPlain(s, c).value)
  {
    HandlerPlainFrame(s, c);
  }

  lemma HandlerEffect(s: Sess, c: Choice)
    requires Inv(s) && HStep(s, c).Some?
    ensures HandlerFrame(s, HStep(s, c).value)
  {
    if HLocks(s.h) { if s.holder == ByHandler { HandlerSectionFrame(s); } }
    else if !HReadsState(s.h) { HandlerPlainEffect(s, c); }
  }

  lemma DeliverClientAt(w: World, s: Sess)
    requires ClientAt(w) && w.queue != [] && HandlerFrame(w.s, s)
    ensures ClientAt(w.(s := s, queue := w.queue[1..], delivered := w.delivered + 1))
  {
    assert w.queue[1..] == Script(w.p)[w.delivered + 1..Posted(w.c, Up(w))];
  }

  lemma DeliveredInv(w: World, s: Sess)
    requires WorldInv(w) && w.queue != []
    requires Inv(s) && Side(s, w.delivered + 1, w.p) && HandlerFrame(w.s, s)
    ensures WorldInv(w.(s := s, queue := w.queue[1..], delivered := w.delivered + 1))
  {
    DeliverClientAt(w, s);
    HandlerProbes(w, s);
  }

  lemma NextMessage(w: World)
    requires WorldInv(w) && w.s.h.HRecv? && w.queue != []
    ensures w.delivered < |Script(w.p)| && w.queue[0] == Script(w.p)[w.delivered]
    ensures w.delivered == 3 && !Up(w) ==> w.s.w == WDone
  {
  }

  lemma DeliverInv(w: World)
    requires WorldInv(w) && w.s.h.HRecv? && w.queue != []
    ensures HStep(w.s, Got(Data(w.queue[0]))).Some?
    ensures WorldInv(w.(s := HStep(w.s, Got(Data(w.queue[0]))).value,
                        queue := w.queue[1..], delivered := w.delivered + 1))
  {
    hide Wire;
    var c := Got(Data(w.queue[0]));
    NextMessage(w);
    RecvSide(w.s, w.delivered, w.p);
    HandlerInv(w.s, c);
    HandlerEffect(w.s, c);
    DeliveredInv(w, HStep(w.s, c).value);
  }

  lemma LockSide(s: Sess, d: nat, p: Params)
    requires Side(s, d, p)
    ensures Side(s.(holder := ByHandler), d, p)
  {
  }

  lemma HandlerSide(s: Sess, d: nat, p: Params)
    requires Inv(s) && Side(s, d, p) && p.direction != Both && !s.h.HRecv? && HStep(s, Yes).Some?
    ensures Side(HStep(s, Yes).value, d, p)
  {
    hide Inv, Side, HSection, HPlainNext;
    if HLocks(s.h) { if s.holder == ByHandler { SectionSide(s, d, p); } else { LockSide(s, d, p); } }
    else if HReadsState(s.h) { ReadSide(s, d, p); }
    else if s.h.HWrite? { WriteSide(s, d, p); }
    else if s.h.HCtx? || s.h.HPrepStore? || s.h.HSpawn? { StartSide(s, d, p); }
    else { EndSide(s, d, p); }
  }

  lemma ServerInv(w: World)
    requires WorldInv(w) && ServerStep(w).Some?
    ensures WorldInv(ServerStep(w).value)
  {
    hide Side, Inv, HStep;
    if w.s.h.HRecv? {
      DeliverInv(w);
    } else {
      var s' := HStep(w.s, Yes).value;
      HandlerInv(w.s, Yes);
      HandlerSide(w.s, w.delivered, w.p);
      HandlerEffect(w.s, Yes);
      HandlerClientAt(w, s');
      HandlerProbes(w, s');
    }
  }

  // ----- the worker -----

  lemma WorkerSectionRest(w: World)
    requires WorldInv(w) && WLocks(w.s.w) && w.s.holder == ByWorker
    ensures ClientAt(w.(s := WSection(w.s, Yes))) && Probes(w.(s := WSection(w.s, Yes)))
  {
  }

  lemma WorkerPlainClientAt(w: World, probe: bool)
    requires WorldInv(w) && !WLocks(w.s.w) && WorkerStep(w, probe).Some?
    ensures ClientAt(WorkerStep(w, probe).value)
  {
  }

  lemma WorkerPlainProbes(w: World, probe: bool)
    requires WorldInv(w) && !WLocks(w.s.w) && WorkerStep(w, probe).Some?
    ensures Probes(WorkerStep(w, probe).value)
  {
    hide ClientAt, Wire, Quiet;
  }

  lemma WorkerSectionWorldInv(w: World)
    requires WorldInv(w) && WLocks(w.s.w) && w.s.holder != ByHandler
    ensures WorldInv(WorkerStep(w, false).value)
  {
    hide Inv, Side, ClientAt, Probes, WSection;
    WorkerInv(w.s, Yes);
    if w.s.holder == ByWorker {
      WorkerSectionRest(w);
      WorkerSectionSide(w.s, w.delivered, w.p);
    } else {
      WorkerLockRest(w);
    }
  }

  lemma WorkerLockRest(w: World)
    requires WorldInv(w) && WLocks(w.s.w)
    ensures var v := w.(s := w.s.(holder := ByWorker)); Side(v.s, v.delivered, v.p) && ClientAt(v) && Probes(v)
  {
    hide Inv;
  }

  lemma WorkerPlainWorldInv(w: World, probe: bool)
    requires WorldInv(w) && !WLocks(w.s.w) && WorkerStep(w, probe).Some?
    ensures WorldInv(WorkerStep(w, probe).value)
  {
    hide Inv, ClientAt, Probes, Side, WPlain;
    var c := if w.s.w.WRead? && !probe then No else Yes;
    WorkerInv(w.s, c);
    WorkerPlainClientAt(w, probe);
    WorkerPlainProbes(w, probe);
    WorkerPlainSide(w.s, w.delivered, w.p, c);
  }

  lemma StepWorldInv(w: World, a: Move)
    requires WorldInv(w) && Advance(w, a).Some?
    ensures WorldInv(Advance(w, a).value)
  {
    hide WorldInv;
    match a
    case Server => ServerInv(w);
    case Work(probe) => if WLocks(w.s.w) { WorkerSectionWorldInv(w); } else { WorkerPlainWorldInv(w, probe); }
    case Client => ClientInv(w);
    case Arrive => NetworkInv(w, a);
    case Lose => NetworkInv(w, a);
  }
}
