/** Every conversation succeeds: it is never refused, cannot get stuck, needs a bounded number of
    steps apart from polling, and returns consistent counts. */
module ConversationTheorems {
  import opened Protocol
  import opened Session
  import opened SessionInvariant
  import opened Conversation
  import opened ConversationInvariant

  // ----- how much is left to do -----

  function HandlerPosition(h: HPc): nat {
    match h
    case HCtx => 1
    case HTop(k) => if k > 2 then 0 else 4 - k
    case HInit => 6
    case HEnter => 5
    case HWrite(_, body, _) => if body then 6 else 7
    case HPrepSet => 8
    case HPrepStore(_) => 9
    case HPrepCheck(_) => 10
    case HSpawn => 5
    case HStartSet => 6
    case HStartCheck => 7
    case HScSet => 5
    case HScWait(_) => 6
    case HScClose => 7
    case HScCheck => 8
    case HCloseConn(_) => 5
    case HResult => 8
    case HFrSet => 9
    case HFrCheck => 10
    case _ => 0
  }

  /** Handler steps until the next message is needed. */
  function HandlerRank(s: Sess): nat {
    2 * HandlerPosition(s.h) + if HLocks(s.h) && s.holder != ByHandler then 1 else 0
  }

  function WorkerPosition(s: Sess, total: nat): nat {
    match s.w
    case WIdle => total + 20
    case WNewSender => total + 12
    case WSend(n, i) => 10 + if i < n then n - i else 0
    case WCount(_) => 9
    case WSetCollecting => 8
    case WWrite(_, body, _) => if body then 2 else 3
    case WInstall => 10
    case WSelect(_) => if s.quitCloses == 0 then 8 else 6
    case WRead(_) => if s.quitCloses == 0 then 8 else 7
    case WCloseSock(_) => 5
    case WPublish(_) => 4
    case WCloseDone => 1
    case WDone => 0
  }

  /** Worker steps left, not counting the polling of a receiver that has not been told to stop. */
  function WorkerRank(s: Sess, total: nat): nat {
    2 * WorkerPosition(s, total) + if WLocks(s.w) && s.holder != ByWorker then 1 else 0
  }

  function ClientRank(c: CPc, total: nat): nat {
    match c
    case CHello => total + 12
    case CPrepare => total + 11
    case CAwaitReady => total + 10
    case CStart => total + 9
    case CProbe(i) => 7 + if i < total then total - i else 0
    case CComplete => 6
    case CAwaitComplete => 6
    case CCount => 5
    case CFetch(_) => 4
    case CAwaitResult(_) => 3
    case CReturned(_) => 0
    case CRefused => 0
  }

  function Measure(w: World): nat
    requires w.delivered <= Last(w.p)
  {
    30 * (Last(w.p) - w.delivered) + HandlerRank(w.s) + WorkerRank(w.s, Total(w.p)) + ClientRank(w.c, Total(w.p))
  }

  /** The network's own moves, and a receiver polling its socket. */
  predicate Poll(w: World, a: Move) {
    a.Arrive? || a.Lose? || (a.Work? && Receiving(w.s.w) && w.s.quitCloses == 0)
  }

  lemma HandlerRankFalls(s: Sess, d: nat, p: Params)
    requires Inv(s) && Side(s, d, p) && p.direction != Both && !s.h.HRecv? && HStep(s, Yes).Some?
    ensures HandlerRank(HStep(s, Yes).value) < HandlerRank(s)
    ensures WorkerRank(HStep(s, Yes).value, Total(p)) <= WorkerRank(s, Total(p))
  {
    hide Inv, WorkerAt, Side;
    if HLocks(s.h) { if s.holder == ByHandler { SectionRankFalls(s, d, p); } }
    else if HReadsState(s.h) { ReadRankFalls(s, d, p); }
    else { PlainRankFalls(s, d, p); }
  }

  lemma SectionRankFalls(s: Sess, d: nat, p: Params)
    requires Inv(s) && Side(s, d, p) && p.direction != Both && HLocks(s.h) && s.holder == ByHandler
    ensures HandlerRank(HSection(s)) < HandlerRank(s)
    ensures WorkerRank(HSection(s), Total(p)) <= WorkerRank(s, Total(p))
  {
    hide Channels, Wire;
  }

  lemma ReadRankFalls(s: Sess, d: nat, p: Params)
    requires Inv(s) && Side(s, d, p) && p.direction != Both && HReadsState(s.h)
    ensures HandlerRank(s.(h := HStateRead(s))) < HandlerRank(s)
  {
  }

  lemma PlainRankFalls(s: Sess, d: nat, p: Params)
    requires Inv(s) && Side(s, d, p) && p.direction != Both
    requires !HLocks(s.h) && !HReadsState(s.h) && !s.h.HRecv? && HPlain(s, Yes).Some?
    ensures HandlerRank(HPlain(s, Yes).value) < HandlerRank(s)
    ensures WorkerRank(HPlain(s, Yes).value, Total(p)) <= WorkerRank(s, Total(p))
  {
    hide HandlerState, ServerAt;
  }

  lemma DeliverRank(s: Sess, m: Msg)
    requires s.h.HRecv? && s.connOpen
    ensures var s' := HPlain(s, Got(Data(m))).value;
      HandlerRank(s') < 30 && forall t: nat :: WorkerRank(s', t) == WorkerRank(s, t)
  {
  }

  lemma WorkerRankMoves(s: Sess, d: nat, p: Params, c: Choice)
    requires Inv(s) && Side(s, d, p) && p.direction != Both && WStep(s, c).Some?
    requires if s.w.WRead? then c != Fail else c == Yes
    ensures HandlerRank(WStep(s, c).value) == HandlerRank(s)
    ensures if Receiving(s.w) && s.quitCloses == 0
            then WorkerRank(WStep(s, c).value, Total(p)) == WorkerRank(s, Total(p))
            else WorkerRank(WStep(s, c).value, Total(p)) < WorkerRank(s, Total(p))
  {
    if WLocks(s.w) { WorkerSectionRank(s, d, p); } else { WorkerPlainRank(s, d, p, c); }
  }

  lemma WorkerSectionRank(s: Sess, d: nat, p: Params)
    requires Inv(s) && Side(s, d, p) && p.direction != Both && WLocks(s.w) && s.holder != ByHandler
    ensures HandlerRank(WStep(s, Yes).value) == HandlerRank(s)
    ensures WorkerRank(WStep(s, Yes).value, Total(p)) < WorkerRank(s, Total(p))
  {
    hide HandlerAt;
  }

  lemma WorkerPlainRank(s: Sess, d: nat, p: Params, c: Choice)
    requires Inv(s) && Side(s, d, p) && p.direction != Both && !WLocks(s.w) && WPlain(s, c).Some?
    requires if s.w.WRead? then c != Fail else c == Yes
    ensures HandlerRank(WPlain(s, c).value) == HandlerRank(s)
    ensures if Receiving(s.w) && s.quitCloses == 0
            then WorkerRank(WPlain(s, c).value, Total(p)) == WorkerRank(s, Total(p))
            else WorkerRank(WPlain(s, c).value, Total(p)) < WorkerRank(s, Total(p))
  {
  }

  lemma ServerMeasure(w: World)
    requires WorldInv(w) && ServerStep(w).Some?
    ensures ServerStep(w).value.delivered <= Last(w.p) && ServerStep(w).value.p == w.p
    ensures Measure(ServerStep(w).value) < Measure(w)
  {
    if w.s.h.HRecv? { DeliverRank(w.s, w.queue[0]); } else { HandlerRankFalls(w.s, w.delivered, w.p); }
  }

  lemma WorkMeasure(w: World, probe: bool)
    requires WorldInv(w) && WorkerStep(w, probe).Some?
    ensures WorkerStep(w, probe).value.delivered == w.delivered && WorkerStep(w, probe).value.p == w.p
    ensures Measure(WorkerStep(w, probe).value) + (if Poll(w, Work(probe)) then 0 else 1) <= Measure(w)
  {
    WorkerRankMoves(w.s, w.delivered, w.p, if w.s.w.WRead? && !probe then No else Yes);
  }

  lemma ClientMeasure(w: World)
    requires ClientAt(w) && Probes(w) && w.delivered <= Last(w.p) && ClientStep(w).Some?
    ensures ClientStep(w).value.s == w.s && ClientStep(w).value.delivered == w.delivered && ClientStep(w).value.p == w.p
    ensures ClientRank(ClientStep(w).value.c, Total(w.p)) < ClientRank(w.c, Total(w.p))
  {
  }

  /** Polling leaves the measure alone; every other step lowers it. */
  lemma StepMeasure(w: World, a: Move)
    requires WorldInv(w) && Advance(w, a).Some?
    ensures Advance(w, a).value.delivered <= Last(w.p) && Advance(w, a).value.p == w.p
    ensures Measure(Advance(w, a).value) + (if Poll(w, a) then 0 else 1) <= Measure(w)
  {
    hide HPlain;
    match a
    case Server => ServerMeasure(w);
    case Work(probe) => WorkMeasure(w, probe);
    case Client => ClientMeasure(w);
    case _ =>
  }

  // ----- nothing gets stuck -----

  predicate Finished(w: World) { w.c.CReturned? && w.s.h == HDone }

  /** The client can move when the handler has read all it was sent and waits for more. */
  lemma IdleHandlerProgress(w: World) returns (a: Move)
    requires WorldInv(w) && w.s.h.HRecv? && w.queue == []
    ensures Advance(w, a).Some? && !Poll(w, a)
  {
    assert w.delivered == Posted(w.c, Up(w));
    a := if w.c.CAwaitComplete? && w.s.w != WDone then Work(false) else Client;
  }

  lemma LockedProgress(w: World) returns (a: Move)
    requires WorldInv(w) && (HLocks(w.s.h) || HReadsState(w.s.h))
    ensures Advance(w, a).Some? && !Poll(w, a)
  {
    a := if w.s.holder == ByWorker then Work(false) else Server;
  }

  lemma UnlockedProgress(w: World) returns (a: Move)
    requires WorldInv(w) && !HLocks(w.s.h) && !HReadsState(w.s.h) && !w.s.h.HDone?
    requires w.s.h.HRecv? ==> w.queue != []
    ensures Advance(w, a).Some? && !Poll(w, a)
  {
    a := if w.s.h.HScWait? && w.s.h.ch && w.s.doneCloses == 0 then Work(false) else Server;
  }

  lemma EndProgress(w: World)
    requires WorldInv(w) && w.s.h.HDone? && !w.c.CReturned?
    ensures Advance(w, Client).Some?
  {
    hide Inv;
  }

  /** Unless the test is over, some step other than polling is possible. */
  lemma Progress(w: World) returns (a: Move)
    requires WorldInv(w) && !Finished(w)
    ensures Advance(w, a).Some? && !Poll(w, a)
  {
    if HLocks(w.s.h) || HReadsState(w.s.h) {
      a := LockedProgress(w);
    } else if w.s.h.HRecv? && w.queue == [] {
      a := IdleHandlerProgress(w);
    } else if w.s.h.HDone? {
      EndProgress(w);
      a := Client;
    } else {
      a := UnlockedProgress(w);
    }
  }

  // ----- whole runs -----

  /** Steps of a schedule that are not polling. */
  function Effective(w: World, acts: seq<Move>): nat
    requires Play(w, acts).Some?
    decreases |acts|
  {
    if acts == [] then 0
    else (if Poll(w, acts[0]) then 0 else 1) + Effective(Advance(w, acts[0]).value, acts[1..])
  }

  lemma {:induction false} RunMeasure(w: World, acts: seq<Move>)
    requires WorldInv(w) && Play(w, acts).Some?
    ensures WorldInv(Play(w, acts).value) && Play(w, acts).value.p == w.p
    ensures Effective(w, acts) + Measure(Play(w, acts).value) <= Measure(w)
    decreases |acts|
  {
    hide WorldInv;
    if acts != [] {
      StepMeasure(w, acts[0]);
      StepWorldInv(w, acts[0]);
      RunMeasure(Advance(w, acts[0]).value, acts[1..]);
    }
  }

  predicate Reply(m: Msg) { m == MReady || m == MSendComplete || m.MResult? }

  lemma RepliesOnly(w: World)
    requires WorldInv(w)
    ensures forall i :: 0 <= i < |w.s.out| ==> Reply(w.s.out[i].m)
    ensures w.c != CRefused && !(w.s.h.HWrite? && w.s.w.WWrite?)
  {
    forall i | 0 <= i < |w.s.out| ensures Reply(w.s.out[i].m) {
    }
  }

  /** Whatever it reads, a waiting client goes on only after a whole frame with the reply it waits for,
      and returns the counts of a Result; any other reply is an error. */
  lemma OnlyTheExpectedReply(w: World)
    requires Awaits(w.c) && w.read + 2 <= |w.s.out|
    ensures var (a, b, c) := (w.s.out[w.read], w.s.out[w.read + 1], ClientStep(w).value.c);
      && (c != CRefused <==>
            && a.LenWord? && b == Body(a.m)
            && if w.c.CAwaitReady? then a.m == MReady else if w.c.CAwaitComplete? then a.m == MSendComplete
               else a.m.MResult?)
      && (c != CRefused && w.c.CAwaitResult? ==>
            var got := if w.p.direction == Uplink then a.m.received else w.c.counted;
            c == CReturned(TestResult(w.p.direction, a.m.sent, got, a.m.sent - got)))
  {
  }

  lemma Returned(w: World)
    requires WorldInv(w) && w.c.CReturned?
    ensures w.s.f.state == Completed && GoodReturn(w, w.c.r) && 0 <= w.c.r.received <= w.emitted <= Total(w.p)
  {
  }

  lemma Reached(p: Params, tcp6: bool, acts: seq<Move>) returns (w: World)
    requires p.direction != Both && (p.family == IPv6 ==> tcp6)
    requires Play(Begin(p, tcp6), acts).Some?
    ensures w == Play(Begin(p, tcp6), acts).value && WorldInv(w) && w.p == p
    ensures Effective(Begin(p, tcp6), acts) <= 225 + 3 * Total(p)
  {
    InitialInv(p, tcp6);
    RunMeasure(Begin(p, tcp6), acts);
    w := Play(Begin(p, tcp6), acts).value;
  }

  /** For every schedule of a RunUplink or RunDownlink against its session: the client is never
      refused, the server writes only Ready, send_complete and Result and never two frames at
      once, the number of steps apart from polling is bounded, and until the client has returned
      and the handler has ended some such step is possible. */
  lemma ConversationSucceeds(p: Params, tcp6: bool, acts: seq<Move>)
    requires p.direction != Both && (p.family == IPv6 ==> tcp6)
    requires Play(Begin(p, tcp6), acts).Some?
    ensures var w := Play(Begin(p, tcp6), acts).value;
      && w.c != CRefused
      && (forall i :: 0 <= i < |w.s.out| ==> Reply(w.s.out[i].m))
      && !(w.s.h.HWrite? && w.s.w.WWrite?)
      && Effective(Begin(p, tcp6), acts) <= 225 + 3 * Total(p)
      && (!Finished(w) ==> exists a :: Advance(w, a).Some? && !Poll(w, a))
  {
    var w := Reached(p, tcp6, acts);
    RepliesOnly(w);
    if !Finished(w) {
      var a := Progress(w);
    }
  }

  /** In every schedule all probes of the test have been sent by the time send_complete has been:
      packetCount of them, or none when it is negative. */
  lemma AllProbesAreSent(p: Params, tcp6: bool, acts: seq<Move>)
    requires p.direction != Both && (p.family == IPv6 ==> tcp6)
    requires Play(Begin(p, tcp6), acts).Some?
    ensures var w := Play(Begin(p, tcp6), acts).value;
      MSendComplete in w.queue || w.s.g.sc != NotHandled || LenWord(MSendComplete) in w.s.out || w.c.CReturned?
      ==> w.emitted == if p.packetCount < 0 then 0 else p.packetCount
  {
    var w := Reached(p, tcp6, acts);
    SentBeforeComplete(w);
  }

  lemma SentBeforeComplete(w: World)
    requires WorldInv(w)
    ensures MSendComplete in w.queue || w.s.g.sc != NotHandled || LenWord(MSendComplete) in w.s.out || w.c.CReturned?
      ==> w.emitted == Total(w.p)
  {
    hide HandlerAt, Channels, Results;
    if MSendComplete in w.queue { QueuedComplete(w); }
    if w.s.g.sc != NotHandled { HandledComplete(w); }
    if LenWord(MSendComplete) in w.s.out { WrittenComplete(w); }
  }

  lemma QueuedComplete(w: World)
    requires ClientAt(w) && w.p.direction != Both && MSendComplete in w.queue
    ensures Up(w) && Posted(w.c, true) >= 4
  {
    var k :| 0 <= k < |w.queue| && w.queue[k] == MSendComplete;
    assert w.queue[k] == Script(w.p)[w.delivered + k];
  }

  lemma HandledComplete(w: World)
    requires WorldInv(w) && w.s.g.sc != NotHandled
    ensures Up(w) && Posted(w.c, true) >= 4
  {
  }

  lemma WrittenComplete(w: World)
    requires WorldInv(w) && LenWord(MSendComplete) in w.s.out
    ensures !Up(w) && (w.s.w.WWrite? || w.s.w.WDone?)
  {
  }

  /** Whenever the client has returned, the server has completed, and the result says: every
      probe counted as sent, none received that was not sent, and the rest lost. */
  lemma ConversationResult(p: Params, tcp6: bool, acts: seq<Move>)
    requires p.direction != Both && (p.family == IPv6 ==> tcp6)
    requires Play(Begin(p, tcp6), acts).Some?
    requires Play(Begin(p, tcp6), acts).value.c.CReturned?
    ensures Play(Begin(p, tcp6), acts).value.s.f.state == Completed
    ensures var r := Play(Begin(p, tcp6), acts).value.c.r;
      && r.direction == p.direction
      && r.sent == p.packetCount
      && r.lost == r.sent - r.received
      && 0 <= r.received <= Total(p)
      && (p.packetCount >= 0 ==> 0 <= r.lost <= r.sent)
  {
    var w := Reached(p, tcp6, acts);
    Returned(w);
  }
}
