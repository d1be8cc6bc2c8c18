/** A test on a network that loses nothing can report that nothing was lost: with care about when the
    receiver is stopped, a conversation goes on to its end and counts every probe. */
module ConversationRuns {
  import opened Protocol
  import opened Session
  import opened SessionInvariant
  import opened Conversation
  import opened ConversationInvariant
  import opened ConversationTheorems
  import ConversationProbes

  // ----- what care keeps -----

  /** No probe has been missed: each is in flight or has been taken, and the count is read when all
      have been. */
  ghost predicate Lossless(w: World) {
    if Up(w) then
      && ReceiverCount(w.s) + w.inFlight == w.emitted
      && w.s.g.sc != Missed
      && (w.s.w.WIdle? || w.s.w.WInstall? ==> !w.s.h.HScClose? && !w.s.h.HScWait? && !w.s.h.HScSet?)
      && (w.s.quitCloses == 0 ==> w.s.w.WIdle? || w.s.w.WInstall? || Receiving(w.s.w))
      && (w.s.quitCloses > 0 ==> w.inFlight == 0)
    else
      && w.matched + w.inFlight == w.emitted
      && (Counts(w.c) ==> w.inFlight == 0 && w.emitted == Total(w.p))
      && (w.c.CFetch? ==> w.c.counted == w.matched)
      && (w.c.CAwaitResult? ==> w.c.counted == w.matched)
      && (w.c.CReturned? ==> w.c.r.received == w.matched)
  }

  predicate Counts(c: CPc) { c.CFetch? || c.CAwaitResult? || c.CReturned? }

  /** Nothing is lost, send_complete is handled when the receiver is ready and has taken what was sent,
      and the matched count is read when all probes have arrived. */
  predicate Careful(w: World, a: Move) {
    && a != Lose
    && (Up(w) && a == Server && w.s.h.HScCheck? ==> w.s.w != WInstall)
    && (Up(w) && a == Server && w.s.h.HScClose? ==> w.inFlight == 0)
    && (!Up(w) && a == Client && w.c.CCount? ==> w.inFlight == 0)
  }

  lemma CarefulClient(w: World)
    requires WorldInv(w) && Lossless(w) && Careful(w, Client) && ClientStep(w).Some?
    ensures Lossless(ClientStep(w).value)
  {
    hide HandlerAt, Channels, Wire;
    if !Up(w) && w.c.CCount? { AllSentWhenRead(w); }
    if w.c.CProbe? { StillReceiving(w); }
  }

  lemma StillReceiving(w: World)
    requires WorldInv(w) && w.c.CProbe?
    ensures w.s.quitCloses == 0
  {
    if w.s.g.sc != NotHandled { HandledComplete(w); }
  }

  lemma AllSentWhenRead(w: World)
    requires WorldInv(w) && !Up(w) && w.c.CCount?
    ensures w.emitted == Total(w.p)
  {
    WrittenHalf(w);
  }

  /** The client has read send_complete, so the worker has written it. */
  lemma WrittenHalf(w: World)
    requires WorldInv(w) && !Up(w) && w.c.CCount?
    ensures w.s.w == WDone
  {
    hide HandlerAt, Channels, Results;
  }

  lemma CarefulDeliver(w: World)
    requires WorldInv(w) && Lossless(w) && w.s.h.HRecv? && ServerStep(w).Some?
    ensures Lossless(ServerStep(w).value)
  {
    hide HandlerAt, Channels, Wire, Results;
  }

  lemma CarefulSection(w: World)
    requires WorldInv(w) && Lossless(w) && Careful(w, Server) && HLocks(w.s.h) && w.s.holder == ByHandler
    ensures Lossless(w.(s := HSection(w.s)))
  {
    hide Wire;
  }

  lemma CarefulRead(w: World)
    requires WorldInv(w) && Lossless(w) && Careful(w, Server) && HReadsState(w.s.h)
    ensures Lossless(w.(s := w.s.(h := HStateRead(w.s))))
  {
    hide Wire, Channels, Results;
  }

  lemma CarefulPlain(w: World)
    requires WorldInv(w) && Lossless(w) && !HLocks(w.s.h) && !HReadsState(w.s.h) && !w.s.h.HRecv?
    requires HPlain(w.s, Yes).Some?
    ensures Lossless(w.(s := HPlain(w.s, Yes).value))
  {
    hide Wire, Results;
  }

  lemma CarefulServer(w: World)
    requires WorldInv(w) && Lossless(w) && Careful(w, Server) && ServerStep(w).Some?
    ensures Lossless(ServerStep(w).value)
  {
    hide WorldInv, HSection, HPlain, HStateRead;
    if w.s.h.HRecv? { CarefulDeliver(w); }
    else if HLocks(w.s.h) { if w.s.holder == ByHandler { CarefulSection(w); } }
    else if HReadsState(w.s.h) { CarefulRead(w); }
    else { CarefulPlain(w); }
  }

  lemma CarefulWorkerSection(w: World)
    requires WorldInv(w) && Lossless(w) && WLocks(w.s.w) && w.s.holder == ByWorker
    ensures Lossless(w.(s := WSection(w.s, Yes)))
  {
    hide Wire, Results;
  }

  lemma CarefulWorkerPlain(w: World, probe: bool)
    requires WorldInv(w) && Lossless(w) && !WLocks(w.s.w) && WorkerStep(w, probe).Some?
    ensures Lossless(WorkerStep(w, probe).value)
  {
    hide Wire, Results;
  }

  lemma CarefulStep(w: World, a: Move)
    requires WorldInv(w) && Lossless(w) && Careful(w, a) && Advance(w, a).Some?
    ensures Lossless(Advance(w, a).value)
  {
    hide WorldInv, WSection, ServerStep, ClientStep;
    match a
    case Server => CarefulServer(w);
    case Work(probe) =>
      if !WLocks(w.s.w) { CarefulWorkerPlain(w, probe); } else if w.s.holder == ByWorker { CarefulWorkerSection(w); }
    case Client => CarefulClient(w);
    case Arrive => CarefulArrival(w);
    case Lose =>
  }

  lemma CarefulArrival(w: World)
    requires Lossless(w) && Advance(w, Arrive).Some?
    ensures Lossless(Advance(w, Arrive).value)
  {
  }

  // ----- there is always a careful step, and only so many -----

  function Cost(w: World): nat
    requires w.delivered <= Last(w.p)
  {
    4 * Measure(w) + 2 * w.inFlight + if w.s.w.WSelect? then 1 else 0
  }

  lemma OneProbeAtMost(w: World, a: Move)
    requires Advance(w, a).Some?
    ensures Advance(w, a).value.inFlight <= w.inFlight + 1
  {
  }

  /** The receiver takes what is in flight. */
  lemma TakeProbe(w: World)
    requires WorldInv(w) && Lossless(w) && Up(w) && Receiving(w.s.w) && w.s.quitCloses == 0 && w.inFlight > 0
    ensures Advance(w, Work(true)).Some? && Advance(w, Work(true)).value.delivered <= Last(w.p)
    ensures Cost(Advance(w, Work(true)).value) < Cost(w)
  {
    hide Measure, HandlerAt;
    assert WorkerStep(w, true).Some?;
    StepMeasure(w, Work(true));
  }

  lemma TakeArrival(w: World)
    requires WorldInv(w) && !Up(w) && Listening(w.c) && w.inFlight > 0
    ensures Advance(w, Arrive).Some? && Advance(w, Arrive).value.delivered <= Last(w.p)
    ensures Cost(Advance(w, Arrive).value) < Cost(w)
  {
    hide Measure;
    StepMeasure(w, Arrive);
  }

  /** Neither of the two can be taken, and the worker is not about to make its channels. */
  lemma OtherStep(w: World) returns (a: Move)
    requires WorldInv(w) && !Finished(w)
    requires Up(w) ==> !(Receiving(w.s.w) && w.s.quitCloses == 0 && w.inFlight > 0) && Lossless(w)
    requires Up(w) ==> w.s.w == WInstall ==> w.s.holder == ByHandler
    requires !Up(w) && Listening(w.c) ==> w.inFlight == 0
    ensures Advance(w, a).Some? && Careful(w, a) && !Poll(w, a)
  {
    a := Progress(w);
    MutexIsHeld(w.s);
    hide WorldInv, Advance;
  }

  lemma MutexIsHeld(s: Sess)
    requires Inv(s)
    ensures s.holder == ByHandler ==> HLocks(s.h)
    ensures s.h.HScClose? ==> s.quitCloses == 0
  {
  }

  lemma EffectiveCost(w: World, a: Move)
    requires WorldInv(w) && Advance(w, a).Some? && !Poll(w, a)
    ensures Advance(w, a).value.delivered <= Last(w.p) && Cost(Advance(w, a).value) < Cost(w)
  {
    hide Measure, WorldInv, Advance;
    StepMeasure(w, a);
    OneProbeAtMost(w, a);
  }

  lemma InstallIsEffective(w: World)
    requires WorldInv(w) && w.s.w == WInstall && w.s.holder != ByHandler
    ensures Advance(w, Work(false)).Some? && !Poll(w, Work(false)) && Careful(w, Work(false))
  {
  }

  lemma CarefulChoice(w: World) returns (a: Move)
    requires WorldInv(w) && Lossless(w) && !Finished(w)
    ensures Advance(w, a).Some? && Careful(w, a)
    ensures Advance(w, a).value.delivered <= Last(w.p) && Cost(Advance(w, a).value) < Cost(w)
  {
    hide WorldInv, Lossless, Advance, Cost;
    if Up(w) && Receiving(w.s.w) && w.s.quitCloses == 0 && w.inFlight > 0 {
      TakeProbe(w);
      a := Work(true);
    } else if !Up(w) && Listening(w.c) && w.inFlight > 0 {
      TakeArrival(w);
      a := Arrive;
    } else if Up(w) && w.s.w == WInstall && w.s.holder != ByHandler {
      InstallIsEffective(w);
      a := Work(false);
      EffectiveCost(w, a);
    } else {
      a := OtherStep(w);
      EffectiveCost(w, a);
    }
  }

  lemma PlayFirst(w: World, a: Move, rest: seq<Move>)
    requires Advance(w, a).Some?
    ensures Play(w, [a] + rest) == Play(Advance(w, a).value, rest)
  {
    hide Advance;
    assert ([a] + rest)[1..] == rest;
  }

  /** From here the conversation goes on to its end without a loss. */
  lemma {:induction false} CarefulRun(w: World) returns (acts: seq<Move>)
    requires WorldInv(w) && Lossless(w)
    ensures Lose !in acts && Play(w, acts).Some?
    ensures var w' := Play(w, acts).value; WorldInv(w') && Lossless(w') && Finished(w') && w'.p == w.p
    decreases Cost(w)
  {
    hide WorldInv, Lossless, Advance, Cost, Careful;
    if Finished(w) { return []; }
    var a := CarefulChoice(w);
    NotLost(w, a);
    StepWorldInv(w, a);
    CarefulStep(w, a);
    StepMeasure(w, a);
    var rest := CarefulRun(Advance(w, a).value);
    PlayFirst(w, a, rest);
    acts := [a] + rest;
  }

  lemma NotLost(w: World, a: Move)
    requires Careful(w, a)
    ensures a != Lose
  {
  }

  lemma BeginLossless(p: Params, tcp6: bool)
    ensures Lossless(Begin(p, tcp6))
  {
  }

  lemma LosslessReturn(w: World)
    requires WorldInv(w) && Lossless(w) && w.c.CReturned?
    ensures w.c.r.received == Total(w.p)
  {
    if Up(w) { StoppedInTime(w); ConversationProbes.SeenIsCounted(w); }
  }

  lemma StoppedInTime(w: World)
    requires WorldInv(w) && Lossless(w) && w.c.CReturned? && Up(w)
    ensures w.s.g.sc == Seen && w.inFlight == 0 && w.emitted == Total(w.p)
  {
    assert w.s.f.state == Completed && w.s.g.sc != NotHandled;
  }

  lemma SentAfterStart(w: World)
    requires WorldInv(w) && !Up(w) && w.inFlight > 0
    ensures w.c.CAwaitComplete? || w.c.CCount? || w.c.CFetch? || w.c.CAwaitResult? || w.c.CReturned?
  {
  }

  lemma ArrivesUntilReturn(w: World)
    requires WorldInv(w) && !Up(w) && w.inFlight > 0
    ensures Advance(w, Arrive).Some? <==> !w.c.CReturned?
  {
    hide WorldInv, ServerStep, ClientStep, WorkerStep;
    SentAfterStart(w);
  }

  /** The client of a downlink test can take any probe in flight from the first one sent on until it has
      returned, and none after that. */
  lemma ProbesArriveUntilReturn(p: Params, tcp6: bool, acts: seq<Move>)
    requires p.direction == Downlink && (p.family == IPv6 ==> tcp6)
    requires Play(Begin(p, tcp6), acts).Some? && Play(Begin(p, tcp6), acts).value.inFlight > 0
    ensures var w := Play(Begin(p, tcp6), acts).value; Advance(w, Arrive).Some? <==> !w.c.CReturned?
  {
    hide WorldInv, Play, Advance;
    var w := Reached(p, tcp6, acts);
    ArrivesUntilReturn(w);
  }

  /** Every test has a schedule without a loss in which the client returns its packet count as sent and
      as received, and no loss. */
  lemma NothingNeedBeLost(p: Params, tcp6: bool) returns (acts: seq<Move>)
    requires p.direction != Both && (p.family == IPv6 ==> tcp6) && 0 <= p.packetCount
    ensures Lose !in acts && Play(Begin(p, tcp6), acts).Some?
    ensures var w := Play(Begin(p, tcp6), acts).value;
      && w.c == CReturned(TestResult(p.direction, p.packetCount, p.packetCount, 0))
      && w.emitted == p.packetCount && w.s.f.state == Completed && w.s.h == HDone
  {
    InitialInv(p, tcp6);
    BeginLossless(p, tcp6);
    acts := CarefulRun(Begin(p, tcp6));
    var w := Play(Begin(p, tcp6), acts).value;
    LosslessReturn(w);
    Returned(w);
    SentBeforeComplete(w);
  }
}
