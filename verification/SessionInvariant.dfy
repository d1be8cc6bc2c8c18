/** The inductive invariant of a session, kept by every step of either thread. */
module SessionInvariant {
  import opened Protocol
  import opened Session

  predicate BadWrite(m: Msg, k: Kont) {
    (m == MInvalidRequest && k == Loop) || (m == MInternalError && k == Return)
  }

  /** What the handler's position says about the session state. */
  ghost predicate HandlerState(h: HPc, f: Fields) {
    var st := f.state;
    match h
    case HInit => st == Idle
    case HEnter => st == Idle && f.conn
    case HTop(k) => k <= 2 && st != Idle && (k >= 1 ==> st != Failed) && (k >= 2 ==> st != Completed)
    case HAfterTimeout(k) => k <= 2 && st != Idle && (k >= 1 ==> st != Failed) && (k >= 2 ==> st != Completed)
    case HTimeoutWrite(stale) => IsActive(st) && (st == stale || (stale == Running && st == Collecting))
    case HCleanup(exit) => if exit == ToCheck then st != Idle && st != Preparing && st != Running else st == Cancelled
    case HPrepStore(_) => st == Preparing
    case HPrepSet => st == Preparing
    case HStartSet => st == Ready
    case HSpawn => st == Running
    case HScClose => st == Running && f.params.direction == Uplink
    case HScWait(_) => st == Running && f.params.direction == Uplink
    case HScSet => st == Running || (st == Collecting && f.params.direction == Downlink)
    case HFrSet => st == Collecting
    case HResult => st == Completed
    case HCloseConn(_) => st == Completed
    case HWrite(m, _, k) =>
      if m == MReady then st == Ready && k == LoopOrReturn
      else if m.MResult? then st == Completed && k == CloseAfter
      else BadWrite(m, k) && st != Idle && (k == Loop ==> IsActive(st))
    case HDone => st != Idle
    case _ => IsActive(st)
  }

  /** The worker exists exactly from the spawn on, and runs the code its direction selects. */
  ghost predicate WorkerState(s: Sess) {
    var st, d := s.f.state, s.f.params.direction;
    && (s.w == WIdle ==>
          st != Collecting && st != Completed)
    && (s.w != WIdle ==> Rank(st) >= 3)
    && match s.w
       case WIdle => true
       case WDone => true
       case WNewSender => d == Downlink
       case WSend(_, _) => d == Downlink
       case WCount(_) => d == Downlink
       case WSetCollecting => d == Downlink
       case WWrite(m, _, cd) =>
         && (cd ==> m == MInternalError && d != Downlink)
         && (!cd ==> (m == MSendComplete || m == MInternalError) && d == Downlink)
       case _ => d != Downlink
  }

  /** Parameters are those of the accepted Prepare, and sentCount is 0 or the packet count. */
  ghost predicate Bookkeeping(s: Sess) {
    var st := s.f.state;
    && (s.g.accepted.Some? ==> s.f.params == s.g.accepted.value && Rank(st) >= 2)
    && (st == Ready || st == Running || st == Collecting || st == Completed || s.w != WIdle ==> s.g.accepted.Some?)
    && (s.f.sentCount == 0 || (s.w != WIdle && s.f.sentCount == s.f.params.packetCount))
    && (s.w.WSend? ==> s.w.count == s.f.params.packetCount)
    && (s.w.WCount? ==> s.w.count == s.f.params.packetCount)
  }

  ghost predicate BeforeInstall(w: WPc) {
    w == WIdle || w == WNewSender || w.WSend? || w.WCount? || w == WSetCollecting || w == WInstall
  }

  predicate Receiving(w: WPc) { w.WSelect? || w.WRead? }

  /** Channels, and the single publication of the receiver's count. */
  ghost predicate Channels(s: Sess) {
    var up := s.f.params.direction == Uplink;
    && (BeforeInstall(s.w) || s.f.params.direction == Downlink ==>
          && !s.f.quitCh && !s.f.receiverDone && !s.f.receiver && !s.sockOpen && s.quitCloses == 0 && s.doneCloses == 0
          && s.g.publishes == 0 && s.g.finalCount == None && !s.g.bound && s.g.sc != Seen)
    && (!BeforeInstall(s.w) && s.f.params.direction != Downlink ==> s.f.receiverDone)
    && (s.f.quitCh ==> s.quitCloses == 0)
    && (s.g.sc != Seen && s.f.receiverDone ==> s.f.quitCh)
    && s.quitCloses == (if s.g.sc == Seen then 1 else 0)
    && s.doneCloses == (if s.w == WDone && s.f.receiverDone then 1 else 0)
    && (s.f.receiver ==> s.g.bound && s.g.publishes == 0)
    && (Receiving(s.w) ==> s.g.finalCount == None && s.g.publishes == 0 && s.g.bound)
    && (s.w.WCloseSock? ==> s.g.finalCount == Some(s.w.n) && s.g.publishes == 0 && s.g.bound)
    && (s.w.WPublish? ==> s.g.finalCount == Some(s.w.n) && s.g.publishes == 0 && s.g.bound)
    && (s.w.WWrite? ==> s.g.publishes == 0 && !s.g.bound && s.g.finalCount == None)
    && ((s.w == WCloseDone || s.w == WDone) && s.g.bound ==> s.g.publishes == 1)
    && s.g.publishes <= 1
    && (s.g.publishes == 0 ==> s.f.receivedCount == 0)
    && (s.g.publishes == 1 ==> s.g.finalCount == Some(s.f.receivedCount))
    && (s.g.sc != NotHandled ==> up && Rank(s.f.state) >= 3)
    && (s.g.finalCount.Some? ==> s.g.bound)
    && (s.f.conn && Receiving(s.w) ==> s.sockOpen)
  }

  /** Where the handler can be once a read has ended with EOF or a timeout. */
  ghost predicate AfterTimeout(h: HPc, connOpen: bool) {
    match h
    case HTimeoutRead => true
    case HTimeoutWrite(_) => true
    case HCleanup(exit) => exit == ToCheck || exit == ToEnd
    case HAfterTimeout(_) => !connOpen
    case HTop(_) => !connOpen
    case HCtx => !connOpen
    case HRecv => !connOpen
    case HCancelRead(ret) => ret && !connOpen
    case HCancelWrite(ret) => ret && !connOpen
    case HWrite(m, _, k) => m == MInternalError && k == Return && !connOpen
    case HDone => !connOpen
    case _ => false
  }

  predicate TimeoutPc(h: HPc) {
    h.HTimeoutRead? || h.HTimeoutWrite? || h.HAfterTimeout? || h == HCleanup(ToCheck)
  }

  /** Everything that depends on the handler's position h; s.h itself plays no part. */
  ghost predicate HandlerAt(h: HPc, s: Sess) {
    var up := s.f.params.direction == Uplink;
    && (s.holder == ByHandler ==> HLocks(h))
    && HandlerState(h, s.f)
    && (h != HInit && !s.f.conn ==> !s.connOpen)
    && (h == HSpawn ==> s.w == WIdle)
    && (s.f.state == Running && s.w == WIdle ==> h == HSpawn)
    && (h == HScClose ==> s.g.sc == NotHandled)
    && (h.HScWait? ==> h.ch == (s.g.sc == Seen) && s.g.sc != NotHandled)
    && (h == HScSet && up ==> s.g.sc != NotHandled && (s.g.sc == Seen ==> s.doneCloses == 1))
    && (s.f.state == Running && s.g.sc != NotHandled ==> h.HScWait? || h == HScSet || s.g.timedOut)
    && (s.g.timedOut ==> AfterTimeout(h, s.connOpen))
    && (TimeoutPc(h) ==> s.g.timedOut)
    && (h == HResult ==> s.g.results == [])
    && (s.f.state == Completed && s.g.results == [] ==> h == HResult)
    && (h == HScCheck || h == HFrCheck ==> s.connOpen)
  }

  /** After an uplink send_complete the session collects only once the receiver is done. */
  ghost predicate Results(s: Sess) {
    var st, up := s.f.state, s.f.params.direction == Uplink;
    && (s.g.timedOut ==> s.g.results == [])
    && ((st == Collecting || st == Completed) && up && !s.g.timedOut ==>
          s.g.sc != NotHandled && (s.g.sc == Seen ==> s.doneCloses == 1))
    && s.g.changes <= Rank(st)
    && (s.g.results != [] ==> st == Completed)
    && (s.g.results != [] ==> |s.g.results| == 1 && GoodResult(s, s.g.results[0]))
  }

  /** What a Result message says, read against the history of its session. */
  ghost predicate GoodResult(s: Sess, r: Msg) {
    && r.MResult?
    && s.g.accepted.Some?
    && r.sent == s.g.accepted.value.packetCount
    && (r.received == 0 || s.g.finalCount == Some(r.received))
    && (s.g.accepted.value.direction == Uplink && s.g.sc == Seen && s.g.bound ==> s.g.finalCount == Some(r.received))
  }

  ghost predicate Inv(s: Sess) {
    && (s.holder == ByWorker ==> WLocks(s.w))
    && HandlerAt(s.h, s)
    && WorkerState(s)
    && Bookkeeping(s)
    && Channels(s)
    && Results(s)
  }

  lemma InitInv(tcp6: bool)
    ensures Inv(Initial(tcp6))
  {
  }

  /** A step that only moves the handler and writes to the connection has only HandlerAt to show. */
  lemma JumpInv(s: Sess, h: HPc, out: seq<Chunk>)
    requires Inv(s) && HandlerAt(h, s)
    ensures Inv(s.(h := h, out := out))
  {
  }

  /** What a forward move of the state to `to` must respect, apart from the handler's position. */
  ghost predicate MayMove(s: Sess, to: SessionState) {
    && Rank(to) > Rank(s.f.state)
    && s.g.results == []
    && (to == Ready || to == Running || to == Collecting || to == Completed ==> s.g.accepted.Some?)
    && (to == Collecting || to == Completed ==>
          && s.w != WIdle
          && (s.f.params.direction == Uplink && !s.g.timedOut ==>
                s.g.sc != NotHandled && (s.g.sc == Seen ==> s.doneCloses == 1)))
  }

  function Moved(s: Sess, to: SessionState, h: HPc): Sess {
    s.(f := s.f.(state := to), h := h, holder := Free, g := s.g.(changes := s.g.changes + 1))
  }

  lemma MoveInv(s: Sess, to: SessionState, h: HPc)
    requires Inv(s) && s.holder == ByHandler && MayMove(s, to) && HandlerAt(h, Moved(s, to, h))
    ensures Inv(Moved(s, to, h))
  {
  }

  // ----- the mutex -----

  lemma AcquireInv(s: Sess)
    requires Inv(s) && s.holder == Free
    ensures HLocks(s.h) ==> Inv(s.(holder := ByHandler))
    ensures WLocks(s.w) ==> Inv(s.(holder := ByWorker))
  {
  }

  // ----- the handler's lock sections -----

  lemma EnterInv(s: Sess)
    requires Inv(s) && s.holder == ByHandler && (s.h.HInit? || s.h.HEnter?)
    ensures Inv(HSection(s))
  {
  }

  lemma TimeoutFailsInv(s: Sess)
    requires Inv(s) && s.holder == ByHandler && s.h.HTimeoutWrite?
    requires s.h.stale == Preparing || s.h.stale == Collecting
    ensures Inv(HSection(s))
  {
  }

  lemma TimeoutCollectsInv(s: Sess)
    requires Inv(s) && s.holder == ByHandler && s.h.HTimeoutWrite?
    requires s.h.stale == Running || s.h.stale == Ready
    ensures Inv(HSection(s))
  {
  }

  lemma CancelWriteInv(s: Sess)
    requires Inv(s) && s.holder == ByHandler && s.h.HCancelWrite?
    ensures Inv(HSection(s))
  {
  }

  lemma CleanupInv(s: Sess)
    requires Inv(s) && s.holder == ByHandler && s.h.HCleanup?
    ensures Inv(HSection(s))
  {
  }

  lemma PrepSetInv(s: Sess)
    requires Inv(s) && s.holder == ByHandler && s.h.HPrepSet?
    ensures Inv(HSection(s))
  {
    assert s.f.state == Preparing && s.w == WIdle && s.g.results == [];
  }

  lemma StartSetInv(s: Sess)
    requires Inv(s) && s.holder == ByHandler && s.h.HStartSet?
    ensures Inv(HSection(s))
  {
    MoveInv(s, Running, HSpawn);
    assert HSection(s) == Moved(s, Running, HSpawn);
  }

  lemma CloseQuitInv(s: Sess)
    requires Inv(s) && s.holder == ByHandler && s.h.HScClose?
    ensures Inv(HSection(s))
  {
  }

  lemma CollectSetInv(s: Sess)
    requires Inv(s) && s.holder == ByHandler && s.h.HScSet? && s.f.state == Running
    ensures Inv(HSection(s))
  {
    hide HSection;
    assert s.w != WIdle && s.g.results == [] && !s.g.timedOut;
    CollectSection(s);
    MoveInv(s, Collecting, HTop(0));
  }

  lemma CollectSection(s: Sess)
    requires s.h.HScSet? && s.f.state == Running
    ensures HSection(s) == Moved(s, Collecting, HTop(0))
  {
  }

  /** A downlink sender has moved the state to Collecting first: setState is refused. */
  lemma CollectRefusedInv(s: Sess)
    requires Inv(s) && s.holder == ByHandler && s.h.HScSet? && s.f.state != Running
    ensures Inv(HSection(s))
  {
    assert s.f.state == Collecting;
  }

  lemma FetchSetInv(s: Sess)
    requires Inv(s) && s.holder == ByHandler && s.h.HFrSet?
    ensures Inv(HSection(s))
  {
    hide Channels;
    MoveInv(s, Completed, HResult);
    assert HSection(s) == Moved(s, Completed, HResult);
  }

  // ----- the handler outside the mutex -----

  lemma LoopGuardInv(s: Sess)
    requires Inv(s) && s.holder == Free && (s.h.HTop? || s.h.HAfterTimeout?)
    ensures HandlerAt(HStateRead(s), s)
  {
  }

  lemma StaleReadInv(s: Sess)
    requires Inv(s) && s.holder == Free && (s.h.HTimeoutRead? || s.h.HCancelRead?)
    ensures HandlerAt(HStateRead(s), s)
  {
  }

  lemma CheckInv(s: Sess)
    requires Inv(s) && s.holder == Free
    requires s.h.HPrepCheck? || s.h.HStartCheck?
    ensures HandlerAt(HStateRead(s), s)
  {
  }

  lemma EndCheckInv(s: Sess)
    requires Inv(s) && s.holder == Free && (s.h.HScCheck? || s.h.HFrCheck?)
    ensures HandlerAt(HStateRead(s), s)
  {
  }

  lemma DispatchJump(s: Sess, m: Msg)
    requires Inv(s) && s.h.HRecv? && s.connOpen
    ensures HandlerAt(Dispatch(m), s)
  {
  }

  lemma DispatchInv(s: Sess, m: Msg)
    requires Inv(s) && s.h.HRecv? && s.connOpen
    ensures Inv(HPlain(s, Got(Data(m))).value)
  {
    DispatchJump(s, m);
    JumpInv(s, Dispatch(m), s.out);
    assert HPlain(s, Got(Data(m))).value == s.(h := Dispatch(m));
  }

  lemma ReadFailureInv(s: Sess, r: ReadOutcome)
    requires Inv(s) && s.h.HRecv? && !r.Data? && HEnabled(s, Got(r))
    ensures Inv(HPlain(s, Got(r)).value)
  {
  }

  lemma WriteJump(s: Sess, c: Choice)
    requires Inv(s) && s.h.HWrite?
    ensures HandlerAt(HPlainNext(s, c), s)
  {
    hide Channels;
  }

  lemma WriteInv(s: Sess, c: Choice)
    requires Inv(s) && s.h.HWrite?
    ensures Inv(HPlain(s, c).value)
  {
    WriteJump(s, c);
    JumpInv(s, HPlainNext(s, c), HPlain(s, c).value.out);
    assert HPlain(s, c).value == s.(h := HPlainNext(s, c), out := HPlain(s, c).value.out);
  }

  lemma CtxInv(s: Sess, c: Choice)
    requires Inv(s) && s.h.HCtx?
    ensures Inv(HPlain(s, c).value)
  {
    hide Bookkeeping;
    JumpInv(s, HPlainNext(s, c), s.out);
    assert HPlain(s, c).value == s.(h := HPlainNext(s, c));
  }

  lemma PrepStoreStep(s: Sess, c: Choice)
    requires s.h.HPrepStore?
    ensures var h := if s.h.p.family == IPv6 && !s.tcp6 then Refuse(MInvalidRequest, Loop) else HPrepSet;
      HPlain(s, c) == Some(s.(f := s.f.(params := s.h.p), h := h))
  {
  }

  lemma PrepStoreInv(s: Sess, c: Choice)
    requires Inv(s) && s.h.HPrepStore?
    ensures Inv(HPlain(s, c).value)
  {
    hide HPlain;
    PrepStoreStep(s, c);
    assert s.w == WIdle && s.g.results == [] && s.g.accepted == None;
  }

  lemma SpawnInv(s: Sess, c: Choice)
    requires Inv(s) && s.h.HSpawn?
    ensures Inv(HPlain(s, c).value)
  {
  }

  lemma WaitInv(s: Sess, c: Choice)
    requires Inv(s) && s.h.HScWait? && HEnabled(s, c)
    ensures Inv(HPlain(s, c).value)
  {
  }

  lemma ResultIsGood(s: Sess)
    requires Inv(s) && s.h.HResult?
    ensures GoodResult(s, ResultOf(s.f)) && s.g.results == [] && !s.g.timedOut
  {
  }

  lemma ResultStep(s: Sess, c: Choice)
    requires s.h.HResult?
    ensures HPlain(s, c) == Some(s.(h := HWrite(ResultOf(s.f), false, CloseAfter),
                                    g := s.g.(results := s.g.results + [ResultOf(s.f)])))
  {
  }

  lemma ResultInv(s: Sess, c: Choice)
    requires Inv(s) && s.h.HResult?
    ensures Inv(HPlain(s, c).value)
  {
    hide GoodResult, ResultOf, HPlain;
    ResultStep(s, c);
    ResultIsGood(s);
    ResultFrame(s, ResultOf(s.f), HPlain(s, c).value);
  }

  /** Recording a good Result leaves it good. */
  lemma ResultFrame(s: Sess, r: Msg, s': Sess)
    requires GoodResult(s, r) && s'.f == s.f && s'.g == s.g.(results := [r])
    ensures GoodResult(s', r) && r.MResult?
  {
  }

  lemma CloseConnStep(s: Sess, c: Choice)
    requires s.h.HCloseConn?
    ensures HPlain(s, c) == Some(s.(h := if s.h.ok then HTop(0) else HDone, connOpen := false))
  {
  }

  lemma CloseConnInv(s: Sess, c: Choice)
    requires Inv(s) && s.h.HCloseConn?
    ensures Inv(HPlain(s, c).value)
  {
    hide HPlain;
    CloseConnStep(s, c);
  }

  lemma HandlerInv(s: Sess, c: Choice)
    requires Inv(s) && HStep(s, c).Some?
    ensures Inv(HStep(s, c).value)
  {
    if HLocks(s.h) {
      if s.holder == Free { AcquireInv(s); } else { HandlerSectionInv(s); }
    } else if HReadsState(s.h) {
      HandlerReadInv(s);
    } else {
      HandlerPlainInv(s, c);
    }
  }

  lemma HandlerSectionInv(s: Sess)
    requires Inv(s) && HLocks(s.h) && s.holder == ByHandler
    ensures Inv(HSection(s))
  {
    if s.h.HInit? || s.h.HEnter? { EnterInv(s); }
    else if s.h.HTimeoutWrite? {
      if s.h.stale == Preparing || s.h.stale == Collecting { TimeoutFailsInv(s); } else { TimeoutCollectsInv(s); }
    }
    else if s.h.HCancelWrite? { CancelWriteInv(s); }
    else if s.h.HCleanup? { CleanupInv(s); }
    else if s.h.HPrepSet? { PrepSetInv(s); }
    else if s.h.HStartSet? { StartSetInv(s); }
    else if s.h.HFrSet? { FetchSetInv(s); }
    else if s.h.HScClose? { CloseQuitInv(s); }
    else if s.f.state == Running { CollectSetInv(s); }
    else { CollectRefusedInv(s); }
  }

  lemma HandlerReadInv(s: Sess)
    requires Inv(s) && HReadsState(s.h) && s.holder == Free
    ensures Inv(s.(h := HStateRead(s)))
  {
    HandlerReadJump(s);
    JumpInv(s, HStateRead(s), s.out);
  }

  lemma HandlerReadJump(s: Sess)
    requires Inv(s) && HReadsState(s.h) && s.holder == Free
    ensures HandlerAt(HStateRead(s), s)
  {
    if s.h.HTop? || s.h.HAfterTimeout? { LoopGuardInv(s); }
    else if s.h.HTimeoutRead? || s.h.HCancelRead? { StaleReadInv(s); }
    else if s.h.HPrepCheck? || s.h.HStartCheck? { CheckInv(s); }
    else { EndCheckInv(s); }
  }

  lemma HandlerPlainInv(s: Sess, c: Choice)
    requires Inv(s) && !HLocks(s.h) && !HReadsState(s.h) && HPlain(s, c).Some?
    ensures Inv(HPlain(s, c).value)
  {
    if s.h.HRecv? {
      if c.r.Data? { DispatchInv(s, c.r.m); } else { ReadFailureInv(s, c.r); }
    }
    else if s.h.HWrite? { WriteInv(s, c); }
    else if s.h.HCtx? { CtxInv(s, c); }
    else if s.h.HPrepStore? { PrepStoreInv(s, c); }
    else if s.h.HSpawn? { SpawnInv(s, c); }
    else if s.h.HScWait? { WaitInv(s, c); }
    else if s.h.HResult? { ResultInv(s, c); }
    else { CloseConnInv(s, c); }
  }

  // ----- the worker -----

  lemma SenderDoneInv(s: Sess, c: Choice)
    requires Inv(s) && s.holder == ByWorker && s.w.WSetCollecting?
    ensures Inv(WSection(s, c))
  {
  }

  lemma InstallInv(s: Sess, c: Choice)
    requires Inv(s) && s.holder == ByWorker && s.w.WInstall?
    ensures Inv(WSection(s, c))
  {
  }

  lemma PublishInv(s: Sess, c: Choice)
    requires Inv(s) && s.holder == ByWorker && s.w.WPublish?
    ensures Inv(WSection(s, c))
  {
  }

  lemma NewSenderInv(s: Sess, c: Choice)
    requires Inv(s) && s.w.WNewSender?
    ensures Inv(WPlain(s, c).value)
  {
  }

  lemma SendInv(s: Sess, c: Choice)
    requires Inv(s) && s.w.WSend?
    ensures Inv(WPlain(s, c).value)
  {
  }

  lemma CountInv(s: Sess, c: Choice)
    requires Inv(s) && s.w.WCount?
    ensures Inv(WPlain(s, c).value)
  {
  }

  lemma ReceiverInv(s: Sess, c: Choice)
    requires Inv(s) && (s.w.WSelect? || s.w.WRead?)
    ensures Inv(WPlain(s, c).value)
  {
  }

  lemma ReceiverEndInv(s: Sess, c: Choice)
    requires Inv(s) && (s.w.WCloseSock? || s.w.WCloseDone?)
    ensures Inv(WPlain(s, c).value)
  {
  }

  lemma WorkerWriteInv(s: Sess, c: Choice)
    requires Inv(s) && s.w.WWrite?
    ensures Inv(WPlain(s, c).value)
  {
  }

  lemma WorkerInv(s: Sess, c: Choice)
    requires Inv(s) && WStep(s, c).Some?
    ensures Inv(WStep(s, c).value)
  {
    if WLocks(s.w) {
      if s.holder == Free { AcquireInv(s); }
      else if s.w.WSetCollecting? { SenderDoneInv(s, c); }
      else if s.w.WInstall? { InstallInv(s, c); }
      else { PublishInv(s, c); }
    }
    else if s.w.WNewSender? { NewSenderInv(s, c); }
    else if s.w.WSend? { SendInv(s, c); }
    else if s.w.WCount? { CountInv(s, c); }
    else if s.w.WSelect? || s.w.WRead? { ReceiverInv(s, c); }
    else if s.w.WCloseSock? || s.w.WCloseDone? { ReceiverEndInv(s, c); }
    else { WorkerWriteInv(s, c); }
  }

  lemma StepInv(s: Sess, a: Action)
    requires Inv(s) && Step(s, a).Some?
    ensures Inv(Step(s, a).value)
  {
    match a
    case Handler(c) => HandlerInv(s, c);
    case Worker(c) => WorkerInv(s, c);
    case ServerClosesConn =>
  }

  /** Every schedule keeps the invariant. */
  lemma {:induction false} ExecInv(s: Sess, acts: seq<Action>)
    requires Inv(s) && Exec(s, acts).Some?
    ensures Inv(Exec(s, acts).value)
    decreases |acts|
  {
    if acts != [] {
      StepInv(s, acts[0]);
      ExecInv(Step(s, acts[0]).value, acts[1..]);
    }
  }
}
