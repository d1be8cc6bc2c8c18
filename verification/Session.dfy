/** A server session as an interleaved step system.

    Two threads share the session: the message handler (`Run`) and, once a test has started,
    one worker (`runDownlinkSender` or `runUplinkReceiver`).  Every lock section, channel close,
    unlocked field access, socket call and half-frame write is one step.  A lock section takes
    two steps, acquiring the mutex and then running the section and releasing it. */
module Session {
  import opened Protocol

  /** The fields of the session object that the threads share. */
  datatype Fields = Fields(
    state: SessionState,
    params: Params,
    sentCount: int,
    receivedCount: int,
    conn: bool,          // the conn field is non-nil
    quitCh: bool,        // the quitCh field is non-nil
    receiverDone: bool,  // the receiverDone field is non-nil
    receiver: bool)      // the receiver field is non-nil

  // ----- lock sections, as functions of the fields -----

  function SetState(f: Fields, to: SessionState): Fields {
    if CanTransition(f.state, to) then f.(state := to) else f
  }

  /** The direct write of handleTimeout, driven by a state read before the lock was taken. */
  function TimeoutWrite(f: Fields, stale: SessionState): Fields {
    match stale
    case Preparing => f.(state := Failed)
    case Running => f.(state := Collecting)
    case Collecting => f.(state := Failed)
    case _ => f
  }

  function Cleanup(f: Fields): Fields {
    f.(conn := false, receiver := false)
  }

  function InstallReceiver(f: Fields, bound: bool): Fields {
    f.(quitCh := true, receiverDone := true, receiver := if bound then true else f.receiver)
  }

  function Publish(f: Fields, count: int): Fields {
    f.(receivedCount := count, receiver := false)
  }

  /** The counts of the Result message. */
  function ResultOf(f: Fields): Msg {
    MResult(if f.sentCount == 0 then f.params.packetCount else f.sentCount, f.receivedCount)
  }

  // ----- threads -----

  /** Where the handler goes once a frame has been written or has failed to be written. */
  datatype Kont = Loop | Return | LoopOrReturn | CloseAfter

  /** Where the handler goes after cleanupNoStateChange. */
  datatype Exit = ToCheck | ToLoop | ToEnd

  datatype HPc =
    | HInit                               // store conn
    | HEnter                              // setState(Preparing)
    | HTop(k: nat)                        // loop guard: Failed, Completed, Cancelled in turn
    | HCtx                                // select on ctx.Done()
    | HRecv                               // readMessage
    | HTimeoutRead | HTimeoutWrite(stale: SessionState)
    | HAfterTimeout(k: nat)
    | HCancelRead(ret: bool) | HCancelWrite(ret: bool)
    | HCleanup(exit: Exit)
    | HPrepCheck(p: Params) | HPrepStore(p: Params) | HPrepSet
    | HStartCheck | HStartSet | HSpawn
    | HScCheck | HScClose | HScWait(ch: bool) | HScSet
    | HFrCheck | HFrSet | HResult | HCloseConn(ok: bool)
    | HWrite(m: Msg, body: bool, after: Kont)
    | HDone

  datatype WPc =
    | WIdle                               // not spawned yet
    | WNewSender | WSend(count: int, i: nat) | WCount(count: int) | WSetCollecting
    | WInstall                            // channels and bind
    | WSelect(n: nat) | WRead(n: nat)     // Receive, n packets accepted so far
    | WCloseSock(n: nat) | WPublish(n: nat) | WCloseDone
    | WWrite(m: Msg, body: bool, closeDone: bool)
    | WDone

  datatype Holder = Free | ByHandler | ByWorker

  /** A frame reaches the connection as two separate writes. */
  datatype Chunk = LenWord(m: Msg) | Body(m: Msg)

  function Half(m: Msg, body: bool): Chunk { if body then Body(m) else LenWord(m) }

  /** How the handling of send_complete met the receiver's channels. */
  datatype SendCompleteSeen = NotHandled | Missed | Seen

  /** What has happened so far; no step depends on it. */
  datatype History = History(
    accepted: Option<Params>,    // the Prepare that was answered with Ready
    results: seq<Msg>,           // Result messages produced
    changes: nat,                // state changes
    timedOut: bool,              // a read ended with EOF or a timeout
    sc: SendCompleteSeen,
    bound: bool,                 // the receiver's bind succeeded
    finalCount: Option<int>,     // what the receiver counted when Receive returned
    publishes: nat)              // writes of receivedCount

  datatype Sess = Sess(
    f: Fields,
    h: HPc,
    w: WPc,
    holder: Holder,
    connOpen: bool,
    sockOpen: bool,
    quitCloses: nat,
    doneCloses: nat,
    out: seq<Chunk>,
    tcp6: bool,                  // the control connection is IPv6
    g: History)

  datatype ReadOutcome = Data(m: Msg) | Undecodable | Eof | TimedOut | OtherError

  /** The outcome of whatever the step leaves to the environment. */
  datatype Choice = Yes | No | Fail | Got(r: ReadOutcome)

  datatype Action = Handler(c: Choice) | Worker(c: Choice) | ServerClosesConn

  /** A fresh session; its parameters are zero until a Prepare arrives. */
  function Initial(tcp6: bool): Sess {
    Sess(Fields(Idle, Params(Uplink, IPv4, 0, 0, 0, 0, 0), 0, 0, false, false, false, false),
         HInit, WIdle, Free, true, false, 0, 0, [], tcp6,
         History(None, [], 0, false, NotHandled, false, None, 0))
  }

  // ----- steps -----

  predicate HLocks(h: HPc) {
    h.HInit? || h.HEnter? || h.HTimeoutWrite? || h.HCancelWrite? || h.HCleanup? || h.HPrepSet?
    || h.HStartSet? || h.HScClose? || h.HScSet? || h.HFrSet?
  }

  predicate HReadsState(h: HPc) {
    h.HTop? || h.HTimeoutRead? || h.HAfterTimeout? || h.HCancelRead? || h.HPrepCheck?
    || h.HStartCheck? || h.HScCheck? || h.HFrCheck?
  }

  predicate WLocks(w: WPc) {
    w.WSetCollecting? || w.WInstall? || w.WPublish?
  }

  function Refuse(m: Msg, k: Kont): HPc { HWrite(m, false, k) }

  /** The effect of the handler's lock sections on the fields. */
  function SectionFields(s: Sess): Fields
    requires HLocks(s.h)
  {
    match s.h
    case HInit => s.f.(conn := true)
    case HEnter => SetState(s.f, Preparing)
    case HTimeoutWrite(stale) => TimeoutWrite(s.f, stale)
    case HCancelWrite(_) => s.f.(state := Cancelled)
    case HCleanup(_) => Cleanup(s.f)
    case HPrepSet => SetState(s.f, Ready)
    case HStartSet => SetState(s.f, Running)
    case HScClose => s.f.(quitCh := false)
    case HScSet => SetState(s.f, Collecting)
    case HFrSet => SetState(s.f, Completed)
  }

  /** The jump after setState. */
  function Guarded(s: Sess, to: SessionState, ok: HPc): HPc {
    if CanTransition(s.f.state, to) then ok else Refuse(MInternalError, Return)
  }

  function AfterCleanup(exit: Exit): HPc {
    match exit
    case ToCheck => HAfterTimeout(0)
    case ToLoop => HTop(0)
    case ToEnd => HDone
  }

  /** Where the handler goes after a lock section. */
  function SectionNext(s: Sess): HPc
    requires HLocks(s.h)
  {
    match s.h
    case HInit => HEnter
    case HEnter => Guarded(s, Preparing, HTop(0))
    case HTimeoutWrite(_) => HCleanup(ToCheck)
    case HCancelWrite(ret) => HCleanup(if ret then ToEnd else ToLoop)
    case HCleanup(exit) => AfterCleanup(exit)
    case HPrepSet => Guarded(s, Ready, HWrite(MReady, false, LoopOrReturn))
    case HStartSet => Guarded(s, Running, HSpawn)
    case HScClose => HScWait(s.f.receiverDone)
    case HScSet => Guarded(s, Collecting, HTop(0))
    case HFrSet => Guarded(s, Completed, HResult)
  }

  function Changes(s: Sess, f: Fields): nat {
    s.g.changes + if f.state == s.f.state then 0 else 1
  }

  /** One of the handler's lock sections, run and released. */
  function HSection(s: Sess): Sess
    requires HLocks(s.h)
  {
    var f := SectionFields(s);
    s.(f := f,
       h := SectionNext(s),
       holder := Free,
       connOpen := s.connOpen && !(s.h.HCleanup? && s.f.conn),
       sockOpen := s.sockOpen && !(s.h.HCleanup? && s.f.receiver),
       quitCloses := s.quitCloses + (if s.h.HScClose? && s.f.quitCh then 1 else 0),
       g := s.g.(
         accepted := if s.h.HPrepSet? && CanTransition(s.f.state, Ready) then Some(f.params) else s.g.accepted,
         changes := Changes(s, f),
         sc := if !s.h.HScClose? then s.g.sc else if s.f.receiverDone then Seen else Missed))
  }

  function LoopGuard(k: nat, st: SessionState, stay: HPc, out: HPc): HPc {
    if (k == 0 && st == Failed) || (k == 1 && st == Completed) || (k == 2 && st == Cancelled) then HDone
    else if k < 2 then stay else out
  }

  function AfterWrite(k: Kont, ok: bool): HPc {
    match k
    case Loop => HTop(0)
    case Return => HDone
    case LoopOrReturn => if ok then HTop(0) else HDone
    case CloseAfter => HCloseConn(ok)
  }

  function Dispatch(m: Msg): HPc {
    match m
    case MHello(v) => if v == PROTOCOL_VERSION then HTop(0) else Refuse(MInvalidRequest, Loop)
    case MPrepare(p) => HPrepCheck(p)
    case MStart => HStartCheck
    case MSendComplete => HScCheck
    case MFetchResult => HFrCheck
    case MCancel => HCancelRead(false)
    case _ => Refuse(MInvalidRequest, Loop)
  }

  /** The handler's steps that start with a locked read of the state. */
  function HStateRead(s: Sess): HPc
    requires HReadsState(s.h)
  {
    StateJump(s.h, s.f)
  }

  function StateJump(h: HPc, f: Fields): HPc
    requires HReadsState(h)
  {
    var st := f.state;
    match h
    case HTop(k) => LoopGuard(k, st, HTop(k + 1), HCtx)
    case HAfterTimeout(k) => LoopGuard(k, st, HAfterTimeout(k + 1), HTop(0))
    case HTimeoutRead => HTimeoutWrite(st)
    case HCancelRead(ret) =>
      if IsActive(st) then HCancelWrite(ret) else if ret then HDone else HTop(0)
    case HPrepCheck(p) => if st == Preparing then HPrepStore(p) else Refuse(MInvalidRequest, Loop)
    case HStartCheck => if st == Ready then HStartSet else Refuse(MInvalidRequest, Loop)
    case HScCheck =>
      if st == Collecting then HTop(0)
      else if st != Running then Refuse(MInvalidRequest, Loop)
      else if f.params.direction == Uplink then HScClose else HScSet
    case HFrCheck =>
      if st == Collecting then HFrSet
      else if st == Completed || st == Failed then HResult
      else Refuse(MInvalidRequest, Loop)
  }

  function AfterRead(r: ReadOutcome): HPc {
    match r
    case Data(m) => Dispatch(m)
    case Undecodable => Refuse(MInvalidRequest, Loop)
    case Eof => HTimeoutRead
    case TimedOut => HTimeoutRead
    case OtherError => Refuse(MInternalError, Return)
  }

  /** A write succeeds only on an open connection. */
  predicate WriteOk(s: Sess, c: Choice) { c == Yes && s.connOpen }

  /** Can the handler take this step outside the mutex?  It waits for input and for receiverDone. */
  predicate HEnabled(s: Sess, c: Choice) {
    match s.h
    case HRecv => c.Got? && (s.connOpen || c.r == OtherError)
    case HScWait(ch) => !ch || s.doneCloses > 0
    case HDone => false
    case _ => true
  }

  /** Where the handler goes outside the mutex. */
  function HPlainNext(s: Sess, c: Choice): HPc {
    match s.h
    case HCtx => if c == Fail then HCancelRead(true) else HRecv
    case HRecv => if c.Got? then AfterRead(c.r) else HRecv
    case HPrepStore(p) => if p.family == IPv6 && !s.tcp6 then Refuse(MInvalidRequest, Loop) else HPrepSet
    case HSpawn => HTop(0)
    case HScWait(_) => HScSet
    case HResult => HWrite(ResultOf(s.f), false, CloseAfter)
    case HCloseConn(ok) => if ok then HTop(0) else HDone
    case HWrite(m, body, k) =>
      if WriteOk(s, c) && !body then HWrite(m, true, k) else AfterWrite(k, WriteOk(s, c))
    case _ => HDone
  }

  /** The handler's steps outside the mutex; None when the step cannot be taken. */
  function HPlain(s: Sess, c: Choice): Option<Sess> {
    if !HEnabled(s, c) then None
    else
      Some(s.(
        f := if s.h.HPrepStore? then s.f.(params := s.h.p) else s.f,
        h := HPlainNext(s, c),
        w := if !s.h.HSpawn? then s.w else if s.f.params.direction == Downlink then WNewSender else WInstall,
        connOpen := s.connOpen && !s.h.HCloseConn?,
        out := if s.h.HWrite? && WriteOk(s, c) then s.out + [Half(s.h.m, s.h.body)] else s.out,
        g := s.g.(
          timedOut := s.g.timedOut || (s.h.HRecv? && (c == Got(Eof) || c == Got(TimedOut))),
          results := if s.h.HResult? then s.g.results + [ResultOf(s.f)] else s.g.results)))
  }

  function HStep(s: Sess, c: Choice): Option<Sess> {
    if HLocks(s.h) then
      match s.holder
      case Free => Some(s.(holder := ByHandler))
      case ByHandler => Some(HSection(s))
      case ByWorker => None
    else if HReadsState(s.h) then
      if s.holder == Free then Some(s.(h := HStateRead(s))) else None
    else HPlain(s, c)
  }

  /** The effect of the worker's lock sections on the fields. */
  function WSectionFields(s: Sess, c: Choice): Fields
    requires WLocks(s.w)
  {
    match s.w
    case WSetCollecting => SetState(s.f, Collecting)
    case WInstall => InstallReceiver(s.f, c == Yes)
    case WPublish(n) => Publish(s.f, n)
  }

  function WSectionNext(s: Sess, c: Choice): WPc
    requires WLocks(s.w)
  {
    match s.w
    case WSetCollecting =>
      WWrite(if CanTransition(s.f.state, Collecting) then MSendComplete else MInternalError, false, false)
    case WInstall => if c == Yes then WSelect(0) else WWrite(MInternalError, false, true)
    case WPublish(_) => WCloseDone
  }

  /** One of the worker's lock sections, run and released. */
  function WSection(s: Sess, c: Choice): Sess
    requires WLocks(s.w)
  {
    var f := WSectionFields(s, c);
    s.(f := f,
       w := WSectionNext(s, c),
       holder := Free,
       sockOpen := if s.w.WInstall? then c == Yes else s.sockOpen,
       g := s.g.(
         changes := Changes(s, f),
         bound := if s.w.WInstall? then c == Yes else s.g.bound,
         publishes := if s.w.WPublish? then s.g.publishes + 1 else s.g.publishes))
  }

  /** Does Receive return at this step? */
  predicate ReceiveEnds(s: Sess, c: Choice) {
    (s.w.WSelect? && s.quitCloses > 0) || (s.w.WRead? && (c == Fail || !s.sockOpen))
  }

  /** Where the worker goes outside the mutex. */
  function WPlainNext(s: Sess, c: Choice): WPc {
    match s.w
    case WNewSender => if c == Yes then WSend(s.f.params.packetCount, 0) else WWrite(MInternalError, false, false)
    case WSend(n, i) =>
      if c == Fail then WWrite(MInternalError, false, false) else if i < n then WSend(n, i + 1) else WCount(n)
    case WCount(_) => WSetCollecting
    case WSelect(n) => if ReceiveEnds(s, c) then WCloseSock(n) else WRead(n)
    case WRead(n) =>
      if ReceiveEnds(s, c) then WCloseSock(n) else WSelect(if c == Yes then n + 1 else n)
    case WCloseSock(n) => WPublish(n)
    case WCloseDone => WDone
    case WWrite(m, body, cd) =>
      if WriteOk(s, c) && !body then WWrite(m, true, cd) else if cd then WCloseDone else WDone
    case _ => WDone
  }

  /** The worker's steps outside the mutex. */
  function WPlain(s: Sess, c: Choice): Option<Sess> {
    if s.w.WIdle? || s.w.WDone? then None
    else
      Some(s.(
        f := if s.w.WCount? then s.f.(sentCount := s.w.count) else s.f,
        w := WPlainNext(s, c),
        sockOpen := s.sockOpen && !s.w.WCloseSock?,
        doneCloses := s.doneCloses + (if s.w.WCloseDone? then 1 else 0),
        out := if s.w.WWrite? && WriteOk(s, c) then s.out + [Half(s.w.m, s.w.body)] else s.out,
        g := s.g.(finalCount := if ReceiveEnds(s, c) then Some(s.w.n) else s.g.finalCount)))
  }

  function WStep(s: Sess, c: Choice): Option<Sess> {
    if WLocks(s.w) then
      match s.holder
      case Free => Some(s.(holder := ByWorker))
      case ByWorker => Some(WSection(s, c))
      case ByHandler => None
    else WPlain(s, c)
  }

  /** One step of a session; None when the action is not possible. */
  function Step(s: Sess, a: Action): Option<Sess> {
    match a
    case Handler(c) => HStep(s, c)
    case Worker(c) => WStep(s, c)
    case ServerClosesConn => if s.h == HDone then Some(s.(connOpen := false)) else None
  }

  /** The state a schedule leads to; None when the schedule asks for an impossible step. */
  function Exec(s: Sess, acts: seq<Action>): Option<Sess>
    decreases |acts|
  {
    if acts == [] then Some(s)
    else
      match Step(s, acts[0])
      case None => None
      case Some(s') => Exec(s', acts[1..])
  }
}
