/** The session as the object it is: fields updated in place by straight-line methods.

    Each method is one of the session's own, or one turn of its loops, run without interruption; the
    outcomes of socket calls are arguments.  The ghost field `at` is the state of the step system that
    the object has got to: `Valid` says that it was reached by steps of that system and that the
    fields are its fields, so that what holds in every schedule holds of the object (`Safety`).
    `pc` and `worker` are the positions of the handler and of the spawned goroutine. */
module SessionObject {
  import opened Protocol
  import opened Session
  import opened SessionTheorems

  lemma SafeState(s: Sess)
    requires Reachable(s)
    ensures ResultWords(s.out) <= 1
    ensures s.f.sentCount == 0 || s.f.sentCount == s.f.params.packetCount
    ensures s.f.receivedCount == 0 || s.g.finalCount == Some(s.f.receivedCount)
  {
    OneResultOnTheWire(s);
    ReachableInv(s);
  }

  lemma SafeRun(tcp6: bool, s: Sess, s': Sess)
    requires Leads(Initial(tcp6), s) && Leads(s, s')
    ensures Rank(s'.f.state) >= Rank(s.f.state) && (IsTerminal(s.f.state) ==> s'.f.state == s.f.state)
    ensures s.g.accepted.Some? ==> s.f.params == s'.f.params == s.g.accepted.value
    ensures ResultWords(s'.out) <= 1
    ensures s'.f.sentCount == 0 || s'.f.sentCount == s'.f.params.packetCount
    ensures s'.f.receivedCount == 0 || s'.g.finalCount == Some(s'.f.receivedCount)
  {
    hide Reachable;
    LeadsTrans(Initial(tcp6), s, s');
    LedReachable(tcp6, s);
    LedReachable(tcp6, s');
    SafeState(s');
    LeadsIsRun(s, s');
    var acts: seq<Action> :| Exec(s, acts) == Some(s');
    hide Exec;
    RankNeverFalls(s, acts);
    if s.g.accepted.Some? {
      FrozenAlong(s, []);
      FrozenAlong(s, acts);
    }
  }

  // ----- what messages do -----

  /** The outcomes of the two writes of a frame. */
  datatype Writes = Writes(length: bool, body: bool)

  const GOOD := Writes(true, true)

  function FrameOf(m: Msg): seq<Chunk> { [LenWord(m), Body(m)] }

  /** What of a frame gets onto the connection. */
  function Written(open: bool, m: Msg, w: Writes): seq<Chunk> {
    if !open || !w.length then [] else if !w.body then [LenWord(m)] else [LenWord(m), Body(m)]
  }

  function Replied(open: bool, answer: Option<Msg>, w: Writes): seq<Chunk> {
    match answer case None => [] case Some(m) => Written(open, m, w)
  }

  predicate Fits(p: Params, tcp6: bool) { p.family == IPv6 ==> tcp6 }

  /** The fields after a message; waits: its handling waits for the receiver. */
  function Handled(f: Fields, tcp6: bool, m: Msg, waits: bool): Fields {
    match m
    case MPrepare(p) =>
      if f.state != Preparing then f else f.(params := p, state := if Fits(p, tcp6) then Ready else Preparing)
    case MStart => if f.state == Ready then f.(state := Running) else f
    case MSendComplete =>
      if f.state != Running then f
      else f.(quitCh := f.quitCh && f.params.direction != Uplink, state := if waits then Running else Collecting)
    case MFetchResult => if f.state == Collecting then f.(state := Completed) else f
    case MCancel => CancelledFields(f)
    case _ => f
  }

  function CancelledFields(f: Fields): Fields {
    if IsActive(f.state) then Cleanup(f.(state := Cancelled)) else f
  }

  predicate HasResult(st: SessionState) { st == Collecting || st == Completed || st == Failed }

  /** The answer to a message, if it has one. */
  function Answer(f: Fields, tcp6: bool, m: Msg): Option<Msg> {
    match m
    case MHello(v) => if v == PROTOCOL_VERSION then None else Some(MInvalidRequest)
    case MPrepare(p) => Some(if f.state == Preparing && Fits(p, tcp6) then MReady else MInvalidRequest)
    case MStart => if f.state == Ready then None else Some(MInvalidRequest)
    case MSendComplete => if f.state == Running || f.state == Collecting then None else Some(MInvalidRequest)
    case MFetchResult =>
      Some(if HasResult(f.state) then ResultOf(f) else MInvalidRequest)
    case MCancel => None
    case _ => Some(MInvalidRequest)
  }

  /** Messages that only a server sends. */
  predicate Unexpected(m: Msg) { m.MReady? || m.MResult? || m.MBusy? || m.MInvalidRequest? || m.MInternalError? }

  /** Where the handler goes on from a successful setState. */
  function AfterSet(to: SessionState): HPc {
    match to
    case Ready => HWrite(MReady, false, LoopOrReturn)
    case Running => HSpawn
    case Completed => HResult
    case _ => HTop(0)
  }

  /** The lock sections that are calls of setState. */
  predicate Sets(h: HPc, to: SessionState) {
    match h
    case HEnter => to == Preparing
    case HPrepSet => to == Ready
    case HStartSet => to == Running
    case HScSet => to == Collecting
    case HFrSet => to == Completed
    case _ => false
  }

  /** Only the fields and the thread's own position change in a section. */
  ghost predicate SameRest(s: Sess, s': Sess) {
    && s'.connOpen == s.connOpen && s'.sockOpen == s.sockOpen && s'.quitCloses == s.quitCloses
    && s'.doneCloses == s.doneCloses && s'.out == s.out && s'.tcp6 == s.tcp6 && s'.holder == Free
  }

  lemma SetSection(s: Sess, to: SessionState)
    requires Sets(s.h, to)
    ensures HLocks(s.h) && HSection(s).w == s.w && SameRest(s, HSection(s))
    ensures HSection(s).f == if CanTransition(s.f.state, to) then s.f.(state := to) else s.f
    ensures HSection(s).h ==
            if CanTransition(s.f.state, to) then AfterSet(to) else HWrite(MInternalError, false, Return)
  {
  }

  lemma InstallSection(s: Sess, bound: bool)
    requires s.w == WInstall
    ensures var s' := WSection(s, if bound then Yes else No);
      && s'.h == s.h && SameRest(s.(sockOpen := bound), s')
      && s'.f == s.f.(quitCh := true, receiverDone := true, receiver := s.f.receiver || bound)
      && s'.w == if bound then WSelect(0) else WWrite(MInternalError, false, true)
  {
  }

  lemma PublishSection(s: Sess, n: nat)
    requires s.w == WPublish(n)
    ensures var s' := WSection(s, Yes);
      && s'.h == s.h && SameRest(s, s')
      && s'.f == s.f.(receivedCount := n, receiver := false) && s'.w == WCloseDone
  {
  }

  lemma CleanupSection(s: Sess)
    requires s.h.HCleanup?
    ensures var s' := HSection(s);
      && s'.w == s.w && s'.h == AfterCleanup(s.h.exit) && s'.f == s.f.(conn := false, receiver := false)
      && SameRest(s.(connOpen := s.connOpen && !s.f.conn, sockOpen := s.sockOpen && !s.f.receiver), s')
  {
  }

  lemma CancelJump(h: HPc, f: Fields)
    requires h.HCancelRead?
    ensures StateJump(h, f) == if IsActive(f.state) then HCancelWrite(h.ret) else if h.ret then HDone else HTop(0)
  {
  }

  lemma StartJump(f: Fields)
    ensures StateJump(HStartCheck, f) == if f.state == Ready then HStartSet else HWrite(MInvalidRequest, false, Loop)
  {
  }

  // ----- the loop, as a function -----

  /** How an iteration of the loop ends: Blocks while the handler waits for the receiver. */
  datatype Progress = Continues | Ends | Blocks

  /** What one iteration of the loop meets. */
  datatype Input = Input(cancelled: bool, offered: ReadOutcome, w: Writes)

  /** What the handler works on: the fields, the connection, and what is written to it. */
  datatype Scene = Scene(f: Fields, open: bool, out: seq<Chunk>)

  datatype Outcome = Outcome(x: Scene, p: Progress)

  predicate Waits(f: Fields, done: bool, m: Msg) {
    m == MSendComplete && f.state == Running && f.params.direction == Uplink && f.receiverDone && !done
  }

  predicate StaysOpen(x: Scene, m: Msg) {
    x.open && !(m == MFetchResult && HasResult(x.f.state)) && !(m == MCancel && IsActive(x.f.state) && x.f.conn)
  }

  /** A Ready or a Result that cannot be written ends the handler. */
  predicate Breaks(x: Scene, tcp6: bool, m: Msg, w: Writes) {
    && !(x.open && w.length && w.body)
    && ((m.MPrepare? && x.f.state == Preparing && Fits(m.params, tcp6)) || (m == MFetchResult && HasResult(x.f.state)))
  }

  /** Every message moves the fields as Handled says and is answered as Answer says. */
  function MessageTurn(x: Scene, tcp6: bool, done: bool, m: Msg, w: Writes): Outcome {
    var waits := Waits(x.f, done, m);
    Outcome(
      Scene(Handled(x.f, tcp6, m, waits), StaysOpen(x, m), x.out + Replied(x.open, Answer(x.f, tcp6, m), w)),
      if waits then Blocks else if Breaks(x, tcp6, m, w) then Ends else Continues)
  }

  function TimeoutTurn(x: Scene): Outcome {
    var f := Cleanup(TimeoutWrite(x.f, x.f.state));
    Outcome(Scene(f, x.open && !x.f.conn, x.out), if IsTerminal(f.state) then Ends else Continues)
  }

  function ReadTurn(x: Scene, tcp6: bool, done: bool, offered: ReadOutcome, w: Writes): Outcome {
    match if x.open then offered else OtherError
    case Data(m) => MessageTurn(x, tcp6, done, m, w)
    case Undecodable => Outcome(x.(out := x.out + Written(x.open, MInvalidRequest, w)), Continues)
    case OtherError => Outcome(x.(out := x.out + Written(x.open, MInternalError, w)), Ends)
    case _ => TimeoutTurn(x)
  }

  /** One iteration of the loop. */
  function Turn(x: Scene, tcp6: bool, done: bool, i: Input): Outcome {
    if IsTerminal(x.f.state) then Outcome(x, Ends)
    else if i.cancelled then
      Outcome(Scene(CancelledFields(x.f), x.open && !(IsActive(x.f.state) && x.f.conn), x.out), Ends)
    else ReadTurn(x, tcp6, done, i.offered, i.w)
  }

  /** The loop over what it meets, until it ends, blocks, or has nothing more to read. */
  function Turns(x: Scene, tcp6: bool, done: bool, inputs: seq<Input>): Outcome
    decreases |inputs|
  {
    if inputs == [] then Outcome(x, Continues)
    else
      var o := Turn(x, tcp6, done, inputs[0]);
      if o.p != Continues then o else Turns(o.x, tcp6, done, inputs[1..])
  }

  /** The loop takes its inputs one by one, and as long as it goes on each finds what the others left. */
  lemma {:induction false} TurnsCompose(x: Scene, tcp6: bool, done: bool, first: seq<Input>, rest: seq<Input>)
    ensures var o := Turns(x, tcp6, done, first);
      Turns(x, tcp6, done, first + rest) == if o.p == Continues then Turns(o.x, tcp6, done, rest) else o
    ensures first == [] ==> Turns(x, tcp6, done, first) == Outcome(x, Continues)
    ensures |first| == 1 ==> Turns(x, tcp6, done, first) == Turn(x, tcp6, done, first[0])
    decreases |first|
  {
    hide Turn;
    if first == [] {
      assert first + rest == rest;
    } else {
      assert (first + rest)[1..] == first[1..] + rest;
      TurnsCompose(Turn(x, tcp6, done, first[0]).x, tcp6, done, first[1..], rest);
    }
  }

  /** What one turn of the receive loop meets. */
  datatype Poll = Packet | Idle' | Failure

  /** Packets accepted before the first failure. */
  function PacketsIn(polls: seq<Poll>): nat {
    if polls == [] || polls[0] == Failure then 0 else (if polls[0] == Packet then 1 else 0) + PacketsIn(polls[1..])
  }

  class ControlSession {
    var state: SessionState
    var params: Params
    var sentCount: int
    var receivedCount: int
    var conn: bool
    var quitCh: bool
    var receiverDone: bool
    var receiver: bool
    var connOpen: bool
    var sockOpen: bool
    var quitClosed: bool
    var doneClosed: bool
    var out: seq<Chunk>
    const tcp6: bool
    ghost var pc: HPc
    ghost var worker: WPc
    ghost var at: Sess
    ghost var mark: Sess  // an earlier state of this object

    ghost function View(): Fields
      reads this
    {
      Fields(state, params, sentCount, receivedCount, conn, quitCh, receiverDone, receiver)
    }

    ghost function Now(): Scene
      reads this
    {
      Scene(View(), connOpen, out)
    }

    ghost predicate Valid()
      reads this
    {
      && Leads(Initial(tcp6), mark) && Leads(mark, at)
      && at.h == pc && at.w == worker && at.holder == Free
      && at.f == View() && at.connOpen == connOpen && at.out == out && at.tcp6 == tcp6
      && at.sockOpen == sockOpen && quitClosed == (at.quitCloses > 0) && doneClosed == (at.doneCloses > 0)
    }

    constructor (tcp6: bool)
      ensures Valid() && Fresh() && this.tcp6 == tcp6
    {
      state, params, sentCount, receivedCount := Idle, Params(Uplink, IPv4, 0, 0, 0, 0, 0), 0, 0;
      conn, quitCh, receiverDone, receiver := false, false, false, false;
      connOpen, sockOpen, quitClosed, doneClosed, out, this.tcp6 := true, false, false, false, [], tcp6;
      pc, worker, at, mark := HInit, WIdle, Initial(tcp6), Initial(tcp6);
      new;
    }

    ghost predicate Fresh()
      reads this
    {
      && pc == HInit && worker == WIdle && View() == Initial(tcp6).f
      && connOpen && !sockOpen && !quitClosed && !doneClosed && out == []
    }

    /** Every theorem about schedules speaks of the object: its state has not fallen behind the
        marked one and a terminal state stays, accepted parameters stay, no second Result frame is
        begun, and the counts are what was sent and what the receiver counted. */
    lemma Safety()
      requires Valid()
      ensures Rank(state) >= Rank(mark.f.state) && (IsTerminal(mark.f.state) ==> state == mark.f.state)
      ensures mark.g.accepted.Some? ==> params == mark.f.params
      ensures ResultWords(out) <= 1
      ensures sentCount == 0 || sentCount == params.packetCount
      ensures receivedCount == 0 || at.g.finalCount == Some(receivedCount)
    {
      SafeRun(tcp6, mark, at);
    }

    // ----- single steps -----

    ghost method Take(c: Choice)
      requires Leads(mark, at) && HStep(at, c).Some?
      modifies this`at, this`pc
      ensures Leads(mark, at) && at == HStep(old(at), c).value && pc == at.h
    {
      LeadsOn(mark, at, Handler(c));
      at := HStep(at, c).value;
      pc := at.h;
    }

    /** A step outside the mutex. */
    ghost method TakePlain(c: Choice)
      requires Leads(mark, at) && !HLocks(at.h) && !HReadsState(at.h) && HPlain(at, c).Some?
      modifies this`at, this`pc
      ensures Leads(mark, at) && at == HPlain(old(at), c).value && pc == at.h
    {
      Take(c);
    }

    /** Acquires the mutex and runs a lock section. */
    ghost method TakeSection()
      requires Leads(mark, at) && HLocks(at.h) && at.holder == Free
      modifies this`at, this`pc
      ensures Leads(mark, at) && at == HSection(old(at)) && pc == at.h
    {
      var s := at;
      Take(Yes);
      assert at == s.(holder := ByHandler) && HLocks(at.h);
      Take(Yes);
    }

    method State() returns (st: SessionState)
      requires Valid() && HReadsState(pc)
      modifies this`at, this`pc
      ensures Valid() && st == state && pc == StateJump(old(pc), View())
    {
      Take(Yes);
      st := state;
    }

    method SetState(to: SessionState) returns (ok: bool)
      requires Valid() && Sets(pc, to)
      modifies this`state, this`at, this`pc
      ensures Valid() && ok == CanTransition(old(state), to)
      ensures pc == if ok then AfterSet(to) else HWrite(MInternalError, false, Return)
      ensures state == if ok then to else old(state)
    {
      hide HSection, Leads, HPlainNext;
      ok := CanTransition(state, to);
      SetSection(at, to);
      TakeSection();
      if ok { state := to; }
    }

    /** One write, which fails on a closed connection. */
    method Write(c: Chunk, ok: bool) returns (done: bool)
      requires Valid() && pc.HWrite? && c == Half(pc.m, pc.body)
      modifies this`out, this`at, this`pc
      ensures Valid() && done == (connOpen && ok) && out == (if done then old(out) + [c] else old(out))
      ensures pc == if done && !old(pc).body then old(pc).(body := true) else AfterWrite(old(pc).after, done)
    {
      hide WPlain;
      done := connOpen && ok;
      TakePlain(if ok then Yes else No);
      if done { out := out + [c]; }
    }

    /** Length word and body go out as two writes; a failed one leaves what was written before it. */
    method WriteMessage(m: Msg, w: Writes) returns (ok: bool)
      requires Valid() && pc.HWrite? && !pc.body && pc.m == m
      modifies this`out, this`at, this`pc
      ensures Valid() && pc == AfterWrite(old(pc).after, ok) && ok == (connOpen && w.length && w.body)
      ensures out == old(out) + Written(connOpen, m, w)
      ensures ok ==> out == old(out) + [LenWord(m), Body(m)]
      ensures !ok ==> out == old(out) + if connOpen && w.length then [LenWord(m)] else []
    {
      hide Valid;
      ok := Write(LenWord(m), w.length);
      if ok { ok := Write(Body(m), w.body); }
    }

    method SendInvalidRequest(w: Writes)
      requires Valid() && pc == HWrite(MInvalidRequest, false, Loop)
      modifies this`out, this`at, this`pc
      ensures Valid() && pc == HTop(0) && out == old(out) + Written(connOpen, MInvalidRequest, w)
    {
      var _ := WriteMessage(MInvalidRequest, w);
    }

    method CleanupNoStateChange()
      requires Valid() && pc.HCleanup?
      modifies this`conn, this`receiver, this`connOpen, this`sockOpen, this`at, this`pc
      ensures Valid() && pc == AfterCleanup(old(pc).exit) && !conn && !receiver
      ensures connOpen == (old(connOpen) && !old(conn)) && sockOpen == (old(sockOpen) && !old(receiver))
    {
      hide HSection, Leads;
      CleanupSection(at);
      TakeSection();
      Release();
    }

    method Release()
      modifies this`conn, this`receiver, this`connOpen, this`sockOpen
      ensures View() == old(View()).(conn := false, receiver := false)
      ensures connOpen == (old(connOpen) && !old(conn)) && sockOpen == (old(sockOpen) && !old(receiver))
    {
      connOpen, sockOpen := connOpen && !conn, sockOpen && !receiver;
      conn, receiver := false, false;
    }

    /** The go statement. */
    method Go()
      requires Valid() && pc == HSpawn
      modifies this`at, this`pc, this`worker
      ensures Valid() && pc == HTop(0) && worker == if params.direction == Downlink then WNewSender else WInstall
    {
      TakePlain(Yes);
      worker := at.w;
    }

    // ----- handlers -----

    /** The state is written directly, from a read before the lock; connection and receiver are released. */
    method HandleTimeout()
      requires Valid() && pc == HTimeoutRead
      modifies this`state, this`conn, this`receiver, this`connOpen, this`sockOpen, this`at, this`pc
      ensures Valid() && pc == HAfterTimeout(0) && !conn && !receiver
      ensures connOpen == (old(connOpen) && !old(conn)) && sockOpen == (old(sockOpen) && !old(receiver))
      ensures old(state) == Preparing || old(state) == Collecting ==> state == Failed
      ensures old(state) == Running ==> state == Collecting
      ensures old(state) != Preparing && old(state) != Collecting && old(state) != Running ==> state == old(state)
    {
      hide Valid, SectionNext;
      var stale := State();
      WriteAfterTimeout(stale);
      CleanupNoStateChange();
    }

    method WriteAfterTimeout(stale: SessionState)
      requires Valid() && pc == HTimeoutWrite(stale)
      modifies this`state, this`at, this`pc
      ensures Valid() && pc == HCleanup(ToCheck)
      ensures state == if stale == Preparing || stale == Collecting then Failed
                       else if stale == Running then Collecting else old(state)
    {
      hide HStep;
      TakeSection();
      PutAfterTimeout(stale);
    }

    method PutAfterTimeout(stale: SessionState)
      modifies this`state
      ensures View() == TimeoutWrite(old(View()), stale)
      ensures state == if stale == Preparing || stale == Collecting then Failed
                       else if stale == Running then Collecting else old(state)
    {
      if stale == Preparing {
        state := Failed;
      } else if stale == Running {
        state := Collecting;
      } else if stale == Collecting {
        state := Failed;
      }
    }

    method CancelWrite()
      requires Valid() && pc.HCancelWrite?
      modifies this`state, this`at, this`pc
      ensures Valid() && state == Cancelled && pc == HCleanup(if old(pc).ret then ToEnd else ToLoop)
    {
      TakeSection();
      state := Cancelled;
    }

    method HandleCancel() returns (cancelled: bool)
      requires Valid() && pc.HCancelRead?
      modifies this`state, this`conn, this`receiver, this`connOpen, this`sockOpen, this`at, this`pc
      ensures Valid() && pc == (if old(pc).ret then HDone else HTop(0)) && cancelled == IsActive(old(state))
      ensures state == if cancelled then Cancelled else old(state)
      ensures cancelled ==>
        && !conn && connOpen == (old(connOpen) && !old(conn))
        && !receiver && sockOpen == (old(sockOpen) && !old(receiver))
      ensures !cancelled ==>
        conn == old(conn) && connOpen == old(connOpen) && receiver == old(receiver) && sockOpen == old(sockOpen)
    {
      hide Valid, StateJump, HPlain;
      CancelJump(pc, View());
      var st := State();
      if st == Idle || IsTerminal(st) { return false; }
      CancelWrite();
      CleanupNoStateChange();
      return true;
    }

    /** Stores the parameters; false when their family does not fit the connection. */
    method StoreParams(p: Params) returns (fits: bool)
      requires Valid() && pc == HPrepStore(p)
      modifies this`params, this`at, this`pc
      ensures Valid() && params == p && fits == Fits(p, tcp6)
      ensures pc == if fits then HPrepSet else HWrite(MInvalidRequest, false, Loop)
    {
      TakePlain(Yes);
      params := p;
      fits := p.family == IPv6 ==> tcp6;
    }

    method HandlePrepare(p: Params, w: Writes) returns (ok: bool)
      requires Valid() && pc == HPrepCheck(p)
      modifies this`state, this`params, this`out, this`at, this`pc
      ensures Valid() && pc == (if ok then HTop(0) else HDone)
      ensures params == if old(state) == Preparing then p else old(params)
      ensures var accepts := old(state) == Preparing && (p.family == IPv6 ==> tcp6);
        && state == (if accepts then Ready else old(state))
        && out == old(out) + Written(connOpen, if accepts then MReady else MInvalidRequest, w)
        && ok == (accepts ==> connOpen && w.length && w.body)
    {
      hide Valid, Written;
      var st := State();
      if st != Preparing {
        SendInvalidRequest(w);
        return true;
      }
      var fits := StoreParams(p);
      if !fits {
        SendInvalidRequest(w);
        return true;
      }
      ok := BecomeReady(w);
    }

    method BecomeReady(w: Writes) returns (ok: bool)
      requires Valid() && pc == HPrepSet && state == Preparing
      modifies this`state, this`out, this`at, this`pc
      ensures Valid() && pc == (if ok then HTop(0) else HDone) && state == Ready
      ensures ok == (connOpen && w.length && w.body) && out == old(out) + Written(connOpen, MReady, w)
    {
      hide Valid;
      var _ := SetState(Ready);
      ok := WriteMessage(MReady, w);
    }

    method HandleStart(w: Writes)
      requires Valid() && pc == HStartCheck
      modifies this`state, this`out, this`at, this`pc, this`worker
      ensures Valid() && pc == HTop(0)
      ensures state == if old(state) == Ready then Running else old(state)
      ensures old(state) == Ready ==>
        worker == (if params.direction == Downlink then WNewSender else WInstall) && out == old(out)
      ensures old(state) != Ready ==> worker == old(worker) && out == old(out) + Written(connOpen, MInvalidRequest, w)
    {
      hide Valid, Written, StateJump;
      StartJump(View());
      var st := State();
      if st != Ready {
        SendInvalidRequest(w);
        return;
      }
      var _ := SetState(Running);
      Go();
    }

    method CloseQuit()
      requires Valid() && pc == HScClose
      modifies this`quitCh, this`quitClosed, this`at, this`pc
      ensures Valid() && !quitCh && pc == HScWait(receiverDone)
      ensures quitClosed == (old(quitClosed) || old(quitCh))
    {
      hide HPlain;
      TakeSection();
      Quit();
    }

    method Quit()
      modifies this`quitCh, this`quitClosed
      ensures View() == old(View()).(quitCh := false) && quitClosed == (old(quitClosed) || old(quitCh))
    {
      if quitCh {
        quitClosed := true;
        quitCh := false;
      }
    }

    method AfterWait()
      requires Valid() && pc.HScWait? && (pc.ch ==> doneClosed)
      modifies this`at, this`pc
      ensures Valid() && pc == HScSet
    {
      TakePlain(Yes);
    }

    /** Does an uplink session have to wait for its receiver? */
    ghost predicate MustWait()
      reads this
    {
      state == Running && params.direction == Uplink && receiverDone && !doneClosed
    }

    /** Tells the receiver to stop; blocked: it has to be waited for. */
    method HandleSendComplete(w: Writes) returns (blocked: bool)
      requires Valid() && pc == HScCheck
      modifies this`state, this`quitCh, this`quitClosed, this`out, this`at, this`pc
      ensures Valid() && pc == if blocked then HScWait(true) else HTop(0)
      ensures blocked == old(MustWait())
      ensures state == if old(state) == Running && !blocked then Collecting else old(state)
      ensures if old(state) == Running && params.direction == Uplink
              then !quitCh && quitClosed == (old(quitClosed) || old(quitCh))
              else quitCh == old(quitCh) && quitClosed == old(quitClosed)
      ensures out == old(out) + if old(state) == Running || old(state) == Collecting then []
                                else Written(connOpen, MInvalidRequest, w)
    {
      hide Valid, Written;
      var st := State();
      if st == Collecting { return false; }
      if st != Running {
        SendInvalidRequest(w);
        return false;
      }
      blocked := Collect();
    }

    method Collect() returns (blocked: bool)
      requires Valid() && state == Running && pc == if params.direction == Uplink then HScClose else HScSet
      modifies this`state, this`quitCh, this`quitClosed, this`at, this`pc
      ensures Valid() && pc == if blocked then HScWait(true) else HTop(0)
      ensures blocked == (params.direction == Uplink && receiverDone && !doneClosed)
      ensures state == if blocked then Running else Collecting
      ensures if params.direction == Uplink then !quitCh && quitClosed == (old(quitClosed) || old(quitCh))
              else quitCh == old(quitCh) && quitClosed == old(quitClosed)
    {
      hide Valid;
      blocked := false;
      if params.direction == Uplink { blocked := StopReceiver(); }
      if !blocked { var _ := SetState(Collecting); }
    }

    method StopReceiver() returns (blocked: bool)
      requires Valid() && pc == HScClose
      modifies this`quitCh, this`quitClosed, this`at, this`pc
      ensures Valid() && !quitCh && blocked == (receiverDone && !doneClosed)
      ensures quitClosed == (old(quitClosed) || old(quitCh))
      ensures pc == if blocked then HScWait(true) else HScSet
    {
      hide Valid;
      CloseQuit();
      blocked := receiverDone && !doneClosed;
      if !blocked { AfterWait(); }
    }

    /** The handler goes on once the receiver has closed receiverDone. */
    method ResumeSendComplete()
      requires Valid() && pc == HScWait(true) && doneClosed && state == Running
      modifies this`state, this`at, this`pc
      ensures Valid() && pc == HTop(0) && state == Collecting
    {
      hide Valid;
      AfterWait();
      var _ := SetState(Collecting);
    }

    method CloseConn()
      requires Valid() && pc.HCloseConn?
      modifies this`connOpen, this`at, this`pc
      ensures Valid() && !connOpen && pc == if old(pc).ok then HTop(0) else HDone
    {
      TakePlain(Yes);
      connOpen := false;
    }

    /** The counts of the Result, from the fields. */
    method MakeResult() returns (m: Msg)
      requires Valid() && pc == HResult
      modifies this`at, this`pc
      ensures Valid() && m == ResultOf(View()) && pc == HWrite(m, false, CloseAfter)
      ensures m == MResult(if sentCount == 0 then params.packetCount else sentCount, receivedCount)
    {
      var sent := sentCount;
      if sent == 0 { sent := params.packetCount; }
      TakePlain(Yes);
      return MResult(sent, receivedCount);
    }

    method SendResult(w: Writes) returns (ok: bool)
      requires Valid() && pc == HResult
      modifies this`out, this`connOpen, this`at, this`pc
      ensures Valid() && pc == (if ok then HTop(0) else HDone) && !connOpen
      ensures ok == (old(connOpen) && w.length && w.body)
      ensures out == old(out) + Written(old(connOpen), ResultOf(View()), w)
      ensures ResultOf(View()) == MResult(if sentCount == 0 then params.packetCount else sentCount, receivedCount)
    {
      hide Valid, ResultOf, Written;
      var m := MakeResult();
      ok := WriteMessage(m, w);
      CloseConn();
    }

    method HandleFetchResult(w: Writes) returns (ok: bool)
      requires Valid() && pc == HFrCheck
      modifies this`state, this`out, this`connOpen, this`at, this`pc
      ensures Valid() && pc == (if ok then HTop(0) else HDone)
      ensures state == if old(state) == Collecting then Completed else old(state)
      ensures old(state) == Collecting || old(state) == Completed || old(state) == Failed ==>
        && out == old(out) + Written(old(connOpen), ResultOf(View()), w)
        && !connOpen && ok == (old(connOpen) && w.length && w.body)
      ensures old(state) != Collecting && old(state) != Completed && old(state) != Failed ==>
        out == old(out) + Written(connOpen, MInvalidRequest, w) && connOpen == old(connOpen) && ok
    {
      hide Valid, ResultOf, Written;
      var st := State();
      if st != Collecting {
        if st == Completed || st == Failed {
          ok := SendResult(w);
          return;
        }
        SendInvalidRequest(w);
        return true;
      }
      ok := Complete(w);
    }

    method Complete(w: Writes) returns (ok: bool)
      requires Valid() && pc == HFrSet && state == Collecting
      modifies this`state, this`out, this`connOpen, this`at, this`pc
      ensures Valid() && pc == (if ok then HTop(0) else HDone) && state == Completed && !connOpen
      ensures ok == (old(connOpen) && w.length && w.body)
      ensures out == old(out) + Written(old(connOpen), ResultOf(View()), w)
    {
      hide Valid, ResultOf, Written;
      var _ := SetState(Completed);
      ok := SendResult(w);
    }

    // ----- the loop -----

    /** The handler's start, up to its loop. */
    method Begin()
      requires Valid() && pc == HInit && state == Idle
      modifies this`conn, this`state, this`at, this`pc
      ensures Valid() && pc == HTop(0) && conn && state == Preparing
    {
      TakeSection();
      conn := true;
      var _ := SetState(Preparing);
    }

    /** The terminal states are asked for one after another. */
    method Finished() returns (b: bool)
      requires Valid() && (pc == HTop(0) || pc == HAfterTimeout(0))
      modifies this`at, this`pc
      ensures Valid() && b == IsTerminal(state)
      ensures pc == if b then HDone else if old(pc) == HTop(0) then HCtx else HTop(0)
    {
      var st := State();
      if st == Failed { return true; }
      st := State();
      if st == Completed { return true; }
      st := State();
      return st == Cancelled;
    }

    method Select(cancelled: bool)
      requires Valid() && pc == HCtx
      modifies this`at, this`pc
      ensures Valid() && pc == (if cancelled then HCancelRead(true) else HRecv)
    {
      TakePlain(if cancelled then Fail else Yes);
    }

    /** A closed connection answers with an error that is neither EOF nor a timeout. */
    method ReadMessage(offered: ReadOutcome) returns (r: ReadOutcome)
      requires Valid() && pc == HRecv
      modifies this`at, this`pc
      ensures Valid() && r == (if connOpen then offered else OtherError) && pc == AfterRead(r)
    {
      r := if connOpen then offered else OtherError;
      TakePlain(Got(r));
    }

    ghost predicate Stands(p: Progress)
      reads this
    {
      pc == match p case Continues => HTop(0) case Ends => HDone case Blocks => HScWait(true)
    }

    /** Every message has the effect of its turn. */
    method HandleMessage(m: Msg, w: Writes) returns (p: Progress)
      requires Valid() && pc == Dispatch(m)
      modifies this
      ensures Valid() && mark == old(mark) && doneClosed == old(doneClosed) && Stands(p)
      ensures Outcome(Now(), p) == MessageTurn(old(Now()), tcp6, doneClosed, m, w)
      ensures m == MHello(1) ==> p == Continues && Now() == old(Now())
      ensures (m.MHello? && m.clientVersion != 1) || Unexpected(m) ==>
        p == Continues && Now() == old(Now()).(out := old(out) + Written(connOpen, MInvalidRequest, w))
    {
      hide Valid, MessageTurn;
      match m {
        case MPrepare(ps) => p := PrepareTurn(ps, w);
        case MStart => p := StartTurn(w);
        case MSendComplete => p := SendCompleteTurn(w);
        case MFetchResult => p := FetchTurn(w);
        case MCancel => p := CancelTurn(w);
        case MHello(v) => p := HelloTurn(v, w);
        case _ => p := UnknownTurn(m, w);
      }
    }

    method PrepareTurn(ps: Params, w: Writes) returns (p: Progress)
      requires Valid() && pc == HPrepCheck(ps)
      modifies this
      ensures Valid() && mark == old(mark) && doneClosed == old(doneClosed) && Stands(p)
      ensures Outcome(Now(), p) == MessageTurn(old(Now()), tcp6, doneClosed, MPrepare(ps), w)
    {
      hide Valid, Written;
      var ok := HandlePrepare(ps, w);
      p := if ok then Continues else Ends;
    }

    method StartTurn(w: Writes) returns (p: Progress)
      requires Valid() && pc == HStartCheck
      modifies this
      ensures Valid() && mark == old(mark) && doneClosed == old(doneClosed) && Stands(p)
      ensures Outcome(Now(), p) == MessageTurn(old(Now()), tcp6, doneClosed, MStart, w)
    {
      hide Valid, Written;
      HandleStart(w);
      p := Continues;
    }

    method SendCompleteTurn(w: Writes) returns (p: Progress)
      requires Valid() && pc == HScCheck
      modifies this
      ensures Valid() && mark == old(mark) && doneClosed == old(doneClosed) && Stands(p)
      ensures Outcome(Now(), p) == MessageTurn(old(Now()), tcp6, doneClosed, MSendComplete, w)
    {
      hide Valid, Written;
      var blocked := HandleSendComplete(w);
      p := if blocked then Blocks else Continues;
    }

    method FetchTurn(w: Writes) returns (p: Progress)
      requires Valid() && pc == HFrCheck
      modifies this
      ensures Valid() && mark == old(mark) && doneClosed == old(doneClosed) && Stands(p)
      ensures Outcome(Now(), p) == MessageTurn(old(Now()), tcp6, doneClosed, MFetchResult, w)
    {
      hide Valid, Written;
      var ok := HandleFetchResult(w);
      p := if ok then Continues else Ends;
    }

    method CancelTurn(w: Writes) returns (p: Progress)
      requires Valid() && pc == HCancelRead(false)
      modifies this
      ensures Valid() && mark == old(mark) && doneClosed == old(doneClosed) && Stands(p)
      ensures Outcome(Now(), p) == MessageTurn(old(Now()), tcp6, doneClosed, MCancel, w)
    {
      hide Valid, Written;
      var _ := HandleCancel();
      p := Continues;
    }

    method HelloTurn(v: int, w: Writes) returns (p: Progress)
      requires Valid() && pc == Dispatch(MHello(v))
      modifies this
      ensures Valid() && mark == old(mark) && doneClosed == old(doneClosed) && Stands(p)
      ensures Outcome(Now(), p) == MessageTurn(old(Now()), tcp6, doneClosed, MHello(v), w)
      ensures p == Continues
      ensures Now() == old(Now()).(out := old(out) + if v == 1 then [] else Written(connOpen, MInvalidRequest, w))
    {
      hide Valid, Written;
      if v != PROTOCOL_VERSION { SendInvalidRequest(w); }
      p := Continues;
    }

    method UnknownTurn(m: Msg, w: Writes) returns (p: Progress)
      requires Valid() && pc == HWrite(MInvalidRequest, false, Loop)
      requires Unexpected(m)
      modifies this
      ensures Valid() && mark == old(mark) && doneClosed == old(doneClosed) && Stands(p)
      ensures Outcome(Now(), p) == MessageTurn(old(Now()), tcp6, doneClosed, m, w)
      ensures p == Continues && Now() == old(Now()).(out := old(out) + Written(connOpen, MInvalidRequest, w))
    {
      hide Valid, Written;
      SendInvalidRequest(w);
      p := Continues;
    }

    /** One iteration of handleMessages. */
    method Iterate(x: Input) returns (p: Progress)
      requires Valid() && pc == HTop(0)
      modifies this
      ensures Valid() && mark == old(mark) && doneClosed == old(doneClosed) && Stands(p)
      ensures Outcome(Now(), p) == Turn(old(Now()), tcp6, doneClosed, x)
      ensures IsTerminal(old(state)) ==> p == Ends && Now() == old(Now())
      ensures IsActive(old(state)) && x.cancelled ==>
        && p == Ends && state == Cancelled && out == old(out)
        && !conn && connOpen == (old(connOpen) && !old(conn)) && !receiver
      ensures IsActive(old(state)) && !x.cancelled && old(connOpen) && x.offered == Undecodable ==>
        p == Continues && Now() == old(Now()).(out := old(out) + Written(true, MInvalidRequest, x.w))
      ensures IsActive(old(state)) && !x.cancelled && old(connOpen) && x.offered == OtherError ==>
        p == Ends && Now() == old(Now()).(out := old(out) + Written(true, MInternalError, x.w))
      ensures IsActive(old(state)) && !x.cancelled && !old(connOpen) ==> p == Ends && Now() == old(Now())
    {
      hide Valid, ReadTurn, Leads;
      var over := Finished();
      if over { return Ends; }
      Select(x.cancelled);
      if x.cancelled {
        var _ := HandleCancel();
        return Ends;
      }
      p := Respond(x.offered, x.w);
    }

    method Respond(offered: ReadOutcome, w: Writes) returns (p: Progress)
      requires Valid() && pc == HRecv
      modifies this
      ensures Valid() && mark == old(mark) && doneClosed == old(doneClosed) && Stands(p)
      ensures Outcome(Now(), p) == ReadTurn(old(Now()), tcp6, doneClosed, offered, w)
      ensures old(connOpen) && offered == Undecodable ==>
        p == Continues && Now() == old(Now()).(out := old(out) + Written(true, MInvalidRequest, w))
      ensures old(connOpen) && offered == OtherError ==>
        p == Ends && Now() == old(Now()).(out := old(out) + Written(true, MInternalError, w))
      ensures !old(connOpen) ==> p == Ends && Now() == old(Now())
    {
      hide Valid, Written, MessageTurn, TimeoutTurn;
      var r := ReadMessage(offered);
      match r {
        case Data(m) => p := HandleMessage(m, w);
        case Undecodable =>
          SendInvalidRequest(w);
          p := Continues;
        case OtherError =>
          var _ := WriteMessage(MInternalError, w);
          p := Ends;
        case _ => p := GiveUp();
      }
    }

    method GiveUp() returns (p: Progress)
      requires Valid() && pc == HTimeoutRead
      modifies this
      ensures Valid() && mark == old(mark) && doneClosed == old(doneClosed) && Stands(p)
      ensures Outcome(Now(), p) == TimeoutTurn(old(Now()))
    {
      hide Valid;
      HandleTimeout();
      var over := Finished();
      p := if over then Ends else Continues;
    }

    /** The loop, over everything it meets until it ends, blocks, or has nothing more to read. */
    method HandleMessages(inputs: seq<Input>) returns (p: Progress)
      requires Valid() && pc == HTop(0)
      modifies this
      ensures Valid() && Stands(p)
      ensures Outcome(Now(), p) == Turns(old(Now()), tcp6, doneClosed, inputs)
      ensures Rank(state) >= Rank(old(state)) && (IsTerminal(old(state)) ==> state == old(state))
      ensures old(at).g.accepted.Some? ==> params == old(params)
      ensures ResultWords(out) <= 1
    {
      p := Continues;
      Mark();
      for i := 0 to |inputs|
        invariant Valid() && Stands(p) && mark == old(at) && doneClosed == old(doneClosed)
        invariant Turns(old(Now()), tcp6, doneClosed, inputs)
          == if p == Continues then Turns(Now(), tcp6, doneClosed, inputs[i..]) else Outcome(Now(), p)
      {
        if p != Continues { break; }
        p := Iterate(inputs[i]);
        assert inputs[i..][1..] == inputs[i + 1..];
      }
      Safety();
    }

    ghost method Mark()
      requires Valid()
      modifies this`mark
      ensures Valid() && mark == at
    {
      LeadsTrans(Initial(tcp6), mark, at);
      mark := at;
    }

    // ----- the spawned threads -----

    ghost method TakeWorker(c: Choice)
      requires Leads(mark, at) && !WLocks(at.w) && WPlain(at, c).Some?
      modifies this`at, this`worker
      ensures Leads(mark, at) && at == WPlain(old(at), c).value && worker == at.w
    {
      LeadsOn(mark, at, Worker(c));
      at := WPlain(at, c).value;
      worker := at.w;
    }

    ghost method TakeWorkerSection(c: Choice)
      requires Leads(mark, at) && WLocks(at.w) && at.holder == Free
      modifies this`at, this`worker
      ensures Leads(mark, at) && at == WSection(old(at), c) && worker == at.w
    {
      var s := at.(holder := ByWorker);
      LeadsOn(mark, at, Worker(c));
      LeadsOn(mark, s, Worker(c));
      at := WSection(s, c);
      worker := at.w;
    }

    /** The worker's writeMessage. */
    method WorkerWrite(m: Msg, w: Writes)
      requires Valid() && worker.WWrite? && !worker.body && worker.m == m
      modifies this`out, this`at, this`worker
      ensures Valid() && worker == (if old(worker).closeDone then WCloseDone else WDone)
      ensures out == old(out) + Written(connOpen, m, w)
    {
      hide Valid;
      var done := WorkerHalf(LenWord(m), w.length);
      if done { done := WorkerHalf(Body(m), w.body); }
    }

    method WorkerHalf(c: Chunk, ok: bool) returns (done: bool)
      requires Valid() && worker.WWrite? && c == Half(worker.m, worker.body)
      modifies this`out, this`at, this`worker
      ensures Valid() && done == (connOpen && ok) && out == (if done then old(out) + [c] else old(out))
      ensures worker == if done && !old(worker).body then old(worker).(body := true)
                        else if old(worker).closeDone then WCloseDone else WDone
    {
      done := connOpen && ok;
      TakeWorker(if ok then Yes else No);
      if done { out := out + [c]; }
    }

    /** NewSender. */
    method Create(ok: bool)
      requires Valid() && worker == WNewSender
      modifies this`at, this`worker
      ensures Valid() && worker == if ok then WSend(params.packetCount, 0) else WWrite(MInternalError, false, false)
    {
      TakeWorker(if ok then Yes else No);
    }

    /** Send; it fails at the packet failAt, if that is one of its packets. */
    method Send(failAt: int) returns (ok: bool)
      requires Valid() && worker == WSend(params.packetCount, 0)
      modifies this`at, this`worker
      ensures Valid() && ok == !(0 <= failAt < params.packetCount)
      ensures worker == if ok then WCount(params.packetCount) else WWrite(MInternalError, false, false)
    {
      var i := 0;
      while i < params.packetCount
        invariant Valid() && worker == WSend(params.packetCount, i)
        invariant 0 <= failAt < params.packetCount ==> i <= failAt
        decreases params.packetCount - i
      {
        SendOne(i != failAt);
        if i == failAt { return false; }
        i := i + 1;
      }
      SendOne(true);
      return true;
    }

    /** One round of Send's loop, or its end. */
    method SendOne(ok: bool)
      requires Valid() && worker.WSend?
      modifies this`at, this`worker
      ensures Valid()
      ensures var (n, i) := (old(worker).count, old(worker).i);
        worker == if !ok then WWrite(MInternalError, false, false) else if i < n then WSend(n, i + 1) else WCount(n)
    {
      TakeWorker(if ok then Yes else Fail);
    }

    method FinishSending(w: Writes)
      requires Valid() && worker == WCount(params.packetCount)
      modifies this`sentCount, this`state, this`out, this`at, this`worker
      ensures Valid() && worker == WDone && sentCount == params.packetCount
      ensures state == if old(state) == Running then Collecting else old(state)
      ensures out == old(out) + Written(connOpen, if old(state) == Running then MSendComplete else MInternalError, w)
    {
      hide Valid;
      StoreSent();
      var ok := WorkerSetCollecting();
      WorkerWrite(if ok then MSendComplete else MInternalError, w);
    }

    method StoreSent()
      requires Valid() && worker == WCount(params.packetCount)
      modifies this`sentCount, this`at, this`worker
      ensures Valid() && worker == WSetCollecting && sentCount == params.packetCount
    {
      TakeWorker(Yes);
      sentCount := params.packetCount;
    }

    method WorkerSetCollecting() returns (ok: bool)
      requires Valid() && worker == WSetCollecting
      modifies this`state, this`at, this`worker
      ensures Valid() && ok == (old(state) == Running)
      ensures worker == WWrite(if ok then MSendComplete else MInternalError, false, false)
      ensures state == if ok then Collecting else old(state)
    {
      ok := CanTransition(state, Collecting);
      TakeWorkerSection(Yes);
      if ok { state := Collecting; }
    }

    /** The count is stored and the state moved only when all packets were sent; what is written says so. */
    method RunDownlinkSender(created: bool, failAt: int, w: Writes)
      requires Valid() && worker == WNewSender
      modifies this`sentCount, this`state, this`out, this`at, this`worker
      ensures Valid() && worker == WDone
      ensures var ok := created && !(0 <= failAt < params.packetCount);
        && sentCount == (if ok then params.packetCount else old(sentCount))
        && state == (if ok && old(state) == Running then Collecting else old(state))
        && out == old(out) + Written(connOpen, if ok && old(state) == Running then MSendComplete else MInternalError, w)
    {
      hide Valid;
      var ok := created;
      Create(created);
      if created { ok := Send(failAt); }
      if ok { FinishSending(w); } else { WorkerWrite(MInternalError, w); }
    }

    /** runUplinkReceiver up to its receive loop, or to its end when the bind fails. */
    method StartReceiver(bound: bool, w: Writes)
      requires Valid() && worker == WInstall
      modifies this`quitCh, this`receiverDone, this`receiver, this`sockOpen, this`doneClosed,
               this`out, this`at, this`worker
      ensures Valid() && quitCh && receiverDone && sockOpen == bound && receiver == (old(receiver) || bound)
      ensures bound ==> worker == WSelect(0) && doneClosed == old(doneClosed) && out == old(out)
      ensures !bound ==> worker == WDone && doneClosed && out == old(out) + Written(connOpen, MInternalError, w)
    {
      hide Valid;
      Install(bound);
      if !bound {
        WorkerWrite(MInternalError, w);
        CloseDone();
      }
    }

    method Install(bound: bool)
      requires Valid() && worker == WInstall
      modifies this`quitCh, this`receiverDone, this`receiver, this`sockOpen, this`at, this`worker
      ensures Valid() && quitCh && receiverDone && sockOpen == bound && receiver == (old(receiver) || bound)
      ensures worker == if bound then WSelect(0) else WWrite(MInternalError, false, true)
    {
      hide WSection, Leads, HStep;
      InstallSection(at, bound);
      TakeWorkerSection(if bound then Yes else No);
      MakeChannels(bound);
    }

    /** Both channels are made, and the socket if it can be bound. */
    method MakeChannels(bound: bool)
      modifies this`quitCh, this`receiverDone, this`receiver, this`sockOpen
      ensures View() == old(View()).(quitCh := true, receiverDone := true, receiver := old(receiver) || bound)
      ensures sockOpen == bound
    {
      quitCh, receiverDone, sockOpen := true, true, bound;
      if bound { receiver := true; }
    }

    /** Receive's loop over what it meets.  It ends when it is told to quit, when its socket has been
        closed, or at a failing read; otherwise it is still polling when it has met everything. */
    method Receive(polls: seq<Poll>) returns (ended: bool)
      requires Valid() && worker.WSelect?
      modifies this`at, this`worker
      ensures Valid() && ended == (quitClosed || !sockOpen || Failure in polls)
      ensures var n := old(worker).n + if quitClosed || !sockOpen then 0 else PacketsIn(polls);
        worker == if ended then WCloseSock(n) else WSelect(n)
    {
      ended := false;
      ghost var n := worker.n;
      var i := 0;
      while quitClosed || !sockOpen || i < |polls|
        invariant Valid() && i <= |polls| && worker.WSelect? && Failure !in polls[..i]
        invariant quitClosed || !sockOpen ==> i == 0 && worker.n == n
        invariant !quitClosed && sockOpen ==> worker.n + PacketsIn(polls[i..]) == n + PacketsIn(polls)
        decreases |polls| - i
      {
        var poll := if i < |polls| then polls[i] else Idle';
        ended := ReceiveOne(poll);
        if ended { return; }
        assert polls[i..][1..] == polls[i + 1..] && polls[..i + 1] == polls[..i] + [polls[i]];
        i := i + 1;
      }
      assert polls[..|polls|] == polls;
    }

    /** One round of Receive's loop: select on the quit channel, then a read. */
    method ReceiveOne(poll: Poll) returns (ended: bool)
      requires Valid() && worker.WSelect?
      modifies this`at, this`worker
      ensures Valid() && ended == (quitClosed || !sockOpen || poll == Failure)
      ensures worker == if ended then WCloseSock(old(worker).n)
                        else WSelect(old(worker).n + if poll == Packet then 1 else 0)
    {
      ended := SelectQuit();
      if ended { return; }
      TakeWorker(match poll case Packet => Yes case Idle' => No case Failure => Fail);
      ended := !sockOpen || poll == Failure;
    }

    method SelectQuit() returns (quit: bool)
      requires Valid() && worker.WSelect?
      modifies this`at, this`worker
      ensures Valid() && quit == quitClosed
      ensures worker == if quit then WCloseSock(old(worker).n) else WRead(old(worker).n)
    {
      TakeWorker(Yes);
      quit := quitClosed;
    }

    /** The rest of runUplinkReceiver: the count is published, and receiverDone closed. */
    method FinishReceiver(n: nat)
      requires Valid() && worker == WCloseSock(n)
      modifies this`receivedCount, this`receiver, this`sockOpen, this`doneClosed, this`at, this`worker
      ensures Valid() && worker == WDone && receivedCount == n && !receiver && !sockOpen && doneClosed
    {
      hide Valid;
      CloseSocket();
      Publish(n);
      CloseDone();
    }

    method CloseSocket()
      requires Valid() && worker.WCloseSock?
      modifies this`sockOpen, this`at, this`worker
      ensures Valid() && worker == WPublish(old(worker).n) && !sockOpen
    {
      TakeWorker(Yes);
      sockOpen := false;
    }

    method Publish(n: nat)
      requires Valid() && worker == WPublish(n)
      modifies this`receivedCount, this`receiver, this`at, this`worker
      ensures Valid() && worker == WCloseDone && receivedCount == n && !receiver
    {
      hide WSection, Leads;
      PublishSection(at, n);
      TakeWorkerSection(Yes);
      receivedCount, receiver := n, false;
    }

    method CloseDone()
      requires Valid() && worker == WCloseDone
      modifies this`doneClosed, this`at, this`worker
      ensures Valid() && worker == WDone && doneClosed
    {
      TakeWorker(Yes);
      doneClosed := true;
    }

    // ----- whole tests -----

    /** The next message reaches its handler. */
    method Await(m: Msg)
      requires Valid() && pc == HTop(0) && IsActive(state) && connOpen
      modifies this`at, this`pc
      ensures Valid() && pc == Dispatch(m)
    {
      hide Valid;
      var _ := Finished();
      Select(false);
      var _ := ReadMessage(Data(m));
    }

    method Prepare(p: Params)
      requires Valid() && Fresh() && Fits(p, tcp6)
      modifies this`conn, this`state, this`params, this`out, this`at, this`pc, this`worker
      ensures Valid() && pc == HTop(0) && state == Running && params == p && out == FrameOf(MReady)
      ensures worker == if p.direction == Downlink then WNewSender else WInstall
    {
      hide Valid;
      Begin();
      Await(MPrepare(p));
      var _ := HandlePrepare(p, GOOD);
      Await(MStart);
      HandleStart(GOOD);
    }

    method Fetch()
      requires Valid() && pc == HTop(0) && state == Collecting && connOpen
      modifies this`state, this`out, this`connOpen, this`at, this`pc
      ensures Valid() && pc == HDone && state == Completed && out == old(out) + FrameOf(ResultOf(View()))
    {
      hide Valid, ResultOf;
      Await(MFetchResult);
      var _ := HandleFetchResult(GOOD);
      var _ := Finished();
    }

    /** A whole uplink test whose receiver is ready in time: send_complete stops the receiver, the
        handler waits for it, and the Result carries the number of packets that were accepted. */
    method UplinkTest(p: Params, polls: seq<Poll>)
      requires Valid() && Fresh() && p.direction == Uplink && (p.family == IPv6 ==> tcp6) && Failure !in polls
      modifies this
      ensures Valid() && pc == HDone && worker == WDone && state == Completed
      ensures var m := MResult(p.packetCount, PacketsIn(polls));
        out == [LenWord(MReady), Body(MReady), LenWord(m), Body(m)]
    {
      hide Valid;
      Prepare(p);
      Measure(polls);
      Fetch();
    }

    method Measure(polls: seq<Poll>)
      requires Valid() && pc == HTop(0) && worker == WInstall && state == Running && connOpen
      requires params.direction == Uplink && !quitClosed && !doneClosed && Failure !in polls
      modifies this`state, this`receivedCount, this`quitCh, this`receiverDone, this`receiver,
               this`sockOpen, this`quitClosed, this`doneClosed, this`out, this`at, this`pc, this`worker
      ensures Valid() && pc == HTop(0) && worker == WDone && state == Collecting
      ensures receivedCount == PacketsIn(polls) && out == old(out)
    {
      hide Valid;
      StartReceiver(true, GOOD);
      var _ := Receive(polls);
      Await(MSendComplete);
      Settle(PacketsIn(polls));
    }

    /** send_complete stops the receiver, which has n packets, and is resumed when it has finished. */
    method Settle(n: nat)
      requires Valid() && pc == HScCheck && worker == WSelect(n) && state == Running && params.direction == Uplink
      requires quitCh && receiverDone && !doneClosed
      modifies this`state, this`receivedCount, this`quitCh, this`receiver,
               this`sockOpen, this`quitClosed, this`doneClosed, this`out, this`at, this`pc, this`worker
      ensures Valid() && pc == HTop(0) && worker == WDone && state == Collecting
      ensures receivedCount == n && out == old(out)
    {
      hide Valid;
      var _ := HandleSendComplete(GOOD);
      var _ := Receive([]);
      FinishReceiver(n);
      ResumeSendComplete();
    }

    /** A whole downlink test: send_complete follows the last packet, and the Result the fetch. */
    method DownlinkTest(p: Params)
      requires Valid() && Fresh() && p.direction == Downlink && (p.family == IPv6 ==> tcp6)
      modifies this
      ensures Valid() && pc == HDone && worker == WDone && state == Completed
      ensures var m := MResult(p.packetCount, 0);
        out == [LenWord(MReady), Body(MReady), LenWord(MSendComplete), Body(MSendComplete), LenWord(m), Body(m)]
    {
      hide Valid;
      Prepare(p);
      RunDownlinkSender(true, -1, GOOD);
      Fetch();
    }
  }
}
