/** Concrete schedules: what the theorems about sessions leave open really happens. */
module SessionRuns {
  import opened Protocol
  import opened Session
  import opened SessionInvariant
  import opened SessionTheorems

  // ----- runs while the context is not cancelled -----

  predicate Undisturbed(a: Action) { a != Handler(Fail) && !a.ServerClosesConn? }

  ghost predicate ClosedUndisturbed(P: Sess -> bool) {
    forall s, a :: P(s) && Undisturbed(a) && Step(s, a).Some? ==> P(Step(s, a).value)
  }

  /** s' belongs to every set that contains s and is closed under undisturbed steps. */
  ghost predicate Reaches(s: Sess, s': Sess) {
    forall P: Sess -> bool :: ClosedUndisturbed(P) && P(s) ==> P(s')
  }

  lemma ReachesSelf(s: Sess)
    ensures Reaches(s, s)
  {
  }

  lemma ReachesOn(s: Sess, s': Sess, a: Action)
    requires Reaches(s, s') && Undisturbed(a) && Step(s', a).Some?
    ensures Reaches(s, Step(s', a).value)
  {
  }

  lemma ReachesLeads(s: Sess, s': Sess)
    requires Reaches(s, s')
    ensures Leads(s, s')
  {
    forall P: Sess -> bool | Closed(P) && P(s) ensures P(s') { assert ClosedUndisturbed(P); }
  }

  lemma ReachSection(b: Sess, s: Sess)
    requires Reaches(b, s) && HLocks(s.h) && s.holder == Free
    ensures Reaches(b, HSection(s))
  {
    ReachesOn(b, s, Handler(Yes));
    ReachesOn(b, s.(holder := ByHandler), Handler(Yes));
  }

  lemma ReachRead(b: Sess, s: Sess)
    requires Reaches(b, s) && HReadsState(s.h) && s.holder == Free
    ensures Reaches(b, s.(h := HStateRead(s)))
  {
    ReachesOn(b, s, Handler(Yes));
  }

  lemma ReachRecv(b: Sess, s: Sess)
    requires Reaches(b, s) && s.h == HTop(0) && IsActive(s.f.state) && s.holder == Free
    ensures Reaches(b, s.(h := HRecv))
  {
    hide Reaches;
    ReachRead(b, s);
    ReachRead(b, s.(h := HTop(1)));
    ReachRead(b, s.(h := HTop(2)));
    ReachesOn(b, s.(h := HCtx), Handler(Yes));
    assert HPlain(s.(h := HCtx), Yes).value == s.(h := HRecv);
  }

  /** From the top of the loop the next message reaches its handler. */
  lemma ReachMessage(b: Sess, s: Sess, m: Msg)
    requires Reaches(b, s) && s.h == HTop(0) && IsActive(s.f.state) && s.holder == Free && s.connOpen
    ensures Reaches(b, s.(h := Dispatch(m)))
  {
    ReachRecv(b, s);
    ReachesOn(b, s.(h := HRecv), Handler(Got(Data(m))));
    assert HPlain(s.(h := HRecv), Got(Data(m))).value == s.(h := Dispatch(m));
  }

  /** Both halves of a frame are written. */
  lemma ReachWrite(b: Sess, s: Sess)
    requires Reaches(b, s) && s.h.HWrite? && !s.h.body && s.connOpen
    ensures Reaches(b, s.(h := AfterWrite(s.h.after, true), out := s.out + [LenWord(s.h.m)] + [Body(s.h.m)]))
  {
    var s1 := s.(h := HWrite(s.h.m, true, s.h.after), out := s.out + [LenWord(s.h.m)]);
    ReachesOn(b, s, Handler(Yes));
    assert HPlain(s, Yes).value == s1;
    ReachesOn(b, s1, Handler(Yes));
    assert HPlain(s1, Yes).value == s1.(h := AfterWrite(s.h.after, true), out := s1.out + [Body(s.h.m)]);
  }

  /** Prepare is accepted. */
  lemma ReachReady(b: Sess, tcp6: bool, p: Params) returns (s: Sess)
    requires b == Initial(tcp6) && p.family == IPv4
    ensures Reaches(b, s) && s.h == HTop(0) && s.w == WIdle && s.holder == Free && s.connOpen
    ensures s.f == Fields(Ready, p, 0, 0, true, false, false, false) && s.quitCloses == s.doneCloses == 0
    ensures s.g.results == [] && s.g.finalCount == None
  {
    hide Reaches;
    s := ReachPreparing(b, tcp6);
    ReachMessage(b, s, MPrepare(p)); s := s.(h := HPrepCheck(p));
    ReachRead(b, s); s := s.(h := HPrepStore(p));
    ReachesOn(b, s, Handler(Yes)); s := HPlain(s, Yes).value;
    ReachSection(b, s); s := HSection(s);
    ReachWrite(b, s); s := s.(h := HTop(0), out := s.out + [LenWord(MReady)] + [Body(MReady)]);
  }

  lemma ReachPreparing(b: Sess, tcp6: bool) returns (s: Sess)
    requires b == Initial(tcp6)
    ensures Reaches(b, s) && s.h == HTop(0) && s.w == WIdle && s.holder == Free && s.connOpen
    ensures s.f == Fields(Preparing, s.f.params, 0, 0, true, false, false, false) && s.quitCloses == s.doneCloses == 0
    ensures s.g.results == [] && s.g.finalCount == None
  {
    s := b;
    ReachSection(b, s); s := HSection(s);
    ReachSection(b, s); s := HSection(s);
  }

  /** The test runs, and its goroutine has not taken a step yet. */
  lemma ReachRunning(b: Sess, tcp6: bool, p: Params) returns (s: Sess)
    requires b == Initial(tcp6) && p.family == IPv4
    ensures Reaches(b, s) && s.h == HTop(0) && s.w == (if p.direction == Downlink then WNewSender else WInstall)
    ensures s.f == Fields(Running, p, 0, 0, true, false, false, false) && s.quitCloses == s.doneCloses == 0
    ensures s.holder == Free && s.connOpen && s.g.results == [] && s.g.finalCount == None
  {
    hide Reaches;
    s := ReachReady(b, tcp6, p);
    ReachMessage(b, s, MStart); s := s.(h := HStartCheck);
    ReachRead(b, s); s := s.(h := HStartSet);
    ReachSection(b, s); s := HSection(s);
    ReachesOn(b, s, Handler(Yes)); s := HPlain(s, Yes).value;
  }

  // ----- a send_complete that overtakes the receiver -----

  /** An uplink send_complete finds no channel to close and none to wait for. */
  lemma ReachOvertaken(b: Sess, s: Sess) returns (r: Sess)
    requires Reaches(b, s) && s.h == HScClose && s.holder == Free && !s.f.receiverDone && !s.f.quitCh
    ensures Reaches(b, r) && r.h == HScSet && r.holder == Free && SameButPosition(s, r) && r.f == s.f
  {
    hide Reaches;
    r := s;
    ReachSection(b, r); r := HSection(r);
    ReachesOn(b, r, Handler(Yes)); r := HPlain(r, Yes).value;
  }

  /** What the handler's collecting of a result leaves alone. */
  predicate SameButPosition(s: Sess, r: Sess) {
    && r.connOpen == s.connOpen && r.sockOpen == s.sockOpen && r.w == s.w && r.quitCloses == s.quitCloses
    && r.g.results == s.g.results && r.g.finalCount == s.g.finalCount
  }

  /** A test whose handler waits for nobody is collected at once. */
  lemma ReachCollecting(b: Sess, s: Sess) returns (r: Sess)
    requires Reaches(b, s) && s.h == HScCheck && s.holder == Free && s.f.state == Running
    requires s.f.params.direction == Uplink ==> !s.f.receiverDone && !s.f.quitCh
    ensures Reaches(b, r) && r.h == HTop(0) && r.holder == Free && SameButPosition(s, r)
    ensures r.f == s.f.(state := Collecting)
  {
    hide Reaches;
    r := s;
    ReachRead(b, r); r := r.(h := HStateRead(r));
    if s.f.params.direction == Uplink { r := ReachOvertaken(b, r); }
    ReachSection(b, r); r := HSection(r);
  }

  /** The result is fetched. */
  lemma ReachResult(b: Sess, s: Sess) returns (r: Sess)
    requires Reaches(b, s) && s.h == HFrCheck && s.holder == Free && s.f.state == Collecting
    ensures Reaches(b, r) && r.h == HWrite(ResultOf(r.f), false, CloseAfter) && r.holder == Free
    ensures r.f == s.f.(state := Completed) && r.connOpen == s.connOpen && r.sockOpen == s.sockOpen
    ensures r.w == s.w && r.quitCloses == s.quitCloses
    ensures r.g.results == s.g.results + [ResultOf(r.f)] && r.g.finalCount == s.g.finalCount
  {
    hide Reaches;
    r := s;
    ReachRead(b, r); r := r.(h := HFrSet);
    ReachSection(b, r); r := HSection(r);
    ReachesOn(b, r, Handler(Yes)); r := HPlain(r, Yes).value;
  }

  /** The late receiver binds its socket. */
  lemma ReachInstalled(b: Sess, s: Sess) returns (r: Sess)
    requires Reaches(b, s) && s.w == WInstall && s.holder != ByHandler && s.quitCloses == 0
    ensures Reaches(b, r) && r.w == WSelect(0) && r.sockOpen && r.quitCloses == 0 && r.holder == Free
    ensures r.h == s.h && r.f == s.f.(quitCh := true, receiverDone := true, receiver := true)
    ensures r.g == s.g.(bound := true) && r.connOpen == s.connOpen
  {
    hide Reaches;
    r := s;
    if s.holder == Free { ReachesOn(b, r, Worker(Yes)); r := r.(holder := ByWorker); }
    ReachesOn(b, r, Worker(Yes)); r := WSection(r, Yes);
  }

  /** It accepts one more packet. */
  lemma ReachPacket(b: Sess, s: Sess) returns (r: Sess)
    requires Reaches(b, s) && Receiving(s.w) && s.sockOpen && s.quitCloses == 0
    ensures Reaches(b, r) && r == s.(w := WSelect(s.w.n + 1))
  {
    hide Reaches;
    r := s;
    if s.w.WSelect? { ReachesOn(b, r, Worker(Yes)); r := WPlain(r, Yes).value; }
    ReachesOn(b, r, Worker(Yes)); r := WPlain(r, Yes).value;
  }

  /** Its next read fails, which ends Receive. */
  lemma ReachReadFails(b: Sess, s: Sess) returns (r: Sess)
    requires Reaches(b, s) && s.w.WSelect? && s.quitCloses == 0
    ensures Reaches(b, r) && r == s.(w := WCloseSock(s.w.n), g := s.g.(finalCount := Some(s.w.n)))
  {
    hide Reaches;
    r := s;
    ReachesOn(b, r, Worker(Yes)); r := WPlain(r, Yes).value;
    ReachesOn(b, r, Worker(Fail)); r := WPlain(r, Fail).value;
  }

  // ----- what such runs show -----

  lemma CollectedTooEarly(p: Params) returns (s: Sess)
    requires p.direction == Uplink && p.family == IPv4
    ensures Reaches(Initial(false), s) && s.h == HTop(0) && s.holder == Free && s.connOpen && s.w == WInstall
    ensures s.f == Fields(Collecting, p, 0, 0, true, false, false, false) && s.quitCloses == 0
    ensures s.g.results == [] && s.g.finalCount == None
  {
    hide Reaches;
    var b := Initial(false);
    s := ReachRunning(b, false, p);
    ReachMessage(b, s, MSendComplete);
    s := ReachCollecting(b, s.(h := HScCheck));
  }

  /** The exception of EveryChangeIsAnEdge is real. */
  lemma CollectingCanBeCancelled(p: Params) returns (s: Sess, a: Action)
    requires p.direction == Uplink && p.family == IPv4
    ensures Reachable(s) && Step(s, a).Some?
    ensures s.f.state == Collecting && Step(s, a).value.f.state == Cancelled
    ensures !CanTransition(Collecting, Cancelled)
  {
    hide Reaches, Reachable;
    var b := Initial(false);
    s := CollectedTooEarly(p);
    a := Handler(Yes);
    ReachMessage(b, s, MCancel); s := s.(h := HCancelRead(false));
    ReachRead(b, s); s := s.(h := HCancelWrite(false));
    ReachesOn(b, s, Handler(Yes)); s := s.(holder := ByHandler);
    ReachesReachable(false, s);
  }

  /** A lock section about to be run. */
  lemma ReachLocked(s: Sess) returns (r: Sess)
    requires Reaches(Initial(false), s) && HLocks(s.h) && s.holder == Free
    ensures Reachable(r) && r.f == s.f && Step(r, Handler(Yes)).Some?
    ensures Step(r, Handler(Yes)).value.f == HSection(s).f
  {
    ReachesOn(Initial(false), s, Handler(Yes));
    r := s.(holder := ByHandler);
    ReachesReachable(false, r);
  }

  /** Every edge of the transition table, apart from the reset to Idle, is taken in some run: the table
      allows no change that sessions do not make. */
  lemma EveryEdgeIsTaken(from: SessionState, to: SessionState) returns (s: Sess, a: Action)
    requires CanTransition(from, to) && to != Idle
    ensures Reachable(s) && Step(s, a).Some? && s.f.state == from && Step(s, a).value.f.state == to
  {
    hide Reaches, Reachable, Step, HPlain;
    a := Handler(Yes);
    if to == Cancelled { s := BeforeCancel(from); }
    else if to == Failed { s := BeforeFailure(from); }
    else { s := BeforeAdvance(from); }
    s := ReachLocked(s);
  }

  /** A session that has reached a state in which the loop runs. */
  lemma ReachActive(st: SessionState) returns (s: Sess)
    requires IsActive(st)
    ensures Reaches(Initial(false), s) && s.h == HTop(0) && s.holder == Free && s.connOpen && s.f.state == st
    ensures s.f.params.direction == Uplink && !s.f.receiverDone && !s.f.quitCh
  {
    hide Reaches;
    var b, p := Initial(false), Params(Uplink, IPv4, 0, 0, 0, 0, 0);
    match st {
      case Preparing => s := ReachUnprepared(b);
      case Ready => s := ReachReady(b, false, p);
      case Running => s := ReachRunning(b, false, p);
      case Collecting => s := CollectedTooEarly(p);
    }
  }

  lemma ReachUnprepared(b: Sess) returns (s: Sess)
    requires b == Initial(false)
    ensures Reaches(b, s) && s.h == HTop(0) && s.holder == Free && s.connOpen && s.f.state == Preparing
    ensures s.f.params.direction == Uplink && !s.f.receiverDone && !s.f.quitCh
  {
    s := b;
    ReachSection(b, s); s := HSection(s);
    ReachSection(b, s); s := HSection(s);
  }

  lemma BeforeCancel(from: SessionState) returns (s: Sess)
    requires IsActive(from)
    ensures Reaches(Initial(false), s) && s.holder == Free && HLocks(s.h)
    ensures s.f.state == from && HSection(s).f.state == Cancelled
  {
    hide Reaches;
    var b := Initial(false);
    s := ReachActive(from);
    ReachMessage(b, s, MCancel); s := s.(h := HCancelRead(false));
    ReachRead(b, s); s := s.(h := HCancelWrite(false));
  }

  lemma BeforeFailure(from: SessionState) returns (s: Sess)
    requires from == Preparing || from == Collecting
    ensures Reaches(Initial(false), s) && s.holder == Free && HLocks(s.h)
    ensures s.f.state == from && HSection(s).f.state == Failed
  {
    hide Reaches;
    var b := Initial(false);
    s := ReachActive(from);
    ReachRecv(b, s); s := s.(h := HRecv);
    ReachesOn(b, s, Handler(Got(Eof))); s := HPlain(s, Got(Eof)).value;
    ReachRead(b, s); s := s.(h := HTimeoutWrite(from));
  }

  lemma BeforeAdvance(from: SessionState) returns (s: Sess)
    requires from == Idle || IsActive(from)
    ensures Reaches(Initial(false), s) && s.holder == Free && HLocks(s.h) && s.f.state == from
    ensures HSection(s).f.state ==
      match from case Idle => Preparing case Preparing => Ready case Ready => Running case Running => Collecting
        case _ => Completed
  {
    hide Reaches;
    var b, p := Initial(false), Params(Uplink, IPv4, 0, 0, 0, 0, 0);
    if from == Idle {
      ReachSection(b, b);
      return HSection(b);
    }
    s := ReachActive(from);
    if from == Preparing {
      ReachMessage(b, s, MPrepare(p)); s := s.(h := HPrepCheck(p));
      ReachRead(b, s); s := s.(h := HPrepStore(p));
      ReachesOn(b, s, Handler(Yes)); s := HPlain(s, Yes).value;
    } else {
      s := AdvanceFrom(b, s);
    }
  }

  lemma AdvanceFrom(b: Sess, active: Sess) returns (s: Sess)
    requires Reaches(b, active) && active.h == HTop(0) && active.holder == Free && active.connOpen
    requires active.f.state == Ready || active.f.state == Running || active.f.state == Collecting
    requires active.f.params.direction == Uplink && !active.f.receiverDone && !active.f.quitCh
    ensures Reaches(b, s) && s.holder == Free && HLocks(s.h) && s.f.state == active.f.state
    ensures HSection(s).f.state ==
      match s.f.state case Ready => Running case Running => Collecting case _ => Completed
  {
    hide Reaches, HPlain;
    s := active;
    if s.f.state == Ready {
      ReachMessage(b, s, MStart); s := s.(h := HStartCheck);
      ReachRead(b, s); s := s.(h := HStartSet);
    } else if s.f.state == Running {
      ReachMessage(b, s, MSendComplete); s := s.(h := HScCheck);
      ReachRead(b, s); s := s.(h := HScClose);
      s := ReachOvertaken(b, s);
    } else {
      ReachMessage(b, s, MFetchResult); s := s.(h := HFrCheck);
      ReachRead(b, s); s := s.(h := HFrSet);
    }
  }

  lemma ReachesReachable(tcp6: bool, s: Sess)
    requires Reaches(Initial(tcp6), s)
    ensures Reachable(s)
  {
    ReachesLeads(Initial(tcp6), s);
    LedReachable(tcp6, s);
  }

  /** The Result has been written and the handler returns. */
  lemma ReachClosed(b: Sess, s: Sess) returns (r: Sess)
    requires Reaches(b, s) && s.h.HWrite? && !s.h.body && s.h.after == CloseAfter && s.connOpen
    requires s.f.state == Completed && s.holder == Free
    ensures Reaches(b, r) && r.h == HDone
    ensures r == s.(h := HDone, connOpen := false, out := s.out + [LenWord(s.h.m)] + [Body(s.h.m)])
  {
    hide Reaches;
    ReachWrite(b, s);
    r := s.(h := HCloseConn(true), out := s.out + [LenWord(s.h.m)] + [Body(s.h.m)]);
    ReachesOn(b, r, Handler(Yes)); r := HPlain(r, Yes).value;
    ReachRead(b, r); r := r.(h := HTop(1));
    ReachRead(b, r); r := r.(h := HDone);
  }

  /** An uplink session can report Received 0 and end while its receiver polls on with packets
      already accepted; no schedule will ever close that receiver's quit channel. */
  lemma MissedReceiverIsNeverStopped(p: Params) returns (s: Sess)
    requires p.direction == Uplink && p.family == IPv4
    ensures Reachable(s) && s.h == HDone && s.f.state == Completed
    ensures s.g.results == [MResult(p.packetCount, 0)]
    ensures s.w == WSelect(1) && s.sockOpen && s.quitCloses == 0
    ensures forall acts :: Exec(s, acts).Some? ==> Exec(s, acts).value.quitCloses == 0
  {
    hide Reaches, Reachable, Exec;
    var b := Initial(false);
    s := CollectedTooEarly(p);
    ReachMessage(b, s, MFetchResult);
    s := ReachResult(b, s.(h := HFrCheck));
    s := ReachClosed(b, s);
    s := ReachInstalled(b, s);
    s := ReachPacket(b, s);
    ReachesReachable(false, s);
    forall acts | Exec(s, acts).Some? ensures Exec(s, acts).value.quitCloses == 0 { QuitStaysOpen(s, acts); }
  }

  lemma {:induction false} QuitStaysOpen(s: Sess, acts: seq<Action>)
    requires s.h == HDone && s.quitCloses == 0 && Exec(s, acts).Some?
    ensures Exec(s, acts).value.quitCloses == 0
    decreases |acts|
  {
    if acts != [] {
      var s' := Step(s, acts[0]).value;
      assert s'.h == HDone && s'.quitCloses == 0;
      QuitStaysOpen(s', acts[1..]);
    }
  }
}
