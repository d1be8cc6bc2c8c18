/** How a session ends: in which states its handler returns, and what its goroutine does after that. */
module SessionEnds {
  import opened Protocol
  import opened Session
  import opened SessionInvariant
  import opened SessionTheorems
  import opened SessionRuns

  // ----- the state at the end -----

  /** A read that fails, a write that fails, or a setState that is refused. */
  predicate Fault(s: Sess, a: Action) {
    && a.Handler?
    && match s.h
       case HRecv => a.c.Got? && !a.c.r.Data? && !a.c.r.Undecodable?
       case HWrite(_, _, _) => !WriteOk(s, a.c)
       case HScSet => s.holder == ByHandler && !CanTransition(s.f.state, Collecting)
       case _ => false
  }

  predicate Faulty(s: Sess, acts: seq<Action>)
    decreases |acts|
  {
    acts != [] && Step(s, acts[0]).Some? && (Fault(s, acts[0]) || Faulty(Step(s, acts[0]).value, acts[1..]))
  }

  /** No fault so far. */
  ghost predicate Clean(s: Sess) {
    && !s.g.timedOut
    && !(s.h.HWrite? && s.h.m == MInternalError)
    && (s.h == HDone ==> IsTerminal(s.f.state))
  }

  lemma CleanSection(s: Sess)
    requires Inv(s) && Clean(s) && HLocks(s.h) && s.holder == ByHandler && !Fault(s, Handler(Yes))
    ensures Clean(HSection(s))
  {
    hide Channels, Results;
  }

  lemma CleanPlain(s: Sess, c: Choice)
    requires Inv(s) && Clean(s) && !HLocks(s.h) && !HReadsState(s.h) && HPlain(s, c).Some? && !Fault(s, Handler(c))
    ensures Clean(HPlain(s, c).value)
  {
    hide Channels, Results;
  }

  lemma CleanRead(s: Sess)
    requires Inv(s) && Clean(s) && HReadsState(s.h)
    ensures Clean(s.(h := HStateRead(s)))
  {
    hide Channels, Results;
  }

  lemma CleanWorker(s: Sess, c: Choice)
    requires Clean(s) && WStep(s, c).Some?
    ensures Clean(WStep(s, c).value)
  {
    hide WStep;
    WorkerFrame(s, c);
  }

  /** The worker moves alone, and changes the state only by its setState. */
  lemma WorkerFrame(s: Sess, c: Choice)
    requires WStep(s, c).Some?
    ensures var s' := WStep(s, c).value;
      && s'.h == s.h && s'.g.timedOut == s.g.timedOut
      && (s'.f.state == s.f.state || (s.f.state == Running && s'.f.state == Collecting))
  {
    hide WSection, WPlain;
    StoppingWorker(s, c);
    if WLocks(s.w) { WorkerSectionFrame(s, c); } else { WorkerPlainFrame(s, c); }
  }

  lemma CleanStep(s: Sess, a: Action)
    requires Inv(s) && Clean(s) && Step(s, a).Some? && !Fault(s, a)
    ensures Clean(Step(s, a).value)
  {
    hide Inv, HSection, HPlain, WStep;
    match a
    case Handler(c) =>
      if HReadsState(s.h) { CleanRead(s); }
      else if !HLocks(s.h) { CleanPlain(s, c); }
      else if s.holder == ByHandler { CleanSection(s); }
    case Worker(c) => CleanWorker(s, c);
    case ServerClosesConn =>
  }

  lemma {:induction false} CleanRun(s: Sess, acts: seq<Action>)
    requires Inv(s) && Clean(s) && Exec(s, acts).Some? && !Faulty(s, acts)
    ensures Clean(Exec(s, acts).value)
    decreases |acts|
  {
    hide Inv, Clean, Fault, Step;
    if acts != [] {
      CleanStep(s, acts[0]);
      StepInv(s, acts[0]);
      CleanRun(Step(s, acts[0]).value, acts[1..]);
    }
  }

  /** Run ends in a terminal state, unless a read or a write failed or a setState was refused. */
  lemma FaultlessEndIsTerminal(tcp6: bool, acts: seq<Action>)
    requires Exec(Initial(tcp6), acts).Some? && Exec(Initial(tcp6), acts).value.h == HDone
    ensures IsTerminal(Exec(Initial(tcp6), acts).value.f.state) || Faulty(Initial(tcp6), acts)
  {
    InitInv(tcp6);
    if !Faulty(Initial(tcp6), acts) { CleanRun(Initial(tcp6), acts); }
  }

  /** A read fails at the top of the loop, and the error cannot be reported. */
  lemma ReachEnd(b: Sess, s: Sess) returns (r: Sess)
    requires Reaches(b, s) && s.h == HTop(0) && IsActive(s.f.state) && s.holder == Free
    ensures Reaches(b, r) && r == s.(h := HDone)
  {
    hide Reaches, WStep;
    ReachRecv(b, s); r := s.(h := HRecv);
    ReachesOn(b, r, Handler(Got(OtherError))); r := HPlain(r, Got(OtherError)).value;
    ReachesOn(b, r, Handler(No)); r := HPlain(r, No).value;
  }

  /** With such a fault, every state in which the loop runs is one in which Run can end. */
  lemma EveryActiveStateCanBeTheLast(st: SessionState) returns (s: Sess)
    requires IsActive(st)
    ensures Reachable(s) && s.h == HDone && s.f.state == st
  {
    hide Reaches, Reachable;
    var b, p := Initial(false), Params(Uplink, IPv4, 0, 0, 0, 0, 0);
    match st {
      case Preparing => s := ReachPreparing(b, false);
      case Ready => s := ReachReady(b, false, p);
      case Running => s := ReachRunning(b, false, p);
      case Collecting => s := CollectedTooEarly(p);
    }
    s := ReachEnd(b, s);
    ReachesReachable(false, s);
  }

  // ----- the state after EOF or a timeout -----

  /** Where a session is once handleTimeout's locked read has met state met; cancelled: its context
      has been found cancelled since. */
  ghost predicate Stopped(s: Sess, met: SessionState, cancelled: bool) {
    && s.g.timedOut && s.h != HTimeoutRead && IsActive(met)
    && (s.h.HTimeoutWrite? ==> s.h.stale == met)
    && (s.h.HCancelRead? || s.h.HCancelWrite? || s.h == HCleanup(ToEnd) ==> cancelled)
    && (!s.h.HTimeoutWrite? && s.f.state != Cancelled ==>
          s.f.state == match met case Ready => Ready case Running => Collecting case _ => Failed)
    && (s.f.state == Cancelled ==> cancelled && (met == Ready || met == Running))
  }

  /** The schedule finds the context cancelled. */
  predicate Cancels(s: Sess, acts: seq<Action>)
    decreases |acts|
  {
    && acts != [] && Step(s, acts[0]).Some?
    && ((acts[0] == Handler(Fail) && s.h == HCtx) || Cancels(Step(s, acts[0]).value, acts[1..]))
  }

  predicate FindsCancelled(s: Sess, a: Action) { a == Handler(Fail) && s.h == HCtx }

  lemma StoppedSection(s: Sess, met: SessionState, cancelled: bool)
    requires Inv(s) && Stopped(s, met, cancelled) && HLocks(s.h) && s.holder == ByHandler
    ensures Stopped(HSection(s), met, cancelled)
  {
    hide Channels;
  }

  lemma StoppedPlain(s: Sess, c: Choice, met: SessionState, cancelled: bool)
    requires Inv(s) && Stopped(s, met, cancelled) && !HLocks(s.h) && !HReadsState(s.h) && HPlain(s, c).Some?
    ensures Stopped(HPlain(s, c).value, met, cancelled || FindsCancelled(s, Handler(c)))
  {
    hide Channels;
  }

  lemma StoppedRead(s: Sess, met: SessionState, cancelled: bool)
    requires Inv(s) && Stopped(s, met, cancelled) && HReadsState(s.h)
    ensures Stopped(s.(h := HStateRead(s)), met, cancelled)
  {
    hide Channels;
  }

  lemma StoppedWorker(s: Sess, c: Choice, met: SessionState, cancelled: bool)
    requires Stopped(s, met, cancelled) && WStep(s, c).Some?
    ensures Stopped(WStep(s, c).value, met, cancelled)
  {
    hide WStep;
    WorkerFrame(s, c);
  }

  lemma StoppedStep(s: Sess, a: Action, met: SessionState, cancelled: bool)
    requires Inv(s) && Stopped(s, met, cancelled) && Step(s, a).Some?
    ensures Stopped(Step(s, a).value, met, cancelled || FindsCancelled(s, a))
  {
    hide HSection, HPlain, WStep, HStateRead;
    match a
    case Handler(c) =>
      if HReadsState(s.h) { StoppedRead(s, met, cancelled); }
      else if !HLocks(s.h) { StoppedPlain(s, c, met, cancelled); }
      else if s.holder == ByHandler { StoppedSection(s, met, cancelled); }
    case Worker(c) => StoppedWorker(s, c, met, cancelled);
    case ServerClosesConn =>
  }

  lemma {:induction false} StoppedRun(s: Sess, acts: seq<Action>, met: SessionState, cancelled: bool)
    requires Inv(s) && Stopped(s, met, cancelled) && Exec(s, acts).Some?
    ensures Stopped(Exec(s, acts).value, met, cancelled || Cancels(s, acts))
    decreases |acts|
  {
    hide Inv, Stopped, Step;
    if acts != [] {
      StoppedStep(s, acts[0], met, cancelled);
      StepInv(s, acts[0]);
      StoppedRun(Step(s, acts[0]).value, acts[1..], met, cancelled || FindsCancelled(s, acts[0]));
    }
  }

  /** The locked read itself. */
  lemma LockedRead(s: Sess, a: Action)
    requires Inv(s) && s.h == HTimeoutRead && a.Handler? && Step(s, a).Some?
    ensures Stopped(Step(s, a).value, s.f.state, false) && IsActive(s.f.state)
  {
  }

  predicate BeforeTimeout(s: Sess) { !s.g.timedOut || s.h == HTimeoutRead }

  lemma BeforeStep(s: Sess, a: Action)
    requires BeforeTimeout(s) && Step(s, a).Some? && !(a.Handler? && s.h == HTimeoutRead)
    ensures BeforeTimeout(Step(s, a).value)
  {
    hide HSection, WStep;
    if a.Worker? { WorkerFrame(s, a.c); }
    if a.Handler? && HLocks(s.h) && s.holder == ByHandler { StaysUntimed(s); }
  }

  lemma StaysUntimed(s: Sess)
    requires HLocks(s.h)
    ensures HSection(s).g.timedOut == s.g.timedOut
  {
  }

  /** A run that has met EOF or a timeout contains the locked read of handleTimeout. */
  lemma {:induction false} ReadInRun(s: Sess, acts: seq<Action>) returns (k: nat)
    requires Inv(s) && BeforeTimeout(s) && Exec(s, acts).Some? && !BeforeTimeout(Exec(s, acts).value)
    ensures k < |acts| && acts[k].Handler? && Exec(s, acts[..k]).Some?
    ensures var r := Exec(s, acts[..k]).value; Inv(r) && r.h == HTimeoutRead && Exec(r, acts[k..]) == Exec(s, acts)
    decreases |acts|
  {
    hide Inv, Step;
    if acts[0].Handler? && s.h == HTimeoutRead {
      k := 0;
    } else {
      BeforeStep(s, acts[0]);
      StepInv(s, acts[0]);
      k := ReadInRun(Step(s, acts[0]).value, acts[1..]);
      assert acts[..k + 1][1..] == acts[1..][..k] && acts[1..][k..] == acts[k + 1..];
      k := k + 1;
    }
  }

  /** After EOF or a timeout the last state depends on the state that handleTimeout's locked read met:
      Preparing and Collecting end in Failed, Ready stays Ready and Running ends in Collecting, unless the
      context is found cancelled after that. */
  lemma EndAfterTimeout(tcp6: bool, acts: seq<Action>) returns (k: nat)
    requires Exec(Initial(tcp6), acts).Some?
    requires Exec(Initial(tcp6), acts).value.g.timedOut && Exec(Initial(tcp6), acts).value.h == HDone
    ensures k < |acts| && acts[k].Handler? && Exec(Initial(tcp6), acts[..k]).Some?
    ensures var s, last := Exec(Initial(tcp6), acts[..k]).value, Exec(Initial(tcp6), acts).value.f.state;
      && s.h == HTimeoutRead && IsActive(s.f.state)
      && (s.f.state == Preparing || s.f.state == Collecting ==> last == Failed)
      && (s.f.state == Ready ==> last == Ready || (last == Cancelled && Cancels(s, acts[k..])))
      && (s.f.state == Running ==> last == Collecting || (last == Cancelled && Cancels(s, acts[k..])))
  {
    InitInv(tcp6);
    k := ReadInRun(Initial(tcp6), acts);
    var s := Exec(Initial(tcp6), acts[..k]).value;
    LockedRead(s, acts[k]);
    StepInv(s, acts[k]);
    hide Inv, Step;
    assert acts[k..][1..] == acts[k + 1..];
    StoppedRun(Step(s, acts[k]).value, acts[k + 1..], s.f.state, false);
  }

  /** EOF in Ready leaves Ready, and EOF in Running leaves Collecting: no error is ever reported. */
  lemma EofCanLeave(st: SessionState) returns (s: Sess)
    requires st == Ready || st == Running
    ensures Reachable(s) && s.g.timedOut && s.h == HDone
    ensures s.f.state == if st == Ready then Ready else Collecting
  {
    hide Reaches, Reachable;
    var b, p := Initial(false), Params(Uplink, IPv4, 0, 0, 0, 0, 0);
    if st == Ready { s := ReachReady(b, false, p); } else { s := ReachRunning(b, false, p); }
    s := ReachTimeout(b, s);
    s := ReachEnd(b, s);
    ReachesReachable(false, s);
  }

  lemma ReachTimeout(b: Sess, s: Sess) returns (r: Sess)
    requires Reaches(b, s) && s.h == HTop(0) && (s.f.state == Ready || s.f.state == Running)
    requires s.holder == Free && s.connOpen
    ensures Reaches(b, r) && r.h == HTop(0) && r.holder == Free && r.g.timedOut
    ensures r.f.state == if s.f.state == Ready then Ready else Collecting
  {
    hide Reaches, WStep;
    ReachRecv(b, s); r := s.(h := HRecv);
    ReachesOn(b, r, Handler(Got(Eof))); r := HPlain(r, Got(Eof)).value;
    ReachRead(b, r); r := r.(h := HTimeoutWrite(r.f.state));
    ReachSection(b, r); r := HSection(r);
    ReachSection(b, r); r := HSection(r);
    ReachRead(b, r); r := r.(h := HAfterTimeout(1));
    ReachRead(b, r); r := r.(h := HAfterTimeout(2));
    ReachRead(b, r); r := r.(h := HTop(0));
  }

  // ----- the goroutine of a session that has ended -----

  predicate Live(w: WPc) { w != WIdle && w != WDone }

  /** A receiver that nothing will stop: it has not made its channels, or polls an open socket with
      its quit channel open. */
  predicate Endless(s: Sess) {
    s.w == WInstall || (Receiving(s.w) && s.sockOpen && s.quitCloses == 0)
  }

  function AtLeastZero(n: int): nat { if n < 0 then 0 else n }

  /** Steps left to any other goroutine. */
  function WorkLeft(s: Sess): nat {
    var wait := if s.holder == ByWorker then 0 else 1;
    match s.w
    case WIdle => 0
    case WNewSender => 8 + AtLeastZero(s.f.params.packetCount)
    case WSend(n, i) => 7 + AtLeastZero(n - i)
    case WCount(_) => 6
    case WSetCollecting => 4 + wait
    case WInstall => 0
    case WSelect(_) => if s.quitCloses > 0 then 5 else 6
    case WRead(_) => if s.quitCloses > 0 then 6 else 5
    case WCloseSock(_) => 4
    case WPublish(_) => 2 + wait
    case WWrite(_, body, _) => if body then 2 else 3
    case WCloseDone => 1
    case WDone => 0
  }

  /** It can always take a step. */
  lemma EndedWorkerMoves(s: Sess, c: Choice)
    requires Inv(s) && s.h == HDone && Live(s.w)
    ensures WStep(s, c).Some?
  {
  }

  lemma EndedSectionFalls(s: Sess, c: Choice)
    requires Inv(s) && s.w != WInstall && WLocks(s.w) && s.holder == ByWorker
    ensures !Endless(WSection(s, c)) && WorkLeft(WSection(s, c)) < WorkLeft(s)
  {
    hide HandlerAt, WorkerState, Channels, Results;
  }

  lemma EndedPlainFalls(s: Sess, c: Choice)
    requires Inv(s) && !Endless(s) && !WLocks(s.w) && WPlain(s, c).Some?
    ensures !Endless(WPlain(s, c).value) && WorkLeft(WPlain(s, c).value) < WorkLeft(s)
  {
    hide HandlerAt, WorkerState, Results;
  }

  lemma EndedWorkerFalls(s: Sess, c: Choice)
    requires Inv(s) && s.h == HDone && !Endless(s) && WStep(s, c).Some?
    ensures var s' := WStep(s, c).value;
      s'.h == HDone && !Endless(s') && WorkLeft(s') < WorkLeft(s)
  {
    hide Inv, WSection, WPlain;
    StoppingWorker(s, c);
    if !WLocks(s.w) { EndedPlainFalls(s, c); }
    else if s.holder == ByWorker { EndedSectionFalls(s, c); }
  }

  function WorkerSteps(acts: seq<Action>): nat {
    if acts == [] then 0 else (if acts[0].Worker? then 1 else 0) + WorkerSteps(acts[1..])
  }

  /** The handler has returned: only its connection can still change. */
  lemma EndedHandler(s: Sess, a: Action)
    requires s.h == HDone && Step(s, a).Some? && !a.Worker?
    ensures Step(s, a).value == s.(connOpen := false)
  {
  }

  lemma {:induction false} EndedWorkerRun(s: Sess, acts: seq<Action>)
    requires Inv(s) && s.h == HDone && !Endless(s) && Exec(s, acts).Some?
    ensures WorkerSteps(acts) + WorkLeft(Exec(s, acts).value) <= WorkLeft(s)
    decreases |acts|
  {
    hide Inv, WStep, HStep;
    if acts != [] {
      StepInv(s, acts[0]);
      if acts[0].Worker? { EndedWorkerFalls(s, acts[0].c); } else { EndedHandler(s, acts[0]); }
      EndedWorkerRun(Step(s, acts[0]).value, acts[1..]);
    }
  }

  /** What keeps an endless receiver going: its bind succeeds, and no packet arrives. */
  function Polling(s: Sess): Choice { if s.w == WInstall then Yes else No }

  lemma EndlessStep(s: Sess)
    requires Inv(s) && s.h == HDone && Endless(s)
    ensures WStep(s, Polling(s)).Some?
    ensures WStep(s, Polling(s)).value.h == HDone && Endless(WStep(s, Polling(s)).value)
  {
  }

  lemma EndlessNext(s: Sess)
    requires Inv(s) && s.h == HDone && Endless(s)
    ensures Step(s, Worker(Polling(s))).Some?
    ensures var s' := Step(s, Worker(Polling(s))).value; Inv(s') && s'.h == HDone && Endless(s')
  {
    hide Inv, Endless, Polling, WStep, HStep;
    EndlessStep(s);
    StepInv(s, Worker(Polling(s)));
  }

  lemma StepFirst(s: Sess, a: Action, rest: seq<Action>)
    requires Step(s, a).Some?
    ensures Exec(s, [a] + rest) == Exec(Step(s, a).value, rest)
    ensures WorkerSteps([a] + rest) == WorkerSteps(rest) + if a.Worker? then 1 else 0
  {
    hide Step;
    assert ([a] + rest)[1..] == rest;
  }

  lemma {:induction false} EndlessRun(s: Sess, n: nat) returns (acts: seq<Action>)
    requires Inv(s) && s.h == HDone && Endless(s)
    ensures Exec(s, acts).Some? && WorkerSteps(acts) == n
    decreases n
  {
    if n == 0 { return []; }
    hide Inv, Endless, Polling, Step, Exec, WorkerSteps;
    var a := Worker(Polling(s));
    EndlessNext(s);
    var rest := EndlessRun(Step(s, a).value, n - 1);
    StepFirst(s, a, rest);
    acts := [a] + rest;
  }

  /** No schedule has more than n steps of the goroutine. */
  ghost predicate Within(s: Sess, n: nat) {
    forall acts :: Exec(s, acts).Some? ==> WorkerSteps(acts) <= n
  }

  /** After the end of its session a goroutine has a bounded number of steps left, if and only if it
      is not a receiver that nothing will stop. */
  lemma EndedWorkerIsBounded(s: Sess)
    requires Reachable(s) && s.h == HDone
    ensures (exists n: nat :: Within(s, n)) <==> !Endless(s)
  {
    hide Inv, Endless, WorkLeft;
    ReachableInv(s);
    if Endless(s) {
      forall n: nat ensures !Within(s, n) {
        var acts := EndlessRun(s, n + 1);
      }
    } else {
      forall acts | Exec(s, acts).Some? ensures WorkerSteps(acts) <= WorkLeft(s) { EndedWorkerRun(s, acts); }
      assert Within(s, WorkLeft(s));
    }
  }
}
