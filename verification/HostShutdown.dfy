/** Close returns: once it has cancelled the sessions and closed the listener, every goroutine has a
    bounded number of steps left, and until Close has returned something can always move. */
module HostShutdown {
  import opened Protocol
  import opened Server
  import opened Host
  import S = Session
  import SessionInvariant
  import SessionTheorems
  import ServerTheorems

  // ----- sums over a map -----

  ghost function Sum<V(!new)>(f: V -> nat, m: map<nat, V>): nat {
    if m == map[] then 0 else
    var k :| k in m;
    f(m[k]) + Sum(f, m - {k})
  }

  lemma {:induction false} SumRemove<V(!new)>(f: V -> nat, m: map<nat, V>, t: nat)
    requires t in m
    ensures Sum(f, m) == f(m[t]) + Sum(f, m - {t})
    decreases |m|
  {
    var k :| k in m && Sum(f, m) == f(m[k]) + Sum(f, m - {k});
    if k != t {
      assert m - {k} - {t} == m - {t} - {k};
      assert |m - {k}| < |m| && |m - {t}| < |m| by {
        assert (m - {k}).Keys == m.Keys - {k} && (m - {t}).Keys == m.Keys - {t};
      }
      SumRemove(f, m - {k}, t);
      SumRemove(f, m - {t}, k);
    }
  }

  /** The sum after an entry has been set. */
  lemma SumSet<V(!new)>(f: V -> nat, m: map<nat, V>, t: nat, x: V)
    ensures Sum(f, m[t := x]) + (if t in m then f(m[t]) else 0) == Sum(f, m) + f(x)
  {
    SumRemove(f, m[t := x], t);
    assert m[t := x] - {t} == m - {t};
    if t in m { SumRemove(f, m, t); } else { assert m - {t} == m; }
  }

  // ----- what is left to do -----

  /** Steps of a cancelled session's handler. */
  const ROOM: nat := 30

  function GoroutineRank(pc: GPc): nat {
    match pc
    case Unstarted(_, serve) => if serve then 3 else ROOM + 5
    case Accepting => 2
    case AcceptFailed => 1
    case Adding => ROOM + 9
    case Spawning(_) => 3
    case Swap => ROOM + 4
    case Load => 3
    case BusyReply(_) => 2
    case InRun => 3
    case Release => 2
    case Leaving => 1
  }

  function StartRank(p: StartPc): nat {
    match p
    case StartLock => 1
    case StartAdd => 5
    case StartGo(_) => 1
  }

  function CloseRank(c: ClosePc): nat {
    match c
    case Cancelling => 3
    case ClosingListener => 2
    case Waiting => 1
    case _ => 0
  }

  ghost function ServerLeft(v: Server): nat {
    Sum(GoroutineRank, v.threads) + Sum(StartRank, v.starts) + CloseRank(v.close)
  }

  /** Close waits for the goroutines, or has returned. */
  predicate Winding(v: Server) { v.close == Waiting || v.close == Returned }

  /** Room for the session that a successful compare-and-swap starts. */
  function NewRun(v: Server, t: nat): nat
    requires t in v.threads
  {
    if v.threads[t] == Swap && v.slot == None then ROOM else 0
  }

  lemma ConnLeft(v: Server, t: nat)
    requires t in v.threads && DoConn(v, t).Some?
    ensures ServerLeft(DoConn(v, t).value) + NewRun(v, t) < ServerLeft(v)
  {
    var v' := DoConn(v, t).value;
    ConnMoves(v, t);
    if v.threads[t].Leaving? { SumRemove(GoroutineRank, v.threads, t); }
    else { SumSet(GoroutineRank, v.threads, t, v'.threads[t]); }
  }

  lemma ServeLeft(v: Server, t: nat, ok: bool)
    requires Inv(v) && Winding(v) && t in v.threads && DoServe(v, t, ok).Some?
    ensures ServerLeft(DoServe(v, t, ok).value) < ServerLeft(v)
  {
    var v' := DoServe(v, t, ok).value;
    match v.threads[t]
    case Accepting => SumSet(GoroutineRank, v.threads, t, AcceptFailed);
    case AcceptFailed => SumRemove(GoroutineRank, v.threads, t);
    case Adding =>
      SumSet(GoroutineRank, v.threads, v.next, Unstarted(t, false));
      SumSet(GoroutineRank, v.threads[v.next := Unstarted(t, false)], t, Spawning(v.next));
    case Spawning(child) =>
      assert ChildOf(v, child, t, false);
      SumSet(GoroutineRank, v.threads, child, Swap);
      SumSet(GoroutineRank, v.threads[child := Swap], t, Accepting);
  }

  lemma StartLeft(v: Server, t: nat, ok: bool)
    requires Inv(v) && v.closed && t in v.starts
    ensures ServerLeft(DoStart(v, t, ok)) < ServerLeft(v)
  {
    match v.starts[t]
    case StartLock => SumRemove(StartRank, v.starts, t);
    case StartAdd =>
      SumSet(StartRank, v.starts, t, StartGo(v.next));
      SumSet(GoroutineRank, v.threads, v.next, Unstarted(t, true));
    case StartGo(child) =>
      assert ChildOf(v, child, t, true);
      SumRemove(StartRank, v.starts, t);
      SumSet(GoroutineRank, v.threads, child, Accepting);
  }

  /** A new call of Start has one step left: it finds the server closed. */
  lemma CallLeft(v: Server)
    requires Inv(v)
    ensures ServerLeft(Step(v, CallStart).value) == ServerLeft(v) + 1
  {
    assert v.next !in v.starts;
    SumSet(StartRank, v.starts, v.next, StartLock);
  }

  // ----- a cancelled session -----

  function Position(h: S.HPc): nat {
    match h
    case HInit => 9
    case HEnter => 8
    case HTop(k) => if k >= 2 then 5 else 7 - k
    case HCtx => 4
    case HRecv => 14
    case HTimeoutRead => 13
    case HTimeoutWrite(_) => 12
    case HAfterTimeout(k) => if k >= 2 then 8 else 10 - k
    case HCancelRead(ret) => if ret then 3 else 10
    case HCancelWrite(ret) => if ret then 2 else 9
    case HCleanup(exit) => if exit == S.ToEnd then 1 else if exit == S.ToLoop then 8 else 11
    case HPrepCheck(_) => 12
    case HPrepStore(_) => 11
    case HPrepSet => 10
    case HStartCheck => 10
    case HStartSet => 9
    case HSpawn => 8
    case HScCheck => 11
    case HScClose => 10
    case HScWait(_) => 9
    case HScSet => 8
    case HFrCheck => 13
    case HFrSet => 12
    case HResult => 11
    case HCloseConn(_) => 8
    case HWrite(_, body, k) =>
      (if body then 0 else 1) + (if k == S.Return then 1 else if k == S.CloseAfter then 9 else 8)
    case HDone => 0
  }

  /** Steps left to a handler whose context has been cancelled. */
  function CancelRank(s: S.Sess): (r: nat)
    ensures r <= ROOM
  {
    2 * Position(s.h) + if S.HLocks(s.h) && s.holder != S.ByHandler then 1 else 0
  }

  lemma CancelledSection(s: S.Sess)
    requires S.HLocks(s.h)
    ensures Position(S.SectionNext(s)) < Position(s.h)
  {
  }

  lemma CancelledRead(s: S.Sess)
    requires S.HReadsState(s.h)
    ensures CancelRank(s.(h := S.HStateRead(s))) < CancelRank(s)
  {
  }

  lemma CancelledPlain(s: S.Sess, c: S.Choice)
    requires !S.HLocks(s.h) && !S.HReadsState(s.h) && S.HPlain(s, c).Some? && SelectOk(s, c, true)
    ensures CancelRank(S.HPlain(s, c).value) < CancelRank(s)
  {
  }

  /** Whatever it reads or fails to write, a cancelled handler only moves towards its end. */
  lemma CancelledHandler(s: S.Sess, c: S.Choice)
    requires SessionInvariant.Inv(s) && S.HStep(s, c).Some? && SelectOk(s, c, true)
    ensures CancelRank(S.HStep(s, c).value) < CancelRank(s)
  {
    if S.HReadsState(s.h) { CancelledRead(s); }
    else if !S.HLocks(s.h) { CancelledPlain(s, c); }
    else if s.holder == S.ByHandler { CancelledSection(s); }
  }

  lemma CancelledWorker(s: S.Sess, c: S.Choice)
    requires SessionInvariant.Inv(s) && S.WStep(s, c).Some?
    ensures CancelRank(S.WStep(s, c).value) == CancelRank(s)
  {
    SessionTheorems.StoppingWorker(s, c);
  }

  // ----- the whole host -----

  function RunLeft(h: Host): nat {
    if h.v.slot.Some? && Runs(h, h.v.slot.value) then CancelRank(h.sessions[h.v.slot.value]) else 0
  }

  ghost function Left(h: Host): nat { ServerLeft(h.v) + RunLeft(h) }

  lemma GoRunLeft(h: Host, t: nat, ok: bool, tcp6: bool)
    requires Shape(h) && HostStep(h, Serve(Go(t, ok), tcp6)).Some?
    ensures RunLeft(HostStep(h, Serve(Go(t, ok), tcp6)).value) <= RunLeft(h) + NewRun(h.v, t)
  {
    GoEvolves(h.v, t, ok);
    GoSlot(h.v, t, ok);
  }

  /** The slot after a goroutine's step. */
  lemma GoSlot(v: Server, t: nat, ok: bool)
    requires Inv(v) && Step(v, Go(t, ok)).Some?
    ensures var v' := Step(v, Go(t, ok)).value;
      && (v'.slot == v.slot || v'.slot == None || (v'.slot == Some(t) && NewRun(v, t) == ROOM))
      && (v'.slot == v.slot == Some(t) ==> t in v'.threads && v'.threads[t] == Release)
  {
    hide Shutdown;
  }

  lemma OtherRunLeft(h: Host, b: Act, tcp6: bool)
    requires Shape(h) && !b.Go? && HostStep(h, Serve(b, tcp6)).Some?
    ensures RunLeft(HostStep(h, Serve(b, tcp6)).value) == RunLeft(h)
  {
    hide S.Step, CancelRank;
    OtherEvolves(h.v, b);
  }

  /** Steps that are not the environment's calls, and not a worker's. */
  predicate Counted(a: HostAct) {
    match a
    case Serve(b, _) => b.Go? || b.StartStep? || b.CloseStep?
    case Handle(_, _) => true
    case Work(_, _) => false
  }

  predicate CallsStart(a: HostAct) { a.Serve? && a.a.CallStart? }

  lemma ServeStepLeft(h: Host, b: Act, tcp6: bool)
    requires Shape(h) && Winding(h.v) && HostStep(h, Serve(b, tcp6)).Some?
    ensures var h' := HostStep(h, Serve(b, tcp6)).value;
      Left(h') + (if Counted(Serve(b, tcp6)) then 1 else 0) <= Left(h) + (if b.CallStart? then 1 else 0)
  {
    if b.Go? {
      GoRunLeft(h, b.t, b.ok, tcp6);
      if Serves(h.v.threads[b.t]) { ServeLeft(h.v, b.t, b.ok); } else { ConnLeft(h.v, b.t); }
    } else {
      OtherRunLeft(h, b, tcp6);
      if b.StartStep? { StartLeft(h.v, b.t, b.ok); }
      if b.CallStart? { CallLeft(h.v); }
    }
  }

  lemma SessionStepLeft(h: Host, a: HostAct)
    requires HostInv(h) && h.v.cancelled && !a.Serve? && HostStep(h, a).Some?
    ensures Left(HostStep(h, a).value) + (if Counted(a) then 1 else 0) <= Left(h)
  {
    hide Shutdown, SessionInvariant.Inv, S.WPlain;
    if a.Handle? {
      SessionInv(h, a.t);
      CancelledHandler(h.sessions[a.t], a.c);
    } else {
      SessionInv(h, a.id);
      CancelledWorker(h.sessions[a.id], a.c);
    }
  }

  lemma StepLeft(h: Host, a: HostAct)
    requires HostInv(h) && Winding(h.v) && HostStep(h, a).Some?
    ensures Winding(HostStep(h, a).value.v)
    ensures Left(HostStep(h, a).value) + (if Counted(a) then 1 else 0) <= Left(h) + (if CallsStart(a) then 1 else 0)
  {
    if a.Serve? { ServeStepLeft(h, a.a, a.tcp6); StaysWinding(h.v, a.a); } else { SessionStepLeft(h, a); }
  }

  lemma StaysWinding(v: Server, b: Act)
    requires Winding(v) && v.closed && Step(v, b).Some?
    ensures Winding(Step(v, b).value)
  {
  }

  function Effective(acts: seq<HostAct>): nat {
    if acts == [] then 0 else (if Counted(acts[0]) then 1 else 0) + Effective(acts[1..])
  }

  function StartCalls(acts: seq<HostAct>): nat {
    if acts == [] then 0 else (if CallsStart(acts[0]) then 1 else 0) + StartCalls(acts[1..])
  }

  /** Once Close waits, every schedule has a bounded number of steps of goroutines, sessions'
      handlers, Start and Close; only a further call of Start adds one. */
  lemma {:induction false} CloseIsBounded(h: Host, acts: seq<HostAct>)
    requires HostInv(h) && Winding(h.v) && HostExec(h, acts).Some?
    ensures Effective(acts) + Left(HostExec(h, acts).value) <= Left(h) + StartCalls(acts)
    decreases |acts|
  {
    if acts != [] {
      StepLeft(h, acts[0]);
      HostStepInv(h, acts[0]);
      CloseIsBounded(HostStep(h, acts[0]).value, acts[1..]);
    }
  }

  // ----- Close can always return -----

  /** Worker steps before the handler can move. */
  function HoldOf(s: S.Sess): nat {
    if WaitsForReceiver(s) then SessionTheorems.WaitRank(s) else if s.holder == S.ByWorker then 1 else 0
  }

  function Hold(h: Host): nat {
    if h.v.slot.Some? && Runs(h, h.v.slot.value) then HoldOf(h.sessions[h.v.slot.value]) else 0
  }

  lemma WorkerHold(s: S.Sess)
    requires SessionInvariant.Inv(s) && (WaitsForReceiver(s) || s.holder == S.ByWorker)
    ensures S.WStep(s, S.Yes).Some? && HoldOf(S.WStep(s, S.Yes).value) < HoldOf(s)
  {
    SessionInvariant.WorkerInv(s, S.Yes);
    if WaitsForReceiver(s) { SessionTheorems.WaitingWorkerMoves(s, S.Worker(S.Yes)); }
  }

  ghost predicate KeepsPending(v: Server, v': Server) {
    forall t :: t in v.starts && v.starts[t] == StartAdd ==> t in v'.starts && v'.starts[t] == StartAdd
  }

  /** A sender or receiver that has not taken its first step. */
  predicate Unbegun(s: S.Sess) { s.w == S.WNewSender || (s.w == S.WInstall && s.holder != S.ByWorker) }

  ghost predicate KeepsUnbegun(h: Host, h': Host) {
    forall id :: id in h.sessions && Unbegun(h.sessions[id]) ==>
      id in h'.sessions && Unbegun(h'.sessions[id]) && h'.sessions[id].w == h.sessions[id].w
  }

  ghost predicate Keeps(h: Host, h': Host) { KeepsPending(h.v, h'.v) && KeepsUnbegun(h, h') }

  lemma HandlerKeepsUnbegun(s: S.Sess, c: S.Choice)
    requires SessionInvariant.Inv(s) && Unbegun(s) && S.HStep(s, c).Some?
    ensures S.HStep(s, c).value.w == s.w && Unbegun(S.HStep(s, c).value)
  {
    hide SessionInvariant.Channels, SessionInvariant.Results, S.HPlainNext;
  }

  lemma NotWaitedFor(s: S.Sess)
    requires SessionInvariant.Inv(s) && Unbegun(s)
    ensures !WaitsForReceiver(s) && s.holder != S.ByWorker
  {
  }

  lemma ServeKeepsUnbegun(h: Host, b: Act, tcp6: bool)
    requires Shape(h)
    ensures KeepsUnbegun(h, h.(sessions := SessionsAfter(h, b, tcp6)))
  {
    hide Inv;
  }

  /** Every step that drains the server leaves such goroutines alone. */
  lemma KeepsUnbegunStep(h: Host, a: HostAct)
    requires HostInv(h) && HostStep(h, a).Some?
    requires a.Work? && a.id in h.sessions ==> !Unbegun(h.sessions[a.id])
    ensures KeepsUnbegun(h, HostStep(h, a).value)
  {
    hide S.HStep, S.WStep, Step, Unbegun, Shape, HungUp, SessionsAfter;
    if a.Serve? {
      ServeKeepsUnbegun(h, a.a, a.tcp6);
    } else if a.Handle? && Unbegun(h.sessions[a.t]) {
      SessionInv(h, a.t);
      HandlerKeepsUnbegun(h.sessions[a.t], a.c);
    }
  }

  /** Nearer to the end: less is left, or a worker has moved on for its handler. */
  ghost predicate Nearer(h: Host, h': Host) {
    Left(h') < Left(h) || (Left(h') <= Left(h) && Hold(h') < Hold(h))
  }

  lemma CloseStepNearer(h: Host)
    requires HostInv(h)
    requires h.v.close == Cancelling || h.v.close == ClosingListener || (h.v.close == Waiting && h.v.wg == 0)
    ensures var a := Serve(CloseStep, false);
      HostStep(h, a).Some? && Nearer(h, HostStep(h, a).value) && Keeps(h, HostStep(h, a).value)
  {
    OtherRunLeft(h, CloseStep, false);
    KeepsUnbegunStep(h, Serve(CloseStep, false));
  }

  lemma WorkNearer(h: Host, t: nat)
    requires HostInv(h) && h.v.cancelled && Runs(h, t)
    requires WaitsForReceiver(h.sessions[t]) || h.sessions[t].holder == S.ByWorker
    ensures var a := Work(t, S.Yes);
      HostStep(h, a).Some? && Nearer(h, HostStep(h, a).value) && HostStep(h, a).value.v == h.v
  {
    hide SessionInvariant.Inv, DoServe;
    SessionInv(h, t);
    WorkerHold(h.sessions[t]);
    SessionStepLeft(h, Work(t, S.Yes));
  }

  lemma OwnTurnKeepsStarts(h: Host, a: HostAct, t: nat)
    requires OwnTurn(a, t) && HostStep(h, a).Some?
    ensures HostStep(h, a).value.v.starts == h.v.starts
  {
  }

  /** The goroutine in Run. */
  lemma RunNearer(h: Host, t: nat) returns (a: HostAct)
    requires HostInv(h) && Winding(h.v) && Runs(h, t)
    ensures HostStep(h, a).Some? && Nearer(h, HostStep(h, a).value) && Keeps(h, HostStep(h, a).value)
  {
    a := RunCanMove(h, t);
    SessionInv(h, t);
    if Unbegun(h.sessions[t]) { NotWaitedFor(h.sessions[t]); }
    KeepsUnbegunStep(h, a);
    if OwnTurn(a, t) {
      OwnTurnKeepsStarts(h, a, t);
      StepLeft(h, a);
    } else {
      WorkNearer(h, t);
    }
  }

  /** A goroutine whose parent's go statement is still to come. */
  lemma UnstartedNearer(h: Host, t: nat) returns (a: HostAct)
    requires HostInv(h) && Winding(h.v) && t in h.v.threads && h.v.threads[t].Unstarted?
    ensures HostStep(h, a).Some? && Nearer(h, HostStep(h, a).value) && Keeps(h, HostStep(h, a).value)
  {
    var p := h.v.threads[t].parent;
    assert ParentOf(h.v, t, p, h.v.threads[t].serve);
    a := Serve(if h.v.threads[t].serve then StartStep(p, true) else Go(p, true), false);
    StepLeft(h, a);
    KeepsUnbegunStep(h, a);
  }

  /** An accept loop, whose Accept fails, or a connection handler outside Run. */
  lemma GoroutineNearer(h: Host, t: nat) returns (a: HostAct)
    requires HostInv(h) && Winding(h.v) && t in h.v.threads && h.v.threads[t] != InRun && !h.v.threads[t].Unstarted?
    ensures HostStep(h, a).Some? && Nearer(h, HostStep(h, a).value) && Keeps(h, HostStep(h, a).value)
  {
    a := Serve(Go(t, false), false);
    assert Step(h.v, Go(t, false)).Some?;
    OwnTurnKeepsStarts(h, a, t);
    StepLeft(h, a);
    KeepsUnbegunStep(h, a);
  }

  lemma DrainStep(h: Host) returns (a: HostAct)
    requires HostInv(h) && h.v.close != NotCalled && h.v.close != Returned
    ensures HostStep(h, a).Some? && Nearer(h, HostStep(h, a).value) && Keeps(h, HostStep(h, a).value)
  {
    if h.v.close != Waiting || h.v.threads == map[] {
      CloseStepNearer(h);
      return Serve(CloseStep, false);
    }
    var t :| t in h.v.threads;
    if h.v.threads[t] == InRun { a := RunNearer(h, t); }
    else if h.v.threads[t].Unstarted? { a := UnstartedNearer(h, t); }
    else { a := GoroutineNearer(h, t); }
  }

  lemma StaysCalled(h: Host, a: HostAct)
    requires h.v.closed && h.v.close != NotCalled && HostStep(h, a).Some?
    ensures HostStep(h, a).value.v.closed && HostStep(h, a).value.v.close != NotCalled
  {
    hide S.Step;
  }

  /** From every state after the call of Close, the server with its sessions can go on to the return
      of Close, and without the help of any Start that has not added its goroutine yet, or of any
      sender or receiver that has not taken its first step. */
  lemma {:induction false} CloseCanReturn(h: Host) returns (acts: seq<HostAct>)
    requires HostInv(h) && h.v.close != NotCalled
    ensures HostExec(h, acts).Some? && HostExec(h, acts).value.v.close == Returned
    ensures Keeps(h, HostExec(h, acts).value)
    decreases Left(h), Hold(h)
  {
    if h.v.close == Returned { return []; }
    var a := DrainStep(h);
    HostStepInv(h, a);
    StaysCalled(h, a);
    var rest := CloseCanReturn(HostStep(h, a).value);
    acts := [a] + rest;
    assert acts[1..] == rest;
  }

  // ----- when an accept loop outlives Close -----

  lemma {:induction false} HostExecAppend(h: Host, acts: seq<HostAct>, a: HostAct)
    requires HostExec(h, acts).Some?
    ensures HostExec(h, acts + [a]) == HostStep(HostExec(h, acts).value, a)
    decreases |acts|
  {
    if acts == [] {
      assert [a][1..] == [];
    } else {
      assert (acts + [a])[1..] == acts[1..] + [a];
      HostExecAppend(HostStep(h, acts[0]).value, acts[1..], a);
    }
  }

  lemma CleanStep(h: Host, a: HostAct)
    requires Inv(h.v) && h.v.closed && !ServerTheorems.Pending(h.v) && HostStep(h, a).Some?
    requires h.v.close == Returned ==> h.v.threads == map[]
    ensures var v := HostStep(h, a).value.v;
      v.closed && !ServerTheorems.Pending(v) && (v.close == Returned ==> v.threads == map[])
  {
    hide Born, Slot, S.Step;
    if a.Serve? { ServerTheorems.ClosedStep(h.v, a.a); }
  }

  lemma {:induction false} CleanRun(h: Host, acts: seq<HostAct>)
    requires HostInv(h) && h.v.closed && !ServerTheorems.Pending(h.v) && HostExec(h, acts).Some?
    requires h.v.close == Returned ==> h.v.threads == map[]
    ensures var v := HostExec(h, acts).value.v; v.close == Returned ==> v.threads == map[]
    decreases |acts|
  {
    if acts != [] {
      CleanStep(h, acts[0]);
      HostStepInv(h, acts[0]);
      CleanRun(HostStep(h, acts[0]).value, acts[1..]);
    }
  }

  function Called(h: Host): Host { h.(v := DoCallClose(h.v)) }

  lemma CalledInv(h: Host)
    requires HostInv(h)
    ensures HostInv(Called(h)) && Called(h).v.close != NotCalled
  {
    assert HostStep(h, Serve(CallClose, false)) == Some(Called(h));
    HostStepInv(h, Serve(CallClose, false));
  }

  /** An accept loop or connection handler is live after Close has returned. */
  ghost predicate Outlives(h: Host, acts: seq<HostAct>) {
    && HostExec(h, acts).Some?
    && HostExec(h, acts).value.v.close == Returned && HostExec(h, acts).value.v.threads != map[]
  }

  lemma PendingOutlives(h: Host, t: nat) returns (acts: seq<HostAct>)
    requires HostInv(h) && h.v.close != NotCalled && t in h.v.starts && h.v.starts[t] == StartAdd
    ensures Outlives(h, acts)
  {
    var drain := CloseCanReturn(h);
    var end := HostExec(h, drain).value;
    var a := Serve(StartStep(t, true), false);
    HostExecAppend(h, drain, a);
    ServerTheorems.PendingLaunches(end.v, t);
    assert HostStep(end, a).value.v == DoStart(end.v, t, true);
    acts := drain + [a];
  }

  /** When Close is called, some continuation has an accept loop or connection handler live after Close
      has returned if and only if a Start is then between its unlock and its wg.Add(1). */
  lemma PendingStartDecides(h: Host)
    requires Reachable(h) && !h.v.closed
    ensures (exists acts: seq<HostAct> :: Outlives(Called(h), acts)) <==> ServerTheorems.Pending(h.v)
  {
    ReachableInv(h);
    CalledInv(h);
    if ServerTheorems.Pending(h.v) {
      var t :| t in h.v.starts && h.v.starts[t] == StartAdd;
      var acts := PendingOutlives(Called(h), t);
    } else {
      forall acts: seq<HostAct> | HostExec(Called(h), acts).Some? ensures !Outlives(Called(h), acts) {
        CleanRun(Called(h), acts);
      }
    }
  }
}
