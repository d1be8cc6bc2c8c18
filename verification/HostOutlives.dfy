/** When a sender or receiver can outlive Close: exactly when the server has ever listened. */
module HostOutlives {
  import opened Protocol
  import opened Server
  import opened Host
  import opened HostShutdown
  import opened HostWorkers
  import S = Session
  import SessionInvariant
  import SessionTheorems
  import SessionRuns
  import opened SessionEnds
  import ServerTheorems

  // ----- runs of the whole server -----

  ghost predicate Goes(h: Host, h': Host) {
    exists acts: seq<HostAct> :: HostExec(h, acts) == Some(h')
  }

  lemma GoesSelf(h: Host)
    ensures Goes(h, h)
  {
    assert HostExec(h, []) == Some(h);
  }

  lemma GoesOn(b: Host, h: Host, a: HostAct)
    requires Goes(b, h) && HostStep(h, a).Some?
    ensures Goes(b, HostStep(h, a).value)
  {
    var acts: seq<HostAct> :| HostExec(b, acts) == Some(h);
    HostExecAppend(b, acts, a);
  }

  lemma {:induction false} ExecGoes(b: Host, h: Host, acts: seq<HostAct>)
    requires Goes(b, h) && HostExec(h, acts).Some?
    ensures Goes(b, HostExec(h, acts).value)
    decreases |acts|
  {
    hide Goes;
    if acts != [] {
      GoesOn(b, h, acts[0]);
      ExecGoes(b, HostStep(h, acts[0]).value, acts[1..]);
    }
  }

  /** What a session can do while the context is not cancelled, it can do in its goroutine. */
  lemma SessionGoes(b: Host, h: Host, t: nat, s: S.Sess)
    requires Goes(b, h) && Runs(h, t) && !h.v.cancelled && SessionRuns.Reaches(h.sessions[t], s)
    ensures Goes(b, h.(sessions := h.sessions[t := s]))
  {
    hide Goes, S.HStep, S.WStep;
    var P: S.Sess -> bool := s => Goes(b, h.(sessions := h.sessions[t := s]));
    forall s, a | P(s) && SessionRuns.Undisturbed(a) && S.Step(s, a).Some? ensures P(S.Step(s, a).value) {
      var h' := h.(sessions := h.sessions[t := s]);
      var b' := if a.Handler? then Handle(t, a.c) else Work(t, a.c);
      if a.Handler? { HandleStep(h', t, a.c); } else { WorkStep(h', t, a.c); }
      GoesOn(b, h', b');
      assert h'.sessions[t := S.Step(s, a).value] == h.sessions[t := S.Step(s, a).value];
    }
    assert h.sessions[t := h.sessions[t]] == h.sessions;
    assert SessionRuns.ClosedUndisturbed(P) && P(h.sessions[t]);
  }

  // ----- a session can be brought to its end -----

  predicate OnTheWayOut(h: S.HPc) {
    match h
    case HCancelRead(ret) => ret
    case HCancelWrite(ret) => ret
    case HCleanup(exit) => exit == S.ToEnd
    case HWrite(_, _, k) => k == S.Return
    case _ => false
  }

  /** Steps left to a handler whose next read meets its deadline. */
  function EndRank(s: S.Sess): (r: nat)
    ensures !s.g.timedOut ==> r <= 67 + CancelRank(s)
  {
    if s.h.HDone? then 0
    else if s.g.timedOut then SessionTheorems.StopRank(s)
    else if OnTheWayOut(s.h) then 31 + CancelRank(s)
    else if s.h.HRecv? then 62
    else if s.h.HCtx? then 63
    else if s.h.HTop? then if s.h.k <= 2 then 66 - s.h.k else 0
    else 67 + CancelRank(s)
  }

  lemma DueTimedOut(s: S.Sess, c: S.Choice)
    requires SessionInvariant.Inv(s) && s.g.timedOut && S.HStep(s, c).Some?
    ensures EndRank(S.HStep(s, c).value) < EndRank(s)
  {
    hide S.HStep, SessionInvariant.Inv;
    SessionTheorems.StoppingStep(s, S.Handler(c));
  }

  lemma DueLoop(s: S.Sess)
    requires SessionInvariant.Inv(s) && !s.g.timedOut && (s.h.HRecv? || s.h.HCtx? || s.h.HTop?)
    requires S.HStep(s, Due(s, false)).Some?
    ensures EndRank(S.HStep(s, Due(s, false)).value) < EndRank(s)
  {
  }

  lemma OutStays(s: S.Sess, c: S.Choice)
    requires OnTheWayOut(s.h)
    ensures S.HLocks(s.h) ==> S.SectionNext(s).HDone? || OnTheWayOut(S.SectionNext(s))
    ensures S.HReadsState(s.h) ==> S.HStateRead(s).HDone? || OnTheWayOut(S.HStateRead(s))
    ensures !S.HLocks(s.h) && !S.HReadsState(s.h) ==> S.HPlainNext(s, c).HDone? || OnTheWayOut(S.HPlainNext(s, c))
  {
  }

  lemma HandlerNext(s: S.Sess, c: S.Choice)
    requires S.HStep(s, c).Some?
    ensures var s' := S.HStep(s, c).value;
      && !s.h.HDone? && (!s.h.HRecv? ==> s'.g.timedOut == s.g.timedOut)
      && s'.h == (if S.HLocks(s.h) then if s.holder == S.Free then s.h else S.SectionNext(s)
                  else if S.HReadsState(s.h) then S.HStateRead(s) else S.HPlainNext(s, c))
  {
    hide S.SectionNext, S.SectionFields, S.StateJump, S.HPlainNext;
  }

  /** From a message or from its start the handler goes back to the loop, or out. */
  lemma DueOther(s: S.Sess, c: S.Choice)
    requires SessionInvariant.Inv(s) && !s.g.timedOut && !s.h.HRecv? && !s.h.HCtx? && !s.h.HTop?
    requires S.HStep(s, c).Some?
    ensures EndRank(S.HStep(s, c).value) < EndRank(s)
  {
    hide S.HStep, SessionInvariant.Inv, CancelRank, S.SectionNext, S.HStateRead, S.HPlainNext;
    CancelledHandler(s, c);
    HandlerNext(s, c);
    if OnTheWayOut(s.h) { OutStays(s, c); }
  }

  lemma DueHandler(s: S.Sess)
    requires SessionInvariant.Inv(s) && S.HStep(s, Due(s, false)).Some?
    ensures EndRank(S.HStep(s, Due(s, false)).value) < EndRank(s)
  {
    hide S.HStep, SessionInvariant.Inv, EndRank;
    if s.g.timedOut { DueTimedOut(s, Due(s, false)); }
    else if s.h.HRecv? || s.h.HCtx? || s.h.HTop? { DueLoop(s); }
    else { DueOther(s, Due(s, false)); }
  }

  lemma DueWorker(s: S.Sess, c: S.Choice)
    requires SessionInvariant.Inv(s) && S.WStep(s, c).Some?
    ensures EndRank(S.WStep(s, c).value) == EndRank(s)
  {
    hide S.WSection, S.WPlain, SessionInvariant.Inv;
    SessionTheorems.StoppingWorker(s, c);
    CancelledWorker(s, c);
  }

  // ----- the slot becomes free -----

  /** Close has been called and has not cancelled the context yet; an accept loop waits for clients. */
  ghost predicate Accepts(h: Host, u: nat) {
    && HostInv(h) && h.v.close == Cancelling && h.v.listener == Open
    && u in h.v.threads && h.v.threads[u] == Accepting
  }

  function SlotRank(h: Host): nat {
    match h.v.slot
    case None => 0
    case Some(t) => if Runs(h, t) then 2 + EndRank(h.sessions[t]) else 1
  }

  lemma FreeRelease(h: Host, u: nat, t: nat)
    requires Accepts(h, u) && h.v.slot == Some(t) && h.v.threads[t] == Release
    ensures var a := Serve(Go(t, true), false);
      HostStep(h, a).Some? && Accepts(HostStep(h, a).value, u) && HostStep(h, a).value.v.slot == None
  {
    HostStepInv(h, Serve(Go(t, true), false));
  }

  lemma FreeReturn(h: Host, u: nat, t: nat)
    requires Accepts(h, u) && h.v.slot == Some(t) && Runs(h, t) && h.sessions[t].h == S.HDone
    ensures var a := Serve(Go(t, true), false);
      HostStep(h, a).Some? && Accepts(HostStep(h, a).value, u) && SlotRank(HostStep(h, a).value) < SlotRank(h)
  {
    hide Born;
    HostStepInv(h, Serve(Go(t, true), false));
    ReturnStep(h, t);
  }

  /** A step of the session that occupies the slot. */
  lemma FreeSession(h: Host, u: nat, t: nat) returns (a: HostAct)
    requires Accepts(h, u) && h.v.slot == Some(t) && Runs(h, t) && h.sessions[t].h != S.HDone
    ensures HostStep(h, a).Some? && Accepts(HostStep(h, a).value, u)
    ensures var h' := HostStep(h, a).value;
      SlotRank(h') < SlotRank(h) || (SlotRank(h') == SlotRank(h) && Hold(h') < Hold(h))
  {
    hide S.HStep, S.WStep, EndRank, HoldOf, Due, SessionInvariant.Inv, Born;
    InvOf(h, t);
    a := RunCanMove(h, t);
    HostStepInv(h, a);
    var s := h.sessions[t];
    if a.Work? {
      WorkStep(h, t, S.Yes);
      DueWorker(s, S.Yes);
      WorkerHold(s);
    } else {
      DueHandler(s);
    }
  }

  /** Whatever the slot holds, it can be freed before the context is cancelled. */
  lemma {:induction false} FreeTheSlot(b: Host, h: Host, u: nat) returns (h': Host)
    requires Goes(b, h) && Accepts(h, u)
    ensures Goes(b, h') && Accepts(h', u) && h'.v.slot == None
    decreases SlotRank(h), Hold(h)
  {
    if h.v.slot == None { return h; }
    var t := h.v.slot.value;
    var a := Serve(Go(t, true), false);
    if h.v.threads[t] == Release { FreeRelease(h, u, t); }
    else if h.sessions[t].h == S.HDone { FreeReturn(h, u, t); }
    else { a := FreeSession(h, u, t); }
    GoesOn(b, h, a);
    h' := FreeTheSlot(b, HostStep(h, a).value, u);
  }

  // ----- an accept loop -----

  predicate Loops(pc: GPc) { Serves(pc) || (pc.Unstarted? && pc.serve) }

  ghost predicate HasLoop(v: Server) { exists t :: t in v.threads && Loops(v.threads[t]) }

  /** A server that listens has an accept loop, or a Start that will launch one; one that does not
      has run nothing. */
  ghost predicate Served(h: Host) {
    && (h.v.listener == NoListener ==> h.v.threads == map[] && h.sessions == map[])
    && (h.v.listener != NoListener && !h.v.cancelled ==> ServerTheorems.Pending(h.v) || HasLoop(h.v))
  }

  lemma LoopStaysGo(v: Server, t: nat, ok: bool, u: nat)
    requires Inv(v) && Step(v, Go(t, ok)).Some? && !v.cancelled && u in v.threads && Loops(v.threads[u])
    ensures u in Step(v, Go(t, ok)).value.threads && Loops(Step(v, Go(t, ok)).value.threads[u])
  {
    if !Serves(v.threads[t]) { ConnMoves(v, t); }
    else if v.threads[t].Spawning? { assert ChildOf(v, v.threads[t].child, t, false); }
  }

  lemma LoopStays(v: Server, b: Act, u: nat)
    requires Inv(v) && Step(v, b).Some? && !v.cancelled && u in v.threads && Loops(v.threads[u])
    ensures u in Step(v, b).value.threads && Loops(Step(v, b).value.threads[u])
  {
    if b.Go? { LoopStaysGo(v, b.t, b.ok, u); }
    else if b.StartStep? { StartKeepsLoop(v, b.t, b.ok, u); }
  }

  lemma StartKeepsLoop(v: Server, t: nat, ok: bool, u: nat)
    requires Inv(v) && t in v.starts && u in v.threads && Loops(v.threads[u])
    ensures u in DoStart(v, t, ok).threads && Loops(DoStart(v, t, ok).threads[u])
  {
  }

  lemma PendingStays(v: Server, b: Act, t: nat)
    requires Inv(v) && Step(v, b).Some? && t in v.starts && v.starts[t] == StartAdd
    ensures ServerTheorems.Pending(Step(v, b).value) || HasLoop(Step(v, b).value)
  {
    var v' := Step(v, b).value;
    if b.StartStep? && b.t == t {
      assert Loops(v'.threads[v.next]);
    } else {
      assert v'.starts[t] == StartAdd;
    }
  }

  lemma StartListens(v: Server, b: Act)
    requires Inv(v) && Step(v, b).Some? && v.listener == NoListener && v.threads == map[]
    ensures var v' := Step(v, b).value;
      && (v'.listener == NoListener ==> v'.threads == map[])
      && (v'.listener != NoListener ==> b.StartStep? && ServerTheorems.Pending(v'))
  {
    if Step(v, b).value.listener != NoListener { assert Step(v, b).value.starts[b.t] == StartAdd; }
  }

  lemma ListenerStays(v: Server, b: Act)
    requires Step(v, b).Some? && v.listener != NoListener
    ensures Step(v, b).value.listener != NoListener && (v.cancelled ==> Step(v, b).value.cancelled)
  {
  }

  lemma ServedStep(h: Host, a: HostAct)
    requires HostInv(h) && Served(h) && HostStep(h, a).Some?
    ensures Served(HostStep(h, a).value)
  {
    hide Step, S.Step;
    if a.Serve? {
      if h.v.listener == NoListener { StartListens(h.v, a.a); }
      else {
        ListenerStays(h.v, a.a);
        if h.v.cancelled { }
        else if HasLoop(h.v) {
          var u :| u in h.v.threads && Loops(h.v.threads[u]);
          LoopStays(h.v, a.a, u);
        } else {
          var t :| t in h.v.starts && h.v.starts[t] == StartAdd;
          PendingStays(h.v, a.a, t);
        }
      }
    }
  }

  lemma {:induction false} ServedRun(h: Host, acts: seq<HostAct>)
    requires HostInv(h) && Served(h) && HostExec(h, acts).Some?
    ensures Served(HostExec(h, acts).value)
    decreases |acts|
  {
    hide HostInv, Served;
    if acts != [] {
      ServedStep(h, acts[0]);
      HostStepInv(h, acts[0]);
      ServedRun(HostStep(h, acts[0]).value, acts[1..]);
    }
  }

  lemma ReachableServed(h: Host)
    requires Reachable(h)
    ensures Served(h)
  {
    var acts: seq<HostAct> :| HostExec(FRESH, acts) == Some(h);
    FreshServed();
    hide HostInv, Served;
    ServedRun(FRESH, acts);
  }

  lemma FreshServed()
    ensures HostInv(FRESH) && Served(FRESH)
  {
  }

  /** Close has been called and has not cancelled the context yet. */
  ghost predicate JustCalled(h: Host) {
    HostInv(h) && h.v.close == Cancelling && h.v.listener == Open
  }

  /** A step of Start or of an accept loop. */
  lemma LoopStep(b: Host, h: Host, a: Act) returns (h': Host)
    requires Goes(b, h) && JustCalled(h) && Step(h.v, a).Some?
    requires a.StartStep? || (a.Go? && a.t in h.v.threads && Serves(h.v.threads[a.t]))
    ensures Goes(b, h') && JustCalled(h') && h' == Host(Step(h.v, a).value, h.sessions)
  {
    hide Goes, Born, Slot;
    var c := Serve(a, false);
    h' := HostStep(h, c).value;
    HostStepInv(h, c);
    GoesOn(b, h, c);
  }

  lemma ToAccepting(b: Host, h: Host, u: nat) returns (h': Host)
    requires Goes(b, h) && JustCalled(h) && u in h.v.threads && Serves(h.v.threads[u])
    ensures Goes(b, h') && Accepts(h', u)
  {
    hide Goes, HostStep, Born, Slot, DoConn;
    h' := h;
    if h'.v.threads[u].Adding? { h' := LoopStep(b, h', Go(u, true)); }
    if !h'.v.threads[u].Accepting? { h' := LoopStep(b, h', Go(u, true)); }
  }

  lemma Launched(b: Host, h: Host, t: nat) returns (h': Host, u: nat)
    requires Goes(b, h) && JustCalled(h) && t in h.v.starts && h.v.starts[t].StartGo?
    ensures Goes(b, h') && Accepts(h', u)
  {
    hide Goes;
    u := h.v.starts[t].child;
    assert ChildOf(h.v, u, t, true);
    h' := LoopStep(b, h, StartStep(t, true));
  }

  /** A server that listens can get to wait for clients. */
  lemma SomeLoop(b: Host, h: Host) returns (h': Host, u: nat)
    requires Goes(b, h) && JustCalled(h) && (ServerTheorems.Pending(h.v) || HasLoop(h.v))
    ensures Goes(b, h') && Accepts(h', u)
  {
    hide Goes;
    if HasLoop(h.v) {
      u :| u in h.v.threads && Loops(h.v.threads[u]);
      if Serves(h.v.threads[u]) {
        h' := ToAccepting(b, h, u);
      } else {
        assert ParentOf(h.v, u, h.v.threads[u].parent, true);
        h', u := Launched(b, h, h.v.threads[u].parent);
      }
    } else {
      var t :| t in h.v.starts && h.v.starts[t] == StartAdd;
      h' := LoopStep(b, h, StartStep(t, true));
      h', u := Launched(b, h', t);
    }
  }

  // ----- a client starts a test -----

  lemma Connected(b: Host, h: Host, u: nat) returns (h': Host, t: nat)
    requires Goes(b, h) && Accepts(h, u)
    ensures Goes(b, h') && JustCalled(h') && h'.v.slot == h.v.slot && t in h'.v.threads && h'.v.threads[t] == Swap
  {
    hide Goes, HostStep, Slot, Shutdown;
    h' := LoopStep(b, h, Go(u, true));
    t := h'.v.next;
    h' := LoopStep(b, h', Go(u, true));
    assert ChildOf(h'.v, t, u, false);
    h' := LoopStep(b, h', Go(u, true));
  }

  lemma AcquireStep(v: Server, t: nat)
    requires v.slot == None && t in v.threads && v.threads[t] == Swap
    ensures Step(v, Go(t, true)) == Some(To(v, t, InRun).(slot := Some(t)))
  {
  }

  lemma Admitted(b: Host, h: Host, t: nat) returns (h': Host)
    requires Goes(b, h) && JustCalled(h) && h.v.slot == None && t in h.v.threads && h.v.threads[t] == Swap
    ensures Goes(b, h') && JustCalled(h') && Runs(h', t) && h'.sessions[t] == S.Initial(false)
  {
    hide Goes, Inv, Step;
    var a := Serve(Go(t, true), false);
    AcquireStep(h.v, t);
    h' := HostStep(h, a).value;
    HostStepInv(h, a);
    GoesOn(b, h, a);
  }

  lemma GoesInv(b: Host, h: Host)
    requires HostInv(b) && Goes(b, h)
    ensures HostInv(h)
  {
    var acts: seq<HostAct> :| HostExec(b, acts) == Some(h);
    HostExecInv(b, acts);
  }

  /** Its receiver has been started and has not taken a step. */
  lemma Started(b: Host, h: Host, t: nat) returns (h': Host)
    requires HostInv(b) && Goes(b, h) && JustCalled(h) && Runs(h, t) && h.sessions[t] == S.Initial(false)
    ensures Goes(b, h') && HostInv(h') && h'.v == h.v && t in h'.sessions
    ensures h'.sessions[t].w == S.WInstall && h'.sessions[t].holder == S.Free
  {
    hide Goes;
    var s := SessionRuns.ReachRunning(S.Initial(false), false, Params(Uplink, IPv4, 0, 0, 0, 0, 0));
    SessionGoes(b, h, t, s);
    h' := h.(sessions := h.sessions[t := s]);
    GoesInv(b, h');
  }

  // ----- the condition -----

  /** A sender or receiver is live after Close has returned. */
  ghost predicate WorkerOutlives(b: Host, h: Host) {
    Goes(b, h) && h.v.close == Returned && exists id :: id in h.sessions && Live(h.sessions[id].w)
  }

  /** A receiver that nothing will stop is live after Close has returned. */
  ghost predicate EndlessOutlives(b: Host, h: Host) {
    Goes(b, h) && h.v.close == Returned && exists id :: id in h.sessions && Endless(h.sessions[id])
  }

  lemma ReceiverOutlives(b: Host) returns (h: Host)
    requires JustCalled(b) && (ServerTheorems.Pending(b.v) || HasLoop(b.v))
    ensures WorkerOutlives(b, h) && EndlessOutlives(b, h)
  {
    hide Goes, HostInv;
    GoesSelf(b);
    var u, t;
    h, u := SomeLoop(b, b);
    h := FreeTheSlot(b, h, u);
    h, t := Connected(b, h, u);
    h := Admitted(b, h, t);
    h := Started(b, h, t);
    assert Unbegun(h.sessions[t]);
    var acts := CloseCanReturn(h);
    ExecGoes(b, h, acts);
    h := HostExec(h, acts).value;
    assert Endless(h.sessions[t]) && Live(h.sessions[t].w);
  }

  /** A closed server that never listened runs nothing. */
  lemma {:induction false} NeverListened(h: Host, acts: seq<HostAct>)
    requires h.v.closed && h.v.listener == NoListener && h.v.threads == map[] && h.sessions == map[]
    requires Inv(h.v) && HostExec(h, acts).Some?
    ensures HostExec(h, acts).value.sessions == map[]
    decreases |acts|
  {
    if acts != [] {
      ClosedNeverListens(h, acts[0]);
      NeverListened(HostStep(h, acts[0]).value, acts[1..]);
    }
  }

  lemma ClosedNeverListens(h: Host, a: HostAct)
    requires h.v.closed && h.v.listener == NoListener && h.v.threads == map[] && h.sessions == map[]
    requires Inv(h.v) && HostStep(h, a).Some?
    ensures var h' := HostStep(h, a).value;
      h'.v.closed && h'.v.listener == NoListener && h'.v.threads == map[] && h'.sessions == map[] && Inv(h'.v)
  {
    StepInv(h.v, a.a);
  }

  /** When Close is called, some continuation has a sender or receiver live after Close has returned,
      even one that nothing will stop, if and only if some Start has made the server listen. */
  lemma ListeningDecides(h: Host)
    requires Reachable(h) && !h.v.closed
    ensures (exists h' :: WorkerOutlives(Called(h), h')) <==> h.v.listener != NoListener
    ensures (exists h' :: EndlessOutlives(Called(h), h')) <==> h.v.listener != NoListener
  {
    ReachableInv(h);
    ReachableServed(h);
    CalledInv(h);
    if h.v.listener != NoListener {
      var h' := ReceiverOutlives(Called(h));
    } else {
      forall h' | Goes(Called(h), h') ensures h'.sessions == map[] {
        var acts: seq<HostAct> :| HostExec(Called(h), acts) == Some(h');
        NeverListened(Called(h), acts);
      }
    }
  }

  /** So it happens with no Start in progress. */
  lemma WorkerCanOutliveClose() returns (h: Host, h': Host)
    ensures Reachable(h) && !h.v.closed && h.v.starts == map[] && EndlessOutlives(Called(h), h')
  {
    GoesSelf(FRESH);
    h := FRESH;
    GoesOn(FRESH, h, Serve(CallStart, false)); h := HostStep(h, Serve(CallStart, false)).value;
    GoesOn(FRESH, h, Serve(StartStep(0, true), false)); h := HostStep(h, Serve(StartStep(0, true), false)).value;
    GoesOn(FRESH, h, Serve(StartStep(0, true), false)); h := HostStep(h, Serve(StartStep(0, true), false)).value;
    GoesOn(FRESH, h, Serve(StartStep(0, true), false)); h := HostStep(h, Serve(StartStep(0, true), false)).value;
    ListeningDecides(h);
    h' :| EndlessOutlives(Called(h), h');
  }
}
