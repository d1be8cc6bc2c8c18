/** The server with the sessions it hosts: every acquired slot runs a session of its own. */
module Host {
  import opened Protocol
  import opened Server
  import S = Session
  import SessionInvariant
  import SessionTheorems

  datatype Host = Host(v: Server, sessions: map<nat, S.Sess>)

  datatype HostAct =
    | Serve(a: Act, tcp6: bool)       // a step of the server; a new session's connection may be IPv6
    | Handle(t: nat, c: S.Choice)     // a step of session.Run in goroutine t
    | Work(id: nat, c: S.Choice)      // a step of a session's worker

  predicate At(v: Server, a: Act, pc: GPc) { a.Go? && a.t in v.threads && v.threads[a.t] == pc }

  predicate Runs(h: Host, t: nat) { t in h.sessions && t in h.v.threads && h.v.threads[t] == InRun }

  function RunSession(h: Host, id: nat, a: S.Action): Option<Host>
    requires id in h.sessions
  {
    match S.Step(h.sessions[id], a)
    case None => None
    case Some(s) => Some(h.(sessions := h.sessions[id := s]))
  }

  /** The select on ctx.Done() takes its branch exactly when Close has cancelled the context. */
  predicate SelectOk(s: S.Sess, c: S.Choice, cancelled: bool) { s.h.HCtx? ==> (c == S.Fail <==> cancelled) }

  /** NewSession precedes the compare-and-swap, and the connection of a session that has run is closed
      before its goroutine leaves. */
  function SessionsAfter(h: Host, b: Act, tcp6: bool): map<nat, S.Sess> {
    if At(h.v, b, Swap) then h.sessions[b.t := S.Initial(tcp6)]
    else if At(h.v, b, Leaving) && b.t in h.sessions && h.sessions[b.t].h == S.HDone then HangUp(h.sessions, b.t)
    else h.sessions
  }

  function HangUp(sessions: map<nat, S.Sess>, t: nat): map<nat, S.Sess>
    requires t in sessions
  {
    sessions[t := sessions[t].(connOpen := false)]
  }

  function HostStep(h: Host, a: HostAct): Option<Host> {
    match a
    case Serve(b, tcp6) =>
      // Run returns when the session's handler is done
      if At(h.v, b, InRun) && !(b.t in h.sessions && h.sessions[b.t].h == S.HDone) then None
      else
        (match Step(h.v, b)
         case None => None
         case Some(v) => Some(Host(v, SessionsAfter(h, b, tcp6))))
    case Handle(t, c) =>
      if Runs(h, t) && SelectOk(h.sessions[t], c, h.v.cancelled) then RunSession(h, t, S.Handler(c)) else None
    case Work(id, c) => if id in h.sessions then RunSession(h, id, S.Worker(c)) else None
  }

  function HostExec(h: Host, acts: seq<HostAct>): Option<Host>
    decreases |acts|
  {
    if acts == [] then Some(h)
    else
      match HostStep(h, acts[0])
      case None => None
      case Some(h') => HostExec(h', acts[1..])
  }

  const FRESH := Host(Initial(), map[])

  ghost predicate Reachable(h: Host) {
    exists acts: seq<HostAct> :: HostExec(FRESH, acts) == Some(h)
  }

  predicate InProgress(s: S.Sess) { s.h != S.HInit && s.h != S.HDone }

  /** A session runs only in its own goroutine. */
  ghost predicate Shape(h: Host) {
    && Inv(h.v)
    && (forall id :: id in h.sessions ==> id < h.v.next)
    && (forall id :: id in h.sessions && InProgress(h.sessions[id]) ==>
          id in h.v.threads && h.v.threads[id] == InRun)
    && (forall t :: t in h.v.threads && Early(h.v.threads[t]) ==> t !in h.sessions)
    && (forall t :: t in h.v.threads && h.v.threads[t] == InRun ==> t in h.sessions)
  }

  /** Every hosted session behaves as a session by itself. */
  ghost predicate Sound(sessions: map<nat, S.Sess>) {
    forall id :: id in sessions ==> SessionTheorems.Reachable(sessions[id])
  }

  /** A session whose goroutine has left has no open connection. */
  ghost predicate HungUp(h: Host) {
    forall id :: id in h.sessions && id !in h.v.threads && h.sessions[id].h == S.HDone ==> !h.sessions[id].connOpen
  }

  ghost predicate HostInv(h: Host) { Shape(h) && Sound(h.sessions) && HungUp(h) }

  lemma WorkerKeepsPosition(s: S.Sess, c: S.Choice)
    requires S.WStep(s, c).Some?
    ensures S.WStep(s, c).value.h == s.h && S.WStep(s, c).value.connOpen == s.connOpen
  {
  }

  lemma HandleShape(h: Host, id: nat, a: S.Action)
    requires Shape(h) && id in h.sessions && RunSession(h, id, a).Some?
    requires a.Worker? || (a.Handler? && id in h.v.threads && h.v.threads[id] == InRun)
    ensures Shape(RunSession(h, id, a).value)
  {
    if a.Worker? { WorkerKeepsPosition(h.sessions[id], a.c); }
  }

  lemma HandleSound(h: Host, id: nat, a: S.Action)
    requires Sound(h.sessions) && id in h.sessions && RunSession(h, id, a).Some?
    ensures Sound(RunSession(h, id, a).value.sessions)
  {
    SessionTheorems.ReachStep(h.sessions[id], a);
  }

  lemma InitialReachable(tcp6: bool)
    ensures SessionTheorems.Reachable(S.Initial(tcp6))
  {
    assert S.Exec(S.Initial(tcp6), []) == Some(S.Initial(tcp6));
  }

  /** A goroutine that is not in Run evolves the server under the sessions, except for a new one. */
  lemma HostEvolves(h: Host, v: Server, t: nat)
    requires Shape(h) && Inv(v) && Evolves(h.v, v, t)
    requires t in h.sessions ==> !InProgress(h.sessions[t])
    requires t in v.threads && v.threads[t] == InRun ==> t in h.sessions
    ensures Shape(Host(v, h.sessions))
  {
  }

  lemma NewSessionShape(h: Host, v: Server, t: nat, tcp6: bool)
    requires Shape(h) && Inv(v) && Evolves(h.v, v, t)
    requires t in h.v.threads && h.v.threads[t] == Swap && t in v.threads && !Early(v.threads[t])
    ensures Shape(Host(v, h.sessions[t := S.Initial(tcp6)]))
  {
  }

  /** Only the compare-and-swap leads into Run. */
  lemma EntersRun(v: Server, b: Act)
    requires Inv(v) && b.Go? && Step(v, b).Some? && !At(v, b, Swap)
    ensures b.t in Step(v, b).value.threads ==> Step(v, b).value.threads[b.t] != InRun
  {
  }

  lemma HangUpShape(h: Host, t: nat)
    requires Shape(h) && t in h.sessions
    ensures Shape(h.(sessions := HangUp(h.sessions, t)))
  {
  }

  lemma OtherShape(h: Host, b: Act)
    requires Shape(h) && !b.Go? && Step(h.v, b).Some?
    ensures Shape(Host(Step(h.v, b).value, h.sessions))
  {
    StepInv(h.v, b);
    OtherEvolves(h.v, b);
    HostEvolves(h, Step(h.v, b).value, h.v.next);
  }

  lemma ServeShape(h: Host, b: Act, tcp6: bool)
    requires Shape(h) && HostStep(h, Serve(b, tcp6)).Some?
    ensures Shape(HostStep(h, Serve(b, tcp6)).value)
  {
    if b.Go? { GoShape(h, b, tcp6); } else { OtherShape(h, b); }
  }

  lemma ServeSound(h: Host, b: Act, tcp6: bool)
    requires Sound(h.sessions) && HostStep(h, Serve(b, tcp6)).Some?
    ensures Sound(HostStep(h, Serve(b, tcp6)).value.sessions)
  {
    InitialReachable(tcp6);
    if At(h.v, b, Leaving) && b.t in h.sessions && h.sessions[b.t].h == S.HDone {
      SessionTheorems.ReachStep(h.sessions[b.t], S.ServerClosesConn);
    }
  }

  lemma GoShape(h: Host, b: Act, tcp6: bool)
    requires Shape(h) && b.Go? && HostStep(h, Serve(b, tcp6)).Some?
    ensures Shape(HostStep(h, Serve(b, tcp6)).value)
  {
    StepInv(h.v, b);
    GoEvolves(h.v, b.t, b.ok);
    if At(h.v, b, Swap) {
      NewSessionShape(h, Step(h.v, b).value, b.t, tcp6);
    } else {
      EntersRun(h.v, b);
      HostEvolves(h, Step(h.v, b).value, b.t);
      if SessionsAfter(h, b, tcp6) != h.sessions { HangUpShape(Host(Step(h.v, b).value, h.sessions), b.t); }
    }
  }

  /** Only the goroutine that moves can leave, and only from Leaving if it has a session. */
  lemma LeavesFromLeaving(h: Host, b: Act, id: nat)
    requires Shape(h) && b.Go? && Step(h.v, b).Some?
    requires id in h.sessions && id in h.v.threads && id !in Step(h.v, b).value.threads
    ensures b.t == id && h.v.threads[id] == Leaving
  {
    hide DoServe, DoConn;
    GoEvolves(h.v, b.t, b.ok);
    if !Serves(h.v.threads[b.t]) { ConnMoves(h.v, b.t); }
  }

  lemma GoHungUp(h: Host, b: Act, tcp6: bool)
    requires Shape(h) && HungUp(h) && b.Go? && HostStep(h, Serve(b, tcp6)).Some?
    ensures HungUp(HostStep(h, Serve(b, tcp6)).value)
  {
    hide Shape, Step;
    var h' := HostStep(h, Serve(b, tcp6)).value;
    forall id | id in h'.sessions && id !in h'.v.threads && h'.sessions[id].h == S.HDone
      ensures !h'.sessions[id].connOpen
    {
      if id in h.sessions && id in h.v.threads { LeavesFromLeaving(h, b, id); }
    }
  }

  lemma WorkHungUp(h: Host, id: nat, a: S.Action)
    requires HungUp(h) && id in h.sessions && RunSession(h, id, a).Some?
    requires a.Worker? || (a.Handler? && id in h.v.threads)
    ensures HungUp(RunSession(h, id, a).value)
  {
    if a.Worker? { WorkerKeepsPosition(h.sessions[id], a.c); }
  }

  lemma OtherHungUp(h: Host, b: Act, tcp6: bool)
    requires Shape(h) && HungUp(h) && !b.Go? && HostStep(h, Serve(b, tcp6)).Some?
    ensures HungUp(HostStep(h, Serve(b, tcp6)).value)
  {
    OtherEvolves(h.v, b);
    if b.StartStep? && h.v.starts[b.t].StartGo? { assert ChildOf(h.v, h.v.starts[b.t].child, b.t, true); }
  }

  lemma HostStepInv(h: Host, a: HostAct)
    requires HostInv(h) && HostStep(h, a).Some?
    ensures HostInv(HostStep(h, a).value)
  {
    match a
    case Serve(b, tcp6) =>
      ServeShape(h, b, tcp6);
      ServeSound(h, b, tcp6);
      if b.Go? { GoHungUp(h, b, tcp6); } else { OtherHungUp(h, b, tcp6); }
    case Handle(t, c) =>
      HandleShape(h, t, S.Handler(c));
      HandleSound(h, t, S.Handler(c));
      WorkHungUp(h, t, S.Handler(c));
    case Work(id, c) =>
      HandleShape(h, id, S.Worker(c));
      HandleSound(h, id, S.Worker(c));
      WorkHungUp(h, id, S.Worker(c));
  }

  lemma {:induction false} HostExecInv(h: Host, acts: seq<HostAct>)
    requires HostInv(h) && HostExec(h, acts).Some?
    ensures HostInv(HostExec(h, acts).value)
    decreases |acts|
  {
    if acts != [] {
      HostStepInv(h, acts[0]);
      HostExecInv(HostStep(h, acts[0]).value, acts[1..]);
    }
  }

  lemma ReachableInv(h: Host)
    requires Reachable(h)
    ensures HostInv(h)
  {
    var acts: seq<HostAct> :| HostExec(FRESH, acts) == Some(h);
    HostExecInv(FRESH, acts);
  }

  /** The invariant of the session in progress. */
  lemma SessionInv(h: Host, t: nat)
    requires Sound(h.sessions) && t in h.sessions
    ensures SessionInvariant.Inv(h.sessions[t])
  {
    SessionTheorems.ReachableInv(h.sessions[t]);
  }

  /** In every run of the whole server at most one session is in progress, it is the one in the
      slot, and each session is in a state that a session alone can reach. */
  lemma OneSessionInProgress(h: Host, i: nat, j: nat)
    requires Reachable(h)
    ensures i in h.sessions ==> SessionTheorems.Reachable(h.sessions[i])
    ensures i in h.sessions && InProgress(h.sessions[i]) ==> h.v.slot == Some(i)
    ensures i in h.sessions && j in h.sessions && InProgress(h.sessions[i]) && InProgress(h.sessions[j]) ==> i == j
  {
    ReachableInv(h);
  }

  // ----- a session that ends frees the slot -----

  /** Run has returned, or is on its way out after EOF or a timeout. */
  predicate Stopping(s: S.Sess) { s.h == S.HDone || s.g.timedOut }

  lemma StoppingEvolves(s: S.Sess, a: S.Action)
    requires SessionInvariant.Inv(s) && Stopping(s) && S.Step(s, a).Some? && !a.ServerClosesConn?
    ensures var s' := S.Step(s, a).value;
      && Stopping(s')
      && (a.Handler? ==> SessionTheorems.StopRank(s') < SessionTheorems.StopRank(s))
      && (a.Worker? ==> SessionTheorems.StopRank(s') == SessionTheorems.StopRank(s))
  {
    if s.g.timedOut {
      SessionTheorems.StoppingStep(s, a);
    } else if a.Worker? {
      WorkerKeepsPosition(s, a.c);
    }
  }

  /** Steps goroutine t needs to give the slot back, in Run and after it. */
  function TurnsLeft(h: Host, t: nat): (n: nat)
    ensures n <= 32 && (t in h.sessions && h.sessions[t].h == S.HDone ==> n <= 2)
  {
    if Runs(h, t) then SessionTheorems.StopRank(h.sessions[t]) + 2
    else if t in h.v.threads && h.v.threads[t] == Release then 1
    else 0
  }

  predicate OwnTurn(a: HostAct, t: nat) {
    match a
    case Serve(b, _) => b.Go? && b.t == t
    case Handle(u, _) => u == t
    case Work(_, _) => false
  }

  function OwnTurns(acts: seq<HostAct>, t: nat): nat {
    if acts == [] then 0 else (if OwnTurn(acts[0], t) then 1 else 0) + OwnTurns(acts[1..], t)
  }

  ghost predicate Releasing(h: Host, t: nat) {
    && t in h.v.threads && InRegion(h.v.threads[t])
    && (h.v.threads[t] == InRun ==> t in h.sessions && Stopping(h.sessions[t]))
  }

  lemma SessionTurn(h: Host, a: HostAct, t: nat)
    requires Sound(h.sessions) && Releasing(h, t) && !a.Serve? && HostStep(h, a).Some?
    ensures var h' := HostStep(h, a).value;
      && Releasing(h', t) && TurnsLeft(h', t) + (if OwnTurn(a, t) then 1 else 0) <= TurnsLeft(h, t)
  {
    if t in h.sessions && h.v.threads[t] == InRun {
      SessionInv(h, t);
      if a.Handle? && a.t == t { StoppingEvolves(h.sessions[t], S.Handler(a.c)); }
      if a.Work? && a.id == t { StoppingEvolves(h.sessions[t], S.Worker(a.c)); }
    }
  }

  lemma OtherTurn(h: Host, b: Act, tcp6: bool, t: nat)
    requires Shape(h) && Releasing(h, t) && HostStep(h, Serve(b, tcp6)).Some? && !(b.Go? && b.t == t)
    ensures var h' := HostStep(h, Serve(b, tcp6)).value;
      Releasing(h', t) && TurnsLeft(h', t) == TurnsLeft(h, t)
  {
    hide Step, SessionTheorems.StopRank;
    if b.Go? { GoEvolves(h.v, b.t, b.ok); } else { OtherEvolves(h.v, b); }
  }

  /** The goroutine's own step out of Run, and the release. */
  lemma ServerTurn(h: Host, b: Act, tcp6: bool, t: nat)
    requires Shape(h) && Releasing(h, t) && HostStep(h, Serve(b, tcp6)).Some? && b.Go? && b.t == t
    ensures var h' := HostStep(h, Serve(b, tcp6)).value;
      && (h.v.threads[t] == InRun ==> Releasing(h', t) && TurnsLeft(h', t) == 1)
      && (h.v.threads[t] == Release ==> h'.v.slot == None)
  {
  }

  /** Whatever runs in between, a goroutine whose session has ended, or has met EOF or a timeout,
      has freed the slot by the time it has taken as many steps as it has left: two after the end
      of Run, and at most thirty in Run after the failed read. */
  lemma StoppedSessionFreesTheSlot(h: Host, t: nat, acts: seq<HostAct>) returns (i: nat)
    requires Reachable(h) && Releasing(h, t) && HostExec(h, acts).Some?
    requires OwnTurns(acts, t) >= TurnsLeft(h, t)
    ensures i <= |acts| && HostExec(h, acts[..i]).Some? && HostExec(h, acts[..i]).value.v.slot == None
  {
    ReachableInv(h);
    i := FreesTheSlot(h, t, acts);
  }

  lemma {:induction false} FreesTheSlot(h: Host, t: nat, acts: seq<HostAct>) returns (i: nat)
    requires HostInv(h) && Releasing(h, t) && HostExec(h, acts).Some?
    requires OwnTurns(acts, t) >= TurnsLeft(h, t)
    ensures i <= |acts| && HostExec(h, acts[..i]).Some? && HostExec(h, acts[..i]).value.v.slot == None
    decreases |acts|
  {
    hide Shape;
    var a, h' := acts[0], HostStep(h, acts[0]).value;
    HostStepInv(h, a);
    if a.Serve? && OwnTurn(a, t) { ServerTurn(h, a.a, a.tcp6, t); }
    else if a.Serve? { OtherTurn(h, a.a, a.tcp6, t); }
    else { SessionTurn(h, a, t); }
    if a.Serve? && OwnTurn(a, t) && h.v.threads[t] == Release {
      i := 1;
      assert acts[..1][1..] == [];
    } else {
      var j := FreesTheSlot(h', t, acts[1..]);
      i := j + 1;
      assert acts[..i][1..] == acts[1..][..j];
    }
  }

  // ----- the goroutine in Run can move -----

  /** The outcome the environment owes a handler: the select's, and a deadline for the read. */
  function Due(s: S.Sess, cancelled: bool): S.Choice {
    match s.h
    case HCtx => if cancelled then S.Fail else S.Yes
    case HRecv => if s.connOpen then S.Got(S.TimedOut) else S.Got(S.OtherError)
    case _ => S.Yes
  }

  /** The handler waits for the receiver. */
  predicate WaitsForReceiver(s: S.Sess) { s.h == S.HScWait(true) && s.doneCloses == 0 }

  /** A handler in Run can move, or its own worker can: it holds the mutex, or is waited for. */
  predicate CanMove(s: S.Sess, cancelled: bool) {
    && SelectOk(s, Due(s, cancelled), cancelled)
    && (if WaitsForReceiver(s) || s.holder == S.ByWorker then S.WStep(s, S.Yes).Some?
        else S.HStep(s, Due(s, cancelled)).Some?)
  }

  lemma SessionCanMove(s: S.Sess, cancelled: bool)
    requires SessionInvariant.Inv(s) && s.h != S.HDone
    ensures CanMove(s, cancelled)
  {
    if WaitsForReceiver(s) { SessionTheorems.WaitingWorkerMoves(s, S.Worker(S.Yes)); }
  }

  lemma ReturnStep(h: Host, t: nat)
    requires Runs(h, t) && h.sessions[t].h == S.HDone
    ensures HostStep(h, Serve(Go(t, true), false)) == Some(h.(v := To(h.v, t, Release)))
  {
  }

  lemma HandleStep(h: Host, t: nat, c: S.Choice)
    requires Runs(h, t) && SelectOk(h.sessions[t], c, h.v.cancelled) && S.HStep(h.sessions[t], c).Some?
    ensures HostStep(h, Handle(t, c)) == Some(h.(sessions := h.sessions[t := S.HStep(h.sessions[t], c).value]))
  {
  }

  lemma WorkStep(h: Host, t: nat, c: S.Choice)
    requires t in h.sessions && S.WStep(h.sessions[t], c).Some?
    ensures HostStep(h, Work(t, c)) == Some(h.(sessions := h.sessions[t := S.WStep(h.sessions[t], c).value]))
  {
  }

  /** The next step of a goroutine in Run: the end of Run, or the handler's. */
  function OwnNext(h: Host, t: nat): (a: HostAct)
    requires Runs(h, t)
    ensures OwnTurn(a, t)
  {
    if h.sessions[t].h == S.HDone then Serve(Go(t, true), false) else Handle(t, Due(h.sessions[t], h.v.cancelled))
  }

  lemma MovesOn(h: Host, t: nat) returns (a: HostAct)
    requires Runs(h, t) && (h.sessions[t].h == S.HDone || CanMove(h.sessions[t], h.v.cancelled))
    ensures HostStep(h, a).Some?
    ensures a == OwnNext(h, t)
      || (a == Work(t, S.Yes) && (h.sessions[t].holder == S.ByWorker || WaitsForReceiver(h.sessions[t])))
  {
    var s := h.sessions[t];
    if s.h == S.HDone {
      ReturnStep(h, t);
      a := Serve(Go(t, true), false);
    } else if WaitsForReceiver(s) || s.holder == S.ByWorker {
      WorkStep(h, t, S.Yes);
      a := Work(t, S.Yes);
    } else {
      HandleStep(h, t, Due(s, h.v.cancelled));
      a := Handle(t, Due(s, h.v.cancelled));
    }
  }

  lemma RunCanMove(h: Host, t: nat) returns (a: HostAct)
    requires Sound(h.sessions) && Runs(h, t)
    ensures HostStep(h, a).Some?
    ensures a == OwnNext(h, t)
      || (a == Work(t, S.Yes) && (h.sessions[t].holder == S.ByWorker || WaitsForReceiver(h.sessions[t])))
  {
    SessionInv(h, t);
    if h.sessions[t].h != S.HDone { SessionCanMove(h.sessions[t], h.v.cancelled); }
    a := MovesOn(h, t);
  }

  lemma StoppingDoesNotWait(s: S.Sess)
    requires SessionInvariant.Inv(s) && Stopping(s)
    ensures !WaitsForReceiver(s)
  {
  }

  /** Until it has freed the slot, such a goroutine can take a step, or its own worker holds the
      mutex and can. */
  lemma StoppedSessionIsNotStuck(h: Host, t: nat) returns (a: HostAct)
    requires Reachable(h) && Releasing(h, t)
    ensures HostStep(h, a).Some?
    ensures OwnTurn(a, t) || (a == Work(t, S.Yes) && h.sessions[t].holder == S.ByWorker)
  {
    ReachableInv(h);
    if h.v.threads[t] == InRun {
      SessionInv(h, t);
      StoppingDoesNotWait(h.sessions[t]);
      a := RunCanMove(h, t);
    } else {
      a := Serve(Go(t, true), false);
    }
  }
}
