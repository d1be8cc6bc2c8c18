/** The senders and receivers of the hosted sessions, which Close does not wait for: what they can
    still do once it has returned. */
module HostWorkers {
  import opened Protocol
  import opened Server
  import opened Host
  import S = Session
  import SessionInvariant
  import SessionTheorems
  import opened SessionEnds
  import ServerTheorems
  import opened HostShutdown

  /** The session is over: its handler has returned, or it lost the slot and never ran. */
  predicate Over(s: S.Sess) { s.h == S.HDone || (s.h == S.HInit && s.w == S.WIdle) }

  ghost predicate AfterClose(h: Host) { HostInv(h) && h.v.close == Returned }

  lemma AllOver(h: Host, id: nat)
    requires AfterClose(h) && id in h.sessions
    ensures Over(h.sessions[id]) && (h.sessions[id].h == S.HDone ==> !h.sessions[id].connOpen)
  {
    SessionInv(h, id);
  }

  /** Once Close has returned, sessions change by their workers' steps only. */
  lemma OnlyWorkersMove(h: Host, a: HostAct)
    requires AfterClose(h) && HostStep(h, a).Some?
    ensures AfterClose(HostStep(h, a).value)
    ensures !a.Work? ==> HostStep(h, a).value.sessions == h.sessions
    ensures a.Work? ==> HostStep(h, a).value.v == h.v
  {
    hide Step, S.Step;
    HostStepInv(h, a);
    if a.Serve? { StaysReturned(h.v, a.a); }
  }

  lemma StaysReturned(v: Server, b: Act)
    requires Inv(v) && v.close == Returned && Step(v, b).Some?
    ensures Step(v, b).value.close == Returned && !At(v, b, Swap) && !At(v, b, Leaving)
  {
  }

  /** A worker neither comes to life nor writes to a closed connection. */
  lemma OverWorker(s: S.Sess, c: S.Choice)
    requires Over(s) && S.WStep(s, c).Some? && !s.connOpen
    ensures Live(s.w) && S.WStep(s, c).value.out == s.out
  {
  }

  /** Nothing about a session has come to life between h and h'. */
  ghost predicate Dies(h: Host, h': Host) {
    && h'.sessions.Keys == h.sessions.Keys
    && forall id :: id in h.sessions ==>
         && (Live(h'.sessions[id].w) ==> Live(h.sessions[id].w))
         && h'.sessions[id].h == h.sessions[id].h
         && h'.sessions[id].out == h.sessions[id].out
  }

  lemma DiesStep(h: Host, a: HostAct)
    requires AfterClose(h) && HostStep(h, a).Some?
    ensures Dies(h, HostStep(h, a).value)
  {
    hide S.WStep, HostInv;
    OnlyWorkersMove(h, a);
    if a.Work? {
      var s := h.sessions[a.id];
      AllOver(h, a.id);
      WorkerKeepsPosition(s, a.c);
      IdleStays(s, a.c);
      OverWorker(s, a.c);
    }
  }

  lemma IdleStays(s: S.Sess, c: S.Choice)
    requires S.WStep(s, c).Some?
    ensures Live(s.w)
  {
  }

  /** After Close has returned no session is created, no sender or receiver is started, and nothing
      more is written to any client, in any continuation. */
  lemma {:induction false} NothingStartsAfterClose(h: Host, acts: seq<HostAct>)
    requires AfterClose(h) && HostExec(h, acts).Some?
    ensures Dies(h, HostExec(h, acts).value)
    decreases |acts|
  {
    hide HostInv;
    if acts != [] {
      DiesStep(h, acts[0]);
      OnlyWorkersMove(h, acts[0]);
      NothingStartsAfterClose(HostStep(h, acts[0]).value, acts[1..]);
    }
  }

  // ----- how long they go on -----

  function WorkSteps(acts: seq<HostAct>, id: nat): nat {
    if acts == [] then 0 else (if acts[0].Work? && acts[0].id == id then 1 else 0) + WorkSteps(acts[1..], id)
  }

  /** No schedule has more than n steps of session id's goroutine. */
  ghost predicate WorksWithin(h: Host, id: nat, n: nat) {
    forall acts: seq<HostAct> :: HostExec(h, acts).Some? ==> WorkSteps(acts, id) <= n
  }

  lemma WorkFalls(h: Host, a: HostAct, id: nat)
    requires AfterClose(h) && HostStep(h, a).Some? && id in h.sessions && !Endless(h.sessions[id])
    ensures var h' := HostStep(h, a).value;
      && id in h'.sessions && !Endless(h'.sessions[id])
      && WorkLeft(h'.sessions[id]) + (if a.Work? && a.id == id then 1 else 0) <= WorkLeft(h.sessions[id])
  {
    hide S.WStep, HostInv;
    OnlyWorkersMove(h, a);
    AllOver(h, id);
    if a.Work? && a.id == id {
      IdleStays(h.sessions[id], a.c);
      InvOf(h, id);
      EndedWorkerFalls(h.sessions[id], a.c);
    }
  }

  lemma InvOf(h: Host, id: nat)
    requires HostInv(h) && id in h.sessions
    ensures SessionInvariant.Inv(h.sessions[id])
  {
    SessionInv(h, id);
  }

  lemma {:induction false} WorkRun(h: Host, acts: seq<HostAct>, id: nat)
    requires AfterClose(h) && HostExec(h, acts).Some? && id in h.sessions && !Endless(h.sessions[id])
    ensures WorkSteps(acts, id) <= WorkLeft(h.sessions[id])
    decreases |acts|
  {
    hide HostInv;
    if acts != [] {
      WorkFalls(h, acts[0], id);
      OnlyWorkersMove(h, acts[0]);
      WorkRun(HostStep(h, acts[0]).value, acts[1..], id);
    }
  }

  lemma EndlessWork(h: Host, id: nat) returns (a: HostAct)
    requires AfterClose(h) && id in h.sessions && Endless(h.sessions[id])
    ensures a.Work? && a.id == id && HostStep(h, a).Some?
    ensures id in HostStep(h, a).value.sessions && Endless(HostStep(h, a).value.sessions[id])
  {
    hide S.WStep, HostInv;
    AllOver(h, id);
    InvOf(h, id);
    var s := h.sessions[id];
    EndlessStep(s);
    a := Work(id, Polling(s));
    WorkStep(h, id, Polling(s));
  }

  lemma {:induction false} EndlessWorkRun(h: Host, id: nat, n: nat) returns (acts: seq<HostAct>)
    requires AfterClose(h) && id in h.sessions && Endless(h.sessions[id])
    ensures HostExec(h, acts).Some? && WorkSteps(acts, id) == n
    decreases n
  {
    hide HostInv, Endless;
    if n == 0 { return []; }
    var a := EndlessWork(h, id);
    OnlyWorkersMove(h, a);
    var rest := EndlessWorkRun(HostStep(h, a).value, id, n - 1);
    acts := [a] + rest;
    assert acts[1..] == rest;
  }

  /** After Close has returned a session's goroutine has a bounded number of steps left, whatever else
      runs, if and only if it is not a receiver that nothing will stop. */
  lemma OutlivingWorkerIsBounded(h: Host, id: nat)
    requires Reachable(h) && h.v.close == Returned && id in h.sessions
    ensures (exists n: nat :: WorksWithin(h, id, n)) <==> !Endless(h.sessions[id])
  {
    hide HostInv, Endless, WorkLeft;
    ReachableInv(h);
    if Endless(h.sessions[id]) {
      forall n: nat ensures !WorksWithin(h, id, n) {
        var acts := EndlessWorkRun(h, id, n + 1);
      }
    } else {
      forall acts: seq<HostAct> | HostExec(h, acts).Some? ensures WorkSteps(acts, id) <= WorkLeft(h.sessions[id]) {
        WorkRun(h, acts, id);
      }
      assert WorksWithin(h, id, WorkLeft(h.sessions[id]));
    }
  }

  // ----- nothing at all -----

  /** No accept loop, no connection handler, no sender and no receiver. */
  ghost predicate Silent(h: Host) {
    h.v.threads == map[] && forall id :: id in h.sessions ==> !Live(h.sessions[id].w)
  }

  lemma SilentStep(h: Host, a: HostAct)
    requires AfterClose(h) && h.v.closed && Silent(h) && !ServerTheorems.Pending(h.v) && HostStep(h, a).Some?
    ensures var h' := HostStep(h, a).value;
      AfterClose(h') && h'.v.closed && Silent(h') && !ServerTheorems.Pending(h'.v)
  {
    hide S.WStep, Dies;
    OnlyWorkersMove(h, a);
    if a.Serve? { ServerTheorems.ClosedStep(h.v, a.a); }
    if a.Work? { IdleStays(h.sessions[a.id], a.c); }
  }

  lemma {:induction false} StaysSilent(h: Host, acts: seq<HostAct>)
    requires AfterClose(h) && h.v.closed && Silent(h) && !ServerTheorems.Pending(h.v) && HostExec(h, acts).Some?
    ensures Silent(HostExec(h, acts).value)
    decreases |acts|
  {
    hide HostInv, Silent;
    if acts != [] {
      SilentStep(h, acts[0]);
      StaysSilent(HostStep(h, acts[0]).value, acts[1..]);
    }
  }

  lemma PendingSounds(h: Host, t: nat)
    requires t in h.v.starts && h.v.starts[t] == StartAdd
    ensures exists acts: seq<HostAct> :: HostExec(h, acts).Some? && !Silent(HostExec(h, acts).value)
  {
    var a, none: seq<HostAct> := Serve(StartStep(t, true), false), [];
    HostExecAppend(h, none, a);
    ServerTheorems.PendingLaunches(h.v, t);
    assert HostStep(h, a).value.v == DoStart(h.v, t, true);
    assert !Silent(HostExec(h, none + [a]).value);
  }

  /** Once Close has returned, nothing of the server ever runs again, if and only if nothing runs now
      and no Start is between its unlock and its wg.Add(1). */
  lemma SilentAfterClose(h: Host)
    requires Reachable(h) && h.v.close == Returned
    ensures (forall acts: seq<HostAct> :: HostExec(h, acts).Some? ==> Silent(HostExec(h, acts).value))
            <==> Silent(h) && !ServerTheorems.Pending(h.v)
  {
    ReachableInv(h);
    assert HostExec(h, []) == Some(h);
    hide HostInv, Silent, HostStep;
    if ServerTheorems.Pending(h.v) {
      var t :| t in h.v.starts && h.v.starts[t] == StartAdd;
      PendingSounds(h, t);
    } else if Silent(h) {
      forall acts: seq<HostAct> | HostExec(h, acts).Some? ensures Silent(HostExec(h, acts).value) {
        StaysSilent(h, acts);
      }
    }
  }
}
