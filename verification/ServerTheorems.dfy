/** What holds of the server in every run. */
module ServerTheorems {
  import opened Protocol
  import opened Server

  ghost predicate Reachable(v: Server) {
    exists acts: seq<Act> :: Exec(Initial(), acts) == Some(v)
  }

  lemma {:induction false} ExecInv(v: Server, acts: seq<Act>)
    requires Inv(v) && Exec(v, acts).Some?
    ensures Inv(Exec(v, acts).value)
    decreases |acts|
  {
    if acts != [] {
      StepInv(v, acts[0]);
      ExecInv(Step(v, acts[0]).value, acts[1..]);
    }
  }

  lemma ReachableInv(v: Server)
    requires Reachable(v)
    ensures Inv(v)
  {
    var acts: seq<Act> :| Exec(Initial(), acts) == Some(v);
    ExecInv(Initial(), acts);
  }

  lemma {:induction false} ExecAppend(v: Server, acts: seq<Act>, a: Act)
    requires Exec(v, acts).Some?
    ensures Exec(v, acts + [a]) == Step(Exec(v, acts).value, a)
    decreases |acts|
  {
    if acts == [] {
      assert [a][1..] == [];
    } else {
      assert (acts + [a])[1..] == acts[1..] + [a];
      ExecAppend(Step(v, acts[0]).value, acts[1..], a);
    }
  }

  lemma ReachStep(v: Server, a: Act) returns (v': Server)
    requires Reachable(v) && Step(v, a).Some?
    ensures Reachable(v') && v' == Step(v, a).value
  {
    var acts: seq<Act> :| Exec(Initial(), acts) == Some(v);
    ExecAppend(Initial(), acts, a);
    v' := Step(v, a).value;
  }

  /** A goroutine is between acquire and release exactly when the slot holds its own session, so
      there is at most one; and the compare-and-swap that releases the slot always succeeds. */
  lemma OneActiveSession(v: Server, t: nat, u: nat)
    requires Reachable(v) && t in v.threads && u in v.threads
    ensures InRegion(v.threads[t]) <==> v.slot == Some(t)
    ensures InRegion(v.threads[t]) && InRegion(v.threads[u]) ==> t == u
    ensures v.threads[t].Release? ==> DoConn(v, t).value.slot == None
    ensures v.slot.Some? ==> v.slot.value in v.threads && InRegion(v.threads[v.slot.value])
  {
    ReachableInv(v);
  }

  // ----- busy replies -----

  /** Step k of the run is the load of a refused goroutine, and it finds x in the slot. */
  ghost predicate LoadFinds(acts: seq<Act>, k: nat, x: Option<nat>) {
    && k < |acts| && acts[k].Go? && Exec(Initial(), acts[..k]).Some?
    && var v := Exec(Initial(), acts[..k]).value;
       acts[k].t in v.threads && v.threads[acts[k].t] == Load && v.slot == x
  }

  lemma LoadFindsLater(acts: seq<Act>, n: nat, k: nat, x: Option<nat>)
    requires n <= |acts| && LoadFinds(acts[..n], k, x)
    ensures LoadFinds(acts, k, x)
  {
    assert acts[..n][..k] == acts[..k];
  }

  /** Only a load makes a goroutine ready to reply, and only such a goroutine replies. */
  lemma ReplyStep(v: Server, a: Act, t: nat)
    requires Step(v, a).Some?
    ensures var v' := Step(v, a).value;
      && (t in v'.threads && v'.threads[t].BusyReply? ==>
            || (t in v.threads && v.threads[t] == v'.threads[t])
            || (a.Go? && a.t == t && t in v.threads && v.threads[t] == Load && v'.threads[t].current == v.slot))
      && (v'.busy == v.busy
          || (a.Go? && a.t in v.threads && v.threads[a.t].BusyReply?
              && v'.busy == v.busy + [Reply(a.t, v.threads[a.t].current)]))
  {
    if a.Go? { ReplyGo(v, a.t, a.ok, t); }
  }

  lemma ReplyGo(v: Server, u: nat, ok: bool, t: nat)
    requires Step(v, Go(u, ok)).Some?
    ensures var v' := Step(v, Go(u, ok)).value;
      && (t in v'.threads && v'.threads[t].BusyReply? ==>
            || (t in v.threads && v.threads[t] == v'.threads[t])
            || (u == t && v.threads[t] == Load && v'.threads[t].current == v.slot))
      && (v'.busy == v.busy || (v.threads[u].BusyReply? && v'.busy == v.busy + [Reply(u, v.threads[u].current)]))
  {
  }

  lemma SplitLast(acts: seq<Act>) returns (v: Server)
    requires acts != [] && Exec(Initial(), acts).Some?
    ensures Exec(Initial(), acts[..|acts| - 1]) == Some(v) && Step(v, acts[|acts| - 1]) == Exec(Initial(), acts)
  {
    var n := |acts| - 1;
    ExecPrefix(Initial(), acts, n);
    v := Exec(Initial(), acts[..n]).value;
    ExecAppend(Initial(), acts[..n], acts[n]);
    assert acts == acts[..n] + [acts[n]];
  }

  lemma {:induction false} ExecPrefix(v: Server, acts: seq<Act>, n: nat)
    requires n <= |acts| && Exec(v, acts).Some?
    ensures Exec(v, acts[..n]).Some?
    decreases n
  {
    if n > 0 {
      assert acts[..n][1..] == acts[1..][..n - 1];
      ExecPrefix(Step(v, acts[0]).value, acts[1..], n - 1);
    }
  }

  /** What a goroutine is about to reply is what its load found. */
  lemma {:induction false} ReplyWasLoaded(acts: seq<Act>, t: nat) returns (k: nat)
    requires Exec(Initial(), acts).Some?
    requires t in Exec(Initial(), acts).value.threads && Exec(Initial(), acts).value.threads[t].BusyReply?
    ensures LoadFinds(acts, k, Exec(Initial(), acts).value.threads[t].current)
    decreases |acts|
  {
    var n := |acts| - 1;
    var v := SplitLast(acts);
    ReplyStep(v, acts[n], t);
    if t in v.threads && v.threads[t].BusyReply? {
      k := ReplyWasLoaded(acts[..n], t);
      LoadFindsLater(acts, n, k, v.threads[t].current);
    } else {
      k := n;
    }
  }

  lemma {:induction false} BusyWasLoaded(acts: seq<Act>, i: nat) returns (k: nat)
    requires Exec(Initial(), acts).Some? && i < |Exec(Initial(), acts).value.busy|
    ensures LoadFinds(acts, k, Exec(Initial(), acts).value.busy[i].named)
    decreases |acts|
  {
    var n := |acts| - 1;
    var v := SplitLast(acts);
    ReplyStep(v, acts[n], 0);
    if i < |v.busy| {
      k := BusyWasLoaded(acts[..n], i);
      LoadFindsLater(acts, n, k, v.busy[i].named);
    } else {
      k := ReplyWasLoaded(acts[..n], acts[n].t);
      LoadFindsLater(acts, n, k, v.threads[acts[n].t].current);
    }
  }

  /** In every run, each Busy reply names exactly what was in the slot when the refused goroutine
      loaded it: no session, or another goroutine's that was between acquire and release. */
  lemma BusyNamesTheOccupant(acts: seq<Act>, i: nat) returns (k: nat)
    requires Exec(Initial(), acts).Some? && i < |Exec(Initial(), acts).value.busy|
    ensures LoadFinds(acts, k, Exec(Initial(), acts).value.busy[i].named)
    ensures var v, named := Exec(Initial(), acts[..k]).value, Exec(Initial(), acts).value.busy[i].named;
      named.Some? ==> named.value != acts[k].t && named.value in v.threads && InRegion(v.threads[named.value])
  {
    k := BusyWasLoaded(acts, i);
    ExecInv(Initial(), acts[..k]);
  }

  /** Step k of the run is goroutine t's compare-and-swap, and it finds the slot taken. */
  ghost predicate Refused(acts: seq<Act>, k: nat, t: nat) {
    && k < |acts| && acts[k].Go? && acts[k].t == t && Exec(Initial(), acts[..k]).Some?
    && var v := Exec(Initial(), acts[..k]).value;
       t in v.threads && v.threads[t] == Swap && v.slot.Some?
  }

  /** Goroutine t's load is step j, after every refusal of t, and finds x. */
  ghost predicate Loaded(acts: seq<Act>, t: nat, j: nat, x: Option<nat>) {
    && LoadFinds(acts, j, x) && acts[j].t == t
    && forall k: nat :: Refused(acts, k, t) ==> k < j
  }

  /** What the client of goroutine t has been told. */
  function RepliesTo(busy: seq<Reply>, t: nat): seq<Option<nat>> {
    if busy == [] then []
    else
      var n := |busy| - 1;
      RepliesTo(busy[..n], t) + if busy[n].to == t then [busy[n].named] else []
  }

  lemma NextReply(busy: seq<Reply>, r: Reply, t: nat)
    ensures RepliesTo(busy + [r], t) == RepliesTo(busy, t) + if r.to == t then [r.named] else []
  {
    assert (busy + [r])[..|busy|] == busy;
  }

  function At(v: Server, t: nat): Option<GPc> { if t in v.threads then Some(v.threads[t]) else None }

  /** Between its refusal and its end. */
  predicate BeingRefused(at: Option<GPc>) { at.Some? && (at.value.Load? || at.value.BusyReply?) }

  predicate Gone(at: Option<GPc>) { at == None || at == Some(Leaving) }

  ghost predicate WasRefused(acts: seq<Act>, t: nat) { exists k: nat :: Refused(acts, k, t) }

  /** What goroutine t's client has been told fits where t is. */
  ghost predicate Told(acts: seq<Act>, t: nat, v: Server) {
    var at, replies := At(v, t), RepliesTo(v.busy, t);
    if !WasRefused(acts, t) then replies == [] && !BeingRefused(at)
    else
      || (replies == [] && at == Some(Load))
      || (replies == [] && at.Some? && at.value.BusyReply? && exists j: nat :: Loaded(acts, t, j, at.value.current))
      || (t < v.next && Gone(at) && exists j: nat, x :: Loaded(acts, t, j, x) && replies == [x])
  }

  lemma RefusedBefore(acts: seq<Act>, n: nat, k: nat, t: nat)
    requires n <= |acts| && k < n
    ensures Refused(acts, k, t) <==> Refused(acts[..n], k, t)
  {
    assert acts[..n][..k] == acts[..k];
  }

  /** What a step of goroutine t does to t. */
  lemma OwnStep(v: Server, t: nat, ok: bool)
    requires Inv(v) && Step(v, Go(t, ok)).Some?
    ensures var v', at, at' := Step(v, Go(t, ok)).value, v.threads[t], At(Step(v, Go(t, ok)).value, t);
      && v.next <= v'.next && t < v.next
      && v'.busy == v.busy + (if at.BusyReply? then [Reply(t, at.current)] else [])
      && (at == Swap && v.slot.Some? ==> at' == Some(Load))
      && (at == Load ==> at' == Some(BusyReply(v.slot)))
      && (at.BusyReply? || at.Leaving? ==> Gone(at'))
      && (BeingRefused(at') ==> at == Load || (at == Swap && v.slot.Some?))
  {
    if Serves(v.threads[t]) { ServeOwn(v, t, ok); } else { ConnOwn(v, t); }
  }

  lemma ServeOwn(v: Server, t: nat, ok: bool)
    requires Born(v) && t in v.threads && DoServe(v, t, ok).Some?
    ensures var v' := DoServe(v, t, ok).value;
      v.next <= v'.next && v'.busy == v.busy && !BeingRefused(At(v', t))
  {
    if v.threads[t].Spawning? { assert ChildOf(v, v.threads[t].child, t, false); }
  }

  lemma ConnOwn(v: Server, t: nat)
    requires t in v.threads && DoConn(v, t).Some?
    ensures var v', at, at' := DoConn(v, t).value, v.threads[t], At(DoConn(v, t).value, t);
      && v.next <= v'.next
      && v'.busy == v.busy + (if at.BusyReply? then [Reply(t, at.current)] else [])
      && (at == Swap && v.slot.Some? ==> at' == Some(Load))
      && (at == Load ==> at' == Some(BusyReply(v.slot)))
      && (at.BusyReply? || at.Leaving? ==> Gone(at'))
      && (BeingRefused(at') ==> at == Load || (at == Swap && v.slot.Some?))
  {
  }

  /** What other steps do to t. */
  ghost predicate LeavesAlone(v: Server, v': Server, t: nat) {
    var at, at' := At(v, t), At(v', t);
    && v.next <= v'.next
    && (BeingRefused(at) || at == Some(Leaving) || BeingRefused(at') ==> at' == at)
    && (at == None && t < v.next ==> at' == None)
    && (v'.busy == v.busy || exists r: Reply :: r.to != t && v'.busy == v.busy + [r])
  }

  lemma ServeOther(v: Server, u: nat, ok: bool, t: nat)
    requires Inv(v) && u in v.threads && DoServe(v, u, ok).Some? && u != t
    ensures LeavesAlone(v, DoServe(v, u, ok).value, t)
  {
    hide Shutdown;
    if v.threads[u].Spawning? { assert ChildOf(v, v.threads[u].child, u, false); }
  }

  lemma ConnOther(v: Server, u: nat, t: nat)
    requires u in v.threads && DoConn(v, u).Some? && u != t
    ensures LeavesAlone(v, DoConn(v, u).value, t)
  {
    if v.threads[u].BusyReply? { assert Reply(u, v.threads[u].current).to != t; }
  }

  lemma StartOther(v: Server, u: nat, ok: bool, t: nat)
    requires Inv(v) && u in v.starts
    ensures LeavesAlone(v, DoStart(v, u, ok), t)
  {
    if v.starts[u].StartGo? { assert ChildOf(v, v.starts[u].child, u, true); }
  }

  lemma OtherStep(v: Server, a: Act, t: nat)
    requires Inv(v) && Step(v, a).Some? && !(a.Go? && a.t == t)
    ensures LeavesAlone(v, Step(v, a).value, t)
  {
    hide LeavesAlone, DoServe, DoConn, DoStart;
    match a
    case Go(u, ok) => if Serves(v.threads[u]) { ServeOther(v, u, ok, t); } else { ConnOther(v, u, t); }
    case StartStep(u, ok) => StartOther(v, u, ok, t);
    case _ => CallOther(v, a, t);
  }

  lemma CallOther(v: Server, a: Act, t: nat)
    requires Step(v, a).Some? && !a.Go? && !a.StartStep?
    ensures LeavesAlone(v, Step(v, a).value, t)
  {
  }

  lemma LoadedLater(acts: seq<Act>, n: nat, t: nat, j: nat, x: Option<nat>)
    requires |acts| == n + 1 && Loaded(acts[..n], t, j, x) && !Refused(acts, n, t)
    ensures Loaded(acts, t, j, x)
  {
    LoadFindsLater(acts, n, j, x);
    forall k: nat | Refused(acts, k, t) ensures k < j { RefusedBefore(acts, n, k, t); }
  }

  lemma RefusedEarlier(acts: seq<Act>, n: nat, t: nat)
    requires |acts| == n + 1
    ensures WasRefused(acts, t) <==> Refused(acts, n, t) || WasRefused(acts[..n], t)
    ensures forall k: nat ::
      Refused(acts, k, t) <==> (k == n && Refused(acts, n, t)) || (k < n && Refused(acts[..n], k, t))
  {
    forall k: nat | k < n ensures Refused(acts, k, t) <==> Refused(acts[..n], k, t) { RefusedBefore(acts, n, k, t); }
  }

  lemma ToldOwnStep(acts: seq<Act>, n: nat, v: Server)
    requires |acts| == n + 1 && Exec(Initial(), acts[..n]) == Some(v) && Inv(v)
    requires acts[n].Go? && Step(v, acts[n]).Some? && Told(acts[..n], acts[n].t, v)
    ensures Told(acts, acts[n].t, Step(v, acts[n]).value)
  {
    var t, v' := acts[n].t, Step(v, acts[n]).value;
    var at := v.threads[t];
    OwnStep(v, t, acts[n].ok);
    RefusedEarlier(acts, n, t);
    assert Refused(acts, n, t) <==> at == Swap && v.slot.Some?;
    assert at == Load ==> LoadFinds(acts, n, v.slot);
    hide Step, Inv, Exec, Refused, LoadFinds;
    if at.BusyReply? || at.Leaving? {
      ToldAtTheEnd(acts, n, v, v', at);
    } else {
      assert v.busy + [] == v.busy;
      if at == Load { assert Loaded(acts, t, n, v.slot); }
    }
  }

  lemma ToldAtTheEnd(acts: seq<Act>, n: nat, v: Server, v': Server, at: GPc)
    requires |acts| == n + 1 && acts[n].Go? && Told(acts[..n], acts[n].t, v) && !Refused(acts, n, acts[n].t)
    requires At(v, acts[n].t) == Some(at) && (at.BusyReply? || at.Leaving?)
    requires v.next <= v'.next && acts[n].t < v.next && Gone(At(v', acts[n].t))
    requires v'.busy == v.busy + (if at.BusyReply? then [Reply(acts[n].t, at.current)] else [])
    ensures Told(acts, acts[n].t, v')
  {
    var t := acts[n].t;
    RefusedEarlier(acts, n, t);
    hide Exec, Refused, LoadFinds;
    if at.BusyReply? {
      NextReply(v.busy, Reply(t, at.current), t);
      var j: nat :| Loaded(acts[..n], t, j, at.current);
      LoadedLater(acts, n, t, j, at.current);
      assert RepliesTo(v'.busy, t) == [at.current];
    } else {
      assert v.busy + [] == v.busy;
      if j: nat, x :| Loaded(acts[..n], t, j, x) && RepliesTo(v.busy, t) == [x] { LoadedLater(acts, n, t, j, x); }
    }
  }

  lemma ToldOtherStep(acts: seq<Act>, n: nat, v: Server, t: nat)
    requires |acts| == n + 1 && Exec(Initial(), acts[..n]) == Some(v) && Inv(v)
    requires !(acts[n].Go? && acts[n].t == t) && Step(v, acts[n]).Some? && Told(acts[..n], t, v)
    ensures Told(acts, t, Step(v, acts[n]).value)
  {
    var v' := Step(v, acts[n]).value;
    OtherStep(v, acts[n], t);
    RefusedEarlier(acts, n, t);
    assert !Refused(acts, n, t);
    hide Step, Inv, Exec, Refused, LoadFinds;
    if r: Reply :| r.to != t && v'.busy == v.busy + [r] { NextReply(v.busy, r, t); }
    if j: nat, x :| Loaded(acts[..n], t, j, x) && (RepliesTo(v.busy, t) == [x] || At(v, t) == Some(BusyReply(x))) {
      LoadedLater(acts, n, t, j, x);
      assert Loaded(acts, t, j, x);
    }
  }

  lemma {:induction false} ToldAlways(acts: seq<Act>, t: nat)
    requires Exec(Initial(), acts).Some?
    ensures Told(acts, t, Exec(Initial(), acts).value)
    decreases |acts|
  {
    if acts != [] {
      var n := |acts| - 1;
      var v := SplitLast(acts);
      ExecInv(Initial(), acts[..n]);
      ToldAlways(acts[..n], t);
      if acts[n].Go? && acts[n].t == t { ToldOwnStep(acts, n, v); } else { ToldOtherStep(acts, n, v, t); }
    }
  }

  /** In every run, a client whose goroutine found the slot taken, and is no longer on its way to the
      reply, has been told Busy exactly once, with what the goroutine's own load found after that; and no
      other client is told Busy. */
  lemma EveryRefusalIsAnswered(acts: seq<Act>, t: nat)
    requires Exec(Initial(), acts).Some?
    ensures var v := Exec(Initial(), acts).value;
      if !WasRefused(acts, t) then RepliesTo(v.busy, t) == []
      else if t in v.threads && (v.threads[t].Load? || v.threads[t].BusyReply?) then RepliesTo(v.busy, t) == []
      else exists j: nat, x ::
        && LoadFinds(acts, j, x) && acts[j].t == t && RepliesTo(v.busy, t) == [x]
        && forall k: nat :: Refused(acts, k, t) ==> k < j
  {
    ToldAlways(acts, t);
    hide Exec, Refused;
    if j: nat, x :| Loaded(acts, t, j, x) && RepliesTo(Exec(Initial(), acts).value.busy, t) == [x] {
      assert LoadFinds(acts, j, x);
    }
  }

  // ----- shutdown -----

  /** The wait group counts the accept loops and connection handlers, so none is live at the moment
      Close returns; from then on no connection handler is ever live and the slot stays empty.  The
      senders and receivers of sessions are not among them. */
  lemma CloseQuiesces(v: Server)
    requires Reachable(v)
    ensures v.wg == |v.threads|
    ensures v.close == Waiting && DoClose(v).Some? ==> v.threads == map[]
    ensures v.close == Returned ==> v.slot == None && forall t :: t in v.threads ==> AcceptLoop(v.threads[t])
  {
    ReachableInv(v);
  }

  /** Some Start is between its unlock and its wg.Add(1). */
  ghost predicate Pending(v: Server) {
    exists t :: t in v.starts && v.starts[t] == StartAdd
  }

  /** A closed server lets no further Start past its check. */
  lemma ClosedStep(v: Server, a: Act)
    requires Inv(v) && v.closed && !Pending(v) && Step(v, a).Some?
    ensures var v' := Step(v, a).value;
      && v'.closed && !Pending(v')
      && (v.threads == map[] ==> v'.threads == map[])
      && (v.close == Returned ==> v'.close == Returned)
  {
    hide Slot, Shutdown;
    if a.StartStep? && v.starts[a.t].StartGo? { assert ChildOf(v, v.starts[a.t].child, a.t, true); }
  }

  lemma {:induction false} StaysQuiet(v: Server, acts: seq<Act>)
    requires Inv(v) && v.closed && !Pending(v) && v.threads == map[] && Exec(v, acts).Some?
    ensures Exec(v, acts).value.threads == map[]
    decreases |acts|
  {
    if acts != [] {
      ClosedStep(v, acts[0]);
      StepInv(v, acts[0]);
      StaysQuiet(Step(v, acts[0]).value, acts[1..]);
    }
  }

  /** A pending Start launches its accept loop whatever has happened in between. */
  lemma PendingLaunches(v: Server, t: nat)
    requires t in v.starts && v.starts[t] == StartAdd
    ensures Exec(v, [StartStep(t, true)]) == Some(DoStart(v, t, true))
    ensures DoStart(v, t, true).threads != map[]
  {
    assert [StartStep(t, true)][1..] == [];
    assert v.next in DoStart(v, t, true).threads;
  }

  /** Once Close has returned and no accept loop or connection handler is live, none ever will be, if
      and only if no Start is between its unlock and its wg.Add(1). */
  lemma QuietAfterClose(v: Server)
    requires Reachable(v) && v.close == Returned && v.threads == map[]
    ensures (forall acts: seq<Act> :: Exec(v, acts).Some? ==> Exec(v, acts).value.threads == map[]) <==> !Pending(v)
  {
    ReachableInv(v);
    if Pending(v) {
      var t :| t in v.starts && v.starts[t] == StartAdd;
      PendingLaunches(v, t);
      assert !forall acts: seq<Act> :: Exec(v, acts).Some? ==> Exec(v, acts).value.threads == map[];
    } else {
      forall acts: seq<Act> | Exec(v, acts).Some? ensures Exec(v, acts).value.threads == map[] {
        StaysQuiet(v, acts);
      }
    }
  }

  predicate Serving(v: Server, t: nat) { t in v.threads && Serves(v.threads[t]) }

  lemma ServingStep(v: Server, a: Act, t: nat)
    requires Inv(v) && Step(v, a).Some? && Serving(v, t)
    ensures var v' := Step(v, a).value; (v.cancelled ==> v'.cancelled) && (Serving(v', t) || v.cancelled)
  {
    CancelledStays(v, a);
    if !a.Go? {
      OtherEvolves(v, a);
    } else if a.t != t {
      GoEvolves(v, a.t, a.ok);
    } else {
      ServesOn(v, t, a.ok);
    }
  }

  lemma CancelledStays(v: Server, a: Act)
    requires Step(v, a).Some?
    ensures v.cancelled ==> Step(v, a).value.cancelled
  {
  }

  lemma ServesOn(v: Server, t: nat, ok: bool)
    requires Born(v) && Serving(v, t) && DoServe(v, t, ok).Some?
    ensures Serving(DoServe(v, t, ok).value, t) || v.cancelled
  {
    if v.threads[t].Spawning? { assert ChildOf(v, v.threads[t].child, t, false); }
  }

  /** An accept loop goes on, whatever fails, as long as the server's context is not cancelled. */
  lemma {:induction false} ServesUntilCancelled(v: Server, acts: seq<Act>, t: nat)
    requires Inv(v) && Serving(v, t) && Exec(v, acts).Some?
    ensures Serving(Exec(v, acts).value, t) || Exec(v, acts).value.cancelled
    decreases |acts|
  {
    hide Inv, Step, Serving;
    if acts != [] {
      var v' := Step(v, acts[0]).value;
      StepInv(v, acts[0]);
      ServingStep(v, acts[0], t);
      if Serving(v', t) { ServesUntilCancelled(v', acts[1..], t); } else { CancelledRun(v', acts[1..]); }
    }
  }

  lemma {:induction false} CancelledRun(v: Server, acts: seq<Act>)
    requires v.cancelled && Exec(v, acts).Some?
    ensures Exec(v, acts).value.cancelled
    decreases |acts|
  {
    hide Step;
    if acts != [] {
      CancelledStays(v, acts[0]);
      CancelledRun(Step(v, acts[0]).value, acts[1..]);
    }
  }

  /** Start t has passed its check; its accept loop will have a number from n on. */
  predicate Launching(v: Server, t: nat, n: nat) {
    && t in v.starts && n <= v.next
    && match v.starts[t] case StartLock => false case StartAdd => true case StartGo(child) => n <= child
  }

  lemma LaunchStep(v: Server, a: Act, t: nat, n: nat) returns (c: nat)
    requires Inv(v) && Launching(v, t, n) && Step(v, a).Some?
    ensures Launching(Step(v, a).value, t, n) || (n <= c && Serving(Step(v, a).value, c))
  {
    hide Slot, Shutdown;
    c := if v.starts[t].StartGo? then v.starts[t].child else 0;
  }

  lemma {:induction false} LaunchServes(v: Server, acts: seq<Act>, t: nat, n: nat)
    requires Inv(v) && Launching(v, t, n) && Exec(v, acts).Some?
    ensures var w := Exec(v, acts).value;
      Launching(w, t, n) || w.cancelled || exists c: nat :: n <= c && Serving(w, c)
    decreases |acts|
  {
    hide Inv, Step, Serving, Launching;
    if acts != [] {
      var v' := Step(v, acts[0]).value;
      StepInv(v, acts[0]);
      var c := LaunchStep(v, acts[0], t, n);
      if Launching(v', t, n) { LaunchServes(v', acts[1..], t, n); }
      else { ServesUntilCancelled(v', acts[1..], c); }
    }
  }

  /** A Start fails exactly when the server is closed or cannot listen, and then changes nothing else.
      Any other leads, in every schedule without a cancellation, to a new accept loop that goes on. */
  lemma StartServes(v: Server, t: nat, ok: bool, acts: seq<Act>)
    requires Inv(v) && t in v.starts && v.starts[t] == StartLock && Exec(DoStart(v, t, ok), acts).Some?
    ensures v.closed || (v.listener == NoListener && !ok) ==> DoStart(v, t, ok) == v.(starts := v.starts - {t})
    ensures !v.closed && (v.listener == NoListener ==> ok) ==>
      var w := Exec(DoStart(v, t, ok), acts).value;
      Launching(w, t, v.next) || w.cancelled || exists c: nat :: v.next <= c && Serving(w, c)
  {
    hide Exec;
    if !v.closed && (v.listener == NoListener ==> ok) {
      StartInv(v, t, ok);
      LaunchServes(DoStart(v, t, ok), acts, t, v.next);
    }
  }

  lemma {:induction false} ReturnedIsFinal(v: Server, acts: seq<Act>)
    requires v.close == Returned && v.closed && Exec(v, acts).Some?
    ensures Exec(v, acts).value.close == Returned
    decreases |acts|
  {
    if acts != [] {
      var v' := Step(v, acts[0]).value;
      assert v'.close == Returned && v'.closed;
      ReturnedIsFinal(v', acts[1..]);
    }
  }

  /** Such a run exists: a Start that passed its check before Close took the lock launches its
      accept loop after Close has returned. */
  lemma OverlappingStartOutlivesClose() returns (v: Server)
    ensures Reachable(v) && v.close == Returned && v.threads != map[]
  {
    v := Initial();
    assert Exec(Initial(), []) == Some(v);
    v := ReachStep(v, CallStart);
    v := ReachStep(v, StartStep(0, true));
    assert 0 in v.starts && v.starts[0] == StartAdd;
    v := ReachStep(v, CallClose);
    v := ReachStep(v, CloseStep);
    v := ReachStep(v, CloseStep);
    v := ReachStep(v, CloseStep);
    PendingLaunches(v, 0);
    v := ReachStep(v, StartStep(0, true));
  }
}
