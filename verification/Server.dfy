/** The control server: any number of connection goroutines compete for one session slot, while
    Start and Close may be called at any time.  A connection handler creates exactly one session,
    so a session is named by the number of its handler. */
module Server {
  import opened Protocol

  /** Goroutines counted by the wait group: accept loops and connection handlers. */
  datatype GPc =
    | Unstarted(parent: nat, serve: bool)  // wg.Add(1) done by the parent, its go statement still to come
    | Accepting                        // serve: listener.Accept
    | AcceptFailed                     // serve: select on ctx.Done()
    | Adding                           // serve: wg.Add(1)
    | Spawning(child: nat)             // serve: go handleConn
    | Swap                             // tryAcquireSession: compare-and-swap
    | Load                             // ... and the load after a failed one
    | BusyReply(current: Option<nat>)
    | InRun                            // session.Run
    | Release                          // releaseSession: compare-and-swap
    | Leaving                          // conn.Close, wg.Done

  /** A Start holds the lock, is between its unlock and wg.Add(1), or is about to start its loop. */
  datatype StartPc = StartLock | StartAdd | StartGo(child: nat)

  datatype ClosePc = NotCalled | Cancelling | ClosingListener | Waiting | Returned

  datatype Listener = NoListener | Open | Shut

  /** A Busy reply, to the client of goroutine `to`. */
  datatype Reply = Reply(to: nat, named: Option<nat>)

  datatype Server = Server(
    slot: Option<nat>,                 // the active session
    wg: int,
    closed: bool,
    cancelled: bool,
    listener: Listener,
    threads: map<nat, GPc>,
    starts: map<nat, StartPc>,         // Start calls in progress
    close: ClosePc,                    // the Close call that found the server open
    next: nat,                         // fresh numbers
    busy: seq<Reply>)                  // history: the Busy replies

  datatype Act =
    | CallStart
    | StartStep(t: nat, ok: bool)
    | CallClose | CloseStep
    | Go(t: nat, ok: bool)             // a goroutine

  function Initial(): Server {
    Server(None, 0, false, false, NoListener, map[], map[], NotCalled, 0, [])
  }

  // ----- steps -----

  function To(v: Server, t: nat, pc: GPc): Server { v.(threads := v.threads[t := pc]) }

  function Add(v: Server, parent: nat, serve: bool): Server {
    v.(wg := v.wg + 1, threads := v.threads[v.next := Unstarted(parent, serve)], next := v.next + 1)
  }

  function Exit(v: Server, t: nat): Server { v.(wg := v.wg - 1, threads := v.threads - {t}) }

  function DoStart(v: Server, t: nat, ok: bool): Server
    requires t in v.starts
  {
    match v.starts[t]
    case StartLock =>
      if v.closed || (v.listener == NoListener && !ok) then v.(starts := v.starts - {t})
      else v.(listener := if v.listener == NoListener then Open else v.listener,
              starts := v.starts[t := StartAdd])
    case StartAdd => Add(v, t, true).(starts := v.starts[t := StartGo(v.next)])
    case StartGo(child) => To(v, child, Accepting).(starts := v.starts - {t})
  }

  function DoCallClose(v: Server): Server {
    if v.closed then v else v.(closed := true, close := Cancelling)
  }

  function DoClose(v: Server): Option<Server> {
    match v.close
    case Cancelling => Some(v.(cancelled := true, close := ClosingListener))
    case ClosingListener => Some(v.(listener := if v.listener == Open then Shut else v.listener, close := Waiting))
    case Waiting => if v.wg == 0 then Some(v.(close := Returned)) else None
    case _ => None
  }

  /** Accept loops. */
  function DoServe(v: Server, t: nat, ok: bool): Option<Server>
    requires t in v.threads
  {
    match v.threads[t]
    case Accepting =>
      if !ok then Some(To(v, t, AcceptFailed))
      else if v.listener == Open then Some(To(v, t, Adding)) else None
    case AcceptFailed => Some(if v.cancelled then Exit(v, t) else To(v, t, Accepting))
    case Adding => Some(To(Add(v, t, false), t, Spawning(v.next)))
    case Spawning(child) => Some(To(To(v, child, Swap), t, Accepting))
    case _ => None
  }

  /** Connection handlers; session.Run returns at any time. */
  function DoConn(v: Server, t: nat): Option<Server>
    requires t in v.threads
  {
    match v.threads[t]
    case Swap => Some(if v.slot == None then To(v, t, InRun).(slot := Some(t)) else To(v, t, Load))
    case Load => Some(To(v, t, BusyReply(v.slot)))
    case BusyReply(current) => Some(To(v, t, Leaving).(busy := v.busy + [Reply(t, current)]))
    case InRun => Some(To(v, t, Release))
    case Release => Some(To(v, t, Leaving).(slot := if v.slot == Some(t) then None else v.slot))
    case Leaving => Some(Exit(v, t))
    case _ => None
  }

  predicate Serves(pc: GPc) { pc.Accepting? || pc.AcceptFailed? || pc.Adding? || pc.Spawning? }

  /** One step of the server; None when the action is not possible. */
  function Step(v: Server, a: Act): Option<Server> {
    match a
    case CallStart => Some(v.(starts := v.starts[v.next := StartLock], next := v.next + 1))
    case StartStep(t, ok) => if t in v.starts then Some(DoStart(v, t, ok)) else None
    case CallClose => Some(DoCallClose(v))
    case CloseStep => DoClose(v)
    case Go(t, ok) =>
      if t !in v.threads then None
      else if Serves(v.threads[t]) then DoServe(v, t, ok)
      else DoConn(v, t)
  }

  function Exec(v: Server, acts: seq<Act>): Option<Server>
    decreases |acts|
  {
    if acts == [] then Some(v)
    else
      match Step(v, acts[0])
      case None => None
      case Some(v') => Exec(v', acts[1..])
  }

  // ----- invariant -----

  /** Between a successful acquire and the release. */
  predicate InRegion(pc: GPc) { pc.InRun? || pc.Release? }

  ghost predicate Slot(v: Server) {
    && (forall t :: t in v.threads ==> t < v.next && (InRegion(v.threads[t]) <==> v.slot == Some(t)))
    && (v.slot.Some? ==> v.slot.value in v.threads)
  }

  ghost predicate ParentOf(v: Server, child: nat, parent: nat, serve: bool) {
    if serve then parent in v.starts && v.starts[parent] == StartGo(child)
    else parent in v.threads && v.threads[parent] == Spawning(child)
  }

  ghost predicate ChildOf(v: Server, child: nat, parent: nat, serve: bool) {
    child in v.threads && v.threads[child] == Unstarted(parent, serve)
  }

  /** A go statement still to come belongs to exactly one goroutine that the wait group counts. */
  ghost predicate Born(v: Server) {
    && (forall c :: c in v.threads && v.threads[c].Unstarted? ==>
          ParentOf(v, c, v.threads[c].parent, v.threads[c].serve))
    && (forall t :: t in v.threads && v.threads[t].Spawning? ==> ChildOf(v, v.threads[t].child, t, false))
    && (forall t :: t in v.starts && v.starts[t].StartGo? ==> ChildOf(v, v.starts[t].child, t, true))
    && (forall t :: t in v.starts ==> t < v.next)
  }

  predicate AcceptLoop(pc: GPc) { (pc.Unstarted? && pc.serve) || pc.Accepting? || pc.AcceptFailed? }

  /** The wait group counts exactly the live goroutines, and closing is irrevocable. */
  ghost predicate Shutdown(v: Server) {
    && v.wg == |v.threads|
    && (v.close == NotCalled <==> !v.closed)
    && (v.close == ClosingListener || v.close == Waiting || v.close == Returned <==> v.cancelled)
    && (v.close == Waiting || v.close == Returned ==> v.listener != Open)
    && (v.listener == Shut ==> v.close == Waiting || v.close == Returned)
    && (forall t :: t in v.starts && v.starts[t] != StartLock ==> v.listener != NoListener)
    && (v.close == Returned ==> forall t :: t in v.threads ==> AcceptLoop(v.threads[t]))
  }

  ghost predicate Inv(v: Server) { Slot(v) && Born(v) && Shutdown(v) }

  lemma RemoveOne(m: map<nat, GPc>, t: nat)
    requires t in m
    ensures |m - {t}| == |m| - 1
  {
    assert (m - {t}).Keys == m.Keys - {t};
  }

  // ----- the ways a step touches the goroutines -----

  /** A position that is tied neither to the slot nor to another goroutine. */
  predicate Plain(pc: GPc) { !InRegion(pc) && !pc.Unstarted? && !pc.Spawning? }

  lemma ToBorn(v: Server, t: nat, pc: GPc)
    requires Born(v) && t in v.threads
    requires !pc.Unstarted? && !pc.Spawning? && !v.threads[t].Unstarted? && !v.threads[t].Spawning?
    ensures Born(To(v, t, pc))
  {
  }

  lemma ToInv(v: Server, t: nat, pc: GPc)
    requires Inv(v) && t in v.threads && Plain(pc) && Plain(v.threads[t])
    requires v.close == Returned ==> AcceptLoop(pc)
    ensures Inv(To(v, t, pc))
  {
    ToBorn(v, t, pc);
  }

  lemma ExitInv(v: Server, t: nat)
    requires Inv(v) && t in v.threads && Plain(v.threads[t])
    ensures Inv(Exit(v, t))
  {
    RemoveOne(v.threads, t);
  }

  // ----- connection handlers -----

  lemma AcquireInv(v: Server, t: nat)
    requires Inv(v) && t in v.threads && v.threads[t].Swap? && v.slot == None
    ensures Inv(To(v, t, InRun).(slot := Some(t)))
  {
    ToBorn(v, t, InRun);
  }

  lemma RunEndsInv(v: Server, t: nat)
    requires Inv(v) && t in v.threads && v.threads[t].InRun?
    ensures Inv(To(v, t, Release))
  {
    ToBorn(v, t, Release);
  }

  lemma ReleaseInv(v: Server, t: nat)
    requires Inv(v) && t in v.threads && v.threads[t].Release?
    ensures Inv(To(v, t, Leaving).(slot := None))
  {
    ToBorn(v, t, Leaving);
  }

  lemma ConnInv(v: Server, t: nat)
    requires Inv(v) && t in v.threads && DoConn(v, t).Some?
    ensures Inv(DoConn(v, t).value)
  {
    match v.threads[t]
    case Swap => if v.slot == None { AcquireInv(v, t); } else { ToInv(v, t, Load); }
    case Load => ToInv(v, t, BusyReply(v.slot));
    case BusyReply(_) => ToInv(v, t, Leaving);
    case Leaving => ExitInv(v, t);
    case InRun => RunEndsInv(v, t);
    case Release => ReleaseInv(v, t);
  }

  // ----- accept loops, Start and Close -----

  lemma AddConnBorn(v: Server, t: nat)
    requires Slot(v) && Born(v) && t in v.threads && v.threads[t].Adding?
    ensures Born(To(Add(v, t, false), t, Spawning(v.next)))
  {
    assert v.next !in v.threads;
  }

  lemma AddConnRest(v: Server, t: nat)
    requires Slot(v) && Shutdown(v) && t in v.threads && v.threads[t].Adding?
    ensures Slot(To(Add(v, t, false), t, Spawning(v.next))) && Shutdown(To(Add(v, t, false), t, Spawning(v.next)))
  {
    assert v.next !in v.threads;
  }

  lemma SpawnBorn(v: Server, t: nat)
    requires Born(v) && t in v.threads && v.threads[t].Spawning?
    ensures ChildOf(v, v.threads[t].child, t, false)
    ensures Born(To(To(v, v.threads[t].child, Swap), t, Accepting))
  {
    assert ChildOf(v, v.threads[t].child, t, false);
  }

  lemma SpawnRest(v: Server, t: nat, child: nat)
    requires Slot(v) && Shutdown(v) && t in v.threads && v.threads[t].Spawning? && ChildOf(v, child, t, false)
    ensures Slot(To(To(v, child, Swap), t, Accepting)) && Shutdown(To(To(v, child, Swap), t, Accepting))
  {
  }

  lemma ServeInv(v: Server, t: nat, ok: bool)
    requires Inv(v) && t in v.threads && DoServe(v, t, ok).Some?
    ensures Inv(DoServe(v, t, ok).value)
  {
    match v.threads[t]
    case Accepting => ToInv(v, t, if ok then Adding else AcceptFailed);
    case AcceptFailed => if v.cancelled { ExitInv(v, t); } else { ToInv(v, t, Accepting); }
    case Adding => AddConnBorn(v, t); AddConnRest(v, t);
    case Spawning(child) => SpawnBorn(v, t); SpawnRest(v, t, child);
  }

  lemma StartLockInv(v: Server, t: nat, ok: bool)
    requires Inv(v) && t in v.starts && v.starts[t] == StartLock
    ensures Inv(DoStart(v, t, ok))
  {
  }

  lemma StartAddBorn(v: Server, t: nat)
    requires Slot(v) && Born(v) && t in v.starts && v.starts[t] == StartAdd
    ensures Born(DoStart(v, t, true))
  {
    assert v.next !in v.threads;
  }

  lemma StartAddRest(v: Server, t: nat)
    requires Slot(v) && Shutdown(v) && t in v.starts && v.starts[t] == StartAdd
    ensures Slot(DoStart(v, t, true)) && Shutdown(DoStart(v, t, true))
  {
    assert v.next !in v.threads;
  }

  lemma StartGoInv(v: Server, t: nat)
    requires Inv(v) && t in v.starts && v.starts[t].StartGo?
    ensures Inv(DoStart(v, t, true))
  {
    assert ChildOf(v, v.starts[t].child, t, true);
  }

  lemma StartInv(v: Server, t: nat, ok: bool)
    requires Inv(v) && t in v.starts
    ensures Inv(DoStart(v, t, ok))
  {
    match v.starts[t]
    case StartLock => StartLockInv(v, t, ok);
    case StartAdd => StartAddBorn(v, t); StartAddRest(v, t);
    case StartGo(_) => StartGoInv(v, t);
  }

  lemma CloseInv(v: Server)
    requires Inv(v)
    ensures Inv(DoCallClose(v))
    ensures DoClose(v).Some? ==> Inv(DoClose(v).value)
  {
  }

  lemma StepInv(v: Server, a: Act)
    requires Inv(v) && Step(v, a).Some?
    ensures Inv(Step(v, a).value)
  {
    match a
    case CallStart =>
    case StartStep(t, ok) => StartInv(v, t, ok);
    case CallClose => CloseInv(v);
    case CloseStep => CloseInv(v);
    case Go(t, ok) =>
      if Serves(v.threads[t]) { ServeInv(v, t, ok); } else { ConnInv(v, t); }
  }

  // ----- what a step does to the goroutines it does not run -----

  /** An accept loop, or a connection handler that has not created its session. */
  predicate Early(pc: GPc) { pc.Unstarted? || pc.Swap? || Serves(pc) }

  /** A step moves goroutine t, starts goroutines, and adds ones with fresh numbers; no more. */
  ghost predicate Evolves(v: Server, v': Server, t: nat) {
    && v.next <= v'.next
    && (forall u :: u in v.threads && u != t && !v.threads[u].Unstarted? ==>
          u in v'.threads && v'.threads[u] == v.threads[u])
    && (forall u :: u in v'.threads && Early(v'.threads[u]) ==> (u in v.threads && Early(v.threads[u])) || v.next <= u)
    && (forall u :: u in v'.threads && u != t && v'.threads[u] == InRun ==> u in v.threads && v.threads[u] == InRun)
  }

  lemma MoveEvolves(v: Server, v': Server, t: nat)
    requires t in v.threads && v'.next == v.next
    requires
      || v'.threads == v.threads - {t}
      || (&& t in v'.threads && v'.threads == v.threads[t := v'.threads[t]]
          && v'.threads[t] != InRun && (Early(v'.threads[t]) ==> Early(v.threads[t])))
      || (t in v'.threads && !Early(v'.threads[t]) && v'.threads == v.threads[t := v'.threads[t]])
    ensures Evolves(v, v', t)
  {
  }

  lemma AddEvolves(v: Server, t: nat)
    requires Inv(v) && t in v.threads && v.threads[t].Adding?
    ensures Evolves(v, To(Add(v, t, false), t, Spawning(v.next)), t)
  {
  }

  lemma SpawnEvolves(v: Server, t: nat)
    requires Inv(v) && t in v.threads && v.threads[t].Spawning?
    ensures Evolves(v, To(To(v, v.threads[t].child, Swap), t, Accepting), t)
  {
    assert ChildOf(v, v.threads[t].child, t, false);
  }

  lemma ServeEvolves(v: Server, t: nat, ok: bool)
    requires Inv(v) && t in v.threads && DoServe(v, t, ok).Some?
    ensures Evolves(v, DoServe(v, t, ok).value, t)
  {
    if v.threads[t].Adding? { AddEvolves(v, t); }
    else if v.threads[t].Spawning? { SpawnEvolves(v, t); }
    else { MoveEvolves(v, DoServe(v, t, ok).value, t); }
  }

  /** A connection handler moves alone, or leaves. */
  lemma ConnMoves(v: Server, t: nat)
    requires t in v.threads && DoConn(v, t).Some?
    ensures var v' := DoConn(v, t).value;
      && v'.next == v.next
      && (v.threads[t].Leaving? ==> v'.threads == v.threads - {t})
      && (!v.threads[t].Leaving? ==>
            t in v'.threads && !Early(v'.threads[t]) && v'.threads == v.threads[t := v'.threads[t]])
  {
  }

  lemma GoEvolves(v: Server, t: nat, ok: bool)
    requires Inv(v) && Step(v, Go(t, ok)).Some?
    ensures Evolves(v, Step(v, Go(t, ok)).value, t)
    ensures v.threads[t].Swap? ==> t in Step(v, Go(t, ok)).value.threads && !Early(Step(v, Go(t, ok)).value.threads[t])
  {
    if Serves(v.threads[t]) {
      ServeEvolves(v, t, ok);
    } else {
      ConnMoves(v, t);
      MoveEvolves(v, DoConn(v, t).value, t);
    }
  }

  lemma OtherEvolves(v: Server, a: Act)
    requires Inv(v) && !a.Go? && Step(v, a).Some?
    ensures Evolves(v, Step(v, a).value, v.next)
  {
    if a.StartStep? && v.starts[a.t].StartGo? { assert ChildOf(v, v.starts[a.t].child, a.t, true); }
  }
}
