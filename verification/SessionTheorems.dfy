/** What holds of a session in every interleaving of its threads. */
module SessionTheorems {
  import opened Protocol
  import opened Session
  import opened SessionInvariant

  /** Some schedule of the two threads leads from a fresh session to s. */
  ghost predicate Reachable(s: Sess) {
    exists tcp6: bool, acts: seq<Action> :: Exec(Initial(tcp6), acts) == Some(s)
  }

  lemma ReachableInv(s: Sess)
    requires Reachable(s)
    ensures Inv(s)
  {
    var tcp6: bool, acts: seq<Action> :| Exec(Initial(tcp6), acts) == Some(s);
    InitInv(tcp6);
    ExecInv(Initial(tcp6), acts);
  }

  lemma {:induction false} ExecAppend(s: Sess, acts: seq<Action>, a: Action)
    requires Exec(s, acts).Some?
    ensures Exec(s, acts + [a]) == Step(Exec(s, acts).value, a)
    decreases |acts|
  {
    if acts == [] {
      assert [a][1..] == [];
    } else {
      assert (acts + [a])[1..] == acts[1..] + [a];
      ExecAppend(Step(s, acts[0]).value, acts[1..], a);
    }
  }

  lemma ReachStep(s: Sess, a: Action)
    requires Reachable(s) && Step(s, a).Some?
    ensures Reachable(Step(s, a).value)
  {
    var tcp6: bool, acts: seq<Action> :| Exec(Initial(tcp6), acts) == Some(s);
    ExecAppend(Initial(tcp6), acts, a);
  }

  // ----- runs of the step system -----

  ghost predicate Closed(P: Sess -> bool) {
    forall s, a :: P(s) && Step(s, a).Some? ==> P(Step(s, a).value)
  }

  /** s' belongs to every set that contains s and is closed under steps. */
  ghost predicate Leads(s: Sess, s': Sess) {
    forall P: Sess -> bool :: Closed(P) && P(s) ==> P(s')
  }

  lemma LeadsOn(s: Sess, s': Sess, a: Action)
    requires Leads(s, s') && Step(s', a).Some?
    ensures Leads(s, Step(s', a).value)
  {
  }

  lemma LeadsTrans(s: Sess, m: Sess, t: Sess)
    requires Leads(s, m) && Leads(m, t)
    ensures Leads(s, t)
  {
  }

  ghost predicate RunsTo(s: Sess, s': Sess) {
    exists acts: seq<Action> :: Exec(s, acts) == Some(s')
  }

  lemma {:induction false} ExecLeads(s: Sess, s': Sess, acts: seq<Action>)
    requires Leads(s, s') && Exec(s', acts).Some?
    ensures Leads(s, Exec(s', acts).value)
    decreases |acts|
  {
    if acts != [] {
      LeadsOn(s, s', acts[0]);
      ExecLeads(s, Step(s', acts[0]).value, acts[1..]);
    }
  }

  /** Which is to say that some schedule leads from s to s'. */
  lemma LeadsIsRun(s: Sess, s': Sess)
    ensures Leads(s, s') <==> RunsTo(s, s')
  {
    if Leads(s, s') {
      var P: Sess -> bool := t => RunsTo(s, t);
      assert Exec(s, []) == Some(s);
      forall t, a | P(t) && Step(t, a).Some? ensures P(Step(t, a).value) {
        var acts: seq<Action> :| Exec(s, acts) == Some(t);
        ExecAppend(s, acts, a);
      }
      assert Closed(P) && P(s);
    }
    if RunsTo(s, s') {
      var acts: seq<Action> :| Exec(s, acts) == Some(s');
      ExecLeads(s, s, acts);
    }
  }

  lemma LedReachable(tcp6: bool, s: Sess)
    requires Leads(Initial(tcp6), s)
    ensures Reachable(s)
  {
    LeadsIsRun(Initial(tcp6), s);
  }

  // ----- which steps touch which fields -----

  /** Outside the mutex the handler changes neither state nor counts, and stores parameters only
      while handling a Prepare. */
  lemma HandlerPlainFrame(s: Sess, c: Choice)
    requires HPlain(s, c).Some?
    ensures HPlain(s, c).value.f == s.f.(params := HPlain(s, c).value.f.params)
    ensures !s.h.HPrepStore? ==> HPlain(s, c).value.f == s.f
    ensures HPlain(s, c).value.g.accepted == s.g.accepted
  {
  }

  lemma HandlerSectionFrame(s: Sess)
    requires HLocks(s.h)
    ensures HSection(s).f.params == s.f.params && HSection(s).f.receivedCount == s.f.receivedCount
    ensures !s.h.HPrepSet? ==> HSection(s).g.accepted == s.g.accepted
  {
  }

  lemma WorkerPlainFrame(s: Sess, c: Choice)
    requires WPlain(s, c).Some?
    ensures WPlain(s, c).value.f == s.f.(sentCount := WPlain(s, c).value.f.sentCount)
    ensures WPlain(s, c).value.g.accepted == s.g.accepted
  {
  }

  lemma WorkerSectionFrame(s: Sess, c: Choice)
    requires WLocks(s.w)
    ensures var f := WSection(s, c).f;
      && f.params == s.f.params && WSection(s, c).g.accepted == s.g.accepted
      && (!s.w.WSetCollecting? ==> f.state == s.f.state)
      && (s.w.WSetCollecting? ==> f == SetState(s.f, Collecting))
      && f.receivedCount == (if s.w.WPublish? then s.w.n else s.f.receivedCount)
  {
  }

  /** Outside its lock sections a step leaves the state and the received count alone. */
  lemma UnlockedFrame(s: Sess, a: Action)
    requires Step(s, a).Some?
    requires a.Handler? ==> !(HLocks(s.h) && s.holder == ByHandler)
    requires a.Worker? ==> !(WLocks(s.w) && s.holder == ByWorker)
    ensures Step(s, a).value.f.state == s.f.state && Step(s, a).value.f.receivedCount == s.f.receivedCount
    ensures !(a.Handler? && s.h.HPrepStore?) ==> Step(s, a).value.f.params == s.f.params
    ensures Step(s, a).value.g.accepted == s.g.accepted
  {
    if a.Handler? && !HLocks(s.h) && !HReadsState(s.h) { HandlerPlainFrame(s, a.c); }
    if a.Worker? && !WLocks(s.w) { WorkerPlainFrame(s, a.c); }
  }

  // ----- state changes -----

  lemma StateAt(s: Sess)
    requires Inv(s)
    ensures HandlerState(s.h, s.f)
  {
  }

  lemma SectionEdge(s: Sess)
    requires Inv(s) && HLocks(s.h) && HSection(s).f.state != s.f.state
    ensures CanTransition(s.f.state, HSection(s).f.state) <==> !(s.h.HCancelWrite? && s.f.state == Collecting)
    ensures Rank(HSection(s).f.state) > Rank(s.f.state)
  {
    hide Inv, SectionFields, SectionNext;
    StateAt(s);
    FieldsEdge(s);
  }

  lemma FieldsEdge(s: Sess)
    requires HandlerState(s.h, s.f) && HLocks(s.h) && SectionFields(s).state != s.f.state
    ensures CanTransition(s.f.state, SectionFields(s).state) <==> !(s.h.HCancelWrite? && s.f.state == Collecting)
    ensures Rank(SectionFields(s).state) > Rank(s.f.state)
  {
    hide TimeoutWrite;
    if s.h.HTimeoutWrite? { TimeoutEdge(s.h.stale, s.f); }
  }

  lemma TimeoutEdge(stale: SessionState, f: Fields)
    requires HandlerState(HTimeoutWrite(stale), f) && TimeoutWrite(f, stale).state != f.state
    ensures CanTransition(f.state, TimeoutWrite(f, stale).state)
    ensures Rank(TimeoutWrite(f, stale).state) > Rank(f.state)
  {
  }

  /** A state change is an edge of the transition table, with one exception: the direct write of
      handleCancel may take Collecting to Cancelled.  Stale reads add no other edge. */
  lemma EveryChangeIsAnEdge(s: Sess, a: Action)
    requires Reachable(s) && Step(s, a).Some?
    requires Step(s, a).value.f.state != s.f.state
    ensures CanTransition(s.f.state, Step(s, a).value.f.state)
            <==> !(a.Handler? && s.h.HCancelWrite? && s.f.state == Collecting)
    ensures a.Worker? ==> s.f.state == Running && Step(s, a).value.f.state == Collecting
    ensures Rank(Step(s, a).value.f.state) > Rank(s.f.state)
  {
    ReachableInv(s);
    if a.Handler? && HLocks(s.h) && s.holder == ByHandler {
      SectionEdge(s);
    } else if a.Worker? && WLocks(s.w) && s.holder == ByWorker {
      WorkerSectionFrame(s, a.c);
    } else {
      UnlockedFrame(s, a);
    }
  }

  /** Parameters never change once a Prepare has been accepted, whatever else arrives. */
  lemma ParametersAreFrozen(s: Sess, a: Action)
    requires Reachable(s) && Step(s, a).Some? && s.g.accepted.Some?
    ensures Step(s, a).value.g.accepted == s.g.accepted
    ensures Step(s, a).value.f.params == s.g.accepted.value
  {
    ReachableInv(s);
    if a.Handler? && HLocks(s.h) && s.holder == ByHandler {
      HandlerSectionFrame(s);
    } else if a.Worker? && WLocks(s.w) && s.holder == ByWorker {
      WorkerSectionFrame(s, a.c);
    } else {
      UnlockedFrame(s, a);
    }
  }

  lemma {:induction false} FrozenAlong(s: Sess, acts: seq<Action>)
    requires Reachable(s) && s.g.accepted.Some? && Exec(s, acts).Some?
    ensures Exec(s, acts).value.f.params == s.g.accepted.value
    decreases |acts|
  {
    if acts == [] {
      ReachableInv(s);
    } else {
      ParametersAreFrozen(s, acts[0]);
      ReachStep(s, acts[0]);
      FrozenAlong(Step(s, acts[0]).value, acts[1..]);
    }
  }

  /** Parameters that are accepted, or about to be, fit the control connection. */
  ghost predicate FamilyFits(s: Sess) {
    s.h == HPrepSet || s.g.accepted.Some? ==> s.f.params.family == IPv4 || s.tcp6
  }

  lemma FitsStep(s: Sess, a: Action)
    requires Inv(s) && FamilyFits(s) && Step(s, a).Some?
    ensures FamilyFits(Step(s, a).value) && Step(s, a).value.tcp6 == s.tcp6
  {
    hide HandlerAt, Channels, Results, WPlainNext, WSectionNext;
    if a.Handler? { FitsHandler(s, a.c); }
  }

  lemma FitsHandler(s: Sess, c: Choice)
    requires Inv(s) && FamilyFits(s) && HStep(s, c).Some?
    ensures FamilyFits(HStep(s, c).value) && HStep(s, c).value.tcp6 == s.tcp6
  {
    hide Inv, HSection, HPlain;
    if HLocks(s.h) { FitsSection(s); } else if HReadsState(s.h) { FitsRead(s); } else { FitsPlain(s, c); }
  }

  lemma FitsSection(s: Sess)
    requires FamilyFits(s) && HLocks(s.h)
    ensures FamilyFits(HSection(s)) && HSection(s).tcp6 == s.tcp6
  {
  }

  lemma FitsRead(s: Sess)
    requires FamilyFits(s) && HReadsState(s.h)
    ensures FamilyFits(s.(h := HStateRead(s)))
  {
  }

  lemma FitsPlain(s: Sess, c: Choice)
    requires Inv(s) && FamilyFits(s) && !HLocks(s.h) && !HReadsState(s.h) && HPlain(s, c).Some?
    ensures FamilyFits(HPlain(s, c).value) && HPlain(s, c).value.tcp6 == s.tcp6
  {
    hide Channels, Results, WorkerState;
  }

  lemma {:induction false} FitsAlong(s: Sess, acts: seq<Action>)
    requires Inv(s) && FamilyFits(s) && Exec(s, acts).Some?
    ensures FamilyFits(Exec(s, acts).value) && Exec(s, acts).value.tcp6 == s.tcp6
    decreases |acts|
  {
    hide Inv, FamilyFits, Step;
    if acts != [] {
      FitsStep(s, acts[0]);
      StepInv(s, acts[0]);
      FitsAlong(Step(s, acts[0]).value, acts[1..]);
    }
  }

  /** No schedule accepts a Prepare for IPv6 on an IPv4 control connection. */
  lemma AcceptedFitsTheConnection(tcp6: bool, acts: seq<Action>)
    requires Exec(Initial(tcp6), acts).Some? && Exec(Initial(tcp6), acts).value.g.accepted.Some?
    ensures Exec(Initial(tcp6), acts).value.g.accepted.value.family == IPv6 ==> tcp6
  {
    InitInv(tcp6);
    ExecInv(Initial(tcp6), acts);
    FitsAlong(Initial(tcp6), acts);
  }

  /** Along every schedule the rank of the state never falls, so terminal states are final
      and a session changes state at most five times. */
  lemma {:induction false} RankNeverFalls(s: Sess, acts: seq<Action>)
    requires Reachable(s) && Exec(s, acts).Some?
    ensures Rank(Exec(s, acts).value.f.state) >= Rank(s.f.state)
    ensures IsTerminal(s.f.state) ==> Exec(s, acts).value.f.state == s.f.state
    ensures Exec(s, acts).value.g.changes <= 5
    decreases |acts|
  {
    ReachableInv(s);
    if acts != [] {
      var s' := Step(s, acts[0]).value;
      if s'.f.state != s.f.state { EveryChangeIsAnEdge(s, acts[0]); }
      ReachStep(s, acts[0]);
      RankNeverFalls(s', acts[1..]);
    }
  }

  // ----- results -----

  /** At most one Result is produced, in Completed, with the packet count of the accepted
      Prepare; its Received is 0 or what the receiver counted when Receive returned, and is
      that count whenever the handling of send_complete met a receiver whose bind succeeded. */
  lemma OneResult(s: Sess)
    requires Reachable(s) && s.g.results != []
    ensures |s.g.results| == 1 && s.f.state == Completed
    ensures s.g.accepted.Some? && s.w != WIdle
    ensures s.g.results[0].MResult? && s.g.results[0].sent == s.g.accepted.value.packetCount
    ensures s.g.results[0].received == 0 || s.g.finalCount == Some(s.g.results[0].received)
    ensures s.g.accepted.value.direction == Uplink && s.g.sc == Seen && s.g.bound
            ==> s.g.finalCount == Some(s.g.results[0].received)
  {
    ReachableInv(s);
  }

  /** Result frames begun on the connection. */
  function ResultWords(out: seq<Chunk>): nat {
    if out == [] then 0
    else ResultWords(out[..|out| - 1]) + (if out[|out| - 1].LenWord? && out[|out| - 1].m.MResult? then 1 else 0)
  }

  /** A Result frame about to be begun. */
  function Announced(h: HPc): nat { if h.HWrite? && !h.body && h.m.MResult? then 1 else 0 }

  lemma WordsOf(out: seq<Chunk>, c: Chunk)
    ensures ResultWords(out + [c]) == ResultWords(out) + (if c.LenWord? && c.m.MResult? then 1 else 0)
  {
    assert (out + [c])[..|out|] == out;
  }

  lemma AnnouncedNext(s: Sess, c: Choice)
    ensures Announced(HPlainNext(s, c)) <= if s.h.HResult? then 1 else 0
  {
  }

  lemma HandlerWords(s: Sess, c: Choice)
    requires HPlain(s, c).Some?
    ensures var s' := HPlain(s, c).value;
      ResultWords(s'.out) + Announced(s'.h) - |s'.g.results| <= ResultWords(s.out) + Announced(s.h) - |s.g.results|
  {
    hide HPlainNext;
    AnnouncedNext(s, c);
    if s.h.HWrite? { WordsOf(s.out, Half(s.h.m, s.h.body)); }
  }

  lemma WorkerWords(s: Sess, c: Choice)
    requires WorkerState(s) && WStep(s, c).Some?
    ensures var s' := WStep(s, c).value;
      s'.h == s.h && s'.g.results == s.g.results && ResultWords(s'.out) == ResultWords(s.out)
  {
    if s.w.WWrite? { WordsOf(s.out, Half(s.w.m, s.w.body)); }
  }

  lemma SectionWords(s: Sess)
    requires HLocks(s.h)
    ensures HSection(s).out == s.out && HSection(s).g.results == s.g.results && Announced(HSection(s).h) == 0
  {
  }

  lemma StepWords(s: Sess, a: Action)
    requires Inv(s) && Step(s, a).Some?
    ensures var s' := Step(s, a).value;
      ResultWords(s'.out) + Announced(s'.h) - |s'.g.results| <= ResultWords(s.out) + Announced(s.h) - |s.g.results|
  {
    match a
    case Handler(c) =>
      if HLocks(s.h) { if s.holder == ByHandler { SectionWords(s); } }
      else if !HReadsState(s.h) { HandlerWords(s, c); }
    case Worker(c) => WorkerWords(s, c);
    case ServerClosesConn =>
  }

  lemma {:induction false} ExecWords(s: Sess, acts: seq<Action>)
    requires Inv(s) && Exec(s, acts).Some?
    ensures var s' := Exec(s, acts).value;
      ResultWords(s'.out) + Announced(s'.h) - |s'.g.results| <= ResultWords(s.out) + Announced(s.h) - |s.g.results|
    decreases |acts|
  {
    if acts != [] {
      StepWords(s, acts[0]);
      StepInv(s, acts[0]);
      ExecWords(Step(s, acts[0]).value, acts[1..]);
    }
  }

  /** Whatever the client sends, no second Result frame is ever begun on the connection. */
  lemma OneResultOnTheWire(s: Sess)
    requires Reachable(s)
    ensures ResultWords(s.out) <= |s.g.results| <= 1
  {
    var tcp6: bool, acts: seq<Action> :| Exec(Initial(tcp6), acts) == Some(s);
    InitInv(tcp6);
    ExecWords(Initial(tcp6), acts);
    if s.g.results != [] { OneResult(s); }
  }

  /** fetch_result is never examined in Completed or Failed, so no Result is sent twice. */
  lemma RefetchIsUnreachable(s: Sess)
    requires Reachable(s) && s.h == HFrCheck
    ensures !IsTerminal(s.f.state) && s.g.results == []
  {
    ReachableInv(s);
  }

  /** receivedCount is written at most once, only by the step that publishes the final count. */
  lemma ReceivedIsPublishedOnce(s: Sess, a: Action)
    requires Reachable(s) && Step(s, a).Some?
    ensures s.g.publishes <= 1
    ensures s.g.publishes == 0 ==> s.f.receivedCount == 0
    ensures s.g.publishes == 1 ==>
              s.g.finalCount == Some(s.f.receivedCount) && Step(s, a).value.f.receivedCount == s.f.receivedCount
    ensures Step(s, a).value.f.receivedCount != s.f.receivedCount ==>
              a.Worker? && s.w.WPublish? && s.g.finalCount == Some(Step(s, a).value.f.receivedCount)
  {
    ReachableInv(s);
    if a.Handler? && HLocks(s.h) && s.holder == ByHandler {
      HandlerSectionFrame(s);
    } else if a.Worker? && WLocks(s.w) && s.holder == ByWorker {
      WorkerSectionFrame(s, a.c);
    } else {
      UnlockedFrame(s, a);
    }
  }

  // ----- channels -----

  /** Each channel is closed at most once; quitCh is closed exactly when an uplink send_complete
      found it installed, so a receiver it missed, or one serving direction `both`, is never told
      to stop; and the handler waits without holding the mutex. */
  lemma ChannelDiscipline(s: Sess)
    requires Reachable(s)
    ensures s.quitCloses <= 1 && s.doneCloses <= 1
    ensures s.quitCloses == 1 <==> s.g.sc == Seen
    ensures s.g.sc == Seen ==> s.f.params.direction == Uplink
    ensures s.f.quitCh ==> s.quitCloses == 0
    ensures s.doneCloses == 1 ==> s.w == WDone
    ensures s.h.HScWait? ==> s.holder != ByHandler
  {
    ReachableInv(s);
  }

  /** Steps the worker still needs to close receiverDone once quitCh has been closed. */
  function WaitRank(s: Sess): (r: nat)
    ensures r <= 6
  {
    match s.w
    case WRead(_) => 6
    case WSelect(_) => 5
    case WCloseSock(_) => 4
    case WPublish(_) => if s.holder == ByWorker then 2 else 3
    case WWrite(_, body, _) => if body then 2 else 3
    case WCloseDone => 1
    case _ => 0
  }

  /** While the handler waits for the receiver, the handler is blocked, the worker never is,
      and each of its steps brings the close of receiverDone nearer. */
  lemma WaitingWorkerMoves(s: Sess, a: Action)
    requires Inv(s) && s.h == HScWait(true) && s.doneCloses == 0
    ensures forall c :: Step(s, Worker(c)).Some?
    ensures Step(s, a).Some? ==>
              && a.Worker?
              && Step(s, a).value.h == HScWait(true)
              && WaitRank(Step(s, a).value) < WaitRank(s)
    ensures WaitRank(s) > 0
  {
  }

  /** Whatever the schedule, the handler's wait is over after at most six steps. */
  lemma {:induction false} WaitEnds(s: Sess, acts: seq<Action>) returns (i: nat)
    requires Reachable(s) && s.h == HScWait(true)
    requires Exec(s, acts).Some? && |acts| >= WaitRank(s)
    ensures i <= WaitRank(s) && i <= |acts|
    ensures Exec(s, acts[..i]).Some? && Exec(s, acts[..i]).value.doneCloses == 1
    decreases |acts|
  {
    ReachableInv(s);
    if s.doneCloses == 1 {
      i := 0;
    } else {
      var a := Worker(Yes);
      WaitingWorkerMoves(s, if acts == [] then a else acts[0]);
      ReachStep(s, acts[0]);
      var j := WaitEnds(Step(s, acts[0]).value, acts[1..]);
      i := j + 1;
      assert acts[..i][1..] == acts[1..][..j];
    }
  }

  // ----- end of file and timeouts -----

  /** Steps the handler has left after a read has ended with EOF or a timeout. */
  function StopRank(s: Sess): (r: nat)
    ensures r <= 30
  {
    var wait := if s.holder == ByHandler then 0 else 1;
    match s.h
    case HTimeoutRead => 30
    case HTimeoutWrite(_) => 28 + wait
    case HCleanup(exit) => if exit == ToEnd then 4 + wait else 26 + wait
    case HAfterTimeout(k) => if k > 2 then 0 else 25 - k
    case HTop(k) => if k > 2 then 0 else 22 - k
    case HCtx => 19
    case HRecv => 18
    case HCancelRead(_) => 17
    case HCancelWrite(_) => 15 + wait
    case HWrite(_, body, _) => if body then 1 else 2
    case _ => 0
  }

  lemma StoppingSection(s: Sess)
    requires Inv(s) && s.g.timedOut && HLocks(s.h) && s.holder == ByHandler
    ensures HSection(s).g.timedOut
    ensures StopRank(HSection(s)) < StopRank(s)
  {
  }

  lemma StoppingHandler(s: Sess, c: Choice)
    requires Inv(s) && s.g.timedOut && !HLocks(s.h) && !HReadsState(s.h) && HPlain(s, c).Some?
    ensures HPlain(s, c).value.g.timedOut
    ensures StopRank(HPlain(s, c).value) < StopRank(s)
  {
    assert AfterTimeout(s.h, s.connOpen);
  }

  lemma StoppingRead(s: Sess)
    requires Inv(s) && s.g.timedOut && HReadsState(s.h) && s.holder == Free
    ensures StopRank(s.(h := HStateRead(s))) < StopRank(s)
  {
    assert AfterTimeout(s.h, s.connOpen);
  }

  lemma StoppingWorker(s: Sess, c: Choice)
    requires WStep(s, c).Some? && (s.holder == ByHandler ==> !WLocks(s.w))
    ensures WStep(s, c).value.g.timedOut == s.g.timedOut
    ensures WStep(s, c).value.h == s.h && (WStep(s, c).value.holder == ByHandler <==> s.holder == ByHandler)
  {
  }

  lemma StoppingStep(s: Sess, a: Action)
    requires Inv(s) && s.g.timedOut && Step(s, a).Some?
    ensures Step(s, a).value.g.timedOut && Step(s, a).value.g.results == []
    ensures a.Handler? ==> StopRank(Step(s, a).value) < StopRank(s)
    ensures !a.Handler? ==> StopRank(Step(s, a).value) == StopRank(s)
  {
    hide Channels, HPlain, HSection;
    StepInv(s, a);
    if a.Handler? {
      if HReadsState(s.h) { StoppingRead(s); }
      else if !HLocks(s.h) { StoppingHandler(s, a.c); }
      else if s.holder == ByHandler { StoppingSection(s); }
    } else if a.Worker? {
      StoppingWorker(s, a.c);
    }
  }

  function HandlerSteps(acts: seq<Action>): nat {
    if acts == [] then 0 else (if acts[0].Handler? then 1 else 0) + HandlerSteps(acts[1..])
  }

  /** How often a schedule has the handler read from its connection. */
  function ReadSteps(s: Sess, acts: seq<Action>): nat
    requires Exec(s, acts).Some?
    decreases |acts|
  {
    if acts == [] then 0
    else (if acts[0].Handler? && s.h.HRecv? then 1 else 0) + ReadSteps(Step(s, acts[0]).value, acts[1..])
  }

  /** Reads left to a stopping handler. */
  function ReadsLeft(s: Sess): nat { if StopRank(s) >= 18 then 1 else 0 }

  /** After EOF or a read timeout, in whatever state it came, the handler takes at most thirty
      more steps under every schedule, reads the connection at most once more, and sends no Result. */
  lemma {:induction false} TimeoutEndsTheLoop(s: Sess, acts: seq<Action>)
    requires Reachable(s) && s.g.timedOut && Exec(s, acts).Some?
    ensures HandlerSteps(acts) + StopRank(Exec(s, acts).value) <= StopRank(s) <= 30
    ensures ReadSteps(s, acts) + ReadsLeft(Exec(s, acts).value) <= ReadsLeft(s) <= 1
    ensures Exec(s, acts).value.g.results == []
    decreases |acts|
  {
    ReachableInv(s);
    if acts != [] {
      StoppingStep(s, acts[0]);
      ReachStep(s, acts[0]);
      TimeoutEndsTheLoop(Step(s, acts[0]).value, acts[1..]);
    }
  }

  /** A stopping handler that has not returned can move, or waits for a worker that can. */
  lemma StoppingHandlerIsNotStuck(s: Sess)
    requires Reachable(s) && s.g.timedOut && s.h != HDone
    ensures Step(s, Handler(Got(OtherError))).Some? || (s.holder == ByWorker && Step(s, Worker(Yes)).Some?)
  {
    ReachableInv(s);
  }
}
