/** When the Result of a session tells what its receiver counted. */
module SessionResults {
  import opened Protocol
  import opened Session
  import opened SessionInvariant
  import opened SessionTheorems
  import opened SessionRuns

  /** A Result that has been produced carries the receiver's final count, if that is known. */
  ghost predicate Agrees(s: Sess) {
    forall r :: r in s.g.results && s.g.finalCount.Some? ==> r.MResult? && r.received == s.g.finalCount.value
  }

  /** However the session goes on, its Result and the receiver's final count agree. */
  ghost predicate Faithful(s: Sess) {
    forall s' :: Leads(s, s') ==> Agrees(s')
  }

  /** The receiver may still count a packet that it has not published, or publish one it has. */
  predicate Unfinished(s: Sess) {
    match s.w
    case WInstall => true
    case WSelect(_) => true
    case WRead(_) => true
    case WCloseSock(n) => n > 0
    case WPublish(n) => n > 0 && s.holder != ByWorker
    case _ => false
  }

  /** The receiver has not begun the section in which it makes its channels. */
  predicate NotInstalling(s: Sess) { s.w == WInstall && s.holder != ByWorker }

  // ----- an unfinished receiver -----

  lemma StillCounting(s: Sess)
    requires Inv(s) && s.f.state == Collecting && s.h == HFrCheck && Unfinished(s)
    ensures s.g.results == [] && s.f.receivedCount == 0 && s.quitCloses == 0
    ensures Receiving(s.w) ==> s.sockOpen
    ensures s.w.WCloseSock? || s.w.WPublish? ==> s.g.finalCount == Some(s.w.n) && s.w.n > 0 && s.holder == Free
    ensures s.holder == ByWorker ==> s.w == WInstall
    ensures s.holder != ByHandler
  {
    assert !s.g.timedOut && s.f.conn;
  }

  /** The receiver counts a packet after the Result has been produced. */
  lemma CountsLater(b: Sess, s: Sess) returns (r: Sess)
    requires Reaches(b, s) && s.quitCloses == 0 && s.holder == Free
    requires s.w == WInstall || (Receiving(s.w) && s.sockOpen)
    ensures Reaches(b, r) && r.g.results == s.g.results && r.g.finalCount.Some? && r.g.finalCount.value > 0
  {
    hide Reaches;
    r := s;
    if s.w == WInstall { r := ReachInstalled(b, r); }
    r := ReachPacket(b, r);
    r := ReachReadFails(b, r);
  }

  /** Fetched while the receiver is unfinished, the Result can miss what it counts. */
  lemma FetchedTooEarly(b: Sess, s: Sess) returns (r: Sess)
    requires Reaches(b, s) && Inv(s) && s.f.state == Collecting && s.h == HFrCheck && Unfinished(s)
    ensures Reaches(b, r) && !Agrees(r)
  {
    hide Reaches, Inv;
    StillCounting(s);
    r := s;
    if s.holder == ByWorker { r := ReachInstalled(b, r); }
    r := ReachResult(b, r);
    assert r.g.results[0].received == 0;
    if !s.w.WCloseSock? && !s.w.WPublish? { r := CountsLater(b, r); }
    assert r.g.results[0] in r.g.results;
  }

  // ----- a receiver that has finished -----

  ghost predicate Known(s: Sess) {
    s.g.finalCount.Some? ==>
      || s.g.finalCount.value == s.f.receivedCount
      || (s.w.WPublish? && s.holder == ByWorker && s.h != HResult && s.g.results == [])
  }

  /** Whatever is fetched from now on is the receiver's final count. */
  ghost predicate Settled(s: Sess) {
    s.w != WIdle && s.w != WInstall && !Receiving(s.w) && Known(s) && Agrees(s)
  }

  lemma SettledSection(s: Sess)
    requires Inv(s) && Settled(s) && HLocks(s.h) && s.holder == ByHandler
    ensures Settled(HSection(s))
  {
  }

  lemma SettledPlain(s: Sess, c: Choice)
    requires Inv(s) && Settled(s) && !HLocks(s.h) && !HReadsState(s.h) && HPlain(s, c).Some?
    ensures Settled(HPlain(s, c).value)
  {
  }

  lemma SettledRead(s: Sess)
    requires Inv(s) && Settled(s) && HReadsState(s.h)
    ensures Settled(s.(h := HStateRead(s)))
  {
    hide Channels, WorkerState;
    assert s.h == HFrCheck ==> IsActive(s.f.state);
  }

  lemma SettledHandler(s: Sess, c: Choice)
    requires Inv(s) && Settled(s) && HStep(s, c).Some?
    ensures Settled(HStep(s, c).value)
  {
    hide Inv, HSection, HPlain;
    if HReadsState(s.h) { SettledRead(s); }
    else if !HLocks(s.h) { SettledPlain(s, c); }
    else if s.holder == ByHandler { SettledSection(s); }
  }

  lemma SettledWorkerSection(s: Sess, c: Choice)
    requires Channels(s) && Settled(s) && WLocks(s.w) && s.holder == ByWorker
    ensures Settled(WSection(s, c))
  {
  }

  lemma SettledWorkerPlain(s: Sess, c: Choice)
    requires Settled(s) && !WLocks(s.w) && WPlain(s, c).Some?
    ensures Settled(WPlain(s, c).value)
  {
  }

  lemma SettledStep(s: Sess, a: Action)
    requires Inv(s) && Settled(s) && Step(s, a).Some?
    ensures Settled(Step(s, a).value)
  {
    hide HSection, HPlain, WSection, WPlain;
    match a
    case Handler(c) => SettledHandler(s, c);
    case Worker(c) =>
      if !WLocks(s.w) { SettledWorkerPlain(s, c); }
      else if s.holder == ByWorker { SettledWorkerSection(s, c); }
    case ServerClosesConn =>
  }

  lemma SettledStays(s: Sess, s': Sess)
    requires Inv(s) && Settled(s) && Leads(s, s')
    ensures Settled(s')
  {
    hide Inv, Settled, Step;
    var P: Sess -> bool := t => Inv(t) && Settled(t);
    forall t, a | P(t) && Step(t, a).Some? ensures P(Step(t, a).value) {
      StepInv(t, a);
      SettledStep(t, a);
    }
    assert Closed(P) && P(s);
  }

  lemma FinishedIsSettled(s: Sess)
    requires Inv(s) && !Unfinished(s)
    requires (s.h == HFrCheck && s.f.state == Collecting) || (s.h == HScCheck && s.f.state == Running)
    ensures Settled(s)
  {
  }

  // ----- a receiver that send_complete waits for -----

  /** send_complete has met the receiver's channels, or will. */
  ghost predicate Met(s: Sess) {
    && s.f.params.direction == Uplink && s.g.accepted.Some? && s.g.sc != Missed
    && (s.f.receiverDone || (s.w == WInstall && s.holder == ByWorker))
  }

  lemma MetSection(s: Sess)
    requires Met(s) && HLocks(s.h) && s.holder == ByHandler
    ensures Met(HSection(s))
  {
  }

  lemma MetPlain(s: Sess, c: Choice)
    requires Inv(s) && Met(s) && !HLocks(s.h) && !HReadsState(s.h) && HPlain(s, c).Some?
    ensures Met(HPlain(s, c).value)
  {
  }

  lemma MetWorker(s: Sess, c: Choice)
    requires Met(s) && WStep(s, c).Some?
    ensures Met(WStep(s, c).value)
  {
    hide WSection, WPlain;
    if !WLocks(s.w) { MetWorkerPlain(s, c); }
    else if s.holder == ByWorker { MetWorkerSection(s, c); }
  }

  lemma MetWorkerSection(s: Sess, c: Choice)
    requires Met(s) && WLocks(s.w) && s.holder == ByWorker
    ensures Met(WSection(s, c))
  {
  }

  lemma MetWorkerPlain(s: Sess, c: Choice)
    requires Met(s) && !WLocks(s.w) && WPlain(s, c).Some?
    ensures Met(WPlain(s, c).value)
  {
    hide WPlainNext;
  }

  lemma MetStep(s: Sess, a: Action)
    requires Inv(s) && Met(s) && Step(s, a).Some?
    ensures Met(Step(s, a).value)
  {
    hide HSection, HPlain, WStep, Inv;
    match a
    case Handler(c) =>
      if !HLocks(s.h) && !HReadsState(s.h) { MetPlain(s, c); }
      else if HLocks(s.h) && s.holder == ByHandler { MetSection(s); }
      else if HLocks(s.h) { assert s.holder == Free; }
    case Worker(c) => MetWorker(s, c);
    case ServerClosesConn =>
  }

  lemma MetAgrees(s: Sess)
    requires Inv(s) && Met(s)
    ensures Agrees(s)
  {
    hide HandlerAt, WorkerState;
  }

  lemma MetStays(s: Sess, s': Sess)
    requires Inv(s) && Met(s) && Leads(s, s')
    ensures Agrees(s')
  {
    hide Inv, Met, Step, Agrees;
    var P: Sess -> bool := t => Inv(t) && Met(t);
    forall t, a | P(t) && Step(t, a).Some? ensures P(Step(t, a).value) {
      StepInv(t, a);
      MetStep(t, a);
    }
    assert Closed(P) && P(s);
    MetAgrees(s');
  }

  lemma InstalledIsMet(s: Sess)
    requires Inv(s) && s.h == HScCheck && s.f.state == Running && s.f.params.direction == Uplink && !NotInstalling(s)
    ensures Met(s)
  {
  }

  // ----- the condition -----

  lemma Broken(s: Sess, r: Sess)
    requires Reaches(s, r) && !Agrees(r)
    ensures !Faithful(s)
  {
    ReachesLeads(s, r);
  }

  /** A Result about to be fetched tells the receiver's final count, however the session goes on, if
      and only if the receiver has finished. */
  lemma FetchTellsTheCount(s: Sess)
    requires Reachable(s) && s.h == HFrCheck && s.f.state == Collecting
    ensures Faithful(s) <==> !Unfinished(s)
  {
    ReachableInv(s);
    if Unfinished(s) {
      ReachesSelf(s);
      var r := FetchedTooEarly(s, s);
      Broken(s, r);
    } else {
      FinishedIsSettled(s);
      forall s' | Leads(s, s') ensures Agrees(s') { SettledStays(s, s'); }
    }
  }

  /** What makes the Result of a running test wrong, seen from the handling of its send_complete: an
      uplink handler waits for every receiver that has its channels, any other waits for none. */
  predicate Overtakes(s: Sess) {
    if s.f.params.direction == Uplink then NotInstalling(s) else Unfinished(s)
  }

  lemma OvertakenReceiver(s: Sess)
    requires Inv(s) && s.h == HScCheck && s.f.state == Running && Overtakes(s)
    ensures s.connOpen && s.holder != ByHandler && s.f.params.direction != Downlink
    ensures s.holder == ByWorker ==> s.w == WInstall && s.f.params.direction == Both
    ensures s.f.params.direction == Uplink ==> !s.f.receiverDone && !s.f.quitCh
    ensures s.quitCloses == 0
  {
  }

  /** The handler collects and is asked for the Result before the receiver has finished. */
  lemma AskedTooEarly(s: Sess) returns (r: Sess)
    requires Inv(s) && s.h == HScCheck && s.f.state == Running && Overtakes(s)
    ensures Reaches(s, r) && r.h == HFrCheck && r.f.state == Collecting && Unfinished(r)
  {
    hide Reaches, Inv, HStep;
    ReachesSelf(s);
    OvertakenReceiver(s);
    r := s;
    if s.holder == ByWorker { r := ReachInstalled(s, r); }
    r := ReachCollecting(s, r);
    ReachMessage(s, r, MFetchResult);
    r := r.(h := HFrCheck);
  }

  lemma ReachesInv(s: Sess, r: Sess)
    requires Inv(s) && Reaches(s, r)
    ensures Inv(r)
  {
    ReachesLeads(s, r);
    var P: Sess -> bool := t => Inv(t);
    forall t, a | P(t) && Step(t, a).Some? ensures P(Step(t, a).value) { StepInv(t, a); }
    assert Closed(P) && P(s);
  }

  /** When send_complete is handled, the session's Result will tell the receiver's final count,
      however the session goes on, if and only if it does not overtake the receiver. */
  lemma ResultTellsTheCount(s: Sess)
    requires Reachable(s) && s.h == HScCheck && s.f.state == Running
    ensures Faithful(s) <==> !Overtakes(s)
  {
    hide Reachable;
    ReachableInv(s);
    if Overtakes(s) {
      var m := AskedTooEarly(s);
      ReachesInv(s, m);
      var r := FetchedTooEarly(s, m);
      Broken(s, r);
    } else if s.f.params.direction == Uplink {
      InstalledIsMet(s);
      forall s' | Leads(s, s') ensures Agrees(s') { MetStays(s, s'); }
    } else {
      FinishedIsSettled(s);
      forall s' | Leads(s, s') ensures Agrees(s') { SettledStays(s, s'); }
    }
  }
}
