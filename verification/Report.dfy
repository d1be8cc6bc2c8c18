/** Aggregation of test results into groups, and the threshold report. */
module Report {
  import opened Protocol
  import opened Sorting

  datatype TestResult = TestResult(
    targetAddress: string, family: Family, direction: Direction, udpPort: int, payloadSize: int,
    sent: int, received: int, lost: int)

  datatype GroupKey = GroupKey(family: Family, port: int, direction: Direction)

  datatype Group = Group(key: GroupKey, results: seq<TestResult>)

  datatype CriticalSize = CriticalSize(key: GroupKey, size: Option<int>)

  datatype Report = Report(
    groups: seq<Group>, criticalSizes: seq<CriticalSize>, totalTests: nat, totalSent: int, totalReceived: int)

  const THRESHOLD := 5.0

  function KeyOf(r: TestResult): GroupKey { GroupKey(r.family, r.udpPort, r.direction) }

  function LossPercent(r: TestResult): real {
    if r.sent == 0 then 0.0 else r.lost as real / r.sent as real * 100.0
  }

  // ----- orders -----

  /** By family, then port, then direction. */
  predicate KeyLeq(a: GroupKey, b: GroupKey) {
    if a.family != b.family then FamilyCode(a.family) < FamilyCode(b.family)
    else if a.port != b.port then a.port < b.port
    else DirectionCode(a.direction) <= DirectionCode(b.direction)
  }

  predicate SizeLeq(a: TestResult, b: TestResult) { a.payloadSize <= b.payloadSize }

  predicate GroupLeq(a: Group, b: Group) { KeyLeq(a.key, b.key) }

  /** The order of a whole report: by key, then by size. */
  predicate ResultLeq(a: TestResult, b: TestResult) {
    if KeyOf(a) != KeyOf(b) then KeyLeq(KeyOf(a), KeyOf(b)) else SizeLeq(a, b)
  }

  lemma OrdersAreTotal()
    ensures TotalPreorder(SizeLeq) && TotalPreorder(GroupLeq) && TotalPreorder(ResultLeq)
    ensures forall a, b :: KeyLeq(a, b) && KeyLeq(b, a) ==> a == b
  {
    KeyOrder();
  }

  lemma KeyOrder()
    ensures forall a, b :: KeyLeq(a, b) || KeyLeq(b, a)
    ensures forall a, b :: KeyLeq(a, b) && KeyLeq(b, a) ==> a == b
    ensures forall a, b, c :: KeyLeq(a, b) && KeyLeq(b, c) ==> KeyLeq(a, c)
  {
  }

  // ----- aggregation -----

  /** The results of one key, in order of appearance. */
  function Filter(results: seq<TestResult>, k: GroupKey): (f: seq<TestResult>)
    ensures forall r :: r in f <==> r in results && KeyOf(r) == k
  {
    if results == [] then []
    else
      var last := results[|results| - 1];
      Filter(results[..|results| - 1], k) + (if KeyOf(last) == k then [last] else [])
  }

  ghost function KeySet(groups: seq<Group>): set<GroupKey> {
    set g | g in groups :: g.key
  }

  ghost predicate DistinctKeys(groups: seq<Group>) {
    forall i, j :: 0 <= i < j < |groups| ==> groups[i].key != groups[j].key
  }

  /** Exactly the results of one key, in size order. */
  ghost predicate GoodGroup(results: seq<TestResult>, g: Group) {
    && g.results != []
    && multiset(g.results) == multiset(Filter(results, g.key))
    && SortedBy(SizeLeq, g.results)
  }

  /** What it means for groups to be the aggregation of results: one group for every key that
      occurs, in key order, each holding exactly the results of its key in size order. */
  ghost predicate Aggregates(results: seq<TestResult>, groups: seq<Group>) {
    && SortedBy(GroupLeq, groups)
    && DistinctKeys(groups)
    && (forall r :: r in results ==> KeyOf(r) in KeySet(groups))
    && (forall g :: g in groups ==> GoodGroup(results, g))
  }

  /** The map is visited in an arbitrary order, and neither sort promises anything about ties. */
  method AggregateResults(results: seq<TestResult>) returns (groups: seq<Group>)
    ensures Aggregates(results, groups)
  {
    var byKey := GroupByKey(results);
    var collected := CollectGroups(results, byKey);
    assert forall r :: r in results ==> r in Filter(results, KeyOf(r));
    OrdersAreTotal();
    groups := Sort(GroupLeq, collected);
    Permuted(results, collected, groups);
  }

  method GroupByKey(results: seq<TestResult>) returns (byKey: map<GroupKey, seq<TestResult>>)
    ensures forall k :: Filter(results, k) == if k in byKey then byKey[k] else []
    ensures forall k :: k in byKey ==> byKey[k] != []
  {
    byKey := map[];
    for i := 0 to |results|
      invariant forall k :: Filter(results[..i], k) == if k in byKey then byKey[k] else []
      invariant forall k :: k in byKey ==> byKey[k] != []
    {
      var key := KeyOf(results[i]);
      ghost var before := byKey;
      byKey := byKey[key := (if key in byKey then byKey[key] else []) + [results[i]]];
      forall k ensures Filter(results[..i + 1], k) == if k in byKey then byKey[k] else [] {
        FilterNext(results, i, k);
        assert Filter(results[..i], k) == if k in before then before[k] else [];
      }
    }
    assert results[..|results|] == results;
  }

  lemma FilterNext(results: seq<TestResult>, i: nat, k: GroupKey)
    requires i < |results|
    ensures Filter(results[..i + 1], k) ==
            Filter(results[..i], k) + (if KeyOf(results[i]) == k then [results[i]] else [])
  {
    assert results[..i + 1][..i] == results[..i];
  }

  /** No key occurs twice, whatever the order of the groups. */
  ghost predicate UniqueKeys(groups: seq<Group>) {
    && (forall g :: multiset(groups)[g] <= 1)
    && (forall a, b :: a in groups && b in groups && a.key == b.key ==> a == b)
  }

  method MakeGroup(results: seq<TestResult>, key: GroupKey, entries: seq<TestResult>) returns (g: Group)
    requires entries == Filter(results, key) && entries != []
    ensures g.key == key && GoodGroup(results, g)
  {
    OrdersAreTotal();
    var sorted := Sort(SizeLeq, entries);
    assert |multiset(sorted)| == |multiset(entries)|;
    g := Group(key, sorted);
  }

  method CollectGroups(results: seq<TestResult>, byKey: map<GroupKey, seq<TestResult>>) returns (groups: seq<Group>)
    requires forall k :: Filter(results, k) == if k in byKey then byKey[k] else []
    requires forall k :: k in byKey ==> byKey[k] != []
    ensures UniqueKeys(groups) && KeySet(groups) == byKey.Keys
    ensures forall g :: g in groups ==> GoodGroup(results, g)
  {
    hide UniqueKeys, GoodGroup, Filter;
    groups := [];
    NoKeys();
    var keys := byKey.Keys;
    while keys != {}
      invariant keys <= byKey.Keys && KeySet(groups) == byKey.Keys - keys
      invariant UniqueKeys(groups)
      invariant forall g :: g in groups ==> GoodGroup(results, g)
      decreases |keys|
    {
      var key :| key in keys;
      var g := MakeGroup(results, key, byKey[key]);
      AddKey(groups, g);
      groups := groups + [g];
      keys := keys - {key};
    }
  }

  lemma NoKeys()
    ensures UniqueKeys([])
  {
  }

  lemma AddKey(groups: seq<Group>, g: Group)
    requires UniqueKeys(groups) && g.key !in KeySet(groups)
    ensures UniqueKeys(groups + [g]) && KeySet(groups + [g]) == KeySet(groups) + {g.key}
  {
    assert g !in groups;
    assert forall a :: a in groups + [g] <==> a in groups || a == g;
    assert multiset(groups)[g] == 0;
  }

  lemma Permuted(results: seq<TestResult>, collected: seq<Group>, groups: seq<Group>)
    requires UniqueKeys(collected) && SortedBy(GroupLeq, groups) && multiset(groups) == multiset(collected)
    requires forall g :: g in collected ==> GoodGroup(results, g)
    requires forall r :: r in results ==> KeyOf(r) in KeySet(collected)
    ensures Aggregates(results, groups)
  {
    forall g ensures g in groups <==> g in collected { SameElements(groups, collected, g); }
    assert KeySet(groups) == KeySet(collected);
    forall i, j | 0 <= i < j < |groups| ensures groups[i].key != groups[j].key {
      if groups[i].key == groups[j].key {
        assert groups[i] == groups[j];
        Repeated(groups, i, j);
        assert false;
      }
    }
  }

  // ----- thresholds and totals -----

  /** The first size whose loss reaches the threshold. */
  ghost predicate FirstAt(results: seq<TestResult>, threshold: real, size: Option<int>) {
    match size
    case None => forall i :: 0 <= i < |results| ==> LossPercent(results[i]) < threshold
    case Some(v) =>
      exists i :: 0 <= i < |results| && results[i].payloadSize == v && LossPercent(results[i]) >= threshold
                  && forall j :: 0 <= j < i ==> LossPercent(results[j]) < threshold
  }

  method FindCriticalSize(results: seq<TestResult>, threshold: real) returns (size: Option<int>)
    ensures FirstAt(results, threshold, size)
  {
    for i := 0 to |results|
      invariant forall j :: 0 <= j < i ==> LossPercent(results[j]) < threshold
    {
      if LossPercent(results[i]) >= threshold {
        return Some(results[i].payloadSize);
      }
    }
    return None;
  }

  ghost predicate CriticalFor(g: Group, threshold: real, c: CriticalSize) {
    c.key == g.key && FirstAt(g.results, threshold, c.size)
  }

  method ComputeCriticalSizes(groups: seq<Group>, threshold: real) returns (sizes: seq<CriticalSize>)
    ensures |sizes| == |groups|
    ensures forall i :: 0 <= i < |groups| ==> CriticalFor(groups[i], threshold, sizes[i])
  {
    sizes := [];
    for i := 0 to |groups|
      invariant |sizes| == i
      invariant forall j :: 0 <= j < i ==> CriticalFor(groups[j], threshold, sizes[j])
    {
      var size := FindCriticalSize(groups[i].results, threshold);
      sizes := sizes + [CriticalSize(groups[i].key, size)];
    }
  }

  function Sent(r: TestResult): int { r.sent }

  function Received(r: TestResult): int { r.received }

  /** The sum of one count over a list of results. */
  function Total(count: TestResult -> int, results: seq<TestResult>): int {
    if results == [] then 0
    else Total(count, results[..|results| - 1]) + count(results[|results| - 1])
  }

  method BuildReport(results: seq<TestResult>) returns (r: Report)
    ensures Aggregates(results, r.groups)
    ensures |r.criticalSizes| == |r.groups|
    ensures forall i :: 0 <= i < |r.groups| ==> CriticalFor(r.groups[i], THRESHOLD, r.criticalSizes[i])
    ensures r.totalTests == |results|
    ensures r.totalSent == Total(Sent, results) && r.totalReceived == Total(Received, results)
  {
    var groups := AggregateResults(results);
    var criticalSizes := ComputeCriticalSizes(groups, THRESHOLD);
    var totalSent, totalReceived := 0, 0;
    for i := 0 to |results|
      invariant totalSent == Total(Sent, results[..i]) && totalReceived == Total(Received, results[..i])
    {
      assert results[..i + 1][..i] == results[..i];
      totalSent := totalSent + results[i].sent;
      totalReceived := totalReceived + results[i].received;
    }
    assert results[..|results|] == results;
    return Report(groups, criticalSizes, |results|, totalSent, totalReceived);
  }

  /** FormatReport's search for a group's critical size: the first entry with the group's key. */
  method FindEntry(sizes: seq<CriticalSize>, key: GroupKey) returns (found: Option<nat>)
    ensures found.Some? ==> found.value < |sizes| && sizes[found.value].key == key
                            && forall j :: 0 <= j < found.value ==> sizes[j].key != key
    ensures found.None? ==> forall j :: 0 <= j < |sizes| ==> sizes[j].key != key
  {
    for i := 0 to |sizes|
      invariant forall j :: 0 <= j < i ==> sizes[j].key != key
    {
      if sizes[i].key.family == key.family && sizes[i].key.port == key.port && sizes[i].key.direction == key.direction {
        return Some(i);
      }
    }
    return None;
  }
}
