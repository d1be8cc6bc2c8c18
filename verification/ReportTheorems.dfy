/** What an aggregated report says about the results it was made from. */
module ReportTheorems {
  import opened Protocol
  import opened Sorting
  import opened Report

  /** The results of all groups, in report order. */
  function Flatten(groups: seq<Group>): seq<TestResult> {
    if groups == [] then [] else Flatten(groups[..|groups| - 1]) + groups[|groups| - 1].results
  }

  // ----- partition -----

  lemma {:induction false} FilterCount(results: seq<TestResult>, k: GroupKey, x: TestResult)
    ensures multiset(Filter(results, k))[x] == if KeyOf(x) == k then multiset(results)[x] else 0
    decreases |results|
  {
    if results != [] {
      var n := |results| - 1;
      FilterCount(results[..n], k, x);
      assert results == results[..n] + [results[n]];
    }
  }

  lemma {:induction false} FlattenCount(results: seq<TestResult>, groups: seq<Group>, x: TestResult)
    requires DistinctKeys(groups) && forall g :: g in groups ==> GoodGroup(results, g)
    ensures multiset(Flatten(groups))[x] == if KeyOf(x) in KeySet(groups) then multiset(results)[x] else 0
    decreases |groups|
  {
    if groups != [] {
      var n := |groups| - 1;
      var (front, last) := (groups[..n], groups[n]);
      assert groups == front + [last];
      FlattenCount(results, front, x);
      FilterCount(results, last.key, x);
      assert last in groups;
      assert forall g :: g in front ==> g.key != last.key;
      assert KeySet(groups) == KeySet(front) + {last.key};
    }
  }

  /** Every result lands in exactly one place. */
  lemma AggregationIsAPartition(results: seq<TestResult>, groups: seq<Group>)
    requires Aggregates(results, groups)
    ensures multiset(Flatten(groups)) == multiset(results)
  {
    forall x ensures multiset(Flatten(groups))[x] == multiset(results)[x] {
      FlattenCount(results, groups, x);
      if x in multiset(results) { assert x in results; }
    }
  }

  // ----- order -----

  lemma GroupMembers(results: seq<TestResult>, g: Group, x: TestResult)
    requires GoodGroup(results, g) && x in g.results
    ensures KeyOf(x) == g.key && x in results
  {
    SameElements(g.results, Filter(results, g.key), x);
  }

  lemma {:induction false} FlattenMembers(results: seq<TestResult>, groups: seq<Group>, x: TestResult)
    requires forall g :: g in groups ==> GoodGroup(results, g)
    requires x in Flatten(groups)
    ensures KeyOf(x) in KeySet(groups)
    decreases |groups|
  {
    var n := |groups| - 1;
    assert groups[n] in groups;
    if x in groups[n].results {
      GroupMembers(results, groups[n], x);
    } else {
      FlattenMembers(results, groups[..n], x);
      assert KeySet(groups[..n]) <= KeySet(groups);
    }
  }

  lemma AppendSorted<T>(leq: (T, T) -> bool, a: seq<T>, b: seq<T>)
    requires SortedBy(leq, a) && SortedBy(leq, b)
    requires forall x, y :: x in a && y in b ==> leq(x, y)
    ensures SortedBy(leq, a + b)
  {
  }

  /** Reading the groups one after another gives report order. */
  lemma {:induction false} FlattenSorted(results: seq<TestResult>, groups: seq<Group>)
    requires SortedBy(GroupLeq, groups) && DistinctKeys(groups) && forall g :: g in groups ==> GoodGroup(results, g)
    ensures SortedBy(ResultLeq, Flatten(groups))
    decreases |groups|
  {
    if groups != [] {
      var n := |groups| - 1;
      var (front, last) := (groups[..n], groups[n]);
      assert last in groups;
      FlattenSorted(results, front);
      forall x | x in last.results ensures KeyOf(x) == last.key { GroupMembers(results, last, x); }
      assert SortedBy(ResultLeq, last.results);
      forall x, y | x in Flatten(front) && y in last.results ensures ResultLeq(x, y) {
        FlattenMembers(results, front, x);
      }
      AppendSorted(ResultLeq, Flatten(front), last.results);
    }
  }

  /** Results that come in report order, as those of a sweep do, pass through unchanged. */
  lemma OrderedResultsAreKept(results: seq<TestResult>, groups: seq<Group>)
    requires Aggregates(results, groups)
    requires SortedBy(ResultLeq, results) && NoTies(ResultLeq, results)
    ensures Flatten(groups) == results
  {
    OrdersAreTotal();
    AggregationIsAPartition(results, groups);
    FlattenSorted(results, groups);
    OneSortedForm(ResultLeq, results, Flatten(groups));
  }

  // ----- determinism -----

  lemma {:induction false} KeyCountsOnce(groups: seq<Group>, g: Group)
    requires DistinctKeys(groups)
    ensures multiset(groups)[g] == if g in groups then 1 else 0
    decreases |groups|
  {
    if groups != [] {
      var n := |groups| - 1;
      assert groups == groups[..n] + [groups[n]];
      KeyCountsOnce(groups[..n], g);
      if g in groups[..n] { var i :| 0 <= i < n && groups[i] == g; assert groups[i].key != groups[n].key; }
    }
  }

  /** A group is determined by the results of its key, when sizes do not tie. */
  lemma GroupIsDetermined(r1: seq<TestResult>, r2: seq<TestResult>, a: Group, b: Group)
    requires GoodGroup(r1, a) && GoodGroup(r2, b) && a.key == b.key
    requires multiset(r1) == multiset(r2) && NoTies(ResultLeq, r1)
    ensures a == b
  {
    OrdersAreTotal();
    forall x ensures multiset(Filter(r1, a.key))[x] == multiset(Filter(r2, a.key))[x] {
      FilterCount(r1, a.key, x);
      FilterCount(r2, a.key, x);
    }
    assert multiset(a.results) == multiset(b.results);
    forall x, y | x in a.results && y in a.results && SizeLeq(x, y) && SizeLeq(y, x) ensures x == y {
      GroupMembers(r1, a, x);
      GroupMembers(r1, a, y);
    }
    OneSortedForm(SizeLeq, a.results, b.results);
  }

  lemma GroupRecurs(r1: seq<TestResult>, r2: seq<TestResult>, g1: seq<Group>, g2: seq<Group>, g: Group)
    requires Aggregates(r1, g1) && Aggregates(r2, g2) && multiset(r1) == multiset(r2) && NoTies(ResultLeq, r1)
    requires g in g1
    ensures g in g2
  {
    var x := g.results[0];
    GroupMembers(r1, g, x);
    SameElements(r1, r2, x);
    var b :| b in g2 && b.key == g.key;
    GroupIsDetermined(r1, r2, g, b);
  }

  /** Without ties the report does not depend on the order of the results, on the order in which
      the map is visited, or on how the sorts place equal elements. */
  lemma AggregationIsDeterministic(r1: seq<TestResult>, r2: seq<TestResult>, g1: seq<Group>, g2: seq<Group>)
    requires Aggregates(r1, g1) && Aggregates(r2, g2)
    requires multiset(r1) == multiset(r2) && NoTies(ResultLeq, r1)
    ensures g1 == g2
  {
    forall x, y | x in r2 && y in r2 && ResultLeq(x, y) && ResultLeq(y, x) ensures x == y {
      SameElements(r1, r2, x);
      SameElements(r1, r2, y);
    }
    forall g ensures multiset(g1)[g] == multiset(g2)[g] {
      if g in g1 { GroupRecurs(r1, r2, g1, g2, g); }
      if g in g2 { GroupRecurs(r2, r1, g2, g1, g); }
      KeyCountsOnce(g1, g);
      KeyCountsOnce(g2, g);
    }
    OrdersAreTotal();
    forall a, b | a in g1 && b in g1 && GroupLeq(a, b) && GroupLeq(b, a) ensures a == b {
      var i :| 0 <= i < |g1| && g1[i] == a;
      var j :| 0 <= j < |g1| && g1[j] == b;
      assert a.key == b.key;
    }
    OneSortedForm(GroupLeq, g1, g2);
  }

  // ----- thresholds -----

  /** In size order, the first result at the threshold has the smallest size. */
  lemma FirstIsMinimum(results: seq<TestResult>, threshold: real, size: int, r: TestResult)
    requires SortedBy(SizeLeq, results) && FirstAt(results, threshold, Some(size))
    requires r in results && LossPercent(r) >= threshold
    ensures size <= r.payloadSize
  {
    var j :| 0 <= j < |results| && results[j] == r;
  }

  lemma FirstIsAttained(results: seq<TestResult>, threshold: real, size: int) returns (r: TestResult)
    requires FirstAt(results, threshold, Some(size))
    ensures r in results && r.payloadSize == size && LossPercent(r) >= threshold
  {
    var i :| 0 <= i < |results| && results[i].payloadSize == size && LossPercent(results[i]) >= threshold;
    r := results[i];
  }

  /** size is the smallest payload size of the key whose loss reaches the threshold, if any. */
  ghost predicate SmallestAt(results: seq<TestResult>, key: GroupKey, threshold: real, size: Option<int>) {
    match size
    case None => forall r :: r in results && KeyOf(r) == key ==> LossPercent(r) < threshold
    case Some(v) =>
      && (exists r :: r in results && KeyOf(r) == key && LossPercent(r) >= threshold && r.payloadSize == v)
      && (forall r :: r in results && KeyOf(r) == key && LossPercent(r) >= threshold ==> v <= r.payloadSize)
  }

  /** A group's critical size is the smallest payload size, among all input results of its key,
      whose loss reaches the threshold; there is none exactly when no such result exists. */
  lemma CriticalSizeIsTheMinimum(
    results: seq<TestResult>, groups: seq<Group>, g: Group, threshold: real, size: Option<int>)
    requires Aggregates(results, groups) && g in groups
    ensures FirstAt(g.results, threshold, size) ==> SmallestAt(results, g.key, threshold, size)
  {
    forall r ensures r in g.results <==> r in results && KeyOf(r) == g.key {
      SameElements(g.results, Filter(results, g.key), r);
    }
    if FirstAt(g.results, threshold, size) && size.Some? {
      var attained := FirstIsAttained(g.results, threshold, size.value);
      forall r | r in results && KeyOf(r) == g.key && LossPercent(r) >= threshold ensures size.value <= r.payloadSize {
        FirstIsMinimum(g.results, threshold, size.value, r);
      }
    }
  }

  lemma Scaled(lost: real, sent: real, percent: real)
    requires sent != 0.0
    ensures lost / sent * 100.0 >= percent <==> if sent > 0.0 then 100.0 * lost >= percent * sent
                                               else 100.0 * lost <= percent * sent
  {
    var q := lost / sent;
    assert q * sent == lost;
    var d := q * 100.0 - percent;
    assert d * sent == 100.0 * lost - percent * sent;
  }

  /** Loss reaches the report's threshold when at least one probe in twenty is lost, and never when
      none was sent. */
  lemma OneInTwenty(r: TestResult)
    ensures r.sent > 0 ==> (LossPercent(r) >= THRESHOLD <==> 20 * r.lost >= r.sent)
    ensures r.sent < 0 ==> (LossPercent(r) >= THRESHOLD <==> 20 * r.lost <= r.sent)
    ensures r.sent == 0 ==> LossPercent(r) < THRESHOLD
  {
    if r.sent != 0 { Scaled(r.lost as real, r.sent as real, THRESHOLD); }
  }

  /** A report names, for each of its groups, the smallest payload size with 20 * lost >= sent among all
      input results of the group's family, port and direction, and no size exactly when there is no such
      result. */
  lemma ReportNamesTheCriticalSize(results: seq<TestResult>, rep: Report, i: nat)
    requires Aggregates(results, rep.groups) && |rep.criticalSizes| == |rep.groups| && i < |rep.groups|
    requires forall j :: 0 <= j < |rep.groups| ==> CriticalFor(rep.groups[j], THRESHOLD, rep.criticalSizes[j])
    ensures var CriticalSize(k, size) := rep.criticalSizes[i];
      && k == rep.groups[i].key
      && (forall r :: r in results && r.family == k.family && r.udpPort == k.port && r.direction == k.direction
            && (if r.sent > 0 then 20 * r.lost >= r.sent else r.sent < 0 && 20 * r.lost <= r.sent)
            ==> size.Some? && size.value <= r.payloadSize)
      && (size.Some? ==>
            exists r :: r in results && r.family == k.family && r.udpPort == k.port && r.direction == k.direction
              && r.payloadSize == size.value
              && if r.sent > 0 then 20 * r.lost >= r.sent else r.sent < 0 && 20 * r.lost <= r.sent)
  {
    var CriticalSize(k, size) := rep.criticalSizes[i];
    assert CriticalFor(rep.groups[i], THRESHOLD, rep.criticalSizes[i]);
    CriticalSizeIsTheMinimum(results, rep.groups, rep.groups[i], THRESHOLD, size);
    hide LossPercent;
    forall r ensures LossPercent(r) >= THRESHOLD <==>
        if r.sent > 0 then 20 * r.lost >= r.sent else r.sent < 0 && 20 * r.lost <= r.sent { OneInTwenty(r); }
  }

  /** Groups stand with IPv4 before IPv6, then by port, then with uplink before downlink; the results of
      each by payload size. */
  lemma ReportOrder(results: seq<TestResult>, groups: seq<Group>, i: nat, j: nat)
    requires Aggregates(results, groups) && i <= j < |groups|
    ensures var (a, b) := (groups[i].key, groups[j].key);
      if i == j then true
      else if a.family != b.family then a.family == IPv4
      else if a.port != b.port then a.port < b.port
      else a.direction != b.direction && (a.direction == Uplink || b.direction == Both)
    ensures forall k, l :: 0 <= k < l < |groups[i].results| ==>
      groups[i].results[k].payloadSize <= groups[i].results[l].payloadSize
  {
    assert i < j ==> GroupLeq(groups[i], groups[j]);
    assert GoodGroup(results, groups[i]);
    forall k, l | 0 <= k < l < |groups[i].results|
      ensures groups[i].results[k].payloadSize <= groups[i].results[l].payloadSize {
      assert SizeLeq(groups[i].results[k], groups[i].results[l]);
    }
  }

  /** The search by key in FormatReport ends at the group's own index. */
  lemma EntryIsOwn(groups: seq<Group>, sizes: seq<CriticalSize>, threshold: real, i: nat, found: Option<nat>)
    requires DistinctKeys(groups) && |sizes| == |groups| && i < |groups|
    requires forall j :: 0 <= j < |groups| ==> CriticalFor(groups[j], threshold, sizes[j])
    requires found.Some? ==> found.value < |sizes| && sizes[found.value].key == groups[i].key
    requires found.None? ==> forall j :: 0 <= j < |sizes| ==> sizes[j].key != groups[i].key
    ensures found == Some(i)
  {
    assert CriticalFor(groups[i], threshold, sizes[i]);
    if found.Some? {
      assert CriticalFor(groups[found.value], threshold, sizes[found.value]);
    }
  }

  // ----- totals -----

  lemma {:induction false} TotalSplit(count: TestResult -> int, s: seq<TestResult>, k: nat)
    requires k < |s|
    ensures Total(count, s) == count(s[k]) + Total(count, s[..k] + s[k + 1..])
    decreases |s|
  {
    var n := |s| - 1;
    if k < n {
      TotalSplit(count, s[..n], k);
      var t := s[..k] + s[k + 1..];
      assert t[..|t| - 1] == s[..n][..k] + s[..n][k + 1..];
    } else {
      assert s[..k] + s[k + 1..] == s[..n];
    }
  }

  lemma WithoutOne<T>(s: seq<T>, k: nat)
    requires k < |s|
    ensures multiset(s[..k] + s[k + 1..]) == multiset(s) - multiset{s[k]}
  {
    assert s == s[..k] + [s[k]] + s[k + 1..];
  }

  /** The last term of a list, found in a permutation of it and taken out of both. */
  lemma Partner<T>(a: seq<T>, b: seq<T>) returns (k: nat)
    requires multiset(a) == multiset(b) && a != []
    ensures k < |b| && b[k] == a[|a| - 1]
    ensures multiset(a[..|a| - 1]) == multiset(b[..k] + b[k + 1..])
  {
    var n := |a| - 1;
    SameElements(a, b, a[n]);
    k :| 0 <= k < |b| && b[k] == a[n];
    WithoutOne(b, k);
    WithoutOne(a, n);
    assert a[..n] + a[n + 1..] == a[..n];
  }

  /** A total does not depend on the order of its terms. */
  lemma {:induction false} TotalPermuted(count: TestResult -> int, a: seq<TestResult>, b: seq<TestResult>)
    requires multiset(a) == multiset(b)
    ensures Total(count, a) == Total(count, b)
    decreases |a|
  {
    if a == [] {
      assert |b| == |multiset(b)| == 0;
    } else {
      var n := |a| - 1;
      var k := Partner(a, b);
      TotalSplit(count, b, k);
      TotalPermuted(count, a[..n], b[..k] + b[k + 1..]);
    }
  }

  function Lost(r: TestResult): int { r.lost }

  lemma {:induction false} LostAddsUp(results: seq<TestResult>)
    requires forall r :: r in results ==> r.lost == r.sent - r.received
    ensures Total(Sent, results) - Total(Received, results) == Total(Lost, results)
    decreases |results|
  {
    if results != [] {
      LostAddsUp(results[..|results| - 1]);
    }
  }

  /** The totals of the report are the totals over its groups, and when every result has
      lost = sent - received, their difference is the total loss. */
  lemma TotalsAddUp(results: seq<TestResult>, groups: seq<Group>)
    requires Aggregates(results, groups)
    ensures Total(Sent, results) == Total(Sent, Flatten(groups))
    ensures Total(Received, results) == Total(Received, Flatten(groups))
    ensures (forall r :: r in results ==> r.lost == r.sent - r.received)
            ==> Total(Sent, results) - Total(Received, results) == Total(Lost, Flatten(groups))
  {
    AggregationIsAPartition(results, groups);
    TotalPermuted(Sent, results, Flatten(groups));
    TotalPermuted(Received, results, Flatten(groups));
    TotalPermuted(Lost, results, Flatten(groups));
    if forall r :: r in results ==> r.lost == r.sent - r.received {
      LostAddsUp(results);
    }
  }
}
