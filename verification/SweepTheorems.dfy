/** The shape and order of sweep plans, and the agreement of plan order with report order. */
module SweepTheorems {
  import opened Protocol
  import opened Sorting
  import opened Ports
  import opened Report
  import opened ReportTheorems
  import opened Sweep

  // ----- entries by index -----

  /** The product, by repeated addition: how many entries q blocks of size m hold. */
  function Times(q: nat, m: nat): nat {
    if q == 0 then 0 else Times(q - 1, m) + m
  }

  lemma {:induction false} TimesIsProduct(q: nat, m: nat)
    ensures Times(q, m) == q * m
  {
    if q > 0 {
      TimesIsProduct(q - 1, m);
      assert q * m == (q - 1) * m + m;
    }
  }

  lemma {:induction false} TimesMonotone(a: nat, b: nat, m: nat)
    requires a < b
    ensures Times(a, m) + m <= Times(b, m)
    decreases b
  {
    if a < b - 1 { TimesMonotone(a, b - 1, m); }
  }

  function Concat<T>(blocks: seq<seq<T>>): seq<T> {
    if blocks == [] then [] else Concat(blocks[..|blocks| - 1]) + blocks[|blocks| - 1]
  }

  lemma ConcatAppend<T>(blocks: seq<seq<T>>, block: seq<T>)
    ensures Concat(blocks + [block]) == Concat(blocks) + block
  {
    assert (blocks + [block])[..|blocks|] == blocks;
  }

  ghost predicate AllOfSize<T>(blocks: seq<seq<T>>, m: nat) {
    forall i :: 0 <= i < |blocks| ==> |blocks[i]| == m
  }

  lemma {:induction false} ConcatLength<T>(blocks: seq<seq<T>>, m: nat)
    requires AllOfSize(blocks, m)
    ensures |Concat(blocks)| == Times(|blocks|, m)
    decreases |blocks|
  {
    if blocks != [] { ConcatLength(blocks[..|blocks| - 1], m); }
  }

  lemma {:induction false} ConcatEntry<T>(blocks: seq<seq<T>>, m: nat, i: nat, n: nat)
    requires AllOfSize(blocks, m) && i < |blocks| && n < m
    ensures Times(i, m) + n < |Concat(blocks)| && Concat(blocks)[Times(i, m) + n] == blocks[i][n]
    decreases |blocks|
  {
    var q := |blocks| - 1;
    var before, last := Concat(blocks[..q]), blocks[q];
    ConcatLength(blocks[..q], m);
    assert Concat(blocks) == before + last;
    if i < q {
      ConcatEntry(blocks[..q], m, i, n);
    }
  }

  lemma {:induction false} BySizeEntry(f: Family, p: int, d: Direction, sizes: seq<int>)
    ensures |BySize(f, p, d, sizes)| == |sizes|
    ensures forall l :: 0 <= l < |sizes| ==> BySize(f, p, d, sizes)[l] == SweepPlan(f, p, d, sizes[l])
    decreases |sizes|
  {
    if sizes != [] { BySizeEntry(f, p, d, sizes[..|sizes| - 1]); }
  }

  lemma {:induction false} ByDirectionBlocks(f: Family, p: int, ds: seq<Direction>, sizes: seq<int>)
    returns (blocks: seq<seq<SweepPlan>>)
    ensures ByDirection(f, p, ds, sizes) == Concat(blocks)
    ensures |blocks| == |ds| && forall k :: 0 <= k < |ds| ==> blocks[k] == BySize(f, p, ds[k], sizes)
    decreases |ds|
  {
    if ds == [] { return []; }
    var before := ByDirectionBlocks(f, p, ds[..|ds| - 1], sizes);
    ConcatAppend(before, BySize(f, p, ds[|ds| - 1], sizes));
    blocks := before + [BySize(f, p, ds[|ds| - 1], sizes)];
  }

  lemma {:induction false} ByPortBlocks(f: Family, ports: seq<int>, ds: seq<Direction>, sizes: seq<int>)
    returns (blocks: seq<seq<SweepPlan>>)
    ensures ByPort(f, ports, ds, sizes) == Concat(blocks)
    ensures |blocks| == |ports| && forall j :: 0 <= j < |ports| ==> blocks[j] == ByDirection(f, ports[j], ds, sizes)
    decreases |ports|
  {
    if ports == [] { return []; }
    var before := ByPortBlocks(f, ports[..|ports| - 1], ds, sizes);
    ConcatAppend(before, ByDirection(f, ports[|ports| - 1], ds, sizes));
    blocks := before + [ByDirection(f, ports[|ports| - 1], ds, sizes)];
  }

  lemma {:induction false} ByFamilyBlocks(families: seq<Family>, ports: seq<int>, ds: seq<Direction>, sizes: seq<int>)
    returns (blocks: seq<seq<SweepPlan>>)
    ensures ByFamily(families, ports, ds, sizes) == Concat(blocks)
    ensures |blocks| == |families|
    ensures forall i :: 0 <= i < |families| ==> blocks[i] == ByPort(families[i], ports, ds, sizes)
    decreases |families|
  {
    if families == [] { return []; }
    var before := ByFamilyBlocks(families[..|families| - 1], ports, ds, sizes);
    ConcatAppend(before, ByPort(families[|families| - 1], ports, ds, sizes));
    blocks := before + [ByPort(families[|families| - 1], ports, ds, sizes)];
  }

  lemma ByDirectionLength(f: Family, p: int, ds: seq<Direction>, sizes: seq<int>)
    ensures |ByDirection(f, p, ds, sizes)| == Times(|ds|, |sizes|)
  {
    var blocks := ByDirectionBlocks(f, p, ds, sizes);
    forall k | 0 <= k < |ds| ensures |blocks[k]| == |sizes| { BySizeEntry(f, p, ds[k], sizes); }
    ConcatLength(blocks, |sizes|);
  }

  lemma ByPortLength(f: Family, ports: seq<int>, ds: seq<Direction>, sizes: seq<int>)
    ensures |ByPort(f, ports, ds, sizes)| == Times(|ports|, Times(|ds|, |sizes|))
  {
    var blocks := ByPortBlocks(f, ports, ds, sizes);
    var m := Times(|ds|, |sizes|);
    forall j | 0 <= j < |ports| ensures |blocks[j]| == m { ByDirectionLength(f, ports[j], ds, sizes); }
    ConcatLength(blocks, m);
  }

  /** The number of tests of a plan. */
  lemma PlanLength(families: seq<Family>, ports: seq<int>, ds: seq<Direction>, sizes: seq<int>)
    ensures |ByFamily(families, ports, ds, sizes)| == |families| * (|ports| * (|ds| * |sizes|))
  {
    var blocks := ByFamilyBlocks(families, ports, ds, sizes);
    var m := Times(|ports|, Times(|ds|, |sizes|));
    forall i | 0 <= i < |families| ensures |blocks[i]| == m { ByPortLength(families[i], ports, ds, sizes); }
    ConcatLength(blocks, m);
    TimesIsProduct(|ds|, |sizes|);
    TimesIsProduct(|ports|, |ds| * |sizes|);
    TimesIsProduct(|families|, m);
  }

  /** Every index below q * m lies in one of q blocks. */
  lemma {:induction false} BlockOf(n: nat, m: nat, q: nat) returns (i: nat, r: nat)
    requires n < Times(q, m)
    ensures i < q && r < m && n == Times(i, m) + r
    decreases q
  {
    if Times(q - 1, m) <= n {
      return q - 1, n - Times(q - 1, m);
    }
    i, r := BlockOf(n, m, q - 1);
  }

  lemma BlockUnique(m: nat, i: nat, r: nat, i': nat, r': nat)
    requires r < m && r' < m && Times(i, m) + r == Times(i', m) + r'
    ensures i == i' && r == r'
  {
    if i < i' { TimesMonotone(i, i', m); }
    if i' < i { TimesMonotone(i', i, m); }
  }

  lemma Horner(i: nat, j: nat, k: nat, l: nat, ports: nat, ds: nat, sizes: nat)
    ensures Times(i, Times(ports, Times(ds, sizes))) + Times(j, Times(ds, sizes)) + Times(k, sizes) + l
            == ((i * ports + j) * ds + k) * sizes + l
  {
    TimesIsProduct(ds, sizes);
    TimesIsProduct(ports, ds * sizes);
    TimesIsProduct(i, ports * (ds * sizes));
    TimesIsProduct(j, ds * sizes);
    TimesIsProduct(k, sizes);
    Distribute(i, j, k, ports, ds, sizes);
  }

  lemma Distribute(i: int, j: int, k: int, ports: int, ds: int, sizes: int)
    ensures i * (ports * (ds * sizes)) + j * (ds * sizes) + k * sizes == ((i * ports + j) * ds + k) * sizes
  {
    var a := i * ports;
    calc {
      ((a + j) * ds + k) * sizes;
      (a + j) * ds * sizes + k * sizes;
      (a + j) * (ds * sizes) + k * sizes;
      a * (ds * sizes) + j * (ds * sizes) + k * sizes;
    }
    assert a * (ds * sizes) == i * (ports * (ds * sizes));
  }

  lemma PortEntry(f: Family, p: int, ds: seq<Direction>, sizes: seq<int>, n: nat) returns (k: nat, l: nat)
    requires n < |ByDirection(f, p, ds, sizes)|
    ensures k < |ds| && l < |sizes| && n == Times(k, |sizes|) + l
    ensures ByDirection(f, p, ds, sizes)[n] == SweepPlan(f, p, ds[k], sizes[l])
  {
    var blocks := ByDirectionBlocks(f, p, ds, sizes);
    forall k | 0 <= k < |ds| ensures |blocks[k]| == |sizes| { BySizeEntry(f, p, ds[k], sizes); }
    k, l := ConcatDecode(blocks, |sizes|, n);
    BySizeEntry(f, p, ds[k], sizes);
  }

  lemma ConcatDecode<T>(blocks: seq<seq<T>>, m: nat, n: nat) returns (i: nat, r: nat)
    requires AllOfSize(blocks, m) && n < |Concat(blocks)|
    ensures i < |blocks| && r < m && n == Times(i, m) + r && Concat(blocks)[n] == blocks[i][r]
  {
    ConcatLength(blocks, m);
    i, r := BlockOf(n, m, |blocks|);
    ConcatEntry(blocks, m, i, r);
  }

  lemma FamilyEntry(f: Family, ports: seq<int>, ds: seq<Direction>, sizes: seq<int>, n: nat)
    returns (j: nat, k: nat, l: nat)
    requires n < |ByPort(f, ports, ds, sizes)|
    ensures j < |ports| && k < |ds| && l < |sizes|
    ensures n == Times(j, Times(|ds|, |sizes|)) + Times(k, |sizes|) + l
    ensures ByPort(f, ports, ds, sizes)[n] == SweepPlan(f, ports[j], ds[k], sizes[l])
  {
    var blocks := ByPortBlocks(f, ports, ds, sizes);
    var m, r := Times(|ds|, |sizes|), 0;
    forall j | 0 <= j < |ports| ensures |blocks[j]| == m { ByDirectionLength(f, ports[j], ds, sizes); }
    j, r := ConcatDecode(blocks, m, n);
    k, l := PortEntry(f, ports[j], ds, sizes, r);
  }

  /** The index of a combination: its digits in mixed radix, with the size as the fastest. */
  function Index(i: nat, j: nat, k: nat, l: nat, ports: nat, ds: nat, sizes: nat): nat {
    ((i * ports + j) * ds + k) * sizes + l
  }

  lemma EntryDigits(families: seq<Family>, ports: seq<int>, ds: seq<Direction>, sizes: seq<int>, n: nat)
    returns (i: nat, j: nat, k: nat, l: nat)
    requires n < |ByFamily(families, ports, ds, sizes)|
    ensures i < |families| && j < |ports| && k < |ds| && l < |sizes|
    ensures n == Times(i, Times(|ports|, Times(|ds|, |sizes|))) + Times(j, Times(|ds|, |sizes|)) + Times(k, |sizes|) + l
    ensures ByFamily(families, ports, ds, sizes)[n] == SweepPlan(families[i], ports[j], ds[k], sizes[l])
  {
    var blocks := ByFamilyBlocks(families, ports, ds, sizes);
    var m, r := Times(|ports|, Times(|ds|, |sizes|)), 0;
    forall i | 0 <= i < |families| ensures |blocks[i]| == m { ByPortLength(families[i], ports, ds, sizes); }
    i, r := ConcatDecode(blocks, m, n);
    j, k, l := FamilyEntry(families[i], ports, ds, sizes, r);
  }

  /** Entry n of a plan is the combination whose digits are those of n. */
  lemma PlanEntry(families: seq<Family>, ports: seq<int>, ds: seq<Direction>, sizes: seq<int>, n: nat)
    returns (i: nat, j: nat, k: nat, l: nat)
    requires n < |ByFamily(families, ports, ds, sizes)|
    ensures i < |families| && j < |ports| && k < |ds| && l < |sizes|
    ensures n == Index(i, j, k, l, |ports|, |ds|, |sizes|)
    ensures ByFamily(families, ports, ds, sizes)[n] == SweepPlan(families[i], ports[j], ds[k], sizes[l])
  {
    i, j, k, l := EntryDigits(families, ports, ds, sizes, n);
    Horner(i, j, k, l, |ports|, |ds|, |sizes|);
  }

  lemma InBlock(k: nat, l: nat, q: nat, m: nat)
    requires k < q && l < m
    ensures Times(k, m) + l < Times(q, m)
  {
    TimesMonotone(k, q, m);
  }

  /** An index has only one list of digits. */
  lemma IndexIsUnique(
    i: nat, j: nat, k: nat, l: nat, i': nat, j': nat, k': nat, l': nat, ports: nat, ds: nat, sizes: nat)
    requires j < ports && k < ds && l < sizes && j' < ports && k' < ds && l' < sizes
    requires Index(i, j, k, l, ports, ds, sizes) == Index(i', j', k', l', ports, ds, sizes)
    ensures i == i' && j == j' && k == k' && l == l'
  {
    Horner(i, j, k, l, ports, ds, sizes);
    Horner(i', j', k', l', ports, ds, sizes);
    var m2 := Times(ds, sizes);
    var n2, n2' := Times(k, sizes) + l, Times(k', sizes) + l';
    InBlock(k, l, ds, sizes);
    InBlock(k', l', ds, sizes);
    InBlock(j, n2, ports, m2);
    InBlock(j', n2', ports, m2);
    BlockUnique(Times(ports, m2), i, Times(j, m2) + n2, i', Times(j', m2) + n2');
    BlockUnique(m2, j, n2, j', n2');
    BlockUnique(sizes, k, l, k', l');
  }

  lemma IndexInRange(i: nat, j: nat, k: nat, l: nat, families: nat, ports: nat, ds: nat, sizes: nat)
    requires i < families && j < ports && k < ds && l < sizes
    ensures Index(i, j, k, l, ports, ds, sizes) < families * (ports * (ds * sizes))
  {
    Horner(i, j, k, l, ports, ds, sizes);
    var m := Times(ds, sizes);
    InBlock(k, l, ds, sizes);
    InBlock(j, Times(k, sizes) + l, ports, m);
    InBlock(i, Times(j, m) + (Times(k, sizes) + l), families, Times(ports, m));
    TimesIsProduct(ds, sizes);
    TimesIsProduct(ports, ds * sizes);
    TimesIsProduct(families, ports * (ds * sizes));
  }

  /** The converse of PlanEntry: every combination stands at the index its digits spell. */
  lemma {:induction false} CombinationEntry(
    families: seq<Family>, ports: seq<int>, ds: seq<Direction>, sizes: seq<int>, i: nat, j: nat, k: nat, l: nat, n: nat)
    requires i < |families| && j < |ports| && k < |ds| && l < |sizes| && n == Index(i, j, k, l, |ports|, |ds|, |sizes|)
    ensures n < |ByFamily(families, ports, ds, sizes)|
    ensures ByFamily(families, ports, ds, sizes)[n] == SweepPlan(families[i], ports[j], ds[k], sizes[l])
  {
    IndexInRange(i, j, k, l, |families|, |ports|, |ds|, |sizes|);
    PlanLength(families, ports, ds, sizes);
    var i', j', k', l' := PlanEntry(families, ports, ds, sizes, n);
    IndexIsUnique(i, j, k, l, i', j', k', l', |ports|, |ds|, |sizes|);
  }

  // ----- order -----

  function PlanKey(p: SweepPlan): GroupKey { GroupKey(p.family, p.port, p.direction) }

  /** By family, port, direction and then size, strictly. */
  predicate PlanLess(a: SweepPlan, b: SweepPlan) {
    if PlanKey(a) != PlanKey(b) then KeyLeq(PlanKey(a), PlanKey(b)) else a.payloadSize < b.payloadSize
  }

  ghost predicate Ascending(plans: seq<SweepPlan>) {
    forall i, j :: 0 <= i < j < |plans| ==> PlanLess(plans[i], plans[j])
  }

  lemma AppendAscending(a: seq<SweepPlan>, b: seq<SweepPlan>)
    requires Ascending(a) && Ascending(b) && forall x, y :: x in a && y in b ==> PlanLess(x, y)
    ensures Ascending(a + b)
  {
  }

  ghost predicate AscendingFamilies(fs: seq<Family>) {
    forall i, j :: 0 <= i < j < |fs| ==> FamilyCode(fs[i]) < FamilyCode(fs[j])
  }

  ghost predicate AscendingDirections(ds: seq<Direction>) {
    forall i, j :: 0 <= i < j < |ds| ==> DirectionCode(ds[i]) < DirectionCode(ds[j])
  }

  // which combinations a plan contains, whatever lists it is made from

  lemma {:induction false} BySizeMembers(f: Family, p: int, d: Direction, sizes: seq<int>)
    ensures forall x :: x in BySize(f, p, d, sizes) <==>
                        x == SweepPlan(f, p, d, x.payloadSize) && x.payloadSize in sizes
    decreases |sizes|
  {
    if sizes != [] {
      var q := |sizes| - 1;
      BySizeMembers(f, p, d, sizes[..q]);
      assert sizes == sizes[..q] + [sizes[q]];
    }
  }

  lemma {:induction false} ByDirectionMembers(f: Family, p: int, ds: seq<Direction>, sizes: seq<int>)
    ensures forall x :: x in ByDirection(f, p, ds, sizes) <==>
                        x.family == f && x.port == p && x.direction in ds && x.payloadSize in sizes
    decreases |ds|
  {
    if ds != [] {
      var q := |ds| - 1;
      ByDirectionMembers(f, p, ds[..q], sizes);
      BySizeMembers(f, p, ds[q], sizes);
      assert ds == ds[..q] + [ds[q]];
    }
  }

  lemma {:induction false} ByPortMembers(f: Family, ports: seq<int>, ds: seq<Direction>, sizes: seq<int>)
    ensures forall x :: x in ByPort(f, ports, ds, sizes) <==>
                        x.family == f && x.port in ports && x.direction in ds && x.payloadSize in sizes
    decreases |ports|
  {
    if ports != [] {
      var q := |ports| - 1;
      ByPortMembers(f, ports[..q], ds, sizes);
      ByDirectionMembers(f, ports[q], ds, sizes);
      assert ports == ports[..q] + [ports[q]];
    }
  }

  lemma {:induction false} PlanMembers(families: seq<Family>, ports: seq<int>, ds: seq<Direction>, sizes: seq<int>)
    ensures forall x :: x in ByFamily(families, ports, ds, sizes) <==>
                        x.family in families && x.port in ports && x.direction in ds && x.payloadSize in sizes
    decreases |families|
  {
    if families != [] {
      var q := |families| - 1;
      PlanMembers(families[..q], ports, ds, sizes);
      ByPortMembers(families[q], ports, ds, sizes);
      assert families == families[..q] + [families[q]];
    }
  }

  // and in which order, when the lists are ascending

  lemma {:induction false} BySizeOrder(f: Family, p: int, d: Direction, sizes: seq<int>)
    requires StrictlyAscending(sizes)
    ensures Ascending(BySize(f, p, d, sizes))
    decreases |sizes|
  {
    if sizes != [] {
      var (q, last) := (|sizes| - 1, SweepPlan(f, p, d, sizes[|sizes| - 1]));
      BySizeOrder(f, p, d, sizes[..q]);
      BySizeMembers(f, p, d, sizes[..q]);
      AppendAscending(BySize(f, p, d, sizes[..q]), [last]);
    }
  }

  lemma {:induction false} ByDirectionOrder(f: Family, p: int, ds: seq<Direction>, sizes: seq<int>)
    requires StrictlyAscending(sizes) && AscendingDirections(ds)
    ensures Ascending(ByDirection(f, p, ds, sizes))
    decreases |ds|
  {
    if ds != [] {
      var q := |ds| - 1;
      ByDirectionOrder(f, p, ds[..q], sizes);
      ByDirectionMembers(f, p, ds[..q], sizes);
      BySizeOrder(f, p, ds[q], sizes);
      BySizeMembers(f, p, ds[q], sizes);
      AppendAscending(ByDirection(f, p, ds[..q], sizes), BySize(f, p, ds[q], sizes));
    }
  }

  lemma {:induction false} ByPortOrder(f: Family, ports: seq<int>, ds: seq<Direction>, sizes: seq<int>)
    requires StrictlyAscending(sizes) && AscendingDirections(ds) && StrictlyAscending(ports)
    ensures Ascending(ByPort(f, ports, ds, sizes))
    decreases |ports|
  {
    if ports != [] {
      var q := |ports| - 1;
      ByPortOrder(f, ports[..q], ds, sizes);
      ByPortMembers(f, ports[..q], ds, sizes);
      ByDirectionOrder(f, ports[q], ds, sizes);
      ByDirectionMembers(f, ports[q], ds, sizes);
      AppendAscending(ByPort(f, ports[..q], ds, sizes), ByDirection(f, ports[q], ds, sizes));
    }
  }

  lemma {:induction false} PlanOrder(families: seq<Family>, ports: seq<int>, ds: seq<Direction>, sizes: seq<int>)
    requires AscendingFamilies(families) && StrictlyAscending(ports)
    requires AscendingDirections(ds) && StrictlyAscending(sizes)
    ensures Ascending(ByFamily(families, ports, ds, sizes))
    decreases |families|
  {
    if families != [] {
      var q := |families| - 1;
      PlanOrder(families[..q], ports, ds, sizes);
      PlanMembers(families[..q], ports, ds, sizes);
      ByPortOrder(families[q], ports, ds, sizes);
      ByPortMembers(families[q], ports, ds, sizes);
      AppendAscending(ByFamily(families[..q], ports, ds, sizes), ByPort(families[q], ports, ds, sizes));
    }
  }

  /** A repeated port makes two entries equal. */
  lemma {:induction false} AscendingPlanPorts(
    families: seq<Family>, ports: seq<int>, ds: seq<Direction>, sizes: seq<int>)
    requires Ascending(ByFamily(families, ports, ds, sizes)) && families != [] && ds != [] && sizes != []
    ensures Distinct(ports)
  {
    forall j, j' | 0 <= j < j' < |ports| ensures ports[j] != ports[j'] {
      var n := Index(0, j, 0, 0, |ports|, |ds|, |sizes|);
      var n' := Index(0, j', 0, 0, |ports|, |ds|, |sizes|);
      CombinationEntry(families, ports, ds, sizes, 0, j, 0, 0, n);
      CombinationEntry(families, ports, ds, sizes, 0, j', 0, 0, n');
      if n == n' { IndexIsUnique(0, j, 0, 0, 0, j', 0, 0, |ports|, |ds|, |sizes|); }
    }
  }

  lemma SizesAscendAt(min: int, max: int, step: int, sizes: seq<int>, i: nat, j: nat)
    requires step > 0 && SizesOf(min, max, step, sizes) && i < j < |sizes|
    ensures sizes[i] < sizes[j]
  {
    var a, b := sizes[i], sizes[j];
    assert a == min + i * step && b == min + j * step;
    hide SizesOf;
    Scale(i + 1, j, step);
  }

  lemma SizesAscend(min: int, max: int, step: int, sizes: seq<int>)
    requires step > 0 && SizesOf(min, max, step, sizes)
    ensures StrictlyAscending(sizes)
  {
    forall i, j | 0 <= i < j < |sizes| ensures sizes[i] < sizes[j] { SizesAscendAt(min, max, step, sizes, i, j); }
  }

  lemma SizesExactly(min: int, max: int, step: int, sizes: seq<int>)
    requires SizesOf(min, max, step, sizes)
    ensures forall v :: v in sizes <==> exists k: nat :: v == min + k * step <= max
  {
    forall v ensures v in sizes <==> exists k: nat :: v == min + k * step <= max {
      if v in sizes { var k :| 0 <= k < |sizes| && sizes[k] == v; }
      if k: nat :| v == min + k * step <= max { assert sizes[k] == v; }
    }
  }

  lemma PortsAscend(ports: seq<int>)
    requires SortedBy(IntLeq, ports) && Distinct(ports)
    ensures StrictlyAscending(ports)
  {
    forall i, j | 0 <= i < j < |ports| ensures ports[i] < ports[j] {
      assert IntLeq(ports[i], ports[j]);
    }
  }

  /** The sorted ports and the sizes a plan is made from. */
  lemma PlanLists(c: ClientConfig, isTarget: (string, Family) -> bool, plans: seq<SweepPlan>)
    returns (ports: seq<int>, sizes: seq<int>)
    requires PlanOf(c, isTarget, Some(plans))
    ensures SortedBy(IntLeq, ports) && multiset(ports) == multiset(c.ports)
    ensures SizesOf(c.minSize, c.maxSize, c.step, sizes) && StrictlyAscending(sizes) && sizes != []
    ensures plans == ByFamily(Families(c.target4, c.target6), ports, Directions(c.direction), sizes)
    ensures Families(c.target4, c.target6) != []
  {
    ports, sizes :| && SortedBy(IntLeq, ports) && multiset(ports) == multiset(c.ports)
      && SizesOf(c.minSize, c.maxSize, c.step, sizes)
      && plans == ByFamily(Families(c.target4, c.target6), ports, Directions(c.direction), sizes);
    SizesAscend(c.minSize, c.maxSize, c.step, sizes);
    assert c.minSize + 0 * c.step <= c.maxSize;
  }

  /** For every valid configuration, in whatever order its ports are given, the plan contains exactly
      the combinations of a requested family, port and direction with a size min + k * step <= max. */
  lemma PlanCoversEverything(c: ClientConfig, isTarget: (string, Family) -> bool, plans: seq<SweepPlan>)
    requires PlanOf(c, isTarget, Some(plans))
    ensures forall x :: x in plans <==>
      && (if x.family == IPv4 then c.target4 != "" else c.target6 != "")
      && x.port in c.ports
      && (if c.direction == Both then x.direction == Uplink || x.direction == Downlink else x.direction == c.direction)
      && exists k: nat :: x.payloadSize == c.minSize + k * c.step <= c.maxSize
  {
    var ports, sizes := PlanLists(c, isTarget, plans);
    PlanMembers(Families(c.target4, c.target6), ports, Directions(c.direction), sizes);
    SizesExactly(c.minSize, c.maxSize, c.step, sizes);
    forall p ensures p in ports <==> p in c.ports { SameElements(ports, c.ports, p); }
    FamiliesOf(c);
  }

  lemma FamiliesOf(c: ClientConfig)
    ensures AscendingFamilies(Families(c.target4, c.target6)) && AscendingDirections(Directions(c.direction))
    ensures forall f :: f in Families(c.target4, c.target6) <==> if f == IPv4 then c.target4 != "" else c.target6 != ""
  {
  }

  /** The plan is strictly increasing, hence visits every combination once, if and only if the
      ports of the configuration are distinct; they need not be given in order. */
  lemma PlanVisitsOnce(c: ClientConfig, isTarget: (string, Family) -> bool, plans: seq<SweepPlan>)
    requires PlanOf(c, isTarget, Some(plans))
    ensures Ascending(plans) <==> Distinct(c.ports)
  {
    var ports, sizes := PlanLists(c, isTarget, plans);
    var families, ds := Families(c.target4, c.target6), Directions(c.direction);
    FamiliesOf(c);
    if Distinct(c.ports) {
      DistinctPermuted(c.ports, ports);
      PortsAscend(ports);
      PlanOrder(families, ports, ds, sizes);
    }
    if Ascending(plans) {
      AscendingPlanPorts(families, ports, ds, sizes);
      DistinctPermuted(ports, c.ports);
    }
  }

  // ----- running the sweep -----

  /** The outcome of one test: nothing when it failed, else its counts. */
  datatype TestCounts = TestCounts(sent: int, received: int, lost: int)

  function TargetOf(c: ClientConfig, f: Family): string { if f == IPv6 then c.target6 else c.target4 }

  function ResultOf(c: ClientConfig, p: SweepPlan, n: TestCounts): TestResult {
    TestResult(TargetOf(c, p.family), p.family, p.direction, p.port, p.payloadSize, n.sent, n.received, n.lost)
  }

  /** The results of a sweep; failed tests are skipped. */
  function Results(c: ClientConfig, plans: seq<SweepPlan>, outcomes: seq<Option<TestCounts>>): seq<TestResult>
    requires |plans| == |outcomes|
  {
    if plans == [] then []
    else
      var n := |plans| - 1;
      Results(c, plans[..n], outcomes[..n])
      + (match outcomes[n] case None => [] case Some(counts) => [ResultOf(c, plans[n], counts)])
  }

  /** The client's loop over the plan. */
  method RunSweep(c: ClientConfig, plans: seq<SweepPlan>, outcomes: seq<Option<TestCounts>>)
    returns (results: seq<TestResult>)
    requires |plans| == |outcomes|
    ensures results == Results(c, plans, outcomes)
  {
    results := [];
    for i := 0 to |plans|
      invariant results == Results(c, plans[..i], outcomes[..i])
    {
      Prefix(plans, i);
      Prefix(outcomes, i);
      if outcomes[i].Some? {
        results := results + [ResultOf(c, plans[i], outcomes[i].value)];
      }
    }
    assert plans[..|plans|] == plans && outcomes[..|outcomes|] == outcomes;
  }

  function PlanOfResult(r: TestResult): SweepPlan {
    SweepPlan(r.family, r.udpPort, r.direction, r.payloadSize)
  }

  ghost predicate Strict(results: seq<TestResult>) {
    forall i, j :: 0 <= i < j < |results| ==> PlanLess(PlanOfResult(results[i]), PlanOfResult(results[j]))
  }

  /** r is the result of one of the successful tests. */
  ghost predicate Succeeded(c: ClientConfig, plans: seq<SweepPlan>, outcomes: seq<Option<TestCounts>>, r: TestResult)
    requires |plans| == |outcomes|
  {
    exists i :: 0 <= i < |plans| && outcomes[i].Some? && r == ResultOf(c, plans[i], outcomes[i].value)
  }

  lemma SucceededNext(c: ClientConfig, plans: seq<SweepPlan>, outcomes: seq<Option<TestCounts>>, n: nat, r: TestResult)
    requires |plans| == |outcomes| == n + 1
    ensures Succeeded(c, plans, outcomes, r) <==>
      || Succeeded(c, plans[..n], outcomes[..n], r)
      || (outcomes[n].Some? && r == ResultOf(c, plans[n], outcomes[n].value))
  {
    if Succeeded(c, plans[..n], outcomes[..n], r) {
      var i :| 0 <= i < n && outcomes[..n][i].Some? && r == ResultOf(c, plans[..n][i], outcomes[..n][i].value);
      assert outcomes[i].Some? && r == ResultOf(c, plans[i], outcomes[i].value);
    }
    if Succeeded(c, plans, outcomes, r) {
      var i :| 0 <= i < |plans| && outcomes[i].Some? && r == ResultOf(c, plans[i], outcomes[i].value);
      if i < n { assert outcomes[..n][i].Some? && r == ResultOf(c, plans[..n][i], outcomes[..n][i].value); }
    }
  }

  /** Whatever tests fail, the results are those of the successful tests, all of them, and strictly
      increasing when the plan is. */
  lemma {:induction false} ResultsFollowThePlan(
    c: ClientConfig, plans: seq<SweepPlan>, outcomes: seq<Option<TestCounts>>)
    requires |plans| == |outcomes|
    ensures forall r :: r in Results(c, plans, outcomes) <==>
      exists i :: 0 <= i < |plans| && outcomes[i].Some?
        && r == TestResult(if plans[i].family == IPv6 then c.target6 else c.target4, plans[i].family,
                           plans[i].direction, plans[i].port, plans[i].payloadSize,
                           outcomes[i].value.sent, outcomes[i].value.received, outcomes[i].value.lost)
    ensures Ascending(plans) ==> Strict(Results(c, plans, outcomes))
    decreases |plans|
  {
    if plans != [] {
      var n := |plans| - 1;
      var before := Results(c, plans[..n], outcomes[..n]);
      ResultsFollowThePlan(c, plans[..n], outcomes[..n]);
      forall r ensures r in Results(c, plans, outcomes) <==> Succeeded(c, plans, outcomes, r) {
        SucceededNext(c, plans, outcomes, n, r);
      }
      forall r | r in before && Ascending(plans) ensures PlanLess(PlanOfResult(r), plans[n]) {
        var i :| 0 <= i < n && outcomes[..n][i].Some? && r == ResultOf(c, plans[..n][i], outcomes[..n][i].value);
      }
    }
  }

  lemma StrictIsReportOrder(results: seq<TestResult>)
    requires Strict(results)
    ensures SortedBy(ResultLeq, results) && NoTies(ResultLeq, results)
  {
    KeyOrder();
    forall x, y | x in results && y in results
      ensures x == y || !ResultLeq(x, y) || !ResultLeq(y, x)
    {
      var i :| 0 <= i < |results| && results[i] == x;
      var j :| 0 <= j < |results| && results[j] == y;
      if i < j { assert PlanLess(PlanOfResult(x), PlanOfResult(y)); }
      if j < i { assert PlanLess(PlanOfResult(y), PlanOfResult(x)); }
    }
    forall i, j | 0 <= i < j < |results| ensures ResultLeq(results[i], results[j]) {
      assert PlanLess(PlanOfResult(results[i]), PlanOfResult(results[j]));
    }
  }

  /** Planner order is report order: whatever tests fail, reading the groups of the report one
      after another gives back the results in the order in which the sweep produced them. */
  lemma ReportKeepsSweepOrder(
    c: ClientConfig, isTarget: (string, Family) -> bool, plans: seq<SweepPlan>, outcomes: seq<Option<TestCounts>>,
    groups: seq<Group>)
    requires PlanOf(c, isTarget, Some(plans)) && Distinct(c.ports) && |plans| == |outcomes|
    requires Aggregates(Results(c, plans, outcomes), groups)
    ensures Flatten(groups) == Results(c, plans, outcomes)
  {
    PlanVisitsOnce(c, isTarget, plans);
    ResultsFollowThePlan(c, plans, outcomes);
    StrictIsReportOrder(Results(c, plans, outcomes));
    OrderedResultsAreKept(Results(c, plans, outcomes), groups);
  }
}
