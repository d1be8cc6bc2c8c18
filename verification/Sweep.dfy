/** The sweep plan of a client: every family, port, direction and payload size, in that order. */
module Sweep {
  import opened Protocol
  import opened Sorting
  import opened Ports

  datatype ClientConfig = ClientConfig(
    target4: string, target6: string, controlPort: int, direction: Direction, ports: seq<int>,
    minSize: int, maxSize: int, step: int, count: int, interval: int, maxEstimatedDuration: int)

  datatype SweepPlan = SweepPlan(family: Family, port: int, direction: Direction, payloadSize: int)

  /** Validate; isTarget says whether an address is an IP address of the family. */
  predicate Valid(c: ClientConfig, isTarget: (string, Family) -> bool) {
    && (c.target4 != "" || c.target6 != "")
    && (c.target4 != "" ==> isTarget(c.target4, IPv4))
    && (c.target6 != "" ==> isTarget(c.target6, IPv6))
    && 1 <= c.controlPort <= 65535
    && c.ports != []
    && c.minSize <= c.maxSize
    && c.step > 0
    && c.count > 0
    && c.interval > 0
    && c.maxEstimatedDuration > 0
  }

  function Families(target4: string, target6: string): seq<Family> {
    (if target4 != "" then [IPv4] else []) + (if target6 != "" then [IPv6] else [])
  }

  function Directions(d: Direction): seq<Direction> {
    match d
    case Uplink => [Uplink]
    case Downlink => [Downlink]
    case Both => [Uplink, Downlink]
  }

  /** The sizes min, min + step, ... up to max. */
  ghost predicate SizesOf(min: int, max: int, step: int, sizes: seq<int>) {
    && (forall k :: 0 <= k < |sizes| ==> sizes[k] == min + k * step)
    && (forall k: nat :: min + k * step <= max <==> k < |sizes|)
  }

  method GenerateSizes(min: int, max: int, step: int) returns (sizes: seq<int>)
    requires step > 0
    ensures SizesOf(min, max, step, sizes)
  {
    sizes := [];
    var size := min;
    while size <= max
      invariant size == min + |sizes| * step
      invariant forall k :: 0 <= k < |sizes| ==> sizes[k] == min + k * step
      invariant sizes != [] ==> sizes[|sizes| - 1] <= max
      decreases max - size
    {
      sizes := sizes + [size];
      size := size + step;
    }
    forall k: nat ensures min + k * step <= max <==> k < |sizes| {
      if k < |sizes| { Scale(k, |sizes| - 1, step); } else { Scale(|sizes|, k, step); }
    }
  }

  lemma Scale(a: int, b: int, step: int)
    requires a <= b && step > 0
    ensures a * step <= b * step
  {
  }

  // ----- the four nested loops -----

  function BySize(f: Family, p: int, d: Direction, sizes: seq<int>): seq<SweepPlan> {
    if sizes == [] then []
    else BySize(f, p, d, sizes[..|sizes| - 1]) + [SweepPlan(f, p, d, sizes[|sizes| - 1])]
  }

  function ByDirection(f: Family, p: int, directions: seq<Direction>, sizes: seq<int>): seq<SweepPlan> {
    if directions == [] then []
    else ByDirection(f, p, directions[..|directions| - 1], sizes) + BySize(f, p, directions[|directions| - 1], sizes)
  }

  function ByPort(f: Family, ports: seq<int>, directions: seq<Direction>, sizes: seq<int>): seq<SweepPlan> {
    if ports == [] then []
    else ByPort(f, ports[..|ports| - 1], directions, sizes) + ByDirection(f, ports[|ports| - 1], directions, sizes)
  }

  function ByFamily(
    families: seq<Family>, ports: seq<int>, directions: seq<Direction>, sizes: seq<int>): seq<SweepPlan> {
    if families == [] then []
    else ByFamily(families[..|families| - 1], ports, directions, sizes)
         + ByPort(families[|families| - 1], ports, directions, sizes)
  }

  lemma Prefix<T>(s: seq<T>, i: nat)
    requires i < |s|
    ensures s[..i + 1][..i] == s[..i] && s[..i + 1][i] == s[i]
  {
  }

  method ExpandSizes(f: Family, p: int, d: Direction, sizes: seq<int>, before: seq<SweepPlan>)
    returns (plans: seq<SweepPlan>)
    ensures plans == before + BySize(f, p, d, sizes)
  {
    plans := before;
    for l := 0 to |sizes|
      invariant plans == before + BySize(f, p, d, sizes[..l])
    {
      Prefix(sizes, l);
      plans := plans + [SweepPlan(f, p, d, sizes[l])];
    }
    assert sizes[..|sizes|] == sizes;
  }

  method ExpandDirections(f: Family, p: int, directions: seq<Direction>, sizes: seq<int>, before: seq<SweepPlan>)
    returns (plans: seq<SweepPlan>)
    ensures plans == before + ByDirection(f, p, directions, sizes)
  {
    plans := before;
    for k := 0 to |directions|
      invariant plans == before + ByDirection(f, p, directions[..k], sizes)
    {
      Prefix(directions, k);
      plans := ExpandSizes(f, p, directions[k], sizes, plans);
    }
    assert directions[..|directions|] == directions;
  }

  method ExpandPorts(f: Family, ports: seq<int>, directions: seq<Direction>, sizes: seq<int>, before: seq<SweepPlan>)
    returns (plans: seq<SweepPlan>)
    ensures plans == before + ByPort(f, ports, directions, sizes)
  {
    plans := before;
    for j := 0 to |ports|
      invariant plans == before + ByPort(f, ports[..j], directions, sizes)
    {
      Prefix(ports, j);
      plans := ExpandDirections(f, ports[j], directions, sizes, plans);
    }
    assert ports[..|ports|] == ports;
  }

  /** The plan of a configuration; None when it is not valid. */
  ghost predicate PlanOf(c: ClientConfig, isTarget: (string, Family) -> bool, r: Option<seq<SweepPlan>>) {
    && (r.Some? <==> Valid(c, isTarget))
    && (r.Some? ==> exists ports, sizes ::
          && SortedBy(IntLeq, ports) && multiset(ports) == multiset(c.ports)
          && SizesOf(c.minSize, c.maxSize, c.step, sizes)
          && r.value == ByFamily(Families(c.target4, c.target6), ports, Directions(c.direction), sizes))
  }

  method BuildSweepPlan(c: ClientConfig, isTarget: (string, Family) -> bool) returns (r: Option<seq<SweepPlan>>)
    ensures PlanOf(c, isTarget, r)
    ensures r.None? <==>
      || (c.target4 == "" && c.target6 == "")
      || (c.target4 != "" && !isTarget(c.target4, IPv4)) || (c.target6 != "" && !isTarget(c.target6, IPv6))
      || c.controlPort < 1 || c.controlPort > 65535 || c.ports == [] || c.minSize > c.maxSize
      || c.step <= 0 || c.count <= 0 || c.interval <= 0 || c.maxEstimatedDuration <= 0
  {
    if !Valid(c, isTarget) {
      return None;
    }
    var ports := Sort(IntLeq, c.ports);
    var families := Families(c.target4, c.target6);
    var directions := Directions(c.direction);
    var sizes := GenerateSizes(c.minSize, c.maxSize, c.step);
    var plans := [];
    for i := 0 to |families|
      invariant plans == ByFamily(families[..i], ports, directions, sizes)
    {
      Prefix(families, i);
      plans := ExpandPorts(families[i], ports, directions, sizes, plans);
    }
    assert families[..|families|] == families;
    return Some(plans);
  }
}
