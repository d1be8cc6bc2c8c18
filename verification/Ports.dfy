/** Port specifications such as "40000, 40010-40020": parsing, and what a specification denotes. */
module Ports {
  import opened Protocol
  import opened Sorting

  // ----- strings, as the standard library treats them -----

  /** strings.Split with a one-character separator. */
  function Split(s: string, sep: char): (parts: seq<string>)
    ensures |parts| >= 1
  {
    if s == "" then [""]
    else if s[0] == sep then [""] + Split(s[1..], sep)
    else
      var rest := Split(s[1..], sep);
      [[s[0]] + rest[0]] + rest[1..]
  }

  /** The code points with Unicode's White_Space property. */
  predicate IsSpace(c: char) {
    var n := c as int;
    9 <= n <= 13 || n == 32 || n == 0x85 || n == 0xA0 || n == 0x1680 || 0x2000 <= n <= 0x200A
    || n == 0x2028 || n == 0x2029 || n == 0x202F || n == 0x205F || n == 0x3000
  }

  function TrimSpace(s: string): string {
    if s == "" then s
    else if IsSpace(s[0]) then TrimSpace(s[1..])
    else if IsSpace(s[|s| - 1]) then TrimSpace(s[..|s| - 1])
    else s
  }

  predicate IsDigit(c: char) { '0' <= c <= '9' }

  predicate AllDigits(s: string) { forall i :: 0 <= i < |s| ==> IsDigit(s[i]) }

  function DecimalValue(s: string): nat
    requires AllDigits(s)
  {
    if s == "" then 0 else 10 * DecimalValue(s[..|s| - 1]) + (s[|s| - 1] as int - '0' as int)
  }

  /** strconv.Atoi on a 64-bit platform. */
  function Atoi(s: string): Option<int> {
    var signed := s != "" && (s[0] == '+' || s[0] == '-');
    var digits := if signed then s[1..] else s;
    if digits == "" || !AllDigits(digits) then None
    else
      var value: int := DecimalValue(digits);
      var n := if signed && s[0] == '-' then -value else value;
      if -0x8000_0000_0000_0000 <= n < 0x8000_0000_0000_0000 then Some(n) else None
  }

  // ----- what a specification denotes -----

  datatype Interval = Interval(lo: int, hi: int)

  predicate ValidPort(p: int) { 1 <= p <= 65535 }

  function RangeOf(spec: string): Option<Interval> {
    var parts := Split(spec, '-');
    if |parts| != 2 then None
    else
      match (Atoi(TrimSpace(parts[0])), Atoi(TrimSpace(parts[1])))
      case (Some(lo), Some(hi)) => if lo <= hi && ValidPort(lo) && ValidPort(hi) then Some(Interval(lo, hi)) else None
      case _ => None
  }

  /** The ports one item stands for; None when the item is empty, malformed, reversed or out of range. */
  function ItemOf(item: string): Option<Interval> {
    var part := TrimSpace(item);
    if part == "" then None
    else if '-' in part then RangeOf(part)
    else
      match Atoi(part)
      case Some(p) => if ValidPort(p) then Some(Interval(p, p)) else None
      case None => None
  }

  /** Some item of the list stands for port p. */
  ghost predicate Covered(items: seq<string>, p: int) {
    exists i :: 0 <= i < |items| && ItemOf(items[i]).Some?
      && ItemOf(items[i]).value.lo <= p <= ItemOf(items[i]).value.hi
  }

  ghost predicate StrictlyAscending(s: seq<int>) {
    forall i, j :: 0 <= i < j < |s| ==> s[i] < s[j]
  }

  /** The result a specification calls for: an error exactly when some item is bad, and otherwise
      the ascending list, without repetition, of all ports that an item stands for. */
  ghost predicate PortsOf(spec: string, r: Option<seq<int>>) {
    var items := Split(spec, ',');
    && (r.None? <==> exists i :: 0 <= i < |items| && ItemOf(items[i]).None?)
    && (r.Some? ==> StrictlyAscending(r.value) && forall p :: p in r.value <==> Covered(items, p))
  }

  // ----- parsing -----

  method ParseRange(spec: string) returns (r: Option<seq<int>>)
    ensures r.Some? <==> RangeOf(spec).Some?
    ensures r.Some? ==> forall p :: p in r.value <==> RangeOf(spec).value.lo <= p <= RangeOf(spec).value.hi
  {
    var parts := Split(spec, '-');
    if |parts| != 2 {
      return None;
    }
    var start, end := Atoi(TrimSpace(parts[0])), Atoi(TrimSpace(parts[1]));
    if start.None? || end.None? || start.value > end.value || !ValidPort(start.value) || !ValidPort(end.value) {
      return None;
    }
    var ports := [];
    for i := start.value to end.value + 1
      invariant forall p :: p in ports <==> start.value <= p < i
    {
      ports := ports + [i];
    }
    return Some(ports);
  }

  predicate IntLeq(a: int, b: int) { a <= b }

  method SortAndDedupe(ports: seq<int>) returns (r: seq<int>)
    ensures StrictlyAscending(r)
    ensures forall p :: p in r <==> p in ports
  {
    var sorted := Sort(IntLeq, ports);
    r := [];
    for i := 0 to |sorted|
      invariant StrictlyAscending(r)
      invariant forall p :: p in r <==> p in sorted[..i]
      invariant if i == 0 then r == [] else r != [] && r[|r| - 1] == sorted[i - 1]
    {
      if i == 0 || sorted[i - 1] != sorted[i] {
        assert i > 0 ==> IntLeq(sorted[i - 1], sorted[i]);
        r := r + [sorted[i]];
      }
    }
    assert sorted[..|sorted|] == sorted;
    forall p ensures p in sorted <==> p in ports { SameElements(sorted, ports, p); }
  }

  method ParsePorts(spec: string) returns (r: Option<seq<int>>)
    ensures PortsOf(spec, r)
  {
    hide ItemOf, Split;
    if spec == "" {
      NothingIsNoItem();
      return None;
    }
    var parts := Split(spec, ',');
    var ports := [];
    for i := 0 to |parts|
      invariant forall j :: 0 <= j < i ==> ItemOf(parts[j]).Some?
      invariant forall p :: p in ports <==> Covered(parts[..i], p)
      invariant i > 0 ==> ports != []
    {
      var more := ParseItem(parts[i]);
      if more.None? {
        return None;
      }
      CoveredNext(parts, i);
      ports := ports + more.value;
    }
    assert parts[..|parts|] == parts;
    var sorted := SortAndDedupe(ports);
    return Some(sorted);
  }

  lemma NothingIsNoItem()
    ensures |Split("", ',')| > 0 && ItemOf(Split("", ',')[0]).None?
  {
  }

  /** One turn of ParsePorts's loop. */
  method ParseItem(item: string) returns (r: Option<seq<int>>)
    ensures r.Some? <==> ItemOf(item).Some?
    ensures r.Some? ==> forall p :: p in r.value <==> ItemOf(item).value.lo <= p <= ItemOf(item).value.hi
    ensures r.Some? ==> r.value != []
  {
    var part := TrimSpace(item);
    if part == "" {
      return None;
    }
    if '-' in part {
      r := ParseRange(part);
      assert r.Some? ==> ItemOf(item).value.lo in r.value;
    } else {
      var port := Atoi(part);
      if port.None? || !ValidPort(port.value) {
        return None;
      }
      return Some([port.value]);
    }
  }

  lemma CoveredNext(items: seq<string>, i: nat)
    requires i < |items| && ItemOf(items[i]).Some?
    ensures forall p :: Covered(items[..i + 1], p) <==>
                        Covered(items[..i], p) || ItemOf(items[i]).value.lo <= p <= ItemOf(items[i]).value.hi
  {
    forall p
      ensures Covered(items[..i + 1], p) <==>
              Covered(items[..i], p) || ItemOf(items[i]).value.lo <= p <= ItemOf(items[i]).value.hi
    {
      if Covered(items[..i], p) {
        var k :| 0 <= k < i && ItemOf(items[..i][k]).Some?
          && ItemOf(items[..i][k]).value.lo <= p <= ItemOf(items[..i][k]).value.hi;
        assert items[..i + 1][k] == items[k];
      }
      if ItemOf(items[i]).value.lo <= p <= ItemOf(items[i]).value.hi {
        assert items[..i + 1][i] == items[i];
      }
    }
  }

  /** The result is determined by the ports covered, not by the order or repetition of items. */
  lemma PortsAreDetermined(spec1: string, spec2: string, r1: Option<seq<int>>, r2: Option<seq<int>>)
    requires PortsOf(spec1, r1) && PortsOf(spec2, r2) && r1.Some? && r2.Some?
    requires forall p :: Covered(Split(spec1, ','), p) <==> Covered(Split(spec2, ','), p)
    ensures r1 == r2
  {
    assert forall p :: p in r1.value <==> p in r2.value;
    AscendingUnique(r1.value, r2.value);
  }

  lemma {:induction false} AscendingUnique(a: seq<int>, b: seq<int>)
    requires StrictlyAscending(a) && StrictlyAscending(b)
    requires forall p :: p in a <==> p in b
    ensures a == b
    decreases |a|
  {
    assert b != [] ==> b[0] in b;
    if a != [] {
      assert a[0] in a;
      assert a[0] in b && b != [] && b[0] in a;
      assert a[0] == b[0];
      forall p ensures p in a[1..] <==> p in b[1..] {
        if p in a[1..] { assert p in a && p > a[0]; }
        if p in b[1..] { assert p in b && p > b[0]; }
      }
      AscendingUnique(a[1..], b[1..]);
    }
  }

  // ----- the grammar of port specifications -----

  /** A number as it may be written: digits, leading zeros included, behind an optional plus sign. */
  datatype Number = Number(plus: bool, digits: string)

  /** A port or a range of ports, with white space wherever it may stand. */
  datatype Item =
    | Single(left: string, port: Number, right: string)
    | Range(left: string, lo: Number, before: string, after: string, hi: Number, right: string)

  predicate Blank(s: string) { forall i :: 0 <= i < |s| ==> IsSpace(s[i]) }

  predicate ValidNumber(n: Number) {
    n.digits != "" && AllDigits(n.digits) && 1 <= DecimalValue(n.digits) <= 65535
  }

  predicate ValidItem(item: Item) {
    match item
    case Single(left, port, right) => Blank(left) && ValidNumber(port) && Blank(right)
    case Range(left, lo, before, after, hi, right) =>
      && Blank(left) && ValidNumber(lo) && Blank(before) && Blank(after) && ValidNumber(hi) && Blank(right)
      && DecimalValue(lo.digits) <= DecimalValue(hi.digits)
  }

  function IntervalOf(item: Item): Interval
    requires ValidItem(item)
  {
    match item
    case Single(_, port, _) => Interval(DecimalValue(port.digits), DecimalValue(port.digits))
    case Range(_, lo, _, _, hi, _) => Interval(DecimalValue(lo.digits), DecimalValue(hi.digits))
  }

  function Text(n: Number): string { (if n.plus then "+" else "") + n.digits }

  function Render(item: Item): string {
    match item
    case Single(left, port, right) => left + Text(port) + right
    case Range(left, lo, before, after, hi, right) =>
      left + (Text(lo) + before + "-" + (after + Text(hi))) + right
  }

  /** Every port can be written. */
  function Decimal(n: nat): (s: string)
    ensures s != "" && AllDigits(s) && DecimalValue(s) == n
  {
    var digit := ('0' as int + n % 10) as char;
    if n < 10 then [digit] else Decimal(n / 10) + [digit]
  }

  lemma EveryRangeCanBeWritten(lo: int, hi: int)
    requires 1 <= lo <= hi <= 65535
    ensures var x := Range("", Number(false, Decimal(lo)), "", "", Number(false, Decimal(hi)), "");
      ValidItem(x) && IntervalOf(x) == Interval(lo, hi)
  {
  }

  // what a well-formed item stands for

  predicate Bare(s: string) { s != "" && !IsSpace(s[0]) && !IsSpace(s[|s| - 1]) }

  lemma {:induction false} TrimPadding(left: string, core: string, right: string)
    requires Blank(left) && Blank(right) && Bare(core)
    ensures TrimSpace(left + core + right) == core
    decreases |left| + |right|
  {
    var s := left + core + right;
    if left != "" {
      assert s[1..] == left[1..] + core + right;
      TrimPadding(left[1..], core, right);
    } else if right != "" {
      assert s[0] == core[0] && s[|s| - 1] == right[|right| - 1];
      assert s[..|s| - 1] == left + core + right[..|right| - 1];
      TrimPadding(left, core, right[..|right| - 1]);
    } else {
      assert s == core;
    }
  }

  lemma NumberText(n: Number)
    requires ValidNumber(n)
    ensures Bare(Text(n)) && '-' !in Text(n) && ',' !in Text(n) && Atoi(Text(n)) == Some(DecimalValue(n.digits))
  {
    assert Text(n)[|Text(n)| - 1] == n.digits[|n.digits| - 1];
    assert (if n.plus then Text(n)[1..] else Text(n)) == n.digits;
  }

  lemma {:induction false} SplitNone(s: string, sep: char)
    requires sep !in s
    ensures Split(s, sep) == [s]
    decreases |s|
  {
    if s != "" {
      SplitNone(s[1..], sep);
      assert s == [s[0]] + s[1..];
    }
  }

  lemma {:induction false} SplitFirst(s: string, sep: char, rest: string)
    requires sep !in s
    ensures Split(s + [sep] + rest, sep) == [s] + Split(rest, sep)
    decreases |s|
  {
    var whole := s + [sep] + rest;
    if s == "" {
      assert whole[1..] == rest;
    } else {
      SplitFirst(s[1..], sep, rest);
      assert whole[1..] == s[1..] + [sep] + rest;
      assert s == [s[0]] + s[1..];
    }
  }

  lemma NoSeparators(s: string)
    requires Blank(s)
    ensures '-' !in s && ',' !in s
  {
  }

  /** A number with white space around it. */
  lemma PaddedNumber(left: string, n: Number, right: string)
    requires ValidNumber(n) && Blank(left) && Blank(right)
    ensures var s := left + Text(n) + right; '-' !in s && ',' !in s && TrimSpace(s) == Text(n)
  {
    NumberText(n);
    TrimPadding(left, Text(n), right);
    NoSeparators(left);
    NoSeparators(right);
    hide Text, TrimSpace, Blank, ValidNumber, Atoi;
  }

  lemma RangeParts(lo: Number, before: string, after: string, hi: Number)
    requires ValidNumber(lo) && ValidNumber(hi) && Blank(before) && Blank(after)
    ensures var a, b := Text(lo) + before, after + Text(hi);
      && '-' !in a && ',' !in a && '-' !in b && ',' !in b
      && TrimSpace(a) == Text(lo) && TrimSpace(b) == Text(hi)
  {
    PaddedNumber("", lo, before);
    PaddedNumber(after, hi, "");
    hide TrimSpace, Atoi, Text, Blank, ValidNumber;
    assert "" + Text(lo) + before == Text(lo) + before && after + Text(hi) + "" == after + Text(hi);
  }

  lemma RangeSplit(a: string, b: string)
    requires '-' !in a && '-' !in b
    ensures Split(a + "-" + b, '-') == [a, b]
  {
    SplitFirst(a, '-', b);
    SplitNone(b, '-');
  }

  lemma RangeEnds(lo: Number, before: string, after: string, hi: Number)
    requires ValidNumber(lo) && ValidNumber(hi)
    ensures var core := Text(lo) + before + "-" + (after + Text(hi)); Bare(core) && '-' in core
  {
    NumberText(lo);
    NumberText(hi);
    hide Text, Atoi;
    var core := Text(lo) + before + "-" + (after + Text(hi));
    assert core[0] == Text(lo)[0] && core[|core| - 1] == Text(hi)[|Text(hi)| - 1];
    assert core[|Text(lo) + before|] == '-';
  }

  lemma RangeText(lo: Number, before: string, after: string, hi: Number)
    requires ValidNumber(lo) && ValidNumber(hi) && Blank(before) && Blank(after)
    requires DecimalValue(lo.digits) <= DecimalValue(hi.digits)
    ensures var core := Text(lo) + before + "-" + (after + Text(hi));
      ',' !in core && RangeOf(core) == Some(Interval(DecimalValue(lo.digits), DecimalValue(hi.digits)))
  {
    NumberText(lo);
    NumberText(hi);
    RangeParts(lo, before, after, hi);
    RangeSplit(Text(lo) + before, after + Text(hi));
    hide Text, Atoi, Split, TrimSpace, Blank;
  }

  /** A well-formed item stands for its own ports and contains no comma. */
  lemma ItemRoundTrip(item: Item)
    requires ValidItem(item)
    ensures ItemOf(Render(item)) == Some(IntervalOf(item)) && ',' !in Render(item)
  {
    match item
    case Single(left, port, right) =>
      NumberText(port);
      TrimPadding(left, Text(port), right);
    case Range(left, lo, before, after, hi, right) =>
      RangeText(lo, before, after, hi);
      RangeEnds(lo, before, after, hi);
      TrimPadding(left, Text(lo) + before + "-" + (after + Text(hi)), right);
  }

  // and that nothing else stands for any

  lemma {:induction false} Trimmed(s: string) returns (left: string, right: string)
    ensures s == left + TrimSpace(s) + right && Blank(left) && Blank(right)
    decreases |s|
  {
    hide IsSpace;
    left, right := "", "";
    if s != "" {
      if IsSpace(s[0]) {
        var inner, rest := Trimmed(s[1..]);
        assert s == [s[0]] + (inner + TrimSpace(s[1..]) + rest);
        return [s[0]] + inner, rest;
      } else if IsSpace(s[|s| - 1]) {
        var rest, inner := Trimmed(s[..|s| - 1]);
        assert s == (rest + TrimSpace(s[..|s| - 1]) + inner) + [s[|s| - 1]];
        return rest, inner + [s[|s| - 1]];
      }
    }
  }

  lemma NumberOf(s: string) returns (n: Number)
    requires '-' !in s && Atoi(s).Some? && 1 <= Atoi(s).value <= 65535
    ensures ValidNumber(n) && Text(n) == s && DecimalValue(n.digits) == Atoi(s).value
  {
    n := if s[0] == '+' then Number(true, s[1..]) else Number(false, s);
    assert s == [s[0]] + s[1..];
  }

  lemma {:induction false} SplitJoins(s: string, sep: char)
    ensures |Split(s, sep)| == 1 ==> s == Split(s, sep)[0] && sep !in s
    ensures |Split(s, sep)| == 2 ==>
      s == Split(s, sep)[0] + [sep] + Split(s, sep)[1] && sep !in Split(s, sep)[0] && sep !in Split(s, sep)[1]
    decreases |s|
  {
    if s != "" {
      SplitJoins(s[1..], sep);
      assert s == [s[0]] + s[1..];
    }
  }

  lemma WrittenRange(part: string) returns (lo: Number, hi: Number, pads: seq<string>)
    requires RangeOf(part).Some?
    ensures |pads| == 4 && forall i :: 0 <= i < 4 ==> Blank(pads[i])
    ensures ValidNumber(lo) && ValidNumber(hi)
    ensures RangeOf(part).value == Interval(DecimalValue(lo.digits), DecimalValue(hi.digits))
    ensures DecimalValue(lo.digits) <= DecimalValue(hi.digits)
    ensures part == pads[0] + Text(lo) + pads[1] + "-" + (pads[2] + Text(hi) + pads[3])
  {
    SplitJoins(part, '-');
    hide Split, TrimSpace, Atoi, Text, ValidNumber;
    var (a, b) := (Split(part, '-')[0], Split(part, '-')[1]);
    var la, ra := "", "";
    var lb, rb := "", "";
    lo, la, ra := WrittenNumber(a);
    hi, lb, rb := WrittenNumber(b);
    pads := [la, ra, lb, rb];
  }

  lemma WrittenNumber(s: string) returns (n: Number, left: string, right: string)
    requires '-' !in s && Atoi(TrimSpace(s)).Some? && 1 <= Atoi(TrimSpace(s)).value <= 65535
    ensures ValidNumber(n) && Blank(left) && Blank(right) && s == left + Text(n) + right
    ensures DecimalValue(n.digits) == Atoi(TrimSpace(s)).value
  {
    left, right := Trimmed(s);
    hide TrimSpace, Atoi, Text;
    assert forall c :: c in TrimSpace(s) ==> c in left + TrimSpace(s) + right;
    n := NumberOf(TrimSpace(s));
  }

  lemma WrittenItem(item: string) returns (x: Item)
    requires ItemOf(item).Some?
    ensures ValidItem(x) && Render(x) == item && IntervalOf(x) == ItemOf(item).value
  {
    var part := TrimSpace(item);
    var left, right := Trimmed(item);
    if '-' in part {
      x := WrittenRangeItem(left, part, right);
    } else {
      var n := NumberOf(part);
      x := Single(left, n, right);
    }
  }

  lemma BlankJoin(a: string, b: string)
    requires Blank(a) && Blank(b)
    ensures Blank(a + b)
  {
  }

  lemma WrittenRangeItem(left: string, part: string, right: string) returns (x: Item)
    requires Blank(left) && Blank(right) && RangeOf(part).Some?
    ensures ValidItem(x) && Render(x) == left + part + right && IntervalOf(x) == RangeOf(part).value
  {
    var lo, hi, pads := WrittenRange(part);
    BlankJoin(left, pads[0]);
    BlankJoin(pads[3], right);
    x := Range(left + pads[0], lo, pads[1], pads[2], hi, pads[3] + right);
    hide RangeOf, Text, Blank, ValidNumber, DecimalValue;
    Regroup(left, pads[0], Text(lo) + pads[1], pads[2], Text(hi), pads[3], right);
  }

  lemma Regroup(l: string, p0: string, a: string, p2: string, b: string, p3: string, r: string)
    ensures l + (p0 + a + "-" + (p2 + b + p3)) + r == (l + p0) + (a + "-" + (p2 + b)) + (p3 + r)
  {
  }

  /** An item is accepted, and stands for an interval of ports, if and only if it is a number from 1 to
      65535, or two of them in order with a dash between them, with white space around the numbers. */
  lemma ItemGrammar(item: string, interval: Interval)
    ensures ItemOf(item) == Some(interval) <==>
            exists x: Item :: ValidItem(x) && Render(x) == item && IntervalOf(x) == interval
  {
    if ItemOf(item) == Some(interval) {
      var x := WrittenItem(item);
    }
    if x: Item :| ValidItem(x) && Render(x) == item && IntervalOf(x) == interval {
      ItemRoundTrip(x);
    }
  }

  /** The white space of a specification: blanks and ASCII control characters from tab to return. */
  lemma AsciiSpaces(s: string)
    requires forall i :: 0 <= i < |s| ==> s[i] == ' ' || 9 <= s[i] as int <= 13
    ensures Blank(s)
  {
  }

  function Join(items: seq<Item>): string {
    if |items| == 0 then ""
    else if |items| == 1 then Render(items[0])
    else Render(items[0]) + "," + Join(items[1..])
  }

  lemma {:induction false} JoinParts(items: seq<Item>)
    requires items != [] && forall i :: 0 <= i < |items| ==> ValidItem(items[i])
    ensures |Split(Join(items), ',')| == |items|
    ensures forall i :: 0 <= i < |items| ==> ItemOf(Split(Join(items), ',')[i]) == Some(IntervalOf(items[i]))
    decreases |items|
  {
    ItemRoundTrip(items[0]);
    if |items| == 1 {
      SplitNone(Render(items[0]), ',');
    } else {
      JoinParts(items[1..]);
      SplitFirst(Render(items[0]), ',', Join(items[1..]));
    }
  }

  lemma CoveredByItems(parts: seq<string>, items: seq<Item>, p: int)
    requires |parts| == |items| && forall i :: 0 <= i < |items| ==> ValidItem(items[i])
    requires forall i :: 0 <= i < |parts| ==> ItemOf(parts[i]) == Some(IntervalOf(items[i]))
    ensures Covered(parts, p) <==>
            exists i :: 0 <= i < |items| && IntervalOf(items[i]).lo <= p <= IntervalOf(items[i]).hi
  {
    hide ItemOf, ValidItem, IntervalOf;
    if i :| 0 <= i < |items| && IntervalOf(items[i]).lo <= p <= IntervalOf(items[i]).hi {
      assert ItemOf(parts[i]) == Some(IntervalOf(items[i]));
    }
  }

  /** Parsing the comma-joined rendering of any valid items gives the ascending list of exactly
      the ports of their union. */
  lemma RenderedPortsParse(items: seq<Item>, r: Option<seq<int>>)
    requires items != [] && forall i :: 0 <= i < |items| ==> ValidItem(items[i])
    requires PortsOf(Join(items), r)
    ensures r.Some? && StrictlyAscending(r.value)
    ensures forall p :: p in r.value <==>
      exists i :: 0 <= i < |items| && IntervalOf(items[i]).lo <= p <= IntervalOf(items[i]).hi
  {
    JoinParts(items);
    var parts := Split(Join(items), ',');
    assert r.Some? by {
      hide IntervalOf, ValidItem, Join, Split, ItemOf;
    }
    hide IntervalOf, ValidItem, StrictlyAscending, Join, Split, ItemOf, Covered;
    forall p
      ensures p in r.value <==> exists i :: 0 <= i < |items| && IntervalOf(items[i]).lo <= p <= IntervalOf(items[i]).hi
    {
      CoveredByItems(parts, items, p);
    }
  }
}
