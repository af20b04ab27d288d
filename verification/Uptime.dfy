/**
 parseUptime of internal/collector/parse/parser.go: a RouterOS uptime such as "1w2d3h" is rewritten
 into a text without weeks and days, which Go's time.ParseDuration then reads.
 */
module Uptime {
  import opened Common

  const MAX_INT64: int := 0x7FFF_FFFF_FFFF_FFFF
  const NANOS: nat := 1_000_000_000

  // ---- Decimal numbers ----

  predicate IsDigit(c: char) { '0' <= c <= '9' }

  function Digit(c: char): nat
    requires IsDigit(c)
  {
    c as int - '0' as int
  }

  predicate AllDigits(s: string) { forall i :: 0 <= i < |s| ==> IsDigit(s[i]) }

  function ValueFrom(x: nat, digits: string): (r: nat)
    requires AllDigits(digits)
    ensures r >= x
    decreases |digits|
  {
    if digits == "" then x else ValueFrom(10 * x + Digit(digits[0]), digits[1..])
  }

  function Value(digits: string): nat
    requires AllDigits(digits)
  {
    ValueFrom(0, digits)
  }

  function Decimal(n: nat): (s: string)
    ensures s != "" && AllDigits(s)
  {
    if n < 10 then [('0' as int + n) as char] else Decimal(n / 10) + [('0' as int + n % 10) as char]
  }

  /** strconv.Itoa. */
  function Itoa(n: int): string { if n < 0 then "-" + Decimal(-n) else Decimal(n) }

  /** strconv.Atoi of a run of digits: it fails on the empty run and beyond 64 bits. */
  function Atoi(digits: string): Option<nat>
    requires AllDigits(digits)
  {
    if digits == "" || Value(digits) > MAX_INT64 then None else Some(Value(digits))
  }

  /** A product of two int64 values wraps around. */
  function Wrap64(x: int): int
  {
    (x + MAX_INT64 + 1) % (2 * (MAX_INT64 + 1)) - (MAX_INT64 + 1)
  }

  // ---- replaceUnit ----

  function IndexOf(s: string, c: char): (r: int)
    ensures -1 <= r < |s|
    ensures r >= 0 ==> s[r] == c
  {
    if s == "" then -1
    else if s[0] == c then 0
    else
      var r := IndexOf(s[1..], c);
      if r < 0 then -1 else r + 1
  }

  lemma {:induction false} IndexOfIsFirst(s: string, c: char)
    ensures var r := IndexOf(s, c); if r < 0 then c !in s else c !in s[..r]
  {
    if s != "" && s[0] != c {
      IndexOfIsFirst(s[1..], c);
      var r := IndexOf(s, c);
      assert s == [s[0]] + s[1..];
      if r > 0 {
        assert s[..r] == [s[0]] + s[1..][..r - 1];
      }
    }
  }

  /** Where the run of digits that ends before idx begins. */
  function NumStart(s: string, idx: nat): (r: nat)
    requires idx <= |s|
    ensures r <= idx && AllDigits(s[r..idx])
    ensures r > 0 ==> !IsDigit(s[r - 1])
  {
    if idx > 0 && IsDigit(s[idx - 1]) then
      var r := NumStart(s, idx - 1);
      assert s[r..idx] == s[r..idx - 1] + [s[idx - 1]];
      r
    else idx
  }

  function Hours(digits: string, hoursPerUnit: nat): string
    requires AllDigits(digits)
  {
    match Atoi(digits)
    case None => ""
    case Some(n) => Itoa(Wrap64(n * hoursPerUnit)) + "h"
  }

  function Replaced(s: string, unit: char, hoursPerUnit: nat): string
    decreases |s|
  {
    var idx := IndexOf(s, unit);
    if idx < 0 then s
    else
      var numStart := NumStart(s, idx);
      s[..numStart] + Hours(s[numStart..idx], hoursPerUnit) + Replaced(s[idx + 1..], unit, hoursPerUnit)
  }

  /** The inner loop of replaceUnit. */
  method ScanBack(s: string, idx: nat) returns (numStart: nat)
    requires idx <= |s|
    ensures numStart == NumStart(s, idx)
  {
    numStart := idx;
    while numStart > 0 && IsDigit(s[numStart - 1])
      invariant 0 <= numStart <= idx
      invariant NumStart(s, idx) == NumStart(s, numStart)
    {
      numStart := numStart - 1;
    }
  }

  method ReplaceUnit(s: string, unit: char, hoursPerUnit: nat) returns (out: string)
    ensures out == Replaced(s, unit, hoursPerUnit)
  {
    out := "";
    var remaining := s;
    while true
      invariant out + Replaced(remaining, unit, hoursPerUnit) == Replaced(s, unit, hoursPerUnit)
      decreases |remaining|
    {
      var idx := IndexOf(remaining, unit);
      if idx < 0 {
        out := out + remaining;
        break;
      }
      var numStart := ScanBack(remaining, idx);
      var head := remaining[..numStart];
      var n := Atoi(remaining[numStart..idx]);
      var hours := "";
      if n.Some? {
        hours := Itoa(Wrap64(n.value * hoursPerUnit)) + "h";
      }
      remaining := remaining[idx + 1..];
      Regroup(out, head, hours, Replaced(remaining, unit, hoursPerUnit));
      out := out + head + hours;
    }
  }

  lemma Regroup(a: string, b: string, c: string, d: string)
    ensures a + b + c + d == a + (b + c + d)
  {}

  /** What replaceUnit writes in place of a number consists of digits, a sign and the hour unit. */
  lemma HoursText(digits: string, hoursPerUnit: nat, c: char)
    requires AllDigits(digits) && !IsDigit(c) && c != 'h' && c != '-'
    ensures c !in Hours(digits, hoursPerUnit)
  {}

  lemma NotInAny(a: string, b: string, d: string, c: char)
    requires c !in a && c !in b && c !in d
    ensures c !in a + b + d
  {}

  /** For any text at all, replaceUnit removes every occurrence of the unit. */
  lemma {:induction false} UnitRemoved(s: string, unit: char, hoursPerUnit: nat)
    requires !IsDigit(unit) && unit != 'h' && unit != '-'
    ensures unit !in Replaced(s, unit, hoursPerUnit)
    decreases |s|
  {
    var idx := IndexOf(s, unit);
    IndexOfIsFirst(s, unit);
    if idx >= 0 {
      var k := NumStart(s, idx);
      UnitRemoved(s[idx + 1..], unit, hoursPerUnit);
      HoursText(s[k..idx], hoursPerUnit, unit);
      RoundOf(s, unit, hoursPerUnit, k, idx);
      assert s[..k] == s[..idx][..k];
      NotInAny(s[..k], Hours(s[k..idx], hoursPerUnit), Replaced(s[idx + 1..], unit, hoursPerUnit), unit);
    }
  }

  lemma {:induction false} NothingElseAdded(s: string, unit: char, hoursPerUnit: nat, c: char)
    requires c !in s && !IsDigit(c) && c != 'h' && c != '-'
    ensures c !in Replaced(s, unit, hoursPerUnit)
    decreases |s|
  {
    var idx := IndexOf(s, unit);
    if idx >= 0 {
      var k := NumStart(s, idx);
      assert c !in s[..k] && c !in s[idx + 1..];
      NothingElseAdded(s[idx + 1..], unit, hoursPerUnit, c);
      HoursText(s[k..idx], hoursPerUnit, c);
      RoundOf(s, unit, hoursPerUnit, k, idx);
      NotInAny(s[..k], Hours(s[k..idx], hoursPerUnit), Replaced(s[idx + 1..], unit, hoursPerUnit), c);
    }
  }

  function ToGoDuration(s: string): string
  {
    Replaced(Replaced(s, 'w', 7 * 24), 'd', 24)
  }

  /** Whatever the router sent, no week or day unit reaches time.ParseDuration. */
  lemma NoWeeksOrDaysRemain(s: string)
    ensures 'w' !in ToGoDuration(s) && 'd' !in ToGoDuration(s)
  {
    UnitRemoved(s, 'w', 7 * 24);
    NothingElseAdded(Replaced(s, 'w', 7 * 24), 'd', 24, 'w');
    UnitRemoved(Replaced(s, 'w', 7 * 24), 'd', 24);
  }

  // ---- time.ParseDuration, for numbers without a decimal point ----

  function LeadingInt(s: string, x: nat): (r: Option<(nat, string)>)
    ensures r.Some? ==> |r.value.1| <= |s|
    ensures r.Some? && s != "" && IsDigit(s[0]) ==> |r.value.1| < |s|
    decreases |s|
  {
    if s == "" || !IsDigit(s[0]) then Some((x, s))
    else if x > (MAX_INT64 + 1) / 10 then None
    else if 10 * x + Digit(s[0]) > MAX_INT64 + 1 then None
    else LeadingInt(s[1..], 10 * x + Digit(s[0]))
  }

  /** The length of the unit name: up to the next digit or decimal point. */
  function UnitLength(s: string): (n: nat)
    ensures n <= |s|
  {
    if s == "" || s[0] == '.' || IsDigit(s[0]) then 0 else 1 + UnitLength(s[1..])
  }

  function UnitNanos(unit: string): Option<nat>
  {
    if unit == "ns" then Some(1)
    else if unit == "us" then Some(1_000)
    else if unit == "ms" then Some(1_000_000)
    else if unit == "s" then Some(NANOS)
    else if unit == "m" then Some(60 * NANOS)
    else if unit == "h" then Some(3600 * NANOS)
    else None
  }

  /** The loop of ParseDuration: total is the sum so far. */
  function ParseTerms(s: string, total: int): Option<int>
    decreases |s|
  {
    if s == "" then Some(total)
    else if !IsDigit(s[0]) then None
    else
      match LeadingInt(s, 0)
      case None => None
      case Some((v, rest)) =>
        var n := UnitLength(rest);
        if n == 0 then None
        else
          match UnitNanos(rest[..n])
          case None => None
          case Some(nanos) =>
            if v > (MAX_INT64 + 1) / nanos then None
            else if total + v * nanos > MAX_INT64 + 1 then None
            else ParseTerms(rest[n..], total + v * nanos)
  }

  /** The duration in nanoseconds. */
  function ParseDuration(s: string): Option<int>
  {
    var neg := s != "" && s[0] == '-';
    var body := if s != "" && (s[0] == '-' || s[0] == '+') then s[1..] else s;
    if body == "0" then Some(0)
    else if body == "" then None
    else
      match ParseTerms(body, 0)
      case None => None
      case Some(d) => if neg then Some(-d) else if d > MAX_INT64 then None else Some(d)
  }

  function ParseUptime(s: string): Option<int>
  {
    ParseDuration(ToGoDuration(s))
  }

  // ---- Uptimes as lists of components ----

  datatype Component = Component(digits: string, unit: char)

  function UnitSeconds(unit: char): nat
  {
    match unit
    case 'w' => 7 * 24 * 3600
    case 'd' => 24 * 3600
    case 'h' => 3600
    case 'm' => 60
    case 's' => 1
    case _ => 0
  }

  predicate IsComponent(c: Component)
  {
    c.digits != "" && AllDigits(c.digits) && c.unit in {'w', 'd', 'h', 'm', 's'}
  }

  ghost predicate Components(cs: seq<Component>) { forall i :: 0 <= i < |cs| ==> IsComponent(cs[i]) }

  function Text(cs: seq<Component>): string
  {
    if cs == [] then "" else cs[0].digits + [cs[0].unit] + Text(cs[1..])
  }

  /** The number of seconds that the components add up to. */
  ghost function Seconds(cs: seq<Component>): nat
    requires Components(cs)
  {
    if cs == [] then 0 else Value(cs[0].digits) * UnitSeconds(cs[0].unit) + Seconds(cs[1..])
  }

  // ---- Decimal round trip ----

  lemma {:induction false} ValueFromAppend(x: nat, a: string, b: string)
    requires AllDigits(a) && AllDigits(b)
    ensures ValueFrom(x, a + b) == ValueFrom(ValueFrom(x, a), b)
    decreases |a|
  {
    if a == "" {
      assert a + b == b;
    } else {
      assert (a + b)[1..] == a[1..] + b;
      ValueFromAppend(10 * x + Digit(a[0]), a[1..], b);
    }
  }

  lemma {:induction false} DecimalValue(n: nat)
    ensures Value(Decimal(n)) == n
    decreases n
  {
    var last := [('0' as int + n % 10) as char];
    assert forall x: nat :: ValueFrom(x, last) == 10 * x + n % 10 by {
      assert last[1..] == "";
    }
    if n >= 10 {
      DecimalValue(n / 10);
      ValueFromAppend(0, Decimal(n / 10), last);
    }
  }

  /** Numbers are read back as they are written, up to 64 bits; an empty run is no number. */
  lemma AtoiReadsDecimals(n: nat)
    ensures Atoi(Decimal(n)) == (if n <= MAX_INT64 then Some(n) else None) && Atoi("") == None
  {
    DecimalValue(n);
  }

  /** The wrapped number is the only one of 64 bits that differs by a multiple of 2^64. */
  lemma WrapsTo64Bits(x: int, y: int, k: int)
    ensures -0x8000_0000_0000_0000 <= Wrap64(x) <= 0x7FFF_FFFF_FFFF_FFFF
    ensures -0x8000_0000_0000_0000 <= y <= 0x7FFF_FFFF_FFFF_FFFF && x == y + 0x1_0000_0000_0000_0000 * k ==> y == Wrap64(x)
  {}

  // ---- Rewriting keeps the total ----

  /** A component whose unit becomes hours. */
  ghost function Convert(c: Component, unit: char, hoursPerUnit: nat): Component
    requires IsComponent(c)
  {
    if c.unit == unit then Component(Decimal(Value(c.digits) * hoursPerUnit), 'h') else c
  }

  ghost function ConvertAll(cs: seq<Component>, unit: char, hoursPerUnit: nat): seq<Component>
    requires Components(cs)
  {
    if cs == [] then [] else [Convert(cs[0], unit, hoursPerUnit)] + ConvertAll(cs[1..], unit, hoursPerUnit)
  }

  lemma {:induction false} IndexOfSkips(p: string, s: string, c: char)
    requires c !in p
    ensures IndexOf(p + s, c) == if IndexOf(s, c) < 0 then -1 else |p| + IndexOf(s, c)
  {
    if p == "" {
      assert p + s == s;
    } else {
      assert (p + s)[1..] == p[1..] + s;
      IndexOfSkips(p[1..], s, c);
    }
  }

  lemma {:induction false} NumStartSkips(p: string, s: string, idx: nat)
    requires p != "" && !IsDigit(p[|p| - 1]) && idx <= |s|
    ensures NumStart(p + s, |p| + idx) == |p| + NumStart(s, idx)
  {
    if idx > 0 && IsDigit(s[idx - 1]) {
      assert (p + s)[|p| + idx - 1] == s[idx - 1];
      NumStartSkips(p, s, idx - 1);
    } else if idx > 0 {
      assert (p + s)[|p| + idx - 1] == s[idx - 1];
    }
  }

  lemma {:induction false} NumStartOfDigits(digits: string, s: string, k: nat)
    requires AllDigits(digits) && k <= |digits|
    ensures NumStart(digits + s, k) == 0
  {
    if k > 0 {
      assert (digits + s)[k - 1] == digits[k - 1];
      NumStartOfDigits(digits, s, k - 1);
    }
  }

  /** One round of the loop: what stands before the number, its hours, and the rest. */
  lemma ReplacedRound(head: string, digits: string, rest: string, s: string, unit: char, hoursPerUnit: nat)
    requires s == head + digits + [unit] + rest && AllDigits(digits)
    requires IndexOf(s, unit) == |head| + |digits| && NumStart(s, |head| + |digits|) == |head|
    ensures Replaced(s, unit, hoursPerUnit) == head + Hours(digits, hoursPerUnit) + Replaced(rest, unit, hoursPerUnit)
  {
    assert s[..|head|] == head;
    assert s[|head|..|head| + |digits|] == digits;
    assert s[|head| + |digits| + 1..] == rest;
  }

  lemma CutRound(p: string, s: string, k: nat, idx: nat)
    requires k <= idx < |s|
    ensures p + s == (p + s[..k]) + s[k..idx] + [s[idx]] + s[idx + 1..]
  {}

  lemma RoundOf(s: string, unit: char, hoursPerUnit: nat, k: nat, idx: nat)
    requires idx < |s| && IndexOf(s, unit) == idx && NumStart(s, idx) == k
    ensures Replaced(s, unit, hoursPerUnit)
         == s[..k] + Hours(s[k..idx], hoursPerUnit) + Replaced(s[idx + 1..], unit, hoursPerUnit)
  {}

  lemma SkipsRound(p: string, s: string, unit: char, hoursPerUnit: nat, k: nat, idx: nat)
    requires p != "" && !IsDigit(p[|p| - 1]) && unit !in p
    requires idx < |s| && IndexOf(s, unit) == idx && NumStart(s, idx) == k
    ensures Replaced(p + s, unit, hoursPerUnit)
         == (p + s[..k]) + Hours(s[k..idx], hoursPerUnit) + Replaced(s[idx + 1..], unit, hoursPerUnit)
  {
    IndexOfSkips(p, s, unit);
    NumStartSkips(p, s, idx);
    CutRound(p, s, k, idx);
    ReplacedRound(p + s[..k], s[k..idx], s[idx + 1..], p + s, unit, hoursPerUnit);
  }

  /** A finished component with another unit is copied unchanged. */
  lemma ReplacedSkips(p: string, s: string, unit: char, hoursPerUnit: nat)
    requires p != "" && !IsDigit(p[|p| - 1]) && unit !in p
    ensures Replaced(p + s, unit, hoursPerUnit) == p + Replaced(s, unit, hoursPerUnit)
  {
    var idx := IndexOf(s, unit);
    if idx < 0 {
      IndexOfSkips(p, s, unit);
    } else {
      var k := NumStart(s, idx);
      var head, hours, rest := s[..k], Hours(s[k..idx], hoursPerUnit), Replaced(s[idx + 1..], unit, hoursPerUnit);
      SkipsRound(p, s, unit, hoursPerUnit, k, idx);
      RoundOf(s, unit, hoursPerUnit, k, idx);
      Regroup(p, head, hours, rest);
    }
  }

  lemma ReplacedConverts(digits: string, s: string, unit: char, hoursPerUnit: nat)
    requires digits != "" && AllDigits(digits) && !IsDigit(unit)
    requires Value(digits) <= MAX_INT64 && Value(digits) * hoursPerUnit <= MAX_INT64
    ensures Replaced(digits + [unit] + s, unit, hoursPerUnit)
         == Decimal(Value(digits) * hoursPerUnit) + "h" + Replaced(s, unit, hoursPerUnit)
  {
    var text := digits + [unit] + s;
    assert text == digits + ([unit] + s);
    IndexOfSkips(digits, [unit] + s, unit);
    NumStartOfDigits(digits, [unit] + s, |digits|);
    assert "" + digits + [unit] + s == text;
    ReplacedRound("", digits, s, text, unit, hoursPerUnit);
    HoursInRange(digits, hoursPerUnit);
  }

  lemma HoursInRange(digits: string, hoursPerUnit: nat)
    requires digits != "" && AllDigits(digits)
    requires Value(digits) <= MAX_INT64 && Value(digits) * hoursPerUnit <= MAX_INT64
    ensures Hours(digits, hoursPerUnit) == Decimal(Value(digits) * hoursPerUnit) + "h"
  {
    WrapInRange(Value(digits) * hoursPerUnit);
  }

  lemma WrapInRange(x: nat)
    requires x <= MAX_INT64
    ensures Wrap64(x) == x
  {}

  lemma ConvertKeepsSeconds(c: Component, unit: char, hoursPerUnit: nat)
    requires IsComponent(c) && unit in {'w', 'd'} && UnitSeconds(unit) == 3600 * hoursPerUnit
    ensures IsComponent(Convert(c, unit, hoursPerUnit))
    ensures var c' := Convert(c, unit, hoursPerUnit);
            Value(c'.digits) * UnitSeconds(c'.unit) == Value(c.digits) * UnitSeconds(c.unit)
  {
    var v := Value(c.digits);
    assert v * (3600 * hoursPerUnit) == v * hoursPerUnit * 3600;
    DecimalValue(v * hoursPerUnit);
  }

  lemma {:induction false} ConvertAllKeepsSeconds(cs: seq<Component>, unit: char, hoursPerUnit: nat)
    requires Components(cs) && unit in {'w', 'd'} && UnitSeconds(unit) == 3600 * hoursPerUnit
    ensures var all := ConvertAll(cs, unit, hoursPerUnit);
            |all| == |cs| && Components(all) && Seconds(all) == Seconds(cs)
  {
    if cs != [] {
      assert IsComponent(cs[0]);
      ConvertKeepsSeconds(cs[0], unit, hoursPerUnit);
      ConvertAllKeepsSeconds(cs[1..], unit, hoursPerUnit);
      assert ConvertAll(cs, unit, hoursPerUnit)[1..] == ConvertAll(cs[1..], unit, hoursPerUnit);
    }
  }

  lemma WithinRange(v: nat, seconds: nat, hoursPerUnit: nat)
    requires seconds == 3600 * hoursPerUnit && hoursPerUnit > 0 && v * seconds <= MAX_INT64
    ensures v <= MAX_INT64 && v * hoursPerUnit <= MAX_INT64
  {
    assert v * seconds == 3600 * (v * hoursPerUnit);
    assert v * hoursPerUnit == v + v * (hoursPerUnit - 1);
  }

  lemma {:induction false} ReplaceConvertsAll(cs: seq<Component>, unit: char, hoursPerUnit: nat)
    requires Components(cs) && unit in {'w', 'd'} && UnitSeconds(unit) == 3600 * hoursPerUnit
    requires Seconds(cs) <= MAX_INT64
    ensures Replaced(Text(cs), unit, hoursPerUnit) == Text(ConvertAll(cs, unit, hoursPerUnit))
  {
    if cs != [] {
      var c, rest := cs[0], cs[1..];
      assert IsComponent(c);
      ReplaceConvertsAll(rest, unit, hoursPerUnit);
      assert ConvertAll(cs, unit, hoursPerUnit)[1..] == ConvertAll(rest, unit, hoursPerUnit);
      if c.unit == unit {
        WithinRange(Value(c.digits), UnitSeconds(unit), hoursPerUnit);
        ReplacedConverts(c.digits, Text(rest), unit, hoursPerUnit);
      } else {
        ReplacedSkips(c.digits + [c.unit], Text(rest), unit, hoursPerUnit);
      }
    }
  }

  lemma {:induction false} ConvertedUnits(cs: seq<Component>, unit: char, hoursPerUnit: nat, i: nat)
    requires Components(cs) && i < |cs|
    ensures |ConvertAll(cs, unit, hoursPerUnit)| == |cs|
    ensures ConvertAll(cs, unit, hoursPerUnit)[i] == Convert(cs[i], unit, hoursPerUnit)
  {
    if i > 0 {
      ConvertedUnits(cs[1..], unit, hoursPerUnit, i - 1);
    } else if |cs| > 1 {
      ConvertedUnits(cs[1..], unit, hoursPerUnit, 0);
    }
  }

  // ---- What is left to read ----

  ghost predicate ClockUnits(cs: seq<Component>)
  {
    forall i :: 0 <= i < |cs| ==> cs[i].unit in {'h', 'm', 's'}
  }

  /** After both rewrites only hours, minutes and seconds are left. */
  lemma OnlyClockUnits(cs: seq<Component>)
    requires Components(cs) && Components(ConvertAll(cs, 'w', 7 * 24))
    ensures ClockUnits(ConvertAll(ConvertAll(cs, 'w', 7 * 24), 'd', 24))
  {
    var noWeeks := ConvertAll(cs, 'w', 7 * 24);
    var clock := ConvertAll(noWeeks, 'd', 24);
    ConvertAllLength(cs, 'w', 7 * 24);
    ConvertAllLength(noWeeks, 'd', 24);
    forall i | 0 <= i < |clock| ensures clock[i].unit in {'h', 'm', 's'} {
      ConvertedUnits(cs, 'w', 7 * 24, i);
      ConvertedUnits(noWeeks, 'd', 24, i);
      assert IsComponent(cs[i]) && IsComponent(noWeeks[i]);
    }
  }

  lemma {:induction false} ConvertAllLength(cs: seq<Component>, unit: char, hoursPerUnit: nat)
    requires Components(cs)
    ensures |ConvertAll(cs, unit, hoursPerUnit)| == |cs|
  {
    if cs != [] {
      ConvertAllLength(cs[1..], unit, hoursPerUnit);
    }
  }

  /** The rewritten text is the text of hours, minutes and seconds with the same sum. */
  lemma RewritingKeepsTheSum(cs: seq<Component>) returns (clock: seq<Component>)
    requires Components(cs) && Seconds(cs) <= MAX_INT64
    ensures |clock| == |cs| && Components(clock) && ClockUnits(clock)
    ensures Seconds(clock) == Seconds(cs) && ToGoDuration(Text(cs)) == Text(clock)
  {
    var noWeeks := ConvertAll(cs, 'w', 7 * 24);
    ConvertAllKeepsSeconds(cs, 'w', 7 * 24);
    ReplaceConvertsAll(cs, 'w', 7 * 24);
    clock := ConvertAll(noWeeks, 'd', 24);
    ConvertAllKeepsSeconds(noWeeks, 'd', 24);
    ReplaceConvertsAll(noWeeks, 'd', 24);
    OnlyClockUnits(cs);
  }
}
