/**
 What the model of Go's time.ParseDuration reads, exactly: an optional sign and then a zero or terms of a
 number and a unit, as long as their sum fits. So it is known which uptimes of internal/collector/parse/parser.go
 are read, and as what.
 */
module Durations {
  import opened Common
  import opened Uptime

  /** One more than the largest int64. */
  const LIMIT: int := 0x8000_0000_0000_0000

  datatype Term = Term(digits: string, unit: string)

  /** Nanoseconds to the unit. */
  function Length(unit: string): nat
  {
    if unit == "h" then 3_600_000_000_000
    else if unit == "m" then 60_000_000_000
    else if unit == "s" then 1_000_000_000
    else if unit == "ms" then 1_000_000
    else if unit == "us" then 1_000
    else if unit == "ns" then 1
    else 0
  }

  predicate IsTerm(t: Term) { t.digits != "" && AllDigits(t.digits) && Length(t.unit) > 0 }

  ghost predicate Terms(ts: seq<Term>) { forall i :: 0 <= i < |ts| ==> IsTerm(ts[i]) }

  function Written(ts: seq<Term>): string { if ts == [] then "" else ts[0].digits + (ts[0].unit + Written(ts[1..])) }

  ghost function Nanos(ts: seq<Term>): nat
    requires Terms(ts)
  {
    if ts == [] then 0
    else
      assert IsTerm(ts[0]);
      Value(ts[0].digits) * Length(ts[0].unit) + Nanos(ts[1..])
  }

  // ---- Terms are read ----

  lemma {:induction false} LeadingIntExactly(digits: string, s: string, x: nat)
    requires AllDigits(digits) && (s == "" || !IsDigit(s[0])) && x <= LIMIT
    ensures LeadingInt(digits + s, x) == if ValueFrom(x, digits) <= LIMIT then Some((ValueFrom(x, digits), s)) else None
    decreases |digits|
  {
    if digits == "" {
      assert digits + s == s;
    } else {
      var y := 10 * x + Digit(digits[0]);
      assert (digits + s)[1..] == digits[1..] + s;
      if y <= LIMIT {
        LeadingIntExactly(digits[1..], s, y);
      }
    }
  }

  lemma UnitLengthOf(unit: string, rest: string)
    requires |unit| == 1 || |unit| == 2
    requires forall i :: 0 <= i < |unit| ==> !IsDigit(unit[i]) && unit[i] != '.'
    requires rest == "" || IsDigit(rest[0])
    ensures UnitLength(unit + rest) == |unit|
  {
    var s := unit + rest;
    if |unit| == 1 {
      assert s[1..] == rest;
    } else {
      assert s[1..] == unit[1..] + rest && s[1..][1..] == rest;
    }
  }

  lemma UnitNanosIsLength(unit: string)
    ensures UnitNanos(unit) == if Length(unit) > 0 then Some(Length(unit)) else None
  {}

  lemma UnitOfText(unit: string, rest: string)
    requires Length(unit) > 0 && (rest == "" || IsDigit(rest[0]))
    ensures UnitLength(unit + rest) == |unit| && UnitNanos(unit) == Some(Length(unit))
    ensures unit != "" && !IsDigit(unit[0])
  {
    UnitNanosIsLength(unit);
    UnitLengthOf(unit, rest);
  }

  lemma WrittenStarts(ts: seq<Term>)
    requires Terms(ts)
    ensures Written(ts) == "" || IsDigit(Written(ts)[0])
  {
    if ts != [] {
      assert IsTerm(ts[0]) && Written(ts)[0] == ts[0].digits[0];
    }
  }

  lemma Quotient(v: nat, n: nat)
    requires n > 0
    ensures v > LIMIT / n <==> v * n > LIMIT
  {
    var q := LIMIT / n;
    QuotientBounds(LIMIT, n);
    if v > q {
      Times(n, q + 1, v);
    } else {
      Times(n, v, q);
    }
  }

  lemma QuotientBounds(bound: nat, n: nat)
    requires n > 0
    ensures n * (bound / n) <= bound < n * (bound / n + 1)
  {}

  lemma Times(n: nat, a: nat, b: nat)
    requires a <= b
    ensures n * a <= n * b && n * b == b * n && n * a == a * n
  {
    assert n * b == n * a + n * (b - a);
  }

  lemma FirstTerm(t: Term, rest: string, total: nat)
    requires IsTerm(t) && (rest == "" || IsDigit(rest[0])) && total <= LIMIT
    ensures var next := total + Value(t.digits) * Length(t.unit);
            ParseTerms(t.digits + (t.unit + rest), total) == if next <= LIMIT then ParseTerms(rest, next) else None
  {
    var tail, v := t.unit + rest, Value(t.digits);
    UnitOfText(t.unit, rest);
    LeadingIntExactly(t.digits, tail, 0);
    Quotient(v, Length(t.unit));
    assert (t.digits + tail)[0] == t.digits[0];
    assert tail[..|t.unit|] == t.unit && tail[|t.unit|..] == rest;
    assert v * Length(t.unit) == v + v * (Length(t.unit) - 1);
  }

  lemma FirstOfTerms(ts: seq<Term>, total: nat) returns (next: nat)
    requires ts != [] && Terms(ts) && total <= LIMIT
    ensures Terms(ts[1..]) && next >= total && next + Nanos(ts[1..]) == total + Nanos(ts)
    ensures ParseTerms(Written(ts), total) == if next <= LIMIT then ParseTerms(Written(ts[1..]), next) else None
  {
    assert IsTerm(ts[0]);
    WrittenStarts(ts[1..]);
    FirstTerm(ts[0], Written(ts[1..]), total);
    next := total + Value(ts[0].digits) * Length(ts[0].unit);
  }

  /** Terms are read as their sum, added to what was read before, if and only if it fits. */
  lemma {:induction false} TermsReadExactly(ts: seq<Term>, total: nat)
    requires Terms(ts) && total <= LIMIT
    ensures ParseTerms(Written(ts), total) == if total + Nanos(ts) <= LIMIT then Some(total + Nanos(ts)) else None
    decreases |ts|
  {
    if ts != [] {
      var next := FirstOfTerms(ts, total);
      if next <= LIMIT {
        TermsReadExactly(ts[1..], next);
      }
    }
  }

  // ---- Nothing else is ----

  lemma LeadingIntNext(s: string, x: nat)
    requires s != "" && IsDigit(s[0]) && LeadingInt(s, x).Some?
    ensures LeadingInt(s, x) == LeadingInt(s[1..], 10 * x + Digit(s[0]))
  {}

  lemma DigitInFront(s: string, more: string, rest: string)
    requires s != "" && IsDigit(s[0]) && AllDigits(more) && s[1..] == more + rest
    ensures AllDigits([s[0]] + more) && s == [s[0]] + more + rest
  {
    assert s == [s[0]] + s[1..];
  }

  lemma {:induction false} LeadingIntSplits(s: string, x: nat) returns (digits: string)
    requires LeadingInt(s, x).Some?
    ensures AllDigits(digits) && s == digits + LeadingInt(s, x).value.1
    ensures s != "" && IsDigit(s[0]) ==> digits != ""
    decreases |s|
  {
    if s == "" || !IsDigit(s[0]) {
      digits := "";
    } else {
      LeadingIntNext(s, x);
      var more := LeadingIntSplits(s[1..], 10 * x + Digit(s[0]));
      digits := [s[0]] + more;
      DigitInFront(s, more, LeadingInt(s, x).value.1);
    }
  }

  lemma FirstOfRead(s: string, total: nat) returns (n: nat, next: nat)
    requires s != "" && ParseTerms(s, total).Some?
    ensures IsDigit(s[0]) && LeadingInt(s, 0).Some?
    ensures var rest := LeadingInt(s, 0).value.1;
            0 < n <= |rest| && Length(rest[..n]) > 0 && ParseTerms(rest[n..], next) == ParseTerms(s, total)
  {
    var (v, rest) := LeadingInt(s, 0).value;
    n := UnitLength(rest);
    UnitNanosIsLength(rest[..n]);
    next := total + v * UnitNanos(rest[..n]).value;
  }

  lemma {:induction false} OnlyTermsRead(s: string, total: nat) returns (ts: seq<Term>)
    requires ParseTerms(s, total).Some?
    ensures Terms(ts) && s == Written(ts)
    decreases |s|
  {
    if s == "" {
      ts := [];
    } else {
      var digits := LeadingIntSplits(s, 0);
      var n, next := FirstOfRead(s, total);
      var rest := LeadingInt(s, 0).value.1;
      var more := OnlyTermsRead(rest[n..], next);
      ts := TermInFront(digits, rest[..n], more);
      assert rest == rest[..n] + rest[n..];
    }
  }

  lemma TermInFront(digits: string, unit: string, more: seq<Term>) returns (ts: seq<Term>)
    requires digits != "" && AllDigits(digits) && Length(unit) > 0 && Terms(more)
    ensures ts != [] && Terms(ts) && Written(ts) == digits + (unit + Written(more))
  {
    ts := [Term(digits, unit)] + more;
    assert ts[1..] == more;
  }

  // ---- Durations ----

  /** A sign is read off, and a minus negates; the most negative number has no positive one. */
  lemma DurationReadsExactly(sign: string, ts: seq<Term>)
    requires sign in {"", "+", "-"} && ts != [] && Terms(ts)
    ensures ParseDuration(sign + Written(ts)) ==
              if sign == "-" then (if Nanos(ts) <= LIMIT then Some(-(Nanos(ts) as int)) else None)
              else if Nanos(ts) < LIMIT then Some(Nanos(ts)) else None
  {
    var s, body := sign + Written(ts), Written(ts);
    assert IsTerm(ts[0]);
    UnitOfText(ts[0].unit, "");
    WrittenStarts(ts);
    assert |body| >= |ts[0].digits| + |ts[0].unit| >= 2;
    assert s[|sign|..] == body;
    assert sign == "" ==> s == body;
    TermsReadExactly(ts, 0);
  }

  lemma ZeroReads(sign: string)
    requires sign in {"", "+", "-"}
    ensures ParseDuration(sign + "0") == Some(0) && ParseDuration(sign) == None
  {
    assert sign != "" ==> (sign + "0")[1..] == "0" && sign[1..] == "";
    assert sign == "" ==> sign + "0" == "0";
  }

  lemma OnlyDurationsRead(s: string) returns (sign: string, ts: seq<Term>)
    requires ParseDuration(s).Some?
    ensures sign in {"", "+", "-"} && Terms(ts) && (s == sign + "0" || (ts != [] && s == sign + Written(ts)))
  {
    sign := if s != "" && (s[0] == '-' || s[0] == '+') then [s[0]] else "";
    var body := s[|sign|..];
    assert s == sign + body;
    ts := [];
    if body != "0" {
      ts := OnlyTermsRead(body, 0);
    }
  }

  // ---- Uptimes ----

  /** The terms of hours, minutes and seconds. */
  function TermsOf(clock: seq<Component>): seq<Term>
  {
    if clock == [] then [] else [Term(clock[0].digits, [clock[0].unit])] + TermsOf(clock[1..])
  }

  lemma {:induction false} ClockIsTerms(clock: seq<Component>)
    requires Components(clock) && ClockUnits(clock)
    ensures |TermsOf(clock)| == |clock| && Terms(TermsOf(clock)) && Written(TermsOf(clock)) == Text(clock)
    ensures Nanos(TermsOf(clock)) == Seconds(clock) * NANOS
  {
    if clock != [] {
      var c, ts := clock[0], TermsOf(clock);
      assert IsComponent(c) && c.unit in {'h', 'm', 's'};
      ClockIsTerms(clock[1..]);
      assert ts[1..] == TermsOf(clock[1..]) && IsTerm(ts[0]);
      assert Length([c.unit]) == UnitSeconds(c.unit) * NANOS;
      assert Value(c.digits) * (UnitSeconds(c.unit) * NANOS) == Value(c.digits) * UnitSeconds(c.unit) * NANOS;
      assert (Value(c.digits) * UnitSeconds(c.unit) + Seconds(clock[1..])) * NANOS
          == Value(c.digits) * UnitSeconds(c.unit) * NANOS + Seconds(clock[1..]) * NANOS;
    }
  }

  /**
   An uptime of integer components, in any order and number, is read as the sum of its components if and
   only if that fits into a Go duration, and else not at all.
   */
  lemma UptimeIsTheSumOfItsComponents(cs: seq<Component>)
    requires cs != [] && Components(cs) && Seconds(cs) <= MAX_INT64
    ensures ParseUptime(Text(cs)) == if Seconds(cs) * NANOS <= MAX_INT64 then Some(Seconds(cs) * NANOS) else None
  {
    var clock := RewritingKeepsTheSum(cs);
    ClockIsTerms(clock);
    DurationReadsExactly("", TermsOf(clock));
    assert "" + Text(clock) == Text(clock);
    assert |TermsOf(clock)| == |cs|;
  }
}
