/**
 Message templates of internal/domain/notification/domain.go. RenderTemplate rewrites the body once
 for each key of a map whose iteration order is arbitrary; it is compared with the simultaneous
 substitution of all placeholders.
 */
module Notification {
  import opened Common

  datatype Error = EmptyBody

  // ---- The string operations of Go's standard library ----

  predicate At(s: string, sub: string, i: nat) { i + |sub| <= |s| && s[i..i + |sub|] == sub }

  lemma AtNext(s: string, sub: string, i: nat)
    requires s != ""
    ensures At(s[1..], sub, i) <==> At(s, sub, i + 1)
  {
    if i + 1 + |sub| <= |s| {
      var one, other := s[1..][i..i + |sub|], s[i + 1..i + 1 + |sub|];
      assert |one| == |other| && forall j :: 0 <= j < |one| ==> one[j] == other[j];
      assert one == other;
    }
  }

  /** strings.Index: the first place where sub occurs, or -1. */
  function Index(s: string, sub: string): (r: int)
    ensures -1 <= r <= |s|
    ensures r >= 0 ==> At(s, sub, r)
  {
    if sub <= s then 0
    else if s == "" then -1
    else
      var r := Index(s[1..], sub);
      if r < 0 then -1
      else
        AtNext(s, sub, r);
        r + 1
  }

  lemma {:induction false} IndexIsFirst(s: string, sub: string, j: nat)
    requires At(s, sub, j)
    ensures 0 <= Index(s, sub) <= j
  {
    if j == 0 {
      assert s[0..|sub|] == s[..|sub|];
    } else if !(sub <= s) {
      AtNext(s, sub, j - 1);
      IndexIsFirst(s[1..], sub, j - 1);
    }
  }

  /** strings.ReplaceAll: replaces the occurrences of a non-empty text from left to right. */
  function ReplaceAll(s: string, what: string, with: string): string
    requires what != ""
  {
    if s == "" then ""
    else if what <= s then with + ReplaceAll(s[|what|..], what, with)
    else [s[0]] + ReplaceAll(s[1..], what, with)
  }

  function Placeholder(key: string): string { "{{" + key + "}}" }

  // ---- Rendering ----

  /** order is one way of ranging over the map: every key once. */
  ghost predicate RangesOver(order: seq<string>, data: map<string, string>)
  {
    && (forall k :: k in order <==> k in data)
    && forall i, j :: 0 <= i < j < |order| ==> order[i] != order[j]
  }

  /** The body after the first keys of the range have been processed. */
  function Replaced(body: string, data: map<string, string>, keys: seq<string>): string
    requires forall k :: k in keys ==> k in data
  {
    if keys == [] then body
    else
      var last := keys[|keys| - 1];
      ReplaceAll(Replaced(body, data, keys[..|keys| - 1]), Placeholder(last), data[last])
  }

  method ReplaceLoop(text: string, data: map<string, string>, order: seq<string>) returns (result: string)
    requires RangesOver(order, data)
    ensures result == Replaced(text, data, order)
  {
    result := text;
    var i := 0;
    while i < |order|
      invariant 0 <= i <= |order|
      invariant result == Replaced(text, data, order[..i])
    {
      assert order[..i + 1][..i] == order[..i];
      result := ReplaceAll(result, "{{" + order[i] + "}}", data[order[i]]);
      i := i + 1;
    }
    assert order[..i] == order;
  }

  method RenderTemplate(body: string, data: map<string, string>, order: seq<string>) returns (r: Result<string, Error>)
    requires RangesOver(order, data)
    ensures body == "" ==> r == Err(EmptyBody)
    ensures body != "" ==> r == Ok(Replaced(body, data, order))
  {
    if body == "" {
      return Err(EmptyBody);
    }
    var text := ReplaceLoop(body, data, order);
    r := Ok(text);
  }

  method RenderSubject(subject: Option<string>, data: map<string, string>, order: seq<string>) returns (r: string)
    requires RangesOver(order, data)
    ensures r == if subject.Some? then Replaced(subject.value, data, order) else ""
  {
    if subject.None? {
      return "";
    }
    r := ReplaceLoop(subject.value, data, order);
  }

  // ---- Extracting ----

  /** The key of a placeholder that opens the text, and the text after its closing braces. */
  function KeyAt(text: string): (r: Option<(string, string)>)
    requires At(text, "{{", 0)
    ensures r.Some? ==> |r.value.1| < |text|
  {
    var end := Index(text, "}}");
    if end == -1 then None
    else
      OpenBeforeClose(text, end);
      Some((text[2..end], text[end + 2..]))
  }

  /** The next placeholder's key and the text after it. */
  function NextKey(rest: string): (r: Option<(string, string)>)
    ensures r.Some? ==> |r.value.1| < |rest|
  {
    var start := Index(rest, "{{");
    if start == -1 then None
    else
      OpensAt(rest, start);
      KeyAt(rest[start..])
  }

  lemma OpensAt(rest: string, start: nat)
    requires At(rest, "{{", start)
    ensures At(rest[start..], "{{", 0)
  {
    assert rest[start..][0..2] == rest[start..start + 2];
  }

  function Add(found: seq<string>, key: string): seq<string> { if key in found then found else found + [key] }

  /** The keys found so far are in found; the rest of the body is still to be scanned. */
  function Scan(rest: string, found: seq<string>): seq<string>
    decreases |rest|
  {
    match NextKey(rest)
    case None => found
    case Some((key, after)) => Scan(after, Add(found, key))
  }

  function FirstOf(s: string, c: char): nat
  {
    if s == "" || s[0] == c then 0 else 1 + FirstOf(s[1..], c)
  }

  lemma {:induction false} FirstOfSkips(t: string, s: string, c: char)
    requires c !in t
    ensures FirstOf(t + s, c) == |t| + FirstOf(s, c)
  {
    if t == "" {
      assert t + s == s;
    } else {
      assert (t + s)[1..] == t[1..] + s;
      FirstOfSkips(t[1..], s, c);
    }
  }

  lemma {:induction false} PairNotBefore(s: string, c: char, j: nat)
    requires At(s, [c, c], j)
    ensures FirstOf(s, c) <= j
  {
    if j > 0 {
      AtNext(s, [c, c], j - 1);
      PairNotBefore(s[1..], c, j - 1);
    } else {
      assert s[0..2][0] == s[0];
    }
  }

  /** Text that starts with two opening braces has no closing pair before its third character. */
  lemma OpenBeforeClose(s: string, end: nat)
    requires At(s, "{{", 0) && At(s, "}}", end)
    ensures end >= 2
  {
    assert s == "{{" + s[2..] by {
      assert s == s[0..2] + s[2..];
    }
    FirstOfSkips("{{", s[2..], '}');
    PairNotBefore(s, '}', end);
  }

  method ExtractPlaceholders(body: string) returns (result: seq<string>)
    ensures result == Scan(body, [])
  {
    var seen: set<string> := {};
    result := [];
    var remaining := body;
    while true
      invariant forall k :: k in seen <==> k in result
      invariant Scan(remaining, result) == Scan(body, [])
      decreases |remaining|
    {
      var next := NextKey(remaining);
      if next == None {
        break;
      }
      var (key, after) := next.value;
      if key !in seen {
        seen := seen + {key};
        result := result + [key];
      }
      remaining := after;
    }
  }

  // ---- Templates as text and holes ----

  datatype Segment = Literal(text: string) | Hole(key: string)

  predicate BraceFree(s: string) { '{' !in s && '}' !in s }

  function Inner(seg: Segment): string { match seg case Literal(t) => t case Hole(k) => k }

  ghost predicate WellFormed(segs: seq<Segment>)
  {
    forall i :: 0 <= i < |segs| ==> BraceFree(Inner(segs[i]))
  }

  function SegmentText(seg: Segment): string { match seg case Literal(t) => t case Hole(k) => Placeholder(k) }

  function Text(segs: seq<Segment>): string
  {
    if segs == [] then "" else SegmentText(segs[0]) + Text(segs[1..])
  }

  /** Simultaneous substitution of the keys listed: each such hole becomes its value, the rest stays. */
  function Fill(seg: Segment, data: map<string, string>, keys: seq<string>): Segment
  {
    if seg.Hole? && seg.key in keys && seg.key in data then Literal(data[seg.key]) else seg
  }

  function FillAll(segs: seq<Segment>, data: map<string, string>, keys: seq<string>): (r: seq<Segment>)
    ensures |r| == |segs| && forall i :: 0 <= i < |r| ==> r[i] == Fill(segs[i], data, keys)
  {
    seq(|segs|, i requires 0 <= i < |segs| => Fill(segs[i], data, keys))
  }

  // ---- One replacement ----

  lemma {:induction false} SkipLiteral(text: string, s: string, what: string, with: string)
    requires '{' !in text && what != "" && what[0] == '{'
    ensures ReplaceAll(text + s, what, with) == text + ReplaceAll(s, what, with)
  {
    if text == "" {
      assert text + s == s;
    } else {
      assert (text + s)[0] == text[0] != what[0];
      assert !(what <= text + s);
      assert (text + s)[1..] == text[1..] + s;
      SkipLiteral(text[1..], s, what, with);
    }
  }

  lemma PlaceholderShape(key: string, s: string)
    requires BraceFree(key)
    ensures var text := Placeholder(key) + s;
            && At(text, "{{", 0) && At(text, "}}", 2 + |key|)
            && FirstOf(text, '}') == 2 + |key|
            && text[2..2 + |key|] == key && text[4 + |key|..] == s
  {
    var text := Placeholder(key) + s;
    assert text == ("{{" + key) + ("}}" + s);
    FirstOfSkips("{{" + key, "}}" + s, '}');
    assert text[2 + |key|..4 + |key|] == "}}";
  }

  /** A placeholder matches at the start of another one only if the keys agree. */
  lemma MatchMeansSameKey(k: string, key: string, s: string)
    requires BraceFree(k) && BraceFree(key) && Placeholder(k) <= Placeholder(key) + s
    ensures k == key
  {
    var text := Placeholder(key) + s;
    var s' := text[|Placeholder(k)|..];
    assert text == Placeholder(k) + s';
    PlaceholderShape(k, s');
    PlaceholderShape(key, s);
  }

  lemma ReplaceAtHole(key: string, s: string, k: string, v: string)
    requires BraceFree(key) && BraceFree(k)
    ensures ReplaceAll(Placeholder(key) + s, Placeholder(k), v)
         == (if key == k then v else Placeholder(key)) + ReplaceAll(s, Placeholder(k), v)
  {
    var what, text := Placeholder(k), Placeholder(key) + s;
    if key == k {
      assert text[..|what|] == what && text[|what|..] == s;
    } else {
      if what <= text {
        MatchMeansSameKey(k, key, s);
      }
      ReplaceMismatch(key, s, k, v);
    }
  }

  lemma ReplaceMismatch(key: string, s: string, k: string, v: string)
    requires BraceFree(key) && BraceFree(k) && !(Placeholder(k) <= Placeholder(key) + s)
    ensures ReplaceAll(Placeholder(key) + s, Placeholder(k), v) == Placeholder(key) + ReplaceAll(s, Placeholder(k), v)
  {
    var what, text, close := Placeholder(k), Placeholder(key) + s, key + "}}";
    var tail := "{" + (close + s);
    assert text[0] == '{' && text[1..] == tail;
    assert what[1] == '{' && tail[1] == close[0] != '{';
    assert !(what <= tail);
    assert tail[1..] == close + s;
    SkipLiteral(close, s, what, v);
    assert ['{'] + (['{'] + (close + ReplaceAll(s, what, v))) == Placeholder(key) + ReplaceAll(s, what, v);
  }

  /** Replacing one key in a template text fills exactly that key's holes. */
  lemma {:induction false} ReplaceFillsHoles(segs: seq<Segment>, data: map<string, string>, k: string)
    requires WellFormed(segs) && BraceFree(k) && k in data
    ensures ReplaceAll(Text(segs), Placeholder(k), data[k]) == Text(FillAll(segs, data, [k]))
  {
    if segs != [] {
      var rest := segs[1..];
      assert FillAll(segs, data, [k])[1..] == FillAll(rest, data, [k]);
      ReplaceFillsHoles(rest, data, k);
      match segs[0]
      case Literal(t) =>
        assert BraceFree(Inner(segs[0]));
        SkipLiteral(t, Text(rest), Placeholder(k), data[k]);
      case Hole(key) =>
        assert BraceFree(Inner(segs[0]));
        ReplaceAtHole(key, Text(rest), k, data[k]);
    }
  }

  // ---- The whole loop ----

  ghost predicate BraceFreeData(data: map<string, string>)
  {
    forall k :: k in data ==> BraceFree(k) && BraceFree(data[k])
  }

  lemma FillAllWellFormed(segs: seq<Segment>, data: map<string, string>, keys: seq<string>)
    requires WellFormed(segs) && BraceFreeData(data)
    ensures WellFormed(FillAll(segs, data, keys))
  {
    var filled := FillAll(segs, data, keys);
    forall i | 0 <= i < |filled| ensures BraceFree(Inner(filled[i])) {
      assert BraceFree(Inner(segs[i]));
    }
  }

  /** The template with every hole whose key has a value filled at once. */
  function Substituted(segs: seq<Segment>, data: map<string, string>): (r: seq<Segment>)
    ensures |r| == |segs|
  {
    seq(|segs|, i requires 0 <= i < |segs| =>
      if segs[i].Hole? && segs[i].key in data then Literal(data[segs[i].key]) else segs[i])
  }

  lemma FillAllIsSubstituted(segs: seq<Segment>, data: map<string, string>, order: seq<string>)
    requires RangesOver(order, data)
    ensures FillAll(segs, data, order) == Substituted(segs, data)
  {
    forall i | 0 <= i < |segs| ensures FillAll(segs, data, order)[i] == Substituted(segs, data)[i] {}
  }

  lemma OtherPlaceholderStays(key: string, k: string, with: string)
    requires BraceFree(key) && BraceFree(k) && key != k
    ensures ReplaceAll(Placeholder(key), Placeholder(k), with) == Placeholder(key)
  {
    ReplaceAtHole(key, "", k, with);
    assert Placeholder(key) + "" == Placeholder(key);
  }

  /** Keys that find nothing to replace change nothing. */
  lemma {:induction false} RestStays(body: string, data: map<string, string>, first: seq<string>, rest: seq<string>, text: string)
    requires forall k :: k in first + rest ==> k in data
    requires forall k :: k in first ==> k in data
    requires Replaced(body, data, first) == text
    requires forall k :: k in rest ==> k in data && ReplaceAll(text, Placeholder(k), data[k]) == text
    ensures Replaced(body, data, first + rest) == text
  {
    if rest == [] {
      assert first + rest == first;
    } else {
      var n := |rest| - 1;
      assert rest[n] in rest;
      assert forall k :: k in first + rest[..n] ==> k in first + rest;
      RestStays(body, data, first, rest[..n], text);
      assert (first + rest)[..|first + rest| - 1] == first + rest[..n];
      assert (first + rest)[|first + rest| - 1] == rest[n];
    }
  }

  // ---- Values with placeholders in them ----

  lemma ReplaceWhole(k: string, v: string)
    requires BraceFree(k)
    ensures ReplaceAll(Placeholder(k), Placeholder(k), v) == v
  {
    ReplaceAtHole(k, "", k, v);
    assert Placeholder(k) + "" == Placeholder(k) && v + "" == v;
  }

  lemma {:induction false} ReplacedLength(s: string, what: string, with: string)
    requires what != ""
    ensures |with| >= |what| ==> |ReplaceAll(s, what, with)| >= |s|
    ensures |with| <= |what| ==> |ReplaceAll(s, what, with)| <= |s|
  {
    if s == "" {
    } else if what <= s {
      ReplacedLength(s[|what|..], what, with);
    } else {
      ReplacedLength(s[1..], what, with);
    }
  }

  lemma ReplacedStart(s: string, what: string, with: string)
    requires what != "" && what <= s && what != with
    ensures ReplaceAll(s, what, with) != s
  {
    ReplacedLength(s[|what|..], what, with);
    if |with| == |what| {
      assert ReplaceAll(s, what, with)[..|with|] == with && s[..|what|] == what;
    }
  }

  /** A replacement leaves a text alone exactly when it finds nothing, or puts back what it takes. */
  lemma {:induction false} StaysExactlyWhen(s: string, what: string, with: string)
    requires what != ""
    ensures ReplaceAll(s, what, with) == s <==> Index(s, what) < 0 || with == what
  {
    if s == "" {
    } else if what <= s {
      if with == what {
        StaysExactlyWhen(s[|what|..], what, with);
        assert s == what + s[|what|..];
      } else {
        ReplacedStart(s, what, with);
      }
    } else {
      StaysExactlyWhen(s[1..], what, with);
      assert s == [s[0]] + s[1..];
      assert ReplaceAll(s, what, with)[1..] == ReplaceAll(s[1..], what, with);
    }
  }

  ghost predicate BraceFreeKeys(data: map<string, string>) { forall k :: k in data ==> BraceFree(k) }

  /** The value holds no placeholder of another key, but for one that stands for itself. */
  ghost predicate Untouched(data: map<string, string>, a: string)
    requires a in data
  {
    forall k :: k in data && k != a ==> Index(data[a], Placeholder(k)) < 0 || data[k] == Placeholder(k)
  }

  /** Whatever the order, the key's placeholder is rendered as its value. */
  ghost predicate RendersItsValue(data: map<string, string>, a: string)
    requires a in data
  {
    forall order :: RangesOver(order, data) ==> Replaced(Placeholder(a), data, order) == data[a]
  }

  ghost predicate OrderIrrelevant(text: string, data: map<string, string>)
  {
    forall one, other :: RangesOver(one, data) && RangesOver(other, data) ==>
      Replaced(text, data, one) == Replaced(text, data, other)
  }

  lemma ReplacedSnoc(body: string, data: map<string, string>, keys: seq<string>, k: string)
    requires k in data && forall j :: j in keys ==> j in data
    ensures (forall j :: j in keys + [k] ==> j in data)
    ensures Replaced(body, data, keys + [k]) == ReplaceAll(Replaced(body, data, keys), Placeholder(k), data[k])
  {
    assert (keys + [k])[..|keys + [k]| - 1] == keys;
  }

  /** Keys other than its own leave a placeholder alone. */
  lemma OthersLeavePlaceholder(data: map<string, string>, a: string, keys: seq<string>)
    requires BraceFreeKeys(data) && BraceFree(a) && forall k :: k in keys ==> k in data && k != a
    ensures Replaced(Placeholder(a), data, keys) == Placeholder(a)
  {
    forall k | k in keys ensures ReplaceAll(Placeholder(a), Placeholder(k), data[k]) == Placeholder(a) {
      OtherPlaceholderStays(a, k, data[k]);
    }
    assert [] + keys == keys;
    RestStays(Placeholder(a), data, [], keys, Placeholder(a));
  }

  lemma ReplacedUpTo(data: map<string, string>, a: string, keys: seq<string>)
    requires BraceFreeKeys(data) && a in data && forall k :: k in keys ==> k in data && k != a
    ensures (forall k :: k in keys + [a] ==> k in data)
    ensures Replaced(Placeholder(a), data, keys + [a]) == data[a]
  {
    OthersLeavePlaceholder(data, a, keys);
    ReplacedSnoc(Placeholder(a), data, keys, a);
    ReplaceWhole(a, data[a]);
  }

  lemma UntouchedRendersItsValue(data: map<string, string>, a: string, order: seq<string>)
    requires BraceFreeKeys(data) && a in data && Untouched(data, a) && RangesOver(order, data)
    ensures Replaced(Placeholder(a), data, order) == data[a]
  {
    var i :| 0 <= i < |order| && order[i] == a;
    var first, rest := order[..i], order[i + 1..];
    assert order == first + [a] + rest;
    forall k | k in first ensures k in data && k != a {
      assert k in order;
    }
    ReplacedUpTo(data, a, first);
    forall k | k in rest ensures k in data && ReplaceAll(data[a], Placeholder(k), data[k]) == data[a] {
      assert k in order;
      StaysExactlyWhen(data[a], Placeholder(k), data[k]);
    }
    RestStays(Placeholder(a), data, first + [a], rest, data[a]);
  }

  /** An order over a set of keys. */
  lemma {:induction false} SomeOrder(keys: set<string>) returns (order: seq<string>)
    ensures forall k :: k in order <==> k in keys
    ensures forall i, j :: 0 <= i < j < |order| ==> order[i] != order[j]
    decreases |keys|
  {
    if keys == {} {
      order := [];
    } else {
      var k :| k in keys;
      var others := SomeOrder(keys - {k});
      order := others + [k];
    }
  }

  lemma OrderEnding(data: map<string, string>, a: string, k: string) returns (rest: seq<string>)
    requires a in data && k in data && a != k
    ensures RangesOver(rest + [a, k], data)
  {
    rest := SomeOrder(data.Keys - {a, k});
    assert forall j :: j in rest + [a, k] <==> j in rest || j == a || j == k;
  }

  lemma SwapLastTwo(data: map<string, string>, a: string, k: string, rest: seq<string>)
    requires RangesOver(rest + [a, k], data)
    ensures RangesOver(rest + [k, a], data)
  {
    var n, one, other := |rest|, rest + [a, k], rest + [k, a];
    forall i, j | 0 <= i < j < |other| ensures other[i] != other[j] {
      var i', j' := if i < n then i else 2 * n + 1 - i, if j < n then j else 2 * n + 1 - j;
      assert other[i] == one[i'] && other[j] == one[j'] && i' != j';
      assert if i' < j' then one[i'] != one[j'] else one[j'] != one[i'];
    }
    assert forall j :: j in one <==> j in other;
  }

  lemma OthersInFront(data: map<string, string>, a: string, k: string, rest: seq<string>)
    requires RangesOver(rest + [a, k], data)
    ensures a != k && forall j :: j in rest ==> j in data && j != a && j != k
  {
    var one := rest + [a, k];
    assert one[|rest|] == a && one[|rest| + 1] == k;
    forall j | j in rest ensures j in data && j != a && j != k {
      var i :| 0 <= i < |rest| && rest[i] == j;
      assert one[i] == j;
    }
  }

  lemma ReplacedThenOther(data: map<string, string>, a: string, k: string, rest: seq<string>)
    requires BraceFreeKeys(data) && a in data && k in data && forall j :: j in rest ==> j in data && j != a
    ensures (forall j :: j in rest + [a, k] ==> j in data)
    ensures Replaced(Placeholder(a), data, rest + [a, k]) == ReplaceAll(data[a], Placeholder(k), data[k])
  {
    ReplacedUpTo(data, a, rest);
    ReplacedSnoc(Placeholder(a), data, rest + [a], k);
    assert rest + [a] + [k] == rest + [a, k];
  }

  lemma OtherThenReplaced(data: map<string, string>, a: string, k: string, rest: seq<string>)
    requires BraceFreeKeys(data) && a in data && k in data && k != a && forall j :: j in rest ==> j in data && j != a
    ensures (forall j :: j in rest + [k, a] ==> j in data)
    ensures Replaced(Placeholder(a), data, rest + [k, a]) == data[a]
  {
    ReplacedUpTo(data, a, rest + [k]);
    assert rest + [k] + [a] == rest + [k, a];
  }

  /**
   When a key's value holds the placeholder of another key, the text depends on the order in which the map
   is ranged over: with the other key last its placeholder is replaced, too, and before it is left.
   */
  lemma BracedValueDependsOnOrder(data: map<string, string>, a: string, k: string, rest: seq<string>)
    requires BraceFreeKeys(data) && RangesOver(rest + [a, k], data) && a in data && k in data
    requires Index(data[a], Placeholder(k)) >= 0 && data[k] != Placeholder(k)
    ensures RangesOver(rest + [k, a], data)
    ensures Replaced(Placeholder(a), data, rest + [k, a]) == data[a]
    ensures Replaced(Placeholder(a), data, rest + [a, k]) == ReplaceAll(data[a], Placeholder(k), data[k]) != data[a]
    ensures data[a] == Placeholder(k) ==> Replaced(Placeholder(a), data, rest + [a, k]) == data[k]
  {
    OthersInFront(data, a, k, rest);
    SwapLastTwo(data, a, k, rest);
    ReplacedThenOther(data, a, k, rest);
    OtherThenReplaced(data, a, k, rest);
    StaysExactlyWhen(data[a], Placeholder(k), data[k]);
    ReplaceWhole(k, data[k]);
  }

  /**
   A key's placeholder is rendered as its value for every order of the map, and the same for every order,
   if and only if the value holds no other key's placeholder, but for one that stands for itself.
   */
  lemma OrderIrrelevantExactlyWhenUntouched(data: map<string, string>, a: string)
    requires BraceFreeKeys(data) && a in data
    ensures RendersItsValue(data, a) <==> Untouched(data, a)
    ensures OrderIrrelevant(Placeholder(a), data) <==> Untouched(data, a)
  {
    if Untouched(data, a) {
      forall order | RangesOver(order, data) ensures Replaced(Placeholder(a), data, order) == data[a] {
        UntouchedRendersItsValue(data, a, order);
      }
    } else {
      var k :| k in data && k != a && !(Index(data[a], Placeholder(k)) < 0 || data[k] == Placeholder(k));
      var rest := OrderEnding(data, a, k);
      BracedValueDependsOnOrder(data, a, k, rest);
    }
  }

  // ---- When rendering is substitution ----

  /** The value of some other key than k satisfies the rest of the spelling: it starts with all of it. */
  predicate StartsWithRest(data: map<string, string>, k: string, rest: string)
  {
    exists j <- data.Keys :: j != k && rest <= data[j]
  }

  /** The text can be continued to a template's: by literals, which have no braces, and values of other keys than k. */
  predicate Spells(data: map<string, string>, k: string, rest: string)
    decreases |rest|
  {
    || rest == ""
    || StartsWithRest(data, k, rest)
    || (BraceFree(rest[..1]) && Spells(data, k, rest[1..]))
    || exists j <- data.Keys :: j != k && data[j] != "" && data[j] <= rest && Spells(data, k, rest[|data[j]|..])
  }

  predicate EndsWith(s: string, end: string) { |end| <= |s| && s[|s| - |end|..] == end }

  /**
   Values of other keys and literals can be put together to the placeholder of k: it is in one of them, or
   starts as one ends and goes on as others spell it.
   */
  predicate Forgeable(data: map<string, string>, k: string)
  {
    || (exists j <- data.Keys :: j != k && Index(data[j], Placeholder(k)) >= 0)
    || exists j <- data.Keys, i | 0 < i <= |Placeholder(k)| ::
         j != k && EndsWith(data[j], Placeholder(k)[..i]) && Spells(data, k, Placeholder(k)[i..])
  }

  /** No placeholder but one that stands for itself can be forged. */
  ghost predicate Unforgeable(data: map<string, string>)
  {
    forall k :: k in data ==> data[k] == Placeholder(k) || !Forgeable(data, k)
  }

  /** For every template and every order the loop is simultaneous substitution. */
  ghost predicate RendersAll(data: map<string, string>)
  {
    forall segs, order :: WellFormed(segs) && RangesOver(order, data) ==>
      Replaced(Text(segs), data, order) == Text(Substituted(segs, data))
  }

  // ---- What cannot be forged is not found ----

  /** A replacement passes over a text in which, and at whose end, it finds nothing. */
  lemma {:induction false} PassesOver(t: string, s: string, what: string, with: string)
    requires what != "" && forall i :: 0 <= i < |t| ==> !(what <= t[i..] + s)
    ensures ReplaceAll(t + s, what, with) == t + ReplaceAll(s, what, with)
  {
    if t == "" {
      assert t + s == s;
    } else {
      assert t[0..] == t;
      assert (t + s)[0] == t[0] && (t + s)[1..] == t[1..] + s;
      forall i | 0 <= i < |t[1..]| ensures !(what <= t[1..][i..] + s) {
        assert t[1..][i..] == t[i + 1..];
      }
      PassesOver(t[1..], s, what, with);
    }
  }

  /** Literal characters can be added in front of what is spelt. */
  lemma {:induction false} LiteralSpells(data: map<string, string>, k: string, t: string, rest: string)
    requires BraceFree(t) && Spells(data, k, rest)
    ensures Spells(data, k, t + rest)
  {
    if t == "" {
      assert t + rest == rest;
    } else {
      assert (t + rest)[1..] == t[1..] + rest && (t + rest)[..1] == [t[0]];
      LiteralSpells(data, k, t[1..], rest);
    }
  }

  predicate ProperEnd(k: string, end: string) { |end| < |Placeholder(k)| && EndsWith(Placeholder(k), end) }

  lemma EndOfEnd(k: string, end: string, n: nat)
    requires ProperEnd(k, end) && n <= |end|
    ensures ProperEnd(k, end[n..])
  {
    var what := Placeholder(k);
    assert end == what[|what| - |end|..];
    assert end[n..] == what[|what| - |end| + n..];
  }

  /** A proper end of a placeholder does not start as a placeholder does. */
  lemma EndIsNoStart(k: string, end: string, key: string, s: string)
    requires BraceFree(k) && ProperEnd(k, end) && end != ""
    ensures !(end <= Placeholder(key) + s)
  {
    var what, text := Placeholder(k), Placeholder(key) + s;
    var i := |what| - |end|;
    assert end == what[i..] && text[0] == '{' && text[1] == '{';
    if i == 1 {
      assert end[1] == what[2] != '{';
    } else {
      assert end[0] == what[i] != '{';
    }
  }

  /** A token of a half-rendered template that is text: a literal, or the value of another key than k. */
  ghost predicate IsText(data: map<string, string>, k: string, t: string)
  {
    BraceFree(t) || exists j :: j in data && j != k && data[j] == t
  }

  lemma TextSpells(data: map<string, string>, k: string, t: string, end: string)
    requires IsText(data, k, t) && end <= t
    ensures Spells(data, k, end)
  {
    if BraceFree(t) {
      assert t[..|end|] == end;
      LiteralSpells(data, k, end, "");
      assert end + "" == end;
    } else {
      var j :| j in data && j != k && data[j] == t;
      assert StartsWithRest(data, k, end);
    }
  }

  lemma TextSpellsMore(data: map<string, string>, k: string, t: string, end: string)
    requires IsText(data, k, t) && Spells(data, k, end)
    ensures Spells(data, k, t + end)
  {
    if BraceFree(t) {
      LiteralSpells(data, k, t, end);
    } else {
      var j :| j in data && j != k && data[j] == t;
      assert j in data.Keys && data[j] != "" && data[j] <= t + end && (t + end)[|data[j]|..] == end;
    }
  }

  lemma FilledIsText(data: map<string, string>, k: string, seg: Segment, keys: seq<string>)
    requires BraceFree(Inner(seg)) && k !in keys && Fill(seg, data, keys).Literal?
    ensures IsText(data, k, SegmentText(Fill(seg, data, keys)))
  {}

  lemma TextCons(segs: seq<Segment>, data: map<string, string>, keys: seq<string>)
    requires segs != []
    ensures Text(FillAll(segs, data, keys)) == SegmentText(Fill(segs[0], data, keys)) + Text(FillAll(segs[1..], data, keys))
  {
    assert FillAll(segs, data, keys)[1..] == FillAll(segs[1..], data, keys);
  }

  /** What starts a text either fits its first part or goes on in the rest. */
  lemma StartSplits(end: string, t: string, tail: string)
    requires end <= t + tail
    ensures |end| <= |t| ==> end <= t
    ensures |t| < |end| ==> end == t + end[|t|..] && end[|t|..] <= tail
  {
    if |end| <= |t| {
      assert end == (t + tail)[..|end|] == t[..|end|];
    } else {
      assert end == (t + tail)[..|end|] == t + tail[..|end| - |t|];
    }
  }

  /** A proper end of the placeholder that starts the text of a half-rendered template can be spelt. */
  lemma {:induction false} StartIsSpelt(segs: seq<Segment>, data: map<string, string>, keys: seq<string>, k: string, end: string)
    requires WellFormed(segs) && BraceFree(k) && k !in keys && ProperEnd(k, end)
    requires end <= Text(FillAll(segs, data, keys))
    ensures Spells(data, k, end)
    decreases |segs|
  {
    if end != "" && segs != [] {
      var seg, t, tail := segs[0], SegmentText(Fill(segs[0], data, keys)), Text(FillAll(segs[1..], data, keys));
      TextCons(segs, data, keys);
      StartSplits(end, t, tail);
      assert BraceFree(Inner(seg));
      if Fill(seg, data, keys).Hole? {
        EndIsNoStart(k, end, seg.key, tail);
      } else {
        FilledIsText(data, k, seg, keys);
        if |end| <= |t| {
          TextSpells(data, k, t, end);
        } else {
          var more := end[|t|..];
          EndOfEnd(k, end, |t|);
          StartIsSpelt(segs[1..], data, keys, k, more);
          TextSpellsMore(data, k, t, more);
        }
      }
    }
  }

  lemma CutForges(data: map<string, string>, k: string, j: string, v: string, end: string)
    requires j in data && j != k && EndsWith(data[j], v) && v != "" && Placeholder(k) == v + end && Spells(data, k, end)
    ensures Forgeable(data, k)
  {
    var i := |v|;
    assert Placeholder(k)[..i] == v && Placeholder(k)[i..] == end;
  }

  /** Where a placeholder would start in a filled hole it could be forged. */
  lemma FoundMeansForgeable(data: map<string, string>, keys: seq<string>, rest: seq<Segment>, k: string, j: string, p: nat)
    requires WellFormed(rest) && BraceFree(k) && k !in keys && j in data && j != k && p < |data[j]|
    requires Placeholder(k) <= data[j][p..] + Text(FillAll(rest, data, keys))
    ensures Forgeable(data, k)
  {
    var what, v := Placeholder(k), data[j][p..];
    StartSplits(what, v, Text(FillAll(rest, data, keys)));
    if |what| <= |v| {
      assert data[j][p..p + |what|] == v[..|what|];
      IndexIsFirst(data[j], what, p);
    } else {
      var end := what[|v|..];
      StartIsSpelt(rest, data, keys, k, end);
      CutForges(data, k, j, v, end);
    }
  }

  /** Replacing a key whose placeholder cannot be forged fills exactly its holes, whatever has been filled before. */
  lemma {:induction false} ReplaceFillsMore(segs: seq<Segment>, data: map<string, string>, keys: seq<string>, k: string)
    requires WellFormed(segs) && BraceFree(k) && k in data && k !in keys && !Forgeable(data, k)
    ensures ReplaceAll(Text(FillAll(segs, data, keys)), Placeholder(k), data[k]) == Text(FillAll(segs, data, keys + [k]))
    decreases |segs|
  {
    if segs != [] {
      var rest, filled := segs[1..], FillAll(segs, data, keys);
      var tail := Text(FillAll(rest, data, keys));
      assert filled[1..] == FillAll(rest, data, keys);
      assert FillAll(segs, data, keys + [k])[1..] == FillAll(rest, data, keys + [k]);
      ReplaceFillsMore(rest, data, keys, k);
      assert BraceFree(Inner(segs[0]));
      if segs[0].Literal? {
        SkipLiteral(segs[0].text, tail, Placeholder(k), data[k]);
      } else if filled[0].Hole? {
        ReplaceAtHole(segs[0].key, tail, k, data[k]);
      } else {
        var j := segs[0].key;
        forall p | 0 <= p < |data[j]| ensures !(Placeholder(k) <= data[j][p..] + tail) {
          if Placeholder(k) <= data[j][p..] + tail {
            FoundMeansForgeable(data, keys, rest, k, j, p);
          }
        }
        PassesOver(data[j], tail, Placeholder(k), data[k]);
      }
    }
  }

  /** A key that stands for its own placeholder may as well be filled. */
  lemma {:induction false} FillingItselfKeepsText(segs: seq<Segment>, data: map<string, string>, keys: seq<string>, k: string)
    requires k in data && data[k] == Placeholder(k)
    ensures Text(FillAll(segs, data, keys + [k])) == Text(FillAll(segs, data, keys))
    decreases |segs|
  {
    if segs != [] {
      FillingItselfKeepsText(segs[1..], data, keys, k);
      assert FillAll(segs, data, keys)[1..] == FillAll(segs[1..], data, keys);
      assert FillAll(segs, data, keys + [k])[1..] == FillAll(segs[1..], data, keys + [k]);
    }
  }

  lemma {:induction false} UnforgeableRenders(segs: seq<Segment>, data: map<string, string>, keys: seq<string>)
    requires WellFormed(segs) && BraceFreeKeys(data) && Unforgeable(data)
    requires forall k :: k in keys ==> k in data
    requires forall i, j :: 0 <= i < j < |keys| ==> keys[i] != keys[j]
    ensures Replaced(Text(segs), data, keys) == Text(FillAll(segs, data, keys))
    decreases |keys|
  {
    if keys == [] {
      assert FillAll(segs, data, keys) == segs;
    } else {
      var first, last := keys[..|keys| - 1], keys[|keys| - 1];
      assert keys == first + [last] && last in keys;
      UnforgeableRenders(segs, data, first);
      if data[last] == Placeholder(last) {
        StaysExactlyWhen(Text(FillAll(segs, data, first)), Placeholder(last), data[last]);
        FillingItselfKeepsText(segs, data, first, last);
      } else {
        ReplaceFillsMore(segs, data, first, last);
      }
    }
  }

  // ---- What can be forged is ----

  /** The template uses only values of other keys than k. */
  ghost predicate Without(segs: seq<Segment>, data: map<string, string>, k: string)
  {
    forall i :: 0 <= i < |segs| ==> BraceFree(Inner(segs[i])) && (segs[i].Hole? ==> segs[i].key in data && segs[i].key != k)
  }

  lemma SubstitutedCons(seg: Segment, segs: seq<Segment>, data: map<string, string>)
    ensures Text(Substituted([seg] + segs, data))
         == (if seg.Hole? && seg.key in data then data[seg.key] else SegmentText(seg)) + Text(Substituted(segs, data))
  {
    assert ([seg] + segs)[1..] == segs;
    assert Substituted([seg] + segs, data)[1..] == Substituted(segs, data);
  }

  lemma WithoutCons(seg: Segment, segs: seq<Segment>, data: map<string, string>, k: string)
    requires Without(segs, data, k) && BraceFree(Inner(seg)) && (seg.Hole? ==> seg.key in data && seg.key != k)
    ensures Without([seg] + segs, data, k)
  {}

  /** One more literal or value in front. */
  lemma InFront(seg: Segment, segs: seq<Segment>, data: map<string, string>, k: string, t: string, rest: string)
    requires Without(segs, data, k) && rest <= Text(Substituted(segs, data))
    requires BraceFree(Inner(seg)) && (seg.Hole? ==> seg.key in data && seg.key != k)
    requires t == if seg.Hole? then data[seg.key] else seg.text
    ensures Without([seg] + segs, data, k)
    ensures t + rest <= Text(Substituted([seg] + segs, data)) == t + Text(Substituted(segs, data))
  {
    WithoutCons(seg, segs, data, k);
    SubstitutedCons(seg, segs, data);
  }

  lemma ValueAlone(data: map<string, string>, k: string, j: string)
    requires BraceFreeKeys(data) && j in data && j != k
    ensures Without([Hole(j)], data, k) && Text(Substituted([Hole(j)], data)) == data[j]
  {
    SubstitutedCons(Hole(j), [], data);
    assert [Hole(j)] + [] == [Hole(j)] && data[j] + "" == data[j];
  }

  lemma {:induction false} SpellingTemplate(data: map<string, string>, k: string, rest: string) returns (segs: seq<Segment>)
    requires BraceFreeKeys(data) && Spells(data, k, rest)
    ensures Without(segs, data, k) && rest <= Text(Substituted(segs, data))
    decreases |rest|
  {
    if rest == "" {
      segs := [];
    } else if StartsWithRest(data, k, rest) {
      var j :| j in data && j != k && rest <= data[j];
      segs := [Hole(j)];
      ValueAlone(data, k, j);
    } else if BraceFree(rest[..1]) && Spells(data, k, rest[1..]) {
      var more := SpellingTemplate(data, k, rest[1..]);
      segs := [Literal(rest[..1])] + more;
      InFront(Literal(rest[..1]), more, data, k, rest[..1], rest[1..]);
      assert rest == rest[..1] + rest[1..];
    } else {
      var j :| j in data && j != k && data[j] != "" && data[j] <= rest && Spells(data, k, rest[|data[j]|..]);
      var more := SpellingTemplate(data, k, rest[|data[j]|..]);
      segs := [Hole(j)] + more;
      InFront(Hole(j), more, data, k, data[j], rest[|data[j]|..]);
      assert rest == data[j] + rest[|data[j]|..];
    }
  }

  lemma ForgingTemplate(data: map<string, string>, k: string) returns (segs: seq<Segment>)
    requires BraceFreeKeys(data) && Forgeable(data, k)
    ensures Without(segs, data, k) && Index(Text(Substituted(segs, data)), Placeholder(k)) >= 0
  {
    var what := Placeholder(k);
    if j :| j in data && j != k && Index(data[j], what) >= 0 {
      segs := [Hole(j)];
      ValueAlone(data, k, j);
    } else {
      var j, i :| j in data && 0 < i <= |what| && j != k && EndsWith(data[j], what[..i]) && Spells(data, k, what[i..]);
      var more := SpellingTemplate(data, k, what[i..]);
      segs := [Hole(j)] + more;
      InFront(Hole(j), more, data, k, data[j], what[i..]);
      EndThenStart(data[j], Text(Substituted(more, data)), what, i);
    }
  }

  lemma EndThenStart(s: string, t: string, what: string, i: nat)
    requires i <= |what| && EndsWith(s, what[..i]) && what[i..] <= t
    ensures Index(s + t, what) >= 0
  {
    var p := |s| - i;
    assert what == what[..i] + what[i..];
    assert (s + t)[p..p + |what|] == s[p..] + t[..|what| - i];
    IndexIsFirst(s + t, what, p);
  }

  /** Processing a key that finds nothing in the body first makes no difference. */
  lemma {:induction false} IdleFirst(body: string, data: map<string, string>, k: string, others: seq<string>)
    requires k in data && (forall j :: j in others ==> j in data) && ReplaceAll(body, Placeholder(k), data[k]) == body
    ensures (forall j :: j in [k] + others ==> j in data)
    ensures Replaced(body, data, [k] + others) == Replaced(body, data, others)
    decreases |others|
  {
    if others == [] {
      assert [k] + others == [k] && [k][..0] == [];
    } else {
      var n := |others| - 1;
      IdleFirst(body, data, k, others[..n]);
      assert ([k] + others)[..n + 1] == [k] + others[..n];
    }
  }

  lemma UnfilledWithout(segs: seq<Segment>, data: map<string, string>, k: string)
    requires k in data && BraceFree(k) && Without(segs, data, k)
    ensures WellFormed(segs) && ReplaceAll(Text(segs), Placeholder(k), data[k]) == Text(segs)
  {
    assert FillAll(segs, data, [k]) == segs;
    ReplaceFillsHoles(segs, data, k);
  }

  /** A text that changes when k comes last cannot be what the template gives for k first and for k last. */
  lemma TwoOrdersDiffer(body: string, data: map<string, string>, k: string, others: seq<string>, right: string)
    requires k in data && (forall j :: j in others ==> j in data) && ReplaceAll(body, Placeholder(k), data[k]) == body
    requires ReplaceAll(right, Placeholder(k), data[k]) != right
    ensures (forall j :: j in [k] + others ==> j in data) && (forall j :: j in others + [k] ==> j in data)
    ensures Replaced(body, data, [k] + others) != right || Replaced(body, data, others + [k]) != right
  {
    IdleFirst(body, data, k, others);
    ReplacedSnoc(body, data, others, k);
  }

  /** A template that forges the placeholder of k is not rendered as substituted for k first and for k last. */
  lemma ForgedBreaksRendering(data: map<string, string>, k: string)
    requires BraceFreeKeys(data) && k in data && data[k] != Placeholder(k) && Forgeable(data, k)
    ensures !RendersAll(data)
  {
    var segs := ForgingTemplate(data, k);
    var right := Text(Substituted(segs, data));
    var others := SomeOrder(data.Keys - {k});
    UnfilledWithout(segs, data, k);
    StaysExactlyWhen(right, Placeholder(k), data[k]);
    FirstAndLast(data, k, others);
    TwoOrdersDiffer(Text(segs), data, k, others, right);
  }

  lemma FirstAndLast(data: map<string, string>, k: string, others: seq<string>)
    requires k in data && forall j :: j in others <==> j in data.Keys - {k}
    requires forall i, j :: 0 <= i < j < |others| ==> others[i] != others[j]
    ensures RangesOver([k] + others, data) && RangesOver(others + [k], data)
  {
    assert forall i :: 0 <= i < |others| ==> others[i] in others;
    assert forall j :: j in [k] + others <==> j == k || j in others;
    assert forall j :: j in others + [k] <==> j == k || j in others;
  }

  /**
   The loop is simultaneous substitution for every template and every order of the map if and only if no
   key's placeholder, but one that stands for itself, can be put together from values of other keys and
   literals.
   */
  lemma RendersAllExactlyWhenUnforgeable(data: map<string, string>)
    requires BraceFreeKeys(data)
    ensures RendersAll(data) <==> Unforgeable(data)
  {
    if Unforgeable(data) {
      forall segs, order | WellFormed(segs) && RangesOver(order, data)
        ensures Replaced(Text(segs), data, order) == Text(Substituted(segs, data))
      {
        UnforgeableRenders(segs, data, order);
        FillAllIsSubstituted(segs, data, order);
      }
    } else {
      var k :| k in data && data[k] != Placeholder(k) && Forgeable(data, k);
      ForgedBreaksRendering(data, k);
    }
  }

  lemma PlaceholderHasBrace(s: string, k: string)
    requires Index(s, Placeholder(k)) >= 0
    ensures !BraceFree(s)
  {
    var p := Index(s, Placeholder(k));
    assert s[p] == s[p..p + |Placeholder(k)|][0] == '{';
  }

  lemma EndHasBrace(s: string, k: string, i: nat)
    requires 0 < i <= |Placeholder(k)| && EndsWith(s, Placeholder(k)[..i])
    ensures !BraceFree(s)
  {
    assert s[|s| - i] == s[|s| - i..][0] == Placeholder(k)[..i][0] == '{';
  }

  lemma BraceFreeForgesNothing(data: map<string, string>, k: string)
    requires Forgeable(data, k)
    ensures exists j :: j in data && !BraceFree(data[j])
  {
    if j :| j in data && j != k && Index(data[j], Placeholder(k)) >= 0 {
      PlaceholderHasBrace(data[j], k);
    } else {
      var j, i :| j in data.Keys && 0 < i <= |Placeholder(k)| && j != k
        && EndsWith(data[j], Placeholder(k)[..i]) && Spells(data, k, Placeholder(k)[i..]);
      EndHasBrace(data[j], k, i);
    }
  }

  lemma BraceFreeIsUnforgeable(data: map<string, string>)
    requires BraceFreeData(data)
    ensures Unforgeable(data)
  {
    forall k | k in data ensures !Forgeable(data, k) {
      if Forgeable(data, k) {
        BraceFreeForgesNothing(data, k);
      }
    }
  }

  /**
   So for brace-free literals, keys and values the loop is simultaneous substitution, whatever the order
   in which the map is ranged over.
   */
  lemma RenderingIsSubstitution(segs: seq<Segment>, data: map<string, string>, order: seq<string>)
    requires WellFormed(segs) && BraceFreeData(data) && RangesOver(order, data)
    ensures Replaced(Text(segs), data, order) == Text(Substituted(segs, data))
  {
    BraceFreeIsUnforgeable(data);
    UnforgeableRenders(segs, data, order);
    FillAllIsSubstituted(segs, data, order);
  }

  // ---- What is left to fill ----

  function Holes(segs: seq<Segment>): seq<string>
  {
    if segs == [] then [] else (if segs[0].Hole? then [segs[0].key] else []) + Holes(segs[1..])
  }

  function Missing(keys: seq<string>, data: map<string, string>): seq<string>
  {
    if keys == [] then [] else (if keys[0] in data then [] else [keys[0]]) + Missing(keys[1..], data)
  }

  function AddNew(found: seq<string>, keys: seq<string>): seq<string>
    decreases |keys|
  {
    if keys == [] then found else AddNew(Add(found, keys[0]), keys[1..])
  }

  /** The distinct keys in the order of their first occurrence. */
  function FirstOccurrences(keys: seq<string>): seq<string>
  {
    if keys == [] then []
    else
      var n := |keys| - 1;
      FirstOccurrences(keys[..n]) + if keys[n] in keys[..n] then [] else [keys[n]]
  }

  lemma {:induction false} FirstOccurrencesSame(keys: seq<string>)
    ensures forall k :: k in FirstOccurrences(keys) <==> k in keys
  {
    if keys != [] {
      FirstOccurrencesSame(keys[..|keys| - 1]);
      assert keys == keys[..|keys| - 1] + [keys[|keys| - 1]];
    }
  }

  lemma {:induction false} AddNewIsFirstOccurrences(before: seq<string>, keys: seq<string>)
    ensures AddNew(FirstOccurrences(before), keys) == FirstOccurrences(before + keys)
    decreases |keys|
  {
    if keys == [] {
      assert before + keys == before;
    } else {
      var k := keys[0];
      assert (before + [k])[..|before|] == before;
      FirstOccurrencesSame(before);
      assert FirstOccurrences(before + [k]) == Add(FirstOccurrences(before), k);
      assert (before + [k]) + keys[1..] == before + keys;
      AddNewIsFirstOccurrences(before + [k], keys[1..]);
    }
  }

  lemma DropShift(t: string, s: string, i: nat)
    requires i <= |s|
    ensures (t + s)[|t| + i..] == s[i..]
  {}

  lemma AtShift(t: string, s: string, sub: string, i: nat)
    ensures At(t + s, sub, |t| + i) <==> At(s, sub, i)
  {
    if i + |sub| <= |s| {
      assert (t + s)[|t| + i..|t| + i + |sub|] == s[i..i + |sub|];
    }
  }

  /** A pair of opening braces lies behind a brace-free start. */
  lemma PairBehind(t: string, s: string, i: nat)
    requires BraceFree(t) && At(t + s, "{{", i)
    ensures i >= |t| && At(s, "{{", i - |t|)
  {
    FirstOfSkips(t, s, '{');
    PairNotBefore(t + s, '{', i);
    AtShift(t, s, "{{", i - |t|);
  }

  lemma ShiftAtMost(t: string, s: string)
    requires Index(s, "{{") >= 0
    ensures 0 <= Index(t + s, "{{") <= |t| + Index(s, "{{")
  {
    AtShift(t, s, "{{", Index(s, "{{"));
    IndexIsFirst(t + s, "{{", |t| + Index(s, "{{"));
  }

  lemma ShiftAtLeast(t: string, s: string)
    requires BraceFree(t) && Index(t + s, "{{") >= 0
    ensures 0 <= Index(s, "{{") <= Index(t + s, "{{") - |t|
  {
    PairBehind(t, s, Index(t + s, "{{"));
    IndexIsFirst(s, "{{", Index(t + s, "{{") - |t|);
  }

  lemma IndexShift(t: string, s: string)
    requires BraceFree(t)
    ensures Index(t + s, "{{") == if Index(s, "{{") < 0 then -1 else |t| + Index(s, "{{")
  {
    if Index(s, "{{") >= 0 {
      ShiftAtMost(t, s);
    }
    if Index(t + s, "{{") >= 0 {
      ShiftAtLeast(t, s);
    }
  }

  lemma LiteralHasNoKey(t: string, s: string)
    requires BraceFree(t)
    ensures NextKey(t + s) == NextKey(s)
  {
    IndexShift(t, s);
    var i := Index(s, "{{");
    if i >= 0 {
      DropShift(t, s, i);
    }
  }

  lemma HoleHasKey(key: string, s: string)
    requires BraceFree(key)
    ensures NextKey(Placeholder(key) + s) == Some((key, s))
  {
    var text := Placeholder(key) + s;
    PlaceholderShape(key, s);
    IndexIsFirst(text, "{{", 0);
    assert text[0..] == text;
    IndexIsFirst(text, "}}", 2 + |key|);
    PairNotBefore(text, '}', Index(text, "}}"));
  }

  lemma {:induction false} ScanFindsHoles(segs: seq<Segment>, found: seq<string>)
    requires WellFormed(segs)
    ensures Scan(Text(segs), found) == AddNew(found, Holes(segs))
  {
    if segs != [] {
      var rest := segs[1..];
      assert BraceFree(Inner(segs[0]));
      match segs[0]
      case Literal(t) =>
        LiteralHasNoKey(t, Text(rest));
        ScanFindsHoles(rest, found);
        assert Holes(segs) == Holes(rest);
      case Hole(key) =>
        HoleHasKey(key, Text(rest));
        ScanFindsHoles(rest, Add(found, key));
        assert Holes(segs)[0] == key && Holes(segs)[1..] == Holes(rest);
    }
  }

  lemma {:induction false} HolesLeft(segs: seq<Segment>, data: map<string, string>)
    ensures Holes(Substituted(segs, data)) == Missing(Holes(segs), data)
  {
    if segs != [] {
      assert Substituted(segs, data)[1..] == Substituted(segs[1..], data);
      HolesLeft(segs[1..], data);
      if segs[0].Hole? {
        assert Holes(segs)[1..] == Holes(segs[1..]);
      } else {
        assert Holes(segs) == Holes(segs[1..]);
      }
    }
  }

  /** ExtractPlaceholders of a rendered template lists exactly the keys missing from the data, each once, in order. */
  lemma ExtractAfterRenderFindsTheMissing(segs: seq<Segment>, data: map<string, string>, order: seq<string>)
    requires WellFormed(segs) && BraceFreeData(data) && RangesOver(order, data)
    ensures Scan(Replaced(Text(segs), data, order), []) == FirstOccurrences(Missing(Holes(segs), data))
  {
    RenderingIsSubstitution(segs, data, order);
    FillAllWellFormed(segs, data, order);
    FillAllIsSubstituted(segs, data, order);
    var filled := Substituted(segs, data);
    ScanFindsHoles(filled, []);
    HolesLeft(segs, data);
    AddNewIsFirstOccurrences([], Holes(filled));
    assert [] + Holes(filled) == Holes(filled);
  }
}
