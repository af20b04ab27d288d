/**
 The sliding-window limiter of pkg/redis/ratelimit.go. Each key holds a sorted set of the seconds in
 which requests came, pruned at every request, and the key as a whole expires a window after the last.
 */
module RateLimiter {
  import opened Common

  /** An instant: whole seconds and the part of a second after them, in any fixed unit. */
  datatype Clock = Clock(sec: nat, part: nat)

  predicate NotAfter(a: Clock, b: Clock) { a.sec < b.sec || (a.sec == b.sec && a.part <= b.part) }

  datatype Entry = Entry(seconds: set<nat>, expires: Clock)

  /** The members still there at that time; an expired key has none. */
  function Live(e: Option<Entry>, now: Clock): set<nat>
  {
    if e.None? || NotAfter(e.value.expires, now) then {} else e.value.seconds
  }

  /** ZRemRangeByScore from 0 to the start of the window, both included. */
  function Prune(seconds: set<nat>, now: nat, window: nat): set<nat>
  {
    set s | s in seconds && s > now - window
  }

  function Lookup(entries: map<string, Entry>, key: string): Option<Entry>
  {
    if key in entries then Some(entries[key]) else None
  }

  function Seen(e: Option<Entry>, now: Clock, window: nat): set<nat> { Prune(Live(e, now), now.sec, window) }

  function Next(e: Option<Entry>, now: Clock, window: nat): Entry
  {
    Entry(Seen(e, now, window) + {now.sec}, Clock(now.sec + window, now.part))
  }

  /** The decision is taken before the request's own second is added. */
  predicate Allows(e: Option<Entry>, now: Clock, window: nat, limit: int) { |Seen(e, now, window)| < limit }

  class RateLimiter {
    var entries: map<string, Entry>

    constructor ()
      ensures entries == map[]
    {
      entries := map[];
    }

    method IsAllowed(key: string, limit: int, window: nat, now: Clock) returns (allowed: bool)
      modifies this
      ensures allowed <==> Allows(Lookup(old(entries), key), now, window, limit)
      ensures entries == old(entries)[key := Next(Lookup(old(entries), key), now, window)]
    {
      if key in entries && NotAfter(entries[key].expires, now) {
        entries := entries - {key};
      }
      var members: set<nat> := {};
      if key in entries {
        members := entries[key].seconds;
      }
      var windowStart := now.sec - window;
      members := set s | s in members && s > windowStart;
      var count := |members|;
      members := members + {now.sec};
      entries := entries[key := Entry(members, Clock(now.sec + window, now.part))];
      allowed := count < limit;
    }

    /** The key's history starts anew. */
    method Reset(key: string)
      modifies this
      ensures forall window: nat :: Lookup(entries, key) == After([], window)
      ensures entries == old(entries) - {key}
    {
      entries := entries - {key};
    }
  }

  // ---- A key over a history of requests ----

  ghost predicate Ordered(times: seq<Clock>)
  {
    forall i, j :: 0 <= i <= j < |times| ==> NotAfter(times[i], times[j])
  }

  function After(times: seq<Clock>, window: nat): Option<Entry>
  {
    if times == [] then None
    else
      var n := |times| - 1;
      Some(Next(After(times[..n], window), times[n], window))
  }

  /** Whether the i-th request of the history is admitted. */
  predicate Admitted(times: seq<Clock>, window: nat, limit: int, i: nat)
    requires i < |times|
  {
    Allows(After(times[..i], window), times[i], window, limit)
  }

  /** The distinct seconds of the requests that lie after that second. */
  function SecondsAfter(times: seq<Clock>, start: int): (r: set<nat>)
    ensures forall s :: s in r ==> s > start
  {
    if times == [] then {}
    else
      var n := |times| - 1;
      SecondsAfter(times[..n], start) + if times[n].sec > start then {times[n].sec} else {}
  }

  lemma {:induction false} InSecondsAfter(times: seq<Clock>, start: int, i: nat)
    requires i < |times| && times[i].sec > start
    ensures times[i].sec in SecondsAfter(times, start)
  {
    var n := |times| - 1;
    if i < n {
      InSecondsAfter(times[..n], start, i);
    }
  }

  lemma {:induction false} LaterStart(times: seq<Clock>, start: int, later: int)
    requires start <= later
    ensures SecondsAfter(times, later) == set s | s in SecondsAfter(times, start) && s > later
  {
    if times != [] {
      LaterStart(times[..|times| - 1], start, later);
    }
  }

  lemma {:induction false} NothingAfterLast(times: seq<Clock>, start: int)
    requires forall i :: 0 <= i < |times| ==> times[i].sec <= start
    ensures SecondsAfter(times, start) == {}
  {
    if times != [] {
      NothingAfterLast(times[..|times| - 1], start);
    }
  }

  lemma {:induction false} StoredSeconds(times: seq<Clock>, window: nat)
    requires times != [] && Ordered(times) && window > 0
    ensures After(times, window).value.seconds == SecondsAfter(times, times[|times| - 1].sec - window)
    ensures After(times, window).value.expires == Clock(times[|times| - 1].sec + window, times[|times| - 1].part)
    decreases |times|, 0
  {
    var n := |times| - 1;
    SeenIsTheWindow(times[..n], times[n], window);
  }

  /**
   What a request counts: the distinct seconds of the earlier requests in the window that ends with its
   own second. The expiry of the key never shows, because by then all its members are out of the window.
   */
  lemma {:induction false} SeenIsTheWindow(times: seq<Clock>, now: Clock, window: nat)
    requires Ordered(times) && window > 0 && forall i :: 0 <= i < |times| ==> NotAfter(times[i], now)
    ensures Seen(After(times, window), now, window) == SecondsAfter(times, now.sec - window)
    decreases |times|, 1
  {
    if times != [] {
      StoredSeconds(times, window);
      var last := times[|times| - 1];
      if NotAfter(Clock(last.sec + window, last.part), now) {
        assert forall i :: 0 <= i < |times| ==> NotAfter(times[i], last);
        NothingAfterLast(times, now.sec - window);
      } else {
        LaterStart(times, last.sec - window, now.sec - window);
      }
    }
  }

  lemma Subset<T>(a: set<T>, b: set<T>)
    requires a <= b
    ensures |a| <= |b|
  {
    assert b == a + (b - a);
  }

  /** Some request of that second is admitted. */
  ghost predicate HasAdmitted(times: seq<Clock>, window: nat, limit: int, sec: nat)
  {
    exists i :: 0 <= i < |times| && times[i].sec == sec && Admitted(times, window, limit, i)
  }

  lemma EarlierSecond(times: seq<Clock>, i: nat)
    requires Ordered(times) && i < |times|
    ensures forall j :: 0 <= j < |times| && times[j].sec < times[i].sec ==> j < i
  {
    assert forall j :: i <= j < |times| ==> NotAfter(times[i], times[j]);
  }

  /** An admitted request has counted every other second of the set, when its own is the last. */
  lemma LastCountsTheOthers(times: seq<Clock>, window: nat, limit: int, seconds: set<nat>, i: nat)
    requires Ordered(times) && window > 0 && i < |times| && Admitted(times, window, limit, i)
    requires forall s :: s in seconds ==> times[i].sec - window < s < times[i].sec
    requires forall s :: s in seconds ==> exists j :: 0 <= j < |times| && times[j].sec == s
    ensures |seconds| < limit
  {
    var now := times[i];
    SeenIsTheWindow(times[..i], now, window);
    EarlierSecond(times, i);
    forall s | s in seconds ensures s in SecondsAfter(times[..i], now.sec - window) {
      var j :| 0 <= j < |times| && times[j].sec == s;
      InSecondsAfter(times[..i], now.sec - window, j);
    }
    Subset(seconds, SecondsAfter(times[..i], now.sec - window));
  }

  /** In any window of consecutive seconds up to t, at most limit distinct seconds have an admitted request. */
  lemma AtMostLimitSeconds(times: seq<Clock>, window: nat, limit: nat, t: int, admitted: set<nat>)
    requires Ordered(times) && window > 0
    requires forall s :: s in admitted ==> t - window < s <= t && HasAdmitted(times, window, limit, s)
    ensures |admitted| <= limit
  {
    if admitted != {} {
      var m := Largest(admitted);
      var i :| 0 <= i < |times| && times[i].sec == m && Admitted(times, window, limit, i);
      LastCountsTheOthers(times, window, limit, admitted - {m}, i);
    }
  }

  lemma {:induction false} Largest(s: set<nat>) returns (m: nat)
    requires s != {}
    ensures m in s && forall x :: x in s ==> x <= m
    decreases |s|
  {
    m :| m in s;
    if s != {m} {
      assert exists x :: x in s && x != m;
      var k := Largest(s - {m});
      assert forall x :: x in s && x != m ==> x in s - {m};
      m := if k > m then k else m;
    }
  }

  /** The bound is on seconds, not requests: with a limit above one, all requests of a first second are admitted. */
  lemma BurstIsAdmitted(times: seq<Clock>, window: nat, limit: int, i: nat)
    requires Ordered(times) && window > 0 && limit > 1 && i < |times|
    requires forall k :: 0 <= k <= i ==> times[k].sec == times[i].sec
    ensures Admitted(times, window, limit, i)
  {
    SeenIsTheWindow(times[..i], times[i], window);
    OneSecond(times[..i], times[i].sec, times[i].sec - window);
    Subset(SecondsAfter(times[..i], times[i].sec - window), {times[i].sec});
  }

  lemma {:induction false} OneSecond(times: seq<Clock>, sec: nat, start: int)
    requires forall k :: 0 <= k < |times| ==> times[k].sec == sec
    ensures SecondsAfter(times, start) <= {sec}
  {
    if times != [] {
      OneSecond(times[..|times| - 1], sec, start);
    }
  }

  // ---- Requests, not seconds ----

  /** The admitted requests of the window of seconds up to t. */
  function AdmittedIn(times: seq<Clock>, window: nat, limit: int, t: int): set<nat>
  {
    set i | 0 <= i < |times| && t - window < times[i].sec <= t && Admitted(times, window, limit, i)
  }

  /** In no history does a window have more admitted requests than the limit. */
  ghost predicate BoundsRequests(window: nat, limit: int)
  {
    forall times, t :: Ordered(times) ==> |AdmittedIn(times, window, limit, t)| <= Max(limit, 0)
  }

  /** With a limit of one, a request is refused while the last admitted one is in the window. */
  lemma OneAtATime(times: seq<Clock>, window: nat, limit: int, t: int, i: nat, j: nat)
    requires Ordered(times) && window > 0 && limit <= 1 && i < j < |times|
    requires i in AdmittedIn(times, window, limit, t) && t - window < times[j].sec <= t
    ensures !Admitted(times, window, limit, j)
  {
    SeenIsTheWindow(times[..j], times[j], window);
    InSecondsAfter(times[..j], times[j].sec - window, i);
    Subset({times[i].sec}, SecondsAfter(times[..j], times[j].sec - window));
  }

  lemma SmallLimitBounds(times: seq<Clock>, window: nat, limit: int, t: int)
    requires Ordered(times) && window > 0 && limit <= 1
    ensures |AdmittedIn(times, window, limit, t)| <= Max(limit, 0)
  {
    var admitted := AdmittedIn(times, window, limit, t);
    if limit == 1 {
      forall i, j | i in admitted && j in admitted ensures i == j {
        if i < j {
          OneAtATime(times, window, limit, t, i, j);
        } else if j < i {
          OneAtATime(times, window, limit, t, j, i);
        }
      }
      AtMostOne(admitted);
    } else {
      assert admitted == {};
    }
  }

  lemma AtMostOne(s: set<nat>)
    requires forall i, j :: i in s && j in s ==> i == j
    ensures |s| <= 1
  {
    if s != {} {
      var i :| i in s;
      assert s == {i};
    }
  }

  function Burst(n: nat): seq<Clock> { seq(n, _ => Clock(0, 0)) }

  /** n requests at one instant are all admitted when the limit exceeds one. */
  lemma BurstBreaksTheBound(window: nat, limit: int, n: nat)
    requires window > 0 && limit > 1
    ensures Ordered(Burst(n)) && |AdmittedIn(Burst(n), window, limit, 0)| == n
  {
    var times := Burst(n);
    forall i | 0 <= i < n ensures Admitted(times, window, limit, i) {
      BurstIsAdmitted(times, window, limit, i);
    }
    assert AdmittedIn(times, window, limit, 0) == Below(n);
  }

  /** The limiter bounds the number of admitted requests of every window by its limit if and only if the limit is at most one. */
  lemma BoundsRequestsExactlyUpToOne(window: nat, limit: int)
    requires window > 0
    ensures BoundsRequests(window, limit) <==> limit <= 1
  {
    if limit <= 1 {
      forall times, t | Ordered(times) ensures |AdmittedIn(times, window, limit, t)| <= Max(limit, 0) {
        SmallLimitBounds(times, window, limit, t);
      }
    } else {
      BurstBreaksTheBound(window, limit, limit + 1);
      assert |AdmittedIn(Burst(limit + 1), window, limit, 0)| > Max(limit, 0);
    }
  }

  // ---- All keys ----

  lemma NotAfterIsATotalOrder(a: Clock, b: Clock, c: Clock)
    ensures NotAfter(a, b) || NotAfter(b, a)
    ensures NotAfter(a, b) && NotAfter(b, a) ==> a == b
    ensures NotAfter(a, b) && NotAfter(b, c) ==> NotAfter(a, c)
  {}

  /** A request for a key, with that key's window, or a reset. */
  datatype Call = Request(key: string, window: nat, now: Clock) | Resetting(key: string)

  function Apply(entries: map<string, Entry>, call: Call): map<string, Entry>
  {
    match call
    case Request(key, window, now) => entries[key := Next(Lookup(entries, key), now, window)]
    case Resetting(key) => entries - {key}
  }

  function ApplyAll(calls: seq<Call>): map<string, Entry>
  {
    if calls == [] then map[] else Apply(ApplyAll(calls[..|calls| - 1]), calls[|calls| - 1])
  }

  /** The times of the requests for the key since its last reset. */
  function History(calls: seq<Call>, key: string): seq<Clock>
  {
    if calls == [] then []
    else
      var earlier, last := History(calls[..|calls| - 1], key), calls[|calls| - 1];
      if last.key != key then earlier else if last.Resetting? then [] else earlier + [last.now]
  }

  /** After any calls for any keys, what is kept for a key is what its own requests since its last reset make of nothing. */
  lemma {:induction false} EachKeyHasItsHistory(calls: seq<Call>, key: string, window: nat)
    requires forall c <- calls :: c.Request? && c.key == key ==> c.window == window
    ensures Lookup(ApplyAll(calls), key) == After(History(calls, key), window)
  {
    if calls != [] {
      var n := |calls| - 1;
      EachKeyHasItsHistory(calls[..n], key, window);
      var earlier := History(calls[..n], key);
      assert calls[n] in calls;
      if calls[n].Request? && calls[n].key == key {
        assert (earlier + [calls[n].now])[..|earlier|] == earlier;
      }
    }
  }

  /** So the next request for a key is admitted exactly as the next of that history. */
  lemma EachKeyIsLimited(calls: seq<Call>, key: string, window: nat, limit: int, now: Clock)
    requires forall c <- calls :: c.Request? && c.key == key ==> c.window == window
    ensures Allows(Lookup(ApplyAll(calls), key), now, window, limit)
       <==> Admitted(History(calls, key) + [now], window, limit, |History(calls, key)|)
  {
    EachKeyHasItsHistory(calls, key, window);
    assert (History(calls, key) + [now])[..|History(calls, key)|] == History(calls, key);
  }
}
