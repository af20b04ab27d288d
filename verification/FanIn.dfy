/**
 ListenManyArgsContext of pkg/mikrotik/client/client.go: one goroutine for each command forwards the
 sentences of its reply stream into one bounded channel, a closer goroutine closes that channel, and
 a context can be cancelled at any moment. Goroutines are interleaved step by step; where a select
 has several ready branches each of them is a step of its own.
 */
module FanIn {
  import opened Common

  type Sentence = nat
  type ErrorCode = nat

  /** What the router does with a command: it refuses to start it, or streams items and ends, perhaps with an error. */
  datatype Source = StartFails(error: ErrorCode) | Stream(items: seq<Sentence>, last: Option<ErrorCode>)

  datatype Event = Item(index: nat, sentence: Sentence) | Failure(index: nat, error: ErrorCode)

  datatype Producer =
    | Starting
    | SendingFailure(error: ErrorCode)
    | Listening(pos: nat)
    | Sending(pos: nat)
    | Done

  datatype Closer = Waiting | Closing | Finished

  /** A reply channel holds the sentences that have arrived and, once closed, its final error. */
  datatype Reply = Reply(arrived: nat, ended: Option<Option<ErrorCode>>)

  datatype State = State(
    producers: seq<Producer>,
    replies: seq<Reply>,
    cancelled: bool,
    out: seq<Event>,
    consumed: seq<Event>,
    closer: Closer,
    closes: nat)

  datatype Action =
    | Start(i: nat)
    | StartCancelled(i: nat, error: ErrorCode)
    | Arrive(i: nat)
    | End(i: nat)
    | EndCancelled(i: nat, last: Option<ErrorCode>)
    | Take(i: nat)
    | SeeEnd(i: nat)
    | SendItem(i: nat)
    | SendFailure(i: nat)
    | GiveUp(i: nat)
    | Cancel
    | Receive
    | AllDone
    | Close

  ghost predicate WellFormed(sources: seq<Source>, s: State)
  {
    && |s.producers| == |s.replies| == |sources|
    && forall i :: 0 <= i < |sources| ==> ProducerOk(sources[i], s.producers[i], s.replies[i])
  }

  ghost predicate ProducerOk(src: Source, p: Producer, reply: Reply)
  {
    match src
    case StartFails(_) => p.Starting? || p.SendingFailure? || p.Done?
    case Stream(items, _) =>
      && reply.arrived <= |items|
      && (p.Listening? ==> p.pos <= reply.arrived)
      && (p.Sending? ==> p.pos < reply.arrived)
  }

  ghost predicate Enabled(sources: seq<Source>, capacity: nat, s: State, a: Action)
    requires WellFormed(sources, s)
  {
    match a
    case Start(i) => i < |sources| && s.producers[i].Starting?
    case StartCancelled(i, _) => i < |sources| && s.producers[i].Starting? && s.cancelled
    case Arrive(i) =>
      i < |sources| && sources[i].Stream? && s.replies[i].ended.None? && s.replies[i].arrived < |sources[i].items|
    case End(i) =>
      i < |sources| && sources[i].Stream? && s.replies[i].ended.None? && s.replies[i].arrived == |sources[i].items|
    case EndCancelled(i, _) => i < |sources| && sources[i].Stream? && s.replies[i].ended.None? && s.cancelled
    case Take(i) => i < |sources| && s.producers[i].Listening? && s.producers[i].pos < s.replies[i].arrived
    case SeeEnd(i) =>
      i < |sources| && s.producers[i].Listening? && s.producers[i].pos == s.replies[i].arrived && s.replies[i].ended.Some?
    case SendItem(i) => i < |sources| && s.producers[i].Sending? && |s.out| < capacity
    case SendFailure(i) => i < |sources| && s.producers[i].SendingFailure? && |s.out| < capacity
    case GiveUp(i) => i < |sources| && s.cancelled && !s.producers[i].Starting? && !s.producers[i].Done?
    case Cancel => !s.cancelled
    case Receive => s.out != []
    case AllDone => s.closer.Waiting? && forall p :: p in s.producers ==> p.Done?
    case Close => s.closer.Closing?
  }

  ghost function Next(sources: seq<Source>, capacity: nat, s: State, a: Action): State
    requires WellFormed(sources, s) && Enabled(sources, capacity, s, a)
  {
    match a
    case Start(i) =>
      s.(producers := s.producers[i := match sources[i]
                                       case StartFails(e) => SendingFailure(e)
                                       case Stream(_, _) => Listening(0)])
    case StartCancelled(i, e) => s.(producers := s.producers[i := SendingFailure(e)])
    case Arrive(i) => s.(replies := s.replies[i := s.replies[i].(arrived := s.replies[i].arrived + 1)])
    case End(i) => s.(replies := s.replies[i := s.replies[i].(ended := Some(sources[i].last))])
    case EndCancelled(i, e) => s.(replies := s.replies[i := s.replies[i].(ended := Some(e))])
    case Take(i) => s.(producers := s.producers[i := Sending(s.producers[i].pos)])
    case SeeEnd(i) =>
      s.(producers := s.producers[i := match s.replies[i].ended.value
                                       case Some(e) => SendingFailure(e)
                                       case None => Done])
    case SendItem(i) =>
      var pos := s.producers[i].pos;
      s.(producers := s.producers[i := Listening(pos + 1)], out := s.out + [Item(i, sources[i].items[pos])])
    case SendFailure(i) =>
      s.(producers := s.producers[i := Done], out := s.out + [Failure(i, s.producers[i].error)])
    case GiveUp(i) => s.(producers := s.producers[i := Done])
    case Cancel => s.(cancelled := true)
    case Receive => s.(consumed := s.consumed + [s.out[0]], out := s.out[1..])
    case AllDone => s.(closer := Closing)
    case Close => s.(closer := Finished, closes := s.closes + 1)
  }

  ghost function Initial(n: nat): State
  {
    State(seq(n, i => Starting), seq(n, i => Reply(0, None)), false, [], [], Waiting, 0)
  }

  // ---- What the caller may see of one command ----

  /** The events of one command, in the order they came out of the merged channel. */
  function Of(events: seq<Event>, i: nat): seq<Event>
  {
    if events == [] then []
    else Of(events[..|events| - 1], i) + if events[|events| - 1].index == i then [events[|events| - 1]] else []
  }

  function Items(i: nat, sentences: seq<Sentence>): (r: seq<Event>)
    ensures |r| == |sentences| && forall k :: 0 <= k < |r| ==> r[k] == Item(i, sentences[k])
  {
    seq(|sentences|, k requires 0 <= k < |sentences| => Item(i, sentences[k]))
  }

  /** Everything that command i can produce. */
  function Whole(i: nat, src: Source): seq<Event>
  {
    match src
    case StartFails(e) => [Failure(i, e)]
    case Stream(items, last) => Items(i, items) + if last.Some? then [Failure(i, last.value)] else []
  }

  function AllItems(src: Source): seq<Sentence>
  {
    if src.Stream? then src.items else []
  }

  /** An in-order prefix of the command's stream, then at most one error event. */
  ghost predicate PrefixThenError(i: nat, src: Source, events: seq<Event>)
  {
    exists k :: 0 <= k <= |AllItems(src)| &&
      (events == Items(i, AllItems(src)[..k]) || exists e :: events == Items(i, AllItems(src)[..k]) + [Failure(i, e)])
  }

  // ---- The invariant ----

  /** How far each goroutine has got and what it has put into the channel so far. */
  ghost predicate Forwarded(i: nat, src: Source, p: Producer, cancelled: bool, events: seq<Event>)
  {
    match p
    case Starting => events == []
    case Listening(pos) => src.Stream? && pos <= |src.items| && events == Items(i, src.items[..pos])
    case Sending(pos) => src.Stream? && pos < |src.items| && events == Items(i, src.items[..pos])
    case SendingFailure(e) =>
      && (exists k :: 0 <= k <= |AllItems(src)| && events == Items(i, AllItems(src)[..k]))
      && (!cancelled ==> events + [Failure(i, e)] == Whole(i, src))
    case Done => PrefixThenError(i, src, events) && (!cancelled ==> events == Whole(i, src))
  }

  ghost predicate EndedHonestly(src: Source, reply: Reply, cancelled: bool)
  {
    src.Stream? && reply.ended.Some? && !cancelled ==>
      reply.arrived == |src.items| && reply.ended.value == src.last
  }

  /** The part of the invariant that is about one command. */
  ghost predicate Upheld(sources: seq<Source>, s: State, i: nat)
    requires |sources| == |s.producers| == |s.replies| && i < |sources|
  {
    && ProducerOk(sources[i], s.producers[i], s.replies[i])
    && EndedHonestly(sources[i], s.replies[i], s.cancelled)
    && Forwarded(i, sources[i], s.producers[i], s.cancelled, Of(s.consumed + s.out, i))
  }

  /** The channel is closed once, and only after all producers are done. */
  ghost predicate ClosedAfterAll(s: State)
  {
    && (!s.closer.Waiting? ==> forall i :: 0 <= i < |s.producers| ==> s.producers[i].Done?)
    && s.closes == (if s.closer.Finished? then 1 else 0)
  }

  ghost predicate Inv(sources: seq<Source>, s: State)
  {
    && WellFormed(sources, s) && ClosedAfterAll(s)
    && forall i :: 0 <= i < |sources| ==> Upheld(sources, s, i)
  }

  lemma OfSnoc(events: seq<Event>, e: Event, i: nat)
    ensures Of(events + [e], i) == Of(events, i) + if e.index == i then [e] else []
  {
    assert (events + [e])[..|events|] == events;
  }

  lemma InitialInv(sources: seq<Source>)
    ensures Inv(sources, Initial(|sources|))
  {
    var s := Initial(|sources|);
    forall i | 0 <= i < |sources|
      ensures Of(s.consumed + s.out, i) == []
    {}
  }

  /** The step of the goroutine that acts keeps its own part of the invariant. */
  lemma ActorKept(sources: seq<Source>, capacity: nat, s: State, a: Action)
    requires Inv(sources, s) && Enabled(sources, capacity, s, a)
    requires a.Start? || a.StartCancelled? || a.Take? || a.SeeEnd? || a.GiveUp?
    ensures var s' := Next(sources, capacity, s, a);
            && ProducerOk(sources[a.i], s'.producers[a.i], s'.replies[a.i])
            && Forwarded(a.i, sources[a.i], s'.producers[a.i], s'.cancelled, Of(s.consumed + s.out, a.i))
  {
    var i := a.i;
    var src := sources[i];
    var events := Of(s.consumed + s.out, i);
    assert Upheld(sources, s, i);
    assert Forwarded(i, src, s.producers[i], s.cancelled, events);
    assert EndedHonestly(src, s.replies[i], s.cancelled);
    assert AllItems(src)[..0] == [] && Items(i, []) == [];
    if a.Start? || a.StartCancelled? {
      assert events == Items(i, AllItems(src)[..0]);
    } else if a.SeeEnd? {
      assert src.items == AllItems(src);
      assert s.producers[i].pos == |src.items| ==> src.items[..s.producers[i].pos] == src.items;
      if s.replies[i].ended.value.None? {
        assert PrefixThenError(i, src, events);
      }
    } else if a.GiveUp? {
      if s.producers[i].Listening? || s.producers[i].Sending? {
        assert events == Items(i, AllItems(src)[..s.producers[i].pos]);
      }
      assert PrefixThenError(i, src, events);
    }
  }

  /** A send puts one event of its own command at the end of the channel. */
  lemma SendAppends(sources: seq<Source>, capacity: nat, s: State, a: Action)
    requires WellFormed(sources, s) && Enabled(sources, capacity, s, a)
    requires a.SendItem? || a.SendFailure?
    ensures var s' := Next(sources, capacity, s, a);
            |s'.out| == |s.out| + 1 && s'.consumed + s'.out == s.consumed + s.out + [s'.out[|s.out|]]
            && s'.out[|s.out|].index == a.i
  {}

  lemma SendSeparates(events: seq<Event>, e: Event, n: nat)
    ensures forall j :: 0 <= j < n ==> Of(events + [e], j) == Of(events, j) + if e.index == j then [e] else []
  {
    forall j | 0 <= j < n ensures Of(events + [e], j) == Of(events, j) + if e.index == j then [e] else [] {
      OfSnoc(events, e, j);
    }
  }

  lemma SentItem(i: nat, src: Source, pos: nat, events: seq<Event>)
    requires src.Stream? && pos < |src.items| && events == Items(i, src.items[..pos])
    ensures events + [Item(i, src.items[pos])] == Items(i, src.items[..pos + 1])
  {}

  lemma SentFailure(i: nat, src: Source, e: ErrorCode, events: seq<Event>)
    requires exists k :: 0 <= k <= |AllItems(src)| && events == Items(i, AllItems(src)[..k])
    ensures PrefixThenError(i, src, events + [Failure(i, e)])
  {
    var k :| 0 <= k <= |AllItems(src)| && events == Items(i, AllItems(src)[..k]);
    assert events + [Failure(i, e)] == Items(i, AllItems(src)[..k]) + [Failure(i, e)];
  }

  lemma SenderKept(sources: seq<Source>, capacity: nat, s: State, a: Action)
    requires Inv(sources, s) && Enabled(sources, capacity, s, a)
    requires a.SendItem? || a.SendFailure?
    ensures var s' := Next(sources, capacity, s, a);
            && ProducerOk(sources[a.i], s'.producers[a.i], s'.replies[a.i])
            && Forwarded(a.i, sources[a.i], s'.producers[a.i], s'.cancelled, Of(s'.consumed + s'.out, a.i))
            && forall j :: 0 <= j < |sources| && j != a.i ==> Of(s'.consumed + s'.out, j) == Of(s.consumed + s.out, j)
  {
    var i := a.i;
    var src := sources[i];
    var events := Of(s.consumed + s.out, i);
    assert Upheld(sources, s, i);
    assert Forwarded(i, src, s.producers[i], s.cancelled, events);
    SendAppends(sources, capacity, s, a);
    SendSeparates(s.consumed + s.out, Next(sources, capacity, s, a).out[|s.out|], |sources|);
    if a.SendItem? {
      SentItem(i, src, s.producers[i].pos, events);
    } else {
      SentFailure(i, src, s.producers[i].error, events);
    }
  }

  /** A goroutine that takes, starts or gives up. */
  lemma LocalUpheld(sources: seq<Source>, capacity: nat, s: State, a: Action, i: nat)
    requires Inv(sources, s) && Enabled(sources, capacity, s, a) && i < |sources|
    requires a.Start? || a.StartCancelled? || a.Take? || a.SeeEnd? || a.GiveUp?
    ensures Upheld(sources, Next(sources, capacity, s, a), i)
  {
    assert Upheld(sources, s, i);
    if a.i == i {
      ActorKept(sources, capacity, s, a);
    }
  }

  lemma SendUpheld(sources: seq<Source>, capacity: nat, s: State, a: Action, i: nat)
    requires Inv(sources, s) && Enabled(sources, capacity, s, a) && i < |sources|
    requires a.SendItem? || a.SendFailure?
    ensures Upheld(sources, Next(sources, capacity, s, a), i)
  {
    assert Upheld(sources, s, i);
    SenderKept(sources, capacity, s, a);
  }

  /** The router's side of a stream. */
  lemma ArrivalUpheld(sources: seq<Source>, capacity: nat, s: State, a: Action, i: nat)
    requires Inv(sources, s) && Enabled(sources, capacity, s, a) && i < |sources|
    requires a.Arrive? || a.End? || a.EndCancelled?
    ensures Upheld(sources, Next(sources, capacity, s, a), i)
  {
    assert Upheld(sources, s, i);
  }

  lemma CancelUpheld(sources: seq<Source>, s: State, i: nat)
    requires |sources| == |s.producers| == |s.replies| && i < |sources| && Upheld(sources, s, i)
    ensures Upheld(sources, s.(cancelled := true), i)
  {}

  lemma SameEventsUpheld(sources: seq<Source>, s: State, s': State, i: nat)
    requires |sources| == |s.producers| == |s.replies| && i < |sources| && Upheld(sources, s, i)
    requires s'.producers == s.producers && s'.replies == s.replies && s'.cancelled == s.cancelled
    requires s'.consumed + s'.out == s.consumed + s.out
    ensures Upheld(sources, s', i)
  {}

  /** The caller's steps, and those of the goroutine that closes the channel. */
  lemma GlobalUpheld(sources: seq<Source>, capacity: nat, s: State, a: Action, i: nat)
    requires Inv(sources, s) && Enabled(sources, capacity, s, a) && i < |sources|
    requires a.Cancel? || a.Receive? || a.AllDone? || a.Close?
    ensures Upheld(sources, Next(sources, capacity, s, a), i)
  {
    assert Upheld(sources, s, i);
    if a.Cancel? {
      CancelUpheld(sources, s, i);
    } else {
      assert a.Receive? ==> s.consumed + [s.out[0]] + s.out[1..] == s.consumed + s.out;
      SameEventsUpheld(sources, s, Next(sources, capacity, s, a), i);
    }
  }

  lemma StepUpholds(sources: seq<Source>, capacity: nat, s: State, a: Action, i: nat)
    requires Inv(sources, s) && Enabled(sources, capacity, s, a) && i < |sources|
    ensures Upheld(sources, Next(sources, capacity, s, a), i)
  {
    if a.Start? || a.StartCancelled? || a.Take? || a.SeeEnd? || a.GiveUp? {
      LocalUpheld(sources, capacity, s, a, i);
    } else if a.SendItem? || a.SendFailure? {
      SendUpheld(sources, capacity, s, a, i);
    } else if a.Arrive? || a.End? || a.EndCancelled? {
      ArrivalUpheld(sources, capacity, s, a, i);
    } else {
      GlobalUpheld(sources, capacity, s, a, i);
    }
  }

  lemma ClosingKept(sources: seq<Source>, capacity: nat, s: State, a: Action)
    requires Inv(sources, s) && Enabled(sources, capacity, s, a)
    ensures ClosedAfterAll(Next(sources, capacity, s, a))
  {
    if a.AllDone? {
      forall i | 0 <= i < |s.producers| ensures s.producers[i].Done? {
        assert s.producers[i] in s.producers;
      }
    }
  }

  lemma LengthsKept(sources: seq<Source>, capacity: nat, s: State, a: Action)
    requires WellFormed(sources, s) && Enabled(sources, capacity, s, a)
    ensures |sources| == |Next(sources, capacity, s, a).producers| == |Next(sources, capacity, s, a).replies|
  {}

  lemma InvFromParts(sources: seq<Source>, s: State)
    requires |sources| == |s.producers| == |s.replies| && ClosedAfterAll(s)
    requires forall i :: 0 <= i < |sources| ==> Upheld(sources, s, i)
    ensures Inv(sources, s)
  {
    forall i | 0 <= i < |sources| ensures ProducerOk(sources[i], s.producers[i], s.replies[i]) {
      assert Upheld(sources, s, i);
    }
  }

  lemma StepKeepsInv(sources: seq<Source>, capacity: nat, s: State, a: Action)
    requires Inv(sources, s) && Enabled(sources, capacity, s, a)
    ensures Inv(sources, Next(sources, capacity, s, a))
  {
    var s' := Next(sources, capacity, s, a);
    LengthsKept(sources, capacity, s, a);
    ClosingKept(sources, capacity, s, a);
    forall i | 0 <= i < |sources| ensures Upheld(sources, s', i) {
      StepUpholds(sources, capacity, s, a, i);
    }
    InvFromParts(sources, s');
  }

  // ---- Safety over every schedule ----

  ghost predicate Can(sources: seq<Source>, capacity: nat, s: State, a: Action)
  {
    WellFormed(sources, s) && Enabled(sources, capacity, s, a)
  }

  ghost function Run(sources: seq<Source>, capacity: nat, s: State, schedule: seq<Action>): State
    decreases |schedule|
  {
    if schedule == [] then s
    else
      Run(sources, capacity,
          if Can(sources, capacity, s, schedule[0]) then Next(sources, capacity, s, schedule[0]) else s,
          schedule[1..])
  }

  lemma {:induction false} RunKeepsInv(sources: seq<Source>, capacity: nat, s: State, schedule: seq<Action>)
    requires Inv(sources, s)
    ensures Inv(sources, Run(sources, capacity, s, schedule))
    decreases |schedule|
  {
    if schedule != [] {
      if Can(sources, capacity, s, schedule[0]) {
        StepKeepsInv(sources, capacity, s, schedule[0]);
        RunKeepsInv(sources, capacity, Next(sources, capacity, s, schedule[0]), schedule[1..]);
      } else {
        RunKeepsInv(sources, capacity, s, schedule[1..]);
      }
    }
  }

  lemma {:induction false} OfIsPrefix(xs: seq<Event>, ys: seq<Event>, i: nat)
    ensures Of(xs, i) <= Of(xs + ys, i)
  {
    if ys == [] {
      assert xs + ys == xs;
    } else {
      OfIsPrefix(xs, ys[..|ys| - 1], i);
      assert xs + ys == (xs + ys[..|ys| - 1]) + [ys[|ys| - 1]];
      OfSnoc(xs + ys[..|ys| - 1], ys[|ys| - 1], i);
    }
  }

  lemma PrefixOfPrefixThenError(i: nat, src: Source, part: seq<Event>, events: seq<Event>)
    requires PrefixThenError(i, src, events) && part <= events
    ensures PrefixThenError(i, src, part)
  {
    var items := AllItems(src);
    var k :| 0 <= k <= |items| &&
      (events == Items(i, items[..k]) || exists e :: events == Items(i, items[..k]) + [Failure(i, e)]);
    if |part| <= k {
      assert part == Items(i, items[..|part|]);
    } else {
      assert part == events;
    }
  }

  lemma ForwardedIsPrefix(i: nat, src: Source, p: Producer, cancelled: bool, events: seq<Event>)
    requires Forwarded(i, src, p, cancelled, events)
    ensures PrefixThenError(i, src, events)
  {
    assert Items(i, AllItems(src)[..0]) == [];
    match p
    case Starting => assert events == Items(i, AllItems(src)[..0]);
    case Listening(pos) => assert events == Items(i, AllItems(src)[..pos]);
    case Sending(pos) => assert events == Items(i, AllItems(src)[..pos]);
    case SendingFailure(_) =>
    case Done =>
  }

  /**
   Under every schedule and cancellation point, what the caller has received of command i is an
   in-order prefix of stream i followed by at most one error, and the merged channel has been closed
   at most once, and then only after every producer had stopped.
   */
  lemma EveryScheduleForwardsInOrder(sources: seq<Source>, capacity: nat, schedule: seq<Action>, i: nat)
    requires i < |sources|
    ensures var s := Run(sources, capacity, Initial(|sources|), schedule);
            && PrefixThenError(i, sources[i], Of(s.consumed, i))
            && s.closes <= 1
            && (s.closes == 1 ==> |s.producers| == |sources| && forall j :: 0 <= j < |sources| ==> s.producers[j].Done?)
  {
    InitialInv(sources);
    RunKeepsInv(sources, capacity, Initial(|sources|), schedule);
    var s := Run(sources, capacity, Initial(|sources|), schedule);
    var events := Of(s.consumed + s.out, i);
    assert Upheld(sources, s, i);
    ForwardedIsPrefix(i, sources[i], s.producers[i], s.cancelled, events);
    OfIsPrefix(s.consumed, s.out, i);
    PrefixOfPrefixThenError(i, sources[i], Of(s.consumed, i), events);
  }

  /** The merged channel never holds more than it can, and loses nothing: what came out of it went in before. */
  lemma {:induction false} ChannelIsBounded(sources: seq<Source>, capacity: nat, s: State, schedule: seq<Action>)
    requires |s.out| <= capacity
    ensures var end := Run(sources, capacity, s, schedule);
            |end.out| <= capacity && s.consumed + s.out <= end.consumed + end.out && s.consumed <= end.consumed
    decreases |schedule|
  {
    if schedule != [] {
      var a := schedule[0];
      if Can(sources, capacity, s, a) {
        var s' := Next(sources, capacity, s, a);
        assert a.Receive? ==> s'.consumed + s'.out == s.consumed + s.out;
        assert s.consumed + s.out <= s'.consumed + s'.out;
        ChannelIsBounded(sources, capacity, s', schedule[1..]);
      } else {
        ChannelIsBounded(sources, capacity, s, schedule[1..]);
      }
    }
  }

  // ---- Every run comes to an end, with the channel closed exactly once ----

  function Work(src: Source, p: Producer): nat
  {
    var n := |AllItems(src)|;
    match p
    case Starting => 3 * n + 4
    case Listening(pos) => if pos <= n then 3 * (n - pos) + 3 else 0
    case Sending(pos) => if pos <= n then 3 * (n - pos) + 2 else 0
    case SendingFailure(_) => 2
    case Done => 0
  }

  function Pending(src: Source, reply: Reply): nat
  {
    (if reply.arrived <= |AllItems(src)| then |AllItems(src)| - reply.arrived else 0) + if reply.ended.None? then 1 else 0
  }

  function Effort(src: Source, p: Producer, r: Reply): nat { Work(src, p) + Pending(src, r) }

  function Efforts(sources: seq<Source>, producers: seq<Producer>, replies: seq<Reply>): (r: seq<nat>)
    requires |sources| == |producers| == |replies|
    ensures |r| == |sources| && forall i :: 0 <= i < |r| ==> r[i] == Effort(sources[i], producers[i], replies[i])
  {
    seq(|sources|, i requires 0 <= i < |sources| => Effort(sources[i], producers[i], replies[i]))
  }

  function Sum(xs: seq<nat>): nat { if xs == [] then 0 else Sum(xs[..|xs| - 1]) + xs[|xs| - 1] }

  lemma {:induction false} SumUpdate(xs: seq<nat>, i: nat, x: nat)
    requires i < |xs|
    ensures Sum(xs[i := x]) + xs[i] == Sum(xs) + x
  {
    var n := |xs| - 1;
    if i < n {
      assert xs[i := x][..n] == xs[..n][i := x];
      SumUpdate(xs[..n], i, x);
    } else {
      assert xs[i := x][..n] == xs[..n];
    }
  }

  /** The steps still to be made by the goroutines and by the router. */
  function TotalWork(sources: seq<Source>, producers: seq<Producer>, replies: seq<Reply>): nat
    requires |sources| == |producers| == |replies|
  {
    Sum(Efforts(sources, producers, replies))
  }

  function Measure(sources: seq<Source>, s: State): nat
    requires |sources| == |s.producers| == |s.replies|
  {
    TotalWork(sources, s.producers, s.replies) + |s.out|
    + (if s.cancelled then 0 else 1)
    + (match s.closer case Waiting => 2 case Closing => 1 case Finished => 0)
  }

  lemma TotalWorkUpdate(sources: seq<Source>, producers: seq<Producer>, replies: seq<Reply>, i: nat, p: Producer, r: Reply)
    requires |sources| == |producers| == |replies| && i < |sources|
    ensures TotalWork(sources, producers[i := p], replies[i := r]) + Effort(sources[i], producers[i], replies[i])
         == TotalWork(sources, producers, replies) + Effort(sources[i], p, r)
  {
    assert Efforts(sources, producers[i := p], replies[i := r])
        == Efforts(sources, producers, replies)[i := Effort(sources[i], p, r)];
    SumUpdate(Efforts(sources, producers, replies), i, Effort(sources[i], p, r));
  }

  predicate Global(a: Action) { a.Cancel? || a.Receive? || a.AllDone? || a.Close? }

  predicate FromRouter(a: Action) { a.Arrive? || a.End? || a.EndCancelled? }

  lemma ArrivalProgress(sources: seq<Source>, capacity: nat, s: State, a: Action)
    requires WellFormed(sources, s) && Enabled(sources, capacity, s, a) && FromRouter(a)
    ensures var s' := Next(sources, capacity, s, a);
            && s'.out == s.out
            && Effort(sources[a.i], s'.producers[a.i], s'.replies[a.i]) < Effort(sources[a.i], s.producers[a.i], s.replies[a.i])
  {}

  lemma GoroutineProgress(sources: seq<Source>, capacity: nat, s: State, a: Action)
    requires Inv(sources, s) && Enabled(sources, capacity, s, a) && !Global(a) && !FromRouter(a)
    ensures var s' := Next(sources, capacity, s, a);
            && s'.replies == s.replies
            && Work(sources[a.i], s'.producers[a.i]) + |s'.out| < Work(sources[a.i], s.producers[a.i]) + |s.out|
  {
    assert Upheld(sources, s, a.i);
    assert Forwarded(a.i, sources[a.i], s.producers[a.i], s.cancelled, Of(s.consumed + s.out, a.i));
  }

  lemma LocalProgress(sources: seq<Source>, capacity: nat, s: State, a: Action)
    requires Inv(sources, s) && Enabled(sources, capacity, s, a) && !Global(a)
    ensures var s' := Next(sources, capacity, s, a);
            Effort(sources[a.i], s'.producers[a.i], s'.replies[a.i]) + |s'.out|
              < Effort(sources[a.i], s.producers[a.i], s.replies[a.i]) + |s.out|
  {
    if FromRouter(a) {
      ArrivalProgress(sources, capacity, s, a);
    } else {
      GoroutineProgress(sources, capacity, s, a);
    }
  }

  lemma LocalStep(sources: seq<Source>, capacity: nat, s: State, a: Action)
    requires WellFormed(sources, s) && Enabled(sources, capacity, s, a) && !Global(a)
    ensures var s' := Next(sources, capacity, s, a);
            && s'.producers == s.producers[a.i := s'.producers[a.i]]
            && s'.replies == s.replies[a.i := s'.replies[a.i]]
            && s'.closer == s.closer && s'.cancelled == s.cancelled
  {}

  lemma GlobalProgress(sources: seq<Source>, capacity: nat, s: State, a: Action)
    requires WellFormed(sources, s) && Enabled(sources, capacity, s, a) && Global(a)
    ensures var s' := Next(sources, capacity, s, a);
            |s'.producers| == |s'.replies| == |sources| && Measure(sources, s') < Measure(sources, s)
  {}

  lemma WorkFalls(sources: seq<Source>, s: State, s': State, i: nat)
    requires |sources| == |s.producers| == |s.replies| == |s'.producers| == |s'.replies| && i < |sources|
    requires s'.producers == s.producers[i := s'.producers[i]] && s'.replies == s.replies[i := s'.replies[i]]
    requires s'.closer == s.closer && s'.cancelled == s.cancelled
    requires Effort(sources[i], s'.producers[i], s'.replies[i]) + |s'.out|
           < Effort(sources[i], s.producers[i], s.replies[i]) + |s.out|
    ensures Measure(sources, s') < Measure(sources, s)
  {
    TotalWorkUpdate(sources, s.producers, s.replies, i, s'.producers[i], s'.replies[i]);
  }

  /** Every step brings the end nearer, so no schedule can run for ever. */
  lemma EveryStepProgresses(sources: seq<Source>, capacity: nat, s: State, a: Action)
    requires Inv(sources, s) && Enabled(sources, capacity, s, a)
    ensures |Next(sources, capacity, s, a).producers| == |Next(sources, capacity, s, a).replies| == |sources|
    ensures Measure(sources, Next(sources, capacity, s, a)) < Measure(sources, s)
  {
    LengthsKept(sources, capacity, s, a);
    if Global(a) {
      GlobalProgress(sources, capacity, s, a);
    } else {
      LocalStep(sources, capacity, s, a);
      LocalProgress(sources, capacity, s, a);
      WorkFalls(sources, s, Next(sources, capacity, s, a), a.i);
    }
  }

  /** No step is possible, except perhaps a cancellation. */
  ghost predicate Stuck(sources: seq<Source>, capacity: nat, s: State)
  {
    forall a: Action :: !a.Cancel? ==> !Can(sources, capacity, s, a)
  }

  lemma StuckIsOver(sources: seq<Source>, capacity: nat, s: State)
    requires capacity > 0 && Inv(sources, s) && Stuck(sources, capacity, s)
    ensures s.out == [] && s.closes == 1 && forall j :: 0 <= j < |sources| ==> s.producers[j].Done?
  {
    assert !Can(sources, capacity, s, Receive);
    forall j | 0 <= j < |sources| ensures s.producers[j].Done? {
      StuckProducerIsDone(sources, capacity, s, j);
    }
    assert !Can(sources, capacity, s, AllDone) && !Can(sources, capacity, s, Close);
  }

  /**
   A run that can make no step but a cancellation is over: every producer has stopped, the channel is
   empty and has been closed exactly once, and if the context was never cancelled the caller got the
   whole stream of every command.
   */
  lemma FinishedRunsAreComplete(sources: seq<Source>, capacity: nat, schedule: seq<Action>, i: nat)
    requires capacity > 0 && i < |sources|
    requires Stuck(sources, capacity, Run(sources, capacity, Initial(|sources|), schedule))
    ensures var s := Run(sources, capacity, Initial(|sources|), schedule);
            && s.closes == 1 && s.out == []
            && (!s.cancelled ==> Of(s.consumed, i) == Whole(i, sources[i]))
  {
    InitialInv(sources);
    RunKeepsInv(sources, capacity, Initial(|sources|), schedule);
    var s := Run(sources, capacity, Initial(|sources|), schedule);
    StuckIsOver(sources, capacity, s);
    assert s.consumed + s.out == s.consumed;
    assert Upheld(sources, s, i);
  }

  lemma StuckProducerIsDone(sources: seq<Source>, capacity: nat, s: State, j: nat)
    requires capacity > 0 && j < |sources| && Inv(sources, s) && s.out == []
    requires Stuck(sources, capacity, s)
    ensures s.producers[j].Done?
  {
    assert !Can(sources, capacity, s, Start(j)) && !Can(sources, capacity, s, Take(j));
    assert !Can(sources, capacity, s, SeeEnd(j)) && !Can(sources, capacity, s, SendItem(j));
    assert !Can(sources, capacity, s, SendFailure(j));
    assert !Can(sources, capacity, s, Arrive(j)) && !Can(sources, capacity, s, End(j));
    assert Upheld(sources, s, j);
    assert Forwarded(j, sources[j], s.producers[j], s.cancelled, Of(s.consumed + s.out, j));
  }

  /** Only the caller can go on, by receiving. */
  ghost predicate LeftToTheCaller(sources: seq<Source>, capacity: nat, s: State)
  {
    forall a: Action :: Can(sources, capacity, s, a) ==> a.Receive?
  }

  /**
   After a cancellation nothing waits for the caller to receive: a run that only a receive can continue has
   stopped every producer and closed the channel.
   */
  lemma CancelledRunsNeedNoReceiver(sources: seq<Source>, capacity: nat, schedule: seq<Action>, s: State)
    requires s == Run(sources, capacity, Initial(|sources|), schedule)
    requires s.cancelled && LeftToTheCaller(sources, capacity, s)
    ensures s.closes == 1 && |s.producers| == |sources| && forall j :: 0 <= j < |sources| ==> s.producers[j].Done?
  {
    InitialInv(sources);
    RunKeepsInv(sources, capacity, Initial(|sources|), schedule);
    forall j | 0 <= j < |sources| ensures s.producers[j].Done? {
      assert !Can(sources, capacity, s, Start(j)) && !Can(sources, capacity, s, GiveUp(j));
    }
    assert !Can(sources, capacity, s, AllDone) && !Can(sources, capacity, s, Close);
  }
}
