/**
 ListenBatches of pkg/mikrotik/client/helpers.go: sentences are gathered into batches that end when the
 debounce timer fires. The goroutine is a machine whose steps are the cases its selects can take; a
 schedule says which, and a case that is not ready does not occur.
 */
module Batches {
  /** Take the next sentence or notice the closed channel, let the timer fire, hand over the batch, or see the cancellation. */
  datatype Choice = Receive | Timer | Send | Cancel

  datatype Phase = Waiting | Collecting | Sending | Returned(cancelled: bool)

  /** What was received so far, the batch being gathered, and the batches handed over. */
  datatype State<T> = State(received: nat, batch: seq<T>, out: seq<seq<T>>, phase: Phase)

  /** All the sentences that are ever sent, and whether the channel is closed after them. */
  datatype Input<T> = Input(sentences: seq<T>, closes: bool)

  function Initial<T>(): State<T> { State(0, [], [], Waiting) }

  /** Whether the select that the goroutine has come to can take this case. */
  predicate Ready<T>(input: Input<T>, s: State<T>, c: Choice)
  {
    match s.phase
    case Waiting => c == Cancel || (c == Receive && (s.received < |input.sentences| || input.closes))
    case Collecting => c == Cancel || c == Timer || (c == Receive && (s.received < |input.sentences| || input.closes))
    case Sending => c == Cancel || c == Send
    case Returned(_) => false
  }

  function Step<T>(input: Input<T>, s: State<T>, c: Choice): State<T>
  {
    if !Ready(input, s, c) then s
    else
      match c
      case Cancel => s.(phase := Returned(true))
      case Timer => s.(phase := Sending)
      case Send => State(s.received, [], s.out + [s.batch], Waiting)
      case Receive =>
        if s.received < |input.sentences| then
          State(s.received + 1, s.batch + [input.sentences[s.received]], s.out, Collecting)
        else
          s.(phase := if s.phase == Waiting then Returned(false) else Sending)
  }

  function Run<T>(input: Input<T>, schedule: seq<Choice>): State<T>
  {
    if schedule == [] then Initial()
    else Step(input, Run(input, schedule[..|schedule| - 1]), schedule[|schedule| - 1])
  }

  lemma RunNext<T>(input: Input<T>, schedule: seq<Choice>, k: nat)
    requires k < |schedule|
    ensures Run(input, schedule[..k + 1]) == Step(input, Run(input, schedule[..k]), schedule[k])
  {
    assert schedule[..k + 1][..k] == schedule[..k];
  }

  lemma {:induction false} ReturnedStays<T>(input: Input<T>, schedule: seq<Choice>, k: nat)
    requires k <= |schedule| && Run(input, schedule[..k]).phase.Returned?
    ensures Run(input, schedule) == Run(input, schedule[..k])
    decreases |schedule| - k
  {
    if k < |schedule| {
      RunNext(input, schedule, k);
      ReturnedStays(input, schedule, k + 1);
    } else {
      assert schedule[..k] == schedule;
    }
  }

  /** The inner loop: gathers until the timer fires, the input ends or the context is cancelled. */
  method Collect<T>(input: Input<T>, schedule: seq<Choice>, start: nat, from: State<T>) returns (k: nat, s: State<T>)
    requires start <= |schedule| && from == Run(input, schedule[..start])
    requires from.phase == Collecting && from.received <= |input.sentences|
    ensures start <= k <= |schedule| && s == Run(input, schedule[..k])
    ensures s.out == from.out && s.received <= |input.sentences|
    ensures s.phase == Sending || s.phase == Returned(true) || (s.phase == Collecting && k == |schedule|)
  {
    var received: nat, batch := from.received, from.batch;
    k := start;
    while k < |schedule|
      invariant start <= k <= |schedule| && received <= |input.sentences|
      invariant Run(input, schedule[..k]) == State(received, batch, from.out, Collecting)
    {
      RunNext(input, schedule, k);
      var choice := schedule[k];
      k := k + 1;
      match choice
      case Receive =>
        if received < |input.sentences| {
          batch := batch + [input.sentences[received]];
          received := received + 1;
        } else if input.closes {
          return k, State(received, batch, from.out, Sending);
        }
      case Timer => return k, State(received, batch, from.out, Sending);
      case Send =>
      case Cancel => return k, State(received, batch, from.out, Returned(true));
    }
    s := State(received, batch, from.out, Collecting);
  }

  /** The last select: waits until the batch is taken or the context is cancelled. */
  method HandOver<T>(input: Input<T>, schedule: seq<Choice>, start: nat, from: State<T>) returns (k: nat, s: State<T>)
    requires start <= |schedule| && from == Run(input, schedule[..start]) && from.phase == Sending
    ensures start <= k <= |schedule| && s == Run(input, schedule[..k]) && s.received == from.received
    ensures (s.phase == Waiting && s.batch == []) || s.phase == Returned(true) || (s.phase == Sending && k == |schedule|)
  {
    s, k := from, start;
    while k < |schedule|
      invariant start <= k <= |schedule|
      invariant s == from == Run(input, schedule[..k])
    {
      RunNext(input, schedule, k);
      var choice := schedule[k];
      k := k + 1;
      if choice == Send {
        return k, State(s.received, [], s.out + [s.batch], Waiting);
      }
      if choice == Cancel {
        return k, s.(phase := Returned(true));
      }
    }
  }

  /** The goroutine run on a schedule. */
  method ListenBatches<T>(input: Input<T>, schedule: seq<Choice>) returns (s: State<T>)
    ensures s == Run(input, schedule)
  {
    s := Initial();
    var k := 0;
    while k < |schedule|
      invariant 0 <= k <= |schedule| && s.received <= |input.sentences|
      invariant s == Run(input, schedule[..k])
      invariant s.phase == Waiting && s.batch == []
    {
      RunNext(input, schedule, k);
      var choice := schedule[k];
      k := k + 1;
      if choice == Cancel || (choice == Receive && s.received == |input.sentences| && input.closes) {
        ReturnedStays(input, schedule, k);
        return s.(phase := Returned(choice == Cancel));
      }
      if choice != Receive || s.received == |input.sentences| {
        continue;
      }
      s := State(s.received + 1, [input.sentences[s.received]], s.out, Collecting);
      k, s := Collect(input, schedule, k, s);
      if s.phase == Sending {
        k, s := HandOver(input, schedule, k, s);
      }
      if s.phase != Waiting {
        if s.phase == Returned(true) {
          ReturnedStays(input, schedule, k);
        }
        assert k == |schedule| ==> schedule[..k] == schedule;
        return;
      }
    }
    assert schedule[..k] == schedule;
  }

  // ---- Order and completeness ----

  function Concat<T>(batches: seq<seq<T>>): seq<T>
  {
    if batches == [] then [] else Concat(batches[..|batches| - 1]) + batches[|batches| - 1]
  }

  lemma ConcatSnoc<T>(batches: seq<seq<T>>, b: seq<T>)
    ensures Concat(batches + [b]) == Concat(batches) + b
  {
    assert (batches + [b])[..|batches|] == batches;
  }

  /** The batches and the one being gathered are what was received, in order; no batch is empty. */
  ghost predicate InOrder<T>(input: Input<T>, s: State<T>)
  {
    && s.received <= |input.sentences|
    && Concat(s.out) + s.batch == input.sentences[..s.received]
    && (forall b <- s.out :: b != [])
    && (s.phase == Waiting ==> s.batch == [])
    && (s.phase == Collecting || s.phase == Sending ==> s.batch != [])
    && (s.phase == Returned(false) ==> s.batch == [] && input.closes && s.received == |input.sentences|)
  }

  lemma StepKeepsInOrder<T>(input: Input<T>, s: State<T>, c: Choice)
    requires InOrder(input, s)
    ensures InOrder(input, Step(input, s, c))
  {
    if s.phase == Sending && c == Send {
      ConcatSnoc(s.out, s.batch);
      assert Concat(s.out + [s.batch]) + [] == Concat(s.out) + s.batch;
    }
  }

  lemma {:induction false} RunKeepsInOrder<T>(input: Input<T>, schedule: seq<Choice>)
    ensures InOrder(input, Run(input, schedule))
  {
    if schedule != [] {
      var n := |schedule| - 1;
      RunKeepsInOrder(input, schedule[..n]);
      StepKeepsInOrder(input, Run(input, schedule[..n]), schedule[n]);
    }
  }

  /**
   Under every schedule the batches are non-empty and concatenate to an in-order prefix of the input, of
   which only the batch in hand is missing from what was received.
   */
  lemma EveryScheduleBatchesInOrder<T>(input: Input<T>, schedule: seq<Choice>)
    ensures var s := Run(input, schedule);
            && s.received <= |input.sentences| && Concat(s.out) + s.batch == input.sentences[..s.received]
            && Concat(s.out) <= input.sentences && (forall b <- s.out :: b != [])
  {
    RunKeepsInOrder(input, schedule);
  }

  /** No select can go on, unless the context is cancelled. */
  ghost predicate Stuck<T>(input: Input<T>, s: State<T>)
  {
    forall c: Choice :: Ready(input, s, c) ==> c == Cancel
  }

  /**
   A run that can go no further has delivered, unless it was cancelled, every sentence that was sent; and
   it has returned exactly if the input was closed.
   */
  lemma FinishedRunsAreComplete<T>(input: Input<T>, schedule: seq<Choice>)
    requires Stuck(input, Run(input, schedule))
    ensures var s := Run(input, schedule);
            s.phase != Returned(true) ==>
              Concat(s.out) == input.sentences && s.batch == [] && (s.phase == Returned(false) <==> input.closes)
  {
    var s := Run(input, schedule);
    RunKeepsInOrder(input, schedule);
    assert !Ready(input, s, Receive) && !Ready(input, s, Timer) && !Ready(input, s, Send);
    assert input.sentences[..|input.sentences|] == input.sentences;
    assert Concat(s.out) + [] == Concat(s.out);
  }

  /** How far a state is from the end. */
  function Measure<T>(input: Input<T>, s: State<T>): nat
  {
    (if s.received <= |input.sentences| then 3 * (|input.sentences| - s.received) else 0)
    + match s.phase
      case Waiting => 1
      case Collecting => 3
      case Sending => 2
      case Returned(_) => 0
  }

  /** Every step brings the end nearer, so that each run comes to one. */
  lemma EveryStepProgresses<T>(input: Input<T>, s: State<T>, c: Choice)
    requires InOrder(input, s) && Ready(input, s, c)
    ensures Measure(input, Step(input, s, c)) < Measure(input, s)
  {}

  // ---- What a batch holds ----

  function Receives(k: nat): seq<Choice> { seq(k, i => Receive) }

  lemma RunSnoc<T>(input: Input<T>, schedule: seq<Choice>, c: Choice)
    ensures Run(input, schedule + [c]) == Step(input, Run(input, schedule), c)
  {
    assert (schedule + [c])[..|schedule|] == schedule;
  }

  lemma ReceiveGathers<T>(input: Input<T>, s: State<T>, from: nat)
    requires s.phase == Waiting || s.phase == Collecting
    requires from <= s.received < |input.sentences| && s.batch == input.sentences[from..s.received]
    ensures Step(input, s, Receive) == State(s.received + 1, input.sentences[from..s.received + 1], s.out, Collecting)
  {
    assert input.sentences[from..s.received + 1] == s.batch + [input.sentences[s.received]];
  }

  lemma OneMoreReceive<T>(input: Input<T>, schedule: seq<Choice>, k: nat)
    requires k >= 1
    ensures Run(input, schedule + Receives(k)) == Step(input, Run(input, schedule + Receives(k - 1)), Receive)
  {
    assert schedule + Receives(k) == schedule + Receives(k - 1) + [Receive];
    RunSnoc(input, schedule + Receives(k - 1), Receive);
  }

  /** While sentences are left, waiting or gathering, every receive takes the next one. */
  lemma {:induction false} ReceivesGather<T>(input: Input<T>, schedule: seq<Choice>, k: nat)
    requires Run(input, schedule).phase == Waiting && 1 <= k
    requires Run(input, schedule).received + k <= |input.sentences|
    ensures var s := Run(input, schedule);
            Run(input, schedule + Receives(k))
              == State(s.received + k, input.sentences[s.received..s.received + k], s.out, Collecting)
  {
    var s := Run(input, schedule);
    RunKeepsInOrder(input, schedule);
    if k > 1 {
      ReceivesGather(input, schedule, k - 1);
    } else {
      assert schedule + Receives(0) == schedule;
    }
    ReceiveGathers(input, Run(input, schedule + Receives(k - 1)), s.received);
    OneMoreReceive(input, schedule, k);
  }

  /** k receives, the timer and the hand-over make one batch of the next k sentences. */
  lemma TimerEndsTheBatch<T>(input: Input<T>, schedule: seq<Choice>, k: nat)
    requires Run(input, schedule).phase == Waiting && 1 <= k
    requires Run(input, schedule).received + k <= |input.sentences|
    ensures var s := Run(input, schedule);
            Run(input, schedule + Receives(k) + [Timer, Send])
              == State(s.received + k, [], s.out + [input.sentences[s.received..s.received + k]], Waiting)
  {
    var gathered := schedule + Receives(k);
    ReceivesGather(input, schedule, k);
    RunSnoc(input, gathered, Timer);
    RunSnoc(input, gathered + [Timer], Send);
    assert gathered + [Timer] + [Send] == gathered + [Timer, Send];
  }

  /** The receives that the schedule makes while the goroutine waits or gathers and sentences are left. */
  function Taken<T>(input: Input<T>, schedule: seq<Choice>): nat
  {
    if schedule == [] then 0
    else
      var n := |schedule| - 1;
      var before := Run(input, schedule[..n]);
      Taken(input, schedule[..n])
      + if schedule[n] == Receive && (before.phase == Waiting || before.phase == Collecting)
           && Taken(input, schedule[..n]) < |input.sentences| then 1 else 0
  }

  lemma {:induction false} EveryReceiveCounts<T>(input: Input<T>, schedule: seq<Choice>)
    ensures Run(input, schedule).received == Taken(input, schedule)
  {
    if schedule != [] {
      EveryReceiveCounts(input, schedule[..|schedule| - 1]);
    }
  }

  /** In whatever it is doing, the goroutine can be cancelled at once, and delivers nothing more. */
  lemma CancelReturns<T>(input: Input<T>, schedule: seq<Choice>, rest: seq<Choice>)
    ensures var s, after := Run(input, schedule), Run(input, schedule + [Cancel] + rest);
            after.phase.Returned? && after.out == s.out
            && (after.phase == Returned(false) <==> s.phase == Returned(false))
  {
    RunSnoc(input, schedule, Cancel);
    assert (schedule + [Cancel] + rest)[..|schedule| + 1] == schedule + [Cancel];
    ReturnedStays(input, schedule + [Cancel] + rest, |schedule| + 1);
  }

  /** A closed channel ends the gathering as the timer does, and the goroutine while it waits. */
  lemma ClosingEnds<T>(input: Input<T>, schedule: seq<Choice>)
    requires input.closes && Run(input, schedule).received == |input.sentences|
    ensures var s, after := Run(input, schedule), Run(input, schedule + [Receive]);
            && (s.phase == Waiting ==> after == s.(phase := Returned(false)))
            && (s.phase == Collecting ==> after == s.(phase := Sending))
  {
    RunSnoc(input, schedule, Receive);
  }

  // ---- Where batches end ----

  /** The position of the cut, if the step ends a batch. */
  function CutBetween<T>(before: State<T>, after: State<T>): seq<nat>
  {
    if before.phase == Collecting && after.phase == Sending then [before.received] else []
  }

  /** The positions in the input at which the schedule ends a batch: its timers, and the end of the input. */
  function Cuts<T>(input: Input<T>, schedule: seq<Choice>): seq<nat>
  {
    if schedule == [] then []
    else
      var before := Run(input, schedule[..|schedule| - 1]);
      Cuts(input, schedule[..|schedule| - 1]) + CutBetween(before, Step(input, before, schedule[|schedule| - 1]))
  }

  /** The ends of the batches in the input. */
  function Ends<T>(batches: seq<seq<T>>): seq<nat>
  {
    if batches == [] then [] else Ends(batches[..|batches| - 1]) + [|Concat(batches)|]
  }

  lemma EndsSnoc<T>(batches: seq<seq<T>>, b: seq<T>)
    ensures Ends(batches + [b]) == Ends(batches) + [|Concat(batches)| + |b|]
  {
    var all := batches + [b];
    assert all[..|all| - 1] == batches;
    ConcatSnoc(batches, b);
    assert |Concat(all)| == |Concat(batches)| + |b|;
  }

  /** The cuts are the ends of the batches handed over, and of the one that is still to be. */
  ghost predicate EndAt<T>(s: State<T>, cuts: seq<nat>)
  {
    && (s.phase == Waiting || s.phase == Collecting || s.phase == Returned(false) ==> Ends(s.out) == cuts)
    && (s.phase == Sending ==> Ends(s.out) + [s.received] == cuts)
  }

  lemma HandedOverEnds<T>(input: Input<T>, s: State<T>)
    requires InOrder(input, s) && s.phase == Sending
    ensures Ends(s.out + [s.batch]) == Ends(s.out) + [s.received]
  {
    EndsSnoc(s.out, s.batch);
    assert |Concat(s.out) + s.batch| == s.received;
  }

  lemma StepKeepsEnds<T>(input: Input<T>, s: State<T>, cuts: seq<nat>, c: Choice)
    requires InOrder(input, s) && EndAt(s, cuts)
    ensures EndAt(Step(input, s, c), cuts + CutBetween(s, Step(input, s, c)))
  {
    if s.phase == Sending {
      HandedOverEnds(input, s);
    }
    assert cuts + [] == cuts;
  }

  /** The batches end exactly where the timer fired or the input ended, the last one when it is handed over. */
  lemma {:induction false} BatchesEndAtTheCuts<T>(input: Input<T>, schedule: seq<Choice>)
    ensures EndAt(Run(input, schedule), Cuts(input, schedule))
  {
    if schedule != [] {
      var n := |schedule| - 1;
      BatchesEndAtTheCuts(input, schedule[..n]);
      RunKeepsInOrder(input, schedule[..n]);
      StepKeepsEnds(input, Run(input, schedule[..n]), Cuts(input, schedule[..n]), schedule[n]);
    }
  }
}
