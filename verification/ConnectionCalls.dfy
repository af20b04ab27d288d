/**
 What the Manager's calls of pkg/mikrotik/client/manager.go have achieved when they return, whatever the
 clients' goroutines do meanwhile, and that each of them returns; and the delays of the reconnect loop.
 */
module ConnectionCalls {
  import opened Common
  import opened Connections

  ghost function After(s: State, a: Action): State { if Can(s, a) then Next(s, a) else s }

  /** The call goes on until the schedule's last step. */
  ghost predicate During(s: State, schedule: seq<Action>)
    decreases |schedule|
  {
    schedule != [] ==> !s.call.NoCall? && During(After(s, schedule[0]), schedule[1..])
  }

  /** A dial of the call fails on the way. */
  ghost predicate FailsToDial(s: State, schedule: seq<Action>)
    decreases |schedule|
  {
    schedule != [] && ((Can(s, schedule[0]) && schedule[0].DialFails?) || FailsToDial(After(s, schedule[0]), schedule[1..]))
  }

  /** The client has an installed connection at some moment. */
  ghost predicate GivenConnection(s: State, schedule: seq<Action>, c: Id)
    decreases |schedule|
  {
    || (c in s.clients && s.clients[c].conn.Some?)
    || (schedule != [] && GivenConnection(After(s, schedule[0]), schedule[1..], c))
  }

  lemma RunAfter(s: State, schedule: seq<Action>)
    requires schedule != []
    ensures Run(s, schedule) == Run(After(s, schedule[0]), schedule[1..])
  {}

  lemma AfterKeepsInv(s: State, a: Action)
    requires Inv(s)
    ensures Inv(After(s, a))
  {
    if Can(s, a) {
      StepKeepsInv(s, a);
    }
  }

  // ---- What the steps leave alone ----

  /** A goroutine's steps touch neither the map nor the call; no client is lost or reopened. */
  lemma GoroutinesLeaveCalls(s: State, a: Action)
    requires Inv(s) && Can(s, a) && (a.Step? || a.RedialFails?)
    ensures var s' := Next(s, a);
            && s'.registry == s.registry && s'.call == s.call && s'.nextId >= s.nextId
            && (forall c :: c in s.clients ==> c in s'.clients && s'.clients[c].closed == s.clients[c].closed)
  {
    if a.Step? {
      assert ThreadOk(s, a.t);
    }
  }

  /** The clients of the start are there, and closed ones are closed. */
  ghost predicate KeepsClients(start: State, s: State)
  {
    && s.nextId >= start.nextId
    && forall c :: c in start.clients ==> c in s.clients && (start.clients[c].closed ==> s.clients[c].closed)
  }

  ghost predicate SameElsewhere(start: State, s: State, n: Name)
  {
    forall m :: m != n ==> (m in s.registry <==> m in start.registry) && (m in s.registry ==> s.registry[m] == start.registry[m])
  }

  ghost predicate OldClosed(start: State, s: State, n: Name)
  {
    n in start.registry ==> start.registry[n] in s.clients && s.clients[start.registry[n]].closed
  }

  // ---- GetOrConnect and Register ----

  /** A GetOrConnect or Register call that began in start. */
  ghost predicate Connecting(start: State, n: Name, s: State)
  {
    && KeepsClients(start, s) && SameElsewhere(start, s, n)
    && match s.call
       case Stale(m) => m == n && n in start.registry && n in s.registry && s.registry[n] == start.registry[n]
       case Evicted(m) =>
         m == n && n in start.registry && n in s.registry && s.registry[n] == start.registry[n] && OldClosed(start, s, n)
       case Dialing(m, c) => m == n && c >= start.nextId && n !in s.registry && OldClosed(start, s, n)
       case Wiring(m, c) => m == n && c >= start.nextId && n !in s.registry && OldClosed(start, s, n)
       case Publishing(m, c) => m == n && c >= start.nextId && n !in s.registry && OldClosed(start, s, n)
       case NoCall => OldClosed(start, s, n) && (n in s.registry ==> s.registry[n] >= start.nextId)
       case _ => false
  }

  /** The call takes a step of its own. */
  predicate Own(a: Action) { !a.Step? && !a.RedialFails? }

  lemma GoroutinesKeepConnecting(start: State, n: Name, s: State, a: Action)
    requires Inv(s) && Connecting(start, n, s) && Can(s, a) && !Own(a)
    ensures Connecting(start, n, Next(s, a))
  {
    GoroutinesLeaveCalls(s, a);
  }

  lemma ReplacingKeepsConnecting(start: State, n: Name, s: State, a: Action)
    requires WellFormed(start) && WellFormed(s) && Connecting(start, n, s) && Enabled(s, a)
    requires a.CloseClient? || a.DropClient?
    ensures Connecting(start, n, Next(s, a)) && !Next(s, a).call.NoCall?
  {}

  lemma SettingUpKeepsConnecting(start: State, n: Name, s: State, a: Action)
    requires WellFormed(start) && WellFormed(s) && Connecting(start, n, s) && Enabled(s, a)
    requires a.DialSucceeds? || a.StartWatcher?
    ensures Connecting(start, n, Next(s, a)) && !Next(s, a).call.NoCall?
  {}

  lemma LastStepConnecting(start: State, n: Name, s: State, a: Action)
    requires WellFormed(start) && WellFormed(s) && Connecting(start, n, s) && Enabled(s, a)
    requires a.DialFails? || a.Publish?
    ensures Connecting(start, n, Next(s, a)) && Next(s, a).call.NoCall?
    ensures if a.DialFails? then n !in Next(s, a).registry
            else n in Next(s, a).registry && Next(s, a).registry[n] == s.call.client
  {}

  lemma StepKeepsConnecting(start: State, n: Name, s: State, a: Action)
    requires WellFormed(start) && Inv(s) && Connecting(start, n, s) && !s.call.NoCall? && Can(s, a)
    ensures Connecting(start, n, Next(s, a)) && (Next(s, a).call.NoCall? <==> a.DialFails? || a.Publish?)
  {
    if !Own(a) {
      GoroutinesKeepConnecting(start, n, s, a);
      GoroutinesLeaveCalls(s, a);
    } else if a.CloseClient? || a.DropClient? {
      ReplacingKeepsConnecting(start, n, s, a);
    } else if a.DialSucceeds? || a.StartWatcher? {
      SettingUpKeepsConnecting(start, n, s, a);
    } else {
      LastStepConnecting(start, n, s, a);
    }
  }

  predicate HasClient(call: Call) { call.Dialing? || call.Wiring? || call.Publishing? }

  /** The client that a call sets up stays the same until the call returns, and is connected before it is published. */
  lemma StepOnClient(s: State, a: Action)
    requires Inv(s) && !s.call.NoCall? && Can(s, a) && !Next(s, a).call.NoCall?
    ensures !a.DialFails?
    ensures HasClient(s.call) ==> HasClient(Next(s, a).call) && Next(s, a).call.client == s.call.client
    ensures s.call.Wiring? ==> s.call.client in s.clients && s.clients[s.call.client].conn.Some?
    ensures Next(s, a).call.Publishing? ==> s.call.Publishing? || s.call.Wiring?
  {
    if a.Step? || a.RedialFails? {
      GoroutinesLeaveCalls(s, a);
    }
    if s.call.Wiring? {
      assert ConnOk(s, s.call.client);
    }
  }

  /** The name ends registered unless a dial fails, to the client that the call sets up and that is connected once. */
  ghost predicate EndsConnected(n: Name, s: State, schedule: seq<Action>)
  {
    var end := Run(s, schedule);
    && (n in end.registry <==> !FailsToDial(s, schedule))
    && (n in end.registry && HasClient(s.call) ==> end.registry[n] == s.call.client)
    && (n in end.registry && !s.call.Publishing? ==> GivenConnection(s, schedule, end.registry[n]))
  }

  lemma RunOne(s: State, a: Action)
    requires Can(s, a)
    ensures Run(s, [a]) == Next(s, a) && (FailsToDial(s, [a]) <==> a.DialFails?)
    ensures forall c :: c in s.clients && s.clients[c].conn.Some? ==> GivenConnection(s, [a], c)
  {
    assert !FailsToDial(Next(s, a), []);
    assert [a][1..] == [];
  }

  lemma LastStepConnects(start: State, n: Name, s: State, a: Action)
    requires WellFormed(start) && Inv(s) && Connecting(start, n, s) && Can(s, a) && (a.DialFails? || a.Publish?)
    ensures EndsConnected(n, s, [a])
  {
    LastStepConnecting(start, n, s, a);
    RunOne(s, a);
  }

  lemma StepThenConnects(n: Name, s: State, schedule: seq<Action>)
    requires Inv(s) && !s.call.NoCall? && schedule != [] && Can(s, schedule[0]) && !Next(s, schedule[0]).call.NoCall?
    requires EndsConnected(n, Next(s, schedule[0]), schedule[1..])
    ensures EndsConnected(n, s, schedule)
  {
    StepOnClient(s, schedule[0]);
    RunAfter(s, schedule);
  }

  lemma {:induction false} ConnectingEnds(start: State, n: Name, s: State, schedule: seq<Action>)
    requires WellFormed(start) && Inv(s) && Connecting(start, n, s) && !s.call.NoCall?
    requires During(s, schedule) && Run(s, schedule).call.NoCall?
    ensures Connecting(start, n, Run(s, schedule)) && EndsConnected(n, s, schedule)
    decreases |schedule|
  {
    var a, s' := schedule[0], After(s, schedule[0]);
    RunAfter(s, schedule);
    if !Can(s, a) {
      ConnectingEnds(start, n, s', schedule[1..]);
    } else {
      AfterKeepsInv(s, a);
      StepKeepsConnecting(start, n, s, a);
      if s'.call.NoCall? {
        assert schedule == [a];
        LastStepConnects(start, n, s, a);
      } else {
        ConnectingEnds(start, n, s', schedule[1..]);
        StepThenConnects(n, s, schedule);
      }
    }
  }

  /** What GetOrConnect or Register has done in the end. */
  ghost predicate Connected(start: State, n: Name, s: State, schedule: seq<Action>)
  {
    var end := Run(s, schedule);
    && SameElsewhere(start, end, n) && OldClosed(start, end, n)
    && (n in end.registry <==> !FailsToDial(s, schedule))
    && (n in end.registry ==>
          && end.registry[n] !in start.clients && end.registry[n] in end.clients && end.clients[end.registry[n]].name == n
          && GivenConnection(s, schedule, end.registry[n]))
  }

  lemma ConnectingMeansConnected(start: State, n: Name, s: State, schedule: seq<Action>)
    requires WellFormed(start) && Inv(s) && Connecting(start, n, s) && !s.call.NoCall? && !s.call.Publishing?
    requires During(s, schedule) && Run(s, schedule).call.NoCall?
    ensures Connected(start, n, s, schedule)
  {
    ConnectingEnds(start, n, s, schedule);
    RunKeepsInv(s, schedule);
  }

  /**
   GetOrConnect leaves a connected client in place. Else, when it returns, the client that was registered
   is closed and, unless the dial failed, the name is registered to a client made during the call that was
   given a connection; if it failed, to none. No other name is touched.
   */
  lemma GetOrConnectConnects(s: State, n: Name, schedule: seq<Action>)
    requires Inv(s) && s.call.NoCall?
    ensures n in s.registry && s.clients[s.registry[n]].conn.Some? && !s.clients[s.registry[n]].closed
       <==> Next(s, BeginGetOrConnect(n)) == s
    ensures var began := Next(s, BeginGetOrConnect(n));
            began != s ==>
              && !began.call.NoCall?
              && (During(began, schedule) && Run(began, schedule).call.NoCall? ==> Connected(s, n, began, schedule))
  {
    var began := Next(s, BeginGetOrConnect(n));
    if began != s && During(began, schedule) && Run(began, schedule).call.NoCall? {
      StepKeepsInv(s, BeginGetOrConnect(n));
      ConnectingMeansConnected(s, n, began, schedule);
    }
  }

  /** Register refuses a name that is taken, and else does the same. */
  lemma RegisterConnects(s: State, n: Name, schedule: seq<Action>)
    requires Inv(s) && s.call.NoCall?
    ensures n in s.registry <==> Next(s, BeginRegister(n)) == s
    ensures var began := Next(s, BeginRegister(n));
            began != s ==>
              && !began.call.NoCall?
              && (During(began, schedule) && Run(began, schedule).call.NoCall? ==> Connected(s, n, began, schedule))
  {
    var began := Next(s, BeginRegister(n));
    if began != s && During(began, schedule) && Run(began, schedule).call.NoCall? {
      StepKeepsInv(s, BeginRegister(n));
      ConnectingMeansConnected(s, n, began, schedule);
    }
  }

  // ---- Unregister ----

  ghost predicate Unregistering(start: State, n: Name, s: State)
  {
    && KeepsClients(start, s) && n in start.registry
    && match s.call
       case Removing(m) => m == n && s.registry == start.registry
       case Removed(m) => m == n && s.registry == start.registry && OldClosed(start, s, n)
       case NoCall => s.registry == start.registry - {n} && OldClosed(start, s, n)
       case _ => false
  }

  lemma GoroutinesKeepUnregistering(start: State, n: Name, s: State, a: Action)
    requires Inv(s) && Unregistering(start, n, s) && Can(s, a) && !Own(a)
    ensures Unregistering(start, n, Next(s, a))
  {
    GoroutinesLeaveCalls(s, a);
  }

  lemma OwnStepKeepsUnregistering(start: State, n: Name, s: State, a: Action)
    requires WellFormed(start) && WellFormed(s) && Unregistering(start, n, s) && Enabled(s, a)
    requires a.CloseClient? || a.DropClient?
    ensures Unregistering(start, n, Next(s, a))
  {}

  lemma StepKeepsUnregistering(start: State, n: Name, s: State, a: Action)
    requires WellFormed(start) && Inv(s) && Unregistering(start, n, s) && !s.call.NoCall? && Can(s, a)
    ensures Unregistering(start, n, Next(s, a))
  {
    if Own(a) {
      OwnStepKeepsUnregistering(start, n, s, a);
    } else {
      GoroutinesKeepUnregistering(start, n, s, a);
    }
  }

  lemma {:induction false} UnregisteringEnds(start: State, n: Name, s: State, schedule: seq<Action>)
    requires WellFormed(start) && Inv(s) && Unregistering(start, n, s)
    requires During(s, schedule) && Run(s, schedule).call.NoCall?
    ensures Unregistering(start, n, Run(s, schedule))
    decreases |schedule|
  {
    if schedule != [] {
      var a := schedule[0];
      AfterKeepsInv(s, a);
      if Can(s, a) {
        StepKeepsUnregistering(start, n, s, a);
      }
      UnregisteringEnds(start, n, After(s, a), schedule[1..]);
    }
  }

  /** When Unregister returns, its name is registered no more, its client is closed, and no other name is touched. */
  lemma UnregisterRemoves(s: State, n: Name, schedule: seq<Action>)
    requires Inv(s) && s.call.NoCall?
    ensures n !in s.registry ==> Next(s, BeginUnregister(n)) == s
    ensures var began := Next(s, BeginUnregister(n));
            var end := Run(began, schedule);
            n in s.registry ==>
              && !began.call.NoCall?
              && (During(began, schedule) && end.call.NoCall? ==> end.registry == s.registry - {n} && OldClosed(s, end, n))
  {
    var began := Next(s, BeginUnregister(n));
    if n in s.registry && During(began, schedule) && Run(began, schedule).call.NoCall? {
      StepKeepsInv(s, BeginUnregister(n));
      UnregisteringEnds(s, n, began, schedule);
    }
  }

  // ---- CloseAll ----

  /** Each client registered at the start is closed, or registered still. */
  ghost predicate ClosingAll(start: State, s: State)
  {
    && KeepsClients(start, s)
    && (s.call.Draining? || s.call.Drained? || (s.call.NoCall? && s.registry == map[]))
    && (forall m :: m in s.registry ==> m in start.registry && s.registry[m] == start.registry[m])
    && (forall m :: m in start.registry ==> m in s.registry || OldClosed(start, s, m))
  }

  lemma GoroutinesKeepClosingAll(start: State, s: State, a: Action)
    requires WellFormed(start) && Inv(s) && ClosingAll(start, s) && Can(s, a) && !Own(a)
    ensures ClosingAll(start, Next(s, a))
  {
    var s' := Next(s, a);
    GoroutinesLeaveCalls(s, a);
    forall m | m in start.registry ensures m in s'.registry || OldClosed(start, s', m) {
      assert m in s.registry || OldClosed(start, s, m);
    }
  }

  lemma DrainKeepsClosingAll(start: State, s: State, n: Name)
    requires WellFormed(start) && WellFormed(s) && ClosingAll(start, s) && Enabled(s, DrainNext(n))
    ensures ClosingAll(start, Next(s, DrainNext(n)))
  {
    var s' := Next(s, DrainNext(n));
    forall m | m in start.registry ensures m in s'.registry || OldClosed(start, s', m) {
      assert m in s.registry || OldClosed(start, s, m);
    }
  }

  lemma DropKeepsClosingAll(start: State, s: State)
    requires WellFormed(start) && WellFormed(s) && ClosingAll(start, s) && s.call.Drained?
    ensures ClosingAll(start, Next(s, DropClient))
  {
    var s' := Next(s, DropClient);
    forall m | m in start.registry ensures m in s'.registry || OldClosed(start, s', m) {
      assert m in s.registry || OldClosed(start, s, m);
    }
  }

  lemma StepKeepsClosingAll(start: State, s: State, a: Action)
    requires WellFormed(start) && Inv(s) && ClosingAll(start, s) && !s.call.NoCall? && Can(s, a)
    ensures ClosingAll(start, Next(s, a))
  {
    if !Own(a) {
      GoroutinesKeepClosingAll(start, s, a);
    } else if a.DrainNext? {
      DrainKeepsClosingAll(start, s, a.name);
    } else if a.DropClient? {
      DropKeepsClosingAll(start, s);
    }
  }

  lemma {:induction false} ClosingAllEnds(start: State, s: State, schedule: seq<Action>)
    requires WellFormed(start) && Inv(s) && ClosingAll(start, s)
    requires During(s, schedule) && Run(s, schedule).call.NoCall?
    ensures ClosingAll(start, Run(s, schedule))
    decreases |schedule|
  {
    if schedule != [] {
      AfterKeepsInv(s, schedule[0]);
      if Can(s, schedule[0]) {
        StepKeepsClosingAll(start, s, schedule[0]);
      }
      ClosingAllEnds(start, After(s, schedule[0]), schedule[1..]);
    }
  }

  /** When CloseAll returns, no name is registered and every client that was is closed. */
  lemma CloseAllCloses(s: State, schedule: seq<Action>)
    requires Inv(s) && s.call.NoCall?
    ensures var began := Next(s, BeginCloseAll);
            var end := Run(began, schedule);
            && !began.call.NoCall?
            && (During(began, schedule) && end.call.NoCall? ==>
                  end.registry == map[] && forall m :: m in s.registry ==> OldClosed(s, end, m))
  {
    var began := Next(s, BeginCloseAll);
    if During(began, schedule) && Run(began, schedule).call.NoCall? {
      StepKeepsInv(s, BeginCloseAll);
      ClosingAllEnds(s, began, schedule);
    }
  }

  // ---- Calls return ----

  /** How many steps of its own the call has left, at most. */
  function StepsLeft(s: State): nat
  {
    match s.call
    case NoCall => 0
    case Stale(_) => 5
    case Evicted(_) => 4
    case Dialing(_, _) => 3
    case Wiring(_, _) => 2
    case Publishing(_, _) => 1
    case Removing(_) => 2
    case Removed(_) => 1
    case Draining => 2 * |s.registry| + 1
    case Drained(_) => 2 * |s.registry|
  }

  lemma OneLess(registry: map<Name, Id>, n: Name)
    requires n in registry
    ensures |registry - {n}| == |registry| - 1
  {
    assert (registry - {n}).Keys == registry.Keys - {n};
  }

  lemma DroppingCounts(s: State)
    requires WellFormed(s) && Enabled(s, DropClient)
    ensures StepsLeft(Next(s, DropClient)) < StepsLeft(s)
  {
    OneLess(s.registry, s.call.name);
  }

  lemma DrainingCounts(s: State, a: Action)
    requires WellFormed(s) && Enabled(s, a) && (a.DrainNext? || a.EndCloseAll?)
    ensures StepsLeft(Next(s, a)) < StepsLeft(s)
  {}

  lemma OtherStepsCount(s: State, a: Action)
    requires WellFormed(s) && Enabled(s, a)
    requires a.CloseClient? || a.DialFails? || a.DialSucceeds? || a.StartWatcher? || a.Publish?
    ensures StepsLeft(Next(s, a)) < StepsLeft(s)
  {}

  lemma OwnStepsCount(s: State, a: Action)
    requires WellFormed(s) && !s.call.NoCall? && Enabled(s, a) && Own(a)
    ensures StepsLeft(Next(s, a)) < StepsLeft(s)
  {
    match a
    case DropClient => DroppingCounts(s);
    case DrainNext(_) => DrainingCounts(s, a);
    case EndCloseAll => DrainingCounts(s, a);
    case _ => OtherStepsCount(s, a);
  }

  /** A call that has not returned can always take a step, and with each one has fewer left; the goroutines do not hold it up. */
  lemma CallsReturn(s: State)
    requires Inv(s) && !s.call.NoCall?
    ensures exists a: Action :: Can(s, a) && Own(a)
    ensures forall a: Action :: Can(s, a) ==>
              if Own(a) then StepsLeft(Next(s, a)) < StepsLeft(s) else StepsLeft(Next(s, a)) == StepsLeft(s)
  {
    CanGoOn(s);
    forall a: Action | Can(s, a)
      ensures if Own(a) then StepsLeft(Next(s, a)) < StepsLeft(s) else StepsLeft(Next(s, a)) == StepsLeft(s)
    {
      if Own(a) {
        OwnStepsCount(s, a);
      } else {
        GoroutinesLeaveCalls(s, a);
      }
    }
  }

  lemma CanGoOn(s: State)
    requires Inv(s) && !s.call.NoCall?
    ensures exists a: Action :: Can(s, a) && Own(a)
  {
    match s.call
    case Stale(_) => assert Can(s, CloseClient);
    case Evicted(_) => assert Can(s, DropClient);
    case Dialing(_, _) => assert Can(s, DialSucceeds);
    case Wiring(_, _) => assert Can(s, StartWatcher);
    case Publishing(_, _) => assert Can(s, Publish);
    case Removing(_) => assert Can(s, CloseClient);
    case Removed(_) => assert Can(s, DropClient);
    case Drained(_) => assert Can(s, DropClient);
    case Draining =>
      if s.registry == map[] {
        assert Can(s, EndCloseAll);
      } else {
        var n :| n in s.registry;
        assert Can(s, DrainNext(n));
      }
  }

  // ---- Connections are not shared ----

  /** Who has a connection: a client, or a goroutine that has dialed it and not yet installed it. */
  datatype Holder = OfClient(c: Id) | OfThread(t: Id)

  function Holds(s: State, h: Holder): Option<Id>
  {
    match h
    case OfClient(c) => if c in s.clients then s.clients[c].conn else None
    case OfThread(t) => if t in s.threads && s.threads[t].pc.Redialed? then Some(s.threads[t].pc.conn) else None
  }

  ghost predicate NotShared(s: State)
  {
    && (forall h :: Holds(s, h).Some? ==> Holds(s, h).value < s.nextId)
    && forall h, g :: h != g && Holds(s, h).Some? ==> Holds(s, g) != Holds(s, h)
  }

  /** Every holder had its connection before, or one holder has a new one, or one has taken over another's. */
  lemma OwnStepShares(s: State, a: Action)
    requires WellFormed(s) && Enabled(s, a) && Own(a) && NotShared(s)
    ensures NotShared(Next(s, a))
  {
    var s' := Next(s, a);
    if a.DialSucceeds? {
      forall h | Holds(s', h).Some? && h != OfClient(s.call.client) ensures Holds(s', h) == Holds(s, h) {}
    } else {
      forall h | Holds(s', h).Some? ensures Holds(s', h) == Holds(s, h) {}
    }
  }

  lemma GoroutineShares(s: State, a: Action)
    requires Inv(s) && Can(s, a) && !Own(a) && NotShared(s)
    ensures NotShared(Next(s, a))
  {
    var s', t := Next(s, a), a.t;
    assert ThreadOk(s, t);
    var c := s.threads[t].client;
    if a.Step? && s.threads[t].pc.Redialing? {
      forall h | Holds(s', h).Some? && h != OfThread(t) ensures Holds(s', h) == Holds(s, h) {}
    } else if a.Step? && s.threads[t].pc.Redialed? && !s.clients[c].closed {
      assert Holds(s', OfClient(c)) == Holds(s, OfThread(t)) && Holds(s', OfThread(t)) == None;
      forall h | Holds(s', h).Some? && h != OfClient(c) ensures Holds(s', h) == Holds(s, h) && h != OfThread(t) {}
    } else {
      forall h | Holds(s', h).Some? ensures Holds(s', h) == Holds(s, h) {}
    }
  }

  lemma {:induction false} RunShares(s: State, schedule: seq<Action>)
    requires Inv(s) && NotShared(s)
    ensures NotShared(Run(s, schedule))
    decreases |schedule|
  {
    if schedule != [] {
      var a := schedule[0];
      AfterKeepsInv(s, a);
      RunAfter(s, schedule);
      if Can(s, a) {
        if Own(a) {
          OwnStepShares(s, a);
        } else {
          GoroutineShares(s, a);
        }
      }
      RunShares(After(s, a), schedule[1..]);
    }
  }

  /** Over every schedule no two clients ever have the same connection: each dial makes its own. */
  lemma NoSharedConnections(schedule: seq<Action>, c: Id, d: Id)
    ensures var s := Run(Initial(), schedule);
            c in s.clients && d in s.clients && c != d && s.clients[c].conn.Some? ==> s.clients[d].conn != s.clients[c].conn
  {
    RunShares(Initial(), schedule);
    var s := Run(Initial(), schedule);
    assert c in s.clients && d in s.clients ==>
        Holds(s, OfClient(c)) == s.clients[c].conn && Holds(s, OfClient(d)) == s.clients[d].conn;
  }

  // ---- The reconnect delay ----

  predicate InLoop(s: State, t: Id) { t in s.threads && Backoff(s.threads[t].pc) > 0 }

  /** The sleeps that goroutine t finishes in the schedule. */
  ghost function Sleeps(s: State, schedule: seq<Action>, t: Id): nat
    decreases |schedule|
  {
    if schedule == [] then 0
    else
      (if Can(s, schedule[0]) && Wakes(s, schedule[0], t) then 1 else 0)
      + Sleeps(After(s, schedule[0]), schedule[1..], t)
  }

  /** One second, doubled after each failure, up to 32. */
  function Delay(failures: nat): nat { if failures < 5 then [1, 2, 4, 8, 16][failures] else 32 }

  /** Whether the step is t's, coming back from a sleep. */
  ghost predicate Wakes(s: State, a: Action, t: Id) { a == Step(t) && t in s.threads && s.threads[t].pc.Sleeping? }

  ghost predicate OnLoop(s: State, a: Action, s': State, t: Id)
  {
    && t < s'.nextId
    && (InLoop(s', t) ==>
          && InLoop(s, t)
          && Backoff(s'.threads[t].pc)
             == if Wakes(s, a, t) && Backoff(s.threads[t].pc) < 30
                then 2 * Backoff(s.threads[t].pc) else Backoff(s.threads[t].pc))
  }

  lemma GoroutineOnLoop(s: State, u: Id, t: Id)
    requires Inv(s) && u in s.threads && t < s.nextId
    ensures OnLoop(s, Step(u), ThreadStep(s, u), t)
  {
    assert ThreadOk(s, u);
  }

  lemma OwnOnLoop(s: State, a: Action, t: Id)
    requires WellFormed(s) && Enabled(s, a) && Own(a) && t < s.nextId
    ensures OnLoop(s, a, Next(s, a), t)
  {}

  lemma StepOnLoop(s: State, a: Action, t: Id)
    requires Inv(s) && Can(s, a) && t < s.nextId
    ensures OnLoop(s, a, Next(s, a), t)
  {
    match a
    case Step(u) => GoroutineOnLoop(s, u, t);
    case RedialFails(u) => assert ThreadOk(s, u);
    case _ => OwnOnLoop(s, a, t);
  }

  lemma {:induction false} LoopOnlyLeft(s: State, schedule: seq<Action>, t: Id)
    requires Inv(s) && t < s.nextId && InLoop(Run(s, schedule), t)
    ensures InLoop(s, t)
    decreases |schedule|
  {
    if schedule != [] {
      AfterKeepsInv(s, schedule[0]);
      RunAfter(s, schedule);
      if Can(s, schedule[0]) {
        StepOnLoop(s, schedule[0], t);
      }
      LoopOnlyLeft(After(s, schedule[0]), schedule[1..], t);
    }
  }

  /**
   Over every schedule, a goroutine still in the reconnect loop waits one second at first and twice as long
   after each sleep, up to 32.
   */
  lemma {:induction false} DelayDoubles(s: State, schedule: seq<Action>, t: Id, failures: nat)
    requires Inv(s) && InLoop(s, t) && Backoff(s.threads[t].pc) == Delay(failures)
    requires InLoop(Run(s, schedule), t)
    ensures Backoff(Run(s, schedule).threads[t].pc) == Delay(failures + Sleeps(s, schedule, t))
    decreases |schedule|
  {
    if schedule != [] {
      var s' := After(s, schedule[0]);
      AfterKeepsInv(s, schedule[0]);
      RunAfter(s, schedule);
      if Can(s, schedule[0]) {
        StepOnLoop(s, schedule[0], t);
        LoopOnlyLeft(s', schedule[1..], t);
      }
      DelayDoubles(s', schedule[1..], t, if Can(s, schedule[0]) && Wakes(s, schedule[0], t) then failures + 1 else failures);
    }
  }

  /** Each new connection is watched: the first by the goroutine that Connect starts, a later one by the loop's successor. */
  lemma NewConnectionsAreWatched(s: State, t: Id)
    requires Inv(s)
    ensures s.call.Wiring? ==> Next(s, StartWatcher).threads[s.nextId] == Thread(s.call.client, Watching)
    ensures t in s.threads && s.threads[t].pc.Rewatching? ==>
              Next(s, Step(t)).threads[s.nextId] == Thread(s.threads[t].client, Watching)
  {}

  /** The loop starts with the shortest delay. */
  lemma LoopStartsShort(s: State, t: Id)
    requires Inv(s) && t in s.threads && s.threads[t].pc.HandingOver?
    ensures InLoop(Next(s, Step(t)), s.nextId) && Backoff(Next(s, Step(t)).threads[s.nextId].pc) == Delay(0)
  {}
}
