/**
 The router connections of pkg/mikrotik/client: the Manager's map from router names to clients, each
 client's connection with the goroutine that watches it or reconnects it, and the Manager calls that
 come in between. One Manager call at a time holds the Manager's mutex; a client's own mutex makes
 each of its reads and writes one step. The client's goroutines run at any moment.
 */
module Connections {
  import opened Common

  type Id = nat
  type Name = string

  const BASE_DELAY: nat := 1
  const MAX_DELAY: nat := 30

  datatype Client = Client(name: Name, conn: Option<Id>, closed: bool)

  /** Where a watchAsync or reconnect goroutine stands. */
  datatype Pc =
    | Watching                  // waits for the connection to fail
    | Lost                      // it failed; closed not yet read
    | Clearing                  // closed was read as false
    | HandingOver               // connection cleared; reconnect not yet started
    | Retrying(backoff: nat)    // top of the reconnect loop
    | Redialing(backoff: nat)   // closed was read as false
    | Sleeping(backoff: nat)
    | Redialed(conn: Id)        // dial succeeded; not yet installed
    | Rewatching                // installed; watchAsync not yet started

  datatype Thread = Thread(client: Id, pc: Pc)

  /** The Manager call that holds the mutex, and how far it has got. */
  datatype Call =
    | NoCall
    | Stale(name: Name)               // GetOrConnect read the cached client as disconnected
    | Evicted(name: Name)             // it has closed that client, which is still in the map
    | Dialing(name: Name, client: Id)
    | Wiring(name: Name, client: Id)  // connection stored; watchAsync not yet started
    | Publishing(name: Name, client: Id)
    | Removing(name: Name)
    | Removed(name: Name)             // Unregister has closed the client, which is still in the map
    | Draining
    | Drained(name: Name)             // CloseAll has closed this client, which is still in the map

  datatype State = State(
    clients: map<Id, Client>,
    registry: map<Name, Id>,
    threads: map<Id, Thread>,
    call: Call,
    nextId: Id)

  datatype Action =
    | BeginRegister(name: Name)
    | BeginGetOrConnect(name: Name)
    | BeginUnregister(name: Name)
    | BeginCloseAll
    | CloseClient
    | DropClient
    | DrainNext(name: Name)
    | EndCloseAll
    | DialFails
    | DialSucceeds
    | StartWatcher
    | Publish
    | Step(t: Id)        // the only thing that goroutine t can do next
    | RedialFails(t: Id) // its other outcome

  function IsConnected(c: Client): bool { c.conn.Some? && !c.closed }

  function CloseOf(c: Client): Client { c.(closed := true, conn := None) }

  ghost predicate WellFormed(s: State)
  {
    && (forall n :: n in s.registry ==> s.registry[n] in s.clients && s.clients[s.registry[n]].name == n)
    && (forall t :: t in s.threads ==> s.threads[t].client in s.clients)
    && (forall x :: x in s.clients || x in s.threads ==> x < s.nextId)
    && match s.call
       case Stale(n) => n in s.registry
       case Evicted(n) => n in s.registry && s.clients[s.registry[n]].closed
       case Removing(n) => n in s.registry
       case Removed(n) => n in s.registry && s.clients[s.registry[n]].closed
       case Drained(n) => n in s.registry && s.clients[s.registry[n]].closed
       case Dialing(n, c) => n !in s.registry && c in s.clients && s.clients[c].name == n
       case Wiring(n, c) => n !in s.registry && c in s.clients && s.clients[c].name == n
       case Publishing(n, c) => n !in s.registry && c in s.clients && s.clients[c].name == n
       case NoCall => true
       case Draining => true
  }

  ghost predicate Enabled(s: State, a: Action)
    requires WellFormed(s)
  {
    match a
    case BeginRegister(_) => s.call.NoCall?
    case BeginGetOrConnect(_) => s.call.NoCall?
    case BeginUnregister(_) => s.call.NoCall?
    case BeginCloseAll => s.call.NoCall?
    case CloseClient => s.call.Stale? || s.call.Removing?
    case DropClient => s.call.Evicted? || s.call.Removed? || s.call.Drained?
    case DrainNext(n) => s.call.Draining? && n in s.registry
    case EndCloseAll => s.call.Draining? && s.registry == map[]
    case DialFails => s.call.Dialing?
    case DialSucceeds => s.call.Dialing?
    case StartWatcher => s.call.Wiring?
    case Publish => s.call.Publishing?
    case Step(t) => t in s.threads
    case RedialFails(t) => t in s.threads && s.threads[t].pc.Redialing?
  }

  function NewClient(s: State, n: Name): State
  {
    s.(clients := s.clients[s.nextId := Client(n, None, false)], call := Dialing(n, s.nextId), nextId := s.nextId + 1)
  }

  function WithClient(s: State, c: Id, client: Client): State { s.(clients := s.clients[c := client]) }

  function WithPc(s: State, t: Id, pc: Pc): State
    requires t in s.threads
  {
    s.(threads := s.threads[t := s.threads[t].(pc := pc)])
  }

  function Exit(s: State, t: Id): State { s.(threads := s.threads - {t}) }

  /** A `go` statement: a goroutine with a new identity starts at pc. */
  function Go(s: State, c: Id, pc: Pc): State
  {
    s.(threads := s.threads[s.nextId := Thread(c, pc)], nextId := s.nextId + 1)
  }

  ghost function Next(s: State, a: Action): State
    requires WellFormed(s) && Enabled(s, a)
  {
    match a
    case BeginRegister(n) => if n in s.registry then s else NewClient(s, n)
    case BeginGetOrConnect(n) =>
      if n !in s.registry then NewClient(s, n)
      else if IsConnected(s.clients[s.registry[n]]) then s
      else s.(call := Stale(n))
    case BeginUnregister(n) => if n in s.registry then s.(call := Removing(n)) else s
    case BeginCloseAll => s.(call := Draining)
    case CloseClient =>
      var c := s.registry[s.call.name];
      WithClient(s, c, CloseOf(s.clients[c])).(call := if s.call.Stale? then Evicted(s.call.name) else Removed(s.call.name))
    case DropClient =>
      var s' := s.(registry := s.registry - {s.call.name});
      if s.call.Evicted? then NewClient(s', s.call.name)
      else s'.(call := if s.call.Drained? then Draining else NoCall)
    case DrainNext(n) =>
      var c := s.registry[n];
      WithClient(s, c, CloseOf(s.clients[c])).(call := Drained(n))
    case EndCloseAll => s.(call := NoCall)
    case DialFails => s.(clients := s.clients - {s.call.client}, call := NoCall)
    case DialSucceeds =>
      var c := s.call.client;
      WithClient(s, c, s.clients[c].(conn := Some(s.nextId))).(call := Wiring(s.call.name, c), nextId := s.nextId + 1)
    case StartWatcher => Go(s, s.call.client, Watching).(call := Publishing(s.call.name, s.call.client))
    case Publish => s.(registry := s.registry[s.call.name := s.call.client], call := NoCall)
    case Step(t) => ThreadStep(s, t)
    case RedialFails(t) => WithPc(s, t, Sleeping(s.threads[t].pc.backoff))
  }

  ghost function ThreadStep(s: State, t: Id): State
    requires WellFormed(s) && t in s.threads
  {
    var c := s.threads[t].client;
    var client := s.clients[c];
    match s.threads[t].pc
    case Watching => WithPc(s, t, Lost)
    case Lost => if client.closed then Exit(s, t) else WithPc(s, t, Clearing)
    case Clearing => WithPc(WithClient(s, c, client.(conn := None)), t, HandingOver)
    case HandingOver => Go(Exit(s, t), c, Retrying(BASE_DELAY))
    case Retrying(b) => if client.closed then Exit(s, t) else WithPc(s, t, Redialing(b))
    case Redialing(_) => WithPc(s, t, Redialed(s.nextId)).(nextId := s.nextId + 1)
    case Sleeping(b) => WithPc(s, t, Retrying(if b < MAX_DELAY then 2 * b else b))
    case Redialed(k) =>
      if client.closed then Exit(s, t)
      else WithPc(WithClient(s, c, client.(conn := Some(k))), t, Rewatching)
    case Rewatching => Go(Exit(s, t), c, Watching)
  }

  // ---- The invariant ----

  /** The call that is still setting this client up. */
  predicate SettingUp(call: Call, c: Id)
  {
    (call.Dialing? || call.Wiring? || call.Publishing?) && call.client == c
  }

  /** A client that has not been closed is the registered one of its name, or the one being set up. */
  ghost predicate Owned(s: State, c: Id)
    requires c in s.clients
  {
    s.clients[c].closed || (s.clients[c].name in s.registry && s.registry[s.clients[c].name] == c) || SettingUp(s.call, c)
  }

  /** A closed client has no connection; a client being dialed has none yet, one being wired has one. */
  ghost predicate ConnOk(s: State, c: Id)
    requires c in s.clients
  {
    var client := s.clients[c];
    && (client.closed ==> client.conn.None?)
    && (s.call.Dialing? && s.call.client == c ==> client.conn.None? && !client.closed)
    && (s.call.Wiring? && s.call.client == c ==> client.conn.Some? && !client.closed)
  }

  /** The set-up call has not yet started the client's first goroutine. */
  predicate Unwired(call: Call, c: Id)
  {
    (call.Dialing? || call.Wiring?) && call.client == c
  }

  ghost predicate HasThread(threads: map<Id, Thread>, c: Id)
  {
    exists t :: t in threads && threads[t].client == c
  }

  /** A client that is neither closed nor still being set up has a goroutine that looks after it. */
  ghost predicate Attended(s: State, c: Id)
    requires c in s.clients
  {
    && (Unwired(s.call, c) ==> !HasThread(s.threads, c))
    && (!s.clients[c].closed && !Unwired(s.call, c) ==> HasThread(s.threads, c))
  }

  ghost predicate ThreadOk(s: State, t: Id)
    requires t in s.threads && s.threads[t].client in s.clients
  {
    var client := s.clients[s.threads[t].client];
    match s.threads[t].pc
    case Watching => client.closed || client.conn.Some?
    case Lost => client.closed || client.conn.Some?
    case Clearing => client.closed || client.conn.Some?
    case HandingOver => client.conn.None?
    case Retrying(b) => client.conn.None? && 0 < b < 2 * MAX_DELAY
    case Redialing(b) => client.conn.None? && 0 < b < 2 * MAX_DELAY
    case Sleeping(b) => client.conn.None? && 0 < b < 2 * MAX_DELAY
    case Redialed(_) => client.conn.None?
    case Rewatching => client.closed || client.conn.Some?
  }

  /** A client never has two watcher or reconnect goroutines. */
  ghost predicate OneThreadEach(threads: map<Id, Thread>)
  {
    forall t, u :: t in threads && u in threads && t != u ==> threads[t].client != threads[u].client
  }

  ghost predicate Inv(s: State)
  {
    && WellFormed(s)
    && OneThreadEach(s.threads)
    && (forall c :: c in s.clients ==> Owned(s, c) && ConnOk(s, c) && Attended(s, c))
    && forall t :: t in s.threads ==> ThreadOk(s, t)
  }

  ghost function Initial(): State { State(map[], map[], map[], NoCall, 0) }

  // ---- A goroutine's own steps ----

  /** Goroutine t of client c moves on, or hands over to a new one, and may change the client's connection. */
  ghost predicate Moved(s: State, s': State, t: Id, t': Id)
    requires t in s.threads && s.threads[t].client in s.clients
  {
    var c := s.threads[t].client;
    && (t' == t || t' == s.nextId) && s'.nextId >= s.nextId && t' < s'.nextId
    && s'.registry == s.registry && s'.call == s.call
    && c in s'.clients && s'.clients == s.clients[c := s'.clients[c]]
    && s'.clients[c].name == s.clients[c].name && s'.clients[c].closed == s.clients[c].closed
    && t' in s'.threads && s'.threads == (s.threads - {t})[t' := s'.threads[t']]
    && s'.threads[t'].client == c
  }

  lemma MovedKeepsThreads(s: State, s': State, t: Id, t': Id)
    requires Inv(s) && t in s.threads && Moved(s, s', t, t')
    ensures OneThreadEach(s'.threads)
    ensures forall d :: HasThread(s'.threads, d) <==> HasThread(s.threads, d)
  {
    forall d ensures HasThread(s'.threads, d) <==> HasThread(s.threads, d) {
      if u :| u in s.threads && s.threads[u].client == d {
        assert (if u == t then t' else u) in s'.threads;
      }
      if u :| u in s'.threads && s'.threads[u].client == d {
        assert (if u == t' then t else u) in s.threads;
      }
    }
  }

  lemma MovedKeepsClients(s: State, s': State, t: Id, t': Id)
    requires Inv(s) && t in s.threads && Moved(s, s', t, t') && ConnOk(s', s.threads[t].client)
    ensures forall d :: d in s'.clients ==> Owned(s', d) && ConnOk(s', d) && Attended(s', d)
  {
    MovedKeepsThreads(s, s', t, t');
    forall d | d in s'.clients ensures Owned(s', d) && ConnOk(s', d) && Attended(s', d) {
      assert Owned(s, d) && ConnOk(s, d) && Attended(s, d);
    }
  }

  lemma MovedKeepsInv(s: State, s': State, t: Id, t': Id)
    requires Inv(s) && t in s.threads && Moved(s, s', t, t')
    requires ConnOk(s', s.threads[t].client) && ThreadOk(s', t')
    ensures Inv(s')
  {
    MovedKeepsThreads(s, s', t, t');
    MovedKeepsClients(s, s', t, t');
    forall u | u in s'.threads ensures ThreadOk(s', u) {
      if u != t' {
        assert ThreadOk(s, u) && s.threads[u].client != s.threads[t].client;
      }
    }
  }

  lemma ExitKeepsInv(s: State, t: Id)
    requires Inv(s) && t in s.threads && s.clients[s.threads[t].client].closed
    ensures Inv(Exit(s, t))
  {
    var s' := Exit(s, t);
    forall d | d in s'.clients ensures Owned(s', d) && ConnOk(s', d) && Attended(s', d) {
      assert Owned(s, d) && ConnOk(s, d) && Attended(s, d);
      if d != s.threads[t].client {
        if u :| u in s.threads && s.threads[u].client == d {
          assert u in s'.threads;
        }
      }
    }
    forall u | u in s'.threads ensures ThreadOk(s', u) {
      assert ThreadOk(s, u);
    }
  }

  predicate Exits(s: State, t: Id)
    requires t in s.threads && s.threads[t].client in s.clients
  {
    var pc := s.threads[t].pc;
    (pc.Lost? || pc.Retrying? || pc.Redialed?) && s.clients[s.threads[t].client].closed
  }

  /** The goroutine after its step: itself, or the one it has handed over to. */
  function Successor(s: State, t: Id): Id
    requires t in s.threads
  {
    if s.threads[t].pc.HandingOver? || s.threads[t].pc.Rewatching? then s.nextId else t
  }

  lemma ThreadMoves(s: State, t: Id)
    requires Inv(s) && t in s.threads && !Exits(s, t)
    ensures Moved(s, ThreadStep(s, t), t, Successor(s, t))
  {
    assert ThreadOk(s, t);
  }

  lemma ThreadStaysOk(s: State, t: Id)
    requires Inv(s) && t in s.threads && !Exits(s, t)
    ensures var s' := ThreadStep(s, t);
            && s.threads[t].client in s'.clients && Successor(s, t) in s'.threads
            && s'.threads[Successor(s, t)].client in s'.clients
            && ConnOk(s', s.threads[t].client) && ThreadOk(s', Successor(s, t))
  {
    var c := s.threads[t].client;
    assert ThreadOk(s, t) && ConnOk(s, c) && Attended(s, c);
    assert HasThread(s.threads, c);
  }

  lemma ThreadStepKeepsInv(s: State, t: Id)
    requires Inv(s) && t in s.threads
    ensures Inv(ThreadStep(s, t))
  {
    if Exits(s, t) {
      ExitKeepsInv(s, t);
    } else {
      ThreadMoves(s, t);
      ThreadStaysOk(s, t);
      MovedKeepsInv(s, ThreadStep(s, t), t, Successor(s, t));
    }
  }

  // ---- The steps of the Manager's calls ----

  /** Only the call changes, and it sets no client up before or after. */
  lemma CallMovesKeepInv(s: State, call: Call)
    requires Inv(s) && WellFormed(s.(call := call))
    requires !(s.call.Dialing? || s.call.Wiring? || s.call.Publishing? || call.Dialing? || call.Wiring? || call.Publishing?)
    ensures Inv(s.(call := call))
  {
    var s' := s.(call := call);
    forall d | d in s'.clients ensures Owned(s', d) && ConnOk(s', d) && Attended(s', d) {
      assert Owned(s, d) && ConnOk(s, d) && Attended(s, d);
    }
    forall u | u in s'.threads ensures ThreadOk(s', u) {
      assert ThreadOk(s, u);
    }
  }

  lemma CloseKeepsInv(s: State, c: Id)
    requires Inv(s) && c in s.clients
    requires !(s.call.Dialing? || s.call.Wiring? || s.call.Publishing?)
    ensures Inv(WithClient(s, c, CloseOf(s.clients[c])))
  {
    var s' := WithClient(s, c, CloseOf(s.clients[c]));
    forall d | d in s'.clients ensures Owned(s', d) && ConnOk(s', d) && Attended(s', d) {
      assert Owned(s, d) && ConnOk(s, d) && Attended(s, d);
    }
    forall u | u in s'.threads ensures ThreadOk(s', u) {
      assert ThreadOk(s, u);
    }
  }

  /** Deleting the map entry of a closed client. */
  lemma DropKeepsInv(s: State, n: Name, call: Call)
    requires Inv(s) && n in s.registry && s.clients[s.registry[n]].closed
    requires s.call.Evicted? || s.call.Removed? || s.call.Drained?
    requires call.NoCall? || call.Draining?
    ensures Inv(s.(registry := s.registry - {n}, call := call))
  {
    var s' := s.(registry := s.registry - {n}, call := call);
    forall d | d in s'.clients ensures Owned(s', d) && ConnOk(s', d) && Attended(s', d) {
      assert Owned(s, d) && ConnOk(s, d) && Attended(s, d);
    }
    forall u | u in s'.threads ensures ThreadOk(s', u) {
      assert ThreadOk(s, u);
    }
  }

  lemma NewClientKeepsInv(s: State, n: Name)
    requires Inv(s) && s.call.NoCall? && n !in s.registry
    ensures Inv(NewClient(s, n))
  {
    var s' := NewClient(s, n);
    forall d | d in s'.clients ensures Owned(s', d) && ConnOk(s', d) && Attended(s', d) {
      if d in s.clients {
        assert Owned(s, d) && ConnOk(s, d) && Attended(s, d);
      }
    }
    forall u | u in s'.threads ensures ThreadOk(s', u) {
      assert ThreadOk(s, u);
    }
  }

  lemma SetUpKeepsInv(s: State, a: Action)
    requires Inv(s) && Enabled(s, a) && (a.DialFails? || a.DialSucceeds? || a.Publish?)
    ensures Inv(Next(s, a))
  {
    var s' := Next(s, a);
    var c := s.call.client;
    assert Owned(s, c) && ConnOk(s, c) && Attended(s, c);
    forall t | t in s.threads && s.call.Dialing? ensures s.threads[t].client != c {
      assert s.threads[t].client == c ==> HasThread(s.threads, c);
    }
    forall d | d in s'.clients ensures Owned(s', d) && ConnOk(s', d) && Attended(s', d) {
      assert Owned(s, d) && ConnOk(s, d) && Attended(s, d);
    }
    forall u | u in s'.threads ensures ThreadOk(s', u) {
      assert ThreadOk(s, u);
    }
  }

  lemma StartWatcherKeepsInv(s: State)
    requires Inv(s) && s.call.Wiring?
    ensures Inv(Next(s, StartWatcher))
  {
    var s' := Next(s, StartWatcher);
    var c := s.call.client;
    assert ConnOk(s, c) && Attended(s, c);
    forall t | t in s.threads ensures s.threads[t].client != c {
      assert s.threads[t].client == c ==> HasThread(s.threads, c);
    }
    forall d | d in s'.clients ensures Owned(s', d) && ConnOk(s', d) && Attended(s', d) {
      assert Owned(s, d) && ConnOk(s, d) && Attended(s, d);
      if u :| u in s.threads && s.threads[u].client == d {
        assert s'.threads[u].client == d;
      }
      assert s'.threads[s.nextId].client == c;
    }
    forall u | u in s'.threads ensures ThreadOk(s', u) {
      if u in s.threads {
        assert ThreadOk(s, u);
      }
    }
  }

  lemma RedialFailsKeepsInv(s: State, t: Id)
    requires Inv(s) && t in s.threads && s.threads[t].pc.Redialing?
    ensures Inv(Next(s, RedialFails(t)))
  {
    assert ThreadOk(s, t) && ConnOk(s, s.threads[t].client);
    MovedKeepsInv(s, Next(s, RedialFails(t)), t, t);
  }

  /** A call begins or ends. */
  lemma CallEdgeKeepsInv(s: State, a: Action)
    requires Inv(s) && Enabled(s, a)
    requires a.BeginRegister? || a.BeginGetOrConnect? || a.BeginUnregister? || a.BeginCloseAll? || a.EndCloseAll?
    ensures Inv(Next(s, a))
  {
    match a
    case BeginRegister(n) =>
      if n !in s.registry {
        NewClientKeepsInv(s, n);
      }
    case BeginGetOrConnect(n) =>
      if n in s.registry {
        CallMovesKeepInv(s, Stale(n));
      } else {
        NewClientKeepsInv(s, n);
      }
    case BeginUnregister(n) =>
      if n in s.registry {
        CallMovesKeepInv(s, Removing(n));
      }
    case BeginCloseAll => CallMovesKeepInv(s, Draining);
    case EndCloseAll => CallMovesKeepInv(s, NoCall);
  }

  /** A call closes a registered client. */
  lemma ClosingKeepsInv(s: State, a: Action)
    requires Inv(s) && Enabled(s, a) && (a.CloseClient? || a.DrainNext?)
    ensures Inv(Next(s, a))
  {
    match a
    case CloseClient =>
      var c := s.registry[s.call.name];
      CloseKeepsInv(s, c);
      CallMovesKeepInv(WithClient(s, c, CloseOf(s.clients[c])),
                       if s.call.Stale? then Evicted(s.call.name) else Removed(s.call.name));
    case DrainNext(n) =>
      var c := s.registry[n];
      CloseKeepsInv(s, c);
      CallMovesKeepInv(WithClient(s, c, CloseOf(s.clients[c])), Drained(n));
  }

  /** A call takes a closed client out of the map, and goes on to a new one when it replaces it. */
  lemma DroppingKeepsInv(s: State)
    requires Inv(s) && Enabled(s, DropClient)
    ensures Inv(Next(s, DropClient))
  {
    var n := s.call.name;
    DropKeepsInv(s, n, if s.call.Drained? then Draining else NoCall);
    if s.call.Evicted? {
      NewClientKeepsInv(s.(registry := s.registry - {n}, call := NoCall), n);
    }
  }

  lemma StepKeepsInv(s: State, a: Action)
    requires Inv(s) && Enabled(s, a)
    ensures Inv(Next(s, a))
  {
    match a
    case Step(t) => ThreadStepKeepsInv(s, t);
    case RedialFails(t) => RedialFailsKeepsInv(s, t);
    case CloseClient => ClosingKeepsInv(s, a);
    case DrainNext(_) => ClosingKeepsInv(s, a);
    case DropClient => DroppingKeepsInv(s);
    case DialFails => SetUpKeepsInv(s, a);
    case DialSucceeds => SetUpKeepsInv(s, a);
    case StartWatcher => StartWatcherKeepsInv(s);
    case Publish => SetUpKeepsInv(s, a);
    case _ => CallEdgeKeepsInv(s, a);
  }

  // ---- Every schedule ----

  ghost predicate Can(s: State, a: Action) { WellFormed(s) && Enabled(s, a) }

  ghost function Run(s: State, schedule: seq<Action>): State
    decreases |schedule|
  {
    if schedule == [] then s
    else Run(if Can(s, schedule[0]) then Next(s, schedule[0]) else s, schedule[1..])
  }

  lemma {:induction false} RunKeepsInv(s: State, schedule: seq<Action>)
    requires Inv(s)
    ensures Inv(Run(s, schedule))
    decreases |schedule|
  {
    if schedule != [] {
      if Can(s, schedule[0]) {
        StepKeepsInv(s, schedule[0]);
        RunKeepsInv(Next(s, schedule[0]), schedule[1..]);
      } else {
        RunKeepsInv(s, schedule[1..]);
      }
    }
  }

  /** No two clients of one router name have an installed connection. */
  ghost predicate OneConnectionPerName(s: State)
  {
    forall c, d :: c in s.clients && d in s.clients && c != d && s.clients[c].name == s.clients[d].name ==>
      s.clients[c].conn.None? || s.clients[d].conn.None?
  }

  lemma InvMeansOneConnectionPerName(s: State)
    requires Inv(s)
    ensures OneConnectionPerName(s)
  {
    forall c, d | c in s.clients && d in s.clients && c != d && s.clients[c].name == s.clients[d].name
      ensures s.clients[c].conn.None? || s.clients[d].conn.None?
    {
      assert Owned(s, c) && ConnOk(s, c) && Owned(s, d) && ConnOk(s, d);
    }
  }

  /** The delay that a goroutine is using between reconnect attempts, zero if none. */
  function Backoff(pc: Pc): nat
  {
    match pc
    case Retrying(b) => b
    case Redialing(b) => b
    case Sleeping(b) => b
    case _ => 0
  }

  /**
   After every schedule: one installed connection per router name at most, one watcher or reconnect
   goroutine per client at most, one for sure for each registered client that has not been closed, and
   a reconnect delay below twice the maximum.
   */
  lemma EveryScheduleIsSafe(schedule: seq<Action>)
    ensures var s := Run(Initial(), schedule);
            && OneConnectionPerName(s)
            && OneThreadEach(s.threads)
            && (forall n :: n in s.registry && s.registry[n] in s.clients && !s.clients[s.registry[n]].closed ==>
                  HasThread(s.threads, s.registry[n]))
            && (forall t :: t in s.threads ==> Backoff(s.threads[t].pc) < 2 * MAX_DELAY)
  {
    RunKeepsInv(Initial(), schedule);
    var s := Run(Initial(), schedule);
    InvMeansOneConnectionPerName(s);
    forall n | n in s.registry && !s.clients[s.registry[n]].closed ensures HasThread(s.threads, s.registry[n]) {
      assert Attended(s, s.registry[n]);
    }
    forall t | t in s.threads ensures Backoff(s.threads[t].pc) < 2 * MAX_DELAY {
      assert ThreadOk(s, t);
    }
  }

  /**
   No step overwrites an installed connection: a client that has one and still has one afterwards has
   the same one. No step reopens a closed client or gives it a connection.
   */
  lemma StepNeverOverwrites(s: State, a: Action, c: Id)
    requires Inv(s) && Enabled(s, a) && c in s.clients
    ensures var s' := Next(s, a);
            c in s'.clients ==>
              && (s.clients[c].conn.Some? && s'.clients[c].conn.Some? ==> s'.clients[c].conn == s.clients[c].conn)
              && (s.clients[c].closed ==> s'.clients[c].closed && s'.clients[c].conn.None?)
  {
    assert ConnOk(s, c);
    if a.Step? {
      assert ThreadOk(s, a.t);
    }
  }

  /** A closed client never gets a connection again, whatever happens next. */
  lemma {:induction false} ClosedStaysClosed(s: State, schedule: seq<Action>, c: Id)
    requires Inv(s) && c in s.clients && s.clients[c].closed
    ensures var s' := Run(s, schedule); c in s'.clients && s'.clients[c].closed && s'.clients[c].conn.None?
    decreases |schedule|
  {
    assert ConnOk(s, c);
    if schedule != [] {
      if Can(s, schedule[0]) {
        StepKeepsInv(s, schedule[0]);
        StepNeverOverwrites(s, schedule[0], c);
        ClosedStaysClosed(Next(s, schedule[0]), schedule[1..], c);
      } else {
        ClosedStaysClosed(s, schedule[1..], c);
      }
    }
  }
}
