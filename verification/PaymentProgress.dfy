/**
 Confirm calls get somewhere: one that is not interrupted settles, and of calls that run at once none waits
 for ever, as the one that holds the rows can always go on.
 */
module PaymentProgress {
  import opened PaymentDomain
  import opened PaymentLedger
  import opened PaymentConcurrency

  // ---- An uninterrupted call ----

  function Posts(pid: Id, n: nat): seq<Action> { seq(n, _ => Post(pid)) }

  /** The steps of a call that nothing stops: for each allocation of its plan one post. */
  function CallOf(pid: Id, order: seq<Id>, n: nat): seq<Action>
  {
    [Validate(pid), Reread(pid), Lock(pid, order)] + Posts(pid, n) + [Commit(pid)]
  }

  lemma {:induction false} RunJoins(s: State, first: seq<Action>, rest: seq<Action>)
    ensures Run(s, first + rest) == Run(Run(s, first), rest)
    decreases |first|
  {
    if first == [] {
      assert first + rest == rest;
    } else {
      assert (first + rest)[1..] == first[1..] + rest;
      RunJoins(if Enabled(s, first[0]) then Next(s, first[0]) else s, first[1..], rest);
    }
  }

  lemma RunOne(s: State, a: Action)
    requires Enabled(s, a)
    ensures Run(s, [a]) == Next(s, a)
  {
    assert [a][1..] == [];
  }

  /** The call after its lock query and k posts. */
  function Locked(s: State, pid: Id, order: seq<Id>, k: nat): State
    requires pid in s.db.payments && (forall i :: i in order ==> i in s.db.invoices) && k <= |Plan(s.db, pid, order)|
  {
    var plan := Plan(s.db, pid, order);
    s.(locks := s.locks + map i | i in order :: pid,
       txs := s.txs[pid := Allocating(s.db.payments[pid], order, plan, k, PostAll(s.db.invoices, pid, plan[..k]))])
  }

  /** The call after it has read the payment twice. */
  function Began(s: State, pid: Id): State
    requires pid in s.db.payments
  {
    s.(txs := s.txs[pid := Begun(s.db.payments[pid])])
  }

  lemma CallBegins(s: State, pid: Id)
    requires pid in s.db.payments && CanConfirm(s.db.payments[pid]) && pid !in s.txs
    ensures Run(s, [Validate(pid), Reread(pid)]) == Began(s, pid)
  {
    var validated := Next(s, Validate(pid));
    assert Next(validated, Reread(pid)).txs == Began(s, pid).txs;
    RunOne(validated, Reread(pid));
    assert [Validate(pid), Reread(pid)][1..] == [Reread(pid)];
  }

  lemma CallLocks(s: State, pid: Id, order: seq<Id>)
    requires pid in s.db.payments && LockQuery(s.db.invoices, s.db.payments[pid].customer, order)
    requires forall i :: i in order ==> i !in s.locks
    ensures Run(Began(s, pid), [Lock(pid, order)]) == Locked(s, pid, order, 0)
  {
    assert Plan(s.db, pid, order)[..0] == [];
    assert Next(Began(s, pid), Lock(pid, order)).txs == Locked(s, pid, order, 0).txs;
    RunOne(Began(s, pid), Lock(pid, order));
  }

  lemma PostNext(s: State, pid: Id, order: seq<Id>, k: nat)
    requires pid in s.db.payments && (forall i :: i in order ==> i in s.db.invoices) && k < |Plan(s.db, pid, order)|
    ensures Enabled(Locked(s, pid, order, k), Post(pid))
    ensures Next(Locked(s, pid, order, k), Post(pid)) == Locked(s, pid, order, k + 1)
  {
    var plan := Plan(s.db, pid, order);
    assert plan[..k + 1][..k] == plan[..k];
    assert Next(Locked(s, pid, order, k), Post(pid)).txs == Locked(s, pid, order, k + 1).txs;
  }

  lemma {:induction false} CallPosts(s: State, pid: Id, order: seq<Id>, k: nat)
    requires pid in s.db.payments && (forall i :: i in order ==> i in s.db.invoices) && k <= |Plan(s.db, pid, order)|
    ensures Run(Locked(s, pid, order, 0), Posts(pid, k)) == Locked(s, pid, order, k)
  {
    if k > 0 {
      CallPosts(s, pid, order, k - 1);
      assert Posts(pid, k) == Posts(pid, k - 1) + [Post(pid)];
      RunJoins(Locked(s, pid, order, 0), Posts(pid, k - 1), [Post(pid)]);
      PostNext(s, pid, order, k - 1);
      RunOne(Locked(s, pid, order, k - 1), Post(pid));
    }
  }

  lemma CallCommits(s: State, pid: Id, order: seq<Id>)
    requires Inv(s) && pid in s.db.payments && pid !in s.txs
    requires (forall i :: i in order ==> i in s.db.invoices && i !in s.locks)
    ensures var n := |Plan(s.db, pid, order)|;
            && Enabled(Locked(s, pid, order, n), Commit(pid))
            && Next(Locked(s, pid, order, n), Commit(pid)) == s.(db := ConfirmTx(s.db, pid, order))
  {
    var plan := Plan(s.db, pid, order);
    var full, after := Locked(s, pid, order, |plan|), Next(Locked(s, pid, order, |plan|), Commit(pid));
    assert plan[..|plan|] == plan;
    forall i | i in s.locks ensures s.locks[i] != pid {
      assert s.locks[i] in s.txs;
    }
    assert after.locks == s.locks;
    assert after.txs == s.txs;
    assert after.db == ConfirmTx(s.db, pid, order);
  }

  /** A call whose rows are free and that nothing interrupts settles the payment, and leaves no lock behind. */
  lemma UninterruptedCallConfirms(s: State, pid: Id, order: seq<Id>)
    requires Inv(s) && pid in s.db.payments && CanConfirm(s.db.payments[pid]) && pid !in s.txs
    requires LockQuery(s.db.invoices, s.db.payments[pid].customer, order) && forall i :: i in order ==> i !in s.locks
    ensures Run(s, CallOf(pid, order, |Plan(s.db, pid, order)|)) == s.(db := ConfirmTx(s.db, pid, order))
  {
    var n := |Plan(s.db, pid, order)|;
    var head := [Validate(pid), Reread(pid), Lock(pid, order)];
    assert head == [Validate(pid), Reread(pid)] + [Lock(pid, order)];
    RunJoins(s, [Validate(pid), Reread(pid)], [Lock(pid, order)]);
    CallBegins(s, pid);
    CallLocks(s, pid, order);
    CallPosts(s, pid, order, n);
    CallCommits(s, pid, order);
    RunJoins(s, head, Posts(pid, n));
    RunJoins(s, head + Posts(pid, n), [Commit(pid)]);
    RunOne(Locked(s, pid, order, n), Commit(pid));
  }

  /** A payment that was decided before the second read is left alone, and the call is over. */
  lemma DecidedInBetweenEndsTheCall(s: State, pid: Id)
    requires Enabled(s, Reread(pid)) && !CanConfirm(s.db.payments[pid])
    ensures var s' := Next(s, Reread(pid)); s'.db == s.db && pid !in s'.txs
  {}

  // ---- No call waits for ever ----

  /** Only calls that have been through their lock query hold rows. */
  ghost predicate LocksAreHeld(s: State)
  {
    forall i :: i in s.locks ==> s.locks[i] in s.txs && s.txs[s.locks[i]].Allocating?
  }

  /** A call that ends gives its rows back. */
  lemma FinishKeepsHeld(s: State, pid: Id)
    requires LocksAreHeld(s)
    ensures LocksAreHeld(Finish(s, pid))
  {}

  lemma OwnStepKeepsHeld(s: State, a: Action)
    requires Inv(s) && LocksAreHeld(s) && Enabled(s, a) && (a.Validate? || a.Lock? || a.Post?)
    ensures LocksAreHeld(Next(s, a))
  {}

  lemma StepKeepsHeld(s: State, a: Action)
    requires Inv(s) && LocksAreHeld(s) && Enabled(s, a)
    ensures LocksAreHeld(Next(s, a))
  {
    match a
    case Reread(pid) =>
      if CanConfirm(s.db.payments[pid]) {
        assert forall i :: i in s.locks ==> s.locks[i] != pid;
      } else {
        FinishKeepsHeld(s, pid);
      }
    case Commit(pid) => FinishKeepsHeld(s.(db := Next(s, a).db), pid);
    case Abort(pid) => FinishKeepsHeld(s, pid);
    case Validate(_) => OwnStepKeepsHeld(s, a);
    case Lock(_, _) => OwnStepKeepsHeld(s, a);
    case Post(_) => OwnStepKeepsHeld(s, a);
    case _ =>
  }

  lemma {:induction false} RunKeepsHeld(s: State, schedule: seq<Action>)
    requires Inv(s) && LocksAreHeld(s)
    ensures Inv(Run(s, schedule)) && LocksAreHeld(Run(s, schedule))
    decreases |schedule|
  {
    if schedule != [] {
      if Enabled(s, schedule[0]) {
        StepKeepsInv(s, schedule[0]);
        StepKeepsHeld(s, schedule[0]);
        RunKeepsHeld(Next(s, schedule[0]), schedule[1..]);
      } else {
        RunKeepsHeld(s, schedule[1..]);
      }
    }
  }

  /** The steps of the call itself. */
  predicate Advances(a: Action, pid: Id) { (a.Reread? || a.Lock? || a.Post? || a.Commit?) && a.pid == pid }

  /** No call that is under way can take its next step. */
  ghost predicate AllWait(s: State)
  {
    forall a: Action, pid: Id :: Advances(a, pid) ==> !Enabled(s, a)
  }

  lemma {:induction false} SomeOrder(ids: set<Id>) returns (order: seq<Id>)
    ensures Distinct(order) && forall i :: i in order <==> i in ids
    decreases |ids|
  {
    if ids == {} {
      order := [];
    } else {
      var i :| i in ids;
      var others := SomeOrder(ids - {i});
      order := others + [i];
    }
  }

  lemma HolderGoesOn(s: State, pid: Id)
    requires Inv(s) && pid in s.txs && !s.txs[pid].Begun?
    ensures exists a: Action :: Advances(a, pid) && Enabled(s, a)
  {
    assert TxInv(s, pid);
    match s.txs[pid]
    case Validated => assert Advances(Reread(pid), pid) && Enabled(s, Reread(pid));
    case Allocating(_, _, plan, done, _) =>
      if done < |plan| {
        assert Advances(Post(pid), pid) && Enabled(s, Post(pid));
      } else {
        assert Advances(Commit(pid), pid) && Enabled(s, Commit(pid));
      }
  }

  lemma FreeRowsAreLocked(s: State, pid: Id)
    requires Inv(s) && pid in s.txs && s.txs[pid].Begun? && s.locks == map[]
    ensures exists a: Action :: Advances(a, pid) && Enabled(s, a)
  {
    var customer := s.txs[pid].p.customer;
    var order := SomeOrder(set i | i in s.db.invoices && s.db.invoices[i].customer == customer);
    assert Advances(Lock(pid, order), pid) && Enabled(s, Lock(pid, order));
  }

  /** After every schedule, as long as a call is under way some call can take its next step: there is no deadlock. */
  lemma NoDeadlock(s: State, schedule: seq<Action>)
    requires Initial(s)
    ensures AllWait(Run(s, schedule)) ==> Run(s, schedule).txs == map[]
  {
    RunKeepsHeld(s, schedule);
    var end := Run(s, schedule);
    if AllWait(end) && end.txs != map[] {
      var pid :| pid in end.txs;
      forall p | p in end.txs ensures end.txs[p].Begun? {
        if !end.txs[p].Begun? {
          HolderGoesOn(end, p);
        }
      }
      NoneHeld(end);
      FreeRowsAreLocked(end, pid);
    }
  }

  lemma NoneHeld(s: State)
    requires LocksAreHeld(s) && forall p :: p in s.txs ==> s.txs[p].Begun?
    ensures s.locks == map[]
  {
    assert s.locks.Keys == {};
  }

  /** How far a call is from its end: its phase, and the posts still to be made. */
  function Phase(tx: Tx): nat { match tx case Validated => 2 case Begun(_) => 1 case Allocating(_, _, _, _, _) => 0 }

  function PostsLeft(tx: Tx): int { if tx.Allocating? then |tx.plan| - tx.done else 0 }

  /** Each step of a call's own brings its end nearer, and no step of another or of the tables takes it back. */
  lemma EveryStepAdvances(s: State, a: Action, pid: Id)
    requires Inv(s) && Enabled(s, a) && pid in s.txs
    ensures PostsLeft(s.txs[pid]) >= 0
    ensures var s' := Next(s, a);
            if Advances(a, pid) then
              pid in s'.txs ==>
                || Phase(s'.txs[pid]) < Phase(s.txs[pid])
                || (Phase(s'.txs[pid]) == Phase(s.txs[pid]) && PostsLeft(s'.txs[pid]) < PostsLeft(s.txs[pid]))
            else
              pid in s'.txs ==> s'.txs[pid] == s.txs[pid]
  {
    assert TxInv(s, pid);
  }
}
