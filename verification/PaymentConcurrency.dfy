/**
 Confirm calls for different payments running at once, with payments and invoices being created,
 rejected, refunded and re-labelled meanwhile. A call is a chain of steps: the fast-fail read, the
 re-read inside the transaction, the lock query (SELECT ... FOR UPDATE, which waits until none of
 the customer's invoices is locked by another transaction), one write step for each allocation, and
 the commit or an abort. There is at most one operation in flight for each payment.
 */
module PaymentConcurrency {
  import opened BillingDomain
  import opened PaymentDomain
  import opened PaymentLedger

  datatype Tx =
    | Validated
    | Begun(p: Payment)
    | Allocating(p: Payment, order: seq<Id>, plan: seq<Allocation>, done: nat, posting: Posting)

  /** start remembers each invoice's paid amount at creation; locks maps a locked invoice row to its transaction. */
  datatype State = State(db: Tables, start: map<Id, int>, locks: map<Id, Id>, txs: map<Id, Tx>)

  datatype Action =
    | Validate(pid: Id)
    | Reread(pid: Id)
    | Lock(pid: Id, order: seq<Id>)
    | Post(pid: Id)
    | Commit(pid: Id)
    | Abort(pid: Id)
    | CreatePayment(pid: Id, customer: Id, amount: int)
    | CreateInvoice(inv: Invoice)
    | Reject(pid: Id)
    | Refund(pid: Id, amount: int)
    | SetInvoiceStatus(id: Id, status: InvoiceStatus)

  ghost predicate Enabled(s: State, a: Action)
  {
    match a
    case Validate(pid) => pid in s.db.payments && CanConfirm(s.db.payments[pid]) && pid !in s.txs
    case Reread(pid) => pid in s.txs && s.txs[pid].Validated? && pid in s.db.payments
    case Lock(pid, order) =>
      && pid in s.txs && s.txs[pid].Begun?
      && LockQuery(s.db.invoices, s.txs[pid].p.customer, order)
      && (forall i :: i in order ==> i !in s.locks)
    case Post(pid) => pid in s.txs && s.txs[pid].Allocating? && s.txs[pid].done < |s.txs[pid].plan|
    case Commit(pid) => pid in s.txs && s.txs[pid].Allocating? && s.txs[pid].done == |s.txs[pid].plan|
    case Abort(pid) => pid in s.txs
    case CreatePayment(pid, _, _) => pid !in s.db.payments
    case CreateInvoice(inv) => inv.id !in s.db.invoices
    case Reject(pid) => pid in s.db.payments && CanReject(s.db.payments[pid]) && pid !in s.txs
    case Refund(pid, _) => pid in s.db.payments && CanRefund(s.db.payments[pid]) && pid !in s.txs
    case SetInvoiceStatus(id, _) => id in s.db.invoices && id !in s.locks
  }

  function Release(locks: map<Id, Id>, pid: Id): map<Id, Id>
  {
    map i | i in locks && locks[i] != pid :: locks[i]
  }

  ghost function Finish(s: State, pid: Id): State
  {
    s.(locks := Release(s.locks, pid), txs := s.txs - {pid})
  }

  ghost function Next(s: State, a: Action): State
    requires Enabled(s, a)
  {
    match a
    case Validate(pid) => s.(txs := s.txs[pid := Validated])
    case Reread(pid) =>
      if CanConfirm(s.db.payments[pid]) then s.(txs := s.txs[pid := Begun(s.db.payments[pid])]) else Finish(s, pid)
    case Lock(pid, order) =>
      var p := s.txs[pid].p;
      var plan := Allocations(p.amount, Unsettled(Rows(s.db.invoices, order)));
      s.(locks := s.locks + map i | i in order :: pid,
         txs := s.txs[pid := Allocating(p, order, plan, 0, Posting(map[], [], 0))])
    case Post(pid) =>
      var tx := s.txs[pid];
      s.(txs := s.txs[pid := tx.(done := tx.done + 1,
                                 posting := PostOne(s.db.invoices, tx.posting, pid, tx.plan[tx.done]))])
    case Commit(pid) =>
      var tx := s.txs[pid];
      var p := tx.p.(status := PaymentStatus.Confirmed, allocatedAmount := tx.posting.total);
      Finish(s.(db := Tables(s.db.payments[pid := p],
                             s.db.invoices + tx.posting.written,
                             s.db.allocations + tx.posting.records)), pid)
    case Abort(pid) => Finish(s, pid)
    case CreatePayment(pid, customer, amount) =>
      s.(db := s.db.(payments := s.db.payments[pid := Payment(customer, amount, 0, PaymentStatus.Pending, 0)]))
    case CreateInvoice(inv) =>
      s.(db := s.db.(invoices := s.db.invoices[inv.id := inv]), start := s.start[inv.id := inv.paid])
    case Reject(pid) => s.(db := RejectTx(s.db, pid))
    case Refund(pid, amount) => s.(db := RefundTx(s.db, pid, amount))
    case SetInvoiceStatus(id, status) =>
      s.(db := s.db.(invoices := s.db.invoices[id := s.db.invoices[id].(status := status)]))
  }

  /** A schedule is any sequence of actions; those not enabled when their turn comes do nothing. */
  ghost function Run(s: State, schedule: seq<Action>): State
    decreases |schedule|
  {
    if schedule == [] then s
    else Run(if Enabled(s, schedule[0]) then Next(s, schedule[0]) else s, schedule[1..])
  }

  // ---- The invariant ----

  ghost predicate TxInv(s: State, pid: Id)
    requires pid in s.txs
  {
    && pid in s.db.payments && CanConfirm(s.db.payments[pid])
    && match s.txs[pid]
       case Validated => true
       case Begun(p) => p == s.db.payments[pid]
       case Allocating(p, order, plan, done, posting) =>
         && p == s.db.payments[pid]
         && Listed(s.db, order)
         && (forall i :: i in order ==> i in s.locks && s.locks[i] == pid)
         && plan == Plan(s.db, pid, order)
         && done <= |plan|
         && posting == PostAll(s.db.invoices, pid, plan[..done])
  }

  ghost predicate Inv(s: State)
  {
    && LedgerInv(s.db, s.start)
    && (forall i :: i in s.locks ==> i in s.db.invoices && s.locks[i] in s.txs)
    && forall pid :: pid in s.txs ==> TxInv(s, pid)
  }

  ghost predicate Initial(s: State)
  {
    LedgerInv(s.db, s.start) && s.locks == map[] && s.txs == map[]
  }

  // ---- Frames: a transaction only depends on its payment and on the rows it has locked ----

  lemma {:induction false} PostAllFrame(base: map<Id, Invoice>, base': map<Id, Invoice>, pid: Id, allocs: seq<Allocation>)
    requires forall a :: a in allocs ==>
               a.invoiceId in base && a.invoiceId in base' && base[a.invoiceId] == base'[a.invoiceId]
    ensures PostAll(base, pid, allocs) == PostAll(base', pid, allocs)
  {
    if allocs != [] {
      assert allocs[|allocs| - 1] in allocs;
      PostAllFrame(base, base', pid, allocs[..|allocs| - 1]);
    }
  }

  /** If another step leaves the payment and the locked rows alone, the transaction's invariant survives it. */
  lemma TxFrame(s: State, s': State, pid: Id)
    requires pid in s.txs && TxInv(s, pid) && pid in s'.txs && s'.txs[pid] == s.txs[pid]
    requires pid in s'.db.payments && s'.db.payments[pid] == s.db.payments[pid]
    requires forall i :: i in s.locks && s.locks[i] == pid && i in s.db.invoices ==>
               && i in s'.locks && s'.locks[i] == pid
               && i in s'.db.invoices && s'.db.invoices[i] == s.db.invoices[i]
    ensures TxInv(s', pid)
  {
    var tx := s.txs[pid];
    if tx.Allocating? {
      assert Rows(s.db.invoices, tx.order) == Rows(s'.db.invoices, tx.order);
      PlanFits(s.db, pid, tx.order);
      var posted := tx.plan[..tx.done];
      forall a | a in posted
        ensures a.invoiceId in s.db.invoices && a.invoiceId in s'.db.invoices
        ensures s.db.invoices[a.invoiceId] == s'.db.invoices[a.invoiceId]
      {
        assert a in tx.plan;
      }
      PostAllFrame(s.db.invoices, s'.db.invoices, pid, posted);
    }
  }

  // ---- Each commit is one atomic confirmation ----

  /** The committed tables after an action: what the action would do on its own, with nothing else running. */
  ghost function Atomically(s: State, a: Action): Tables
    requires Inv(s) && Enabled(s, a)
  {
    match a
    case Commit(pid) => ConfirmTx(s.db, pid, s.txs[pid].order)
    case CreatePayment(pid, customer, amount) =>
      s.db.(payments := s.db.payments[pid := Payment(customer, amount, 0, PaymentStatus.Pending, 0)])
    case CreateInvoice(inv) => s.db.(invoices := s.db.invoices[inv.id := inv])
    case Reject(pid) => RejectTx(s.db, pid)
    case Refund(pid, amount) => RefundTx(s.db, pid, amount)
    case SetInvoiceStatus(id, status) => s.db.(invoices := s.db.invoices[id := s.db.invoices[id].(status := status)])
    case _ => s.db
  }

  /**
   However the calls interleave, the committed tables only ever change by whole atomic operations:
   a commit has exactly the effect of an uninterrupted Confirm on the tables it commits into, although
   its allocations were computed from rows read earlier.
   */
  lemma StepRefinesAtomic(s: State, a: Action)
    requires Inv(s) && Enabled(s, a)
    ensures Next(s, a).db == Atomically(s, a)
    ensures a.Commit? ==> Listed(s.db, s.txs[a.pid].order) && CanConfirm(s.db.payments[a.pid])
  {
    if a.Commit? {
      var tx := s.txs[a.pid];
      assert TxInv(s, a.pid);
      assert tx.plan[..tx.done] == tx.plan;
    }
  }

  // ---- The invariant is kept ----

  lemma NewPaymentKeepsLedger(db: Tables, start: map<Id, int>, pid: Id, p: Payment)
    requires LedgerInv(db, start) && pid !in db.payments && CanConfirm(p)
    ensures LedgerInv(db.(payments := db.payments[pid := p]), start)
  {}

  lemma RelabelKeepsLedger(db: Tables, start: map<Id, int>, id: Id, status: InvoiceStatus)
    requires LedgerInv(db, start) && id in db.invoices
    ensures LedgerInv(db.(invoices := db.invoices[id := db.invoices[id].(status := status)]), start)
  {}

  lemma {:induction false} LedgerStep(s: State, a: Action)
    requires Inv(s) && Enabled(s, a)
    ensures LedgerInv(Next(s, a).db, Next(s, a).start)
  {
    StepRefinesAtomic(s, a);
    match a
    case Commit(pid) => ConfirmKeepsLedger(s.db, s.start, pid, s.txs[pid].order);
    case CreatePayment(pid, customer, amount) =>
      NewPaymentKeepsLedger(s.db, s.start, pid, Payment(customer, amount, 0, PaymentStatus.Pending, 0));
    case CreateInvoice(inv) => NewInvoiceKeepsLedger(s.db, s.start, inv);
    case Reject(pid) => RejectAndRefundKeepLedger(s.db, s.start, pid, 0);
    case Refund(pid, amount) => RejectAndRefundKeepLedger(s.db, s.start, pid, amount);
    case SetInvoiceStatus(id, status) => RelabelKeepsLedger(s.db, s.start, id, status);
    case _ =>
  }

  lemma {:induction false} InvoiceSumNone(xs: seq<PaymentAllocation>, i: Id)
    requires forall k :: 0 <= k < |xs| ==> xs[k].invoiceId != i
    ensures InvoiceSum(xs, i) == 0
  {
    if xs != [] {
      InvoiceSumNone(xs[..|xs| - 1], i);
    }
  }

  lemma NewInvoiceKeepsLedger(db: Tables, start: map<Id, int>, inv: Invoice)
    requires LedgerInv(db, start) && inv.id !in db.invoices
    ensures LedgerInv(db.(invoices := db.invoices[inv.id := inv]), start[inv.id := inv.paid])
  {
    InvoiceSumNone(db.allocations, inv.id);
  }

  /** A commit writes only rows that it has locked. */
  lemma CommitWritesLocked(s: State, pid: Id)
    requires Inv(s) && Enabled(s, Commit(pid))
    ensures forall i :: i in s.txs[pid].posting.written ==> i in s.locks && s.locks[i] == pid
  {
    var tx := s.txs[pid];
    assert TxInv(s, pid);
    PlanFits(s.db, pid, tx.order);
    assert tx.plan[..tx.done] == tx.plan;
    PostedRows(s.db.invoices, pid, tx.plan);
    forall i | i in tx.posting.written ensures i in s.locks && s.locks[i] == pid {
      var k :| 0 <= k < |tx.plan| && Ids(tx.plan)[k] == i;
      assert tx.plan[k] in tx.plan && tx.plan[k].invoiceId == i;
    }
  }

  predicate ActsFor(a: Action, pid: Id)
  {
    (a.Validate? || a.Reread? || a.Lock? || a.Post? || a.Commit? || a.Abort?) && a.pid == pid
  }

  lemma CommitKeepsOthers(s: State, committed: Id, pid: Id)
    requires Inv(s) && Enabled(s, Commit(committed)) && pid in s.txs && pid != committed
    ensures pid in Next(s, Commit(committed)).txs && TxInv(Next(s, Commit(committed)), pid)
  {
    assert TxInv(s, pid);
    CommitWritesLocked(s, committed);
    TxFrame(s, Next(s, Commit(committed)), pid);
  }

  lemma OthersKept(s: State, a: Action, pid: Id)
    requires Inv(s) && Enabled(s, a) && pid in s.txs && !ActsFor(a, pid)
    ensures pid in Next(s, a).txs && TxInv(Next(s, a), pid)
  {
    if a.Commit? {
      CommitKeepsOthers(s, a.pid, pid);
    } else {
      assert TxInv(s, pid);
      TxFrame(s, Next(s, a), pid);
    }
  }

  lemma OwnKept(s: State, a: Action)
    requires Inv(s) && Enabled(s, a)
    requires a.Validate? || a.Reread? || a.Lock? || a.Post?
    ensures a.pid in Next(s, a).txs ==> TxInv(Next(s, a), a.pid)
  {
    match a
    case Validate(_) =>
    case Reread(pid) => assert TxInv(s, pid);
    case Lock(pid, order) =>
      assert TxInv(s, pid);
      assert Listed(s.db, order);
      assert Next(s, a).txs[pid].plan[..0] == [];
    case Post(pid) =>
      assert TxInv(s, pid);
      var tx := s.txs[pid];
      assert tx.plan[..tx.done + 1][..tx.done] == tx.plan[..tx.done];
  }

  lemma LocksKept(s: State, a: Action)
    requires Inv(s) && Enabled(s, a)
    ensures var s' := Next(s, a); forall i :: i in s'.locks ==> i in s'.db.invoices && s'.locks[i] in s'.txs
  {}

  lemma StepKeepsInv(s: State, a: Action)
    requires Inv(s) && Enabled(s, a)
    ensures Inv(Next(s, a))
  {
    LedgerStep(s, a);
    LocksKept(s, a);
    var s' := Next(s, a);
    forall pid | pid in s'.txs ensures TxInv(s', pid) {
      if ActsFor(a, pid) {
        OwnKept(s, a);
      } else {
        OthersKept(s, a, pid);
      }
    }
  }

  lemma {:induction false} RunKeepsInv(s: State, schedule: seq<Action>)
    requires Inv(s)
    ensures Inv(Run(s, schedule))
    decreases |schedule|
  {
    if schedule != [] {
      if Enabled(s, schedule[0]) {
        StepKeepsInv(s, schedule[0]);
        RunKeepsInv(Next(s, schedule[0]), schedule[1..]);
      } else {
        RunKeepsInv(s, schedule[1..]);
      }
    }
  }

  /** From consistent tables with no call under way, the ledger invariant holds after every schedule. */
  lemma EveryInterleavingKeepsTheLedger(s: State, schedule: seq<Action>)
    requires Initial(s)
    ensures LedgerInv(Run(s, schedule).db, Run(s, schedule).start)
  {
    RunKeepsInv(s, schedule);
  }

  // ---- A decided payment is never allocated again ----

  function RecordsOf(xs: seq<PaymentAllocation>, pid: Id): seq<PaymentAllocation>
  {
    if xs == [] then []
    else RecordsOf(xs[..|xs| - 1], pid) + if xs[|xs| - 1].paymentId == pid then [xs[|xs| - 1]] else []
  }

  lemma {:induction false} RecordsOfAppend(xs: seq<PaymentAllocation>, ys: seq<PaymentAllocation>, pid: Id)
    requires forall k :: 0 <= k < |ys| ==> ys[k].paymentId != pid
    ensures RecordsOf(xs + ys, pid) == RecordsOf(xs, pid)
  {
    if ys == [] {
      assert xs + ys == xs;
    } else {
      assert (xs + ys)[..|xs + ys| - 1] == xs + ys[..|ys| - 1];
      RecordsOfAppend(xs, ys[..|ys| - 1], pid);
    }
  }

  lemma StepLeavesDecided(s: State, a: Action, pid: Id)
    requires Inv(s) && Enabled(s, a)
    requires pid in s.db.payments && !CanConfirm(s.db.payments[pid])
    ensures var s' := Next(s, a);
            && pid in s'.db.payments && !CanConfirm(s'.db.payments[pid])
            && s'.db.payments[pid].allocatedAmount == s.db.payments[pid].allocatedAmount
            && RecordsOf(s'.db.allocations, pid) == RecordsOf(s.db.allocations, pid)
  {
    if a.Commit? {
      var tx := s.txs[a.pid];
      assert TxInv(s, a.pid);
      PlanFits(s.db, a.pid, tx.order);
      forall al | al in tx.plan[..tx.done] ensures al in tx.plan {}
      PostedRecords(s.db.invoices, a.pid, tx.plan[..tx.done]);
      RecordsOfAppend(s.db.allocations, tx.posting.records, pid);
    }
  }

  /**
   Once a payment has been confirmed, rejected or refunded, no schedule of further calls, repeated
   webhook deliveries for it among them, adds, removes or changes one of its allocations.
   */
  lemma {:induction false} DecidedPaymentIsFrozen(s: State, schedule: seq<Action>, pid: Id)
    requires Inv(s) && pid in s.db.payments && !CanConfirm(s.db.payments[pid])
    ensures var s' := Run(s, schedule);
            && pid in s'.db.payments && !CanConfirm(s'.db.payments[pid])
            && s'.db.payments[pid].allocatedAmount == s.db.payments[pid].allocatedAmount
            && RecordsOf(s'.db.allocations, pid) == RecordsOf(s.db.allocations, pid)
    decreases |schedule|
  {
    if schedule != [] {
      if Enabled(s, schedule[0]) {
        StepKeepsInv(s, schedule[0]);
        StepLeavesDecided(s, schedule[0], pid);
        DecidedPaymentIsFrozen(Next(s, schedule[0]), schedule[1..], pid);
      } else {
        DecidedPaymentIsFrozen(s, schedule[1..], pid);
      }
    }
  }
}
