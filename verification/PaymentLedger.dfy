/**
 The tables that internal/service/payment_service.go writes, what one committed transaction does
 to them, and the ledger invariant that every transaction keeps.
 */
module PaymentLedger {
  import opened Common
  import opened BillingDomain
  import opened PaymentDomain

  datatype PaymentAllocation = PaymentAllocation(paymentId: Id, invoiceId: Id, amount: int)

  datatype Tables = Tables(payments: map<Id, Payment>, invoices: map<Id, Invoice>, allocations: seq<PaymentAllocation>)

  /** The ids of a customer's invoices in the order the lock query returned them: any order at all. */
  ghost predicate LockQuery(invoices: map<Id, Invoice>, customer: Id, order: seq<Id>)
  {
    && Distinct(order)
    && forall i :: i in order <==> i in invoices && invoices[i].customer == customer
  }

  predicate Outstanding(inv: Invoice) { inv.status == InvoiceStatus.Unpaid || inv.status == InvoiceStatus.Partial }

  function Credit(inv: Invoice, amount: int): Invoice
  {
    inv.(paid := inv.paid + amount, status := InvoiceStatusFromAmounts(inv.total, inv.paid + amount))
  }

  function Rows(invoices: map<Id, Invoice>, order: seq<Id>): (r: seq<Invoice>)
    requires forall i :: i in order ==> i in invoices
    ensures |r| == |order| && forall k :: 0 <= k < |r| ==> r[k] == invoices[order[k]]
  {
    seq(|order|, k requires 0 <= k < |order| => invoices[order[k]])
  }

  function Unsettled(rows: seq<Invoice>): seq<Invoice>
  {
    if rows == [] then []
    else (if Outstanding(rows[0]) then [rows[0]] else []) + Unsettled(rows[1..])
  }

  lemma {:induction false} UnsettledAreOutstanding(rows: seq<Invoice>)
    ensures forall inv :: inv in Unsettled(rows) <==> inv in rows && Outstanding(inv)
  {
    if rows != [] {
      UnsettledAreOutstanding(rows[1..]);
      assert rows == [rows[0]] + rows[1..];
    }
  }

  /** Settlement row by row: pay each outstanding invoice in turn until the money runs out. */
  function Settle(amount: int, rows: seq<Invoice>): (r: seq<Invoice>)
    ensures |r| == |rows|
    decreases |rows|
  {
    if rows == [] then []
    else if amount > 0 && Outstanding(rows[0]) && Balance(rows[0]) > 0 then
      var s := Min(Balance(rows[0]), amount);
      [Credit(rows[0], s)] + Settle(amount - s, rows[1..])
    else [rows[0]] + Settle(amount, rows[1..])
  }

  // ---- Posting allocations inside a transaction ----

  /** What a transaction has written so far: the changed invoice rows, the new allocation rows, the sum. */
  datatype Posting = Posting(written: map<Id, Invoice>, records: seq<PaymentAllocation>, total: int)

  function PostOne(base: map<Id, Invoice>, acc: Posting, pid: Id, a: Allocation): Posting
  {
    if a.invoiceId !in base then acc
    else
      var row := if a.invoiceId in acc.written then acc.written[a.invoiceId] else base[a.invoiceId];
      Posting(acc.written[a.invoiceId := Credit(row, a.amount)],
              acc.records + [PaymentAllocation(pid, a.invoiceId, a.amount)],
              acc.total + a.amount)
  }

  function PostAll(base: map<Id, Invoice>, pid: Id, allocs: seq<Allocation>): Posting
  {
    if allocs == [] then Posting(map[], [], 0)
    else PostOne(base, PostAll(base, pid, allocs[..|allocs| - 1]), pid, allocs[|allocs| - 1])
  }

  /** The amount that a list of allocations gives one invoice. */
  function AmountFor(allocs: seq<Allocation>, id: Id): int
  {
    if allocs == [] then 0
    else
      var a := allocs[|allocs| - 1];
      AmountFor(allocs[..|allocs| - 1], id) + if a.invoiceId == id then a.amount else 0
  }

  function InvoiceSum(records: seq<PaymentAllocation>, id: Id): int
  {
    if records == [] then 0
    else
      var a := records[|records| - 1];
      InvoiceSum(records[..|records| - 1], id) + if a.invoiceId == id then a.amount else 0
  }

  function PaymentSum(records: seq<PaymentAllocation>, pid: Id): int
  {
    if records == [] then 0
    else
      var a := records[|records| - 1];
      PaymentSum(records[..|records| - 1], pid) + if a.paymentId == pid then a.amount else 0
  }

  // ---- The committed effect of each transaction ----

  /** The allocations that Confirm makes when the lock query returns the invoices in this order. */
  function Plan(db: Tables, pid: Id, order: seq<Id>): seq<Allocation>
    requires pid in db.payments && forall i :: i in order ==> i in db.invoices
  {
    Allocations(db.payments[pid].amount, Unsettled(Rows(db.invoices, order)))
  }

  function ConfirmTx(db: Tables, pid: Id, order: seq<Id>): Tables
    requires pid in db.payments && forall i :: i in order ==> i in db.invoices
  {
    var posting := PostAll(db.invoices, pid, Plan(db, pid, order));
    Tables(db.payments[pid := db.payments[pid].(status := PaymentStatus.Confirmed, allocatedAmount := posting.total)],
           db.invoices + posting.written,
           db.allocations + posting.records)
  }

  function RejectTx(db: Tables, pid: Id): Tables
    requires pid in db.payments
  {
    db.(payments := db.payments[pid := db.payments[pid].(status := PaymentStatus.Rejected)])
  }

  function RefundTx(db: Tables, pid: Id, amount: int): Tables
    requires pid in db.payments
  {
    db.(payments := db.payments[pid := db.payments[pid].(status := PaymentStatus.Refunded, refundAmount := amount)])
  }

  // ---- The ledger invariant ----

  predicate Spent(p: Payment) { p.status == PaymentStatus.Confirmed || p.status == PaymentStatus.Refunded }

  /** start gives each invoice's paid amount before any allocation was recorded. */
  ghost predicate LedgerInv(db: Tables, start: map<Id, int>)
  {
    && InvoicesBalance(db, start)
    && (forall p :: p in db.payments && Spent(db.payments[p]) ==>
          && db.payments[p].allocatedAmount == PaymentSum(db.allocations, p)
          && db.payments[p].allocatedAmount <= Max(db.payments[p].amount, 0))
    && AllocationsValid(db)
  }

  /** Each invoice's paid amount is its start plus its allocations, and no allocation pushed it past the total. */
  ghost predicate InvoicesBalance(db: Tables, start: map<Id, int>)
  {
    && db.invoices.Keys == start.Keys
    && forall i :: i in db.invoices ==>
         && db.invoices[i].id == i
         && db.invoices[i].paid == start[i] + InvoiceSum(db.allocations, i)
         && db.invoices[i].paid <= Max(db.invoices[i].total, start[i])
  }

  ghost predicate NoPairTwice(xs: seq<PaymentAllocation>)
  {
    forall j, k :: 0 <= j < k < |xs| ==> xs[j].paymentId != xs[k].paymentId || xs[j].invoiceId != xs[k].invoiceId
  }

  /** Allocations are positive, join a spent payment to an invoice, and no pair is allocated twice. */
  ghost predicate AllocationsValid(db: Tables)
  {
    && (forall k :: 0 <= k < |db.allocations| ==>
          && db.allocations[k].amount > 0
          && db.allocations[k].invoiceId in db.invoices
          && db.allocations[k].paymentId in db.payments
          && Spent(db.payments[db.allocations[k].paymentId]))
    && NoPairTwice(db.allocations)
  }

  // ---- Sums ----

  lemma {:induction false} InvoiceSumAppend(xs: seq<PaymentAllocation>, ys: seq<PaymentAllocation>, id: Id)
    ensures InvoiceSum(xs + ys, id) == InvoiceSum(xs, id) + InvoiceSum(ys, id)
  {
    if ys == [] {
      assert xs + ys == xs;
    } else {
      assert (xs + ys)[..|xs + ys| - 1] == xs + ys[..|ys| - 1];
      InvoiceSumAppend(xs, ys[..|ys| - 1], id);
    }
  }

  lemma {:induction false} PaymentSumAppend(xs: seq<PaymentAllocation>, ys: seq<PaymentAllocation>, pid: Id)
    ensures PaymentSum(xs + ys, pid) == PaymentSum(xs, pid) + PaymentSum(ys, pid)
  {
    if ys == [] {
      assert xs + ys == xs;
    } else {
      assert (xs + ys)[..|xs + ys| - 1] == xs + ys[..|ys| - 1];
      PaymentSumAppend(xs, ys[..|ys| - 1], pid);
    }
  }

  lemma {:induction false} PaymentSumNone(xs: seq<PaymentAllocation>, pid: Id)
    requires forall k :: 0 <= k < |xs| ==> xs[k].paymentId != pid
    ensures PaymentSum(xs, pid) == 0
  {
    if xs != [] {
      PaymentSumNone(xs[..|xs| - 1], pid);
    }
  }

  lemma {:induction false} AmountForCons(a: Allocation, rest: seq<Allocation>, id: Id)
    ensures AmountFor([a] + rest, id) == (if a.invoiceId == id then a.amount else 0) + AmountFor(rest, id)
  {
    if rest != [] {
      assert ([a] + rest)[..|rest|] == [a] + rest[..|rest| - 1];
      AmountForCons(a, rest[..|rest| - 1], id);
    }
  }

  lemma {:induction false} AmountForAbsent(allocs: seq<Allocation>, id: Id)
    requires id !in Ids(allocs)
    ensures AmountFor(allocs, id) == 0
  {
    if allocs != [] {
      var n := |allocs| - 1;
      assert Ids(allocs)[n] == allocs[n].invoiceId;
      assert Ids(allocs[..n]) == Ids(allocs)[..n];
      AmountForAbsent(allocs[..n], id);
    }
  }

  lemma {:induction false} AmountForPresent(allocs: seq<Allocation>, k: nat)
    requires k < |allocs| && Distinct(Ids(allocs))
    ensures AmountFor(allocs, allocs[k].invoiceId) == allocs[k].amount
  {
    var n := |allocs| - 1;
    var id := allocs[k].invoiceId;
    assert Ids(allocs[..n]) == Ids(allocs)[..n];
    assert Ids(allocs)[k] == id;
    if k == n {
      AmountForAbsent(allocs[..n], id);
    } else {
      AmountForPresent(allocs[..n], k);
    }
  }

  // ---- What posting does ----

  /** Posting rewrites exactly the allocated invoices, each credited with what it was given. */
  lemma {:induction false} PostedRows(base: map<Id, Invoice>, pid: Id, allocs: seq<Allocation>)
    requires forall a :: a in allocs ==> a.invoiceId in base
    ensures var written := PostAll(base, pid, allocs).written;
            && (forall i :: i in written <==> i in Ids(allocs))
            && (forall i :: i in written ==> i in base && written[i] == Credit(base[i], AmountFor(allocs, i)))
  {
    if allocs != [] {
      var n := |allocs| - 1;
      var a := allocs[n];
      assert a in allocs;
      PostedRows(base, pid, allocs[..n]);
      var prev := PostAll(base, pid, allocs[..n]).written;
      assert Ids(allocs) == Ids(allocs[..n]) + [a.invoiceId];
      if a.invoiceId !in prev {
        AmountForAbsent(allocs[..n], a.invoiceId);
      }
    }
  }

  /** Posting records every allocation, in order, under the payment's id. */
  lemma {:induction false} PostedRecords(base: map<Id, Invoice>, pid: Id, allocs: seq<Allocation>)
    requires forall a :: a in allocs ==> a.invoiceId in base
    ensures var post := PostAll(base, pid, allocs);
            && |post.records| == |allocs|
            && (forall k :: 0 <= k < |allocs| ==>
                  post.records[k] == PaymentAllocation(pid, allocs[k].invoiceId, allocs[k].amount))
            && PaymentSum(post.records, pid) == post.total == Total(allocs)
  {
    if allocs != [] {
      var n := |allocs| - 1;
      assert allocs[n] in allocs;
      PostedRecords(base, pid, allocs[..n]);
      assert PostAll(base, pid, allocs).records[..n] == PostAll(base, pid, allocs[..n]).records;
      TotalSnoc(allocs[..n], allocs[n]);
      assert allocs[..n] + [allocs[n]] == allocs;
    }
  }

  lemma {:induction false} PostedSums(base: map<Id, Invoice>, pid: Id, allocs: seq<Allocation>, i: Id)
    requires forall a :: a in allocs ==> a.invoiceId in base
    ensures InvoiceSum(PostAll(base, pid, allocs).records, i) == AmountFor(allocs, i)
  {
    if allocs != [] {
      var n := |allocs| - 1;
      assert allocs[n] in allocs;
      PostedSums(base, pid, allocs[..n], i);
      assert PostAll(base, pid, allocs).records[..|PostAll(base, pid, allocs[..n]).records|]
          == PostAll(base, pid, allocs[..n]).records;
    }
  }

  lemma {:induction false} TotalSnoc(allocs: seq<Allocation>, a: Allocation)
    ensures Total(allocs + [a]) == Total(allocs) + a.amount
  {
    if allocs != [] {
      assert (allocs + [a])[1..] == allocs[1..] + [a];
      TotalSnoc(allocs[1..], a);
    }
  }

  // ---- The plan of a confirmation ----

  lemma {:induction false} UnsettledDistinct(rows: seq<Invoice>)
    requires DistinctIds(rows)
    ensures DistinctIds(Unsettled(rows))
  {
    if rows != [] {
      UnsettledDistinct(rows[1..]);
      UnsettledAreOutstanding(rows[1..]);
      var rest := Unsettled(rows[1..]);
      forall k | 0 <= k < |rest| ensures rest[k].id != rows[0].id {
        assert rest[k] in rest;
        var j :| 0 <= j < |rows[1..]| && rows[1..][j] == rest[k];
        assert rows[j + 1] == rest[k];
      }
    }
  }

  ghost predicate Listed(db: Tables, order: seq<Id>)
  {
    && Distinct(order)
    && forall i :: i in order ==> i in db.invoices && db.invoices[i].id == i
  }

  /** Each planned allocation fits into the balance of a listed outstanding invoice, at most one for each. */
  lemma PlanFits(db: Tables, pid: Id, order: seq<Id>)
    requires pid in db.payments && Listed(db, order)
    ensures Distinct(Ids(Plan(db, pid, order)))
    ensures forall a :: a in Plan(db, pid, order) ==>
              && a.amount > 0 && a.invoiceId in order && a.invoiceId in db.invoices
              && Outstanding(db.invoices[a.invoiceId]) && a.amount <= Balance(db.invoices[a.invoiceId])
    ensures 0 <= Total(Plan(db, pid, order)) <= Max(db.payments[pid].amount, 0)
  {
    var rows := Rows(db.invoices, order);
    forall i, j | 0 <= i < j < |rows| ensures rows[i].id != rows[j].id {
      assert order[i] in order && order[j] in order;
    }
    UnsettledDistinct(rows);
    UnsettledAreOutstanding(rows);
    var unpaid := Unsettled(rows);
    AllocationsDistinct(db.payments[pid].amount, unpaid);
    AllocationsWithinBalances(db.payments[pid].amount, unpaid);
    forall a | a in Plan(db, pid, order)
      ensures a.amount > 0 && a.invoiceId in order && Outstanding(db.invoices[a.invoiceId])
      ensures a.amount <= Balance(db.invoices[a.invoiceId])
    {
      var i :| 0 <= i < |unpaid| && unpaid[i].id == a.invoiceId && a.amount <= Balance(unpaid[i]);
      assert unpaid[i] in rows;
      var k :| 0 <= k < |rows| && rows[k] == unpaid[i];
      assert order[k] in order;
    }
  }

  /** What a confirmation does to one invoice: its row and its allocations grow by the same amount. */
  lemma ConfirmedRow(db: Tables, pid: Id, order: seq<Id>, i: Id)
    requires pid in db.payments && Listed(db, order) && i in db.invoices
    ensures var db' := ConfirmTx(db, pid, order);
            var gain := AmountFor(Plan(db, pid, order), i);
            && i in db'.invoices
            && InvoiceSum(db'.allocations, i) == InvoiceSum(db.allocations, i) + gain
            && (if gain == 0 then db'.invoices[i] == db.invoices[i]
                else && db'.invoices[i] == Credit(db.invoices[i], gain)
                     && i in order && Outstanding(db.invoices[i]) && 0 < gain <= Balance(db.invoices[i]))
  {
    var plan := Plan(db, pid, order);
    PlanFits(db, pid, order);
    PostedRows(db.invoices, pid, plan);
    PostedSums(db.invoices, pid, plan, i);
    InvoiceSumAppend(db.allocations, PostAll(db.invoices, pid, plan).records, i);
    if i in Ids(plan) {
      var k :| 0 <= k < |plan| && Ids(plan)[k] == i;
      AmountForPresent(plan, k);
      assert plan[k] in plan;
    } else {
      AmountForAbsent(plan, i);
    }
  }

  /**
   The same in amounts: an invoice's paid amount grows by the allocations it got, and its status says
   whether that reaches the total; an invoice without allocations, and all other columns, stay as they are.
   */
  lemma ConfirmedInvoice(db: Tables, pid: Id, order: seq<Id>, i: Id)
    requires pid in db.payments && Listed(db, order) && i in db.invoices
    ensures i in ConfirmTx(db, pid, order).invoices
    ensures var before, after := db.invoices[i], ConfirmTx(db, pid, order).invoices[i];
            var got := InvoiceSum(ConfirmTx(db, pid, order).allocations, i) - InvoiceSum(db.allocations, i);
            && (got > 0 ==> before.status in {InvoiceStatus.Unpaid, InvoiceStatus.Partial} && i in order)
            && got >= 0 && after == before.(paid := before.paid + got, status := after.status)
            && (got == 0 ==> after.status == before.status)
            && (got > 0 ==>
                  && (after.status == InvoiceStatus.Paid <==> 0 < after.paid && after.total <= after.paid)
                  && (after.status == InvoiceStatus.Partial <==> 0 < after.paid < after.total)
                  && (after.status == InvoiceStatus.Unpaid <==> after.paid <= 0))
  {
    ConfirmedRow(db, pid, order, i);
  }

  lemma {:induction false} TotalOfNonZero(invoices: seq<Invoice>, shares: seq<int>)
    requires |invoices| == |shares| && forall i :: 0 <= i < |shares| ==> shares[i] >= 0
    ensures Total(NonZero(invoices, shares)) == Sum(shares)
  {
    if invoices != [] {
      TotalOfNonZero(invoices[1..], shares[1..]);
      var rest := NonZero(invoices[1..], shares[1..]);
      assert shares[0] > 0 ==> NonZero(invoices, shares)[1..] == rest;
      assert shares[0] == 0 ==> NonZero(invoices, shares) == rest;
    }
  }

  /** What the unpaid and partly paid invoices among the rows still owe. */
  function StillDue(rows: seq<Invoice>): int
  {
    if rows == [] then 0
    else
      (if rows[0].status in {InvoiceStatus.Unpaid, InvoiceStatus.Partial} && rows[0].paid < rows[0].total
       then rows[0].total - rows[0].paid else 0)
      + StillDue(rows[1..])
  }

  lemma {:induction false} UnsettledOweStillDue(rows: seq<Invoice>)
    ensures Sum(Owed(Unsettled(rows))) == StillDue(rows)
  {
    if rows != [] {
      var rest := Unsettled(rows[1..]);
      UnsettledOweStillDue(rows[1..]);
      if Outstanding(rows[0]) {
        assert Unsettled(rows) == [rows[0]] + rest;
        assert Owed(Unsettled(rows))[1..] == Owed(rest);
      } else {
        assert Unsettled(rows) == rest;
      }
    }
  }

  /** The payment becomes confirmed, with all of its amount allocated that its customer's invoices can take; no other changes. */
  lemma ConfirmedPayment(db: Tables, pid: Id, order: seq<Id>)
    requires pid in db.payments && Listed(db, order)
    ensures var p := db.payments[pid];
            var owed := StillDue(Rows(db.invoices, order));
            ConfirmTx(db, pid, order).payments == db.payments[pid :=
              Payment(p.customer, p.amount, Min(Max(p.amount, 0), owed), PaymentStatus.Confirmed, p.refundAmount)]
  {
    var plan := Plan(db, pid, order);
    var unpaid := Unsettled(Rows(db.invoices, order));
    var shares := Shares(db.payments[pid].amount, Owed(unpaid));
    PlanFits(db, pid, order);
    PostedRecords(db.invoices, pid, plan);
    GreedyExists(db.payments[pid].amount, Owed(unpaid));
    AllocationsAreShares(db.payments[pid].amount, unpaid);
    TotalOfNonZero(unpaid, shares);
    UnsettledOweStillDue(Rows(db.invoices, order));
  }

  // ---- Every transaction keeps the ledger ----

  lemma ConfirmKeepsInvoices(db: Tables, start: map<Id, int>, pid: Id, order: seq<Id>)
    requires InvoicesBalance(db, start) && pid in db.payments && Listed(db, order)
    ensures InvoicesBalance(ConfirmTx(db, pid, order), start)
  {
    var db' := ConfirmTx(db, pid, order);
    ConfirmKeepsKeys(db, pid, order);
    forall i | i in db'.invoices
      ensures db'.invoices[i].id == i && i in start
      ensures db'.invoices[i].paid == start[i] + InvoiceSum(db'.allocations, i)
      ensures db'.invoices[i].paid <= Max(db'.invoices[i].total, start[i])
    {
      ConfirmedRow(db, pid, order, i);
    }
  }

  lemma AppendKeepsNoPairTwice(xs: seq<PaymentAllocation>, ys: seq<PaymentAllocation>, pid: Id)
    requires NoPairTwice(xs) && forall k :: 0 <= k < |xs| ==> xs[k].paymentId != pid
    requires forall k :: 0 <= k < |ys| ==> ys[k].paymentId == pid
    requires forall j, k :: 0 <= j < k < |ys| ==> ys[j].invoiceId != ys[k].invoiceId
    ensures NoPairTwice(xs + ys)
  {}

  /** The new records are positive and go to distinct existing invoices. */
  lemma NewRecords(db: Tables, pid: Id, order: seq<Id>) returns (records: seq<PaymentAllocation>)
    requires pid in db.payments && Listed(db, order)
    ensures ConfirmTx(db, pid, order).allocations == db.allocations + records
    ensures forall k :: 0 <= k < |records| ==>
              records[k].paymentId == pid && records[k].amount > 0 && records[k].invoiceId in db.invoices.Keys
    ensures forall j, k :: 0 <= j < k < |records| ==> records[j].invoiceId != records[k].invoiceId
  {
    var plan := Plan(db, pid, order);
    PlanFits(db, pid, order);
    PostedRecords(db.invoices, pid, plan);
    records := PostAll(db.invoices, pid, plan).records;
    forall k | 0 <= k < |records|
      ensures records[k] == PaymentAllocation(pid, plan[k].invoiceId, plan[k].amount) && plan[k] in plan
    {}
    forall j, k | 0 <= j < k < |records| ensures records[j].invoiceId != records[k].invoiceId {
      assert Ids(plan)[j] != Ids(plan)[k];
    }
  }

  lemma ConfirmKeepsKeys(db: Tables, pid: Id, order: seq<Id>)
    requires pid in db.payments && Listed(db, order)
    ensures ConfirmTx(db, pid, order).invoices.Keys == db.invoices.Keys
  {
    PlanFits(db, pid, order);
    PostedRows(db.invoices, pid, Plan(db, pid, order));
  }

  lemma ConfirmKeepsAllocations(db: Tables, pid: Id, order: seq<Id>)
    requires AllocationsValid(db) && pid in db.payments && Listed(db, order)
    requires CanConfirm(db.payments[pid])
    ensures AllocationsValid(ConfirmTx(db, pid, order))
  {
    var records := NewRecords(db, pid, order);
    ConfirmKeepsKeys(db, pid, order);
    forall k | 0 <= k < |db.allocations| ensures db.allocations[k].paymentId != pid {
      assert Spent(db.payments[db.allocations[k].paymentId]);
    }
    AppendKeepsNoPairTwice(db.allocations, records, pid);
    var db' := ConfirmTx(db, pid, order);
    forall k | 0 <= k < |db'.allocations|
      ensures db'.allocations[k].amount > 0 && db'.allocations[k].invoiceId in db'.invoices.Keys
      ensures db'.allocations[k].paymentId in db'.payments && Spent(db'.payments[db'.allocations[k].paymentId])
    {
      if k < |db.allocations| {
        assert db'.allocations[k] == db.allocations[k];
      } else {
        assert db'.allocations[k] == records[k - |db.allocations|];
      }
    }
  }

  /** A confirmation keeps the whole ledger invariant. */
  lemma ConfirmKeepsLedger(db: Tables, start: map<Id, int>, pid: Id, order: seq<Id>)
    requires LedgerInv(db, start) && pid in db.payments && Listed(db, order)
    requires CanConfirm(db.payments[pid])
    ensures LedgerInv(ConfirmTx(db, pid, order), start)
  {
    ConfirmKeepsInvoices(db, start, pid, order);
    ConfirmKeepsAllocations(db, pid, order);
    var plan := Plan(db, pid, order);
    PlanFits(db, pid, order);
    PostedRecords(db.invoices, pid, plan);
    var post := PostAll(db.invoices, pid, plan);
    var db' := ConfirmTx(db, pid, order);
    forall p | p in db'.payments && Spent(db'.payments[p])
      ensures db'.payments[p].allocatedAmount == PaymentSum(db'.allocations, p)
      ensures db'.payments[p].allocatedAmount <= Max(db'.payments[p].amount, 0)
    {
      PaymentSumAppend(db.allocations, post.records, p);
      if p == pid {
        PaymentSumNone(db.allocations, p);
      } else {
        PaymentSumNone(post.records, p);
      }
    }
  }

  /** Rejecting a pending payment and refunding a confirmed one keep it too: a refund leaves its allocations in place. */
  lemma RejectAndRefundKeepLedger(db: Tables, start: map<Id, int>, pid: Id, amount: int)
    requires LedgerInv(db, start) && pid in db.payments
    ensures CanReject(db.payments[pid]) ==> LedgerInv(RejectTx(db, pid), start)
    ensures CanRefund(db.payments[pid]) ==> LedgerInv(RefundTx(db, pid, amount), start)
  {}
}
