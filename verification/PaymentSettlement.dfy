/**
 What a customer sees of a confirmation: the transaction of PaymentLedger settles the invoices one
 after the other, so paying in two instalments is the same as paying once, and the service is
 restored exactly when the payment covers everything that was due.
 */
module PaymentSettlement {
  import opened Common
  import opened BillingDomain
  import opened PaymentDomain
  import opened PaymentLedger

  // ---- The transaction settles the invoices in list order ----

  lemma AbsentFromPlan(amount: int, rows: seq<Invoice>, id: Id)
    requires forall k :: 0 <= k < |rows| ==> rows[k].id != id
    ensures AmountFor(Allocations(amount, Unsettled(rows)), id) == 0
  {
    var allocs := Allocations(amount, Unsettled(rows));
    AllocationsWithinBalances(amount, Unsettled(rows));
    UnsettledAreOutstanding(rows);
    forall k | 0 <= k < |allocs| ensures allocs[k].invoiceId != id {
      assert allocs[k] in allocs;
      var i :| 0 <= i < |Unsettled(rows)| && Unsettled(rows)[i].id == allocs[k].invoiceId;
      assert Unsettled(rows)[i] in rows;
    }
    AmountForAbsent(allocs, id);
  }

  /** What the first row takes of the payment. */
  function Share(amount: int, h: Invoice): int
  {
    if amount > 0 && Outstanding(h) && Balance(h) > 0 then Min(Balance(h), amount) else 0
  }

  lemma PlanOfFirst(amount: int, rows: seq<Invoice>)
    requires rows != []
    ensures var s := Share(amount, rows[0]);
            Allocations(amount, Unsettled(rows))
              == (if s > 0 then [Allocation(rows[0].id, s)] else []) + Allocations(amount - s, Unsettled(rows[1..]))
  {
    if Outstanding(rows[0]) {
      assert Unsettled(rows)[1..] == Unsettled(rows[1..]);
    } else {
      assert Unsettled(rows) == Unsettled(rows[1..]);
    }
  }

  lemma SettleOfFirst(amount: int, rows: seq<Invoice>)
    requires rows != []
    ensures var s := Share(amount, rows[0]);
            && Settle(amount, rows)[0] == (if s == 0 then rows[0] else Credit(rows[0], s))
            && Settle(amount, rows)[1..] == Settle(amount - s, rows[1..])
  {}

  lemma GainOfFirst(amount: int, rows: seq<Invoice>, id: Id)
    requires rows != []
    ensures var s := Share(amount, rows[0]);
            AmountFor(Allocations(amount, Unsettled(rows)), id)
              == (if id == rows[0].id then s else 0) + AmountFor(Allocations(amount - s, Unsettled(rows[1..])), id)
  {
    var s := Share(amount, rows[0]);
    var rest := Allocations(amount - s, Unsettled(rows[1..]));
    PlanOfFirst(amount, rows);
    if s > 0 {
      AmountForCons(Allocation(rows[0].id, s), rest, id);
    } else {
      assert [] + rest == rest;
    }
  }

  lemma {:induction false} SettledRow(amount: int, rows: seq<Invoice>, k: nat)
    requires DistinctIds(rows) && k < |rows|
    ensures var gain := AmountFor(Allocations(amount, Unsettled(rows)), rows[k].id);
            Settle(amount, rows)[k] == if gain == 0 then rows[k] else Credit(rows[k], gain)
  {
    var s := Share(amount, rows[0]);
    GainOfFirst(amount, rows, rows[k].id);
    SettleOfFirst(amount, rows);
    if k == 0 {
      AbsentFromPlan(amount - s, rows[1..], rows[0].id);
    } else {
      SettledRow(amount - s, rows[1..], k - 1);
    }
  }

  /** Confirm changes the listed invoices as row-by-row settlement does, and no others. */
  lemma ConfirmSettles(db: Tables, pid: Id, order: seq<Id>)
    requires pid in db.payments && Listed(db, order)
    ensures var db' := ConfirmTx(db, pid, order);
            && db'.invoices.Keys == db.invoices.Keys
            && Rows(db'.invoices, order) == Settle(db.payments[pid].amount, Rows(db.invoices, order))
            && forall i :: i in db.invoices && i !in order ==> db'.invoices[i] == db.invoices[i]
  {
    var db' := ConfirmTx(db, pid, order);
    var rows := Rows(db.invoices, order);
    PlanFits(db, pid, order);
    PostedRows(db.invoices, pid, Plan(db, pid, order));
    assert db'.invoices.Keys == db.invoices.Keys;
    forall i, j | 0 <= i < j < |rows| ensures rows[i].id != rows[j].id {
      assert order[i] in order && order[j] in order;
    }
    forall k | 0 <= k < |rows|
      ensures Rows(db'.invoices, order)[k] == Settle(db.payments[pid].amount, rows)[k]
    {
      assert order[k] in order;
      ConfirmedRow(db, pid, order, order[k]);
      SettledRow(db.payments[pid].amount, rows, k);
    }
    forall i | i in db.invoices && i !in order ensures db'.invoices[i] == db.invoices[i] {
      ConfirmedRow(db, pid, order, i);
    }
  }

  // ---- Paying in instalments ----

  lemma {:induction false} SettleNothing(amount: int, rows: seq<Invoice>)
    requires amount <= 0
    ensures Settle(amount, rows) == rows
  {
    if rows != [] {
      SettleNothing(amount, rows[1..]);
    }
  }

  lemma {:induction false} SettleSplits(a: int, b: int, rows: seq<Invoice>)
    requires a >= 0 && b >= 0
    ensures Settle(b, Settle(a, rows)) == Settle(a + b, rows)
  {
    if rows != [] {
      var h, t := rows[0], rows[1..];
      if a > 0 && Outstanding(h) && Balance(h) > 0 {
        var s := Min(Balance(h), a);
        assert Settle(a, rows)[1..] == Settle(a - s, t);
        if s == Balance(h) {
          SettleSplits(a - s, b, t);
        } else {
          var s' := Min(Balance(h) - s, b);
          SettleNothing(a - s, t);
          assert b > 0 ==> Credit(Credit(h, s), s') == Credit(h, s + s');
          if b == 0 {
            SettleNothing(b, Settle(a, rows));
          }
        }
      } else {
        assert Settle(a, rows)[1..] == Settle(a, t);
        if b > 0 && Outstanding(h) && Balance(h) > 0 {
          var s := Min(Balance(h), b);
          SettleNothing(a, t);
        } else {
          SettleSplits(a, b, t);
        }
      }
    }
  }

  lemma StillListed(db: Tables, p: Id, order: seq<Id>)
    requires p in db.payments && Listed(db, order)
    ensures Listed(ConfirmTx(db, p, order), order)
  {
    forall i | i in order ensures i in ConfirmTx(db, p, order).invoices && ConfirmTx(db, p, order).invoices[i].id == i {
      ConfirmedRow(db, p, order, i);
    }
  }

  /**
   Confirming a payment of a and then one of b leaves every invoice, its paid amount and its status,
   as one payment of a + b would.
   */
  lemma InstalmentsEqualOnePayment(db: Tables, p: Id, q: Id, whole: Id, order: seq<Id>)
    requires p in db.payments && q in db.payments && whole in db.payments && p != q && Listed(db, order)
    requires db.payments[p].amount >= 0 && db.payments[q].amount >= 0
    requires db.payments[whole].amount == db.payments[p].amount + db.payments[q].amount
    ensures var first := ConfirmTx(db, p, order);
            Listed(first, order) && ConfirmTx(first, q, order).invoices == ConfirmTx(db, whole, order).invoices
  {
    var first := ConfirmTx(db, p, order);
    var a, b := db.payments[p].amount, db.payments[q].amount;
    StillListed(db, p, order);
    assert first.payments[q] == db.payments[q];
    SettlesAs(db, p, order, a);
    SettlesAs(first, q, order, b);
    SettlesAs(db, whole, order, a + b);
    TwoStepsAsOne(db.invoices, first.invoices, ConfirmTx(first, q, order).invoices,
                  ConfirmTx(db, whole, order).invoices, order, a, b);
  }

  /** after is invoices with the listed rows settled with that amount. */
  ghost predicate Settled(invoices: map<Id, Invoice>, after: map<Id, Invoice>, order: seq<Id>, amount: int)
  {
    && (forall i :: i in order ==> i in invoices) && after.Keys == invoices.Keys
    && Rows(after, order) == Settle(amount, Rows(invoices, order))
    && forall i :: i in invoices && i !in order ==> after[i] == invoices[i]
  }

  lemma SettlesAs(db: Tables, pid: Id, order: seq<Id>, amount: int)
    requires pid in db.payments && Listed(db, order) && db.payments[pid].amount == amount
    ensures Settled(db.invoices, ConfirmTx(db, pid, order).invoices, order, amount)
  {
    ConfirmSettles(db, pid, order);
  }

  lemma TwoStepsAsOne(start: map<Id, Invoice>, first: map<Id, Invoice>, two: map<Id, Invoice>, one: map<Id, Invoice>,
                      order: seq<Id>, a: int, b: int)
    requires a >= 0 && b >= 0 && Settled(start, first, order, a) && Settled(first, two, order, b)
    requires Settled(start, one, order, a + b)
    ensures two == one
  {
    SettleSplits(a, b, Rows(start, order));
    RowsDetermine(two, one, order);
  }

  lemma RowsDetermine(two: map<Id, Invoice>, one: map<Id, Invoice>, order: seq<Id>)
    requires two.Keys == one.Keys && (forall i :: i in order ==> i in two.Keys) && Rows(two, order) == Rows(one, order)
    requires forall i :: i in two && i !in order ==> two[i] == one[i]
    ensures two == one
  {
    forall i | i in two ensures two[i] == one[i] {
      if i in order {
        var k :| 0 <= k < |order| && order[k] == i;
        assert two[i] == Rows(two, order)[k] && one[i] == Rows(one, order)[k];
      }
    }
  }

  // ---- Restoring the customer ----

  function Due(rows: seq<Invoice>): int
  {
    if rows == [] then 0
    else (if Outstanding(rows[0]) then Balance(rows[0]) else 0) + Due(rows[1..])
  }

  /** The test that Confirm makes after the transaction: every invoice that was outstanding is now paid. */
  ghost predicate AllSettled(before: seq<Invoice>, after: seq<Invoice>)
    requires |before| == |after|
  {
    forall k :: 0 <= k < |before| && Outstanding(before[k]) ==> after[k].status == InvoiceStatus.Paid
  }

  /** Every outstanding invoice has something left to pay. */
  ghost predicate AllOwing(rows: seq<Invoice>)
  {
    forall k :: 0 <= k < |rows| && Outstanding(rows[k]) ==> Balance(rows[k]) > 0 && rows[k].total > 0
  }

  lemma {:induction false} DueNonNegative(rows: seq<Invoice>)
    requires AllOwing(rows)
    ensures Due(rows) >= 0
    ensures (exists k :: 0 <= k < |rows| && Outstanding(rows[k])) ==> Due(rows) > 0
    ensures !(exists k :: 0 <= k < |rows| && Outstanding(rows[k])) ==> Due(rows) == 0
  {
    if rows != [] {
      DueNonNegative(rows[1..]);
      if k :| 0 <= k < |rows| && Outstanding(rows[k]) {
        assert k > 0 ==> rows[1..][k - 1] == rows[k];
      }
    }
  }

  lemma {:induction false} SettledExactlyWhenCovered(amount: int, rows: seq<Invoice>)
    requires amount >= 0
    ensures AllSettled(rows, Settle(amount, rows)) <==> AllOwing(rows) && amount >= Due(rows)
  {
    if rows != [] {
      var h, t := rows[0], rows[1..];
      var s := if amount > 0 && Outstanding(h) && Balance(h) > 0 then Min(Balance(h), amount) else 0;
      var after := Settle(amount, rows);
      SettledExactlyWhenCovered(amount - s, t);
      assert after[1..] == Settle(amount - s, t);
      AllSettledCons(rows, after);
      AllOwingCons(rows);
      if AllOwing(t) {
        DueNonNegative(t);
      }
    }
  }

  lemma AllSettledCons(before: seq<Invoice>, after: seq<Invoice>)
    requires |before| == |after| > 0
    ensures AllSettled(before, after) <==>
            (Outstanding(before[0]) ==> after[0].status == InvoiceStatus.Paid) && AllSettled(before[1..], after[1..])
  {
    forall k | 0 <= k < |before| ensures k > 0 ==> before[k] == before[1..][k - 1] && after[k] == after[1..][k - 1] {}
    if AllSettled(before, after) {
      forall k | 0 <= k < |before[1..]| && Outstanding(before[1..][k]) ensures after[1..][k].status == InvoiceStatus.Paid {
        assert before[k + 1] == before[1..][k];
      }
    }
  }

  lemma AllOwingCons(rows: seq<Invoice>)
    requires rows != []
    ensures AllOwing(rows) <==>
            (Outstanding(rows[0]) ==> Balance(rows[0]) > 0 && rows[0].total > 0) && AllOwing(rows[1..])
  {
    forall k | 0 <= k < |rows| ensures k > 0 ==> rows[k] == rows[1..][k - 1] {}
    if AllOwing(rows) {
      forall k | 0 <= k < |rows[1..]| && Outstanding(rows[1..][k])
        ensures Balance(rows[1..][k]) > 0 && rows[1..][k].total > 0
      {
        assert rows[k + 1] == rows[1..][k];
      }
    }
  }

  /** Confirm's restore decision over the rows that its lock query returned. */
  ghost predicate RestoreDecision(db: Tables, pid: Id, order: seq<Id>)
    requires pid in db.payments && Listed(db, order)
  {
    && Unsettled(Rows(db.invoices, order)) != []
    && forall inv :: inv in Unsettled(Rows(db.invoices, order)) ==>
         inv.id in ConfirmTx(db, pid, order).invoices
         && ConfirmTx(db, pid, order).invoices[inv.id].status == InvoiceStatus.Paid
  }

  /**
   Confirm restores the customer if and only if something was outstanding, every outstanding invoice
   had a positive balance and total, and the payment covers the sum of those balances.
   */
  lemma RestoreExactlyWhenCovered(db: Tables, pid: Id, order: seq<Id>)
    requires pid in db.payments && Listed(db, order)
    ensures var rows := Rows(db.invoices, order);
            RestoreDecision(db, pid, order) <==>
            Unsettled(rows) != [] && AllOwing(rows) && db.payments[pid].amount >= Due(rows)
  {
    var rows := Rows(db.invoices, order);
    var amount := db.payments[pid].amount;
    var after := ConfirmTx(db, pid, order).invoices;
    ConfirmSettles(db, pid, order);
    UnsettledAreOutstanding(rows);
    if Unsettled(rows) != [] {
      var inv := Unsettled(rows)[0];
      assert inv in Unsettled(rows);
      assert exists k :: 0 <= k < |rows| && Outstanding(rows[k]);
      DecisionIsAllSettled(db, pid, order);
      if amount >= 0 {
        SettledExactlyWhenCovered(amount, rows);
      } else {
        SettleNothing(amount, rows);
        assert !AllSettled(rows, Settle(amount, rows));
        if AllOwing(rows) {
          DueNonNegative(rows);
        }
      }
    }
  }

  /** The rows after the transaction, by invoice and by position. */
  lemma RowAfter(db: Tables, pid: Id, order: seq<Id>, k: nat)
    requires pid in db.payments && Listed(db, order) && k < |order|
    ensures order[k] in ConfirmTx(db, pid, order).invoices && Rows(db.invoices, order)[k].id == order[k]
    ensures ConfirmTx(db, pid, order).invoices[order[k]] == Settle(db.payments[pid].amount, Rows(db.invoices, order))[k]
  {
    ConfirmSettles(db, pid, order);
    assert order[k] in order;
    assert Rows(ConfirmTx(db, pid, order).invoices, order)[k] == ConfirmTx(db, pid, order).invoices[order[k]];
  }

  lemma DecisionIsAllSettled(db: Tables, pid: Id, order: seq<Id>)
    requires pid in db.payments && Listed(db, order) && Unsettled(Rows(db.invoices, order)) != []
    ensures RestoreDecision(db, pid, order) <==>
            AllSettled(Rows(db.invoices, order), Settle(db.payments[pid].amount, Rows(db.invoices, order)))
  {
    var rows := Rows(db.invoices, order);
    var after := ConfirmTx(db, pid, order).invoices;
    UnsettledAreOutstanding(rows);
    forall k | 0 <= k < |rows|
      ensures rows[k].id == order[k] && order[k] in after
      ensures after[order[k]] == Settle(db.payments[pid].amount, rows)[k]
    {
      RowAfter(db, pid, order, k);
    }
    if RestoreDecision(db, pid, order) {
      forall k | 0 <= k < |rows| && Outstanding(rows[k])
        ensures Settle(db.payments[pid].amount, rows)[k].status == InvoiceStatus.Paid
      {
        assert rows[k] in Unsettled(rows);
      }
    }
    if AllSettled(rows, Settle(db.payments[pid].amount, rows)) {
      forall inv | inv in Unsettled(rows)
        ensures inv.id in after && after[inv.id].status == InvoiceStatus.Paid
      {
        var k :| 0 <= k < |rows| && rows[k] == inv;
      }
    }
  }
}
