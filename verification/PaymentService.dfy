/**
 PaymentService of internal/service/payment_service.go over stored tables. A transaction works on
 local copies and publishes them when it commits; fault says which of its writes the database
 refuses, counting from zero (a number past the last write means that none fails).
 */
module PaymentService {
  import opened Common
  import opened BillingDomain
  import opened PaymentDomain
  import opened PaymentLedger
  import opened PaymentSettlement

  datatype Error = NotFound | NotPending | NotConfirmed | StoreFailed | UnhandledStatus

  datatype WebhookStatus = WebhookConfirmed | WebhookRejected | WebhookPending | WebhookOther

  class PaymentService {
    var payments: map<Id, Payment>
    var invoices: map<Id, Invoice>
    var allocations: seq<PaymentAllocation>
    /** The customers passed to RestoreAllSubscriptions so far. */
    var restored: seq<Id>

    ghost function Db(): Tables
      reads this
    {
      Tables(payments, invoices, allocations)
    }

    ghost predicate Valid()
      reads this
    {
      forall i :: i in invoices ==> invoices[i].id == i
    }

    constructor (payments: map<Id, Payment>, invoices: map<Id, Invoice>)
      requires forall i :: i in invoices ==> invoices[i].id == i
      ensures Valid() && Db() == Tables(payments, invoices, []) && restored == []
    {
      this.payments, this.invoices, this.allocations, this.restored := payments, invoices, [], [];
    }

    method Confirm(pid: Id, order: seq<Id>, fault: nat) returns (r: Result<(), Error>)
      requires Valid()
      requires pid in payments ==> LockQuery(invoices, payments[pid].customer, order)
      modifies this
      ensures Valid()
      ensures r.Err? ==> Db() == old(Db()) && restored == old(restored)
      ensures pid !in old(payments) <==> r == Err(NotFound)
      ensures (pid in old(payments) && !CanConfirm(old(payments)[pid])) <==> r == Err(NotPending)
      ensures pid in old(payments) && CanConfirm(old(payments)[pid]) ==>
                && Listed(old(Db()), order)
                && (r.Ok? <==> fault > 2 * |Plan(old(Db()), pid, order)|)
      ensures r.Ok? ==>
                && Db() == ConfirmTx(old(Db()), pid, order)
                && restored == old(restored) +
                     if RestoreDecision(old(Db()), pid, order) then [old(payments)[pid].customer] else []
    {
      if pid !in payments {
        return Err(NotFound);
      }
      var p := payments[pid];
      if !CanConfirm(p) {
        return Err(NotPending);
      }
      forall i | i in order ensures i in invoices && invoices[i].id == i {}
      PlanFits(Db(), pid, order);
      ConfirmKeepsIds(Db(), pid, order);
      var unpaid := SelectUnpaid(Rows(invoices, order));
      var plan := CalculateAllocations(p.amount, unpaid);
      var posting := PostAllocations(invoices, pid, plan, fault);
      if posting.None? || fault == 2 * |plan| {
        return Err(StoreFailed);
      }
      payments := payments[pid := p.(status := PaymentStatus.Confirmed, allocatedAmount := posting.value.total)];
      invoices := invoices + posting.value.written;
      allocations := allocations + posting.value.records;
      assert Db() == ConfirmTx(old(Db()), pid, order);
      if |unpaid| > 0 {
        var allPaid := AllPaid(unpaid);
        if allPaid {
          restored := restored + [p.customer];
        }
      }
      r := Ok(());
    }

    /** Re-reads the invoices that were outstanding and reports whether each is paid. */
    method AllPaid(unpaid: seq<Invoice>) returns (allPaid: bool)
      requires forall inv :: inv in unpaid ==> inv.id in invoices
      ensures allPaid <==> forall inv :: inv in unpaid ==> invoices[inv.id].status == InvoiceStatus.Paid
    {
      allPaid := true;
      var k := 0;
      while k < |unpaid|
        invariant 0 <= k <= |unpaid|
        invariant forall j :: 0 <= j < k ==> invoices[unpaid[j].id].status == InvoiceStatus.Paid
      {
        if invoices[unpaid[k].id].status != InvoiceStatus.Paid {
          return false;
        }
        k := k + 1;
      }
    }

    method Reject(pid: Id, fault: bool) returns (r: Result<(), Error>)
      requires Valid()
      modifies this
      ensures Valid() && restored == old(restored)
      ensures r.Err? ==> Db() == old(Db())
      ensures r.Ok? <==> pid in old(payments) && CanReject(old(payments)[pid]) && !fault
      ensures r.Ok? ==> Db() == RejectTx(old(Db()), pid)
    {
      if pid !in payments {
        return Err(NotFound);
      }
      var p := payments[pid];
      if !CanReject(p) {
        return Err(NotPending);
      }
      p := p.(status := PaymentStatus.Rejected);
      if fault {
        return Err(StoreFailed);
      }
      payments := payments[pid := p];
      r := Ok(());
    }

    method Refund(pid: Id, amount: int, fault: bool) returns (r: Result<(), Error>)
      requires Valid()
      modifies this
      ensures Valid() && restored == old(restored)
      ensures r.Err? ==> Db() == old(Db())
      ensures r.Ok? <==> pid in old(payments) && CanRefund(old(payments)[pid]) && !fault
      ensures r.Ok? ==> Db() == RefundTx(old(Db()), pid, amount)
    {
      if pid !in payments {
        return Err(NotFound);
      }
      var p := payments[pid];
      if !CanRefund(p) {
        return Err(NotConfirmed);
      }
      p := p.(status := PaymentStatus.Refunded, refundAmount := amount);
      if fault {
        return Err(StoreFailed);
      }
      payments := payments[pid := p];
      r := Ok(());
    }

    /**
     One delivery of a gateway event. A delivery about a payment that is no longer pending, such as
     a repeated one, changes nothing.
     */
    method HandleGatewayWebhook(pid: Id, status: WebhookStatus, order: seq<Id>, fault: nat) returns (r: Result<(), Error>)
      requires Valid()
      requires pid in payments ==> LockQuery(invoices, payments[pid].customer, order)
      modifies this
      ensures Valid()
      ensures r.Err? ==> Db() == old(Db()) && restored == old(restored)
      ensures pid in old(payments) && old(payments)[pid].status != PaymentStatus.Pending ==>
                Db() == old(Db()) && restored == old(restored)
      ensures status == WebhookPending ==> r.Ok? && Db() == old(Db()) && restored == old(restored)
      ensures status == WebhookConfirmed ==>
                (r.Ok? <==> pid in old(payments) && CanConfirm(old(payments)[pid]) && Listed(old(Db()), order)
                            && fault > 2 * |Plan(old(Db()), pid, order)|)
      ensures status == WebhookConfirmed && pid in old(payments) ==> Listed(old(Db()), order)
      ensures r.Ok? && status == WebhookConfirmed ==>
                && Db() == ConfirmTx(old(Db()), pid, order)
                && restored == old(restored) +
                     if RestoreDecision(old(Db()), pid, order) then [old(payments)[pid].customer] else []
      ensures status == WebhookRejected ==>
                (r.Ok? <==> pid in old(payments) && CanReject(old(payments)[pid]) && fault != 0)
      ensures r.Ok? && status == WebhookRejected ==>
                pid in old(payments) && Db() == RejectTx(old(Db()), pid) && restored == old(restored)
      ensures status == WebhookOther ==> r == Err(UnhandledStatus)
    {
      match status
      case WebhookConfirmed => r := Confirm(pid, order, fault);
      case WebhookRejected => r := Reject(pid, fault == 0);
      case WebhookPending => r := Ok(());
      case WebhookOther => r := Err(UnhandledStatus);
    }
  }

  /** The allocation loop of Confirm inside its transaction: two writes for each allocation. */
  method PostAllocations(base: map<Id, Invoice>, pid: Id, plan: seq<Allocation>, fault: nat) returns (r: Option<Posting>)
    requires forall a :: a in plan ==> a.invoiceId in base
    ensures r.Some? <==> fault >= 2 * |plan|
    ensures r.Some? ==> r.value == PostAll(base, pid, plan)
  {
    var written: map<Id, Invoice> := map[];
    var records: seq<PaymentAllocation> := [];
    var totalAllocated := 0;
    var k := 0;
    while k < |plan|
      invariant 0 <= k <= |plan| && fault >= 2 * k
      invariant PostAll(base, pid, plan[..k]) == Posting(written, records, totalAllocated)
    {
      var alloc := plan[k];
      assert plan[..k + 1][..k] == plan[..k];
      var inv := if alloc.invoiceId in written then written[alloc.invoiceId] else base[alloc.invoiceId];
      if fault == 2 * k {
        return None;
      }
      records := records + [PaymentAllocation(pid, alloc.invoiceId, alloc.amount)];
      inv := inv.(paid := inv.paid + alloc.amount);
      var newStatus := InvoiceStatusFromAmounts(inv.total, inv.paid);
      if fault == 2 * k + 1 {
        return None;
      }
      written := written[alloc.invoiceId := inv.(status := newStatus)];
      totalAllocated := totalAllocated + alloc.amount;
      k := k + 1;
    }
    assert plan[..k] == plan;
    r := Some(Posting(written, records, totalAllocated));
  }

  lemma UnsettledNext(rows: seq<Invoice>, k: nat)
    requires k < |rows|
    ensures Unsettled(rows[k..]) == (if Outstanding(rows[k]) then [rows[k]] else []) + Unsettled(rows[k + 1..])
  {
    assert rows[k..][0] == rows[k] && rows[k..][1..] == rows[k + 1..];
  }

  /** The filter loop of Confirm. */
  method SelectUnpaid(rows: seq<Invoice>) returns (unpaid: seq<Invoice>)
    ensures unpaid == Unsettled(rows)
  {
    unpaid := [];
    var k := 0;
    while k < |rows|
      invariant 0 <= k <= |rows|
      invariant Unsettled(rows) == unpaid + Unsettled(rows[k..])
    {
      UnsettledNext(rows, k);
      if Outstanding(rows[k]) {
        unpaid := unpaid + [rows[k]];
      }
      k := k + 1;
    }
  }

  lemma ConfirmKeepsIds(db: Tables, pid: Id, order: seq<Id>)
    requires pid in db.payments && Listed(db, order)
    requires forall i :: i in db.invoices ==> db.invoices[i].id == i
    ensures var after := ConfirmTx(db, pid, order).invoices;
            && after.Keys == db.invoices.Keys
            && (forall i :: i in after ==> after[i].id == i)
            && forall inv :: inv in Unsettled(Rows(db.invoices, order)) ==> inv.id in after
  {
    ConfirmSettles(db, pid, order);
    forall i | i in db.invoices ensures ConfirmTx(db, pid, order).invoices[i].id == i {
      ConfirmedRow(db, pid, order, i);
    }
    UnsettledAreOutstanding(Rows(db.invoices, order));
    forall inv | inv in Unsettled(Rows(db.invoices, order)) ensures inv.id in db.invoices {
      var k :| 0 <= k < |order| && Rows(db.invoices, order)[k] == inv;
      assert order[k] in order;
    }
  }
}
