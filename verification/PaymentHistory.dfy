/**
 Runs of Confirm, Reject and Refund calls of internal/service/payment_service.go, one after the other:
 what becomes of a payment.
 */
module PaymentHistory {
  import opened BillingDomain
  import opened Common
  import opened PaymentDomain
  import opened PaymentLedger

  /** A call of the service; commits tells whether its writes succeed. */
  datatype Event =
    | Confirming(pid: Id, order: seq<Id>, commits: bool)
    | Rejecting(pid: Id, commits: bool)
    | Refunding(pid: Id, amount: int, commits: bool)

  predicate Fits(db: Tables, e: Event) { e.Confirming? ==> forall i <- e.order :: i in db.invoices }

  function Apply(db: Tables, e: Event): Tables
    requires Fits(db, e)
  {
    if e.pid !in db.payments || !e.commits then db
    else
      match e
      case Confirming(pid, order, _) => if CanConfirm(db.payments[pid]) then ConfirmTx(db, pid, order) else db
      case Rejecting(pid, _) => if CanReject(db.payments[pid]) then RejectTx(db, pid) else db
      case Refunding(pid, amount, _) => if CanRefund(db.payments[pid]) then RefundTx(db, pid, amount) else db
  }

  lemma {:induction false} WrittenExist(base: map<Id, Invoice>, pid: Id, allocs: seq<Allocation>)
    ensures PostAll(base, pid, allocs).written.Keys <= base.Keys
  {
    if allocs != [] {
      WrittenExist(base, pid, allocs[..|allocs| - 1]);
    }
  }

  lemma EventKeepsInvoiceIds(db: Tables, e: Event)
    requires Fits(db, e)
    ensures Apply(db, e).invoices.Keys == db.invoices.Keys
  {
    if e.Confirming? && e.pid in db.payments {
      WrittenExist(db.invoices, e.pid, Plan(db, e.pid, e.order));
    }
  }

  ghost predicate AllFit(db: Tables, events: seq<Event>) { forall e <- events :: Fits(db, e) }

  lemma RestFits(db: Tables, events: seq<Event>)
    requires events != [] && AllFit(db, events)
    ensures AllFit(Apply(db, events[0]), events[1..])
  {
    EventKeepsInvoiceIds(db, events[0]);
    forall e | e in events[1..] ensures Fits(Apply(db, events[0]), e) {
      assert Fits(db, e);
    }
  }

  ghost function ApplyAll(db: Tables, events: seq<Event>): Tables
    requires AllFit(db, events)
    decreases |events|
  {
    if events == [] then db
    else
      RestFits(db, events);
      ApplyAll(Apply(db, events[0]), events[1..])
  }

  /** The calls about one payment whose writes succeed. */
  function CallsFor(events: seq<Event>, pid: Id): seq<Event>
  {
    if events == [] then []
    else (if events[0].pid == pid && events[0].commits then [events[0]] else []) + CallsFor(events[1..], pid)
  }

  /** The calls from the first that confirms or rejects. */
  function FromDecision(calls: seq<Event>): seq<Event>
  {
    if calls == [] || !calls[0].Refunding? then calls else FromDecision(calls[1..])
  }

  function FirstRefund(calls: seq<Event>): Option<int>
  {
    if calls == [] then None
    else if calls[0].Refunding? then Some(calls[0].amount)
    else FirstRefund(calls[1..])
  }

  /** The payment after these calls. */
  ghost predicate Ends(p: Payment, status: PaymentStatus, calls: seq<Event>, after: Payment)
    decreases status == Pending
  {
    && after.customer == p.customer && after.amount == p.amount
    && match status
       case Pending =>
         var decided := FromDecision(calls);
         if decided == [] then after.status == PaymentStatus.Pending && after.refundAmount == p.refundAmount
         else if decided[0].Rejecting? then after.status == PaymentStatus.Rejected && after.refundAmount == p.refundAmount
         else Ends(p, PaymentStatus.Confirmed, decided[1..], after)
       case Confirmed =>
         var refund := FirstRefund(calls);
         if refund.None? || p.refundAmount > 0
         then after.status == PaymentStatus.Confirmed && after.refundAmount == p.refundAmount
         else after.status == PaymentStatus.Refunded && after.refundAmount == refund.value
       case _ => after.status == status && after.refundAmount == p.refundAmount
  }

  lemma EventOnPayment(db: Tables, e: Event, pid: Id)
    requires Fits(db, e) && pid in db.payments
    ensures pid in Apply(db, e).payments
    ensures var p, after := db.payments[pid], Apply(db, e).payments[pid];
            && after.customer == p.customer && after.amount == p.amount
            && after.status == (if e.pid != pid || !e.commits then p.status
                                else if p.status == Pending && e.Confirming? then Confirmed
                                else if p.status == Pending && e.Rejecting? then Rejected
                                else if p.status == Confirmed && e.Refunding? && p.refundAmount <= 0 then PaymentStatus.Refunded
                                else p.status)
            && after.refundAmount == if after.status == PaymentStatus.Refunded && p.status != PaymentStatus.Refunded
                                     then e.amount else p.refundAmount
  {}

  /**
   After every run of calls a pending payment is what the calls that went through make of it: rejected for
   good if the first one that decided it rejected it; else confirmed until the first refund, and from then
   on refunded with that amount. One that has a refund amount already is never refunded.
   */
  lemma {:induction false} CallsDecideThePayment(db: Tables, events: seq<Event>, pid: Id)
    requires AllFit(db, events) && pid in db.payments
    ensures pid in ApplyAll(db, events).payments
    ensures Ends(db.payments[pid], db.payments[pid].status, CallsFor(events, pid), ApplyAll(db, events).payments[pid])
    decreases |events|
  {
    if events != [] {
      RestFits(db, events);
      EventOnPayment(db, events[0], pid);
      var rest := CallsFor(events[1..], pid);
      if events[0].pid == pid && events[0].commits {
        assert CallsFor(events, pid) == [events[0]] + rest && CallsFor(events, pid)[1..] == rest;
      } else {
        assert CallsFor(events, pid) == rest;
      }
      CallsDecideThePayment(Apply(db, events[0]), events[1..], pid);
    }
  }
}
