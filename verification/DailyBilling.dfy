/**
 Monthly billing, internal/service/billing_service.go: invoices are generated for a subscription and
 a month, daily for the subscriptions whose billing day is today, or for all at once. Days and months
 are those of module Calendar.
 */
module DailyBilling {
  import opened Common
  import opened Calendar
  import opened BillingDomain
  import opened SubscriptionDomain

  type Id = nat

  datatype Subscription = Subscription(id: Id, customer: Id, plan: Id, status: Status, activated: Option<int>,
                                       billingDay: Option<int>, autoIsolate: bool, grace: Option<int>)

  datatype Plan = Plan(price: int, taxRate: int, billingDay: Option<int>, grace: int)

  /** The month stands for the stored pair of billing month and billing year. */
  datatype Invoice = Invoice(subscription: Id, month: int, customer: Id, issueDay: int, dueDay: int,
                             subtotal: int, tax: int, total: int, unpaid: bool)

  /** customers tells of each customer whether it is active. */
  datatype Records = Records(subs: seq<Subscription>, plans: map<Id, Plan>, customers: map<Id, bool>,
                             dueDays: int, invoices: seq<Invoice>)

  datatype Error = NotFound | WrongStatus | PlanNotFound | NotStored

  function FindSub(subs: seq<Subscription>, id: Id): (r: Option<nat>)
    ensures r.Some? ==> r.value < |subs| && subs[r.value].id == id
    ensures r.None? ==> forall i :: 0 <= i < |subs| ==> subs[i].id != id
  {
    if subs == [] then None
    else
      var n := |subs| - 1;
      var earlier := FindSub(subs[..n], id);
      if earlier.Some? then earlier else if subs[n].id == id then Some(n) else None
  }

  predicate IsFor(inv: Invoice, id: Id, month: int) { inv.subscription == id && inv.month == month }

  function FindInvoice(invoices: seq<Invoice>, id: Id, month: int): (r: Option<nat>)
    ensures r.Some? ==> r.value < |invoices| && IsFor(invoices[r.value], id, month)
    ensures r.None? ==> forall i :: 0 <= i < |invoices| ==> !IsFor(invoices[i], id, month)
  {
    if invoices == [] then None
    else
      var n := |invoices| - 1;
      var earlier := FindInvoice(invoices[..n], id, month);
      if earlier.Some? then earlier else if IsFor(invoices[n], id, month) then Some(n) else None
  }

  // ---- Billing one subscription ----

  function ClampBillingDay(billingDay: int, month: int): (d: int)
    ensures billingDay >= 1 ==> 1 <= d <= MonthLength(month)
  {
    Min(billingDay, MonthLength(month))
  }

  function BillingDay(sub: Subscription, plan: Plan, month: int): (d: int)
    ensures 1 <= d <= MonthLength(month)
  {
    ClampBillingDay(ResolveBillingDay(sub.billingDay, plan.billingDay), month)
  }

  /** A subscription activated in the billed month pays from that day on. */
  function Subtotal(sub: Subscription, plan: Plan, month: int): int
  {
    if sub.activated.Some? && MonthOf(sub.activated.value) == month then
      CalculateProration(plan.price, MonthLength(month), MonthLength(month) - DayOfMonth(sub.activated.value) + 1)
    else
      plan.price
  }

  function NewInvoice(sub: Subscription, plan: Plan, month: int, dueDays: int): Invoice
  {
    var issueDay := FirstOf(month) + BillingDay(sub, plan, month) - 1;
    var subtotal := Subtotal(sub, plan, month);
    var tax := CalculateTax(subtotal, plan.taxRate);
    Invoice(sub.id, month, sub.customer, issueDay, issueDay + dueDays, subtotal, tax, CalculateTotal(subtotal, tax, 0, 0), true)
  }

  /** What GenerateInvoice answers: the invoice found or made, or why there is none. stores tells whether writing succeeds. */
  function Answer(r: Records, id: Id, month: int, stores: bool): Result<Invoice, Error>
  {
    var at := FindSub(r.subs, id);
    if at.None? then Err(NotFound)
    else
      var sub := r.subs[at.value];
      if sub.status == Suspended || sub.status == Terminated then Err(WrongStatus)
      else if sub.plan !in r.plans then Err(PlanNotFound)
      else
        var found := FindInvoice(r.invoices, id, month);
        if found.Some? then Ok(r.invoices[found.value])
        else if !stores then Err(NotStored)
        else Ok(NewInvoice(sub, r.plans[sub.plan], month, r.dueDays))
  }

  function Generated(r: Records, id: Id, month: int, stores: bool): Records
  {
    var answer := Answer(r, id, month, stores);
    if answer.Err? || FindInvoice(r.invoices, id, month).Some? then r
    else r.(invoices := r.invoices + [answer.value])
  }

  /**
   What generating answers and does: an error for a subscription that does not exist, is suspended or
   terminated, or has no plan; else the month's invoice, which is made and added when there was none, unless
   it cannot be stored.
   */
  lemma GeneratingAnswers(r: Records, id: Id, month: int, stores: bool)
    requires forall i, j :: 0 <= i < j < |r.subs| ==> r.subs[i].id != r.subs[j].id
    ensures var answer, after := Answer(r, id, month, stores), Generated(r, id, month, stores);
            && (answer == Err(NotFound) <==> forall i :: 0 <= i < |r.subs| ==> r.subs[i].id != id)
            && forall i :: 0 <= i < |r.subs| && r.subs[i].id == id ==>
                 var sub := r.subs[i];
                 if sub.status in {Suspended, Terminated} then answer == Err(WrongStatus) && after == r
                 else if sub.plan !in r.plans then answer == Err(PlanNotFound) && after == r
                 else if exists k :: 0 <= k < |r.invoices| && IsFor(r.invoices[k], id, month)
                 then answer.Ok? && answer.value in r.invoices && IsFor(answer.value, id, month) && after == r
                 else if !stores then answer == Err(NotStored) && after == r
                 else answer == Ok(NewInvoice(sub, r.plans[sub.plan], month, r.dueDays))
                      && after == r.(invoices := r.invoices + [answer.value])
  {
    var at := FindSub(r.subs, id);
    forall i | 0 <= i < |r.subs| && r.subs[i].id == id ensures at == Some(i) {}
  }

  /**
   The amounts of a new invoice: the full price, or, when the subscription was activated in the billed
   month, the share of its days from then on, to the nearest cent; the tax within half a cent of exact; and
   the total exactly their sum.
   */
  lemma InvoiceAmounts(sub: Subscription, plan: Plan, month: int, dueDays: int)
    requires plan.price >= 0
    ensures var inv := NewInvoice(sub, plan, month, dueDays);
            && inv.subscription == sub.id && inv.month == month && inv.customer == sub.customer && inv.unpaid
            && inv.total == inv.subtotal + inv.tax
            && 0 <= inv.subtotal <= plan.price
            && (sub.activated.None? || MonthOf(sub.activated.value) != month || DayOfMonth(sub.activated.value) == 1
                ==> inv.subtotal == plan.price)
            && (sub.activated.Some? && MonthOf(sub.activated.value) == month ==>
                  var length := FirstOf(month + 1) - FirstOf(month);
                  var days := FirstOf(month + 1) - sub.activated.value;
                  && 0 < days <= length
                  && 2 * plan.price * days - length < 2 * length * inv.subtotal <= 2 * plan.price * days + length)
            && 2 * (inv.subtotal * plan.taxRate) - 10000 <= 20000 * inv.tax <= 2 * (inv.subtotal * plan.taxRate) + 10000
  {
    var subtotal := Subtotal(sub, plan, month);
    if sub.activated.Some? && MonthOf(sub.activated.value) == month {
      ProrationAccurateAndBounded(plan.price, MonthLength(month), MonthLength(month) - DayOfMonth(sub.activated.value) + 1);
      NextFirst(month);
      SharedSubtotal(plan.price, MonthLength(month), FirstOf(month + 1) - sub.activated.value);
    }
    RoundBounds(subtotal * plan.taxRate, 10000);
  }

  lemma SharedSubtotal(price: int, length: int, days: int)
    requires price >= 0 && 0 < days <= length
    ensures 2 * price * days - length < 2 * length * CalculateProration(price, length, days) <= 2 * price * days + length
  {
    MulMonotone(price, 0, days);
    RoundBounds(price * days, length);
    assert 2 * price * days == 2 * (price * days);
  }

  // ---- The jobs ----

  function WithStatus(subs: seq<Subscription>, status: Status): seq<Subscription>
  {
    if subs == [] then []
    else
      var n := |subs| - 1;
      WithStatus(subs[..n], status) + if subs[n].status == status then [subs[n]] else []
  }

  function Billable(subs: seq<Subscription>): seq<Subscription>
  {
    WithStatus(subs, Active) + WithStatus(subs, Isolated)
  }

  predicate ActiveCustomer(r: Records, sub: Subscription) { sub.customer in r.customers && r.customers[sub.customer] }

  /** The daily job looks into the plan of every candidate and breaks down when there is none. */
  predicate Crashes(r: Records, sub: Subscription) { ActiveCustomer(r, sub) && sub.plan !in r.plans }

  predicate IsDue(r: Records, sub: Subscription, day: int)
  {
    sub.plan in r.plans && DayOfMonth(day) == BillingDay(sub, r.plans[sub.plan], MonthOf(day))
  }

  /** One candidate's turn; failing holds the subscriptions whose invoice cannot be stored. */
  function Turn(r: Records, sub: Subscription, day: int, force: bool, failing: set<Id>): Records
  {
    if ActiveCustomer(r, sub) && (force || IsDue(r, sub, day))
    then Generated(r, sub.id, MonthOf(day), sub.id !in failing) else r
  }

  function Turns(r: Records, list: seq<Subscription>, day: int, force: bool, failing: set<Id>): (after: Records)
    ensures after == r.(invoices := after.invoices)
  {
    if list == [] then r
    else
      var n := |list| - 1;
      Turn(Turns(r, list[..n], day, force, failing), list[n], day, force, failing)
  }

  lemma TurnsNext(r: Records, list: seq<Subscription>, k: nat, day: int, force: bool, failing: set<Id>)
    requires k < |list|
    ensures Turns(r, list[..k + 1], day, force, failing)
         == Turn(Turns(r, list[..k], day, force, failing), list[k], day, force, failing)
  {
    assert list[..k + 1][..k] == list[..k];
  }

  /** How many candidates the daily job comes to before it breaks down. */
  function Reached(r: Records, list: seq<Subscription>): (n: nat)
    ensures n <= |list|
    ensures n < |list| ==> Crashes(r, list[n])
    ensures forall i :: 0 <= i < n ==> !Crashes(r, list[i])
  {
    if list == [] then 0
    else
      var n := |list| - 1;
      var k := Reached(r, list[..n]);
      if k < n || Crashes(r, list[n]) then k else n + 1
  }

  /** It is the first with an active customer and a missing plan. */
  lemma ReachedIsFirstMissing(r: Records, list: seq<Subscription>, k: nat)
    requires k <= |list|
    ensures k == Reached(r, list) <==>
              && (forall i :: 0 <= i < k ==>
                    !(list[i].customer in r.customers && r.customers[list[i].customer] && list[i].plan !in r.plans))
              && (k < |list| ==> list[k].customer in r.customers && r.customers[list[k].customer] && list[k].plan !in r.plans)
  {
    var n := Reached(r, list);
    if n < k {
      assert Crashes(r, list[n]);
    } else if k < n {
      assert !Crashes(r, list[k]);
    }
    assert forall i :: 0 <= i < n ==> !Crashes(r, list[i]);
  }

  function Daily(r: Records, day: int, failing: set<Id>): Records
  {
    var list := Billable(r.subs);
    Turns(r, list[..Reached(r, list)], day, false, failing)
  }

  function Forced(r: Records, day: int, failing: set<Id>): Records
  {
    Turns(r, Billable(r.subs), day, true, failing)
  }

  // ---- Isolating for non-payment ----

  /** An instant: a day and the time since its midnight. Due dates are midnights. */
  datatype Instant = Instant(day: int, sinceMidnight: nat)

  predicate Past(now: Instant, midnight: int)
  {
    now.day > midnight || (now.day == midnight && now.sinceMidnight > 0)
  }

  /** The unpaid invoices past their due date; a partly paid one is not among them. */
  function OverdueInvoices(invoices: seq<Invoice>, now: Instant): seq<Invoice>
  {
    if invoices == [] then []
    else
      var n := |invoices| - 1;
      OverdueInvoices(invoices[..n], now) + if invoices[n].unpaid && Past(now, invoices[n].dueDay) then [invoices[n]] else []
  }

  lemma {:induction false} OverdueMembers(invoices: seq<Invoice>, now: Instant, inv: Invoice)
    ensures inv in OverdueInvoices(invoices, now) <==> inv in invoices && inv.unpaid && Past(now, inv.dueDay)
  {
    if invoices != [] {
      var n := |invoices| - 1;
      OverdueMembers(invoices[..n], now, inv);
      assert invoices == invoices[..n] + [invoices[n]];
    }
  }

  predicate GraceIsOver(inv: Invoice, now: Instant, graceDays: int)
  {
    Past(now, inv.dueDay) && Past(now, inv.dueDay + graceDays)
  }

  predicate Isolatable(sub: Subscription)
  {
    sub.autoIsolate && sub.status != Isolated && sub.status != Suspended && sub.status != Terminated
  }

  /** The invoice makes the job isolate the subscription, provided its router answers. */
  predicate Isolates(plans: map<Id, Plan>, inv: Invoice, sub: Subscription, now: Instant, reachable: set<Id>)
  {
    && inv.subscription == sub.id && Isolatable(sub) && sub.id in reachable && sub.plan in plans
    && GraceIsOver(inv, now, ResolveGracePeriod(sub.grace, plans[sub.plan].grace))
  }

  /**
   In days: the invoice's due date and then the grace days have passed, which are the subscription's own if
   it has any, zero included, else the plan's if positive, else three.
   */
  lemma IsolatesAfterTheGraceDays(plans: map<Id, Plan>, inv: Invoice, sub: Subscription, now: Instant, reachable: set<Id>)
    ensures Isolates(plans, inv, sub, now, reachable) <==>
              && inv.subscription == sub.id && sub.id in reachable && sub.plan in plans
              && sub.autoIsolate && sub.status in {Pending, Active, Expired}
              && var midnight := inv.dueDay + if sub.grace.Some? && sub.grace.value >= 0 then sub.grace.value
                                              else if plans[sub.plan].grace > 0 then plans[sub.plan].grace else 3;
                 now.day > midnight || (now.day == midnight && now.sinceMidnight > 0)
  {}

  predicate IsolatedBy(plans: map<Id, Plan>, list: seq<Invoice>, sub: Subscription, now: Instant, reachable: set<Id>)
  {
    exists inv <- list :: Isolates(plans, inv, sub, now, reachable)
  }

  /** A subscription after the job has seen these invoices. */
  function Treated(plans: map<Id, Plan>, list: seq<Invoice>, sub: Subscription, now: Instant, reachable: set<Id>): Subscription
  {
    if IsolatedBy(plans, list, sub, now, reachable) then sub.(status := Isolated) else sub
  }

  /** The job looks into the plan of every subscription that it could isolate, and breaks down when there is none. */
  predicate Stops(plans: map<Id, Plan>, subs: seq<Subscription>, inv: Invoice)
  {
    var at := FindSub(subs, inv.subscription);
    at.Some? && Isolatable(subs[at.value]) && subs[at.value].plan !in plans
  }

  /** How many of the overdue invoices the job comes to before it breaks down. */
  function Checked(plans: map<Id, Plan>, subs: seq<Subscription>, list: seq<Invoice>): (n: nat)
    ensures n <= |list|
  {
    if list == [] then 0
    else
      var n := |list| - 1;
      var k := Checked(plans, subs, list[..n]);
      if k < n || Stops(plans, subs, list[n]) then k else n + 1
  }

  /** It comes to an invoice exactly if none before it stops it. */
  lemma {:induction false} CheckedIsFirst(plans: map<Id, Plan>, subs: seq<Subscription>, list: seq<Invoice>, k: nat)
    requires k <= Checked(plans, subs, list) && k < |list|
    ensures Stops(plans, subs, list[k]) <==> Checked(plans, subs, list) == k
  {
    var n := |list| - 1;
    if k < n {
      CheckedIsFirst(plans, subs, list[..n], k);
    }
  }

  ghost predicate AllTreated(plans: map<Id, Plan>, list: seq<Invoice>, before: seq<Subscription>, after: seq<Subscription>,
                             now: Instant, reachable: set<Id>)
  {
    |after| == |before| && forall i :: 0 <= i < |before| ==> after[i] == Treated(plans, list, before[i], now, reachable)
  }

  lemma IsolatedByOneMore(plans: map<Id, Plan>, list: seq<Invoice>, inv: Invoice, sub: Subscription, now: Instant,
                          reachable: set<Id>)
    ensures IsolatedBy(plans, list + [inv], sub, now, reachable)
       <==> IsolatedBy(plans, list, sub, now, reachable) || Isolates(plans, inv, sub, now, reachable)
  {
    assert inv in list + [inv];
  }

  /** The job would stop now exactly if it would have stopped at the start: what it has isolated has a plan. */
  lemma StopsNow(plans: map<Id, Plan>, list: seq<Invoice>, inv: Invoice, before: seq<Subscription>, after: seq<Subscription>,
                 now: Instant, reachable: set<Id>)
    requires AllTreated(plans, list, before, after, now, reachable)
    ensures Stops(plans, after, inv) == Stops(plans, before, inv)
    ensures FindSub(after, inv.subscription) == FindSub(before, inv.subscription)
  {
    SameFind(before, after, inv.subscription);
  }

  /** What the turn of one invoice makes of the subscriptions. */
  function AfterCheck(plans: map<Id, Plan>, inv: Invoice, subs: seq<Subscription>, now: Instant, reachable: set<Id>)
    : seq<Subscription>
  {
    var at := FindSub(subs, inv.subscription);
    if at.Some? && Isolates(plans, inv, subs[at.value], now, reachable)
    then subs[at.value := subs[at.value].(status := Isolated)] else subs
  }

  lemma TreatOne(plans: map<Id, Plan>, list: seq<Invoice>, inv: Invoice, before: Subscription, now: Instant, reachable: set<Id>)
    ensures var sub := Treated(plans, list, before, now, reachable);
            Treated(plans, list + [inv], before, now, reachable)
              == if Isolates(plans, inv, sub, now, reachable) then sub.(status := Isolated) else sub
  {
    IsolatedByOneMore(plans, list, inv, before, now, reachable);
  }

  lemma TreatAll(plans: map<Id, Plan>, list: seq<Invoice>, inv: Invoice, before: seq<Subscription>, after: seq<Subscription>,
                 now: Instant, reachable: set<Id>)
    requires AllTreated(plans, list, before, after, now, reachable)
    requires forall i, j :: 0 <= i < j < |before| ==> before[i].id != before[j].id
    ensures AllTreated(plans, list + [inv], before, AfterCheck(plans, inv, after, now, reachable), now, reachable)
  {
    var at := FindSub(after, inv.subscription);
    forall i | 0 <= i < |before|
      ensures AfterCheck(plans, inv, after, now, reachable)[i] == Treated(plans, list + [inv], before[i], now, reachable)
    {
      TreatOne(plans, list, inv, before[i], now, reachable);
      assert at.Some? && i != at.value ==> before[i].id != before[at.value].id;
    }
  }

  lemma {:induction false} SameFind(before: seq<Subscription>, after: seq<Subscription>, id: Id)
    requires |before| == |after| && forall i :: 0 <= i < |before| ==> after[i].id == before[i].id
    ensures FindSub(after, id) == FindSub(before, id)
  {
    if before != [] {
      var n := |before| - 1;
      SameFind(before[..n], after[..n], id);
    }
  }

  /** The job over a list of invoices none of which stops it. */
  function AfterChecks(plans: map<Id, Plan>, list: seq<Invoice>, subs: seq<Subscription>, now: Instant, reachable: set<Id>)
      : seq<Subscription>
  {
    if list == [] then subs
    else AfterCheck(plans, list[|list| - 1], AfterChecks(plans, list[..|list| - 1], subs, now, reachable), now, reachable)
  }

  /** It isolates exactly the subscriptions with an invoice in the list that is past its grace period. */
  lemma {:induction false} ChecksTreatAll(plans: map<Id, Plan>, list: seq<Invoice>, subs: seq<Subscription>,
                                          now: Instant, reachable: set<Id>)
    requires forall i, j :: 0 <= i < j < |subs| ==> subs[i].id != subs[j].id
    ensures AllTreated(plans, list, subs, AfterChecks(plans, list, subs, now, reachable), now, reachable)
  {
    if list != [] {
      var front, last := list[..|list| - 1], list[|list| - 1];
      ChecksTreatAll(plans, front, subs, now, reachable);
      TreatAll(plans, front, last, subs, AfterChecks(plans, front, subs, now, reachable), now, reachable);
      assert front + [last] == list;
    }
  }

  lemma ChecksNext(plans: map<Id, Plan>, list: seq<Invoice>, k: nat, subs: seq<Subscription>, now: Instant, reachable: set<Id>)
    requires k < |list| && forall i, j :: 0 <= i < j < |subs| ==> subs[i].id != subs[j].id
    ensures var soFar := AfterChecks(plans, list[..k], subs, now, reachable);
            && AfterChecks(plans, list[..k + 1], subs, now, reachable) == AfterCheck(plans, list[k], soFar, now, reachable)
            && Stops(plans, soFar, list[k]) == Stops(plans, subs, list[k])
  {
    assert list[..k + 1][..k] == list[..k];
    ChecksTreatAll(plans, list[..k], subs, now, reachable);
    StopsNow(plans, list[..k], list[k], subs, AfterChecks(plans, list[..k], subs, now, reachable), now, reachable);
  }

  class BillingService {
    var subs: seq<Subscription>
    var plans: map<Id, Plan>
    var customers: map<Id, bool>
    var dueDays: int
    var invoices: seq<Invoice>

    function State(): Records
      reads this
    {
      Records(subs, plans, customers, dueDays, invoices)
    }

    method GenerateInvoice(id: Id, month: int, stores: bool) returns (r: Result<Invoice, Error>)
      modifies this`invoices
      ensures r == Answer(old(State()), id, month, stores)
      ensures State() == Generated(old(State()), id, month, stores)
    {
      var at := FindSub(subs, id);
      if at.None? {
        return Err(NotFound);
      }
      var sub := subs[at.value];
      if sub.status == Suspended || sub.status == Terminated {
        return Err(WrongStatus);
      }
      if sub.plan !in plans {
        return Err(PlanNotFound);
      }
      var plan := plans[sub.plan];
      var existing := FindInvoice(invoices, id, month);
      if existing.Some? {
        return Ok(invoices[existing.value]);
      }
      var clampedDay := ClampBillingDay(ResolveBillingDay(sub.billingDay, plan.billingDay), month);
      var issueDay := FirstOf(month) + clampedDay - 1;
      var subtotal := plan.price;
      if sub.activated.Some? && MonthOf(sub.activated.value) == month {
        var daysInMonth := MonthLength(month);
        var billedDays := daysInMonth - DayOfMonth(sub.activated.value) + 1;
        subtotal := CalculateProration(plan.price, daysInMonth, billedDays);
      }
      var tax := CalculateTax(subtotal, plan.taxRate);
      var total := CalculateTotal(subtotal, tax, 0, 0);
      if !stores {
        return Err(NotStored);
      }
      var inv := Invoice(id, month, sub.customer, issueDay, issueDay + dueDays, subtotal, tax, total, true);
      assert inv == NewInvoice(sub, plan, month, dueDays);
      invoices := invoices + [inv];
      r := Ok(inv);
    }

    method ProcessDailyBilling(day: int, failing: set<Id>) returns (crashed: bool)
      modifies this`invoices
      ensures State() == Daily(old(State()), day, failing)
      ensures crashed <==> exists i :: 0 <= i < |Billable(subs)| && Crashes(State(), Billable(subs)[i])
    {
      ghost var before := State();
      var list := WithStatus(subs, Active);
      var isolatedSubs := WithStatus(subs, Isolated);
      list := list + isolatedSubs;
      var k := 0;
      while k < |list|
        invariant 0 <= k <= |list|
        invariant State() == Turns(before, list[..k], day, false, failing)
        invariant k <= Reached(before, list)
      {
        var sub := list[k];
        TurnsNext(before, list, k, day, false, failing);
        if sub.customer in customers && customers[sub.customer] {
          if sub.plan !in plans {
            return true;
          }
          var plan := plans[sub.plan];
          var clampedDay := ClampBillingDay(ResolveBillingDay(sub.billingDay, plan.billingDay), MonthOf(day));
          if DayOfMonth(day) == clampedDay {
            var _ := GenerateInvoice(sub.id, MonthOf(day), sub.id !in failing);
          }
        }
        k := k + 1;
      }
      crashed := false;
    }

    method ForceMonthlyBilling(day: int, failing: set<Id>)
      modifies this`invoices
      ensures State() == Forced(old(State()), day, failing)
    {
      ghost var before := State();
      var list := WithStatus(subs, Active) + WithStatus(subs, Isolated);
      var k := 0;
      while k < |list|
        invariant 0 <= k <= |list|
        invariant State() == Turns(before, list[..k], day, true, failing)
      {
        var sub := list[k];
        TurnsNext(before, list, k, day, true, failing);
        if sub.customer in customers && customers[sub.customer] {
          var _ := GenerateInvoice(sub.id, MonthOf(day), sub.id !in failing);
        }
        k := k + 1;
      }
      assert list[..k] == list;
    }

    /** The body of the job's loop: one overdue invoice. stops tells that the job breaks down on it. */
    method CheckInvoice(inv: Invoice, now: Instant, reachable: set<Id>) returns (stops: bool)
      modifies this`subs
      ensures stops == Stops(plans, old(subs), inv)
      ensures subs == if stops then old(subs) else AfterCheck(plans, inv, old(subs), now, reachable)
    {
      var at := FindSub(subs, inv.subscription);
      if at.None? {
        return false;
      }
      var sub := subs[at.value];
      if sub.status == Isolated || sub.status == Suspended || sub.status == Terminated {
        return false;
      }
      if !sub.autoIsolate {
        return false;
      }
      if sub.plan !in plans {
        return true;
      }
      var graceDays := ResolveGracePeriod(sub.grace, plans[sub.plan].grace);
      if GraceIsOver(inv, now, graceDays) && sub.id in reachable {
        subs := subs[at.value := sub.(status := Isolated)];
      }
      stops := false;
    }

    /**
     Isolates exactly the subscriptions with an unpaid invoice past its grace period, among the invoices
     that the job comes to before it breaks down on a missing plan.
     */
    method CheckAndIsolateOverdue(now: Instant, reachable: set<Id>) returns (crashed: bool)
      requires forall i, j :: 0 <= i < j < |subs| ==> subs[i].id != subs[j].id
      modifies this`subs
      ensures var list := OverdueInvoices(invoices, now);
              var seen := Checked(plans, old(subs), list);
              AllTreated(plans, list[..seen], old(subs), subs, now, reachable) && (crashed <==> seen < |list|)
    {
      var list := OverdueInvoices(invoices, now);
      var k := 0;
      while k < |list|
        invariant 0 <= k <= Checked(plans, old(subs), list)
        invariant subs == AfterChecks(plans, list[..k], old(subs), now, reachable)
      {
        ChecksNext(plans, list, k, old(subs), now, reachable);
        CheckedIsFirst(plans, old(subs), list, k);
        var stops := CheckInvoice(list[k], now, reachable);
        if stops {
          ChecksTreatAll(plans, list[..k], old(subs), now, reachable);
          return true;
        }
        k := k + 1;
      }
      ChecksTreatAll(plans, list[..k], old(subs), now, reachable);
      crashed := false;
    }
  }
}
