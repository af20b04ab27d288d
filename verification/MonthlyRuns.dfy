/**
 Runs of the billing jobs: whatever the order of daily jobs, forced jobs, single requests and changes
 to the records, a subscription has at most one invoice for a month, and exactly one once the daily
 job has run on every day of a month in which the subscription stayed billable.
 */
module MonthlyRuns {
  import opened Common
  import opened Calendar
  import opened BillingDomain
  import opened SubscriptionDomain
  import opened DailyBilling

  datatype Event =
    | DailyJob(day: int, failing: set<Id>)
    | ForceJob(day: int, failing: set<Id>)
    | Request(id: Id, month: int, stores: bool)
    | ChangeRecords(subs: seq<Subscription>, plans: map<Id, Plan>, customers: map<Id, bool>, dueDays: int)

  function Apply(r: Records, e: Event): Records
  {
    match e
    case DailyJob(day, failing) => Daily(r, day, failing)
    case ForceJob(day, failing) => Forced(r, day, failing)
    case Request(id, month, stores) => Generated(r, id, month, stores)
    case ChangeRecords(subs, plans, customers, dueDays) => Records(subs, plans, customers, dueDays, r.invoices)
  }

  function ApplyAll(r: Records, events: seq<Event>): Records
    decreases |events|
  {
    if events == [] then r else ApplyAll(Apply(r, events[0]), events[1..])
  }

  // ---- Sound ledgers ----

  /** An invoice charges its subtotal and the tax, and is issued in its month. */
  predicate Sound(inv: Invoice)
  {
    inv.total == inv.subtotal + inv.tax && MonthOf(inv.issueDay) == inv.month
  }

  ghost predicate OnePerMonth(invoices: seq<Invoice>)
  {
    forall i, j :: 0 <= i < j < |invoices| ==> !IsFor(invoices[i], invoices[j].subscription, invoices[j].month)
  }

  /** later keeps every invoice of earlier and adds only sound ones, at most one per subscription and month. */
  ghost predicate Extends(earlier: seq<Invoice>, later: seq<Invoice>)
  {
    && earlier <= later
    && (forall i :: |earlier| <= i < |later| ==> Sound(later[i]))
    && (OnePerMonth(earlier) ==> OnePerMonth(later))
  }

  lemma ExtendsTwice(a: seq<Invoice>, b: seq<Invoice>, c: seq<Invoice>)
    requires Extends(a, b) && Extends(b, c)
    ensures Extends(a, c)
  {}

  /** It is issued on the billing day or, in a shorter month, on the last day, and due that many days later. */
  lemma NewInvoiceIsSound(sub: Subscription, plan: Plan, month: int, dueDays: int)
    ensures var inv := NewInvoice(sub, plan, month, dueDays);
            && Sound(inv) && IsFor(inv, sub.id, month) && inv.unpaid && inv.dueDay == inv.issueDay + dueDays
            && DayOfMonth(inv.issueDay) == Min(ResolveBillingDay(sub.billingDay, plan.billingDay), MonthLength(month))
  {
    MonthOfIsUnique(FirstOf(month) + BillingDay(sub, plan, month) - 1, month);
  }

  lemma AddOne(invoices: seq<Invoice>, inv: Invoice)
    requires Sound(inv) && forall i :: 0 <= i < |invoices| ==> !IsFor(invoices[i], inv.subscription, inv.month)
    ensures Extends(invoices, invoices + [inv])
  {}

  lemma GeneratedExtends(r: Records, id: Id, month: int, stores: bool)
    ensures Extends(r.invoices, Generated(r, id, month, stores).invoices)
  {
    var answer := Answer(r, id, month, stores);
    if answer.Ok? && FindInvoice(r.invoices, id, month).None? {
      var sub := r.subs[FindSub(r.subs, id).value];
      NewInvoiceIsSound(sub, r.plans[sub.plan], month, r.dueDays);
      AddOne(r.invoices, answer.value);
    }
  }

  lemma {:induction false} TurnsExtend(r: Records, list: seq<Subscription>, day: int, force: bool, failing: set<Id>)
    ensures Extends(r.invoices, Turns(r, list, day, force, failing).invoices)
  {
    if list != [] {
      var n := |list| - 1;
      var before := Turns(r, list[..n], day, force, failing);
      TurnsExtend(r, list[..n], day, force, failing);
      GeneratedExtends(before, list[n].id, MonthOf(day), list[n].id !in failing);
      ExtendsTwice(r.invoices, before.invoices, Turn(before, list[n], day, force, failing).invoices);
    }
  }

  lemma EventExtends(r: Records, e: Event)
    ensures Extends(r.invoices, Apply(r, e).invoices)
  {
    match e
    case DailyJob(day, failing) =>
      var list := Billable(r.subs);
      TurnsExtend(r, list[..Reached(r, list)], day, false, failing);
    case ForceJob(day, failing) => TurnsExtend(r, Billable(r.subs), day, true, failing);
    case Request(id, month, stores) => GeneratedExtends(r, id, month, stores);
    case ChangeRecords(_, _, _, _) =>
  }

  /** Over every run there is at most one invoice for a subscription and month, and each is sound and kept. */
  lemma {:induction false} EveryRunBillsAtMostOnce(r: Records, events: seq<Event>)
    ensures Extends(r.invoices, ApplyAll(r, events).invoices)
    decreases |events|
  {
    if events != [] {
      EventExtends(r, events[0]);
      EveryRunBillsAtMostOnce(Apply(r, events[0]), events[1..]);
      ExtendsTwice(r.invoices, Apply(r, events[0]).invoices, ApplyAll(r, events).invoices);
    }
  }

  // ---- Which events bill a subscription for a month ----

  ghost predicate UniqueIds(subs: seq<Subscription>)
  {
    forall i, j :: 0 <= i < j < |subs| ==> subs[i].id != subs[j].id
  }

  ghost predicate Has(invoices: seq<Invoice>, id: Id, month: int)
  {
    exists i :: 0 <= i < |invoices| && IsFor(invoices[i], id, month)
  }

  /** A request for the subscription is neither refused nor lacks a plan. */
  predicate CanGenerate(r: Records, id: Id)
  {
    var at := FindSub(r.subs, id);
    && at.Some? && r.subs[at.value].status != Suspended && r.subs[at.value].status != Terminated
    && r.subs[at.value].plan in r.plans
  }

  /** The candidate's turn generates an invoice for the subscription, unless there is one. */
  predicate Takes(r: Records, sub: Subscription, id: Id, day: int, force: bool, failing: set<Id>)
  {
    && sub.id == id && id !in failing
    && ActiveCustomer(r, sub) && sub.plan in r.plans && (force || IsDue(r, sub, day))
  }

  /** Whether the event leaves the subscription with an invoice for the month, had it none. */
  ghost predicate BillsFor(r: Records, e: Event, id: Id, month: int)
  {
    match e
    case DailyJob(day, failing) =>
      var list := Billable(r.subs);
      MonthOf(day) == month && exists i :: 0 <= i < Reached(r, list) && Takes(r, list[i], id, day, false, failing)
    case ForceJob(day, failing) =>
      var list := Billable(r.subs);
      MonthOf(day) == month && exists i :: 0 <= i < |list| && Takes(r, list[i], id, day, true, failing)
    case Request(asked, m, stores) => asked == id && m == month && stores && CanGenerate(r, id)
    case ChangeRecords(_, _, _, _) => false
  }

  lemma {:induction false} WithStatusMembers(subs: seq<Subscription>, status: Status, sub: Subscription)
    ensures sub in WithStatus(subs, status) <==> sub in subs && sub.status == status
  {
    if subs != [] {
      var n := |subs| - 1;
      WithStatusMembers(subs[..n], status, sub);
      assert subs == subs[..n] + [subs[n]];
    }
  }

  lemma BillableMembers(subs: seq<Subscription>)
    ensures forall sub :: sub in Billable(subs) <==> sub in subs && (sub.status == Active || sub.status == Isolated)
  {
    forall sub ensures sub in Billable(subs) <==> sub in subs && (sub.status == Active || sub.status == Isolated) {
      WithStatusMembers(subs, Active, sub);
      WithStatusMembers(subs, Isolated, sub);
    }
  }

  lemma HasIsKept(earlier: seq<Invoice>, later: seq<Invoice>, id: Id, month: int)
    requires Has(earlier, id, month) && earlier <= later
    ensures Has(later, id, month)
  {
    var i :| 0 <= i < |earlier| && IsFor(earlier[i], id, month);
    assert IsFor(later[i], id, month);
  }

  lemma HasOneMore(invoices: seq<Invoice>, inv: Invoice, id: Id, month: int)
    ensures Has(invoices + [inv], id, month) <==> Has(invoices, id, month) || IsFor(inv, id, month)
  {
    var all := invoices + [inv];
    assert all[|invoices|] == inv;
    if Has(invoices, id, month) {
      HasIsKept(invoices, all, id, month);
    }
    if Has(all, id, month) {
      var i :| 0 <= i < |all| && IsFor(all[i], id, month);
      assert i < |invoices| ==> all[i] == invoices[i];
    }
  }

  lemma GeneratedBillsExactly(r: Records, asked: Id, m: int, stores: bool, id: Id, month: int)
    ensures Has(Generated(r, asked, m, stores).invoices, id, month)
       <==> Has(r.invoices, id, month) || (asked == id && m == month && stores && CanGenerate(r, id))
  {
    var answer := Answer(r, asked, m, stores);
    var found := FindInvoice(r.invoices, asked, m);
    if answer.Ok? && found.None? {
      HasOneMore(r.invoices, answer.value, id, month);
    } else if found.Some? {
      assert IsFor(r.invoices[found.value], asked, m);
    }
  }

  lemma FindsTheOnly(subs: seq<Subscription>, sub: Subscription)
    requires UniqueIds(subs) && sub in subs
    ensures FindSub(subs, sub.id).Some? && subs[FindSub(subs, sub.id).value] == sub
  {
    var i :| 0 <= i < |subs| && subs[i] == sub;
    var found := FindSub(subs, sub.id);
    assert found.Some?;
  }

  predicate Candidate(r: Records, sub: Subscription)
  {
    sub in r.subs && (sub.status == Active || sub.status == Isolated)
  }

  lemma TurnBillsExactly(r: Records, sub: Subscription, day: int, force: bool, failing: set<Id>, id: Id, month: int)
    requires UniqueIds(r.subs) && Candidate(r, sub)
    ensures Has(Turn(r, sub, day, force, failing).invoices, id, month)
       <==> Has(r.invoices, id, month) || (MonthOf(day) == month && Takes(r, sub, id, day, force, failing))
  {
    FindsTheOnly(r.subs, sub);
    GeneratedBillsExactly(r, sub.id, MonthOf(day), sub.id !in failing, id, month);
  }

  lemma SameTakes(r: Records, later: Records, sub: Subscription, id: Id, day: int, force: bool, failing: set<Id>)
    requires later == r.(invoices := later.invoices)
    ensures Takes(later, sub, id, day, force, failing) == Takes(r, sub, id, day, force, failing)
  {}

  lemma {:induction false} TurnsBillExactly(r: Records, list: seq<Subscription>, day: int, force: bool, failing: set<Id>,
                                            id: Id, month: int)
    requires UniqueIds(r.subs) && forall i :: 0 <= i < |list| ==> Candidate(r, list[i])
    ensures Has(Turns(r, list, day, force, failing).invoices, id, month)
       <==> Has(r.invoices, id, month)
            || (MonthOf(day) == month && exists i :: 0 <= i < |list| && Takes(r, list[i], id, day, force, failing))
  {
    if list != [] {
      var n := |list| - 1;
      var before := Turns(r, list[..n], day, force, failing);
      TurnsBillExactly(r, list[..n], day, force, failing, id, month);
      assert Candidate(before, list[n]);
      TurnBillsExactly(before, list[n], day, force, failing, id, month);
      SameTakes(r, before, list[n], id, day, force, failing);
      SomeTakesSplits(r, list, day, force, failing, id);
      SameSome(r, list, n, day, force, failing, id);
    }
  }

  lemma SomeTakesSplits(r: Records, list: seq<Subscription>, day: int, force: bool, failing: set<Id>, id: Id)
    requires list != []
    ensures (exists i :: 0 <= i < |list| && Takes(r, list[i], id, day, force, failing))
       <==> (exists i :: 0 <= i < |list| - 1 && Takes(r, list[i], id, day, force, failing))
            || Takes(r, list[|list| - 1], id, day, force, failing)
  {}

  lemma SameSome(r: Records, list: seq<Subscription>, n: nat, day: int, force: bool, failing: set<Id>, id: Id)
    requires n <= |list|
    ensures (exists i :: 0 <= i < n && Takes(r, list[i], id, day, force, failing))
       <==> (exists i :: 0 <= i < |list[..n]| && Takes(r, list[..n][i], id, day, force, failing))
  {
    if i :| 0 <= i < n && Takes(r, list[i], id, day, force, failing) {
      assert list[..n][i] == list[i];
    }
  }

  /**
   The daily job leaves the subscription with an invoice for the day's month exactly when it had one, or
   it is a candidate that the job comes to before it breaks down, is due, its customer is active and its
   invoice can be stored. A missing plan further down the list does it no harm.
   */
  lemma DailyJobBillsExactlyWhen(r: Records, day: int, failing: set<Id>, id: Id, month: int)
    requires UniqueIds(r.subs)
    ensures Has(Daily(r, day, failing).invoices, id, month)
       <==> Has(r.invoices, id, month) || BillsFor(r, DailyJob(day, failing), id, month)
  {
    var list := Billable(r.subs);
    var reached := list[..Reached(r, list)];
    BillableMembers(r.subs);
    forall i | 0 <= i < |reached| ensures Candidate(r, reached[i]) && reached[i] == list[i] {
      assert list[i] in list;
    }
    TurnsBillExactly(r, reached, day, false, failing, id, month);
    SameSome(r, list, Reached(r, list), day, false, failing, id);
  }

  /** The forced job bills every active or isolated subscription with an active customer, a plan and a storable invoice. */
  lemma ForcedJobBillsExactlyWhen(r: Records, day: int, failing: set<Id>, id: Id, month: int)
    requires UniqueIds(r.subs)
    ensures Has(Forced(r, day, failing).invoices, id, month)
       <==> Has(r.invoices, id, month) || BillsFor(r, ForceJob(day, failing), id, month)
  {
    var list := Billable(r.subs);
    BillableMembers(r.subs);
    forall i | 0 <= i < |list| ensures Candidate(r, list[i]) {
      assert list[i] in list;
    }
    TurnsBillExactly(r, list, day, true, failing, id, month);
  }

  lemma ForcedJobBillsEveryOne(r: Records, day: int, failing: set<Id>, sub: Subscription)
    requires UniqueIds(r.subs) && sub in r.subs && (sub.status == Active || sub.status == Isolated)
    requires ActiveCustomer(r, sub) && sub.plan in r.plans && sub.id !in failing
    ensures Has(Forced(r, day, failing).invoices, sub.id, MonthOf(day))
  {
    BillableMembers(r.subs);
    var i :| 0 <= i < |Billable(r.subs)| && Billable(r.subs)[i] == sub;
    assert Takes(r, Billable(r.subs)[i], sub.id, day, true, failing);
    ForcedJobBillsExactlyWhen(r, day, failing, sub.id, MonthOf(day));
  }

  /** A missing plan at the head of the list leaves everyone unbilled. */
  lemma FirstMissingPlanStopsTheJob(r: Records, day: int, failing: set<Id>)
    requires Billable(r.subs) != [] && Crashes(r, Billable(r.subs)[0])
    ensures Daily(r, day, failing) == r
  {
    var list := Billable(r.subs);
    assert Reached(r, list) == 0;
    assert list[..0] == [];
  }

  lemma EventBillsExactly(r: Records, e: Event, id: Id, month: int)
    requires UniqueIds(r.subs)
    ensures Has(Apply(r, e).invoices, id, month) <==> Has(r.invoices, id, month) || BillsFor(r, e, id, month)
  {
    match e
    case DailyJob(day, failing) => DailyJobBillsExactlyWhen(r, day, failing, id, month);
    case ForceJob(day, failing) => ForcedJobBillsExactlyWhen(r, day, failing, id, month);
    case Request(asked, m, stores) => GeneratedBillsExactly(r, asked, m, stores, id, month);
    case ChangeRecords(_, _, _, _) =>
  }

  // ---- Exactly one invoice a month ----

  /** Subscription ids are keys throughout. */
  ghost predicate Keyed(events: seq<Event>)
  {
    forall e <- events :: e.ChangeRecords? ==> UniqueIds(e.subs)
  }

  ghost predicate SomeEventBills(r: Records, events: seq<Event>, id: Id, month: int)
    decreases |events|
  {
    events != [] && (BillsFor(r, events[0], id, month) || SomeEventBills(Apply(r, events[0]), events[1..], id, month))
  }

  lemma JobsKeepSubs(r: Records, e: Event)
    ensures Apply(r, e).subs == if e.ChangeRecords? then e.subs else r.subs
  {}

  /** Over every run a subscription ends with an invoice for a month exactly when it had one or some event bills it. */
  lemma {:induction false} RunBillsExactlyWhen(r: Records, events: seq<Event>, id: Id, month: int)
    requires UniqueIds(r.subs) && Keyed(events)
    ensures Has(ApplyAll(r, events).invoices, id, month)
       <==> Has(r.invoices, id, month) || SomeEventBills(r, events, id, month)
    decreases |events|
  {
    if events != [] {
      EventBillsExactly(r, events[0], id, month);
      JobsKeepSubs(r, events[0]);
      RunBillsExactlyWhen(Apply(r, events[0]), events[1..], id, month);
    }
  }

  /** The job comes to the subscription, and can bill it when it is due on its billing day. */
  ghost predicate CanBill(r: Records, id: Id, billingDay: int, failing: set<Id>)
  {
    var list := Billable(r.subs);
    id !in failing &&
    exists i :: 0 <= i < Reached(r, list) && list[i].id == id && ActiveCustomer(r, list[i]) && list[i].plan in r.plans
                && ResolveBillingDay(list[i].billingDay, r.plans[list[i].plan].billingDay) == billingDay
  }

  lemma CanBillIsDue(r: Records, id: Id, billingDay: int, day: int, failing: set<Id>)
    requires CanBill(r, id, billingDay, failing) && DayOfMonth(day) == ClampBillingDay(billingDay, MonthOf(day))
    ensures BillsFor(r, DailyJob(day, failing), id, MonthOf(day))
  {
    var list := Billable(r.subs);
    var i :| 0 <= i < Reached(r, list) && list[i].id == id && ActiveCustomer(r, list[i]) && list[i].plan in r.plans
             && ResolveBillingDay(list[i].billingDay, r.plans[list[i].plan].billingDay) == billingDay;
    assert Takes(r, list[i], id, day, false, failing);
  }

  /** At each daily job on that day the subscription can be billed. */
  ghost predicate StaysBillable(r: Records, events: seq<Event>, id: Id, billingDay: int, day: int)
    decreases |events|
  {
    events != [] ==>
      && (events[0].DailyJob? && events[0].day == day ==> CanBill(r, id, billingDay, events[0].failing))
      && StaysBillable(Apply(r, events[0]), events[1..], id, billingDay, day)
  }

  predicate RunsOn(events: seq<Event>, day: int)
  {
    exists e <- events :: e.DailyJob? && e.day == day
  }

  lemma {:induction false} BilledByThatDay(r: Records, events: seq<Event>, id: Id, billingDay: int, day: int)
    requires StaysBillable(r, events, id, billingDay, day)
    requires RunsOn(events, day) && DayOfMonth(day) == ClampBillingDay(billingDay, MonthOf(day))
    ensures SomeEventBills(r, events, id, MonthOf(day))
    decreases |events|
  {
    var e, rest := events[0], events[1..];
    if e.DailyJob? && e.day == day {
      CanBillIsDue(r, id, billingDay, day, e.failing);
    } else {
      var other :| other in events && other.DailyJob? && other.day == day;
      assert other in rest;
      BilledByThatDay(Apply(r, e), rest, id, billingDay, day);
    }
  }

  /** The days of a month are its first and the MonthLength - 1 after it. */
  ghost predicate RunsEveryDay(events: seq<Event>, month: int)
  {
    forall day :: FirstOf(month) <= day < FirstOf(month) + MonthLength(month) ==> RunsOn(events, day)
  }

  function BillingDate(billingDay: int, month: int): int { FirstOf(month) + ClampBillingDay(billingDay, month) - 1 }

  lemma OnlyOne(invoices: seq<Invoice>, id: Id, month: int) returns (i: nat)
    requires OnePerMonth(invoices) && Has(invoices, id, month)
    ensures i < |invoices| && forall j :: 0 <= j < |invoices| ==> (IsFor(invoices[j], id, month) <==> j == i)
  {
    i :| 0 <= i < |invoices| && IsFor(invoices[i], id, month);
    forall j | 0 <= j < |invoices| && j != i ensures !IsFor(invoices[j], id, month) {
      assert if j < i then !IsFor(invoices[j], invoices[i].subscription, invoices[i].month)
             else !IsFor(invoices[i], invoices[j].subscription, invoices[j].month);
    }
  }

  /**
   When the daily job runs on every day of a month and, on the billing day, comes to the subscription and
   can bill it, the ledger ends with exactly one invoice for it and the month.
   */
  lemma DailyBillingBillsExactlyOnce(r: Records, events: seq<Event>, id: Id, billingDay: int, month: int)
      returns (i: nat)
    requires OnePerMonth(r.invoices) && UniqueIds(r.subs) && Keyed(events) && billingDay >= 1
    requires RunsEveryDay(events, month)
    requires StaysBillable(r, events, id, billingDay, BillingDate(billingDay, month))
    ensures var after := ApplyAll(r, events).invoices;
            i < |after| && forall j :: 0 <= j < |after| ==> (IsFor(after[j], id, month) <==> j == i)
  {
    var day := BillingDate(billingDay, month);
    MonthOfIsUnique(day, month);
    BilledByThatDay(r, events, id, billingDay, day);
    RunBillsExactlyWhen(r, events, id, month);
    EveryRunBillsAtMostOnce(r, events);
    i := OnlyOne(ApplyAll(r, events).invoices, id, month);
  }
}
