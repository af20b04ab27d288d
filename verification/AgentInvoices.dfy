/**
 The periodic invoices of internal/service/agent_invoice_service.go. Each scheduled run bills the
 agents whose billing day is today for the whole month or week before the current one.
 */
module AgentInvoices {
  import opened Common
  import opened Calendar

  type Id = nat

  const LIST_LIMIT: nat := 1000

  datatype Cycle = Monthly | Weekly | OtherCycle

  datatype Agent = Agent(id: Id, active: bool, cycle: Cycle, billingDay: int)

  /**
   A voucher sold by an agent, with its cost and selling price. Of its instant only the day is kept,
   because billing periods begin and end at midnight.
   */
  datatype Sale = Sale(agent: Id, day: int, price: int, sellingPrice: int)

  datatype Status = Unpaid | Review | Paid | Cancelled

  /** The part of an invoice fixed when it is generated; the period runs from day start up to, not including, day end. */
  datatype Statement = Statement(agent: Id, cycle: Cycle, start: int, end: int,
                                 count: int, subtotal: int, sellingTotal: int, total: int)

  datatype AgentInvoice = AgentInvoice(statement: Statement, paid: int, status: Status)

  datatype Error = AgentNotFound | AgentInactive | NotFound | AccessDenied | WrongStatus | NotStored

  // ---- The sales query ----

  predicate InPeriod(s: Sale, agent: Id, start: int, end: int)
  {
    s.agent == agent && start <= s.day < end
  }

  datatype Totals = Totals(count: int, subtotal: int, sellingTotal: int)

  function Plus(a: Totals, b: Totals): Totals
  {
    Totals(a.count + b.count, a.subtotal + b.subtotal, a.sellingTotal + b.sellingTotal)
  }

  function InTotals(s: Sale, agent: Id, start: int, end: int): Totals
  {
    if InPeriod(s, agent, start, end) then Totals(1, s.price, s.sellingPrice) else Totals(0, 0, 0)
  }

  /** SumByAgentAndPeriod. */
  function SumSales(sales: seq<Sale>, agent: Id, start: int, end: int): Totals
  {
    if sales == [] then Totals(0, 0, 0)
    else
      var last := sales[|sales| - 1];
      Plus(SumSales(sales[..|sales| - 1], agent, start, end), InTotals(last, agent, start, end))
  }

  // ---- Generation ----

  datatype Books = Books(agents: seq<Agent>, invoices: seq<AgentInvoice>, sales: seq<Sale>)

  function FindAgent(agents: seq<Agent>, id: Id): Option<Agent>
  {
    if agents == [] then None
    else if agents[0].id == id then Some(agents[0])
    else FindAgent(agents[1..], id)
  }

  function FindInvoice(invoices: seq<AgentInvoice>, agent: Id, start: int, cycle: Cycle): (r: Option<nat>)
    ensures r.Some? ==> r.value < |invoices| && Matches(invoices[r.value], agent, start, cycle)
    ensures r.None? ==> forall i :: 0 <= i < |invoices| ==> !Matches(invoices[i], agent, start, cycle)
  {
    if invoices == [] then None
    else
      var n := |invoices| - 1;
      var earlier := FindInvoice(invoices[..n], agent, start, cycle);
      if earlier.Some? then earlier
      else if Matches(invoices[n], agent, start, cycle) then Some(n)
      else None
  }

  predicate Matches(inv: AgentInvoice, agent: Id, start: int, cycle: Cycle)
  {
    inv.statement.agent == agent && inv.statement.start == start && inv.statement.cycle == cycle
  }

  function NewInvoice(sales: seq<Sale>, agent: Id, start: int, end: int, cycle: Cycle): AgentInvoice
  {
    var t := SumSales(sales, agent, start, end);
    AgentInvoice(Statement(agent, cycle, start, end, t.count, t.subtotal, t.sellingTotal, t.sellingTotal), 0, Unpaid)
  }

  function Generated(books: Books, id: Id, start: int, end: int, cycle: Cycle): Books
  {
    var agent := FindAgent(books.agents, id);
    if agent.None? || !agent.value.active || FindInvoice(books.invoices, id, start, cycle).Some? then books
    else books.(invoices := books.invoices + [NewInvoice(books.sales, id, start, end, cycle)])
  }

  /** The query that fails while an invoice is generated; Insertion stands for the sum and the number, too. */
  datatype Fault = NoFault | AgentLookup | InvoiceLookup | Insertion

  /** A failing lookup of the invoice is taken for none, but the table refuses a second one for the period. */
  predicate Fails(fault: Fault) { fault == AgentLookup || fault == Insertion }

  // ---- The schedule ----

  /** The first day of the p-th month or week. */
  function Start(cycle: Cycle, p: int): int { if cycle.Monthly? then FirstOf(p) else 7 * p }

  /** The month or week that a day falls in. */
  function UnitOf(cycle: Cycle, day: int): int { if cycle.Monthly? then MonthOf(day) else WeekOf(day) }

  lemma WeekStarts(day: int)
    ensures day - (Weekday(day) - 1) == Start(Weekly, UnitOf(Weekly, day))
    ensures day - (Weekday(day) - 1) - 7 == Start(Weekly, UnitOf(Weekly, day) - 1)
  {}

  function Length(cycle: Cycle, p: int): int { Start(cycle, p + 1) - Start(cycle, p) }

  /** Whether the agent is billed on that day: the day of the month, or of the week, is the billing day. */
  function IsDue(agent: Agent, day: int): bool
  {
    match agent.cycle
    case Monthly => DayOfMonth(day) == agent.billingDay
    case Weekly => Weekday(day) == agent.billingDay
    case OtherCycle => false
  }

  function Billed(books: Books, agent: Agent, day: int): Books
  {
    if !agent.active || !IsDue(agent, day) then books
    else
      var p := UnitOf(agent.cycle, day);
      Generated(books, agent.id, Start(agent.cycle, p - 1), Start(agent.cycle, p), agent.cycle)
  }

  type Faults = map<Id, Fault>

  function FaultOf(faults: Faults, id: Id): Fault { if id in faults then faults[id] else NoFault }

  /** What a run does for one agent. */
  function Turn(books: Books, agent: Agent, day: int, faults: Faults): Books
  {
    if Fails(FaultOf(faults, agent.id)) then books else Billed(books, agent, day)
  }

  /** The books after a run on this day has treated the first k listed agents. */
  function Scheduled(books: Books, day: int, faults: Faults, k: nat): (r: Books)
    requires k <= |books.agents|
    ensures r.agents == books.agents && r.sales == books.sales
  {
    if k == 0 then books else Turn(Scheduled(books, day, faults, k - 1), books.agents[k - 1], day, faults)
  }

  function Listed(agents: seq<Agent>): (n: nat)
    ensures n <= |agents|
  {
    Min(|agents|, LIST_LIMIT)
  }

  class AgentInvoiceService {
    var agents: seq<Agent>
    var invoices: seq<AgentInvoice>
    var sales: seq<Sale>

    function State(): Books
      reads this
    {
      Books(agents, invoices, sales)
    }

    method GenerateForAgent(id: Id, start: int, end: int, cycle: Cycle, fault: Fault)
        returns (r: Result<AgentInvoice, Error>)
      modifies this`invoices
      ensures State() == if Fails(fault) then old(State()) else Generated(old(State()), id, start, end, cycle)
      ensures r == Err(AgentNotFound) <==> fault == AgentLookup || FindAgent(agents, id).None?
      ensures r == Err(NotStored) ==>
                fault == if FindInvoice(old(invoices), id, start, cycle).Some? then InvoiceLookup else Insertion
      ensures r.Ok? <==>
                && fault != AgentLookup && FindAgent(agents, id).Some? && FindAgent(agents, id).value.active
                && fault != if FindInvoice(old(invoices), id, start, cycle).Some? then InvoiceLookup else Insertion
      ensures r.Ok? ==> r.value in invoices && Matches(r.value, id, start, cycle)
      ensures r.Err? ==> State() == old(State())
    {
      var agent := if fault == AgentLookup then None else FindAgent(agents, id);
      if agent.None? {
        return Err(AgentNotFound);
      }
      if !agent.value.active {
        return Err(AgentInactive);
      }
      var existing := if fault == InvoiceLookup then None else FindInvoice(invoices, id, start, cycle);
      if existing.Some? {
        return Ok(invoices[existing.value]);
      }
      if fault == Insertion || FindInvoice(invoices, id, start, cycle).Some? {
        return Err(NotStored);
      }
      var t := SumSales(sales, id, start, end);
      var inv := AgentInvoice(Statement(id, cycle, start, end, t.count, t.subtotal, t.sellingTotal, t.sellingTotal), 0, Unpaid);
      invoices := invoices + [inv];
      r := Ok(inv);
    }

    /** The part of a run that bills one active agent. */
    method ProcessAgent(agent: Agent, day: int, faults: Faults)
      requires agent.active
      modifies this`invoices
      ensures State() == Turn(old(State()), agent, day, faults)
    {
      match agent.cycle
      case Monthly =>
        if DayOfMonth(day) == agent.billingDay {
          var firstOfThisMonth := FirstOf(MonthOf(day));
          var firstOfLastMonth := FirstOf(MonthOf(day) - 1);
          var _ := GenerateForAgent(agent.id, firstOfLastMonth, firstOfThisMonth, Monthly, FaultOf(faults, agent.id));
        }
      case Weekly =>
        if Weekday(day) == agent.billingDay {
          var startOfThisWeek := day - (Weekday(day) - 1);
          var startOfLastWeek := startOfThisWeek - 7;
          WeekStarts(day);
          var _ := GenerateForAgent(agent.id, startOfLastWeek, startOfThisWeek, Weekly, FaultOf(faults, agent.id));
        }
      case OtherCycle =>
    }

    /** lists tells whether the agents can be listed. */
    method ProcessScheduled(day: int, lists: bool, faults: Faults) returns (done: bool)
      modifies this`invoices
      ensures done <==> lists
      ensures State() == if lists then Scheduled(old(State()), day, faults, Listed(agents)) else old(State())
    {
      if !lists {
        return false;
      }
      ghost var before := State();
      var k := 0;
      while k < Listed(agents)
        invariant 0 <= k <= Listed(agents)
        invariant State() == Scheduled(before, day, faults, k)
      {
        var agent := agents[k];
        k := k + 1;
        if !agent.active {
          continue;
        }
        ProcessAgent(agent, day, faults);
      }
      done := true;
    }

    method RequestPayment(i: nat, agent: Id, amount: int, stores: bool) returns (r: Result<(), Error>)
      modifies this`invoices
      ensures r.Ok? <==>
                && i < |old(invoices)| && old(invoices)[i].statement.agent == agent && CanRequest(old(invoices)[i])
                && stores
      ensures invoices == if r.Ok? then old(invoices)[i := Requested(old(invoices)[i], amount)] else old(invoices)
    {
      if i >= |invoices| {
        return Err(NotFound);
      }
      var inv := invoices[i];
      if inv.statement.agent != agent {
        return Err(AccessDenied);
      }
      if inv.status == Paid || inv.status == Cancelled {
        return Err(WrongStatus);
      }
      if !stores {
        return Err(NotStored);
      }
      invoices := invoices[i := inv.(status := Review, paid := amount)];
      r := Ok(());
    }

    method MarkPaid(i: nat, amount: int, stores: bool) returns (r: Result<(), Error>)
      modifies this`invoices
      ensures r.Ok? <==> i < |old(invoices)| && old(invoices)[i].status != Cancelled && stores
      ensures invoices == if r.Ok? then old(invoices)[i := MarkedPaid(old(invoices)[i], amount)] else old(invoices)
    {
      if i >= |invoices| {
        return Err(NotFound);
      }
      var inv := invoices[i];
      if inv.status == Cancelled {
        return Err(WrongStatus);
      }
      var status := Paid;
      if amount < inv.statement.total {
        status := Unpaid;
      }
      if !stores {
        return Err(NotStored);
      }
      invoices := invoices[i := inv.(status := status, paid := amount)];
      r := Ok(());
    }

    method Cancel(i: nat, stores: bool) returns (r: Result<(), Error>)
      modifies this`invoices
      ensures r.Ok? <==> i < |old(invoices)| && old(invoices)[i].status != Paid && stores
      ensures invoices == if r.Ok? then old(invoices)[i := old(invoices)[i].(status := Cancelled, paid := 0)] else old(invoices)
    {
      if i >= |invoices| {
        return Err(NotFound);
      }
      if invoices[i].status == Paid {
        return Err(WrongStatus);
      }
      if !stores {
        return Err(NotStored);
      }
      invoices := invoices[i := invoices[i].(status := Cancelled, paid := 0)];
      r := Ok(());
    }
  }

  predicate CanRequest(inv: AgentInvoice) { inv.status != Paid && inv.status != Cancelled }

  function Requested(inv: AgentInvoice, amount: int): AgentInvoice { inv.(status := Review, paid := amount) }

  function MarkedPaid(inv: AgentInvoice, amount: int): AgentInvoice
  {
    inv.(status := if amount < inv.statement.total then Unpaid else Paid, paid := amount)
  }
}
