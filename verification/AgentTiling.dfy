/**
 Runs of the agent billing over days: sales come in, agents change, invoices are paid or cancelled,
 and the scheduler runs at least once every day; a run may fail for some agents. For an agent that stays
 active with one cycle and billing day, the generated periods tile the timeline and account for every
 sale in it.
 */
module AgentTiling {
  import opened Common
  import opened Calendar
  import opened AgentInvoices

  datatype Event =
    | Sell(sale: Sale)
    | SetAgents(agents: seq<Agent>)
    | Run(day: int, faults: Faults)
    | Request(i: nat, amount: int)
    | Pay(i: nat, amount: int)
    | CancelInvoice(i: nat)

  function WithInvoice(books: Books, i: nat, inv: AgentInvoice): Books
    requires i < |books.invoices|
  {
    books.(invoices := books.invoices[i := inv])
  }

  function Apply(books: Books, e: Event): Books
  {
    match e
    case Sell(s) => books.(sales := books.sales + [s])
    case SetAgents(agents) => books.(agents := agents)
    case Run(day, faults) => Scheduled(books, day, faults, Listed(books.agents))
    case Request(i, amount) =>
      if i < |books.invoices| && CanRequest(books.invoices[i])
      then WithInvoice(books, i, Requested(books.invoices[i], amount)) else books
    case Pay(i, amount) =>
      if i < |books.invoices| && books.invoices[i].status != Cancelled
      then WithInvoice(books, i, MarkedPaid(books.invoices[i], amount)) else books
    case CancelInvoice(i) =>
      if i < |books.invoices| && books.invoices[i].status != Paid
      then WithInvoice(books, i, books.invoices[i].(status := Cancelled, paid := 0)) else books
  }

  function ApplyAll(books: Books, events: seq<Event>): Books
    decreases |events|
  {
    if events == [] then books else ApplyAll(Apply(books, events[0]), events[1..])
  }

  /** A run passes over exactly the agents that are not active, have no known cycle, are not due, or whose generation fails. */
  lemma RunPassesOver(books: Books, a: Agent, day: int, faults: Faults)
    ensures !a.active || a.cycle.OtherCycle? || (a.id in faults && faults[a.id] in {AgentLookup, Insertion}) ==>
              Turn(books, a, day, faults) == books
    ensures a.active && (a.id in faults ==> faults[a.id] in {NoFault, InvoiceLookup}) ==>
              Turn(books, a, day, faults) == Billed(books, a, day)
  {}

  // ---- The agent and the clock ----

  /** The agent is among those that a run looks at, and ids are unique. */
  ghost predicate Steady(agents: seq<Agent>, a: Agent)
  {
    && a.active
    && (exists i :: 0 <= i < Listed(agents) && agents[i] == a)
    && forall i, j :: 0 <= i < j < |agents| ==> agents[i].id != agents[j].id
  }

  /** The documented billing days: 1 to 28 for months, 1 to 7 for weeks. */
  predicate Documented(a: Agent)
  {
    || (a.cycle.Monthly? && 1 <= a.billingDay <= 28)
    || (a.cycle.Weekly? && 1 <= a.billingDay <= 7)
  }

  /**
   The clock never runs backwards, the agent stays as it is, and no day is skipped: each run that does not
   fail for the agent falls on the day of the one before it or on the next day. day is the last day with
   such a run, now the current day.
   */
  ghost predicate Daily(events: seq<Event>, a: Agent, day: int, now: int)
    decreases |events|
  {
    events == [] ||
    match events[0]
    case Run(today, faults) =>
      && now <= today
      && if Fails(FaultOf(faults, a.id)) then Daily(events[1..], a, day, today)
         else day <= today <= day + 1 && Daily(events[1..], a, today, today)
    case Sell(s) => now <= s.day && Daily(events[1..], a, day, s.day)
    case SetAgents(agents) => Steady(agents, a) && Daily(events[1..], a, day, now)
    case _ => Daily(events[1..], a, day, now)
  }

  /** The event is a run that does not fail for the agent. */
  predicate Serves(e: Event, a: Agent) { e.Run? && !Fails(FaultOf(e.faults, a.id)) }

  function LastDay(events: seq<Event>, a: Agent, day: int): int
    decreases |events|
  {
    if events == [] then day
    else LastDay(events[1..], a, if Serves(events[0], a) then events[0].day else day)
  }

  function BillDay(a: Agent, p: int): int { Start(a.cycle, p) + a.billingDay - 1 }

  /** The first month or week whose billing day is not before this day. */
  function FirstUnit(a: Agent, day: int): int
  {
    var p := UnitOf(a.cycle, day);
    if BillDay(a, p) >= day then p else p + 1
  }

  // ---- Calendar facts ----

  lemma StartsAdvance(cycle: Cycle, p: int, q: int)
    requires p < q
    ensures Start(cycle, p) < Start(cycle, p) + Length(cycle, p) <= Start(cycle, q)
  {
    if cycle.Monthly? {
      NextFirst(p);
      MonthsAdvance(p + 1, q);
    }
  }

  lemma UnitIsUnique(cycle: Cycle, day: int, p: int)
    requires Start(cycle, p) <= day < Start(cycle, p + 1)
    ensures UnitOf(cycle, day) == p
  {
    if cycle.Monthly? {
      NextFirst(p);
      MonthOfIsUnique(day, p);
    }
  }

  lemma UnitContains(cycle: Cycle, day: int)
    ensures Start(cycle, UnitOf(cycle, day)) <= day < Start(cycle, UnitOf(cycle, day) + 1)
  {
    if cycle.Monthly? {
      NextFirst(MonthOf(day));
    }
  }

  /** Some day of month or week p is one to bill on exactly when p has that many days. */
  lemma BilledExactlyWhenTheDayExists(a: Agent, p: int)
    requires !a.cycle.OtherCycle?
    ensures (exists d :: IsDue(a, d) && UnitOf(a.cycle, d) == p) <==> 1 <= a.billingDay <= Length(a.cycle, p)
  {
    if d :| IsDue(a, d) && UnitOf(a.cycle, d) == p {
      UnitContains(a.cycle, d);
      assert d == BillDay(a, p);
    }
    if 1 <= a.billingDay <= Length(a.cycle, p) {
      var d := BillDay(a, p);
      UnitIsUnique(a.cycle, d, p);
      assert IsDue(a, d);
    }
  }

  lemma DueMeansBillDay(a: Agent, d: int)
    requires Documented(a)
    ensures IsDue(a, d) ==> BillDay(a, UnitOf(a.cycle, d)) == d
    ensures forall p :: BillDay(a, p) == d ==> IsDue(a, d) && UnitOf(a.cycle, d) == p
  {
    forall p | BillDay(a, p) == d ensures IsDue(a, d) && UnitOf(a.cycle, d) == p {
      if a.cycle.Monthly? {
        NextFirst(p);
      }
      UnitIsUnique(a.cycle, d, p);
    }
  }

  lemma FirstUnitIsFirst(a: Agent, day: int)
    requires Documented(a)
    ensures BillDay(a, FirstUnit(a, day) - 1) < day <= BillDay(a, FirstUnit(a, day))
  {
    var p := UnitOf(a.cycle, day);
    UnitContains(a.cycle, day);
    NextFirst(p - 1);
  }

  // ---- One agent's statements ----

  function OfAgent(invoices: seq<AgentInvoice>, id: Id): seq<Statement>
  {
    if invoices == [] then []
    else
      var last := invoices[|invoices| - 1];
      OfAgent(invoices[..|invoices| - 1], id) + if last.statement.agent == id then [last.statement] else []
  }

  lemma OfAgentSnoc(invoices: seq<AgentInvoice>, inv: AgentInvoice, id: Id)
    ensures OfAgent(invoices + [inv], id) == OfAgent(invoices, id) + if inv.statement.agent == id then [inv.statement] else []
  {
    assert (invoices + [inv])[..|invoices|] == invoices;
  }

  lemma {:induction false} OfAgentUpdate(invoices: seq<AgentInvoice>, i: nat, inv: AgentInvoice, id: Id)
    requires i < |invoices| && inv.statement == invoices[i].statement
    ensures OfAgent(invoices[i := inv], id) == OfAgent(invoices, id)
  {
    var n := |invoices| - 1;
    if i < n {
      assert invoices[i := inv][..n] == invoices[..n][i := inv];
      OfAgentUpdate(invoices[..n], i, inv, id);
    } else {
      assert invoices[i := inv][..n] == invoices[..n];
    }
  }

  lemma {:induction false} InOfAgent(invoices: seq<AgentInvoice>, id: Id, i: nat)
    requires i < |invoices| && invoices[i].statement.agent == id
    ensures invoices[i].statement in OfAgent(invoices, id)
  {
    var n := |invoices| - 1;
    if i < n {
      InOfAgent(invoices[..n], id, i);
    }
  }

  lemma {:induction false} FromOfAgent(invoices: seq<AgentInvoice>, id: Id, st: Statement) returns (i: nat)
    requires st in OfAgent(invoices, id)
    ensures i < |invoices| && invoices[i].statement == st
  {
    i := |invoices| - 1;
    if !(invoices[i].statement == st) {
      i := FromOfAgent(invoices[..i], id, st);
    }
  }

  // ---- The invariant ----

  /** The statement is for unit p - 1, which the run of unit p bills. */
  predicate IsBill(st: Statement, a: Agent, p: int)
  {
    st.agent == a.id && st.cycle == a.cycle && st.start == Start(a.cycle, p - 1) && st.end == Start(a.cycle, p)
  }

  function TotalsOf(st: Statement): Totals { Totals(st.count, st.subtotal, st.sellingTotal) }

  /** The statement holds the totals of the sales of its period. */
  predicate Accurate(st: Statement, sales: seq<Sale>)
  {
    TotalsOf(st) == SumSales(sales, st.agent, st.start, st.end) && st.total == st.sellingTotal
  }

  /** The statements are those billed by the units lo, lo + 1, ... in order. */
  ghost predicate Bills(mine: seq<Statement>, a: Agent, lo: int)
  {
    forall k :: 0 <= k < |mine| ==> IsBill(mine[k], a, lo + k)
  }

  ghost predicate AllAccurate(mine: seq<Statement>, sales: seq<Sale>)
  {
    forall k :: 0 <= k < |mine| ==> Accurate(mine[k], sales)
  }

  /** The billing days of the units lo up to, not including, next are those that have come. */
  predicate Reached(a: Agent, lo: int, next: int, day: int, now: int)
  {
    && day < BillDay(a, next)
    && BillDay(a, lo - 1) < now
    && (lo < next ==> BillDay(a, next - 1) <= day <= now)
  }

  ghost predicate Tiled(books: Books, a: Agent, lo: int, day: int, now: int)
  {
    var mine := OfAgent(books.invoices, a.id);
    Bills(mine, a, lo) && AllAccurate(mine, books.sales) && Reached(a, lo, lo + |mine|, day, now)
  }

  lemma FindSteady(agents: seq<Agent>, a: Agent)
    requires Steady(agents, a)
    ensures FindAgent(agents, a.id) == Some(a)
  {
    var i :| 0 <= i < Listed(agents) && agents[i] == a;
    FindAt(agents, i);
  }

  lemma {:induction false} FindAt(agents: seq<Agent>, i: nat)
    requires i < |agents| && forall i, j :: 0 <= i < j < |agents| ==> agents[i].id != agents[j].id
    ensures FindAgent(agents, agents[i].id) == Some(agents[i])
  {
    if i > 0 {
      FindAt(agents[1..], i - 1);
    }
  }

  lemma SameStart(cycle: Cycle, p: int, q: int)
    requires Start(cycle, p) == Start(cycle, q)
    ensures p == q
  {
    if p < q {
      StartsAdvance(cycle, p, q);
    } else if q < p {
      StartsAdvance(cycle, q, p);
    }
  }

  lemma NextIsNotFound(invoices: seq<AgentInvoice>, a: Agent, lo: int)
    requires Bills(OfAgent(invoices, a.id), a, lo)
    ensures FindInvoice(invoices, a.id, Start(a.cycle, lo + |OfAgent(invoices, a.id)| - 1), a.cycle).None?
  {
    var mine := OfAgent(invoices, a.id);
    var found := FindInvoice(invoices, a.id, Start(a.cycle, lo + |mine| - 1), a.cycle);
    if found.Some? {
      var st := invoices[found.value].statement;
      InOfAgent(invoices, a.id, found.value);
      var k :| 0 <= k < |mine| && mine[k] == st;
      assert IsBill(mine[k], a, lo + k);
      SameStart(a.cycle, lo + k - 1, lo + |mine| - 1);
    }
  }

  lemma BilledIsFound(invoices: seq<AgentInvoice>, a: Agent, lo: int, p: int)
    requires Bills(OfAgent(invoices, a.id), a, lo) && lo <= p < lo + |OfAgent(invoices, a.id)|
    ensures FindInvoice(invoices, a.id, Start(a.cycle, p - 1), a.cycle).Some?
  {
    var st := OfAgent(invoices, a.id)[p - lo];
    assert IsBill(st, a, lo + (p - lo));
    var i := FromOfAgent(invoices, a.id, st);
    assert Matches(invoices[i], a.id, Start(a.cycle, p - 1), a.cycle);
  }

  /** The only unit that a run on this day can newly bill is the next one, and it does so on its billing day. */
  lemma DueUnit(a: Agent, lo: int, next: int, day: int, now: int, today: int)
    requires Documented(a) && lo <= next && Reached(a, lo, next, day, now)
    requires now <= today && day <= today <= day + 1 && IsDue(a, today)
    ensures BillDay(a, UnitOf(a.cycle, today)) == today
    ensures lo <= UnitOf(a.cycle, today) <= next
  {
    var p := UnitOf(a.cycle, today);
    DueMeansBillDay(a, today);
    if p < lo {
      BillDaysStep(a, p, lo - 1);
    }
    if next < p {
      BillDaysStep(a, next, p);
    }
  }

  lemma BillDaysStep(a: Agent, p: int, q: int)
    ensures p < q ==> BillDay(a, p) < BillDay(a, q)
    ensures p <= q ==> BillDay(a, p) <= BillDay(a, q)
  {
    if p < q {
      StartsAdvance(a.cycle, p, q);
    }
  }

  /** A run on a day on which the next unit is not due changes nothing. */
  lemma NotReached(a: Agent, lo: int, next: int, day: int, now: int, today: int)
    requires Documented(a) && lo <= next && Reached(a, lo, next, day, now)
    requires now <= today && day <= today <= day + 1
    requires !(IsDue(a, today) && UnitOf(a.cycle, today) == next)
    ensures Reached(a, lo, next, today, today)
  {
    DueMeansBillDay(a, today);
    assert BillDay(a, next) != today;
  }

  lemma NextReached(a: Agent, lo: int, next: int, day: int, now: int, today: int)
    requires lo <= next && Reached(a, lo, next, day, now) && now <= today && BillDay(a, next) == today
    ensures Reached(a, lo, next + 1, today, today)
  {
    BillDaysStep(a, next, next + 1);
    BillDaysStep(a, lo - 1, next);
  }

  lemma AddBill(mine: seq<Statement>, st: Statement, sales: seq<Sale>, a: Agent, lo: int)
    requires Bills(mine, a, lo) && AllAccurate(mine, sales) && IsBill(st, a, lo + |mine|) && Accurate(st, sales)
    ensures Bills(mine + [st], a, lo) && AllAccurate(mine + [st], sales)
  {}

  lemma NewInvoiceIsBill(sales: seq<Sale>, a: Agent, p: int)
    ensures var st := NewInvoice(sales, a.id, Start(a.cycle, p - 1), Start(a.cycle, p), a.cycle).statement;
            IsBill(st, a, p) && Accurate(st, sales)
  {}

  lemma BillsNext(books: Books, a: Agent, today: int) returns (st: Statement)
    requires Steady(books.agents, a) && IsDue(a, today)
    requires FindInvoice(books.invoices, a.id, Start(a.cycle, UnitOf(a.cycle, today) - 1), a.cycle).None?
    ensures OfAgent(Billed(books, a, today).invoices, a.id) == OfAgent(books.invoices, a.id) + [st]
    ensures IsBill(st, a, UnitOf(a.cycle, today)) && Accurate(st, books.sales)
  {
    var p := UnitOf(a.cycle, today);
    var inv := NewInvoice(books.sales, a.id, Start(a.cycle, p - 1), Start(a.cycle, p), a.cycle);
    st := inv.statement;
    NewInvoiceIsBill(books.sales, a, p);
    FindSteady(books.agents, a);
    OfAgentSnoc(books.invoices, inv, a.id);
  }

  lemma BillsNothing(books: Books, a: Agent, today: int)
    requires IsDue(a, today) ==> FindInvoice(books.invoices, a.id, Start(a.cycle, UnitOf(a.cycle, today) - 1), a.cycle).Some?
    ensures Billed(books, a, today) == books
  {}

  lemma BilledKeepsSales(books: Books, a: Agent, today: int)
    ensures Billed(books, a, today).sales == books.sales
  {}

  lemma TiledBy(books: Books, mine: seq<Statement>, sales: seq<Sale>, a: Agent, lo: int, day: int, now: int)
    requires mine == OfAgent(books.invoices, a.id) && sales == books.sales
    requires Bills(mine, a, lo) && AllAccurate(mine, sales) && Reached(a, lo, lo + |mine|, day, now)
    ensures Tiled(books, a, lo, day, now)
  {}

  lemma OwnTurnDue(books: Books, a: Agent, lo: int, day: int, now: int, today: int)
    requires Documented(a) && Steady(books.agents, a) && Tiled(books, a, lo, day, now)
    requires now <= today && day <= today <= day + 1
    requires IsDue(a, today) && UnitOf(a.cycle, today) == lo + |OfAgent(books.invoices, a.id)|
    ensures Tiled(Billed(books, a, today), a, lo, today, today)
  {
    var mine := OfAgent(books.invoices, a.id);
    var next := lo + |mine|;
    DueUnit(a, lo, next, day, now, today);
    NextReached(a, lo, next, day, now, today);
    NextIsNotFound(books.invoices, a, lo);
    var st := BillsNext(books, a, today);
    AddBill(mine, st, books.sales, a, lo);
    BilledKeepsSales(books, a, today);
    TiledBy(Billed(books, a, today), mine + [st], books.sales, a, lo, today, today);
  }

  lemma OwnTurnIdle(books: Books, a: Agent, lo: int, day: int, now: int, today: int)
    requires Documented(a) && Tiled(books, a, lo, day, now)
    requires now <= today && day <= today <= day + 1
    requires !(IsDue(a, today) && UnitOf(a.cycle, today) == lo + |OfAgent(books.invoices, a.id)|)
    ensures Tiled(Billed(books, a, today), a, lo, today, today)
  {
    var next := lo + |OfAgent(books.invoices, a.id)|;
    NotReached(a, lo, next, day, now, today);
    if IsDue(a, today) {
      DueUnit(a, lo, next, day, now, today);
      BilledIsFound(books.invoices, a, lo, UnitOf(a.cycle, today));
    }
    BillsNothing(books, a, today);
  }

  /** What a run does for the agent: it bills the next unit on its billing day, and otherwise nothing. */
  lemma OwnTurn(books: Books, a: Agent, lo: int, day: int, now: int, today: int)
    requires Documented(a) && Steady(books.agents, a) && Tiled(books, a, lo, day, now)
    requires now <= today && day <= today <= day + 1
    ensures Tiled(Billed(books, a, today), a, lo, today, today)
  {
    if IsDue(a, today) && UnitOf(a.cycle, today) == lo + |OfAgent(books.invoices, a.id)| {
      OwnTurnDue(books, a, lo, day, now, today);
    } else {
      OwnTurnIdle(books, a, lo, day, now, today);
    }
  }

  lemma OthersTurn(books: Books, b: Agent, day: int, faults: Faults, id: Id)
    requires b.id != id || Fails(FaultOf(faults, id))
    ensures OfAgent(Turn(books, b, day, faults).invoices, id) == OfAgent(books.invoices, id)
  {
    var p := UnitOf(b.cycle, day);
    OfAgentSnoc(books.invoices, NewInvoice(books.sales, b.id, Start(b.cycle, p - 1), Start(b.cycle, p), b.cycle), id);
  }

  lemma SameStatements(books: Books, next: Books, a: Agent, lo: int, day: int, now: int)
    requires Tiled(books, a, lo, day, now) && next.sales == books.sales
    requires OfAgent(next.invoices, a.id) == OfAgent(books.invoices, a.id)
    ensures Tiled(next, a, lo, day, now)
  {}

  /** A whole run: only the agent's own turn matters. */
  lemma {:induction false} BeforeOwnTurn(books: Books, a: Agent, lo: int, day: int, now: int, today: int, faults: Faults, k: nat)
    requires Tiled(books, a, lo, day, now) && k <= |books.agents|
    requires Fails(FaultOf(faults, a.id)) || forall j :: 0 <= j < k ==> books.agents[j].id != a.id
    ensures Tiled(Scheduled(books, today, faults, k), a, lo, day, now)
  {
    if k > 0 {
      BeforeOwnTurn(books, a, lo, day, now, today, faults, k - 1);
      var before := Scheduled(books, today, faults, k - 1);
      OthersTurn(before, books.agents[k - 1], today, faults, a.id);
      SameStatements(before, Turn(before, books.agents[k - 1], today, faults), a, lo, day, now);
    }
  }

  lemma {:induction false} AfterOwnTurn(books: Books, a: Agent, lo: int, today: int, faults: Faults, i: nat, k: nat)
    requires i < k <= |books.agents| && Tiled(Scheduled(books, today, faults, i + 1), a, lo, today, today)
    requires forall j :: i < j < |books.agents| ==> books.agents[j].id != a.id
    ensures Tiled(Scheduled(books, today, faults, k), a, lo, today, today)
  {
    if k > i + 1 {
      AfterOwnTurn(books, a, lo, today, faults, i, k - 1);
      var before := Scheduled(books, today, faults, k - 1);
      OthersTurn(before, books.agents[k - 1], today, faults, a.id);
      SameStatements(before, Turn(before, books.agents[k - 1], today, faults), a, lo, today, today);
    }
  }

  lemma RunKeepsTiled(books: Books, a: Agent, lo: int, day: int, now: int, today: int, faults: Faults)
    requires Documented(a) && Steady(books.agents, a) && Tiled(books, a, lo, day, now)
    requires now <= today && day <= today <= day + 1 && !Fails(FaultOf(faults, a.id))
    ensures Tiled(Scheduled(books, today, faults, Listed(books.agents)), a, lo, today, today)
  {
    var i :| 0 <= i < Listed(books.agents) && books.agents[i] == a;
    BeforeOwnTurn(books, a, lo, day, now, today, faults, i);
    OwnTurn(Scheduled(books, today, faults, i), a, lo, day, now, today);
    assert Scheduled(books, today, faults, i + 1) == Turn(Scheduled(books, today, faults, i), books.agents[i], today, faults);
    AfterOwnTurn(books, a, lo, today, faults, i, Listed(books.agents));
  }

  /** A run that fails for the agent only lets time pass. */
  lemma FailedRunKeepsTiled(books: Books, a: Agent, lo: int, day: int, now: int, today: int, faults: Faults)
    requires Tiled(books, a, lo, day, now) && now <= today && Fails(FaultOf(faults, a.id))
    ensures Tiled(Scheduled(books, today, faults, Listed(books.agents)), a, lo, day, today)
  {
    BeforeOwnTurn(books, a, lo, day, today, today, faults, Listed(books.agents));
  }

  lemma PastStatementStaysAccurate(st: Statement, sales: seq<Sale>, s: Sale)
    requires Accurate(st, sales) && st.end <= s.day
    ensures Accurate(st, sales + [s])
  {
    assert (sales + [s])[..|sales|] == sales;
    assert !InPeriod(s, st.agent, st.start, st.end);
  }

  lemma EndedBefore(mine: seq<Statement>, a: Agent, lo: int, day: int)
    requires Documented(a) && Bills(mine, a, lo) && (mine != [] ==> BillDay(a, lo + |mine| - 1) <= day)
    ensures forall k :: 0 <= k < |mine| ==> mine[k].end <= day
  {
    forall k | 0 <= k < |mine| ensures mine[k].end <= day {
      assert IsBill(mine[k], a, lo + k);
      BillDaysStep(a, lo + k, lo + |mine| - 1);
    }
  }

  /** A sale made now is in no period billed so far. */
  lemma SaleKeepsTiled(books: Books, a: Agent, lo: int, day: int, now: int, s: Sale)
    requires Documented(a) && Tiled(books, a, lo, day, now) && now <= s.day
    ensures Tiled(books.(sales := books.sales + [s]), a, lo, day, s.day)
  {
    var mine := OfAgent(books.invoices, a.id);
    EndedBefore(mine, a, lo, now);
    forall k | 0 <= k < |mine| ensures Accurate(mine[k], books.sales + [s]) {
      PastStatementStaysAccurate(mine[k], books.sales, s);
    }
  }

  /** Paying and cancelling leave the statements alone. */
  lemma OtherEventKeepsTiled(books: Books, e: Event, a: Agent, lo: int, day: int, now: int)
    requires Tiled(books, a, lo, day, now) && !e.Run? && !e.Sell?
    ensures Tiled(Apply(books, e), a, lo, day, now)
  {
    match e
    case Request(i, amount) =>
      if i < |books.invoices| { OfAgentUpdate(books.invoices, i, Requested(books.invoices[i], amount), a.id); }
    case Pay(i, amount) =>
      if i < |books.invoices| { OfAgentUpdate(books.invoices, i, MarkedPaid(books.invoices[i], amount), a.id); }
    case CancelInvoice(i) =>
      if i < |books.invoices| { OfAgentUpdate(books.invoices, i, books.invoices[i].(status := Cancelled, paid := 0), a.id); }
    case _ =>
  }

  /** The last day with a run that served the agent and the current day, after one event. */
  function After(e: Event, a: Agent, day: int, now: int): (int, int)
  {
    match e
    case Run(today, _) => (if Serves(e, a) then today else day, today)
    case Sell(s) => (day, s.day)
    case _ => (day, now)
  }

  lemma EventKeepsTiled(books: Books, e: Event, a: Agent, lo: int, day: int, now: int)
    requires Documented(a) && Steady(books.agents, a) && Tiled(books, a, lo, day, now)
    requires e.Run? ==> now <= e.day && (Serves(e, a) ==> day <= e.day <= day + 1)
    requires e.Sell? ==> now <= e.sale.day
    ensures Tiled(Apply(books, e), a, lo, After(e, a, day, now).0, After(e, a, day, now).1)
  {
    match e
    case Run(today, faults) =>
      if Serves(e, a) {
        RunKeepsTiled(books, a, lo, day, now, today, faults);
      } else {
        FailedRunKeepsTiled(books, a, lo, day, now, today, faults);
      }
    case Sell(s) => SaleKeepsTiled(books, a, lo, day, now, s);
    case _ => OtherEventKeepsTiled(books, e, a, lo, day, now);
  }

  lemma SteadyAfter(books: Books, e: Event, a: Agent)
    requires Steady(books.agents, a) && (e.SetAgents? ==> Steady(e.agents, a))
    ensures Steady(Apply(books, e).agents, a)
  {}

  lemma {:induction false} EventsKeepTiled(books: Books, events: seq<Event>, a: Agent, lo: int, day: int, now: int)
    returns (end: int)
    requires Documented(a) && Steady(books.agents, a) && Tiled(books, a, lo, day, now) && Daily(events, a, day, now)
    ensures Tiled(ApplyAll(books, events), a, lo, LastDay(events, a, day), end)
    decreases |events|
  {
    if events == [] {
      end := now;
    } else {
      var e := events[0];
      EventKeepsTiled(books, e, a, lo, day, now);
      SteadyAfter(books, e, a);
      end := EventsKeepTiled(Apply(books, e), events[1..], a, lo, After(e, a, day, now).0, After(e, a, day, now).1);
    }
  }

  // ---- The periods tile the timeline ----

  /** The statements cover [first, last) without gap or overlap. */
  ghost predicate Tiles(mine: seq<Statement>, first: int, last: int)
  {
    if mine == [] then first == last
    else
      && mine[0].start == first && mine[|mine| - 1].end == last
      && (forall k :: 0 <= k < |mine| ==> mine[k].start < mine[k].end)
      && (forall k :: 0 <= k < |mine| - 1 ==> mine[k].end == mine[k + 1].start)
  }

  lemma BillsTile(a: Agent, lo: int, mine: seq<Statement>)
    requires Bills(mine, a, lo)
    ensures Tiles(mine, Start(a.cycle, lo - 1), Start(a.cycle, lo + |mine| - 1))
  {
    forall k | 0 <= k < |mine| ensures mine[k].start < mine[k].end {
      assert IsBill(mine[k], a, lo + k);
      StartsAdvance(a.cycle, lo + k - 1, lo + k);
    }
    forall k | 0 <= k < |mine| - 1 ensures mine[k].end == mine[k + 1].start {
      assert IsBill(mine[k], a, lo + k) && IsBill(mine[k + 1], a, lo + k + 1);
    }
  }

  lemma TiledAtFirst(books: Books, a: Agent, firstDay: int)
    requires Documented(a) && OfAgent(books.invoices, a.id) == []
    ensures Tiled(books, a, FirstUnit(a, firstDay), firstDay - 1, firstDay)
  {
    FirstUnitIsFirst(a, firstDay);
  }

  /**
   The agent's invoices are one for each month or week lo, lo + 1, ... whose billing day has come by
   that day and no more, each with the totals of the sales of its period, and their periods tile the
   time from the start of the unit before lo.
   */
  ghost predicate BilledThrough(books: Books, a: Agent, lo: int, day: int)
  {
    var mine := OfAgent(books.invoices, a.id);
    && Bills(mine, a, lo) && AllAccurate(mine, books.sales)
    && Tiles(mine, Start(a.cycle, lo - 1), Start(a.cycle, lo + |mine| - 1))
    && (mine != [] ==> BillDay(a, lo + |mine| - 1) <= day)
    && day < BillDay(a, lo + |mine|)
  }

  lemma TiledMeans(books: Books, a: Agent, lo: int, day: int, now: int)
    requires Tiled(books, a, lo, day, now)
    ensures BilledThrough(books, a, lo, day)
  {
    BillsTile(a, lo, OfAgent(books.invoices, a.id));
  }

  lemma EventsBillThrough(books: Books, events: seq<Event>, a: Agent, lo: int, day: int, now: int)
    requires Documented(a) && Steady(books.agents, a) && Tiled(books, a, lo, day, now) && Daily(events, a, day, now)
    ensures BilledThrough(ApplyAll(books, events), a, lo, LastDay(events, a, day))
  {
    var end := EventsKeepTiled(books, events, a, lo, day, now);
    TiledMeans(ApplyAll(books, events), a, lo, LastDay(events, a, day), end);
  }

  /**
   For an agent with a documented billing day that stays listed and active, with at least one run on every
   day from firstDay to the last that does not fail for the agent, the invoices tile the time.
   */
  lemma ScheduledPeriodsTile(books: Books, events: seq<Event>, a: Agent, firstDay: int)
    requires Documented(a) && Steady(books.agents, a) && OfAgent(books.invoices, a.id) == []
    requires Daily(events, a, firstDay - 1, firstDay)
    ensures BilledThrough(ApplyAll(books, events), a, FirstUnit(a, firstDay), LastDay(events, a, firstDay - 1))
  {
    TiledAtFirst(books, a, firstDay);
    EventsBillThrough(books, events, a, FirstUnit(a, firstDay), firstDay - 1, firstDay);
  }

  // ---- Every sale is billed once, and the totals add up ----

  ghost predicate Contains(st: Statement, s: Sale) { s.agent == st.agent && st.start <= s.day < st.end }

  /** The agent's sales from day start up to, not including, day end. */
  function SalesOf(sales: seq<Sale>, agent: Id, start: int, end: int): seq<Sale>
  {
    if sales == [] then []
    else
      var last := sales[|sales| - 1];
      SalesOf(sales[..|sales| - 1], agent, start, end) + if last.agent == agent && start <= last.day < end then [last] else []
  }

  function Sum(amounts: seq<int>): int
  {
    if amounts == [] then 0 else Sum(amounts[..|amounts| - 1]) + amounts[|amounts| - 1]
  }

  function Prices(sales: seq<Sale>): seq<int> { seq(|sales|, i requires 0 <= i < |sales| => sales[i].price) }

  function SellingPrices(sales: seq<Sale>): seq<int> { seq(|sales|, i requires 0 <= i < |sales| => sales[i].sellingPrice) }

  lemma OneMoreSale(mine: seq<Sale>, last: Sale)
    ensures Sum(Prices(mine + [last])) == Sum(Prices(mine)) + last.price
    ensures Sum(SellingPrices(mine + [last])) == Sum(SellingPrices(mine)) + last.sellingPrice
  {
    assert Prices(mine + [last])[..|mine|] == Prices(mine);
    assert SellingPrices(mine + [last])[..|mine|] == SellingPrices(mine);
  }

  /** The totals are the number, the prices and the selling prices of the agent's sales of the period. */
  lemma {:induction false} TotalsAreOfTheSales(sales: seq<Sale>, agent: Id, start: int, end: int)
    ensures var mine, t := SalesOf(sales, agent, start, end), SumSales(sales, agent, start, end);
            t.count == |mine| && t.subtotal == Sum(Prices(mine)) && t.sellingTotal == Sum(SellingPrices(mine))
  {
    if sales != [] {
      var front, last := sales[..|sales| - 1], sales[|sales| - 1];
      var mine := SalesOf(front, agent, start, end);
      TotalsAreOfTheSales(front, agent, start, end);
      if last.agent == agent && start <= last.day < end {
        OneMoreSale(mine, last);
      } else {
        assert mine + [] == mine;
      }
    }
  }

  /** A new invoice is for that period and unpaid, and bills the agent the selling prices of its sales. */
  lemma NewInvoiceBillsTheSales(books: Books, id: Id, start: int, end: int, cycle: Cycle)
    ensures var inv, mine := NewInvoice(books.sales, id, start, end, cycle), SalesOf(books.sales, id, start, end);
            && inv.status == Unpaid && inv.paid == 0
            && inv.statement == Statement(id, cycle, start, end, |mine|, Sum(Prices(mine)), Sum(SellingPrices(mine)),
                                          Sum(SellingPrices(mine)))
  {
    TotalsAreOfTheSales(books.sales, id, start, end);
  }

  lemma {:induction false} TilesOrdered(mine: seq<Statement>, first: int, last: int, j: nat, k: nat)
    requires Tiles(mine, first, last) && j < k < |mine|
    ensures mine[j].end <= mine[k].start
  {
    if j + 1 < k {
      TilesOrdered(mine, first, last, j, k - 1);
    }
  }

  lemma {:induction false} SomePeriodContains(mine: seq<Statement>, first: int, last: int, id: Id, s: Sale) returns (k: nat)
    requires Tiles(mine, first, last) && InPeriod(s, id, first, last)
    requires forall k :: 0 <= k < |mine| ==> mine[k].agent == id
    ensures k < |mine| && Contains(mine[k], s)
  {
    k := 0;
    while mine[k].end <= s.day
      invariant k < |mine| && mine[k].start <= s.day
      decreases |mine| - k
    {
      k := k + 1;
    }
  }

  lemma ContainedInRange(mine: seq<Statement>, first: int, last: int, id: Id, s: Sale, k: nat)
    requires Tiles(mine, first, last) && k < |mine| && mine[k].agent == id && Contains(mine[k], s)
    ensures InPeriod(s, id, first, last)
  {
    if k > 0 {
      TilesOrdered(mine, first, last, 0, k);
    }
    if k < |mine| - 1 {
      TilesOrdered(mine, first, last, k, |mine| - 1);
    }
  }

  lemma EverySaleBilled(mine: seq<Statement>, first: int, last: int, id: Id, s: Sale)
    requires Tiles(mine, first, last) && forall k :: 0 <= k < |mine| ==> mine[k].agent == id
    ensures InPeriod(s, id, first, last) <==> exists k :: 0 <= k < |mine| && Contains(mine[k], s)
  {
    if InPeriod(s, id, first, last) {
      var k := SomePeriodContains(mine, first, last, id, s);
    }
    if k :| 0 <= k < |mine| && Contains(mine[k], s) {
      ContainedInRange(mine, first, last, id, s, k);
    }
  }

  function SumStatements(mine: seq<Statement>): Totals
  {
    if mine == [] then Totals(0, 0, 0)
    else Plus(SumStatements(mine[..|mine| - 1]), TotalsOf(mine[|mine| - 1]))
  }

  lemma PlusSwaps(a: Totals, b: Totals, c: Totals, d: Totals)
    ensures Plus(Plus(a, b), Plus(c, d)) == Plus(Plus(a, c), Plus(b, d))
  {}

  lemma SaleSplits(s: Sale, id: Id, x: int, y: int, z: int)
    requires x <= y <= z
    ensures Plus(InTotals(s, id, x, y), InTotals(s, id, y, z)) == InTotals(s, id, x, z)
  {}

  lemma {:induction false} SumSalesSplits(sales: seq<Sale>, id: Id, x: int, y: int, z: int)
    requires x <= y <= z
    ensures Plus(SumSales(sales, id, x, y), SumSales(sales, id, y, z)) == SumSales(sales, id, x, z)
  {
    if sales != [] {
      var front, last := sales[..|sales| - 1], sales[|sales| - 1];
      SumSalesSplits(front, id, x, y, z);
      SaleSplits(last, id, x, y, z);
      PlusSwaps(SumSales(front, id, x, y), InTotals(last, id, x, y), SumSales(front, id, y, z), InTotals(last, id, y, z));
    }
  }

  lemma {:induction false} EmptyPeriod(sales: seq<Sale>, id: Id, x: int)
    ensures SumSales(sales, id, x, x) == Totals(0, 0, 0)
  {
    if sales != [] {
      EmptyPeriod(sales[..|sales| - 1], id, x);
    }
  }

  /** The invoices' counts and amounts add up to those of the sales in the covered time. */
  lemma {:induction false} InvoicesSumToSales(sales: seq<Sale>, id: Id, first: int, last: int, mine: seq<Statement>)
    requires Tiles(mine, first, last) && AllAccurate(mine, sales)
    requires forall k :: 0 <= k < |mine| ==> mine[k].agent == id
    ensures SumStatements(mine) == SumSales(sales, id, first, last)
    decreases |mine|
  {
    if mine == [] {
      EmptyPeriod(sales, id, first);
    } else {
      var n := |mine| - 1;
      var st := mine[n];
      TilesFront(mine, first, last);
      InvoicesSumToSales(sales, id, first, st.start, mine[..n]);
      assert Accurate(st, sales);
      SumSalesSplits(sales, id, first, st.start, st.end);
    }
  }

  lemma TilesFront(mine: seq<Statement>, first: int, last: int)
    requires Tiles(mine, first, last) && mine != []
    ensures Tiles(mine[..|mine| - 1], first, mine[|mine| - 1].start)
    ensures first <= mine[|mine| - 1].start < mine[|mine| - 1].end == last
  {
    var n := |mine| - 1;
    if n > 0 {
      TilesOrdered(mine, first, last, 0, n);
    }
  }

  /** Every sale of [first, last), and no other, is billed. */
  ghost predicate Covers(mine: seq<Statement>, id: Id, first: int, last: int)
  {
    forall s: Sale :: InPeriod(s, id, first, last) <==> exists k :: 0 <= k < |mine| && Contains(mine[k], s)
  }

  /** No sale is billed twice. */
  ghost predicate Disjoint(mine: seq<Statement>)
  {
    forall s: Sale, j, k :: 0 <= j < k < |mine| ==> !(Contains(mine[j], s) && Contains(mine[k], s))
  }

  lemma TilesCover(mine: seq<Statement>, id: Id, first: int, last: int)
    requires Tiles(mine, first, last) && forall k :: 0 <= k < |mine| ==> mine[k].agent == id
    ensures Covers(mine, id, first, last)
  {
    forall s: Sale ensures InPeriod(s, id, first, last) <==> exists k :: 0 <= k < |mine| && Contains(mine[k], s) {
      EverySaleBilled(mine, first, last, id, s);
    }
  }

  lemma TilesAreDisjoint(mine: seq<Statement>, first: int, last: int)
    requires Tiles(mine, first, last)
    ensures Disjoint(mine)
  {
    forall s: Sale, j, k | 0 <= j < k < |mine| ensures !(Contains(mine[j], s) && Contains(mine[k], s)) {
      TilesOrdered(mine, first, last, j, k);
    }
  }

  lemma BillsAreTheAgents(mine: seq<Statement>, a: Agent, lo: int)
    requires Bills(mine, a, lo)
    ensures forall k :: 0 <= k < |mine| ==> mine[k].agent == a.id
  {
    assert forall k :: 0 <= k < |mine| ==> IsBill(mine[k], a, lo + k);
  }

  ghost predicate Accounts(mine: seq<Statement>, sales: seq<Sale>, id: Id, first: int, last: int)
  {
    Covers(mine, id, first, last) && Disjoint(mine) && SumStatements(mine) == SumSales(sales, id, first, last)
  }

  lemma TilesAccount(mine: seq<Statement>, sales: seq<Sale>, a: Agent, lo: int, first: int, last: int)
    requires Bills(mine, a, lo) && AllAccurate(mine, sales) && Tiles(mine, first, last)
    ensures Accounts(mine, sales, a.id, first, last)
  {
    BillsAreTheAgents(mine, a, lo);
    TilesCover(mine, a.id, first, last);
    TilesAreDisjoint(mine, first, last);
    InvoicesSumToSales(sales, a.id, first, last, mine);
  }

  /**
   In such books each sale from the start of the first billed unit to the end of the last, and no other,
   is in exactly one invoice, and the invoices' counts and amounts add up to those of these sales.
   */
  lemma EverySaleBilledOnce(books: Books, a: Agent, lo: int, day: int, first: int, last: int)
    requires BilledThrough(books, a, lo, day)
    requires first == Start(a.cycle, lo - 1) && last == Start(a.cycle, lo + |OfAgent(books.invoices, a.id)| - 1)
    ensures Accounts(OfAgent(books.invoices, a.id), books.sales, a.id, first, last)
  {
    TilesAccount(OfAgent(books.invoices, a.id), books.sales, a, lo, first, last);
  }

  // ---- The invoices' life ----

  /** Only a full payment makes an invoice paid, and a cancelled one has no payment. */
  predicate Consistent(inv: AgentInvoice)
  {
    && (inv.status == Paid ==> inv.paid >= inv.statement.total)
    && (inv.status == Cancelled ==> inv.paid == 0)
  }

  /** What a list of invoices may become: none is lost or restated, a cancelled one never changes, new ones are unpaid. */
  ghost predicate Grows(before: seq<AgentInvoice>, after: seq<AgentInvoice>)
  {
    && |before| <= |after|
    && (forall i :: 0 <= i < |before| ==> after[i].statement == before[i].statement)
    && (forall i :: 0 <= i < |before| ==> Consistent(before[i]) ==> Consistent(after[i]))
    && (forall i :: 0 <= i < |before| ==> Consistent(before[i]) && before[i].status == Cancelled ==> after[i] == before[i])
    && (forall i :: |before| <= i < |after| ==> Consistent(after[i]))
  }

  lemma {:induction false} RunGrows(books: Books, day: int, faults: Faults, k: nat)
    requires k <= |books.agents|
    ensures Grows(books.invoices, Scheduled(books, day, faults, k).invoices)
  {
    if k > 0 {
      RunGrows(books, day, faults, k - 1);
    }
  }

  lemma EventGrows(books: Books, e: Event)
    ensures Grows(books.invoices, Apply(books, e).invoices)
  {
    if e.Run? {
      RunGrows(books, e.day, e.faults, Listed(books.agents));
    }
  }

  lemma {:induction false} EventsGrow(books: Books, events: seq<Event>)
    ensures Grows(books.invoices, ApplyAll(books, events).invoices)
    decreases |events|
  {
    if events != [] {
      EventGrows(books, events[0]);
      EventsGrow(Apply(books, events[0]), events[1..]);
    }
  }

  /**
   What a payment makes of an invoice: a report of a payment puts it under review unless it is settled; a
   payment of at least the total makes it paid, and a smaller one unpaid, unless it is cancelled; and a
   cancellation takes its payment away unless it is paid.
   */
  lemma PaymentsSettle(books: Books, e: Event, i: nat)
    requires i < |books.invoices| && (e.Request? || e.Pay? || e.CancelInvoice?)
    ensures var before, after := books.invoices[i], Apply(books, e).invoices[i];
            && |Apply(books, e).invoices| == |books.invoices| && Apply(books, e).sales == books.sales
            && after.statement == before.statement
            && (if e.i != i || (e.Request? && before.status in {Paid, Cancelled}) || (e.Pay? && before.status == Cancelled)
                || (e.CancelInvoice? && before.status == Paid)
                then after == before
                else if e.Request? then after.status == Review && after.paid == e.amount
                else if e.Pay? then
                  after.paid == e.amount && after.status == if e.amount >= before.statement.total then Paid else Unpaid
                else after.status == Cancelled && after.paid == 0)
  {}

  // ---- Outside the documented days ----

  /** The agent's statements after are those before, and bills of units with a day on which the agent was due. */
  ghost predicate OnlyDueBills(before: seq<Statement>, after: seq<Statement>, a: Agent)
  {
    forall st :: st in after ==> st in before || exists d :: IsDue(a, d) && IsBill(st, a, UnitOf(a.cycle, d))
  }

  lemma OwnTurnOnlyDue(books: Books, a: Agent, day: int)
    requires Steady(books.agents, a)
    ensures OnlyDueBills(OfAgent(books.invoices, a.id), OfAgent(Billed(books, a, day).invoices, a.id), a)
  {
    if IsDue(a, day) && FindInvoice(books.invoices, a.id, Start(a.cycle, UnitOf(a.cycle, day) - 1), a.cycle).None? {
      var st := BillsNext(books, a, day);
      assert IsDue(a, day) && IsBill(st, a, UnitOf(a.cycle, day));
    } else {
      BillsNothing(books, a, day);
    }
  }

  lemma {:induction false} RunOnlyDue(books: Books, a: Agent, day: int, faults: Faults, k: nat)
    requires Steady(books.agents, a) && k <= |books.agents|
    ensures OnlyDueBills(OfAgent(books.invoices, a.id), OfAgent(Scheduled(books, day, faults, k).invoices, a.id), a)
  {
    if k > 0 {
      var before := Scheduled(books, day, faults, k - 1);
      RunOnlyDue(books, a, day, faults, k - 1);
      if books.agents[k - 1].id == a.id && !Fails(FaultOf(faults, a.id)) {
        assert books.agents[k - 1] == a;
        OwnTurnOnlyDue(before, a, day);
      } else {
        OthersTurn(before, books.agents[k - 1], day, faults, a.id);
      }
    }
  }

  lemma EventOnlyDue(books: Books, e: Event, a: Agent)
    requires Steady(books.agents, a)
    ensures OnlyDueBills(OfAgent(books.invoices, a.id), OfAgent(Apply(books, e).invoices, a.id), a)
  {
    match e
    case Run(day, faults) => RunOnlyDue(books, a, day, faults, Listed(books.agents));
    case Request(i, amount) =>
      if i < |books.invoices| { OfAgentUpdate(books.invoices, i, Requested(books.invoices[i], amount), a.id); }
    case Pay(i, amount) =>
      if i < |books.invoices| { OfAgentUpdate(books.invoices, i, MarkedPaid(books.invoices[i], amount), a.id); }
    case CancelInvoice(i) =>
      if i < |books.invoices| { OfAgentUpdate(books.invoices, i, books.invoices[i].(status := Cancelled, paid := 0), a.id); }
    case _ =>
  }

  ghost predicate SteadyThrough(events: seq<Event>, a: Agent)
  {
    forall e <- events :: e.SetAgents? ==> Steady(e.agents, a)
  }

  lemma {:induction false} EventsOnlyDue(books: Books, events: seq<Event>, a: Agent)
    requires Steady(books.agents, a) && SteadyThrough(events, a)
    ensures OnlyDueBills(OfAgent(books.invoices, a.id), OfAgent(ApplyAll(books, events).invoices, a.id), a)
    decreases |events|
  {
    if events != [] {
      EventOnlyDue(books, events[0], a);
      SteadyAfter(books, events[0], a);
      EventsOnlyDue(Apply(books, events[0]), events[1..], a);
    }
  }

  /**
   Whatever happens and whenever the scheduler runs, an agent is never billed for the unit before one that
   has no day with the number of its billing day.
   */
  lemma MissingDayLeavesAGap(books: Books, events: seq<Event>, a: Agent, p: int, st: Statement)
    requires Steady(books.agents, a) && SteadyThrough(events, a) && !a.cycle.OtherCycle?
    requires !(1 <= a.billingDay <= Length(a.cycle, p))
    requires st in OfAgent(ApplyAll(books, events).invoices, a.id) && st.start == Start(a.cycle, p - 1)
    ensures st in OfAgent(books.invoices, a.id)
  {
    EventsOnlyDue(books, events, a);
    BilledExactlyWhenTheDayExists(a, p);
    if st !in OfAgent(books.invoices, a.id) {
      var d :| IsDue(a, d) && IsBill(st, a, UnitOf(a.cycle, d));
      SameStart(a.cycle, UnitOf(a.cycle, d) - 1, p - 1);
    }
  }

  // ---- Billed exactly when the day exists ----

  /** The agent has an invoice for that month or week. */
  predicate HasBill(invoices: seq<AgentInvoice>, a: Agent, unit: int)
  {
    FindInvoice(invoices, a.id, Start(a.cycle, unit), a.cycle).Some?
  }

  lemma GrowingKeepsBill(before: seq<AgentInvoice>, after: seq<AgentInvoice>, a: Agent, unit: int)
    requires Grows(before, after) && HasBill(before, a, unit)
    ensures HasBill(after, a, unit)
  {
    var i := FindInvoice(before, a.id, Start(a.cycle, unit), a.cycle).value;
    assert Matches(after[i], a.id, Start(a.cycle, unit), a.cycle);
  }

  lemma TurnBills(books: Books, a: Agent, day: int, p: int)
    requires Steady(books.agents, a) && IsDue(a, day) && UnitOf(a.cycle, day) == p
    ensures HasBill(Billed(books, a, day).invoices, a, p - 1)
  {
    var after := Billed(books, a, day).invoices;
    FindSteady(books.agents, a);
    if !HasBill(books.invoices, a, p - 1) {
      assert Matches(after[|after| - 1], a.id, Start(a.cycle, p - 1), a.cycle);
    }
  }

  lemma {:induction false} RunBills(books: Books, a: Agent, day: int, p: int, faults: Faults, i: nat, k: nat)
    requires Steady(books.agents, a) && i < k <= |books.agents| && books.agents[i] == a
    requires IsDue(a, day) && UnitOf(a.cycle, day) == p && !Fails(FaultOf(faults, a.id))
    ensures HasBill(Scheduled(books, day, faults, k).invoices, a, p - 1)
  {
    var before := Scheduled(books, day, faults, k - 1);
    if i == k - 1 {
      TurnBills(before, a, day, p);
    } else {
      RunBills(books, a, day, p, faults, i, k - 1);
      TurnGrows(before, books.agents[k - 1], day, faults);
      GrowingKeepsBill(before.invoices, Scheduled(books, day, faults, k).invoices, a, p - 1);
    }
  }

  lemma TurnGrows(books: Books, b: Agent, day: int, faults: Faults)
    ensures Grows(books.invoices, Turn(books, b, day, faults).invoices)
  {}

  /** On a due day that the runs reach, one of them bills the agent. */
  lemma {:induction false} DueDayBills(books: Books, events: seq<Event>, a: Agent, day: int, now: int, due: int, p: int)
    requires Steady(books.agents, a) && Daily(events, a, day, now)
    requires IsDue(a, due) && UnitOf(a.cycle, due) == p && day < due <= LastDay(events, a, day)
    ensures HasBill(ApplyAll(books, events).invoices, a, p - 1)
    decreases |events|
  {
    var e := events[0];
    if Serves(e, a) && e.day == due {
      var i :| 0 <= i < Listed(books.agents) && books.agents[i] == a;
      RunBills(books, a, due, p, e.faults, i, Listed(books.agents));
      EventsGrow(Apply(books, e), events[1..]);
      GrowingKeepsBill(Apply(books, e).invoices, ApplyAll(books, events).invoices, a, p - 1);
    } else {
      SteadyAfter(books, e, a);
      DueDayBills(Apply(books, e), events[1..], a, After(e, a, day, now).0, After(e, a, day, now).1, due, p);
    }
  }

  lemma {:induction false} DailyIsSteady(events: seq<Event>, a: Agent, day: int, now: int)
    requires Daily(events, a, day, now)
    ensures SteadyThrough(events, a)
    decreases |events|
  {
    if events != [] {
      DailyIsSteady(events[1..], a, After(events[0], a, day, now).0, After(events[0], a, day, now).1);
      assert events == [events[0]] + events[1..];
    }
  }

  /** An invoice for the unit before one without the day was there before. */
  lemma UndueBillIsOld(books: Books, events: seq<Event>, a: Agent, p: int)
    requires Steady(books.agents, a) && SteadyThrough(events, a) && !a.cycle.OtherCycle?
    requires !(1 <= a.billingDay <= Length(a.cycle, p)) && HasBill(ApplyAll(books, events).invoices, a, p - 1)
    ensures HasBill(books.invoices, a, p - 1)
  {
    var after := ApplyAll(books, events).invoices;
    var i := FindInvoice(after, a.id, Start(a.cycle, p - 1), a.cycle).value;
    InOfAgent(after, a.id, i);
    MissingDayLeavesAGap(books, events, a, p, after[i].statement);
    var j := FromOfAgent(books.invoices, a.id, after[i].statement);
    assert Matches(books.invoices[j], a.id, Start(a.cycle, p - 1), a.cycle);
  }

  lemma DueDayIn(a: Agent, p: int, day: int, last: int) returns (due: int)
    requires !a.cycle.OtherCycle? && 1 <= a.billingDay <= Length(a.cycle, p)
    requires day < Start(a.cycle, p) && Start(a.cycle, p + 1) - 1 <= last
    ensures IsDue(a, due) && UnitOf(a.cycle, due) == p && day < due <= last
  {
    BilledExactlyWhenTheDayExists(a, p);
    due :| IsDue(a, due) && UnitOf(a.cycle, due) == p;
    UnitContains(a.cycle, due);
  }

  lemma ExistingDayBills(books: Books, events: seq<Event>, a: Agent, p: int, day: int, now: int)
    requires Steady(books.agents, a) && Daily(events, a, day, now) && !a.cycle.OtherCycle?
    requires day < Start(a.cycle, p) && Start(a.cycle, p + 1) - 1 <= LastDay(events, a, day)
    requires 1 <= a.billingDay <= Length(a.cycle, p)
    ensures HasBill(ApplyAll(books, events).invoices, a, p - 1)
  {
    var due := DueDayIn(a, p, day, LastDay(events, a, day));
    DueDayBills(books, events, a, day, now, due, p);
  }

  /**
   For an agent with any billing day, when the runs cover the whole of month or week p, the one before it
   has an invoice in the end if and only if it had one or p has a day with the number of the billing day.
   */
  lemma RunsBillExactlyWhenTheDayExists(books: Books, events: seq<Event>, a: Agent, p: int, day: int, now: int)
    requires Steady(books.agents, a) && Daily(events, a, day, now) && !a.cycle.OtherCycle?
    requires day < Start(a.cycle, p) && Start(a.cycle, p + 1) - 1 <= LastDay(events, a, day)
    ensures HasBill(ApplyAll(books, events).invoices, a, p - 1)
       <==> HasBill(books.invoices, a, p - 1) || 1 <= a.billingDay <= Length(a.cycle, p)
  {
    var after := ApplyAll(books, events).invoices;
    if HasBill(books.invoices, a, p - 1) {
      EventsGrow(books, events);
      GrowingKeepsBill(books.invoices, after, a, p - 1);
    } else if 1 <= a.billingDay <= Length(a.cycle, p) {
      ExistingDayBills(books, events, a, p, day, now);
    } else if HasBill(after, a, p - 1) {
      DailyIsSteady(events, a, day, now);
      UndueBillIsOld(books, events, a, p);
    }
  }

  lemma MonthsAreUnits(a: Agent, p: int)
    requires a.cycle.Monthly?
    ensures Length(a.cycle, p) == MonthLength(p) && Start(a.cycle, p - 1) == FirstOf(p - 1)
  {
    NextFirst(p);
  }

  lemma NotFromTheMonthBefore(books: Books, events: seq<Event>, a: Agent, p: int, st: Statement)
    requires Steady(books.agents, a) && SteadyThrough(events, a) && a.cycle.Monthly? && a.billingDay > MonthLength(p)
    requires OfAgent(books.invoices, a.id) == [] && st in OfAgent(ApplyAll(books, events).invoices, a.id)
    ensures st.start != FirstOf(p - 1)
  {
    MonthsAreUnits(a, p);
    if st.start == Start(a.cycle, p - 1) {
      MissingDayLeavesAGap(books, events, a, p, st);
    }
  }

  /** A monthly agent never gets an invoice for the month before one that is too short for its billing day. */
  lemma ShortMonthLeavesAGap(books: Books, events: seq<Event>, a: Agent, p: int)
    requires Steady(books.agents, a) && SteadyThrough(events, a) && a.cycle.Monthly? && a.billingDay > MonthLength(p)
    requires OfAgent(books.invoices, a.id) == []
    ensures forall st <- OfAgent(ApplyAll(books, events).invoices, a.id) :: st.start != FirstOf(p - 1)
  {
    forall st | st in OfAgent(ApplyAll(books, events).invoices, a.id) ensures st.start != FirstOf(p - 1) {
      NotFromTheMonthBefore(books, events, a, p, st);
    }
  }

  const APRIL_2024: int := 12 * (2024 - 1) + 3

  /** A monthly agent with billing day 31 never gets an invoice from 1 March 2024: April has no such day. */
  lemma Day31LeavesAGap(books: Books, events: seq<Event>, a: Agent)
    requires Steady(books.agents, a) && SteadyThrough(events, a) && a.cycle.Monthly? && a.billingDay == 31
    requires OfAgent(books.invoices, a.id) == []
    ensures forall st <- OfAgent(ApplyAll(books, events).invoices, a.id) :: st.start != FirstOf(APRIL_2024 - 1)
  {
    LengthsOfMonths(2024, 4);
    ShortMonthLeavesAGap(books, events, a, APRIL_2024);
  }
}
