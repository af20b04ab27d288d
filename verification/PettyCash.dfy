/**
 Cash entries and petty-cash funds, internal/service/cash_management_service.go. An expense linked to a
 fund is debited when it is entered and credited back when it is rejected or deleted. Ids are positions
 in the tables, which only grow: a deleted entry keeps its place. Amounts are in cents.
 */
module PettyCash {
  import opened Common

  type Id = nat

  datatype Fund = Fund(initial: int, balance: int)

  datatype Kind = Income | Expense

  datatype Status = Pending | Approved | Rejected

  datatype Reference = Reference(kind: string, id: Id)

  datatype Entry = Entry(kind: Kind, amount: int, fund: Option<Id>, reference: Option<Reference>, status: Status, deleted: bool)

  datatype Cash = Cash(funds: seq<Fund>, entries: seq<Entry>)

  datatype Error = NotFound | FundNotFound | Insufficient | WrongStatus | NotPositive | NotStored

  datatype Outcome = Outcome(cash: Cash, error: Option<Error>)

  predicate Linked(e: Entry) { e.kind == Expense && e.fund.Some? }

  predicate Exists(c: Cash, id: Id) { id < |c.entries| && !c.entries[id].deleted }

  function FindReference(entries: seq<Entry>, r: Reference): (found: Option<Id>)
    ensures found.Some? ==> found.value < |entries| && Bears(entries[found.value], r)
    ensures found.None? ==> forall i :: 0 <= i < |entries| ==> !Bears(entries[i], r)
  {
    if entries == [] then None
    else
      var n := |entries| - 1;
      if Bears(entries[n], r) then Some(n) else FindReference(entries[..n], r)
  }

  predicate Bears(e: Entry, r: Reference) { !e.deleted && e.reference == Some(r) }

  /** The constraints of the table: a positive amount, an existing fund, and a reference that no other entry has. */
  predicate Storable(c: Cash, e: Entry, at: Id)
  {
    && e.amount > 0
    && (e.fund.Some? ==> e.fund.value < |c.funds|)
    && (e.reference.Some? ==> forall i :: 0 <= i < |c.entries| && i != at ==> !Bears(c.entries[i], e.reference.value))
  }

  /** Adding to the balance of a missing fund changes no row and is no error. */
  function AdjustBalance(funds: seq<Fund>, id: Id, delta: int): seq<Fund>
  {
    if id < |funds| then funds[id := funds[id].(balance := funds[id].balance + delta)] else funds
  }

  // ---- The operations ----

  function Created(c: Cash, kind: Kind, amount: int, fund: Option<Id>, reference: Option<Reference>, stores: bool): Outcome
  {
    var e := Entry(kind, amount, fund, reference, Pending, false);
    if Linked(e) && fund.value >= |c.funds| then Outcome(c, Some(FundNotFound))
    else if Linked(e) && c.funds[fund.value].balance < amount then Outcome(c, Some(Insufficient))
    else if !stores || !Storable(c, e, |c.entries|) then Outcome(c, Some(NotStored))
    else
      Outcome(Cash(if Linked(e) then AdjustBalance(c.funds, fund.value, -amount) else c.funds, c.entries + [e]), None)
  }

  function Recorded(c: Cash, r: Reference, amount: int, stores: bool): Outcome
  {
    var e := Entry(Income, amount, None, Some(r), Approved, false);
    if FindReference(c.entries, r).Some? then Outcome(c, None)
    else if !stores || !Storable(c, e, |c.entries|) then Outcome(c, Some(NotStored))
    else Outcome(c.(entries := c.entries + [e]), None)
  }

  datatype Updates = Updates(kind: Kind, amount: int, fund: Option<Id>, reference: Option<Reference>)

  function Edited(e: Entry, u: Updates): Entry
  {
    e.(kind := u.kind, amount := u.amount, fund := u.fund, reference := u.reference)
  }

  function Updated(c: Cash, id: Id, u: Updates, stores: bool): Outcome
  {
    if !Exists(c, id) then Outcome(c, Some(NotFound))
    else if c.entries[id].status != Pending then Outcome(c, Some(WrongStatus))
    else if !stores || !Storable(c, Edited(c.entries[id], u), id) then Outcome(c, Some(NotStored))
    else Outcome(c.(entries := c.entries[id := Edited(c.entries[id], u)]), None)
  }

  function ApprovedBy(c: Cash, id: Id, stores: bool): Outcome
  {
    if !Exists(c, id) then Outcome(c, Some(NotFound))
    else if c.entries[id].status != Pending then Outcome(c, Some(WrongStatus))
    else if !stores then Outcome(c, Some(NotStored))
    else Outcome(c.(entries := c.entries[id := c.entries[id].(status := Approved)]), None)
  }

  /** Rejecting and deleting are two writes: the fund is credited, then the entry changed to what is given. */
  function Reversed(c: Cash, id: Id, change: Entry -> Entry, credits: bool, stores: bool): Outcome
  {
    if !Exists(c, id) then Outcome(c, Some(NotFound))
    else
      var e := c.entries[id];
      if e.status != Pending then Outcome(c, Some(WrongStatus))
      else if Linked(e) && !credits then Outcome(c, Some(NotStored))
      else
        var funds := if Linked(e) then AdjustBalance(c.funds, e.fund.value, e.amount) else c.funds;
        if !stores then Outcome(c.(funds := funds), Some(NotStored))
        else Outcome(Cash(funds, c.entries[id := change(e)]), None)
  }

  function RejectedEntry(e: Entry): Entry { e.(status := Rejected) }

  function DeletedEntry(e: Entry): Entry { e.(deleted := true) }

  function ToppedUp(c: Cash, id: Id, amount: int, stores: bool): Outcome
  {
    if amount <= 0 then Outcome(c, Some(NotPositive))
    else if !stores then Outcome(c, Some(NotStored))
    else Outcome(c.(funds := AdjustBalance(c.funds, id, amount)), None)
  }

  function FundCreated(c: Cash, initial: int, stores: bool): Outcome
  {
    if !stores then Outcome(c, Some(NotStored)) else Outcome(c.(funds := c.funds + [Fund(initial, initial)]), None)
  }

  class CashManagementService {
    var funds: seq<Fund>
    var entries: seq<Entry>

    function State(): Cash
      reads this
    {
      Cash(funds, entries)
    }

    /** The insertion of a row, which the table's constraints may refuse. */
    method Insert(e: Entry, stores: bool) returns (done: bool)
      modifies this`entries
      ensures done <==> stores && Storable(old(State()), e, |old(entries)|)
      ensures entries == if done then old(entries) + [e] else old(entries)
    {
      done := stores && Storable(State(), e, |entries|);
      if done {
        entries := entries + [e];
      }
    }

    method CreateEntry(kind: Kind, amount: int, fund: Option<Id>, reference: Option<Reference>, stores: bool)
        returns (error: Option<Error>)
      modifies this
      ensures Outcome(State(), error) == Created(old(State()), kind, amount, fund, reference, stores)
    {
      var e := Entry(kind, amount, fund, reference, Pending, false);
      if e.kind == Expense && e.fund.Some? {
        if fund.value >= |funds| {
          return Some(FundNotFound);
        }
        if funds[fund.value].balance < amount {
          return Some(Insufficient);
        }
        var inserted := Insert(e, stores);
        if !inserted {
          return Some(NotStored);
        }
        funds := AdjustBalance(funds, fund.value, -amount);
        return None;
      }
      var inserted := Insert(e, stores);
      error := if inserted then None else Some(NotStored);
    }

    /** RecordPaymentIncome and RecordAgentInvoiceIncome, which differ in the reference. */
    method RecordIncome(r: Reference, amount: int, stores: bool) returns (error: Option<Error>)
      modifies this
      ensures Outcome(State(), error) == Recorded(old(State()), r, amount, stores)
    {
      var existing := FindReference(entries, r);
      if existing.Some? {
        return None;
      }
      var inserted := Insert(Entry(Income, amount, None, Some(r), Approved, false), stores);
      error := if inserted then None else Some(NotStored);
    }

    method UpdateEntry(id: Id, u: Updates, stores: bool) returns (error: Option<Error>)
      modifies this
      ensures Outcome(State(), error) == Updated(old(State()), id, u, stores)
    {
      if id >= |entries| || entries[id].deleted {
        return Some(NotFound);
      }
      var entry := entries[id];
      if entry.status != Pending {
        return Some(WrongStatus);
      }
      entry := entry.(kind := u.kind, amount := u.amount, fund := u.fund, reference := u.reference);
      if !stores || !Storable(State(), entry, id) {
        return Some(NotStored);
      }
      entries := entries[id := entry];
      error := None;
    }

    method DeleteEntry(id: Id, credits: bool, stores: bool) returns (error: Option<Error>)
      modifies this
      ensures Outcome(State(), error) == Reversed(old(State()), id, DeletedEntry, credits, stores)
    {
      if id >= |entries| || entries[id].deleted {
        return Some(NotFound);
      }
      var entry := entries[id];
      if entry.status != Pending {
        return Some(WrongStatus);
      }
      if entry.kind == Expense && entry.fund.Some? {
        if !credits {
          return Some(NotStored);
        }
        funds := AdjustBalance(funds, entry.fund.value, entry.amount);
      }
      if !stores {
        return Some(NotStored);
      }
      entries := entries[id := entry.(deleted := true)];
      error := None;
    }

    method Approve(id: Id, stores: bool) returns (error: Option<Error>)
      modifies this
      ensures Outcome(State(), error) == ApprovedBy(old(State()), id, stores)
    {
      if id >= |entries| || entries[id].deleted {
        return Some(NotFound);
      }
      var entry := entries[id];
      if entry.status != Pending {
        return Some(WrongStatus);
      }
      if !stores {
        return Some(NotStored);
      }
      entries := entries[id := entry.(status := Approved)];
      error := None;
    }

    method Reject(id: Id, credits: bool, stores: bool) returns (error: Option<Error>)
      modifies this
      ensures Outcome(State(), error) == Reversed(old(State()), id, RejectedEntry, credits, stores)
    {
      if id >= |entries| || entries[id].deleted {
        return Some(NotFound);
      }
      var entry := entries[id];
      if entry.status != Pending {
        return Some(WrongStatus);
      }
      entry := entry.(status := Rejected);
      if entry.kind == Expense && entry.fund.Some? {
        if !credits {
          return Some(NotStored);
        }
        funds := AdjustBalance(funds, entry.fund.value, entry.amount);
      }
      if !stores {
        return Some(NotStored);
      }
      entries := entries[id := entry];
      error := None;
    }

    method CreateFund(initial: int, stores: bool) returns (error: Option<Error>)
      modifies this
      ensures Outcome(State(), error) == FundCreated(old(State()), initial, stores)
    {
      if !stores {
        return Some(NotStored);
      }
      funds := funds + [Fund(initial, initial)];
      error := None;
    }

    method TopUpFund(id: Id, amount: int, stores: bool) returns (error: Option<Error>)
      modifies this
      ensures Outcome(State(), error) == ToppedUp(old(State()), id, amount, stores)
    {
      if amount <= 0 {
        return Some(NotPositive);
      }
      if !stores {
        return Some(NotStored);
      }
      funds := AdjustBalance(funds, id, amount);
      error := None;
    }
  }
}
