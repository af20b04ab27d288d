/** Runs of cash operations: what a fund's balance is made of, and incomes that are recorded once. */
module PettyCashRuns {
  import opened Common
  import opened PettyCash

  datatype Event =
    | Create(kind: Kind, amount: int, fund: Option<Id>, reference: Option<Reference>, stores: bool)
    | Record(ref: Reference, amount: int, stores: bool)
    | Update(id: Id, updates: Updates, stores: bool)
    | Approve(id: Id, stores: bool)
    | Reject(id: Id, credits: bool, stores: bool)
    | Delete(id: Id, credits: bool, stores: bool)
    | NewFund(initial: int, stores: bool)
    | TopUp(id: Id, amount: int, stores: bool)

  function Apply(c: Cash, e: Event): Cash
  {
    match e
    case Create(kind, amount, fund, reference, stores) => Created(c, kind, amount, fund, reference, stores).cash
    case Record(r, amount, stores) => Recorded(c, r, amount, stores).cash
    case Update(id, u, stores) => Updated(c, id, u, stores).cash
    case Approve(id, stores) => ApprovedBy(c, id, stores).cash
    case Reject(id, credits, stores) => Reversed(c, id, RejectedEntry, credits, stores).cash
    case Delete(id, credits, stores) => Reversed(c, id, DeletedEntry, credits, stores).cash
    case NewFund(initial, stores) => FundCreated(c, initial, stores).cash
    case TopUp(id, amount, stores) => ToppedUp(c, id, amount, stores).cash
  }

  function ApplyAll(c: Cash, events: seq<Event>): Cash
    decreases |events|
  {
    if events == [] then c else ApplyAll(Apply(c, events[0]), events[1..])
  }

  // ---- What an entry holds of a fund ----

  /** A linked expense holds its amount until it is rejected or deleted. */
  function Holds(e: Entry, f: Id): int
  {
    if !e.deleted && e.status != Rejected && e.kind == Expense && e.fund == Some(f) then e.amount else 0
  }

  function Held(entries: seq<Entry>, f: Id): int
  {
    if entries == [] then 0 else Held(entries[..|entries| - 1], f) + Holds(entries[|entries| - 1], f)
  }

  lemma HeldSnoc(entries: seq<Entry>, e: Entry, f: Id)
    ensures Held(entries + [e], f) == Held(entries, f) + Holds(e, f)
  {
    assert (entries + [e])[..|entries|] == entries;
  }

  lemma {:induction false} HeldUpdate(entries: seq<Entry>, i: Id, e: Entry, f: Id)
    requires i < |entries|
    ensures Held(entries[i := e], f) == Held(entries, f) - Holds(entries[i], f) + Holds(e, f)
  {
    var n := |entries| - 1;
    if i < n {
      assert entries[i := e][..n] == entries[..n][i := e];
      HeldUpdate(entries[..n], i, e, f);
    } else {
      assert entries[i := e][..n] == entries[..n];
    }
  }

  /** What has been put into the fund: its balance and what entries hold of it. */
  function Total(c: Cash, f: Id): int
    requires f < |c.funds|
  {
    c.funds[f].balance + Held(c.entries, f)
  }

  predicate FundsExist(c: Cash)
  {
    forall e <- c.entries :: e.fund.Some? ==> e.fund.value < |c.funds|
  }

  // ---- Each operation keeps the total ----

  function ToppedUpBy(e: Event, f: Id): int
  {
    if e.TopUp? && e.id == f && e.amount > 0 && e.stores then e.amount else 0
  }

  /** The event credits a fund for an entry, and then fails to reject or delete the entry. */
  predicate CreditsInVain(c: Cash, e: Event)
  {
    && (e.Reject? || e.Delete?) && e.credits && !e.stores
    && Exists(c, e.id) && c.entries[e.id].status == Pending && Linked(c.entries[e.id])
  }

  /** What the event adds to the fund beyond what was put into it. */
  function Leak(c: Cash, e: Event, f: Id): int
  {
    if CreditsInVain(c, e) && c.entries[e.id].fund == Some(f) then c.entries[e.id].amount else 0
  }

  /** The event edits an entry. */
  predicate Edits(c: Cash, e: Event) { e.Update? && Updated(c, e.id, e.updates, e.stores).error == None }

  /** What the event lets an entry hold of the fund beyond what it held before, the balance being left alone. */
  function EditChange(c: Cash, e: Event, f: Id): int
  {
    if Edits(c, e) then Holds(Edited(c.entries[e.id], e.updates), f) - Holds(c.entries[e.id], f) else 0
  }

  lemma CreateKeepsTotal(c: Cash, kind: Kind, amount: int, fund: Option<Id>, reference: Option<Reference>, stores: bool, f: Id)
    requires f < |c.funds|
    ensures var after := Created(c, kind, amount, fund, reference, stores).cash;
            f < |after.funds| && Total(after, f) == Total(c, f)
  {
    var e := Entry(kind, amount, fund, reference, Pending, false);
    HeldSnoc(c.entries, e, f);
    if Created(c, kind, amount, fund, reference, stores).error == None {
      assert Holds(e, f) == if Linked(e) && fund.value == f then amount else 0;
    }
  }

  lemma ReverseTotal(c: Cash, id: Id, change: Entry -> Entry, credits: bool, stores: bool, f: Id)
    requires f < |c.funds| && FundsExist(c)
    requires Exists(c, id) ==> Holds(change(c.entries[id]), f) == 0
    ensures var after := Reversed(c, id, change, credits, stores).cash;
            && f < |after.funds|
            && Total(after, f) == Total(c, f)
                 + if Exists(c, id) && c.entries[id].status == Pending && Linked(c.entries[id]) && c.entries[id].fund == Some(f)
                      && credits && !stores
                   then c.entries[id].amount else 0
  {
    if Exists(c, id) {
      HeldUpdate(c.entries, id, change(c.entries[id]), f);
      assert c.entries[id] in c.entries;
    }
  }

  lemma EditTotal(c: Cash, e: Event, f: Id)
    requires f < |c.funds| && e.Update?
    ensures f < |Apply(c, e).funds| && Total(Apply(c, e), f) == Total(c, f) + EditChange(c, e, f)
  {
    if Edits(c, e) {
      HeldUpdate(c.entries, e.id, Edited(c.entries[e.id], e.updates), f);
    }
  }

  /** Every event changes a fund's total by its top-up, its leak and its edit, and by nothing else. */
  lemma EventChangesTotal(c: Cash, e: Event, f: Id)
    requires f < |c.funds| && FundsExist(c)
    ensures f < |Apply(c, e).funds|
    ensures Total(Apply(c, e), f) == Total(c, f) + ToppedUpBy(e, f) + Leak(c, e, f) + EditChange(c, e, f)
  {
    match e
    case Create(kind, amount, fund, reference, stores) => CreateKeepsTotal(c, kind, amount, fund, reference, stores, f);
    case Record(r, amount, _) => HeldSnoc(c.entries, Entry(Income, amount, None, Some(r), Approved, false), f);
    case Update(_, _, _) => EditTotal(c, e, f);
    case Approve(id, _) => if Exists(c, id) { HeldUpdate(c.entries, id, c.entries[id].(status := Approved), f); }
    case Reject(id, credits, stores) => ReverseTotal(c, id, RejectedEntry, credits, stores, f);
    case Delete(id, credits, stores) => ReverseTotal(c, id, DeletedEntry, credits, stores, f);
    case _ =>
  }

  predicate PositiveAmounts(c: Cash) { forall e <- c.entries :: e.amount > 0 }

  /** Both entries hold the same amount of the same fund, or neither holds any. */
  predicate HoldTheSame(a: Entry, b: Entry)
  {
    (Linked(a) <==> Linked(b)) && (Linked(a) ==> a.fund == b.fund && a.amount == b.amount)
  }

  /** An edit keeps every fund's total exactly when the entry goes on holding the same amount of the same fund. */
  lemma EditKeepsExactly(c: Cash, e: Event)
    requires FundsExist(c) && PositiveAmounts(c) && Edits(c, e)
    ensures (forall f :: 0 <= f < |c.funds| ==> EditChange(c, e, f) == 0)
       <==> HoldTheSame(c.entries[e.id], Edited(c.entries[e.id], e.updates))
  {
    var before, after := c.entries[e.id], Edited(c.entries[e.id], e.updates);
    assert before in c.entries;
    if Linked(before) {
      assert EditChange(c, e, before.fund.value) == Holds(after, before.fund.value) - before.amount;
    }
    if Linked(after) {
      assert EditChange(c, e, after.fund.value) == after.amount - Holds(before, after.fund.value);
    }
  }

  /** A rejection or deletion of a pending linked entry whose second write fails, or an edit of what an entry holds. */
  predicate Disturbs(c: Cash, e: Event)
  {
    || CreditsInVain(c, e)
    || (Edits(c, e) && !HoldTheSame(c.entries[e.id], Edited(c.entries[e.id], e.updates)))
  }

  /** An event keeps the totals of all funds, but for top-ups, exactly when it is neither of these. */
  lemma TotalsKeptExactlyUnlessDisturbed(c: Cash, e: Event)
    requires FundsExist(c) && PositiveAmounts(c)
    ensures |c.funds| <= |Apply(c, e).funds|
    ensures (forall f :: 0 <= f < |c.funds| ==> Total(Apply(c, e), f) == Total(c, f) + ToppedUpBy(e, f)) <==> !Disturbs(c, e)
  {
    EventKeepsTables(c, e);
    forall f | 0 <= f < |c.funds|
      ensures Total(Apply(c, e), f) == Total(c, f) + ToppedUpBy(e, f) + Leak(c, e, f) + EditChange(c, e, f)
    {
      EventChangesTotal(c, e, f);
    }
    if CreditsInVain(c, e) {
      assert c.entries[e.id] in c.entries;
      assert Leak(c, e, c.entries[e.id].fund.value) > 0;
    } else if Edits(c, e) {
      EditKeepsExactly(c, e);
    }
  }

  /** Funds are never lost, links stay good and amounts positive. */
  lemma EventKeepsTables(c: Cash, e: Event)
    requires FundsExist(c)
    ensures FundsExist(Apply(c, e)) && |c.funds| <= |Apply(c, e).funds|
    ensures PositiveAmounts(c) ==> PositiveAmounts(Apply(c, e))
  {}

  function TopUps(events: seq<Event>, f: Id): int
    decreases |events|
  {
    if events == [] then 0 else ToppedUpBy(events[0], f) + TopUps(events[1..], f)
  }

  function Leaks(c: Cash, events: seq<Event>, f: Id): int
    decreases |events|
  {
    if events == [] then 0 else Leak(c, events[0], f) + Leaks(Apply(c, events[0]), events[1..], f)
  }

  /** No event of the run credits this fund in vain. */
  predicate NeverInVain(c: Cash, events: seq<Event>, f: Id)
    decreases |events|
  {
    events != [] ==>
      && !(CreditsInVain(c, events[0]) && c.entries[events[0].id].fund == Some(f))
      && NeverInVain(Apply(c, events[0]), events[1..], f)
  }

  function EditChanges(c: Cash, events: seq<Event>, f: Id): int
    decreases |events|
  {
    if events == [] then 0 else EditChange(c, events[0], f) + EditChanges(Apply(c, events[0]), events[1..], f)
  }

  /** No edit of the run changes what an entry holds of this fund. */
  predicate NeverEdited(c: Cash, events: seq<Event>, f: Id)
    decreases |events|
  {
    events != [] ==> EditChange(c, events[0], f) == 0 && NeverEdited(Apply(c, events[0]), events[1..], f)
  }

  lemma {:induction false} NoEditsNoChange(c: Cash, events: seq<Event>, f: Id)
    requires NeverEdited(c, events, f)
    ensures EditChanges(c, events, f) == 0
    decreases |events|
  {
    if events != [] {
      NoEditsNoChange(Apply(c, events[0]), events[1..], f);
    }
  }

  lemma {:induction false} RunChangesTotal(c: Cash, events: seq<Event>, f: Id)
    requires f < |c.funds| && FundsExist(c)
    ensures f < |ApplyAll(c, events).funds|
    ensures Total(ApplyAll(c, events), f) == Total(c, f) + TopUps(events, f) + Leaks(c, events, f) + EditChanges(c, events, f)
    decreases |events|
  {
    if events != [] {
      EventChangesTotal(c, events[0], f);
      EventKeepsTables(c, events[0]);
      RunChangesTotal(Apply(c, events[0]), events[1..], f);
    }
  }

  lemma {:induction false} NoLeaksExactlyWhenNeverInVain(c: Cash, events: seq<Event>, f: Id)
    requires FundsExist(c) && PositiveAmounts(c)
    ensures Leaks(c, events, f) >= 0 && (Leaks(c, events, f) == 0 <==> NeverInVain(c, events, f))
    decreases |events|
  {
    if events != [] {
      EventKeepsTables(c, events[0]);
      if CreditsInVain(c, events[0]) {
        assert c.entries[events[0].id] in c.entries;
      }
      NoLeaksExactlyWhenNeverInVain(Apply(c, events[0]), events[1..], f);
    }
  }

  // ---- Right at every moment ----

  predicate DisturbsFund(c: Cash, e: Event, f: Id)
  {
    (CreditsInVain(c, e) && c.entries[e.id].fund == Some(f)) || EditChange(c, e, f) != 0
  }

  /** The fund's total has changed by its top-ups alone. */
  ghost predicate KeptBy(c: Cash, events: seq<Event>, f: Id)
    requires f < |c.funds|
  {
    f < |ApplyAll(c, events).funds| && Total(ApplyAll(c, events), f) == Total(c, f) + TopUps(events, f)
  }

  lemma {:induction false} ApplyAllSnoc(c: Cash, events: seq<Event>, e: Event, f: Id)
    ensures ApplyAll(c, events + [e]) == Apply(ApplyAll(c, events), e)
    ensures TopUps(events + [e], f) == TopUps(events, f) + ToppedUpBy(e, f)
    decreases |events|
  {
    if events == [] {
      assert [] + [e] == [e];
    } else {
      assert (events + [e])[1..] == events[1..] + [e];
      ApplyAllSnoc(Apply(c, events[0]), events[1..], e, f);
    }
  }

  lemma {:induction false} RunKeepsTables(c: Cash, events: seq<Event>)
    requires FundsExist(c) && PositiveAmounts(c)
    ensures FundsExist(ApplyAll(c, events)) && PositiveAmounts(ApplyAll(c, events))
    ensures |c.funds| <= |ApplyAll(c, events).funds|
    decreases |events|
  {
    if events != [] {
      EventKeepsTables(c, events[0]);
      RunKeepsTables(Apply(c, events[0]), events[1..]);
    }
  }

  /** An event after which the total is right again disturbs nothing, and the other way round. */
  lemma KeptByOneMore(c: Cash, events: seq<Event>, e: Event, f: Id)
    requires f < |c.funds| && FundsExist(c) && PositiveAmounts(c) && KeptBy(c, events, f)
    ensures KeptBy(c, events + [e], f) <==> !DisturbsFund(ApplyAll(c, events), e, f)
  {
    var before := ApplyAll(c, events);
    RunKeepsTables(c, events);
    ApplyAllSnoc(c, events, e, f);
    EventChangesTotal(before, e, f);
    if CreditsInVain(before, e) {
      assert before.entries[e.id] in before.entries;
    }
  }

  /** The total is right after the first n events. */
  ghost predicate RightAfter(c: Cash, events: seq<Event>, f: Id, n: nat)
    requires f < |c.funds| && n <= |events|
  {
    KeptBy(c, events[..n], f)
  }

  /** Event n of the run disturbs the fund. */
  predicate DisturbedAt(c: Cash, events: seq<Event>, f: Id, n: nat)
    requires n < |events|
  {
    DisturbsFund(ApplyAll(c, events[..n]), events[n], f)
  }

  lemma RightAfterNext(c: Cash, events: seq<Event>, f: Id, n: nat)
    requires f < |c.funds| && FundsExist(c) && PositiveAmounts(c)
    requires n < |events| && RightAfter(c, events, f, n)
    ensures RightAfter(c, events, f, n + 1) <==> !DisturbedAt(c, events, f, n)
  {
    assert events[..n + 1] == events[..n] + [events[n]];
    KeptByOneMore(c, events[..n], events[n], f);
  }

  lemma {:induction false} UndisturbedIsRight(c: Cash, events: seq<Event>, f: Id, n: nat)
    requires f < |c.funds| && FundsExist(c) && PositiveAmounts(c) && n <= |events|
    requires forall i :: 0 <= i < n ==> !DisturbedAt(c, events, f, i)
    ensures RightAfter(c, events, f, n)
  {
    if n > 0 {
      UndisturbedIsRight(c, events, f, n - 1);
      RightAfterNext(c, events, f, n - 1);
    }
  }

  /** While no edit changes what is held, the total is right in the end exactly when no event credits in vain. */
  lemma RightInTheEnd(c: Cash, events: seq<Event>, f: Id)
    requires f < |c.funds| && FundsExist(c) && PositiveAmounts(c) && NeverEdited(c, events, f)
    ensures KeptBy(c, events, f) <==> NeverInVain(c, events, f)
  {
    RunChangesTotal(c, events, f);
    NoEditsNoChange(c, events, f);
    NoLeaksExactlyWhenNeverInVain(c, events, f);
  }

  /**
   A fund's total is right at every moment of a run, each debit reversed at most once, if and only if no
   event credits the fund in vain or edits what an entry holds of it.
   */
  lemma RunKeepsTotalExactly(c: Cash, events: seq<Event>, f: Id)
    requires f < |c.funds| && FundsExist(c) && PositiveAmounts(c)
    ensures (forall n :: 0 <= n <= |events| ==> RightAfter(c, events, f, n))
       <==> (forall n :: 0 <= n < |events| ==> !DisturbedAt(c, events, f, n))
  {
    if forall n :: 0 <= n < |events| ==> !DisturbedAt(c, events, f, n) {
      forall n | 0 <= n <= |events| ensures RightAfter(c, events, f, n) {
        UndisturbedIsRight(c, events, f, n);
      }
    } else {
      var n :| 0 <= n < |events| && DisturbedAt(c, events, f, n);
      if RightAfter(c, events, f, n) {
        RightAfterNext(c, events, f, n);
        assert !RightAfter(c, events, f, n + 1);
      }
    }
  }

  lemma {:induction false} NothingHeldOfNewFund(entries: seq<Entry>, f: Id)
    requires forall e <- entries :: e.fund != Some(f)
    ensures Held(entries, f) == 0
  {
    if entries != [] {
      NothingHeldOfNewFund(entries[..|entries| - 1], f);
    }
  }

  /**
   After any run from its creation, a fund's balance is its initial amount and the top-ups, less the
   linked expenses that are pending or approved, with the credits in vain and the changes by edits added.
   While no edit changes what is held, it is right if and only if no event credits in vain, and else higher.
   */
  lemma BalanceIsInitialPlusTopUpsLessExpenses(c: Cash, initial: int, events: seq<Event>)
    requires FundsExist(c) && PositiveAmounts(c)
    ensures var f, created := |c.funds|, FundCreated(c, initial, true).cash;
            var after := ApplyAll(created, events);
            && f < |after.funds|
            && var right := initial + TopUps(events, f) - Held(after.entries, f);
            && after.funds[f].balance == right + Leaks(created, events, f) + EditChanges(created, events, f)
            && (NeverEdited(created, events, f) ==>
                  && after.funds[f].balance >= right
                  && (after.funds[f].balance == right <==> NeverInVain(created, events, f)))
  {
    var f, created := |c.funds|, FundCreated(c, initial, true).cash;
    NothingHeldOfNewFund(c.entries, f);
    assert Total(created, f) == initial;
    RunChangesTotal(created, events, f);
    NoLeaksExactlyWhenNeverInVain(created, events, f);
    if NeverEdited(created, events, f) {
      NoEditsNoChange(created, events, f);
    }
  }

  // ---- The balance is never overdrawn ----

  /** No balance is negative unless the fund was created so. */
  predicate NotOverdrawn(c: Cash)
  {
    forall f <- c.funds :: f.balance >= Min(0, f.initial)
  }

  lemma AdjustKeepsNotOverdrawn(c: Cash, f: Id, delta: int)
    requires NotOverdrawn(c) && f < |c.funds| && (delta >= 0 || c.funds[f].balance + delta >= 0)
    ensures NotOverdrawn(c.(funds := AdjustBalance(c.funds, f, delta)))
  {}

  lemma EventKeepsNotOverdrawn(c: Cash, e: Event)
    requires NotOverdrawn(c) && PositiveAmounts(c)
    ensures NotOverdrawn(Apply(c, e)) && PositiveAmounts(Apply(c, e))
  {
    match e
    case Create(kind, amount, fund, _, _) =>
      if kind == Expense && fund.Some? && fund.value < |c.funds| && c.funds[fund.value].balance >= amount {
        AdjustKeepsNotOverdrawn(c, fund.value, -amount);
      }
    case Reject(id, _, _) => ReverseKeepsNotOverdrawn(c, id);
    case Delete(id, _, _) => ReverseKeepsNotOverdrawn(c, id);
    case TopUp(id, amount, _) => if amount > 0 && id < |c.funds| { AdjustKeepsNotOverdrawn(c, id, amount); }
    case _ =>
  }

  lemma ReverseKeepsNotOverdrawn(c: Cash, id: Id)
    requires NotOverdrawn(c) && PositiveAmounts(c)
    ensures Exists(c, id) && Linked(c.entries[id]) ==>
              NotOverdrawn(c.(funds := AdjustBalance(c.funds, c.entries[id].fund.value, c.entries[id].amount)))
  {
    if Exists(c, id) && Linked(c.entries[id]) && c.entries[id].fund.value < |c.funds| {
      AdjustKeepsNotOverdrawn(c, c.entries[id].fund.value, c.entries[id].amount);
    }
  }

  /** Over every run, even when writes fail, no fund is overdrawn. */
  lemma {:induction false} RunKeepsNotOverdrawn(c: Cash, events: seq<Event>)
    requires NotOverdrawn(c) && PositiveAmounts(c)
    ensures NotOverdrawn(ApplyAll(c, events))
    decreases |events|
  {
    if events != [] {
      EventKeepsNotOverdrawn(c, events[0]);
      RunKeepsNotOverdrawn(Apply(c, events[0]), events[1..]);
    }
  }

  // ---- Where the balance goes wrong ----

  /** An update keeps every fund's total exactly when the entry goes on holding the same amount of the same fund. */
  lemma UpdateKeepsTotalsExactly(c: Cash, id: Id, u: Updates)
    requires FundsExist(c) && PositiveAmounts(c) && Updated(c, id, u, true).error == None
    ensures (forall f :: 0 <= f < |c.funds| ==> Total(Updated(c, id, u, true).cash, f) == Total(c, f))
       <==> HoldTheSame(c.entries[id], Edited(c.entries[id], u))
  {
    var e := Update(id, u, true);
    EditKeepsExactly(c, e);
    forall f | 0 <= f < |c.funds| ensures Total(Apply(c, e), f) == Total(c, f) + EditChange(c, e, f) {
      EditTotal(c, e, f);
    }
  }

  /** When the second write of a rejection or deletion fails, a second attempt credits the fund again. */
  lemma RetriedReversalCreditsTwice(c: Cash, id: Id, change: Entry -> Entry)
    requires FundsExist(c) && Exists(c, id) && c.entries[id].status == Pending && Linked(c.entries[id])
    ensures var e := c.entries[id];
            var failed := Reversed(c, id, change, true, false);
            var retried := Reversed(failed.cash, id, change, true, true);
            && failed.error == Some(NotStored) && retried.error == None
            && retried.cash.funds[e.fund.value].balance == c.funds[e.fund.value].balance + 2 * e.amount
  {
    assert c.entries[id] in c.entries;
  }

  // ---- Incomes ----

  ghost predicate UniqueReferences(entries: seq<Entry>)
  {
    forall i, j :: 0 <= i < j < |entries| && !entries[i].deleted && !entries[j].deleted && entries[i].reference.Some? ==>
      entries[i].reference != entries[j].reference
  }

  /** An approved entry is never changed nor deleted. */
  lemma ApprovedIsFinal(c: Cash, e: Event, i: Id)
    requires Exists(c, i) && c.entries[i].status == Approved
    ensures Exists(Apply(c, e), i) && Apply(c, e).entries[i] == c.entries[i]
  {}

  lemma EventKeepsUniqueReferences(c: Cash, e: Event)
    requires UniqueReferences(c.entries)
    ensures UniqueReferences(Apply(c, e).entries)
  {
    match e
    case Create(kind, amount, fund, reference, _) => AddKeepsUnique(c, Entry(kind, amount, fund, reference, Pending, false));
    case Record(r, amount, _) => AddKeepsUnique(c, Entry(Income, amount, None, Some(r), Approved, false));
    case Update(id, u, _) => if Exists(c, id) { ChangeKeepsUnique(c, id, Edited(c.entries[id], u)); }
    case _ =>
  }

  lemma AddKeepsUnique(c: Cash, e: Entry)
    requires UniqueReferences(c.entries)
    ensures Storable(c, e, |c.entries|) ==> UniqueReferences(c.entries + [e])
  {
    if Storable(c, e, |c.entries|) && e.reference.Some? {
      assert forall i :: 0 <= i < |c.entries| ==> !Bears(c.entries[i], e.reference.value);
    }
  }

  lemma ChangeKeepsUnique(c: Cash, id: Id, e: Entry)
    requires UniqueReferences(c.entries) && Exists(c, id)
    ensures Storable(c, e, id) ==> UniqueReferences(c.entries[id := e])
  {
    if Storable(c, e, id) && e.reference.Some? {
      assert forall i :: 0 <= i < |c.entries| && i != id ==> !Bears(c.entries[i], e.reference.value);
    }
  }

  /** Once an income is recorded, every later run has that one entry for its reference, unchanged. */
  lemma {:induction false} IncomeRecordedOnce(c: Cash, events: seq<Event>, i: Id, r: Reference)
    requires UniqueReferences(c.entries) && Exists(c, i) && c.entries[i].status == Approved && Bears(c.entries[i], r)
    ensures var after := ApplyAll(c, events).entries;
            i < |after| && after[i] == c.entries[i] && forall j :: 0 <= j < |after| ==> (Bears(after[j], r) <==> j == i)
    decreases |events|
  {
    if events != [] {
      ApprovedIsFinal(c, events[0], i);
      EventKeepsUniqueReferences(c, events[0]);
      IncomeRecordedOnce(Apply(c, events[0]), events[1..], i, r);
    }
  }

  /** Recording an income of a positive amount makes that entry once and for all: recording it again changes nothing. */
  lemma RecordingTwiceIsOnce(c: Cash, events: seq<Event>, r: Reference, amount: int, again: int, stores: bool)
    requires UniqueReferences(c.entries) && amount > 0 && forall i :: 0 <= i < |c.entries| ==> !Bears(c.entries[i], r)
    ensures var i, recorded := |c.entries|, Recorded(c, r, amount, true);
            var after := ApplyAll(recorded.cash, events);
            && recorded.error == None && i < |after.entries|
            && after.entries[i] == Entry(Income, amount, None, Some(r), Approved, false)
            && (forall j :: 0 <= j < |after.entries| ==> (Bears(after.entries[j], r) <==> j == i))
            && Recorded(after, r, again, stores) == Outcome(after, None)
  {
    var i, recorded := |c.entries|, Recorded(c, r, amount, true).cash;
    AddKeepsUnique(c, Entry(Income, amount, None, Some(r), Approved, false));
    IncomeRecordedOnce(recorded, events, i, r);
    assert Bears(ApplyAll(recorded, events).entries[i], r);
  }

  // ---- When the operations succeed ----

  /** What the table asks of an entry: a positive amount, a fund that exists, a reference that no other entry has. */
  predicate Admissible(c: Cash, amount: int, fund: Option<Id>, reference: Option<Reference>, at: Id)
  {
    && amount > 0 && (fund.Some? ==> fund.value < |c.funds|)
    && (reference.Some? ==>
          forall i :: 0 <= i < |c.entries| && i != at && !c.entries[i].deleted ==> c.entries[i].reference != reference)
  }

  /** Creating succeeds exactly for an admissible entry that its fund can pay, and makes it pending. */
  lemma CreateSucceedsExactly(c: Cash, kind: Kind, amount: int, fund: Option<Id>, reference: Option<Reference>, stores: bool)
    ensures var out := Created(c, kind, amount, fund, reference, stores);
            && (out.error == None <==>
                  && stores && Admissible(c, amount, fund, reference, |c.entries|)
                  && (kind == Expense && fund.Some? ==> c.funds[fund.value].balance >= amount))
            && (out.error == None ==> out.cash.entries == c.entries + [Entry(kind, amount, fund, reference, Pending, false)])
            && (out.error.Some? ==> out.cash == c)
  {}

  /** An edit succeeds exactly on a pending entry when what it becomes is admissible; the entry stays pending and in place. */
  lemma EditSucceedsExactly(c: Cash, id: Id, u: Updates, stores: bool)
    ensures var out := Updated(c, id, u, stores);
            && (out.error == None <==>
                  && id < |c.entries| && !c.entries[id].deleted && c.entries[id].status == Pending
                  && stores && Admissible(c, u.amount, u.fund, u.reference, id))
            && (out.error == None ==>
                  out.cash == c.(entries := c.entries[id := Entry(u.kind, u.amount, u.fund, u.reference, Pending, false)]))
            && (out.error.Some? ==> out.cash == c)
  {}

  /** Why an operation on an entry fails: it is not there, or decided already, or else could not be written. */
  predicate FailsRightly(c: Cash, id: Id, out: Outcome)
  {
    && (out.error == Some(NotFound) <==> id >= |c.entries| || c.entries[id].deleted)
    && (out.error == Some(WrongStatus) <==> id < |c.entries| && !c.entries[id].deleted && c.entries[id].status != Pending)
    && (out.error.Some? ==> out.error.value in {NotFound, WrongStatus, NotStored})
  }

  lemma EntryErrors(c: Cash, id: Id, u: Updates, change: Entry -> Entry, credits: bool, stores: bool)
    ensures FailsRightly(c, id, Updated(c, id, u, stores)) && FailsRightly(c, id, ApprovedBy(c, id, stores))
    ensures FailsRightly(c, id, Reversed(c, id, change, credits, stores))
    ensures Reversed(c, id, change, credits, stores).error == None <==>
              && id < |c.entries| && !c.entries[id].deleted && c.entries[id].status == Pending && stores
              && (credits || c.entries[id].kind == Income || c.entries[id].fund.None?)
  {}

  /** Why creating one fails: there is no such fund, or too little in it, or the row could not be written. */
  lemma CreateErrors(c: Cash, kind: Kind, amount: int, fund: Option<Id>, reference: Option<Reference>, stores: bool)
    ensures var error := Created(c, kind, amount, fund, reference, stores).error;
            && (error == Some(FundNotFound) <==> kind == Expense && fund.Some? && fund.value >= |c.funds|)
            && (error == Some(Insufficient) <==>
                  kind == Expense && fund.Some? && fund.value < |c.funds| && c.funds[fund.value].balance < amount)
            && (error.Some? ==> error.value in {FundNotFound, Insufficient, NotStored})
  {}

  /** A top-up needs a positive amount, but no fund; a new fund starts with its initial amount. */
  lemma FundsSucceedExactly(c: Cash, id: Id, amount: int, stores: bool)
    ensures var out := ToppedUp(c, id, amount, stores);
            && (out.error == None <==> amount > 0 && stores)
            && (out.error == Some(NotPositive) <==> amount <= 0)
            && out.cash.entries == c.entries && |out.cash.funds| == |c.funds|
            && forall f :: 0 <= f < |c.funds| ==>
                 && out.cash.funds[f].initial == c.funds[f].initial
                 && out.cash.funds[f].balance == c.funds[f].balance + if f == id && out.error == None then amount else 0
    ensures FundCreated(c, amount, stores)
         == if stores then Outcome(Cash(c.funds + [Fund(amount, amount)], c.entries), None) else Outcome(c, Some(NotStored))
  {}

  /** The decision that the event makes about a pending entry. */
  function Decision(c: Cash, e: Event, i: Id): Option<Status>
    requires i < |c.entries|
  {
    if c.entries[i].status != Pending || c.entries[i].deleted then None
    else
      match e
      case Approve(id, stores) => if id == i && stores then Some(Approved) else None
      case Reject(id, credits, stores) =>
        if id == i && stores && (credits || c.entries[i].kind == Income || c.entries[i].fund.None?) then Some(Rejected) else None
      case _ => None
  }

  /** The event deletes the entry. */
  predicate Deletes(c: Cash, e: Event, i: Id)
    requires i < |c.entries|
  {
    && e.Delete? && e.id == i && c.entries[i].status == Pending && e.stores
    && (e.credits || c.entries[i].kind == Income || c.entries[i].fund.None?)
  }

  lemma EventOnEntry(c: Cash, e: Event, i: Id)
    requires i < |c.entries|
    ensures i < |Apply(c, e).entries|
    ensures var before, after, decision := c.entries[i], Apply(c, e).entries[i], Decision(c, e, i);
            && after.status == (if decision.Some? then decision.value else before.status)
            && after.deleted == (before.deleted || Deletes(c, e, i))
            && (before.deleted || before.status != Pending ==> after == before)
  {}

  function FirstDecision(c: Cash, events: seq<Event>, i: Id): Status
    requires i < |c.entries|
    decreases |events|
  {
    if events == [] then Pending
    else
      var decision := Decision(c, events[0], i);
      EventOnEntry(c, events[0], i);
      if decision.Some? then decision.value else FirstDecision(Apply(c, events[0]), events[1..], i)
  }

  /** After every run a pending entry is what the first decision about it made of it, and pending while there is none. */
  lemma {:induction false} FirstDecisionStands(c: Cash, events: seq<Event>, i: Id)
    requires i < |c.entries| && c.entries[i].status == Pending
    ensures i < |ApplyAll(c, events).entries| && ApplyAll(c, events).entries[i].status == FirstDecision(c, events, i)
    decreases |events|
  {
    if events != [] {
      EventOnEntry(c, events[0], i);
      if Decision(c, events[0], i).Some? {
        DecidedStays(Apply(c, events[0]), events[1..], i);
      } else {
        FirstDecisionStands(Apply(c, events[0]), events[1..], i);
      }
    }
  }

  lemma {:induction false} DecidedStays(c: Cash, events: seq<Event>, i: Id)
    requires i < |c.entries| && c.entries[i].status != Pending
    ensures i < |ApplyAll(c, events).entries| && ApplyAll(c, events).entries[i] == c.entries[i]
    decreases |events|
  {
    if events != [] {
      EventOnEntry(c, events[0], i);
      DecidedStays(Apply(c, events[0]), events[1..], i);
    }
  }
}
