/**
 The allocator of internal/domain/payment/domain.go: a payment is spread over a list of invoices,
 first come first served. It is proved against a specification that does not mention the loop,
 and against the row-by-row settlement that the rest of the model uses.
 */
module PaymentDomain {
  import opened Common
  import opened BillingDomain

  type Id = nat

  datatype PaymentStatus = Pending | Confirmed | Rejected | Refunded

  datatype Payment = Payment(customer: Id, amount: int, allocatedAmount: int, status: PaymentStatus, refundAmount: int)

  datatype Invoice = Invoice(id: Id, customer: Id, total: int, paid: int, status: InvoiceStatus, dueDay: int)

  datatype Allocation = Allocation(invoiceId: Id, amount: int)

  predicate CanConfirm(p: Payment) { p.status == Pending }

  predicate CanReject(p: Payment) { p.status == Pending }

  predicate CanRefund(p: Payment) { p.status == Confirmed && p.refundAmount <= 0 }

  function Balance(inv: Invoice): int { inv.total - inv.paid }

  // ---- The allocator ----

  /** What CalculateAllocations computes, one invoice at a time. */
  function Allocations(amount: int, invoices: seq<Invoice>): seq<Allocation>
    decreases |invoices|
  {
    if amount <= 0 || invoices == [] then []
    else
      var b := Balance(invoices[0]);
      if b <= 0 then Allocations(amount, invoices[1..])
      else [Allocation(invoices[0].id, Min(b, amount))] + Allocations(amount - Min(b, amount), invoices[1..])
  }

  method CalculateAllocations(amount: int, invoices: seq<Invoice>) returns (result: seq<Allocation>)
    ensures result == Allocations(amount, invoices)
  {
    var remaining := amount;
    result := [];
    var i := 0;
    while i < |invoices|
      invariant 0 <= i <= |invoices|
      invariant Allocations(amount, invoices) == result + Allocations(remaining, invoices[i..])
    {
      if remaining <= 0 {
        break;
      }
      var inv := invoices[i];
      assert invoices[i..][0] == inv && invoices[i..][1..] == invoices[i + 1..];
      i := i + 1;
      var balance := inv.total - inv.paid;
      if balance <= 0 {
        continue;
      }
      var alloc := balance;
      if remaining < alloc {
        alloc := remaining;
      }
      result := result + [Allocation(inv.id, alloc)];
      remaining := remaining - alloc;
    }
  }

  // ---- What a first-come-first-served allocation is ----

  function Sum(xs: seq<int>): int { if xs == [] then 0 else xs[0] + Sum(xs[1..]) }

  function Owed(invoices: seq<Invoice>): (r: seq<int>)
    ensures |r| == |invoices|
    ensures forall i :: 0 <= i < |r| ==> r[i] == Max(Balance(invoices[i]), 0)
  {
    seq(|invoices|, i requires 0 <= i < |invoices| => Max(Balance(invoices[i]), 0))
  }

  /**
   shares is a greedy split of amount over the debts: no debt gets more than is owed, everything
   that can be spent is spent, and a debt is served only when all earlier ones are served in full
   (so at most one debt is served in part).
   */
  ghost predicate IsGreedy(amount: int, owed: seq<int>, shares: seq<int>)
  {
    && |shares| == |owed|
    && (forall i :: 0 <= i < |owed| ==> 0 <= shares[i] <= owed[i])
    && Sum(shares) == Min(Max(amount, 0), Sum(owed))
    && (forall i, j :: 0 <= i < j < |owed| && shares[j] > 0 ==> shares[i] == owed[i])
  }

  /** The allocations that give each invoice its share, leaving out the zero shares. */
  function NonZero(invoices: seq<Invoice>, shares: seq<int>): seq<Allocation>
    requires |invoices| == |shares|
  {
    if invoices == [] then []
    else (if shares[0] > 0 then [Allocation(invoices[0].id, shares[0])] else []) + NonZero(invoices[1..], shares[1..])
  }

  function Shares(amount: int, owed: seq<int>): (r: seq<int>)
    ensures |r| == |owed|
  {
    if owed == [] then []
    else
      var s := Max(0, Min(owed[0], amount));
      [s] + Shares(amount - s, owed[1..])
  }

  lemma {:induction false} SumBounds(xs: seq<int>)
    requires forall i :: 0 <= i < |xs| ==> xs[i] >= 0
    ensures Sum(xs) >= 0
    ensures forall i :: 0 <= i < |xs| ==> xs[i] <= Sum(xs)
  {
    if xs != [] {
      SumBounds(xs[1..]);
      forall i | 0 <= i < |xs| ensures xs[i] <= Sum(xs) {
        if i > 0 {
          assert xs[i] == xs[1..][i - 1];
        }
      }
    }
  }

  lemma {:induction false} SumZero(xs: seq<int>)
    requires forall i :: 0 <= i < |xs| ==> xs[i] == 0
    ensures Sum(xs) == 0
  {
    if xs != [] {
      SumZero(xs[1..]);
    }
  }

  lemma {:induction false} GreedyExists(amount: int, owed: seq<int>)
    requires forall i :: 0 <= i < |owed| ==> owed[i] >= 0
    ensures IsGreedy(amount, owed, Shares(amount, owed))
  {
    if owed != [] {
      var s := Max(0, Min(owed[0], amount));
      GreedyExists(amount - s, owed[1..]);
      GreedyCons(amount, owed, s, Shares(amount - s, owed[1..]));
      assert Shares(amount, owed) == [s] + Shares(amount - s, owed[1..]);
    }
  }

  lemma GreedyCons(amount: int, owed: seq<int>, s: int, rest: seq<int>)
    requires owed != [] && forall i :: 0 <= i < |owed| ==> owed[i] >= 0
    requires s == Max(0, Min(owed[0], amount)) && IsGreedy(amount - s, owed[1..], rest)
    ensures IsGreedy(amount, owed, [s] + rest)
  {
    var shares := [s] + rest;
    assert shares[1..] == rest;
    SumBounds(owed[1..]);
    SumBounds(rest);
    assert Sum(shares) == s + Sum(rest) && Sum(owed) == owed[0] + Sum(owed[1..]);
    forall i | 0 <= i < |owed| ensures 0 <= shares[i] <= owed[i] {
      if i > 0 {
        assert shares[i] == rest[i - 1] && owed[i] == owed[1..][i - 1];
      }
    }
    forall i, j | 0 <= i < j < |owed| && shares[j] > 0 ensures shares[i] == owed[i] {
      assert shares[j] == rest[j - 1] <= Sum(rest);
      if i > 0 {
        assert shares[i] == rest[i - 1] && owed[i] == owed[1..][i - 1];
      }
    }
  }

  /** In a greedy split the first debt gets all it can, and the rest is a greedy split of what remains. */
  lemma GreedyFirst(amount: int, owed: seq<int>, shares: seq<int>)
    requires IsGreedy(amount, owed, shares) && owed != []
    ensures shares[0] == Max(0, Min(owed[0], amount))
  {
    var rest := shares[1..];
    SumBounds(rest);
    SumBounds(owed[1..]);
    if shares[0] < owed[0] {
      forall j | 0 <= j < |rest| ensures rest[j] == 0 {
        assert rest[j] == shares[j + 1];
      }
      SumZero(rest);
    }
  }

  lemma GreedyRest(amount: int, owed: seq<int>, shares: seq<int>)
    requires IsGreedy(amount, owed, shares) && owed != []
    ensures IsGreedy(amount - shares[0], owed[1..], shares[1..])
  {
    var rest := shares[1..];
    GreedyFirst(amount, owed, shares);
    SumBounds(rest);
    SumBounds(owed[1..]);
    forall i | 0 <= i < |rest| ensures 0 <= rest[i] <= owed[1..][i] {
      assert rest[i] == shares[i + 1] && owed[1..][i] == owed[i + 1];
    }
    forall i, j | 0 <= i < j < |rest| && rest[j] > 0 ensures rest[i] == owed[1..][i] {
      assert rest[j] == shares[j + 1] && rest[i] == shares[i + 1];
    }
  }

  lemma {:induction false} GreedyUnique(amount: int, owed: seq<int>, shares: seq<int>)
    requires IsGreedy(amount, owed, shares)
    ensures shares == Shares(amount, owed)
  {
    if owed != [] {
      GreedyFirst(amount, owed, shares);
      GreedyRest(amount, owed, shares);
      GreedyUnique(amount - shares[0], owed[1..], shares[1..]);
      assert shares == [shares[0]] + shares[1..];
    }
  }

  lemma {:induction false} AllocationsAreShares(amount: int, invoices: seq<Invoice>)
    ensures Allocations(amount, invoices) == NonZero(invoices, Shares(amount, Owed(invoices)))
  {
    if invoices != [] {
      var owed := Owed(invoices);
      var s := Max(0, Min(owed[0], amount));
      assert owed[1..] == Owed(invoices[1..]);
      assert Shares(amount, owed)[1..] == Shares(amount - s, owed[1..]);
      AllocationsAreShares(amount - s, invoices[1..]);
      if amount - s <= 0 {
        assert Allocations(amount - s, invoices[1..]) == [];
      }
    }
  }

  /** CalculateAllocations is the one and only greedy allocation of the payment. */
  lemma AllocationsAreTheGreedyOnes(amount: int, invoices: seq<Invoice>, shares: seq<int>)
    ensures IsGreedy(amount, Owed(invoices), shares) <==> shares == Shares(amount, Owed(invoices))
    ensures IsGreedy(amount, Owed(invoices), shares) ==> Allocations(amount, invoices) == NonZero(invoices, shares)
  {
    GreedyExists(amount, Owed(invoices));
    AllocationsAreShares(amount, invoices);
    if IsGreedy(amount, Owed(invoices), shares) {
      GreedyUnique(amount, Owed(invoices), shares);
    }
  }

  // ---- Oldest first ----

  predicate StillOwes(inv: Invoice) { Balance(inv) > 0 }

  /** No invoice gets anything while one that is due earlier still owes. */
  ghost predicate OldestFirst(invoices: seq<Invoice>, shares: seq<int>)
    requires |shares| == |invoices|
  {
    forall i, j :: 0 <= i < |invoices| && 0 <= j < |invoices| && StillOwes(invoices[i]) && StillOwes(invoices[j]) ==>
      invoices[i].dueDay < invoices[j].dueDay && shares[j] > 0 ==> shares[i] == Balance(invoices[i])
  }

  /** The invoices that still owe are listed by due day. */
  predicate InDueOrder(invoices: seq<Invoice>)
  {
    forall i, j :: 0 <= i < j < |invoices| && StillOwes(invoices[i]) && StillOwes(invoices[j]) ==>
      invoices[i].dueDay <= invoices[j].dueDay
  }

  /** The amount that reaches debt i with one cent gives it that cent and leaves nothing for the later ones. */
  lemma {:induction false} OneCentFor(owed: seq<int>, i: nat, j: nat)
    requires i < j < |owed| && owed[i] > 0 && forall k :: 0 <= k < |owed| ==> owed[k] >= 0
    ensures Shares(Sum(owed[..i]) + 1, owed)[i] == 1 && Shares(Sum(owed[..i]) + 1, owed)[j] == 0
  {
    var rest := owed[1..];
    if i == 0 {
      assert Sum(owed[..0]) == 0;
      NothingLeft(0, rest, j - 1);
    } else {
      assert owed[..i][0] == owed[0] && owed[..i][1..] == rest[..i - 1];
      SumBounds(rest[..i - 1]);
      OneCentFor(rest, i - 1, j - 1);
    }
  }

  lemma {:induction false} NothingLeft(amount: int, owed: seq<int>, j: nat)
    requires amount <= 0 && j < |owed|
    ensures Shares(amount, owed)[j] == 0
  {
    if j > 0 {
      NothingLeft(amount - Max(0, Min(owed[0], amount)), owed[1..], j - 1);
    }
  }

  lemma SortedIsOldestFirst(invoices: seq<Invoice>, amount: int)
    requires InDueOrder(invoices)
    ensures OldestFirst(invoices, Shares(amount, Owed(invoices)))
  {
    var owed, shares := Owed(invoices), Shares(amount, Owed(invoices));
    GreedyExists(amount, owed);
    forall i, j | 0 <= i < |invoices| && 0 <= j < |invoices| && StillOwes(invoices[i]) && StillOwes(invoices[j])
                  && invoices[i].dueDay < invoices[j].dueDay && shares[j] > 0
      ensures shares[i] == Balance(invoices[i])
    {
      assert i < j;
      assert shares[i] == owed[i];
    }
  }

  lemma UnsortedIsNot(invoices: seq<Invoice>, i: nat, j: nat)
    requires i < j < |invoices| && StillOwes(invoices[i]) && StillOwes(invoices[j])
    requires invoices[j].dueDay < invoices[i].dueDay
    ensures !OldestFirst(invoices, Shares(Sum(Owed(invoices)[..i]) + 1, Owed(invoices)))
  {
    OneCentFor(Owed(invoices), i, j);
  }

  /**
   For all amounts the allocation goes to the oldest due date first, as it is announced to, if and only if
   the list has the invoices that still owe in the order of their due dates; the lock query does not sort.
   */
  lemma OldestFirstExactlyInDueOrder(invoices: seq<Invoice>)
    ensures (forall amount :: OldestFirst(invoices, Shares(amount, Owed(invoices)))) <==> InDueOrder(invoices)
  {
    if InDueOrder(invoices) {
      forall amount ensures OldestFirst(invoices, Shares(amount, Owed(invoices))) {
        SortedIsOldestFirst(invoices, amount);
      }
    } else {
      var i, j :| 0 <= i < j < |invoices| && StillOwes(invoices[i]) && StillOwes(invoices[j])
                  && invoices[j].dueDay < invoices[i].dueDay;
      UnsortedIsNot(invoices, i, j);
    }
  }

  // ---- Facts about the list of allocations ----

  function Ids(allocs: seq<Allocation>): (r: seq<Id>)
    ensures |r| == |allocs| && forall i :: 0 <= i < |r| ==> r[i] == allocs[i].invoiceId
  {
    seq(|allocs|, i requires 0 <= i < |allocs| => allocs[i].invoiceId)
  }

  function Total(allocs: seq<Allocation>): int
  {
    if allocs == [] then 0 else allocs[0].amount + Total(allocs[1..])
  }

  ghost predicate Distinct<T>(xs: seq<T>)
  {
    forall i, j :: 0 <= i < j < |xs| ==> xs[i] != xs[j]
  }

  ghost predicate DistinctIds(invoices: seq<Invoice>)
  {
    forall i, j :: 0 <= i < j < |invoices| ==> invoices[i].id != invoices[j].id
  }

  /** Every allocation goes to a listed invoice, is positive, and is at most that invoice's balance. */
  lemma {:induction false} AllocationsWithinBalances(amount: int, invoices: seq<Invoice>)
    ensures forall a :: a in Allocations(amount, invoices) ==>
              a.amount > 0 && exists i :: 0 <= i < |invoices| && invoices[i].id == a.invoiceId && a.amount <= Balance(invoices[i])
    ensures 0 <= Total(Allocations(amount, invoices)) <= Max(amount, 0)
  {
    if amount > 0 && invoices != [] {
      var b := Balance(invoices[0]);
      var s := if b <= 0 then 0 else Min(b, amount);
      var rest := Allocations(amount - s, invoices[1..]);
      AllocationsWithinBalances(amount - s, invoices[1..]);
      forall a | a in rest
        ensures a.amount > 0
             && exists i :: 0 <= i < |invoices| && invoices[i].id == a.invoiceId && a.amount <= Balance(invoices[i])
      {
        var i :| 0 <= i < |invoices[1..]| && invoices[1..][i].id == a.invoiceId && a.amount <= Balance(invoices[1..][i]);
        assert invoices[i + 1] == invoices[1..][i];
      }
    }
  }

  lemma LaterIds(amount: int, invoices: seq<Invoice>, id: Id)
    requires forall i :: 0 <= i < |invoices| ==> invoices[i].id != id
    ensures forall k :: 0 <= k < |Allocations(amount, invoices)| ==> Allocations(amount, invoices)[k].invoiceId != id
  {
    AllocationsWithinBalances(amount, invoices);
    var allocs := Allocations(amount, invoices);
    forall k | 0 <= k < |allocs| ensures allocs[k].invoiceId != id {
      assert allocs[k] in allocs;
    }
  }

  lemma DistinctCons(a: Allocation, rest: seq<Allocation>)
    requires Distinct(Ids(rest)) && forall k :: 0 <= k < |rest| ==> rest[k].invoiceId != a.invoiceId
    ensures Distinct(Ids([a] + rest))
  {
    var all := [a] + rest;
    forall i, j | 0 <= i < j < |all| ensures Ids(all)[i] != Ids(all)[j] {
      assert Ids(all)[j] == Ids(rest)[j - 1];
      if i > 0 {
        assert Ids(all)[i] == Ids(rest)[i - 1];
      }
    }
  }

  lemma {:induction false} AllocationsDistinct(amount: int, invoices: seq<Invoice>)
    requires DistinctIds(invoices)
    ensures Distinct(Ids(Allocations(amount, invoices)))
  {
    if amount > 0 && invoices != [] {
      var b := Balance(invoices[0]);
      var s := if b <= 0 then 0 else Min(b, amount);
      AllocationsDistinct(amount - s, invoices[1..]);
      LaterIds(amount - s, invoices[1..], invoices[0].id);
      if b > 0 {
        DistinctCons(Allocation(invoices[0].id, s), Allocations(amount - s, invoices[1..]));
      }
    }
  }
}
