/**
 The arithmetic of internal/domain/billing/domain.go. Money is counted in whole cents, a tax rate
 in ten-thousandths, and every rounding is to the nearest cent, halves away from zero.
 */
module BillingDomain {
  import opened Common

  /** round(n / d), halves away from zero. */
  function RoundHalfAway(n: int, d: int): (r: int)
    requires d > 0
  {
    if n >= 0 then (2 * n + d) / (2 * d) else -((2 * -n + d) / (2 * d))
  }

  function CalculateTax(subtotal: int, rate: int): (r: int)
  {
    RoundHalfAway(subtotal * rate, 10000)
  }

  function CalculateTotal(subtotal: int, tax: int, discount: int, lateFee: int): int
  {
    subtotal + tax - discount + lateFee
  }

  function CalculateProration(price: int, totalDays: int, billedDays: int): (r: int)
    ensures totalDays <= 0 ==> r == 0
  {
    if totalDays <= 0 then 0 else RoundHalfAway(price * billedDays, totalDays)
  }

  /** One percent a day, capped at ten percent; both amounts are in hundredths of a cent until rounded. */
  function CalculateLateFee(total: int, daysOverdue: int): (r: int)
  {
    if daysOverdue <= 0 then 0
    else
      var fee := total * daysOverdue;
      var cap := total * 10;
      RoundHalfAway(if fee > cap then cap else fee, 100)
  }

  datatype InvoiceStatus = Draft | Sent | Unpaid | Partial | Paid | Overpaid | Overdue | Cancelled | Refunded

  function InvoiceStatusFromAmounts(total: int, paid: int): InvoiceStatus
  {
    if paid <= 0 then Unpaid else if paid >= total then Paid else Partial
  }

  function ResolveGracePeriod(subGrace: Option<int>, profileGrace: int): (r: int)
    ensures r >= 0
    ensures subGrace.Some? && subGrace.value >= 0 ==> r == subGrace.value
    ensures !(subGrace.Some? && subGrace.value >= 0) && profileGrace > 0 ==> r == profileGrace
    ensures !(subGrace.Some? && subGrace.value >= 0) && profileGrace <= 0 ==> r == 3
  {
    if subGrace.Some? && subGrace.value >= 0 then subGrace.value
    else if profileGrace > 0 then profileGrace
    else 3
  }

  function ResolveBillingDay(subDay: Option<int>, profileDay: Option<int>): (r: int)
    ensures r >= 1
    ensures subDay.Some? && subDay.value > 0 ==> r == subDay.value
    ensures !(subDay.Some? && subDay.value > 0) && profileDay.Some? && profileDay.value > 0 ==> r == profileDay.value
    ensures !(subDay.Some? && subDay.value > 0) && !(profileDay.Some? && profileDay.value > 0) ==> r == 1
  {
    if subDay.Some? && subDay.value > 0 then subDay.value
    else if profileDay.Some? && profileDay.value > 0 then profileDay.value
    else 1
  }

  // ---- Rounding ----

  lemma RoundBounds(n: int, d: int)
    requires d > 0
    ensures var r := RoundHalfAway(n, d); 2 * n - d <= 2 * d * r <= 2 * n + d
    ensures n >= 0 ==> 2 * n - d < 2 * d * RoundHalfAway(n, d)
  {
    var m := if n >= 0 then n else -n;
    var q := (2 * m + d) / (2 * d);
    assert 2 * d * q <= 2 * m + d < 2 * d * q + 2 * d by { DivBounds(2 * m + d, 2 * d); }
    if n < 0 {
      assert 2 * d * (-q) == -(2 * d * q);
    }
  }

  lemma DivBounds(a: int, b: int)
    requires b > 0
    ensures b * (a / b) <= a < b * (a / b) + b
  {}

  /** Rounding is the only integer within the half-open half unit. */
  lemma RoundUnique(n: int, d: int, r: int)
    requires d > 0 && n >= 0
    requires 2 * n - d < 2 * d * r <= 2 * n + d
    ensures r == RoundHalfAway(n, d)
  {
    var q := RoundHalfAway(n, d);
    RoundBounds(n, d);
    if r < q {
      MulStrict(2 * d, r, q);
    } else if q < r {
      MulStrict(2 * d, q, r);
    }
  }

  /** Debits are rounded as credits are. */
  lemma RoundSymmetric(n: int, d: int)
    requires d > 0
    ensures RoundHalfAway(-n, d) == -RoundHalfAway(n, d)
  {}

  /** A total grows by what subtotal, tax and late fee grow by, and falls by what the discount does. */
  lemma TotalMoves(subtotal: int, tax: int, discount: int, lateFee: int, a: int, b: int, c: int, d: int)
    ensures CalculateTotal(subtotal, 0, 0, 0) == subtotal
    ensures CalculateTotal(subtotal + a, tax + b, discount + c, lateFee + d)
         == CalculateTotal(subtotal, tax, discount, lateFee) + a + b - c + d
  {}

  lemma RoundMonotone(m: int, n: int, d: int)
    requires d > 0 && 0 <= m <= n
    ensures RoundHalfAway(m, d) <= RoundHalfAway(n, d)
  {
    var p, q := RoundHalfAway(m, d), RoundHalfAway(n, d);
    RoundBounds(m, d);
    RoundBounds(n, d);
    if q < p {
      MulStrict(2 * d, q, p);
    }
  }

  lemma RoundExact(k: int, d: int)
    requires d > 0 && k >= 0
    ensures RoundHalfAway(k * d, d) == k
  {
    assert 2 * d * k == 2 * (k * d);
    RoundUnique(k * d, d, k);
  }

  // ---- Proration ----

  /**
   A bill for billedDays of totalDays is within half a cent of the exact share, never negative,
   never above the price, and grows with the days billed.
   */
  lemma ProrationAccurateAndBounded(price: int, totalDays: int, billedDays: int)
    requires price >= 0 && 0 <= billedDays <= totalDays && totalDays > 0
    ensures var p := CalculateProration(price, totalDays, billedDays);
            && 2 * price * billedDays - totalDays <= 2 * totalDays * p <= 2 * price * billedDays + totalDays
            && 0 <= p <= price
    ensures billedDays == totalDays ==> CalculateProration(price, totalDays, billedDays) == price
    ensures billedDays < totalDays ==>
              CalculateProration(price, totalDays, billedDays) <= CalculateProration(price, totalDays, billedDays + 1)
  {
    var n := price * billedDays;
    assert 0 <= n <= price * totalDays by { MulMonotone(price, billedDays, totalDays); }
    RoundBounds(n, totalDays);
    assert 2 * price * billedDays == 2 * n;
    RoundMonotone(0, n, totalDays);
    assert RoundHalfAway(0, totalDays) == 0 by { RoundExact(0, totalDays); }
    RoundMonotone(n, price * totalDays, totalDays);
    RoundExact(price, totalDays);
    MulMonotone(price, billedDays, billedDays + 1);
    RoundMonotone(n, price * (billedDays + 1), totalDays);
  }

  lemma MulMonotone(c: int, a: int, b: int)
    requires c >= 0 && 0 <= a <= b
    ensures 0 <= c * a <= c * b
  {
    assert c * b == c * a + c * (b - a);
  }

  /** Splitting a month between two owners loses or invents at most one cent. */
  lemma ProrationComplement(price: int, totalDays: int, billedDays: int)
    requires price >= 0 && 0 <= billedDays <= totalDays && totalDays > 0
    ensures var sum := CalculateProration(price, totalDays, billedDays)
                     + CalculateProration(price, totalDays, totalDays - billedDays);
            price <= sum <= price + 1
  {
    var n, m := price * billedDays, price * (totalDays - billedDays);
    assert n + m == price * totalDays;
    MulMonotone(price, 0, billedDays);
    MulMonotone(price, 0, totalDays - billedDays);
    var p, q := RoundHalfAway(n, totalDays), RoundHalfAway(m, totalDays);
    RoundBounds(n, totalDays);
    RoundBounds(m, totalDays);
    var s := p + q;
    assert 2 * totalDays * s == 2 * totalDays * p + 2 * totalDays * q;
    assert 2 * totalDays * price == 2 * (n + m);
    assert 2 * totalDays * (price + 1) == 2 * totalDays * price + 2 * totalDays;
    if s < price {
      MulStrict(2 * totalDays, s, price);
    } else if s > price + 1 {
      MulStrict(2 * totalDays, price + 1, s);
    }
  }

  // ---- Late fee ----

  /** The fee never falls as days pass, never exceeds the rounded ten percent, and is that cap from day ten on. */
  lemma LateFeeMonotoneAndCapped(total: int, days: int, later: int)
    requires total >= 0 && days <= later
    ensures 0 <= CalculateLateFee(total, days) <= CalculateLateFee(total, later) <= RoundHalfAway(total * 10, 100)
    ensures later >= 10 ==> CalculateLateFee(total, later) == RoundHalfAway(total * 10, 100)
  {
    RoundExact(0, 100);
    LateFeeNumerator(total, later);
    LateFeeNumerator(total, days);
    if days > 0 {
      var a, b := Min(days, 10), Min(later, 10);
      MulMonotone(total, 0, a);
      MulMonotone(total, a, b);
      MulMonotone(total, b, 10);
      RoundMonotone(0, total * a, 100);
      RoundMonotone(total * a, total * b, 100);
      RoundMonotone(total * b, total * 10, 100);
    } else if later > 0 {
      var b := Min(later, 10);
      MulMonotone(total, 0, b);
      MulMonotone(total, b, 10);
      RoundMonotone(0, total * b, 100);
      RoundMonotone(total * b, total * 10, 100);
    } else {
      MulMonotone(total, 0, 10);
      RoundMonotone(0, total * 10, 100);
    }
  }

  lemma LateFeeNumerator(total: int, days: int)
    requires total >= 0
    ensures days > 0 ==> CalculateLateFee(total, days) == RoundHalfAway(total * Min(days, 10), 100)
  {
    if days > 10 {
      MulMonotone(total, 10, days);
    } else if days > 0 {
      MulMonotone(total, days, 10);
    }
  }
}
