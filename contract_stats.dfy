/** The summary figures the dashboards and payment pages compute from the
    list of contracts they fetched (`filter(...).length` and `reduce` sums),
    in exact real arithmetic. */
module ContractStats {
  import opened Common
  import opened Records
  import opened ContractRules

  /** `reduce((t, c) => t + (c.total_value - (c.paid_amount || 0)), 0)`:
      the farmer dashboard's pending payments and the buyer payment page's
      pending payments, over every contract whatever its status. */
  function SumPending(cs: seq<Contract>): real {
    if cs == [] then 0.0 else PendingAmount(cs[0]) + SumPending(cs[1..])
  }

  /** The buyer payment page's total spent: the sum of `paid_amount || 0`. */
  function SumPaid(cs: seq<Contract>): real {
    if cs == [] then 0.0 else PaidOf(cs[0]) + SumPaid(cs[1..])
  }

  /** The farmer dashboard's total contract value. */
  function SumTotals(cs: seq<Contract>): real {
    if cs == [] then 0.0 else cs[0].totalValue + SumTotals(cs[1..])
  }

  /** The buyer dashboard's upcoming payments: pending amounts of the active
      contracts only. */
  function UpcomingPayments(cs: seq<Contract>): real {
    if cs == [] then 0.0
    else (if cs[0].status == Active then PendingAmount(cs[0]) else 0.0) + UpcomingPayments(cs[1..])
  }

  function ActiveOnly(cs: seq<Contract>): (r: seq<Contract>)
    ensures |r| <= |cs|
    ensures forall c :: c in r <==> c in cs && c.status == Active
    ensures multiset(r) <= multiset(cs)
  {
    if cs == [] then []
    else
      assert cs == [cs[0]] + cs[1..];
      if cs[0].status == Active then [cs[0]] + ActiveOnly(cs[1..])
      else ActiveOnly(cs[1..])
  }

  /** The contracts that are not active (pending, completed or cancelled). */
  function InactiveOnly(cs: seq<Contract>): (r: seq<Contract>)
    ensures |r| <= |cs|
    ensures forall c :: c in r <==> c in cs && c.status != Active
    ensures multiset(r) <= multiset(cs)
  {
    if cs == [] then []
    else
      assert cs == [cs[0]] + cs[1..];
      if cs[0].status != Active then [cs[0]] + InactiveOnly(cs[1..])
      else InactiveOnly(cs[1..])
  }

  /** `filter(c => c.status === s).length`: the active count and the
      procurement-request (pending) count. */
  function CountWithStatus(cs: seq<Contract>, s: Status): (n: nat)
    ensures n <= |cs|
    ensures n == 0 <==> forall i :: 0 <= i < |cs| ==> cs[i].status != s
  {
    if cs == [] then 0
    else
      assert forall i :: 1 <= i < |cs| ==> cs[i] == cs[1..][i - 1];
      (if cs[0].status == s then 1 else 0) + CountWithStatus(cs[1..], s)
  }

  /** The farmer dashboard's count of contracts with money still owed:
      `filter(c => c.total_value > (c.paid_amount || 0)).length`. */
  function OutstandingCount(cs: seq<Contract>): (n: nat)
    ensures n <= |cs|
    ensures n == 0 <==> forall i :: 0 <= i < |cs| ==> PaidOf(cs[i]) >= cs[i].totalValue
  {
    if cs == [] then 0
    else
      assert forall i :: 1 <= i < |cs| ==> cs[i] == cs[1..][i - 1];
      (if cs[0].totalValue > PaidOf(cs[0]) then 1 else 0) + OutstandingCount(cs[1..])
  }

  /** What has been paid and what is pending add up to the value of all contracts. */
  lemma {:induction false} SpentPlusPendingIsTotal(cs: seq<Contract>)
    ensures SumPaid(cs) + SumPending(cs) == SumTotals(cs)
  {
    if cs != [] {
      SpentPlusPendingIsTotal(cs[1..]);
    }
  }

  /** The buyer dashboard's upcoming payments are the pending amounts of the
      active contracts and nothing else. */
  lemma {:induction false} UpcomingIsActivePending(cs: seq<Contract>)
    ensures UpcomingPayments(cs) == SumPending(ActiveOnly(cs))
  {
    if cs != [] {
      UpcomingIsActivePending(cs[1..]);
    }
  }

  /** When no contract is overpaid, the active contracts' pending amount is
      never negative and never more than the pending amount of all contracts. */
  lemma {:induction false} UpcomingWithinPending(cs: seq<Contract>)
    requires forall i :: 0 <= i < |cs| ==> PaidOf(cs[i]) <= cs[i].totalValue
    ensures 0.0 <= UpcomingPayments(cs) <= SumPending(cs)
  {
    if cs != [] {
      assert forall i :: 0 <= i < |cs| - 1 ==> cs[1..][i] == cs[i + 1];
      UpcomingWithinPending(cs[1..]);
    }
  }

  // ---------------------------------------------------------------------
  // Delivery windows

  /** 30 days and 7 days, in milliseconds. */
  const MonthMillis: int := 30 * 24 * 60 * 60 * 1000
  const WeekMillis: int := 7 * 24 * 60 * 60 * 1000

  /** An active contract whose end date lies strictly between `now` and
      `now + horizon`; `parseDate` is `new Date(end_date).getTime()`. */
  predicate DueWithin(c: Contract, now: int, horizon: int, parseDate: string -> int) {
    c.status == Active && parseDate(c.endDate) > now && parseDate(c.endDate) < now + horizon
  }

  function CountDueWithin(cs: seq<Contract>, now: int, horizon: int, parseDate: string -> int): nat {
    if cs == [] then 0
    else (if DueWithin(cs[0], now, horizon, parseDate) then 1 else 0) + CountDueWithin(cs[1..], now, horizon, parseDate)
  }

  /** The buyer dashboard's upcoming deliveries (within 30 days). */
  function UpcomingDeliveries(cs: seq<Contract>, now: int, parseDate: string -> int): nat {
    CountDueWithin(cs, now, MonthMillis, parseDate)
  }

  /** The buyer dashboard's deliveries this week (within 7 days). */
  function DeliveriesThisWeek(cs: seq<Contract>, now: int, parseDate: string -> int): nat {
    CountDueWithin(cs, now, WeekMillis, parseDate)
  }

  /** A wider window counts at least as many deliveries, and deliveries are
      always among the active contracts. */
  lemma {:induction false} WiderWindowCountsMore(cs: seq<Contract>, now: int, h1: int, h2: int, parseDate: string -> int)
    requires h1 <= h2
    ensures CountDueWithin(cs, now, h1, parseDate) <= CountDueWithin(cs, now, h2, parseDate)
    ensures CountDueWithin(cs, now, h2, parseDate) <= CountWithStatus(cs, Active)
  {
    if cs != [] {
      WiderWindowCountsMore(cs[1..], now, h1, h2, parseDate);
    }
  }

  /** For the same `now`, this week's deliveries are among this month's. */
  lemma WeekWithinMonth(cs: seq<Contract>, now: int, parseDate: string -> int)
    ensures DeliveriesThisWeek(cs, now, parseDate) <= UpcomingDeliveries(cs, now, parseDate)
    ensures UpcomingDeliveries(cs, now, parseDate) <= CountWithStatus(cs, Active)
  {
    WiderWindowCountsMore(cs, now, WeekMillis, MonthMillis, parseDate);
  }

  // ---------------------------------------------------------------------
  // The buyer payment page's "Due for active contracts" card

  /** The card is labelled "Due for active contracts" but shows `SumPending`,
      which also counts completed, pending and cancelled contracts: one
      completed contract with nothing paid makes the card show its whole value
      while nothing is due on an active contract. */
  lemma PendingCardCountsInactive(c: Contract)
    requires c.status == Completed && c.totalValue == 100.0 && c.paidAmount == None
    ensures SumPending([c]) == 100.0
    ensures UpcomingPayments([c]) == 0.0
  {
  }

  /** On every list, the card's sum is the active contracts' pending amount
      plus that of all the others. */
  lemma {:induction false} PendingSplitsByStatus(cs: seq<Contract>)
    ensures SumPending(cs) == UpcomingPayments(cs) + SumPending(InactiveOnly(cs))
  {
    if cs != [] {
      PendingSplitsByStatus(cs[1..]);
    }
  }

  /** Contracts none of which is overpaid have a pending sum that is never
      negative, and positive as soon as one of them is not paid up. */
  lemma {:induction false} PendingPositive(xs: seq<Contract>)
    requires forall c :: c in xs ==> PaidOf(c) <= c.totalValue
    ensures SumPending(xs) >= 0.0
    ensures (exists c :: c in xs && PaidOf(c) < c.totalValue) ==> SumPending(xs) > 0.0
  {
    if xs != [] {
      assert forall c :: c in xs[1..] ==> c in xs;
      PendingPositive(xs[1..]);
      if exists c :: c in xs && PaidOf(c) < c.totalValue {
        var c :| c in xs && PaidOf(c) < c.totalValue;
        if c != xs[0] {
          assert c in xs[1..];
        }
      }
    }
  }

  /** When nothing is overpaid and some contract that is not active still
      has money owed, the card shows strictly more than what is due on the
      active contracts. */
  lemma PendingCardOvercounts(cs: seq<Contract>)
    requires forall c :: c in cs ==> PaidOf(c) <= c.totalValue
    requires exists c :: c in cs && c.status != Active && PaidOf(c) < c.totalValue
    ensures SumPending(cs) > UpcomingPayments(cs)
  {
    PendingSplitsByStatus(cs);
    var c :| c in cs && c.status != Active && PaidOf(c) < c.totalValue;
    assert c in InactiveOnly(cs);
    PendingPositive(InactiveOnly(cs));
  }
}
