/** The rules the contract screens apply before they call the store: the
    status toggle and its guard, the ±10 progress buttons, the buyer's
    "Make Payment" formula and guard, and the per-contract figures shown on
    the payment pages. The store itself checks none of these. */
module ContractRules {
  import opened Common
  import opened Records

  // ---------------------------------------------------------------------
  // Status toggle ("Mark Complete" / "Mark Active")

  /** The status the toggle asks for: an active contract is completed, any
      other one is (re)activated. */
  function ToggleTarget(s: Status): (t: Status)
    ensures t == Completed <==> s == Active
    ensures t == Active <==> s != Active
    ensures t != Pending && t != Cancelled
  {
    if s == Active then Completed else Active
  }

  /** The toggle is disabled on a cancelled contract. */
  predicate ToggleDisabled(s: Status) {
    s == Cancelled
  }

  /** The statuses a toggle click can move a contract between: pending and
      completed contracts become active, active ones completed, and a
      cancelled contract is never written. */
  lemma ToggleMoves(s: Status)
    requires !ToggleDisabled(s)
    ensures s == Pending ==> ToggleTarget(s) == Active
    ensures s == Completed ==> ToggleTarget(s) == Active
    ensures s == Active ==> ToggleTarget(s) == Completed
    ensures ToggleTarget(ToggleTarget(s)) == (if s == Active then Active else Completed)
  {
  }

  // ---------------------------------------------------------------------
  // Progress buttons

  /** The progress shown and stepped from: a null progress counts as 0. */
  function ProgressOf(c: Contract): int {
    c.progress.GetOr(0)
  }

  /** "-10%": ten less, never below 0. */
  function StepDown(p: Option<int>): (r: int)
    ensures r >= 0
    ensures p.GetOr(0) >= 10 ==> r == p.GetOr(0) - 10
    ensures p.GetOr(0) < 10 ==> r == 0
  {
    if p.GetOr(0) - 10 > 0 then p.GetOr(0) - 10 else 0
  }

  /** "+10%": ten more, never above 100. */
  function StepUp(p: Option<int>): (r: int)
    ensures r <= 100
    ensures p.GetOr(0) <= 90 ==> r == p.GetOr(0) + 10
    ensures p.GetOr(0) > 90 ==> r == 100
  {
    if p.GetOr(0) + 10 < 100 then p.GetOr(0) + 10 else 100
  }

  /** "-10%" is disabled at or below 0; a null progress compares as 0. */
  predicate StepDownDisabled(p: Option<int>) {
    p.GetOr(0) <= 0
  }

  /** "+10%" is disabled at or above 100; a null progress compares as 0. */
  predicate StepUpDisabled(p: Option<int>) {
    p.GetOr(0) >= 100
  }

  /** A progress in [0,100] stays in [0,100] under either button, and an
      enabled button always moves it. */
  lemma StepsStayInRange(p: Option<int>)
    requires 0 <= p.GetOr(0) <= 100
    ensures 0 <= StepDown(p) <= 100 && 0 <= StepUp(p) <= 100
    ensures !StepDownDisabled(p) ==> StepDown(p) < p.GetOr(0)
    ensures !StepUpDisabled(p) ==> StepUp(p) > p.GetOr(0)
  {
  }

  /** Up then down, or down then up, returns to where it started away from the
      clamping edges. */
  lemma StepRoundTrip(p: int)
    ensures 0 <= p <= 90 ==> StepDown(Some(StepUp(Some(p)))) == p
    ensures 10 <= p <= 100 ==> StepUp(Some(StepDown(Some(p)))) == p
  {
  }

  // ---------------------------------------------------------------------
  // Payments

  /** The amount recorded, with a null `paid_amount` counted as 0. */
  function PaidOf(c: Contract): real {
    c.paidAmount.GetOr(0.0)
  }

  /** What is still owed on a contract: `total_value - (paid_amount || 0)`. */
  function PendingAmount(c: Contract): (r: real)
    ensures PaidOf(c) + r == c.totalValue
    ensures PaidOf(c) <= c.totalValue ==> r >= 0.0
  {
    c.totalValue - PaidOf(c)
  }

  /** The absolute amount a "Make Payment" click writes:
      `min(total, paid + total * 0.2)`, with 0.2 taken exactly as 1/5. */
  function PaymentTarget(paid: real, total: real): (t: real)
    ensures t <= total
    ensures t == total || t == paid + total / 5.0
    ensures 0.0 <= paid <= total ==> paid <= t
    ensures 0.0 <= paid < total ==> paid < t
  {
    if total < paid + total / 5.0 then total else paid + total / 5.0
  }

  /** The amount the success message reports as paid by this click. */
  function PaymentIncrement(paid: real, total: real): (d: real)
    ensures paid + d == PaymentTarget(paid, total)
    ensures 0.0 <= paid <= total ==> 0.0 <= d <= total / 5.0
  {
    PaymentTarget(paid, total) - paid
  }

  /** "Make Payment" is offered only on an active contract that is not paid up. */
  predicate PaymentOffered(c: Contract) {
    c.status == Active && PaidOf(c) < c.totalValue
  }

  /** Within the bounds the screens rely on: `0 <= paid <= total`. */
  predicate PaymentInRange(c: Contract) {
    0.0 <= PaidOf(c) <= c.totalValue
  }

  /** An offered payment on a contract within bounds writes a figure that is
      larger than what was paid and at most the total. */
  lemma PaymentClickAdvances(c: Contract)
    requires PaymentInRange(c) && PaymentOffered(c)
    ensures PaidOf(c) < PaymentTarget(PaidOf(c), c.totalValue) <= c.totalValue
  {
  }

  /** Repeated clicks pay a contract off: after five clicks from 0 the
      contract is fully paid, and no further payment is offered. */
  lemma FiveClicksPayInFull(total: real)
    requires total > 0.0
    ensures var p1 := PaymentTarget(0.0, total);
            var p2 := PaymentTarget(p1, total);
            var p3 := PaymentTarget(p2, total);
            var p4 := PaymentTarget(p3, total);
            PaymentTarget(p4, total) == total
  {
  }

  /** `Math.round(x)` for the exact real `x`: the nearest integer, halves
      rounded up. */
  function Round(x: real): (r: int)
    ensures r as real - 0.5 <= x < r as real + 0.5
  {
    (x + 0.5).Floor
  }

  /** The payment percentage shown beside a contract and used as the width of
      its bar: `Math.round((paid || 0) / total * 100)`. The code has no guard
      for a zero total, whose result would be NaN or Infinity. */
  function PaymentPercent(paid: Option<real>, total: real): (r: int)
    requires total > 0.0
    ensures 0.0 <= paid.GetOr(0.0) <= total ==> 0 <= r <= 100
    ensures paid.GetOr(0.0) == total ==> r == 100
    ensures paid.GetOr(0.0) == 0.0 ==> r == 0
  {
    var ratio := paid.GetOr(0.0) / total * 100.0;
    if 0.0 <= paid.GetOr(0.0) <= total then
      RatioInRange(paid.GetOr(0.0), total);
      Round(ratio)
    else Round(ratio)
  }

  lemma RatioInRange(paid: real, total: real)
    requires 0.0 <= paid <= total && total > 0.0
    ensures 0.0 <= paid / total * 100.0 <= 100.0
    ensures paid == total ==> paid / total * 100.0 == 100.0
  {
    var q := paid / total;
    assert q * total == paid;
    if paid == total {
      assert (q - 1.0) * total == 0.0;
    }
  }

  /** The figures of a 5000 contract after a first payment of one fifth:
      1000 paid, 4000 pending, 20%. */
  lemma FirstPaymentScenario(c: Contract)
    requires c.totalValue == 5000.0 && c.paidAmount == Some(0.0) && c.status == Active
    ensures PaymentOffered(c)
    ensures PaymentTarget(PaidOf(c), c.totalValue) == 1000.0
    ensures PendingAmount(c.(paidAmount := Some(1000.0))) == 4000.0
    ensures PaymentPercent(Some(1000.0), c.totalValue) == 20
  {
    assert 1000.0 / 5000.0 * 100.0 == 20.0;
  }
}
