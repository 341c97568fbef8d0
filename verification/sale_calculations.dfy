/** The sale calculator hook (`useSaleCalculations`): subtotal of the
    cart, the discount actually applied, and a total that is never
    negative. */
module SaleCalculations {
  import opened Seqs
  import opened Pos

  /** The hook's state: the discount settings and the stored surcharge. */
  datatype Calculator = Calculator(discount: DiscountValues, surcharge: real)

  /** The state the hook starts in: amount 0, percent 0, amount mode,
      surcharge 0. */
  const Initial: Calculator := Calculator(DiscountValues(0.0, 0.0, ByAmount), 0.0)

  /** The discount applied to `subtotal`: the amount, or the percentage of
      the subtotal, whichever mode is in force, capped at the subtotal. */
  function CalculatedDiscount(d: DiscountValues, subtotal: real): (r: real)
    ensures r <= subtotal
    ensures d.mode == ByAmount ==> r == d.amount || r == subtotal
    ensures d.mode == ByAmount && d.amount <= subtotal ==> r == d.amount
    ensures d.mode == ByPercent && subtotal * d.percent / 100.0 <= subtotal ==> r == subtotal * d.percent / 100.0
    ensures d.mode == ByPercent ==> r == subtotal * d.percent / 100.0 || r == subtotal
  {
    match d.mode
    case ByAmount => Min(d.amount, subtotal)
    case ByPercent => Min(subtotal * d.percent / 100.0, subtotal)
  }

  /** The total the hook reports: subtotal less the applied discount plus
      the surcharge, floored at zero. */
  function Total(c: Calculator, lines: seq<CartLine>): (r: real)
    ensures r >= 0.0
    ensures r >= Subtotal(lines) - CalculatedDiscount(c.discount, Subtotal(lines)) + c.surcharge
    ensures Subtotal(lines) - CalculatedDiscount(c.discount, Subtotal(lines)) + c.surcharge >= 0.0 ==>
              r == Subtotal(lines) - CalculatedDiscount(c.discount, Subtotal(lines)) + c.surcharge
  {
    var sub := Subtotal(lines);
    Max(0.0, sub - CalculatedDiscount(c.discount, sub) + c.surcharge)
  }

  /** `handleDiscountChange`: the new settings replace the old ones. */
  function ChangeDiscount(c: Calculator, d: DiscountValues): (r: Calculator)
    ensures r.discount == d && r.surcharge == c.surcharge
  {
    c.(discount := d)
  }

  /** `handleSurchargeChange`: a negative surcharge is stored as zero. */
  function ChangeSurcharge(c: Calculator, surcharge: real): (r: Calculator)
    ensures r.discount == c.discount
    ensures r.surcharge >= 0.0
    ensures surcharge >= 0.0 ==> r.surcharge == surcharge
    ensures surcharge < 0.0 ==> r.surcharge == 0.0
  {
    c.(surcharge := Max(0.0, surcharge))
  }

  /** Every reachable state holds a non-negative surcharge. */
  predicate Reachable(c: Calculator) { c.surcharge >= 0.0 }

  lemma {:induction false} ChangesKeepReachable(c: Calculator, d: DiscountValues, s: real)
    requires Reachable(c)
    ensures Reachable(Initial)
    ensures Reachable(ChangeDiscount(c, d))
    ensures Reachable(ChangeSurcharge(c, s))
  {}

  /** In a reachable state the zero floor never applies: the applied
      discount is capped at the subtotal and the surcharge is non-negative,
      so the total is exactly subtotal - discount + surcharge. */
  lemma {:induction false} TotalCoversDiscountedSubtotal(c: Calculator, lines: seq<CartLine>)
    requires Reachable(c)
    ensures Total(c, lines) >= Subtotal(lines) - CalculatedDiscount(c.discount, Subtotal(lines))
    ensures Total(c, lines) == Subtotal(lines) - CalculatedDiscount(c.discount, Subtotal(lines)) + c.surcharge
  {}

  /** Before any change, the total is the subtotal (for a cart of
      non-negative prices and quantities). */
  lemma {:induction false} InitialTotal(lines: seq<CartLine>)
    requires forall i :: 0 <= i < |lines| ==> lines[i].price >= 0.0 && lines[i].quantity >= 0.0
    ensures Total(Initial, lines) == Subtotal(lines)
  {
    SubtotalNonNegative(lines);
  }
}
