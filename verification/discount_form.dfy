/** The amount-or-percentage discount form (`DiscountForm`) that edits the
    settings of the sale calculator. */
module DiscountForm {
  import opened Wrappers
  import opened Pos
  import SaleCalculations

  /** `isAmountValid`: the amount is at most the subtotal. */
  predicate AmountValid(d: DiscountValues, subtotal: real) { d.amount <= subtotal }

  /** `isPercentValid`: the percentage is at most 100. */
  predicate PercentValid(d: DiscountValues) { d.percent <= 100.0 }

  /** `handleAmountChange`: the parsed amount (NaN as 0) in amount mode;
      the percentage is kept. */
  function ChangeAmount(d: DiscountValues, parsed: Option<real>): (r: DiscountValues)
    ensures r.mode == ByAmount && r.percent == d.percent
    ensures r.amount == parsed.GetOr(0.0)
  {
    d.(amount := parsed.GetOr(0.0), mode := ByAmount)
  }

  /** `handlePercentChange`: the parsed percentage (NaN as 0) in percent
      mode; the amount is kept. */
  function ChangePercent(d: DiscountValues, parsed: Option<real>): (r: DiscountValues)
    ensures r.mode == ByPercent && r.amount == d.amount
    ensures r.percent == parsed.GetOr(0.0)
  {
    d.(percent := parsed.GetOr(0.0), mode := ByPercent)
  }

  /** `handleTabChange`: only the mode changes. */
  function ChangeTab(d: DiscountValues, mode: DiscountMode): (r: DiscountValues)
    ensures r.mode == mode && r.amount == d.amount && r.percent == d.percent
  {
    d.(mode := mode)
  }

  /** A valid amount entered in the form is applied by the calculator
      exactly; an invalid one is capped at the subtotal. */
  lemma {:induction false} AmountChangeApplied(d: DiscountValues, parsed: Option<real>, subtotal: real)
    ensures AmountValid(ChangeAmount(d, parsed), subtotal) ==>
              SaleCalculations.CalculatedDiscount(ChangeAmount(d, parsed), subtotal) == parsed.GetOr(0.0)
    ensures !AmountValid(ChangeAmount(d, parsed), subtotal) ==>
              SaleCalculations.CalculatedDiscount(ChangeAmount(d, parsed), subtotal) == subtotal
  {}

  /** A valid, non-negative percentage on a non-negative subtotal is
      applied exactly as that share of the subtotal. */
  lemma {:induction false} PercentChangeApplied(d: DiscountValues, parsed: Option<real>, subtotal: real)
    requires subtotal >= 0.0 && parsed.GetOr(0.0) >= 0.0
    requires PercentValid(ChangePercent(d, parsed))
    ensures SaleCalculations.CalculatedDiscount(ChangePercent(d, parsed), subtotal)
            == subtotal * parsed.GetOr(0.0) / 100.0
  {
    var p := parsed.GetOr(0.0);
    assert subtotal * p <= subtotal * 100.0;
  }

  /** Switching tabs back and forth restores the settings. */
  lemma {:induction false} TabRoundTrip(d: DiscountValues, mode: DiscountMode)
    ensures ChangeTab(ChangeTab(d, mode), d.mode) == d
  {}
}
