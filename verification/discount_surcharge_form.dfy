/** The single discount-and-surcharge form (`DiscountSurchargeForm`): it
    forwards a change to its parent only when the value is acceptable, and
    shows the unclamped total. */
module DiscountSurchargeForm {
  import opened Wrappers
  import opened Pos

  /** The two amounts the parent holds and passes back in. */
  datatype Amounts = Amounts(discount: real, surcharge: real)

  /** `Number(value) || 0`: NaN (`None`) becomes 0. */
  function InputValue(parsed: Option<real>): (r: real)
    ensures parsed.None? ==> r == 0.0
    ensures parsed.Some? ==> r == parsed.value
  {
    parsed.GetOr(0.0)
  }

  /** A discount change reaches the parent iff it lies in `[0, subtotal]`. */
  predicate DiscountAccepted(parsed: Option<real>, subtotal: real)
  {
    0.0 <= InputValue(parsed) <= subtotal
  }

  /** `handleDiscountChange`, composed with the parent storing what it is
      sent: an accepted value replaces the discount, anything else is
      ignored. */
  function ChangeDiscount(a: Amounts, parsed: Option<real>, subtotal: real): (r: Amounts)
    ensures r.surcharge == a.surcharge
    ensures DiscountAccepted(parsed, subtotal) ==> r.discount == InputValue(parsed)
    ensures !DiscountAccepted(parsed, subtotal) ==> r == a
  {
    var value := InputValue(parsed);
    if value >= 0.0 && value <= subtotal then a.(discount := value) else a
  }

  /** `handleSurchargeChange`: a non-negative value replaces the
      surcharge, anything else is ignored. */
  function ChangeSurcharge(a: Amounts, parsed: Option<real>): (r: Amounts)
    ensures r.discount == a.discount
    ensures InputValue(parsed) >= 0.0 ==> r.surcharge == InputValue(parsed)
    ensures InputValue(parsed) < 0.0 ==> r == a
  {
    var value := InputValue(parsed);
    if value >= 0.0 then a.(surcharge := value) else a
  }

  /** The total line: subtotal less discount plus surcharge, with no floor. */
  function DisplayedTotal(a: Amounts, subtotal: real): real
  {
    subtotal - a.discount + a.surcharge
  }

  /** What the form's own checks guarantee about the amounts it set. */
  predicate Accepted(a: Amounts, subtotal: real)
  {
    0.0 <= a.discount <= subtotal && a.surcharge >= 0.0
  }

  /** Unparsable input counts as 0 and is therefore forwarded whenever the
      subtotal is non-negative. */
  lemma {:induction false} UnparsableIsZero(a: Amounts, subtotal: real)
    requires subtotal >= 0.0
    ensures ChangeDiscount(a, None, subtotal) == a.(discount := 0.0)
    ensures ChangeSurcharge(a, None) == a.(surcharge := 0.0)
  {}

  /** Both handlers keep the amounts acceptable, starting from zero
      amounts on a non-negative subtotal; and acceptable amounts give a
      displayed total that is non-negative and at least the surcharge. */
  lemma {:induction false} ChangesKeepTotalNonNegative(a: Amounts, subtotal: real, parsed: Option<real>)
    requires Accepted(a, subtotal)
    ensures Accepted(ChangeDiscount(a, parsed, subtotal), subtotal)
    ensures Accepted(ChangeSurcharge(a, parsed), subtotal)
    ensures DisplayedTotal(a, subtotal) >= a.surcharge >= 0.0
  {}

  /** A displayed total below zero can only come from amounts the form
      itself would not have forwarded (or a subtotal that shrank after
      they were set). */
  lemma {:induction false} NegativeTotalNeedsRejectedAmount(a: Amounts, subtotal: real)
    requires DisplayedTotal(a, subtotal) < 0.0
    ensures !Accepted(a, subtotal)
  {}
}
