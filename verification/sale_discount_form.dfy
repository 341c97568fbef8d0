/** The two-tab discount and surcharge form of the sale screen
    (`SaleDiscountForm`): one discount and surcharge for the whole sale,
    or separate ones for products and services. */
module SaleDiscountForm {
  import opened Wrappers
  import opened Seqs
  import opened Text
  import opened Pos

  /** A text input together with what `parseFloat` makes of it (`None`
      for NaN). */
  datatype NumberField = NumberField(text: string, parsed: Option<real>)

  predicate Blank(f: NumberField) { Trim(f.text) == [] }

  /** The two tabs: one discount for the whole sale, or one per kind. */
  datatype Tab = TotalTab | SeparateTab

  /** The form's state: the active tab and its six text inputs. */
  datatype Form = Form(
    tab: Tab,
    discountTotal: NumberField, discountProducts: NumberField, discountServices: NumberField,
    surchargeTotal: NumberField, surchargeProducts: NumberField, surchargeServices: NumberField)

  /** The values handed to the parent: one per tab field. */
  datatype Split = Split(total: real, products: real, services: real)

  function SplitSum(s: Split): real { s.total + s.products + s.services }

  /** `validateDiscount`: a blank input is 0; otherwise the parsed number
      when it lies in `[0, subtotal]`, and 0 in every other case. */
  function ValidateDiscount(f: NumberField, subtotal: real): (r: real)
    ensures r == 0.0 || (0.0 <= r <= subtotal)
    ensures r != 0.0 ==> !Blank(f) && f.parsed == Some(r)
    ensures !Blank(f) && f.parsed.Some? && 0.0 <= f.parsed.value <= subtotal ==> r == f.parsed.value
    ensures Blank(f) || f.parsed.None? || f.parsed.value < 0.0 || f.parsed.value > subtotal ==> r == 0.0
  {
    var num := if Blank(f) then Some(0.0) else f.parsed;
    if num.Some? && num.value >= 0.0 && num.value <= subtotal then num.value else 0.0
  }

  /** `validateSurcharge`: a blank, unparsable or negative input is 0;
      otherwise the parsed number. */
  function ValidateSurcharge(f: NumberField): (r: real)
    ensures r >= 0.0
    ensures r != 0.0 ==> !Blank(f) && f.parsed == Some(r)
    ensures !Blank(f) && f.parsed.Some? && f.parsed.value >= 0.0 ==> r == f.parsed.value
  {
    var num := if Blank(f) then Some(0.0) else f.parsed;
    if num.Some? && num.value >= 0.0 then num.value else 0.0
  }

  function ProductsSubtotal(lines: seq<CartLine>): real { KindSubtotal(lines, ProductKind) }
  function ServicesSubtotal(lines: seq<CartLine>): real { KindSubtotal(lines, ServiceKind) }

  /** `subtotalTotal`: the sum of the two kind subtotals. */
  function TotalSubtotal(lines: seq<CartLine>): real
  {
    ProductsSubtotal(lines) + ServicesSubtotal(lines)
  }

  /** When every line is a product or a service, `subtotalTotal` is the
      cart subtotal; a line of any other kind is left out of it. */
  lemma {:induction false} TotalSubtotalIsSubtotal(lines: seq<CartLine>)
    requires forall i :: 0 <= i < |lines| ==> Typed(lines[i])
    ensures TotalSubtotal(lines) == Subtotal(lines)
  {
    KindSubtotalsSplit(lines);
  }

  /** The validated discounts of the three fields. */
  function Discounts(form: Form, lines: seq<CartLine>): Split
  {
    Split(ValidateDiscount(form.discountTotal, TotalSubtotal(lines)),
          ValidateDiscount(form.discountProducts, ProductsSubtotal(lines)),
          ValidateDiscount(form.discountServices, ServicesSubtotal(lines)))
  }

  /** The validated surcharges of the three fields. */
  function Surcharges(form: Form): Split
  {
    Split(ValidateSurcharge(form.surchargeTotal),
          ValidateSurcharge(form.surchargeProducts),
          ValidateSurcharge(form.surchargeServices))
  }

  /** Only the fields of the active tab reach the parent; the others are 0. */
  function ForTab(tab: Tab, s: Split): (r: Split)
    ensures tab == TotalTab ==> r.products == 0.0 && r.services == 0.0 && r.total == s.total
    ensures tab == SeparateTab ==> r.total == 0.0 && r.products == s.products && r.services == s.services
  {
    match tab
    case TotalTab => Split(s.total, 0.0, 0.0)
    case SeparateTab => Split(0.0, s.products, s.services)
  }

  /** The discount the form emits to its parent. */
  function EmittedDiscount(form: Form, lines: seq<CartLine>): Split
  {
    ForTab(form.tab, Discounts(form, lines))
  }

  /** The surcharge the form emits to its parent. */
  function EmittedSurcharge(form: Form): Split
  {
    ForTab(form.tab, Surcharges(form))
  }

  /** `finalTotal`: the per-tab formula. */
  function FinalTotal(form: Form, lines: seq<CartLine>): real
  {
    var d := Discounts(form, lines);
    var s := Surcharges(form);
    match form.tab
    case TotalTab => TotalSubtotal(lines) - d.total + s.total
    case SeparateTab => (ProductsSubtotal(lines) - d.products + s.products)
                          + (ServicesSubtotal(lines) - d.services + s.services)
  }

  /** The figure on screen: the final total floored at zero. */
  function DisplayedTotal(form: Form, lines: seq<CartLine>): (r: real)
    ensures r >= 0.0 && r >= FinalTotal(form, lines)
    ensures r == 0.0 || r == FinalTotal(form, lines)
    ensures FinalTotal(form, lines) >= 0.0 ==> r == FinalTotal(form, lines)
  {
    Max(0.0, FinalTotal(form, lines))
  }

  /** `showSeparate`: the separate tab is offered iff the cart holds both
      a product and a service. */
  function ShowSeparate(lines: seq<CartLine>): (r: bool)
    ensures r <==> (exists i :: 0 <= i < |lines| && lines[i].kind == ProductKind)
                   && (exists j :: 0 <= j < |lines| && lines[j].kind == ServiceKind)
  {
    HasKind(lines, ProductKind) && HasKind(lines, ServiceKind)
  }

  /** Whether any "Maior que o subtotal" warning shows. */
  predicate DiscountWarning(form: Form, lines: seq<CartLine>)
  {
    var d := Discounts(form, lines);
    d.total > TotalSubtotal(lines) || d.products > ProductsSubtotal(lines)
      || d.services > ServicesSubtotal(lines)
  }

  /** The total the form displays is the subtotal less everything it
      emits as discount plus everything it emits as surcharge: the parent
      and the form agree on the figures. */
  lemma {:induction false} FinalTotalMatchesEmitted(form: Form, lines: seq<CartLine>)
    ensures FinalTotal(form, lines)
            == TotalSubtotal(lines) - SplitSum(EmittedDiscount(form, lines)) + SplitSum(EmittedSurcharge(form))
  {}

  /** With non-negative prices and quantities, the validated discounts
      never exceed their subtotals, so the warnings cannot show, and the
      final total is non-negative (the on-screen floor never applies). */
  lemma {:induction false} WarningsUnreachable(form: Form, lines: seq<CartLine>)
    requires forall i :: 0 <= i < |lines| ==> lines[i].price >= 0.0 && lines[i].quantity >= 0.0
    ensures !DiscountWarning(form, lines)
    ensures FinalTotal(form, lines) >= 0.0
    ensures DisplayedTotal(form, lines) == FinalTotal(form, lines)
  {
    KindSubtotalNonNegative(lines, ProductKind);
    KindSubtotalNonNegative(lines, ServiceKind);
  }

  /** With a negative subtotal, the blank discount 0 already exceeds it:
      the warning is reachable only then. */
  lemma {:induction false} WarningNeedsNegativeSubtotal(form: Form, lines: seq<CartLine>)
    requires DiscountWarning(form, lines)
    ensures TotalSubtotal(lines) < 0.0 || ProductsSubtotal(lines) < 0.0 || ServicesSubtotal(lines) < 0.0
  {}
}
