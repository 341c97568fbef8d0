/** The sale detail sheet (`SaleDetails`): the header's type label and the
    per-type and overall totals. */
module SaleDetails {
  import opened Wrappers
  import opened Seqs
  import opened Pos

  /** The stored amounts of the sale, each possibly missing. */
  datatype SaleAmounts = SaleAmounts(total: Option<real>, discount: Option<real>, surcharge: Option<real>)

  /** A truthy amount: present and non-zero. */
  predicate Truthy(x: Option<real>) { x.Some? && x.value != 0.0 }

  function KindCount(items: seq<CartLine>, kind: string): nat { |Filter(items, KindIs(kind))| }

  /** `getTypeLabel`. */
  function TypeLabel(items: seq<CartLine>): (r: string)
    ensures r == "Produtos e Serviços" <==> HasKind(items, ProductKind) && HasKind(items, ServiceKind)
    ensures r == "Produtos" <==> HasKind(items, ProductKind) && !HasKind(items, ServiceKind)
    ensures r == "Serviços" <==> !HasKind(items, ProductKind) && HasKind(items, ServiceKind)
    ensures r == "Itens" <==> !HasKind(items, ProductKind) && !HasKind(items, ServiceKind)
  {
    KindPresent(items, ProductKind);
    KindPresent(items, ServiceKind);
    var products := KindCount(items, ProductKind);
    var services := KindCount(items, ServiceKind);
    if products > 0 && services > 0 then "Produtos e Serviços"
    else if products > 0 then "Produtos"
    else if services > 0 then "Serviços"
    else "Itens"
  }

  /** The sheet's figures. */
  datatype Totals = Totals(productsTotal: real, servicesTotal: real, subtotal: real,
                           discount: real, surcharge: real, total: real)

  /** The totals: per-type sums of price times quantity, their sum, and
      the stored total unless it is missing or zero, in which case it is
      recomputed from the subtotal, discount and surcharge. */
  function DetailTotals(items: seq<CartLine>, sale: Option<SaleAmounts>): (r: Totals)
    ensures r.productsTotal == KindSubtotal(items, ProductKind)
    ensures r.servicesTotal == KindSubtotal(items, ServiceKind)
    ensures r.subtotal == r.productsTotal + r.servicesTotal
    ensures sale.None? ==> r.discount == 0.0 && r.surcharge == 0.0
    ensures sale.Some? ==>
      r.discount == NumberOrZero(sale.value.discount) && r.surcharge == NumberOrZero(sale.value.surcharge)
    ensures sale.Some? && Truthy(sale.value.total) ==> r.total == sale.value.total.value
    ensures !(sale.Some? && Truthy(sale.value.total)) ==> r.total == r.subtotal - r.discount + r.surcharge
  {
    var products := KindSubtotal(items, ProductKind);
    var services := KindSubtotal(items, ServiceKind);
    var subtotal := products + services;
    var discount := if sale.Some? then NumberOrZero(sale.value.discount) else 0.0;
    var surcharge := if sale.Some? then NumberOrZero(sale.value.surcharge) else 0.0;
    var total := if sale.Some? && Truthy(sale.value.total) then sale.value.total.value else subtotal - discount + surcharge;
    Totals(products, services, subtotal, discount, surcharge, total)
  }

  /** The separate product and service subtotal rows appear iff both kinds
      are present, which is exactly when the header says "Produtos e Serviços". */
  predicate ShowsSeparateRows(items: seq<CartLine>)
  {
    KindCount(items, ProductKind) > 0 && KindCount(items, ServiceKind) > 0
  }

  lemma {:induction false} SeparateRowsIffMixedLabel(items: seq<CartLine>)
    ensures ShowsSeparateRows(items) <==> TypeLabel(items) == "Produtos e Serviços"
  {
    KindPresent(items, ProductKind);
    KindPresent(items, ServiceKind);
  }

  /** With every item a product or a service, the sheet's subtotal is the
      sum of price times quantity over all items; a stored total of zero is
      recomputed rather than shown. */
  lemma {:induction false} SubtotalCoversItems(items: seq<CartLine>, sale: Option<SaleAmounts>)
    requires forall i :: 0 <= i < |items| ==> Typed(items[i])
    ensures DetailTotals(items, sale).subtotal == Subtotal(items)
    ensures sale.Some? && sale.value.total == Some(0.0) ==>
              DetailTotals(items, sale).total == Subtotal(items) - NumberOrZero(sale.value.discount) + NumberOrZero(sale.value.surcharge)
  {
    KindSubtotalsSplit(items);
  }
}
