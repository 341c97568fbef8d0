/** The sales overview page (`Sales`): the type filter and the three
    totals cards. A "both" sale counts towards services and products. */
module SalesPage {
  import opened Seqs

  /** A listed sale: its type ("service", "product" or "both") and value. */
  datatype ListedSale = ListedSale(id: nat, kind: string, value: real)

  const AllTypes: string := "all"
  const ServiceType: string := "service"
  const ProductType: string := "product"
  const BothType: string := "both"

  predicate KnownType(s: ListedSale) { s.kind == ServiceType || s.kind == ProductType || s.kind == BothType }

  function TypeMatches(selected: string): ListedSale -> bool
  {
    (s: ListedSale) => selected == AllTypes || s.kind == selected
  }

  /** `filteredSales`: every sale for "all", otherwise the sales of the
      chosen type. */
  function FilterSales(sales: seq<ListedSale>, selected: string): (r: seq<ListedSale>)
    ensures selected == AllTypes ==> r == sales
    ensures forall i :: 0 <= i < |r| ==> r[i] in sales && (selected == AllTypes || r[i].kind == selected)
  {
    Filter(sales, TypeMatches(selected))
  }

  function Value(s: ListedSale): real { s.value }

  function CountsAsService(): ListedSale -> bool { (s: ListedSale) => s.kind == ServiceType || s.kind == BothType }
  function CountsAsProduct(): ListedSale -> bool { (s: ListedSale) => s.kind == ProductType || s.kind == BothType }
  function IsBoth(): ListedSale -> bool { (s: ListedSale) => s.kind == BothType }

  /** The three cards, over the filtered sales. */
  datatype Totals = Totals(totalSales: real, totalServices: real, totalProducts: real)

  function SalesTotals(sales: seq<ListedSale>, selected: string): Totals
  {
    var shown := FilterSales(sales, selected);
    Totals(SumOf(shown, Value),
           SumOf(Filter(shown, CountsAsService()), Value),
           SumOf(Filter(shown, CountsAsProduct()), Value))
  }

  /** A sale is shown iff its type is selected (or "all" is). */
  lemma {:induction false} FilterSalesSpec(sales: seq<ListedSale>, selected: string, s: ListedSale)
    ensures s in FilterSales(sales, selected) <==> s in sales && (selected == AllTypes || s.kind == selected)
  {
    FilterMember(sales, TypeMatches(selected), s);
  }

  function ServiceShare(s: ListedSale): real { if CountsAsService()(s) then s.value else 0.0 }
  function ProductShare(s: ListedSale): real { if CountsAsProduct()(s) then s.value else 0.0 }
  function BothShare(s: ListedSale): real { if IsBoth()(s) then s.value else 0.0 }
  function ValuePlusBoth(s: ListedSale): real { s.value + BothShare(s) }

  /** With every sale of a known type, the service and product cards add up
      to the sales card plus the "both" sales once more; with non-negative
      values that is at least the sales card. */
  lemma {:induction false} CardsDoubleCountBoth(sales: seq<ListedSale>, selected: string)
    requires forall i :: 0 <= i < |sales| ==> KnownType(sales[i])
    ensures var t := SalesTotals(sales, selected);
            t.totalServices + t.totalProducts
            == t.totalSales + SumOf(Filter(FilterSales(sales, selected), IsBoth()), Value)
    ensures (forall i :: 0 <= i < |sales| ==> sales[i].value >= 0.0) ==>
              SalesTotals(sales, selected).totalServices + SalesTotals(sales, selected).totalProducts
              >= SalesTotals(sales, selected).totalSales
  {
    var shown := FilterSales(sales, selected);
    assert forall i :: 0 <= i < |shown| ==> KnownType(shown[i]);
    SumOfFilter(shown, CountsAsService(), Value, ServiceShare);
    SumOfFilter(shown, CountsAsProduct(), Value, ProductShare);
    SumOfFilter(shown, IsBoth(), Value, BothShare);
    SumOfPlus(shown, ServiceShare, ProductShare, ValuePlusBoth);
    SumOfPlus(shown, Value, BothShare, ValuePlusBoth);
    if forall i :: 0 <= i < |sales| ==> sales[i].value >= 0.0 {
      forall i | 0 <= i < |shown| ensures BothShare(shown[i]) >= 0.0 {
        assert shown[i] in sales;
      }
      SumOfNonNegative(shown, BothShare);
    }
  }
}
