/** The sales statistics hook (`useCalculateSaleStats`): the overall
    sales total, and its split into product and service buckets, with
    mixed sales distributed afterwards from their line items. */
module SaleStats {
  import opened Wrappers
  import opened Seqs

  /** A sale as the statistics see it: its id, its type ("product",
      "service" or "mixed") and its stored total (`None` where
      `Number(total)` is NaN). */
  datatype StatSale = StatSale(id: nat, kind: string, total: Option<real>)

  /** A line item of a mixed sale: its type and total. */
  datatype StatItem = StatItem(kind: string, total: Option<real>)

  datatype Stats = Stats(totalSales: real, totalProducts: real, totalServices: real)

  /** A mixed sale together with the line items fetched for it (none when
      the fetch returned nothing). */
  datatype MixedBatch = MixedBatch(sale: StatSale, items: seq<StatItem>)

  const ProductType: string := "product"
  const ServiceType: string := "service"
  const MixedType: string := "mixed"

  /** `Number(sale.total) || 0`. */
  function Amount(s: StatSale): real { s.total.GetOr(0.0) }

  function ItemAmount(i: StatItem): real { i.total.GetOr(0.0) }

  function SaleTypeIs(kind: string): StatSale -> bool { (s: StatSale) => s.kind == kind }

  function ItemTypeIs(kind: string): StatItem -> bool { (i: StatItem) => i.kind == kind }

  /** A sale whose type is neither product nor service: it adds to no bucket. */
  function Unbucketed(): StatSale -> bool
  {
    (s: StatSale) => s.kind != ProductType && s.kind != ServiceType
  }

  /** The statistics as sums: everything into the total, product and
      service sales into their own bucket. */
  function SalesStats(sales: seq<StatSale>): Stats
  {
    Stats(SumOf(sales, Amount),
          SumOf(Filter(sales, SaleTypeIs(ProductType)), Amount),
          SumOf(Filter(sales, SaleTypeIs(ServiceType)), Amount))
  }

  /** What one sale adds: its amount to the total, and to the bucket of
      its type when that is product or service. */
  function Step(stats: Stats, sale: StatSale): Stats
  {
    var amount := Amount(sale);
    var counted := stats.(totalSales := stats.totalSales + amount);
    if sale.kind == ProductType then counted.(totalProducts := counted.totalProducts + amount)
    else if sale.kind == ServiceType then counted.(totalServices := counted.totalServices + amount)
    else counted
  }

  /** `calculateSalesStats`: one pass over the sales in order. */
  method CalculateSalesStats(sales: seq<StatSale>) returns (stats: Stats)
    ensures stats == SalesStats(sales)
  {
    stats := Stats(0.0, 0.0, 0.0);
    var i := 0;
    while i < |sales|
      invariant 0 <= i <= |sales|
      invariant stats == SalesStats(sales[..i])
    {
      PrefixStep(sales, i + 1);
      var sale := sales[i];
      var amount := Amount(sale);
      stats := stats.(totalSales := stats.totalSales + amount);
      if sale.kind == ProductType {
        stats := stats.(totalProducts := stats.totalProducts + amount);
      } else if sale.kind == ServiceType {
        stats := stats.(totalServices := stats.totalServices + amount);
      }
      i := i + 1;
    }
    assert sales[..i] == sales;
  }

  /** How the statistics grow by one more sale. */
  lemma {:induction false} StatsSnoc(init: seq<StatSale>, last: StatSale)
    ensures SalesStats(init + [last]) == Step(SalesStats(init), last)
  {
    SumOfAppend(init, [last], Amount);
    BucketSnoc(init, last, ProductType);
    BucketSnoc(init, last, ServiceType);
  }

  /** The statistics of one prefix step from those of the prefix before it. */
  lemma {:induction false} PrefixStep(sales: seq<StatSale>, n: nat)
    requires 0 < n <= |sales|
    ensures SalesStats(sales[..n]) == Step(SalesStats(sales[..n - 1]), sales[n - 1])
  {
    assert sales[..n] == sales[..n - 1] + [sales[n - 1]];
    StatsSnoc(sales[..n - 1], sales[n - 1]);
  }

  /** One more sale grows the bucket of its own type by its amount. */
  lemma {:induction false} BucketSnoc(init: seq<StatSale>, last: StatSale, kind: string)
    ensures SumOf(Filter(init + [last], SaleTypeIs(kind)), Amount) ==
            SumOf(Filter(init, SaleTypeIs(kind)), Amount) + (if last.kind == kind then Amount(last) else 0.0)
  {
    FilterAppend(init, [last], SaleTypeIs(kind));
    SumOfAppend(Filter(init, SaleTypeIs(kind)), Filter([last], SaleTypeIs(kind)), Amount);
  }

  /** With non-negative totals the two buckets never exceed the overall
      total, and they reach it exactly when every sale of another type
      (a mixed sale) has total 0. */
  lemma {:induction false} BucketsBelowTotal(sales: seq<StatSale>)
    requires forall i :: 0 <= i < |sales| ==> Amount(sales[i]) >= 0.0
    ensures SalesStats(sales).totalProducts + SalesStats(sales).totalServices <= SalesStats(sales).totalSales
    ensures SalesStats(sales).totalProducts + SalesStats(sales).totalServices == SalesStats(sales).totalSales
            <==> forall i :: 0 <= i < |sales| && Unbucketed()(sales[i]) ==> Amount(sales[i]) == 0.0
  {
    var others := Filter(sales, Unbucketed());
    Partition3(sales, SaleTypeIs(ProductType), SaleTypeIs(ServiceType), Unbucketed(), Amount);
    forall i | 0 <= i < |others| ensures Amount(others[i]) >= 0.0 {
      assert others[i] in sales;
    }
    SumOfNonNegative(others, Amount);
    SumOfZero(others, Amount);
    if forall j :: 0 <= j < |others| ==> Amount(others[j]) == 0.0 {
      forall i | 0 <= i < |sales| && Unbucketed()(sales[i]) ensures Amount(sales[i]) == 0.0 {
        FilterMember(sales, Unbucketed(), sales[i]);
      }
    }
    if forall i :: 0 <= i < |sales| && Unbucketed()(sales[i]) ==> Amount(sales[i]) == 0.0 {
      forall j | 0 <= j < |others| ensures Amount(others[j]) == 0.0 {
        FilterMember(sales, Unbucketed(), others[j]);
      }
    }
  }

  /** The total of a mixed sale's items of one type. */
  function ItemsOfType(items: seq<StatItem>, kind: string): real
  {
    SumOf(Filter(items, ItemTypeIs(kind)), ItemAmount)
  }

  /** What one batch adds to a bucket: nothing unless the sale is mixed. */
  function MixedShare(kind: string): MixedBatch -> real
  {
    (b: MixedBatch) => if b.sale.kind == MixedType then ItemsOfType(b.items, kind) else 0.0
  }

  /** `processMixedSaleItems`: for each mixed sale in turn, its product
      items go to the product bucket and its service items to the service
      bucket; other sales and other item types change nothing. */
  function ProcessMixedSaleItems(stats: Stats, batches: seq<MixedBatch>): (r: Stats)
    ensures r.totalSales == stats.totalSales
    ensures r.totalProducts == stats.totalProducts + SumOf(batches, MixedShare(ProductType))
    ensures r.totalServices == stats.totalServices + SumOf(batches, MixedShare(ServiceType))
    decreases |batches|
  {
    if |batches| == 0 then stats
    else
      var b := batches[0];
      var next := if b.sale.kind != MixedType then stats
                  else stats.(totalProducts := stats.totalProducts + ItemsOfType(b.items, ProductType),
                              totalServices := stats.totalServices + ItemsOfType(b.items, ServiceType));
      ProcessMixedSaleItems(next, batches[1..])
  }

  function BatchSale(b: MixedBatch): StatSale { b.sale }

  /** The share of a sale's total that belongs to mixed sales. */
  function MixedAmount(s: StatSale): real { if s.kind == MixedType then Amount(s) else 0.0 }

  function BatchMixedAmount(b: MixedBatch): real { MixedAmount(b.sale) }

  function MixedItemsBoth(b: MixedBatch): real
  {
    if b.sale.kind == MixedType then ItemsOfType(b.items, ProductType) + ItemsOfType(b.items, ServiceType) else 0.0
  }

  /** A mixed sale whose product and service items add up to its total. */
  predicate ItemsBalance(b: MixedBatch)
  {
    b.sale.kind == MixedType ==> ItemsOfType(b.items, ProductType) + ItemsOfType(b.items, ServiceType) == Amount(b.sale)
  }

  /** Processing every sale's items after the first pass closes the gap:
      when each sale is a product, service or mixed sale and each mixed
      sale's items add up to its total, the two buckets add up to the
      overall total. */
  lemma {:induction false} MixedItemsCloseGap(sales: seq<StatSale>, batches: seq<MixedBatch>)
    requires Map(batches, BatchSale) == sales
    requires forall i :: 0 <= i < |sales| ==> sales[i].kind in {ProductType, ServiceType, MixedType}
    requires forall i :: 0 <= i < |batches| ==> ItemsBalance(batches[i])
    ensures var r := ProcessMixedSaleItems(SalesStats(sales), batches);
            r.totalProducts + r.totalServices == r.totalSales
  {
    Partition3(sales, SaleTypeIs(ProductType), SaleTypeIs(ServiceType), SaleTypeIs(MixedType), Amount);
    MixedSharesSum(sales, batches);
  }

  /** Across all batches, the product and service shares together are the
      total of the mixed sales, when each mixed sale's items balance. */
  lemma {:induction false} MixedSharesSum(sales: seq<StatSale>, batches: seq<MixedBatch>)
    requires Map(batches, BatchSale) == sales
    requires forall i :: 0 <= i < |batches| ==> ItemsBalance(batches[i])
    ensures SumOf(batches, MixedShare(ProductType)) + SumOf(batches, MixedShare(ServiceType)) ==
            SumOf(Filter(sales, SaleTypeIs(MixedType)), Amount)
  {
    SumOfPlus(batches, MixedShare(ProductType), MixedShare(ServiceType), MixedItemsBoth);
    SumOfCongruent(batches, MixedItemsBoth, BatchMixedAmount);
    SumOfMap(batches, BatchSale, MixedAmount, BatchMixedAmount);
    SumOfFilter(sales, SaleTypeIs(MixedType), Amount, MixedAmount);
  }
}
