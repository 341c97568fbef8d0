/** The report engine of the FastAPI back end (backend/app/services/reporting.py):
    five aggregations over the rows the loaders return, and the dispatcher
    that picks one by its tag. Loader results are inputs; dates are calendar
    days, ordered as their ISO strings are. */
module Reporting {
  import opened Wrappers
  import opened Seqs
  import opened Grouping
  import opened Ranking
  import opened ReportData

  /** Length of every "top" list. */
  const TopLimit: nat := 10

  function SaleTotal<D>(s: Sale<D>): real { s.total }
  function SaleDate<D>(s: Sale<D>): D { s.saleDate }
  function ItemTotal(i: SaleItem): real { i.total }
  function AppointmentDate<D>(a: Appointment<D>): D { a.date }
  predicate HasService<D>(a: Appointment<D>) { a.service.Some? }
  predicate IsServiceItem(i: SaleItem) { i.itemType == ServiceItem }
  predicate IsProductItem(i: SaleItem) { i.itemType == ProductItem }
  predicate IsServiceSale<D>(s: Sale<D>) { s.saleType == ServiceSale }
  predicate IsProductSale<D>(s: Sale<D>) { s.saleType == ProductSale }
  predicate IsMixedSale<D>(s: Sale<D>) { s.saleType == MixedSale }

  /** The price of an appointment's service, 0 when it has none. */
  function PriceOrZero<D>(a: Appointment<D>): real
  {
    if a.service.Some? then a.service.value.price else 0.0
  }

  /** Python's `int(x)` on a float: truncation toward zero. */
  function Truncate(x: real): (n: int)
    ensures 0.0 <= x ==> n as real <= x < n as real + 1.0
    ensures x < 0.0 ==> n as real - 1.0 < x <= n as real
  {
    if x >= 0.0 then x.Floor else -((-x).Floor)
  }

  // ---------------------------------------------------------------------
  // Revenue
  // ---------------------------------------------------------------------

  /** The lines of all sales, sale by sale, as the nested loop visits them. */
  function AllItems<D>(sales: seq<Sale<D>>): (items: seq<SaleItem>)
    ensures |items| == 0 <==> forall i :: 0 <= i < |sales| ==> sales[i].items == []
  {
    if |sales| == 0 then [] else sales[0].items + AllItems(sales[1..])
  }

  /** How sales revenue is split between services and products, and how
      many lines of each kind were counted. */
  datatype Attribution = Attribution(servicesRevenue: real, productsRevenue: real, servicesCount: nat, productsCount: nat)

  /** With line data, each line's total goes to the bucket of its kind and
      is counted there. Without it, each sale's total goes to the bucket of
      its kind and a mixed sale's total is split in two halves. */
  function Attribute<D>(sales: seq<Sale<D>>, items: seq<SaleItem>): (r: Attribution)
    ensures |items| > 0 ==>
      r.servicesRevenue == SumOf(items, ServiceLineShare) && r.productsRevenue == SumOf(items, ProductLineShare) &&
      r.servicesCount == Count(items, IsServiceItem) && r.productsCount == Count(items, IsProductItem)
    ensures |items| > 0 ==> r.servicesRevenue + r.productsRevenue == SumOf(items, ItemTotal)
    ensures |items| > 0 ==> r.servicesCount + r.productsCount == |items|
    ensures |items| == 0 ==>
      r.servicesRevenue == SumOf(sales, ServiceSaleShare) && r.productsRevenue == SumOf(sales, ProductSaleShare)
    ensures |items| == 0 ==> r.servicesRevenue + r.productsRevenue == SumOf(sales, SaleTotal)
    ensures |items| == 0 ==> r.servicesCount == 0 && r.productsCount == 0
  {
    if |items| > 0 then
      Partition2(items, IsServiceItem, IsProductItem, ItemTotal);
      LineShares(items);
      Attribution(
        SumOf(Filter(items, IsServiceItem), ItemTotal), SumOf(Filter(items, IsProductItem), ItemTotal),
        |Filter(items, IsServiceItem)|, |Filter(items, IsProductItem)|)
    else
      Partition3(sales, IsServiceSale, IsProductSale, IsMixedSale, SaleTotal);
      SaleShares(sales);
      var mixed := SumOf(Filter(sales, IsMixedSale), SaleTotal);
      Attribution(
        SumOf(Filter(sales, IsServiceSale), SaleTotal) + mixed / 2.0,
        SumOf(Filter(sales, IsProductSale), SaleTotal) + mixed / 2.0,
        0, 0)
  }

  /** What a line adds to the services bucket: its total when it is a
      service line, nothing otherwise. */
  function ServiceLineShare(i: SaleItem): real { if IsServiceItem(i) then i.total else 0.0 }

  /** What a line adds to the products bucket. */
  function ProductLineShare(i: SaleItem): real { if IsProductItem(i) then i.total else 0.0 }

  /** What a sale adds to the services bucket when no sale has lines: all of
      a services sale, half of a mixed one. */
  function ServiceSaleShare<D>(s: Sale<D>): real
  {
    match s.saleType
    case ServiceSale => s.total
    case ProductSale => 0.0
    case MixedSale => s.total / 2.0
  }

  /** What a sale adds to the products bucket when no sale has lines. */
  function ProductSaleShare<D>(s: Sale<D>): real
  {
    match s.saleType
    case ServiceSale => 0.0
    case ProductSale => s.total
    case MixedSale => s.total / 2.0
  }

  lemma {:induction false} LineShares(items: seq<SaleItem>)
    ensures SumOf(Filter(items, IsServiceItem), ItemTotal) == SumOf(items, ServiceLineShare)
    ensures SumOf(Filter(items, IsProductItem), ItemTotal) == SumOf(items, ProductLineShare)
  {
    SumOfFilter(items, IsServiceItem, ItemTotal, ServiceLineShare);
    SumOfFilter(items, IsProductItem, ItemTotal, ProductLineShare);
  }

  function MixedShare<D>(s: Sale<D>): real { if IsMixedSale(s) then s.total else 0.0 }
  function HalfMixedShare<D>(s: Sale<D>): real { if IsMixedSale(s) then s.total / 2.0 else 0.0 }
  function OwnServiceShare<D>(s: Sale<D>): real { if IsServiceSale(s) then s.total else 0.0 }
  function OwnProductShare<D>(s: Sale<D>): real { if IsProductSale(s) then s.total else 0.0 }

  lemma {:induction false} HalfMixedScaled<D>(sales: seq<Sale<D>>)
    ensures SumOf(sales, HalfMixedShare) == 0.5 * SumOf(sales, MixedShare)
  {
    SumOfScale(sales, 0.5, MixedShare, HalfMixedShare);
  }

  lemma {:induction false} HalfMixed<D>(sales: seq<Sale<D>>)
    ensures SumOf(Filter(sales, IsMixedSale), SaleTotal) / 2.0 == SumOf(sales, HalfMixedShare)
  {
    var m := SumOf(sales, MixedShare);
    SumOfFilter(sales, IsMixedSale, SaleTotal, MixedShare);
    HalfMixedScaled(sales);
    assert m / 2.0 == 0.5 * m;
  }

  lemma {:induction false} SaleShares<D>(sales: seq<Sale<D>>)
    ensures SumOf(Filter(sales, IsServiceSale), SaleTotal) + SumOf(Filter(sales, IsMixedSale), SaleTotal) / 2.0
      == SumOf(sales, ServiceSaleShare)
    ensures SumOf(Filter(sales, IsProductSale), SaleTotal) + SumOf(Filter(sales, IsMixedSale), SaleTotal) / 2.0
      == SumOf(sales, ProductSaleShare)
  {
    HalfMixed(sales);
    ServiceSaleShares(sales);
    ProductSaleShares(sales);
  }

  lemma {:induction false} ServiceSaleShares<D>(sales: seq<Sale<D>>)
    ensures SumOf(Filter(sales, IsServiceSale), SaleTotal) + SumOf(sales, HalfMixedShare) == SumOf(sales, ServiceSaleShare)
  {
    SumOfFilter(sales, IsServiceSale, SaleTotal, OwnServiceShare);
    SumOfPlus(sales, OwnServiceShare, HalfMixedShare, ServiceSaleShare);
  }

  lemma {:induction false} ProductSaleShares<D>(sales: seq<Sale<D>>)
    ensures SumOf(Filter(sales, IsProductSale), SaleTotal) + SumOf(sales, HalfMixedShare) == SumOf(sales, ProductSaleShare)
  {
    SumOfFilter(sales, IsProductSale, SaleTotal, OwnProductShare);
    SumOfPlus(sales, OwnProductShare, HalfMixedShare, ProductSaleShare);
  }

  /** Without line data, one more sale moves the buckets by its total: all
      of it to its own kind, or half to each when it is mixed. */
  lemma {:induction false} AttributeOneMoreSale<D>(sales: seq<Sale<D>>, s: Sale<D>)
    ensures var before := Attribute(sales, []);
            var after := Attribute(sales + [s], []);
            after.servicesRevenue == before.servicesRevenue + (match s.saleType
              case ServiceSale => s.total case ProductSale => 0.0 case MixedSale => s.total / 2.0) &&
            after.productsRevenue == before.productsRevenue + (match s.saleType
              case ProductSale => s.total case ServiceSale => 0.0 case MixedSale => s.total / 2.0)
  {
    FilterAppend(sales, [s], IsServiceSale);
    FilterAppend(sales, [s], IsProductSale);
    FilterAppend(sales, [s], IsMixedSale);
    SumOfAppend(Filter(sales, IsServiceSale), Filter([s], IsServiceSale), SaleTotal);
    SumOfAppend(Filter(sales, IsProductSale), Filter([s], IsProductSale), SaleTotal);
    SumOfAppend(Filter(sales, IsMixedSale), Filter([s], IsMixedSale), SaleTotal);
  }

  /** A sale contributes its total on its day. */
  function SaleDayEvent<D>(s: Sale<D>): Event<D> { Event(s.saleDate, "", 0.0, s.total) }

  /** An appointment contributes its service price on its date. */
  function VisitDayEvent<D>(a: Appointment<D>): Event<D> { Event(a.date, "", 0.0, PriceOrZero(a)) }

  /** Contributions to the sales chart: every sale, then every appointment
      that has a service. */
  function ChartEvents(sales: seq<Sale<int>>, appts: seq<Appointment<int>>): seq<Event<int>>
  {
    Map(sales, SaleDayEvent) + Map(Filter(appts, HasService), VisitDayEvent)
  }

  /** Sorting by this score in descending order puts days in ascending order. */
  function DayScore(g: Group<int>): real { -(g.key as real) }

  function DayValue(g: Group<int>): DateValue<int> { DateValue(g.key, g.amount) }

  /** The revenue report (backend/app/services/reporting.py, `_revenue_report`)
      over the sales of the period in date order and its completed
      appointments. */
  function ComputeRevenue(sales: seq<Sale<int>>, appts: seq<Appointment<int>>): (r: RevenueReport<int>)
    ensures r.appointmentsCount == |appts|
    ensures r.salesCount == |sales|
    ensures r.appointmentsRevenue == SumOf(Filter(appts, HasService), PriceOrZero)
    ensures r.totalRevenue == SumOf(sales, SaleTotal) + r.appointmentsRevenue
    ensures |sales| == 0 ==>
      r.servicesRevenue == 0.0 && r.productsRevenue == 0.0 &&
      r.servicesSalesCount == 0 && r.productsSalesCount == 0 &&
      |r.salesChart| == |appts| &&
      forall i :: 0 <= i < |appts| ==> r.salesChart[i] == DateValue(appts[i].date, PriceOrZero(appts[i]))
    ensures |sales| > 0 && |AllItems(sales)| > 0 ==>
      r.servicesRevenue + r.productsRevenue == SumOf(AllItems(sales), ItemTotal) &&
      r.servicesSalesCount + r.productsSalesCount == |AllItems(sales)|
    ensures |sales| > 0 && |AllItems(sales)| > 0 ==>
      r.servicesRevenue == SumOf(AllItems(sales), ServiceLineShare) &&
      r.productsRevenue == SumOf(AllItems(sales), ProductLineShare) &&
      r.servicesSalesCount == Count(AllItems(sales), IsServiceItem) &&
      r.productsSalesCount == Count(AllItems(sales), IsProductItem)
    ensures |sales| > 0 && |AllItems(sales)| == 0 ==>
      r.servicesRevenue == SumOf(sales, ServiceSaleShare) && r.productsRevenue == SumOf(sales, ProductSaleShare)
    ensures |sales| > 0 && |AllItems(sales)| == 0 ==>
      r.servicesRevenue + r.productsRevenue == SumOf(sales, SaleTotal) &&
      r.servicesSalesCount == 0 && r.productsSalesCount == 0
  {
    var appointmentsRevenue := SumOf(appts, PriceOrZero);
    AppointmentsRevenueOfServiced(appts);
    if |sales| == 0 then
      RevenueReport(appointmentsRevenue, 0.0, 0.0, appointmentsRevenue, 0, 0, 0, |appts|,
        Map(appts, (a: Appointment<int>) => DateValue(a.date, PriceOrZero(a))))
    else
      var split := Attribute(sales, AllItems(sales));
      var chart := Map(SortDesc(GroupBy(ChartEvents(sales, appts)), DayScore), DayValue);
      RevenueReport(SumOf(sales, SaleTotal) + appointmentsRevenue,
        split.servicesRevenue, split.productsRevenue, appointmentsRevenue,
        |sales|, split.servicesCount, split.productsCount, |appts|, chart)
  }

  /** Summing `price or 0` over all appointments equals summing the price
      over the appointments that have a service. */
  lemma {:induction false} AppointmentsRevenueOfServiced<D>(appts: seq<Appointment<D>>)
    ensures SumOf(appts, PriceOrZero) == SumOf(Filter(appts, HasService), PriceOrZero)
  {
    SumOfFilter(appts, HasService, PriceOrZero, PriceOrZero);
  }

  function SaleOn(d: int): Sale<int> -> bool { (s: Sale<int>) => s.saleDate == d }
  function VisitOn(d: int): Appointment<int> -> bool { (a: Appointment<int>) => a.date == d }

  /** What the chart should show for day `d`: the totals of that day's sales
      plus the service prices of that day's appointments. */
  function DayRevenue(sales: seq<Sale<int>>, appts: seq<Appointment<int>>, d: int): real
  {
    SumOf(Filter(sales, SaleOn(d)), SaleTotal) + SumOf(Filter(Filter(appts, HasService), VisitOn(d)), PriceOrZero)
  }

  function ChartDate(p: DateValue<int>): int { p.date }
  function ChartValue(p: DateValue<int>): real { p.value }

  /** The chart of a report with sales, built step by step. */
  function ChartGroups(sales: seq<Sale<int>>, appts: seq<Appointment<int>>): seq<Group<int>>
  {
    SortDesc(GroupBy(ChartEvents(sales, appts)), DayScore)
  }

  lemma {:induction false} ChartIsGroups(sales: seq<Sale<int>>, appts: seq<Appointment<int>>)
    requires |sales| > 0
    ensures ComputeRevenue(sales, appts).salesChart == Map(ChartGroups(sales, appts), DayValue)
  {
  }

  /** A revenue chart laid out as the report promises: days strictly
      ascending, exactly the days with a sale or a serviced appointment,
      each point carrying that day's revenue. */
  ghost predicate ChartMatchesDays(chart: seq<DateValue<int>>, sales: seq<Sale<int>>, appts: seq<Appointment<int>>)
  {
    (forall i, j :: 0 <= i < j < |chart| ==> chart[i].date < chart[j].date) &&
    (forall d :: d in Map(chart, ChartDate) <==>
      d in Map(sales, SaleDate) || d in Map(Filter(appts, HasService), AppointmentDate)) &&
    (forall i :: 0 <= i < |chart| ==> chart[i].value == DayRevenue(sales, appts, chart[i].date))
  }

  /** When there are sales, the chart has one point per day on which a sale
      or a serviced appointment happened, days strictly ascending, each
      point carrying that day's revenue, and the points add up to the total
      revenue. */
  lemma {:induction false} RevenueChart(sales: seq<Sale<int>>, appts: seq<Appointment<int>>)
    requires |sales| > 0
    ensures ChartMatchesDays(ComputeRevenue(sales, appts).salesChart, sales, appts)
    ensures SumOf(ComputeRevenue(sales, appts).salesChart, ChartValue) == ComputeRevenue(sales, appts).totalRevenue
  {
    ChartIsGroups(sales, appts);
    ChartGroupsMatchDays(sales, appts);
    ChartSum(sales, appts);
  }

  /** The chart built from the day groups is laid out as promised. */
  lemma {:induction false} ChartGroupsMatchDays(sales: seq<Sale<int>>, appts: seq<Appointment<int>>)
    ensures ChartMatchesDays(Map(ChartGroups(sales, appts), DayValue), sales, appts)
  {
    ChartAscending(sales, appts);
    ChartDays(sales, appts);
    ChartValues(sales, appts);
  }

  lemma {:induction false} ChartAscending(sales: seq<Sale<int>>, appts: seq<Appointment<int>>)
    ensures var sorted := ChartGroups(sales, appts);
      forall i, j :: 0 <= i < j < |sorted| ==> sorted[i].key < sorted[j].key
  {
    var groups := GroupBy(ChartEvents(sales, appts));
    GroupByDistinct(ChartEvents(sales, appts));
    DistinctByPerm(groups, ChartGroups(sales, appts), GroupKey);
    AscendingDays(ChartGroups(sales, appts));
  }

  lemma {:induction false} ChartDays(sales: seq<Sale<int>>, appts: seq<Appointment<int>>)
    ensures forall d :: d in Map(Map(ChartGroups(sales, appts), DayValue), ChartDate) <==>
      d in Map(sales, SaleDate) || d in Map(Filter(appts, HasService), AppointmentDate)
  {
    var events := ChartEvents(sales, appts);
    var groups := GroupBy(events);
    var sorted := ChartGroups(sales, appts);
    assert Map(Map(sorted, DayValue), ChartDate) == KeysOf(sorted);
    assert forall d :: d in KeysOf(sorted) <==> d in EventKeys(events) by {
      PermKeys(sorted, groups);
      GroupByDistinct(events);
    }
    forall d ensures d in EventKeys(events) <==> d in Map(sales, SaleDate) || d in Map(Filter(appts, HasService), AppointmentDate) {
      ChartDaysAre(sales, Filter(appts, HasService), d);
    }
  }


  lemma {:induction false} ChartValues(sales: seq<Sale<int>>, appts: seq<Appointment<int>>)
    ensures var sorted := ChartGroups(sales, appts);
      forall i :: 0 <= i < |sorted| ==> sorted[i].amount == DayRevenue(sales, appts, sorted[i].key)
  {
    var events := ChartEvents(sales, appts);
    var groups := GroupBy(events);
    var sorted := ChartGroups(sales, appts);
    GroupByContents(events);
    forall i | 0 <= i < |sorted| ensures sorted[i].amount == DayRevenue(sales, appts, sorted[i].key) {
      assert sorted[i] in multiset(groups);
      var j := IndexOf(groups, sorted[i]);
      DayAmount(sales, appts, sorted[i].key);
    }
  }

  lemma {:induction false} ChartSum(sales: seq<Sale<int>>, appts: seq<Appointment<int>>)
    ensures SumOf(Map(ChartGroups(sales, appts), DayValue), ChartValue) ==
      SumOf(sales, SaleTotal) + SumOf(Filter(appts, HasService), PriceOrZero)
  {
    var events := ChartEvents(sales, appts);
    var serviced := Filter(appts, HasService);
    GroupByTotals(events);
    SumOfMap(ChartGroups(sales, appts), DayValue, ChartValue, GroupAmount);
    SumOfPerm(GroupBy(events), ChartGroups(sales, appts), GroupAmount);
    SumOfAppend(Map(sales, SaleDayEvent), Map(serviced, VisitDayEvent), EventAmount);
    SumOfMap(sales, SaleDayEvent, EventAmount, SaleTotal);
    SumOfMap(serviced, VisitDayEvent, EventAmount, PriceOrZero);
  }

  /** A day-ascending sort of groups with distinct days is strictly ascending. */
  lemma {:induction false} AscendingDays(sorted: seq<Group<int>>)
    requires NonIncreasing(sorted, DayScore)
    requires DistinctBy(sorted, GroupKey)
    ensures forall i, j :: 0 <= i < j < |sorted| ==> sorted[i].key < sorted[j].key
  {
    forall i, j | 0 <= i < j < |sorted| ensures sorted[i].key < sorted[j].key {
      assert DayScore(sorted[i]) >= DayScore(sorted[j]);
      assert GroupKey(sorted[i]) != GroupKey(sorted[j]);
    }
  }

  /** The chart events of a day are exactly the sales of that day and the
      serviced appointments of that day. */
  lemma {:induction false} ChartDaysAre(sales: seq<Sale<int>>, serviced: seq<Appointment<int>>, d: int)
    ensures d in EventKeys(Map(sales, SaleDayEvent) + Map(serviced, VisitDayEvent)) <==>
      d in Map(sales, SaleDate) || d in Map(serviced, AppointmentDate)
  {
    assert EventKeys(Map(sales, SaleDayEvent)) == Map(sales, SaleDate);
    assert EventKeys(Map(serviced, VisitDayEvent)) == Map(serviced, AppointmentDate);
    EventKeysAppend(Map(sales, SaleDayEvent), Map(serviced, VisitDayEvent));
  }


  /** The amount grouped under day `d` is that day's revenue. */
  lemma {:induction false} DayAmount(sales: seq<Sale<int>>, appts: seq<Appointment<int>>, d: int)
    ensures AmountAt(ChartEvents(sales, appts), d) == DayRevenue(sales, appts, d)
  {
    var serviced := Filter(appts, HasService);
    var se := Map(sales, SaleDayEvent);
    var ve := Map(serviced, VisitDayEvent);
    MatchingAppend(se, ve, d);
    MappedEventsAt(sales, SaleDayEvent, d, SaleOn(d), SaleTotal);
    MappedEventsAt(serviced, VisitDayEvent, d, VisitOn(d), PriceOrZero);
  }

  // ---------------------------------------------------------------------
  // Rankings (services, products)
  // ---------------------------------------------------------------------

  /** Payload of the services and products reports: the top entries by
      revenue, their summed revenue, their summed quantity (`totalItems`),
      and that quantity truncated to an integer (reported as
      `servicesSalesCount` / `productsSalesCount`). */
  datatype RankedReport = RankedReport(top: seq<RankedItem>, totalRevenue: real, totalItems: real, salesCount: int)

  /** A sale line with both its service key and its joined service. */
  predicate HasResolvedService(i: SaleItem) { i.serviceId.Some? && i.service.Some? }
  predicate HasResolvedProduct(i: SaleItem) { i.productId.Some? && i.product.Some? }
  predicate VisitHasResolvedService<D>(a: Appointment<D>) { a.serviceId.Some? && a.service.Some? }

  /** What a sale line is worth in a ranking: its unit price times its quantity. */
  function LineValue(i: SaleItem): real { i.price * i.quantity }
  function LineQuantity(i: SaleItem): real { i.quantity }

  /** Each sale line with a resolved service contributes its quantity and
      its value to that service; other lines are skipped. */
  function ServiceLineEvents(items: seq<SaleItem>): (es: seq<Event<nat>>)
    ensures |es| == |Filter(items, HasResolvedService)|
    ensures SumOf(es, EventAmount) == SumOf(Filter(items, HasResolvedService), LineValue)
    ensures SumOf(es, EventQuantity) == SumOf(Filter(items, HasResolvedService), LineQuantity)
  {
    if |items| == 0 then []
    else
      var i := items[0];
      var rest := ServiceLineEvents(items[1..]);
      var head := if HasResolvedService(i) then [Event(i.serviceId.value, i.service.value.name, i.quantity, LineValue(i))] else [];
      var kept := if HasResolvedService(i) then [i] else [];
      assert Filter(items, HasResolvedService) == kept + Filter(items[1..], HasResolvedService);
      SumOfAppend(head, rest, EventAmount);
      SumOfAppend(head, rest, EventQuantity);
      SumOfAppend(kept, Filter(items[1..], HasResolvedService), LineValue);
      SumOfAppend(kept, Filter(items[1..], HasResolvedService), LineQuantity);
      head + rest
  }

  /** Each appointment with a resolved service contributes one unit and the
      service's price. */
  function ServiceVisitEvents<D>(appts: seq<Appointment<D>>): (es: seq<Event<nat>>)
    ensures |es| == |Filter(appts, VisitHasResolvedService)|
    ensures SumOf(es, EventAmount) == SumOf(Filter(appts, VisitHasResolvedService), PriceOrZero)
  {
    if |appts| == 0 then []
    else
      var a := appts[0];
      var rest := ServiceVisitEvents(appts[1..]);
      var head := if VisitHasResolvedService(a) then [Event(a.serviceId.value, a.service.value.name, 1.0, a.service.value.price)] else [];
      var kept := if VisitHasResolvedService(a) then [a] else [];
      assert Filter(appts, VisitHasResolvedService) == kept + Filter(appts[1..], VisitHasResolvedService);
      SumOfAppend(head, rest, EventAmount);
      SumOfAppend(kept, Filter(appts[1..], VisitHasResolvedService), PriceOrZero);
      head + rest
  }

  /** Each sale line with a resolved product contributes its quantity and
      its value to that product. */
  function ProductLineEvents(items: seq<SaleItem>): (es: seq<Event<nat>>)
    ensures |es| == |Filter(items, HasResolvedProduct)|
    ensures SumOf(es, EventAmount) == SumOf(Filter(items, HasResolvedProduct), LineValue)
    ensures SumOf(es, EventQuantity) == SumOf(Filter(items, HasResolvedProduct), LineQuantity)
  {
    if |items| == 0 then []
    else
      var i := items[0];
      var rest := ProductLineEvents(items[1..]);
      var head := if HasResolvedProduct(i) then [Event(i.productId.value, i.product.value.name, i.quantity, LineValue(i))] else [];
      var kept := if HasResolvedProduct(i) then [i] else [];
      assert Filter(items, HasResolvedProduct) == kept + Filter(items[1..], HasResolvedProduct);
      SumOfAppend(head, rest, EventAmount);
      SumOfAppend(head, rest, EventQuantity);
      SumOfAppend(kept, Filter(items[1..], HasResolvedProduct), LineValue);
      SumOfAppend(kept, Filter(items[1..], HasResolvedProduct), LineQuantity);
      head + rest
  }

  /** The ten groups with the highest amount, best first, as both rankings
      and the clients report keep them. */
  function TopGroups(events: seq<Event<nat>>): seq<Group<nat>>
  {
    Top(GroupBy(events), GroupAmount, TopLimit)
  }

  function RankedOf(g: Group<nat>): RankedItem { RankedItem(g.key, g.name, g.quantity, g.amount) }
  function RankedRevenue(r: RankedItem): real { r.revenue }
  function RankedQuantity(r: RankedItem): real { r.quantity }

  /** Groups the contributions per id, keeps the ten best by revenue, and
      totals revenue and quantity over those ten. */
  function Rank(events: seq<Event<nat>>): RankedReport
  {
    var rows := Map(TopGroups(events), RankedOf);
    var quantity := SumOf(rows, RankedQuantity);
    RankedReport(rows, SumOf(rows, RankedRevenue), quantity, Truncate(quantity))
  }

  /** The top groups are at most ten, have distinct ids and non-increasing
      amounts. */
  lemma {:induction false} TopGroupsOrdered(events: seq<Event<nat>>)
    ensures var top := TopGroups(events);
      |top| <= TopLimit &&
      (forall i, j :: 0 <= i < j < |top| ==> top[i].amount >= top[j].amount) &&
      (forall i, j :: 0 <= i < j < |top| ==> top[i].key != top[j].key)
  {
    var groups := GroupBy(events);
    var top := TopGroups(events);
    TopCut(groups, GroupAmount, TopLimit);
    GroupByDistinct(events);
    TopIsDistinct(groups, TopLimit);
    forall i, j | 0 <= i < j < |top| ensures top[i].amount >= top[j].amount && top[i].key != top[j].key {
      assert GroupAmount(top[i]) >= GroupAmount(top[j]);
      assert GroupKey(top[i]) != GroupKey(top[j]);
    }
  }

  /** Each top group holds the name of its id's first contribution and the
      count and sums of its id's contributions. */
  lemma {:induction false} TopGroupsContents(events: seq<Event<nat>>)
    ensures var top := TopGroups(events);
      forall i :: 0 <= i < |top| ==>
        top[i].key in EventKeys(events) &&
        top[i].hits == HitsAt(events, top[i].key) &&
        top[i].amount == AmountAt(events, top[i].key) &&
        top[i].quantity == QuantityAt(events, top[i].key) &&
        top[i].name == FirstName(events, top[i].key)
  {
    var groups := GroupBy(events);
    var top := TopGroups(events);
    TopCut(groups, GroupAmount, TopLimit);
    GroupByDistinct(events);
    forall i | 0 <= i < |top|
      ensures top[i].key in EventKeys(events)
      ensures top[i].hits == HitsAt(events, top[i].key)
      ensures top[i].amount == AmountAt(events, top[i].key)
      ensures top[i].quantity == QuantityAt(events, top[i].key)
      ensures top[i].name == FirstName(events, top[i].key)
    {
      assert top[i] in multiset(groups);
      var j := IndexOf(groups, top[i]);
      assert KeysOf(groups)[j] == top[i].key;
      GroupAt(events, j);
    }
  }

  /** An id left out of the top groups has no larger amount than any id in it. */
  lemma {:induction false} TopGroupsDominate(events: seq<Event<nat>>)
    ensures var top := TopGroups(events);
      forall k, i :: k in EventKeys(events) && k !in KeysOf(top) && 0 <= i < |top| ==>
        top[i].amount >= AmountAt(events, k)
  {
    var groups := GroupBy(events);
    var top := TopGroups(events);
    GroupByDistinct(events);
    forall k, i | k in EventKeys(events) && k !in KeysOf(top) && 0 <= i < |top|
      ensures top[i].amount >= AmountAt(events, k)
    {
      assert k in KeysOf(groups);
      var j :| 0 <= j < |groups| && KeysOf(groups)[j] == k;
      LeftOutGroup(events, j, i);
    }
  }

  lemma {:induction false} LeftOutGroup(events: seq<Event<nat>>, j: nat, i: nat)
    requires j < |GroupBy(events)|
    requires i < |TopGroups(events)|
    requires GroupBy(events)[j].key !in KeysOf(TopGroups(events))
    ensures TopGroups(events)[i].amount >= AmountAt(events, GroupBy(events)[j].key)
  {
    var groups := GroupBy(events);
    var top := TopGroups(events);
    var g := groups[j];
    GroupAt(events, j);
    assert g in groups;
    assert top[i] in top;
    TopDominatesAt(groups, GroupAmount, TopLimit, g, top[i]);
  }

  /** The top list of groups with distinct keys has distinct keys. */
  lemma {:induction false} TopIsDistinct(groups: seq<Group<nat>>, n: nat)
    requires DistinctBy(groups, GroupKey)
    ensures DistinctBy(Top(groups, GroupAmount, n), GroupKey)
  {
    var sorted := SortDesc(groups, GroupAmount);
    DistinctByPerm(groups, sorted, GroupKey);
    var top := Top(groups, GroupAmount, n);
    forall i, j | 0 <= i < j < |top| ensures top[i].key != top[j].key {
      assert top[i] == sorted[i] && top[j] == sorted[j];
    }
  }

  /** The ranking lists at most ten ids, each once, by non-increasing
      revenue; `totalItems` is the listed quantity and `salesCount` its
      truncation. */
  lemma {:induction false} RankOrdered(events: seq<Event<nat>>)
    ensures var r := Rank(events);
      |r.top| <= TopLimit &&
      (forall i, j :: 0 <= i < j < |r.top| ==> r.top[i].revenue >= r.top[j].revenue && r.top[i].id != r.top[j].id) &&
      r.totalItems == SumOf(r.top, RankedQuantity) && r.salesCount == Truncate(r.totalItems)
  {
    var top := TopGroups(events);
    var rows := Map(top, RankedOf);
    TopGroupsOrdered(events);
    forall i, j | 0 <= i < j < |rows| ensures rows[i].revenue >= rows[j].revenue && rows[i].id != rows[j].id {
      assert rows[i] == RankedOf(top[i]) && rows[j] == RankedOf(top[j]);
    }
  }

  /** Each row carries the name of its id's first contribution and the sums
      of its id's contributions. */
  lemma {:induction false} RankRows(events: seq<Event<nat>>)
    ensures var r := Rank(events);
      forall i :: 0 <= i < |r.top| ==>
        r.top[i].revenue == AmountAt(events, r.top[i].id) &&
        r.top[i].quantity == QuantityAt(events, r.top[i].id) &&
        r.top[i].name == FirstName(events, r.top[i].id)
  {
    var top := TopGroups(events);
    var rows := Map(top, RankedOf);
    TopGroupsContents(events);
    forall i | 0 <= i < |rows|
      ensures rows[i].revenue == AmountAt(events, rows[i].id)
      ensures rows[i].quantity == QuantityAt(events, rows[i].id)
      ensures rows[i].name == FirstName(events, rows[i].id)
    {
      assert rows[i] == RankedOf(top[i]);
    }
  }

  /** An id left out of the ranking earned no more than any listed one. */
  lemma {:induction false} RankDominates(events: seq<Event<nat>>)
    ensures var r := Rank(events);
      forall k, i :: k in EventKeys(events) && (forall j :: 0 <= j < |r.top| ==> r.top[j].id != k) && 0 <= i < |r.top| ==>
        r.top[i].revenue >= AmountAt(events, k)
  {
    var top := TopGroups(events);
    var rows := Map(top, RankedOf);
    TopGroupsDominate(events);
    forall k, i | k in EventKeys(events) && (forall j :: 0 <= j < |rows| ==> rows[j].id != k) && 0 <= i < |rows|
      ensures rows[i].revenue >= AmountAt(events, k)
    {
      assert rows[i] == RankedOf(top[i]);
      assert forall j :: 0 <= j < |top| ==> KeysOf(top)[j] == rows[j].id;
    }
  }

  /** With at most ten distinct ids the ranking keeps every id, and its
      revenue total is the revenue of all contributions. */
  lemma {:induction false} RankComplete(events: seq<Event<nat>>)
    requires |FirstAppearances(EventKeys(events))| <= TopLimit
    ensures |Rank(events).top| == |FirstAppearances(EventKeys(events))|
    ensures Rank(events).totalRevenue == SumOf(events, EventAmount)
  {
    var groups := GroupBy(events);
    var top := TopGroups(events);
    GroupByKeys(events);
    GroupByTotals(events);
    TopCut(groups, GroupAmount, TopLimit);
    SumOfPerm(groups, top, GroupAmount);
    SumOfMap(top, RankedOf, RankedRevenue, GroupAmount);
  }

  /** The services report (`_services_report`) over the service lines of the
      period's sales and its completed appointments. */
  function ComputeServices<D>(items: seq<SaleItem>, appts: seq<Appointment<D>>): RankedReport
  {
    Rank(ServiceLineEvents(items) + ServiceVisitEvents(appts))
  }

  /** The products report (`_products_report`) over the product lines of the
      period's sales. */
  function ComputeProducts(items: seq<SaleItem>): RankedReport
  {
    Rank(ProductLineEvents(items))
  }

  /** What the services ranking adds up when no service is cut off: the value
      of every resolved service line plus the price of every completed
      appointment with a resolved service. */
  lemma {:induction false} ServicesTotal<D>(items: seq<SaleItem>, appts: seq<Appointment<D>>)
    requires |FirstAppearances(EventKeys(ServiceLineEvents(items) + ServiceVisitEvents(appts)))| <= TopLimit
    ensures ComputeServices(items, appts).totalRevenue ==
      SumOf(Filter(items, HasResolvedService), LineValue) + SumOf(Filter(appts, VisitHasResolvedService), PriceOrZero)
  {
    RankComplete(ServiceLineEvents(items) + ServiceVisitEvents(appts));
    SumOfAppend(ServiceLineEvents(items), ServiceVisitEvents(appts), EventAmount);
  }

  /** The same for the products ranking. */
  lemma {:induction false} ProductsTotal(items: seq<SaleItem>)
    requires |FirstAppearances(EventKeys(ProductLineEvents(items)))| <= TopLimit
    ensures ComputeProducts(items).totalRevenue == SumOf(Filter(items, HasResolvedProduct), LineValue)
  {
    RankComplete(ProductLineEvents(items));
  }

  // ---------------------------------------------------------------------
  // Clients
  // ---------------------------------------------------------------------

  predicate SaleHasClient<D>(s: Sale<D>) { s.clientId.Some? && s.client.Some? }
  predicate VisitHasClient<D>(a: Appointment<D>) { a.petClient.Some? }

  /** What an appointment brings in, both to its client's spending and to
      the appointments report: the service price when it was completed and
      has a service, otherwise nothing. */
  function VisitSpend<D>(a: Appointment<D>): real
  {
    if a.status == Completed && a.service.Some? then a.service.value.price else 0.0
  }

  /** A sale with a resolved client is a visit of that client worth the
      sale's total. (The fallbacks are never used: only sales with a client
      are turned into visits.) */
  function SaleVisit<D>(s: Sale<D>): Event<nat>
  {
    Event(SaleClientId(s), if s.client.Some? then s.client.value.name else "", 0.0, s.total)
  }

  /** An appointment whose pet has a client is a visit of that client. */
  function AppointmentVisit<D>(a: Appointment<D>): Event<nat>
  {
    Event(VisitClientId(a), if a.petClient.Some? then a.petClient.value.name else "", 0.0, VisitSpend(a))
  }

  function SaleClientId<D>(s: Sale<D>): nat { s.clientId.GetOr(0) }
  function VisitClientId<D>(a: Appointment<D>): nat { if a.petClient.Some? then a.petClient.value.id else 0 }

  /** Sales without a client are skipped. */
  function ClientSaleEvents<D>(sales: seq<Sale<D>>): (es: seq<Event<nat>>)
    ensures |es| == |Filter(sales, SaleHasClient)|
    ensures SumOf(es, EventAmount) == SumOf(Filter(sales, SaleHasClient), SaleTotal)
  {
    SumOfMap(Filter(sales, SaleHasClient), SaleVisit, EventAmount, SaleTotal);
    Map(Filter(sales, SaleHasClient), SaleVisit)
  }

  /** Appointments whose pet has no client are skipped. */
  function ClientVisitEvents<D>(appts: seq<Appointment<D>>): (es: seq<Event<nat>>)
    ensures |es| == |Filter(appts, VisitHasClient)|
    ensures SumOf(es, EventAmount) == SumOf(Filter(appts, VisitHasClient), VisitSpend)
  {
    SumOfMap(Filter(appts, VisitHasClient), AppointmentVisit, EventAmount, VisitSpend);
    Map(Filter(appts, VisitHasClient), AppointmentVisit)
  }

  function ClientEvents<D>(sales: seq<Sale<D>>, appts: seq<Appointment<D>>): seq<Event<nat>>
  {
    ClientSaleEvents(sales) + ClientVisitEvents(appts)
  }

  function ClientRankOf(g: Group<nat>): ClientRank { ClientRank(g.key, g.name, g.hits, g.amount) }

  /** The clients report (`_clients_report`) over the period's sales that
      have a client and all of the period's appointments. */
  function ComputeClients<D>(sales: seq<Sale<D>>, appts: seq<Appointment<D>>): ClientsReport
  {
    var groups := GroupBy(ClientEvents(sales, appts));
    ClientsReport(Map(TopGroups(ClientEvents(sales, appts)), ClientRankOf),
      |groups|, SumNat(groups, GroupHits), SumOf(groups, GroupAmount))
  }

  /** The client id of every sale and appointment that has a client, in
      order, repeats included. */
  function ClientIdList<D>(sales: seq<Sale<D>>, appts: seq<Appointment<D>>): seq<nat>
  {
    Map(Filter(sales, SaleHasClient), SaleClientId) + Map(Filter(appts, VisitHasClient), VisitClientId)
  }

  /** The totals cover every client, not only the listed ten: one client per
      distinct id, one visit per sale or appointment with a client, and all
      the money those sales and completed appointments brought. */
  lemma {:induction false} ClientsTotals<D>(sales: seq<Sale<D>>, appts: seq<Appointment<D>>)
    ensures var r := ComputeClients(sales, appts);
      r.totalClients == |Elements(ClientIdList(sales, appts))| &&
      r.totalVisits == |Filter(sales, SaleHasClient)| + |Filter(appts, VisitHasClient)| &&
      r.totalRevenue == SumOf(Filter(sales, SaleHasClient), SaleTotal) + SumOf(Filter(appts, VisitHasClient), VisitSpend)
  {
    var events := ClientEvents(sales, appts);
    GroupByTotals(events);
    SumOfAppend(ClientSaleEvents(sales), ClientVisitEvents(appts), EventAmount);
    ClientsCount(sales, appts);
  }

  lemma {:induction false} ClientsCount<D>(sales: seq<Sale<D>>, appts: seq<Appointment<D>>)
    ensures |GroupBy(ClientEvents(sales, appts))| == |Elements(ClientIdList(sales, appts))|
  {
    ClientEventKeys(sales, appts);
    GroupCountOf(ClientEvents(sales, appts), ClientIdList(sales, appts));
  }

  lemma {:induction false} ClientEventKeys<D>(sales: seq<Sale<D>>, appts: seq<Appointment<D>>)
    ensures EventKeys(ClientEvents(sales, appts)) == ClientIdList(sales, appts)
  {
    var a := ClientSaleEvents(sales);
    var b := ClientVisitEvents(appts);
    assert EventKeys(a) == Map(Filter(sales, SaleHasClient), SaleClientId) by {
      SaleClientKeys(sales);
    }
    assert EventKeys(b) == Map(Filter(appts, VisitHasClient), VisitClientId) by {
      VisitClientKeys(appts);
    }
    EventKeysAppend(a, b);
  }

  lemma {:induction false} SaleClientKeys<D>(sales: seq<Sale<D>>)
    ensures EventKeys(ClientSaleEvents(sales)) == Map(Filter(sales, SaleHasClient), SaleClientId)
  {
  }

  lemma {:induction false} VisitClientKeys<D>(appts: seq<Appointment<D>>)
    ensures EventKeys(ClientVisitEvents(appts)) == Map(Filter(appts, VisitHasClient), VisitClientId)
  {
  }

  /** The listed clients: at most ten, each once, by non-increasing spending. */
  lemma {:induction false} ClientsRanked<D>(sales: seq<Sale<D>>, appts: seq<Appointment<D>>)
    ensures var top := ComputeClients(sales, appts).topClients;
      |top| <= TopLimit &&
      (forall i, j :: 0 <= i < j < |top| ==> top[i].spent >= top[j].spent && top[i].id != top[j].id)
  {
    var events := ClientEvents(sales, appts);
    var groups := TopGroups(events);
    var top := Map(groups, ClientRankOf);
    TopGroupsOrdered(events);
    forall i, j | 0 <= i < j < |top| ensures top[i].spent >= top[j].spent && top[i].id != top[j].id {
      assert top[i] == ClientRankOf(groups[i]) && top[j] == ClientRankOf(groups[j]);
    }
  }

  /** Each listed client carries its own number of visits and spending. */
  lemma {:induction false} ClientsRows<D>(sales: seq<Sale<D>>, appts: seq<Appointment<D>>)
    ensures var events := ClientEvents(sales, appts);
      var top := ComputeClients(sales, appts).topClients;
      forall i :: 0 <= i < |top| ==>
        top[i].visits == HitsAt(events, top[i].id) && top[i].spent == AmountAt(events, top[i].id)
  {
    var events := ClientEvents(sales, appts);
    var groups := TopGroups(events);
    var top := Map(groups, ClientRankOf);
    TopGroupsContents(events);
    forall i | 0 <= i < |top| ensures top[i].visits == HitsAt(events, top[i].id) && top[i].spent == AmountAt(events, top[i].id) {
      assert top[i] == ClientRankOf(groups[i]);
    }
  }

  /** A client left out of the list spent no more than any listed client. */
  lemma {:induction false} ClientsDominate<D>(sales: seq<Sale<D>>, appts: seq<Appointment<D>>)
    ensures var events := ClientEvents(sales, appts);
      var top := ComputeClients(sales, appts).topClients;
      forall k, i :: k in EventKeys(events) && (forall j :: 0 <= j < |top| ==> top[j].id != k) && 0 <= i < |top| ==>
        top[i].spent >= AmountAt(events, k)
  {
    var events := ClientEvents(sales, appts);
    var groups := TopGroups(events);
    var top := Map(groups, ClientRankOf);
    TopGroupsDominate(events);
    forall k, i | k in EventKeys(events) && (forall j :: 0 <= j < |top| ==> top[j].id != k) && 0 <= i < |top|
      ensures top[i].spent >= AmountAt(events, k)
    {
      assert k !in KeysOf(groups) by {
        forall j | 0 <= j < |groups| ensures KeysOf(groups)[j] != k {
          assert KeysOf(groups)[j] == top[j].id;
        }
      }
      assert top[i].spent == groups[i].amount;
    }
  }

  // ---------------------------------------------------------------------
  // Appointments
  // ---------------------------------------------------------------------

  /** The stored value of a status (`AppointmentStatus.value`). */
  function StatusKey(s: AppointmentStatus): string
  {
    match s
    case Pending => "pending"
    case Confirmed => "confirmed"
    case Cancelled => "cancelled"
    case Completed => "completed"
  }

  /** The display label of a status value; an unknown value is shown as is. */
  function StatusLabel(key: string): string
  {
    if key == "pending" then "Pendente"
    else if key == "confirmed" then "Confirmado"
    else if key == "completed" then "Concluido"
    else if key == "cancelled" then "Cancelado"
    else if key == "no_show" then "Nao Compareceu"
    else key
  }

  /** The labels a status of the model can receive. */
  ghost predicate IsStatusLabel(name: string)
  {
    name == "Pendente" || name == "Confirmado" || name == "Concluido" || name == "Cancelado"
  }

  predicate CompletedWithService<D>(a: Appointment<D>) { a.status == Completed && a.service.Some? }
  function VisitTally<D>(a: Appointment<D>): Event<D> { Event(a.date, "", 0.0, 0.0) }
  function StatusTally<D>(a: Appointment<D>): Event<string> { Event(StatusKey(a.status), "", 0.0, 0.0) }
  function DayCount(g: Group<int>): DateCount<int> { DateCount(g.key, g.hits) }
  function StatusSlice(g: Group<string>): NamedValue { NamedValue(StatusLabel(g.key), g.hits) }

  /** The per-day groups of the appointments, earliest day first. */
  function DayGroups(appts: seq<Appointment<int>>): seq<Group<int>>
  {
    SortDesc(GroupBy(Map(appts, VisitTally)), DayScore)
  }

  /** The appointments report (`_appointments_report`) over all of the
      period's appointments. */
  function ComputeAppointments(appts: seq<Appointment<int>>): (r: AppointmentsReport<int>)
    ensures r.appointmentsCount == |appts|
    ensures r.appointmentsRevenue == SumOf(Filter(appts, CompletedWithService), PriceOrZero)
    ensures r.appointmentStatusData.None? <==> |appts| == 0
    ensures |appts| == 0 ==> r.appointmentsChart == [] && r.appointmentsRevenue == 0.0
  {
    if |appts| == 0 then AppointmentsReport(0, 0.0, [], None)
    else
      SumOfFilter(appts, CompletedWithService, PriceOrZero, VisitSpend);
      AppointmentsReport(|appts|, SumOf(appts, VisitSpend),
        Map(DayGroups(appts), DayCount),
        Some(Map(GroupBy(Map(appts, StatusTally)), StatusSlice)))
  }

  function ChartCount(p: DateCount<int>): nat { p.count }
  function CountDate(p: DateCount<int>): int { p.date }
  function SliceValue(p: NamedValue): nat { p.value }

  /** The appointments chart has one point per date with appointments, dates
      strictly ascending, each point counting that date's appointments, and
      the counts add up to the number of appointments. */
  lemma {:induction false} AppointmentsChart(appts: seq<Appointment<int>>)
    requires |appts| > 0
    ensures var chart := ComputeAppointments(appts).appointmentsChart;
      (forall i, j :: 0 <= i < j < |chart| ==> chart[i].date < chart[j].date) &&
      (forall d :: d in Map(chart, CountDate) <==> d in Map(appts, AppointmentDate)) &&
      (forall i :: 0 <= i < |chart| ==> chart[i].count == |Filter(appts, VisitOn(chart[i].date))|) &&
      SumNat(chart, ChartCount) == |appts|
  {
    DayGroupsAscending(appts);
    DayGroupsDates(appts);
    DayGroupsCounts(appts);
    DayGroupsTotal(appts);
  }

  /** The day groups are the grouped visits, reordered. */
  lemma {:induction false} DayGroupsPerm(appts: seq<Appointment<int>>)
    ensures multiset(DayGroups(appts)) == multiset(GroupBy(Map(appts, VisitTally)))
    ensures DistinctBy(DayGroups(appts), GroupKey)
  {
    var groups := GroupBy(Map(appts, VisitTally));
    GroupByDistinct(Map(appts, VisitTally));
    DistinctByPerm(groups, DayGroups(appts), GroupKey);
  }

  lemma {:induction false} DayGroupsAscending(appts: seq<Appointment<int>>)
    ensures var chart := Map(DayGroups(appts), DayCount);
      forall i, j :: 0 <= i < j < |chart| ==> chart[i].date < chart[j].date
  {
    DayGroupsPerm(appts);
    AscendingDays(DayGroups(appts));
  }

  lemma {:induction false} DayGroupsDates(appts: seq<Appointment<int>>)
    ensures var chart := Map(DayGroups(appts), DayCount);
      forall d :: d in Map(chart, CountDate) <==> d in Map(appts, AppointmentDate)
  {
    var events := Map(appts, VisitTally);
    var sorted := DayGroups(appts);
    assert Map(Map(sorted, DayCount), CountDate) == KeysOf(sorted);
    assert EventKeys(events) == Map(appts, AppointmentDate);
    PermKeys(sorted, GroupBy(events));
    GroupByDistinct(events);
  }


  lemma {:induction false} DayGroupsCounts(appts: seq<Appointment<int>>)
    ensures var chart := Map(DayGroups(appts), DayCount);
      forall i :: 0 <= i < |chart| ==> chart[i].count == |Filter(appts, VisitOn(chart[i].date))|
  {
    var events := Map(appts, VisitTally);
    var groups := GroupBy(events);
    var sorted := DayGroups(appts);
    var chart := Map(sorted, DayCount);
    DayGroupsPerm(appts);
    forall i | 0 <= i < |chart| ensures chart[i].count == |Filter(appts, VisitOn(chart[i].date))| {
      assert sorted[i] in multiset(groups);
      var j := IndexOf(groups, sorted[i]);
      assert chart[i].count == groups[j].hits && chart[i].date == groups[j].key;
      assert groups[j].hits == |Filter(appts, VisitOn(groups[j].key))| by {
        GroupAt(events, j);
        MappedEventsAt(appts, VisitTally, groups[j].key, VisitOn(groups[j].key), (a: Appointment<int>) => 0.0);
      }
    }
  }

  lemma {:induction false} DayGroupsTotal(appts: seq<Appointment<int>>)
    ensures SumNat(Map(DayGroups(appts), DayCount), ChartCount) == |appts|
  {
    var events := Map(appts, VisitTally);
    var groups := GroupBy(events);
    var sorted := DayGroups(appts);
    DayGroupsPerm(appts);
    GroupByTotals(events);
    SumNatMap(sorted, DayCount, ChartCount, GroupHits);
    SumNatPerm(groups, sorted, GroupHits);
  }


  /** Distinct statuses get distinct labels, none of them the label of the
      `no_show` value, which no appointment can have. */
  lemma {:induction false} StatusLabelsDistinct(s: AppointmentStatus, t: AppointmentStatus)
    ensures IsStatusLabel(StatusLabel(StatusKey(s)))
    ensures StatusLabel(StatusKey(s)) == StatusLabel(StatusKey(t)) <==> s == t
  {
  }

  function StatusIs(s: AppointmentStatus): Appointment<int> -> bool { (a: Appointment<int>) => a.status == s }

  /** The status key `status_counts` files an appointment under. */
  function ApptStatusKey<D>(a: Appointment<D>): string { StatusKey(a.status) }

  /** The status breakdown has one slice per status that occurs, in the
      order the statuses first occur (as `status_counts.items()` yields
      them), labelled with one of the four status labels and counting the
      appointments with that status. */
  lemma {:induction false} AppointmentStatusSlices(appts: seq<Appointment<int>>)
    requires |appts| > 0
    ensures var slices := ComputeAppointments(appts).appointmentStatusData.value;
      var keys := FirstAppearances(Map(appts, ApptStatusKey));
      |slices| == |keys| && forall i :: 0 <= i < |slices| ==> slices[i].name == StatusLabel(keys[i])
    ensures var slices := ComputeAppointments(appts).appointmentStatusData.value;
      forall i :: 0 <= i < |slices| ==>
        IsStatusLabel(slices[i].name) &&
        exists s :: slices[i].name == StatusLabel(StatusKey(s)) && slices[i].value == |Filter(appts, StatusIs(s))|
  {
    var events := Map(appts, StatusTally);
    var groups := GroupBy(events);
    var slices := Map(groups, StatusSlice);
    StatusSliceOrder(appts);
    GroupByDistinct(events);
    forall i | 0 <= i < |slices|
      ensures IsStatusLabel(slices[i].name)
      ensures exists s :: slices[i].name == StatusLabel(StatusKey(s)) && slices[i].value == |Filter(appts, StatusIs(s))|
    {
      var s := StatusOfSlice(appts, i);
      StatusLabelsDistinct(s, s);
      GroupAt(events, i);
      forall j | 0 <= j < |appts| ensures StatusTally(appts[j]).key == StatusKey(s) <==> StatusIs(s)(appts[j]) {
        StatusLabelsDistinct(s, appts[j].status);
      }
      MappedEventsAt(appts, StatusTally, StatusKey(s), StatusIs(s), (a: Appointment<int>) => 0.0);
    }
  }

  /** The slices follow the statuses' first occurrences. */
  lemma {:induction false} StatusSliceOrder(appts: seq<Appointment<int>>)
    ensures var slices := Map(GroupBy(Map(appts, StatusTally)), StatusSlice);
      var keys := FirstAppearances(Map(appts, ApptStatusKey));
      |slices| == |keys| && forall i :: 0 <= i < |slices| ==> slices[i].name == StatusLabel(keys[i])
  {
    var events := Map(appts, StatusTally);
    var groups := GroupBy(events);
    var slices := Map(groups, StatusSlice);
    var keys := FirstAppearances(Map(appts, ApptStatusKey));
    assert KeysOf(groups) == keys by {
      assert EventKeys(events) == Map(appts, ApptStatusKey);
      GroupByKeys(events);
    }
    forall i | 0 <= i < |slices| ensures slices[i].name == StatusLabel(keys[i]) {
      assert keys[i] == groups[i].key;
    }
  }

  /** The status a slice stands for. */
  lemma {:induction false} StatusOfSlice(appts: seq<Appointment<int>>, i: nat) returns (s: AppointmentStatus)
    requires i < |GroupBy(Map(appts, StatusTally))|
    ensures GroupBy(Map(appts, StatusTally))[i].key == StatusKey(s)
  {
    var events := Map(appts, StatusTally);
    GroupByDistinct(events);
    assert KeysOf(GroupBy(events))[i] in EventKeys(events);
    var j :| 0 <= j < |events| && EventKeys(events)[j] == GroupBy(events)[i].key;
    s := appts[j].status;
  }

  /** No two slices share a label, and the slices count every appointment once. */
  lemma {:induction false} AppointmentStatusTotals(appts: seq<Appointment<int>>)
    requires |appts| > 0
    ensures var slices := ComputeAppointments(appts).appointmentStatusData.value;
      (forall i, j :: 0 <= i < j < |slices| ==> slices[i].name != slices[j].name) &&
      SumNat(slices, SliceValue) == |appts|
  {
    var events := Map(appts, StatusTally);
    var groups := GroupBy(events);
    var slices := Map(groups, StatusSlice);
    GroupByDistinct(events);
    GroupByTotals(events);
    SumNatMap(groups, StatusSlice, SliceValue, GroupHits);
    forall i, j | 0 <= i < j < |slices| ensures slices[i].name != slices[j].name {
      var s := StatusOfSlice(appts, i);
      var t := StatusOfSlice(appts, j);
      StatusLabelsDistinct(s, t);
      assert GroupKey(groups[i]) != GroupKey(groups[j]);
    }
  }

  // ---------------------------------------------------------------------
  // Dispatch
  // ---------------------------------------------------------------------

  /** A payload of one of the five reports. */
  datatype Report =
    | Revenue(revenue: RevenueReport<int>)
    | Services(services: RankedReport)
    | Products(products: RankedReport)
    | Clients(clients: ClientsReport)
    | Appointments(appointments: AppointmentsReport<int>)

  /** What the loaders return for the requested period. */
  datatype Snapshot = Snapshot(
    sales: seq<Sale<int>>,
    completedAppointments: seq<Appointment<int>>,
    serviceItems: seq<SaleItem>,
    productItems: seq<SaleItem>,
    clientSales: seq<Sale<int>>,
    appointments: seq<Appointment<int>>)

  /** The message of the error raised for an unknown report type. */
  const InvalidReportType: string := "Tipo de relatorio inválido"

  /** The accepted report tags. */
  ghost predicate KnownReportType(tag: string)
  {
    tag == "revenue" || tag == "services" || tag == "products" || tag == "clients" || tag == "appointments"
  }

  /** `generate_report`: picks the aggregation named by `tag`, or fails. */
  function GenerateReport(tag: string, db: Snapshot): (r: Result<Report, string>)
    ensures r.Err? <==> !KnownReportType(tag)
    ensures r.Err? ==> r.error == InvalidReportType
    ensures r.Ok? ==> (tag == "revenue" <==> r.value.Revenue?)
    ensures r.Ok? ==> (tag == "services" <==> r.value.Services?)
    ensures r.Ok? ==> (tag == "products" <==> r.value.Products?)
    ensures r.Ok? ==> (tag == "clients" <==> r.value.Clients?)
    ensures r.Ok? ==> (tag == "appointments" <==> r.value.Appointments?)
    ensures tag == "revenue" ==> r == Ok(Revenue(ComputeRevenue(db.sales, db.completedAppointments)))
    ensures tag == "services" ==> r == Ok(Services(ComputeServices(db.serviceItems, db.completedAppointments)))
    ensures tag == "products" ==> r == Ok(Products(ComputeProducts(db.productItems)))
    ensures tag == "clients" ==> r == Ok(Clients(ComputeClients(db.clientSales, db.appointments)))
    ensures tag == "appointments" ==> r == Ok(Appointments(ComputeAppointments(db.appointments)))
  {
    if tag == "revenue" then Ok(Revenue(ComputeRevenue(db.sales, db.completedAppointments)))
    else if tag == "services" then Ok(Services(ComputeServices(db.serviceItems, db.completedAppointments)))
    else if tag == "products" then Ok(Products(ComputeProducts(db.productItems)))
    else if tag == "clients" then Ok(Clients(ComputeClients(db.clientSales, db.appointments)))
    else if tag == "appointments" then Ok(Appointments(ComputeAppointments(db.appointments)))
    else Err(InvalidReportType)
  }
}
