/** The report engine of the Supabase edge function
    (supabase/functions/generate-report/index.ts): the request checks, the
    dispatch, and the five aggregations over the rows its queries return.
    Dates are the raw timestamp strings the queries return, possibly
    missing; the chart keys are their first ten characters. The shared
    pieces (attribution, rankings, the clients aggregation) are those of
    the FastAPI engine, and the lemmas at the end say where the two engines
    agree and where they part. */
module EdgeReports {
  import opened Wrappers
  import opened Seqs
  import opened Text
  import opened Grouping
  import opened Ranking
  import opened ReportData
  import opened Reporting

  /** A timestamp column as the edge function sees it. */
  type Stamp = Option<string>

  /** JavaScript truthiness of an optional string: present and non-empty. */
  predicate Truthy(v: Option<string>) { v.Some? && v.value != "" }

  /** `stamp.substring(0, 10)`: the day part of an ISO timestamp. */
  function DayOf(stamp: Stamp): string
  {
    if stamp.Some? then Take(stamp.value, 10) else ""
  }

  // ---------------------------------------------------------------------
  // Revenue
  // ---------------------------------------------------------------------

  predicate SaleDated(s: Sale<Stamp>) { Truthy(s.saleDate) }
  predicate VisitDated(a: Appointment<Stamp>) { Truthy(a.date) }
  function SaleDay(s: Sale<Stamp>): string { DayOf(s.saleDate) }
  function VisitDay(a: Appointment<Stamp>): string { DayOf(a.date) }

  /** A dated sale adds its total to its day. */
  function SaleStampEvent(s: Sale<Stamp>): Event<string> { Event(SaleDay(s), "", 0.0, s.total) }

  /** A dated completed appointment adds its service price, or 0, to its day. */
  function VisitStampEvent(a: Appointment<Stamp>): Event<string> { Event(VisitDay(a), "", 0.0, PriceOrZero(a)) }

  /** Contributions to the chart: the dated sales, then the dated
      appointments; records without a date are skipped. */
  function StampEvents(sales: seq<Sale<Stamp>>, appts: seq<Appointment<Stamp>>): seq<Event<string>>
  {
    Map(Filter(sales, SaleDated), SaleStampEvent) + Map(Filter(appts, VisitDated), VisitStampEvent)
  }

  function StampValue(g: Group<string>): DateValue<string> { DateValue(g.key, g.amount) }

  /** `generateRevenueReport` over the period's sales (with their lines) and
      its completed appointments. */
  function EdgeRevenue(sales: seq<Sale<Stamp>>, appts: seq<Appointment<Stamp>>): (r: RevenueReport<string>)
    ensures r.appointmentsCount == |appts|
    ensures r.salesCount == |sales|
    ensures r.appointmentsRevenue == SumOf(Filter(appts, HasService), PriceOrZero)
    ensures r.totalRevenue == SumOf(sales, SaleTotal) + r.appointmentsRevenue
    ensures |sales| == 0 ==>
      r.servicesRevenue == 0.0 && r.productsRevenue == 0.0 &&
      r.servicesSalesCount == 0 && r.productsSalesCount == 0 && r.salesChart == []
    ensures |sales| > 0 ==> r.servicesSalesCount + r.productsSalesCount == |AllItems(sales)|
    ensures |sales| > 0 && |AllItems(sales)| > 0 ==>
      r.servicesRevenue == SumOf(AllItems(sales), ServiceLineShare) &&
      r.productsRevenue == SumOf(AllItems(sales), ProductLineShare) &&
      r.servicesSalesCount == Count(AllItems(sales), IsServiceItem) &&
      r.productsSalesCount == Count(AllItems(sales), IsProductItem)
    ensures |sales| > 0 && |AllItems(sales)| == 0 ==>
      r.servicesRevenue == SumOf(sales, ServiceSaleShare) && r.productsRevenue == SumOf(sales, ProductSaleShare)
    ensures |sales| > 0 && |AllItems(sales)| > 0 ==>
      r.servicesRevenue + r.productsRevenue == SumOf(AllItems(sales), ItemTotal)
    ensures |sales| > 0 && |AllItems(sales)| == 0 ==>
      r.servicesRevenue + r.productsRevenue == SumOf(sales, SaleTotal)
  {
    var appointmentsRevenue := SumOf(appts, PriceOrZero);
    AppointmentsRevenueOfServiced(appts);
    if |sales| == 0 then
      RevenueReport(appointmentsRevenue, 0.0, 0.0, appointmentsRevenue, 0, 0, 0, |appts|, [])
    else
      var items := AllItems(sales);
      var split := Attribute(sales, items);
      Partition2(items, IsServiceItem, IsProductItem, ItemTotal);
      RevenueReport(SumOf(sales, SaleTotal) + appointmentsRevenue,
        split.servicesRevenue, split.productsRevenue, appointmentsRevenue,
        |sales|, |Filter(items, IsServiceItem)|, |Filter(items, IsProductItem)|, |appts|,
        Map(GroupBy(StampEvents(sales, appts)), StampValue))
  }

  function SaleDayIs(d: string): Sale<Stamp> -> bool { (s: Sale<Stamp>) => SaleDay(s) == d }
  function VisitDayIs(d: string): Appointment<Stamp> -> bool { (a: Appointment<Stamp>) => VisitDay(a) == d }
  function PointDay(p: DateValue<string>): string { p.date }
  function PointValue(p: DateValue<string>): real { p.value }

  /** What the chart should show for day `d`: the totals of the dated sales
      of that day plus the service prices of the dated appointments of that
      day. */
  function StampRevenue(sales: seq<Sale<Stamp>>, appts: seq<Appointment<Stamp>>, d: string): real
  {
    SumOf(Filter(Filter(sales, SaleDated), SaleDayIs(d)), SaleTotal) +
    SumOf(Filter(Filter(appts, VisitDated), VisitDayIs(d)), PriceOrZero)
  }

  /** The days of the dated records, in the order the chart meets them. */
  function StampDays(sales: seq<Sale<Stamp>>, appts: seq<Appointment<Stamp>>): seq<string>
  {
    Map(Filter(sales, SaleDated), SaleDay) + Map(Filter(appts, VisitDated), VisitDay)
  }

  /** When there are sales, the chart lists each day of a dated sale or
      dated appointment once, in the order the days first occur (sales
      first, then appointments, no sorting), each with that day's revenue;
      the points add up to the revenue of the dated records. */
  lemma {:induction false} EdgeRevenueChart(sales: seq<Sale<Stamp>>, appts: seq<Appointment<Stamp>>)
    requires |sales| > 0
    ensures var chart := EdgeRevenue(sales, appts).salesChart;
      Map(chart, PointDay) == FirstAppearances(StampDays(sales, appts)) &&
      (forall i :: 0 <= i < |chart| ==> chart[i].value == StampRevenue(sales, appts, chart[i].date)) &&
      SumOf(chart, PointValue) ==
        SumOf(Filter(sales, SaleDated), SaleTotal) + SumOf(Filter(appts, VisitDated), PriceOrZero)
  {
    var events := StampEvents(sales, appts);
    var groups := GroupBy(events);
    var chart := Map(groups, StampValue);
    assert Map(chart, PointDay) == FirstAppearances(StampDays(sales, appts)) by {
      StampEventKeys(sales, appts);
      GroupByKeys(events);
      assert Map(chart, PointDay) == KeysOf(groups);
    }
    forall i | 0 <= i < |chart| ensures chart[i].value == StampRevenue(sales, appts, chart[i].date) {
      assert chart[i].value == groups[i].amount && chart[i].date == groups[i].key;
      assert groups[i].amount == StampRevenue(sales, appts, groups[i].key) by {
        GroupAt(events, i);
        StampAmount(sales, appts, groups[i].key);
      }
    }
    assert SumOf(chart, PointValue) ==
        SumOf(Filter(sales, SaleDated), SaleTotal) + SumOf(Filter(appts, VisitDated), PriceOrZero) by {
      StampChartSum(sales, appts);
    }
    assert chart == EdgeRevenue(sales, appts).salesChart;
  }

  lemma {:induction false} StampEventKeys(sales: seq<Sale<Stamp>>, appts: seq<Appointment<Stamp>>)
    ensures EventKeys(StampEvents(sales, appts)) == StampDays(sales, appts)
  {
  }

  /** The amount grouped under day `d` is that day's revenue. */
  lemma {:induction false} StampAmount(sales: seq<Sale<Stamp>>, appts: seq<Appointment<Stamp>>, d: string)
    ensures AmountAt(StampEvents(sales, appts), d) == StampRevenue(sales, appts, d)
  {
    var dated := Filter(sales, SaleDated);
    var visits := Filter(appts, VisitDated);
    MatchingAppend(Map(dated, SaleStampEvent), Map(visits, VisitStampEvent), d);
    MappedEventsAt(dated, SaleStampEvent, d, SaleDayIs(d), SaleTotal);
    MappedEventsAt(visits, VisitStampEvent, d, VisitDayIs(d), PriceOrZero);
  }

  lemma {:induction false} StampChartSum(sales: seq<Sale<Stamp>>, appts: seq<Appointment<Stamp>>)
    ensures SumOf(Map(GroupBy(StampEvents(sales, appts)), StampValue), PointValue) ==
      SumOf(Filter(sales, SaleDated), SaleTotal) + SumOf(Filter(appts, VisitDated), PriceOrZero)
  {
    var dated := Filter(sales, SaleDated);
    var visits := Filter(appts, VisitDated);
    var events := StampEvents(sales, appts);
    GroupByTotals(events);
    SumOfMap(GroupBy(events), StampValue, PointValue, GroupAmount);
    SumOfAppend(Map(dated, SaleStampEvent), Map(visits, VisitStampEvent), EventAmount);
    SumOfMap(dated, SaleStampEvent, EventAmount, SaleTotal);
    SumOfMap(visits, VisitStampEvent, EventAmount, PriceOrZero);
  }

  /** When every record is dated, the chart adds up to the total revenue. */
  lemma {:induction false} EdgeChartCoversRevenue(sales: seq<Sale<Stamp>>, appts: seq<Appointment<Stamp>>)
    requires |sales| > 0
    requires forall i :: 0 <= i < |sales| ==> SaleDated(sales[i])
    requires forall i :: 0 <= i < |appts| ==> VisitDated(appts[i])
    ensures SumOf(EdgeRevenue(sales, appts).salesChart, PointValue) == EdgeRevenue(sales, appts).totalRevenue
  {
    EdgeRevenueChart(sales, appts);
    AppointmentsRevenueOfServiced(appts);
  }

  // ---------------------------------------------------------------------
  // Rankings (services, products)
  // ---------------------------------------------------------------------

  /** Payload of the edge services and products reports: the ten best rows,
      their summed revenue and their summed quantity (`totalItems`, also
      sent as `servicesSalesCount` / `productsSalesCount`), not truncated. */
  datatype EdgeRanked = EdgeRanked(top: seq<RankedItem>, totalRevenue: real, totalItems: real)

  function EdgeRank(events: seq<Event<nat>>): EdgeRanked
  {
    var rows := Map(TopGroups(events), RankedOf);
    EdgeRanked(rows, SumOf(rows, RankedRevenue), SumOf(rows, RankedQuantity))
  }

  /** `generateServicesReport`: the service lines of the period's sales and
      its completed appointments, ranked. */
  function EdgeServices(items: seq<SaleItem>, appts: seq<Appointment<Stamp>>): EdgeRanked
  {
    EdgeRank(ServiceLineEvents(items) + ServiceVisitEvents(appts))
  }

  /** `generateProductsReport`: the product lines of the period's sales, ranked. */
  function EdgeProducts(items: seq<SaleItem>): EdgeRanked
  {
    EdgeRank(ProductLineEvents(items))
  }

  // ---------------------------------------------------------------------
  // Appointments
  // ---------------------------------------------------------------------

  /** An appointment row as the appointments query returns it: the status
      is read as a raw, possibly missing, string. */
  datatype StatusRow = StatusRow(date: Stamp, status: Option<string>, service: Option<CatalogEntry>)

  /** `app.status || 'pending'`. */
  function RowStatus(r: StatusRow): (key: string)
    ensures key != ""
    ensures key == "pending" <==> !Truthy(r.status) || r.status.value == "pending"
    ensures Truthy(r.status) ==> key == r.status.value
  {
    if Truthy(r.status) then r.status.value else "pending"
  }

  /** The edge function's status labels; an unknown status is shown as is. */
  function EdgeStatusLabel(key: string): string
  {
    if key == "pending" then "Pendente"
    else if key == "confirmed" then "Confirmado"
    else if key == "completed" then "Concluído"
    else if key == "cancelled" then "Cancelado"
    else if key == "no_show" then "Não Compareceu"
    else key
  }

  predicate RowCompleted(r: StatusRow) { r.status == Some("completed") }
  predicate RowDated(r: StatusRow) { Truthy(r.date) }
  function RowDay(r: StatusRow): string { DayOf(r.date) }
  function RowPrice(r: StatusRow): real { if r.service.Some? then r.service.value.price else 0.0 }

  /** What a row brings in: its service price once completed. */
  function RowRevenue(r: StatusRow): real { if RowCompleted(r) then RowPrice(r) else 0.0 }

  function RowDayTally(r: StatusRow): Event<string> { Event(RowDay(r), "", 0.0, 0.0) }
  function RowStatusTally(r: StatusRow): Event<string> { Event(RowStatus(r), "", 0.0, 0.0) }
  function StampCount(g: Group<string>): DateCount<string> { DateCount(g.key, g.hits) }
  function EdgeSlice(g: Group<string>): NamedValue { NamedValue(EdgeStatusLabel(g.key), g.hits) }

  /** `generateAppointmentsReport` over all of the period's appointments. */
  function EdgeAppointments(rows: seq<StatusRow>): (r: AppointmentsReport<string>)
    ensures r.appointmentsCount == |rows|
    ensures r.appointmentsRevenue == SumOf(rows, RowRevenue)
    ensures r.appointmentStatusData.None? <==> |rows| == 0
    ensures |rows| == 0 ==> r.appointmentsChart == [] && r.appointmentsRevenue == 0.0
  {
    if |rows| == 0 then AppointmentsReport(0, 0.0, [], None)
    else
      SumOfFilter(rows, RowCompleted, RowPrice, RowRevenue);
      AppointmentsReport(|rows|, SumOf(Filter(rows, RowCompleted), RowPrice),
        Map(GroupBy(Map(Filter(rows, RowDated), RowDayTally)), StampCount),
        Some(Map(GroupBy(Map(rows, RowStatusTally)), EdgeSlice)))
  }

  function RowDayIs(d: string): StatusRow -> bool { (r: StatusRow) => RowDay(r) == d }
  function RowStatusIs(k: string): StatusRow -> bool { (r: StatusRow) => RowStatus(r) == k }
  function CountDay(p: DateCount<string>): string { p.date }
  function CountOf(p: DateCount<string>): nat { p.count }
  function SliceCount(p: NamedValue): nat { p.value }
  function SliceName(p: NamedValue): string { p.name }

  /** The chart lists each day of a dated appointment once, in the order the
      days first occur, with the number of dated appointments on that day;
      the counts add up to the number of dated appointments. */
  lemma {:induction false} EdgeAppointmentsChart(rows: seq<StatusRow>)
    requires |rows| > 0
    ensures var chart := EdgeAppointments(rows).appointmentsChart;
      Map(chart, CountDay) == FirstAppearances(Map(Filter(rows, RowDated), RowDay)) &&
      (forall i :: 0 <= i < |chart| ==> chart[i].count == |Filter(Filter(rows, RowDated), RowDayIs(chart[i].date))|) &&
      SumNat(chart, CountOf) == |Filter(rows, RowDated)|
  {
    var dated := Filter(rows, RowDated);
    var events := Map(dated, RowDayTally);
    var groups := GroupBy(events);
    var chart := Map(groups, StampCount);
    assert chart == EdgeAppointments(rows).appointmentsChart;
    assert EventKeys(events) == Map(dated, RowDay);
    GroupByKeys(events);
    assert Map(chart, CountDay) == KeysOf(groups);
    forall i | 0 <= i < |chart| ensures chart[i].count == |Filter(dated, RowDayIs(chart[i].date))| {
      GroupAt(events, i);
      MappedEventsAt(dated, RowDayTally, groups[i].key, RowDayIs(groups[i].key), (r: StatusRow) => 0.0);
    }
    GroupByTotals(events);
    SumNatMap(groups, StampCount, CountOf, GroupHits);
  }

  /** The status breakdown has one slice per status value in the order the
      values first occur (a missing status counting as "pending"), each
      labelled by the label map and counting the rows with that value; the
      counts add up to the number of appointments. */
  lemma {:induction false} EdgeStatusBreakdown(rows: seq<StatusRow>)
    requires |rows| > 0
    ensures var slices := EdgeAppointments(rows).appointmentStatusData.value;
      var keys := FirstAppearances(Map(rows, RowStatus));
      |slices| == |keys| &&
      (forall i :: 0 <= i < |slices| ==>
        slices[i].name == EdgeStatusLabel(keys[i]) && slices[i].value == |Filter(rows, RowStatusIs(keys[i]))|) &&
      SumNat(slices, SliceCount) == |rows|
  {
    var events := Map(rows, RowStatusTally);
    var groups := GroupBy(events);
    var slices := Map(groups, EdgeSlice);
    var keys := FirstAppearances(Map(rows, RowStatus));
    assert slices == EdgeAppointments(rows).appointmentStatusData.value;
    assert KeysOf(groups) == keys by {
      assert EventKeys(events) == Map(rows, RowStatus);
      GroupByKeys(events);
    }
    forall i | 0 <= i < |slices|
      ensures slices[i].name == EdgeStatusLabel(keys[i]) && slices[i].value == |Filter(rows, RowStatusIs(keys[i]))|
    {
      assert keys[i] == groups[i].key;
      assert groups[i].hits == |Filter(rows, RowStatusIs(groups[i].key))| by {
        GroupAt(events, i);
        MappedEventsAt(rows, RowStatusTally, groups[i].key, RowStatusIs(groups[i].key), (r: StatusRow) => 0.0);
      }
    }
    assert SumNat(slices, SliceCount) == |rows| by {
      GroupByTotals(events);
      SumNatMap(groups, EdgeSlice, SliceCount, GroupHits);
    }
  }


  /** The five known status values get five distinct labels; any other value
      is its own label. */
  lemma {:induction false} EdgeStatusLabels(k: string, l: string)
    ensures KnownStatus(k) && KnownStatus(l) ==> (EdgeStatusLabel(k) == EdgeStatusLabel(l) <==> k == l)
    ensures !KnownStatus(k) ==> EdgeStatusLabel(k) == k
  {
  }

  predicate KnownStatus(k: string)
  {
    k == "pending" || k == "confirmed" || k == "completed" || k == "cancelled" || k == "no_show"
  }

  /** The two engines label a status the same way except "completed" and
      "no_show", which the edge function writes with accents. */
  lemma {:induction false} StatusLabelsDiverge(k: string)
    ensures EdgeStatusLabel(k) == StatusLabel(k) <==> k != "completed" && k != "no_show"
  {
  }

  // ---------------------------------------------------------------------
  // Request handling and dispatch
  // ---------------------------------------------------------------------

  /** The fields of the JSON request body the function reads. */
  datatype RequestBody = RequestBody(
    userId: Option<string>, reportType: Option<string>,
    startDate: Option<string>, endDate: Option<string>)

  /** What `await req.json()` yields: a body that is not JSON, the JSON
      literal `null`, or any other JSON value seen through the four fields
      the handler reads (a value that is not an object has none of them). */
  datatype Body = NotJson | JsonNull | Json(fields: RequestBody)

  /** What the queries return for the requested user and period. */
  datatype EdgeSnapshot = EdgeSnapshot(
    sales: seq<Sale<Stamp>>,
    completedAppointments: seq<Appointment<Stamp>>,
    serviceItems: seq<SaleItem>,
    productItems: seq<SaleItem>,
    clientSales: seq<Sale<Stamp>>,
    clientAppointments: seq<Appointment<Stamp>>,
    appointmentRows: seq<StatusRow>)

  /** A payload of one of the five reports. */
  datatype EdgeReport =
    | RevenuePayload(revenue: RevenueReport<string>)
    | ServicesPayload(services: EdgeRanked)
    | ProductsPayload(products: EdgeRanked)
    | ClientsPayload(clients: ClientsReport)
    | AppointmentsPayload(appointments: AppointmentsReport<string>)

  /** An HTTP status with either the payload or the error message. */
  datatype Response = Response(status: nat, body: Result<EdgeReport, string>)

  const InvalidBody: string := "Invalid request body"
  const MissingUser: string := "User ID is required"
  const MissingDates: string := "Start date and end date are required"
  const UnknownType: string := "Invalid report type"

  /** The message of the `TypeError` that reading `userId` off `null`
      raises in the V8 engine Deno runs on; the outer `catch` answers it
      with 500. */
  const NullBodyError: string := "Cannot read properties of null (reading 'userId')"

  /** `body.reportType || "revenue"`. */
  function RequestedType(b: RequestBody): string
  {
    if Truthy(b.reportType) then b.reportType.value else "revenue"
  }

  /** A well-formed request: a user and both ends of the period. */
  predicate Complete(b: RequestBody)
  {
    Truthy(b.userId) && Truthy(b.startDate) && Truthy(b.endDate)
  }

  function Reject(message: string): Response { Response(400, Err(message)) }

  /** The request handler: a body that is not JSON, a missing user, a
      missing date and an unknown report type are refused with 400, in that
      order and before any aggregation; a `null` body fails on the first
      field read and is answered with 500; otherwise the named report is
      returned with 200. */
  function HandleRequest(body: Body, db: EdgeSnapshot): (r: Response)
    ensures r.status == 500 <==> body.JsonNull?
    ensures body.JsonNull? ==> r.body == Err(NullBodyError)
    ensures r.status == 400 <==> r.body.Err? && !body.JsonNull?
    ensures r.status == 200 <==> r.body.Ok?
    ensures r.body.Err? <==> !body.Json? || !Complete(body.fields) || !KnownReportType(RequestedType(body.fields))
    ensures body.NotJson? ==> r.body == Err(InvalidBody)
    ensures body.Json? && !Truthy(body.fields.userId) ==> r.body == Err(MissingUser)
    ensures body.Json? && Truthy(body.fields.userId) && !Complete(body.fields) ==> r.body == Err(MissingDates)
    ensures body.Json? && Complete(body.fields) && !KnownReportType(RequestedType(body.fields)) ==> r.body == Err(UnknownType)
    ensures r.body.Ok? ==> (RequestedType(body.fields) == "revenue" <==> r.body.value.RevenuePayload?)
    ensures r.body.Ok? ==> (RequestedType(body.fields) == "services" <==> r.body.value.ServicesPayload?)
    ensures r.body.Ok? ==> (RequestedType(body.fields) == "products" <==> r.body.value.ProductsPayload?)
    ensures r.body.Ok? ==> (RequestedType(body.fields) == "clients" <==> r.body.value.ClientsPayload?)
    ensures r.body.Ok? ==> (RequestedType(body.fields) == "appointments" <==> r.body.value.AppointmentsPayload?)
    ensures body.Json? && Complete(body.fields) ==>
      var tag := RequestedType(body.fields);
      (tag == "revenue" ==> r.body == Ok(RevenuePayload(EdgeRevenue(db.sales, db.completedAppointments)))) &&
      (tag == "services" ==> r.body == Ok(ServicesPayload(EdgeServices(db.serviceItems, db.completedAppointments)))) &&
      (tag == "products" ==> r.body == Ok(ProductsPayload(EdgeProducts(db.productItems)))) &&
      (tag == "clients" ==> r.body == Ok(ClientsPayload(ComputeClients(db.clientSales, db.clientAppointments)))) &&
      (tag == "appointments" ==> r.body == Ok(AppointmentsPayload(EdgeAppointments(db.appointmentRows))))
  {
    match body
    case NotJson => Reject(InvalidBody)
    case JsonNull => Response(500, Err(NullBodyError))
    case Json(b) =>
      if !Truthy(b.userId) then Reject(MissingUser)
      else if !Truthy(b.startDate) || !Truthy(b.endDate) then Reject(MissingDates)
      else
        var tag := RequestedType(b);
        if tag == "revenue" then Response(200, Ok(RevenuePayload(EdgeRevenue(db.sales, db.completedAppointments))))
        else if tag == "services" then Response(200, Ok(ServicesPayload(EdgeServices(db.serviceItems, db.completedAppointments))))
        else if tag == "products" then Response(200, Ok(ProductsPayload(EdgeProducts(db.productItems))))
        else if tag == "clients" then Response(200, Ok(ClientsPayload(ComputeClients(db.clientSales, db.clientAppointments))))
        else if tag == "appointments" then Response(200, Ok(AppointmentsPayload(EdgeAppointments(db.appointmentRows))))
        else Reject(UnknownType)
  }

  // ---------------------------------------------------------------------
  // The two engines side by side
  // ---------------------------------------------------------------------

  /** The same rows as the edge function sees them: every day replaced by a
      timestamp through `stamp`. */
  function SaleStamper(stamp: int -> Stamp): Sale<int> -> Sale<Stamp>
  {
    (s: Sale<int>) => Sale(s.clientId, s.client, stamp(s.saleDate), s.total, s.saleType, s.items)
  }

  function VisitStamper(stamp: int -> Stamp): Appointment<int> -> Appointment<Stamp>
  {
    (a: Appointment<int>) => Appointment(stamp(a.date), a.status, a.serviceId, a.service, a.petClient)
  }

  lemma {:induction false} StampedItems(sales: seq<Sale<int>>, stamp: int -> Stamp)
    ensures AllItems(Map(sales, SaleStamper(stamp))) == AllItems(sales)
  {
    if |sales| > 0 {
      assert Map(sales, SaleStamper(stamp))[1..] == Map(sales[1..], SaleStamper(stamp));
      StampedItems(sales[1..], stamp);
    }
  }

  lemma {:induction false} StampedVisitEvents(appts: seq<Appointment<int>>, stamp: int -> Stamp)
    ensures ServiceVisitEvents(Map(appts, VisitStamper(stamp))) == ServiceVisitEvents(appts)
  {
    if |appts| > 0 {
      assert Map(appts, VisitStamper(stamp))[1..] == Map(appts[1..], VisitStamper(stamp));
      StampedVisitEvents(appts[1..], stamp);
    }
  }

  /** On the same rows the two revenue reports agree on every figure; they
      differ only in the chart, which without sales the FastAPI engine fills
      with one point per completed appointment and the edge function leaves
      empty. */
  lemma {:induction false} RevenueEnginesAgree(sales: seq<Sale<int>>, appts: seq<Appointment<int>>, stamp: int -> Stamp)
    ensures var p := ComputeRevenue(sales, appts);
      var e := EdgeRevenue(Map(sales, SaleStamper(stamp)), Map(appts, VisitStamper(stamp)));
      e.totalRevenue == p.totalRevenue && e.appointmentsRevenue == p.appointmentsRevenue &&
      e.servicesRevenue == p.servicesRevenue && e.productsRevenue == p.productsRevenue &&
      e.salesCount == p.salesCount && e.appointmentsCount == p.appointmentsCount &&
      e.servicesSalesCount == p.servicesSalesCount && e.productsSalesCount == p.productsSalesCount
    ensures |sales| == 0 ==>
      EdgeRevenue([], Map(appts, VisitStamper(stamp))).salesChart == [] &&
      |ComputeRevenue([], appts).salesChart| == |appts|
  {
    RevenueTotalsAgree(sales, appts, stamp);
    if |sales| > 0 {
      RevenueSplitAgree(sales, appts, stamp);
    }
  }

  /** The totals and counts that do not depend on line attribution agree. */
  lemma {:induction false} RevenueTotalsAgree(sales: seq<Sale<int>>, appts: seq<Appointment<int>>, stamp: int -> Stamp)
    ensures var p := ComputeRevenue(sales, appts);
      var e := EdgeRevenue(Map(sales, SaleStamper(stamp)), Map(appts, VisitStamper(stamp)));
      e.totalRevenue == p.totalRevenue && e.appointmentsRevenue == p.appointmentsRevenue &&
      e.salesCount == p.salesCount && e.appointmentsCount == p.appointmentsCount
  {
    SumOfMap(sales, SaleStamper(stamp), SaleTotal, SaleTotal);
    SumOfFilterMap(appts, VisitStamper(stamp), HasService, HasService, PriceOrZero, PriceOrZero);
  }

  /** With sales present, both engines attribute revenue to services and
      products identically. */
  lemma {:induction false} RevenueSplitAgree(sales: seq<Sale<int>>, appts: seq<Appointment<int>>, stamp: int -> Stamp)
    requires |sales| > 0
    ensures var p := ComputeRevenue(sales, appts);
      var e := EdgeRevenue(Map(sales, SaleStamper(stamp)), Map(appts, VisitStamper(stamp)));
      e.servicesRevenue == p.servicesRevenue && e.productsRevenue == p.productsRevenue &&
      e.servicesSalesCount == p.servicesSalesCount && e.productsSalesCount == p.productsSalesCount
  {
    var stamped := Map(sales, SaleStamper(stamp));
    var items := AllItems(sales);
    assert AllItems(stamped) == items by { StampedItems(sales, stamp); }
    assert Attribute(stamped, items) == Attribute(sales, items) by {
      StampedAttribution(sales, items, stamp);
    }
    if |items| == 0 {
      assert Filter(items, IsServiceItem) == [] && Filter(items, IsProductItem) == [];
    }
  }

  /** Stamping dates changes no sale's total, so a bucket selected by a
      predicate that ignores the date sums the same. */
  lemma {:induction false} StampedBucket(sales: seq<Sale<int>>, stamp: int -> Stamp, p: Sale<Stamp> -> bool, q: Sale<int> -> bool)
    requires forall i :: 0 <= i < |sales| ==> p(SaleStamper(stamp)(sales[i])) == q(sales[i])
    ensures SumOf(Filter(Map(sales, SaleStamper(stamp)), p), SaleTotal) == SumOf(Filter(sales, q), SaleTotal)
  {
    SumOfFilterMap(sales, SaleStamper(stamp), p, q, SaleTotal, SaleTotal);
  }

  /** Attribution reads no dates. */
  lemma {:induction false} StampedAttribution(sales: seq<Sale<int>>, items: seq<SaleItem>, stamp: int -> Stamp)
    ensures Attribute(Map(sales, SaleStamper(stamp)), items) == Attribute(sales, items)
  {
    if |items| == 0 {
      var stamped := Map(sales, SaleStamper(stamp));
      var a := Attribute(stamped, items);
      var b := Attribute(sales, items);
      assert a.servicesRevenue == b.servicesRevenue by {
        StampedBucket(sales, stamp, IsServiceSale, IsServiceSale);
        StampedBucket(sales, stamp, IsMixedSale, IsMixedSale);
      }
      assert a.productsRevenue == b.productsRevenue by {
        StampedBucket(sales, stamp, IsProductSale, IsProductSale);
        StampedBucket(sales, stamp, IsMixedSale, IsMixedSale);
      }
    }
  }

  /** On the same rows the two services reports list the same rows with the
      same revenue total; the FastAPI engine's count is the edge function's
      `totalItems` truncated to an integer. */
  lemma {:induction false} ServicesEnginesAgree(items: seq<SaleItem>, appts: seq<Appointment<int>>, stamp: int -> Stamp)
    ensures var p := ComputeServices(items, appts);
      var e := EdgeServices(items, Map(appts, VisitStamper(stamp)));
      e.top == p.top && e.totalRevenue == p.totalRevenue && e.totalItems == p.totalItems &&
      p.salesCount == Truncate(e.totalItems)
  {
    StampedVisitEvents(appts, stamp);
  }
}
