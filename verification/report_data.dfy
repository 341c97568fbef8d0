/** The records the report engines read and the payloads they produce. Both
    engines (the FastAPI service and the Supabase edge function) read the same
    tables; they differ in how dates arrive, so dated records are generic in
    the date type `D`: the FastAPI engine works on calendar days (numbered so
    that their order is the order of their ISO strings), the edge function on
    the raw, possibly missing, timestamp strings. */
module ReportData {
  import opened Wrappers

  /** Status of an appointment (backend/app/models/appointment.py). */
  datatype AppointmentStatus = Pending | Confirmed | Cancelled | Completed

  /** Kind of a sale: only products, only services, or both. */
  datatype SaleType = ProductSale | ServiceSale | MixedSale

  /** Kind of a sale line. */
  datatype ItemType = ProductItem | ServiceItem

  /** A catalogue entry (a service or a product) reached through a join. */
  datatype CatalogEntry = CatalogEntry(name: string, price: real)

  /** A client reached through a join: its id and display name. */
  datatype ClientRef = ClientRef(id: nat, name: string)

  /** One line of a sale. The ids are nullable foreign keys; `product` and
      `service` are the joined rows, absent when the key is null or the row
      is gone. */
  datatype SaleItem = SaleItem(
    itemType: ItemType,
    productId: Option<nat>, product: Option<CatalogEntry>,
    serviceId: Option<nat>, service: Option<CatalogEntry>,
    price: real, quantity: real, total: real)

  /** A sale with its joined client and its lines. */
  datatype Sale<D> = Sale(
    clientId: Option<nat>, client: Option<ClientRef>,
    saleDate: D, total: real, saleType: SaleType, items: seq<SaleItem>)

  /** An appointment with its joined service and the client owning its pet. */
  datatype Appointment<D> = Appointment(
    date: D, status: AppointmentStatus,
    serviceId: Option<nat>, service: Option<CatalogEntry>,
    petClient: Option<ClientRef>)

  /** Chart points and ranking rows of the response
      (backend/app/schemas/report.py). */
  datatype DateValue<D> = DateValue(date: D, value: real)
  datatype DateCount<D> = DateCount(date: D, count: nat)
  datatype NamedValue = NamedValue(name: string, value: nat)
  datatype RankedItem = RankedItem(id: nat, name: string, quantity: real, revenue: real)
  datatype ClientRank = ClientRank(id: nat, name: string, visits: nat, spent: real)

  /** Payload of the revenue report. */
  datatype RevenueReport<D> = RevenueReport(
    totalRevenue: real, servicesRevenue: real, productsRevenue: real, appointmentsRevenue: real,
    salesCount: nat, servicesSalesCount: nat, productsSalesCount: nat, appointmentsCount: nat,
    salesChart: seq<DateValue<D>>)

  /** Payload of the clients report. */
  datatype ClientsReport = ClientsReport(
    topClients: seq<ClientRank>, totalClients: nat, totalVisits: nat, totalRevenue: real)

  /** Payload of the appointments report; the status breakdown is absent
      when there are no appointments. */
  datatype AppointmentsReport<D> = AppointmentsReport(
    appointmentsCount: nat, appointmentsRevenue: real,
    appointmentsChart: seq<DateCount<D>>, appointmentStatusData: Option<seq<NamedValue>>)
}
