# PetGestor core, modelled in Dafny

PetGestor is a management system for pet shops. It handles clients and
their pets, appointments, a point of sale for products and services, and
reports. This project models the parts of it that compute rather than
store:

- **Report engine.** The Python report service (`generate_report` and its
  five aggregations: revenue, services, products, clients, appointments)
  and its TypeScript twin, the `generate-report` edge function. This
  includes the edge function's request validation. Loader results are
  inputs. A family of lemmas records where the two engines agree and where
  they differ.
- **Sales route.** `create_sale` checks the cart, derives the sale type,
  builds the items and takes the sold quantities from stock.
  `delete_sale` answers 404 for a sale the user does not own.
- **Point-of-sale arithmetic.** Subtotal, discount clamping, surcharge
  clamping and the non-negative total (`useSaleCalculations`). Also the
  three discount forms (`SaleDiscountForm`, `DiscountSurchargeForm`,
  `DiscountForm`), the sales statistics hook, sale details and the sales
  list page.
- **Carts.** The two sale carts (`sales/SaleForm` with stock bounds and
  the single-type `SaleForm`) and the invoice line editor.
- **Small classifiers and state machines.** Stock status, appointment
  status normalisation, the Supabase error toast, the Stripe webhook's
  plan rules, the two route guards, the role-filtered sidebar and the
  free-plan limit notice.
- **In-memory list pages.** Clients and pets, and the product and sale
  filters.

The model is functional throughout. Records are immutable datatypes,
collections are `seq` and `map`, money is exact `real`, and ids are `nat`
or `string` as the source uses them. Python `dict` accumulation is a
first-appearance association list (`Grouping`), because Python and
JavaScript objects iterate keys in insertion order. Python `sorted` and
JavaScript `Array.sort` are both stable, so one stable insertion sort
(`Ranking`) stands for both.

Shared library modules:

- `Wrappers`: `Option` and `Result`.
- `Seqs`: filter, map, sums and prefixes, with their algebra.
- `Text`: ASCII and Latin-1 lower-casing, substring search and trim.
- `Grouping`, `Ranking`: described above.
- `ReportData`: the sale, item and appointment records.
- `Pos`: cart lines and discount settings.

## Model

| member | source | states |
|---|---|---|
| AppointmentForm.EnsureStatus | src/components/appointment/AppointmentForm.tsx:49-59 | "confirmed", "cancelled" and "completed" are kept, each in both directions; "pending", a missing status and any other string become pending |
| AppointmentForm.EnsureStatusIdempotent | src/components/appointment/AppointmentForm.tsx:49-59 | every status survives being written as its string and normalised again, so normalising twice is normalising once |
| AppointmentForm.ValidateSubmit | src/components/appointment/AppointmentForm.tsx:176-184 | submit goes ahead exactly when client, pet, service and time are all non-empty, and then with the values unchanged |
| AppointmentForm.FilteredPets | src/components/appointment/AppointmentForm.tsx:151-157 | no client selected gives no pets; every pet offered is one of the loaded pets and belongs to the selected client |
| AppointmentForm.FilteredPetsComplete | src/components/appointment/AppointmentForm.tsx:151-157 | with a client selected, a pet is offered if and only if it is loaded and belongs to that client |
| AppointmentForm.FilteredClients | src/components/appointment/AppointmentForm.tsx:236-238 | every suggestion is a loaded client whose name contains the query, ignoring case |
| AppointmentForm.FilteredClientsSpec | src/components/appointment/AppointmentForm.tsx:236-238 | a client is suggested if and only if its name contains the query ignoring case; an empty query suggests every client in order |
| Cart.FindLine | src/components/sales/SaleForm.tsx:123-125 | the index found is the first line with that id and type; none is found exactly when no line has them |
| Cart.Increment | src/components/sales/SaleForm.tsx:143-146 | the chosen line gains one unit and every other line is unchanged |
| Cart.SetQuantity | src/components/sales/SaleForm.tsx:174-176 | the chosen line takes the new quantity and every other line is unchanged |
| Cart.RemoveAt | src/components/sales/SaleForm.tsx:153-155 | removes exactly the element at the index and keeps the others in order; an index outside the cart removes nothing; the single-type cart removes its lines the same way (src/components/SaleForm.tsx:148-150) |
| Cart.IncrementSubtotal | src/components/sales/SaleForm.tsx:143-146 | one more unit raises the subtotal by that line's unit price |
| Cart.SetQuantitySubtotal | src/components/sales/SaleForm.tsx:174-176 | a new quantity replaces the line's share of the subtotal with price times the new quantity |
| Cart.RemoveSubtotal | src/components/sales/SaleForm.tsx:153-155 | removing a line takes exactly its price times quantity out of the subtotal |
| Cart.AppendSubtotal | src/components/sales/SaleForm.tsx:147-150 | appending a line adds its price times quantity to the subtotal |
| Cart.DistinctPreserved | src/components/sales/SaleForm.tsx:123-155 | quantity changes and removals keep one line per item, and so does appending an item the cart does not hold |
| SaleCart.FindProduct | src/components/sales/SaleForm.tsx:111 | the product found is the first loaded product with that id; none is found exactly when no product has it |
| SaleCart.AddItem | src/components/sales/SaleForm.tsx:108-151 | refused exactly when the product is known and out of stock, or when it is already in the cart and one more unit would pass its stock; otherwise an existing line gains a unit or the item is appended |
| SaleCart.UpdateQuantity | src/components/sales/SaleForm.tsx:157-177 | a quantity below 1 changes nothing; refused exactly when a known product's stock is below the new quantity; otherwise only that line changes |
| SaleCart.AddKeepsCartOk | src/components/sales/SaleForm.tsx:108-151 | an accepted addition keeps one line per item, every quantity at least 1 and no product line above its stock |
| SaleCart.UpdateKeepsCartOk | src/components/sales/SaleForm.tsx:157-177 | an accepted quantity change keeps the same three cart guarantees |
| SaleCart.RemoveKeepsCartOk | src/components/sales/SaleForm.tsx:153-155 | a removal keeps the same three cart guarantees |
| SaleCart.AddItemSubtotal | src/components/sales/SaleForm.tsx:143-150 | an accepted addition raises the subtotal by one unit, at the existing line's price or at the new item's price |
| SaleCart.SaveSale | src/components/sales/SaleForm.tsx:179-195 | an empty cart is refused and nothing else is; "no_client" stores no client; otherwise the selected id is kept, and the stored name is the name of the first loaded client with that id when that name is non-empty, and no name when there is no such client or its name is empty |
| SaleCart.SaveSaleNamesFirstClient | src/components/sales/SaleForm.tsx:191-194 | when the selected id belongs to the client at some position and to none before it, the saved name is that client's name, or none when the name is empty |
| ClientsPage.FilterClients | src/pages/Clients.tsx:143-152 | every listed client is a loaded client that matches the term |
| ClientsPage.FilterClientsSpec | src/pages/Clients.tsx:143-152 | a client is listed if and only if the term is in its name or email ignoring case, in its phone as typed, or in some pet's name, type or breed ignoring case; an empty term lists every client |
| ClientsPage.SubmitClient | src/pages/Clients.tsx:205-249 | refused exactly when name, email or phone is empty; an edit rewrites only the clients with the selected id and keeps their id and pets; an addition appends one client with the fresh id and no pets |
| ClientsPage.SubmitPet | src/pages/Clients.tsx:252-330 | an empty field is refused; the age is refused exactly when a client is selected and the age does not parse or is not positive; only the selected client changes, by replacing the matching pet or appending the new one |
| ClientsPage.DeleteClient | src/pages/Clients.tsx:349-360 | no selection changes nothing; no remaining client has the deleted id |
| ClientsPage.DeletePet | src/pages/Clients.tsx:363-375 | without both selections nothing changes; every client keeps its place and id, and clients other than the selected one are unchanged |
| ClientsPage.DeletePetSpec | src/pages/Clients.tsx:363-375 | in the selected client, a pet remains if and only if it was there and has a different id |
| ClientsPage.DeleteClientKeepsOthers | src/pages/Clients.tsx:349-360 | a client remains after deletion if and only if it was there and has a different id |
| ClientsPage.AddThenDeleteClient | src/pages/Clients.tsx:233-352 | adding a client under an unused id and then deleting it gives the original list back |
| ClientsPage.AddThenDeletePet | src/pages/Clients.tsx:302-375 | adding a pet under an id its client does not use and then deleting it gives the original clients back |
| DashboardNav.FilteredItems | src/components/layouts/DashboardLayout.tsx:57-60 | no user sees nothing; every entry shown is a sidebar entry whose roles include the user's role |
| DashboardNav.FilteredItemsSpec | src/components/layouts/DashboardLayout.tsx:47-60 | a signed-in user sees an entry if and only if the entry lists their role |
| DashboardNav.AdminSeesAll | src/components/layouts/DashboardLayout.tsx:47-60 | an administrator sees all seven entries in declaration order |
| DashboardNav.AttendantSeesFirstFive | src/components/layouts/DashboardLayout.tsx:47-60 | an attendant sees exactly the first five entries, without reports and plan |
| DashboardNav.OtherRolesSeeNothing | src/components/layouts/DashboardLayout.tsx:57-60 | a role that is neither admin nor attendant sees no entry |
| DashboardNav.HiddenMatchesGuard | src/components/layouts/DashboardLayout.tsx:53-54 | the entries hidden from an attendant are exactly the admin-only routes of the route guard |
| DiscountForm.ChangeAmount | src/components/sales/DiscountForm.tsx:27-30 | an amount edit switches to amount mode with the parsed amount, NaN read as 0, and leaves the percentage as it was |
| DiscountForm.ChangePercent | src/components/sales/DiscountForm.tsx:32-35 | a percentage edit switches to percent mode with the parsed percentage, NaN read as 0, and leaves the amount as it was |
| DiscountForm.ChangeTab | src/components/sales/DiscountForm.tsx:37-39 | a tab change alters the mode and nothing else |
| DiscountForm.AmountChangeApplied | src/components/sales/DiscountForm.tsx:23-30 | an amount the form flags valid is applied by the calculator exactly; one it flags invalid is capped at the subtotal |
| DiscountForm.PercentChangeApplied | src/components/sales/DiscountForm.tsx:24-35 | a non-negative percentage the form flags valid, on a non-negative subtotal, is applied as exactly that share of the subtotal |
| DiscountForm.TabRoundTrip | src/components/sales/DiscountForm.tsx:37-39 | switching tabs away and back restores the settings |
| DiscountSurchargeForm.ChangeDiscount | src/components/sales/DiscountSurchargeForm.tsx:27-32 | a discount between 0 and the subtotal replaces the stored discount; any other value is ignored; the surcharge never changes |
| DiscountSurchargeForm.ChangeSurcharge | src/components/sales/DiscountSurchargeForm.tsx:34-39 | a non-negative surcharge replaces the stored surcharge; a negative one is ignored; the discount never changes |
| DiscountSurchargeForm.UnparsableIsZero | src/components/sales/DiscountSurchargeForm.tsx:27-39 | input that is not a number becomes 0 and is forwarded, for both fields, whenever the subtotal is non-negative |
| DiscountSurchargeForm.ChangesKeepTotalNonNegative | src/components/sales/DiscountSurchargeForm.tsx:27-83 | both handlers keep the amounts within the form's own bounds, and amounts within those bounds show a total of at least the surcharge, so never negative |
| DiscountSurchargeForm.NegativeTotalNeedsRejectedAmount | src/components/sales/DiscountSurchargeForm.tsx:83 | the unclamped total is negative only when the amounts lie outside what the form would forward |
| DiscountSurchargeForm.DisplayedTotal | src/components/sales/DiscountSurchargeForm.tsx:83 | no contract of its own; the unclamped total line, which `ChangesKeepTotalNonNegative` and `NegativeTotalNeedsRejectedAmount` bound |
| InvoiceForm.OneOf | src/components/appointment/InvoiceForm.tsx:86-93 | a new line holds one unit of the service at its listed price, with a consistent subtotal |
| InvoiceForm.InitialLines | src/components/appointment/InvoiceForm.tsx:59-71 | one unit of the appointment's service at its price when that service is loaded, no lines otherwise, and every line consistent |
| InvoiceForm.AddLine | src/components/appointment/InvoiceForm.tsx:83-95 | no services changes nothing; otherwise the old lines are kept and one unit of the first service is appended |
| InvoiceForm.UpdateLine | src/components/appointment/InvoiceForm.tsx:97-109 | an unknown service changes nothing; otherwise only the chosen line changes, to that service at its price with the given quantity and a consistent subtotal |
| InvoiceForm.RemoveLine | src/components/appointment/InvoiceForm.tsx:111-113 | exactly the chosen position goes and the rest keep their order; an index outside the lines removes nothing |
| InvoiceForm.OperationsKeepConsistent | src/components/appointment/InvoiceForm.tsx:83-113 | adding, updating and removing lines all keep every stored subtotal equal to unit price times quantity |
| InvoiceForm.SubtotalRecomputes | src/components/appointment/InvoiceForm.tsx:115-116 | on consistent lines the invoice subtotal, summed from the stored column, equals the sum of unit price times quantity, and the total is that sum less the discount plus the surcharge |
| InvoiceForm.LineChangesSubtotal | src/components/appointment/InvoiceForm.tsx:97-115 | an update moves the subtotal by exactly the change in that line's subtotal, and a removal takes that line's subtotal out |
| InvoiceForm.Subtotal | src/components/appointment/InvoiceForm.tsx:115 | no contract of its own; the sum of the stored line subtotals, which `SubtotalRecomputes` and `LineChangesSubtotal` relate to the lines |
| InvoiceForm.Total | src/components/appointment/InvoiceForm.tsx:116 | no contract of its own; the unclamped invoice total, which `SubtotalRecomputes` equates with unit price times quantity summed, less discount, plus surcharge |
| RouteGuard.Guard | frontend/src/components/ProtectedRoute.tsx:29-87 | loading shows the spinner whatever else holds, and the spinner also shows exactly when a confirmed user's trial flag, subscription flag or profile is still missing; an unconfirmed user is signed out and sent to login; no user goes to login without sign-out; the dashboard redirect happens exactly for an attendant on an admin-only route once both flags are known; the expiry redirect happens exactly when both flags are false off the subscription page and the dashboard redirect does not apply |
| RouteGuard.LayoutIffChecksPass | frontend/src/components/ProtectedRoute.tsx:29-87 | the layout renders if and only if every check passes: not loading, a confirmed user, flags and profile loaded, no attendant on an admin-only route, and trial or subscription alive or the subscription page |
| RouteGuard.RoleBeforeExpiry | frontend/src/components/ProtectedRoute.tsx:68-80 | an attendant on an admin-only route goes to the dashboard even when the trial and subscription have lapsed |
| RouteGuard.DashboardRedirectWarns | frontend/src/components/ProtectedRoute.tsx:21-27 | every redirect to the dashboard comes with the "Acesso restrito" toast condition |
| LegacyRouteGuard.Guard | src/components/ProtectedRoute.tsx:10-40 | the spinner shows exactly while loading; the login redirect happens exactly when loading is over and there is no user; the expiry redirect happens exactly when a user is neither in trial nor subscribed off the subscription page; the dashboard redirect happens exactly for an attendant on an admin-only route who passed the expiry check |
| LegacyRouteGuard.LayoutIffChecksPass | src/components/ProtectedRoute.tsx:10-40 | the layout renders if and only if not loading, a user, trial or subscription or the subscription page, and no attendant on an admin-only route |
| LegacyRouteGuard.GuardsDisagreeOnExpiredAttendant | src/components/ProtectedRoute.tsx:24-33 | the guards order their last two checks differently: a lapsed attendant on the reports page goes to "/expired" here and to the dashboard in the newer guard |
| PlanLimitNotice.Row | src/components/subscription/PlanLimitNotice.tsx:20-30 | a row keeps its limit's key, label and value; it has a usage exactly when one is given for the key; it is flagged exactly when that usage has reached the limit, equality included; without usage it reads "Limite: N" |
| PlanLimitNotice.Notice | src/components/subscription/PlanLimitNotice.tsx:33-35 | the notice renders if and only if a profile exists on the free plan, and then lists the limit rows |
| PlanLimitNotice.RowsFollowLimits | src/components/subscription/PlanLimitNotice.tsx:19-31 | there are exactly four rows, one per free-plan limit in order, each with its key and limit, flagged exactly when its usage is given and has reached the limit |
| PlanLimitNotice.NoUsageNoFlags | src/components/subscription/PlanLimitNotice.tsx:22-46 | with no usage given no row is flagged and every row shows only its limit |
| PlanLimitNotice.Limits | src/components/subscription/PlanLimitNotice.tsx:19-31 | no contract of its own; the rows `RowsFollowLimits` and `NoUsageNoFlags` describe |
| ProductsPage.GetStockStatus | src/pages/Products.tsx:119-127 | out of stock if and only if stock is at most 0; low if and only if stock is positive and below the minimum; in stock if and only if stock is positive and at least the minimum, equality included |
| ProductsPage.LowStockProducts | src/pages/Products.tsx:129-132 | no contract of its own; the alert list, which `LowStockMatchesBadges` characterises |
| ProductsPage.LowStockMatchesBadges | src/pages/Products.tsx:129-132 | the low-stock alert list is exactly the products, in order, whose badge is not "Em estoque" |
| ProductsPage.StockThresholdsDiffer | backend/app/api/routes/dashboard.py:89 | the dashboard flags every product the page does not show in stock, and the two disagree exactly at a positive stock equal to the minimum |
| ProductsPage.SearchProducts | src/pages/Products.tsx:113-116 | every product listed is a loaded product whose name or category contains the term, ignoring case |
| ProductsPage.SearchSpec | src/pages/Products.tsx:113-116 | a product is listed if and only if its name or category contains the term ignoring case; an empty term lists every product |
| SaleCalculations.CalculatedDiscount | frontend/src/hooks/useSaleCalculations.ts:16-19 | the applied discount never exceeds the subtotal; it is the amount, or the percentage of the subtotal, whenever that fits under the subtotal, and the subtotal otherwise; no lower bound applies |
| SaleCalculations.Total | frontend/src/hooks/useSaleCalculations.ts:21-22 | the total is never negative, never below subtotal less discount plus surcharge, and equal to it whenever that is non-negative |
| SaleCalculations.ChangeDiscount | frontend/src/hooks/useSaleCalculations.ts:24-27 | new discount settings replace the old ones and leave the surcharge alone |
| SaleCalculations.ChangeSurcharge | frontend/src/hooks/useSaleCalculations.ts:29-32 | the stored surcharge is the input when non-negative and 0 otherwise, so never negative; the discount settings are untouched |
| SaleCalculations.ChangesKeepReachable | frontend/src/hooks/useSaleCalculations.ts:6-32 | the initial state and both handlers keep the stored surcharge non-negative |
| SaleCalculations.TotalCoversDiscountedSubtotal | frontend/src/hooks/useSaleCalculations.ts:17-22 | in every reachable state the zero floor never applies: the total is exactly subtotal less applied discount plus surcharge, and at least the discounted subtotal |
| SaleCalculations.InitialTotal | frontend/src/hooks/useSaleCalculations.ts:6-22 | before any change, a cart of non-negative prices and quantities totals exactly its subtotal |
| Pos.KindPresent | frontend/src/hooks/useSaleCalculations.ts:35-41 | filtering by a kind leaves lines if and only if some line has that kind |
| Pos.KindSubtotalsSplit | frontend/src/hooks/useSaleCalculations.ts:14-41 | when every line is a product or a service, the product and service subtotals add up to the subtotal |
| Pos.SubtotalNonNegative | frontend/src/hooks/useSaleCalculations.ts:14 | non-negative prices and quantities give a non-negative subtotal |
| Pos.KindSubtotalNonNegative | frontend/src/hooks/useSaleCalculations.ts:35-41 | non-negative prices and quantities give a non-negative subtotal for each kind |
| SaleDetails.TypeLabel | src/components/sales/SaleDetails.tsx:17-31 | "Produtos e Serviços" if and only if both kinds are present, "Produtos" if and only if only products, "Serviços" if and only if only services, "Itens" if and only if neither |
| SaleDetails.DetailTotals | src/components/sales/SaleDetails.tsx:38-52 | the products and services totals are the sums of the product and service lines and the subtotal is both together; the discount and surcharge are the sale's, read as 0 when missing, and 0 with no sale; a truthy stored total is shown as stored; otherwise the total is recomputed as subtotal less discount plus surcharge |
| SaleDetails.SeparateRowsIffMixedLabel | src/components/sales/SaleDetails.tsx:94-105 | the separate product and service rows appear if and only if the header reads "Produtos e Serviços" |
| SaleDetails.SubtotalCoversItems | src/components/sales/SaleDetails.tsx:38-52 | with every item typed, the subtotal is price times quantity over all items, and a stored total of 0 is recomputed rather than shown |
| SaleDiscountForm.ValidateDiscount | src/components/sales/SaleDiscountForm.tsx:42-45 | the result is 0 or lies between 0 and the subtotal; a non-zero result is the parsed number of a non-blank input; a parsed number between 0 and the subtotal is kept; blank, NaN, negative or too-large input gives 0 |
| SaleDiscountForm.ValidateSurcharge | src/components/sales/SaleDiscountForm.tsx:47-50 | the result is never negative; a non-zero result is the parsed number of a non-blank input; a non-negative parsed number is kept |
| SaleDiscountForm.TotalSubtotalIsSubtotal | src/components/sales/SaleDiscountForm.tsx:30-39 | when every line is a product or a service, the sum of the two kind subtotals is the cart subtotal |
| SaleDiscountForm.ForTab | src/components/sales/SaleDiscountForm.tsx:53-75 | in the total tab only the total field reaches the parent and the others are 0; in the separate tab the total field is 0 and the other two pass through |
| SaleDiscountForm.DisplayedTotal | src/components/sales/SaleDiscountForm.tsx:90-93 | the figure on screen is never negative and never below the final total |
| SaleDiscountForm.ShowSeparate | src/components/sales/SaleDiscountForm.tsx:95-97 | the separate tab is offered if and only if the cart holds a product and a service |
| SaleDiscountForm.FinalTotalMatchesEmitted | src/components/sales/SaleDiscountForm.tsx:53-93 | the final total is the subtotal less every discount the form emits plus every surcharge it emits, so form and parent agree, on either tab |
| SaleDiscountForm.FinalTotal | src/components/sales/SaleDiscountForm.tsx:90-93 | no contract of its own; `FinalTotalMatchesEmitted` and `DisplayedTotal` relate it to the amounts emitted and the figure shown |
| SaleDiscountForm.EmittedDiscount | src/components/sales/SaleDiscountForm.tsx:53-63 | no contract of its own; the validated discounts passed through `ForTab`, whose contract states which fields reach the parent |
| SaleDiscountForm.EmittedSurcharge | src/components/sales/SaleDiscountForm.tsx:65-75 | no contract of its own; the validated surcharges passed through `ForTab`, as for the discount |
| SaleDiscountForm.WarningsUnreachable | src/components/sales/SaleDiscountForm.tsx:82-93 | with non-negative prices and quantities no "Maior que o subtotal" warning can show, the final total is non-negative, and the on-screen floor never applies |
| SaleDiscountForm.WarningNeedsNegativeSubtotal | src/components/sales/SaleDiscountForm.tsx:82-88 | a warning can show only when some subtotal is negative |
| SalesPage.FilterSales | src/pages/Sales.tsx:136-141 | "all" keeps every sale in order; every sale shown is a loaded sale of the selected type or "all" is selected |
| SalesPage.FilterSalesSpec | src/pages/Sales.tsx:136-141 | a sale is shown if and only if it is loaded and "all" or its type is selected |
| SalesPage.SalesTotals | src/pages/Sales.tsx:143-150 | no contract of its own; the three cards over the shown sales, whose relation `CardsDoubleCountBoth` states |
| SalesPage.CardsDoubleCountBoth | src/pages/Sales.tsx:143-150 | with every sale of a known type, the services and products cards add up to the sales card plus the "both" sales once more, hence at least the sales card for non-negative values |
| SaleStats.SalesStats | src/hooks/useCalculateSaleStats.ts:15-45 | no contract of its own; the reference sums (all amounts, product sales, service sales) that `CalculateSalesStats` is proved to compute |
| SaleStats.CalculateSalesStats | src/hooks/useCalculateSaleStats.ts:15-45 | one pass over the sales yields the total of all amounts, NaN read as 0, the total of the product sales and the total of the service sales; mixed and other sales reach no bucket |
| SaleStats.StatsSnoc | src/hooks/useCalculateSaleStats.ts:23-41 | one more sale adds its amount to the total and to the bucket of its own type only |
| SaleStats.BucketsBelowTotal | src/hooks/useCalculateSaleStats.ts:23-41 | with non-negative totals the two buckets never exceed the overall total, and they reach it if and only if every sale of another type has total 0 |
| SaleStats.ProcessMixedSaleItems | src/hooks/useCalculateSaleStats.ts:48-75 | the overall total is untouched; each bucket grows by the items of its type over the mixed sales only; other sales and other item types add nothing |
| SaleStats.MixedItemsCloseGap | src/hooks/useCalculateSaleStats.ts:15-75 | when every sale is a product, service or mixed sale and each mixed sale's items add up to its total, processing the items after the first pass makes the two buckets add up to the overall total |
| SalesRoute.DeriveSaleType | backend/app/api/routes/sales.py:127-131 | mixed if and only if both kinds occur; product if and only if products occur without services; service if and only if no product line occurs |
| SalesRoute.StoreItem | backend/app/api/routes/sales.py:149-166 | a line of unknown kind is refused and no other line is; a stored line keeps its product id only when it is a product line and its service id only when it is a service line |
| SalesRoute.StoreItems | backend/app/api/routes/sales.py:148-171 | storing fails if and only if some line has an unknown kind; otherwise there is one stored line per payload line, in order |
| SalesRoute.TakeStock | backend/app/api/routes/sales.py:167-170 | taking stock keeps exactly the same set of products |
| SalesRoute.TakeStockSpec | backend/app/api/routes/sales.py:167-170 | each product ends with its stock minus the total quantity of all product lines naming it, repeated lines included and with no floor |
| SalesRoute.SoldCons | backend/app/api/routes/sales.py:167-170 | what the lines sell of a product is the first line's quantity, when it names that product, plus what the rest sell |
| SalesRoute.CreateSale | backend/app/api/routes/sales.py:95-175 | an empty cart is refused first, then an unknown product, then an unknown service, then an unknown line kind, each exactly when it occurs; a created sale has the derived type, the payload's client id, client name, payment method, notes and amounts unchanged, one stored line per payload line, and stock for the same products |
| SalesRoute.CreateSaleStock | backend/app/api/routes/sales.py:148-172 | after a created sale every owned product has lost exactly what the sale's product lines sold of it, and a sale with no product line leaves stock as it was |
| SalesRoute.TakeStockTotals | backend/app/api/routes/sales.py:167-170 | every product at once ends at its stock minus what was sold of it, and with no product line the stock is unchanged |
| SalesRoute.DeleteSale | backend/app/api/routes/sales.py:178-189 | 404 if and only if the user owns no sale with that id; otherwise exactly the matching rows go and every other row stays |
| SalesRoute.DetailItems | backend/app/api/routes/sales.py:42-59 | one detail line per stored line, in order, with its type and total |
| SalesRoute.CreatedDetail | backend/app/api/routes/sales.py:42-175 | a created sale's detail lists the payload's lines in order, each typed as it was sent and with its total |
| SingleTypeCart.AddItem | src/components/SaleForm.tsx:107-146 | once the cart holds lines an item of another kind is refused with the existing kind; an item already present gains one unit, a new one is appended with quantity 1 |
| SingleTypeCart.UpdateQuantity | src/components/SaleForm.tsx:152-158 | a quantity below 1 leaves the cart unchanged; otherwise only the indexed line takes the new quantity |
| SingleTypeCart.ChangesKeepSingleType | src/components/SaleForm.tsx:107-158 | adding, updating and removing keep every line of the first line's kind and one line per item |
| SingleTypeCart.AddKeepsSingleType | src/components/SaleForm.tsx:108-145 | a successful add keeps the cart to one kind and one line per item |
| SingleTypeCart.UpdateKeepsSingleType | src/components/SaleForm.tsx:152-158 | a quantity change keeps the cart to one kind and one line per item |
| SingleTypeCart.RemoveKeepsSingleType | src/components/SaleForm.tsx:148-150 | a removal keeps the cart to one kind and one line per item |
| SingleTypeCart.SaveItem | src/components/SaleForm.tsx:195-201 | a stored item keeps price and quantity and carries the line's id in the product column for a product and in the service column for a service |
| SingleTypeCart.StockWrites | src/components/SaleForm.tsx:209-222 | at most one write per line, every write names a product of the cart and no written stock is negative |
| SingleTypeCart.StockWritesSpec | src/components/SaleForm.tsx:211-220 | a write is made exactly when some line's product is loaded, and it sets that product's stock to its stock less the line's quantity, floored at zero |
| SingleTypeCart.StockWritesDistinct | src/components/SaleForm.tsx:209-222 | in a cart with one line per product no product's stock is written twice |
| SingleTypeCart.SaveSale | src/components/SaleForm.tsx:160-222 | an empty cart and a discount above the subtotal are refused; a saved sale takes the first line's type, the subtotal, the discount, the surcharge and the unclamped total, no client for the no-client choice, and one stored item per line; a product sale makes exactly the stock writes `StockWrites` lists, and any other sale none |
| SingleTypeCart.SavedTotalCoversSurcharge | src/components/SaleForm.tsx:166-169 | because the discount was checked against the subtotal, a saved total is never below the surcharge |
| SingleTypeCart.TotalAmount | src/components/SaleForm.tsx:105 | no contract of its own; the unclamped total the cart saves, which `SavedTotalCoversSurcharge` bounds below by the surcharge |
| SingleTypeCart.SingleTypeColumns | src/components/SaleForm.tsx:195-201 | in a single-kind cart every stored item of a product sale fills only the product column, and of a service sale only the service column |
| StripeWebhook.ResolveCustomerId | supabase/functions/stripe-webhook/index.ts:40-45 | no customer or an empty id string gives none, an id string is itself, a deleted customer gives none, and any other customer object gives its own id |
| StripeWebhook.PlanFor | supabase/functions/stripe-webhook/index.ts:78 | the paid plan exactly for the statuses active, trialing, past_due and unpaid; the free plan for every other status |
| StripeWebhook.Amount | supabase/functions/stripe-webhook/index.ts:69 | an amount is stored exactly when the unit amount is present and non-zero, and it is that many cents in currency units |
| StripeWebhook.PlanStartedAt | supabase/functions/stripe-webhook/index.ts:86-99 | the free plan clears the start date; the paid plan keeps an existing paid start date and otherwise starts at the current period |
| StripeWebhook.UpsertSubscription | supabase/functions/stripe-webhook/index.ts:57-104 | the subscription row is written for the given user with its id, status, amount and resolved customer, and the profile takes the plan of the status, its start date and the same customer |
| StripeWebhook.RepeatedProKeepsStart | supabase/functions/stripe-webhook/index.ts:86-93 | a second paid-plan update keeps the start date the first one set, whatever period it reports; a move to the free plan leaves no start date |
| StripeWebhook.FindUserIdByCustomer | supabase/functions/stripe-webhook/index.ts:47-55 | a user is found only for a non-empty customer id, and it is the profile that owns that id, so an empty id finds no one; a non-empty customer id that some profile owns always finds that profile |
| StripeWebhook.UserFor | supabase/functions/stripe-webhook/index.ts:131-133 | a user id in the metadata wins, even an empty one; only a missing one falls back to the owner of the subscription's customer |
| StripeWebhook.HandleEvent | supabase/functions/stripe-webhook/index.ts:106-168 | a bad signature is answered 400 with no write; a checkout whose subscription cannot be retrieved is answered 500 with no write, and every other verified event 200; events other than the three subscription events and a completed checkout write nothing; at most one write, and never an upsert for an empty user id |
| StripeWebhook.SubscriptionEventWrites | supabase/functions/stripe-webhook/index.ts:126-137 | a subscription event writes if and only if a non-empty user is found, and then it upserts for that user with the plan of the subscription's status |
| StripeWebhook.CheckoutWrites | supabase/functions/stripe-webhook/index.ts:139-158 | a completed checkout whose subscription is retrieved writes if and only if a non-empty user is found for it, and then upserts for that user with the plan of the subscription's status; a checkout without a subscription links the resolved customer to the metadata user exactly when the session has a customer and a non-empty metadata user, and writes nothing otherwise |
| StripeWebhook.EmptyMetadataUserBlocksLookup | supabase/functions/stripe-webhook/index.ts:131-136 | a subscription whose metadata user id is empty writes nothing, even when its customer belongs to a profile |
| SupabaseError.Trimmed | src/utils/supabaseError.ts:19-20 | a field counts as present exactly when it is there and not blank after trimming JavaScript whitespace, and then it is the trimmed text |
| SupabaseError.BuildSupabaseToast | src/utils/supabaseError.ts:13-48 | the plan-limit error (its code, or a message mentioning the limit in any case) gets the plan-limit title with the message, else the hint, else the fallback text; any other error with a non-blank message keeps the fallback title with that message; everything else is the fallback |
| SupabaseError.ErrorBranchUnreachable | src/utils/supabaseError.ts:17-45 | whether the thrown value is an `Error` instance never changes the result: the later branch only sees errors the object branch already answered or that have a blank message |
| SupabaseError.HintOnlyForPlanLimit | src/utils/supabaseError.ts:22-37 | outside the plan-limit case, changing the hint never changes the result |
| SupabaseError.TitleIsPlanLimitOrFallback | src/utils/supabaseError.ts:26-47 | every result carries either the plan-limit title or the caller's fallback title |
| Reporting.Truncate | backend/app/services/reporting.py:194 | the integer Python's `int` gives for a float: the largest integer not above a non-negative value, the smallest not below a negative one |
| Reporting.AllItems | backend/app/services/reporting.py:104-106 | the line list is empty exactly when no sale has a line, which is the test that picks line-based or sale-based attribution |
| Reporting.Attribute | backend/app/services/reporting.py:99-121 | with line data the service bucket is exactly the total of the service lines and the product bucket that of the product lines, and each line is counted in its own bucket; without it each bucket is the total of the sales of its own type plus half of every mixed sale, and nothing is counted |
| Reporting.AttributeOneMoreSale | backend/app/services/reporting.py:113-121 | without line data one more sale moves its whole total to its own bucket, or half to each when it is mixed |
| Reporting.ComputeRevenue | backend/app/services/reporting.py:74-143 | counts the sales and completed appointments; appointment revenue is the prices of those with a service; total revenue adds the sales' totals; with no sales the buckets are zero and the chart has one point per appointment in order, priced 0 without a service; with sales each bucket is its own lines' total when there are lines, and otherwise its own sales' total plus half of every mixed sale |
| Reporting.AppointmentsRevenueOfServiced | backend/app/services/reporting.py:78 | summing the price, or 0, over all appointments equals summing over the appointments that have a service |
| Reporting.RevenueChart | backend/app/services/reporting.py:123-131 | with sales the chart has one point per day with a sale or a serviced appointment, days strictly ascending, each carrying that day's sales and service prices, and the points add up to the total revenue |
| Reporting.DayAmount | backend/app/services/reporting.py:124-129 | the amount gathered under a day is that day's sale totals plus the prices of that day's serviced appointments |
| Reporting.ServiceLineEvents | backend/app/services/reporting.py:165-173 | only lines with a service id and a loaded service count, each with its quantity and price times quantity |
| Reporting.ServiceVisitEvents | backend/app/services/reporting.py:175-183 | only appointments with a service id and a loaded service count, each with one unit and the service's price |
| Reporting.ProductLineEvents | backend/app/services/reporting.py:214-222 | only lines with a product id and a loaded product count, each with its quantity and price times quantity |
| Reporting.Rank | backend/app/services/reporting.py:185-194 | no contract of its own; the shared ranking of both item reports, whose rows, order, item total and counts `RankOrdered`, `RankRows`, `RankDominates` and `RankComplete` state |
| Reporting.RankOrdered | backend/app/services/reporting.py:185-194 | a ranking lists at most ten ids, each once, by non-increasing revenue; its `totalItems` is the summed quantity of the listed rows and its sales count that total truncated |
| Reporting.RankRows | backend/app/services/reporting.py:168-173 | each listed row carries the name of its id's first contribution and the summed revenue and quantity of all that id's contributions |
| Reporting.RankDominates | backend/app/services/reporting.py:185 | an id left out of the ranking earned no more than any listed one |
| Reporting.RankComplete | backend/app/services/reporting.py:185-186 | with at most ten ids every id is listed and the revenue total is the revenue of every contribution |
| Reporting.ServicesTotal | backend/app/services/reporting.py:146-195 | with at most ten services the services total is the value of every resolved service line plus the price of every completed appointment with a resolved service |
| Reporting.ProductsTotal | backend/app/services/reporting.py:198-234 | with at most ten products the products total is the value of every resolved product line |
| Reporting.ComputeServices | backend/app/services/reporting.py:146-195 | no contract of its own; the services ranking over the period's service lines and completed appointments, whose total `ServicesTotal` states |
| Reporting.ComputeProducts | backend/app/services/reporting.py:198-234 | no contract of its own; the products ranking over the period's product lines, whose total `ProductsTotal` states |
| Reporting.ClientSaleEvents | backend/app/services/reporting.py:261-269 | sales without a resolved client are skipped; the others each add one visit and their total |
| Reporting.ClientVisitEvents | backend/app/services/reporting.py:271-281 | appointments whose pet has no client are skipped; the others each add one visit and, when completed with a service, its price |
| Reporting.ClientsTotals | backend/app/services/reporting.py:283-293 | the totals cover every client, not only the listed ten: one client per distinct id, one visit per sale or appointment with a client, and all the money they brought |
| Reporting.ClientsRanked | backend/app/services/reporting.py:283 | at most ten clients are listed, each once, by non-increasing spending |
| Reporting.ClientsRows | backend/app/services/reporting.py:264-281 | each listed client carries its own number of visits and its own spending |
| Reporting.ClientsDominate | backend/app/services/reporting.py:283 | a client left out of the list spent no more than any listed client |
| Reporting.ComputeClients | backend/app/services/reporting.py:237-293 | no contract of its own; the clients report `ClientsTotals`, `ClientsRanked`, `ClientsRows` and `ClientsDominate` describe: the ten best clients by spending and totals over every client |
| Reporting.ComputeAppointments | backend/app/services/reporting.py:296-339 | counts every appointment; revenue is the prices of those completed with a service; no appointments give no status breakdown, an empty chart and zero revenue |
| Reporting.AppointmentsChart | backend/app/services/reporting.py:313-328 | one point per date with appointments, dates strictly ascending, each counting that date's appointments, the counts adding up to the number of appointments |
| Reporting.StatusLabel | backend/app/services/reporting.py:320-326 | no contract of its own; the FastAPI status labels, which `StatusLabelsDistinct` shows are distinct and known, with an unknown status shown as it is |
| Reporting.StatusLabelsDistinct | backend/app/services/reporting.py:320-326 | every status gets one of the known labels, and two statuses share a label only when they are the same status |
| Reporting.AppointmentStatusSlices | backend/app/services/reporting.py:313-332 | the slices come one per status in the order the statuses first occur, each labelled with its status's label and counting exactly the appointments with that status |
| Reporting.StatusSliceOrder | backend/app/services/reporting.py:313-331 | the slice labels follow the statuses' first occurrences, one slice per status that occurs |
| Reporting.AppointmentStatusTotals | backend/app/services/reporting.py:313-332 | no two slices share a label, and the slices count every appointment exactly once |
| Reporting.GenerateReport | backend/app/services/reporting.py:33-45 | each of the five tags answers with its own report computed over the loaded rows that report reads, and any other tag fails with the invalid-type message |
| EdgeReports.EdgeRevenue | supabase/functions/generate-report/index.ts:133-272 | counts the sales and completed appointments; appointment revenue is the prices of those with a service; total revenue adds the sales' totals; with no sales the buckets are zero and the chart is empty; with sales each bucket is its own lines' total when there are lines, and otherwise its own sales' total plus half of every mixed sale, and the line counts cover every line |
| EdgeReports.EdgeRevenueChart | supabase/functions/generate-report/index.ts:226-259 | with sales the chart lists each day of a dated sale or appointment once, in the order the days first occur and unsorted, each with that day's revenue, and the points add up to the revenue of the dated records |
| EdgeReports.StampAmount | supabase/functions/generate-report/index.ts:227-254 | the amount gathered under a day is the totals of that day's dated sales plus the prices of that day's dated appointments |
| EdgeReports.EdgeChartCoversRevenue | supabase/functions/generate-report/index.ts:187-259 | when every record is dated the chart adds up to the total revenue |
| EdgeReports.RowStatus | supabase/functions/generate-report/index.ts:559 | a missing or empty status counts as pending; any other status is itself |
| EdgeReports.EdgeAppointments | supabase/functions/generate-report/index.ts:504-586 | counts every appointment; revenue is the prices of the completed ones, 0 without a service; no appointments give no status breakdown, an empty chart and zero revenue |
| EdgeReports.EdgeAppointmentsChart | supabase/functions/generate-report/index.ts:537-554 | one point per day of a dated appointment, in the order the days first occur, each counting that day's dated appointments, the counts adding up to the number of dated appointments |
| EdgeReports.EdgeStatusBreakdown | supabase/functions/generate-report/index.ts:556-578 | one slice per status value in the order the values first occur, each labelled through the label map and counting the appointments with that value; the slices count every appointment once |
| EdgeReports.EdgeStatusLabel | supabase/functions/generate-report/index.ts:567-576 | no contract of its own; the edge labels, which `EdgeStatusLabels` and `StatusLabelsDiverge` describe |
| EdgeReports.EdgeStatusLabels | supabase/functions/generate-report/index.ts:567-576 | the five known statuses get five distinct labels and any other value is shown as it is |
| EdgeReports.StatusLabelsDiverge | supabase/functions/generate-report/index.ts:567-573 | the edge function labels a status as the FastAPI engine does except completed and no_show, which it writes with accents |
| EdgeReports.HandleRequest | supabase/functions/generate-report/index.ts:44-122 | a body that is not JSON, a missing user, a missing date and an unknown report type are refused with 400 and their own messages, checked in that order; a JSON null body fails with 500 on reading its user id; a missing type means revenue; otherwise the named report, computed over the rows it reads, is answered with 200 |
| EdgeReports.RevenueEnginesAgree | supabase/functions/generate-report/index.ts:160-271 | on the same rows the two revenue reports agree on every total and count; without sales the edge chart is empty while the FastAPI chart has one point per completed appointment |
| EdgeReports.RevenueTotalsAgree | supabase/functions/generate-report/index.ts:160-187 | on the same rows, with or without sales, the two revenue reports give the same total, appointment revenue, sale count and appointment count |
| EdgeReports.RevenueSplitAgree | supabase/functions/generate-report/index.ts:199-224 | with sales both engines split revenue between services and products identically and count the same lines |
| EdgeReports.StampedAttribution | supabase/functions/generate-report/index.ts:199-224 | the split between services and products reads no dates |
| EdgeReports.ServicesEnginesAgree | supabase/functions/generate-report/index.ts:307-356 | on the same rows the two services reports list the same rows with the same revenue and item totals, and the FastAPI count is the edge function's item total truncated |
| EdgeReports.EdgeRank | supabase/functions/generate-report/index.ts:343-349 | no contract of its own; the edge ranking keeps the same ten best rows as `Reporting.Rank` and sends their untruncated quantity total where FastAPI sends the truncated count |
| EdgeReports.EdgeServices | supabase/functions/generate-report/index.ts:274-357 | no contract of its own; `ServicesEnginesAgree` proves it lists the same rows and revenue as the FastAPI services report |
| EdgeReports.EdgeProducts | supabase/functions/generate-report/index.ts:359-407 | no contract of its own; the products query and loop are those of the FastAPI products report (backend/app/services/reporting.py:198-234), so it is the same ranking as `Reporting.ComputeProducts`, with the untruncated quantity total as its sales count |
| Seqs.Find | src/components/sales/SaleForm.tsx:193 | `Array.find`: the element found passes the test and no earlier element does; none is found exactly when no element passes it |
| Grouping.GroupBy | backend/app/services/reporting.py:163-183 | no contract of its own; the `setdefault` accumulation, whose keys, contents and totals `GroupByKeys`, `GroupByContents` and `GroupByTotals` state |
| Grouping.GroupByKeys | backend/app/services/reporting.py:163-183 | the groups a `setdefault` loop builds come one per key, in the order the keys first appear |
| Grouping.GroupByContents | backend/app/services/reporting.py:168-173 | every group holds the name of its key's first event and the count, amount and quantity of all its key's events |
| Grouping.GroupByTotals | backend/app/services/reporting.py:284-286 | grouping loses nothing: the groups' amounts, quantities and counts add up to those of all events |
| Ranking.SortDesc | backend/app/services/reporting.py:185 | the sorted list is a permutation of its input with scores never increasing, and it is stable: for every score, the elements with that score appear in the same order as in the input |
| Ranking.SortKeepsTies | backend/app/services/reporting.py:185 | stability pointwise: of two input elements with equal scores, the earlier one occurs before the later one in the sorted list |
| Ranking.TopSpec | backend/app/services/reporting.py:185 | the top list has at most the requested length, is ordered, is drawn from the input, keeps everything when the input is short, and nothing left out scores higher than anything kept; on an input without repeats, when the cut at the requested length splits a tie, it keeps the elements that came first in the input |
| Ranking.TopKeepsEarlierTie | supabase/functions/generate-report/index.ts:343-345 | the same tie rule for one pair: on an input without repeats, if the later of two equal-scoring elements is in the top list, so is the earlier one |
| Text.LowerChar | src/pages/Clients.tsx:144 | `toLowerCase` on one character: an upper-case ASCII or Latin-1 letter becomes the lower-case letter 32 code points on, which is no longer upper case, and every other character is kept |
| Text.IgnoringCaseMatches | src/pages/Clients.tsx:143-144 | lower-casing is idempotent, every text matches its own lower-case form, and texts equal up to case (such as "JOÃO" and "joão") match each other both ways |
| Text.ContainsIffOccurs | src/utils/supabaseError.ts:24 | `includes` holds exactly when the needle occurs at some offset of the text |
| Text.Trim | src/utils/supabaseError.ts:19 | trimming removes only surrounding whitespace, JavaScript's set of it: the result is one contiguous block of the text with only whitespace before and after it, empty exactly for an all-blank text and otherwise starting and ending with a non-blank character |

## Where the code and its description part

The model follows the code in each of these places.

- The sales statistics hook leaves mixed sales out of both buckets. So the buckets add up to the total exactly when the mixed sales total 0, not exactly when there are no mixed sales (`SaleStats.MixedItemsCloseGap`).
- The "greater than the subtotal" warnings of `SaleDiscountForm` can never show while both subtotals are non-negative. With a negative subtotal, the validated discount 0 already exceeds it (`SaleDiscountForm.WarningNeedsNegativeSubtotal`).
- Stock equal to the minimum:
  - The products page shows it as in stock.
  - The dashboard query flags it as low (`ProductsPage.StockThresholdsDiffer`).
- The webhook takes a subscription's user from its metadata with `??`. An empty metadata user id is therefore kept, and the event writes nothing (`StripeWebhook.EmptyMetadataUserBlocksLookup`).
- The two route guards order their checks differently. An attendant on an admin-only page with an expired trial is sent to `/dashboard` by one guard and to `/expired` by the other (`LegacyRouteGuard.GuardsDisagreeOnExpiredAttendant`).
- The `instanceof Error` branch of the toast builder never decides a result (`SupabaseError.ErrorBranchUnreachable`).
- `SaleDetails` treats a stored total of 0 as missing and recomputes it.
- The two report engines differ in three places:
  - The edge function's revenue chart is in first-appearance order. It includes the days of completed appointments without a service.
  - With no sales, the edge chart is empty. The FastAPI chart instead has one point per completed appointment.
  - The edge function writes the completed and no-show labels with accents. Its `servicesSalesCount` and `productsSalesCount` are the untruncated item totals, where Python applies `int()`.
- The edge function cannot load as written:
  - Its clients report uses `await` inside a `forEach` callback that is not `async` (generate-report/index.ts:476). That is a syntax error when the module is parsed, so the function answers no request at all, whatever the report type.
  - Even with that repaired, the clients report's appointments query (generate-report/index.ts:427) never selects `service`. The completed-appointment branch would then never run, and appointments would add nothing to a client's spending.
  - The edge dispatcher is therefore modelled as the code evidently intends it, with the FastAPI clients aggregation (`Reporting.ComputeClients`).

## Left out

- Database and network I/O are inputs:
  - Every loader and query result is passed in as a sequence or a map. This covers the report loaders, product and service ownership lookups, profiles, and customer ids.
  - Date-range and user filtering happen in the database and are not modelled.
  - A failed query, which the source turns into a 500, is not modelled.
- The clock and fresh ids are parameters. This covers `Date.now()` ids, `new Date()` timestamps and the period start of a subscription.
- The OPTIONS preflight of both edge functions returns only CORS headers and is not modelled.
- The mock export of the report function (generate-report/index.ts:104-117) is not modelled. It needs `btoa` and the clock.
- Floating point is modelled as exact `real`. Rounding, `toFixed`, number formatting, and `parseFloat`/`parseInt` are not modelled; parsing is an `Option<real>` input.
- `PlanLimitNotice.Row`: the text of a row ("Limite: N", "current/limit") is not modelled. Only its numbers and flags are.
- Identifiers are `nat` or `string`. UUIDs are therefore always present when given. Python's UUID truthiness, and JavaScript's ordering of integer-like object keys (which UUID keys never are), are not modelled.
- Sale item ids in `create_sale` are generated by the database and are not modelled.
- `SingleTypeCart`: the picker's search filter is not modelled, because it is display only.
- `Cart.SetQuantity`, `SaleCart.UpdateQuantity` and `SingleTypeCart.UpdateQuantity` require an index inside the cart. In the source, an index past the end throws a TypeError, and the screen only passes indices of rendered lines.
- `InvoiceForm.UpdateLine` requires an index inside the lines. In JavaScript, an assignment past the end would leave holes in the array, and the screen only passes indices of rendered lines.
- `SalesRoute.TakeStock` requires every product line to name a stocked product. `create_sale` has already refused unknown products with a 400 before stock is touched.
- `RouteGuard.Guard`: a missing profile after loading is modelled as the spinner. In the source, reading the role of an undefined profile would throw.
- `Reporting.ServicesTotal`, `Reporting.ProductsTotal` and `Reporting.RankComplete` state the all-contributions total only when at most ten ids occur. Past ten, the totals cover the listed rows only, as `Reporting.RankRows` states.
- `SingleTypeCart.StockWrites`: its own contract gives only bounds and membership. The stock value of each write is stated by `SingleTypeCart.StockWritesSpec`.
- `EdgeReports.HandleRequest` models the edge function as intended, not as written. As written, the module does not parse (the `await` at generate-report/index.ts:476), so no request is answered. Its clients report is `Reporting.ComputeClients`, where the as-written query (generate-report/index.ts:427) would leave appointment spending at 0.
- `Text.LowerChar` folds ASCII and Latin-1 capitals only. Other Unicode case mappings (Latin Extended, Greek, Cyrillic, and special cases such as the dotted capital I) are not modelled. The three searches below inherit this.
- `ClientsPage.FilterClients` and `ClientsPage.FilterClientsSpec` ignore case only for ASCII and Latin-1 letters.
- `AppointmentForm.FilteredClients` and `AppointmentForm.FilteredClientsSpec` ignore case only for ASCII and Latin-1 letters.
- `ProductsPage.SearchProducts` and `ProductsPage.SearchSpec` ignore case only for ASCII and Latin-1 letters.
- `StripeWebhook.FindUserIdByCustomer`: a customer id held by several profiles is not modelled, because the owners are a map. In the source, `maybeSingle()` then fails, `data` is null, and no user is found.
- Concurrency and the async plumbing of the routes are not modelled. Each handler is one atomic step.
