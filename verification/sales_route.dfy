/** The sale routes of the FastAPI back end (backend/app/api/routes/sales.py):
    creating a sale from a cart payload (validation, sale-type derivation,
    storage of the lines, stock decrement) and deleting one. The catalogue
    lookups are inputs: the stock of each product the current user owns,
    and the ids of the services the user owns. */
module SalesRoute {
  import opened Wrappers
  import opened Seqs
  import opened ReportData

  /** One line of the payload; `kind` is the free string the client sends. */
  datatype ItemInput = ItemInput(
    kind: string, productId: Option<nat>, serviceId: Option<nat>,
    name: string, price: real, quantity: real, total: real, discount: real, surcharge: real)

  /** The payload of `POST /sales/`. */
  datatype SaleInput = SaleInput(
    clientId: Option<nat>, clientName: Option<string>, items: seq<ItemInput>,
    subtotal: real, discount: real, surcharge: real, total: real,
    paymentMethod: Option<string>, notes: Option<string>)

  /** A stored sale line. */
  datatype StoredItem = StoredItem(
    itemType: ItemType, productId: Option<nat>, serviceId: Option<nat>,
    name: string, price: real, quantity: real, total: real, discount: real, surcharge: real)

  /** A stored sale. */
  datatype StoredSale = StoredSale(
    clientId: Option<nat>, clientName: Option<string>,
    subtotal: real, discount: real, surcharge: real, total: real,
    saleType: SaleType, paymentMethod: Option<string>, notes: Option<string>, items: seq<StoredItem>)

  /** A created sale together with the stock of the user's products after it. */
  datatype Created = Created(sale: StoredSale, stock: map<nat, real>)

  /** Why a sale is refused. */
  datatype SaleError =
    | NoItems          // 400 "Adicione pelo menos um item"
    | InvalidProduct   // 400 "Produto inválido nos itens"
    | InvalidService   // 400 "Serviço inválido nos itens"
    | UnknownItemType  // `SaleItemType(item.type)` raises: 500
    | SaleNotFound     // 404 "Venda não encontrada"

  function StatusOf(e: SaleError): nat
  {
    match e
    case NoItems => 400
    case InvalidProduct => 400
    case InvalidService => 400
    case UnknownItemType => 500
    case SaleNotFound => 404
  }

  predicate IsProductLine(i: ItemInput) { i.kind == "product" }
  predicate IsServiceLine(i: ItemInput) { i.kind == "service" }

  /** A product line naming a product the user does not own. */
  predicate UnknownProduct(i: ItemInput, stock: map<nat, real>)
  {
    IsProductLine(i) && i.productId.Some? && i.productId.value !in stock
  }

  /** A service line naming a service the user does not own. */
  predicate UnknownService(i: ItemInput, services: set<nat>)
  {
    IsServiceLine(i) && i.serviceId.Some? && i.serviceId.value !in services
  }

  predicate HasKind(items: seq<ItemInput>, kind: string)
  {
    exists i :: 0 <= i < |items| && items[i].kind == kind
  }

  /** The sale type: mixed when both kinds occur, product when only
      products do, and service otherwise. */
  function DeriveSaleType(items: seq<ItemInput>): (t: SaleType)
    ensures t == MixedSale <==> HasKind(items, "product") && HasKind(items, "service")
    ensures t == ProductSale <==> HasKind(items, "product") && !HasKind(items, "service")
    ensures t == ServiceSale <==> !HasKind(items, "product")
  {
    var hasProducts := HasKind(items, "product");
    var hasServices := HasKind(items, "service");
    if hasProducts && hasServices then MixedSale
    else if hasProducts then ProductSale
    else ServiceSale
  }

  /** A payload line as stored: the product id is kept only on a product
      line and the service id only on a service line. */
  function StoreItem(i: ItemInput): (r: Result<StoredItem, SaleError>)
    ensures r.Err? <==> !IsProductLine(i) && !IsServiceLine(i)
    ensures r.Ok? ==> r.value.productId == (if IsProductLine(i) then i.productId else None)
    ensures r.Ok? ==> r.value.serviceId == (if IsServiceLine(i) then i.serviceId else None)
    ensures r.Ok? ==> (r.value.itemType == ProductItem <==> IsProductLine(i))
  {
    if IsProductLine(i) then
      Ok(StoredItem(ProductItem, i.productId, None, i.name, i.price, i.quantity, i.total, i.discount, i.surcharge))
    else if IsServiceLine(i) then
      Ok(StoredItem(ServiceItem, None, i.serviceId, i.name, i.price, i.quantity, i.total, i.discount, i.surcharge))
    else Err(UnknownItemType)
  }

  /** Stores the lines in order; the first line of an unknown kind aborts. */
  function StoreItems(items: seq<ItemInput>): (r: Result<seq<StoredItem>, SaleError>)
    ensures r.Err? <==> exists i :: 0 <= i < |items| && StoreItem(items[i]).Err?
    ensures r.Err? ==> r.error == UnknownItemType
    ensures r.Ok? ==> |r.value| == |items|
    ensures r.Ok? ==> forall i :: 0 <= i < |items| ==> Ok(r.value[i]) == StoreItem(items[i])
  {
    if |items| == 0 then Ok([])
    else
      match StoreItem(items[0])
      case Err(e) => Err(e)
      case Ok(head) =>
        match StoreItems(items[1..])
        case Err(e) =>
          var i :| 0 <= i < |items[1..]| && StoreItem(items[1..][i]).Err?;
          assert StoreItem(items[i + 1]).Err?;
          Err(e)
        case Ok(rest) =>
          assert forall i :: 1 <= i < |items| ==> items[i] == items[1..][i - 1];
          Ok([head] + rest)
  }

  /** The lines that take stock from product `pid`. */
  function SellsProduct(pid: nat): ItemInput -> bool
  {
    (i: ItemInput) => IsProductLine(i) && i.productId == Some(pid)
  }

  function LineQuantity(i: ItemInput): real { i.quantity }

  /** How much of product `pid` the lines sell, repeated lines included. */
  function Sold(items: seq<ItemInput>, pid: nat): real
  {
    SumOf(Filter(items, SellsProduct(pid)), LineQuantity)
  }

  /** Every product line names a product whose stock is known. */
  predicate ProductsKnown(items: seq<ItemInput>, stock: map<nat, real>)
  {
    forall i :: 0 <= i < |items| ==> !UnknownProduct(items[i], stock)
  }

  /** Lowers, line by line, the stock of the product each product line
      names by the line's quantity. There is no floor: stock can go
      negative. */
  function TakeStock(stock: map<nat, real>, items: seq<ItemInput>): (r: map<nat, real>)
    requires ProductsKnown(items, stock)
    ensures r.Keys == stock.Keys
  {
    if |items| == 0 then stock
    else
      var i := items[0];
      var next := if IsProductLine(i) && i.productId.Some? then stock[i.productId.value := stock[i.productId.value] - i.quantity] else stock;
      TakeStock(next, items[1..])
  }

  /** Each product ends with its stock minus everything the lines sold of
      it, whatever the order or repetition of the lines. */
  lemma {:induction false} TakeStockSpec(stock: map<nat, real>, items: seq<ItemInput>, pid: nat)
    requires ProductsKnown(items, stock)
    requires pid in stock
    ensures TakeStock(stock, items)[pid] == stock[pid] - Sold(items, pid)
  {
    if |items| > 0 {
      var i := items[0];
      var next := if IsProductLine(i) && i.productId.Some? then stock[i.productId.value := stock[i.productId.value] - i.quantity] else stock;
      TailKnown(items, stock, next);
      TakeStockSpec(next, items[1..], pid);
      SoldCons(items, pid);
    }
  }

  /** Taking the first line's quantity keeps every later line's product known. */
  lemma {:induction false} TailKnown(items: seq<ItemInput>, stock: map<nat, real>, next: map<nat, real>)
    requires |items| > 0 && ProductsKnown(items, stock)
    requires next.Keys == stock.Keys
    ensures ProductsKnown(items[1..], next)
  {
    forall j | 0 <= j < |items[1..]| ensures !UnknownProduct(items[1..][j], next) {
      assert items[1..][j] == items[j + 1];
    }
  }

  /** What the lines sell of a product: the first line's share plus the rest's. */
  lemma {:induction false} SoldCons(items: seq<ItemInput>, pid: nat)
    requires |items| > 0
    ensures Sold(items, pid) == (if SellsProduct(pid)(items[0]) then items[0].quantity else 0.0) + Sold(items[1..], pid)
  {
    var head := if SellsProduct(pid)(items[0]) then [items[0]] else [];
    assert Filter(items, SellsProduct(pid)) == head + Filter(items[1..], SellsProduct(pid));
    SumOfAppend(head, Filter(items[1..], SellsProduct(pid)), LineQuantity);
  }

  /** `create_sale`: refuses an empty cart, then a line naming a product
      the user does not own, then one naming a service the user does not
      own, then a line of an unknown kind; otherwise stores the sale with
      the payload's amounts as sent (nothing is recomputed) and takes the
      sold quantities from stock. */
  function CreateSale(p: SaleInput, stock: map<nat, real>, services: set<nat>): (r: Result<Created, SaleError>)
    ensures r == Err(NoItems) <==> |p.items| == 0
    ensures |p.items| > 0 ==>
      (r == Err(InvalidProduct) <==> exists i :: 0 <= i < |p.items| && UnknownProduct(p.items[i], stock))
    ensures |p.items| > 0 && ProductsKnown(p.items, stock) ==>
      (r == Err(InvalidService) <==> exists i :: 0 <= i < |p.items| && UnknownService(p.items[i], services))
    ensures r == Err(UnknownItemType) <==>
      |p.items| > 0 && ProductsKnown(p.items, stock) &&
      (forall i :: 0 <= i < |p.items| ==> !UnknownService(p.items[i], services)) &&
      exists i :: 0 <= i < |p.items| && !IsProductLine(p.items[i]) && !IsServiceLine(p.items[i])
    ensures r.Ok? ==> r.value.sale.saleType == DeriveSaleType(p.items)
    ensures r.Ok? ==> |r.value.sale.items| == |p.items|
    ensures r.Ok? ==> forall i :: 0 <= i < |p.items| ==> Ok(r.value.sale.items[i]) == StoreItem(p.items[i])
    ensures r.Ok? ==> r.value.sale.subtotal == p.subtotal && r.value.sale.discount == p.discount
    ensures r.Ok? ==> r.value.sale.surcharge == p.surcharge && r.value.sale.total == p.total
    ensures r.Ok? ==> r.value.sale.clientId == p.clientId && r.value.sale.clientName == p.clientName
    ensures r.Ok? ==> r.value.sale.paymentMethod == p.paymentMethod && r.value.sale.notes == p.notes
    ensures r.Ok? ==> r.value.stock.Keys == stock.Keys
  {
    if |p.items| == 0 then Err(NoItems)
    else if exists i :: 0 <= i < |p.items| && UnknownProduct(p.items[i], stock) then Err(InvalidProduct)
    else if exists i :: 0 <= i < |p.items| && UnknownService(p.items[i], services) then Err(InvalidService)
    else
      match StoreItems(p.items)
      case Err(e) => Err(e)
      case Ok(stored) =>
        assert forall i :: 0 <= i < |p.items| ==> StoreItem(p.items[i]).Ok?;
        Ok(Created(
          StoredSale(p.clientId, p.clientName, p.subtotal, p.discount, p.surcharge, p.total,
            DeriveSaleType(p.items), p.paymentMethod, p.notes, stored),
          TakeStock(stock, p.items)))
  }

  /** After a sale every owned product has lost exactly what the sale's
      product lines sold of it, and a sale of only services leaves stock as
      it was. */
  lemma {:induction false} CreateSaleStock(p: SaleInput, stock: map<nat, real>, services: set<nat>)
    requires CreateSale(p, stock, services).Ok?
    ensures var after := CreateSale(p, stock, services).value.stock;
      forall pid :: pid in stock ==> after[pid] == stock[pid] - Sold(p.items, pid)
    ensures (forall i :: 0 <= i < |p.items| ==> !IsProductLine(p.items[i])) ==>
      CreateSale(p, stock, services).value.stock == stock
  {
    var r := CreateSale(p, stock, services);
    assert ProductsKnown(p.items, stock) && r.value.stock == TakeStock(stock, p.items);
    TakeStockTotals(stock, p.items);
  }

  /** `TakeStockSpec` for every product at once; with no product line the
      stock is left exactly as it was. */
  lemma {:induction false} TakeStockTotals(stock: map<nat, real>, items: seq<ItemInput>)
    requires ProductsKnown(items, stock)
    ensures forall pid :: pid in stock ==> TakeStock(stock, items)[pid] == stock[pid] - Sold(items, pid)
    ensures (forall i :: 0 <= i < |items| ==> !IsProductLine(items[i])) ==> TakeStock(stock, items) == stock
  {
    var after := TakeStock(stock, items);
    forall pid | pid in stock ensures after[pid] == stock[pid] - Sold(items, pid) {
      TakeStockSpec(stock, items, pid);
    }
    if forall i :: 0 <= i < |items| ==> !IsProductLine(items[i]) {
      forall pid | pid in stock ensures after[pid] == stock[pid] {
        FilterNone(items, SellsProduct(pid));
      }
    }
  }

  /** The stored row of a sale, as far as deletion cares. */
  datatype SaleRow = SaleRow(id: nat, userId: nat)

  predicate RowMatches(r: SaleRow, id: nat, user: nat) { r.id == id && r.userId == user }

  function KeepsRow(id: nat, user: nat): SaleRow -> bool
  {
    (r: SaleRow) => !RowMatches(r, id, user)
  }

  /** `delete_sale`: removes the user's sale with that id, or answers 404
      when the user has no such sale; other rows stay, in order. */
  function DeleteSale(rows: seq<SaleRow>, id: nat, user: nat): (r: Result<seq<SaleRow>, SaleError>)
    ensures r.Err? <==> forall i :: 0 <= i < |rows| ==> !RowMatches(rows[i], id, user)
    ensures r.Err? ==> r.error == SaleNotFound
    ensures r.Ok? ==> forall x :: x in r.value <==> x in rows && !RowMatches(x, id, user)
    ensures r.Ok? ==> |r.value| < |rows|
  {
    var kept := Filter(rows, KeepsRow(id, user));
    if |kept| == |rows| then
      assert forall i :: 0 <= i < |rows| ==> !RowMatches(rows[i], id, user) by {
        KeptAll(rows, KeepsRow(id, user));
      }
      Err(SaleNotFound)
    else
      forall x ensures x in kept <==> x in rows && !RowMatches(x, id, user) {
        FilterMember(rows, KeepsRow(id, user), x);
      }
      Ok(kept)
  }

  /** The line of a sale's detail response. */
  datatype ItemRead = ItemRead(itemType: ItemType, productId: Option<nat>, serviceId: Option<nat>, name: string, total: real)

  function ReadItem(i: StoredItem): ItemRead { ItemRead(i.itemType, i.productId, i.serviceId, i.name, i.total) }

  /** `_sale_to_detail`: one line per stored line, in order. */
  function DetailItems(s: StoredSale): (r: seq<ItemRead>)
    ensures |r| == |s.items|
    ensures forall i :: 0 <= i < |r| ==> r[i].itemType == s.items[i].itemType && r[i].total == s.items[i].total
  {
    Map(s.items, ReadItem)
  }

  /** A created sale's detail lists the payload's lines in order, each with
      the kind it was sent with. */
  lemma {:induction false} CreatedDetail(p: SaleInput, stock: map<nat, real>, services: set<nat>)
    requires CreateSale(p, stock, services).Ok?
    ensures var d := DetailItems(CreateSale(p, stock, services).value.sale);
      |d| == |p.items| &&
      forall i :: 0 <= i < |d| ==> (d[i].itemType == ProductItem <==> IsProductLine(p.items[i])) && d[i].total == p.items[i].total
  {
    var s := CreateSale(p, stock, services).value.sale;
    forall i | 0 <= i < |p.items| ensures Ok(s.items[i]) == StoreItem(p.items[i]) {
    }
  }
}
