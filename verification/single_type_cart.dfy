/** The older sale screen (`components/SaleForm`): a sale holds products
    only or services only, and saving a product sale writes the lowered
    stock of each product back, floored at zero. */
module SingleTypeCart {
  import opened Wrappers
  import opened Seqs
  import opened Pos
  import opened Cart
  import SaleCart

  /** A product or service as listed in the picker. */
  datatype CatalogItem = CatalogItem(id: nat, name: string, price: real)

  datatype CartError = MixedTypes(existing: string)

  /** Every line has the first line's kind. */
  predicate SingleType(cart: seq<CartLine>)
  {
    forall i :: 0 <= i < |cart| ==> cart[i].kind == cart[0].kind
  }

  /** `handleAddItem`: once the cart holds lines, an item of another kind
      is refused; otherwise an item already in the cart gains one unit and
      a new one is appended with quantity 1. */
  function AddItem(cart: seq<CartLine>, item: CatalogItem, kind: string): (r: Result<seq<CartLine>, CartError>)
    ensures r.Err? <==> |cart| > 0 && kind != cart[0].kind
    ensures r.Ok? && FindLine(cart, item.id, kind).Some? ==>
              r.value == Increment(cart, FindLine(cart, item.id, kind).value)
    ensures r.Ok? && FindLine(cart, item.id, kind).None? ==>
              r.value == cart + [CartLine(item.id, kind, item.name, item.price, 1.0)]
  {
    if |cart| > 0 && kind != cart[0].kind then Err(MixedTypes(cart[0].kind))
    else match FindLine(cart, item.id, kind)
      case Some(j) => Ok(Increment(cart, j))
      case None => Ok(cart + [CartLine(item.id, kind, item.name, item.price, 1.0)])
  }

  /** `handleUpdateQuantity`: quantities below 1 are ignored. */
  function UpdateQuantity(cart: seq<CartLine>, index: nat, q: real): (r: seq<CartLine>)
    requires index < |cart|
    ensures q < 1.0 ==> r == cart
    ensures q >= 1.0 ==> r == SetQuantity(cart, index, q)
  {
    if q < 1.0 then cart else SetQuantity(cart, index, q)
  }

  /** All three changes keep the cart to one kind and one line per item. */
  lemma {:induction false} ChangesKeepSingleType(cart: seq<CartLine>, item: CatalogItem, kind: string, index: nat, q: real)
    requires SingleType(cart) && DistinctLines(cart)
    ensures AddItem(cart, item, kind).Ok? ==>
              SingleType(AddItem(cart, item, kind).value) && DistinctLines(AddItem(cart, item, kind).value)
    ensures index < |cart| ==> SingleType(UpdateQuantity(cart, index, q)) && DistinctLines(UpdateQuantity(cart, index, q))
    ensures SingleType(RemoveAt(cart, index)) && DistinctLines(RemoveAt(cart, index))
  {
    AddKeepsSingleType(cart, item, kind);
    if index < |cart| {
      UpdateKeepsSingleType(cart, index, q);
    }
    RemoveKeepsSingleType(cart, index);
  }

  lemma {:induction false} AddKeepsSingleType(cart: seq<CartLine>, item: CatalogItem, kind: string)
    requires SingleType(cart) && DistinctLines(cart)
    ensures AddItem(cart, item, kind).Ok? ==>
              SingleType(AddItem(cart, item, kind).value) && DistinctLines(AddItem(cart, item, kind).value)
  {
    var r := AddItem(cart, item, kind);
    if r.Ok? {
      var line := CartLine(item.id, kind, item.name, item.price, 1.0);
      match FindLine(cart, item.id, kind)
      case Some(j) =>
        assert DistinctLines(r.value) by { DistinctPreserved(cart, j, 0.0, j, line); }
      case None =>
        if |cart| > 0 {
          assert DistinctLines(r.value) by { DistinctPreserved(cart, 0, 0.0, 0, line); }
        }
    }
  }

  lemma {:induction false} UpdateKeepsSingleType(cart: seq<CartLine>, index: nat, q: real)
    requires SingleType(cart) && DistinctLines(cart)
    requires index < |cart|
    ensures SingleType(UpdateQuantity(cart, index, q)) && DistinctLines(UpdateQuantity(cart, index, q))
  {
    DistinctPreserved(cart, index, q, index, cart[index]);
  }

  lemma {:induction false} RemoveKeepsSingleType(cart: seq<CartLine>, index: nat)
    requires SingleType(cart) && DistinctLines(cart)
    ensures SingleType(RemoveAt(cart, index)) && DistinctLines(RemoveAt(cart, index))
  {
    var removed := RemoveAt(cart, index);
    if index < |cart| {
      DistinctPreserved(cart, index, 0.0, index, cart[index]);
      assert forall k :: 0 <= k < |removed| ==> removed[k] == cart[if k < index then k else k + 1];
    }
  }

  /** `totalAmount`: subtotal less discount plus surcharge, unclamped. */
  function TotalAmount(cart: seq<CartLine>, discount: real, surcharge: real): real
  {
    Subtotal(cart) - discount + surcharge
  }

  datatype SaveError = EmptyCart | DiscountTooLarge

  /** A stored line: price, quantity, and the id in the column of its kind. */
  datatype SavedItem = SavedItem(price: real, quantity: real, productId: Option<nat>, serviceId: Option<nat>)

  /** One stock write: the product and its new stock. */
  datatype StockWrite = StockWrite(productId: nat, stock: real)

  /** What saving writes: the sale row, its items and the stock updates. */
  datatype SavedSale = SavedSale(
    clientId: Option<string>, total: real, subtotal: real, discount: real, surcharge: real,
    saleType: string, items: seq<SavedItem>, stockWrites: seq<StockWrite>)

  function SaveItem(l: CartLine): (r: SavedItem)
    ensures r.price == l.price && r.quantity == l.quantity
    ensures r.productId.Some? <==> l.kind == ProductKind
    ensures r.serviceId.Some? <==> l.kind == ServiceKind
    ensures r.productId.Some? ==> r.productId.value == l.id
    ensures r.serviceId.Some? ==> r.serviceId.value == l.id
  {
    SavedItem(l.price, l.quantity,
              if l.kind == ProductKind then Some(l.id) else None,
              if l.kind == ServiceKind then Some(l.id) else None)
  }

  /** The stock writes of a product sale: one per line whose product is
      loaded, in cart order. */
  function StockWrites(cart: seq<CartLine>, products: seq<SaleCart.Product>): (r: seq<StockWrite>)
    ensures |r| <= |cart|
    ensures forall k :: 0 <= k < |r| ==> r[k].stock >= 0.0
    ensures forall k :: 0 <= k < |r| ==> exists i :: 0 <= i < |cart| && cart[i].id == r[k].productId
    decreases |cart|
  {
    if |cart| == 0 then []
    else
      var rest := StockWrites(cart[1..], products);
      assert forall k :: 0 <= k < |rest| ==> exists i :: 0 <= i < |cart| && cart[i].id == rest[k].productId by {
        forall k | 0 <= k < |rest| ensures exists i :: 0 <= i < |cart| && cart[i].id == rest[k].productId {
          var i :| 0 <= i < |cart[1..]| && cart[1..][i].id == rest[k].productId;
          assert cart[i + 1].id == rest[k].productId;
        }
      }
      match SaleCart.FindProduct(products, cart[0].id)
      case Some(p) => [StockWrite(p.id, Max(0.0, p.stock as real - cart[0].quantity))] + rest
      case None => rest
  }

  /** `handleSaveSale`: an empty cart or a discount above the subtotal is
      refused; otherwise the sale takes the first line's type, the
      unclamped total, and for a product sale the lowered stocks. */
  function SaveSale(cart: seq<CartLine>, discount: real, surcharge: real, selected: string,
                    products: seq<SaleCart.Product>): (r: Result<SavedSale, SaveError>)
    ensures |cart| == 0 ==> r == Err(EmptyCart)
    ensures |cart| > 0 ==> (r == Err(DiscountTooLarge) <==> discount > Subtotal(cart))
    ensures r.Ok? ==> |cart| > 0 && discount <= Subtotal(cart)
    ensures r.Ok? ==> r.value.saleType == cart[0].kind && r.value.subtotal == Subtotal(cart)
    ensures r.Ok? ==> r.value.total == TotalAmount(cart, discount, surcharge)
    ensures r.Ok? ==> r.value.clientId == (if selected == SaleCart.NoClient then None else Some(selected))
    ensures r.Ok? ==> |r.value.items| == |cart| && forall i :: 0 <= i < |cart| ==> r.value.items[i] == SaveItem(cart[i])
    ensures r.Ok? && cart[0].kind != ProductKind ==> r.value.stockWrites == []
    ensures r.Ok? && cart[0].kind == ProductKind ==> r.value.stockWrites == StockWrites(cart, products)
    ensures r.Ok? ==> r.value.discount == discount && r.value.surcharge == surcharge
  {
    if |cart| == 0 then Err(EmptyCart)
    else if discount > Subtotal(cart) then Err(DiscountTooLarge)
    else
      var saleType := cart[0].kind;
      Ok(SavedSale(if selected == SaleCart.NoClient then None else Some(selected),
                   TotalAmount(cart, discount, surcharge), Subtotal(cart), discount, surcharge,
                   saleType, Map(cart, SaveItem),
                   if saleType == ProductKind then StockWrites(cart, products) else []))
  }

  /** A saved sale's total is at least its surcharge: the discount was
      checked against the subtotal. */
  lemma {:induction false} SavedTotalCoversSurcharge(cart: seq<CartLine>, discount: real, surcharge: real, selected: string,
                                  products: seq<SaleCart.Product>)
    requires SaveSale(cart, discount, surcharge, selected, products).Ok?
    ensures SaveSale(cart, discount, surcharge, selected, products).value.total >= surcharge
  {}

  /** A single-type product cart stores every line with its product id and
      no service id, and a service cart the other way round. */
  lemma {:induction false} SingleTypeColumns(cart: seq<CartLine>, discount: real, surcharge: real, selected: string,
                          products: seq<SaleCart.Product>)
    requires SingleType(cart)
    requires SaveSale(cart, discount, surcharge, selected, products).Ok?
    ensures var s := SaveSale(cart, discount, surcharge, selected, products).value;
            s.saleType == ProductKind ==> forall i :: 0 <= i < |s.items| ==> s.items[i].productId.Some? && s.items[i].serviceId.None?
    ensures var s := SaveSale(cart, discount, surcharge, selected, products).value;
            s.saleType == ServiceKind ==> forall i :: 0 <= i < |s.items| ==> s.items[i].serviceId.Some? && s.items[i].productId.None?
  {}

  /** The write one line calls for on its own: its product's stock less
      the line's quantity, floored at zero, when the product is loaded. */
  function LineWrite(l: CartLine, products: seq<SaleCart.Product>): Option<StockWrite>
  {
    match SaleCart.FindProduct(products, l.id)
    case Some(p) => Some(StockWrite(p.id, Max(0.0, p.stock as real - l.quantity)))
    case None => None
  }

  /** Some line of the cart calls for the write. */
  predicate CallsFor(cart: seq<CartLine>, products: seq<SaleCart.Product>, w: StockWrite)
  {
    exists i :: 0 <= i < |cart| && LineWrite(cart[i], products) == Some(w)
  }

  /** A write is among a sale's stock writes exactly when some line of the
      cart calls for it. */
  lemma {:induction false} StockWritesSpec(cart: seq<CartLine>, products: seq<SaleCart.Product>, w: StockWrite)
    ensures w in StockWrites(cart, products) <==> CallsFor(cart, products, w)
    decreases |cart|
  {
    if |cart| > 0 {
      StockWritesSpec(cart[1..], products, w);
      StockWritesCons(cart, products);
      CallsForCons(cart, products, w);
    }
  }

  lemma {:induction false} CallsForCons(cart: seq<CartLine>, products: seq<SaleCart.Product>, w: StockWrite)
    requires |cart| > 0
    ensures CallsFor(cart, products, w) <==>
            LineWrite(cart[0], products) == Some(w) || CallsFor(cart[1..], products, w)
  {
    var tail := cart[1..];
    if CallsFor(tail, products, w) {
      var i :| 0 <= i < |tail| && LineWrite(tail[i], products) == Some(w);
      assert LineWrite(cart[i + 1], products) == Some(w);
    }
    if CallsFor(cart, products, w) && LineWrite(cart[0], products) != Some(w) {
      var i :| 0 <= i < |cart| && LineWrite(cart[i], products) == Some(w);
      assert LineWrite(tail[i - 1], products) == Some(w);
    }
  }

  lemma {:induction false} StockWritesCons(cart: seq<CartLine>, products: seq<SaleCart.Product>)
    requires |cart| > 0
    ensures LineWrite(cart[0], products).Some? ==>
              StockWrites(cart, products) == [LineWrite(cart[0], products).value] + StockWrites(cart[1..], products)
    ensures LineWrite(cart[0], products).None? ==> StockWrites(cart, products) == StockWrites(cart[1..], products)
  {}

  predicate DistinctWrites(w: seq<StockWrite>)
  {
    forall a, b :: 0 <= a < b < |w| ==> w[a].productId != w[b].productId
  }

  /** With one line per product, each product's stock is written at most
      once, so the floor at zero applies to the line's own quantity. */
  lemma {:induction false} StockWritesDistinct(cart: seq<CartLine>, products: seq<SaleCart.Product>)
    requires DistinctLines(cart) && SingleType(cart)
    ensures DistinctWrites(StockWrites(cart, products))
    decreases |cart|
  {
    if |cart| > 0 {
      var rest := StockWrites(cart[1..], products);
      assert DistinctWrites(rest) by {
        TailKeepsCart(cart);
        StockWritesDistinct(cart[1..], products);
      }
      TailWritesOthers(cart, products);
      match SaleCart.FindProduct(products, cart[0].id)
      case Some(p) =>
        var w := StockWrite(p.id, Max(0.0, p.stock as real - cart[0].quantity));
        assert StockWrites(cart, products) == [w] + rest;
        ConsDistinct(w, rest);
      case None =>
        assert StockWrites(cart, products) == rest;
    }
  }

  /** The writes for the lines after the first never name the first
      line's product. */
  lemma {:induction false} TailWritesOthers(cart: seq<CartLine>, products: seq<SaleCart.Product>)
    requires |cart| > 0
    requires DistinctLines(cart) && SingleType(cart)
    ensures forall k :: 0 <= k < |StockWrites(cart[1..], products)| ==>
              StockWrites(cart[1..], products)[k].productId != cart[0].id
  {
    var rest := StockWrites(cart[1..], products);
    forall k | 0 <= k < |rest| ensures rest[k].productId != cart[0].id {
      var i :| 0 <= i < |cart[1..]| && cart[1..][i].id == rest[k].productId;
      assert cart[i + 1].kind == cart[0].kind;
      assert !LineFor(cart[i + 1], cart[0].id, cart[0].kind);
    }
  }

  lemma {:induction false} ConsDistinct(w: StockWrite, rest: seq<StockWrite>)
    requires DistinctWrites(rest)
    requires forall k :: 0 <= k < |rest| ==> rest[k].productId != w.productId
    ensures DistinctWrites([w] + rest)
  {
    var ws := [w] + rest;
    forall a, b | 0 <= a < b < |ws| ensures ws[a].productId != ws[b].productId {
      assert ws[b] == rest[b - 1];
      if a > 0 {
        assert ws[a] == rest[a - 1];
      }
    }
  }

  /** Dropping the first line keeps a cart single-typed and its lines distinct. */
  lemma {:induction false} TailKeepsCart(cart: seq<CartLine>)
    requires |cart| > 0
    requires DistinctLines(cart) && SingleType(cart)
    ensures DistinctLines(cart[1..]) && SingleType(cart[1..])
  {
    forall i, j | 0 <= i < j < |cart[1..]| ensures !LineFor(cart[1..][j], cart[1..][i].id, cart[1..][i].kind) {
      assert cart[1..][i] == cart[i + 1] && cart[1..][j] == cart[j + 1];
    }
    forall i | 0 <= i < |cart[1..]| ensures cart[1..][i].kind == cart[1..][0].kind {
      assert cart[1..][i] == cart[i + 1];
    }
  }
}
