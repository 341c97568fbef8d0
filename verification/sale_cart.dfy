/** The cart of the sale screen (`sales/SaleForm`): products and services
    in one sale, with additions bounded by the product's stock. */
module SaleCart {
  import opened Wrappers
  import opened Seqs
  import opened Pos
  import opened Cart

  /** A product as the screen loads it; stock is a whole number of units. */
  datatype Product = Product(id: nat, name: string, price: real, stock: int)

  /** A client as the client picker lists it. */
  datatype Client = Client(id: string, name: string)

  /** Why a cart change was refused (both show "Estoque insuficiente"). */
  datatype CartError = OutOfStock | InsufficientStock(available: int)

  /** `products.find(p => p.id === id)`: the first product with that id. */
  function FindProduct(products: seq<Product>, id: nat): (r: Option<Product>)
    ensures r.Some? ==> r.value in products && r.value.id == id
    ensures r.None? <==> forall i :: 0 <= i < |products| ==> products[i].id != id
    ensures r.Some? ==> exists i :: 0 <= i < |products| && products[i] == r.value
                                    && forall k :: 0 <= k < i ==> products[k].id != id
  {
    if |products| == 0 then None
    else if products[0].id == id then Some(products[0])
    else
      var r := FindProduct(products[1..], id);
      assert r.Some? ==> r.value == products[1..][IndexIn(products[1..], r.value)];
      r
  }

  function IndexIn(products: seq<Product>, p: Product): (i: nat)
    requires p in products
    ensures i < |products| && products[i] == p
  {
    if products[0] == p then 0 else 1 + IndexIn(products[1..], p)
  }

  /** The loaded product a product line refers to, if any. */
  function StockOf(products: seq<Product>, l: CartLine): Option<Product>
  {
    if l.kind == ProductKind then FindProduct(products, l.id) else None
  }

  /** `handleAddItem`. A product known to be out of stock is refused; an
      item already in the cart gains one unit unless that would pass the
      product's stock; a new item is appended. */
  function AddItem(cart: seq<CartLine>, products: seq<Product>, item: CartLine): (r: Result<seq<CartLine>, CartError>)
    ensures StockOf(products, item).Some? && StockOf(products, item).value.stock <= 0 ==> r == Err(OutOfStock)
    ensures r.Err? <==> StockOf(products, item).Some?
                        && (StockOf(products, item).value.stock <= 0
                            || (FindLine(cart, item.id, item.kind).Some?
                                && cart[FindLine(cart, item.id, item.kind).value].quantity + 1.0
                                   > StockOf(products, item).value.stock as real))
    ensures r.Ok? && FindLine(cart, item.id, item.kind).Some? ==>
              r.value == Increment(cart, FindLine(cart, item.id, item.kind).value)
    ensures r.Ok? && FindLine(cart, item.id, item.kind).None? ==> r.value == cart + [item]
  {
    var product := StockOf(products, item);
    if product.Some? && product.value.stock <= 0 then Err(OutOfStock)
    else match FindLine(cart, item.id, item.kind)
      case Some(j) =>
        if product.Some? && cart[j].quantity + 1.0 > product.value.stock as real
        then Err(InsufficientStock(product.value.stock))
        else Ok(Increment(cart, j))
      case None => Ok(cart + [item])
  }

  /** `handleUpdateQuantity`. A quantity below 1 is ignored; a product
      quantity above its stock is refused; otherwise only line `index`
      changes. */
  function UpdateQuantity(cart: seq<CartLine>, products: seq<Product>, index: nat, q: real): (r: Result<seq<CartLine>, CartError>)
    requires index < |cart|
    ensures q < 1.0 ==> r == Ok(cart)
    ensures r.Err? <==> q >= 1.0 && StockOf(products, cart[index]).Some?
                        && q > StockOf(products, cart[index]).value.stock as real
    ensures r.Ok? && q >= 1.0 ==> r.value == SetQuantity(cart, index, q)
  {
    if q < 1.0 then Ok(cart)
    else
      var product := StockOf(products, cart[index]);
      if product.Some? && q > product.value.stock as real then Err(InsufficientStock(product.value.stock))
      else Ok(SetQuantity(cart, index, q))
  }

  /** What the cart guarantees between changes: one line per item, every
      quantity at least 1, and no product line above its product's stock. */
  predicate CartOk(cart: seq<CartLine>, products: seq<Product>)
  {
    && DistinctLines(cart)
    && (forall i :: 0 <= i < |cart| ==> cart[i].quantity >= 1.0)
    && (forall i :: 0 <= i < |cart| ==> StockOf(products, cart[i]).Some? ==>
          cart[i].quantity <= StockOf(products, cart[i]).value.stock as real)
  }

  /** An accepted addition keeps the cart guarantees, given that the item
      picker adds one unit at a time. */
  lemma {:induction false} AddKeepsCartOk(cart: seq<CartLine>, products: seq<Product>, item: CartLine)
    requires CartOk(cart, products)
    requires item.quantity == 1.0
    requires AddItem(cart, products, item).Ok?
    ensures CartOk(AddItem(cart, products, item).value, products)
  {
    var found := FindLine(cart, item.id, item.kind);
    var r := AddItem(cart, products, item).value;
    if found.Some? {
      DistinctPreserved(cart, found.value, 0.0, -1, item);
      assert forall i :: 0 <= i < |r| ==> r[i].id == cart[i].id && r[i].kind == cart[i].kind;
    } else {
      assert r == cart + [item];
      if |cart| > 0 {
        DistinctPreserved(cart, 0, 0.0, -1, item);
      } else {
        assert DistinctLines(r);
      }
      assert r[|cart|] == item;
    }
  }

  /** An accepted quantity change keeps the cart guarantees. */
  lemma {:induction false} UpdateKeepsCartOk(cart: seq<CartLine>, products: seq<Product>, index: nat, q: real)
    requires CartOk(cart, products)
    requires index < |cart|
    requires UpdateQuantity(cart, products, index, q).Ok?
    ensures CartOk(UpdateQuantity(cart, products, index, q).value, products)
  {
    DistinctPreserved(cart, index, q, -1, cart[index]);
    var r := UpdateQuantity(cart, products, index, q).value;
    assert forall i :: 0 <= i < |r| ==> r[i].id == cart[i].id && r[i].kind == cart[i].kind;
  }

  /** A removal keeps the cart guarantees. */
  lemma {:induction false} RemoveKeepsCartOk(cart: seq<CartLine>, products: seq<Product>, index: int)
    requires CartOk(cart, products)
    ensures CartOk(RemoveAt(cart, index), products)
  {
    if |cart| > 0 {
      DistinctPreserved(cart, 0, 0.0, index, cart[0]);
    }
    var r := RemoveAt(cart, index);
    if 0 <= index < |cart| {
      assert forall k :: 0 <= k < |r| ==> r[k] == cart[if k < index then k else k + 1];
    }
  }

  /** An accepted addition raises the subtotal by one unit: at the price
      already on the item's line when it is in the cart (that line keeps
      its price), and at the item's price when it is new. */
  lemma {:induction false} AddItemSubtotal(cart: seq<CartLine>, products: seq<Product>, item: CartLine)
    requires item.quantity == 1.0
    requires AddItem(cart, products, item).Ok?
    ensures FindLine(cart, item.id, item.kind).Some? ==>
              Subtotal(AddItem(cart, products, item).value)
              == Subtotal(cart) + cart[FindLine(cart, item.id, item.kind).value].price
    ensures FindLine(cart, item.id, item.kind).None? ==>
              Subtotal(AddItem(cart, products, item).value) == Subtotal(cart) + item.price
  {
    var found := FindLine(cart, item.id, item.kind);
    if found.Some? {
      IncrementSubtotal(cart, found.value);
    } else {
      AppendSubtotal(cart, item);
    }
  }

  /** The client fields of a saved sale. */
  datatype SaleClient = SaleClient(clientId: Option<string>, clientName: Option<string>)

  datatype SaveError = EmptyCart

  const NoClient: string := "no_client"

  /** The test `clients.find(c => c.id === selectedClient)` applies. */
  function ClientIdIs(id: string): Client -> bool { (c: Client) => c.id == id }

  /** `handleSaveSale` up to the call that stores the sale: an empty cart
      is refused; "no_client" stores no client; otherwise the selected id
      and the client's name, or no name when the client is unknown or its
      name is empty (`client?.name || null`). */
  function SaveSale(cart: seq<CartLine>, selected: string, clients: seq<Client>): (r: Result<SaleClient, SaveError>)
    ensures r.Err? <==> |cart| == 0
    ensures r.Ok? && selected == NoClient ==> r.value == SaleClient(None, None)
    ensures r.Ok? && selected != NoClient ==> r.value.clientId == Some(selected)
    ensures r.Ok? && r.value.clientName.Some? ==>
              r.value.clientName.value != "" && exists i :: 0 <= i < |clients| && clients[i] == Client(selected, r.value.clientName.value)
    ensures r.Ok? && selected != NoClient ==>
              var found := Find(clients, ClientIdIs(selected));
              (found.Some? && found.value.name != "" ==> r.value.clientName == Some(found.value.name)) &&
              (found.None? || found.value.name == "" ==> r.value.clientName == None)
  {
    if |cart| == 0 then Err(EmptyCart)
    else if selected == NoClient then Ok(SaleClient(None, None))
    else
      var client := Find(clients, ClientIdIs(selected));
      Ok(SaleClient(Some(selected), if client.Some? && client.value.name != "" then Some(client.value.name) else None))
  }

  /** The saved name is that of the first loaded client with the selected
      id, when it has one, as `find` returns the first match. */
  lemma {:induction false} SaveSaleNamesFirstClient(cart: seq<CartLine>, selected: string, clients: seq<Client>, i: nat)
    requires |cart| > 0 && selected != NoClient
    requires i < |clients| && clients[i].id == selected
    requires forall k :: 0 <= k < i ==> clients[k].id != selected
    ensures SaveSale(cart, selected, clients).value.clientName ==
              if clients[i].name != "" then Some(clients[i].name) else None
  {
    var p := ClientIdIs(selected);
    var found := Find(clients, p);
    assert p(clients[i]);
    var j :| 0 <= j < |clients| && clients[j] == found.value && p(found.value) && NoneBefore(clients, p, j);
    assert j == i;
  }
}
