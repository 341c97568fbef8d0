/** The list operations both sale carts share: finding the line of an item,
    bumping or setting its quantity, and removing a line by position. */
module Cart {
  import opened Wrappers
  import opened Seqs
  import opened Pos

  /** A line for the catalogue item `id` of kind `kind`. */
  predicate LineFor(l: CartLine, id: nat, kind: string) { l.id == id && l.kind == kind }

  /** `findIndex(i => i.id === id && i.type === kind)`: the first line for
      the item, if any. */
  function FindLine(cart: seq<CartLine>, id: nat, kind: string): (r: Option<nat>)
    ensures r.Some? ==> r.value < |cart| && LineFor(cart[r.value], id, kind)
    ensures r.Some? ==> forall j :: 0 <= j < r.value ==> !LineFor(cart[j], id, kind)
    ensures r.None? <==> forall j :: 0 <= j < |cart| ==> !LineFor(cart[j], id, kind)
  {
    FindFrom(cart, id, kind, 0)
  }

  function FindFrom(cart: seq<CartLine>, id: nat, kind: string, from: nat): (r: Option<nat>)
    requires from <= |cart|
    requires forall j :: 0 <= j < from ==> !LineFor(cart[j], id, kind)
    ensures r.Some? ==> from <= r.value < |cart| && LineFor(cart[r.value], id, kind)
    ensures r.Some? ==> forall j :: 0 <= j < r.value ==> !LineFor(cart[j], id, kind)
    ensures r.None? <==> forall j :: 0 <= j < |cart| ==> !LineFor(cart[j], id, kind)
    decreases |cart| - from
  {
    if from == |cart| then None
    else if LineFor(cart[from], id, kind) then Some(from)
    else FindFrom(cart, id, kind, from + 1)
  }

  /** Line `j` with one more unit; every other line as it was. */
  function Increment(cart: seq<CartLine>, j: nat): (r: seq<CartLine>)
    requires j < |cart|
    ensures |r| == |cart|
    ensures r[j] == cart[j].(quantity := cart[j].quantity + 1.0)
    ensures forall k :: 0 <= k < |cart| && k != j ==> r[k] == cart[k]
  {
    cart[j := cart[j].(quantity := cart[j].quantity + 1.0)]
  }

  /** Line `j` with quantity `q`; every other line as it was. */
  function SetQuantity(cart: seq<CartLine>, j: nat, q: real): (r: seq<CartLine>)
    requires j < |cart|
    ensures |r| == |cart|
    ensures r[j] == cart[j].(quantity := q)
    ensures forall k :: 0 <= k < |cart| && k != j ==> r[k] == cart[k]
  {
    cart[j := cart[j].(quantity := q)]
  }

  /** `filter((_, i) => i !== index)`: the cart without position `index`;
      an index outside the cart removes nothing. */
  function RemoveAt(cart: seq<CartLine>, index: int): (r: seq<CartLine>)
    ensures 0 <= index < |cart| ==> |r| == |cart| - 1
    ensures 0 <= index < |cart| ==> forall k :: 0 <= k < index ==> r[k] == cart[k]
    ensures 0 <= index < |cart| ==> forall k :: index <= k < |r| ==> r[k] == cart[k + 1]
    ensures !(0 <= index < |cart|) ==> r == cart
  {
    if 0 <= index < |cart| then cart[..index] + cart[index + 1..] else cart
  }

  /** No two lines for the same item. */
  predicate DistinctLines(cart: seq<CartLine>)
  {
    forall i, j :: 0 <= i < j < |cart| ==> !LineFor(cart[j], cart[i].id, cart[i].kind)
  }

  /** The subtotal grows by the unit price when a line gains a unit. */
  lemma {:induction false} IncrementSubtotal(cart: seq<CartLine>, j: nat)
    requires j < |cart|
    ensures Subtotal(Increment(cart, j)) == Subtotal(cart) + cart[j].price
  {
    SumOfUpdate(cart, j, cart[j].(quantity := cart[j].quantity + 1.0), LineSubtotal);
  }

  /** Setting a quantity replaces that line's share of the subtotal. */
  lemma {:induction false} SetQuantitySubtotal(cart: seq<CartLine>, j: nat, q: real)
    requires j < |cart|
    ensures Subtotal(SetQuantity(cart, j, q)) == Subtotal(cart) - LineSubtotal(cart[j]) + cart[j].price * q
  {
    SumOfUpdate(cart, j, cart[j].(quantity := q), LineSubtotal);
  }

  /** Removing a line takes exactly its share out of the subtotal. */
  lemma {:induction false} RemoveSubtotal(cart: seq<CartLine>, index: nat)
    requires index < |cart|
    ensures Subtotal(RemoveAt(cart, index)) == Subtotal(cart) - LineSubtotal(cart[index])
  {
    SumOfRemove(cart, index, LineSubtotal);
  }

  /** Appending a line adds its share to the subtotal. */
  lemma {:induction false} AppendSubtotal(cart: seq<CartLine>, l: CartLine)
    ensures Subtotal(cart + [l]) == Subtotal(cart) + LineSubtotal(l)
  {
    SumOfAppend(cart, [l], LineSubtotal);
  }

  /** Quantity changes and removals keep the lines distinct, and so does
      appending a line for an item the cart does not hold. */
  lemma {:induction false} DistinctPreserved(cart: seq<CartLine>, j: nat, q: real, index: int, l: CartLine)
    requires DistinctLines(cart)
    requires j < |cart|
    ensures DistinctLines(Increment(cart, j))
    ensures DistinctLines(SetQuantity(cart, j, q))
    ensures DistinctLines(RemoveAt(cart, index))
    ensures FindLine(cart, l.id, l.kind).None? ==> DistinctLines(cart + [l])
  {
    var r := RemoveAt(cart, index);
    if 0 <= index < |cart| {
      forall a, b | 0 <= a < b < |r| ensures !LineFor(r[b], r[a].id, r[a].kind) {
        var a' := if a < index then a else a + 1;
        var b' := if b < index then b else b + 1;
        assert r[a] == cart[a'] && r[b] == cart[b'];
      }
    }
  }
}
