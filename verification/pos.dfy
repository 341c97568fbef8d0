/** Shared vocabulary of the point-of-sale screens: a cart line, its
    subtotal, the per-kind subtotals, and the discount settings the
    discount forms edit. */
module Pos {
  import opened Wrappers
  import opened Seqs

  /** A cart line: the catalogue id of the product or service, its kind as
      the UI carries it ("product" or "service"), its display name, unit
      price and quantity. */
  datatype CartLine = CartLine(id: nat, kind: string, name: string, price: real, quantity: real)

  const ProductKind: string := "product"
  const ServiceKind: string := "service"

  /** The line's subtotal: unit price times quantity. */
  function LineSubtotal(l: CartLine): real { l.price * l.quantity }

  /** `items.reduce((sum, item) => sum + item.price * item.quantity, 0)`. */
  function Subtotal(lines: seq<CartLine>): real { SumOf(lines, LineSubtotal) }

  function KindIs(kind: string): CartLine -> bool { (l: CartLine) => l.kind == kind }

  /** The subtotal of the lines of one kind. */
  function KindSubtotal(lines: seq<CartLine>, kind: string): real
  {
    SumOf(Filter(lines, KindIs(kind)), LineSubtotal)
  }

  /** A line of one of the two known kinds. */
  predicate Typed(l: CartLine) { l.kind == ProductKind || l.kind == ServiceKind }

  predicate HasKind(lines: seq<CartLine>, kind: string)
  {
    exists i :: 0 <= i < |lines| && lines[i].kind == kind
  }

  /** Some line has the kind exactly when filtering by it leaves lines. */
  lemma {:induction false} KindPresent(lines: seq<CartLine>, kind: string)
    ensures |Filter(lines, KindIs(kind))| > 0 <==> HasKind(lines, kind)
  {
    var kept := Filter(lines, KindIs(kind));
    if HasKind(lines, kind) {
      var i :| 0 <= i < |lines| && lines[i].kind == kind;
      FilterMember(lines, KindIs(kind), lines[i]);
    }
    if |kept| > 0 {
      assert kept[0] in lines;
      var i :| 0 <= i < |lines| && lines[i] == kept[0];
    }
  }

  /** When every line is a product or a service, the two kind subtotals
      add up to the subtotal. */
  lemma {:induction false} KindSubtotalsSplit(lines: seq<CartLine>)
    requires forall i :: 0 <= i < |lines| ==> Typed(lines[i])
    ensures KindSubtotal(lines, ProductKind) + KindSubtotal(lines, ServiceKind) == Subtotal(lines)
  {
    Partition2(lines, KindIs(ProductKind), KindIs(ServiceKind), LineSubtotal);
  }

  /** Lines with non-negative prices and quantities have a non-negative subtotal. */
  lemma {:induction false} SubtotalNonNegative(lines: seq<CartLine>)
    requires forall i :: 0 <= i < |lines| ==> lines[i].price >= 0.0 && lines[i].quantity >= 0.0
    ensures Subtotal(lines) >= 0.0
  {
    forall i | 0 <= i < |lines| ensures LineSubtotal(lines[i]) >= 0.0 {
      NonNegativeProduct(lines[i].price, lines[i].quantity);
    }
    SumOfNonNegative(lines, LineSubtotal);
  }

  /** The same holds for the subtotal of the lines of any one kind. */
  lemma {:induction false} KindSubtotalNonNegative(lines: seq<CartLine>, kind: string)
    requires forall i :: 0 <= i < |lines| ==> lines[i].price >= 0.0 && lines[i].quantity >= 0.0
    ensures KindSubtotal(lines, kind) >= 0.0
  {
    var kept := Filter(lines, KindIs(kind));
    forall i | 0 <= i < |kept| ensures kept[i].price >= 0.0 && kept[i].quantity >= 0.0 {
      assert kept[i] in lines;
    }
    SubtotalNonNegative(kept);
  }

  lemma {:induction false} NonNegativeProduct(a: real, b: real)
    requires a >= 0.0 && b >= 0.0
    ensures a * b >= 0.0
  {}

  function Min(a: real, b: real): (m: real)
    ensures m <= a && m <= b && (m == a || m == b)
  {
    if a <= b then a else b
  }

  function Max(a: real, b: real): (m: real)
    ensures m >= a && m >= b && (m == a || m == b)
  {
    if a >= b then a else b
  }

  /** Which of the two discount inputs is in force. */
  datatype DiscountMode = ByAmount | ByPercent

  /** The discount settings (`DiscountValues`): an amount, a percentage,
      and which of the two applies. */
  datatype DiscountValues = DiscountValues(amount: real, percent: real, mode: DiscountMode)

  /** JavaScript's `x || 0` on a parsed number: NaN (absent) becomes 0. */
  function NumberOrZero(x: Option<real>): real
  {
    if x.Some? then x.value else 0.0
  }
}
