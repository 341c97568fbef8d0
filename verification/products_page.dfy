/** The products page (`Products`): stock status badges, the low-stock
    alert list and the search box. */
module ProductsPage {
  import opened Wrappers
  import opened Seqs
  import opened Text

  datatype Product = Product(id: nat, name: string, category: string, price: real, stock: real, minStock: real)

  /** The three badges, with their labels. */
  datatype StockStatus = OutOfStock | LowStock | InStock
  {
    function Label(): string
    {
      match this
      case OutOfStock => "Sem estoque"
      case LowStock => "Estoque baixo"
      case InStock => "Em estoque"
    }
  }

  /** `getStockStatus`: nothing left, below the minimum, or enough. */
  function GetStockStatus(stock: real, minStock: real): (r: StockStatus)
    ensures r == OutOfStock <==> stock <= 0.0
    ensures r == LowStock <==> 0.0 < stock < minStock
    ensures r == InStock <==> stock > 0.0 && stock >= minStock
  {
    if stock <= 0.0 then OutOfStock
    else if stock < minStock then LowStock
    else InStock
  }

  function NeedsRestock(): Product -> bool
  {
    (p: Product) => p.stock <= 0.0 || p.stock < p.minStock
  }

  function NotInStock(): Product -> bool
  {
    (p: Product) => GetStockStatus(p.stock, p.minStock) != InStock
  }

  /** `lowStockProducts`. */
  function LowStockProducts(products: seq<Product>): seq<Product>
  {
    Filter(products, NeedsRestock())
  }

  /** The alert list is exactly the products whose badge is not "Em estoque". */
  lemma {:induction false} LowStockMatchesBadges(products: seq<Product>)
    ensures LowStockProducts(products) == Filter(products, NotInStock())
  {
    FilterCongruent(products, NeedsRestock(), NotInStock());
  }

  /** The dashboard's low-stock rule: no stock, or stock at or below a
      recorded minimum. */
  predicate DashboardLowStock(stock: real, minStock: Option<real>)
  {
    stock <= 0.0 || (minStock.Some? && stock <= minStock.value)
  }

  /** The page and the dashboard disagree exactly at a positive stock equal
      to the minimum: the dashboard flags it, the page shows "Em estoque". */
  lemma {:induction false} StockThresholdsDiffer(stock: real, minStock: real)
    ensures DashboardLowStock(stock, Some(minStock)) && GetStockStatus(stock, minStock) == InStock
            <==> stock > 0.0 && stock == minStock
    ensures GetStockStatus(stock, minStock) != InStock ==> DashboardLowStock(stock, Some(minStock))
  {}

  function MatchesSearch(term: string): Product -> bool
  {
    (p: Product) => ContainsIgnoringCase(p.name, term) || ContainsIgnoringCase(p.category, term)
  }

  /** `filteredProducts`: the products whose name or category contains the
      term, ignoring case. */
  function SearchProducts(products: seq<Product>, term: string): (r: seq<Product>)
    ensures forall i :: 0 <= i < |r| ==> r[i] in products && MatchesSearch(term)(r[i])
  {
    Filter(products, MatchesSearch(term))
  }

  /** A product is listed iff it matches, and an empty term lists every product. */
  lemma {:induction false} SearchSpec(products: seq<Product>, term: string, p: Product)
    ensures p in SearchProducts(products, term) <==> p in products && MatchesSearch(term)(p)
    ensures SearchProducts(products, "") == products
  {
    FilterMember(products, MatchesSearch(term), p);
    forall i | 0 <= i < |products| ensures MatchesSearch("")(products[i]) {
      EmptyTermMatches(products[i].name);
    }
  }
}
