/** The products controller's own logic: the list-query defaults and the
    purchase decision with its arithmetic. */
module ProductsController {
  import opened Options
  import opened Segments
  import opened ListQuery
  import opened ProductsService

  /** The list request after the controller's defaults: a falsy `search`
      becomes `""` and a falsy `sort` becomes `"product_name"`. */
  function ListProducts(search: Option<string>, sort: Option<string>, pageNumber: Option<int>,
                        pageSize: Option<int>, rows: seq<Product>): (r: ProductListing)
    ensures !IsTruthy(search) ==> r.filter == MatchAll
    ensures !IsTruthy(sort) ==> r.sort == SortBy("product_name", "asc")
    ensures IsTruthy(search) ==> r.filter == ProductFilter(search.value)
    ensures IsTruthy(sort) ==> r.sort == ParseSort(sort)
    ensures r.page == GetProducts("", Some("product_name"), pageNumber, pageSize, rows).page
  {
    var s := if IsTruthy(search) then search.value else "";
    var o := if IsTruthy(sort) then sort.value else "product_name";
    SplitSeparatorFree("product_name", ':');
    GetProducts(s, Some(o), pageNumber, pageSize, rows)
  }

  /** How a purchase request ends. */
  datatype PurchaseOutcome =
    | ProductNotFound
    | StockNotEnough
    | Purchased(productName: Option<string>, totalPrice: int, stockLeft: int)

  /** `addToPurchase`: the product must exist, then its stock must cover the
      quantity; the price is the unit price times the quantity, and the stock
      left is what remains. The name in the response is read from a
      `product_name` key that `getProduct`'s result never has, so it is
      always `undefined`. */
  function AddToPurchase(product: Option<Product>, quantity: int): (r: PurchaseOutcome)
    ensures product.None? <==> r == ProductNotFound
    ensures product.Some? ==> (r == StockNotEnough <==> product.value.stock < quantity)
    ensures r.Purchased? ==>
              && r.productName.None?
              && r.totalPrice == product.value.price * quantity
              && 0 <= r.stockLeft
              && r.stockLeft + quantity == product.value.stock
  {
    match product
    case None => ProductNotFound
    case Some(p) =>
      if p.stock < quantity then StockNotEnough
      else Purchased(None, p.price * quantity, p.stock - quantity)
  }

  /** Buying the whole stock is allowed and leaves none. */
  lemma BuyingWholeStockLeavesNone(p: Product)
    ensures AddToPurchase(Some(p), p.stock) == Purchased(None, p.price * p.stock, 0)
  {
  }
}
