/** The pure part of the purchases service: the list query and the
    single-purchase view. Neither shows the purchase's id. */
module PurchasesService {
  import opened Options
  import opened ListQuery

  /** A purchase document; `datePurchased` in milliseconds since the epoch. */
  datatype Purchase = Purchase(
    id: string,
    product: string,
    price: int,
    quantity: int,
    shippingAddress: string,
    datePurchased: int)

  /** What the service shows of a purchase. */
  datatype PurchaseView = PurchaseView(
    product: string,
    price: int,
    quantity: int,
    shippingAddress: string,
    datePurchased: int)

  /** The search keys the purchase list accepts; each filters the field of the
      same name. */
  const PurchaseSearchKeys: seq<string> := ["product", "shipping_address", "date_purchased", "price", "quantity"]

  function PurchaseFilter(search: string): (f: Filter)
    ensures f != MatchAll <==> SearchTerms(search).key in PurchaseSearchKeys
    ensures f.CaseInsensitiveRegex? ==>
              f.field == SearchTerms(search).key && f.pattern == SearchTerms(search).pattern
  {
    var t := SearchTerms(search);
    if t.key == "product" then RegexOn("product", t)
    else if t.key == "shipping_address" then RegexOn("shipping_address", t)
    else if t.key == "date_purchased" then RegexOn("date_purchased", t)
    else if t.key == "price" then RegexOn("price", t)
    else if t.key == "quantity" then RegexOn("quantity", t)
    else MatchAll
  }

  function ProjectPurchase(p: Purchase): PurchaseView {
    PurchaseView(p.product, p.price, p.quantity, p.shippingAddress, p.datePurchased)
  }

  /** The filter and sort handed to the store, and the page returned. */
  datatype PurchaseListing = PurchaseListing(filter: Filter, sort: SortSpec, page: Page<PurchaseView>)

  /** `getPurchases`: `rows` are what the store returned for the filter and sort. */
  function GetPurchases(search: string, sort: Option<string>, pageNumber: Option<int>,
                        pageSize: Option<int>, rows: seq<Purchase>): (r: PurchaseListing)
    ensures r.filter == PurchaseFilter(search) && r.sort == ParseSort(sort)
    ensures r.page.count == |rows| == |r.page.data|
    ensures forall i | 0 <= i < |rows| ::
              r.page.data[i] == PurchaseView(rows[i].product, rows[i].price, rows[i].quantity,
                                             rows[i].shippingAddress, rows[i].datePurchased)
    ensures r.page.pageNumber == ResolvePageNumber(pageNumber)
    ensures r.page.pageSize == ResolvePageSize(pageSize, |rows|)
    ensures r.page.totalPages == TotalPages(|rows|, r.page.pageSize)
    ensures r.page.hasPreviousPage <==> r.page.pageNumber > 1
    ensures !r.page.hasNextPage <==> r.page.totalPages == Some(r.page.pageNumber)
  {
    PurchaseListing(PurchaseFilter(search), ParseSort(sort),
                    Paginate(rows, ProjectPurchase, pageNumber, pageSize))
  }

  /** `getPurchase`: nothing for an unknown id, else the purchase without its id. */
  function GetPurchase(purchase: Option<Purchase>): (r: Option<PurchaseView>)
    ensures r.None? <==> purchase.None?
    ensures r.Some? ==>
              && r.value.product == purchase.value.product
              && r.value.price == purchase.value.price
              && r.value.quantity == purchase.value.quantity
              && r.value.shippingAddress == purchase.value.shippingAddress
              && r.value.datePurchased == purchase.value.datePurchased
  {
    match purchase
    case None => None
    case Some(p) => Some(ProjectPurchase(p))
  }

  /** Purchases that differ only in their id are listed identically: the id is
      not exposed. */
  lemma ListingHidesId(search: string, sort: Option<string>, pageNumber: Option<int>,
                       pageSize: Option<int>, rows: seq<Purchase>, ids: seq<string>)
    requires |ids| == |rows|
    ensures var rows' := seq(|rows|, i requires 0 <= i < |rows| => rows[i].(id := ids[i]));
            GetPurchases(search, sort, pageNumber, pageSize, rows)
            == GetPurchases(search, sort, pageNumber, pageSize, rows')
  {
  }

  /** `"<key>:<pattern>"` filters the field named by the key when it is one of
      the five accepted keys, and nothing otherwise. */
  lemma PurchaseSearchByKey(key: string, pattern: string)
    requires ':' !in key && ':' !in pattern
    ensures PurchaseFilter(key + ":" + pattern) ==
            if key in PurchaseSearchKeys then CaseInsensitiveRegex(key, Some(pattern)) else MatchAll
  {
    SearchOfKeyAndPattern(key, pattern);
  }
}
