/** The pure part of the products service: the list query. */
module ProductsService {
  import opened Options
  import opened ListQuery

  /** A product document. */
  datatype Product = Product(id: string, productName: string, stock: int, price: int)

  /** What the product list shows of a product. */
  datatype ProductRow = ProductRow(id: string, productName: string, stock: int, price: int)

  /** The search keys the product list accepts. `"stock"` filters the
      `shipping_address` field, which products do not have, not `stock`. */
  function ProductFilter(search: string): (f: Filter)
    ensures var k := SearchTerms(search).key;
            f != MatchAll <==> k == "product_name" || k == "stock" || k == "price"
    ensures f.CaseInsensitiveRegex? ==> f.pattern == SearchTerms(search).pattern
    ensures SearchTerms(search).key == "product_name" ==> f.field == "product_name"
    ensures SearchTerms(search).key == "stock" ==> f.field == "shipping_address"
    ensures SearchTerms(search).key == "price" ==> f.field == "price"
  {
    var t := SearchTerms(search);
    if t.key == "product_name" then RegexOn("product_name", t)
    else if t.key == "stock" then RegexOn("shipping_address", t)
    else if t.key == "price" then RegexOn("price", t)
    else MatchAll
  }

  function ProjectProduct(p: Product): ProductRow {
    ProductRow(p.id, p.productName, p.stock, p.price)
  }

  /** The filter and sort handed to the store, and the page returned. */
  datatype ProductListing = ProductListing(filter: Filter, sort: SortSpec, page: Page<ProductRow>)

  /** `getProducts`: `rows` are what the store returned for the filter and sort. */
  function GetProducts(search: string, sort: Option<string>, pageNumber: Option<int>,
                       pageSize: Option<int>, rows: seq<Product>): (r: ProductListing)
    ensures r.filter == ProductFilter(search) && r.sort == ParseSort(sort)
    ensures r.page.count == |rows| == |r.page.data|
    ensures forall i | 0 <= i < |rows| ::
              r.page.data[i] == ProductRow(rows[i].id, rows[i].productName, rows[i].stock, rows[i].price)
    ensures r.page.pageNumber == ResolvePageNumber(pageNumber)
    ensures r.page.pageSize == ResolvePageSize(pageSize, |rows|)
    ensures r.page.totalPages == TotalPages(|rows|, r.page.pageSize)
    ensures r.page.hasPreviousPage <==> r.page.pageNumber > 1
    ensures !r.page.hasNextPage <==> r.page.totalPages == Some(r.page.pageNumber)
  {
    ProductListing(ProductFilter(search), ParseSort(sort),
                   Paginate(rows, ProjectProduct, pageNumber, pageSize))
  }

  /** No product search ever filters on `stock`. */
  lemma NoSearchFiltersStock(search: string)
    ensures ProductFilter(search) != MatchAll ==> ProductFilter(search).field != "stock"
  {
  }
}
