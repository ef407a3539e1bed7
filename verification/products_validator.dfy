/** The body rules of the product routes. */
module ProductsValidator {
  import opened JoiRules

  /** Purchase of a product: a whole quantity from 1 to 99999. */
  function CreatePurchase(body: Body): (ok: bool)
    ensures ok <==> "quantity" in body && body["quantity"].Num? && IsInteger(body["quantity"].x)
                    && 1 <= body["quantity"].x.Floor <= 99999
  {
    IntegerIn(body, "quantity", 1, 99999)
  }

  /** New product: a name of 1 to 100 UTF-16 units, and whole stock and price
      from 1 to 99999. */
  function CreateProduct(body: Body): (ok: bool)
    ensures ok ==> "product_name" in body && "stock" in body && "price" in body
    ensures ok ==> body["product_name"].Str? && body["product_name"].s != ""
    ensures ok ==> body["stock"].Num? && body["price"].Num?
    ensures ok ==> 1 <= body["stock"].x.Floor <= 99999 && 1 <= body["price"].x.Floor <= 99999
    ensures ok ==> StringIn(body, "product_name", 1, 100)
    ensures ok ==> IntegerIn(body, "stock", 1, 99999) && IntegerIn(body, "price", 1, 99999)
    ensures ok ==> IsInteger(body["stock"].x) && IsInteger(body["price"].x)
  {
    && StringIn(body, "product_name", 1, 100)
    && IntegerIn(body, "stock", 1, 99999)
    && IntegerIn(body, "price", 1, 99999)
  }

  /** Product update: declared separately, it accepts exactly the bodies a
      new product accepts. */
  function UpdateProduct(body: Body): (ok: bool)
    ensures ok <==> CreateProduct(body)
  {
    && StringIn(body, "product_name", 1, 100)
    && IntegerIn(body, "stock", 1, 99999)
    && IntegerIn(body, "price", 1, 99999)
  }

  /** A purchase body is accepted exactly when its quantity is a whole number
      from 1 to 99999. */
  lemma PurchaseQuantityBounds(body: Body, q: int)
    requires "quantity" in body && body["quantity"] == Num(q as real)
    ensures CreatePurchase(body) <==> 1 <= q <= 99999
  {
  }

  /** A fractional quantity is refused whatever its size. */
  lemma FractionalQuantityRefused(body: Body)
    requires "quantity" in body && body["quantity"] == Num(1.5)
    ensures !CreatePurchase(body)
  {
  }

  /** A new product with zero stock or a zero price is refused. */
  lemma ZeroStockOrPriceRefused(body: Body)
    requires ("stock" in body && body["stock"] == Num(0.0)) || ("price" in body && body["price"] == Num(0.0))
    ensures !CreateProduct(body)
  {
  }

  /** A product with a name, stock and price is accepted exactly when the
      name has 1 to 100 UTF-16 units and stock and price lie in 1..99999. */
  lemma CreateProductBounds(body: Body, name: string, stock: int, price: int)
    requires "product_name" in body && body["product_name"] == Str(name)
    requires "stock" in body && body["stock"] == Num(stock as real)
    requires "price" in body && body["price"] == Num(price as real)
    ensures CreateProduct(body) <==>
              1 <= Utf16Length(name) <= 100 && 1 <= stock <= 99999 && 1 <= price <= 99999
  {
  }

  /** A fractional stock or price is refused, however small its excess. */
  lemma FractionalStockOrPriceRefused(body: Body)
    requires ("stock" in body && body["stock"] == Num(2.5)) || ("price" in body && body["price"] == Num(2.5))
    ensures !CreateProduct(body)
  {
  }

  /** A name of 60 emoji is 60 characters but 120 UTF-16 units, so it is too
      long for a product name. */
  lemma SixtyEmojiNameRefused(body: Body)
    requires "product_name" in body && body["product_name"] == Str(seq(60, _ => '\U{1F600}'))
    ensures !CreateProduct(body)
  {
    var name := seq(60, _ => '\U{1F600}');
    assert IsAstral(name);
  }
}
