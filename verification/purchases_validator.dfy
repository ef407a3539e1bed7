/** The body rules of the purchase routes. */
module PurchasesValidator {
  import opened JoiRules

  /** New purchase: product and shipping address of 1 to 100 UTF-16 units,
      whole price and quantity from 1 to 99999, and an optional date. */
  function CreatePurchase(body: Body): (ok: bool)
    ensures ok ==> "product" in body && "price" in body && "quantity" in body && "shipping_address" in body
    ensures ok ==> StringIn(body, "product", 1, 100) && StringIn(body, "shipping_address", 1, 100)
    ensures ok ==> body["price"].Num? && body["quantity"].Num?
    ensures ok ==> 1 <= body["price"].x.Floor <= 99999 && 1 <= body["quantity"].x.Floor <= 99999
    ensures ok ==> IntegerIn(body, "price", 1, 99999) && IntegerIn(body, "quantity", 1, 99999)
    ensures ok ==> IsInteger(body["price"].x) && IsInteger(body["quantity"].x)
    ensures ok && "date_purchased" in body ==> body["date_purchased"].DateValue?
  {
    && StringIn(body, "product", 1, 100)
    && IntegerIn(body, "price", 1, 99999)
    && IntegerIn(body, "quantity", 1, 99999)
    && StringIn(body, "shipping_address", 1, 100)
    && OptionalDate(body, "date_purchased")
  }

  /** Purchase update: a customer name of 1 to 20 UTF-16 units, a product of 1
      to 100, and whole price and quantity from 1 to 20. Every price and
      quantity it accepts, purchase creation accepts too. */
  function UpdatePurchase(body: Body): (ok: bool)
    ensures ok ==> StringIn(body, "customer_name", 1, 20)
    ensures ok ==> StringIn(body, "product", 1, 100)
    ensures ok ==> IntegerIn(body, "price", 1, 99999) && IntegerIn(body, "quantity", 1, 99999)
    ensures ok ==> body["price"].Num? && body["quantity"].Num?
    ensures ok ==> body["price"].x.Floor <= 20 && body["quantity"].x.Floor <= 20
  {
    && StringIn(body, "customer_name", 1, 20)
    && StringIn(body, "product", 1, 100)
    && IntegerIn(body, "price", 1, 20)
    && IntegerIn(body, "quantity", 1, 20)
  }

  /** A purchase body without a date is accepted exactly when product and
      address have 1 to 100 UTF-16 units and price and quantity are whole
      numbers from 1 to 99999. */
  lemma CreatePurchaseBounds(body: Body, product: string, address: string, price: int, quantity: int)
    requires "product" in body && body["product"] == Str(product)
    requires "shipping_address" in body && body["shipping_address"] == Str(address)
    requires "price" in body && body["price"] == Num(price as real)
    requires "quantity" in body && body["quantity"] == Num(quantity as real)
    requires "date_purchased" !in body
    ensures CreatePurchase(body) <==>
              && 1 <= Utf16Length(product) <= 100 && 1 <= Utf16Length(address) <= 100
              && 1 <= price <= 99999 && 1 <= quantity <= 99999
  {
  }

  /** A purchase update is accepted exactly when the customer name has 1 to
      20 UTF-16 units, the product 1 to 100, and price and quantity are whole
      numbers from 1 to 20. */
  lemma UpdatePurchaseBounds(body: Body, customer: string, product: string, price: int, quantity: int)
    requires "customer_name" in body && body["customer_name"] == Str(customer)
    requires "product" in body && body["product"] == Str(product)
    requires "price" in body && body["price"] == Num(price as real)
    requires "quantity" in body && body["quantity"] == Num(quantity as real)
    ensures UpdatePurchase(body) <==>
              && 1 <= Utf16Length(customer) <= 20 && 1 <= Utf16Length(product) <= 100
              && 1 <= price <= 20 && 1 <= quantity <= 20
  {
  }

  /** A fractional price or quantity is refused by purchase creation. */
  lemma FractionalPriceOrQuantityRefused(body: Body)
    requires ("price" in body && body["price"] == Num(2.5)) || ("quantity" in body && body["quantity"] == Num(2.5))
    ensures !CreatePurchase(body)
  {
  }

  /** A purchase with product, price, quantity and address is accepted without
      a date, and with one, but not with a date field of another kind. */
  lemma PurchaseDateIsOptional(body: Body)
    requires StringIn(body, "product", 1, 100) && StringIn(body, "shipping_address", 1, 100)
    requires IntegerIn(body, "price", 1, 99999) && IntegerIn(body, "quantity", 1, 99999)
    ensures "date_purchased" !in body ==> CreatePurchase(body)
    ensures "date_purchased" in body ==> (CreatePurchase(body) <==> body["date_purchased"].DateValue?)
  {
  }

  /** A whole-number price and quantity are accepted by creation exactly
      within 1..99999, and by update exactly within 1..20. */
  lemma PriceQuantityBounds(body: Body, price: int, quantity: int)
    requires "price" in body && body["price"] == Num(price as real)
    requires "quantity" in body && body["quantity"] == Num(quantity as real)
    ensures IntegerIn(body, "price", 1, 99999) && IntegerIn(body, "quantity", 1, 99999)
            <==> 1 <= price <= 99999 && 1 <= quantity <= 99999
    ensures IntegerIn(body, "price", 1, 20) && IntegerIn(body, "quantity", 1, 20)
            <==> 1 <= price <= 20 && 1 <= quantity <= 20
  {
  }

  /** Every price and quantity an update accepts, creation accepts too; the
      converse fails, for instance at 21. */
  lemma UpdateNumbersWithinCreate(body: Body)
    ensures IntegerIn(body, "price", 1, 20) ==> IntegerIn(body, "price", 1, 99999)
    ensures IntegerIn(body, "quantity", 1, 20) ==> IntegerIn(body, "quantity", 1, 99999)
    ensures body == map["price" := Num(21.0)] ==>
              IntegerIn(body, "price", 1, 99999) && !IntegerIn(body, "price", 1, 20)
  {
  }
}
