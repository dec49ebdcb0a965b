/** The presence check the framework runs on a create-order request before
    the action body. It applies to the four properties marked required and,
    because nullable reference types are enabled, to every non-nullable
    string property of the shipping choice and of each product entry. A
    required value must be present, and a required string must also hold a
    character other than white space. */
module Validation {
  import opened Models

  /** The characters .NET classifies as white space: the ASCII controls
      TAB..CR, the Unicode space separators, NEL, and the line and paragraph
      separators. */
  predicate IsWhiteSpace(c: char)
  {
    var n := c as int;
    (0x09 <= n <= 0x0D) || n == 0x20 || n == 0x85 || n == 0xA0 || n == 0x1680
    || (0x2000 <= n <= 0x200A) || n == 0x2028 || n == 0x2029 || n == 0x202F
    || n == 0x205F || n == 0x3000
  }

  /** The string holds a character other than white space. */
  predicate HasVisibleChar(s: string)
  {
    s != [] && (!IsWhiteSpace(s[0]) || HasVisibleChar(s[1..]))
  }

  /** A required string passes when it is present, non-empty and not made
      only of white space. */
  predicate RequiredString(s: Option<string>)
  {
    s.Some? && HasVisibleChar(s.value)
  }

  predicate ShippingChoiceValid(choice: ShippingChoice)
  {
    RequiredString(choice.id) && RequiredString(choice.shippingCompanyName)
    && RequiredString(choice.shippingMethod)
  }

  predicate ProductValid(product: ProductModel)
  {
    RequiredString(product.id) && RequiredString(product.name) && RequiredString(product.description)
  }

  /** The request passes the presence check. An empty product list passes;
      only a missing one, or an entry with a missing string, fails. */
  predicate IsValid(order: CreateOrderModel)
  {
    && RequiredString(order.userId)
    && order.shippingChoice.Some? && ShippingChoiceValid(order.shippingChoice.value)
    && RequiredString(order.deliveryAddress)
    && order.productList.Some?
    && forall i :: 0 <= i < |order.productList.value| ==> ProductValid(order.productList.value[i])
  }

  /** The keys of the shipping-choice properties that fail the check. */
  function ShippingErrors(choice: ShippingChoice): (errors: set<FieldKey>)
    ensures errors == {} <==> ShippingChoiceValid(choice)
    ensures OfShipping(ShippingId) in errors <==> !RequiredString(choice.id)
    ensures OfShipping(ShippingCompanyName) in errors <==> !RequiredString(choice.shippingCompanyName)
    ensures OfShipping(ShippingMethod) in errors <==> !RequiredString(choice.shippingMethod)
    ensures forall e :: e in errors ==> e.OfShipping?
  {
    (if RequiredString(choice.id) then {} else {OfShipping(ShippingId)})
    + (if RequiredString(choice.shippingCompanyName) then {} else {OfShipping(ShippingCompanyName)})
    + (if RequiredString(choice.shippingMethod) then {} else {OfShipping(ShippingMethod)})
  }

  /** The keys of the properties of the entry at `index` that fail the check. */
  function EntryErrors(product: ProductModel, index: nat): (errors: set<FieldKey>)
    ensures errors == {} <==> ProductValid(product)
    ensures OfProduct(index, ProductId) in errors <==> !RequiredString(product.id)
    ensures OfProduct(index, ProductName) in errors <==> !RequiredString(product.name)
    ensures OfProduct(index, ProductDescription) in errors <==> !RequiredString(product.description)
    ensures forall e :: e in errors ==> e.OfProduct? && e.index == index
  {
    (if RequiredString(product.id) then {} else {OfProduct(index, ProductId)})
    + (if RequiredString(product.name) then {} else {OfProduct(index, ProductName)})
    + (if RequiredString(product.description) then {} else {OfProduct(index, ProductDescription)})
  }

  /** The keys of the product-entry properties that fail the check. */
  function ProductErrors(products: seq<ProductModel>): (errors: set<FieldKey>)
    ensures errors == {} <==> forall i :: 0 <= i < |products| ==> ProductValid(products[i])
    ensures forall e :: e in errors ==> e.OfProduct? && e.index < |products|
    ensures forall k :: 0 <= k < |products| ==>
      && (OfProduct(k, ProductId) in errors <==> !RequiredString(products[k].id))
      && (OfProduct(k, ProductName) in errors <==> !RequiredString(products[k].name))
      && (OfProduct(k, ProductDescription) in errors <==> !RequiredString(products[k].description))
  {
    if products == [] then {}
    else
      var n := |products| - 1;
      ProductErrors(products[..n]) + EntryErrors(products[n], n)
  }

  /** The keys of all fields that fail the presence check. A missing
      shipping choice or product list is reported by its own key, without
      keys for its properties. */
  function ValidationErrors(order: CreateOrderModel): (errors: set<FieldKey>)
    ensures errors == {} <==> IsValid(order)
    ensures Top(RequestUserId) in errors <==> !RequiredString(order.userId)
    ensures Top(RequestShippingChoice) in errors <==> order.shippingChoice.None?
    ensures Top(RequestDeliveryAddress) in errors <==> !RequiredString(order.deliveryAddress)
    ensures Top(RequestProductList) in errors <==> order.productList.None?
  {
    var user := if RequiredString(order.userId) then {} else {Top(RequestUserId)};
    var shipping := match order.shippingChoice
      case None => {Top(RequestShippingChoice)}
      case Some(choice) => ShippingErrors(choice);
    var address := if RequiredString(order.deliveryAddress) then {} else {Top(RequestDeliveryAddress)};
    var products := match order.productList
      case None => {Top(RequestProductList)}
      case Some(products) => ProductErrors(products);
    assert Top(RequestUserId) !in shipping + products;
    assert Top(RequestDeliveryAddress) !in shipping + products;
    user + shipping + address + products
  }

  /** A key of a shipping-choice property is reported exactly when the
      shipping choice is present and that property fails its check. */
  lemma ShippingErrorsReported(order: CreateOrderModel)
    ensures forall e: FieldKey :: e.OfShipping? ==>
      (e in ValidationErrors(order)
       <==> order.shippingChoice.Some? && e in ShippingErrors(order.shippingChoice.value))
  {
  }

  /** A key of a product-entry property is reported exactly when the product
      list is present and that property of that entry fails its check. */
  lemma ProductErrorsReported(order: CreateOrderModel)
    ensures forall e: FieldKey :: e.OfProduct? ==>
      (e in ValidationErrors(order)
       <==> order.productList.Some? && e in ProductErrors(order.productList.value))
  {
  }

  /** A missing, empty or all-white-space string fails the check. */
  lemma {:induction false} BlankStringFails(s: string)
    requires forall i :: 0 <= i < |s| ==> IsWhiteSpace(s[i])
    ensures !RequiredString(Some(s)) && !RequiredString(None)
  {
    if s != [] {
      BlankStringFails(s[1..]);
    }
  }

  /** A string passes once any one of its characters is not white space. */
  lemma {:induction false} VisibleCharPasses(s: string, i: nat)
    requires i < |s| && !IsWhiteSpace(s[i])
    ensures RequiredString(Some(s))
  {
    if i > 0 {
      VisibleCharPasses(s[1..], i - 1);
    }
  }
}
