/** Request, product, shipping and entity shapes of the order provider.
    Monetary amounts are C# `decimal` values, which are exact decimal
    numbers; they are modelled as `real`. */
module Models {

  /** A value the client may leave out (a C# `null`). */
  datatype Option<+T> = None | Some(value: T)

  /** A product line of the request. Duplicate entries in a list stand for
      several units of the same product; there is no quantity field. The
      string properties are non-nullable references, so the framework's
      presence check also requires them; the client may still omit them. */
  datatype ProductModel = ProductModel(
    id: Option<string>,
    name: Option<string>,
    description: Option<string>,
    stock: int,
    price: real)

  /** The carrier and delivery method the customer picked. Its string
      properties are checked for presence like those of a product. */
  datatype ShippingChoice = ShippingChoice(
    id: Option<string>,
    shippingCompanyName: Option<string>,
    shippingMethod: Option<string>,
    shippingPrice: real)

  /** The body of a create-order request. The four properties marked
      required are optional here, so that their absence can be checked; the
      payment flag defaults to false and is never missing. */
  datatype CreateOrderModel = CreateOrderModel(
    userId: Option<string>,
    shippingChoice: Option<ShippingChoice>,
    deliveryAddress: Option<string>,
    productList: Option<seq<ProductModel>>,
    paymentIsConfirmed: bool)

  /** The persisted order row. `shippingChoice` is the display string of the
      chosen carrier and method, `productList` the serialised product list;
      `deliveryAddress` is a nullable column. */
  datatype OrderEntity = OrderEntity(
    id: string,
    userId: string,
    address: string,
    deliveryAddress: Option<string>,
    shippingChoice: string,
    productList: string,
    priceTotal: real)

  /** The request properties marked required. */
  datatype RequestField = RequestUserId | RequestShippingChoice | RequestDeliveryAddress | RequestProductList
  /** The checked string properties of a shipping choice. */
  datatype ShippingField = ShippingId | ShippingCompanyName | ShippingMethod
  /** The checked string properties of a product entry. */
  datatype ProductField = ProductId | ProductName | ProductDescription

  /** The key of a field that failed the presence check: a property of the
      request, a property of its shipping choice, or a property of the
      product entry at `index` of its product list. */
  datatype FieldKey =
    | Top(field: RequestField)
    | OfShipping(shippingField: ShippingField)
    | OfProduct(index: nat, productField: ProductField)

  /** What the create endpoint answers: the created row, a rejection with a
      reason text, or a rejection listing the fields that failed the
      presence check. */
  datatype Response =
    | Created(entity: OrderEntity)
    | BadRequest(message: string)
    | InvalidModel(invalidFields: set<FieldKey>)

  const PaymentNotConfirmed: string := "The payment for this order has not been confirmed."
  const NotInStock: string := "One or more of the provided products are not in stock"
  const DatabaseError: string := "Error while adding order to database"
}
