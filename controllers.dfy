/** The create-order endpoint: presence check, payment check, stock check
    with the price sum, shipping, building the row, and handing it to the
    store. */
module Controllers {
  import opened Models
  import opened Pricing
  import opened Validation
  import opened Repositories

  /** The display string stored for the chosen shipping: the company name,
      one space, then the method. */
  function ShippingLabel(company: string, deliveryMethod: string): (display: string)
    ensures |display| == |company| + 1 + |deliveryMethod|
    ensures display[..|company|] == company
    ensures display[|company|] == ' '
    ensures display[|company| + 1..] == deliveryMethod
  {
    company + " " + deliveryMethod
  }

  /** When the company name holds no space, the label determines both the
      company and the method. */
  lemma ShippingLabelDeterminesChoice(
    companyA: string, methodA: string, companyB: string, methodB: string)
    requires ' ' !in companyA && ' ' !in companyB
    requires ShippingLabel(companyA, methodA) == ShippingLabel(companyB, methodB)
    ensures companyA == companyB && methodA == methodB
  {
  }

  /** Without that condition the label is ambiguous: a space may belong to
      the company name or to the method, for every choice of the parts. */
  lemma ShippingLabelAmbiguous(companyStart: string, companyEnd: string, deliveryMethod: string)
    ensures ShippingLabel(companyStart + " " + companyEnd, deliveryMethod)
         == ShippingLabel(companyStart, companyEnd + " " + deliveryMethod)
  {
    assert companyStart + " " + companyEnd + " " + deliveryMethod
        == companyStart + " " + (companyEnd + " " + deliveryMethod);
  }

  /** The amount charged: every product entry's price plus the shipping price. */
  function OrderTotal(order: CreateOrderModel): real
    requires IsValid(order)
  {
    SumPrices(order.productList.value) + order.shippingChoice.value.shippingPrice
  }

  /** With an empty product list the customer pays the shipping price only. */
  lemma EmptyListTotal(order: CreateOrderModel)
    requires IsValid(order) && order.productList.value == []
    ensures OrderTotal(order) == order.shippingChoice.value.shippingPrice
  {
  }

  /** Listing the same products in another order does not change the total. */
  lemma {:induction false} OrderTotalIgnoresListOrder(a: CreateOrderModel, b: CreateOrderModel)
    requires IsValid(a) && IsValid(b)
    requires a.shippingChoice == b.shippingChoice
    requires multiset(a.productList.value) == multiset(b.productList.value)
    ensures OrderTotal(a) == OrderTotal(b)
  {
    SumPricesPermutation(a.productList.value, b.productList.value);
  }

  /** The request reaches the store: it passes the presence check, its
      payment is confirmed and every product entry is in stock. */
  predicate PassesChecks(order: CreateOrderModel)
  {
    IsValid(order) && order.paymentIsConfirmed && AllInStock(order.productList.value)
  }

  /** The row built for an accepted request. Both address columns take the
      delivery address of the request. */
  function NewEntity(order: CreateOrderModel, newId: string, productListJson: string): OrderEntity
    requires IsValid(order)
  {
    OrderEntity(
      id := newId,
      userId := order.userId.value,
      address := order.deliveryAddress.value,
      deliveryAddress := Some(order.deliveryAddress.value),
      shippingChoice := ShippingLabel(
        order.shippingChoice.value.shippingCompanyName.value,
        order.shippingChoice.value.shippingMethod.value),
      productList := productListJson,
      priceTotal := OrderTotal(order))
  }

  class OrderController {
    const repo: OrderRepository

    constructor (repo: OrderRepository)
      ensures this.repo == repo
    {
      this.repo := repo;
    }

    /** Handles a create-order request. `newId` is the freshly generated
        identifier and `toJson` the serialiser of the product list.
        The rejections come in a fixed order: presence check, then payment,
        then stock; none of them touches the store. A request that passes
        all three is offered to the store exactly once. */
    method CreateOrder(order: CreateOrderModel, newId: string, toJson: seq<ProductModel> -> string)
      returns (response: Response)
      modifies repo
      ensures !IsValid(order) ==>
        response == InvalidModel(ValidationErrors(order)) && unchanged(repo)
      ensures IsValid(order) && !order.paymentIsConfirmed ==>
        response == BadRequest(PaymentNotConfirmed) && unchanged(repo)
      ensures IsValid(order) && order.paymentIsConfirmed && !AllInStock(order.productList.value) ==>
        response == BadRequest(NotInStock) && unchanged(repo)
      ensures PassesChecks(order) ==>
        var entity := NewEntity(order, newId, toJson(order.productList.value));
        var created := repo.accepts(old(repo.orders), entity);
        && repo.requests == old(repo.requests) + [entity]
        && repo.orders == (if created then old(repo.orders) + [entity] else old(repo.orders))
        && response == (if created then Created(entity) else BadRequest(DatabaseError))
    {
      if !IsValid(order) {
        return InvalidModel(ValidationErrors(order));
      }
      if !order.paymentIsConfirmed {
        return BadRequest(PaymentNotConfirmed);
      }

      var products := order.productList.value;
      var priceTotal := 0.0;
      for i := 0 to |products|
        invariant priceTotal == SumPrices(products[..i])
        invariant AllInStock(products[..i])
      {
        if products[i].stock < 1 {
          return BadRequest(NotInStock);
        }
        assert products[..i + 1][..i] == products[..i];
        priceTotal := priceTotal + products[i].price;
      }
      assert products[..|products|] == products;

      var shipping := order.shippingChoice.value;
      priceTotal := priceTotal + shipping.shippingPrice;

      var productListJson := toJson(products);
      var entity := OrderEntity(
        id := newId,
        userId := order.userId.value,
        address := order.deliveryAddress.value,
        deliveryAddress := Some(order.deliveryAddress.value),
        shippingChoice := ShippingLabel(shipping.shippingCompanyName.value, shipping.shippingMethod.value),
        productList := productListJson,
        priceTotal := priceTotal);
      assert entity == NewEntity(order, newId, productListJson);

      var created := repo.CreateAsync(entity);
      if created {
        return Created(entity);
      }
      return BadRequest(DatabaseError);
    }
  }
}
