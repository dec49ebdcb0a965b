# Order creation in the order provider

This project models the order-creation endpoint of an e-commerce order
service. A client posts a create-order request holding a user id, a shipping
choice (carrier, method, price), a delivery address, a list of products and a
payment-confirmed flag. The controller runs these steps in a fixed order,
and the first one that fails ends the request:

1. The framework's presence check. It covers the four request properties
   marked required and the string properties of the shipping choice and of
   every product entry.
2. The payment check.
3. A walk over the product list. It rejects at the first entry without stock
   and otherwise adds up the prices.
4. It adds the shipping price.
5. It builds the order row. The row holds a display string
   "<company> <method>", the user id, the delivery address in two columns,
   the serialised product list and the total.
6. It hands the row to the order store and turns the store's yes/no into a
   created response or a database-error rejection.

Modules:

- `Models` (models.dfy): the request, product, shipping-choice and order-row
  shapes, the response, and the three rejection texts.
- `Validation` (validation.dfy): the presence check. A required value must
  be present. A required string must also contain a character that is not
  white space, using the .NET definition of white space. The models
  initialise their non-nullable string properties with `= null!`
  (Infrastructure/Models/CreateOrderModel.cs:9-18,
  Infrastructure/Models/ShippingChoice.cs:5-7,
  Infrastructure/Models/ProductModel.cs:5-7). Elsewhere the code writes
  `string?` (Infrastructure/Models/CartModel.cs:7). So nullable reference
  types are enabled, and the framework treats every non-nullable string
  property as required. Hence the `Id`, `ShippingCompanyName` and
  `ShippingMethod` of the shipping choice are checked too. So are the `Id`,
  `Name` and `Description` of each product entry. The failing fields are
  reported as a set of keys. A key names a request property, a
  shipping-choice property, or a property of the product entry at a given
  position.
- `Pricing` (pricing.dfy): the price sum as a specification function
  `SumPrices`, the stock condition, and lemmas about the sum: it splits over
  concatenation, ignores list order, and counts duplicates once per entry.
- `Repositories` (repositories.dfy): the order store, a class. Whether a
  create succeeds is an oracle, a fixed function of the stored rows and the
  new row. A store may start over rows that are already there. A ghost log
  records every row offered to it.
- `Controllers` (controllers.dfy): the controller class. `CreateOrder` is a
  method whose loop keeps "the accumulator is the sum of the prefix, and
  every entry of the prefix is in stock". Beside it are the specification
  functions `NewEntity`, `OrderTotal`, `PassesChecks` and `ShippingLabel`.

Modelling choices:

- C# `decimal` is exact decimal arithmetic, so it is modelled as `real`.
  Stock is `int`.
- The generated order id is the `newId` parameter. The JSON serialiser of
  the product list is the `toJson` function parameter. It is uninterpreted.
- The product model declares its stock property as `InStock`
  (Infrastructure/Models/ProductModel.cs:8), while the controller reads
  `Stock` (OrderProvider/Controllers/OrderController.cs:36). The model has
  one `stock` field.
- The order entity as declared (Infrastructure/Entities/OrderEntity.cs:6-19)
  lacks `Address`, `DeliveryAddress` and `ShippingChoice`, which the
  controller sets. The model's row includes them. `DeliveryAddress` is
  optional, as its column is nullable in
  Infrastructure/Migrations/20241106121445_OrderEntityColumnsAdded.cs:14-18.
- The presence check runs before the payment check.
- An empty product list is accepted, and the total is then the shipping
  price.
- No promo code is applied.

## Model

| member | source | states |
|---|---|---|
| `Controllers.OrderController.CreateOrder` | OrderProvider/Controllers/OrderController.cs:21-76 | A request failing the presence check is answered with the set of failing keys and the store is untouched. Otherwise an unconfirmed payment gets the payment rejection whatever the products are, and the store is untouched. Otherwise any product with stock below 1 gets the not-in-stock rejection, and the store is untouched. A request passing all three is offered to the store exactly once, as the row `NewEntity` describes. The response is `Created` with that row when the store accepts it, else the database-error rejection. |
| `Controllers.OrderController.constructor` | OrderProvider/Controllers/OrderController.cs:15-19 | The controller keeps the store it is given. |
| `Validation.ValidationErrors` | Infrastructure/Models/CreateOrderModel.cs:8-18 | The set of failing keys is empty exactly when the request passes the presence check, nested properties included. Each of UserId, ShippingChoice, DeliveryAddress and ProductList is reported exactly when that property fails its check. |
| `Validation.ShippingErrors` | Infrastructure/Models/ShippingChoice.cs:5-7 | The shipping choice's keys are empty exactly when it is valid. Id, ShippingCompanyName and ShippingMethod are each reported exactly when missing, empty or blank. Only shipping keys are reported. |
| `Validation.EntryErrors` | Infrastructure/Models/ProductModel.cs:5-7 | One product entry's keys are empty exactly when the entry is valid. Id, Name and Description are each reported, under the entry's position, exactly when missing, empty or blank. |
| `Validation.ProductErrors` | Infrastructure/Models/CreateOrderModel.cs:17-18 | The product keys are empty exactly when every entry is valid. For every position k in the list, each of the entry's three string properties is reported under k exactly when it fails. No key names a position outside the list. |
| `Validation.ShippingErrorsReported` | Infrastructure/Models/CreateOrderModel.cs:11-12 | A shipping-property key is reported exactly when the shipping choice is present and reports it. A missing shipping choice yields its own key only. |
| `Validation.ProductErrorsReported` | Infrastructure/Models/CreateOrderModel.cs:17-18 | A product-property key is reported exactly when the product list is present and reports it. A missing list yields its own key only. |
| `Validation.VisibleCharPasses` | Infrastructure/Models/CreateOrderModel.cs:8-15 | A present string with any character that is not white space passes the check. |
| `Validation.BlankStringFails` | Infrastructure/Models/CreateOrderModel.cs:8-15 | A required string that is missing, empty or made only of white space fails the presence check. |
| `Pricing.SumPricesAppend` | OrderProvider/Controllers/OrderController.cs:32-42 | The price sum of two lists joined is the sum of their price sums. |
| `Pricing.SumPricesRemoveAt` | OrderProvider/Controllers/OrderController.cs:32-42 | Taking one entry out of a list lowers the price sum by exactly that entry's price. |
| `Pricing.SumPricesPermutation` | OrderProvider/Controllers/OrderController.cs:32-42 | Two lists holding the same entries, each the same number of times, have the same price sum. |
| `Pricing.SumPricesOfCopies` | OrderProvider/Controllers/OrderController.cs:34-42 | n entries of one product sum to n times its price, so duplicates count once per occurrence. |
| `Pricing.SumPricesExtraCopy` | OrderProvider/Controllers/OrderController.cs:34-42 | Inserting one more entry of a listed product, at any position, raises the sum by exactly its price. |
| `Controllers.EmptyListTotal` | OrderProvider/Controllers/OrderController.cs:32-44 | With an empty product list the total is the shipping price. |
| `Controllers.OrderTotalIgnoresListOrder` | OrderProvider/Controllers/OrderController.cs:32-44 | Two valid requests with the same shipping choice and the same products, in any order, have the same total. |
| `Controllers.ShippingLabel` | OrderProvider/Controllers/OrderController.cs:54 | The stored shipping string is the company name, one space, then the delivery method. Its length is the sum of theirs plus one. |
| `Controllers.ShippingLabelDeterminesChoice` | OrderProvider/Controllers/OrderController.cs:54 | When company names contain no space, equal shipping strings mean equal company and equal method. |
| `Controllers.ShippingLabelAmbiguous` | OrderProvider/Controllers/OrderController.cs:54 | For any parts, a company name with a space before the last part and the method, or the company name without that part and the method with it prepended, give the same shipping string, so the string does not determine the pair. |
| `Repositories.OrderRepository.CreateAsync` | Infrastructure/Repositories/OrderRepository.cs:6-11 | A create answers the oracle's verdict on the stored rows and the new row. It logs the offered row in the ghost log. It keeps the row exactly when it answers true. |
| `Repositories.OrderRepository.constructor` | Infrastructure/Repositories/OrderRepository.cs:8-10 | A new store holds exactly the rows its database already holds, and nothing has yet been offered through it. |

## Left out

- The store's implementation is not part of this model: the generic base
  repository and the database layer under it. Whether a create succeeds is
  an oracle, so the claim that a row without an id is refused is not
  modelled.
- Exceptions and the catch-all handler (OrderProvider/Controllers/OrderController.cs:72-75)
  are not modelled. They cover a store outage, a null entry inside the
  product list, and `decimal` overflow beyond about 7.9 × 10^28.
- `decimal` rounding beyond 28-29 significant digits is not modelled, because
  real arithmetic is exact.
- The presence check's error messages are not modelled. The response
  carries only the keys of the failing fields.
- Validation.ValidationErrors: reports every failing field. The framework
  stops recording field errors at its model-error cap (200 by default) and
  then adds one error under the root key. That cap and that root error are
  not modelled, so past the cap the model lists keys the framework omits.
  Whether the request is rejected is unaffected.
- Validation.ProductErrorsReported: its "exactly when" holds for the
  framework only below the same 200-error cap. Entry keys past the cap are
  not reported by the framework, and the model does not capture the cap.
- Controllers.OrderController.CreateOrder: its invalid-request response
  carries the uncapped key set, for the same reason. The cap does not
  change which branch is taken.
- The `Status`, `DeliveryDate` and `PromoCode` columns are not modelled.
  The controller never assigns them, and the entity's initial values for
  them are not part of this model.
- Product-list serialisation is a parameter, not modelled.
- Id generation is a parameter, not modelled.
- The request routing and the response types are reduced to the `Response`
  datatype.
- The database context, the migrations and the in-memory-database test
  fixtures are persistence plumbing.
- The order-service interface has no implementation and is left out.
- The cart, user, order and address models carry no behaviour in the
  modelled code.
