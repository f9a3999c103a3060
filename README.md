# Storefront state layer and checkout, in Dafny

This project models the client-side state of a small storefront and its checkout step.

- **Cart store** (`Cart`). A sequence of cart lines, each a product plus a quantity. It has
  `addItem`, `removeItem`, `updateQuantity` and `clearCart`, and two derived totals: the
  price total and the item count.
- **Session store** (`Session`). It holds the signed-in user, if any, and an
  authenticated flag. `login` and `logout` change them.
- **Order store** (`Orders`). An append-only history of orders, with a query for one
  user's orders.
- **Checkout page** (`Checkout`). It derives shipping, tax and the final total from the
  cart subtotal. It also holds the form schema's field rules, picks which view the page
  shows, and runs the submit step.

The submit step builds an order from a snapshot of the cart and the current user. The
order's owner is the guest id when nobody is signed in. The step appends the order to the
history and clears the cart.

Each store is a class whose fields its methods reassign. Every mutation is first written
as a pure function from the old line sequence to the new one (`Added`, `Removed`,
`Updated`). The lemmas are stated about those functions. The cart invariant is: at most
one line per product id, and every quantity at least 1. `RunWellFormed` proves that any
sequence of cart calls preserves it. Prices are exact rationals (`real`).

Files: `types.dfy` (shared value types), `cart.dfy`, `session.dfy`, `orders.dfy`,
`checkout.dfy`.

Behaviours of the code that the model keeps as written:

- The tax is `subtotal * 0.08` with no rounding to cents.
- The card number and CVV rules only check string length (16 and 3). They do not check
  that the characters are digits, although the error messages speak of digits.
- The owner falls back to `"guest"` when there is no user, and also when the user's id is
  the empty string.
- `addOrder` does not check order ids for collisions.
- The payment step always succeeds. There is no declined path.

## Model

| member | source | states |
|---|---|---|
| `Cart.CartStore.constructor` | lib/store.ts:31 | the cart starts empty, which is well-formed |
| `Cart.CartStore.AddItem` | lib/store.ts:32-47 | the new lines are `Added(old lines, product)`; a well-formed cart stays well-formed and its item count grows by exactly 1 |
| `Cart.Added` | lib/store.ts:32-47 | the cart gains a line only when the product's id is new to it; afterwards the product's id is present, and every other id is present exactly when it was before |
| `Cart.AddedExisting` | lib/store.ts:34-43 | if the product's id is already on line k, only line k changes, and its quantity goes up by exactly 1 |
| `Cart.AddedTimesNew` | lib/store.ts:44-45 | n ≥ 1 adds of a product not in the cart append one last line with the product and quantity n; every earlier line is untouched |
| `Cart.AddedAllSameId` | lib/store.ts:34-45 | repeated adds of product values that share one id new to the cart append a single last line: it keeps the first value's fields, price included, and its quantity counts every add |
| `Cart.AddedTotalsNew` | lib/store.ts:44-45 | adding a new product raises the item count by 1 and the total price by that product's price |
| `Cart.AddedTotalsExisting` | lib/store.ts:36-43 | adding a product already on line k raises the item count by 1 and the total price by the price stored on line k |
| `Cart.AddedWellFormed` | lib/store.ts:32-47 | `addItem` keeps at most one line per id and every quantity ≥ 1 |
| `Cart.CartStore.RemoveItem` | lib/store.ts:48-50 | the new lines are `Removed(old lines, id)`; no line with that id remains; well-formedness is kept |
| `Cart.Removed` | lib/store.ts:48-50 | the result holds exactly the lines whose id differs from `id`, and is never longer than the input |
| `Cart.RemovedConcat` | lib/store.ts:49 | removal distributes over concatenation, so the lines that remain keep their relative order |
| `Cart.RemovedPresent` | lib/store.ts:49 | in a well-formed cart, removing the id of line k gives exactly the lines before k followed by the lines after k |
| `Cart.RemovedAbsent` | lib/store.ts:49 | removing an id that no line has changes nothing |
| `Cart.RemovedTotals` | lib/store.ts:48-50 | removing line k lowers the item count by its quantity and the total price by its price × quantity |
| `Cart.RemovedWellFormed` | lib/store.ts:48-50 | `removeItem` keeps the cart invariant |
| `Cart.CartStore.UpdateQuantity` | lib/store.ts:51-61 | the new lines are `Updated(old lines, id, q)`; for q ≤ 0 this is exactly the result of `RemoveItem(id)`; well-formedness is kept |
| `Cart.Updated` | lib/store.ts:51-61 | for q ≤ 0 the id is no longer in the cart; for q > 0 no line is added or dropped; the presence of every other id is unchanged either way |
| `Cart.UpdatedPresent` | lib/store.ts:56-60 | for q > 0 in a well-formed cart, only line k changes, and its quantity becomes q outright |
| `Cart.UpdatedAbsent` | lib/store.ts:51-61 | updating an id that no line has changes nothing, whatever q is |
| `Cart.UpdatedTotals` | lib/store.ts:56-60 | setting line k to q > 0 moves the item count by q minus the old quantity, and the price by the line's price times that difference |
| `Cart.UpdatedWellFormed` | lib/store.ts:51-61 | `updateQuantity` keeps the cart invariant, in both the remove branch and the set branch |
| `Cart.CartStore.ClearCart` | lib/store.ts:62 | the cart is empty afterwards, so the item count is 0 and the total price is 0 |
| `Cart.RunWellFormed` | lib/store.ts:32-62 | any sequence of add, remove, update and clear calls on a well-formed cart leaves it well-formed |
| `Cart.ReducePriceIsSum` | lib/store.ts:64 | the left-to-right fold with an accumulator equals the accumulator plus the sum of price × quantity |
| `Cart.ReduceQuantityIsSum` | lib/store.ts:67 | the left-to-right quantity fold equals the accumulator plus the sum of the quantities |
| `Cart.TotalPriceOf` | lib/store.ts:63-65 | the total price, folded from 0, is the sum over the lines of price × quantity (0 for an empty cart) |
| `Cart.TotalItemsOf` | lib/store.ts:66-68 | the item count, folded from 0, is the sum of the quantities (0 for an empty cart) |
| `Cart.CartStore.TotalPrice` | lib/store.ts:63-65 | the store's total price is the sum over its current lines of price × quantity, and 0 for an empty cart |
| `Cart.CartStore.TotalItems` | lib/store.ts:66-68 | the store's item count is the sum of its current quantities, and 0 for an empty cart |
| `Cart.TotalItemsCountsLines` | lib/store.ts:66-68 | in a well-formed cart, the item count is at least the number of lines, and it is 0 exactly when the cart is empty |
| `Cart.TotalPriceNonNegative` | lib/store.ts:63-65 | with non-negative prices, the total price is non-negative |
| `Session.UserStore.constructor` | lib/store.ts:77-78 | a new session has no user and is not authenticated |
| `Session.UserStore.Login` | lib/store.ts:79 | the user becomes the given identity; authenticated is true |
| `Session.UserStore.Logout` | lib/store.ts:80 | the user is cleared; authenticated is false; only the session object may change |
| `Orders.OrderStore.constructor` | lib/store.ts:89 | the order history starts empty |
| `Orders.OrderStore.AddOrder` | lib/store.ts:90-92 | the history becomes the old history followed by the order; the old history is its prefix; each user's list gains the order at its end only if the user owns it |
| `Orders.OrdersOf` | lib/store.ts:93-95 | the result holds exactly the orders whose owner is `userId` |
| `Orders.OrdersOfConcat` | lib/store.ts:94 | the query distributes over concatenation, which keeps insertion order |
| `Orders.OrdersOfAppend` | lib/store.ts:90-95 | after an append, the new order is last in its owner's list; every other user's list is unchanged |
| `Orders.OrderStore.OrdersByUserId` | lib/store.ts:93-95 | the store's query returns exactly the orders of its history owned by `userId`, never more than the history holds |
| `Orders.OrdersOfPrefix` | lib/store.ts:93-95 | as the history grows, each user's earlier list is a prefix of the later list |
| `Checkout.Shipping` | app/checkout/page.tsx:41 | shipping is 0 exactly when the subtotal is strictly above 50; otherwise it is 9.99 |
| `Checkout.Tax` | app/checkout/page.tsx:42 | for a non-negative subtotal, the tax lies between 0 and the subtotal |
| `Checkout.FinalTotal` | app/checkout/page.tsx:43 | the total minus shipping is subtotal × 1.08, so tax is charged on the subtotal only; for a non-negative subtotal the total is at least the subtotal |
| `Checkout.PricingExamples` | app/checkout/page.tsx:40-43 | a subtotal of 60 pays no shipping, for a total of 64.8; 10 gives tax 0.8 and total 20.79; exactly 50 still pays 9.99, for 63.99 |
| `Checkout.FinalTotalNotMonotone` | app/checkout/page.tsx:41-43 | at the free-shipping threshold, a subtotal of 51 costs less in total than one of 50 |
| `Checkout.ErrorsFor` | app/checkout/page.tsx:15-26 | every reported error names a listed field whose rule fails, with that field's message; every listed field whose rule fails is reported |
| `Checkout.Validate` | app/checkout/page.tsx:17-25 | there are no errors exactly when the email check passes, fullName/city/country/cardName have ≥ 2 characters, address has ≥ 5, postalCode and cvv have ≥ 3, cardNumber has ≥ 16, and the expiry matches the pattern |
| `Checkout.FieldReported` | app/checkout/page.tsx:15-26 | a field's error, with its message, is reported exactly when that field's rule fails |
| `Checkout.NoErrorsIffAllRulesHold` | app/checkout/page.tsx:15-26 | the schema reports nothing exactly when every field's rule holds |
| `Checkout.AllRulesHold` | app/checkout/page.tsx:17-25 | the per-field rules, taken together, are the conjunction of the length rules, the email verdict and the expiry pattern |
| `Checkout.ExpiryAcceptsMonths` | app/checkout/page.tsx:23 | every `MM/YY` with month 01–12 and any two-digit year is accepted |
| `Checkout.ExpiryRejectsOtherMonths` | app/checkout/page.tsx:23 | month 00 and months 13–99 are rejected, whatever the year |
| `Checkout.ExpiryIsMonthAndYear` | app/checkout/page.tsx:23 | every accepted string is exactly 5 characters, the text of a month 1–12, a slash and a two-digit year |
| `Checkout.OwnerId` | app/checkout/page.tsx:66 | the owner is the user's id when a user with a non-empty id is present, and `"guest"` otherwise |
| `Checkout.BuildOrder` | app/checkout/page.tsx:64-78 | the order carries the given id, the cart lines unchanged, status processing, the given timestamp and the form's five address fields; its owner is `OwnerId(user)`; its total is the sum of price × quantity times 1.08 plus the shipping for that sum |
| `Checkout.BuildOrderCharges` | app/checkout/page.tsx:64-78 | for a well-formed cart with non-negative prices, the order's total is at least its subtotal, which is at least 0 |
| `Checkout.PageView` | app/checkout/page.tsx:89-105 | the form is shown exactly when the cart is non-empty and no order has been completed; the empty-cart view is shown exactly when the cart is empty and no order has been completed |
| `Checkout.CheckoutPage.constructor` | app/checkout/page.tsx:31-33 | the page starts not processing, with no completed order and an empty order id |
| `Checkout.CheckoutPage.Offered` | app/checkout/page.tsx:89-105 | the form can be submitted exactly when the cart is non-empty, no order has been completed, and no payment is in progress (the submit button is disabled while processing, line 340) |
| `Checkout.CheckoutPage.OnSubmit` | app/checkout/page.tsx:57-87 | the history gains exactly the order built from the pre-submit cart, the user, the final total and status processing; the cart is then empty; the page records the order id as complete and is no longer processing |
| `Checkout.CheckoutPage.Submit` | app/checkout/page.tsx:161 | nothing changes unless the form is offered, that is, unless the view guard of lines 89-105 shows the form and the button of line 340 is enabled (`Offered`); an invalid form returns its field errors and changes nothing; an order is placed exactly when the cart is non-empty, no order is complete and the form validates. The placed order's items equal the old cart, its owner is `OwnerId(user)`, its total is the final total, its status is processing, and it ends its owner's list |

## Left out

- Persistence. The `persist` middleware and local storage are a library adapter that is
  not part of this model. Each store is a plain object in memory.
- The state-container library's own machinery for creating a store and getting or setting
  its state is not modelled. Each store is a class whose methods assign its fields.
- The catalog fetches in `lib/api.ts` are network I/O with no logic. Products arrive as
  values.
- Rendering, animation, routing and toasts, in the components and pages, are not
  modelled. The components only call the store operations modelled here.
- The type definitions module (`@/types`) is not part of this model. The shapes of
  `Product`, `User`, `Order` and `ShippingAddress` are the ones the stores and the
  checkout page use.
- The two-second payment delay, the `async`/`await` and concurrency are left out. Submit
  is one sequential call. So the model cannot show the cart or user changing between
  render and submit, which a real delay would allow.
- The email format rule lives in the validation library and is not shown. Its verdict
  enters `Validate` as the parameter `emailValid`.
- The form library's wiring is not modelled. `Submit` stands for the submit handler: it
  validates, then calls `OnSubmit` only when there are no errors.
- Order id generation is not shown. The id is a parameter of `Submit`, and the model
  claims nothing about uniqueness.
- The creation timestamp, from the clock, is an opaque `Timestamp` parameter.
- The source does floating-point arithmetic. The model uses exact `real`s, with 9.99 and
  0.08 as exact constants.
- The input fields' `maxLength` caps (16 for the card number, 5 for the expiry, 3 for the
  CVV, at the lines 280, 297 and 313 of `app/checkout/page.tsx`) are rendering attributes and
  are not modelled. A `CheckoutForm` value may carry a longer card number or CVV, and the
  schema rules, which only set minimum lengths, accept it.
- Quantities are integers. A fractional quantity passed to `updateQuantity` is not
  modelled.
- String lengths are counted in Dafny characters (Unicode scalar values), not in UTF-16
  code units. The two differ only for characters outside the Basic Multilingual Plane.
- Order status transitions after placement are not modelled, because the code never
  performs any.
