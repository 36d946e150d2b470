# Storefront checkout and payment — a Dafny model

This project models the checkout-and-payment pipeline of a small online
storefront: an Express/Mongoose server and a browser script.

- The server prices a cart, applies a coupon and cross-checks the amount the
  client claims. It then stores the order.
- It binds a payment-gateway authority to the order, and reconciles the
  gateway's verification into the order's payment status.
- The browser script keeps the cart in local storage. It normalises
  Persian and Arabic-Indic digits, and computes the total it submits.
- A separate test module simulates a gateway with its own transaction records.

Modules (one file each):

- `Wrappers`: `Option` and `Result`.
- `SchemaRules`: the two Mongoose validators used by the schemas (`required` and `enum`).
- `Decimal`: decimal spelling of counters and clock readings, and its inverse.
- `DiscountModel`, `OrderModel`, `TransactionModel`: the three schemas. Each has its enums, defaults and required fields, plus the cast-and-validate step as a function returning `Result`.
- `Pricing`: the money calculator of create-order (subtotal fold, shipping cost of 50000, percent/fixed discount clamped at zero, tolerance of 1).
- `Checkout`: the two coupon checks, and the create-order decision as a pure function.
- `OrderService`: the class `Shop`. Its `orders` field is a map from public order id to order, and its methods are the create-order insert, request-payment, verify-payment and the admin fulfilment-status update. Its invariant `Valid()` says every stored order is filed under its own id, is priced as the calculator prices its products, and has consistent payment fields.
- `Digits`: `toEnglishNumbers`.
- `Cart`: the class `Cart`, whose `items` field is the stored list. Its invariant is at most one line per product id.
- `TestPayment`: the class `TestGateway` over a map of transactions.
- `Scenarios`: how client and server fit together, worked pricing examples, and a client method driving the payment handlers.

Environment inputs are explicit parameters:

- the clock (`now`, in milliseconds), used for both `Date.now()` and `new Date()`;
- the caller identity from a bearer token;
- the configured callback URL;
- the gateway's answer (`TransportError` or `Answer(code, token)`).

Each payment handler also returns the gateway call it would make, so the
contracts can say when the gateway is asked, and for which amount. The draw of
`Math.random()` is a nondeterministic choice (`:|`).

Money is exact (`real`). A percent discount `subtotal * value / 100` may be
fractional, as it can be in the original. Absent request strings are modelled
as the empty string, which is the other falsy string in the original.

The model follows the code, so some properties one might expect of an order lifecycle do not hold:

- With an applied coupon the stored amount is `max(0, subtotal + shipping - discount)`,
  not the unclamped difference, and the stored discount amount is the unclamped
  one. Without a coupon it is `subtotal + shipping`, unclamped, so a request with
  a negative line is stored with a negative amount (`Scenarios.NegativeAmountAccepted`).
- Verify-payment does not look at the current payment status. A paid order
  verified again with a non-success answer becomes failed and keeps its
  reference id (`Scenarios.PaymentRun`). So payment status is not monotonic
  here, and "reference id iff paid" does not hold.
- The two coupon checks differ at the exact instant of expiry
  (`Checkout.CouponChecksAgree`).
- The client never sends a coupon code, and adds shipping only to a positive
  subtotal. A cart with a subtotal of zero therefore sends amount 0, which the
  server refuses as incomplete (`Scenarios.ZeroTotalCartRefused`).

## Model

| member | source | states |
|---|---|---|
| `Decimal.ParseNatToDecimal` | orderModel.js:32 | parsing the decimal spelling of a clock reading gives the reading back |
| `Decimal.NatToDecimalInjective` | orderModel.js:32 | distinct clock readings have distinct decimal spellings |
| `DiscountModel.ParseDiscountType` | discountModel.js:10-14 | only `percent` and `fixed` are accepted, each naming its own type |
| `DiscountModel.DiscountTypeRoundTrip` | discountModel.js:10-14 | every discount type's spelling is accepted back as that type |
| `DiscountModel.UpperChar` | discountModel.js:8 | a lower-case ASCII letter becomes its capital (code point minus 32); any other character is kept |
| `DiscountModel.UpperCase` | discountModel.js:8 | same length, each character upper-cased in place |
| `DiscountModel.UpperCaseNormalises` | discountModel.js:8 | upper-casing gives an upper-case code, keeps an upper-case one, and is idempotent |
| `DiscountModel.NewDiscount` | discountModel.js:3-27 | accepted exactly when code is non-empty, type is one of the enum's spellings and value is present; the stored code is the upper-cased input; isActive defaults to true; expiresAt is optional |
| `OrderModel.ParsePaymentStatus` | orderModel.js:45-49 | exactly the four enum spellings are accepted, each naming its own status |
| `OrderModel.PaymentStatusRoundTrip` | orderModel.js:45-49 | every payment status's spelling is accepted back as that status |
| `OrderModel.ParseFulfilmentStatus` | orderModel.js:50-54 | exactly the four enum spellings are accepted, each naming its own status |
| `OrderModel.FulfilmentStatusRoundTrip` | orderModel.js:50-54 | every fulfilment status's spelling is accepted back as that status |
| `OrderModel.DefaultOrderId` | orderModel.js:28-33 | the default id starts with `HP-` and has something after it |
| `OrderModel.DefaultOrderIdRoundTrip` | orderModel.js:32 | the clock reading can be recovered from a default order id |
| `OrderModel.DefaultOrderIdInjective` | orderModel.js:28-33 | default ids made at different milliseconds differ |
| `OrderModel.NewOrder` | orderModel.js:3-57 | saving succeeds exactly when orderId, the six shipping fields, every line's id and name, and an applied discount's code are present; the new order has status awaiting payment and processing, and no authority or reference id |
| `Decimal.NatToDecimal` | orderModel.js:32 | the decimal spelling of a clock reading: at least one character, all digits, no leading zero |
| `Pricing.Subtotal` | server.js:349 | the reduce over the products: price times quantity summed left to right from 0 |
| `Pricing.SubtotalSnoc` | server.js:349 | the fold adds the last line's price times quantity |
| `Pricing.SubtotalConcat` | server.js:349 | the subtotal of two joined carts is the sum of their subtotals |
| `Pricing.SubtotalUpdate` | public/myjs.js:433 | changing one line changes the subtotal by that line's difference alone |
| `Pricing.SubtotalNonNegative` | server.js:349 | non-negative prices and quantities give a non-negative subtotal |
| `Pricing.DiscountAmount` | server.js:356 | a percent coupon takes subtotal × value / 100, a fixed one takes its value |
| `Pricing.PercentDiscountBounded` | server.js:356 | a percent coupon of 0 to 100 takes off between 0 and the subtotal |
| `Pricing.ComputeQuote` | server.js:349-358 | subtotal is the fold, shipping is 50000; with no coupon the amount is subtotal plus shipping; with a coupon the recorded discount carries its code and the percent-or-fixed amount, and the amount is never negative and equals max(0, subtotal + shipping - discount) |
| `Pricing.QuoteReconciles` | server.js:349-358 | for carts without negative lines: amount = max(0, subtotal + shipping - discount), it is never negative, and a non-negative discount never raises it |
| `Pricing.PercentCouponKeepsShipping` | server.js:356-357 | after a percent coupon of at most 100 the amount stays between the shipping cost and subtotal plus shipping |
| `Pricing.WithinTolerance` | server.js:361 | the computed and the sent amount differ by at most 1 |
| `Checkout.FindByCode` | server.js:354 | finds the record stored under the upper-cased code, and nothing when there is none |
| `Checkout.FindByCodeIgnoresCase` | server.js:320 | codes differing only in ASCII letter case find the same record and get the same answer from both coupon checks |
| `Checkout.UsableForValidation` | server.js:321 | active, and no expiry or one not before now |
| `Checkout.ValidateCoupon` | server.js:315-325 | a missing code is a 400; a valid reply exactly when the record exists, is active and its expiry is not before now; the reply carries the record's code, type and value |
| `Checkout.UsableForOrder` | server.js:354-355 | active, and no expiry or one strictly after now |
| `Checkout.ApplicableCoupon` | server.js:353-355 | a coupon applies exactly when a code is given and its record exists, is active, and has no expiry or one strictly after now |
| `Checkout.CouponChecksAgree` | server.js:320-323 | every coupon checkout applies also validates, and the two checks disagree only when the expiry equals now |
| `Checkout.WellFormed` | server.js:338 | shipping info present, a non-empty product list, and a present non-zero amount |
| `Checkout.CreateOrder` | server.js:336-369 | incomplete data exactly when shipping info, a non-empty product list or a truthy amount is missing; mismatch exactly when the server amount is more than 1 away from the client's; an accepted order carries the server-computed amount, subtotal, shipping and discount, the submitted products and shipping info, the caller, the default id, awaiting-payment and processing status, and is priced as its products |
| `Checkout.ClientAmountNotStored` | server.js:361-366 | two accepted requests differing only in the client amount produce the same order |
| `Checkout.AppliedCouponRecorded` | server.js:353-358 | an order records a discount exactly when a coupon applied, under the upper-cased code |
| `OrderService.CallbackBase` | server.js:381 | the configured callback URL when one is set, otherwise the local default; never empty |
| `OrderService.Shop.constructor` | orderModel.js:59 | an empty order collection over a valid discount table |
| `OrderService.Shop.PlaceOrder` | server.js:366-369 | a refused request stores nothing; an accepted one is inserted under its id unless that id is taken (duplicate, nothing stored); the store invariant is kept |
| `OrderService.Shop.RequestPayment` | server.js:377-411 | a missing id (400) or unknown order (404) makes no gateway call; otherwise the gateway is asked for the stored amount with the order's callback; a transport error (502) or non-100 code (500) leaves every order unchanged; code 100 binds exactly the returned authority to that order and replies with its payment URL |
| `OrderService.Shop.VerifyPayment` | server.js:418-454 | a missing field (400), unknown order (404) or authority other than the bound one (400) makes no gateway call and changes nothing; otherwise the gateway verifies the stored amount; code 100 sets paid and the reference id; a transport error or any other code sets failed and keeps the reference id; nothing else changes |
| `OrderService.Shop.SetFulfilmentStatus` | server.js:496-504 | a status outside the four fulfilment statuses is refused with no change; an unknown order yields no order and no change; otherwise only that order's fulfilment status changes |
| `Digits.IndexOf` | public/myjs.js:24-27 | -1 exactly when the character is absent, otherwise its first position |
| `Digits.DigitCodePoints` | public/myjs.js:20-22 | the three digit tables are runs of ten consecutive code points |
| `Digits.IndexOfDistinct` | public/myjs.js:24-27 | in a table without repeats the lookup finds each entry at its own index |
| `Digits.NormalizeChar` | public/myjs.js:23-28 | a Persian digit, else an Arabic-Indic digit, becomes the ASCII digit at the same table index; anything else is kept |
| `Digits.NormalizePersian` | public/myjs.js:24-25 | Persian digit i becomes ASCII digit i |
| `Digits.NormalizeArabic` | public/myjs.js:26-27 | Arabic-Indic digit i becomes ASCII digit i |
| `Digits.NormalizeOther` | public/myjs.js:23-28 | a character that is not an eastern digit is kept, and no eastern digit survives |
| `Digits.MapDigits` | public/myjs.js:23-29 | same length, each character converted in place |
| `Digits.ToEnglishNumbers` | public/myjs.js:18-29 | an absent input gives the empty string; otherwise the length is kept and each character is converted in place |
| `Digits.ToEnglishNumbersNormalises` | public/myjs.js:18-29 | the result holds no Persian or Arabic-Indic digit, and converting it again changes nothing |
| `Cart.FindIndex` | public/myjs.js:55 | nothing exactly when no line has the id; otherwise the first line with it |
| `Cart.WithoutId` | public/myjs.js:76 | no remaining line has the id, every line without it remains, and nothing new appears |
| `Cart.WithoutIdConcat` | public/myjs.js:76 | filtering a joined list is joining the filtered parts, so order and repeated lines are kept |
| `Cart.TotalQuantity` | public/myjs.js:85 | the cart-icon count: the quantities summed left to right from 0 |
| `Cart.TotalQuantitySnoc` | public/myjs.js:85 | appending a line adds its quantity to the count |
| `Cart.TotalQuantityFromFront` | public/myjs.js:85 | the left fold equals the sum taken from the front |
| `Cart.TotalQuantityWithout` | public/myjs.js:75-78 | removing an id lowers the count by exactly the quantity held under it |
| `Cart.TotalQuantityUpdate` | public/myjs.js:57 | changing one line's quantity changes the count by the difference alone |
| `Cart.QuantityOfFound` | public/myjs.js:63-69 | with distinct ids, the quantity under a line's id is that line's quantity |
| `Cart.QuantityOfAbsent` | public/myjs.js:75-78 | an id on no line holds quantity 0 |
| `Cart.WithoutFoundId` | public/myjs.js:75-78 | with distinct ids, removing an id cuts out its one line and keeps the rest in order |
| `Cart.WithoutAbsentId` | public/myjs.js:75-78 | removing an id on no line leaves the cart as it was |
| `Cart.DistinctAfterCut` | public/myjs.js:75-78 | cutting out one line keeps the remaining ids distinct |
| `Cart.CheckoutTotal` | public/myjs.js:433-434 | 0 exactly when the subtotal is not positive; otherwise more than the shipping cost |
| `Cart.CheckoutTotalMatchesServer` | public/myjs.js:433-434 | for a positive subtotal the submitted total equals the server's coupon-free amount and passes its tolerance test |
| `Cart.Cart.constructor` | public/myjs.js:48 | an empty cart |
| `Cart.Cart.Add` | public/myjs.js:53-62 | an existing id has its quantity raised by the given amount in place; a new id is appended with that quantity; no other line changes; the count rises by the quantity; ids stay distinct |
| `Cart.Cart.UpdateQuantity` | public/myjs.js:63-74 | an unknown id changes nothing; a positive quantity replaces that line's quantity; zero or below removes the line and keeps the others in order; the count changes accordingly |
| `Cart.Cart.Remove` | public/myjs.js:75-78 | every line with the id goes, the rest keep their order, and the count drops by the removed quantity |
| `Cart.Cart.Clear` | public/myjs.js:79-81 | the cart is empty and the count is 0 |
| `TransactionModel.ParseStatus` | payment_test_module/payment.test.model.js:7 | exactly `processing`, `paid` and `failed` are accepted, each naming its own status |
| `TransactionModel.StatusRoundTrip` | payment_test_module/payment.test.model.js:7 | every status's spelling is accepted back as that status |
| `TransactionModel.NewTransaction` | payment_test_module/payment.test.model.js:4-8 | accepted exactly when amount is present and any given status is in the enum; the status defaults to processing; userId is optional |
| `TestPayment.SimulatedStatus` | payment_test_module/payment.test.controller.js:17-19 | always OK or FAILED; `fail` gives FAILED, `random` gives OK exactly on a winning draw, anything else OK |
| `TestPayment.RedirectUrl` | payment_test_module/payment.test.controller.js:25 | the verify page with the simulated status and the transaction id as query parameters |
| `TestPayment.Settle` | payment_test_module/payment.test.controller.js:40-47 | paid exactly when the query status is OK, failed otherwise; amount and user kept |
| `TestPayment.SettleIgnoresPriorStatus` | payment_test_module/payment.test.controller.js:40-47 | the settled record does not depend on the status held before |
| `TestPayment.TestGateway.constructor` | payment_test_module/payment.test.model.js:10 | an empty transaction collection |
| `TestPayment.TestGateway.Checkout` | payment_test_module/payment.test.controller.js:4-26 | a falsy amount is refused with nothing stored; otherwise one processing transaction is stored under a fresh id, with no user id when none is given, and the reply reports processing and a redirect embedding the simulated status and that id |
| `TestPayment.TestGateway.Verify` | payment_test_module/payment.test.controller.js:32-48 | a missing id (400) or unknown id (404) changes nothing; otherwise the transaction is settled by the query status and the reply's ok flag is status == OK |
| `Scenarios.ClientCheckoutAccepted` | public/myjs.js:430-440 | a complete cart with positive subtotal, submitted with the client's total and no coupon, is accepted, and the order built carries that total |
| `Scenarios.ZeroTotalCartRefused` | public/myjs.js:433-434 | a cart with a subtotal of zero or less submits 0 and is refused as incomplete |
| `Scenarios.NegativeAmountAccepted` | server.js:349-366 | with no coupon, one line at 100000 with quantity -1 and a sent amount of -50000 is accepted, and the order carries amount -50000 |
| `Scenarios.PlainCartPricing` | server.js:349-364 | two units at 100000 price to 200000 + 50000 = 250000; 250000 is accepted and 249000 refused |
| `Scenarios.PercentCouponPricing` | server.js:353-358 | a live 20 percent coupon entered in lower case takes 40000 off a 200000 subtotal, leaving 210000 |

## Left out

- HTTP plumbing: routing, middleware, security headers, CORS, rate limiting, logging and the global error handler. Each handler's answer is a datatype whose constructors stand for its replies; the HTTP status of each is noted beside it, not computed.
- Persistence: the Mongo connection, `save`, `findOne`, `findById` and `populate`. The collections are maps. A failing database call (the `catch` that answers 500) is not modelled.
- The admin update looks an order up by its internal `_id`. The model looks it up by the map key, the public order id, which the store keeps one-to-one with `_id`. A malformed `_id` (a cast error, 500) is not modelled.
- Gateway I/O: the HTTP calls to the gateway, the merchant id and the 10-second timeout. The gateway's answer is an input. A successful answer without an authority or `ref_id` field is not modelled; the token is always present.
- Authentication: JWT verification and password hashing. The caller identity is an optional input.
- Rendering: the DOM, `localStorage` serialisation, `fetch`, the sliders and page handlers, and `formatPrice`'s locale formatting.
- JavaScript type coercion: amounts sent as strings, non-string coupon codes, `toString` on non-string inputs to `toEnglishNumbers`, NaN. Floating-point rounding is not modelled (money is exact).
- `DiscountModel.UpperCase`: upper-cases ASCII letters only, not the full Unicode case mapping of `toUpperCase`.
- Test transaction ids are the decimal spelling of a counter, not Mongo ObjectIds. An id that is malformed rather than unknown (a cast error, 500) is not modelled.
- Line items and requests without a price or quantity are not modelled: the `LineItem` type always carries both, so only the required `id` and `name` strings are checked.
- Quantities are integers (`LineItem.quantity` is an `int`). The server multiplies whatever number a request carries, so a tampered request with a fractional quantity is priced by the original but cannot be expressed in the model.
- `timestamps: true` (createdAt/updatedAt) on the three schemas.
- Concurrency between requests on the same order, and any idempotence guard on repeated verification: the code has neither.
