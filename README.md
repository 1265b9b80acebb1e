# Checkout of the Javabica API, modelled in Dafny

This project models the checkout of the Javabica e-commerce backend
(`CheckoutController::create` and its cart gate `checkingCart`) together
with the response helpers of `BaseController` that the checkout builds its
results with.

The checkout is one request that runs a fixed sequence of stages and
returns at the first one that fails:

1. the first cart check;
2. the shipping address, then the billing address, each of which must belong to the caller;
3. the RajaOngkir cost lookup;
4. the courier match;
5. the second cart check.

When every stage passes, it:

1. reduces stock with the second check's cart;
2. generates an order number and inserts the order;
3. on a successful insert, records the voucher history (when a voucher id was given) and the ordered products;
4. computes the order totals, builds the Midtrans item list, obtains a snap token and saves it on the order;
5. answers 201.

Every failure answers 422. A failed cart check answers with that check's
data: the grouping itself when a line is out of stock, or the one-entry
`cart_empty` error list when the cart is empty. Every other failed stage
answers with a one-entry list tagged with its field (`shipping_address`,
`billing_address`, `rajaongkir`, `courier`, `order`).

Files:

- `wrappers.dfy` holds module `Wrappers`, the `Option` type.
- `base_controller.dfy` holds module `BaseController`:
  - the array and query envelopes (`arrayStatus`/`queryStatus`);
  - the HTTP-code-to-title mapping;
  - the deterministic fields of the success and error JSON bodies, including `params.requested`.
- `checkout_spec.dfy` holds module `CheckoutSpec`:
  - the records and the shop's storage (`Db`);
  - the pure pieces: the cart gate, the billing-id choice, name truncation, and the order-product, shipping and voucher lines;
  - the function `Checkout`, which says what one request does. It gives the storage after the request, the collaborator calls made in order, and the body answered with. It is built from `CheckGate` (the checks), `Commit` (stock reduction and insert), `Record` (the rows written after the insert) and `Pay` (the totals, the snap token and the success body).
- `checkout_controller.dfy` holds module `CheckoutController`, the imperative form of the same procedure:
  - class `Shop`, whose fields are the tables a checkout changes in place;
  - its methods `Create`, `RunChecks`, `CommitOrder`, `RecordOrder` and `PayOrder`, each proved equal to the matching spec function on the old state;
  - the loop `BuildOrderLines`, which builds the order-product rows and the Midtrans product lines together, as the source's `foreach` does.
- `checkout_properties.dfy` holds module `CheckoutProperties`, the lemmas about `Checkout`:
  - what each failing stage answers and that it writes nothing;
  - that stock is reduced once, only after every check, with the second check's cart, and is not restored when the insert fails;
  - when orders, voucher history, order products and snap tokens are written;
  - the shape of the Midtrans item list and payload;
  - which status code a request answers with.

Collaborators whose code is not part of this model are fields of `CheckoutSpec.Services`. Each is either the value the collaborator returns or a function from what it is given to what it returns. They are:

- the two cart-grouping answers;
- the cost client;
- the courier finder;
- stock reduction;
- the order number and order uuid;
- the order store;
- the order calculation;
- the snap token service;
- the clock.

Behaviour of the code worth noting:

- the result of the stock reduction is not checked;
- a failure of the snap-token service is not caught, so an exception there is left to the framework;
- the voucher history is written before the ordered products;
- the controller has no explicit 500 path of its own: every answer it builds is 201 or 422, and an uncaught exception thrown by a collaborator becomes the framework's error response.

## Model

| member | source | states |
|---|---|---|
| BaseController.OrEmpty | app/Http/Controllers/BaseController.php:31 | `$x ?: []`: a non-falsy value passes through, a falsy one becomes the empty array |
| BaseController.HandleArrayResponse | app/Http/Controllers/BaseController.php:77-87 | status true, message (default "Process success") and payload passed through unchanged |
| BaseController.HandleArrayErrorResponse | app/Http/Controllers/BaseController.php:92-102 | status false, message (default "Process failed") and payload passed through unchanged |
| BaseController.HandleQueryArrayResponse | app/Http/Controllers/BaseController.php:107-117 | status true, message (default "Query success") and payload passed through unchanged |
| BaseController.HandleQueryErrorArrayResponse | app/Http/Controllers/BaseController.php:122-132 | status false, message (default "Query failed") and payload passed through unchanged |
| BaseController.ArrayEnvelopesDifferOnlyInStatus | app/Http/Controllers/BaseController.php:77-102 | the success and error array envelopes of the same payload and message differ in `arrayStatus` alone |
| BaseController.QueryEnvelopesDifferOnlyInStatus | app/Http/Controllers/BaseController.php:107-132 | the success and error query envelopes of the same payload and message differ in `queryStatus` alone |
| BaseController.GetErrorTitle | app/Http/Controllers/BaseController.php:160-172 | the title of each of 400, 401, 403, 404, 422, 429, 500; "Error" exactly for every other code |
| BaseController.ErrorTitleIsNeverOk | app/Http/Controllers/BaseController.php:160-172 | no error title equals the success marker "OK" |
| BaseController.RequesterIdentifier | app/Http/Controllers/BaseController.php:137-140 | the caller's uuid, or "public" when there is no caller |
| BaseController.ResponseParams | app/Http/Controllers/BaseController.php:32-35 | `requested` is always set to the requester identifier; every other key is present exactly when the given params have it, with the same value; no params gives only `requested` |
| BaseController.HandleResponse | app/Http/Controllers/BaseController.php:22-35 | success "OK", the given code, message and title, request number and timestamp from the context, data = result or `[]` when falsy, params as `ResponseParams` |
| BaseController.HandleError | app/Http/Controllers/BaseController.php:45-67 | success = `GetErrorTitle(code)`, the given code (default 404), message (default "Error occurred"), data and params as for the success body |
| BaseController.ErrorBodyIsSuccessBodyWithErrorTitle | app/Http/Controllers/BaseController.php:24-65 | an error body is the success body of the same arguments with `success` replaced by the error title, so the two always differ |
| BaseController.DefaultErrorIsNotFound | app/Http/Controllers/BaseController.php:45-54 | with every default, an error body is 404 "Not Found", "Error occurred", empty data, params holding only `requested` |
| CheckoutSpec.CheckingCart | app/Http/Controllers/CheckoutController.php:331-353 | passes iff nothing is out of stock and the cart is non-empty; out of stock is tested first and returns the grouping; an empty cart returns the single `cart_empty` error; success returns the grouping unchanged |
| CheckoutSpec.BillingAddressId | app/Http/Controllers/CheckoutController.php:70-71 | the shipping address id when `same_as_shipping` is set, otherwise the billing address id |
| CheckoutSpec.FindOwnedAddress | app/Http/Controllers/CheckoutController.php:89-91 | an address is found iff the id exists and its `fk_user_id` is the caller, and then it is that row |
| CheckoutSpec.FindVoucher | app/Http/Controllers/CheckoutController.php:271 | a voucher is found iff an id was given and exists, and then it is that row |
| CheckoutSpec.CostFailureMessage | app/Http/Controllers/CheckoutController.php:128 | the upstream status description, or "Courier service failed" when there is none |
| CheckoutSpec.DotPath | app/Http/Controllers/CheckoutController.php:83 | the route path with each '/' replaced by '.', same length, no '/' left |
| CheckoutSpec.TruncateName | app/Http/Controllers/CheckoutController.php:256 | a name of at most 42 characters is kept; a longer one becomes its first 42 characters plus "...", so a name is never longer than 45 |
| CheckoutSpec.OrderPayloadFor | app/Http/Controllers/CheckoutController.php:169-208 | the order row: caller, voucher id, both address halves, courier agent, service and cost, "UNPAID"/"ORDER", invoice and queue numbers |
| CheckoutSpec.OrderProductRowFor | app/Http/Controllers/CheckoutController.php:235-250 | an order-product row points at the order and carries the item's variant and quantity |
| CheckoutSpec.OrderProductRows | app/Http/Controllers/CheckoutController.php:234-250 | one row per cart item, in cart order |
| CheckoutSpec.ProductLine | app/Http/Controllers/CheckoutController.php:252-257 | the Midtrans line of an item: sku, purchase price, quantity, truncated name |
| CheckoutSpec.ProductLines | app/Http/Controllers/CheckoutController.php:234-258 | one Midtrans line per cart item, in cart order |
| CheckoutSpec.ShippingLine | app/Http/Controllers/CheckoutController.php:263-268 | one unit at the matched service's cost, named agent-service, with id "shipping-" plus the name |
| CheckoutSpec.VoucherLine | app/Http/Controllers/CheckoutController.php:273-285 | quantity 1 and price never positive: `-abs(discount)` with the voucher's code when it exists, else the "no-voucher" line at 0 |
| CheckoutSpec.VoucherHistoryFor | app/Http/Controllers/CheckoutController.php:221-228 | one row (voucher, caller, order) when the voucher id is truthy, none otherwise |
| CheckoutSpec.StageError | app/Http/Controllers/CheckoutController.php:94-98 | a failed stage's data is the one-entry list `[{field, message}]`, the same shape at the billing, cost, courier and insert stages, and never falsy, so it reaches the body unchanged |
| CheckoutSpec.CostPayloadFor | app/Http/Controllers/CheckoutController.php:119-124 | the cost question goes from the configured origin city to the shipping address's city, for the first check's total weight and the selected courier agent |
| CheckoutSpec.PaymentItems | app/Http/Controllers/CheckoutController.php:252-288 | the Midtrans item list has two lines more than the cart: the product line of each cart item in cart order, then the shipping line, then the voucher line |
| CheckoutSpec.PaymentPayloadFor | app/Http/Controllers/CheckoutController.php:287-305 | the Midtrans payload carries the item list of the second check's cart, charges the calculated grand total for the invoice number, with the caller's name, email and phone as customer |
| CheckoutSpec.CheckGate | app/Http/Controllers/CheckoutController.php:67-160 | the checks always start with the cart grouping and make at most six calls; checks that clear made all six in the controller's order, found both addresses at their ids owned by the caller, and saw a second cart with nothing out of stock and at least one line |
| CheckoutSpec.Commit | app/Http/Controllers/CheckoutController.php:162-219 | the stages after the checks start with the reduction of the second check's cart, whose result is the new stock; they never write addresses or vouchers; a refused insert stops there with a 422 and the reduction kept |
| CheckoutSpec.Record | app/Http/Controllers/CheckoutController.php:221-260 | after an insert: the stored order, the voucher history of `VoucherHistoryFor` and one order-product row per cart item are appended; stock, addresses and vouchers are untouched; the answer is 201 |
| CheckoutSpec.Pay | app/Http/Controllers/CheckoutController.php:262-325 | only the snap-token table changes, at the inserted id; the token saved is the one the service returned for the payment payload and the one in the success body; the four calls are totals, voucher lookup, token and save |
| CheckoutSpec.Checkout | app/Http/Controllers/CheckoutController.php:57-326 | a request never writes the address or voucher table, answers 201 or 422, and changes nothing when a check fails |
| CheckoutSpec.CheckoutError | app/Http/Controllers/CheckoutController.php:79-85 | a failed stage answers 422 "Unprocessable Entity" with its message and its error data |
| CheckoutSpec.CheckoutSuccess | app/Http/Controllers/CheckoutController.php:313-325 | a success answers 201 "OK", "Checkout success", with the order's uuid, id and snap token |
| CheckoutController.BuildOrderLines | app/Http/Controllers/CheckoutController.php:231-258 | the loop builds exactly the order-product rows and the Midtrans product lines of the cart |
| CheckoutController.Shop.Create | app/Http/Controllers/CheckoutController.php:57-326 | the new tables, the calls made and the body answered are those of `Checkout` on the old tables |
| CheckoutController.Shop.RunChecks | app/Http/Controllers/CheckoutController.php:67-160 | the checks, returning at the first failure, give the gate `CheckGate` gives, and write nothing |
| CheckoutController.Shop.CommitOrder | app/Http/Controllers/CheckoutController.php:162-219 | stock reduction, order number and insert change the tables as `Commit` says |
| CheckoutController.Shop.RecordOrder | app/Http/Controllers/CheckoutController.php:221-260 | the stored order, voucher history and ordered products are written as `Record` says |
| CheckoutController.Shop.PayOrder | app/Http/Controllers/CheckoutController.php:262-325 | the totals, the item list, the snap token saved on the order and the body are those of `Pay` |
| CheckoutProperties.FirstCartCheckFailure | app/Http/Controllers/CheckoutController.php:77-86 | a failing first cart check answers 422 "Invalid cart data" with the check's data, writes nothing, and makes no call after the grouping |
| CheckoutProperties.ShippingAddressMustBeOwned | app/Http/Controllers/CheckoutController.php:88-101 | a shipping address not owned by the caller answers 422 with field `shipping_address` and writes nothing |
| CheckoutProperties.BillingAddressMustBeOwned | app/Http/Controllers/CheckoutController.php:103-116 | a billing address (the shipping one when "same as shipping") not owned by the caller answers 422 with field `billing_address` and writes nothing |
| CheckoutProperties.CostLookupFailure | app/Http/Controllers/CheckoutController.php:118-136 | a failed cost lookup answers 422 with field `rajaongkir` and the upstream description or "Courier service failed", and writes nothing |
| CheckoutProperties.CourierMismatch | app/Http/Controllers/CheckoutController.php:138-148 | no matching courier service answers 422 with field `courier` and writes nothing |
| CheckoutProperties.SecondCartCheckFailure | app/Http/Controllers/CheckoutController.php:150-160 | a failing second cart check answers 422 "Cart validation failed" with that check's data, after all six check calls, and writes nothing |
| CheckoutProperties.ClearedIffEveryCheckPasses | app/Http/Controllers/CheckoutController.php:76-160 | the checks clear exactly when both cart checks pass, both addresses are owned, the cost lookup succeeds and a courier matches |
| CheckoutProperties.RejectedChangesNothing | app/Http/Controllers/CheckoutController.php:76-160 | whichever check fails, the tables are unchanged and the body is 422 with that stage's message and data |
| CheckoutProperties.ClearedCheckout | app/Http/Controllers/CheckoutController.php:160-163 | checks that clear hand the request to the stages after them, whose calls follow the checks' calls |
| CheckoutProperties.StockReducedOnlyWhenCleared | app/Http/Controllers/CheckoutController.php:150-163 | stock is reduced with the second check's cart when every check passes, and is unchanged otherwise |
| CheckoutProperties.StockReducedOnceAfterChecks | app/Http/Controllers/CheckoutController.php:138-163 | after checks that clear, exactly one stock-reduction call is made, right after the courier match and the second cart check |
| CheckoutProperties.InsertedCommit | app/Http/Controllers/CheckoutController.php:162-219 | after an accepted insert, the request continues on the reduced stock after the reduction, order-number and insert calls |
| CheckoutProperties.CommitReducesOnce | app/Http/Controllers/CheckoutController.php:162-219 | the stages after the checks start with the one stock reduction and never reduce again |
| CheckoutProperties.RecordNeverReduces | app/Http/Controllers/CheckoutController.php:221-311 | the stages after the insert leave stock alone and make no reduction call |
| CheckoutProperties.InsertFailureKeepsReduction | app/Http/Controllers/CheckoutController.php:210-219 | a refused insert answers 422 with field `order`; the stock reduction stays and nothing else is written |
| CheckoutProperties.OrdersUnchangedWithoutInsert | app/Http/Controllers/CheckoutController.php:210-219 | without an accepted insert the order table is unchanged |
| CheckoutProperties.OrderAppendedOnInsert | app/Http/Controllers/CheckoutController.php:169-219 | an accepted insert appends exactly the inserted order with the payload given to the store |
| CheckoutProperties.VoucherHistoryPrefixKept | app/Http/Controllers/CheckoutController.php:221-228 | the voucher history only grows at its end |
| CheckoutProperties.VoucherHistoryOnlyForInsertedVoucher | app/Http/Controllers/CheckoutController.php:221-228 | one voucher-history row is added iff a voucher id was given and the insert succeeded |
| CheckoutProperties.VoucherHistoryUnchangedOtherwise | app/Http/Controllers/CheckoutController.php:221-228 | when a check fails, the insert is refused or no voucher id is given, the voucher history is unchanged |
| CheckoutProperties.VoucherHistoryRowOfInsert | app/Http/Controllers/CheckoutController.php:221-228 | that row carries the voucher id, the caller and the inserted order's id |
| CheckoutProperties.OrderProductsUnchangedWithoutInsert | app/Http/Controllers/CheckoutController.php:210-260 | without an accepted insert no order-product row is written |
| CheckoutProperties.InsertedCheckoutWrites | app/Http/Controllers/CheckoutController.php:162-260 | a request whose order was inserted appends the stored order, the voucher history of `VoucherHistoryFor` and one order-product row per second-check cart item, all under the inserted id |
| CheckoutProperties.OrderProductsOfInsertedOrder | app/Http/Controllers/CheckoutController.php:230-260 | an inserted order gets one row per second-check cart item, in order, each with the inserted id, the item's variant and quantity; earlier rows are kept |
| CheckoutProperties.SuccessSavesSnapToken | app/Http/Controllers/CheckoutController.php:307-325 | a successful request saves the snap token on the inserted order only and answers 201 "OK" with that id and token, stock reduced |
| CheckoutProperties.ResponseCodes | app/Http/Controllers/CheckoutController.php:57-326 | a request answers 201 iff the order was inserted and 422 otherwise; `success` is "OK" exactly for 201 |
| CheckoutProperties.PaymentItemsShape | app/Http/Controllers/CheckoutController.php:252-288 | the Midtrans items are the cart lines in order (sku, quantity, purchase price, name of at most 45 characters), then shipping, then voucher with a price never positive: two items more than the cart |

## Left out

- Concurrency: one request is modelled at a time. The stock race between two checkouts and order-number uniqueness under contention are not modelled; the atomic decrement belongs to the storage layer, whose code is not part of this model.
- Collaborators whose code is not part of this model are inputs (`Services`). These are cart grouping, the RajaOngkir client, the courier finder, `reduceStock`, the order-number generator, the order store, the order calculation and the snap-token service. Their internals, their failures other than the ones the controller branches on, and exceptions they may throw are not modelled.
- The order store's effect on the order table is an assumption of the model: an accepted insert appends the stored order under the returned id, and a refused one stores nothing.
- The cart-grouping answer is modelled only with its `cart`, `out_of_stock` and `calculation.total_weight` parts. The product list the controller hands to the grouping service is not a request field: both grouping answers are inputs.
- The courier finder's answer is modelled as the single matched service (its `arrayResponse[0]`), or none.
- The cost client's answer is modelled as the cost list of its first courier, or a failure with an optional description.
- HTTP, authentication and ORM plumbing are inputs of the `Session`, `Config` and `Services` values. These cover `Auth::id()`/`Auth::user()`, `request->path()`, `uniqid()`/`rand()`, `Carbon::now()`, `now()`, `Str::uuid()` and `config(...)`. The conversion of a body to a JSON HTTP response is not modelled: the body's `code` stands for the HTTP status.
- The validated request is an input. The fields the controller reads are separate fields of `CheckoutRequest`, and the whole validated array, echoed in `params`, is its `validated` map. The validation rules themselves (`CheckoutCreateRequest`) are not part of this model.
- Logging (`logProcess` and its log level arguments) is left out because it has no effect on any returned value.
- Amounts are integers (rupiah); PHP floats and numeric coercion are not modelled.
- CheckoutSpec.TruncateName counts characters, whereas PHP's `strlen`/`substr` count bytes; the two agree on single-byte names only.
- The collaborator call trace of the `Shop` methods is ghost: it documents the order of calls and is not part of the program's state.
- BaseController.HandleQueryArrayResponse and BaseController.HandleQueryErrorArrayResponse take the payload as a required argument: the `$response = []` default is not modelled, because the payload type is generic and every caller in the model passes one.
- Values are modelled with string keys only: PHP integer array keys and PHP's loose comparisons are not modelled.
