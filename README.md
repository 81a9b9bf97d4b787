# Order integrity of a storefront, modelled in Dafny

This project models the order path of a web shop that takes cash-on-delivery
and card payments through a hosted payment gateway (Razorpay). It covers:

- **The order record** (`order_schema.dfy`, module `OrderSchema`). This is the
  Mongoose schema of `backend/models/Order.js`:
  - the enum domains of `status`, `paymentMode` and `paymentStatus`;
  - the defaults;
  - the required fields, some of them conditional on the payment mode and
    payment status;
  - the `pre('save')` hook, which turns a CARD order carrying a payment id into
    a Paid and Confirmed one.

  A document being saved is a class whose `Save` validates first and runs the
  hook after, as Mongoose does.
- **The order controller** (`order_service.dfy`, module `OrderService`). This is
  `backend/controllers/Order.js` over a sequence-backed store:
  - creating an order;
  - listing orders, with paging;
  - filtering orders by user;
  - partial updates;
  - normalising the amount of a gateway payment order, with its defaults;
  - checking the payment signature.
- **The browser API** (`order_api.dfy`, module `OrderApi`). This is
  `frontend/src/features/order/OrderApi.jsx`:
  - the checks that throw before a request is sent;
  - the request each call sends;
  - the precedence used to pick an error message;
  - the promise that takes a card payment from creation to verification.
- **The browser order state** (`order_slice.dfy`, module `OrderSlice`). This is
  the Redux slice of `frontend/src/features/order/OrderSlice.jsx`, as a class
  whose methods are the reducer cases. Each method states the whole new state.
- **Checkout** (`checkout.dfy`, module `Checkout`). This is
  `frontend/src/features/checkout/components/Checkout.jsx`:
  - the cart total;
  - the COD/CARD decision and the order each branch builds;
  - the callbacks of the hosted payment UI.

  The page is a class over its error message, the actions it dispatched, the
  payment it handed off and where it navigated.
- **The admin order table** (`admin_orders.dfy`, module `AdminOrders`). This is
  `frontend/src/features/admin/components/AdminOrders.jsx`:
  - the list is displayed reversed;
  - row numbering;
  - editing a row through its original index, where -1 means no row is edited;
  - the status options and colours.
- **JavaScript value semantics** (`js.dfy`, module `Js`):
  - truthiness of strings;
  - `Math.round`;
  - `parseInt(_, 10)`;
  - the decimal rendering of a timestamp.

Foreign code is passed in as a parameter: the HMAC-SHA256 function, the
gateway's order creation, the gateway SDK's constructor failure, `fetch`, the
SDK script loading and the hosted payment UI's events. Times are parameters
(`now`).

Some behaviours of the code are worth knowing, and the model keeps them:

- The code accepts an empty `item` list. The schema requires the path, but
  an absent array defaults to `[]`, which passes `required`.
- The code does not check that `total` is positive.
- Validation runs before the pre-save hook. So a CARD body with a gateway
  order id and a payment id but no signature passes validation if its
  `paymentStatus` is left to default to Pending. It is then stored as Paid
  and Confirmed without a signature
  (`OrderSchema.UnsignedCardPaymentSavedAsPaid`).
- A signature mismatch answers 400 with `verified: false`.
- The signature check is plain string equality (`===`), not a
  constant-time comparison.
- `updateById` runs neither validation nor the hook. An unknown id answers
  200 with a `null` body.

## Model

| member | source | states |
|---|---|---|
| `Js.Round` | backend/controllers/Order.js:83 | `Math.round` gives the integer nearest to x, with a half rounded up: x - ½ < r ≤ x + ½ |
| `Js.DecimalString` | backend/controllers/Order.js:100 | the rendering of a non-negative integer is a non-empty string of digits whose value is that integer, with no leading zero: 0 is "0" and any other number starts with a non-zero digit |
| `Js.ParseIntOfDecimal` | backend/controllers/Order.js:81 | `parseInt` reads back the decimal rendering of n as n, whatever non-digit text follows it |
| `Js.ParseIntNaN` | backend/controllers/Order.js:81 | a string whose first non-blank character is neither a sign nor a digit parses to NaN |
| `Js.ParseIntSignWithoutDigits` | backend/controllers/Order.js:81 | a string whose first non-blank character is a sign with no digit right after it parses to NaN |
| `Js.ParseIntAfterBlanks` | backend/controllers/Order.js:81 | `parseInt` skips the blanks before the number: with blanks in front of a text that does not start with one, the result is that of the text alone |
| `Js.ParseIntOfNumeral` | backend/controllers/Order.js:81 | `parseInt` reads an optional sign, leading zeros and the digits of n, followed by a non-digit or nothing, as n, or as -n after a `-` |
| `OrderSchema.DefaultPaymentStatus` | backend/models/Order.js:29-35 | both branches of the default give 'Pending', whatever the payment mode |
| `OrderSchema.WithDefaults` | backend/models/Order.js:11-35 | an absent `status` or `paymentStatus` becomes 'Pending' and an absent `item` becomes an empty list; every other field is the body's |
| `OrderSchema.Violations` | backend/models/Order.js:5-58 | validation finds nothing exactly when the record conforms: user, item, address and total present, enum values in their domains, the payment mode present, and the gateway fields present under their conditions |
| `OrderSchema.FieldViolations` | backend/models/Order.js:6-39 | the user is reported missing exactly when it is falsy, and the payment mode exactly when it is falsy; no gateway path is reported here |
| `OrderSchema.GatewayViolations` | backend/models/Order.js:41-58 | the gateway order id is required exactly of a CARD order; the payment id and the signature exactly of a CARD order with payment status Paid |
| `OrderSchema.PreSaveHook` | backend/models/Order.js:73-79 | a CARD order with a truthy payment id becomes Paid and Confirmed; any other record is unchanged; no other field is ever touched |
| `OrderSchema.PreSaveHookIdempotent` | backend/models/Order.js:73-79 | running the hook twice gives the same record as running it once |
| `OrderSchema.HookedRecordStillConsistent` | backend/models/Order.js:47-79 | after a valid record goes through the hook: its enum values are still in their domains, a paid CARD order has a payment id, and a CARD order has a gateway order id |
| `OrderSchema.UnsignedCardPaymentSavedAsPaid` | backend/models/Order.js:53-79 | a CARD body with both gateway ids, no signature and a defaulted payment status passes validation. It is stored Paid and Confirmed without a signature, which breaks the schema's own rule |
| `OrderSchema.IndexOfId` | backend/controllers/Order.js:52 | the first position holding the id, or -1 when no order has it |
| `OrderSchema.OrderDocument.constructor` | backend/models/Order.js:5-70 | a new document holds the body with the schema defaults applied, and both timestamps are the creation time |
| `OrderSchema.OrderDocument.PreSave` | backend/models/Order.js:73-79 | the hook updates the document in place as `PreSaveHook` says, and writes only `status` and `paymentStatus` |
| `OrderSchema.OrderDocument.Save` | backend/models/Order.js:5-79 | an invalid document is refused with its violations and left unchanged; a valid one goes through the hook and is stored as hooked |
| `OrderService.NormaliseAmount` | backend/controllers/Order.js:79-95 | an accepted amount is positive. Only a non-string, non-number amount gets the format error. A number is accepted exactly when it is at least ½, as its rounding. A string is accepted exactly when `parseInt` reads a positive number from it, as that number |
| `OrderService.StringAmountAccepted` | backend/controllers/Order.js:79-95 | a string amount of an optional sign, zeros, the digits of n and any non-digit tail is accepted as n exactly when the sign is not `-` and n > 0; otherwise it gets the value error |
| `OrderService.StringAmountSkipsBlanks` | backend/controllers/Order.js:79-95 | blanks in front of a string amount change nothing |
| `OrderService.DefaultReceiptReadsBack` | backend/controllers/Order.js:100 | the default receipt is `order_` followed by text that reads back as the creation time |
| `OrderService.GatewayOptions` | backend/controllers/Order.js:97-102 | the gateway gets the normalised amount. A falsy currency becomes INR. A falsy receipt becomes `order_<now>`. Absent notes become {}. Supplied values pass through |
| `OrderService.ViewOf` | backend/controllers/Order.js:112-119 | the reply copies id, currency, amount, receipt, status and creation time from the gateway's order |
| `OrderService.CreatePaymentOrder` | backend/controllers/Order.js:60-127 | the gateway is asked only when the SDK client was built and the amount normalised to a positive value. A client that cannot be built answers 500 with the gateway-order error and the thrown message. A refused amount answers 400 with its message. A gateway failure answers 500 with the gateway-order error and its message. 201 exactly when the gateway created the order, with the six copied fields |
| `OrderService.SignatureMessage` | backend/controllers/Order.js:138 | the message is the order id, a bar, then the payment id, each absent id written as `undefined` |
| `OrderService.SignatureMessageDeterminesIds` | backend/controllers/Order.js:138 | with no bar in the order ids, equal messages come from equal id pairs |
| `OrderService.VerifyPayment` | backend/controllers/Order.js:129-168 | 200 with `verified: true` exactly when the provided signature equals the HMAC of `order_id\|payment_id`; 400 with `verified: false` exactly when it differs; 500 when the key secret is unset; no store is involved |
| `OrderService.VerifyAcceptsOnlyGatewaySignature` | backend/controllers/Order.js:137-160 | the gateway's signature for an id pair is accepted, and any other signature for that pair is refused |
| `OrderService.PagingWindow` | backend/controllers/Order.js:31-38 | with both page and limit, the limit is kept and the skip is (page-1)·limit, which is non-negative from page 1 on; otherwise skip and limit are 0 |
| `OrderService.ConsecutivePagesTile` | backend/controllers/Order.js:31-40 | page p and page p+1 together are the run of 2·limit orders from where page p starts: pages neither overlap nor leave a gap |
| `OrderService.PageOf` | backend/controllers/Order.js:40 | the page is the contiguous run of the store starting at `skip`; limit 0 takes everything after `skip`, any other limit takes at most its absolute value |
| `OrderService.SecondPageOfTwentyFive` | backend/controllers/Order.js:31-41 | with 25 orders, page 2 of limit 10 skips 10 and holds the 11th to the 20th orders |
| `OrderService.OrdersOfUser` | backend/controllers/Order.js:21 | an order is in the result exactly when it is stored and its user is the given id |
| `OrderService.OrdersOfUserAppend` | backend/controllers/Order.js:21 | the filter distributes over concatenation, so the result keeps store order |
| `OrderService.PatchFields` | backend/controllers/Order.js:52 | each field the update carries replaces the stored one, and each field it does not carry is kept |
| `OrderService.PatchTouchesOnlyCarriedFields` | backend/controllers/Order.js:52 | an empty update keeps every field; a status-only update changes the status and nothing else |
| `OrderService.PatchesCompose` | backend/controllers/Order.js:52 | two updates in a row equal one update in which the second's fields win |
| `OrderService.UpdateSkipsValidation` | backend/controllers/Order.js:52 | a status outside the enum is stored as sent, and the stored record then fails validation |
| `OrderService.ApplyPatch` | backend/controllers/Order.js:52 | an updated order keeps its id and creation time, takes the update's fields over its own, and its update time is the time of the update |
| `OrderService.OrderStore.Create` | backend/controllers/Order.js:7-16 | a body that validates, under an unused id, is stored at the end as the hook leaves it and answered 201; any failure answers 500 and leaves the store unchanged; ids stay unique |
| `OrderService.OrderStore.GetByUserId` | backend/controllers/Order.js:18-27 | answers 200 with exactly that user's stored orders, in store order |
| `OrderService.OrderStore.GetAll` | backend/controllers/Order.js:29-47 | skip = limit·(page-1) and the given limit only when both are given, else 0 and 0. The reply is that page, with the store size as `X-Total-Count`. A negative skip answers 500 |
| `OrderService.OrderStore.UpdateById` | backend/controllers/Order.js:49-58 | the first order with the id is replaced by its patched version and nothing else changes; an unknown id answers 200 with null and changes nothing; ids stay unique |
| `OrderApi.ApiOutcome` | frontend/src/features/order/OrderApi.jsx:6-22 | a failed response rejects with: the body's message; else 'Request failed' for an object body without one; else the status text; else 'Request failed'. That message is never empty. A successful response resolves with its parsed body, and one whose body is not JSON rejects with the parser's message |
| `OrderApi.HandleApiResponse` | frontend/src/features/order/OrderApi.jsx:6-22 | the step-by-step message selection settles exactly as `ApiOutcome` |
| `OrderApi.MakeApiCall` | frontend/src/features/order/OrderApi.jsx:25-37 | a failed fetch rejects with its error; any response that arrives settles exactly as `ApiOutcome`, with the same message precedence and the parse error of an ok body that is not JSON |
| `OrderApi.CreateOrder` | frontend/src/features/order/OrderApi.jsx:39-47 | the order is always sent, unchanged |
| `OrderApi.GetAllOrders` | frontend/src/features/order/OrderApi.jsx:49-56 | page 1 and limit 10 unless given |
| `OrderApi.GetOrderByUserId` | frontend/src/features/order/OrderApi.jsx:58-64 | throws 'User ID is required', sending nothing, exactly when the id is falsy |
| `OrderApi.UpdateOrderById` | frontend/src/features/order/OrderApi.jsx:66-78 | throws, sending nothing, exactly when the id is falsy; otherwise only `data` is sent, to the route of that id |
| `OrderApi.CreateRazorpayOrder` | frontend/src/features/order/OrderApi.jsx:80-93 | throws 'Valid amount is required', sending nothing, exactly when the amount is absent, zero or negative |
| `OrderApi.AmountChecksAgree` | frontend/src/features/order/OrderApi.jsx:82-84 | of the amounts the browser sends, the server accepts exactly those of at least ½; a whole amount passes both unchanged |
| `OrderApi.QuarterPaiseRefusedByServerOnly` | frontend/src/features/order/OrderApi.jsx:82-84 | an amount of 0.25 passes the browser check and is refused by the server |
| `OrderApi.Missing` | frontend/src/features/order/OrderApi.jsx:97-98 | a field name is listed exactly when it is one of the required fields and its value is falsy |
| `OrderApi.MissingFieldsInOrder` | frontend/src/features/order/OrderApi.jsx:97-98 | the missing list is the falsy ones of order id, payment id and signature, in that order |
| `OrderApi.VerifyRazorpayPayment` | frontend/src/features/order/OrderApi.jsx:95-111 | throws, sending nothing, exactly when some field is falsy, with a message listing the missing fields joined by commas |
| `OrderApi.AllFieldsMissing` | frontend/src/features/order/OrderApi.jsx:97-102 | with nothing supplied, the message names all three fields in order |
| `OrderApi.ProcessRazorpayPayment` | frontend/src/features/order/OrderApi.jsx:114-181 | resolves, with the gateway order and the payment, exactly when creation succeeded, the SDK is present and its constructor did not throw, the payment completed with all fields, and verification answered `verified: true`. It rejects on dismissal, a missing SDK, a throwing constructor (with its message), an unverified payment or an invalid amount. A failure event leaves it pending |
| `OrderApi.DefaultListingIsFirstTen` | frontend/src/features/order/OrderApi.jsx:49-56 | the listing loaded with no arguments asks for page 1 of 10, which the server turns into the first ten stored orders |
| `OrderSlice.Settle` | frontend/src/features/order/OrderSlice.jsx:17-45 | a resolved call becomes the fulfilled action with its value; a rejected one becomes the rejected action with its message |
| `OrderSlice.ReplaceById` | frontend/src/features/order/OrderSlice.jsx:112-113 | the length is kept, the first order with the payload's id becomes the payload, every other order is kept; with no such order nothing changes |
| `OrderSlice.ReplaceMirrorsServerUpdate` | frontend/src/features/order/OrderSlice.jsx:110-114 | putting the server's updated order in place makes the browser's list equal to the store's list after the update |
| `OrderSlice.ReplaceByIdIdempotent` | frontend/src/features/order/OrderSlice.jsx:112-113 | replacing by id twice with the same order equals replacing once |
| `OrderSlice.OrderStateStore.constructor` | frontend/src/features/order/OrderSlice.jsx:4-15 | every status is idle, the list is empty, and the current order, gateway order, errors and message are null |
| `OrderSlice.OrderStateStore.ResetCurrentOrder` | frontend/src/features/order/OrderSlice.jsx:51-53 | only the current order changes, to null |
| `OrderSlice.OrderStateStore.ResetOrderUpdateStatus` | frontend/src/features/order/OrderSlice.jsx:54-56 | only the update status changes, to idle |
| `OrderSlice.OrderStateStore.ResetOrderFetchStatus` | frontend/src/features/order/OrderSlice.jsx:57-59 | only the fetch status changes, to idle |
| `OrderSlice.OrderStateStore.ResetRazorpayOrderStatus` | frontend/src/features/order/OrderSlice.jsx:60-63 | the gateway-order status becomes idle and the gateway order null; nothing else changes |
| `OrderSlice.OrderStateStore.ResetPaymentVerificationStatus` | frontend/src/features/order/OrderSlice.jsx:64-66 | only the verification status changes, to idle |
| `OrderSlice.OrderStateStore.FinishCreateOrder` | frontend/src/features/order/OrderSlice.jsx:17-20 | when `createOrderAsync` settles: a resolved call appends the order, makes it current and sets the status Fulfilled; a rejected one sets the status Rejected and records the message; nothing else changes |
| `OrderSlice.OrderStateStore.OnCreateOrder` | frontend/src/features/order/OrderSlice.jsx:70-81 | pending sets only the status. Fulfilled appends the order, makes it current and sets the status. Rejected sets the status and the error. Nothing else changes |
| `OrderSlice.OrderStateStore.OnGetAllOrders` | frontend/src/features/order/OrderSlice.jsx:83-93 | fulfilled replaces the whole list and sets only the fetch status besides; pending and rejected set the fetch status (and the error) |
| `OrderSlice.OrderStateStore.OnGetOrderByUserId` | frontend/src/features/order/OrderSlice.jsx:95-105 | the same three cases as loading all orders, on the same fetch status |
| `OrderSlice.OrderStateStore.OnUpdateOrderById` | frontend/src/features/order/OrderSlice.jsx:107-118 | fulfilled puts the updated order in place by id and sets the update status; a null payload leaves the whole state unchanged; pending and rejected set the update status (and the error) |
| `OrderSlice.OrderStateStore.OnCreateRazorpayOrder` | frontend/src/features/order/OrderSlice.jsx:120-130 | fulfilled keeps the gateway order and sets its status; pending and rejected set the status (and the error) |
| `OrderSlice.OrderStateStore.OnVerifyRazorpayPayment` | frontend/src/features/order/OrderSlice.jsx:132-141 | only the verification status changes (and the error when rejected); the orders and the current order never change |
| `Checkout.OrderTotal` | frontend/src/features/checkout/components/Checkout.jsx:31 | the cart total is non-negative when every price and quantity is |
| `Checkout.OrderTotalAppend` | frontend/src/features/checkout/components/Checkout.jsx:31 | the total of two carts together is the sum of their totals |
| `Checkout.OrderTotalOfOne` | frontend/src/features/checkout/components/Checkout.jsx:31 | a one-line cart totals price times quantity |
| `Checkout.FinalTotal` | frontend/src/features/checkout/components/Checkout.jsx:32 | with non-negative prices, quantities, shipping and taxes, the amount charged is at least the cart total |
| `Checkout.SurchargeChargedOnce` | frontend/src/features/checkout/components/Checkout.jsx:31-32 | shipping and taxes are charged once per checkout: adding lines to a cart adds only their own total |
| `Checkout.ConvertToPaise` | frontend/src/features/checkout/components/Checkout.jsx:38-40 | the paise are within one half of 100 times the amount |
| `Checkout.ConvertToPaiseExact` | frontend/src/features/checkout/components/Checkout.jsx:38-40 | an amount with whole paise converts to exactly those paise; 450 gives 45000 and 19.999 gives 2000 |
| `Checkout.CodOrder` | frontend/src/features/checkout/components/Checkout.jsx:198-207 | the COD order carries the user, the cart, the address and the total, with payment status Pending and no gateway values. The schema accepts it exactly when the user id is truthy, and the hook never fires on it |
| `Checkout.CardOrder` | frontend/src/features/checkout/components/Checkout.jsx:133-145 | the CARD order carries the three gateway values and the total, with payment status Paid. The schema accepts it exactly when the user id, the address and all three gateway values are present. The hook fires exactly when the payment id is truthy |
| `Checkout.CardPaymentData` | frontend/src/features/checkout/components/Checkout.jsx:208-221 | the gateway order request asks for the total in paise, in INR. Its receipt is `order_` followed by text that reads back as the time. Its notes carry the street, and the user id exactly when there is one |
| `Checkout.CodOrderStoredPending` | frontend/src/features/checkout/components/Checkout.jsx:198-207 | the COD order of a signed-in user passes validation and is stored Pending and unpaid, with the page's total |
| `Checkout.CardOrderStoredConfirmed` | frontend/src/features/checkout/components/Checkout.jsx:133-145 | the CARD order built from a complete gateway response passes validation and is stored Paid and Confirmed with the signature and the page's total |
| `Checkout.CardRequestCarriesTotal` | frontend/src/features/checkout/components/Checkout.jsx:208-221 | the gateway is asked for the page's total in paise, in INR, under the page's receipt |
| `Checkout.VerifiedFlagMeansSignatureMatched` | frontend/src/features/checkout/components/Checkout.jsx:131-133 | the `verified` flag the page reads is true exactly when the server found the signature equal to the HMAC of the two ids |
| `Checkout.SdkError` | frontend/src/features/checkout/components/Checkout.jsx:88-97 | no error exactly when the SDK is ready; otherwise the message for a script that failed to load, a missing SDK or a throwing constructor |
| `Checkout.CheckoutPage.constructor` | frontend/src/features/checkout/components/Checkout.jsx:19-21 | the first saved address is selected, COD is chosen, and the error is empty |
| `Checkout.CheckoutPage.HandleRazorpayPayment` | frontend/src/features/checkout/components/Checkout.jsx:85-188 | a script that failed to load, a missing SDK or a throwing constructor each set their own error. Only a ready SDK opens the hosted UI, with the amount, currency and id of the gateway order. Nothing is dispatched |
| `Checkout.CheckoutPage.HandleCreateOrder` | frontend/src/features/checkout/components/Checkout.jsx:190-242 | with no address only the error is set. COD dispatches exactly one COD order with the final total. CARD requests one gateway order for the total in paise. A created order with an id goes to the hosted UI when the SDK is ready, and otherwise leaves the SDK's error and hands nothing off. Any other outcome sets the initiate error. No order is placed on the card path |
| `Checkout.CheckoutPage.OnPaymentHandler` | frontend/src/features/checkout/components/Checkout.jsx:107-153 | a CARD, Paid order with the three gateway values and the final total is dispatched exactly when the reply says `verified`; otherwise only the error is set |
| `Checkout.CheckoutPage.OnDismiss` | frontend/src/features/checkout/components/Checkout.jsx:167-171 | dismissal sets the error and dispatches nothing |
| `Checkout.CheckoutPage.OnPaymentFailed` | frontend/src/features/checkout/components/Checkout.jsx:178-181 | a failed payment sets the error to the gateway's description or 'Unknown error' and dispatches nothing |
| `Checkout.CheckoutPage.OnCurrentOrder` | frontend/src/features/checkout/components/Checkout.jsx:51-56 | the cart is reset and the page moves to that order's success route exactly when the current order has an id |
| `AdminOrders.Reversed` | frontend/src/features/admin/components/AdminOrders.jsx:139 | the displayed list has the same length, and position i shows the order at n-1-i |
| `AdminOrders.ReversedTwice` | frontend/src/features/admin/components/AdminOrders.jsx:139 | reversing twice gives the list back |
| `AdminOrders.ActualIndex` | frontend/src/features/admin/components/AdminOrders.jsx:73 | a displayed position maps to an index in [0, n), and the position and the index sum to n-1 |
| `AdminOrders.ActualIndexInRange` | frontend/src/features/admin/components/AdminOrders.jsx:71-77 | each displayed position maps to an index in [0, n), the mapping is its own inverse, and the row there shows that order |
| `AdminOrders.AtMostOneRowEditing` | frontend/src/features/admin/components/AdminOrders.jsx:274-308 | at most one row is in edit mode; none is when the index is -1; the row that is shows the order at the edit index |
| `AdminOrders.RowNumber` | frontend/src/features/admin/components/AdminOrders.jsx:143 | the row at a displayed position is numbered in [1, n], and the number and the position sum to n |
| `AdminOrders.RowNumbersCountDown` | frontend/src/features/admin/components/AdminOrders.jsx:143 | row numbers run from n down to 1, strictly decreasing |
| `AdminOrders.EditOptionsAreSchemaStatuses` | frontend/src/features/admin/components/AdminOrders.jsx:79 | the form's options are the schema's status enum, in the same order |
| `AdminOrders.StatusColor` | frontend/src/features/admin/components/AdminOrders.jsx:81-100 | a colour pair exactly for the six statuses, nothing for any other string |
| `AdminOrders.StatusColorsDistinct` | frontend/src/features/admin/components/AdminOrders.jsx:81-100 | the six statuses get six different colour pairs |
| `AdminOrders.AdminOrdersView.constructor` | frontend/src/features/admin/components/AdminOrders.jsx:25 | no row is edited at first |
| `AdminOrders.AdminOrdersView.OnOrders` | frontend/src/features/admin/components/AdminOrders.jsx:24 | a new list from the store replaces the list and leaves the edit state alone |
| `AdminOrders.AdminOrdersView.HandleEditClick` | frontend/src/features/admin/components/AdminOrders.jsx:71-77 | clicking the row at position i sets the edit index to n-1-i, which lies in [0, n) and is that row's order; the form starts at its status |
| `AdminOrders.AdminOrdersView.HandleCancelEdit` | frontend/src/features/admin/components/AdminOrders.jsx:66-69 | the edit index becomes -1 and the form is cleared |
| `AdminOrders.AdminOrdersView.HandleUpdateOrder` | frontend/src/features/admin/components/AdminOrders.jsx:58-64 | the dispatched update names the id of the order at the edit index and carries the form data; with no row edited nothing is dispatched |
| `AdminOrders.AdminOrdersView.OnUpdateStatus` | frontend/src/features/admin/components/AdminOrders.jsx:40-49 | a fulfilled update resets the edit index to -1 and clears the form; a rejected one only shows an error |
| `AdminOrders.UpdateTargetsEditedRow` | frontend/src/features/admin/components/AdminOrders.jsx:58-64 | the update sent from the edited row goes to the route of the order that row displays |

## Left out

- HMAC-SHA256 (`crypto.createHmac`) is an uninterpreted function parameter. The text of the error Node throws when the key secret is unset is not modelled: that 500 body carries no `error` text.
- The gateway (`razorpay.orders.create`) and the gateway SDK's constructor are parameters. Their answers and thrown messages are passed in.
- `fetch`, JSON parsing, loading the SDK script and the hosted payment UI are inputs. This covers the event the UI fires, whether the SDK is present and whether its constructor throws.
- Mongoose internals are not modelled: `populate`, `countDocuments`, casting, and the `ObjectId` format of ids and user references. A malformed id, which answers 500 from `getByUserId` and `updateById`, is not modelled, and neither is a storage failure.
- Query strings are modelled by the numbers they hold. Non-numeric `page` or `limit` values (NaN arithmetic) are not modelled.
- Prices and totals are exact reals. Floating-point rounding of sums and of `amount * 100` is not modelled, and neither is `parseFloat`.
- Checkout.CardPaymentData: the `final_total` note (the float's string rendering) is not modelled.
- OrderService.PatchFields: an update body that sets a field to `null` clears it under `$set`, but the model cannot tell `null` from an absent key. In the model, both leave the field as it was.
- `SHIPPING` and `TAXES` come from a constants file that is not part of this model. They are the `Pricing` parameter.
- Timestamps are parameters. Logging, the hard-coded keys and URLs, the prefill, theme and notes of the hosted UI options, and the toast texts beyond the two status toasts are not modelled.
- Async interleaving is not modelled: each request or callback is one atomic step, and a promise's first event decides it. Concurrent updates to one order are also left out.
- `formatToPaise` and `formatFromPaise` in `OrderApi.jsx` are not modelled: they are float helpers no core path calls.
- `parseInt` is modelled for decimal digits only. Integers are exact in the model. JavaScript numbers lose precision above 2^53, which affects `parseInt`, JSON numbers and `String(Date.now())`. They overflow to `Infinity` for very long digit strings. Neither is modelled: the model's values are exact, which matches the code only for safe integers.
- OrderSlice.OrderStateStore.OnUpdateOrderById: when no order has the payload's id, the source writes an array property at key -1. The model keeps only the elements, which that write leaves unchanged.
- AdminOrders.AdminOrdersView.HandleEditClick: requires a displayed position, because the handler is only attached to rendered rows.
