/** The browser-side order API: the checks each call makes before any
    request leaves the browser, the request it then sends, the choice of
    error message for a failed response, and the promise that drives a
    gateway payment from creation to verification. `fetch` and the hosted
    payment UI are foreign: their answers are parameters. */
module OrderApi {
  import opened Js
  import opened OrderSchema
  import opened OrderService

  const RequestFailed := "Request failed"
  const UserIdRequired := "User ID is required"
  const OrderIdRequired := "Order ID is required for update"
  const ValidAmountRequired := "Valid amount is required"
  const MissingFieldsPrefix := "Missing required fields: "
  const PaymentVerificationFailed := "Payment verification failed"
  const PaymentCancelled := "Payment cancelled by user"
  const SdkNotLoaded := "Razorpay SDK not loaded. Please include the Razorpay script."

  /** A parsed JSON body: `null`, or an object with an optional `message`. */
  datatype Json<T> = Null | Object(message: Option<string>, data: T)

  /** What `fetch` resolves with; `body` is `None` when it is not JSON. */
  datatype Response<T> = Response(ok: bool, statusText: string, body: Option<Json<T>>)

  /** How a promise settles. */
  datatype Outcome<T> = Resolved(value: T) | Rejected(message: string)

  /** How `handleApiResponse` settles: a successful response resolves with
      its parsed body (a body that is not JSON rejects with the parser's
      message); a failed one rejects with the body's message, else "Request
      failed" when the body is an object without one, else the status text,
      else "Request failed". The message of a failed response is never empty. */
  function ApiOutcome<T>(response: Response<T>, parseError: string): (out: Outcome<Json<T>>)
    ensures response.ok ==>
      out == (if response.body.Some? then Resolved(response.body.value) else Rejected(parseError))
    ensures !response.ok ==> out.Rejected? && out.message != ""
    ensures !response.ok && response.body.Some? && response.body.value.Object? ==>
      out.message == (if Truthy(response.body.value.message) then response.body.value.message.value else RequestFailed)
    ensures !response.ok && (response.body.None? || response.body.value.Null?) ==>
      out.message == (if response.statusText != "" then response.statusText else RequestFailed)
  {
    if !response.ok then
      if response.body.Some? && response.body.value.Object? then
        Rejected(if Truthy(response.body.value.message) then response.body.value.message.value else RequestFailed)
      else Rejected(if response.statusText != "" then response.statusText else RequestFailed)
    else if response.body.None? then Rejected(parseError)
    else Resolved(response.body.value)
  }

  /** `handleApiResponse`, step by step as the source writes it: a default
      message overwritten by the first source that has one. */
  method HandleApiResponse<T>(response: Response<T>, parseError: string) returns (out: Outcome<Json<T>>)
    ensures out == ApiOutcome(response, parseError)
  {
    if !response.ok {
      var errorMessage := RequestFailed;
      if response.body.Some? && response.body.value.Object? {
        if Truthy(response.body.value.message) {
          errorMessage := response.body.value.message.value;
        }
      } else if response.statusText != "" {
        errorMessage := response.statusText;
      }
      return Rejected(errorMessage);
    }
    if response.body.None? {
      return Rejected(parseError);
    }
    out := Resolved(response.body.value);
  }

  /** `makeApiCall`: a `fetch` that fails rejects with its error; otherwise
      the response is handled as above. */
  method MakeApiCall<T>(fetched: Result<Response<T>, string>, parseError: string) returns (out: Outcome<Json<T>>)
    ensures fetched.Failure? ==> out == Rejected(fetched.error)
    ensures fetched.Success? ==> out == ApiOutcome(fetched.value, parseError)
  {
    if fetched.Failure? {
      return Rejected(fetched.error);
    }
    out := HandleApiResponse(fetched.value, parseError);
  }

  // ----- Requests -----

  /** The body of a create-payment-order request as the browser builds it. */
  datatype PaymentOrderData = PaymentOrderData(
    amount: Option<real>, currency: Option<string>, receipt: Option<string>, notes: Option<map<string, string>>)

  /** The request each call sends: method, route and body. */
  datatype Request =
    | PostOrder(order: OrderFields)                 // POST /orders
    | GetOrders(page: int, limit: int)              // GET /orders?page=..&limit=..
    | GetUserOrders(userId: string)                 // GET /orders/user/:id
    | PatchOrder(id: string, data: OrderFields)     // PATCH /orders/:id
    | PostPaymentOrder(paymentOrder: PaymentOrderData)      // POST /orders/razorpay/create
    | PostVerification(payment: VerifyBody)          // POST /orders/razorpay/verify

  /** A call either sends one request or throws before sending anything. */
  datatype Call = Send(request: Request) | Refuse(message: string)

  /** `createOrder`: always sends the order. */
  function CreateOrder(order: OrderFields): (c: Call)
    ensures c.Send? && c.request.PostOrder? && c.request.order == order
  {
    Send(PostOrder(order))
  }

  /** `getAllOrders`: page 1 and limit 10 unless given. */
  function GetAllOrders(page: Option<int>, limit: Option<int>): (c: Call)
    ensures c.Send? && c.request.GetOrders?
    ensures c.request.page == (if page.Some? then page.value else 1)
    ensures c.request.limit == (if limit.Some? then limit.value else 10)
  {
    Send(GetOrders(if page.Some? then page.value else 1, if limit.Some? then limit.value else 10))
  }

  /** `getOrderByUserId`: a falsy user id throws before any request. */
  function GetOrderByUserId(userId: Option<string>): (c: Call)
    ensures c.Refuse? <==> !Truthy(userId)
    ensures c.Refuse? ==> c.message == UserIdRequired
    ensures c.Send? ==> c.request == GetUserOrders(userId.value)
  {
    if !Truthy(userId) then Refuse(UserIdRequired) else Send(GetUserOrders(userId.value))
  }

  /** The argument of `updateOrderById`. */
  datatype Update = Update(id: Option<string>, data: OrderFields)

  /** `updateOrderById`: a falsy id throws before any request; otherwise
      only `data` is sent, to the route of that id. */
  function UpdateOrderById(update: Update): (c: Call)
    ensures c.Refuse? <==> !Truthy(update.id)
    ensures c.Refuse? ==> c.message == OrderIdRequired
    ensures c.Send? ==> c.request == PatchOrder(update.id.value, update.data)
  {
    if !Truthy(update.id) then Refuse(OrderIdRequired) else Send(PatchOrder(update.id.value, update.data))
  }

  /** `createRazorpayOrder`: a missing, zero or negative amount throws
      before any request. */
  function CreateRazorpayOrder(data: PaymentOrderData): (c: Call)
    ensures c.Refuse? <==> data.amount.None? || data.amount.value <= 0.0
    ensures c.Refuse? ==> c.message == ValidAmountRequired
    ensures c.Send? ==> c.request == PostPaymentOrder(data)
  {
    if data.amount.None? || data.amount.value <= 0.0 then Refuse(ValidAmountRequired)
    else Send(PostPaymentOrder(data))
  }

  /** How the server reads the browser's body: a number stays a number and
      an absent amount has no usable type. */
  function ServerView(data: PaymentOrderData): PaymentOrderBody {
    PaymentOrderBody(
      if data.amount.Some? then AmountNumber(data.amount.value) else AmountOther,
      data.currency, data.receipt, data.notes)
  }

  /** The two amount checks differ: the browser lets through every positive
      amount, the server refuses those below one half; a whole number of
      paise passes both unchanged. */
  lemma AmountChecksAgree(data: PaymentOrderData)
    requires CreateRazorpayOrder(data).Send?
    ensures NormaliseAmount(ServerView(data).amount).Success? <==> data.amount.value >= 0.5
    ensures data.amount.value == data.amount.value.Floor as real ==>
      NormaliseAmount(ServerView(data).amount) == Success(data.amount.value.Floor)
  {
  }

  /** An amount the browser sends but the server refuses. */
  lemma QuarterPaiseRefusedByServerOnly()
    ensures CreateRazorpayOrder(PaymentOrderData(Some(0.25), None, None, None)).Send?
    ensures NormaliseAmount(AmountNumber(0.25)) == Failure(AmountValueError)
  {
  }

  // ----- Verification -----

  const RequiredFields := ["razorpay_order_id", "razorpay_payment_id", "razorpay_signature"]

  /** `paymentData[field]` for the three verification fields. */
  function FieldValue(data: VerifyBody, field: string): Option<string> {
    if field == "razorpay_order_id" then data.orderId
    else if field == "razorpay_payment_id" then data.paymentId
    else if field == "razorpay_signature" then data.signature
    else None
  }

  /** `fields.filter(field => !data[field])`. */
  function Missing(fields: seq<string>, data: VerifyBody): (m: seq<string>)
    ensures |m| <= |fields|
    ensures forall f :: f in m <==> f in fields && !Truthy(FieldValue(data, f))
  {
    if fields == [] then []
    else (if Truthy(FieldValue(data, fields[0])) then [] else [fields[0]]) + Missing(fields[1..], data)
  }

  /** The missing-field list is the falsy fields in the order order id,
      payment id, signature. */
  lemma MissingFieldsInOrder(data: VerifyBody)
    ensures Missing(RequiredFields, data) ==
      (if Truthy(data.orderId) then [] else ["razorpay_order_id"]) +
      (if Truthy(data.paymentId) then [] else ["razorpay_payment_id"]) +
      (if Truthy(data.signature) then [] else ["razorpay_signature"])
  {
    assert RequiredFields[1..][1..][1..] == [];
  }

  /** `names.join(sep)`. */
  function Join(names: seq<string>, sep: string): string {
    if names == [] then "" else if |names| == 1 then names[0] else names[0] + sep + Join(names[1..], sep)
  }

  /** `verifyRazorpayPayment`: throws, before any request, exactly when a
      field is falsy, naming every falsy field. */
  function VerifyRazorpayPayment(data: VerifyBody): (c: Call)
    ensures c.Refuse? <==> !Truthy(data.orderId) || !Truthy(data.paymentId) || !Truthy(data.signature)
    ensures c.Refuse? ==> c.message == MissingFieldsPrefix + Join(Missing(RequiredFields, data), ", ")
    ensures c.Send? ==> c.request == PostVerification(data)
  {
    var missing := Missing(RequiredFields, data);
    MissingFieldsInOrder(data);
    if |missing| > 0 then Refuse(MissingFieldsPrefix + Join(missing, ", ")) else Send(PostVerification(data))
  }

  /** Three names joined: separated by `sep`, in their order. */
  lemma JoinThree(a: string, b: string, c: string, sep: string)
    ensures Join([a, b, c], sep) == a + sep + b + sep + c
  {
    assert [a, b, c][1..] == [b, c];
    assert [b, c][1..] == [c];
    assert Join([c], sep) == c;
    assert Join([b, c], sep) == b + sep + c;
    assert Join([a, b, c], sep) == a + sep + (b + sep + c);
  }

  /** With nothing supplied, the message names all three fields, in order. */
  lemma AllFieldsMissing()
    ensures VerifyRazorpayPayment(VerifyBody(None, None, None)) ==
      Refuse(MissingFieldsPrefix + "razorpay_order_id" + ", " + "razorpay_payment_id" + ", " + "razorpay_signature")
  {
    var none := VerifyBody(None, None, None);
    MissingFieldsInOrder(none);
    assert Missing(RequiredFields, none) == RequiredFields;
    JoinThree("razorpay_order_id", "razorpay_payment_id", "razorpay_signature", ", ");
    assert VerifyRazorpayPayment(none) == Refuse(MissingFieldsPrefix + Join(RequiredFields, ", "));
  }

  // ----- The payment promise -----

  /** What the hosted payment UI does after opening: calls the handler with
      the gateway's response, is dismissed, or reports a failure for which
      this promise has no listener. */
  datatype HostedEvent = Completed(response: VerifyBody) | Dismissed | FailedUnheard

  datatype PaymentSuccess = PaymentSuccess(order: PaymentOrderView, payment: VerifyBody)

  /** A promise that either settles or stays pending for ever. */
  datatype Settlement<T> = Settled(outcome: Outcome<T>) | Unsettled

  /** The payment reached the hosted UI: the create call was sent and
      answered, the SDK is present and its constructor did not throw. */
  predicate HandedOff(data: PaymentOrderData, created: Outcome<PaymentOrderView>, sdkLoaded: bool,
                      constructorError: Option<string>) {
    CreateRazorpayOrder(data).Send? && created.Resolved? && sdkLoaded && constructorError.None?
  }

  /** `processRazorpayPayment`. `created` is how the create call settled
      once sent, `sdkLoaded` whether `window.Razorpay` is defined,
      `constructorError` what `new window.Razorpay(options)` throws, `event`
      what the hosted UI did, and `verified` how the verification call
      settled (with the `verified` flag of its body). The promise resolves
      only when verification answered `verified: true`. */
  function ProcessRazorpayPayment(data: PaymentOrderData, created: Outcome<PaymentOrderView>, sdkLoaded: bool,
                                  constructorError: Option<string>, event: HostedEvent, verified: Outcome<bool>): (s: Settlement<PaymentSuccess>)
    ensures s.Settled? && s.outcome.Resolved? <==>
      HandedOff(data, created, sdkLoaded, constructorError) && event.Completed? &&
      VerifyRazorpayPayment(event.response).Send? && verified == Resolved(true)
    ensures s.Settled? && s.outcome.Resolved? ==> s.outcome.value == PaymentSuccess(created.value, event.response)
    ensures s.Unsettled? <==> HandedOff(data, created, sdkLoaded, constructorError) && event.FailedUnheard?
    ensures CreateRazorpayOrder(data).Refuse? ==> s == Settled(Rejected(ValidAmountRequired))
    ensures CreateRazorpayOrder(data).Send? && created.Resolved? && !sdkLoaded ==> s == Settled(Rejected(SdkNotLoaded))
    ensures CreateRazorpayOrder(data).Send? && created.Resolved? && sdkLoaded && constructorError.Some? ==>
      s == Settled(Rejected(constructorError.value))
    ensures HandedOff(data, created, sdkLoaded, constructorError) && event.Dismissed? ==> s == Settled(Rejected(PaymentCancelled))
    ensures (HandedOff(data, created, sdkLoaded, constructorError) && event.Completed? && verified == Resolved(false) &&
             VerifyRazorpayPayment(event.response).Send?) ==> s == Settled(Rejected(PaymentVerificationFailed))
  {
    var call := CreateRazorpayOrder(data);
    if call.Refuse? then Settled(Rejected(call.message))
    else if created.Rejected? then Settled(Rejected(created.message))
    else if !sdkLoaded then Settled(Rejected(SdkNotLoaded))
    else if constructorError.Some? then Settled(Rejected(constructorError.value))
    else match event
      case Dismissed => Settled(Rejected(PaymentCancelled))
      case FailedUnheard => Unsettled
      case Completed(response) =>
        var check := VerifyRazorpayPayment(response);
        if check.Refuse? then Settled(Rejected(check.message))
        else if verified.Rejected? then Settled(Rejected(verified.message))
        else if verified.value then Settled(Resolved(PaymentSuccess(created.value, response)))
        else Settled(Rejected(PaymentVerificationFailed))
  }

  /** The listing the order list loads (no arguments) asks the server for
      its first ten orders. */
  lemma DefaultListingIsFirstTen(orders: seq<Order>)
    ensures GetAllOrders(None, None) == Send(GetOrders(1, 10))
    ensures PagingWindow(Some(1), Some(10)) == Window(0, 10)
    ensures PageOf(orders, 0, 10) == orders[..if |orders| < 10 then |orders| else 10]
  {
  }
}
