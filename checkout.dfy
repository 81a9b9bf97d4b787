/** The checkout page: the cart total, the choice between cash on delivery
    and a card payment, the order each choice builds, and the callbacks of
    the hosted payment UI. The page is a state machine over its error
    message, the actions it has dispatched, the payment it handed off and
    the page it navigated to. The SDK script, the hosted UI and `fetch` are
    foreign: what they do is passed in. */
module Checkout {
  import opened Js
  import opened OrderSchema
  import opened OrderService
  import opened OrderApi

  const AddressMissing := "Please select a delivery address."
  const InitiateFailed := "Failed to initiate payment. Please try again."
  const SdkLoadFailed := "Razorpay SDK failed to load. Please check your internet connection."
  const SdkUnavailable := "Razorpay is not available. Please refresh the page and try again."
  const InitFailed := "Failed to initialize payment. Please try again."
  const VerificationFailed := "Payment verification failed. Please contact support."
  const CancelledByUser := "Payment cancelled by user."
  const PaymentFailedPrefix := "Payment failed: "
  const UnknownError := "Unknown error"
  const SuccessRoute := "/order-success/"

  /** The flat shipping charge and taxes added to every cart. */
  datatype Pricing = Pricing(shipping: real, taxes: real)

  /** The amount one cart line adds to the total. */
  function LineTotal(line: CartLine): real {
    line.price * line.quantity as real
  }

  /** `cartItems.reduce((acc, item) => item.product.price * item.quantity + acc, 0)`. */
  function OrderTotal(items: seq<CartLine>): (t: real)
    ensures (forall i :: 0 <= i < |items| ==> items[i].price >= 0.0 && items[i].quantity >= 0) ==> t >= 0.0
  {
    if items == [] then 0.0
    else LineTotal(items[|items| - 1]) + OrderTotal(items[..|items| - 1])
  }

  /** The total of two carts put together is the sum of their totals. */
  lemma {:induction false} OrderTotalAppend(a: seq<CartLine>, b: seq<CartLine>)
    ensures OrderTotal(a + b) == OrderTotal(a) + OrderTotal(b)
  {
    if b == [] {
      assert a + b == a;
    } else {
      var c, front := a + b, b[..|b| - 1];
      assert c[|c| - 1] == b[|b| - 1];
      assert c[..|c| - 1] == a + front;
      OrderTotalAppend(a, front);
      assert OrderTotal(c) == LineTotal(b[|b| - 1]) + OrderTotal(a + front);
    }
  }

  /** The total of a single line is its price times its quantity. */
  lemma OrderTotalOfOne(line: CartLine)
    ensures OrderTotal([line]) == line.price * line.quantity as real
  {
  }

  /** `orderTotal + SHIPPING + TAXES`: with non-negative prices, quantities
      and charges, the amount charged is at least the cart total. */
  function FinalTotal(items: seq<CartLine>, pricing: Pricing): (t: real)
    ensures (forall i :: 0 <= i < |items| ==> items[i].price >= 0.0 && items[i].quantity >= 0) &&
            pricing.shipping >= 0.0 && pricing.taxes >= 0.0 ==>
      t >= OrderTotal(items) >= 0.0
  {
    OrderTotal(items) + pricing.shipping + pricing.taxes
  }

  /** Shipping and taxes are charged once per checkout, not per cart line:
      adding lines to a cart adds only their own total. */
  lemma {:induction false} SurchargeChargedOnce(a: seq<CartLine>, b: seq<CartLine>, pricing: Pricing)
    ensures FinalTotal(a + b, pricing) == OrderTotal(a) + FinalTotal(b, pricing)
  {
    OrderTotalAppend(a, b);
  }

  /** `Math.round(parseFloat(amount) * 100)` on an exact amount. */
  function ConvertToPaise(amount: real): (p: int)
    ensures amount * 100.0 - 0.5 < p as real <= amount * 100.0 + 0.5
  {
    Round(amount * 100.0)
  }

  /** An amount with whole paise converts to exactly its paise, and 19.999
      rounds up to 2000 paise. */
  lemma ConvertToPaiseExact(paise: int)
    ensures ConvertToPaise(paise as real / 100.0) == paise
    ensures ConvertToPaise(450.0) == 45000
    ensures ConvertToPaise(19.999) == 2000
  {
  }

  /** The order a cash-on-delivery checkout places. */
  function CodOrder(userId: Option<string>, items: seq<CartLine>, address: Address, total: real): (o: OrderFields)
    ensures o.paymentMode == Some("COD") && o.paymentStatus == Some("Pending") && o.total == Some(total)
    ensures o.user == userId && o.item == Some(items) && o.address == Some(address)
    ensures o.razorpayOrderId.None? && o.razorpayPaymentId.None? && o.razorpaySignature.None?
    ensures Conforms(WithDefaults(o)) <==> Truthy(userId)
    ensures !HookFires(WithDefaults(o))
  {
    OrderFields(userId, Some(items), Some(address), None, Some("COD"), Some("Pending"), Some(total), None, None, None)
  }

  /** The order a verified card payment places, carrying the gateway's
      three values. */
  function CardOrder(userId: Option<string>, items: seq<CartLine>, address: Option<Address>, total: real,
                     payment: VerifyBody): (o: OrderFields)
    ensures o.paymentMode == Some("CARD") && o.paymentStatus == Some("Paid") && o.total == Some(total)
    ensures o.user == userId && o.item == Some(items) && o.address == address
    ensures o.razorpayOrderId == payment.orderId && o.razorpayPaymentId == payment.paymentId
    ensures o.razorpaySignature == payment.signature
    ensures Conforms(WithDefaults(o)) <==>
      Truthy(userId) && address.Some? &&
      Truthy(payment.orderId) && Truthy(payment.paymentId) && Truthy(payment.signature)
    ensures HookFires(WithDefaults(o)) <==> Truthy(payment.paymentId)
  {
    OrderFields(userId, Some(items), address, None, Some("CARD"), Some("Paid"), Some(total),
                payment.orderId, payment.paymentId, payment.signature)
  }

  /** The gateway order a card checkout asks for: the total in paise, in
      INR, with a time-stamped receipt and notes naming the user and street. */
  function CardPaymentData(userId: Option<string>, address: Address, total: real, now: nat): (d: PaymentOrderData)
    ensures d.amount == Some(ConvertToPaise(total) as real) && d.currency == Some("INR")
    ensures d.receipt.Some? && |d.receipt.value| > 6 && d.receipt.value[..6] == "order_"
    ensures d.receipt.Some? && ParseInt(d.receipt.value[6..]) == Some(now)
    ensures d.notes.Some? && "address" in d.notes.value && d.notes.value["address"] == address.street
    ensures d.notes.Some? && ("user_id" in d.notes.value <==> userId.Some?)
    ensures d.notes.Some? && userId.Some? ==> d.notes.value["user_id"] == userId.value
  {
    DefaultReceiptReadsBack(now);
    var notes := if userId.Some? then map["user_id" := userId.value] else map[];
    PaymentOrderData(Some(ConvertToPaise(total) as real), Some("INR"), Some("order_" + DecimalString(now)),
                     Some(notes["address" := address.street]))
  }

  /** A cash-on-delivery order from a signed-in user is accepted by the
      schema and stored Pending and unpaid, with the page's total. */
  lemma CodOrderStoredPending(userId: string, items: seq<CartLine>, address: Address, total: real)
    requires userId != ""
    ensures var f := WithDefaults(CodOrder(Some(userId), items, address, total));
      && Violations(f) == []
      && PreSaveHook(f).status == Some("Pending")
      && PreSaveHook(f).paymentStatus == Some("Pending")
      && PreSaveHook(f).total == Some(total)
  {
  }

  /** A card order built from a complete gateway response is accepted by
      the schema and stored Paid and Confirmed with the three gateway values. */
  lemma CardOrderStoredConfirmed(userId: string, items: seq<CartLine>, address: Address, total: real,
                                 payment: VerifyBody)
    requires userId != ""
    requires Truthy(payment.orderId) && Truthy(payment.paymentId) && Truthy(payment.signature)
    ensures var f := WithDefaults(CardOrder(Some(userId), items, Some(address), total, payment));
      && Violations(f) == []
      && PreSaveHook(f).status == Some("Confirmed")
      && PreSaveHook(f).paymentStatus == Some("Paid")
      && PreSaveHook(f).razorpaySignature == payment.signature
      && PreSaveHook(f).total == Some(total)
  {
    var f := WithDefaults(CardOrder(Some(userId), items, Some(address), total, payment));
    assert "CARD" == PaymentModeValues[2];
    assert "Paid" == PaymentStatusValues[1];
    assert Conforms(f);
  }

  /** The gateway is asked for the page's total in paise, in INR, under the
      page's receipt, whenever that total is at least one paisa. */
  lemma CardRequestCarriesTotal(userId: Option<string>, address: Address, total: real, now: nat, serverNow: nat)
    requires ConvertToPaise(total) > 0
    ensures var body := ServerView(CardPaymentData(userId, address, total, now));
      && NormaliseAmount(body.amount) == Success(ConvertToPaise(total))
      && GatewayOptions(ConvertToPaise(total), body, serverNow).amount == ConvertToPaise(total)
      && GatewayOptions(ConvertToPaise(total), body, serverNow).currency == "INR"
      && GatewayOptions(ConvertToPaise(total), body, serverNow).receipt == "order_" + DecimalString(now)
  {
    var body := ServerView(CardPaymentData(userId, address, total, now));
    CardAmountAccepted(ConvertToPaise(total), body);
    CardReceiptKept(ConvertToPaise(total), body, "order_" + DecimalString(now), serverNow);
  }

  /** A whole, positive number of paise passes the server's check unchanged. */
  lemma CardAmountAccepted(k: int, body: PaymentOrderBody)
    requires k > 0 && body.amount == AmountNumber(k as real)
    ensures NormaliseAmount(body.amount) == Success(k)
  {
    assert Round(k as real) == k;
  }

  /** A receipt and a currency the browser supplies are used as they are. */
  lemma CardReceiptKept(paise: int, body: PaymentOrderBody, receipt: string, serverNow: nat)
    requires body.receipt == Some(receipt) && receipt != [] && body.currency == Some("INR")
    ensures GatewayOptions(paise, body, serverNow).receipt == receipt
    ensures GatewayOptions(paise, body, serverNow).currency == "INR"
  {
  }

  /** The browser reads `verified` from the verification reply: it is true
      exactly when the server found the signature equal to the HMAC of the
      two ids. */
  lemma VerifiedFlagMeansSignatureMatched(body: VerifyBody, secret: Option<string>, hmac: (string, string) -> string)
    ensures VerifyPayment(body, secret, hmac).body.VerifiedJson? <==>
      secret.Some? && body.signature == Some(hmac(secret.value, SignatureMessage(body.orderId, body.paymentId)))
  {
  }

  /** The payment options the hosted UI receives. */
  datatype HostedOptions = HostedOptions(amount: int, currency: string, orderId: string)

  /** What the page dispatches to the store. */
  datatype Dispatch =
    | CreateOrderAction(order: OrderFields)
    | CreateGatewayOrderAction(data: PaymentOrderData)
    | ResetCartAction(userId: Option<string>)

  /** How loading the SDK went: the script failed to load, loaded without
      defining the SDK, defined an SDK whose constructor throws, or is ready. */
  datatype Sdk = LoadFailed | Missing | ConstructorThrows | Ready

  /** The error the page shows after trying to open the hosted UI: none
      when the SDK is ready, otherwise the message for what went wrong. */
  function SdkError(sdk: Sdk): (e: string)
    ensures e == "" <==> sdk == Ready
  {
    match sdk
    case LoadFailed => SdkLoadFailed
    case Missing => SdkUnavailable
    case ConstructorThrows => InitFailed
    case Ready => ""
  }

  /** The checkout page's state. */
  class CheckoutPage {
    const userId: Option<string>
    const items: seq<CartLine>
    const pricing: Pricing
    var selectedAddress: Option<Address>
    var paymentMethod: string
    var paymentError: string
    var dispatched: seq<Dispatch>
    var handedOff: Option<HostedOptions>
    var navigatedTo: Option<string>

    /** The first saved address is selected, cash on delivery is chosen,
        nothing has happened yet. */
    constructor (userId: Option<string>, items: seq<CartLine>, pricing: Pricing, addresses: seq<Address>)
      ensures this.userId == userId && this.items == items && this.pricing == pricing
      ensures selectedAddress == (if addresses == [] then None else Some(addresses[0]))
      ensures paymentMethod == "COD" && paymentError == ""
      ensures dispatched == [] && handedOff == None && navigatedTo == None
    {
      this.userId := userId;
      this.items := items;
      this.pricing := pricing;
      selectedAddress := if addresses == [] then None else Some(addresses[0]);
      paymentMethod := "COD";
      paymentError := "";
      dispatched := [];
      handedOff := None;
      navigatedTo := None;
    }

    /** `handleRazorpayPayment`: the SDK is checked, then the hosted UI is
        opened with the amount, currency and id of the gateway order. */
    method HandleRazorpayPayment(order: PaymentOrderView, sdk: Sdk)
      modifies this
      ensures dispatched == old(dispatched) && navigatedTo == old(navigatedTo)
      ensures selectedAddress == old(selectedAddress) && paymentMethod == old(paymentMethod)
      ensures sdk == Ready ==>
        handedOff == Some(HostedOptions(order.amount, order.currency, order.id)) && paymentError == old(paymentError)
      ensures sdk != Ready ==> handedOff == old(handedOff) && paymentError == SdkError(sdk)
    {
      match sdk
      case LoadFailed => paymentError := SdkLoadFailed;
      case Missing => paymentError := SdkUnavailable;
      case ConstructorThrows => paymentError := InitFailed;
      case Ready => handedOff := Some(HostedOptions(order.amount, order.currency, order.id));
    }

    /** `handleCreateOrder`. Without an address only the error is set. With
        cash on delivery one order is dispatched and no gateway order. With
        a card one gateway order is requested; `created` is how that
        request settled, and only a created order with an id is handed to
        the hosted UI. No order is placed on the card path. */
    method HandleCreateOrder(now: nat, created: Outcome<PaymentOrderView>, sdk: Sdk)
      modifies this
      ensures navigatedTo == old(navigatedTo)
      ensures selectedAddress == old(selectedAddress) && paymentMethod == old(paymentMethod)
      ensures selectedAddress.None? ==>
        paymentError == AddressMissing && dispatched == old(dispatched) && handedOff == old(handedOff)
      ensures selectedAddress.Some? && paymentMethod == "COD" ==>
        && dispatched == old(dispatched) +
             [CreateOrderAction(CodOrder(userId, items, selectedAddress.value, FinalTotal(items, pricing)))]
        && paymentError == "" && handedOff == old(handedOff)
      ensures selectedAddress.Some? && paymentMethod == "CARD" ==>
        dispatched == old(dispatched) +
          [CreateGatewayOrderAction(CardPaymentData(userId, selectedAddress.value, FinalTotal(items, pricing), now))]
      ensures selectedAddress.Some? && paymentMethod == "CARD" && (created.Rejected? || created.value.id == "") ==>
        paymentError == InitiateFailed && handedOff == old(handedOff)
      ensures selectedAddress.Some? && paymentMethod == "CARD" && created.Resolved? && created.value.id != "" &&
              sdk == Ready ==>
        handedOff == Some(HostedOptions(created.value.amount, created.value.currency, created.value.id))
      ensures selectedAddress.Some? && paymentMethod == "CARD" && created.Resolved? && created.value.id != "" ==>
        paymentError == SdkError(sdk)
      ensures selectedAddress.Some? && paymentMethod == "CARD" && created.Resolved? && created.value.id != "" &&
              sdk != Ready ==>
        handedOff == old(handedOff)
      ensures selectedAddress.Some? && paymentMethod != "COD" && paymentMethod != "CARD" ==>
        paymentError == "" && dispatched == old(dispatched) && handedOff == old(handedOff)
      ensures forall d :: d in dispatched && d !in old(dispatched) && d.CreateOrderAction? ==>
        d.order.paymentMode == Some("COD")
    {
      if selectedAddress.None? {
        paymentError := AddressMissing;
        return;
      }
      paymentError := "";
      var total := FinalTotal(items, pricing);
      if paymentMethod == "COD" {
        dispatched := dispatched + [CreateOrderAction(CodOrder(userId, items, selectedAddress.value, total))];
      } else if paymentMethod == "CARD" {
        dispatched := dispatched +
          [CreateGatewayOrderAction(CardPaymentData(userId, selectedAddress.value, total, now))];
        if created.Resolved? && created.value.id != "" {
          HandleRazorpayPayment(created.value, sdk);
        } else {
          paymentError := InitiateFailed;
        }
      }
    }

    /** The payment handler. `answer` is the parsed verification reply, or
        `None` when the request or the parse failed. A card order is placed
        exactly when the reply says `verified`; otherwise only the error is
        set. */
    method OnPaymentHandler(payment: VerifyBody, answer: Option<Reply>)
      modifies this
      ensures selectedAddress == old(selectedAddress) && paymentMethod == old(paymentMethod)
      ensures handedOff == old(handedOff) && navigatedTo == old(navigatedTo)
      ensures answer.Some? && answer.value.body.VerifiedJson? ==>
        dispatched == old(dispatched) +
          [CreateOrderAction(CardOrder(userId, items, selectedAddress, FinalTotal(items, pricing), payment))]
        && paymentError == old(paymentError)
      ensures !(answer.Some? && answer.value.body.VerifiedJson?) ==>
        dispatched == old(dispatched) && paymentError == VerificationFailed
    {
      var verified := answer.Some? && answer.value.body.VerifiedJson?;
      if verified {
        var order := CardOrder(userId, items, selectedAddress, FinalTotal(items, pricing), payment);
        dispatched := dispatched + [CreateOrderAction(order)];
      } else {
        paymentError := VerificationFailed;
      }
    }

    /** Closing the hosted UI sets the error and places nothing. */
    method OnDismiss()
      modifies this
      ensures paymentError == CancelledByUser
      ensures dispatched == old(dispatched) && handedOff == old(handedOff) && navigatedTo == old(navigatedTo)
      ensures selectedAddress == old(selectedAddress) && paymentMethod == old(paymentMethod)
    {
      paymentError := CancelledByUser;
    }

    /** A failed payment sets the error with the gateway's description, or
        "Unknown error", and places nothing. */
    method OnPaymentFailed(description: Option<string>)
      modifies this
      ensures paymentError == PaymentFailedPrefix + (if Truthy(description) then description.value else UnknownError)
      ensures dispatched == old(dispatched) && handedOff == old(handedOff) && navigatedTo == old(navigatedTo)
      ensures selectedAddress == old(selectedAddress) && paymentMethod == old(paymentMethod)
    {
      paymentError := PaymentFailedPrefix + (if Truthy(description) then description.value else UnknownError);
    }

    /** The effect on the current order: once it has an id the cart is
        reset and the page moves to that order's success page. */
    method OnCurrentOrder(current: Option<Order>)
      modifies this
      ensures current.Some? && current.value.id != "" ==>
        dispatched == old(dispatched) + [ResetCartAction(userId)] &&
        navigatedTo == Some(SuccessRoute + current.value.id)
      ensures !(current.Some? && current.value.id != "") ==>
        dispatched == old(dispatched) && navigatedTo == old(navigatedTo)
      ensures paymentError == old(paymentError) && handedOff == old(handedOff)
      ensures selectedAddress == old(selectedAddress) && paymentMethod == old(paymentMethod)
    {
      if current.Some? && current.value.id != "" {
        dispatched := dispatched + [ResetCartAction(userId)];
        navigatedTo := Some(SuccessRoute + current.value.id);
      }
    }
  }
}
