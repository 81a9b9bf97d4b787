/** The order controller: creating, listing, filtering and updating orders
    over a sequence-backed store, creating a payment order with the gateway
    and checking the signature the gateway returns after a payment. The
    gateway, the HMAC and the gateway SDK's constructor are foreign code:
    their answers are parameters. */
module OrderService {
  import opened Js
  import opened OrderSchema

  /** The six fields the create-payment-order reply copies from the gateway. */
  datatype PaymentOrderView =
    PaymentOrderView(id: string, currency: string, amount: int, receipt: string, status: string, createdAt: int)

  /** The JSON bodies the controller sends. */
  datatype Body =
    | OrderJson(order: Order)
    | OrderListJson(orders: seq<Order>)
    | NullJson
    | PaymentOrderJson(view: PaymentOrderView)
    | VerifiedJson(message: string, paymentId: Option<string>, orderId: Option<string>, signature: Option<string>)
    | UnverifiedJson(message: string)
    | ErrorJson(message: string, error: Option<string>)

  /** An HTTP reply; `totalCount` is the `X-Total-Count` header. */
  datatype Reply = Reply(status: int, body: Body, totalCount: Option<nat>)

  const CreateOrderError := "Error creating an order, please try again later"
  const FetchOrdersError := "Error fetching orders, please try again later"
  const AmountFormatError := "Invalid amount format. Amount must be a number or string representing paise."
  const AmountValueError := "Amount must be a positive integer in paise (smallest currency unit)."
  const GatewayOrderError := "Error creating Razorpay order"
  const VerifiedMessage := "Payment verified successfully"
  const UnverifiedMessage := "Payment verification failed"
  const VerifyError := "Error verifying payment"

  function ErrorReply(status: int, message: string): Reply {
    Reply(status, ErrorJson(message, None), None)
  }

  // ----- Amount normalisation -----

  /** The `amount` of a create-payment-order body, by its JSON type. */
  datatype AmountInput = AmountString(text: string) | AmountNumber(number: real) | AmountOther

  /** The amount in paise: a string is read by `parseInt(_, 10)`, a number is
      rounded, any other type is refused; a result that is not positive (or
      is NaN) is refused as well. A number is accepted exactly when it is at
      least one half. */
  function NormaliseAmount(amount: AmountInput): (r: Result<int, string>)
    ensures r.Success? ==> r.value > 0
    ensures r.Failure? ==> r.error in {AmountFormatError, AmountValueError}
    ensures r.Failure? && r.error == AmountFormatError <==> amount.AmountOther?
    ensures amount.AmountNumber? ==>
      r == (if amount.number >= 0.5 then Success(Round(amount.number)) else Failure(AmountValueError))
    ensures amount.AmountString? ==>
      r == (match ParseInt(amount.text)
            case None => Failure(AmountValueError)
            case Some(v) => if v > 0 then Success(v) else Failure(AmountValueError))
  {
    if amount.AmountOther? then Failure(AmountFormatError)
    else
      var paise := if amount.AmountString? then ParseInt(amount.text) else Some(Round(amount.number));
      if paise.None? || paise.value <= 0 then Failure(AmountValueError) else Success(paise.value)
  }

  /** A string amount is read as `parseInt` reads it: a `+` is skipped,
      leading zeros add nothing, and whatever follows the digits is
      ignored. It is accepted exactly when it is unsigned or `+` and its
      number is positive; a `-` makes it negative, so it is refused. */
  lemma {:induction false} StringAmountAccepted(sign: string, zeros: nat, n: nat, rest: string)
    requires sign == "" || sign == "+" || sign == "-"
    requires rest == [] || !IsDigit(rest[0])
    ensures NormaliseAmount(AmountString(sign + Zeros(zeros) + DecimalString(n) + rest)) ==
      (if sign == "-" || n == 0 then Failure(AmountValueError) else Success(n))
  {
    ParseIntOfNumeral(sign, zeros, n, rest);
  }

  /** Blanks before a string amount are skipped. */
  lemma {:induction false} StringAmountSkipsBlanks(blanks: string, text: string)
    requires forall i :: 0 <= i < |blanks| ==> IsJsSpace(blanks[i])
    requires text == [] || !IsJsSpace(text[0])
    ensures NormaliseAmount(AmountString(blanks + text)) == NormaliseAmount(AmountString(text))
  {
    ParseIntAfterBlanks(blanks, text);
  }

  // ----- Gateway payment order -----

  /** What the controller asks the gateway to create. */
  datatype GatewayRequest = GatewayRequest(amount: int, currency: string, receipt: string, notes: map<string, string>)

  /** A payment order as the gateway reports it. */
  datatype GatewayOrder = GatewayOrder(
    id: string, entity: string, amount: int, amountPaid: int, amountDue: int, currency: string,
    receipt: string, status: string, attempts: int, notes: map<string, string>, createdAt: int)

  datatype GatewayReply = GatewayCreated(order: GatewayOrder) | GatewayFailed(message: string)

  /** The body of a create-payment-order request. */
  datatype PaymentOrderBody = PaymentOrderBody(
    amount: AmountInput, currency: Option<string>, receipt: Option<string>, notes: Option<map<string, string>>)

  /** The gateway options: supplied values pass through; a falsy currency
      becomes INR, a falsy receipt becomes `order_` followed by the time,
      and absent notes become the empty object. */
  function GatewayOptions(paise: int, body: PaymentOrderBody, now: nat): (req: GatewayRequest)
    ensures req.amount == paise
    ensures req.currency == (if Truthy(body.currency) then body.currency.value else "INR")
    ensures Truthy(body.receipt) ==> req.receipt == body.receipt.value
    ensures !Truthy(body.receipt) ==>
      |req.receipt| > 6 && req.receipt[..6] == "order_" && ParseInt(req.receipt[6..]) == Some(now)
    ensures req.notes == (if body.notes.Some? then body.notes.value else map[])
  {
    DefaultReceiptReadsBack(now);
    GatewayRequest(
      paise,
      if Truthy(body.currency) then body.currency.value else "INR",
      if Truthy(body.receipt) then body.receipt.value else "order_" + DecimalString(now),
      if body.notes.Some? then body.notes.value else map[])
  }

  /** The default receipt reads back as the time it was made at. */
  lemma DefaultReceiptReadsBack(now: nat)
    ensures var receipt := "order_" + DecimalString(now);
      |receipt| > 6 && receipt[..6] == "order_" && ParseInt(receipt[6..]) == Some(now)
  {
    var receipt := "order_" + DecimalString(now);
    assert receipt[6..] == DecimalString(now) + [];
    ParseIntOfDecimal(now, []);
  }

  /** The reply copies six fields of the gateway's order and nothing else. */
  function ViewOf(order: GatewayOrder): (v: PaymentOrderView)
    ensures v.id == order.id && v.currency == order.currency && v.amount == order.amount
    ensures v.receipt == order.receipt && v.status == order.status && v.createdAt == order.createdAt
  {
    PaymentOrderView(order.id, order.currency, order.amount, order.receipt, order.status, order.createdAt)
  }

  /** A create-payment-order request and what the controller sent to the gateway. */
  datatype CreateOutcome = CreateOutcome(sent: Option<GatewayRequest>, reply: Reply)

  /** Creating a payment order. `clientError` is what the gateway SDK's
      constructor throws (it refuses a missing key id); `gateway` is the
      gateway's answer to a request. The gateway is asked only when the
      client could be built and the amount normalised to a positive number. */
  function CreatePaymentOrder(body: PaymentOrderBody, clientError: Option<string>, now: nat,
                              gateway: GatewayRequest -> GatewayReply): (out: CreateOutcome)
    ensures out.sent.Some? <==> clientError.None? && NormaliseAmount(body.amount).Success?
    ensures out.sent.Some? ==> out.sent.value.amount > 0
    ensures out.sent.Some? ==> out.sent.value == GatewayOptions(NormaliseAmount(body.amount).value, body, now)
    ensures clientError.None? && NormaliseAmount(body.amount).Failure? ==>
      out.reply == ErrorReply(400, NormaliseAmount(body.amount).error)
    ensures out.reply.status == 201 <==> out.sent.Some? && gateway(out.sent.value).GatewayCreated?
    ensures out.reply.status == 201 ==>
      out.reply.body == PaymentOrderJson(ViewOf(gateway(out.sent.value).order))
    ensures out.reply.status in {201, 400, 500}
    ensures clientError.Some? ==> out.reply == Reply(500, ErrorJson(GatewayOrderError, clientError), None)
    ensures out.sent.Some? && gateway(out.sent.value).GatewayFailed? ==>
      out.reply == Reply(500, ErrorJson(GatewayOrderError, Some(gateway(out.sent.value).message)), None)
  {
    if clientError.Some? then
      CreateOutcome(None, Reply(500, ErrorJson(GatewayOrderError, clientError), None))
    else
      var paise := NormaliseAmount(body.amount);
      if paise.Failure? then CreateOutcome(None, ErrorReply(400, paise.error))
      else
        var req := GatewayOptions(paise.value, body, now);
        match gateway(req)
        case GatewayCreated(order) => CreateOutcome(Some(req), Reply(201, PaymentOrderJson(ViewOf(order)), None))
        case GatewayFailed(message) =>
          CreateOutcome(Some(req), Reply(500, ErrorJson(GatewayOrderError, Some(message)), None))
  }

  // ----- Signature verification -----

  /** The body of a verification request. */
  datatype VerifyBody = VerifyBody(orderId: Option<string>, paymentId: Option<string>, signature: Option<string>)

  /** The signed message: order id, a bar, payment id. */
  function SignatureMessage(orderId: Option<string>, paymentId: Option<string>): (m: string)
    ensures var o, p := Coerce(orderId), Coerce(paymentId);
      |m| == |o| + 1 + |p| && m[..|o|] == o && m[|o|] == '|' && m[|o| + 1..] == p
  {
    Coerce(orderId) + "|" + Coerce(paymentId)
  }

  /** In `a + "|" + b` with no bar in `a`, the first bar is at `|a|`. */
  lemma FirstBar(a: string, b: string)
    requires '|' !in a
    ensures (a + "|" + b)[|a|] == '|'
    ensures forall i :: 0 <= i < |a| ==> (a + "|" + b)[i] != '|'
  {
  }

  /** Two id pairs without a bar in their order ids give the same message
      only when they are the same pair: the signed message names one pair. */
  lemma {:induction false} SignatureMessageDeterminesIds(a1: string, b1: string, a2: string, b2: string)
    requires '|' !in a1 && '|' !in a2
    requires a1 + "|" + b1 == a2 + "|" + b2
    ensures a1 == a2 && b1 == b2
  {
    var m := a1 + "|" + b1;
    FirstBar(a1, b1);
    FirstBar(a2, b2);
    assert |a1| == |a2|;
    assert a1 == m[..|a1|] == a2;
    assert b1 == m[|a1| + 1..] == b2;
  }

  /** Verifying a payment. `hmac(key, message)` is the hex HMAC-SHA256 of
      the message; the key secret may be unset, and then the HMAC call
      throws. The reply is 200 exactly when the provided signature equals
      the HMAC of the message, and 400 when it differs. */
  function VerifyPayment(body: VerifyBody, secret: Option<string>, hmac: (string, string) -> string): (r: Reply)
    ensures r.status == 200 <==>
      secret.Some? && body.signature == Some(hmac(secret.value, SignatureMessage(body.orderId, body.paymentId)))
    ensures r.status == 200 ==>
      r.body == VerifiedJson(VerifiedMessage, body.paymentId, body.orderId, body.signature)
    ensures r.status == 400 <==>
      secret.Some? && body.signature != Some(hmac(secret.value, SignatureMessage(body.orderId, body.paymentId)))
    ensures r.status == 400 ==> r.body == UnverifiedJson(UnverifiedMessage)
    ensures secret.None? ==> r.status == 500
  {
    if secret.None? then ErrorReply(500, VerifyError)
    else
      var expected := hmac(secret.value, SignatureMessage(body.orderId, body.paymentId));
      if body.signature == Some(expected) then
        Reply(200, VerifiedJson(VerifiedMessage, body.paymentId, body.orderId, body.signature), None)
      else
        Reply(400, UnverifiedJson(UnverifiedMessage), None)
  }

  /** The signature the gateway computes for a payment is accepted, and any
      other signature for the same ids is refused. */
  lemma VerifyAcceptsOnlyGatewaySignature(orderId: string, paymentId: string, secret: string,
                                         hmac: (string, string) -> string, other: string)
    requires other != hmac(secret, orderId + "|" + paymentId)
    ensures VerifyPayment(VerifyBody(Some(orderId), Some(paymentId), Some(hmac(secret, orderId + "|" + paymentId))),
                          Some(secret), hmac).status == 200
    ensures VerifyPayment(VerifyBody(Some(orderId), Some(paymentId), Some(other)), Some(secret), hmac).status == 400
  {
  }

  // ----- Listing -----

  /** `skip` and `limit` for a listing: both are set only when the query
      carries both a page and a limit; otherwise 0 and 0, which mean all. */
  datatype Window = Window(skip: int, limit: int)

  function PagingWindow(page: Option<int>, limit: Option<int>): (w: Window)
    ensures page.Some? && limit.Some? ==> w.limit == limit.value && w.skip == (page.value - 1) * limit.value
    ensures !(page.Some? && limit.Some?) ==> w == Window(0, 0)
    ensures page.Some? && limit.Some? && page.value >= 1 && limit.value >= 0 ==> w.skip >= 0
  {
    if page.Some? && limit.Some? then Window(limit.value * (page.value - 1), limit.value) else Window(0, 0)
  }

  function Abs(x: int): nat {
    if x < 0 then -x else x
  }

  /** The store seen through `skip` and `limit`: a limit of 0 means no
      limit, and a negative limit counts as its absolute value. */
  function PageOf(orders: seq<Order>, skip: nat, limit: int): (p: seq<Order>)
    ensures skip >= |orders| ==> p == []
    ensures skip < |orders| ==> skip + |p| <= |orders| && p == orders[skip..skip + |p|]
    ensures skip < |orders| && limit == 0 ==> skip + |p| == |orders|
    ensures skip < |orders| && limit != 0 ==>
      |p| == (if |orders| - skip < Abs(limit) then |orders| - skip else Abs(limit))
  {
    if skip >= |orders| then []
    else if limit == 0 || |orders| - skip < Abs(limit) then orders[skip..]
    else orders[skip..skip + Abs(limit)]
  }

  /** Page `page` and the page after it together are the run of twice the
      limit starting where page `page` starts: pages neither overlap nor
      leave a gap. */
  lemma {:induction false} ConsecutivePagesTile(orders: seq<Order>, page: int, limit: int)
    requires page >= 1 && limit > 0
    ensures var w1, w2 := PagingWindow(Some(page), Some(limit)), PagingWindow(Some(page + 1), Some(limit));
      && 0 <= w1.skip && w2.skip == w1.skip + limit
      && PageOf(orders, w1.skip, limit) + PageOf(orders, w2.skip, limit) == PageOf(orders, w1.skip, 2 * limit)
  {
    var skip := (page - 1) * limit;
    assert page * limit == skip + limit;
    AdjacentRunsJoin(orders, skip, limit);
  }

  /** The run of `limit` orders at `skip` followed by the run at
      `skip + limit` is the run of `2 * limit` orders at `skip`. */
  lemma AdjacentRunsJoin(orders: seq<Order>, skip: nat, limit: nat)
    requires limit > 0
    ensures PageOf(orders, skip, limit) + PageOf(orders, skip + limit, limit) == PageOf(orders, skip, 2 * limit)
  {
    if skip + limit >= |orders| {
      assert PageOf(orders, skip + limit, limit) == [];
      assert PageOf(orders, skip, limit) == PageOf(orders, skip, 2 * limit);
    } else if skip + 2 * limit <= |orders| {
      assert PageOf(orders, skip, limit) == orders[skip..skip + limit];
      assert PageOf(orders, skip + limit, limit) == orders[skip + limit..skip + 2 * limit];
      assert PageOf(orders, skip, 2 * limit) == orders[skip..skip + 2 * limit];
      assert orders[skip..skip + limit] + orders[skip + limit..skip + 2 * limit] == orders[skip..skip + 2 * limit];
    } else {
      assert PageOf(orders, skip, limit) == orders[skip..skip + limit];
      assert PageOf(orders, skip + limit, limit) == orders[skip + limit..];
      assert PageOf(orders, skip, 2 * limit) == orders[skip..];
      assert orders[skip..skip + limit] + orders[skip + limit..] == orders[skip..];
    }
  }

  /** A page of a 25-order store: page 2 with limit 10 is the 11th to the
      20th order. */
  lemma SecondPageOfTwentyFive(orders: seq<Order>)
    requires |orders| == 25
    ensures PagingWindow(Some(2), Some(10)) == Window(10, 10)
    ensures PageOf(orders, 10, 10) == orders[10..20]
  {
  }

  /** The stored orders of one user, in store order. */
  function OrdersOfUser(orders: seq<Order>, userId: string): (r: seq<Order>)
    ensures |r| <= |orders|
    ensures forall o :: o in r <==> o in orders && o.fields.user == Some(userId)
  {
    if orders == [] then []
    else (if orders[0].fields.user == Some(userId) then [orders[0]] else []) + OrdersOfUser(orders[1..], userId)
  }

  /** Filtering distributes over concatenation, so the filter keeps the
      store's order. */
  lemma {:induction false} OrdersOfUserAppend(a: seq<Order>, b: seq<Order>, userId: string)
    ensures OrdersOfUser(a + b, userId) == OrdersOfUser(a, userId) + OrdersOfUser(b, userId)
  {
    if a == [] {
      assert a + b == b;
    } else {
      assert (a + b)[1..] == a[1..] + b;
      OrdersOfUserAppend(a[1..], b, userId);
    }
  }

  // ----- Partial update -----

  function Overwrite<T>(patch: Option<T>, current: Option<T>): Option<T> {
    if patch.Some? then patch else current
  }

  /** A partial update of the fields: every field the update carries
      replaces the stored one, every other field is kept. */
  function PatchFields(f: OrderFields, patch: OrderFields): (r: OrderFields)
    ensures if patch.user.Some? then r.user == patch.user else r.user == f.user
    ensures if patch.item.Some? then r.item == patch.item else r.item == f.item
    ensures if patch.address.Some? then r.address == patch.address else r.address == f.address
    ensures if patch.status.Some? then r.status == patch.status else r.status == f.status
    ensures if patch.paymentMode.Some? then r.paymentMode == patch.paymentMode else r.paymentMode == f.paymentMode
    ensures if patch.paymentStatus.Some? then r.paymentStatus == patch.paymentStatus
            else r.paymentStatus == f.paymentStatus
    ensures if patch.total.Some? then r.total == patch.total else r.total == f.total
    ensures if patch.razorpayOrderId.Some? then r.razorpayOrderId == patch.razorpayOrderId
            else r.razorpayOrderId == f.razorpayOrderId
    ensures if patch.razorpayPaymentId.Some? then r.razorpayPaymentId == patch.razorpayPaymentId
            else r.razorpayPaymentId == f.razorpayPaymentId
    ensures if patch.razorpaySignature.Some? then r.razorpaySignature == patch.razorpaySignature
            else r.razorpaySignature == f.razorpaySignature
  {
    OrderFields(
      Overwrite(patch.user, f.user), Overwrite(patch.item, f.item), Overwrite(patch.address, f.address),
      Overwrite(patch.status, f.status), Overwrite(patch.paymentMode, f.paymentMode),
      Overwrite(patch.paymentStatus, f.paymentStatus), Overwrite(patch.total, f.total),
      Overwrite(patch.razorpayOrderId, f.razorpayOrderId), Overwrite(patch.razorpayPaymentId, f.razorpayPaymentId),
      Overwrite(patch.razorpaySignature, f.razorpaySignature))
  }

  const NoChange := OrderFields(None, None, None, None, None, None, None, None, None, None)

  /** An update that carries only a status. */
  function StatusChange(status: string): OrderFields {
    NoChange.(status := Some(status))
  }

  /** An empty update keeps every field, and an update carrying only a
      status changes the status and nothing else. */
  lemma PatchTouchesOnlyCarriedFields(f: OrderFields, status: string)
    ensures PatchFields(f, NoChange) == f
    ensures PatchFields(f, StatusChange(status)) == f.(status := Some(status))
  {
  }

  /** Two updates in a row are one update whose fields are the second's
      where it carries them and the first's elsewhere: the last write wins. */
  lemma PatchesCompose(f: OrderFields, p: OrderFields, q: OrderFields)
    ensures PatchFields(PatchFields(f, p), q) == PatchFields(f, PatchFields(p, q))
  {
  }

  /** The update path runs neither validation nor the pre-save hook: a
      status outside the enum is stored as sent. */
  lemma UpdateSkipsValidation(f: OrderFields, status: string)
    requires status !in StatusValues
    ensures PatchFields(f, StatusChange(status)).status == Some(status)
    ensures Violations(PatchFields(f, StatusChange(status))) != []
  {
  }

  /** The stored order after an update: same id and creation time, the
      patched fields, and the update time refreshed. */
  function ApplyPatch(o: Order, patch: OrderFields, now: int): (u: Order)
    ensures u.id == o.id && u.createdAt == o.createdAt && u.updatedAt == now
    ensures u.fields == PatchFields(o.fields, patch)
  {
    Order(o.id, PatchFields(o.fields, patch), o.createdAt, now)
  }

  /** The order store the controller reads and writes. */
  class OrderStore {
    var orders: seq<Order>

    ghost predicate Valid()
      reads this
    {
      UniqueIds(orders)
    }

    constructor ()
      ensures orders == [] && Valid()
    {
      orders := [];
    }

    /** `create`: the body is made a document and saved (validation, then
        the hook); the saved document is appended. A failed validation or
        an id already taken leaves the store as it was and answers 500. */
    method Create(body: OrderFields, freshId: string, now: int) returns (r: Reply)
      requires Valid()
      modifies this
      ensures Valid()
      ensures var saved := Order(freshId, PreSaveHook(WithDefaults(body)), now, now);
        if Violations(WithDefaults(body)) == [] && IndexOfId(old(orders), freshId) < 0 then
          orders == old(orders) + [saved] && r == Reply(201, OrderJson(saved), None)
        else
          orders == old(orders) && r == ErrorReply(500, CreateOrderError)
    {
      var doc := new OrderDocument(body, freshId, now);
      var saved := doc.Save();
      if saved.Failure? || IndexOfId(orders, freshId) >= 0 {
        return ErrorReply(500, CreateOrderError);
      }
      orders := orders + [saved.value];
      r := Reply(201, OrderJson(saved.value), None);
    }

    /** `getByUserId`: exactly the stored orders of that user, in store order. */
    method GetByUserId(userId: string) returns (r: Reply)
      ensures r == Reply(200, OrderListJson(OrdersOfUser(orders, userId)), None)
      ensures forall o :: o in r.body.orders <==> o in orders && o.fields.user == Some(userId)
    {
      r := Reply(200, OrderListJson(OrdersOfUser(orders, userId)), None);
    }

    /** `getAll`: the page the query selects and the store size as
        `X-Total-Count`; a negative skip is refused by the database. */
    method GetAll(page: Option<int>, limit: Option<int>) returns (r: Reply)
      ensures var w := PagingWindow(page, limit);
        if w.skip < 0 then r == ErrorReply(500, FetchOrdersError)
        else r == Reply(200, OrderListJson(PageOf(orders, w.skip, w.limit)), Some(|orders|))
    {
      var skip, lim := 0, 0;
      if page.Some? && limit.Some? {
        skip := limit.value * (page.value - 1);
        lim := limit.value;
      }
      if skip < 0 {
        return ErrorReply(500, FetchOrdersError);
      }
      r := Reply(200, OrderListJson(PageOf(orders, skip, lim)), Some(|orders|));
    }

    /** `updateById`: the order with that id gets the update's fields and a
        new update time; an unknown id changes nothing and answers 200 with
        a null body. */
    method UpdateById(id: string, patch: OrderFields, now: int) returns (r: Reply)
      requires Valid()
      modifies this
      ensures Valid()
      ensures var i := IndexOfId(old(orders), id);
        if i < 0 then orders == old(orders) && r == Reply(200, NullJson, None)
        else
          && orders == old(orders)[i := ApplyPatch(old(orders)[i], patch, now)]
          && r == Reply(200, OrderJson(orders[i]), None)
    {
      var i := IndexOfId(orders, id);
      if i < 0 {
        return Reply(200, NullJson, None);
      }
      orders := orders[i := ApplyPatch(orders[i], patch, now)];
      r := Reply(200, OrderJson(orders[i]), None);
    }
  }
}
