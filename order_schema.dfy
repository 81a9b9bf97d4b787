/** The order record and the rules it must satisfy before it is stored:
    the schema's enum domains, its defaults, its required fields (some of
    them conditional on the payment mode and status) and the pre-save hook
    that marks a card order with a payment id as paid and confirmed. */
module OrderSchema {
  import opened Js

  const StatusValues: seq<string> :=
    ["Pending", "Confirmed", "Dispatched", "Out for delivery", "Delivered", "Cancelled"]
  const PaymentModeValues: seq<string> := ["COD", "UPI", "CARD"]
  const PaymentStatusValues: seq<string> := ["Pending", "Paid", "Failed", "Refunded"]

  /** One cart line as the client snapshots it into the order. */
  datatype CartLine = CartLine(productId: string, price: real, quantity: int)

  /** A shipping-address snapshot. */
  datatype Address = Address(id: string, street: string, city: string, state: string, phoneNumber: string)

  /** The order's own fields as they arrive in a request body or a partial
      update: `None` is a field the body does not carry. */
  datatype OrderFields = OrderFields(
    user: Option<string>,
    item: Option<seq<CartLine>>,
    address: Option<Address>,
    status: Option<string>,
    paymentMode: Option<string>,
    paymentStatus: Option<string>,
    total: Option<real>,
    razorpayOrderId: Option<string>,
    razorpayPaymentId: Option<string>,
    razorpaySignature: Option<string>)

  /** A stored order: its identity, its fields and its two timestamps. */
  datatype Order = Order(id: string, fields: OrderFields, createdAt: int, updatedAt: int)

  /** The schema paths, in declaration order. */
  datatype Path =
    | UserPath | ItemPath | AddressPath | StatusPath | PaymentModePath | PaymentStatusPath
    | TotalPath | OrderIdPath | PaymentIdPath | SignaturePath

  datatype Violation = Required(path: Path) | NotInEnum(path: Path, value: string)

  /** The default of `paymentStatus`: both branches of the schema's default
      function give 'Pending', so the mode makes no difference. */
  function DefaultPaymentStatus(paymentMode: Option<string>): (s: string)
    ensures s == "Pending"
  {
    if paymentMode == Some("COD") then "Pending" else "Pending"
  }

  /** Building a document from a body: absent `status` and `paymentStatus`
      take their defaults, and an absent array path starts out empty. */
  function WithDefaults(body: OrderFields): (f: OrderFields)
    ensures f.status == (if body.status.None? then Some("Pending") else body.status)
    ensures f.paymentStatus == (if body.paymentStatus.None? then Some("Pending") else body.paymentStatus)
    ensures f.item == (if body.item.None? then Some([]) else body.item)
    ensures f.(status := body.status, paymentStatus := body.paymentStatus, item := body.item) == body
  {
    body.(
      item := if body.item.None? then Some([]) else body.item,
      status := if body.status.None? then Some("Pending") else body.status,
      paymentStatus := if body.paymentStatus.None? then Some(DefaultPaymentStatus(body.paymentMode)) else body.paymentStatus)
  }

  /** The gateway order id is required of a CARD order. */
  predicate OrderIdRequired(f: OrderFields) {
    f.paymentMode == Some("CARD")
  }

  /** The payment id and the signature are required of a paid CARD order. */
  predicate PaymentProofRequired(f: OrderFields) {
    f.paymentMode == Some("CARD") && f.paymentStatus == Some("Paid")
  }

  function RequiredCheck(path: Path, present: bool): (vs: seq<Violation>)
    ensures vs == [] <==> present
    ensures forall v :: v in vs ==> v == Required(path)
  {
    if present then [] else [Required(path)]
  }

  /** An enum path passes when it is absent or holds one of the listed values. */
  function EnumCheck(path: Path, v: Option<string>, values: seq<string>): (vs: seq<Violation>)
    ensures vs == [] <==> (v.Some? ==> v.value in values)
    ensures forall w :: w in vs ==> w.NotInEnum? && w.path == path
  {
    if v.Some? && v.value !in values then [NotInEnum(path, v.value)] else []
  }

  /** Validation: every failing path, in schema order, with the first
      validator that fails on it (`required` before `enum`). */
  function Violations(f: OrderFields): (vs: seq<Violation>)
    ensures vs == [] <==> Conforms(f)
  {
    FieldViolations(f) + GatewayViolations(f)
  }

  /** The paths every order has, from `user` to `total`. */
  function FieldViolations(f: OrderFields): (vs: seq<Violation>)
    ensures forall v :: v in vs ==> v.path !in {OrderIdPath, PaymentIdPath, SignaturePath}
    ensures Required(UserPath) in vs <==> !Truthy(f.user)
    ensures Required(PaymentModePath) in vs <==> !Truthy(f.paymentMode)
  {
    var user := RequiredCheck(UserPath, Truthy(f.user));
    var rest := RequiredCheck(ItemPath, f.item.Some?)
      + RequiredCheck(AddressPath, f.address.Some?)
      + EnumCheck(StatusPath, f.status, StatusValues);
    var mode := if Truthy(f.paymentMode) then EnumCheck(PaymentModePath, f.paymentMode, PaymentModeValues)
      else [Required(PaymentModePath)];
    var tail := EnumCheck(PaymentStatusPath, f.paymentStatus, PaymentStatusValues)
      + RequiredCheck(TotalPath, f.total.Some?);
    assert Required(UserPath) !in rest + mode + tail;
    assert Required(PaymentModePath) !in user + rest + tail;
    user + rest + mode + tail
  }

  /** The three gateway paths, each required only under its condition. */
  function GatewayViolations(f: OrderFields): (vs: seq<Violation>)
    ensures forall v :: v in vs ==> v.path in {OrderIdPath, PaymentIdPath, SignaturePath}
    ensures Required(OrderIdPath) in vs <==> OrderIdRequired(f) && !Truthy(f.razorpayOrderId)
    ensures Required(PaymentIdPath) in vs <==> PaymentProofRequired(f) && !Truthy(f.razorpayPaymentId)
    ensures Required(SignaturePath) in vs <==> PaymentProofRequired(f) && !Truthy(f.razorpaySignature)
  {
    (if OrderIdRequired(f) then RequiredCheck(OrderIdPath, Truthy(f.razorpayOrderId)) else [])
    + (if PaymentProofRequired(f) then RequiredCheck(PaymentIdPath, Truthy(f.razorpayPaymentId)) else [])
    + (if PaymentProofRequired(f) then RequiredCheck(SignaturePath, Truthy(f.razorpaySignature)) else [])
  }

  /** The schema's rules stated path by path: the record a save accepts. */
  predicate Conforms(f: OrderFields) {
    && Truthy(f.user) && f.item.Some? && f.address.Some? && f.total.Some?
    && (f.status.Some? ==> f.status.value in StatusValues)
    && Truthy(f.paymentMode) && f.paymentMode.value in PaymentModeValues
    && (f.paymentStatus.Some? ==> f.paymentStatus.value in PaymentStatusValues)
    && (OrderIdRequired(f) ==> Truthy(f.razorpayOrderId))
    && (PaymentProofRequired(f) ==> Truthy(f.razorpayPaymentId) && Truthy(f.razorpaySignature))
  }

  /** The pre-save hook's condition: a CARD order carrying a payment id. */
  predicate HookFires(f: OrderFields) {
    f.paymentMode == Some("CARD") && Truthy(f.razorpayPaymentId)
  }

  /** The pre-save hook as a function of the record: it touches nothing but
      `status` and `paymentStatus`, and forces them to Confirmed and Paid
      exactly when the hook's condition holds, whatever they were. */
  function PreSaveHook(f: OrderFields): (g: OrderFields)
    ensures g.(status := f.status, paymentStatus := f.paymentStatus) == f
    ensures HookFires(f) ==> g.paymentStatus == Some("Paid") && g.status == Some("Confirmed")
    ensures !HookFires(f) ==> g == f
  {
    if HookFires(f) then f.(paymentStatus := Some("Paid"), status := Some("Confirmed")) else f
  }

  /** Running the hook twice gives the record that running it once gives. */
  lemma PreSaveHookIdempotent(f: OrderFields)
    ensures PreSaveHook(PreSaveHook(f)) == PreSaveHook(f)
  {
  }

  /** A record that passed validation still has its enum values and its
      required fields after the hook, and a paid CARD order then always
      carries a payment id. */
  lemma {:induction false} HookedRecordStillConsistent(f: OrderFields)
    requires Violations(f) == []
    ensures var g := PreSaveHook(f);
      && (g.status.Some? ==> g.status.value in StatusValues)
      && (g.paymentStatus.Some? ==> g.paymentStatus.value in PaymentStatusValues)
      && (PaymentProofRequired(g) ==> Truthy(g.razorpayPaymentId))
      && (OrderIdRequired(g) ==> Truthy(g.razorpayOrderId))
  {
    if HookFires(f) {
      assert "Confirmed" == StatusValues[1];
      assert "Paid" == PaymentStatusValues[1];
    }
  }

  /** Validation runs before the hook, so a CARD body with a gateway order
      id and a payment id but no signature, whose payment status is left to
      its default, passes validation and is then stored as Paid and
      Confirmed without a signature: the record then fails the very rule
      that a paid CARD order carries a signature. */
  lemma UnsignedCardPaymentSavedAsPaid(body: OrderFields)
    requires Truthy(body.user) && body.address.Some? && body.total.Some?
    requires body.paymentMode == Some("CARD")
    requires Truthy(body.razorpayOrderId) && Truthy(body.razorpayPaymentId)
    requires body.razorpaySignature.None?
    requires body.status.None? && body.paymentStatus.None?
    ensures Violations(WithDefaults(body)) == []
    ensures var g := PreSaveHook(WithDefaults(body));
      && g.paymentStatus == Some("Paid") && g.status == Some("Confirmed")
      && !Truthy(g.razorpaySignature)
      && Required(SignaturePath) in Violations(g)
  {
  }

  /** The position of the first order with the given id, or -1. */
  function IndexOfId(orders: seq<Order>, id: string): (i: int)
    ensures -1 <= i < |orders|
    ensures i >= 0 ==> orders[i].id == id && forall j :: 0 <= j < i ==> orders[j].id != id
    ensures i < 0 ==> forall j :: 0 <= j < |orders| ==> orders[j].id != id
  {
    if orders == [] then -1
    else if orders[0].id == id then 0
    else
      var k := IndexOfId(orders[1..], id);
      if k < 0 then -1 else k + 1
  }

  /** No two stored orders share an id. */
  ghost predicate UniqueIds(orders: seq<Order>) {
    forall i, j :: 0 <= i < j < |orders| ==> orders[i].id != orders[j].id
  }

  /** A document being saved: the fields of one order, which the pre-save
      hook updates in place. */
  class OrderDocument {
    const id: string
    var user: Option<string>
    var item: Option<seq<CartLine>>
    var address: Option<Address>
    var status: Option<string>
    var paymentMode: Option<string>
    var paymentStatus: Option<string>
    var total: Option<real>
    var razorpayOrderId: Option<string>
    var razorpayPaymentId: Option<string>
    var razorpaySignature: Option<string>
    const createdAt: int
    const updatedAt: int

    function Fields(): OrderFields
      reads this
    {
      OrderFields(user, item, address, status, paymentMode, paymentStatus, total,
                  razorpayOrderId, razorpayPaymentId, razorpaySignature)
    }

    function Snapshot(): Order
      reads this
    {
      Order(id, Fields(), createdAt, updatedAt)
    }

    /** `new Order(body)`: the body's fields with the schema defaults; both
        timestamps are the creation time. */
    constructor (body: OrderFields, id: string, now: int)
      ensures Fields() == WithDefaults(body)
      ensures this.id == id && createdAt == now && updatedAt == now
    {
      var f := WithDefaults(body);
      this.id := id;
      user, item, address := f.user, f.item, f.address;
      status, paymentMode, paymentStatus := f.status, f.paymentMode, f.paymentStatus;
      total := f.total;
      razorpayOrderId, razorpayPaymentId, razorpaySignature := f.razorpayOrderId, f.razorpayPaymentId, f.razorpaySignature;
      createdAt, updatedAt := now, now;
    }

    /** The pre-save hook: a CARD order with a payment id becomes Paid and
        Confirmed; nothing else is written. */
    method PreSave()
      modifies this`status, this`paymentStatus
      ensures Fields() == PreSaveHook(old(Fields()))
    {
      if paymentMode == Some("CARD") && Truthy(razorpayPaymentId) {
        paymentStatus := Some("Paid");
        status := Some("Confirmed");
      }
    }

    /** `save()`: validation first; only a valid document goes through the
        hook, and the hooked document is what gets stored. */
    method Save() returns (r: Result<Order, seq<Violation>>)
      modifies this`status, this`paymentStatus
      ensures Violations(old(Fields())) != [] ==>
        r == Failure(Violations(old(Fields()))) && Fields() == old(Fields())
      ensures Violations(old(Fields())) == [] ==>
        Fields() == PreSaveHook(old(Fields())) && r == Success(Snapshot())
    {
      var vs := Violations(Fields());
      if vs != [] {
        return Failure(vs);
      }
      PreSave();
      r := Success(Snapshot());
    }
  }
}
