/** The browser's order state: one status per kind of request, the list of
    orders on screen, the order just placed and the gateway order being
    paid. Every reducer case updates the state in place; each is a method
    of `OrderStateStore` stating the whole new state. */
module OrderSlice {
  import opened Js
  import opened OrderSchema
  import opened OrderService
  import OrderApi

  datatype RequestStatus = Idle | Pending | Fulfilled | Rejected

  /** The serialised error a rejected thunk carries. */
  datatype SerializedError = SerializedError(message: string)

  /** The state as a value, for stating what a case changes. */
  datatype SliceState = SliceState(
    status: RequestStatus,
    orderUpdateStatus: RequestStatus,
    orderFetchStatus: RequestStatus,
    razorpayOrderStatus: RequestStatus,
    paymentVerificationStatus: RequestStatus,
    orders: seq<Order>,
    currentOrder: Option<Order>,
    razorpayOrder: Option<PaymentOrderView>,
    errors: Option<SerializedError>,
    successMessage: Option<string>)

  const InitialState := SliceState(Idle, Idle, Idle, Idle, Idle, [], None, None, None, None)

  /** The three actions a thunk dispatches. */
  datatype ThunkAction<T> = PendingAction | FulfilledAction(payload: T) | RejectedAction(error: SerializedError)

  /** How the settling of an API call becomes the thunk's final action. */
  function Settle<T>(outcome: OrderApi.Outcome<T>): (a: ThunkAction<T>)
    ensures outcome.Resolved? <==> a.FulfilledAction?
    ensures outcome.Resolved? ==> a.payload == outcome.value
    ensures outcome.Rejected? ==> a == RejectedAction(SerializedError(outcome.message))
  {
    match outcome
    case Resolved(v) => FulfilledAction(v)
    case Rejected(m) => RejectedAction(SerializedError(m))
  }

  /** `orders[orders.findIndex(o => o._id === p._id)] = p`: the first order
      with the payload's id is replaced, every other order and the length
      are kept; with no such order the index is -1 and the write creates a
      property, not an element, so the list is unchanged. */
  function ReplaceById(orders: seq<Order>, p: Order): (r: seq<Order>)
    ensures |r| == |orders|
    ensures forall k :: 0 <= k < |orders| && k != IndexOfId(orders, p.id) ==> r[k] == orders[k]
    ensures IndexOfId(orders, p.id) >= 0 ==> r[IndexOfId(orders, p.id)] == p
    ensures IndexOfId(orders, p.id) < 0 ==> r == orders
  {
    var index := IndexOfId(orders, p.id);
    if index < 0 then orders else orders[index := p]
  }

  /** When the browser shows the store's list and the server updates an
      order, putting the returned order in place leaves the browser's list
      equal to the store's. */
  lemma {:induction false} ReplaceMirrorsServerUpdate(orders: seq<Order>, id: string, patch: OrderFields, now: int)
    requires IndexOfId(orders, id) >= 0
    ensures var i := IndexOfId(orders, id);
      ReplaceById(orders, ApplyPatch(orders[i], patch, now)) == orders[i := ApplyPatch(orders[i], patch, now)]
  {
    var i := IndexOfId(orders, id);
    assert ApplyPatch(orders[i], patch, now).id == id;
  }

  /** Replacing by id twice with the same order is replacing once. */
  lemma ReplaceByIdIdempotent(orders: seq<Order>, p: Order)
    ensures ReplaceById(ReplaceById(orders, p), p) == ReplaceById(orders, p)
  {
    var i := IndexOfId(orders, p.id);
    if i >= 0 {
      IndexOfIdAfterWrite(orders, i, p);
    }
  }

  /** Writing an order with the same id at the first index of that id keeps
      that index the first. */
  lemma {:induction false} IndexOfIdAfterWrite(orders: seq<Order>, i: int, p: Order)
    requires 0 <= i < |orders| && i == IndexOfId(orders, p.id)
    ensures IndexOfId(orders[i := p], p.id) == i
  {
    if i > 0 {
      assert orders[i := p][1..] == orders[1..][i - 1 := p];
      IndexOfIdAfterWrite(orders[1..], i - 1, p);
    }
  }

  /** The order slice of the browser's store. */
  class OrderStateStore {
    var status: RequestStatus
    var orderUpdateStatus: RequestStatus
    var orderFetchStatus: RequestStatus
    var razorpayOrderStatus: RequestStatus
    var paymentVerificationStatus: RequestStatus
    var orders: seq<Order>
    var currentOrder: Option<Order>
    var razorpayOrder: Option<PaymentOrderView>
    var errors: Option<SerializedError>
    var successMessage: Option<string>

    function State(): SliceState
      reads this
    {
      SliceState(status, orderUpdateStatus, orderFetchStatus, razorpayOrderStatus, paymentVerificationStatus,
                 orders, currentOrder, razorpayOrder, errors, successMessage)
    }

    /** Every status idle, no orders, nothing current. */
    constructor ()
      ensures State() == InitialState
    {
      status, orderUpdateStatus, orderFetchStatus, razorpayOrderStatus, paymentVerificationStatus :=
        Idle, Idle, Idle, Idle, Idle;
      orders, currentOrder, razorpayOrder, errors, successMessage := [], None, None, None, None;
    }

    // ----- Reducers -----

    method ResetCurrentOrder()
      modifies this
      ensures State() == old(State()).(currentOrder := None)
    {
      currentOrder := None;
    }

    method ResetOrderUpdateStatus()
      modifies this
      ensures State() == old(State()).(orderUpdateStatus := Idle)
    {
      orderUpdateStatus := Idle;
    }

    method ResetOrderFetchStatus()
      modifies this
      ensures State() == old(State()).(orderFetchStatus := Idle)
    {
      orderFetchStatus := Idle;
    }

    /** The one reset that clears two fields. */
    method ResetRazorpayOrderStatus()
      modifies this
      ensures State() == old(State()).(razorpayOrderStatus := Idle, razorpayOrder := None)
    {
      razorpayOrderStatus := Idle;
      razorpayOrder := None;
    }

    method ResetPaymentVerificationStatus()
      modifies this
      ensures State() == old(State()).(paymentVerificationStatus := Idle)
    {
      paymentVerificationStatus := Idle;
    }

    // ----- Thunk cases -----

    /** Placing an order: the placed order is appended and becomes current. */
    method OnCreateOrder(action: ThunkAction<Order>)
      modifies this
      ensures action.PendingAction? ==> State() == old(State()).(status := Pending)
      ensures action.FulfilledAction? ==>
        State() == old(State()).(status := Fulfilled, orders := old(orders) + [action.payload],
                                 currentOrder := Some(action.payload))
      ensures action.RejectedAction? ==> State() == old(State()).(status := Rejected, errors := Some(action.error))
    {
      match action
      case PendingAction =>
        status := Pending;
      case FulfilledAction(payload) =>
        status := Fulfilled;
        orders := orders + [payload];
        currentOrder := Some(payload);
      case RejectedAction(error) =>
        status := Rejected;
        errors := Some(error);
    }

    /** `createOrderAsync` settling: the outcome of the API call becomes the
        thunk's final action, which the create-order case then applies. A
        placed order is appended and made current; a refusal records its
        message and leaves the list alone. */
    method FinishCreateOrder(outcome: OrderApi.Outcome<Order>)
      modifies this
      ensures outcome.Resolved? ==>
        State() == old(State()).(status := Fulfilled, orders := old(orders) + [outcome.value],
                                 currentOrder := Some(outcome.value))
      ensures outcome.Rejected? ==>
        State() == old(State()).(status := Rejected, errors := Some(SerializedError(outcome.message)))
    {
      OnCreateOrder(Settle(outcome));
    }

    /** Loading all orders: the loaded list replaces the list. */
    method OnGetAllOrders(action: ThunkAction<seq<Order>>)
      modifies this
      ensures action.PendingAction? ==> State() == old(State()).(orderFetchStatus := Pending)
      ensures action.FulfilledAction? ==>
        State() == old(State()).(orderFetchStatus := Fulfilled, orders := action.payload)
      ensures action.RejectedAction? ==>
        State() == old(State()).(orderFetchStatus := Rejected, errors := Some(action.error))
    {
      FetchCase(action);
    }

    /** Loading one user's orders: the same three cases as loading all. */
    method OnGetOrderByUserId(action: ThunkAction<seq<Order>>)
      modifies this
      ensures action.PendingAction? ==> State() == old(State()).(orderFetchStatus := Pending)
      ensures action.FulfilledAction? ==>
        State() == old(State()).(orderFetchStatus := Fulfilled, orders := action.payload)
      ensures action.RejectedAction? ==>
        State() == old(State()).(orderFetchStatus := Rejected, errors := Some(action.error))
    {
      FetchCase(action);
    }

    method FetchCase(action: ThunkAction<seq<Order>>)
      modifies this
      ensures action.PendingAction? ==> State() == old(State()).(orderFetchStatus := Pending)
      ensures action.FulfilledAction? ==>
        State() == old(State()).(orderFetchStatus := Fulfilled, orders := action.payload)
      ensures action.RejectedAction? ==>
        State() == old(State()).(orderFetchStatus := Rejected, errors := Some(action.error))
    {
      match action
      case PendingAction =>
        orderFetchStatus := Pending;
      case FulfilledAction(payload) =>
        orderFetchStatus := Fulfilled;
        orders := payload;
      case RejectedAction(error) =>
        orderFetchStatus := Rejected;
        errors := Some(error);
    }

    /** Updating an order. The payload is the updated order, or `null` when
        the server knew no such id: reading `_id` of `null` throws inside
        the reducer, and the store keeps its previous state. */
    method OnUpdateOrderById(action: ThunkAction<Option<Order>>)
      modifies this
      ensures action.PendingAction? ==> State() == old(State()).(orderUpdateStatus := Pending)
      ensures action.FulfilledAction? && action.payload.Some? ==>
        State() == old(State()).(orderUpdateStatus := Fulfilled,
                                 orders := ReplaceById(old(orders), action.payload.value))
      ensures action.FulfilledAction? && action.payload.None? ==> State() == old(State())
      ensures action.RejectedAction? ==>
        State() == old(State()).(orderUpdateStatus := Rejected, errors := Some(action.error))
    {
      match action
      case PendingAction =>
        orderUpdateStatus := Pending;
      case FulfilledAction(payload) =>
        if payload.Some? {
          orderUpdateStatus := Fulfilled;
          orders := ReplaceById(orders, payload.value);
        }
      case RejectedAction(error) =>
        orderUpdateStatus := Rejected;
        errors := Some(error);
    }

    /** Creating a gateway order: the created order is kept for payment. */
    method OnCreateRazorpayOrder(action: ThunkAction<PaymentOrderView>)
      modifies this
      ensures action.PendingAction? ==> State() == old(State()).(razorpayOrderStatus := Pending)
      ensures action.FulfilledAction? ==>
        State() == old(State()).(razorpayOrderStatus := Fulfilled, razorpayOrder := Some(action.payload))
      ensures action.RejectedAction? ==>
        State() == old(State()).(razorpayOrderStatus := Rejected, errors := Some(action.error))
    {
      match action
      case PendingAction =>
        razorpayOrderStatus := Pending;
      case FulfilledAction(payload) =>
        razorpayOrderStatus := Fulfilled;
        razorpayOrder := Some(payload);
      case RejectedAction(error) =>
        razorpayOrderStatus := Rejected;
        errors := Some(error);
    }

    /** Verifying a payment changes only the verification status (and the
        error when rejected); the orders and the current order stay. */
    method OnVerifyRazorpayPayment(action: ThunkAction<bool>)
      modifies this
      ensures action.PendingAction? ==> State() == old(State()).(paymentVerificationStatus := Pending)
      ensures action.FulfilledAction? ==> State() == old(State()).(paymentVerificationStatus := Fulfilled)
      ensures action.RejectedAction? ==>
        State() == old(State()).(paymentVerificationStatus := Rejected, errors := Some(action.error))
      ensures orders == old(orders) && currentOrder == old(currentOrder)
    {
      match action
      case PendingAction =>
        paymentVerificationStatus := Pending;
      case FulfilledAction(_) =>
        paymentVerificationStatus := Fulfilled;
      case RejectedAction(error) =>
        paymentVerificationStatus := Rejected;
        errors := Some(error);
    }
  }
}
