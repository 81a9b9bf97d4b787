/** The admin order table: the orders are shown newest first (the list
    reversed), rows are numbered from the count down to one, and a row is
    edited through its index in the original list. An edit index of -1
    means no row is being edited. */
module AdminOrders {
  import opened Js
  import opened OrderSchema
  import OrderApi
  import OrderSlice

  const StatusUpdated := "Status updated"
  const StatusUpdateFailed := "Error updating order status"

  /** The displayed list: `orders.slice().reverse()`. */
  function Reversed<T>(s: seq<T>): (r: seq<T>)
    ensures |r| == |s|
    ensures forall i :: 0 <= i < |s| ==> r[i] == s[|s| - 1 - i]
  {
    seq(|s|, i requires 0 <= i < |s| => s[|s| - 1 - i])
  }

  /** Reversing twice gives back the list. */
  lemma ReversedTwice<T>(s: seq<T>)
    ensures Reversed(Reversed(s)) == s
  {
  }

  /** The original index of the row shown at position `position`. */
  function ActualIndex(count: int, position: int): (i: int)
    ensures 0 <= position < count ==> 0 <= i < count
    ensures i + position == count - 1
  {
    count - 1 - position
  }

  /** Every displayed position maps to an index of the list, the mapping
      is its own inverse, and the row shown there is that order. */
  lemma ActualIndexInRange(orders: seq<Order>, position: int)
    requires 0 <= position < |orders|
    ensures 0 <= ActualIndex(|orders|, position) < |orders|
    ensures ActualIndex(|orders|, ActualIndex(|orders|, position)) == position
    ensures Reversed(orders)[position] == orders[ActualIndex(|orders|, position)]
  {
  }

  /** The edit-mode test of a row. */
  predicate RowEditing(count: int, editIndex: int, position: int) {
    editIndex == ActualIndex(count, position)
  }

  /** At most one row is in edit mode, no row is when the index is -1, and
      the row that is shows the order at the edit index. */
  lemma AtMostOneRowEditing(orders: seq<Order>, editIndex: int)
    ensures forall i, j ::
      (0 <= i < |orders| && 0 <= j < |orders| && RowEditing(|orders|, editIndex, i) && RowEditing(|orders|, editIndex, j))
      ==> i == j
    ensures editIndex == -1 ==> forall i :: 0 <= i < |orders| ==> !RowEditing(|orders|, editIndex, i)
    ensures forall i :: 0 <= i < |orders| && RowEditing(|orders|, editIndex, i) ==> Reversed(orders)[i] == orders[editIndex]
  {
  }

  /** The number in the first column of the row at `position`. */
  function RowNumber(count: int, position: int): (n: int)
    ensures 0 <= position < count ==> 1 <= n <= count
    ensures n + position == count
  {
    count - position
  }

  /** Row numbers run from the count down to one, each used once. */
  lemma RowNumbersCountDown(count: nat)
    ensures forall i :: 0 <= i < count ==> 1 <= RowNumber(count, i) <= count
    ensures forall i, j :: 0 <= i < j < count ==> RowNumber(count, i) > RowNumber(count, j)
    ensures count > 0 ==> RowNumber(count, 0) == count && RowNumber(count, count - 1) == 1
  {
  }

  /** The statuses the edit form offers. */
  const EditOptions: seq<string> :=
    ["Pending", "Confirmed", "Dispatched", "Out for delivery", "Delivered", "Cancelled"]

  /** The form offers exactly the schema's statuses, in the schema's order. */
  lemma EditOptionsAreSchemaStatuses()
    ensures EditOptions == StatusValues
  {
  }

  datatype ColorPair = ColorPair(background: string, color: string)

  /** `getStatusColor`: a pair for each of the six statuses, `undefined`
      (here `None`) for anything else. */
  function StatusColor(status: string): (c: Option<ColorPair>)
    ensures c.Some? <==> status in StatusValues
  {
    if status == "Pending" then Some(ColorPair("#dfc9f7", "#7c59a4"))
    else if status == "Confirmed" then Some(ColorPair("#c8e6c9", "#2e7d32"))
    else if status == "Dispatched" then Some(ColorPair("#feed80", "#927b1e"))
    else if status == "Out for delivery" then Some(ColorPair("#AACCFF", "#4793AA"))
    else if status == "Delivered" then Some(ColorPair("#b3f5ca", "#548c6a"))
    else if status == "Cancelled" then Some(ColorPair("#fac0c0", "#cc6d72"))
    else None
  }

  /** Different statuses get different colours. */
  lemma StatusColorsDistinct()
    ensures forall i, j :: 0 <= i < j < |StatusValues| ==> StatusColor(StatusValues[i]) != StatusColor(StatusValues[j])
  {
  }

  /** The admin order table's component state. */
  class AdminOrdersView {
    var orders: seq<Order>
    var editIndex: int
    var formStatus: Option<string>
    var dispatched: seq<OrderApi.Update>
    var toasts: seq<string>

    /** Nothing is being edited at first. */
    constructor (orders: seq<Order>)
      ensures this.orders == orders && editIndex == -1 && formStatus == None
      ensures dispatched == [] && toasts == []
    {
      this.orders := orders;
      editIndex := -1;
      formStatus := None;
      dispatched := [];
      toasts := [];
    }

    /** The store's list changed. */
    method OnOrders(newOrders: seq<Order>)
      modifies this
      ensures orders == newOrders
      ensures editIndex == old(editIndex) && formStatus == old(formStatus)
      ensures dispatched == old(dispatched) && toasts == old(toasts)
    {
      orders := newOrders;
    }

    /** `handleEditClick` on the row at a displayed position: the original
        index of that row becomes the edit index, and the form starts at
        that order's status. */
    method HandleEditClick(position: int)
      requires 0 <= position < |orders|
      modifies this
      ensures editIndex == |orders| - 1 - position && 0 <= editIndex < |orders|
      ensures Reversed(orders)[position] == orders[editIndex]
      ensures formStatus == orders[editIndex].fields.status
      ensures orders == old(orders) && dispatched == old(dispatched) && toasts == old(toasts)
    {
      var actualIndex := |orders| - 1 - position;
      editIndex := actualIndex;
      formStatus := orders[actualIndex].fields.status;
    }

    /** `handleCancelEdit`: no row is edited and the form is cleared. */
    method HandleCancelEdit()
      modifies this
      ensures editIndex == -1 && formStatus == None
      ensures orders == old(orders) && dispatched == old(dispatched) && toasts == old(toasts)
    {
      editIndex := -1;
      formStatus := None;
    }

    /** `handleUpdateOrder`: the update names the order of the edited row
        and carries the form data. With no row edited, reading the id of
        `orders[-1]` throws and nothing is dispatched. */
    method HandleUpdateOrder(data: OrderFields)
      modifies this
      ensures 0 <= editIndex < |orders| ==>
        dispatched == old(dispatched) + [OrderApi.Update(Some(orders[editIndex].id), data)]
      ensures !(0 <= editIndex < |orders|) ==> dispatched == old(dispatched)
      ensures orders == old(orders) && editIndex == old(editIndex) && formStatus == old(formStatus)
      ensures toasts == old(toasts)
    {
      if 0 <= editIndex < |orders| {
        dispatched := dispatched + [OrderApi.Update(Some(orders[editIndex].id), data)];
      }
    }

    /** The effect on the update status: a fulfilled update ends the edit
        and clears the form, a rejected one only shows an error. */
    method OnUpdateStatus(status: OrderSlice.RequestStatus)
      modifies this
      ensures status == OrderSlice.Fulfilled ==>
        editIndex == -1 && formStatus == None && toasts == old(toasts) + [StatusUpdated]
      ensures status == OrderSlice.Rejected ==>
        editIndex == old(editIndex) && formStatus == old(formStatus) && toasts == old(toasts) + [StatusUpdateFailed]
      ensures status != OrderSlice.Fulfilled && status != OrderSlice.Rejected ==>
        editIndex == old(editIndex) && formStatus == old(formStatus) && toasts == old(toasts)
      ensures orders == old(orders) && dispatched == old(dispatched)
    {
      if status == OrderSlice.Fulfilled {
        toasts := toasts + [StatusUpdated];
        editIndex := -1;
        formStatus := None;
      } else if status == OrderSlice.Rejected {
        toasts := toasts + [StatusUpdateFailed];
      }
    }
  }

  /** An update sent from the edited row targets that row's order: the
      browser call is sent to the route of that order's id. */
  lemma UpdateTargetsEditedRow(orders: seq<Order>, position: int, data: OrderFields)
    requires 0 <= position < |orders|
    requires orders[ActualIndex(|orders|, position)].id != ""
    ensures var update := OrderApi.Update(Some(orders[ActualIndex(|orders|, position)].id), data);
      OrderApi.UpdateOrderById(update) == OrderApi.Send(OrderApi.PatchOrder(Reversed(orders)[position].id, data))
  {
  }
}
