/** frontend/src/features/order/orderSlice.js: the order being placed or
    viewed, and the reducer cases of createOrder and getOrderById. Both
    thunks are `Thunks.Guarded` over the server's reply. */
module OrderSlice {
  import opened Common
  import opened OrderModel

  class OrderState {
    var order: Option<Order>
    var loading: bool
    var success: bool
    var error: Option<string>

    /** The slice's initial state. */
    predicate IsInitial()
      reads this
    {
      order.None? && !loading && !success && error.None?
    }

    constructor ()
      ensures IsInitial()
    {
      order, loading, success, error := None, false, false, None;
    }

    /** `resetOrderState`: back to the initial state. */
    method ResetOrderState()
      modifies this
      ensures IsInitial()
    {
      order := None;
      loading := false;
      success := false;
      error := None;
    }

    /** createOrder.pending: loading, not yet a success, no error; the order
      shown so far stays. */
    method CreatePending()
      modifies this
      ensures loading && !success && error.None?
      ensures order == old(order)
    {
      loading := true;
      success := false;
      error := None;
    }

    /** createOrder.fulfilled: the created order, and success. */
    method CreateFulfilled(created: Order)
      modifies this
      ensures !loading && success && order == Some(created)
      ensures error == old(error)
    {
      loading := false;
      success := true;
      order := Some(created);
    }

    /** createOrder.rejected: no order, no success, the error recorded. */
    method CreateRejected(err: string)
      modifies this
      ensures !loading && !success && error == Some(err) && order.None?
    {
      loading := false;
      success := false;
      error := Some(err);
      order := None;
    }

    /** getOrderById.pending: loading and no error; success is not touched. */
    method GetByIdPending()
      modifies this
      ensures loading && error.None?
      ensures success == old(success) && order == old(order)
    {
      loading := true;
      error := None;
    }

    /** getOrderById.fulfilled: the fetched order; success is not touched. */
    method GetByIdFulfilled(fetched: Order)
      modifies this
      ensures !loading && order == Some(fetched)
      ensures success == old(success) && error == old(error)
    {
      loading := false;
      order := Some(fetched);
    }

    /** getOrderById.rejected: the order is cleared and the error recorded,
      but success is not touched, so a success left by an earlier placement
      survives with no order beside it. */
    method GetByIdRejected(err: string)
      modifies this
      ensures !loading && error == Some(err) && order.None?
      ensures success == old(success)
    {
      loading := false;
      error := Some(err);
      order := None;
    }
  }
}
