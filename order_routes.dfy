/** backend/routes/orderRoutes.js (duplicated inline in backend/server.js):
    order placement across the catalog, the order ledger and the cart store,
    and the order read and status handlers, for an authenticated caller. */
module OrderRoutes {
  import opened Common
  import opened ProductModel
  import opened OrderModel
  import AuthMiddleware
  import ProductRoutes
  import CartRoutes

  /** The JSON body of a placement request; None stands for a field left
      undefined. */
  datatype OrderRequest = OrderRequest(
    orderItems: Option<seq<OrderItem>>,
    shippingAddress: ShippingAddress,
    paymentMethod: string,
    taxPrice: Option<int>,
    shippingPrice: Option<int>,
    totalPrice: Option<int>)

  // ---------------------------------------------------------------------
  // Validation: every line is checked before anything is written.
  // ---------------------------------------------------------------------

  /** A line passes when its product exists and `countInStock < qty` is
      false, so asking for exactly the available stock passes. */
  predicate LinePasses(products: map<ProductId, Product>, item: OrderItem) {
    item.product in products && products[item.product].countInStock >= item.qty
  }

  /** The answer for one failing line: 404 naming the request's item name, or
      400 naming the catalog's product name and its available count. */
  function LineFailure(products: map<ProductId, Product>, item: OrderItem): (f: Option<Message>)
    ensures f.None? <==> LinePasses(products, item)
    ensures item.product !in products ==> f == Some(ProductNotFoundNamed(item.name))
    ensures item.product in products && !LinePasses(products, item) ==>
              f == Some(InsufficientStock(products[item.product].name, products[item.product].countInStock))
  {
    if item.product !in products then Some(ProductNotFoundNamed(item.name))
    else if products[item.product].countInStock < item.qty then
      Some(InsufficientStock(products[item.product].name, products[item.product].countInStock))
    else None
  }

  /** The answer of the first failing line, scanning in request order. */
  function FirstFailure(products: map<ProductId, Product>, items: seq<OrderItem>): (f: Option<Message>)
    ensures items == [] ==> f.None?
    ensures f.Some? ==> f.value.ProductNotFoundNamed? || f.value.InsufficientStock?
    ensures f.Some? ==> f.value.Status() == NOT_FOUND || f.value.Status() == BAD_REQUEST
    decreases |items|
  {
    if items == [] then None
    else if LineFailure(products, items[0]).Some? then LineFailure(products, items[0])
    else FirstFailure(products, items[1..])
  }

  /** Validation passes iff every line passes on its own. */
  lemma {:induction false} FirstFailureNoneIff(products: map<ProductId, Product>, items: seq<OrderItem>)
    ensures FirstFailure(products, items).None? <==>
              forall i :: 0 <= i < |items| ==> LinePasses(products, items[i])
    decreases |items|
  {
    if items != [] {
      FirstFailureNoneIff(products, items[1..]);
      assert forall i :: 1 <= i < |items| ==> items[i] == items[1..][i - 1];
    }
  }

  /** A failing validation answers for the first failing line, all earlier
      lines having passed. */
  lemma {:induction false} FirstFailureIsFirstBadLine(products: map<ProductId, Product>, items: seq<OrderItem>)
    requires FirstFailure(products, items).Some?
    ensures exists k :: 0 <= k < |items| && !LinePasses(products, items[k]) &&
              (forall i :: 0 <= i < k ==> LinePasses(products, items[i])) &&
              FirstFailure(products, items) == LineFailure(products, items[k])
    decreases |items|
  {
    if LineFailure(products, items[0]).Some? {
      assert !LinePasses(products, items[0]);
    } else {
      FirstFailureIsFirstBadLine(products, items[1..]);
      var k :| 0 <= k < |items[1..]| && !LinePasses(products, items[1..][k]) &&
                 (forall i :: 0 <= i < k ==> LinePasses(products, items[1..][i])) &&
                 FirstFailure(products, items[1..]) == LineFailure(products, items[1..][k]);
      assert items[k + 1] == items[1..][k];
      assert forall i :: 1 <= i < k + 1 ==> items[i] == items[1..][i - 1];
    }
  }

  /** The validation loop: one catalog lookup per line, returning at the
      first failing line. */
  method CheckStock(catalog: ProductRoutes.Catalog, items: seq<OrderItem>) returns (failure: Option<Message>)
    ensures failure == FirstFailure(catalog.products, items)
  {
    var i := 0;
    while i < |items|
      invariant 0 <= i <= |items|
      invariant FirstFailure(catalog.products, items) == FirstFailure(catalog.products, items[i..])
    {
      assert items[i..][1..] == items[i + 1..];
      var item := items[i];
      if item.product !in catalog.products {
        return Some(ProductNotFoundNamed(item.name));
      }
      var product := catalog.products[item.product];
      if product.countInStock < item.qty {
        return Some(InsufficientStock(product.name, product.countInStock));
      }
      i := i + 1;
    }
    return None;
  }

  // ---------------------------------------------------------------------
  // Stock accounting: after the order is saved, each line decrements the
  // stock of its product as it stands at that moment.
  // ---------------------------------------------------------------------

  /** One line's decrement; a product that no longer exists is skipped. */
  function DecrementLine(products: map<ProductId, Product>, item: OrderItem): (r: map<ProductId, Product>)
    ensures r.Keys == products.Keys
    ensures forall pid :: pid in r ==> r[pid] == products[pid].(countInStock := r[pid].countInStock)
  {
    if item.product in products then
      products[item.product := products[item.product].(countInStock := products[item.product].countInStock - item.qty)]
    else products
  }

  /** The catalog after the decrement loop has run over the lines in order. */
  function Decremented(products: map<ProductId, Product>, items: seq<OrderItem>): (r: map<ProductId, Product>)
    ensures r.Keys == products.Keys
    ensures forall pid :: pid in r ==> r[pid] == products[pid].(countInStock := r[pid].countInStock)
    decreases |items|
  {
    if items == [] then products
    else DecrementLine(Decremented(products, items[..|items| - 1]), items[|items| - 1])
  }

  /** The quantity the lines ask for, summed over the lines for one product. */
  function QtyOf(items: seq<OrderItem>, pid: ProductId): int
    decreases |items|
  {
    if items == [] then 0
    else QtyOf(items[..|items| - 1], pid) + (if items[|items| - 1].product == pid then items[|items| - 1].qty else 0)
  }

  /** Exact accounting: no product appears or disappears, and each product's
      stock drops by exactly the summed quantity of its lines, nothing else
      about it changing. */
  lemma {:induction false} StockAccounting(products: map<ProductId, Product>, items: seq<OrderItem>)
    ensures Decremented(products, items).Keys == products.Keys
    ensures forall pid :: pid in products ==>
              Decremented(products, items)[pid] ==
              products[pid].(countInStock := products[pid].countInStock - QtyOf(items, pid))
    decreases |items|
  {
    if items != [] {
      StockAccounting(products, items[..|items| - 1]);
    }
  }

  /** Lines for pairwise different products. */
  predicate DistinctProducts(items: seq<OrderItem>) {
    forall i, j :: 0 <= i < j < |items| ==> items[i].product != items[j].product
  }

  /** With pairwise different products, the summed quantity of a line's
      product is that line's quantity. */
  lemma {:induction false} QtyOfDistinct(items: seq<OrderItem>, k: int)
    requires DistinctProducts(items) && 0 <= k < |items|
    ensures QtyOf(items, items[k].product) == items[k].qty
    decreases |items|
  {
    var init := items[..|items| - 1];
    if k == |items| - 1 {
      QtyOfAbsent(init, items[k].product);
    } else {
      assert init[k] == items[k];
      QtyOfDistinct(init, k);
    }
  }

  lemma {:induction false} QtyOfAbsent(items: seq<OrderItem>, pid: ProductId)
    requires forall i :: 0 <= i < |items| ==> items[i].product != pid
    ensures QtyOf(items, pid) == 0
    decreases |items|
  {
    if items != [] {
      QtyOfAbsent(items[..|items| - 1], pid);
    }
  }

  /** When validation passed and no product repeats, every ordered product
      loses exactly its line's quantity and ends with non-negative stock. */
  lemma DistinctLinesNeverOverdraw(products: map<ProductId, Product>, items: seq<OrderItem>)
    requires FirstFailure(products, items).None?
    requires DistinctProducts(items)
    ensures forall k :: 0 <= k < |items| ==>
              && items[k].product in products
              && items[k].product in Decremented(products, items)
              && Decremented(products, items)[items[k].product].countInStock
                   == products[items[k].product].countInStock - items[k].qty
              && Decremented(products, items)[items[k].product].countInStock >= 0
  {
    FirstFailureNoneIff(products, items);
    StockAccounting(products, items);
    forall k | 0 <= k < |items|
      ensures items[k].product in products
      ensures Decremented(products, items)[items[k].product].countInStock
                == products[items[k].product].countInStock - items[k].qty
    {
      QtyOfDistinct(items, k);
    }
  }

  /** The gap: a line repeated is checked alone against the full stock, but
      the decrements add up, so the stock ends at stock - 2 * qty. */
  lemma RepeatedLineChecksAlone(products: map<ProductId, Product>, item: OrderItem)
    requires LinePasses(products, item)
    ensures FirstFailure(products, [item, item]).None?
    ensures item.product in Decremented(products, [item, item])
    ensures Decremented(products, [item, item])[item.product].countInStock
              == products[item.product].countInStock - 2 * item.qty
  {
    assert [item, item][1..] == [item];
    assert [item][1..] == [];
    assert FirstFailure(products, [item]).None?;
    assert [item, item][..1] == [item];
    assert [item][..0] == [];
    assert QtyOf([item], item.product) == item.qty;
    assert QtyOf([item, item], item.product) == 2 * item.qty;
    StockAccounting(products, [item, item]);
  }

  /** Concretely: one unit in stock, two lines each asking for one unit;
      the order is accepted and the stock ends at -1. */
  lemma RepeatedLinesOverdraw(p: Product, item: OrderItem)
    requires p.countInStock == 1 && item.qty == 1
    ensures var products := map[item.product := p];
            FirstFailure(products, [item, item]).None? &&
            item.product in Decremented(products, [item, item]) &&
            Decremented(products, [item, item])[item.product].countInStock == -1
  {
    RepeatedLineChecksAlone(map[item.product := p], item);
  }

  /** The decrement loop: look each line's product up again and save it
      with the line's quantity taken off. */
  method DecrementStock(catalog: ProductRoutes.Catalog, items: seq<OrderItem>)
    modifies catalog
    ensures catalog.products == Decremented(old(catalog.products), items)
  {
    for i := 0 to |items|
      invariant catalog.products == Decremented(old(catalog.products), items[..i])
    {
      assert items[..i + 1][..i] == items[..i];
      var item := items[i];
      if item.product in catalog.products {
        var product := catalog.products[item.product];
        catalog.products := catalog.products[item.product := product.(countInStock := product.countInStock - item.qty)];
      }
    }
    assert items[..|items|] == items;
  }

  // ---------------------------------------------------------------------
  // Status changes.
  // ---------------------------------------------------------------------

  /** PUT /:id/pay on an order: paid now with the gateway's result; nothing
      else about the order changes. */
  function MarkPaid(o: Order, result: PaymentResult, now: Timestamp): (p: Order)
    ensures p.isPaid && p.paidAt == Some(now) && p.paymentResult == Some(result)
    ensures p.(isPaid := o.isPaid, paidAt := o.paidAt, paymentResult := o.paymentResult) == o
    ensures p.SchemaValid() <==> o.SchemaValid()
  {
    o.(isPaid := true, paidAt := Some(now), paymentResult := Some(result))
  }

  /** PUT /:id/deliver on an order: delivered now; nothing else changes. */
  function MarkDelivered(o: Order, now: Timestamp): (p: Order)
    ensures p.isDelivered && p.deliveredAt == Some(now)
    ensures p.(isDelivered := o.isDelivered, deliveredAt := o.deliveredAt) == o
    ensures p.SchemaValid() <==> o.SchemaValid()
  {
    o.(isDelivered := true, deliveredAt := Some(now))
  }

  /** Paying again is accepted and the latest payment overwrites the earlier one. */
  lemma PayAgainOverwrites(o: Order, r1: PaymentResult, t1: Timestamp, r2: PaymentResult, t2: Timestamp)
    ensures MarkPaid(MarkPaid(o, r1, t1), r2, t2) == MarkPaid(o, r2, t2)
  {
  }

  /** The two flags are independent: marking paid and delivered commute. */
  lemma PayAndDeliverCommute(o: Order, r: PaymentResult, t1: Timestamp, t2: Timestamp)
    ensures MarkDelivered(MarkPaid(o, r, t1), t2) == MarkPaid(MarkDelivered(o, t2), r, t1)
  {
  }

  // ---------------------------------------------------------------------
  // The ledger and its handlers.
  // ---------------------------------------------------------------------

  /** The order created from a request that passed validation. */
  function OrderFrom(caller: UserId, req: OrderRequest, items: seq<OrderItem>): Order {
    NewOrder(caller, items, req.shippingAddress, req.paymentMethod, req.taxPrice, req.shippingPrice, req.totalPrice)
  }

  class OrderLedger {
    var orders: map<OrderId, Order>

    constructor ()
      ensures orders == map[]
      ensures Valid()
    {
      orders := map[];
    }

    /** Every stored order passed the schema validation at its last save. */
    ghost predicate Valid()
      reads this
    {
      forall oid :: oid in orders ==> orders[oid].SchemaValid()
    }

    /** POST /: reject an empty list; check every line; save the order built
      from the request's lines; decrement stock line by line; delete the
      caller's cart. The store supplies the fresh order id. A missing list
      makes the line loop throw, answered 500 before any write; so does a
      document the schema refuses at save. */
    method Place(catalog: ProductRoutes.Catalog, carts: CartRoutes.CartStore, caller: UserId,
                 req: OrderRequest, id: OrderId)
      returns (reply: Reply<Order>)
      requires id !in orders
      modifies this, catalog, carts
      ensures req.orderItems == Some([]) ==> reply == Failure(NoOrderItems)
      ensures req.orderItems.None? ==> reply == Failure(CouldNotCreateOrder)
      ensures req.orderItems.Some? && req.orderItems.value != [] &&
              FirstFailure(old(catalog.products), req.orderItems.value).Some? ==>
                reply == Failure(FirstFailure(old(catalog.products), req.orderItems.value).value)
      ensures req.orderItems.Some? && req.orderItems.value != [] &&
              FirstFailure(old(catalog.products), req.orderItems.value).None? &&
              !OrderFrom(caller, req, req.orderItems.value).SchemaValid() ==>
                reply == Failure(CouldNotCreateOrder)
      ensures reply.Failure? ==>
                orders == old(orders) && catalog.products == old(catalog.products) && carts.carts == old(carts.carts)
      ensures reply.Success? <==>
                req.orderItems.Some? && req.orderItems.value != [] &&
                FirstFailure(old(catalog.products), req.orderItems.value).None? &&
                OrderFrom(caller, req, req.orderItems.value).SchemaValid()
      ensures reply.Success? ==>
                var o := OrderFrom(caller, req, req.orderItems.value);
                && reply == Success(CREATED, o)
                && orders == old(orders)[id := o]
                && catalog.products == Decremented(old(catalog.products), req.orderItems.value)
                && carts.carts == old(carts.carts) - {caller}
                && carts.Get(caller).cartItems == []
      ensures old(Valid()) ==> Valid()
      ensures old(catalog.Valid()) ==> catalog.Valid()
      ensures old(carts.Valid()) ==> carts.Valid()
    {
      if req.orderItems == Some([]) {
        return Failure(NoOrderItems);
      }
      if req.orderItems.None? {
        return Failure(CouldNotCreateOrder);
      }
      var items := req.orderItems.value;
      var failure := CheckStock(catalog, items);
      if failure.Some? {
        return Failure(failure.value);
      }
      var order := OrderFrom(caller, req, items);
      if !order.SchemaValid() {
        return Failure(CouldNotCreateOrder);
      }
      orders := orders[id := order];
      ghost var before := catalog.products;
      DecrementStock(catalog, items);
      StockAccounting(before, items);
      carts.DeleteCart(caller);
      reply := Success(CREATED, order);
    }

    /** GET /myorders: exactly the caller's orders. */
    function MyOrders(caller: UserId): (mine: map<OrderId, Order>)
      reads this
      ensures forall oid :: oid in mine <==> oid in orders && orders[oid].user == caller
      ensures forall oid :: oid in mine ==> mine[oid] == orders[oid]
    {
      map oid | oid in orders && orders[oid].user == caller :: orders[oid]
    }

    /** GET / behind `admin`: every order, for an admin only. */
    function AllOrders(caller: Option<User>): (r: Reply<map<OrderId, Order>>)
      reads this
      ensures r.Success? <==> AuthMiddleware.AdminGate(caller).Next?
      ensures r.Success? ==> r == Success(OK, orders)
      ensures AuthMiddleware.AdminGate(caller).Reject? ==> r == Failure(NotAuthorizedAsAdmin)
    {
      var gate := AuthMiddleware.AdminGate(caller);
      if gate.Reject? then Failure(gate.message) else Success(OK, orders)
    }

    /** GET /:id: the order for its owner or an admin, 403 for anyone else,
      404 for an unknown id. */
    function View(caller: User, oid: OrderId): (r: Reply<Order>)
      reads this
      ensures oid !in orders ==> r == Failure(OrderNotFound)
      ensures oid in orders ==>
                (r.Success? <==> orders[oid].user == caller.id || caller.isAdmin)
      ensures r.Success? ==> r == Success(OK, orders[oid])
      ensures oid in orders && orders[oid].user != caller.id && !caller.isAdmin ==>
                r == Failure(NotAuthorizedToView)
    {
      if oid !in orders then Failure(OrderNotFound)
      else if orders[oid].user == caller.id || caller.isAdmin then Success(OK, orders[oid])
      else Failure(NotAuthorizedToView)
    }

    /** PUT /:id/pay: any existing order, whoever asks and however often.
      The save re-validates the order; paying keeps a valid order valid, so
      on a valid ledger that save never fails. */
    method Pay(oid: OrderId, result: PaymentResult, now: Timestamp) returns (reply: Reply<Order>)
      modifies this
      ensures oid !in old(orders) ==> reply == Failure(OrderNotFound) && orders == old(orders)
      ensures oid in old(orders) ==>
                var p := MarkPaid(old(orders)[oid], result, now);
                reply == Success(OK, p) && orders == old(orders)[oid := p]
      ensures old(Valid()) ==> Valid()
    {
      if oid !in orders {
        return Failure(OrderNotFound);
      }
      var order := orders[oid];
      order := order.(isPaid := true);
      order := order.(paidAt := Some(now));
      order := order.(paymentResult := Some(result));
      orders := orders[oid := order];
      reply := Success(OK, order);
    }

    /** PUT /:id/deliver behind `admin`: any existing order, however often.
      As for Pay, the save cannot fail on a valid ledger. */
    method Deliver(caller: Option<User>, oid: OrderId, now: Timestamp) returns (reply: Reply<Order>)
      modifies this
      ensures AuthMiddleware.AdminGate(caller).Reject? ==>
                reply == Failure(NotAuthorizedAsAdmin) && orders == old(orders)
      ensures AuthMiddleware.AdminGate(caller).Next? && oid !in old(orders) ==>
                reply == Failure(OrderNotFound) && orders == old(orders)
      ensures AuthMiddleware.AdminGate(caller).Next? && oid in old(orders) ==>
                var p := MarkDelivered(old(orders)[oid], now);
                reply == Success(OK, p) && orders == old(orders)[oid := p]
      ensures old(Valid()) ==> Valid()
    {
      var gate := AuthMiddleware.AdminGate(caller);
      if gate.Reject? {
        return Failure(gate.message);
      }
      if oid !in orders {
        return Failure(OrderNotFound);
      }
      var order := orders[oid];
      order := order.(isDelivered := true);
      order := order.(deliveredAt := Some(now));
      orders := orders[oid := order];
      reply := Success(OK, order);
    }
  }

  /** Every order GET /myorders returns to a caller is one GET /:id shows them. */
  lemma MyOrdersAreViewable(ledger: OrderLedger, caller: User)
    ensures forall oid :: oid in ledger.MyOrders(caller.id) ==>
              ledger.View(caller, oid) == Success(OK, ledger.MyOrders(caller.id)[oid])
  {
  }
}
