/** The order document. Its schema is the one declared inline at the top of
    backend/server.js; the separate models/Order.js that the routes import is
    not part of this model. Amounts are whole cents; timestamps are readings
    supplied by the caller. */
module OrderModel {
  import opened Common

  datatype OrderItem = OrderItem(name: string, qty: int, image: string, price: int, product: ProductId)

  datatype ShippingAddress = ShippingAddress(address: string, city: string, postalCode: string, country: string)

  /** What the payment gateway reported; every field may be missing. */
  datatype PaymentResult = PaymentResult(
    id: Option<string>, status: Option<string>, updateTime: Option<string>, emailAddress: Option<string>)

  datatype Order = Order(
    user: UserId,
    orderItems: seq<OrderItem>,
    shippingAddress: ShippingAddress,
    paymentMethod: string,
    paymentResult: Option<PaymentResult>,
    taxPrice: int,
    shippingPrice: int,
    totalPrice: int,
    isPaid: bool,
    paidAt: Option<Timestamp>,
    isDelivered: bool,
    deliveredAt: Option<Timestamp>)
  {
    /** The schema's `required` strings are non-empty, so `save()` accepts the document. */
    predicate SchemaValid()
      ensures SchemaValid() ==> paymentMethod != "" && shippingAddress.address != ""
      ensures SchemaValid() ==> forall i :: 0 <= i < |orderItems| ==> orderItems[i].name != ""
    {
      && (forall i :: 0 <= i < |orderItems| ==> orderItems[i].name != "" && orderItems[i].image != "")
      && shippingAddress.address != "" && shippingAddress.city != ""
      && shippingAddress.postalCode != "" && shippingAddress.country != ""
      && paymentMethod != ""
    }
  }

  /** `new Order({...})`: amounts left undefined default to 0; a new order is
      neither paid nor delivered and carries no payment result. */
  function NewOrder(
    user: UserId, items: seq<OrderItem>, shippingAddress: ShippingAddress, paymentMethod: string,
    taxPrice: Option<int>, shippingPrice: Option<int>, totalPrice: Option<int>): (o: Order)
    ensures !o.isPaid && o.paidAt.None? && o.paymentResult.None?
    ensures !o.isDelivered && o.deliveredAt.None?
    ensures o.user == user && o.orderItems == items
    ensures o.shippingAddress == shippingAddress && o.paymentMethod == paymentMethod
    ensures o.taxPrice == (if taxPrice.Some? then taxPrice.value else 0)
    ensures o.shippingPrice == (if shippingPrice.Some? then shippingPrice.value else 0)
    ensures o.totalPrice == (if totalPrice.Some? then totalPrice.value else 0)
  {
    Order(user, items, shippingAddress, paymentMethod, None,
          OrZero(taxPrice), OrZero(shippingPrice), OrZero(totalPrice),
          false, None, false, None)
  }
}
