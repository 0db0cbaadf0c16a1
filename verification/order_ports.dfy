/** The order service the `PlaceOrder` state calls. `application.PlaceOrderInfo` is not part
    of this model beyond being a value the order service hands out and takes back; the
    fields below stand for its contents. */
module OrderPorts {
  import opened Wrappers
  import opened PaymentPorts
  import CartDecorator

  datatype PlaceOrderInfo = PlaceOrderInfo(orderNumbers: seq<string>, contactEmail: string)

  /** `CartPlaceOrder(decoratedCart, payment)` and `CancelOrderWithoutRestore(info)` (its
      error, if any). */
  datatype OrderService = OrderService(
    cartPlaceOrder: (CartDecorator.DecoratedCart, Payment) -> Result<PlaceOrderInfo>,
    cancelOrderWithoutRestore: PlaceOrderInfo -> Option<string>)
}
