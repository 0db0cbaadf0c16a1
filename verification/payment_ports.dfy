/** The payment side the place-order states talk to: the payment a gateway reports and the
    parts of `WebCartPaymentGateway` the states call. A gateway is an oracle; every answer it
    gives is a field of this record. */
module PaymentPorts {
  import opened Wrappers
  import opened CartDomain
  import opened NetUrl

  datatype Transaction = Transaction(transactionId: string)

  /** `placeorder.Payment`; raw transaction data is not modelled. */
  datatype Payment = Payment(gateway: string, paymentId: string, transactions: seq<Transaction>)

  /** The zero `placeorder.Payment{}`, placed with an order that costs nothing. */
  const EmptyPayment := Payment("", "", [])

  datatype FlowResult = FlowResult(earlyPlaceOrder: bool)

  /** `StartFlow(cart, correlationID, returnURL)`, `OrderPaymentFromFlow(cart, correlationID)`
      and `CancelOrderPayment(payment)` (its error, if any). */
  datatype Gateway = Gateway(
    startFlow: (Cart, string, Option<Url>) -> Result<FlowResult>,
    orderPaymentFromFlow: (Cart, string) -> Result<Payment>,
    cancelOrderPayment: Payment -> Option<string>)
}
