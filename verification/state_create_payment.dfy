/** The `CreatePayment` state: starts the payment flow at the gateway of the cart's payment
    selection, obtains the payment, and on rollback cancels that payment. The state's own
    source is not part of this model; its behaviour is the one its tests pin down. */
module CreatePaymentState {
  import opened Wrappers
  import opened CartDomain
  import opened PaymentPorts
  import opened ProcessContext
  import PaymentService

  const Name := "CreatePayment"
  const CompleteCartName := "CompleteCart"

  /** `lateSuccessor` names the state a successful run moves to when the gateway's flow does
      not ask for early placing; only the early case is pinned down, so it is a parameter. */
  datatype CreatePayment = CreatePayment(paymentService: PaymentService.PaymentService<Gateway>, lateSuccessor: string)

  function Inject(paymentService: PaymentService.PaymentService<Gateway>, lateSuccessor: string): (cp: CreatePayment)
    ensures cp.paymentService == paymentService && cp.lateSuccessor == lateSuccessor
  {
    CreatePayment(paymentService, lateSuccessor)
  }

  /** The state a successful run moves to: `CompleteCart` when the flow asks for the order
      to be placed early. */
  function Successor(cp: CreatePayment, flow: FlowResult): string
  {
    if flow.earlyPlaceOrder then CompleteCartName else cp.lateSuccessor
  }

  predicate IsFinal(cp: CreatePayment)
  {
    false
  }

  function PaymentFailure(e: string): RunResult
  {
    RunResult(NoRollbackData, Some(PaymentErrorOccurredReason(e)))
  }

  /** `CreatePayment.Run`. Every failure is a payment error and leaves the context as it was;
      on success the state moves on (to `CompleteCart` when the flow asks for early placing)
      and hands over what identifies the payment. */
  function Run(cp: CreatePayment, c: Context): (s: Step)
    ensures PaymentService.PaymentGatewayByCart(cp.paymentService, c.cart).Err? ==>
      s == Step(c, PaymentFailure(PaymentService.PaymentGatewayByCart(cp.paymentService, c.cart).error), [])
    ensures PaymentService.PaymentGatewayByCart(cp.paymentService, c.cart).Ok? ==>
      var gw := c.cart.paymentSelection.value.gateway;
      var gateway := PaymentService.PaymentGatewayByCart(cp.paymentService, c.cart).value;
      var flow := gateway.startFlow(c.cart, c.uuid, c.returnUrl);
      var payment := gateway.orderPaymentFromFlow(c.cart, c.uuid);
      (flow.Err? ==> s == Step(c, PaymentFailure(flow.error), [StartFlowCall(gw, c.uuid, c.returnUrl)])) &&
      (flow.Ok? ==>
         s.calls == [StartFlowCall(gw, c.uuid, c.returnUrl), OrderPaymentFromFlowCall(gw, c.uuid)]) &&
      (flow.Ok? && payment.Err? ==> s.context == c && s.result == PaymentFailure(payment.error)) &&
      (flow.Ok? && payment.Ok? ==>
         s.result == RunResult(CreatePaymentRollbackData(payment.value.gateway, payment.value.paymentId), None)) &&
      (flow.Ok? && payment.Ok? && flow.value.earlyPlaceOrder ==>
         s.context == UpdateState(c, CompleteCartName, NoStateData)) &&
      (flow.Ok? && payment.Ok? && !flow.value.earlyPlaceOrder ==>
         s.context == UpdateState(c, cp.lateSuccessor, NoStateData))
    ensures s.result.failed.Some? ==> s.context == c && s.result.failed.value.PaymentErrorOccurredReason?
    ensures s.result.failed.None? <==> s.result.rollbackData.CreatePaymentRollbackData?
    ensures s.context.placeOrderInfo == c.placeOrderInfo
  {
    match PaymentService.PaymentGatewayByCart(cp.paymentService, c.cart)
    case Err(e) => Step(c, PaymentFailure(e), [])
    case Ok(gateway) =>
      var gw := c.cart.paymentSelection.value.gateway;
      var started := [StartFlowCall(gw, c.uuid, c.returnUrl)];
      match gateway.startFlow(c.cart, c.uuid, c.returnUrl)
      case Err(e) => Step(c, PaymentFailure(e), started)
      case Ok(flow) =>
        var calls := started + [OrderPaymentFromFlowCall(gw, c.uuid)];
        match gateway.orderPaymentFromFlow(c.cart, c.uuid)
        case Err(e) => Step(c, PaymentFailure(e), calls)
        case Ok(payment) =>
          Step(UpdateState(c, Successor(cp, flow), NoStateData),
               RunResult(CreatePaymentRollbackData(payment.gateway, payment.paymentId), None), calls)
  }

  /** The wrong-type error. Its wording is not fixed by the tests, which only require an
      error; the model uses a fixed text. */
  const WrongTypeError := "rollback data not of expected type 'CreatePaymentRollbackData'"


  /** `CreatePayment.Rollback`: looks up the gateway recorded in the rollback data and asks it
      to cancel the payment rebuilt from gateway and payment id, reporting its error verbatim. */
  function Rollback(cp: CreatePayment, data: RollbackData): (r: RollbackOutcome)
    ensures !data.CreatePaymentRollbackData? ==> r == RollbackOutcome(Some(WrongTypeError), [])
    ensures data.CreatePaymentRollbackData? && data.gateway !in cp.paymentService.webCartPaymentGateways ==>
      r == RollbackOutcome(Some(PaymentService.GatewayNotFound(data.gateway)), [])
    ensures data.CreatePaymentRollbackData? && data.gateway in cp.paymentService.webCartPaymentGateways ==>
      var payment := Payment(data.gateway, data.paymentId, []);
      r.calls == [CancelOrderPaymentCall(data.gateway, payment)] &&
      r.error == cp.paymentService.webCartPaymentGateways[data.gateway].cancelOrderPayment(payment)
  {
    match data
    case CreatePaymentRollbackData(gw, paymentId) =>
      (match PaymentService.PaymentGateway(cp.paymentService, gw)
       case Err(e) => RollbackOutcome(Some(e), [])
       case Ok(gateway) =>
         var payment := Payment(gw, paymentId, []);
         RollbackOutcome(gateway.cancelOrderPayment(payment), [CancelOrderPaymentCall(gw, payment)])
      )
    case _ => RollbackOutcome(Some(WrongTypeError), [])
  }

  /** What a successful run hands over for rollback cancels, at the gateway the payment names,
      exactly the payment obtained from the flow (up to its transactions). */
  lemma RunThenRollbackCancelsPayment(cp: CreatePayment, c: Context)
    requires PaymentService.PaymentGatewayByCart(cp.paymentService, c.cart).Ok?
    requires PaymentService.PaymentGatewayByCart(cp.paymentService, c.cart).value.startFlow(c.cart, c.uuid, c.returnUrl).Ok?
    requires var p := PaymentService.PaymentGatewayByCart(cp.paymentService, c.cart).value.orderPaymentFromFlow(c.cart, c.uuid);
      p.Ok? && p.value.gateway in cp.paymentService.webCartPaymentGateways
    ensures var p := PaymentService.PaymentGatewayByCart(cp.paymentService, c.cart).value.orderPaymentFromFlow(c.cart, c.uuid).value;
      Rollback(cp, Run(cp, c).result.rollbackData).calls ==
        [CancelOrderPaymentCall(p.gateway, p.(transactions := []))]
  {
  }
}
