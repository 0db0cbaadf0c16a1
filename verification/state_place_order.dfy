/** The `PlaceOrder` state: obtains the payment (unless the cart costs nothing), places the
    order, and on rollback cancels the placed order. */
module PlaceOrderState {
  import opened Wrappers
  import opened CartDomain
  import opened ProductDomain
  import opened PaymentPorts
  import opened OrderPorts
  import opened ProcessContext
  import PaymentService
  import CartDecorator

  const Name := "PlaceOrder"
  const ValidatePaymentName := "ValidatePayment"
  const SuccessName := "Success"

  /** The injected collaborators. `grandTotalIsZero` stands for `cart.GrandTotal().IsZero()`;
      price arithmetic is outside this model. The cart service is injected in the source but
      never used by the state, so it is not a field. */
  datatype PlaceOrder = PlaceOrder(
    orderService: OrderService,
    products: ProductOracles,
    paymentService: PaymentService.PaymentService<Gateway>,
    grandTotalIsZero: Cart -> bool)

  function Inject(orderService: OrderService, products: ProductOracles,
                  paymentService: PaymentService.PaymentService<Gateway>,
                  grandTotalIsZero: Cart -> bool): (po: PlaceOrder)
    ensures po.orderService == orderService && po.products == products
    ensures po.paymentService == paymentService && po.grandTotalIsZero == grandTotalIsZero
  {
    PlaceOrder(orderService, products, paymentService, grandTotalIsZero)
  }

  predicate IsFinal(po: PlaceOrder)
  {
    false
  }

  function Failure(reason: FailedReason): RunResult
  {
    RunResult(NoRollbackData, Some(reason))
  }

  /** The second half of `Run`: the next state has been written already; place the order. */
  function PlaceWith(po: PlaceOrder, c: Context, payment: Payment, callsSoFar: seq<Call>): (s: Step)
    ensures s.calls == callsSoFar + [CartPlaceOrderCall(payment)]
    ensures s.context.(placeOrderInfo := c.placeOrderInfo) == c
    // the order service's answer for the decorated cart decides the outcome
    ensures var answer := po.orderService.cartPlaceOrder(CartDecorator.Create(po.products, c.cart), payment);
      (answer.Err? ==> s == Step(c, Failure(ErrorOccurredReason(answer.error)), callsSoFar + [CartPlaceOrderCall(payment)])) &&
      (answer.Ok? ==>
         s.context == UpdateOrderInfo(c, answer.value) &&
         s.result == RunResult(PlaceOrderRollbackData(answer.value), None))
  {
    var decorated := CartDecorator.Create(po.products, c.cart);
    var calls := callsSoFar + [CartPlaceOrderCall(payment)];
    match po.orderService.cartPlaceOrder(decorated, payment)
    case Err(e) => Step(c, Failure(ErrorOccurredReason(e)), calls)
    case Ok(info) => Step(UpdateOrderInfo(c, info), RunResult(PlaceOrderRollbackData(info), None), calls)
  }

  /** `PlaceOrder.Run`. A cart that costs nothing is placed with the empty payment and goes
      straight to `Success`; otherwise the gateway of the cart's payment selection supplies
      the payment, the state moves to `ValidatePayment`, and only then is the order placed. */
  function Run(po: PlaceOrder, c: Context): (s: Step)
    // the next state is written before the order is placed, so it stays written when placing fails
    ensures po.grandTotalIsZero(c.cart) ==>
      s.calls == [CartPlaceOrderCall(EmptyPayment)] &&
      s.context.currentStateName == SuccessName && s.context.currentStateData == NoStateData
    ensures po.grandTotalIsZero(c.cart) ==>
      var next := UpdateState(c, SuccessName, NoStateData);
      var placed := po.orderService.cartPlaceOrder(CartDecorator.Create(po.products, c.cart), EmptyPayment);
      (placed.Err? ==> s == Step(next, Failure(ErrorOccurredReason(placed.error)), [CartPlaceOrderCall(EmptyPayment)])) &&
      (placed.Ok? ==>
         s.context == UpdateOrderInfo(next, placed.value) &&
         s.result == RunResult(PlaceOrderRollbackData(placed.value), None))
    ensures !po.grandTotalIsZero(c.cart) && PaymentService.PaymentGatewayByCart(po.paymentService, c.cart).Err? ==>
      s == Step(c, Failure(PaymentErrorOccurredReason(PaymentService.PaymentGatewayByCart(po.paymentService, c.cart).error)), [])
    ensures !po.grandTotalIsZero(c.cart) && PaymentService.PaymentGatewayByCart(po.paymentService, c.cart).Ok? ==>
      var gw := c.cart.paymentSelection.value.gateway;
      var answer := PaymentService.PaymentGatewayByCart(po.paymentService, c.cart).value.orderPaymentFromFlow(c.cart, c.uuid);
      (answer.Err? ==> s == Step(c, Failure(ErrorOccurredReason(answer.error)), [OrderPaymentFromFlowCall(gw, c.uuid)])) &&
      (answer.Ok? ==>
         s.calls == [OrderPaymentFromFlowCall(gw, c.uuid), CartPlaceOrderCall(answer.value)] &&
         s.context.currentStateName == ValidatePaymentName)
    ensures !po.grandTotalIsZero(c.cart) && PaymentService.PaymentGatewayByCart(po.paymentService, c.cart).Ok? ==>
      var answer := PaymentService.PaymentGatewayByCart(po.paymentService, c.cart).value.orderPaymentFromFlow(c.cart, c.uuid);
      answer.Ok? ==>
        var next := UpdateState(c, ValidatePaymentName, NoStateData);
        var placed := po.orderService.cartPlaceOrder(CartDecorator.Create(po.products, c.cart), answer.value);
        (placed.Err? ==>
           s == Step(next, Failure(ErrorOccurredReason(placed.error)),
                     [OrderPaymentFromFlowCall(c.cart.paymentSelection.value.gateway, c.uuid), CartPlaceOrderCall(answer.value)])) &&
        (placed.Ok? ==>
           s.context == UpdateOrderInfo(next, placed.value) &&
           s.result == RunResult(PlaceOrderRollbackData(placed.value), None))
    // whichever path was taken, the order is recorded exactly when no failure is reported,
    // and the recorded order is what is handed over for rollback
    ensures s.result.failed.None? <==> s.result.rollbackData.PlaceOrderRollbackData?
    ensures s.result.failed.None? ==> s.context.placeOrderInfo == Some(s.result.rollbackData.orderInfos)
    ensures s.result.failed.Some? ==> s.context.placeOrderInfo == c.placeOrderInfo
    ensures s.result.failed.Some? ==> !s.result.failed.value.CanceledByCustomerReason?
    // nothing else in the context changes
    ensures s.context.(currentStateName := c.currentStateName, currentStateData := c.currentStateData,
                       placeOrderInfo := c.placeOrderInfo) == c
  {
    if po.grandTotalIsZero(c.cart) then
      PlaceWith(po, UpdateState(c, SuccessName, NoStateData), EmptyPayment, [])
    else
      match PaymentService.PaymentGatewayByCart(po.paymentService, c.cart)
      case Err(e) => Step(c, Failure(PaymentErrorOccurredReason(e)), [])
      case Ok(gateway) =>
        var calls := [OrderPaymentFromFlowCall(c.cart.paymentSelection.value.gateway, c.uuid)];
        match gateway.orderPaymentFromFlow(c.cart, c.uuid)
        case Err(e) => Step(c, Failure(ErrorOccurredReason(e)), calls)
        case Ok(payment) => PlaceWith(po, UpdateState(c, ValidatePaymentName, NoStateData), payment, calls)
  }

  /** The name Go's `%T` verb prints for a rollback value of each kind. */
  function TypeName(data: RollbackData): (name: string)
    ensures data.PlaceOrderRollbackData? ==> name == PlaceOrderRollbackTypeName
  {
    match data
    case NoRollbackData => "<nil>"
    case PlaceOrderRollbackData(_) => PlaceOrderRollbackTypeName
    case CreatePaymentRollbackData(_, _) => "states.CreatePaymentRollbackData"
    case ForeignRollbackData(t) => t
  }

  const PlaceOrderRollbackTypeName := "states.PlaceOrderRollbackData"

  const WrongTypePrefix := "rollback data not of expected type 'PlaceOrderRollbackData', but "

  /** The wrong-type error as the source builds it: `%T` is applied to the zero value the
      failed type assertion leaves behind, so the text names the expected type whatever was
      passed. */
  function WrongTypeErrorAsWritten(data: RollbackData): (e: string)
    requires !data.PlaceOrderRollbackData?
    ensures e == WrongTypePrefix + PlaceOrderRollbackTypeName
  {
    var zeroValue := PlaceOrderRollbackData(PlaceOrderInfo([], ""));
    WrongTypePrefix + TypeName(zeroValue)
  }

  /** The wrong-type error naming the type actually passed. */
  function WrongTypeError(data: RollbackData): (e: string)
    requires !data.PlaceOrderRollbackData?
    ensures |WrongTypePrefix| <= |e| && e[..|WrongTypePrefix|] == WrongTypePrefix
    ensures e[|WrongTypePrefix|..] == TypeName(data)
  {
    WrongTypePrefix + TypeName(data)
  }

  /** The as-written error tells the caller nothing: a string passed where rollback data was
      expected is reported as if it were of the expected type. */
  lemma WrongTypeErrorAsWrittenHidesType()
    ensures WrongTypeErrorAsWritten(ForeignRollbackData("string")) ==
      "rollback data not of expected type 'PlaceOrderRollbackData', but states.PlaceOrderRollbackData"
    ensures WrongTypeErrorAsWritten(ForeignRollbackData("string")) == WrongTypeErrorAsWritten(NoRollbackData)
  {
  }

  /** The corrected error tells different wrong types apart. */
  lemma WrongTypeErrorNamesType(a: RollbackData, b: RollbackData)
    requires !a.PlaceOrderRollbackData? && !b.PlaceOrderRollbackData?
    ensures WrongTypeError(a) == WrongTypeError(b) <==> TypeName(a) == TypeName(b)
  {
    if WrongTypeError(a) == WrongTypeError(b) {
      assert WrongTypeError(a)[|WrongTypePrefix|..] == WrongTypeError(b)[|WrongTypePrefix|..];
    }
  }

  /** `PlaceOrder.Rollback`: cancels the placed order without restoring the cart, and reports
      the order service's error verbatim; other data is rejected without any call, with the
      error text the source builds (which names the expected type, not the one passed). */
  function Rollback(po: PlaceOrder, data: RollbackData): (r: RollbackOutcome)
    ensures data.PlaceOrderRollbackData? ==>
      r.calls == [CancelOrderWithoutRestoreCall(data.orderInfos)] &&
      r.error == po.orderService.cancelOrderWithoutRestore(data.orderInfos)
    ensures !data.PlaceOrderRollbackData? ==> r.calls == [] && r.error == Some(WrongTypeErrorAsWritten(data))
  {
    match data
    case PlaceOrderRollbackData(info) =>
      RollbackOutcome(po.orderService.cancelOrderWithoutRestore(info), [CancelOrderWithoutRestoreCall(info)])
    case _ => RollbackOutcome(Some(WrongTypeErrorAsWritten(data)), [])
  }

  /** What a successful run hands over for rollback cancels exactly the order it placed. */
  lemma RunThenRollbackCancelsPlacedOrder(po: PlaceOrder, c: Context)
    requires Run(po, c).result.failed.None?
    ensures Run(po, c).context.placeOrderInfo.Some?
    ensures Rollback(po, Run(po, c).result.rollbackData).calls ==
      [CancelOrderWithoutRestoreCall(Run(po, c).context.placeOrderInfo.value)]
  {
  }
}
