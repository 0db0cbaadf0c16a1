/** The place-order process context, the operations the states use to change it, and the
    context store. */
module ProcessContext {
  import opened Wrappers
  import opened CartDomain
  import opened NetUrl
  import opened PaymentPorts
  import opened OrderPorts

  datatype FormField = FormField(values: seq<string>)

  /** `domain.WalletDetails`, reduced to the payment method the states read. */
  datatype WalletDetails = WalletDetails(usedPaymentMethod: string)

  /** `process.StateData` is an untyped interface; the values the states put there are a
      closed set, so the model tags them. */
  datatype StateData =
    | NoStateData
    | UrlStateData(url: Url)
    | HtmlStateData(html: string)
    | WalletStateData(walletDetails: WalletDetails)
    | PostRedirectStateData(url: Url, formFields: map<string, FormField>)

  datatype FailedReason =
    | ErrorOccurredReason(error: string)
    | PaymentErrorOccurredReason(error: string)
    | CanceledByCustomerReason

  /** `process.RollbackData` is untyped too. `ForeignRollbackData` is a value of any other
      dynamic type, named as Go's `%T` verb prints it. */
  datatype RollbackData =
    | NoRollbackData
    | PlaceOrderRollbackData(orderInfos: PlaceOrderInfo)
    | CreatePaymentRollbackData(gateway: string, paymentId: string)
    | ForeignRollbackData(typeName: string)

  datatype RollbackReference = RollbackReference(stateName: string, data: RollbackData)

  /** `process.RunResult`; `failed == None` is a nil `Failed`. */
  datatype RunResult = RunResult(rollbackData: RollbackData, failed: Option<FailedReason>)

  const EmptyRunResult := RunResult(NoRollbackData, None)

  /** `process.Context`. */
  datatype Context = Context(
    uuid: string,
    currentStateName: string,
    currentStateData: StateData,
    placeOrderInfo: Option<PlaceOrderInfo>,
    cart: Cart,
    returnUrl: Option<Url>,
    rollbackReferences: seq<RollbackReference>,
    failedReason: Option<FailedReason>)

  /** An external call a state makes, so that "called once, with these arguments" can be
      stated. */
  datatype Call =
    | StartFlowCall(gateway: string, correlationId: string, returnUrl: Option<Url>)
    | OrderPaymentFromFlowCall(gateway: string, correlationId: string)
    | CancelOrderPaymentCall(gateway: string, payment: Payment)
    | CartPlaceOrderCall(payment: Payment)
    | CancelOrderWithoutRestoreCall(orderInfos: PlaceOrderInfo)

  /** What running a state leaves behind: the process context, the run result, and the
      external calls made, in order. */
  datatype Step = Step(context: Context, result: RunResult, calls: seq<Call>)

  /** What rolling a state back leaves behind: the error, if any, and the calls made. */
  datatype RollbackOutcome = RollbackOutcome(error: Option<string>, calls: seq<Call>)

  /** The rollback of every state that has nothing to undo (the interactive and the final
      states): it succeeds for any data and calls nothing. */
  function NoRollback(data: RollbackData): (r: RollbackOutcome)
    ensures r.error.None? && r.calls == []
  {
    RollbackOutcome(None, [])
  }

  /** `Process.UpdateState`: the next state and its data, nothing else. */
  function UpdateState(c: Context, name: string, data: StateData): (r: Context)
    ensures r.currentStateName == name && r.currentStateData == data
    ensures r.(currentStateName := c.currentStateName, currentStateData := c.currentStateData) == c
  {
    c.(currentStateName := name, currentStateData := data)
  }

  /** `Process.UpdateOrderInfo`: records the placed order, nothing else. */
  function UpdateOrderInfo(c: Context, info: PlaceOrderInfo): (r: Context)
    ensures r.placeOrderInfo == Some(info)
    ensures r.(placeOrderInfo := c.placeOrderInfo) == c
  {
    c.(placeOrderInfo := Some(info))
  }

  /** There is one current state at a time: a later update replaces an earlier one. */
  lemma UpdateStateLastWins(c: Context, first: string, firstData: StateData, second: string, secondData: StateData)
    ensures UpdateState(UpdateState(c, first, firstData), second, secondData) == UpdateState(c, second, secondData)
  {
  }

  /** Moving to a state and recording the order touch disjoint parts of the context. */
  lemma UpdatesCommute(c: Context, name: string, data: StateData, info: PlaceOrderInfo)
    ensures UpdateOrderInfo(UpdateState(c, name, data), info) == UpdateState(UpdateOrderInfo(c, info), name, data)
  {
  }

  /** A `ContextStore` as the interface promises it: contexts by key. */
  type ContextStore = map<string, Context>

  function Store(s: ContextStore, key: string, c: Context): (r: ContextStore)
    ensures key in r
  {
    s[key := c]
  }

  /** `Get`: the stored context, or none (`found == false`). */
  function Get(s: ContextStore, key: string): (r: Option<Context>)
    ensures r.Some? <==> key in s
  {
    if key in s then Some(s[key]) else None
  }

  function Delete(s: ContextStore, key: string): (r: ContextStore)
    ensures key !in r
  {
    s - {key}
  }

  /** Reading back a key gives what was stored there, state data included; other keys are
      unaffected. */
  lemma StoreThenGet(s: ContextStore, key: string, other: string, c: Context)
    ensures Get(Store(s, key, c), key) == Some(c)
    ensures Get(Store(s, key, c), key).value.currentStateData == c.currentStateData
    ensures other != key ==> Get(Store(s, key, c), other) == Get(s, other)
  {
  }

  /** After `Delete` nothing is found under the key; other keys are unaffected. */
  lemma DeleteThenGet(s: ContextStore, key: string, other: string)
    ensures Get(Delete(s, key), key) == None
    ensures other != key ==> Get(Delete(s, key), other) == Get(s, other)
  {
  }
}
