/** The place-order states as one closed set, with the `process.State` operations
    dispatched to each state. */
module States {
  import opened Wrappers
  import opened ProcessContext
  import PlaceOrderState
  import CreatePaymentState
  import InteractiveStates
  import TerminalStates

  datatype State =
    | PlaceOrder(placeOrder: PlaceOrderState.PlaceOrder)
    | CreatePayment(createPayment: CreatePaymentState.CreatePayment)
    | Interactive(interactive: InteractiveStates.Interactive)
    | Terminal(terminal: TerminalStates.Terminal)

  function Name(s: State): string
  {
    match s
    case PlaceOrder(_) => PlaceOrderState.Name
    case CreatePayment(_) => CreatePaymentState.Name
    case Interactive(i) => InteractiveStates.Name(i)
    case Terminal(t) => TerminalStates.Name(t)
  }

  predicate IsFinal(s: State)
  {
    match s
    case PlaceOrder(po) => PlaceOrderState.IsFinal(po)
    case CreatePayment(cp) => CreatePaymentState.IsFinal(cp)
    case Interactive(i) => InteractiveStates.IsFinal(i)
    case Terminal(t) => TerminalStates.IsFinal(t)
  }

  function Run(s: State, c: Context): Step
  {
    match s
    case PlaceOrder(po) => PlaceOrderState.Run(po, c)
    case CreatePayment(cp) => CreatePaymentState.Run(cp, c)
    case Interactive(i) => InteractiveStates.Run(i, c)
    case Terminal(t) => TerminalStates.Run(t, c)
  }

  function Rollback(s: State, data: RollbackData): RollbackOutcome
  {
    match s
    case PlaceOrder(po) => PlaceOrderState.Rollback(po, data)
    case CreatePayment(cp) => CreatePaymentState.Rollback(cp, data)
    case Interactive(_) => NoRollback(data)
    case Terminal(_) => NoRollback(data)
  }

  /** Exactly `Success` and `Failed` are final, and the name says which state it is. */
  lemma FinalExactlyByName(s: State)
    ensures IsFinal(s) <==> Name(s) == "Success" || Name(s) == "Failed"
  {
  }

  /** Two states with the same name are the same kind of state. */
  lemma {:induction false} NameIdentifiesState(a: State, b: State)
    requires Name(a) == Name(b)
    ensures a.PlaceOrder? == b.PlaceOrder? && a.CreatePayment? == b.CreatePayment?
    ensures a.Interactive? == b.Interactive? && a.Terminal? == b.Terminal?
    ensures a.Interactive? ==> a.interactive.kind == b.interactive.kind
    ensures a.Terminal? ==> a.terminal.Success? == b.terminal.Success?
  {
    match a
    case PlaceOrder(_) =>
      assert Name(b) == "PlaceOrder";
    case CreatePayment(_) =>
      assert Name(b) == "CreatePayment";
    case Interactive(i) =>
      if b.Interactive? {
        InteractiveStates.NameIdentifiesKind(i, b.interactive);
      }
    case Terminal(t) =>
  }

  /** Final states are inert: running one leaves the context alone and fails nothing, and
      rolling one back does nothing. */
  lemma FinalStatesAreInert(s: State, c: Context, data: RollbackData)
    requires IsFinal(s)
    ensures Run(s, c) == Step(c, EmptyRunResult, [])
    ensures Rollback(s, data) == RollbackOutcome(None, [])
  {
  }

  /** Only `PlaceOrder` records a placed order; `CreatePayment` and the final states leave it
      as it was (the interactive states' validators are outside this model). */
  lemma OnlyPlaceOrderRecordsOrder(s: State, c: Context)
    requires s.CreatePayment? || s.Terminal?
    ensures Run(s, c).context.placeOrderInfo == c.placeOrderInfo
  {
  }

  /** A state that fails leaves nothing to roll back, for the states this model defines. */
  lemma FailureLeavesNoRollbackData(s: State, c: Context)
    requires !s.Interactive?
    requires Run(s, c).result.failed.Some?
    ensures Run(s, c).result.rollbackData == NoRollbackData
  {
  }

  /** The names `PlaceOrder` writes as the next state are the names of the modelled
      `ValidatePayment` and `Success` states, and of no other state. */
  lemma PlaceOrderNamesModelledStates(s: State)
    ensures Name(s) == PlaceOrderState.ValidatePaymentName <==>
      s.Interactive? && s.interactive.kind.ValidatePaymentKind?
    ensures Name(s) == PlaceOrderState.SuccessName <==> s == Terminal(TerminalStates.Success)
  {
  }
}
