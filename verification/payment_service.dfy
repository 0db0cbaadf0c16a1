/** `PaymentService`: the registry of web-cart payment gateways by gateway code. The service
    is generic in the gateway so that the registry logic stands apart from what a gateway
    does. */
module PaymentService {
  import opened Wrappers
  import opened CartDomain

  datatype PaymentService<G> = PaymentService(webCartPaymentGateways: map<string, G>)

  const PaymentSelectionNotSet := "PaymentSelection not set"

  function GatewayNotFound(code: string): string
  {
    "Payment gateway " + code + " not found"
  }

  /** `Inject`: the registry is whatever the provider function hands over. */
  function Inject<G>(provider: () -> map<string, G>): (ps: PaymentService<G>)
    ensures ps.webCartPaymentGateways == provider()
  {
    PaymentService(provider())
  }

  function AvailablePaymentGateways<G>(ps: PaymentService<G>): map<string, G>
  {
    ps.webCartPaymentGateways
  }

  /** `PaymentGateway`: the gateway registered under the code, or a not-found error. */
  function PaymentGateway<G>(ps: PaymentService<G>, code: string): (r: Result<G>)
    ensures r.Ok? <==> code in ps.webCartPaymentGateways
    ensures r.Ok? ==> r.value == ps.webCartPaymentGateways[code]
    ensures r.Err? ==> r.error == GatewayNotFound(code)
  {
    if code in ps.webCartPaymentGateways then Ok(ps.webCartPaymentGateways[code])
    else Err(GatewayNotFound(code))
  }

  /** `PaymentGatewayByCart`: without a payment selection no lookup happens; otherwise the
      gateway of the selection. */
  function PaymentGatewayByCart<G>(ps: PaymentService<G>, cart: Cart): (r: Result<G>)
    ensures cart.paymentSelection.None? ==> r == Err(PaymentSelectionNotSet)
    ensures cart.paymentSelection.Some? ==> r == PaymentGateway(ps, cart.paymentSelection.value.gateway)
  {
    match cart.paymentSelection
    case None => Err(PaymentSelectionNotSet)
    case Some(selection) => PaymentGateway(ps, selection.gateway)
  }

  /** What is injected is what is available, and a lookup succeeds exactly for the codes of
      the available gateways, giving the registered gateway. */
  lemma InjectedRegistry<G>(provider: () -> map<string, G>, code: string)
    ensures AvailablePaymentGateways(Inject(provider)) == provider()
    ensures PaymentGateway(Inject(provider), code).Ok? <==> code in AvailablePaymentGateways(Inject(provider))
    ensures PaymentGateway(Inject(provider), code).Ok? ==> PaymentGateway(Inject(provider), code).value == provider()[code]
  {
  }

  /** A cart finds a gateway exactly when it has a selection whose gateway is registered. */
  lemma GatewayByCartFound<G>(ps: PaymentService<G>, cart: Cart)
    ensures PaymentGatewayByCart(ps, cart).Ok? <==>
      cart.paymentSelection.Some? && cart.paymentSelection.value.gateway in ps.webCartPaymentGateways
  {
  }
}
