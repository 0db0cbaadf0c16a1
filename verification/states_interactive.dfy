/** The four states that wait on the customer or the payment provider: `ValidatePayment`,
    `Redirect`, `ShowIframe` and `ShowWalletPayment`. Each delegates its run to the injected
    payment validator, keeps nothing to roll back, and never ends the process. They differ
    only in their name and in the state data the validator leaves for them. */
module InteractiveStates {
  import opened Wrappers
  import opened NetUrl
  import opened PaymentPorts
  import opened ProcessContext
  import PaymentService

  /** `process.PaymentValidatorFunc`: decides, from the context and the payment service, how
      the process continues. It is injected and not part of this model. */
  type PaymentValidator = (Context, PaymentService.PaymentService<Gateway>) -> Step

  datatype Kind = ValidatePaymentKind | RedirectKind | ShowIframeKind | ShowWalletPaymentKind

  datatype Interactive = Interactive(
    kind: Kind,
    paymentService: PaymentService.PaymentService<Gateway>,
    validator: PaymentValidator)

  function Inject(kind: Kind, paymentService: PaymentService.PaymentService<Gateway>,
                  validator: PaymentValidator): (s: Interactive)
    ensures s.kind == kind && s.paymentService == paymentService && s.validator == validator
  {
    Interactive(kind, paymentService, validator)
  }

  function Name(s: Interactive): (name: string)
    ensures |name| > 0
    ensures s.kind.ValidatePaymentKind? <==> name == "ValidatePayment"
    ensures s.kind.RedirectKind? <==> name == "Redirect"
    ensures s.kind.ShowIframeKind? <==> name == "ShowIframe"
    ensures s.kind.ShowWalletPaymentKind? <==> name == "ShowWalletPayment"
  {
    match s.kind
    case ValidatePaymentKind => "ValidatePayment"
    case RedirectKind => "Redirect"
    case ShowIframeKind => "ShowIframe"
    case ShowWalletPaymentKind => "ShowWalletPayment"
  }

  /** The state name tells the kinds apart. */
  lemma NameIdentifiesKind(a: Interactive, b: Interactive)
    ensures Name(a) == Name(b) <==> a.kind == b.kind
  {
  }

  predicate IsFinal(s: Interactive)
  {
    false
  }

  /** `Run`: whatever the validator decides, for every kind alike. */
  function Run(s: Interactive, c: Context): Step
  {
    s.validator(c, s.paymentService)
  }

  /** The four kinds run alike: the result is the validator's answer for the injected payment
      service, unchanged. */
  lemma RunIsValidatorAnswer(s: Interactive, c: Context, k: Kind)
    ensures Run(s.(kind := k), c) == Run(s, c) == s.validator(c, s.paymentService)
  {
  }

  /** `NewRedirectStateData`: the URL the customer is sent to. */
  function NewRedirectStateData(url: Url): StateData
  {
    UrlStateData(url)
  }

  /** `NewShowIframeStateData`: the URL the iframe shows. */
  function NewShowIframeStateData(url: Url): StateData
  {
    UrlStateData(url)
  }

  /** `NewShowWalletPaymentStateData`: the wallet details, persisted with the state. */
  function NewShowWalletPaymentStateData(walletDetails: WalletDetails): StateData
  {
    WalletStateData(walletDetails)
  }

  /** `NewShowHTMLStateData` and `NewPostRedirectStateData` belong to the `ShowHTML` and
      `PostRedirect` states, which are not otherwise part of this model. */
  function NewShowHTMLStateData(html: string): StateData
  {
    HtmlStateData(html)
  }

  function NewPostRedirectStateData(url: Url, formFields: map<string, FormField>): StateData
  {
    PostRedirectStateData(url, formFields)
  }

  /** Reading state data back as a URL, as a frontend does for `Redirect` and `ShowIframe`. */
  function AsUrl(data: StateData): (r: Option<Url>)
    ensures r.Some? <==> data.UrlStateData?
  {
    if data.UrlStateData? then Some(data.url) else None
  }

  /** Reading state data back as wallet details, for `ShowWalletPayment`. */
  function AsWalletDetails(data: StateData): (r: Option<WalletDetails>)
    ensures r.Some? <==> data.WalletStateData?
  {
    if data.WalletStateData? then Some(data.walletDetails) else None
  }

  function AsHtml(data: StateData): (r: Option<string>)
    ensures r.Some? <==> data.HtmlStateData?
  {
    if data.HtmlStateData? then Some(data.html) else None
  }

  function AsPostRedirect(data: StateData): (r: Option<(Url, map<string, FormField>)>)
    ensures r.Some? <==> data.PostRedirectStateData?
  {
    if data.PostRedirectStateData? then Some((data.url, data.formFields)) else None
  }

  /** The data each constructor builds reads back as what was put in, and as nothing else. */
  lemma StateDataRoundTrip(url: Url, walletDetails: WalletDetails, html: string, formFields: map<string, FormField>)
    ensures AsUrl(NewRedirectStateData(url)) == Some(url)
    ensures AsUrl(NewShowIframeStateData(url)) == Some(url)
    ensures AsWalletDetails(NewShowWalletPaymentStateData(walletDetails)) == Some(walletDetails)
    ensures AsWalletDetails(NewRedirectStateData(url)).None?
    ensures AsUrl(NewShowWalletPaymentStateData(walletDetails)).None?
    ensures AsHtml(NewShowHTMLStateData(html)) == Some(html)
    ensures AsPostRedirect(NewPostRedirectStateData(url, formFields)) == Some((url, formFields))
    ensures AsUrl(NewPostRedirectStateData(url, formFields)).None? && AsUrl(NewShowHTMLStateData(html)).None?
  {
  }

  /** State data survives the context store: what a state stored is what it reads back. */
  lemma StoredRedirectKeepsUrl(store: ContextStore, key: string, c: Context, url: Url)
    ensures var stored := Store(store, key, UpdateState(c, "Redirect", NewRedirectStateData(url)));
      Get(stored, key).Some? && AsUrl(Get(stored, key).value.currentStateData) == Some(url)
  {
  }
}
