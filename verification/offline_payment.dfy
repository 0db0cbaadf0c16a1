/** The offline ("cash on delivery") payment provider of the legacy checkout payment
    interface. Its cart, payment and web types come from an older package layout, so they
    are declared here on their own. */
module OfflinePayment {
  import opened Wrappers

  datatype PaymentMethod = PaymentMethod(title: string, code: string, isExternalPayment: bool)

  /** `PAYMENT_STATUS_OPEN` is the only status the provider sets. */
  datatype PaymentStatus = PaymentStatusOpen | PaymentStatusOther(name: string)

  datatype PaymentInfo = PaymentInfo(paymentMethod: string, provider: string, status: PaymentStatus)

  /** A reference to one item of one delivery of the cart. */
  datatype ItemCartReference = ItemCartReference(itemId: string, deliveryCode: string)

  /** An assignment points at a payment info; the pointer is the index into `paymentInfos`. */
  datatype CartPaymentAssignment = CartPaymentAssignment(itemCartReference: ItemCartReference, paymentInfo: nat)

  datatype CartPayment = CartPayment(paymentInfos: seq<PaymentInfo>, assignments: seq<CartPaymentAssignment>)

  datatype OfflinePaymentProvider = OfflinePaymentProvider(enabled: bool)

  const ProviderCode := "offlinepayment"
  const CashOnDelivery := PaymentMethod("Cash on delivery", "offlinepayment_cashondelivery", false)

  function GetCode(pa: OfflinePaymentProvider): (r: string)
    ensures r == ProviderCode
  {
    ProviderCode
  }

  /** Exactly one method, cash on delivery, which is not an external payment. */
  function GetPaymentMethods(pa: OfflinePaymentProvider): (r: seq<PaymentMethod>)
    ensures |r| == 1 && r[0].code == "offlinepayment_cashondelivery" && r[0].title == "Cash on delivery" && !r[0].isExternalPayment
  {
    [CashOnDelivery]
  }

  /** There is no external page to redirect to; the web response is not modelled. */
  function RedirectExternalPayment(pa: OfflinePaymentProvider, chosen: PaymentMethod): (r: Result<()>)
    ensures r == Err("No Redirect")
  {
    Err("No Redirect")
  }

  predicate IsActive(pa: OfflinePaymentProvider)
  {
    pa.enabled
  }

  /** `ProcessPayment`: one open payment info for the chosen method under this provider, and
      one assignment per item reference of the cart (`GetItemCartReferences`, given here as
      `itemReferences`), in order, every one pointing at that single info. It never fails. */
  function ProcessPayment(pa: OfflinePaymentProvider, itemReferences: seq<ItemCartReference>, chosen: PaymentMethod): (r: Result<CartPayment>)
    ensures r.Ok?
    ensures r.value.paymentInfos == [PaymentInfo(chosen.code, GetCode(pa), PaymentStatusOpen)]
    ensures |r.value.assignments| == |itemReferences|
    ensures forall i :: 0 <= i < |itemReferences| ==>
      r.value.assignments[i].itemCartReference == itemReferences[i] && r.value.assignments[i].paymentInfo == 0
  {
    var info := PaymentInfo(chosen.code, GetCode(pa), PaymentStatusOpen);
    Ok(CartPayment([info], Assign(itemReferences)))
  }

  /** The assignment loop: one assignment per reference, in order, all pointing at the first
      (and only) payment info. */
  function Assign(itemReferences: seq<ItemCartReference>): (r: seq<CartPaymentAssignment>)
    ensures |r| == |itemReferences|
    ensures forall i :: 0 <= i < |itemReferences| ==> r[i] == CartPaymentAssignment(itemReferences[i], 0)
  {
    if |itemReferences| == 0 then []
    else Assign(itemReferences[..|itemReferences| - 1]) + [CartPaymentAssignment(itemReferences[|itemReferences| - 1], 0)]
  }

  /** Reading the item references back out of the assignments gives the cart's references;
      each assignment resolves to the one payment info. */
  lemma AssignmentsCoverReferences(pa: OfflinePaymentProvider, itemReferences: seq<ItemCartReference>, chosen: PaymentMethod)
    ensures var p := ProcessPayment(pa, itemReferences, chosen).value;
      (forall i :: 0 <= i < |p.assignments| ==>
         p.assignments[i].paymentInfo < |p.paymentInfos| && p.paymentInfos[p.assignments[i].paymentInfo].paymentMethod == chosen.code) &&
      seq(|p.assignments|, i requires 0 <= i < |p.assignments| => p.assignments[i].itemCartReference) == itemReferences
  {
  }

  /** Paying with the provider's own method records cash on delivery, open, under this
      provider's code. */
  lemma CashOnDeliveryPayment(pa: OfflinePaymentProvider, itemReferences: seq<ItemCartReference>)
    ensures var p := ProcessPayment(pa, itemReferences, GetPaymentMethods(pa)[0]).value;
      p.paymentInfos == [PaymentInfo("offlinepayment_cashondelivery", "offlinepayment", PaymentStatusOpen)]
  {
  }
}
