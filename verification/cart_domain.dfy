/** The cart aggregate as far as the in-memory cart behaviour, the decorator and the
    place-order states read or write it. Fields the model never touches are kept only where
    a "nothing else changes" property needs something to stay unchanged. */
module CartDomain {
  import opened Wrappers
  import SeqEdit

  /** A money amount; `NewFromInt(a, p, c)` in the source is `Price(a as real / p as real, c)`. */
  datatype Price = Price(amount: real, currency: string)

  /** The zero value of a Go `price.Price`. */
  const ZeroPrice := Price(0.0, "")

  datatype Item = Item(
    id: string,
    marketplaceCode: string,
    variantMarketplaceCode: string,
    productName: string,
    qty: int)

  datatype DeliveryInfo = DeliveryInfo(
    code: string,
    deliveryMethod: string,
    additionalDeliveryInfos: map<string, string>)

  datatype Delivery = Delivery(deliveryInfo: DeliveryInfo, cartitems: seq<Item>)

  datatype CouponCode = CouponCode(code: string)

  datatype AppliedGiftCard = AppliedGiftCard(code: string, applied: Price, remaining: Price)

  /** The chosen payment; `Gateway()` of the source's interface is the `gateway` field and
      `TotalValue()` the `totalValue` field. */
  datatype PaymentSelection = PaymentSelection(gateway: string, paymentMethod: string, totalValue: Price)

  datatype Address = Address(firstname: string, lastname: string, email: string)

  datatype Person = Person(address: Address)

  datatype AdditionalData = AdditionalData(customAttributes: map<string, string>, reservedOrderId: string)

  /** The zero value of `cart.AdditionalData{}`. */
  const EmptyAdditionalData := AdditionalData(map[], "")

  datatype Totalitem = Totalitem(code: string, title: string, price: Price)

  /** A tax line; the big.Float rate is kept as an uninterpreted real. */
  datatype Tax = Tax(amount: Price, taxType: string, rate: Option<real>)

  /** The zero value of `cart.Tax{}`. */
  const ZeroTax := Tax(ZeroPrice, "", None)

  datatype Cart = Cart(
    id: string,
    belongsToAuthenticatedUser: bool,
    authenticatedUserId: string,
    deliveries: seq<Delivery>,
    appliedCouponCodes: seq<CouponCode>,
    appliedGiftCards: seq<AppliedGiftCard>,
    paymentSelection: Option<PaymentSelection>,
    additionalData: AdditionalData,
    purchaser: Option<Person>,
    billingAddress: Option<Address>,
    totalitems: seq<Totalitem>)

  /** A delivery that carries the given code. */
  predicate HasCode(d: Delivery, code: string)
  {
    d.deliveryInfo.code == code
  }

  /** Position of the first delivery with the given code. */
  function DeliveryIndex(deliveries: seq<Delivery>, code: string): Option<nat>
  {
    SeqEdit.FirstIndex(deliveries, (d: Delivery) => HasCode(d, code))
  }

  /** `Cart.HasDeliveryForCode`. */
  predicate HasDeliveryForCode(cart: Cart, code: string)
  {
    exists i :: 0 <= i < |cart.deliveries| && HasCode(cart.deliveries[i], code)
  }

  lemma DeliveryIndexFindsFirst(cart: Cart, code: string)
    ensures DeliveryIndex(cart.deliveries, code).Some? <==> HasDeliveryForCode(cart, code)
    ensures DeliveryIndex(cart.deliveries, code).Some? ==>
      var i := DeliveryIndex(cart.deliveries, code).value;
      i < |cart.deliveries| && HasCode(cart.deliveries[i], code) &&
      forall j :: 0 <= j < i ==> !HasCode(cart.deliveries[j], code)
  {
  }

  /** `Cart.GetDeliveryByCode`: the first delivery with the code (a copy). */
  function GetDeliveryByCode(cart: Cart, code: string): Option<Delivery>
  {
    match DeliveryIndex(cart.deliveries, code)
    case None => None
    case Some(i) => Some(cart.deliveries[i])
  }
}
