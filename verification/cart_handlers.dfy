/** The pluggable voucher and gift-card handlers of the in-memory cart behaviour, and the
    default implementations it ships with. A handler answers with the changed cart or an
    error; projects may inject their own, so the behaviour takes them as parameters. */
module CartHandlers {
  import opened Wrappers
  import opened CartDomain
  import SeqEdit

  datatype VoucherHandler = VoucherHandler(
    applyVoucher: (Cart, string) -> Result<Cart>,
    removeVoucher: (Cart, string) -> Result<Cart>)

  datatype GiftCardHandler = GiftCardHandler(
    applyGiftCard: (Cart, string) -> Result<Cart>,
    removeGiftCard: (Cart, string) -> Result<Cart>)

  const CodeInvalid := "Code invalid"

  predicate IsValidVoucherCode(code: string)
  {
    code == "valid_voucher" || code == "valid"
  }

  predicate IsValidGiftCardCode(code: string)
  {
    code == "valid_giftcard" || code == "valid"
  }

  /** The gift card the default handler applies: 10/100 dollars applied, nothing remaining. */
  function DefaultGiftCard(code: string): AppliedGiftCard
  {
    AppliedGiftCard(code, Price(10.0 / 100.0, "$"), Price(0.0 / 100.0, "$"))
  }

  /** `DefaultVoucherHandler.ApplyVoucher`: accepts exactly the two demo codes. */
  function DefaultApplyVoucher(cart: Cart, couponCode: string): (r: Result<Cart>)
    ensures r.Ok? <==> IsValidVoucherCode(couponCode)
    ensures r.Err? ==> r.error == CodeInvalid
    ensures r.Ok? ==> r.value == cart.(appliedCouponCodes := r.value.appliedCouponCodes)
    ensures r.Ok? ==> r.value.appliedCouponCodes == cart.appliedCouponCodes + [CouponCode(couponCode)]
  {
    if !IsValidVoucherCode(couponCode) then Err(CodeInvalid)
    else Ok(cart.(appliedCouponCodes := cart.appliedCouponCodes + [CouponCode(couponCode)]))
  }

  /** Slot `i` holds the first coupon with the code. */
  predicate IsFirstCoupon(s: seq<CouponCode>, code: string, i: int)
  {
    0 <= i < |s| && s[i].code == code && forall k :: 0 <= k < i ==> s[k].code != code
  }

  /** `DefaultVoucherHandler.RemoveVoucher`: swap-removes the first coupon with the code;
      an absent code is not an error. */
  function DefaultRemoveVoucher(cart: Cart, couponCode: string): (r: Result<Cart>)
    ensures r.Ok?
    ensures r.value == cart.(appliedCouponCodes := r.value.appliedCouponCodes)
    ensures CouponCode(couponCode) !in cart.appliedCouponCodes ==> r.value == cart
    ensures CouponCode(couponCode) in cart.appliedCouponCodes ==>
      |r.value.appliedCouponCodes| == |cart.appliedCouponCodes| - 1
    ensures multiset(r.value.appliedCouponCodes) ==
      multiset(cart.appliedCouponCodes) - multiset{CouponCode(couponCode)}
    // the last coupon moves into the removed one's slot; every other coupon keeps its place
    ensures var s, s' := cart.appliedCouponCodes, r.value.appliedCouponCodes;
      forall i | IsFirstCoupon(s, couponCode, i) :: SeqEdit.SwappedOut(s, s', i)
  {
    var coupons := cart.appliedCouponCodes;
    match SeqEdit.FirstIndex(coupons, (c: CouponCode) => c.code == couponCode)
    case None =>
      assert CouponCode(couponCode) !in coupons;
      Ok(cart)
    case Some(i) =>
      assert coupons[i] == CouponCode(couponCode);
      assert IsFirstCoupon(coupons, couponCode, i);
      assert forall i' | IsFirstCoupon(coupons, couponCode, i') :: i' == i;
      Ok(cart.(appliedCouponCodes := SeqEdit.SwapRemove(coupons, i)))
  }

  /** `DefaultGiftCardHandler.ApplyGiftCard`: accepts exactly the two demo codes. */
  function DefaultApplyGiftCard(cart: Cart, giftCardCode: string): (r: Result<Cart>)
    ensures r.Ok? <==> IsValidGiftCardCode(giftCardCode)
    ensures r.Err? ==> r.error == CodeInvalid
    ensures r.Ok? ==> r.value == cart.(appliedGiftCards := r.value.appliedGiftCards)
    ensures r.Ok? ==> r.value.appliedGiftCards == cart.appliedGiftCards + [DefaultGiftCard(giftCardCode)]
  {
    if !IsValidGiftCardCode(giftCardCode) then Err(CodeInvalid)
    else Ok(cart.(appliedGiftCards := cart.appliedGiftCards + [DefaultGiftCard(giftCardCode)]))
  }

  predicate GiftCardCodeIs(g: AppliedGiftCard, code: string)
  {
    g.code == code
  }

  /** Slot `i` holds the first gift card with the code. */
  predicate IsFirstGiftCard(s: seq<AppliedGiftCard>, code: string, i: int)
  {
    0 <= i < |s| && GiftCardCodeIs(s[i], code) && forall k :: 0 <= k < i ==> !GiftCardCodeIs(s[k], code)
  }

  /** `DefaultGiftCardHandler.RemoveGiftCard`: swap-removes the first gift card with the
      code; an absent code is not an error. */
  function DefaultRemoveGiftCard(cart: Cart, giftCardCode: string): (r: Result<Cart>)
    ensures r.Ok?
    ensures r.value == cart.(appliedGiftCards := r.value.appliedGiftCards)
    ensures (forall j :: 0 <= j < |cart.appliedGiftCards| ==> !GiftCardCodeIs(cart.appliedGiftCards[j], giftCardCode))
      ==> r.value == cart
    ensures forall j :: 0 <= j < |cart.appliedGiftCards| && GiftCardCodeIs(cart.appliedGiftCards[j], giftCardCode) ==>
      exists i :: 0 <= i <= j && GiftCardCodeIs(cart.appliedGiftCards[i], giftCardCode) &&
        multiset(r.value.appliedGiftCards) == multiset(cart.appliedGiftCards) - multiset{cart.appliedGiftCards[i]}
    // the last gift card moves into the removed one's slot; every other card keeps its place
    ensures var s, s' := cart.appliedGiftCards, r.value.appliedGiftCards;
      forall i | IsFirstGiftCard(s, giftCardCode, i) :: SeqEdit.SwappedOut(s, s', i)
  {
    var cards := cart.appliedGiftCards;
    match SeqEdit.FirstIndex(cards, (g: AppliedGiftCard) => GiftCardCodeIs(g, giftCardCode))
    case None =>
      assert forall j | 0 <= j < |cards| :: !GiftCardCodeIs(cards[j], giftCardCode);
      Ok(cart)
    case Some(i) =>
      assert IsFirstGiftCard(cards, giftCardCode, i);
      assert forall i' | IsFirstGiftCard(cards, giftCardCode, i') :: i' == i;
      var rest := SeqEdit.SwapRemove(cards, i);
      assert SeqEdit.SwappedOut(cards, rest, i);
      Ok(cart.(appliedGiftCards := rest))
  }

  const DefaultVoucherHandler := VoucherHandler(DefaultApplyVoucher, DefaultRemoveVoucher)

  const DefaultGiftCardHandler := GiftCardHandler(DefaultApplyGiftCard, DefaultRemoveGiftCard)

  /** Applying a valid voucher and removing it again gives back the same coupons, up to
      order (swap-removal may move the last coupon). */
  lemma VoucherApplyRemoveRoundTrip(cart: Cart, couponCode: string)
    requires IsValidVoucherCode(couponCode)
    ensures var applied := DefaultApplyVoucher(cart, couponCode).value;
      var removed := DefaultRemoveVoucher(applied, couponCode).value;
      removed.(appliedCouponCodes := cart.appliedCouponCodes) == cart &&
      multiset(removed.appliedCouponCodes) == multiset(cart.appliedCouponCodes)
  {
    var applied := DefaultApplyVoucher(cart, couponCode).value;
    assert CouponCode(couponCode) in applied.appliedCouponCodes;
  }

  /** The same round trip for gift cards, when the cart held no card with that code before. */
  lemma GiftCardApplyRemoveRoundTrip(cart: Cart, giftCardCode: string)
    requires IsValidGiftCardCode(giftCardCode)
    requires forall j :: 0 <= j < |cart.appliedGiftCards| ==> !GiftCardCodeIs(cart.appliedGiftCards[j], giftCardCode)
    ensures var applied := DefaultApplyGiftCard(cart, giftCardCode).value;
      var removed := DefaultRemoveGiftCard(applied, giftCardCode).value;
      removed.(appliedGiftCards := cart.appliedGiftCards) == cart &&
      multiset(removed.appliedGiftCards) == multiset(cart.appliedGiftCards)
  {
    var applied := DefaultApplyGiftCard(cart, giftCardCode).value;
    var n := |cart.appliedGiftCards|;
    assert applied.appliedGiftCards[n] == DefaultGiftCard(giftCardCode);
    assert multiset(applied.appliedGiftCards) == multiset(cart.appliedGiftCards) + multiset{DefaultGiftCard(giftCardCode)};
  }
}
