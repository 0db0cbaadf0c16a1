/** `DefaultCartBehaviour`: the in-memory cart adapter. Cart storage is a map from cart id
    to cart; every mutating operation answers with the storage afterwards and either the
    changed cart plus the events it defers, or an error. The comparison of the cart's grand
    total with the payment selection's total (floating point in the source) is the
    `totalsMatch` oracle of the behaviour. */
module CartBehaviour {
  import opened Wrappers
  import opened CartDomain
  import SeqEdit
  import ItemDeletion
  import CartHandlers

  type CartStorage = map<string, Cart>

  datatype DeferredEvent = PaymentSelectionHasBeenResetEvent(cart: Cart, resettedPaymentSelection: Option<PaymentSelection>)

  datatype Changed = Changed(cart: Cart, events: seq<DeferredEvent>)

  datatype Outcome = Outcome(storage: CartStorage, result: Result<Changed>)

  datatype AddRequest = AddRequest(
    marketplaceCode: string,
    variantMarketplaceCode: string,
    qty: int,
    additionalData: map<string, string>)

  datatype ItemUpdateCommand = ItemUpdateCommand(
    itemId: string,
    qty: Option<int>,
    sourceId: Option<string>,
    additionalData: map<string, string>)

  /** The injected collaborators that decide something: the total comparison and the
      voucher and gift-card handlers. */
  datatype Behaviour = Behaviour(
    totalsMatch: (Cart, PaymentSelection) -> bool,
    voucherHandler: CartHandlers.VoucherHandler,
    giftCardHandler: CartHandlers.GiftCardHandler)

  const ErrorPrefix := "cart.infrastructure.DefaultCartBehaviour: "

  const PaymentTotalMismatch := "Payment Total does not match with Grandtotal"

  /** Text of `domaincart.ErrCartNotFound`; its declaration is not part of this model. */
  const ErrCartNotFound := "cart not found"

  function NotExistent(verb: string, id: string): string
  {
    ErrorPrefix + "Cannot " + verb + " - Guestcart with id " + id + " not existent"
  }

  function Fail(storage: CartStorage, error: string): Outcome
  {
    Outcome(storage, Err(error))
  }

  /** `CartStorage.StoreCart` of the in-memory storage: the cart is kept under its id. */
  function StoreCart(storage: CartStorage, cart: Cart): (s: CartStorage)
    ensures cart.id in s && s[cart.id] == cart
  {
    storage[cart.id := cart]
  }

  /** Storage differs from `before` at most in the entry for `id`. */
  predicate OnlyCartChanged(before: CartStorage, after: CartStorage, id: string)
  {
    id in after && after == before[id := after[id]]
  }

  /** A successful outcome whose cart is what storage now holds under its id, with every
      other stored cart untouched. */
  predicate StoredOk(before: CartStorage, o: Outcome)
  {
    o.result.Ok? && OnlyCartChanged(before, o.storage, o.result.value.cart.id) &&
    o.storage[o.result.value.cart.id] == o.result.value.cart
  }

  /** `checkPaymentSelection`: no selection is always valid; otherwise the totals must match. */
  function CheckPaymentSelection(b: Behaviour, cart: Cart, selection: Option<PaymentSelection>): (r: Option<string>)
    ensures r.Some? <==> selection.Some? && !b.totalsMatch(cart, selection.value)
    ensures r.Some? ==> r.value == PaymentTotalMismatch
  {
    match selection
    case None => None
    case Some(s) => if b.totalsMatch(cart, s) then None else Some(PaymentTotalMismatch)
  }

  /** `UpdatePaymentSelection`: a non-nil selection whose total does not match is refused and
      nothing is stored; otherwise the selection is set and the cart stored. It does not check
      that the cart exists. */
  function UpdatePaymentSelection(b: Behaviour, storage: CartStorage, cart: Cart, selection: Option<PaymentSelection>): (r: Outcome)
    ensures r.result.Err? <==> CheckPaymentSelection(b, cart, selection).Some?
    ensures r.result.Err? ==> r.storage == storage && r.result.error == PaymentTotalMismatch
    ensures r.result.Ok? ==>
      StoredOk(storage, r) && r.result.value.events == [] &&
      r.result.value.cart == cart.(paymentSelection := selection)
  {
    if selection.Some? && CheckPaymentSelection(b, cart, selection).Some? then
      Fail(storage, CheckPaymentSelection(b, cart, selection).value)
    else
      var updated := cart.(paymentSelection := selection);
      Outcome(StoreCart(storage, updated), Ok(Changed(updated, [])))
  }

  /** The payment selection is unset because the cart's total no longer matches it. */
  predicate SelectionInvalid(b: Behaviour, cart: Cart)
  {
    cart.paymentSelection.Some? && !b.totalsMatch(cart, cart.paymentSelection.value)
  }

  /** `resetPaymentSelectionIfInvalid`: with no selection or matching totals the cart comes
      back as is and nothing is deferred; on a mismatch the selection is cleared, the cart
      stored again and exactly one reset event deferred, carrying the cleared cart. */
  function ResetPaymentSelectionIfInvalid(b: Behaviour, storage: CartStorage, cart: Cart): (r: Outcome)
    ensures r.result.Ok?
    ensures !SelectionInvalid(b, cart) ==> r == Outcome(storage, Ok(Changed(cart, [])))
    ensures SelectionInvalid(b, cart) ==>
      var c := r.result.value.cart;
      c == cart.(paymentSelection := None) && r.storage == StoreCart(storage, c) &&
      r.result.value.events == [PaymentSelectionHasBeenResetEvent(c, None)]
  {
    if cart.paymentSelection.None? then Outcome(storage, Ok(Changed(cart, [])))
    else if CheckPaymentSelection(b, cart, cart.paymentSelection).Some? then
      var cleared := UpdatePaymentSelection(b, storage, cart, None);
      var c := cleared.result.value;
      Outcome(cleared.storage, Ok(Changed(c.cart, c.events + [PaymentSelectionHasBeenResetEvent(c.cart, None)])))
    else Outcome(storage, Ok(Changed(cart, [])))
  }

  /** The outcome of storing `cart` and re-checking its payment selection: storage holds the
      resulting cart under its id and nothing else changed; that cart is `cart`, with the
      selection cleared when the totals no longer match it; and exactly then one reset event
      carrying the cleared cart is deferred. */
  predicate Revalidated(b: Behaviour, storage: CartStorage, cart: Cart, r: Outcome)
  {
    var c := cart.(paymentSelection := if SelectionInvalid(b, cart) then None else cart.paymentSelection);
    StoredOk(storage, r) &&
    r.result.value == Changed(c, if SelectionInvalid(b, cart) then [PaymentSelectionHasBeenResetEvent(c, None)] else [])
  }

  /** The tail every item-changing operation shares: store the cart, then re-check the
      payment selection against the new totals. */
  function StoreAndRevalidate(b: Behaviour, storage: CartStorage, cart: Cart): (r: Outcome)
    ensures StoredOk(storage, r)
    ensures r.result.value.cart == cart.(paymentSelection := r.result.value.cart.paymentSelection)
    ensures r.result.value.cart.paymentSelection == (if SelectionInvalid(b, cart) then None else cart.paymentSelection)
    ensures r.result.value.events != [] <==> SelectionInvalid(b, cart)
    ensures |r.result.value.events| <= 1
    ensures r.result.value.events ==
      (if SelectionInvalid(b, cart) then [PaymentSelectionHasBeenResetEvent(r.result.value.cart, None)] else [])
    ensures Revalidated(b, storage, cart, r)
  {
    ResetPaymentSelectionIfInvalid(b, StoreCart(storage, cart), cart)
  }

  // ---- deleting items ----

  /** The cart part of `DeleteItem`: run the source's removal loop on the first delivery with
      the code and, if it deleted anything, write that delivery over every delivery carrying
      the code. An unknown delivery code leaves the cart as it is. */
  function RemoveItem(cart: Cart, itemId: string, deliveryCode: string): Cart
  {
    match DeliveryIndex(cart.deliveries, deliveryCode)
    case None => cart
    case Some(i) =>
      var d := cart.deliveries[i];
      var (items, matched) := ItemDeletion.DeleteFromItems(d.cartitems, itemId);
      if matched then
        cart.(deliveries := SeqEdit.ReplaceWhere(cart.deliveries, (x: Delivery) => HasCode(x, deliveryCode), d.(cartitems := items)))
      else cart
  }

  /** `DeleteItem`: refused for a cart not in storage; otherwise the item is removed (see
      `RemoveItem`), the cart stored and the payment selection re-checked. */
  function DeleteItem(b: Behaviour, storage: CartStorage, cart: Cart, itemId: string, deliveryCode: string): (r: Outcome)
    ensures cart.id !in storage ==> r == Fail(storage, NotExistent("delete", cart.id))
    ensures cart.id in storage ==>
      StoredOk(storage, r) &&
      r.result.value.cart == RemoveItem(cart, itemId, deliveryCode).(paymentSelection := r.result.value.cart.paymentSelection)
    ensures cart.id in storage ==> Revalidated(b, storage, RemoveItem(cart, itemId, deliveryCode), r)
  {
    if cart.id !in storage then Fail(storage, NotExistent("delete", cart.id))
    else StoreAndRevalidate(b, storage, RemoveItem(cart, itemId, deliveryCode))
  }

  /** For a delivery whose items carry distinct ids, `DeleteItem` removes exactly the item with
      the given id from the first delivery with the code; deliveries with other codes keep
      their place and contents. */
  lemma RemoveItemFromDelivery(cart: Cart, itemId: string, deliveryCode: string, i: nat, p: nat)
    requires DeliveryIndex(cart.deliveries, deliveryCode) == Some(i)
    requires p < |cart.deliveries[i].cartitems| && cart.deliveries[i].cartitems[p].id == itemId
    requires forall j :: 0 <= j < |cart.deliveries[i].cartitems| && j != p ==> cart.deliveries[i].cartitems[j].id != itemId
    ensures var r := RemoveItem(cart, itemId, deliveryCode);
      var items := cart.deliveries[i].cartitems;
      |r.deliveries| == |cart.deliveries| &&
      r.deliveries[i] == cart.deliveries[i].(cartitems := items[..p] + items[p + 1..]) &&
      (forall j :: 0 <= j < |cart.deliveries| && !HasCode(cart.deliveries[j], deliveryCode) ==> r.deliveries[j] == cart.deliveries[j]) &&
      r == cart.(deliveries := r.deliveries)
  {
    ItemDeletion.DeleteFromItemsUnique(cart.deliveries[i].cartitems, itemId, p);
  }

  /** Deleting from an unknown delivery, or an id no item of that delivery has, changes nothing. */
  lemma RemoveItemNoMatch(cart: Cart, itemId: string, deliveryCode: string)
    requires match DeliveryIndex(cart.deliveries, deliveryCode)
      case None => true
      case Some(i) => ItemDeletion.NoItemWithId(cart.deliveries[i].cartitems, 0, itemId)
    ensures RemoveItem(cart, itemId, deliveryCode) == cart
  {
    match DeliveryIndex(cart.deliveries, deliveryCode)
    case None =>
    case Some(i) =>
      ItemDeletion.DeleteFromItemsAbsent(cart.deliveries[i].cartitems, itemId);
  }

  // ---- updating items ----

  /** The item updates one after another through the `updateItem` oracle (item builder and
      price calculation are not part of this model), stopping at the first error. */
  function ApplyUpdates(cart: Cart, commands: seq<ItemUpdateCommand>, update: (Cart, ItemUpdateCommand) -> Result<Cart>): Result<Cart>
    decreases |commands|
  {
    if |commands| == 0 then Ok(cart)
    else match update(cart, commands[0])
      case Err(e) => Err(e)
      case Ok(next) => ApplyUpdates(next, commands[1..], update)
  }

  /** `UpdateItem`: refused for a cart not in storage or when the update fails; nothing is
      stored in either case. */
  function UpdateItem(b: Behaviour, storage: CartStorage, cart: Cart, command: ItemUpdateCommand,
                      update: (Cart, ItemUpdateCommand) -> Result<Cart>): (r: Outcome)
    ensures cart.id !in storage ==> r == Fail(storage, NotExistent("add", cart.id))
    ensures cart.id in storage && update(cart, command).Err? ==> r == Fail(storage, update(cart, command).error)
    ensures var answer := update(cart, command);
      cart.id in storage && answer.Ok? ==>
        StoredOk(storage, r) &&
        r.result.value.cart == answer.value.(paymentSelection := r.result.value.cart.paymentSelection)
    ensures var answer := update(cart, command);
      cart.id in storage && answer.Ok? ==> Revalidated(b, storage, answer.value, r)
  {
    if cart.id !in storage then Fail(storage, NotExistent("add", cart.id))
    else match update(cart, command)
      case Err(e) => Fail(storage, e)
      case Ok(updated) => StoreAndRevalidate(b, storage, updated)
  }

  /** `UpdateItems`: like `UpdateItem` for a list of commands, with its own error text for a
      missing cart; the first failing command aborts without storing anything. */
  function UpdateItems(b: Behaviour, storage: CartStorage, cart: Cart, commands: seq<ItemUpdateCommand>,
                       update: (Cart, ItemUpdateCommand) -> Result<Cart>): (r: Outcome)
    ensures cart.id !in storage ==> r == Fail(storage, NotExistent("update", cart.id))
    ensures cart.id in storage && ApplyUpdates(cart, commands, update).Err? ==>
      r == Fail(storage, ApplyUpdates(cart, commands, update).error)
    ensures var answer := ApplyUpdates(cart, commands, update);
      cart.id in storage && answer.Ok? ==>
        StoredOk(storage, r) &&
        r.result.value.cart == answer.value.(paymentSelection := r.result.value.cart.paymentSelection)
    ensures var answer := ApplyUpdates(cart, commands, update);
      cart.id in storage && answer.Ok? ==> Revalidated(b, storage, answer.value, r)
    ensures cart.id in storage && |commands| == 0 ==> StoredOk(storage, r) && r.result.value.cart.id == cart.id
  {
    if cart.id !in storage then Fail(storage, NotExistent("update", cart.id))
    else match ApplyUpdates(cart, commands, update)
      case Err(e) => Fail(storage, e)
      case Ok(updated) => StoreAndRevalidate(b, storage, updated)
  }

  /** Updating one item is updating the one-element list, apart from the wording of the
      missing-cart error. */
  lemma UpdateItemIsSingletonUpdateItems(b: Behaviour, storage: CartStorage, cart: Cart, command: ItemUpdateCommand,
                                         update: (Cart, ItemUpdateCommand) -> Result<Cart>)
    requires cart.id in storage
    ensures UpdateItem(b, storage, cart, command, update) == UpdateItems(b, storage, cart, [command], update)
  {
    match update(cart, command)
    case Err(e) =>
    case Ok(next) =>
      assert ApplyUpdates(next, [command][1..], update) == Ok(next);
  }

  // ---- adding items ----

  /** A delivery with nothing but its code, as `new(domaincart.Delivery)` gives. */
  function EmptyDelivery(code: string): Delivery
  {
    Delivery(DeliveryInfo(code, "", map[]), [])
  }

  /** The delivery `AddToCart` works on exists: an empty one is appended when missing. */
  function EnsureDelivery(cart: Cart, deliveryCode: string): (r: Cart)
    ensures HasDeliveryForCode(r, deliveryCode)
    ensures HasDeliveryForCode(cart, deliveryCode) ==> r == cart
    ensures !HasDeliveryForCode(cart, deliveryCode) ==> r == cart.(deliveries := cart.deliveries + [EmptyDelivery(deliveryCode)])
  {
    if HasDeliveryForCode(cart, deliveryCode) then cart
    else
      var r := cart.(deliveries := cart.deliveries + [EmptyDelivery(deliveryCode)]);
      assert HasCode(r.deliveries[|cart.deliveries|], deliveryCode);
      r
  }

  predicate SameProduct(item: Item, marketplaceCode: string)
  {
    item.marketplaceCode == marketplaceCode
  }

  /** The items after adding `item`: it replaces every item with the requested marketplace
      code, or is appended when there is none. */
  function PutItem(items: seq<Item>, marketplaceCode: string, item: Item): seq<Item>
  {
    if exists j :: 0 <= j < |items| && SameProduct(items[j], marketplaceCode) then
      SeqEdit.ReplaceWhere(items, (x: Item) => SameProduct(x, marketplaceCode), item)
    else items + [item]
  }

  /** The cart part of `AddToCart` once the delivery exists: the first delivery with the code
      gets the item, and that delivery is written over every delivery with the code. */
  function AddItem(cart: Cart, deliveryCode: string, marketplaceCode: string, item: Item): Cart
    requires HasDeliveryForCode(cart, deliveryCode)
  {
    var i := DeliveryIndex(cart.deliveries, deliveryCode).value;
    var d := cart.deliveries[i];
    cart.(deliveries := SeqEdit.ReplaceWhere(cart.deliveries, (x: Delivery) => HasCode(x, deliveryCode),
                                             d.(cartitems := PutItem(d.cartitems, marketplaceCode, item))))
  }

  /** `AddToCart`: refused for a cart not in storage, and when building the item (product
      lookup, variant selection) fails. Otherwise the delivery is created if needed, the item
      put into it, the cart stored and the payment selection re-checked. The built item is the
      oracle answer `built`; its random id and external reference are not modelled. */
  function AddToCart(b: Behaviour, storage: CartStorage, cart: Cart, deliveryCode: string,
                     request: AddRequest, built: Result<Item>): (r: Outcome)
    ensures cart.id !in storage ==> r == Fail(storage, NotExistent("add", cart.id))
    ensures cart.id in storage && built.Err? ==> r == Fail(storage, built.error)
    ensures cart.id in storage && built.Ok? ==>
      StoredOk(storage, r) &&
      HasDeliveryForCode(r.result.value.cart, deliveryCode) &&
      r.result.value.cart == AddItem(EnsureDelivery(cart, deliveryCode), deliveryCode, request.marketplaceCode, built.value)
                               .(paymentSelection := r.result.value.cart.paymentSelection)
    ensures cart.id in storage && built.Ok? ==>
      Revalidated(b, storage, AddItem(EnsureDelivery(cart, deliveryCode), deliveryCode, request.marketplaceCode, built.value), r)
  {
    if cart.id !in storage then Fail(storage, NotExistent("add", cart.id))
    else
      var withDelivery := EnsureDelivery(cart, deliveryCode);
      match built
      case Err(e) => Fail(storage, e)
      case Ok(item) =>
        var added := AddItem(withDelivery, deliveryCode, request.marketplaceCode, item);
        AddItemKeepsDelivery(withDelivery, deliveryCode, request.marketplaceCode, item);
        StoreAndRevalidate(b, storage, added)
  }

  lemma AddItemKeepsDelivery(cart: Cart, deliveryCode: string, marketplaceCode: string, item: Item)
    requires HasDeliveryForCode(cart, deliveryCode)
    ensures HasDeliveryForCode(AddItem(cart, deliveryCode, marketplaceCode, item), deliveryCode)
  {
    var i := DeliveryIndex(cart.deliveries, deliveryCode).value;
    assert HasCode(AddItem(cart, deliveryCode, marketplaceCode, item).deliveries[i], deliveryCode);
  }

  /** What adding does to the items of the target delivery: items with the requested
      marketplace code are replaced in place by the new item (the count stays); without one the
      item is appended (the count grows by one). Deliveries with other codes are untouched. */
  lemma AddItemPlacesItem(cart: Cart, deliveryCode: string, marketplaceCode: string, item: Item, i: nat)
    requires DeliveryIndex(cart.deliveries, deliveryCode) == Some(i)
    ensures var r := AddItem(cart, deliveryCode, marketplaceCode, item);
      var before := cart.deliveries[i].cartitems;
      var after := r.deliveries[i].cartitems;
      |r.deliveries| == |cart.deliveries| &&
      r.deliveries[i].deliveryInfo == cart.deliveries[i].deliveryInfo &&
      item in after &&
      ((exists j :: 0 <= j < |before| && SameProduct(before[j], marketplaceCode)) ==>
         |after| == |before| &&
         forall j :: 0 <= j < |before| ==> after[j] == (if SameProduct(before[j], marketplaceCode) then item else before[j])) &&
      ((forall j :: 0 <= j < |before| ==> !SameProduct(before[j], marketplaceCode)) ==> after == before + [item]) &&
      (forall j :: 0 <= j < |cart.deliveries| && !HasCode(cart.deliveries[j], deliveryCode) ==> r.deliveries[j] == cart.deliveries[j])
  {
    var before := cart.deliveries[i].cartitems;
    if exists j :: 0 <= j < |before| && SameProduct(before[j], marketplaceCode) {
      var j :| 0 <= j < |before| && SameProduct(before[j], marketplaceCode);
      assert AddItem(cart, deliveryCode, marketplaceCode, item).deliveries[i].cartitems[j] == item;
    } else {
      assert PutItem(before, marketplaceCode, item)[|before|] == item;
    }
  }

  // ---- cleaning ----

  /** The cart part of `CleanCart`. */
  function Cleaned(cart: Cart): Cart
  {
    cart.(deliveries := [], appliedCouponCodes := [], appliedGiftCards := [], paymentSelection := None,
          additionalData := EmptyAdditionalData, purchaser := None, billingAddress := None, totalitems := [])
  }

  /** `CleanCart`: refused for a cart not in storage; otherwise everything the customer put
      into the cart is dropped and the cart stored, with no payment re-check and no events.
      Identity and ownership stay. */
  function CleanCart(storage: CartStorage, cart: Cart): (r: Outcome)
    ensures cart.id !in storage ==> r == Fail(storage, NotExistent("delete", cart.id))
    ensures cart.id in storage ==>
      StoredOk(storage, r) && r.result.value.events == [] &&
      var c := r.result.value.cart;
      c.deliveries == [] && c.appliedCouponCodes == [] && c.appliedGiftCards == [] &&
      c.paymentSelection.None? && c.additionalData == EmptyAdditionalData && c.purchaser.None? &&
      c.billingAddress.None? && c.totalitems == [] &&
      c.id == cart.id && c.belongsToAuthenticatedUser == cart.belongsToAuthenticatedUser &&
      c.authenticatedUserId == cart.authenticatedUserId
  {
    if cart.id !in storage then Fail(storage, NotExistent("delete", cart.id))
    else
      var c := Cleaned(cart);
      Outcome(StoreCart(storage, c), Ok(Changed(c, [])))
  }

  /** `CleanDelivery`: refused for a cart not in storage and for an unknown code. Otherwise the
      first delivery with the code is removed by moving the last delivery into its slot; the
      cart is stored and the payment selection re-checked. */
  function CleanDelivery(b: Behaviour, storage: CartStorage, cart: Cart, deliveryCode: string): (r: Outcome)
    ensures cart.id !in storage ==> r == Fail(storage, NotExistent("delete", cart.id))
    ensures cart.id in storage && !HasDeliveryForCode(cart, deliveryCode) ==>
      r == Fail(storage, ErrorPrefix + "delivery " + deliveryCode + " not found")
    ensures cart.id in storage && HasDeliveryForCode(cart, deliveryCode) ==>
      StoredOk(storage, r) &&
      var c := r.result.value.cart;
      var i := DeliveryIndex(cart.deliveries, deliveryCode).value;
      c == cart.(deliveries := c.deliveries, paymentSelection := c.paymentSelection) &&
      |c.deliveries| == |cart.deliveries| - 1 &&
      multiset(c.deliveries) == multiset(cart.deliveries) - multiset{cart.deliveries[i]} &&
      (forall j :: 0 <= j < |c.deliveries| && j != i ==> c.deliveries[j] == cart.deliveries[j]) &&
      (i < |c.deliveries| ==> c.deliveries[i] == cart.deliveries[|cart.deliveries| - 1])
    ensures cart.id in storage && HasDeliveryForCode(cart, deliveryCode) ==>
      var i := DeliveryIndex(cart.deliveries, deliveryCode).value;
      Revalidated(b, storage, cart.(deliveries := SeqEdit.SwapRemove(cart.deliveries, i)), r)
  {
    if cart.id !in storage then Fail(storage, NotExistent("delete", cart.id))
    else match DeliveryIndex(cart.deliveries, deliveryCode)
      case None => Fail(storage, ErrorPrefix + "delivery " + deliveryCode + " not found")
      case Some(i) =>
        StoreAndRevalidate(b, storage, cart.(deliveries := SeqEdit.SwapRemove(cart.deliveries, i)))
  }

  // ---- plain setters (no existence check) ----

  /** `UpdatePurchaser`: sets the purchaser and, when given, only the custom attributes of the
      additional data. */
  function UpdatePurchaser(storage: CartStorage, cart: Cart, purchaser: Option<Person>, additionalData: Option<AdditionalData>): (r: Outcome)
    ensures StoredOk(storage, r) && r.result.value.events == []
    ensures var c := r.result.value.cart;
      c.purchaser == purchaser &&
      c.additionalData.reservedOrderId == cart.additionalData.reservedOrderId &&
      c.additionalData.customAttributes ==
        (if additionalData.Some? then additionalData.value.customAttributes else cart.additionalData.customAttributes) &&
      c == cart.(purchaser := c.purchaser, additionalData := c.additionalData)
  {
    var withAttributes := if additionalData.Some? then
        cart.additionalData.(customAttributes := additionalData.value.customAttributes)
      else cart.additionalData;
    var c := cart.(purchaser := purchaser, additionalData := withAttributes);
    Outcome(StoreCart(storage, c), Ok(Changed(c, [])))
  }

  function UpdateBillingAddress(storage: CartStorage, cart: Cart, billingAddress: Address): (r: Outcome)
    ensures StoredOk(storage, r) && r.result.value.events == []
    ensures r.result.value.cart == cart.(billingAddress := Some(billingAddress))
  {
    var c := cart.(billingAddress := Some(billingAddress));
    Outcome(StoreCart(storage, c), Ok(Changed(c, [])))
  }

  function UpdateAdditionalData(storage: CartStorage, cart: Cart, additionalData: AdditionalData): (r: Outcome)
    ensures StoredOk(storage, r) && r.result.value.events == []
    ensures r.result.value.cart == cart.(additionalData := additionalData)
  {
    var c := cart.(additionalData := additionalData);
    Outcome(StoreCart(storage, c), Ok(Changed(c, [])))
  }

  /** The cart part of `UpdateDeliveryInfo`, and whether a delivery had to be appended. */
  function SetDeliveryInfo(cart: Cart, deliveryCode: string, info: DeliveryInfo): (Cart, bool)
  {
    match DeliveryIndex(cart.deliveries, deliveryCode)
    case Some(i) =>
      (cart.(deliveries := cart.deliveries[i := cart.deliveries[i].(deliveryInfo := info)]), false)
    case None =>
      (cart.(deliveries := cart.deliveries + [Delivery(info, [])]), true)
  }

  /** `UpdateDeliveryInfo`: overwrites the info of the first delivery with the code (stored,
      no payment re-check), or appends a new delivery with that info and no items (stored, then
      re-checked). There is no existence check on the cart. The new info may carry a code of
      its own. `info` is the command's info with its additional delivery infos already set
      from the command, the step the source takes before the loop. */
  function UpdateDeliveryInfo(b: Behaviour, storage: CartStorage, cart: Cart, deliveryCode: string, info: DeliveryInfo): (r: Outcome)
    ensures StoredOk(storage, r)
    ensures var c := r.result.value.cart;
      c == cart.(deliveries := c.deliveries, paymentSelection := c.paymentSelection) &&
      match DeliveryIndex(cart.deliveries, deliveryCode)
      case Some(i) =>
        c.deliveries == cart.deliveries[i := Delivery(info, cart.deliveries[i].cartitems)] &&
        c.paymentSelection == cart.paymentSelection && r.result.value.events == []
      case None =>
        c.deliveries == cart.deliveries + [Delivery(info, [])]
    ensures DeliveryIndex(cart.deliveries, deliveryCode).None? ==>
      Revalidated(b, storage, cart.(deliveries := cart.deliveries + [Delivery(info, [])]), r)
  {
    var (updated, appended) := SetDeliveryInfo(cart, deliveryCode, info);
    if !appended then Outcome(StoreCart(storage, updated), Ok(Changed(updated, [])))
    else StoreAndRevalidate(b, storage, updated)
  }

  /** `UpdateDeliveryInfoAdditionalData` is not implemented by the in-memory behaviour: the
      cart comes back as is and nothing is stored. */
  function UpdateDeliveryInfoAdditionalData(storage: CartStorage, cart: Cart, deliveryCode: string, additionalData: AdditionalData): (r: Outcome)
    ensures r == Outcome(storage, Ok(Changed(cart, [])))
  {
    Outcome(storage, Ok(Changed(cart, [])))
  }

  // ---- storage-level operations ----

  /** `Complete`: the cart leaves storage. */
  function Complete(storage: CartStorage, cart: Cart): (r: Outcome)
    ensures r.storage == storage - {cart.id} && r.result == Ok(Changed(cart, []))
  {
    Outcome(storage - {cart.id}, Ok(Changed(cart, [])))
  }

  /** `Restore`: the cart is stored again as given. */
  function Restore(storage: CartStorage, cart: Cart): (r: Outcome)
    ensures StoredOk(storage, r) && r.result.value == Changed(cart, [])
  {
    Outcome(StoreCart(storage, cart), Ok(Changed(cart, [])))
  }

  /** `GetCart`: the stored cart, or `ErrCartNotFound`. */
  function GetCart(storage: CartStorage, cartId: string): (r: Result<Cart>)
    ensures r.Ok? <==> cartId in storage
    ensures r.Ok? ==> r.value == storage[cartId]
    ensures r.Err? ==> r.error == ErrCartNotFound
  {
    if cartId in storage then Ok(storage[cartId]) else Err(ErrCartNotFound)
  }

  /** `StoreNewCart`: refused without an id, otherwise stored. */
  function StoreNewCart(storage: CartStorage, cart: Cart): (r: (CartStorage, Result<Cart>))
    ensures cart.id == "" ==> r == (storage, Err("no id given"))
    ensures cart.id != "" ==> r.1 == Ok(cart) && OnlyCartChanged(storage, r.0, cart.id) && r.0[cart.id] == cart
  {
    if cart.id == "" then (storage, Err("no id given"))
    else (StoreCart(storage, cart), Ok(cart))
  }

  /** A handler's answer stored and re-checked, or its error with nothing stored. */
  function AfterHandler(b: Behaviour, storage: CartStorage, answer: Result<Cart>): (r: Outcome)
    ensures answer.Err? ==> r == Fail(storage, answer.error)
    ensures answer.Ok? ==> StoredOk(storage, r) && r.result.value.cart.id == answer.value.id
    ensures answer.Ok? ==> r.result.value.cart == answer.value.(paymentSelection := r.result.value.cart.paymentSelection)
    ensures answer.Ok? ==> Revalidated(b, storage, answer.value, r)
  {
    match answer
    case Err(e) => Fail(storage, e)
    case Ok(c) => StoreAndRevalidate(b, storage, c)
  }

  function ApplyVoucher(b: Behaviour, storage: CartStorage, cart: Cart, couponCode: string): (r: Outcome)
    ensures var answer := b.voucherHandler.applyVoucher(cart, couponCode);
      answer.Err? ==> r == Fail(storage, answer.error)
    ensures var answer := b.voucherHandler.applyVoucher(cart, couponCode);
      answer.Ok? ==>
        StoredOk(storage, r) &&
        r.result.value.cart == answer.value.(paymentSelection := r.result.value.cart.paymentSelection)
    ensures var answer := b.voucherHandler.applyVoucher(cart, couponCode);
      answer.Ok? ==> Revalidated(b, storage, answer.value, r)
  {
    AfterHandler(b, storage, b.voucherHandler.applyVoucher(cart, couponCode))
  }

  function RemoveVoucher(b: Behaviour, storage: CartStorage, cart: Cart, couponCode: string): (r: Outcome)
    ensures var answer := b.voucherHandler.removeVoucher(cart, couponCode);
      answer.Err? ==> r == Fail(storage, answer.error)
    ensures var answer := b.voucherHandler.removeVoucher(cart, couponCode);
      answer.Ok? ==>
        StoredOk(storage, r) &&
        r.result.value.cart == answer.value.(paymentSelection := r.result.value.cart.paymentSelection)
    ensures var answer := b.voucherHandler.removeVoucher(cart, couponCode);
      answer.Ok? ==> Revalidated(b, storage, answer.value, r)
  {
    AfterHandler(b, storage, b.voucherHandler.removeVoucher(cart, couponCode))
  }

  function ApplyGiftCard(b: Behaviour, storage: CartStorage, cart: Cart, giftCardCode: string): (r: Outcome)
    ensures var answer := b.giftCardHandler.applyGiftCard(cart, giftCardCode);
      answer.Err? ==> r == Fail(storage, answer.error)
    ensures var answer := b.giftCardHandler.applyGiftCard(cart, giftCardCode);
      answer.Ok? ==>
        StoredOk(storage, r) &&
        r.result.value.cart == answer.value.(paymentSelection := r.result.value.cart.paymentSelection)
    ensures var answer := b.giftCardHandler.applyGiftCard(cart, giftCardCode);
      answer.Ok? ==> Revalidated(b, storage, answer.value, r)
  {
    AfterHandler(b, storage, b.giftCardHandler.applyGiftCard(cart, giftCardCode))
  }

  function RemoveGiftCard(b: Behaviour, storage: CartStorage, cart: Cart, giftCardCode: string): (r: Outcome)
    ensures var answer := b.giftCardHandler.removeGiftCard(cart, giftCardCode);
      answer.Err? ==> r == Fail(storage, answer.error)
    ensures var answer := b.giftCardHandler.removeGiftCard(cart, giftCardCode);
      answer.Ok? ==>
        StoredOk(storage, r) &&
        r.result.value.cart == answer.value.(paymentSelection := r.result.value.cart.paymentSelection)
    ensures var answer := b.giftCardHandler.removeGiftCard(cart, giftCardCode);
      answer.Ok? ==> Revalidated(b, storage, answer.value, r)
  {
    AfterHandler(b, storage, b.giftCardHandler.removeGiftCard(cart, giftCardCode))
  }

  /** `ApplyAny`: the code as a voucher, and only if that fails, as a gift card on the
      original cart. */
  function ApplyAny(b: Behaviour, storage: CartStorage, cart: Cart, anyCode: string): (r: Outcome)
    ensures b.voucherHandler.applyVoucher(cart, anyCode).Ok? ==> r == ApplyVoucher(b, storage, cart, anyCode)
    ensures b.voucherHandler.applyVoucher(cart, anyCode).Err? ==> r == ApplyGiftCard(b, storage, cart, anyCode)
  {
    var asVoucher := ApplyVoucher(b, storage, cart, anyCode);
    if asVoucher.result.Ok? then asVoucher else ApplyGiftCard(b, storage, cart, anyCode)
  }

  /** With the default handlers, "valid" is taken as a voucher and never reaches the gift-card
      handler, while "valid_giftcard" fails as a voucher and is applied as a gift card. */
  lemma ApplyAnyWithDefaultHandlers(b: Behaviour, storage: CartStorage, cart: Cart)
    requires b.voucherHandler == CartHandlers.DefaultVoucherHandler
    requires b.giftCardHandler == CartHandlers.DefaultGiftCardHandler
    ensures var r := ApplyAny(b, storage, cart, "valid");
      r.result.Ok? && r.result.value.cart.appliedCouponCodes == cart.appliedCouponCodes + [CouponCode("valid")] &&
      r.result.value.cart.appliedGiftCards == cart.appliedGiftCards
    ensures var r := ApplyAny(b, storage, cart, "valid_giftcard");
      r.result.Ok? && r.result.value.cart.appliedCouponCodes == cart.appliedCouponCodes &&
      r.result.value.cart.appliedGiftCards == cart.appliedGiftCards + [CartHandlers.DefaultGiftCard("valid_giftcard")]
  {
  }
}
