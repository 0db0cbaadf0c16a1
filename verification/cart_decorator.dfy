/** `DecoratedCartFactory` and the getters of `DecoratedCart`, `DecoratedDelivery` and
    `DecoratedCartItem`: every cart item paired with the product it refers to. */
module CartDecorator {
  import opened Wrappers
  import opened CartDomain
  import opened ProductDomain
  import SeqEdit

  /** An item and its product; `None` is a nil `Product` interface. */
  datatype DecoratedCartItem = DecoratedCartItem(item: Item, product: Option<Product>)

  datatype DecoratedDelivery = DecoratedDelivery(delivery: Delivery, decoratedItems: seq<DecoratedCartItem>)

  datatype DecoratedCart = DecoratedCart(cart: Cart, decoratedDeliveries: seq<DecoratedDelivery>)

  const OutdatedSuffix := "[outdated]"

  /** The stand-in product for an item whose product cannot be shown: a simple product
      carrying only the item's product name, marked outdated. */
  function Placeholder(item: Item): Product
  {
    SimpleProduct(BasicProductData(item.productName + OutdatedSuffix, "", ""))
  }

  /** `decorateCartItem`. A failed lookup yields the placeholder only when no product came
      back with the error; with a product alongside the error, the product stays unset. A
      configurable product is replaced by the configurable with the item's variant active,
      or by the placeholder when that variant cannot be selected. */
  function DecorateCartItem(o: ProductOracles, item: Item): (r: DecoratedCartItem)
    ensures r.item == item
    ensures r.product.None? <==> o.get(item.marketplaceCode).Failed? && o.get(item.marketplaceCode).partial.Some?
    ensures (match o.get(item.marketplaceCode)
             case Failed(_, partial) => partial.None?
             case Found(p) => p.ConfigurableProduct? && o.withActiveVariant(p, item.variantMarketplaceCode).Err?)
      ==> r.product == Some(Placeholder(item))
    ensures o.get(item.marketplaceCode).Found? && !o.get(item.marketplaceCode).product.ConfigurableProduct? ==>
      r.product == Some(o.get(item.marketplaceCode).product)
    ensures var answer := o.get(item.marketplaceCode);
      answer.Found? && answer.product.ConfigurableProduct? &&
      o.withActiveVariant(answer.product, item.variantMarketplaceCode).Ok? ==>
        r.product == Some(ConfigurableProductWithActiveVariant(
          o.withActiveVariant(answer.product, item.variantMarketplaceCode).value, item.variantMarketplaceCode))
    ensures r.product.Some? ==> !r.product.value.ConfigurableProduct?
  {
    match o.get(item.marketplaceCode)
    case Failed(_, partial) =>
      if partial.None? then DecoratedCartItem(item, Some(Placeholder(item)))
      else DecoratedCartItem(item, None)
    case Found(p) =>
      if Type(p) == TypeConfigurable && p.ConfigurableProduct? then
        match o.withActiveVariant(p, item.variantMarketplaceCode)
        case Err(_) => DecoratedCartItem(item, Some(Placeholder(item)))
        case Ok(data) => DecoratedCartItem(item, Some(ConfigurableProductWithActiveVariant(data, item.variantMarketplaceCode)))
      else DecoratedCartItem(item, Some(p))
  }

  /** `DecoratedCartItem.IsConfigurable`. */
  predicate IsConfigurable(d: DecoratedCartItem)
  {
    d.product.Some? && Type(d.product.value) == TypeConfigurableWithActiveVariant
  }

  /** A decorated item is configurable exactly when the product service already returned a
      product with an active variant, or returned a configurable product whose variant for
      the item could be selected. A nil product is never configurable. */
  lemma DecoratedItemConfigurable(o: ProductOracles, item: Item)
    ensures IsConfigurable(DecorateCartItem(o, item)) <==>
      match o.get(item.marketplaceCode)
      case Failed(_, _) => false
      case Found(p) =>
        Type(p) == TypeConfigurableWithActiveVariant ||
        (p.ConfigurableProduct? && o.withActiveVariant(p, item.variantMarketplaceCode).Ok?)
    ensures DecorateCartItem(o, item).product.None? ==> !IsConfigurable(DecorateCartItem(o, item))
  {
  }

  /** `CreateDecorateCartItems`: one decorated item per item, in order. */
  function DecorateItems(o: ProductOracles, items: seq<Item>): (r: seq<DecoratedCartItem>)
    ensures |r| == |items|
    ensures forall j :: 0 <= j < |items| ==> r[j] == DecorateCartItem(o, items[j]) && r[j].item == items[j]
  {
    seq(|items|, j requires 0 <= j < |items| => DecorateCartItem(o, items[j]))
  }

  function DecorateDeliveries(o: ProductOracles, deliveries: seq<Delivery>): (r: seq<DecoratedDelivery>)
    ensures |r| == |deliveries|
    ensures forall i :: 0 <= i < |deliveries| ==>
      r[i].delivery == deliveries[i] && r[i].decoratedItems == DecorateItems(o, deliveries[i].cartitems)
  {
    seq(|deliveries|, i requires 0 <= i < |deliveries| =>
      DecoratedDelivery(deliveries[i], DecorateItems(o, deliveries[i].cartitems)))
  }

  /** `DecoratedCartFactory.Create`: the cart, with one decorated delivery per delivery in
      order, each holding one decorated item per item in order. */
  function Create(o: ProductOracles, cart: Cart): (r: DecoratedCart)
    ensures r.cart == cart
    ensures |r.decoratedDeliveries| == |cart.deliveries|
    ensures forall i :: 0 <= i < |cart.deliveries| ==>
      var dd := r.decoratedDeliveries[i];
      dd.delivery == cart.deliveries[i] && |dd.decoratedItems| == |cart.deliveries[i].cartitems| &&
      forall j :: 0 <= j < |dd.decoratedItems| ==> dd.decoratedItems[j] == DecorateCartItem(o, cart.deliveries[i].cartitems[j])
  {
    DecoratedCart(cart, DecorateDeliveries(o, cart.deliveries))
  }

  /** The decorated items of the deliveries one after another. */
  function ConcatDecorated(ds: seq<DecoratedDelivery>): seq<DecoratedCartItem>
  {
    if |ds| == 0 then [] else ConcatDecorated(ds[..|ds| - 1]) + ds[|ds| - 1].decoratedItems
  }

  /** The plain items of the deliveries one after another. */
  function ConcatItems(ds: seq<Delivery>): seq<Item>
  {
    if |ds| == 0 then [] else ConcatItems(ds[..|ds| - 1]) + ds[|ds| - 1].cartitems
  }

  function ItemsOf(ds: seq<DecoratedCartItem>): (r: seq<Item>)
    ensures |r| == |ds| && forall j :: 0 <= j < |ds| ==> r[j] == ds[j].item
  {
    seq(|ds|, j requires 0 <= j < |ds| => ds[j].item)
  }

  /** `DecoratedCart.GetAllDecoratedItems`: the decorated items of all deliveries, delivery
      after delivery; every delivery's items are in it, and nothing else is. */
  function GetAllDecoratedItems(dc: DecoratedCart): (r: seq<DecoratedCartItem>)
    ensures var ds := dc.decoratedDeliveries;
      forall i, j :: 0 <= i < |ds| && 0 <= j < |ds[i].decoratedItems| ==> ds[i].decoratedItems[j] in r
    ensures var ds := dc.decoratedDeliveries;
      forall x :: x in r ==> exists i :: 0 <= i < |ds| && x in ds[i].decoratedItems
  {
    AllDecoratedItemsMembers(dc.decoratedDeliveries);
    ConcatDecorated(dc.decoratedDeliveries)
  }

  /** Collecting the decorated items distributes over splitting the deliveries. */
  lemma {:induction false} ConcatDecoratedAppend(a: seq<DecoratedDelivery>, b: seq<DecoratedDelivery>)
    ensures ConcatDecorated(a + b) == ConcatDecorated(a) + ConcatDecorated(b)
    decreases |b|
  {
    if |b| == 0 {
      assert a + b == a;
    } else {
      var n := |b| - 1;
      assert (a + b)[..|a + b| - 1] == a + b[..n];
      ConcatDecoratedAppend(a, b[..n]);
    }
  }

  /** Every decorated item of every delivery appears in `GetAllDecoratedItems`, and nothing
      else does: the result is as long as all deliveries' item lists together. */
  lemma {:induction false} AllDecoratedItemsMembers(ds: seq<DecoratedDelivery>)
    ensures forall i, j :: 0 <= i < |ds| && 0 <= j < |ds[i].decoratedItems| ==> ds[i].decoratedItems[j] in ConcatDecorated(ds)
    ensures forall x :: x in ConcatDecorated(ds) ==> exists i :: 0 <= i < |ds| && x in ds[i].decoratedItems
  {
    if |ds| > 0 {
      var n := |ds| - 1;
      AllDecoratedItemsMembers(ds[..n]);
      forall i, j | 0 <= i < |ds| && 0 <= j < |ds[i].decoratedItems|
        ensures ds[i].decoratedItems[j] in ConcatDecorated(ds)
      {
        if i < n {
          assert ds[..n][i] == ds[i];
        }
      }
      forall x | x in ConcatDecorated(ds)
        ensures exists i :: 0 <= i < |ds| && x in ds[i].decoratedItems
      {
        if x in ConcatDecorated(ds[..n]) {
          var i :| 0 <= i < n && x in ds[..n][i].decoratedItems;
          assert ds[i] == ds[..n][i];
        }
      }
    }
  }

  /** Decorating loses and adds no item: the items behind `GetAllDecoratedItems` of a created
      cart are the cart's items, delivery by delivery, in order. */
  lemma {:induction false} CreateKeepsAllItems(o: ProductOracles, deliveries: seq<Delivery>)
    ensures ItemsOf(ConcatDecorated(DecorateDeliveries(o, deliveries))) == ConcatItems(deliveries)
  {
    if |deliveries| > 0 {
      var n := |deliveries| - 1;
      var dds := DecorateDeliveries(o, deliveries);
      assert dds[..n] == DecorateDeliveries(o, deliveries[..n]);
      CreateKeepsAllItems(o, deliveries[..n]);
      var front := ConcatDecorated(dds[..n]);
      var last := dds[n].decoratedItems;
      assert ItemsOf(front + last) == ItemsOf(front) + ItemsOf(last);
      assert ItemsOf(last) == deliveries[n].cartitems;
    }
  }

  lemma CreatedCartKeepsAllItems(o: ProductOracles, cart: Cart)
    ensures ItemsOf(GetAllDecoratedItems(Create(o, cart))) == ConcatItems(cart.deliveries)
  {
    CreateKeepsAllItems(o, cart.deliveries);
  }

  predicate DecoratedHasCode(dd: DecoratedDelivery, code: string)
  {
    dd.delivery.deliveryInfo.code == code
  }

  /** `DecoratedCart.GetDecoratedDeliveryByCode`: the first decorated delivery with the code. */
  function GetDecoratedDeliveryByCode(dc: DecoratedCart, code: string): (r: Option<DecoratedDelivery>)
    ensures r.None? <==> forall i :: 0 <= i < |dc.decoratedDeliveries| ==> !DecoratedHasCode(dc.decoratedDeliveries[i], code)
    ensures r.Some? ==>
      exists i :: 0 <= i < |dc.decoratedDeliveries| && r.value == dc.decoratedDeliveries[i] &&
        DecoratedHasCode(r.value, code) && forall j :: 0 <= j < i ==> !DecoratedHasCode(dc.decoratedDeliveries[j], code)
  {
    match SeqEdit.FirstIndex(dc.decoratedDeliveries, (dd: DecoratedDelivery) => DecoratedHasCode(dd, code))
    case None => None
    case Some(i) => Some(dc.decoratedDeliveries[i])
  }

  /** On a created cart, looking a delivery up by code finds the decoration of exactly the
      delivery `Cart.GetDeliveryByCode` finds. */
  lemma DeliveryByCodeAgrees(o: ProductOracles, cart: Cart, code: string)
    ensures var r := GetDecoratedDeliveryByCode(Create(o, cart), code);
      var d := GetDeliveryByCode(cart, code);
      (r.None? <==> d.None?) &&
      (r.Some? ==> r.value.delivery == d.value && r.value.decoratedItems == DecorateItems(o, d.value.cartitems))
  {
    var dds := Create(o, cart).decoratedDeliveries;
    var r := GetDecoratedDeliveryByCode(Create(o, cart), code);
    DeliveryIndexFindsFirst(cart, code);
    if r.Some? {
      var i :| 0 <= i < |dds| && r.value == dds[i] && DecoratedHasCode(r.value, code) &&
        forall j :: 0 <= j < i ==> !DecoratedHasCode(dds[j], code);
      assert HasCode(cart.deliveries[i], code);
    } else {
      forall i | 0 <= i < |cart.deliveries|
        ensures !HasCode(cart.deliveries[i], code)
      {
        assert !DecoratedHasCode(dds[i], code);
      }
    }
  }

  /** `DecoratedDelivery.GetDecoratedCartItemByID`: the first decorated item with the id. */
  function GetDecoratedCartItemById(dd: DecoratedDelivery, id: string): (r: Option<DecoratedCartItem>)
    ensures r.None? <==> forall j :: 0 <= j < |dd.decoratedItems| ==> dd.decoratedItems[j].item.id != id
    ensures r.Some? ==>
      exists j :: 0 <= j < |dd.decoratedItems| && r.value == dd.decoratedItems[j] &&
        r.value.item.id == id && forall k :: 0 <= k < j ==> dd.decoratedItems[k].item.id != id
  {
    match SeqEdit.FirstIndex(dd.decoratedItems, (d: DecoratedCartItem) => d.item.id == id)
    case None => None
    case Some(j) => Some(dd.decoratedItems[j])
  }
}
