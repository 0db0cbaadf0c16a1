/** The deprecated grouping getters `DecoratedDelivery.GetGroupedBy` and
    `DecoratedCart.GetGroupedBy`. Items are collected into a map of groups while the group
    keys are remembered in order of first appearance; the keys may then be sorted, and the
    groups are read out in key order. */
module CartGrouping {
  import opened CartDecorator
  import SeqEdit
  import StringOrder

  datatype GroupedDecoratedCartItem = GroupedDecoratedCartItem(decoratedItems: seq<DecoratedCartItem>, group: string)

  const RetailerCodeGrouping := "retailer_code"
  const DefaultGroup := "default"
  const DescendingParam := "DESC"

  /** Grouping by retailer code reads every item's product, so (as the source would
      otherwise dereference a nil interface) every item must have one. */
  predicate Groupable(items: seq<DecoratedCartItem>, group: string)
  {
    group == RetailerCodeGrouping ==> forall j :: 0 <= j < |items| ==> items[j].product.Some?
  }

  /** The key an item is grouped under. The empty key for a missing product is never used:
      `Groupable` excludes it. */
  function GroupKey(item: DecoratedCartItem, group: string): string
  {
    if group == RetailerCodeGrouping then
      if item.product.Some? then item.product.value.baseData.retailerCode else ""
    else DefaultGroup
  }

  function InGroup(group: string, key: string): DecoratedCartItem -> bool
  {
    (x: DecoratedCartItem) => GroupKey(x, group) == key
  }

  function KeysOf(items: seq<DecoratedCartItem>, group: string): (r: seq<string>)
    ensures |r| == |items| && forall j :: 0 <= j < |items| ==> r[j] == GroupKey(items[j], group)
  {
    seq(|items|, j requires 0 <= j < |items| => GroupKey(items[j], group))
  }

  predicate Distinct(s: seq<string>)
  {
    forall i, j :: 0 <= i < j < |s| ==> s[i] != s[j]
  }

  /** The elements of `s` without repetitions, each where it first appears. */
  function FirstAppearance(s: seq<string>): seq<string>
  {
    if |s| == 0 then []
    else
      var d := FirstAppearance(s[..|s| - 1]);
      if s[|s| - 1] in d then d else d + [s[|s| - 1]]
  }

  lemma {:induction false} FirstAppearanceProps(s: seq<string>)
    ensures Distinct(FirstAppearance(s))
    ensures forall x :: x in FirstAppearance(s) <==> x in s
  {
    if |s| > 0 {
      var n := |s| - 1;
      FirstAppearanceProps(s[..n]);
      assert s == s[..n] + [s[n]];
    }
  }

  /** The state of the collecting loop: the group map and the keys in first-appearance order. */
  datatype Collection = Collection(entries: map<string, seq<DecoratedCartItem>>, keys: seq<string>)

  function CollectStep(c: Collection, key: string, item: DecoratedCartItem): Collection
  {
    if key in c.entries then c.(entries := c.entries[key := c.entries[key] + [item]])
    else Collection(c.entries[key := [item]], c.keys + [key])
  }

  /** The collecting loop over the items. */
  function Collect(items: seq<DecoratedCartItem>, group: string): (c: Collection)
    ensures forall k :: k in c.keys <==> k in c.entries
  {
    if |items| == 0 then Collection(map[], [])
    else
      var n := |items| - 1;
      CollectStep(Collect(items[..n], group), GroupKey(items[n], group), items[n])
  }

  /** No item satisfying `p` means an empty filter. */
  lemma FilterNone(s: seq<DecoratedCartItem>, p: DecoratedCartItem -> bool)
    requires forall j :: 0 <= j < |s| ==> !p(s[j])
    ensures SeqEdit.Filter(s, p) == []
  {
  }

  /** The loop's keys are the items' keys in order of first appearance. */
  lemma {:induction false} CollectKeys(items: seq<DecoratedCartItem>, group: string)
    ensures Collect(items, group).keys == FirstAppearance(KeysOf(items, group))
  {
    if |items| > 0 {
      var n := |items| - 1;
      CollectKeys(items[..n], group);
      assert KeysOf(items, group)[..n] == KeysOf(items[..n], group);
    }
  }

  /** One iteration of the loop keeps the group under `k` equal to the filter by `k`. */
  lemma CollectEntryStep(prefix: seq<DecoratedCartItem>, x: DecoratedCartItem, group: string, k: string)
    requires var c := Collect(prefix, group);
      (k in c.entries ==> c.entries[k] == SeqEdit.Filter(prefix, InGroup(group, k))) &&
      (k !in c.entries ==> forall j :: 0 <= j < |prefix| ==> GroupKey(prefix[j], group) != k)
    requires k in Collect(prefix + [x], group).entries
    ensures Collect(prefix + [x], group).entries[k] == SeqEdit.Filter(prefix + [x], InGroup(group, k))
  {
    assert (prefix + [x])[..|prefix|] == prefix;
    SeqEdit.FilterAppend(prefix, x, InGroup(group, k));
    if k !in Collect(prefix, group).entries {
      FilterNone(prefix, InGroup(group, k));
    }
  }

  /** Each group of the loop holds exactly the items with its key, in their original order. */
  lemma {:induction false} CollectEntries(items: seq<DecoratedCartItem>, group: string)
    ensures forall k :: k in Collect(items, group).entries ==>
      Collect(items, group).entries[k] == SeqEdit.Filter(items, InGroup(group, k))
  {
    if |items| > 0 {
      var n := |items| - 1;
      var prefix := items[..n];
      CollectEntries(prefix, group);
      CollectKeys(prefix, group);
      FirstAppearanceProps(KeysOf(prefix, group));
      assert items == prefix + [items[n]];
      forall k | k in Collect(items, group).entries
        ensures Collect(items, group).entries[k] == SeqEdit.Filter(items, InGroup(group, k))
      {
        if k !in Collect(prefix, group).entries {
          forall j | 0 <= j < |prefix|
            ensures GroupKey(prefix[j], group) != k
          {
            assert KeysOf(prefix, group)[j] == GroupKey(prefix[j], group);
          }
        }
        CollectEntryStep(prefix, items[n], group, k);
      }
    }
  }

  /** The direction `params` asks for: descending only when the first parameter is "DESC". */
  predicate Descending(params: seq<string>)
  {
    |params| > 0 && params[0] == DescendingParam
  }

  /** The groups read out of the collection in the order of `keys`. */
  function ReadOut(c: Collection, keys: seq<string>): (r: seq<GroupedDecoratedCartItem>)
    requires forall i :: 0 <= i < |keys| ==> keys[i] in c.entries
    ensures |r| == |keys|
    ensures forall i :: 0 <= i < |keys| ==> r[i] == GroupedDecoratedCartItem(c.entries[keys[i]], keys[i])
  {
    seq(|keys|, i requires 0 <= i < |keys| && keys[i] in c.entries => GroupedDecoratedCartItem(c.entries[keys[i]], keys[i]))
  }

  function GroupNames(groups: seq<GroupedDecoratedCartItem>): (r: seq<string>)
    ensures |r| == |groups| && forall i :: 0 <= i < |groups| ==> r[i] == groups[i].group
  {
    seq(|groups|, i requires 0 <= i < |groups| => groups[i].group)
  }

  lemma {:induction false} DistinctCount(s: seq<string>, x: string)
    requires Distinct(s)
    ensures multiset(s)[x] <= 1
  {
    if |s| > 0 {
      var n := |s| - 1;
      DistinctCount(s[..n], x);
      assert s == s[..n] + [s[n]];
      if s[n] == x {
        assert x !in s[..n];
      }
    }
  }

  /** A rearrangement of a repetition-free sequence is repetition-free. */
  lemma PermutationKeepsDistinct(a: seq<string>, b: seq<string>)
    requires multiset(a) == multiset(b) && Distinct(b)
    ensures Distinct(a)
  {
    forall i, j | 0 <= i < j < |a|
      ensures a[i] != a[j]
    {
      if a[i] == a[j] {
        assert a == a[..i] + [a[i]] + a[i + 1..j] + [a[j]] + a[j + 1..];
        assert multiset(a)[a[i]] >= 2;
        DistinctCount(b, a[i]);
      }
    }
  }

  /** The key order of the result: first appearance, or sorted in the requested direction. */
  function OrderedKeys(keys: seq<string>, sortGroup: bool, params: seq<string>): seq<string>
  {
    if sortGroup then StringOrder.Sort(keys, Descending(params)) else keys
  }

  /** Ordering the keys only rearranges them. */
  lemma OrderedKeysFacts(keys: seq<string>, sortGroup: bool, params: seq<string>)
    requires Distinct(keys)
    ensures multiset(OrderedKeys(keys, sortGroup, params)) == multiset(keys)
    ensures Distinct(OrderedKeys(keys, sortGroup, params))
    ensures forall x :: x in OrderedKeys(keys, sortGroup, params) <==> x in keys
  {
    var ordered := OrderedKeys(keys, sortGroup, params);
    PermutationKeepsDistinct(ordered, keys);
    forall x
      ensures x in ordered <==> x in keys
    {
      assert x in ordered <==> x in multiset(ordered);
      assert x in keys <==> x in multiset(keys);
    }
  }

  /** Every key of the read-out names a group of the loop, no key repeats, and every item's
      key is among them. */
  lemma GroupedByFacts(items: seq<DecoratedCartItem>, group: string, sortGroup: bool, params: seq<string>)
    ensures var c := Collect(items, group);
      var keys := OrderedKeys(c.keys, sortGroup, params);
      (forall i :: 0 <= i < |keys| ==> keys[i] in c.entries) &&
      Distinct(keys) &&
      (forall j :: 0 <= j < |items| ==> GroupKey(items[j], group) in keys)
  {
    var c := Collect(items, group);
    var kk := KeysOf(items, group);
    CollectKeys(items, group);
    FirstAppearanceProps(kk);
    OrderedKeysFacts(c.keys, sortGroup, params);
    var keys := OrderedKeys(c.keys, sortGroup, params);
    forall i | 0 <= i < |keys|
      ensures keys[i] in c.entries
    {
      assert keys[i] in c.keys;
    }
    forall j | 0 <= j < |items|
      ensures GroupKey(items[j], group) in keys
    {
      assert kk[j] == GroupKey(items[j], group);
      assert kk[j] in c.keys;
    }
  }

  /** `DecoratedDelivery.GetGroupedBy`. Every group holds exactly the items with its key, in
      their original order, and no key appears twice. Without `sortGroup` the groups come in
      order of first appearance; with it they are sorted by key, descending when the first
      parameter is "DESC" and ascending otherwise. */
  function GetGroupedBy(dd: DecoratedDelivery, group: string, sortGroup: bool, params: seq<string>): (r: seq<GroupedDecoratedCartItem>)
    requires Groupable(dd.decoratedItems, group)
    ensures Distinct(GroupNames(r))
    ensures forall g :: 0 <= g < |r| ==> r[g].decoratedItems == SeqEdit.Filter(dd.decoratedItems, InGroup(group, r[g].group))
    ensures forall j :: 0 <= j < |dd.decoratedItems| ==> GroupKey(dd.decoratedItems[j], group) in GroupNames(r)
    ensures !sortGroup ==> GroupNames(r) == FirstAppearance(KeysOf(dd.decoratedItems, group))
    ensures sortGroup ==>
      StringOrder.Sorted(GroupNames(r), Descending(params)) &&
      multiset(GroupNames(r)) == multiset(FirstAppearance(KeysOf(dd.decoratedItems, group)))
  {
    var c := Collect(dd.decoratedItems, group);
    var keys := OrderedKeys(c.keys, sortGroup, params);
    GroupedByFacts(dd.decoratedItems, group, sortGroup, params);
    CollectKeys(dd.decoratedItems, group);
    CollectEntries(dd.decoratedItems, group);
    var r := ReadOut(c, keys);
    assert GroupNames(r) == keys;
    r
  }

  /** Groups with distinct keys, each holding exactly the items with its key, and a group for
      every item's key: every item is in exactly one of them. */
  lemma PartitionUnique(items: seq<DecoratedCartItem>, group: string, r: seq<GroupedDecoratedCartItem>, j: nat)
    requires j < |items|
    requires Distinct(GroupNames(r))
    requires forall g :: 0 <= g < |r| ==> r[g].decoratedItems == SeqEdit.Filter(items, InGroup(group, r[g].group))
    requires GroupKey(items[j], group) in GroupNames(r)
    ensures exists g :: 0 <= g < |r| && items[j] in r[g].decoratedItems &&
                        forall h :: 0 <= h < |r| && items[j] in r[h].decoratedItems ==> h == g
  {
    var x := items[j];
    var names := GroupNames(r);
    var g :| 0 <= g < |r| && names[g] == GroupKey(x, group);
    assert InGroup(group, r[g].group)(x);
    assert x in r[g].decoratedItems;
    forall h | 0 <= h < |r| && x in r[h].decoratedItems
      ensures h == g
    {
      var k :| 0 <= k < |r[h].decoratedItems| && r[h].decoratedItems[k] == x;
      assert InGroup(group, r[h].group)(x);
      assert names[h] == names[g];
    }
  }

  /** Each item of the delivery lands in exactly one group. */
  lemma ItemInExactlyOneGroup(dd: DecoratedDelivery, group: string, sortGroup: bool, params: seq<string>, j: nat)
    requires Groupable(dd.decoratedItems, group)
    requires j < |dd.decoratedItems|
    ensures var r := GetGroupedBy(dd, group, sortGroup, params);
      exists g :: 0 <= g < |r| && dd.decoratedItems[j] in r[g].decoratedItems &&
        forall h :: 0 <= h < |r| && dd.decoratedItems[j] in r[h].decoratedItems ==> h == g
  {
    PartitionUnique(dd.decoratedItems, group, GetGroupedBy(dd, group, sortGroup, params), j);
  }

  /** `DecoratedCart.GetGroupedBy`: only a cart with exactly one delivery is grouped (nil
      otherwise), as that delivery would be. */
  function GetGroupedByCart(dc: DecoratedCart, group: string, sortGroup: bool, params: seq<string>): (r: seq<GroupedDecoratedCartItem>)
    requires |dc.decoratedDeliveries| == 1 ==> Groupable(dc.decoratedDeliveries[0].decoratedItems, group)
    ensures |dc.decoratedDeliveries| != 1 ==> r == []
    ensures |dc.decoratedDeliveries| == 1 ==> r == GetGroupedBy(dc.decoratedDeliveries[0], group, sortGroup, params)
  {
    if |dc.decoratedDeliveries| != 1 then []
    else GetGroupedBy(dc.decoratedDeliveries[0], group, sortGroup, params)
  }

  /** For a single-delivery cart the cart-level grouping partitions exactly the cart's
      `GetAllDecoratedItems`: every decorated item is in a group and every grouped item is one
      of them. */
  lemma CartGroupingCoversAllItems(dc: DecoratedCart, group: string, sortGroup: bool, params: seq<string>)
    requires |dc.decoratedDeliveries| == 1
    requires Groupable(dc.decoratedDeliveries[0].decoratedItems, group)
    ensures var r := GetGroupedByCart(dc, group, sortGroup, params);
      var all := GetAllDecoratedItems(dc);
      (forall j :: 0 <= j < |all| ==> GroupKey(all[j], group) in GroupNames(r)) &&
      (forall g, k :: 0 <= g < |r| && 0 <= k < |r[g].decoratedItems| ==> r[g].decoratedItems[k] in all)
  {
    var ds := dc.decoratedDeliveries;
    assert ds[..0] == [];
    assert ConcatDecorated(ds[..0]) == [];
    assert GetAllDecoratedItems(dc) == ds[0].decoratedItems;
  }
}
