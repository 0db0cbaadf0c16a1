/** The item-removal loop of `DefaultCartBehaviour.DeleteItem`.

    The source ranges over a delivery's item slice and, on every item with the wanted id,
    shrinks that same slice in place with `append(s[:k], s[k+1:]...)` (or re-slices it to
    `s[:k]` once its length has dropped to `k` or below). Go evaluates the range operand once,
    so the loop keeps visiting every slot of the original backing array while the slice
    header in front of it shrinks and may even grow back. The model follows that backing
    array and length exactly. */
module ItemDeletion {
  import opened CartDomain

  /** The loop from iteration `k` on: `arr` is the backing array (fixed length, the original
      item count), `len` the current length of the item slice, `matched` whether an earlier
      iteration already deleted. Returns the final slice and whether anything matched. */
  function RangeDelete(arr: seq<Item>, len: nat, k: nat, id: string, matched: bool): (seq<Item>, bool)
    requires len <= |arr| && k <= |arr|
    decreases |arr| - k
  {
    if k == |arr| then (arr[..len], matched)
    else if arr[k].id != id then RangeDelete(arr, len, k + 1, id, matched)
    else if len > k then
      // append(s[:k], s[k+1:]...) copies s[k+1..len] one slot down; slots from len-1 keep their values
      RangeDelete(arr[..k] + arr[k + 1..len] + arr[len - 1..], len - 1, k + 1, id, true)
    else
      // s = s[:k] re-slices within the capacity
      RangeDelete(arr, k, k + 1, id, true)
  }

  /** The whole loop over a delivery's items. */
  function DeleteFromItems(items: seq<Item>, id: string): (seq<Item>, bool)
  {
    RangeDelete(items, |items|, 0, id, false)
  }

  predicate NoItemWithId(s: seq<Item>, from: nat, id: string)
  {
    forall j :: from <= j < |s| ==> s[j].id != id
  }

  /** Iterations that meet no matching item change nothing. */
  lemma {:induction false} RangeDeleteSkips(arr: seq<Item>, len: nat, k: nat, id: string, matched: bool)
    requires len <= |arr| && k <= |arr|
    requires NoItemWithId(arr, k, id)
    ensures RangeDelete(arr, len, k, id, matched) == (arr[..len], matched)
    decreases |arr| - k
  {
    if k < |arr| {
      RangeDeleteSkips(arr, len, k + 1, id, matched);
    }
  }

  /** Advancing over a stretch without matches. */
  lemma {:induction false} RangeDeleteAdvance(arr: seq<Item>, len: nat, k: nat, p: nat, id: string, matched: bool)
    requires len <= |arr| && k <= p <= |arr|
    requires forall j :: k <= j < p ==> arr[j].id != id
    ensures RangeDelete(arr, len, k, id, matched) == RangeDelete(arr, len, p, id, matched)
    decreases p - k
  {
    if k < p {
      RangeDeleteAdvance(arr, len, k + 1, p, id, matched);
    }
  }

  /** No item with the id: the items come back unchanged and nothing is reported as deleted. */
  lemma DeleteFromItemsAbsent(items: seq<Item>, id: string)
    requires NoItemWithId(items, 0, id)
    ensures DeleteFromItems(items, id) == (items, false)
  {
    RangeDeleteSkips(items, |items|, 0, id, false);
    assert items[..|items|] == items;
  }

  /** Exactly one item with the id (item ids are random and so distinct in practice): that
      item is removed and the others keep their order. */
  lemma DeleteFromItemsUnique(items: seq<Item>, id: string, p: nat)
    requires p < |items| && items[p].id == id
    requires forall j :: 0 <= j < |items| && j != p ==> items[j].id != id
    ensures DeleteFromItems(items, id) == (items[..p] + items[p + 1..], true)
  {
    var n := |items|;
    RangeDeleteAdvance(items, n, 0, p, id, false);
    var arr := items[..p] + items[p + 1..n] + items[n - 1..];
    assert |arr| == n;
    forall j | p + 1 <= j < n
      ensures arr[j].id != id
    {
      if j < n - 1 {
        assert arr[j] == items[j + 1];
      } else {
        assert arr[j] == items[n - 1];
      }
    }
    RangeDeleteSkips(arr, n - 1, p + 1, id, true);
    assert arr[..n - 1] == items[..p] + items[p + 1..];
  }

  /** With the id on three items the loop removes only the first: after that deletion the
      range re-reads shifted slots, and the `s[:k]` branch grows the slice back. */
  lemma DeleteFromItemsRepeatedId(a: Item, b: Item, c: Item)
    requires a.id == b.id == c.id
    ensures DeleteFromItems([a, b, c], a.id) == ([b, c], true)
  {
    var s0 := [a, b, c];
    var s1 := s0[..0] + s0[1..3] + s0[2..];
    assert s1 == [b, c, c];
    var s2 := s1[..1] + s1[2..2] + s1[1..];
    assert s2 == [b, c, c];
    assert DeleteFromItems(s0, a.id) == RangeDelete(s1, 2, 1, a.id, true);
    assert RangeDelete(s1, 2, 1, a.id, true) == RangeDelete(s2, 1, 2, a.id, true);
    assert RangeDelete(s2, 1, 2, a.id, true) == RangeDelete(s2, 2, 3, a.id, true);
    assert s2[..2] == [b, c];
  }
}
