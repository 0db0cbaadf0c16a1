/** Sequence edits the in-memory cart behaviour performs on Go slices: first match,
    replace-all-matches, swap-with-last removal and order-preserving filtering. */
module SeqEdit {
  import opened Wrappers

  /** Index of the first element satisfying `p`; `None` when there is none. */
  function FirstIndex<T>(s: seq<T>, p: T -> bool): (r: Option<nat>)
    ensures r.Some? ==> r.value < |s| && p(s[r.value])
    ensures r.Some? ==> forall j :: 0 <= j < r.value ==> !p(s[j])
    ensures r.None? <==> forall j :: 0 <= j < |s| ==> !p(s[j])
  {
    if |s| == 0 then None
    else if p(s[0]) then Some(0)
    else match FirstIndex(s[1..], p)
      case None => None
      case Some(i) => Some(i + 1)
  }

  /** Every element satisfying `p` overwritten by `x`, all others kept in place
      (a Go `for i := range s { if p(s[i]) { s[i] = x } }`). */
  function ReplaceWhere<T>(s: seq<T>, p: T -> bool, x: T): (r: seq<T>)
    ensures |r| == |s|
    ensures forall j :: 0 <= j < |s| && p(s[j]) ==> r[j] == x
    ensures forall j :: 0 <= j < |s| && !p(s[j]) ==> r[j] == s[j]
  {
    seq(|s|, j requires 0 <= j < |s| => if p(s[j]) then x else s[j])
  }

  /** Go's unordered removal: the last element is moved into slot `i` and the slice
      is shortened by one. */
  function SwapRemove<T>(s: seq<T>, i: nat): (r: seq<T>)
    requires i < |s|
    ensures |r| == |s| - 1
    ensures forall j :: 0 <= j < |r| && j != i ==> r[j] == s[j]
    ensures i < |r| ==> r[i] == s[|s| - 1]
    ensures multiset(r) == multiset(s) - multiset{s[i]}
  {
    var last := |s| - 1;
    var r := s[i := s[last]][..last];
    if i == last then
      assert s == r + [s[i]];
      r
    else
      assert r == s[..i] + [s[last]] + s[i + 1..last];
      assert s == s[..i] + [s[i]] + s[i + 1..last] + [s[last]];
      r
  }

  /** Position by position, `r` is what `SwapRemove(s, i)` leaves: the last element sits in
      slot `i` and every other slot keeps its element. */
  predicate SwappedOut<T(==)>(s: seq<T>, r: seq<T>, i: nat)
  {
    |r| == |s| - 1 && (forall j :: 0 <= j < |r| && j != i ==> r[j] == s[j]) && (i < |r| ==> r[i] == s[|s| - 1])
  }

  /** The elements satisfying `p`, in their original order. */
  function Filter<T>(s: seq<T>, p: T -> bool): (r: seq<T>)
    ensures |r| <= |s|
    ensures forall j :: 0 <= j < |r| ==> p(r[j]) && r[j] in s
    ensures forall j :: 0 <= j < |s| && p(s[j]) ==> s[j] in r
  {
    if |s| == 0 then []
    else if p(s[|s| - 1]) then Filter(s[..|s| - 1], p) + [s[|s| - 1]]
    else Filter(s[..|s| - 1], p)
  }

  /** Filtering distributes over concatenation, so a filter can be built element by element. */
  lemma {:induction false} FilterAppend<T>(s: seq<T>, x: T, p: T -> bool)
    ensures Filter(s + [x], p) == if p(x) then Filter(s, p) + [x] else Filter(s, p)
  {
    assert (s + [x])[..|s + [x]| - 1] == s;
  }
}
