/** Go's string ordering and the two sorts `GetGroupedBy` applies to group keys:
    `sort.Strings` (ascending) and `sort.Sort(sort.Reverse(sort.StringSlice(..)))`
    (descending). Go compares strings byte by byte in UTF-8; for well-formed text that is
    the same as comparing code points, which is what `char` comparison does here. */
module StringOrder {

  /** `a` sorts at or before `b` in Go's lexicographic string order. */
  predicate Le(a: string, b: string)
  {
    if |a| == 0 then true
    else if |b| == 0 then false
    else if a[0] != b[0] then a[0] < b[0]
    else Le(a[1..], b[1..])
  }

  lemma {:induction false} LeTotal(a: string, b: string)
    ensures Le(a, b) || Le(b, a)
  {
    if |a| > 0 && |b| > 0 && a[0] == b[0] {
      LeTotal(a[1..], b[1..]);
    }
  }

  lemma {:induction false} LeTransitive(a: string, b: string, c: string)
    requires Le(a, b) && Le(b, c)
    ensures Le(a, c)
  {
    if |a| > 0 && |b| > 0 && |c| > 0 && a[0] == b[0] && b[0] == c[0] {
      LeTransitive(a[1..], b[1..], c[1..]);
    }
  }

  lemma {:induction false} LeAntisymmetric(a: string, b: string)
    requires Le(a, b) && Le(b, a)
    ensures a == b
  {
    if |a| > 0 && |b| > 0 {
      LeAntisymmetric(a[1..], b[1..]);
      assert a == [a[0]] + a[1..];
      assert b == [b[0]] + b[1..];
    }
  }

  /** The order a sort in the given direction must produce between two neighbours. */
  predicate InOrder(a: string, b: string, descending: bool)
  {
    if descending then Le(b, a) else Le(a, b)
  }

  predicate Sorted(s: seq<string>, descending: bool)
  {
    forall i, j :: 0 <= i < j < |s| ==> InOrder(s[i], s[j], descending)
  }

  /** `x` placed before the first element it sorts at or before. */
  function Insert(x: string, s: seq<string>, descending: bool): (r: seq<string>)
    requires Sorted(s, descending)
    ensures Sorted(r, descending)
    ensures multiset(r) == multiset(s) + multiset{x}
  {
    if |s| == 0 then [x]
    else if InOrder(x, s[0], descending) then
      InsertInFront(x, s, descending);
      [x] + s
    else
      LeTotal(x, s[0]);
      var rest := Insert(x, s[1..], descending);
      InsertBehindHead(x, s, rest, descending);
      assert s == [s[0]] + s[1..];
      [s[0]] + rest
  }

  lemma InsertInFront(x: string, s: seq<string>, descending: bool)
    requires Sorted(s, descending) && |s| > 0 && InOrder(x, s[0], descending)
    ensures Sorted([x] + s, descending)
  {
    forall j | 0 < j < |s|
      ensures InOrder(x, s[j], descending)
    {
      if descending { LeTransitive(s[j], s[0], x); } else { LeTransitive(x, s[0], s[j]); }
    }
  }

  lemma InsertBehindHead(x: string, s: seq<string>, rest: seq<string>, descending: bool)
    requires Sorted(s, descending) && |s| > 0 && InOrder(s[0], x, descending)
    requires Sorted(rest, descending)
    requires multiset(rest) == multiset(s[1..]) + multiset{x}
    ensures Sorted([s[0]] + rest, descending)
  {
    forall j | 0 <= j < |rest|
      ensures InOrder(s[0], rest[j], descending)
    {
      assert rest[j] in multiset(rest);
      if rest[j] != x {
        assert rest[j] in multiset(s[1..]);
        var k :| 1 <= k < |s| && s[k] == rest[j];
      }
    }
  }

  /** Insertion sort: the keys in the requested direction. */
  function Sort(s: seq<string>, descending: bool): (r: seq<string>)
    ensures Sorted(r, descending)
    ensures multiset(r) == multiset(s)
  {
    if |s| == 0 then []
    else
      assert s == [s[0]] + s[1..];
      Insert(s[0], Sort(s[1..], descending), descending)
  }

  /** Sorting keys that are pairwise distinct yields a strictly ordered sequence, so the
      result of an unstable sort such as Go's is fully determined. */
  lemma SortedDistinctIsStrict(s: seq<string>, descending: bool, i: int, j: int)
    requires Sorted(s, descending)
    requires forall a, b :: 0 <= a < b < |s| ==> s[a] != s[b]
    requires 0 <= i < j < |s|
    ensures InOrder(s[i], s[j], descending) && !InOrder(s[j], s[i], descending)
  {
    if InOrder(s[j], s[i], descending) {
      LeAntisymmetric(s[i], s[j]);
    }
  }
}
