/** `Taxes.GetByType` of the cart's GraphQL DTOs. */
module Taxes {
  import opened CartDomain

  datatype Taxes = Taxes(items: seq<Tax>)

  predicate HasType(items: seq<Tax>, taxType: string)
  {
    exists i :: 0 <= i < |items| && items[i].taxType == taxType
  }

  /** The first tax of the given type, or the zero tax when there is none. */
  function GetByType(t: Taxes, taxType: string): (r: Tax)
    ensures HasType(t.items, taxType) ==>
      r.taxType == taxType &&
      exists i :: 0 <= i < |t.items| && r == t.items[i] && forall j :: 0 <= j < i ==> t.items[j].taxType != taxType
    ensures !HasType(t.items, taxType) ==> r == ZeroTax
    decreases |t.items|
  {
    if |t.items| == 0 then ZeroTax
    else if t.items[0].taxType == taxType then t.items[0]
    else
      var rest := Taxes(t.items[1..]);
      assert HasType(t.items, taxType) ==> HasType(rest.items, taxType) by {
        if HasType(t.items, taxType) {
          var i :| 0 <= i < |t.items| && t.items[i].taxType == taxType;
          assert rest.items[i - 1].taxType == taxType;
        }
      }
      var r := GetByType(rest, taxType);
      if HasType(rest.items, taxType) then
        var i :| 0 <= i < |rest.items| && r == rest.items[i] && forall j :: 0 <= j < i ==> rest.items[j].taxType != taxType;
        assert r == t.items[i + 1];
        r
      else r
  }

  /** Looking up in a concatenation: the first list wins when it has a tax of the type. */
  lemma {:induction false} GetByTypeAppend(a: seq<Tax>, b: seq<Tax>, taxType: string)
    ensures GetByType(Taxes(a + b), taxType) == if HasType(a, taxType) then GetByType(Taxes(a), taxType) else GetByType(Taxes(b), taxType)
    decreases |a|
  {
    if |a| > 0 {
      assert (a + b)[1..] == a[1..] + b;
      GetByTypeAppend(a[1..], b, taxType);
      if a[0].taxType != taxType && HasType(a, taxType) {
        var i :| 0 <= i < |a| && a[i].taxType == taxType;
        assert a[1..][i - 1].taxType == taxType;
      }
    } else {
      assert a + b == b;
    }
  }
}
