/** `CommerceSearchQueryResolver.SortOptions`: the sort options of a search result's meta
    data, remapped for GraphQL. Each option offers up to two entries, one per direction it
    supports. */
module SearchSortOptions {
  import opened Wrappers
  import SeqEdit

  /** A `domain.SortOption`: a label and the field to sort by in each direction, empty when
      that direction is not offered. */
  datatype SortOption = SortOption(labelText: string, asc: string, desc: string, selectedAsc: bool, selectedDesc: bool)

  datatype CommerceSearchSortOption = CommerceSearchSortOption(labelText: string, field: string, selected: bool)

  const AscSuffix := " (asc)"
  const DescSuffix := " (desc)"

  function AscEntry(option: SortOption): CommerceSearchSortOption
  {
    CommerceSearchSortOption(option.labelText + AscSuffix, option.asc, option.selectedAsc)
  }

  function DescEntry(option: SortOption): CommerceSearchSortOption
  {
    CommerceSearchSortOption(option.labelText + DescSuffix, option.desc, option.selectedDesc)
  }

  predicate OffersAsc(option: SortOption) { option.asc != "" }

  predicate OffersDesc(option: SortOption) { option.desc != "" }

  /** The entries of one option: ascending first, then descending, each only if offered. */
  function Entries(option: SortOption): (r: seq<CommerceSearchSortOption>)
    ensures |r| == (if OffersAsc(option) then 1 else 0) + (if OffersDesc(option) then 1 else 0)
    ensures OffersAsc(option) ==> r[0] == AscEntry(option)
    ensures OffersDesc(option) ==> r[|r| - 1] == DescEntry(option)
  {
    (if OffersAsc(option) then [AscEntry(option)] else []) +
    (if OffersDesc(option) then [DescEntry(option)] else [])
  }

  /** The options' entries one option after another. */
  function Expand(options: seq<SortOption>): seq<CommerceSearchSortOption>
  {
    if |options| == 0 then [] else Expand(options[..|options| - 1]) + Entries(options[|options| - 1])
  }

  /** `SortOptions`: never fails; the result is the expansion (an empty list for no options). */
  function SortOptions(options: seq<SortOption>): (r: Result<seq<CommerceSearchSortOption>>)
    ensures r.Ok?
    ensures |options| == 0 ==> r.value == []
  {
    Ok(Expand(options))
  }

  /** Expanding distributes over concatenation: the entries of earlier options come first. */
  lemma {:induction false} ExpandAppend(a: seq<SortOption>, b: seq<SortOption>)
    ensures Expand(a + b) == Expand(a) + Expand(b)
    decreases |b|
  {
    if |b| == 0 {
      assert a + b == a;
    } else {
      var n := |b| - 1;
      assert (a + b)[..|a + b| - 1] == a + b[..n];
      ExpandAppend(a, b[..n]);
    }
  }

  /** The result is as long as the number of offered ascending fields plus the number of
      offered descending fields. */
  lemma {:induction false} SortOptionsLength(options: seq<SortOption>)
    ensures |SortOptions(options).value| == |SeqEdit.Filter(options, OffersAsc)| + |SeqEdit.Filter(options, OffersDesc)|
  {
    if |options| > 0 {
      var n := |options| - 1;
      SortOptionsLength(options[..n]);
      assert options == options[..n] + [options[n]];
      SeqEdit.FilterAppend(options[..n], options[n], OffersAsc);
      SeqEdit.FilterAppend(options[..n], options[n], OffersDesc);
    }
  }

  /** Every entry comes from one of the options, as its ascending entry for an offered
      ascending field or its descending entry for an offered descending field. */
  lemma {:induction false} SortOptionsEntriesFromOptions(options: seq<SortOption>)
    ensures forall e :: e in SortOptions(options).value ==>
      exists i :: 0 <= i < |options| &&
        ((OffersAsc(options[i]) && e == AscEntry(options[i])) || (OffersDesc(options[i]) && e == DescEntry(options[i])))
  {
    if |options| > 0 {
      var n := |options| - 1;
      SortOptionsEntriesFromOptions(options[..n]);
      assert SortOptions(options[..n]).value == Expand(options[..n]);
      forall e | e in SortOptions(options).value
        ensures exists i ::
          0 <= i < |options| &&
          ((OffersAsc(options[i]) && e == AscEntry(options[i])) || (OffersDesc(options[i]) && e == DescEntry(options[i])))
      {
        if e in Expand(options[..n]) {
          var i :| 0 <= i < n &&
            ((OffersAsc(options[..n][i]) && e == AscEntry(options[..n][i])) || (OffersDesc(options[..n][i]) && e == DescEntry(options[..n][i])));
          assert options[..n][i] == options[i];
        } else {
          assert e in Entries(options[n]);
        }
      }
    }
  }

  /** Every offered direction of every option shows up as an entry. */
  lemma {:induction false} SortOptionsOffersAll(options: seq<SortOption>)
    ensures forall i :: 0 <= i < |options| && OffersAsc(options[i]) ==> AscEntry(options[i]) in SortOptions(options).value
    ensures forall i :: 0 <= i < |options| && OffersDesc(options[i]) ==> DescEntry(options[i]) in SortOptions(options).value
  {
    if |options| > 0 {
      var n := |options| - 1;
      SortOptionsOffersAll(options[..n]);
      forall i | 0 <= i < n
        ensures options[..n][i] == options[i]
      {
      }
    }
  }
}
