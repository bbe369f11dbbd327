/** The market-pair search shared by the spot-trading page and
    `useMarketPairs`: a blank query restores the whole list, any other query
    keeps, in order, the pairs whose symbol or base asset contains it,
    ignoring ASCII case. */
module PairSearch {
  import opened Text
  import opened Seqs

  /** `handleSearch(value)` over a list of pairs, given how to read a pair's
      symbol and base asset. */
  function Search<P>(pairs: seq<P>, symbolOf: P -> string, baseOf: P -> string, value: string): (r: seq<P>)
    ensures IsBlank(value) ==> r == pairs
    ensures !IsBlank(value) ==> IsSubsequence(r, pairs)
    ensures !IsBlank(value) ==> forall i :: 0 <= i < |r| ==> r[i] in pairs && PairMatches(symbolOf(r[i]), baseOf(r[i]), value)
    ensures !IsBlank(value) ==> forall i :: 0 <= i < |pairs| && PairMatches(symbolOf(pairs[i]), baseOf(pairs[i]), value) ==> pairs[i] in r
  {
    if IsBlank(value) then pairs
    else
      var p := (x: P) => PairMatches(symbolOf(x), baseOf(x), value);
      FilterMembers(pairs, p);
      FilterIsSubsequence(pairs, p);
      Filter(pairs, p)
  }
}
