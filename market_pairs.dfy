/** `useMarketPairs` (src/pages/spotTrading/hooks/useMarketPairs.ts): the
    tradable symbols of the exchange's symbol list, formatted as market pairs
    with their filter defaults, and the pair search. */
module MarketPairs {
  import opened Wrappers
  import opened Seqs
  import opened JsValues
  import opened SpotTypes
  import opened PairSearch

  /** One element of a symbol's `filters`, untyped: the fields a filter of
      its type may carry, None when absent. */
  datatype SymbolFilter = SymbolFilter(
    filterType: string,
    minQty: Option<string>, maxQty: Option<string>, stepSize: Option<string>,
    minNotional: Option<string>, maxNotional: Option<string>,
    bidMultiplierUp: Option<string>, bidMultiplierDown: Option<string>)

  /** One element of the symbol list the service returns. */
  datatype RawSymbol = RawSymbol(
    symbol: string, status: string, baseAsset: string, quoteAsset: string,
    isSpotTradingAllowed: JsValue, lastPrice: Option<string>,
    baseAssetPrecision: Option<int>, quoteAssetPrecision: Option<int>,
    filters: seq<SymbolFilter>)

  /** The status filter: TRADING and `!isSpotTradingAllowed === false`, that
      is, a truthy flag. */
  predicate IsActive(s: RawSymbol) {
    s.status == "TRADING" && Truthy(s.isSpotTradingAllowed)
  }

  /** `filters.find(f => f.filterType === t)`. */
  function FirstFilter(s: RawSymbol, t: string): Option<SymbolFilter> {
    Find(s.filters, (f: SymbolFilter) => f.filterType == t)
  }

  /** The `limitOrder` of a pair, from its first LOT_SIZE filter. */
  function LimitOrderOf(f: Option<SymbolFilter>): LimitOrder
  {
    if f.None? then LimitOrder("0", "0", "0")
    else LimitOrder(TextOr(f.value.minQty, "0"), TextOr(f.value.maxQty, "0"), TextOr(f.value.stepSize, "0"))
  }

  /** The `marketOrder` of a pair, from its first NOTIONAL filter. */
  function MarketOrderOf(f: Option<SymbolFilter>): MarketOrder
  {
    if f.None? then MarketOrder("0", "0")
    else MarketOrder(TextOr(f.value.minNotional, "0"), TextOr(f.value.maxNotional, "0"))
  }

  /** The `priceFilter` of a pair: undefined without a PERCENT_PRICE_BY_SIDE
      filter, else its bid multipliers with 1.2 and 0.8 as fallbacks. */
  function PriceFilterOf(f: Option<SymbolFilter>): Option<PriceFilter>
  {
    if f.None? then None
    else Some(PriceFilter(TextOr(f.value.bidMultiplierUp, "1.2"), TextOr(f.value.bidMultiplierDown, "0.8")))
  }

  /** Filter k is the first of type t. */
  predicate IsFirstOfType(s: RawSymbol, t: string, k: int) {
    0 <= k < |s.filters| && s.filters[k].filterType == t
    && forall j :: 0 <= j < k ==> s.filters[j].filterType != t
  }

  predicate HasNoFilter(s: RawSymbol, t: string) {
    forall j :: 0 <= j < |s.filters| ==> s.filters[j].filterType != t
  }

  /** The `map` body of `getSymbols`: the names are copied, the change is
      always 0.00, absent or falsy values take their fallbacks, and the first
      filter of each type supplies the order limits. */
  function FormatPair(s: RawSymbol): (p: MarketPair)
    ensures p.symbol == s.symbol && p.baseAsset == s.baseAsset && p.quoteAsset == s.quoteAsset
    ensures p.lastPrice == TextOr(s.lastPrice, "0.00") && p.priceChangePercent == "0.00"
    ensures p.baseAssetPrecision == NumberOr(s.baseAssetPrecision, 0)
    ensures p.quoteAssetPrecision == NumberOr(s.quoteAssetPrecision, 0)
    ensures HasNoFilter(s, "LOT_SIZE") ==> p.limitOrder == LimitOrder("0", "0", "0")
    ensures forall k :: IsFirstOfType(s, "LOT_SIZE", k) ==>
      p.limitOrder == LimitOrder(TextOr(s.filters[k].minQty, "0"), TextOr(s.filters[k].maxQty, "0"), TextOr(s.filters[k].stepSize, "0"))
    ensures HasNoFilter(s, "NOTIONAL") ==> p.marketOrder == MarketOrder("0", "0")
    ensures forall k :: IsFirstOfType(s, "NOTIONAL", k) ==>
      p.marketOrder == MarketOrder(TextOr(s.filters[k].minNotional, "0"), TextOr(s.filters[k].maxNotional, "0"))
    ensures p.priceFilter.None? <==> HasNoFilter(s, "PERCENT_PRICE_BY_SIDE")
    ensures forall k :: IsFirstOfType(s, "PERCENT_PRICE_BY_SIDE", k) ==>
      p.priceFilter == Some(PriceFilter(TextOr(s.filters[k].bidMultiplierUp, "1.2"), TextOr(s.filters[k].bidMultiplierDown, "0.8")))
  {
    FirstFilterIs(s, "LOT_SIZE");
    FirstFilterIs(s, "NOTIONAL");
    FirstFilterIs(s, "PERCENT_PRICE_BY_SIDE");
    MarketPair(s.symbol, s.baseAsset, s.quoteAsset, TextOr(s.lastPrice, "0.00"), "0.00",
               NumberOr(s.baseAssetPrecision, 0), NumberOr(s.quoteAssetPrecision, 0),
               LimitOrderOf(FirstFilter(s, "LOT_SIZE")), MarketOrderOf(FirstFilter(s, "NOTIONAL")),
               PriceFilterOf(FirstFilter(s, "PERCENT_PRICE_BY_SIDE")))
  }

  /** `find` on the filter type gives undefined when there is no filter of
      that type and the first one otherwise. */
  lemma FirstFilterIs(s: RawSymbol, t: string)
    ensures HasNoFilter(s, t) <==> FirstFilter(s, t).None?
    ensures forall k :: IsFirstOfType(s, t, k) ==> FirstFilter(s, t) == Some(s.filters[k])
  {
    forall k | IsFirstOfType(s, t, k) ensures FirstFilter(s, t) == Some(s.filters[k]) {
      FindFirst(s.filters, (f: SymbolFilter) => f.filterType == t, k);
    }
  }

  /** The pairs `getSymbols` stores: the i-th one is the formatting of the
      i-th active symbol of the list. */
  function FormatPairs(raw: seq<RawSymbol>): (ps: seq<MarketPair>)
    ensures |ps| == |Filter(raw, IsActive)| <= |raw|
    ensures forall i :: 0 <= i < |ps| ==> ps[i] == FormatPair(Filter(raw, IsActive)[i])
    ensures forall i :: 0 <= i < |ps| ==> exists s :: s in raw && IsActive(s) && ps[i] == FormatPair(s)
  {
    FilterMembers(raw, IsActive);
    Map(Filter(raw, IsActive), FormatPair)
  }

  function SymbolOfPair(p: MarketPair): string { p.symbol }
  function SymbolOfRaw(s: RawSymbol): string { s.symbol }

  /** The stored pairs are the active symbols and only those, in list order:
      their symbols are the active symbols' symbols. */
  lemma {:induction false} FormatPairsSymbols(raw: seq<RawSymbol>)
    ensures Map(FormatPairs(raw), SymbolOfPair) == Map(Filter(raw, IsActive), SymbolOfRaw)
    decreases |raw|
  {
    if raw != [] {
      FormatPairsSymbols(raw[1..]);
    }
  }

  /** The state of one use of the hook. */
  class MarketPairsHook {
    var marketPairs: seq<MarketPair>
    var filteredPairs: seq<MarketPair>
    var isLoading: bool

    constructor ()
      ensures marketPairs == [] && filteredPairs == [] && isLoading
    {
      marketPairs := [];
      filteredPairs := [];
      isLoading := true;
    }

    /** `getSymbols`: None is the early return without a user id (nothing
        changes); otherwise the loaded pairs, or `[]` when the service call
        failed, and loading is over. */
    method GetSymbols(userId: Option<string>, response: Fetch<seq<RawSymbol>>) returns (result: Option<seq<MarketPair>>)
      modifies this
      ensures !TruthyText(userId) ==>
        result.None? && marketPairs == old(marketPairs) && filteredPairs == old(filteredPairs) && isLoading == old(isLoading)
      ensures TruthyText(userId) && response.FetchFailed? ==>
        result == Some([]) && marketPairs == old(marketPairs) && filteredPairs == old(filteredPairs) && !isLoading
      ensures TruthyText(userId) && response.Fetched? ==>
        result == Some(FormatPairs(response.value))
        && marketPairs == FormatPairs(response.value) && filteredPairs == marketPairs && !isLoading
    {
      if !TruthyText(userId) {
        return None;
      }
      isLoading := true;
      if response.FetchFailed? {
        result := Some([]);
      } else {
        var formatted := FormatPairs(response.value);
        marketPairs := formatted;
        filteredPairs := formatted;
        result := Some(formatted);
      }
      isLoading := false;
    }

    /** `handleSearch`: only the filtered list changes. */
    method HandleSearch(value: string)
      modifies this`filteredPairs
      ensures filteredPairs == Search(marketPairs, SymbolOfPair, (p: MarketPair) => p.baseAsset, value)
    {
      filteredPairs := Search(marketPairs, SymbolOfPair, (p: MarketPair) => p.baseAsset, value);
    }
  }
}
