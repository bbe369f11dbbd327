/** The record types of the spot-trading feature (src/pages/spotTrading/types.ts)
    shared by the trading form, the market-pairs hook and the page. */
module SpotTypes {
  import opened Wrappers

  datatype OrderType = Limit | Market
  datatype OrderSide = Buy | Sell

  datatype LimitOrder = LimitOrder(minQty: string, maxQty: string, stepSize: string)
  datatype MarketOrder = MarketOrder(minNotional: string, maxNotional: string)
  datatype PriceFilter = PriceFilter(maxPricePercent: string, minPricePercent: string)

  /** `MarketPair`; precisions are numbers of decimal places. */
  datatype MarketPair = MarketPair(
    symbol: string, baseAsset: string, quoteAsset: string,
    lastPrice: string, priceChangePercent: string,
    baseAssetPrecision: int, quoteAssetPrecision: int,
    limitOrder: LimitOrder, marketOrder: MarketOrder,
    priceFilter: Option<PriceFilter>)

  /** The argument of `onPlaceOrder`; None is an absent price. */
  datatype OrderRequest = OrderRequest(symbol: string, orderType: OrderType, side: OrderSide, price: Option<string>, amount: string)
}
