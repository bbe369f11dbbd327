/** The order list and pair list logic of the spot-trading page
    (src/pages/spotTrading/index.tsx). The page's state is a record; each
    handler is a function from the state when it runs to the state once its
    timer has fired. */
module SpotTradingPage {
  import opened Wrappers
  import opened Text
  import opened Seqs
  import opened SpotTypes
  import opened PairSearch

  /** The page's own `OrderStatus`. */
  datatype OrderStatus = Filled | Canceled | New

  datatype Order = Order(id: string, symbol: string, side: OrderSide, orderType: OrderType,
                         price: string, quantity: string, status: OrderStatus, time: string)

  /** The page's own, narrower `MarketPair`. */
  datatype Pair = Pair(symbol: string, baseAsset: string, quoteAsset: string, lastPrice: string, priceChangePercent: string)

  datatype ViewMode = OpenView | HistoryView

  /** The `useState` values the handlers read and write. `searchQuery` is one
      value shared by the pair search box and the order query box. */
  datatype Page = Page(
    isLoading: bool, selectedPair: Pair, orderHistory: seq<Order>, searchQuery: string,
    filteredOrders: seq<Order>, isOrderQueryActive: bool, showCancelDialog: bool,
    showCancelAllDialog: bool, selectedOrder: Option<Order>, viewMode: ViewMode,
    marketPairs: seq<Pair>, filteredPairs: seq<Pair>)

  const DefaultPair: Pair := Pair("BTCUSDT", "BTC", "USDT", "0.00", "0.00")

  const InitialPage: Page := Page(false, DefaultPair, [], "", [], false, false, false, None, OpenView, [], [])

  function PairSymbol(x: Pair): string { x.symbol }
  function PairBase(x: Pair): string { x.baseAsset }

  predicate IsOpenOrder(o: Order) { o.status == New }
  predicate IsClosedOrder(o: Order) { o.status != New }

  /** The order query: the id or the symbol contains the query, ignoring
      ASCII case. */
  predicate OrderMatches(o: Order, q: string) {
    Contains(Lower(o.id), Lower(q)) || Contains(Lower(o.symbol), Lower(q))
  }

  /** The list `handleOrderQuery` shows: the whole history for an empty query,
      otherwise exactly the matching orders, in history order. */
  function QueryOrders(history: seq<Order>, q: string): (r: seq<Order>)
    ensures q == "" ==> r == history
    ensures IsSubsequence(r, history)
    ensures forall i :: 0 <= i < |r| ==> r[i] in history && OrderMatches(r[i], q)
    ensures forall i :: 0 <= i < |history| && OrderMatches(history[i], q) ==> history[i] in r
  {
    var p := (o: Order) => OrderMatches(o, q);
    FilterMembers(history, p);
    FilterIsSubsequence(history, p);
    if q == "" then
      assert forall i :: 0 <= i < |history| ==> p(history[i]) by {
        forall i | 0 <= i < |history| ensures p(history[i]) {
          ContainsEmpty(Lower(history[i].id));
        }
      }
      FilterAll(history, p);
      history
    else
      Filter(history, p)
  }

  /** The open view keeps exactly the NEW orders, the history view exactly
      the others, both in history order. */
  function View(history: seq<Order>, mode: ViewMode): (r: seq<Order>)
    ensures IsSubsequence(r, history)
    ensures forall i :: 0 <= i < |r| ==> r[i] in history && (IsOpenOrder(r[i]) <==> mode == OpenView)
    ensures forall i :: 0 <= i < |history| && (IsOpenOrder(history[i]) <==> mode == OpenView) ==> history[i] in r
  {
    var p := if mode == OpenView then IsOpenOrder else IsClosedOrder;
    FilterMembers(history, p);
    FilterIsSubsequence(history, p);
    Filter(history, p)
  }

  /** The two views split the history: every order is in exactly one of them,
      as often as in the history. */
  lemma ViewsPartition(history: seq<Order>)
    ensures multiset(View(history, OpenView)) + multiset(View(history, HistoryView)) == multiset(history)
    ensures |View(history, OpenView)| + |View(history, HistoryView)| == |history|
  {
    FilterPartition(history, IsOpenOrder, IsClosedOrder);
  }

  function CancelIfId(id: string): Order -> Order {
    (o: Order) => if o.id == id then o.(status := Canceled) else o
  }

  /** The map of `confirmCancelOrder`: the orders with that id become
      CANCELED and nothing else changes. */
  function CancelById(history: seq<Order>, id: string): (r: seq<Order>)
    ensures |r| == |history|
    ensures forall i :: 0 <= i < |r| ==> history[i].id == id ==> r[i] == history[i].(status := Canceled)
    ensures forall i :: 0 <= i < |r| ==> history[i].id != id ==> r[i] == history[i]
  {
    Map(history, CancelIfId(id))
  }

  function CancelIfOpenOf(symbol: string): Order -> Order {
    (o: Order) => if o.symbol == symbol && o.status == New then o.(status := Canceled) else o
  }

  /** The map of `confirmCancelAllOrders`: the NEW orders of that symbol
      become CANCELED and nothing else changes. */
  function CancelAllOpen(history: seq<Order>, symbol: string): (r: seq<Order>)
    ensures |r| == |history|
    ensures forall i :: 0 <= i < |r| ==> history[i].symbol == symbol && IsOpenOrder(history[i]) ==> r[i] == history[i].(status := Canceled)
    ensures forall i :: 0 <= i < |r| ==> !(history[i].symbol == symbol && IsOpenOrder(history[i])) ==> r[i] == history[i]
  {
    Map(history, CancelIfOpenOf(symbol))
  }

  /** Cancelling one order takes exactly the orders with its id off the open
      view. */
  lemma {:induction false} OpenAfterCancel(history: seq<Order>, id: string)
    ensures View(CancelById(history, id), OpenView) == Filter(View(history, OpenView), (o: Order) => o.id != id)
    decreases |history|
  {
    if history != [] {
      OpenAfterCancel(history[1..], id);
    }
  }

  /** Cancelling all takes exactly the pair's orders off the open view. */
  lemma {:induction false} OpenAfterCancelAll(history: seq<Order>, symbol: string)
    ensures View(CancelAllOpen(history, symbol), OpenView) == Filter(View(history, OpenView), (o: Order) => o.symbol != symbol)
    decreases |history|
  {
    if history != [] {
      OpenAfterCancelAll(history[1..], symbol);
    }
  }

  /** `handleOrderQuery`: the active flag exactly for a non-empty query. */
  function OrderQuery(p: Page): (r: Page)
    ensures r.isOrderQueryActive <==> p.searchQuery != ""
    ensures r.filteredOrders == QueryOrders(p.orderHistory, p.searchQuery)
    ensures r == p.(isOrderQueryActive := r.isOrderQueryActive, filteredOrders := r.filteredOrders, isLoading := false)
  {
    p.(isOrderQueryActive := p.searchQuery != "", filteredOrders := QueryOrders(p.orderHistory, p.searchQuery), isLoading := false)
  }

  /** `onSearchChange` of the order box. */
  function SetSearchQuery(p: Page, q: string): (r: Page)
    ensures r == p.(searchQuery := q)
  {
    p.(searchQuery := q)
  }

  /** `clearSearch`: empty query, whole history shown, query inactive. */
  function ClearSearch(p: Page): (r: Page)
    ensures r.searchQuery == "" && r.filteredOrders == p.orderHistory && !r.isOrderQueryActive
    ensures r == p.(searchQuery := "", filteredOrders := p.orderHistory, isOrderQueryActive := false)
  {
    p.(searchQuery := "", filteredOrders := p.orderHistory, isOrderQueryActive := false)
  }

  /** `handleCancelOrder`: the order to cancel is remembered and the dialog
      opens. */
  function SelectForCancel(p: Page, o: Order): (r: Page)
    ensures r == p.(selectedOrder := Some(o), showCancelDialog := true)
  {
    p.(selectedOrder := Some(o), showCancelDialog := true)
  }

  /** `confirmCancelOrder`: nothing without a selected order; otherwise the
      orders with its id are cancelled in both lists and the selection and
      dialog are cleared. */
  function ConfirmCancelOrder(p: Page): (r: Page)
    ensures p.selectedOrder.None? ==> r == p
    ensures p.selectedOrder.Some? ==>
      r.orderHistory == CancelById(p.orderHistory, p.selectedOrder.value.id) && r.filteredOrders == r.orderHistory
      && r == p.(orderHistory := r.orderHistory, filteredOrders := r.orderHistory,
                 showCancelDialog := false, selectedOrder := None, isLoading := false)
  {
    if p.selectedOrder.None? then p
    else
      var updated := CancelById(p.orderHistory, p.selectedOrder.value.id);
      p.(orderHistory := updated, filteredOrders := updated, showCancelDialog := false, selectedOrder := None, isLoading := false)
  }

  /** `confirmCancelAllOrders`: the NEW orders of the selected pair are
      cancelled in both lists. */
  function ConfirmCancelAllOrders(p: Page): (r: Page)
    ensures r.orderHistory == CancelAllOpen(p.orderHistory, p.selectedPair.symbol) && r.filteredOrders == r.orderHistory
    ensures r == p.(orderHistory := r.orderHistory, filteredOrders := r.orderHistory,
                    showCancelAllDialog := false, isLoading := false)
  {
    var updated := CancelAllOpen(p.orderHistory, p.selectedPair.symbol);
    p.(orderHistory := updated, filteredOrders := updated, showCancelAllDialog := false, isLoading := false)
  }

  /** `handleViewModeChange`. */
  function ViewModeChange(p: Page, mode: ViewMode): (r: Page)
    ensures r.viewMode == mode && r.filteredOrders == View(p.orderHistory, mode)
    ensures r == p.(viewMode := mode, filteredOrders := r.filteredOrders, isLoading := false)
  {
    p.(viewMode := mode, filteredOrders := View(p.orderHistory, mode), isLoading := false)
  }

  /** `handlePlaceOrder`: one NEW order of the selected pair goes first in
      both lists. A limit order carries the given price (the caller promises
      one, `orderData.price!`), a market order the pair's last price. The id
      and time are the page's random id and clock. */
  function PlaceOrder(p: Page, data: OrderRequest, id: string, time: string): (r: Page)
    requires data.orderType == Limit ==> data.price.Some?
    ensures |r.orderHistory| == |p.orderHistory| + 1 && r.orderHistory[1..] == p.orderHistory
    ensures r.filteredOrders == r.orderHistory
    ensures r.orderHistory[0] == Order(id, p.selectedPair.symbol, data.side, data.orderType,
      if data.orderType == Limit then data.price.value else p.selectedPair.lastPrice, data.amount, New, time)
    ensures r == p.(orderHistory := r.orderHistory, filteredOrders := r.orderHistory, isLoading := false)
  {
    var price := if data.orderType == Limit then data.price.value else p.selectedPair.lastPrice;
    var o := Order(id, p.selectedPair.symbol, data.side, data.orderType, price, data.amount, New, time);
    var updated := [o] + p.orderHistory;
    assert updated[1..] == p.orderHistory;
    p.(orderHistory := updated, filteredOrders := updated, isLoading := false)
  }

  /** A placed order opens: it heads the open view, ahead of the open orders
      there were. */
  lemma PlacedOrderIsOpen(p: Page, data: OrderRequest, id: string, time: string)
    requires data.orderType == Limit ==> data.price.Some?
    ensures View(PlaceOrder(p, data, id, time).orderHistory, OpenView)
         == [PlaceOrder(p, data, id, time).orderHistory[0]] + View(p.orderHistory, OpenView)
  {
    var h := PlaceOrder(p, data, id, time).orderHistory;
    assert h == [h[0]] + p.orderHistory;
    FilterConcat([h[0]], p.orderHistory, IsOpenOrder);
  }

  /** `handleSearch` of the pair list; it also sets the shared query. */
  function SearchPairs(p: Page, value: string): (r: Page)
    ensures r.searchQuery == value
    ensures r.filteredPairs == Search(p.marketPairs, PairSymbol, PairBase, value)
    ensures r == p.(searchQuery := value, filteredPairs := r.filteredPairs)
  {
    p.(searchQuery := value, filteredPairs := Search(p.marketPairs, PairSymbol, PairBase, value))
  }

  /** The pair search and the order query read one `searchQuery`: a query
      run after typing into the pair search filters the orders by the text
      typed there. */
  lemma SharedSearchQuery(p: Page, value: string)
    ensures OrderQuery(SearchPairs(p, value)).filteredOrders == QueryOrders(p.orderHistory, value)
    ensures OrderQuery(SearchPairs(p, value)).isOrderQueryActive <==> value != ""
  {
  }

  /** Choosing an order in the list and confirming the dialog takes exactly
      the orders with its id off the open view. */
  lemma CancelSelectedOrder(p: Page, o: Order)
    ensures View(ConfirmCancelOrder(SelectForCancel(p, o)).orderHistory, OpenView)
         == Filter(View(p.orderHistory, OpenView), (x: Order) => x.id != o.id)
  {
    OpenAfterCancel(p.orderHistory, o.id);
  }

  /** `handlePairSelect`: the first pair with that symbol becomes selected;
      an unknown symbol changes nothing. */
  function PairSelect(p: Page, symbol: string): (r: Page)
    ensures (forall i :: 0 <= i < |p.marketPairs| ==> p.marketPairs[i].symbol != symbol) ==> r == p
    ensures forall k :: 0 <= k < |p.marketPairs| && p.marketPairs[k].symbol == symbol
                        && (forall j :: 0 <= j < k ==> p.marketPairs[j].symbol != symbol)
                        ==> r == p.(selectedPair := p.marketPairs[k])
  {
    var found := Find(p.marketPairs, (x: Pair) => x.symbol == symbol);
    forall k | 0 <= k < |p.marketPairs| && p.marketPairs[k].symbol == symbol
               && (forall j :: 0 <= j < k ==> p.marketPairs[j].symbol != symbol)
      ensures found == Some(p.marketPairs[k])
    {
      FindFirst(p.marketPairs, (x: Pair) => x.symbol == symbol, k);
    }
    if found.Some? then p.(selectedPair := found.value) else p
  }
}
