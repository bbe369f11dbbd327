/** `useMarketSubscription` (src/pages/spotTrading/hooks/useMarketSubscription.ts):
    the effect that keeps, cancels or creates the one market subscription of a
    mounted hook, over its three refs, and the filter its handler applies. */
module MarketSubscription {
  import opened Wrappers
  import opened WsProtocol
  import opened WsRegistry
  import opened WsService

  /** The streams the hook subscribes to. */
  const Streams: seq<string> := ["avgPrice"]

  /** The cancel closure `subscribeMarket(symbol, ['avgPrice'], ...)` returns. */
  function HandleFor(symbol: string): CancelHandle {
    CancelHandle(MarketKey(symbol, Streams), Some(MarketTemplate(symbol, Streams)))
  }

  /** The registry after calling the held cancel closure, if there is one. */
  function AfterRelease(es: seq<Entry>, handle: Option<CancelHandle>): seq<Entry> {
    if handle.Some? then Unsubscribed(es, handle.value.key) else es
  }

  /** The frames calling the held cancel closure sends. */
  function ReleaseFrames(handle: Option<CancelHandle>, open: bool): seq<Frame> {
    if handle.Some? && open && UnsubscribeFrame(handle.value.template).Some?
    then [UnsubscribeFrame(handle.value.template).value] else []
  }

  /** How one run of the effect ended: the early return that keeps the
      subscription, the early return when disabled or without a symbol, or a
      `subscribeMarket` call (an error is the throw out of the effect). */
  datatype EffectRun = Kept | Disabled | Made(r: Result<CancelHandle, SubscribeError>)

  /** The handler's filter: the info handed to `onData`, or None when it does
      not fire. It reads the refs when the message arrives. */
  function Forwarded(data: WSData, currentSymbol: string, isEnabled: bool): (info: Option<StreamData>)
    ensures info.Some? <==>
      data.MarketData? && data.kind == MarketStreamMessage && data.symbol == currentSymbol
      && isEnabled && data.data.s == Some(currentSymbol)
    ensures info.Some? ==> info.value == data.data
  {
    if data.MarketData? && data.kind == MarketStreamMessage && data.symbol == currentSymbol && isEnabled then
      if data.data.s == Some(currentSymbol) then Some(data.data) else None
    else None
  }

  /** The refs of one mounted hook, the service it subscribes with, and whether
      its last effect run returned the cleanup function. */
  class MarketSubscriptionHook {
    const ws: WebSocketService
    /** `unsubscribeRef.current`. */
    var unsubscribe: Option<CancelHandle>
    /** `currentSymbolRef.current`. */
    var currentSymbol: string
    /** `isEnabledRef.current`. */
    var isEnabled: bool
    /** The last effect run returned the cleanup function (React runs it
        before the next run and on unmount). */
    var cleanupPending: bool

    /** A held handle always cancels the subscription of the current symbol. */
    ghost predicate Valid()
      reads this, ws
    {
      ws.Valid() && (unsubscribe.Some? ==> unsubscribe == Some(HandleFor(currentSymbol)) && currentSymbol != "")
    }

    /** React's protocol: a handle is held only by a run whose cleanup is
        still pending. */
    ghost predicate Settled()
      reads this
    {
      unsubscribe.Some? ==> cleanupPending
    }

    /** Mounting: the three `useRef` initial values. */
    constructor (ws: WebSocketService)
      requires ws.Valid()
      ensures Valid() && Settled() && this.ws == ws
      ensures unsubscribe == None && currentSymbol == "" && !isEnabled && !cleanupPending
    {
      this.ws := ws;
      unsubscribe := None;
      currentSymbol := "";
      isEnabled := false;
      cleanupPending := false;
    }

    /** Cancel the held subscription, if any, and clear the handle. */
    method Release()
      requires Valid()
      modifies this`unsubscribe, ws`registry, ws`outbox
      ensures Valid() && unsubscribe == None
      ensures ws.registry == AfterRelease(old(ws.registry), old(unsubscribe))
      ensures ws.outbox == old(ws.outbox) + ReleaseFrames(old(unsubscribe), ws.IsOpen())
    {
      if unsubscribe.Some? {
        ws.Cancel(unsubscribe.value);
        unsubscribe := None;
      }
    }

    /** One run of the effect body for `symbol` and `isEnabled`; h names the
        handler closure this run creates. */
    method Effect(symbol: string, enabled: bool, h: HandlerId) returns (run: EffectRun)
      requires Valid()
      modifies this`unsubscribe, this`currentSymbol, this`isEnabled, this`cleanupPending, ws`registry, ws`outbox
      ensures Valid() && isEnabled == enabled
      ensures run.Kept? <==> old(currentSymbol) == symbol && old(unsubscribe).Some?
      ensures run.Kept? ==>
        unsubscribe == old(unsubscribe) && currentSymbol == old(currentSymbol) && !cleanupPending
        && ws.registry == old(ws.registry) && ws.outbox == old(ws.outbox)
      ensures run.Disabled? <==> !run.Kept? && (!enabled || symbol == "")
      ensures run.Disabled? ==>
        currentSymbol == "" && unsubscribe == None && !cleanupPending
        && ws.registry == AfterRelease(old(ws.registry), old(unsubscribe))
        && ws.outbox == old(ws.outbox) + ReleaseFrames(old(unsubscribe), ws.IsOpen())
      ensures run.Made? ==>
        currentSymbol == symbol
        && ws.SubscribedAs(AfterRelease(old(ws.registry), old(unsubscribe)),
                           old(ws.outbox) + ReleaseFrames(old(unsubscribe), ws.IsOpen()),
                           MarketKey(symbol, Streams), h, Some(MarketTemplate(symbol, Streams)), run.r)
        && unsubscribe == (if run.r.Ok? then Some(HandleFor(symbol)) else None)
        && cleanupPending == run.r.Ok?
    {
      isEnabled := enabled;
      if currentSymbol == symbol && unsubscribe.Some? {
        cleanupPending := false;
        return Kept;
      }
      Release();
      if !enabled || symbol == "" {
        currentSymbol := "";
        cleanupPending := false;
        return Disabled;
      }
      currentSymbol := symbol;
      var r := ws.SubscribeMarket(symbol, Streams, h);
      if r.Ok? {
        unsubscribe := Some(r.value);
      }
      cleanupPending := r.Ok?;
      run := Made(r);
    }

    /** The cleanup function a creating run returns. */
    method Cleanup()
      requires Valid()
      modifies this`unsubscribe, this`currentSymbol, this`cleanupPending, ws`registry, ws`outbox
      ensures Valid() && Settled()
      ensures unsubscribe == None && currentSymbol == "" && !cleanupPending
      ensures ws.registry == AfterRelease(old(ws.registry), old(unsubscribe))
      ensures ws.outbox == old(ws.outbox) + ReleaseFrames(old(unsubscribe), ws.IsOpen())
    {
      Release();
      currentSymbol := "";
      cleanupPending := false;
    }

    /** A change of `[symbol, isEnabled]`: React runs the pending cleanup, then
        the effect. Under this protocol the early return that keeps a
        subscription is never taken, and the subscription the previous run
        made is cancelled before the next one is considered. */
    method Rerun(symbol: string, enabled: bool, h: HandlerId) returns (run: EffectRun)
      requires Valid() && Settled()
      modifies this`unsubscribe, this`currentSymbol, this`isEnabled, this`cleanupPending, ws`registry, ws`outbox
      ensures Valid() && Settled() && isEnabled == enabled
      ensures !run.Kept?
      ensures run.Disabled? <==> !enabled || symbol == ""
      ensures run.Disabled? ==>
        currentSymbol == "" && unsubscribe == None
        && ws.registry == AfterRelease(old(ws.registry), old(unsubscribe))
      ensures run.Made? ==>
        currentSymbol == symbol
        && ws.SubscribedAs(AfterRelease(old(ws.registry), old(unsubscribe)),
                           old(ws.outbox) + ReleaseFrames(old(unsubscribe), ws.IsOpen()),
                           MarketKey(symbol, Streams), h, Some(MarketTemplate(symbol, Streams)), run.r)
        && unsubscribe == (if run.r.Ok? then Some(HandleFor(symbol)) else None)
    {
      if cleanupPending {
        Cleanup();
      }
      run := Effect(symbol, enabled, h);
    }
  }
}
