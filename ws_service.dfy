/** `WebSocketService` (src/services/ws.ts) as a class. The socket is its
    `readyState` and an outbox of the frames handed to `ws.send`; the
    callbacks `onopen`, `onclose`, `onmessage`, `onerror` and the timer
    firings are event methods; the window's timers are counters. */
module WsService {
  import opened Wrappers
  import opened WsProtocol
  import opened WsRegistry
  import opened WsDispatch

  const MaxReconnectAttempts: nat := 5
  const ReplayBatchSize: nat := 10

  /** The `Error` thrown at the subscription limit. */
  datatype SubscribeError = MaxSubscriptionLimitReached

  /** The closure `subscribe` returns: it captured the key and the template. */
  datatype CancelHandle = CancelHandle(key: string, template: Option<Frame>)

  class WebSocketService {
    /** `ws`: None while it is null, else the socket's `readyState`. */
    var socket: Option<ReadyState>
    /** `messageHandlers`, in map order. */
    var registry: seq<Entry>
    var reconnectAttempts: nat
    var isConnecting: bool
    var isManualClosed: bool
    var isProcessing: bool
    /** `messageQueue`; None is a falsy parsed value. */
    var messageQueue: seq<Option<WSData>>
    /** `pingInterval !== null`. */
    var pingInterval: bool
    /** The ping intervals the window holds. */
    var liveIntervals: nat
    /** `setTimeout(connect)` calls scheduled and not yet fired. */
    var pendingReconnects: nat
    /** Every `new WebSocket(url)` so far. */
    var socketsCreated: nat
    /** Every frame handed to `ws.send`, in order. */
    var outbox: seq<Frame>
    /** Every handler call of the drain loop, in order. */
    var deliveries: seq<Delivery>

    /** One handler per key, at most 100 of them, at most 5 reconnect
        attempts, and exactly one ping interval live while `pingInterval` is
        set and none otherwise. */
    ghost predicate Valid()
      reads this
    {
      DistinctKeys(registry) && |registry| <= MaxSubscriptions
      && reconnectAttempts <= MaxReconnectAttempts
      && liveIntervals == (if pingInterval then 1 else 0)
    }

    /** `this.ws?.readyState === WebSocket.OPEN`. */
    predicate IsOpen()
      reads this
    {
      socket == Some(Open)
    }

    /** The early return of `connect`. */
    predicate ConnectBlocked()
      reads this
    {
      isConnecting || IsOpen() || isManualClosed
    }

    /** What a subscribe call did, from the registry and outbox before it. */
    ghost predicate SubscribedAs(es0: seq<Entry>, out0: seq<Frame>, key: string, h: HandlerId,
                                 template: Option<Frame>, r: Result<CancelHandle, SubscribeError>)
      reads this
    {
      (r.Err? <==> |es0| >= MaxSubscriptions)
      && (r.Err? ==> registry == es0 && outbox == out0)
      && (r.Ok? ==> r.value == CancelHandle(key, template) && Subscribed(es0, key, h) == Some(registry)
                    && outbox == out0 + (if template.Some? && IsOpen() then [template.value] else []))
    }

    /** The constructor: fresh state, then `connect()`. */
    constructor ()
      ensures Valid()
      ensures socket == Some(Connecting) && isConnecting && socketsCreated == 1
      ensures registry == [] && messageQueue == [] && outbox == [] && deliveries == []
      ensures reconnectAttempts == 0 && pendingReconnects == 0 && !pingInterval && liveIntervals == 0
      ensures !isManualClosed && !isProcessing
    {
      socket := None;
      registry := [];
      reconnectAttempts := 0;
      isConnecting := false;
      isManualClosed := false;
      isProcessing := false;
      messageQueue := [];
      pingInterval := false;
      liveIntervals := 0;
      pendingReconnects := 0;
      socketsCreated := 0;
      outbox := [];
      deliveries := [];
      new;
      Connect();
    }

    /** The registry and the outbox are those of replay state r, whose frames
        went out after `out0`. */
    ghost predicate ReplayedAs(r: Replayed, out0: seq<Frame>)
      reads this
    {
      registry == r.registry && outbox == out0 + r.sent
    }

    /** `connect`: nothing while connecting, open or manually closed;
        otherwise a new socket in state CONNECTING. */
    method Connect()
      requires Valid()
      modifies this`isConnecting, this`socket, this`socketsCreated
      ensures Valid()
      ensures old(ConnectBlocked()) ==>
        isConnecting == old(isConnecting) && socket == old(socket) && socketsCreated == old(socketsCreated)
      ensures !old(ConnectBlocked()) ==>
        isConnecting && socket == Some(Connecting) && socketsCreated == old(socketsCreated) + 1
    {
      if ConnectBlocked() {
        return;
      }
      isConnecting := true;
      socket := Some(Connecting);
      socketsCreated := socketsCreated + 1;
    }

    /** `send`: a frame reaches the socket only while it is OPEN. */
    method Send(m: Frame)
      modifies this`outbox
      ensures outbox == old(outbox) + (if IsOpen() then [m] else [])
    {
      if IsOpen() {
        outbox := outbox + [m];
      }
    }

    /** `unsubscribe`: the key goes, whatever handler it held; while OPEN the
        unsubscribe counterpart of a market or futures template is sent. */
    method Unsubscribe(key: string, template: Option<Frame>)
      requires Valid()
      modifies this`registry, this`outbox
      ensures Valid()
      ensures registry == Unsubscribed(old(registry), key)
      ensures outbox == old(outbox)
        + (if IsOpen() && UnsubscribeFrame(template).Some? then [UnsubscribeFrame(template).value] else [])
    {
      registry := Unsubscribed(registry, key);
      if IsOpen() {
        var frame := UnsubscribeFrame(template);
        if frame.Some? {
          outbox := outbox + [frame.value];
        }
      }
    }

    /** `subscribe`: the capacity check first, then the same-key replacement
        (which sends no unsubscribe frame), then the new entry at the end and,
        while OPEN, the template. */
    method Subscribe(key: string, h: HandlerId, template: Option<Frame>) returns (r: Result<CancelHandle, SubscribeError>)
      requires Valid()
      modifies this`registry, this`outbox
      ensures Valid()
      ensures SubscribedAs(old(registry), old(outbox), key, h, template, r)
    {
      if |registry| >= MaxSubscriptions {
        return Err(MaxSubscriptionLimitReached);
      }
      ghost var es0 := registry;
      if Lookup(registry, key).Some? {
        Unsubscribe(key, None);
      } else {
        RemoveAbsent(registry, key);
      }
      assert registry == Remove(es0, key);
      registry := registry + [Entry(key, h)];
      assert Subscribed(es0, key, h) == Some(registry);
      if template.Some? && IsOpen() {
        Send(template.value);
      }
      r := Ok(CancelHandle(key, template));
    }

    /** Calling the closure `subscribe` returned. */
    method Cancel(handle: CancelHandle)
      requires Valid()
      modifies this`registry, this`outbox
      ensures Valid()
      ensures registry == Unsubscribed(old(registry), handle.key)
      ensures outbox == old(outbox)
        + (if IsOpen() && UnsubscribeFrame(handle.template).Some? then [UnsubscribeFrame(handle.template).value] else [])
    {
      Unsubscribe(handle.key, handle.template);
    }

    method SubscribeMarket(symbol: string, streams: seq<string>, h: HandlerId) returns (r: Result<CancelHandle, SubscribeError>)
      requires Valid()
      modifies this`registry, this`outbox
      ensures Valid()
      ensures SubscribedAs(old(registry), old(outbox), MarketKey(symbol, streams), h, Some(MarketTemplate(symbol, streams)), r)
    {
      r := Subscribe(MarketKey(symbol, streams), h, Some(MarketTemplate(symbol, streams)));
    }

    method SubscribeUserData(userId: string, h: HandlerId) returns (r: Result<CancelHandle, SubscribeError>)
      requires Valid()
      modifies this`registry, this`outbox
      ensures Valid()
      ensures SubscribedAs(old(registry), old(outbox), UserKey(userId), h, Some(UserTemplate(userId)), r)
    {
      r := SubscribeUserDataOf(Some(userId), h);
    }

    /** `subscribeUserData` as the replay calls it, where the id may be
        undefined (None). */
    method SubscribeUserDataOf(userId: Option<string>, h: HandlerId) returns (r: Result<CancelHandle, SubscribeError>)
      requires Valid()
      modifies this`registry, this`outbox
      ensures Valid()
      ensures SubscribedAs(old(registry), old(outbox), UserKeyOf(userId), h, Some(UserTemplateOf(userId)), r)
    {
      r := Subscribe(UserKeyOf(userId), h, Some(UserTemplateOf(userId)));
    }

    method SubscribeUsdsFutures(symbol: string, streams: seq<string>, h: HandlerId) returns (r: Result<CancelHandle, SubscribeError>)
      requires Valid()
      modifies this`registry, this`outbox
      ensures Valid()
      ensures SubscribedAs(old(registry), old(outbox), FuturesKey(symbol, streams), h, Some(FuturesTemplate(symbol, streams)), r)
    {
      r := Subscribe(FuturesKey(symbol, streams), h, Some(FuturesTemplate(symbol, streams)));
    }

    /** One element of a replay batch, the entry after the first j of the
        snapshot; false when it threw. */
    method ReplayEntry(entries: seq<Entry>, ghost acts: seq<ReplayAction>, j: nat, ghost open: bool, ghost out0: seq<Frame>) returns (ok: bool)
      requires Valid() && j < |entries| && ParsedAs(entries, acts) && open == IsOpen()
      requires ReplayedAs(ReplayPrefix(entries, acts, j, entries, open), out0) && !ReplayPrefix(entries, acts, j, entries, open).aborted
      modifies this`registry, this`outbox
      ensures Valid() && open == IsOpen()
      ensures ReplayedAs(ReplayPrefix(entries, acts, j + 1, entries, open), out0)
      ensures ok == !ReplayPrefix(entries, acts, j + 1, entries, open).aborted
    {
      ghost var es0, out1 := registry, outbox;
      var e := entries[j];
      assert acts[j] == ParseKey(e.key);
      match ParseKey(e.key)
      case ReplayMarket(symbol, streams) =>
        var r := SubscribeMarket(symbol, streams, e.handler);
        ok := r.Ok?;
      case ReplayUser(userId) =>
        var r := SubscribeUserDataOf(userId, e.handler);
        ok := r.Ok?;
      case NoReplay =>
        ok := true;
      case Malformed =>
        ok := false;
      ghost var s := ReplayStep(acts[j], e, es0, open);
      assert registry == s.registry && outbox == out1 + s.sent && ok == !s.aborted;
    }

    /** One `Promise.all(batch.map(...))` of the replay: the entries from lo
        up to hi, stopping at the first throw. */
    method ReplayBatch(entries: seq<Entry>, ghost acts: seq<ReplayAction>, lo: nat, hi: nat, ghost open: bool, ghost out0: seq<Frame>) returns (aborted: bool)
      requires Valid() && lo <= hi <= |entries| && ParsedAs(entries, acts) && open == IsOpen()
      requires ReplayedAs(ReplayPrefix(entries, acts, lo, entries, open), out0) && !ReplayPrefix(entries, acts, lo, entries, open).aborted
      modifies this`registry, this`outbox
      ensures Valid() && open == IsOpen()
      ensures ReplayedAs(ReplayPrefix(entries, acts, hi, entries, open), out0)
      ensures aborted == ReplayPrefix(entries, acts, hi, entries, open).aborted
    {
      var j := lo;
      aborted := false;
      ghost var cur := ReplayPrefix(entries, acts, lo, entries, open);
      while j < hi && !aborted
        invariant lo <= j <= hi && Valid() && open == IsOpen()
        invariant cur == ReplayPrefix(entries, acts, j, entries, open)
        invariant ReplayedAs(cur, out0) && aborted == cur.aborted
      {
        var ok := ReplayEntry(entries, acts, j, open, out0);
        cur := ReplayPrefix(entries, acts, j + 1, entries, open);
        aborted := !ok;
        j := j + 1;
      }
      if aborted {
        ReplayAbortedStays(entries, acts, j, hi, entries, open);
      }
    }

    /** `resubscribeAll`: a snapshot of the entries, replayed in slices of ten
        until the end or the first throw. */
    method ResubscribeAll()
      requires Valid()
      modifies this`registry, this`outbox
      ensures Valid()
      ensures var r := Replay(old(registry), IsOpen());
        registry == r.registry && outbox == old(outbox) + r.sent
    {
      var entries := registry;
      ghost var out0 := outbox;
      ghost var open := IsOpen();
      ghost var acts := Actions(entries);
      ActionsParsed(entries);
      var i := 0;
      var aborted := false;
      ghost var done: nat := 0;
      ghost var cur := ReplayPrefix(entries, acts, 0, entries, open);
      while i < |entries| && !aborted
        invariant Valid() && open == IsOpen()
        invariant done == if i < |entries| then i else |entries|
        invariant cur == ReplayPrefix(entries, acts, done, entries, open)
        invariant ReplayedAs(cur, out0) && aborted == cur.aborted
        decreases |entries| - i
      {
        var end := if i + ReplayBatchSize < |entries| then i + ReplayBatchSize else |entries|;
        aborted := ReplayBatch(entries, acts, i, end, open, out0);
        cur := ReplayPrefix(entries, acts, end, entries, open);
        done := end;
        i := i + ReplayBatchSize;
      }
      if aborted {
        ReplayAbortedStays(entries, acts, done, |entries|, entries, open);
      }
    }

    /** `processMessageQueue`: a nested call returns at once; otherwise the
        queue is drained front first and every message that is not falsy goes
        to every handler, whether or not an earlier call threw. */
    method ProcessMessageQueue(throws: (HandlerId, WSData) -> bool)
      modifies this`isProcessing, this`messageQueue, this`deliveries
      ensures old(isProcessing) ==>
        isProcessing && messageQueue == old(messageQueue) && deliveries == old(deliveries)
      ensures !old(isProcessing) ==>
        !isProcessing && messageQueue == []
        && deliveries == old(deliveries) + Fanout(old(messageQueue), Handlers(registry), throws)
    {
      if isProcessing {
        return;
      }
      isProcessing := true;
      ghost var q0 := messageQueue;
      ghost var d0 := deliveries;
      ghost var n: nat := 0;
      while |messageQueue| > 0
        invariant n <= |q0| && messageQueue == q0[n..] && isProcessing
        invariant deliveries == d0 + Fanout(q0[..n], Handlers(registry), throws)
        decreases |messageQueue|
      {
        var data := messageQueue[0];
        messageQueue := messageQueue[1..];
        assert data == q0[n] && messageQueue == q0[n + 1..];
        assert q0[..n + 1] == q0[..n] + [data];
        FanoutSnoc(q0[..n], data, Handlers(registry), throws);
        n := n + 1;
        if data.None? {
          continue;
        }
        var handlers := Handlers(registry);
        ghost var base := deliveries;
        for k := 0 to |handlers|
          invariant messageQueue == q0[n..] && isProcessing
          invariant deliveries == base + DeliverTo(handlers[..k], data.value, throws)
        {
          assert DeliverTo(handlers[..k + 1], data.value, throws)
              == DeliverTo(handlers[..k], data.value, throws) + [Delivery(handlers[k], data.value, throws(handlers[k], data.value))];
          deliveries := deliveries + [Delivery(handlers[k], data.value, throws(handlers[k], data.value))];
        }
        assert handlers[..|handlers|] == handlers;
      }
      assert q0[..n] == q0;
      isProcessing := false;
    }

    /** `onmessage`: a frame that does not parse is dropped; otherwise its
        value joins the queue and the drain runs. */
    method OnMessage(m: Inbound, throws: (HandlerId, WSData) -> bool)
      modifies this`isProcessing, this`messageQueue, this`deliveries
      ensures m.Unparsable? ==>
        isProcessing == old(isProcessing) && messageQueue == old(messageQueue) && deliveries == old(deliveries)
      ensures m.Parsed? && old(isProcessing) ==>
        isProcessing && messageQueue == old(messageQueue) + [m.value] && deliveries == old(deliveries)
      ensures m.Parsed? && !old(isProcessing) ==>
        !isProcessing && messageQueue == []
        && deliveries == old(deliveries) + Fanout(old(messageQueue) + [m.value], Handlers(registry), throws)
    {
      if m.Parsed? {
        messageQueue := messageQueue + [m.value];
        ProcessMessageQueue(throws);
      }
    }

    method StopHeartbeat()
      requires Valid()
      modifies this`pingInterval, this`liveIntervals
      ensures Valid() && !pingInterval && liveIntervals == 0
    {
      if pingInterval {
        liveIntervals := liveIntervals - 1;
        pingInterval := false;
      }
    }

    /** `startHeartbeat` clears the old interval before it sets a new one, so
        exactly one is live afterwards. */
    method StartHeartbeat()
      requires Valid()
      modifies this`pingInterval, this`liveIntervals
      ensures Valid() && pingInterval && liveIntervals == 1
    {
      StopHeartbeat();
      liveIntervals := liveIntervals + 1;
      pingInterval := true;
    }

    /** A firing of the ping interval. */
    method PingTick()
      requires pingInterval
      modifies this`outbox
      ensures outbox == old(outbox) + (if IsOpen() then [PingFrame] else [])
    {
      if IsOpen() {
        Send(PingFrame);
      }
    }

    /** `cleanup`: heartbeat stopped, drain flag cleared, queue emptied. */
    method Cleanup()
      requires Valid()
      modifies this`pingInterval, this`liveIntervals, this`isProcessing, this`messageQueue
      ensures Valid() && !pingInterval && liveIntervals == 0 && !isProcessing && messageQueue == []
    {
      StopHeartbeat();
      isProcessing := false;
      messageQueue := [];
    }

    /** `tryReconnect`: nothing once 5 attempts were made; otherwise one more
        attempt and one more scheduled `connect`. */
    method TryReconnect()
      requires Valid()
      modifies this`reconnectAttempts, this`pendingReconnects
      ensures Valid()
      ensures old(reconnectAttempts) >= MaxReconnectAttempts ==>
        reconnectAttempts == old(reconnectAttempts) && pendingReconnects == old(pendingReconnects)
      ensures old(reconnectAttempts) < MaxReconnectAttempts ==>
        reconnectAttempts == old(reconnectAttempts) + 1 && pendingReconnects == old(pendingReconnects) + 1
    {
      if reconnectAttempts >= MaxReconnectAttempts {
        return;
      }
      reconnectAttempts := reconnectAttempts + 1;
      pendingReconnects := pendingReconnects + 1;
    }

    /** The `setTimeout` of `tryReconnect` firing. */
    method ReconnectTimerFires()
      requires Valid() && pendingReconnects > 0
      modifies this`pendingReconnects, this`isConnecting, this`socket, this`socketsCreated
      ensures Valid() && pendingReconnects == old(pendingReconnects) - 1
      ensures old(ConnectBlocked()) ==>
        isConnecting == old(isConnecting) && socket == old(socket) && socketsCreated == old(socketsCreated)
      ensures !old(ConnectBlocked()) ==>
        isConnecting && socket == Some(Connecting) && socketsCreated == old(socketsCreated) + 1
    {
      pendingReconnects := pendingReconnects - 1;
      Connect();
    }

    /** `onopen` of the current socket: attempts reset, heartbeat started, the
        registry replayed over the now OPEN socket. */
    method OnOpen()
      requires Valid() && socket == Some(Connecting)
      modifies this`socket, this`isConnecting, this`reconnectAttempts, this`pingInterval, this`liveIntervals,
               this`registry, this`outbox
      ensures Valid()
      ensures socket == Some(Open) && !isConnecting && reconnectAttempts == 0 && pingInterval && liveIntervals == 1
      ensures var r := Replay(old(registry), true);
        registry == r.registry && outbox == old(outbox) + r.sent
    {
      socket := Some(Open);
      isConnecting := false;
      reconnectAttempts := 0;
      StartHeartbeat();
      ResubscribeAll();
    }

    /** `onclose`; `current` says whether the closing socket is the one `ws`
        refers to. After a manual close every handler and queued message is
        dropped and nothing reconnects; otherwise `tryReconnect` runs. */
    method OnClose(current: bool)
      requires Valid()
      modifies this`socket, this`isConnecting, this`pingInterval, this`liveIntervals, this`isProcessing,
               this`messageQueue, this`registry, this`reconnectAttempts, this`pendingReconnects
      ensures Valid()
      ensures socket == (if current && old(socket).Some? then Some(Closed) else old(socket))
      ensures !isConnecting && !pingInterval && liveIntervals == 0 && !isProcessing && messageQueue == []
      ensures isManualClosed ==>
        registry == [] && reconnectAttempts == old(reconnectAttempts) && pendingReconnects == old(pendingReconnects)
      ensures !isManualClosed ==> registry == old(registry)
      ensures !isManualClosed && old(reconnectAttempts) >= MaxReconnectAttempts ==>
        reconnectAttempts == old(reconnectAttempts) && pendingReconnects == old(pendingReconnects)
      ensures !isManualClosed && old(reconnectAttempts) < MaxReconnectAttempts ==>
        reconnectAttempts == old(reconnectAttempts) + 1 && pendingReconnects == old(pendingReconnects) + 1
    {
      if current && socket.Some? {
        socket := Some(Closed);
      }
      isConnecting := false;
      Cleanup();
      if !isManualClosed {
        TryReconnect();
      } else {
        registry := [];
        messageQueue := [];
      }
    }

    /** `onerror` only clears the connecting flag; it does not reconnect. */
    method OnError()
      modifies this`isConnecting
      ensures !isConnecting
    {
      isConnecting := false;
    }

    /** `close`: the manual flag, `cleanup`, and `ws.close()`, which moves a
        connecting or open socket to CLOSING. */
    method Close()
      requires Valid()
      modifies this`isManualClosed, this`pingInterval, this`liveIntervals, this`isProcessing, this`messageQueue, this`socket
      ensures Valid() && isManualClosed
      ensures !pingInterval && liveIntervals == 0 && !isProcessing && messageQueue == []
      ensures socket == (if old(socket) == Some(Connecting) || old(socket) == Some(Open) then Some(Closing) else old(socket))
    {
      isManualClosed := true;
      Cleanup();
      if socket == Some(Connecting) || socket == Some(Open) {
        socket := Some(Closing);
      }
    }

    /** `start`: the manual flag cleared, then `connect`; the reconnect
        counter is left as it was. */
    method Start()
      requires Valid()
      modifies this`isManualClosed, this`isConnecting, this`socket, this`socketsCreated
      ensures Valid() && !isManualClosed
      ensures var blocked := old(isConnecting) || old(IsOpen());
        (blocked ==> isConnecting == old(isConnecting) && socket == old(socket) && socketsCreated == old(socketsCreated))
        && (!blocked ==> isConnecting && socket == Some(Connecting) && socketsCreated == old(socketsCreated) + 1)
    {
      isManualClosed := false;
      Connect();
    }
  }
}
