# A Dafny model of a trading front end's WebSocket service and page logic

The front end of a crypto-exchange client talks to its back end through one
multiplexed WebSocket. The centre of this model is that service
(`WebSocketService` in `src/services/ws.ts`). It has:

- a registry of handlers, one per subscription key, kept in insertion order
  and limited to 100 entries;
- an outbox of the frames handed to `ws.send`;
- a queue of inbound messages that a drain loop delivers to every handler;
- a heartbeat, a reconnect counter limited to 5 attempts, and a manual-close
  flag.

Each socket callback (`onopen`, `onclose`, `onmessage`, `onerror`) and each
timer firing is an event method of the class. After a reconnect,
`resubscribeAll` replays the registry in batches of ten. The replay is
specified by a function over the registry (`Replay`), and the service's loops
are proved against it.

Around the service the model covers:

- **The market subscription hook.** `useMarketSubscription` is a class over
  its three refs. It holds one live subscription for the current symbol.
- **Two Redux slices as classes:**
  - `auth`, including the storage clean-up of `logout`;
  - `ui`, the page-wide loading state.
- **The spot-trading page as a state record.** This covers:
  - order query and views;
  - cancel and cancel-all;
  - placing an order;
  - the pair search and pair selection.
- **`useMarketPairs`:** the symbol filter and the `MarketPair` formatting.
- **The trading form:** decimal places, accepted input, the submitted
  order, and when submitting is disabled.
- **The account rules** of the profile page and the header: the current
  account, delete succession, add and edit, and the initials.

Modules follow the source files:

- `WsProtocol`, `WsRegistry`, `WsDispatch` and `WsService` model
  `src/services/ws.ts`;
- `MarketSubscription` models `useMarketSubscription.ts`;
- `AuthSlice` and `UiSlice` model the two slices;
- `SpotTypes`, `SpotTradingPage` and `PairSearch` model
  `src/pages/spotTrading/index.tsx` and its types;
- `MarketPairs` models `useMarketPairs.ts`;
- `TradingForm` models `trading-form.tsx`;
- `BinanceAccounts` holds the account record and the helpers that
  `user-profile.tsx` and `Header.tsx` share (`getInitials` and the `find`
  by id); `UserProfile` models `user-profile.tsx`;
- `Header` models `Header.tsx`.

`Wrappers`, `Text`, `Seqs` and `JsValues` model the JavaScript built-ins the
code relies on:

- `split` and `join` on one character;
- `includes`, `startsWith` and `endsWith`;
- ASCII case mapping;
- truthiness;
- `filter`, `find` and `map`.

How the code and its surroundings are modelled:

- **Handlers** are named by an id (`HandlerId`). Whether a handler throws is
  a parameter function.
- **Service calls** (Supabase, the REST wrappers) are inputs. A
  `Fetch<T>` is what a call returned, or that it threw.
- **Time and randomness:** the clock, `Math.random` ids and the
  floating-point results of `toFixed` are inputs too.
- **Counters:** the page reloads and the preference writes are recorded in
  counter and log fields.

Three behaviours of the code a reader might not expect:

- **Routing:** inbound messages are not routed by key. Every message goes to
  every handler (`src/services/ws.ts:63-69`).
- **Manual close:** a manual close clears the registry and the queue when
  the socket reports `onclose` (`src/services/ws.ts:112-116`). The
  registry is not retained for a later `start`.
- **`onerror`:** it only clears the connecting flag and does not reconnect.

Behaviour worth knowing:

- **Capacity is checked before replacement.** `subscribe` checks capacity
  first. So re-subscribing an existing key on a full registry throws.
- **A replay on a full registry resends nothing.** On 100 entries, the
  replay after a reconnect throws at the first market or user key. It then
  resends nothing (`ReplayFullRegistry`).
- **The replay moves entries to the end.** It re-registers each market and
  user entry by delete-and-set. Such an entry therefore moves to the end of
  the map. The passed-over entries (futures and foreign keys) end up first,
  in their old order; the re-subscribed ones follow, in theirs
  (`ReplayRestores`).
- **User ids with `-` are cut.** A UUID, for example, is re-subscribed
  under its text before the first `-` (`ParseUserKeyDashedId`).
- **The hook's "keep" return never runs.** Among the hook's early returns,
  the "keep the existing subscription" one cannot run under React's
  protocol. React runs the previous cleanup, which clears the handle,
  before the effect runs again. `MarketSubscriptionHook.Rerun` proves that
  such a run is never `Kept`.
- **One search box value is shared.** On the page, the pair search and the
  order query box write the same `searchQuery` (`SharedSearchQuery`).
- **Preference ids are not checked.** The profile page takes a stored
  preference id as current without checking that such an account exists.
  The header falls back to the first account instead.

## Model

| member | source | states |
|---|---|---|
| `WsProtocol.UnsubscribeFrame` | src/services/ws.ts:171-189 | an unsubscribe frame exists exactly for subscribe_market and subscribe_usds_futures templates, is the matching unsubscribe type, and carries the template's symbol and streams; user data and a missing template send nothing |
| `WsProtocol.MarketKeyParts` | src/services/ws.ts:248 | splitting a market key on `-` gives `market`, then the parts of the symbol, then the parts of the joined streams |
| `WsProtocol.UserKeyParts` | src/services/ws.ts:259 | splitting a user key on `-` gives `user` and the parts of the id |
| `WsProtocol.ParseMarketKey` | src/services/ws.ts:133-136 | a market key whose symbol and streams hold neither `-` nor `&` parses back to exactly that symbol and those streams |
| `WsProtocol.ParseMarketKeyNoStreams` | src/services/ws.ts:133-136 | with no streams the replay reads one empty stream name, which builds the same key |
| `WsProtocol.ParseMarketKeyDashedSymbol` | src/services/ws.ts:133-136 | a symbol holding `-` is cut at its first `-` and the rest is read as the streams |
| `WsProtocol.ParseUserKey` | src/services/ws.ts:137-139 | a user key whose id has no `-` parses back to that id |
| `WsProtocol.ParseUserKeyDashedId` | src/services/ws.ts:137-139 | a user id holding `-` is replayed as its text before the first `-` |
| `WsProtocol.ParseFuturesKey` | src/services/ws.ts:133-140 | a usds_futures key is never replayed |
| `WsProtocol.MarketKeyRoundTrips` | src/services/ws.ts:247-254 | every market key parses as a market action, and re-creates itself when symbol and streams hold no `-` |
| `WsProtocol.UserKeyRoundTrips` | src/services/ws.ts:258-265 | a user key is replayed under the id's first `-`-part, so it re-creates itself when the id has no `-` |
| `WsProtocol.FuturesKeyRoundTrips` | src/services/ws.ts:269-276 | a futures key is passed over by the replay without error |
| `WsProtocol.KeyKindsDisjoint` | src/services/ws.ts:247-276 | market, user and futures keys never collide |
| `WsRegistry.Lookup` | src/services/ws.ts:152 | `has`/`get`: absent exactly when no entry has the key; a found handler is the key's entry |
| `WsRegistry.Handlers` | src/services/ws.ts:63 | `values()`: one handler per entry, in map order |
| `WsRegistry.RemoveIsFilter` | src/services/ws.ts:169 | `delete(k)` keeps every entry with another key, in order |
| `WsRegistry.LookupRemove` | src/services/ws.ts:169 | after `delete(k)` k is absent and every other key maps as before |
| `WsRegistry.LookupAppend` | src/services/ws.ts:156 | `set` of a new key maps it to its handler and changes no other key |
| `WsRegistry.LookupPut` | src/services/ws.ts:152-156 | after delete-and-set, k maps to h and every other key maps as before |
| `WsRegistry.LookupDistinct` | src/services/ws.ts:35 | with one entry per key, looking up an entry's key finds its handler |
| `WsRegistry.RemoveSize` | src/services/ws.ts:169 | delete keeps keys distinct and shrinks the registry by one exactly when the key was present |
| `WsRegistry.PutSize` | src/services/ws.ts:152-156 | delete-and-set keeps keys distinct and grows the registry by one exactly when the key was new |
| `WsRegistry.RemoveAbsent` | src/services/ws.ts:152-156 | deleting an absent key changes nothing, so a new key is appended |
| `WsRegistry.RemoveAt` | src/services/ws.ts:169 | with distinct keys, deleting the key at position i cuts out exactly that entry |
| `WsRegistry.RemoveIdempotent` | src/services/ws.ts:162-164 | calling the cancel closure twice is calling it once |
| `WsRegistry.Subscribed` | src/services/ws.ts:147-156 | `subscribe` fails exactly at 100 or more entries; otherwise the key maps to the new handler, no other key changes, keys stay distinct, at most 100 entries, and the size grows only for a new key |
| `WsRegistry.Unsubscribed` | src/services/ws.ts:168-169 | after `unsubscribe` the key is absent whatever handler it held, other keys are unchanged, a second call changes nothing, and the size drops only when the key was present |
| `WsDispatch.Resubscribe` | src/services/ws.ts:136-139 | a replayed subscribe throws exactly at capacity, changing nothing, and otherwise sends its template only when OPEN |
| `WsDispatch.ResubscribeSubscribed` | src/services/ws.ts:136-139 | a replayed subscribe changes the registry as `subscribe` does |
| `WsDispatch.Actions` | src/services/ws.ts:127-133 | one parsed key per snapshot entry |
| `WsDispatch.ActionsParsed` | src/services/ws.ts:127-133 | the i-th action is the parse of the i-th entry's key |
| `WsDispatch.ActionFrame` | src/services/ws.ts:134-140 | a frame is sent exactly for market and user actions |
| `WsDispatch.ReplayAbortedStays` | src/services/ws.ts:130-141 | once a batch throws, the rest of the replay is abandoned |
| `WsDispatch.ReplayPrefixStep` | src/services/ws.ts:130-132 | the replay of n entries is the replay of n - 1 followed by the n-th step |
| `WsDispatch.ReplaySkipsFutures` | src/services/ws.ts:133-140 | a futures entry is neither re-subscribed nor sent |
| `WsDispatch.ReplayStepAtCapacity` | src/services/ws.ts:147-150 | at capacity every market or user entry throws and other keys are passed over |
| `WsDispatch.ReplayAtCapacity` | src/services/ws.ts:126-150 | replaying from a full registry changes it not at all and sends nothing; it aborts exactly when a market or user key occurs |
| `WsDispatch.ReplayFullRegistry` | src/services/ws.ts:126-150 | the replay of a registry of 100 or more entries keeps it and resends nothing |
| `WsDispatch.ArrangedMove` | src/services/ws.ts:152-156 | a re-subscribed entry leaves its place and goes last |
| `WsDispatch.ArrangedSkip` | src/services/ws.ts:140-141 | an entry passed over stays where it is |
| `WsDispatch.ReplayPrefixArranges` | src/services/ws.ts:130-141 | after n entries of a round-tripping registry the replay has not thrown, the registry is the passed-over entries followed by the re-subscribed ones, and the frames of the first n went out |
| `WsDispatch.ReplayRestores` | src/services/ws.ts:126-145 | with distinct round-tripping keys below capacity the replay never throws, keeps every entry (passed-over first, re-subscribed after, each in order) and sends one template per market or user entry, in order, when OPEN |
| `WsDispatch.ReplayArranged` | src/services/ws.ts:126-145 | the whole replay of a tagged registry ends in the arrangement and all frames |
| `WsDispatch.DeliverTo` | src/services/ws.ts:63-69 | one message goes to every handler in map order, each call recorded with whether it threw |
| `WsDispatch.FanoutSnoc` | src/services/ws.ts:59-70 | a message appended to the queue is delivered after all earlier ones; a falsy one is skipped |
| `WsDispatch.FanoutAt` | src/services/ws.ts:59-70 | the drain is FIFO and complete: delivery k·\|handlers\|+j is the k-th present message to the j-th handler, whatever earlier handlers threw |
| `WsDispatch.FanoutSize` | src/services/ws.ts:59-70 | the drain makes one call per present message and handler |
| `WsService.WebSocketService.constructor` | src/services/ws.ts:31-53 | fresh state and one `connect`: a CONNECTING socket, nothing registered or queued |
| `WsService.WebSocketService.Connect` | src/services/ws.ts:75-81 | nothing while connecting, OPEN or manually closed; otherwise one new CONNECTING socket |
| `WsService.WebSocketService.Send` | src/services/ws.ts:194-204 | a frame is appended to the outbox exactly when the socket is OPEN |
| `WsService.WebSocketService.Unsubscribe` | src/services/ws.ts:168-191 | the key is removed whatever its handler, and the unsubscribe frame of the template goes out only when OPEN |
| `WsService.WebSocketService.Subscribe` | src/services/ws.ts:147-165 | at 100 entries the limit error with registry and outbox unchanged; otherwise the registry is `Subscribed`, the template goes out exactly when there is one and the socket is OPEN, and the handle captures key and template |
| `WsService.WebSocketService.Cancel` | src/services/ws.ts:162-164 | calling the returned closure is `unsubscribe(key, template)` |
| `WsService.WebSocketService.SubscribeMarket` | src/services/ws.ts:247-255 | subscribe under the market key with the subscribe_market template |
| `WsService.WebSocketService.SubscribeUserData` | src/services/ws.ts:258-266 | subscribe under the user key with the subscribe_user_data template |
| `WsService.WebSocketService.SubscribeUserDataOf` | src/services/ws.ts:137-139 | the replay's call, where the id may be undefined |
| `WsService.WebSocketService.SubscribeUsdsFutures` | src/services/ws.ts:269-277 | subscribe under the futures key with the subscribe_usds_futures template |
| `WsService.WebSocketService.ReplayEntry` | src/services/ws.ts:132-141 | one element of a batch performs exactly the next step of `Replay` |
| `WsService.WebSocketService.ReplayBatch` | src/services/ws.ts:130-141 | one batch performs the replay steps lo up to hi, stopping at the first throw |
| `WsService.WebSocketService.ResubscribeAll` | src/services/ws.ts:126-145 | registry and outbox end as `Replay` of the snapshot says |
| `WsService.WebSocketService.ProcessMessageQueue` | src/services/ws.ts:55-73 | a nested call changes nothing; otherwise the queue is emptied and the deliveries are the `Fanout` of the old queue to the current handlers |
| `WsService.WebSocketService.OnMessage` | src/services/ws.ts:93-101 | an unparsable frame is dropped; a parsed one is queued and, unless a drain is running, the whole queue is delivered |
| `WsService.WebSocketService.StopHeartbeat` | src/services/ws.ts:217-222 | no ping interval is left live |
| `WsService.WebSocketService.StartHeartbeat` | src/services/ws.ts:207-214 | exactly one ping interval is live |
| `WsService.WebSocketService.PingTick` | src/services/ws.ts:209-213 | a ping goes out only while OPEN |
| `WsService.WebSocketService.Cleanup` | src/services/ws.ts:225-229 | heartbeat stopped, drain flag cleared, queue emptied |
| `WsService.WebSocketService.TryReconnect` | src/services/ws.ts:232-244 | after 5 attempts nothing; otherwise one more attempt and one more pending `connect` |
| `WsService.WebSocketService.ReconnectTimerFires` | src/services/ws.ts:241-243 | the pending `connect` runs with its early return |
| `WsService.WebSocketService.OnOpen` | src/services/ws.ts:83-91 | OPEN, attempts reset, one ping interval, and registry and outbox as `Replay` of the registry on an OPEN socket |
| `WsService.WebSocketService.OnClose` | src/services/ws.ts:103-117 | cleanup always; after a manual close the registry is cleared and no reconnect is tried; otherwise the registry is kept and `tryReconnect` runs |
| `WsService.WebSocketService.OnError` | src/services/ws.ts:119-122 | only the connecting flag is cleared |
| `WsService.WebSocketService.Close` | src/services/ws.ts:280-284 | manual flag set, cleanup, and the socket is closing |
| `WsService.WebSocketService.Start` | src/services/ws.ts:287-290 | manual flag cleared, then `connect` |
| `MarketSubscription.Forwarded` | src/pages/spotTrading/hooks/useMarketSubscription.ts:41-52 | `onData` fires exactly for a market stream message of the current symbol while enabled whose data's `s` is the current symbol, and receives that data |
| `MarketSubscription.MarketSubscriptionHook.constructor` | src/pages/spotTrading/hooks/useMarketSubscription.ts:9-11 | the three refs start empty, `''` and false |
| `MarketSubscription.MarketSubscriptionHook.Release` | src/pages/spotTrading/hooks/useMarketSubscription.ts:22-25 | the held closure, if any, is called and cleared |
| `MarketSubscription.MarketSubscriptionHook.Effect` | src/pages/spotTrading/hooks/useMarketSubscription.ts:13-56 | keep exactly when the symbol is unchanged and a handle is held; otherwise the old subscription is cancelled; disabled or empty symbol leaves none; else one subscribeMarket for `['avgPrice']` whose handle is held |
| `MarketSubscription.MarketSubscriptionHook.Cleanup` | src/pages/spotTrading/hooks/useMarketSubscription.ts:57-63 | the held subscription is cancelled and the symbol ref cleared |
| `MarketSubscription.MarketSubscriptionHook.Rerun` | src/pages/spotTrading/hooks/useMarketSubscription.ts:13-64 | under React's cleanup-then-rerun protocol the keep branch is never taken; otherwise as `Effect` |
| `AuthSlice.RemovedByLogout` | src/store/features/authSlice.ts:34-54 | `logout` removes a key exactly when it matches `sb-…-auth-token` or is `user` (the fixed token key matches the pattern) |
| `AuthSlice.AfterLogout` | src/store/features/authSlice.ts:34-54 | a storage after logout has exactly its other keys, with their values |
| `AuthSlice.Storage.constructor` | src/store/features/authSlice.ts:40 | a storage holding exactly the given items |
| `AuthSlice.Storage.RemoveItem` | src/store/features/authSlice.ts:36 | `removeItem` deletes one key |
| `AuthSlice.Storage.RemoveAuthTokens` | src/store/features/authSlice.ts:40-44 | the `forEach` over the storage's keys removes exactly the token-pattern keys |
| `AuthSlice.Storage.RemoveAuthData` | src/store/features/authSlice.ts:36-54 | a storage's items end as `AfterLogout` of its items |
| `AuthSlice.AuthState.constructor` | src/store/features/authSlice.ts:11-17 | `initialState` |
| `AuthSlice.AuthState.SetUser` | src/store/features/authSlice.ts:23-27 | authenticated exactly when the payload is truthy; loading ends |
| `AuthSlice.AuthState.SetCurrentUser` | src/store/features/authSlice.ts:28-30 | only the current user changes |
| `AuthSlice.AuthState.SetCurrentUserRestrictions` | src/store/features/authSlice.ts:31-33 | only the restrictions change |
| `AuthSlice.AuthState.SetLoading` | src/store/features/authSlice.ts:61-63 | only the loading flag changes |
| `AuthSlice.AuthState.Logout` | src/store/features/authSlice.ts:34-60 | both storages end as `AfterLogout`, the user is signed out, and the selected account stays |
| `UiSlice.UiState.constructor` | src/store/features/uiSlice.ts:8-11 | not loading, default text |
| `UiSlice.UiState.SetPageLoading` | src/store/features/uiSlice.ts:17-19 | only the flag changes |
| `UiSlice.UiState.SetLoadingText` | src/store/features/uiSlice.ts:20-22 | only the text changes |
| `UiSlice.UiState.StartLoading` | src/store/features/uiSlice.ts:23-28 | loading, and the text is replaced only by a non-empty payload |
| `UiSlice.UiState.StopLoading` | src/store/features/uiSlice.ts:29-32 | back to the initial state whatever came before |
| `Text.Split` | src/services/ws.ts:133 | `split` gives at least one part and no part holds the separator |
| `Text.SplitJoin` | src/services/ws.ts:248 | joining parts free of the separator and splitting again gives the parts back |
| `Text.JoinSplit` | src/services/ws.ts:136 | splitting and joining again gives the text back |
| `Text.SplitSeparated` | src/pages/spotTrading/components/trading-form.tsx:34-35 | a text splits into two or more parts exactly when it holds the separator |
| `JsValues.TextOr` | src/pages/spotTrading/hooks/useMarketPairs.ts:36 | `x \|\| fallback` on text: the value unless absent or empty |
| `JsValues.NumberOr` | src/pages/spotTrading/hooks/useMarketPairs.ts:38-39 | `x \|\| fallback` on a number: the value unless absent or 0 |
| `PairSearch.Search` | src/pages/spotTrading/hooks/useMarketPairs.ts:68-79 | a blank query shows every pair; otherwise exactly the pairs whose symbol or base asset contains the query ignoring ASCII case, in list order |
| `SpotTradingPage.QueryOrders` | src/pages/spotTrading/index.tsx:155-164 | an empty query shows the whole history; otherwise exactly the orders whose id or symbol contains it ignoring ASCII case, in order |
| `SpotTradingPage.View` | src/pages/spotTrading/index.tsx:233-241 | the open view holds exactly the NEW orders and the history view exactly the others, in order |
| `SpotTradingPage.ViewsPartition` | src/pages/spotTrading/index.tsx:234-240 | the two views split the history as a multiset |
| `SpotTradingPage.CancelById` | src/pages/spotTrading/index.tsx:188-192 | orders with the id become CANCELED; no other order changes |
| `SpotTradingPage.CancelAllOpen` | src/pages/spotTrading/index.tsx:210-214 | the pair's NEW orders become CANCELED; no other order changes |
| `SpotTradingPage.OpenAfterCancel` | src/pages/spotTrading/index.tsx:183-199 | cancelling takes exactly the orders with that id off the open view |
| `SpotTradingPage.OpenAfterCancelAll` | src/pages/spotTrading/index.tsx:207-220 | cancel-all takes exactly the pair's orders off the open view |
| `SpotTradingPage.OrderQuery` | src/pages/spotTrading/index.tsx:151-167 | the query is active exactly for a non-empty query and the list is `QueryOrders` |
| `SpotTradingPage.SetSearchQuery` | src/pages/spotTrading/index.tsx:386 | the order box writes the shared query |
| `SpotTradingPage.ClearSearch` | src/pages/spotTrading/index.tsx:170-174 | empty query, whole history, query inactive |
| `SpotTradingPage.SelectForCancel` | src/pages/spotTrading/index.tsx:177-180 | the order is remembered and the dialog opens |
| `SpotTradingPage.CancelSelectedOrder` | src/pages/spotTrading/index.tsx:177-199 | choosing an order and confirming its dialog takes exactly the orders with its id off the open view |
| `SpotTradingPage.ConfirmCancelOrder` | src/pages/spotTrading/index.tsx:183-199 | nothing without a selection; otherwise both lists become `CancelById` and the dialog and selection clear |
| `SpotTradingPage.ConfirmCancelAllOrders` | src/pages/spotTrading/index.tsx:207-220 | both lists become `CancelAllOpen` for the selected pair |
| `SpotTradingPage.ViewModeChange` | src/pages/spotTrading/index.tsx:229-245 | the mode is set and the list is its `View` |
| `SpotTradingPage.PlaceOrder` | src/pages/spotTrading/index.tsx:248-272 | one NEW order of the selected pair goes first, priced as given for a limit order and at the last price for a market order |
| `SpotTradingPage.PlacedOrderIsOpen` | src/pages/spotTrading/index.tsx:256-269 | the new order heads the open view, followed by the previous open orders |
| `SpotTradingPage.SearchPairs` | src/pages/spotTrading/index.tsx:275-287 | the shared query is set and the pair list is `Search` |
| `SpotTradingPage.SharedSearchQuery` | src/pages/spotTrading/index.tsx:275-287 | an order query after a pair search filters the orders by the pair-search text, active exactly for a non-empty one |
| `SpotTradingPage.PairSelect` | src/pages/spotTrading/index.tsx:290-295 | the first pair with the symbol is selected; an unknown symbol changes nothing |
| `MarketPairs.FormatPair` | src/pages/spotTrading/hooks/useMarketPairs.ts:24-54 | names copied, change 0.00, fallbacks for absent or falsy values, and the order limits from the first filter of each type (none: defaults; no price filter: undefined) |
| `MarketPairs.FirstFilterIs` | src/pages/spotTrading/hooks/useMarketPairs.ts:26-30 | `find` on a filter type gives nothing exactly when there is none of that type, and the first one otherwise |
| `MarketPairs.FormatPairs` | src/pages/spotTrading/hooks/useMarketPairs.ts:18-24 | one pair per active symbol: the i-th pair is the formatting of the i-th active symbol |
| `MarketPairs.FormatPairsSymbols` | src/pages/spotTrading/hooks/useMarketPairs.ts:18-57 | the stored pairs' symbols are the active symbols' symbols, in list order |
| `MarketPairs.MarketPairsHook.constructor` | src/pages/spotTrading/hooks/useMarketPairs.ts:6-8 | no pairs, loading |
| `MarketPairs.MarketPairsHook.GetSymbols` | src/pages/spotTrading/hooks/useMarketPairs.ts:11-65 | without a user id nothing changes; a failed call gives `[]`; otherwise both lists are the formatted pairs; loading ends |
| `MarketPairs.MarketPairsHook.HandleSearch` | src/pages/spotTrading/hooks/useMarketPairs.ts:68-79 | only the filtered list changes, to `Search` |
| `TradingForm.DecimalPlaces` | src/pages/spotTrading/components/trading-form.tsx:33-37 | never more than the text's length |
| `TradingForm.DecimalPlacesNoPoint` | src/pages/spotTrading/components/trading-form.tsx:33-37 | a text without `.` has 0 decimals |
| `TradingForm.DecimalPlacesOf` | src/pages/spotTrading/components/trading-form.tsx:33-37 | the decimals are the digits between the first `.` and the next `.` or the end |
| `TradingForm.PriceDecimals` | src/pages/spotTrading/components/trading-form.tsx:71 | the quote precision, or 8 when it is 0 |
| `TradingForm.Accepted` | src/pages/spotTrading/components/trading-form.tsx:40-59 | empty input clears; input with a point and too many decimals becomes its truncation; anything else is kept as typed |
| `TradingForm.AcceptedVerbatim` | src/pages/spotTrading/components/trading-form.tsx:74-81 | a value whose fraction fits is stored verbatim |
| `TradingForm.TradingFormState.constructor` | src/pages/spotTrading/components/trading-form.tsx:19-23 | limit buy, empty fields |
| `TradingForm.TradingFormState.SetOrderType` | src/pages/spotTrading/components/trading-form.tsx:108-109 | only the order type changes |
| `TradingForm.TradingFormState.SetOrderSide` | src/pages/spotTrading/components/trading-form.tsx:114-127 | only the side changes |
| `TradingForm.TradingFormState.HandleAmountChange` | src/pages/spotTrading/components/trading-form.tsx:40-60 | the amount is `Accepted` with the step size's decimals, and the 0.00000001 fallback when its text is empty |
| `TradingForm.TradingFormState.HandlePriceChange` | src/pages/spotTrading/components/trading-form.tsx:63-82 | the price is `Accepted` with `PriceDecimals` of the pair |
| `TradingForm.TradingFormState.HandleSubmit` | src/pages/spotTrading/components/trading-form.tsx:84-98 | the request carries symbol, type, side and amount and a price only for limit orders; an enabled form sends a non-empty amount (and price for limit); the fields clear, which disables submitting again |
| `BinanceAccounts.Heads` | src/components/user-profile.tsx:216-220 | at most one character per part |
| `BinanceAccounts.HeadsAreFirstChars` | src/components/user-profile.tsx:217-220 | `map(part => part[0]).join('')` gives one character per non-empty part, the first character of the i-th non-empty part at position i; empty parts add nothing |
| `BinanceAccounts.Initials` | src/components/user-profile.tsx:216-223 | at most 2 characters, none an ASCII lower-case letter, a prefix of the upper-cased first characters of the parts, of length two or all of them when there are fewer |
| `BinanceAccounts.InitialsOfWord` | src/components/Header.tsx:98-105 | a one-word name gives its own first letter upper-cased |
| `BinanceAccounts.InitialsOfTwoWords` | src/components/user-profile.tsx:216-223 | the first two words decide the initials, whatever follows |
| `BinanceAccounts.InitialsSkipLeadingSpace` | src/components/Header.tsx:98-105 | an empty part (a leading space) contributes nothing |
| `BinanceAccounts.FindById` | src/components/Header.tsx:85-86 | nothing exactly when no account has the id; else a listed account with that id |
| `BinanceAccounts.FindByIdFirst` | src/components/Header.tsx:48 | the first account with the id is found |
| `UserProfile.Deleted` | src/components/user-profile.tsx:89-90 | a subsequence holding no account with the id and every account with another id |
| `UserProfile.DeleteUnlisted` | src/components/user-profile.tsx:89 | deleting an id that no account has leaves the list as it was |
| `UserProfile.Successor` | src/components/user-profile.tsx:93-98 | the first remaining account when the current one was deleted and others remain, none when none remain, otherwise unchanged |
| `UserProfile.DeleteKeepsListed` | src/components/user-profile.tsx:89-98 | deleting keeps a listed current id listed (or none) |
| `UserProfile.CurrentAfterAdd` | src/components/user-profile.tsx:155-158 | the new account becomes current only when the list was empty |
| `UserProfile.AddKeepsListed` | src/components/user-profile.tsx:152-158 | adding keeps a listed current id listed |
| `UserProfile.Replaced` | src/components/user-profile.tsx:193-195 | same length; entries with the updated id are replaced, others kept in place; an unknown id changes nothing |
| `UserProfile.ReplaceKeepsIds` | src/components/user-profile.tsx:193-195 | editing lists the same ids |
| `UserProfile.UserProfile.constructor` | src/components/user-profile.tsx:18-31 | no accounts, no current id, loading, dialogs closed, form cleared |
| `UserProfile.UserProfile.LoadUserData` | src/components/user-profile.tsx:44-67 | a stored id becomes current as it is; without one the first account becomes current and is persisted; with no accounts or a failed call the current id stays; loading ends |
| `UserProfile.UserProfile.SwitchUser` | src/components/user-profile.tsx:69-80 | the id becomes current, is persisted, and the page reloads |
| `UserProfile.UserProfile.DeleteUser` | src/components/user-profile.tsx:82-105 | the list becomes `Deleted` and the current id `Successor`, with a persisted switch or a reload as the code does it; a failed delete changes nothing; a listed current id stays listed |
| `UserProfile.UserProfile.ResetForm` | src/components/user-profile.tsx:121-128 | nickname, keys, avatar, preview and editing user are cleared |
| `UserProfile.UserProfile.AddUser` | src/components/user-profile.tsx:130-168 | the created account is appended, made current and persisted only when the list was empty, and the form clears; a failed call changes nothing, and the filled form (nickname, keys, avatar, preview) stays for a retry |
| `UserProfile.UserProfile.EditUser` | src/components/user-profile.tsx:170-205 | nothing without an account being edited or on failure, the filled form staying for a retry; otherwise the list becomes `Replaced` and the form clears; the current id is untouched |
| `UserProfile.UserProfile.OpenEditDialog` | src/components/user-profile.tsx:207-214 | the form is filled from the account; an empty avatar URL shows no preview |
| `Header.SelectCurrent` | src/components/Header.tsx:47-59 | a choice exactly for a non-empty list, always a listed account: the one with the stored id when present, else the first |
| `Header.SelectsFirstWithId` | src/components/Header.tsx:48-50 | with a stored id, the first account with that id is chosen |
| `Header.AvatarFallback` | src/components/Header.tsx:181-183 | the initials of the current account's nickname when it has one, otherwise "B"; at most 2 characters with no lower-case letter |
| `Header.HeaderState.constructor` | src/components/Header.tsx:24-30 | nothing loaded, no accounts, no current account |
| `Header.HeaderState.LoadBinanceAccounts` | src/components/Header.tsx:39-63 | the list as loaded; the current account is `SelectCurrent`; persisted only without a stored id, with accounts and a user id; a failed call stops there |
| `Header.HeaderState.OnAuthChange` | src/components/Header.tsx:32-37 | the accounts load once, the first time a user is signed in; the current account is always listed |
| `Header.HeaderState.SwitchBinanceUser` | src/components/Header.tsx:83-96 | an unknown id changes nothing and persists nothing; a listed one becomes current, is persisted with a user id, and the page reloads |

## Left out

- The real `WebSocket`, its URL and JSON encoding and decoding. Frames
  and inbound messages are datatypes; `readyState` is a field.
- Timer durations: the 3 s reconnect delay, the 30 s ping and the 1 s pause
  between replay batches. Firings are event methods (`ReconnectTimerFires`,
  `PingTick`). The pause is a step between batches that the model takes
  at once.
- Promise interleaving: `processMessageQueue` and `resubscribeAll` are
  sequential loops.
  - A handler's own asynchronous work is not modelled. Only whether its
    call throws is recorded.
  - Messages arriving while a batch waits are not interleaved with the
    replay.
- A `send` that throws inside `ws.send` (the `try` of `send`) is not
  modelled. Every frame handed over while OPEN is recorded.
- Events of a superseded socket (an old `ws` firing after a reconnect
  created a new one). `OnClose(current)` only distinguishes whether the
  closing socket is the current one.
- The singleton trick of the constructor (a second `new` returns the first
  instance). The model is one instance, which the hook receives.
- The handler of `useMarketSubscription` is the function `Forwarded`. The
  registry holds its id, and `onData` is not modelled further.
- `localStorage`/`sessionStorage` values other than keys and their string
  values. `Object.keys` is passed in as the list the loop walks.
- `AuthSlice.AuthState.Logout`: Supabase's own `auth.logout()`, the
  navigation, and the `Header`'s `handleLogout` are not modelled.
- The service layer (Supabase, axios and fetch wrappers). Each call's
  answer is an input; avatar upload is an input of the created or updated
  account.
- The loading effect of the spot-trading page. This covers the symbol fetch
  and the mock order history, which is filled in by a timer with the
  current clock.
- `UserProfile.UserProfile.SwitchUser`: a failing preference write,
  which skips the reload, is not modelled. The same holds in
  `DeleteUser`, `AddUser`, `LoadUserData` and
  `Header.HeaderState.SwitchBinanceUser`: every preference write succeeds.
- `UserProfile.UserProfile.LoadUserData`: the `withLoading` and
  `showLoading` overlay of the `useLoading` hook is not modelled, and
  the hook itself is not part of this model.
- Page handlers that run their work in a `setTimeout`. They are one step
  each, from the state when the handler runs to the state after its timer;
  the intermediate `isLoading` is not modelled.
- `handleCancelAndReplace` and `handleCancelAllOrders` of the page only
  open dialogs. The first is the same as `SelectForCancel`; the second is
  a flag.
- Floating point:
  - `toFixed` truncation and `Number(stepSize).toString()` are inputs of
    `HandleAmountChange`/`HandlePriceChange`;
  - the total of the trading form (`parseFloat(price) *
    parseFloat(amount)`) is left out;
  - the `step` attributes of the inputs are left out.
- `TradingForm.TradingFormState.HandleAmountChange`: the step text's
  fallback is modelled for an empty text only, as `||` does it. `NaN`
  printing as `"NaN"` is part of the input text.
- Unicode case mapping: `toLowerCase`/`toUpperCase` are ASCII only.
- `getInitials` on a name whose first character is outside the Basic
  Multilingual Plane reads half a surrogate pair in JavaScript. Strings
  here are sequences of characters.
- `handleFileChange` of the profile page (`src/components/user-profile.tsx:107-119`): the file picker, the chosen file and its `FileReader` preview are not modelled. `avatar` and `avatarPreview` change only through `ResetForm` and `OpenEditDialog`.
- Rendering: the JSX, translation tables and styling.
