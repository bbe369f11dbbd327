/** The wire vocabulary of the WebSocket service (src/services/ws.ts): the
    socket's ready state, outbound frames and their templates, inbound
    messages, subscription keys and the way a replay parses a key back. */
module WsProtocol {
  import opened Wrappers
  import opened Text

  /** `WebSocket.readyState`. */
  datatype ReadyState = Connecting | Open | Closing | Closed

  /** The `type` of an outbound frame. */
  datatype FrameType =
    | SubscribeMarket | UnsubscribeMarket
    | SubscribeUserData
    | SubscribeUsdsFutures | UnsubscribeUsdsFutures
    | Ping

  /** `payload: { symbol?, streams?, userId? }`; None is an absent field. */
  datatype Payload = Payload(symbol: Option<string>, streams: Option<seq<string>>, userId: Option<string>)

  /** A `SubscribeMessage` as handed to `ws.send` (JSON encoding left out). */
  datatype Frame = Frame(frameType: FrameType, payload: Payload)

  const PingFrame: Frame := Frame(Ping, Payload(None, None, None))

  function MarketTemplate(symbol: string, streams: seq<string>): Frame {
    Frame(SubscribeMarket, Payload(Some(symbol), Some(streams), None))
  }

  /** The template `subscribeUserData` builds; None stands for the JavaScript
      value undefined, which JSON encoding drops from the payload. */
  function UserTemplateOf(userId: Option<string>): Frame {
    Frame(SubscribeUserData, Payload(None, None, userId))
  }

  function UserTemplate(userId: string): Frame {
    UserTemplateOf(Some(userId))
  }

  function FuturesTemplate(symbol: string, streams: seq<string>): Frame {
    Frame(SubscribeUsdsFutures, Payload(Some(symbol), Some(streams), None))
  }

  /** The frame `unsubscribe` sends for the template its cancel handle holds:
      only subscribe_market and subscribe_usds_futures templates have an
      unsubscribe counterpart, carrying the template's symbol and streams. */
  function UnsubscribeFrame(template: Option<Frame>): (r: Option<Frame>)
    ensures r.Some? <==> template.Some? && template.value.frameType in {SubscribeMarket, SubscribeUsdsFutures}
    ensures r.Some? ==> r.value.payload == Payload(template.value.payload.symbol, template.value.payload.streams, None)
    ensures r.Some? ==> (r.value.frameType == UnsubscribeMarket <==> template.value.frameType == SubscribeMarket)
    ensures r.Some? ==> r.value.frameType in {UnsubscribeMarket, UnsubscribeUsdsFutures}
  {
    match template
    case None => None
    case Some(t) =>
      var payload := Payload(t.payload.symbol, t.payload.streams, None);
      match t.frameType
      case SubscribeMarket => Some(Frame(UnsubscribeMarket, payload))
      case SubscribeUsdsFutures => Some(Frame(UnsubscribeUsdsFutures, payload))
      case _ => None
  }

  /** Which market event a market message reports. */
  datatype MarketKind = MarketStreamOpen | MarketStreamMessage

  /** The part of a message's `data` the front end reads: the `s` field of the
      stream payload (None when `data` is null or has no `s`). */
  datatype StreamData = StreamData(s: Option<string>)

  /** An inbound message (`WSData`). */
  datatype WSData =
    | MarketData(kind: MarketKind, symbol: string, data: StreamData)
    | UsdsFuturesData(symbol: string, data: StreamData)
    | UserData(userId: string, data: StreamData)

  /** What `JSON.parse` made of an inbound frame: a syntax error, or a value,
      which is None when it is falsy (`null`, `0`, `false`, ...). */
  datatype Inbound = Unparsable | Parsed(value: Option<WSData>)

  /** `market-{symbol}-{streams joined by '&'}`. */
  function MarketKey(symbol: string, streams: seq<string>): string {
    "market-" + symbol + "-" + Join(streams, '&')
  }

  /** `user-{userId}`; None is a userId of undefined, printed by the template
      literal as the text `undefined`. */
  function UserKeyOf(userId: Option<string>): string {
    "user-" + userId.GetOr("undefined")
  }

  function UserKey(userId: string): string {
    UserKeyOf(Some(userId))
  }

  /** `usds_futures-{symbol}-{streams joined by '&'}`. */
  function FuturesKey(symbol: string, streams: seq<string>): string {
    "usds_futures-" + symbol + "-" + Join(streams, '&')
  }

  /** What `resubscribeAll` does with one key. `Malformed` is a market key with
      fewer than three parts, on which `streams.split('&')` throws. */
  datatype ReplayAction =
    | ReplayMarket(symbol: string, streams: seq<string>)
    | ReplayUser(userId: Option<string>)
    | NoReplay
    | Malformed

  /** `const [type, ...params] = key.split('-')` and what follows it. */
  function ParseKey(key: string): ReplayAction {
    var parts := Split(key, '-');
    if parts[0] == "market" then
      if |parts| >= 3 then ReplayMarket(parts[1], Split(parts[2], '&')) else Malformed
    else if parts[0] == "user" then
      ReplayUser(if |parts| >= 2 then Some(parts[1]) else None)
    else NoReplay
  }

  /** The actions on which the replay re-subscribes. */
  predicate Replays(a: ReplayAction) {
    a.ReplayMarket? || a.ReplayUser?
  }

  /** Replaying action `a`, read from `key`, re-creates exactly that key (and
      does not throw). */
  predicate RoundTripsAs(a: ReplayAction, key: string) {
    match a
    case ReplayMarket(symbol, streams) => MarketKey(symbol, streams) == key
    case ReplayUser(userId) => UserKeyOf(userId) == key
    case NoReplay => true
    case Malformed => false
  }

  /** The replay re-creates exactly the key it read. */
  predicate RoundTrips(key: string) {
    RoundTripsAs(ParseKey(key), key)
  }

  lemma MarketKeyParts(symbol: string, streams: seq<string>)
    ensures Split(MarketKey(symbol, streams), '-') == ["market"] + Split(symbol, '-') + Split(Join(streams, '&'), '-')
  {
    var j := Join(streams, '&');
    assert MarketKey(symbol, streams) == "market" + ['-'] + (symbol + ['-'] + j);
    SplitTagged("market", symbol + ['-'] + j, '-');
    SplitConcat(symbol, j, '-');
    ConsAssoc("market", Split(symbol, '-'), Split(j, '-'));
  }

  lemma UserKeyParts(userId: string)
    ensures Split(UserKey(userId), '-') == ["user"] + Split(userId, '-')
  {
    assert UserKey(userId) == "user" + ['-'] + userId;
    SplitTagged("user", userId, '-');
  }

  /** A market key whose symbol and streams hold neither '-' nor '&' parses
      back to that symbol and those streams, provided there is a stream. */
  lemma ParseMarketKey(symbol: string, streams: seq<string>)
    requires '-' !in symbol && |streams| >= 1
    requires forall i :: 0 <= i < |streams| ==> '-' !in streams[i] && '&' !in streams[i]
    ensures ParseKey(MarketKey(symbol, streams)) == ReplayMarket(symbol, streams)
  {
    MarketKeyParts(symbol, streams);
    JoinAvoids(streams, '&', '-');
    SplitNoSeparator(symbol, '-');
    SplitNoSeparator(Join(streams, '&'), '-');
    SplitJoin(streams, '&');
  }

  /** With no streams the key ends in '-', and the replay reads one empty
      stream name back: `[].join('&').split('&')` is `[""]`. The key itself is
      the same. */
  lemma ParseMarketKeyNoStreams(symbol: string)
    requires '-' !in symbol
    ensures ParseKey(MarketKey(symbol, [])) == ReplayMarket(symbol, [""])
    ensures MarketKey(symbol, [""]) == MarketKey(symbol, [])
  {
    MarketKeyParts(symbol, []);
    SplitNoSeparator(symbol, '-');
    assert Split([], '-') == [[]];
    assert Split([], '&') == [[]];
  }

  /** A symbol holding '-' is cut at its first '-' by the replay. */
  lemma ParseMarketKeyDashedSymbol(a: string, b: string, streams: seq<string>)
    requires '-' !in a && '-' !in b
    ensures ParseKey(MarketKey(a + "-" + b, streams)) == ReplayMarket(a, Split(b, '&'))
  {
    MarketKeyParts(a + "-" + b, streams);
    SplitConcat(a, b, '-');
    SplitNoSeparator(a, '-');
    SplitNoSeparator(b, '-');
  }

  lemma ParseUserKey(userId: string)
    requires '-' !in userId
    ensures ParseKey(UserKey(userId)) == ReplayUser(Some(userId))
  {
    UserKeyParts(userId);
    SplitNoSeparator(userId, '-');
  }

  /** A user id holding '-' (a UUID, say) is replayed as its text before the
      first '-'. */
  lemma ParseUserKeyDashedId(a: string, b: string)
    requires '-' !in a
    ensures ParseKey(UserKey(a + "-" + b)) == ReplayUser(Some(a))
  {
    UserKeyParts(a + "-" + b);
    SplitConcat(a, b, '-');
    SplitNoSeparator(a, '-');
  }

  /** usds_futures keys are never replayed. */
  lemma ParseFuturesKey(symbol: string, streams: seq<string>)
    ensures ParseKey(FuturesKey(symbol, streams)) == NoReplay
  {
    var rest := symbol + "-" + Join(streams, '&');
    var key := FuturesKey(symbol, streams);
    assert key == "usds_futures" + ['-'] + rest;
    SplitTagged("usds_futures", rest, '-');
    var head := Split(key, '-')[0];
    assert head == "usds_futures";
    assert head[0] == 'u' && head[1] == 's' && head[2] == 'd';
    assert head != "market" && head != "user";
  }

  /** Every key the three subscribe functions build parses without error, and
      round-trips when its symbol, streams or user id hold no '-'. The key
      round trip does not need the streams to avoid '&'. */
  lemma MarketKeyRoundTrips(symbol: string, streams: seq<string>)
    ensures ParseKey(MarketKey(symbol, streams)).ReplayMarket?
    ensures '-' !in symbol && (forall i :: 0 <= i < |streams| ==> '-' !in streams[i]) ==> RoundTrips(MarketKey(symbol, streams))
  {
    MarketKeyParts(symbol, streams);
    if '-' !in symbol && (forall i :: 0 <= i < |streams| ==> '-' !in streams[i]) {
      var j := Join(streams, '&');
      JoinAvoids(streams, '&', '-');
      SplitNoSeparator(symbol, '-');
      SplitNoSeparator(j, '-');
      JoinSplit(j, '&');
    }
  }

  lemma UserKeyRoundTrips(userId: string)
    ensures ParseKey(UserKey(userId)) == ReplayUser(Some(Split(userId, '-')[0]))
    ensures '-' !in userId ==> RoundTrips(UserKey(userId))
  {
    UserKeyParts(userId);
    if '-' !in userId {
      ParseUserKey(userId);
    }
  }

  lemma FuturesKeyRoundTrips(symbol: string, streams: seq<string>)
    ensures RoundTrips(FuturesKey(symbol, streams))
  {
    ParseFuturesKey(symbol, streams);
  }

  /** Keys of different kinds never collide. */
  lemma KeyKindsDisjoint(s1: string, st1: seq<string>, u: string, s2: string, st2: seq<string>)
    ensures MarketKey(s1, st1) != UserKey(u)
    ensures MarketKey(s1, st1) != FuturesKey(s2, st2)
    ensures UserKey(u) != FuturesKey(s2, st2)
  {
    assert MarketKey(s1, st1)[0] == 'm' && UserKey(u)[0] == 'u' && FuturesKey(s2, st2)[0] == 'u';
    assert UserKey(u)[2] == 'e' && FuturesKey(s2, st2)[2] == 'd';
  }
}
