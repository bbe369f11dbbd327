/** What the two loops of the WebSocket service compute, as functions: the
    replay of `resubscribeAll` over a snapshot of the registry, and the
    fan-out of `processMessageQueue`, which hands every queued message to
    every handler. */
module WsDispatch {
  import opened Wrappers
  import opened Text
  import opened Seqs
  import opened WsProtocol
  import opened WsRegistry

  /** The registry and the frames sent after some of the replay, and whether a
      throw has ended it (the rejected promise of `resubscribeAll`). */
  datatype Replayed = Replayed(registry: seq<Entry>, sent: seq<Frame>, aborted: bool)

  /** A re-call of `subscribeMarket`/`subscribeUserData` from the replay: it
      throws at capacity; otherwise it re-registers and sends the template
      when the socket is OPEN. */
  function Resubscribe(es: seq<Entry>, key: string, h: HandlerId, template: Frame, open: bool): (r: Replayed)
    ensures r.aborted <==> |es| >= MaxSubscriptions
    ensures !r.aborted ==> r.sent == (if open then [template] else [])
    ensures r.aborted ==> r.registry == es && r.sent == []
  {
    if |es| >= MaxSubscriptions then Replayed(es, [], true)
    else Replayed(Put(es, key, h), if open then [template] else [], false)
  }

  /** A replayed subscribe changes the registry as `subscribe` does. */
  lemma ResubscribeSubscribed(es: seq<Entry>, key: string, h: HandlerId, template: Frame, open: bool)
    ensures var r := Resubscribe(es, key, h, template, open);
      !r.aborted <==> Subscribed(es, key, h).Some?
    ensures var r := Resubscribe(es, key, h, template, open);
      !r.aborted ==> r.registry == Subscribed(es, key, h).value && Lookup(r.registry, key) == Some(h)
  {
  }

  /** One entry of the replay batch, given what `ParseKey` made of its key:
      market and user keys are re-subscribed; a market key too short to parse
      throws; other keys are passed over. */
  function ReplayStep(a: ReplayAction, e: Entry, es: seq<Entry>, open: bool): Replayed {
    match a
    case ReplayMarket(symbol, streams) =>
      Resubscribe(es, MarketKey(symbol, streams), e.handler, MarketTemplate(symbol, streams), open)
    case ReplayUser(userId) =>
      Resubscribe(es, UserKeyOf(userId), e.handler, UserTemplateOf(userId), open)
    case NoReplay => Replayed(es, [], false)
    case Malformed => Replayed(es, [], true)
  }

  /** The parsed key of every entry of a snapshot. */
  function Actions(es: seq<Entry>): (acts: seq<ReplayAction>)
    ensures |acts| == |es|
  {
    seq(|es|, i requires 0 <= i < |es| => ParseKey(es[i].key))
  }

  /** `acts` holds the parsed key of every entry of `es`. */
  predicate ParsedAs(es: seq<Entry>, acts: seq<ReplayAction>) {
    |acts| == |es| && forall i {:trigger ParseKey(es[i].key)} :: 0 <= i < |es| ==> acts[i] == ParseKey(es[i].key)
  }

  lemma ActionsParsed(es: seq<Entry>)
    ensures ParsedAs(es, Actions(es))
  {
  }

  /** The replay of the first n entries of the snapshot, whose parsed keys are
      `acts`, starting from registry `start`; once a step has thrown, nothing
      more happens. */
  function ReplayPrefix(snapshot: seq<Entry>, acts: seq<ReplayAction>, n: nat, start: seq<Entry>, open: bool): Replayed
    requires n <= |snapshot| == |acts|
  {
    if n == 0 then Replayed(start, [], false)
    else
      var r := ReplayPrefix(snapshot, acts, n - 1, start, open);
      if r.aborted then r
      else
        var s := ReplayStep(acts[n - 1], snapshot[n - 1], r.registry, open);
        Replayed(s.registry, r.sent + s.sent, s.aborted)
  }

  /** `resubscribeAll` on the registry `es`, whose snapshot is `es` itself. */
  function Replay(es: seq<Entry>, open: bool): Replayed {
    ReplayPrefix(es, Actions(es), |es|, es, open)
  }

  /** The entries the replay re-subscribes. */
  predicate Replayable(e: Entry) {
    Replays(ParseKey(e.key))
  }

  predicate NotReplayable(e: Entry) { !Replayable(e) }

  /** The frame the replay sends for an action it re-subscribes on. */
  function ActionFrame(a: ReplayAction): (f: Option<Frame>)
    ensures f.Some? <==> Replays(a)
  {
    match a
    case ReplayMarket(symbol, streams) => Some(MarketTemplate(symbol, streams))
    case ReplayUser(userId) => Some(UserTemplateOf(userId))
    case _ => None
  }

  /** One frame per re-subscribing action, in order. */
  function Frames(acts: seq<ReplayAction>): seq<Frame> {
    if acts == [] then []
    else
      var init := Frames(acts[..|acts| - 1]);
      match ActionFrame(acts[|acts| - 1])
      case Some(f) => init + [f]
      case None => init
  }

  /** The reference list of frames a replay of `es` sends: one per replayable
      entry, in order. */
  function ReplayFrames(es: seq<Entry>): seq<Frame> {
    Frames(Actions(es))
  }

  /** A thrown step ends the replay for good. */
  lemma {:induction false} ReplayAbortedStays(snapshot: seq<Entry>, acts: seq<ReplayAction>, n: nat, m: nat, start: seq<Entry>, open: bool)
    requires n <= m <= |snapshot| == |acts|
    requires ReplayPrefix(snapshot, acts, n, start, open).aborted
    ensures ReplayPrefix(snapshot, acts, m, start, open) == ReplayPrefix(snapshot, acts, n, start, open)
    decreases m - n
  {
    if m > n {
      ReplayAbortedNext(snapshot, acts, n, start, open);
      ReplayAbortedStays(snapshot, acts, n + 1, m, start, open);
    }
  }

  lemma ReplayAbortedNext(snapshot: seq<Entry>, acts: seq<ReplayAction>, n: nat, start: seq<Entry>, open: bool)
    requires n < |snapshot| == |acts|
    requires ReplayPrefix(snapshot, acts, n, start, open).aborted
    ensures ReplayPrefix(snapshot, acts, n + 1, start, open) == ReplayPrefix(snapshot, acts, n, start, open)
  {
  }

  lemma ReplayPrefixNext(snapshot: seq<Entry>, acts: seq<ReplayAction>, n: nat, start: seq<Entry>, open: bool)
    requires n < |snapshot| == |acts| && !ReplayPrefix(snapshot, acts, n, start, open).aborted
    ensures var r := ReplayPrefix(snapshot, acts, n, start, open);
      var s := ReplayStep(acts[n], snapshot[n], r.registry, open);
      ReplayPrefix(snapshot, acts, n + 1, start, open) == Replayed(s.registry, r.sent + s.sent, s.aborted)
  {
  }

  /** The replay after n entries, from the state after n - 1 and the last step. */
  lemma ReplayPrefixStep(snapshot: seq<Entry>, acts: seq<ReplayAction>, n: nat, start: seq<Entry>, open: bool,
                         reg: seq<Entry>, sent: seq<Frame>, s: Replayed)
    requires 0 < n <= |snapshot| == |acts|
    requires ReplayPrefix(snapshot, acts, n - 1, start, open) == Replayed(reg, sent, false)
    requires ReplayStep(acts[n - 1], snapshot[n - 1], reg, open) == s
    ensures ReplayPrefix(snapshot, acts, n, start, open) == Replayed(s.registry, sent + s.sent, s.aborted)
  {
  }

  /** usds_futures entries are never replayed. */
  lemma ReplaySkipsFutures(symbol: string, streams: seq<string>, h: HandlerId, es: seq<Entry>, open: bool)
    ensures ReplayStep(ParseKey(FuturesKey(symbol, streams)), Entry(FuturesKey(symbol, streams), h), es, open) == Replayed(es, [], false)
    ensures !Replayable(Entry(FuturesKey(symbol, streams), h))
  {
    ParseFuturesKey(symbol, streams);
  }

  /** At capacity a market or user entry throws and any other key is passed
      over. */
  lemma ReplayStepAtCapacity(a: ReplayAction, e: Entry, es: seq<Entry>, open: bool)
    requires |es| >= MaxSubscriptions
    ensures ReplayStep(a, e, es, open) == Replayed(es, [], !a.NoReplay?)
  {
    match a
    case ReplayMarket(symbol, streams) =>
      assert Subscribed(es, MarketKey(symbol, streams), e.handler).None?;
    case ReplayUser(userId) =>
      assert Subscribed(es, UserKeyOf(userId), e.handler).None?;
    case NoReplay =>
    case Malformed =>
  }

  /** At capacity the replay sends nothing and changes nothing: the capacity
      check of `subscribe` comes before the same-key replacement, so the first
      market or user entry already throws. */
  lemma {:induction false} ReplayAtCapacity(snapshot: seq<Entry>, acts: seq<ReplayAction>, n: nat, start: seq<Entry>, open: bool)
    requires n <= |snapshot| == |acts| && |start| >= MaxSubscriptions
    ensures var r := ReplayPrefix(snapshot, acts, n, start, open);
      r.registry == start && r.sent == []
      && (r.aborted <==> exists i :: 0 <= i < n && !acts[i].NoReplay?)
  {
    if n > 0 {
      ReplayAtCapacity(snapshot, acts, n - 1, start, open);
      var r := ReplayPrefix(snapshot, acts, n - 1, start, open);
      if !r.aborted {
        ReplayStepAtCapacity(acts[n - 1], snapshot[n - 1], start, open);
      } else {
        var i :| 0 <= i < n - 1 && !acts[i].NoReplay?;
        assert 0 <= i < n && !acts[i].NoReplay?;
      }
    }
  }

  /** The replay of a full registry (100 entries or more) aborts as soon as it
      meets a market or user entry, and resends nothing. */
  lemma ReplayFullRegistry(es: seq<Entry>, open: bool)
    requires |es| >= MaxSubscriptions
    ensures Replay(es, open).registry == es && Replay(es, open).sent == []
    ensures Replay(es, open).aborted <==> exists i :: 0 <= i < |es| && !ParseKey(es[i].key).NoReplay?
  {
    ReplayAtCapacity(es, Actions(es), |es|, es, open);
    assert forall i :: 0 <= i < |es| ==> Actions(es)[i] == ParseKey(es[i].key);
  }

  /** The registry after a replay has handled the first n entries of `es`,
      re-subscribing those satisfying p and passing over those satisfying q
      (its negation): the entries passed over, the entries still to come, then
      the re-subscribed ones, which `delete` and `set` moved to the end. */
  function Arranged(es: seq<Entry>, n: nat, p: Entry -> bool, q: Entry -> bool): seq<Entry>
    requires n <= |es|
  {
    Filter(es[..n], q) + es[n..] + Filter(es[..n], p)
  }

  lemma ArrangedSize(es: seq<Entry>, n: nat, p: Entry -> bool, q: Entry -> bool)
    requires n <= |es| && forall x :: q(x) == !p(x)
    ensures |Arranged(es, n, p, q)| == |es|
  {
    FilterPartition(es[..n], p, q);
  }

  /** Every entry of `Filter(es[..n], p)` has a key other than es[n]'s. */
  lemma FilterPrefixAvoids(es: seq<Entry>, n: nat, p: Entry -> bool)
    requires DistinctKeys(es) && n < |es|
    ensures Remove(Filter(es[..n], p), es[n].key) == Filter(es[..n], p)
  {
    var f := Filter(es[..n], p);
    FilterMembers(es[..n], p);
    forall i | 0 <= i < |f| ensures f[i].key != es[n].key {
      assert f[i] in es[..n];
      var j :| 0 <= j < n && es[..n][j] == f[i];
      assert es[j] == f[i];
    }
    RemoveIsFilter(f, es[n].key);
    FilterAll(f, (e: Entry) => e.key != es[n].key);
  }

  lemma TailRemoveHead(es: seq<Entry>, n: nat)
    requires DistinctKeys(es) && n < |es|
    ensures Remove(es[n..], es[n].key) == es[n + 1..]
  {
    var tail := es[n..];
    assert DistinctKeys(tail) by {
      forall i, j | 0 <= i < j < |tail| ensures tail[i].key != tail[j].key {
        assert tail[i] == es[n + i] && tail[j] == es[n + j];
      }
    }
    RemoveAt(tail, 0);
    assert tail[..0] + tail[1..] == es[n + 1..];
  }

  /** Deleting es[n]'s key cuts es[n] out of the arrangement. */
  lemma RemoveFromArranged(es: seq<Entry>, n: nat, p: Entry -> bool, q: Entry -> bool)
    requires DistinctKeys(es) && n < |es|
    ensures Remove(Arranged(es, n, p, q), es[n].key) == Filter(es[..n], q) + es[n + 1..] + Filter(es[..n], p)
  {
    var k := es[n].key;
    var r := (e: Entry) => e.key != k;
    var a, b, c := Filter(es[..n], q), es[n..], Filter(es[..n], p);
    FilterConcat(a + b, c, r);
    FilterConcat(a, b, r);
    RemoveIsFilter(a + b + c, k);
    RemoveIsFilter(a, k);
    RemoveIsFilter(b, k);
    RemoveIsFilter(c, k);
    FilterPrefixAvoids(es, n, q);
    FilterPrefixAvoids(es, n, p);
    TailRemoveHead(es, n);
  }

  lemma FilterSnoc(s: seq<Entry>, x: Entry, p: Entry -> bool)
    ensures Filter(s + [x], p) == Filter(s, p) + (if p(x) then [x] else [])
  {
    FilterConcat(s, [x], p);
    assert Filter([x], p) == if p(x) then [x] else [];
  }

  lemma FilterPrefixNext(es: seq<Entry>, n: nat, p: Entry -> bool)
    requires n < |es|
    ensures Filter(es[..n + 1], p) == Filter(es[..n], p) + (if p(es[n]) then [es[n]] else [])
  {
    assert es[..n + 1] == es[..n] + [es[n]];
    FilterSnoc(es[..n], es[n], p);
  }

  /** A re-subscribed entry leaves its place and goes last. */
  lemma ArrangedMove(es: seq<Entry>, n: nat, p: Entry -> bool, q: Entry -> bool)
    requires DistinctKeys(es) && n < |es| && p(es[n]) && !q(es[n])
    ensures Arranged(es, n + 1, p, q) == Remove(Arranged(es, n, p, q), es[n].key) + [es[n]]
  {
    FilterPrefixNext(es, n, q);
    FilterPrefixNext(es, n, p);
    RemoveFromArranged(es, n, p, q);
    var a, b, c := Filter(es[..n], q), es[n + 1..], Filter(es[..n], p);
    assert a + b + (c + [es[n]]) == (a + b + c) + [es[n]];
  }

  /** An entry passed over stays where it is. */
  lemma ArrangedSkip(es: seq<Entry>, n: nat, p: Entry -> bool, q: Entry -> bool)
    requires n < |es| && !p(es[n]) && q(es[n])
    ensures Arranged(es, n + 1, p, q) == Arranged(es, n, p, q)
  {
    FilterPrefixNext(es, n, q);
    FilterPrefixNext(es, n, p);
    var a, c := Filter(es[..n], q), Filter(es[..n], p);
    assert es[n..] == [es[n]] + es[n + 1..];
    assert (a + [es[n]]) + es[n + 1..] + c == a + es[n..] + c;
  }

  /** Once every entry is handled, the passed-over ones come first. */
  lemma ArrangedAll(es: seq<Entry>, p: Entry -> bool, q: Entry -> bool)
    ensures Arranged(es, |es|, p, q) == Filter(es, q) + Filter(es, p)
    ensures es[..|es|] == es
  {
    assert es[..|es|] == es && es[|es|..] == [];
  }

  lemma ResubscribeBelowCapacity(es: seq<Entry>, key: string, h: HandlerId, template: Frame, open: bool)
    requires |es| < MaxSubscriptions
    ensures Resubscribe(es, key, h, template, open) == Replayed(Put(es, key, h), if open then [template] else [], false)
  {
  }

  /** The step of a round-tripping entry re-subscribes it under its own key. */
  lemma ReplayStepOwnKey(a: ReplayAction, e: Entry, es: seq<Entry>, open: bool)
    requires |es| < MaxSubscriptions && RoundTripsAs(a, e.key)
    ensures ReplayStep(a, e, es, open)
         == if Replays(a) then Replayed(Put(es, e.key, e.handler), if open then [ActionFrame(a).value] else [], false)
            else Replayed(es, [], false)
  {
    match a
    case ReplayMarket(symbol, streams) =>
      ResubscribeBelowCapacity(es, MarketKey(symbol, streams), e.handler, MarketTemplate(symbol, streams), open);
    case ReplayUser(userId) =>
      ResubscribeBelowCapacity(es, UserKeyOf(userId), e.handler, UserTemplateOf(userId), open);
    case NoReplay =>
  }

  /** Every entry of `es` is replayed (satisfies p) exactly when its action
      re-subscribes, and every action round-trips its entry's key. */
  predicate Tagged(es: seq<Entry>, acts: seq<ReplayAction>, p: Entry -> bool) {
    |acts| == |es|
    && forall i :: 0 <= i < |es| ==> p(es[i]) == Replays(acts[i]) && RoundTripsAs(acts[i], es[i].key)
  }

  /** One more replay step on a registry whose keys all round-trip. */
  lemma ReplayStepArranges(es: seq<Entry>, acts: seq<ReplayAction>, n: nat, open: bool, p: Entry -> bool, q: Entry -> bool)
    requires DistinctKeys(es) && n < |es| && |es| < MaxSubscriptions && forall x :: q(x) == !p(x)
    requires Tagged(es, acts, p)
    ensures ReplayStep(acts[n], es[n], Arranged(es, n, p, q), open)
         == Replayed(Arranged(es, n + 1, p, q), if open && Replays(acts[n]) then [ActionFrame(acts[n]).value] else [], false)
  {
    assert p(es[n]) == Replays(acts[n]) && RoundTripsAs(acts[n], es[n].key);
    ArrangedSize(es, n, p, q);
    ReplayStepOwnKey(acts[n], es[n], Arranged(es, n, p, q), open);
    if p(es[n]) {
      ArrangedMove(es, n, p, q);
    } else {
      ArrangedSkip(es, n, p, q);
    }
  }

  lemma FramesSnoc(acts: seq<ReplayAction>, n: nat)
    requires n < |acts|
    ensures Frames(acts[..n + 1])
         == Frames(acts[..n]) + if Replays(acts[n]) then [ActionFrame(acts[n]).value] else []
  {
    var a := acts[..n + 1];
    assert a[..|a| - 1] == acts[..n] && a[|a| - 1] == acts[n];
  }

  /** After n entries the replay has thrown nowhere, the registry is the
      arrangement after n entries and the frames of the first n actions went
      out. */
  predicate ArrangedAt(es: seq<Entry>, acts: seq<ReplayAction>, n: nat, open: bool, p: Entry -> bool, q: Entry -> bool)
    requires n <= |es| == |acts|
  {
    ReplayPrefix(es, acts, n, es, open)
      == Replayed(Arranged(es, n, p, q), if open then Frames(acts[..n]) else [], false)
  }

  /** Before the replay has handled any entry the registry is untouched. */
  lemma ArrangedStart(es: seq<Entry>, acts: seq<ReplayAction>, open: bool, p: Entry -> bool, q: Entry -> bool)
    requires |es| == |acts|
    ensures ArrangedAt(es, acts, 0, open, p, q)
  {
    assert es[..0] == [] && es[0..] == es && acts[..0] == [];
  }

  lemma ArrangedNext(es: seq<Entry>, acts: seq<ReplayAction>, n: nat, open: bool, p: Entry -> bool, q: Entry -> bool)
    requires DistinctKeys(es) && 0 < n <= |es| && |es| < MaxSubscriptions && forall x :: q(x) == !p(x)
    requires Tagged(es, acts, p)
    requires ArrangedAt(es, acts, n - 1, open, p, q)
    ensures ArrangedAt(es, acts, n, open, p, q)
  {
    var reg := Arranged(es, n - 1, p, q);
    var sent := if open then Frames(acts[..n - 1]) else [];
    var s := Replayed(Arranged(es, n, p, q), if open && Replays(acts[n - 1]) then [ActionFrame(acts[n - 1]).value] else [], false);
    ReplayStepArranges(es, acts, n - 1, open, p, q);
    ReplayPrefixStep(es, acts, n, es, open, reg, sent, s);
    if open {
      FramesSnoc(acts, n - 1);
      assert sent + s.sent == Frames(acts[..n]);
    } else {
      assert sent + s.sent == [];
    }
  }

  /** Replaying a registry with distinct keys that all round-trip and room for
      one more entry throws nowhere, sends one template per market or user
      entry in registry order (when OPEN), keeps every entry, and leaves the
      re-subscribed ones at the end in their old order. */
  lemma {:induction false} ReplayPrefixArranges(es: seq<Entry>, acts: seq<ReplayAction>, n: nat, open: bool, p: Entry -> bool, q: Entry -> bool)
    requires DistinctKeys(es) && n <= |es| && |es| < MaxSubscriptions && forall x :: q(x) == !p(x)
    requires Tagged(es, acts, p)
    ensures ArrangedAt(es, acts, n, open, p, q)
  {
    if n == 0 {
      ArrangedStart(es, acts, open, p, q);
    } else {
      ReplayPrefixArranges(es, acts, n - 1, open, p, q);
      ArrangedNext(es, acts, n, open, p, q);
    }
  }

  lemma ReplayRestores(es: seq<Entry>, open: bool)
    requires DistinctKeys(es) && |es| < MaxSubscriptions
    requires forall i :: 0 <= i < |es| ==> RoundTrips(es[i].key)
    ensures !Replay(es, open).aborted
    ensures Replay(es, open).registry == Filter(es, NotReplayable) + Filter(es, Replayable)
    ensures Replay(es, open).sent == if open then ReplayFrames(es) else []
  {
    ActionsTagged(es);
    ReplayArranged(es, Actions(es), open, Replayable, NotReplayable);
  }

  lemma ReplayArranged(es: seq<Entry>, acts: seq<ReplayAction>, open: bool, p: Entry -> bool, q: Entry -> bool)
    requires DistinctKeys(es) && |es| < MaxSubscriptions && forall x :: q(x) == !p(x)
    requires Tagged(es, acts, p)
    ensures ReplayPrefix(es, acts, |es|, es, open)
         == Replayed(Filter(es, q) + Filter(es, p), if open then Frames(acts) else [], false)
  {
    ReplayPrefixArranges(es, acts, |es|, open, p, q);
    ArrangedAll(es, p, q);
    assert acts[..|es|] == acts;
  }

  lemma ActionsTagged(es: seq<Entry>)
    requires forall i :: 0 <= i < |es| ==> RoundTrips(es[i].key)
    ensures Tagged(es, Actions(es), Replayable)
  {
  }

  /** One call of a handler by the drain loop, and whether it threw. */
  datatype Delivery = Delivery(handler: HandlerId, data: WSData, threw: bool)

  /** The inner `for` over `messageHandlers.values()` for one message. */
  function DeliverTo(hs: seq<HandlerId>, m: WSData, throws: (HandlerId, WSData) -> bool): (ds: seq<Delivery>)
    ensures |ds| == |hs|
    ensures forall j :: 0 <= j < |hs| ==> ds[j] == Delivery(hs[j], m, throws(hs[j], m))
  {
    seq(|hs|, j requires 0 <= j < |hs| => Delivery(hs[j], m, throws(hs[j], m)))
  }

  /** The messages of a queue that the drain delivers: falsy values
      (`if (!data) continue`) are dropped, the rest kept in order. */
  function Present(q: seq<Option<WSData>>): seq<WSData> {
    if q == [] then []
    else if q[0].Some? then [q[0].value] + Present(q[1..])
    else Present(q[1..])
  }

  /** Every handler call the drain of queue q makes, in order. */
  function Fanout(q: seq<Option<WSData>>, hs: seq<HandlerId>, throws: (HandlerId, WSData) -> bool): seq<Delivery> {
    if q == [] then []
    else if q[0].Some? then DeliverTo(hs, q[0].value, throws) + Fanout(q[1..], hs, throws)
    else Fanout(q[1..], hs, throws)
  }

  lemma {:induction false} FanoutSnoc(q: seq<Option<WSData>>, m: Option<WSData>, hs: seq<HandlerId>, throws: (HandlerId, WSData) -> bool)
    ensures Fanout(q + [m], hs, throws)
         == Fanout(q, hs, throws) + (if m.Some? then DeliverTo(hs, m.value, throws) else [])
    decreases |q|
  {
    if q == [] {
      assert [] + [m] == [m];
      assert [m][1..] == [];
    } else {
      assert (q + [m])[0] == q[0] && (q + [m])[1..] == q[1..] + [m];
      FanoutSnoc(q[1..], m, hs, throws);
    }
  }

  /** The drain is FIFO and complete: the k-th delivered message goes to every
      handler in map order before the next message goes to any, and a handler
      that throws stops neither. */
  lemma {:induction false} FanoutAt(q: seq<Option<WSData>>, hs: seq<HandlerId>, throws: (HandlerId, WSData) -> bool, k: nat, j: nat)
    requires k < |Present(q)| && j < |hs|
    ensures |Fanout(q, hs, throws)| == |Present(q)| * |hs|
    ensures k * |hs| + j < |Fanout(q, hs, throws)|
    ensures Fanout(q, hs, throws)[k * |hs| + j] == Delivery(hs[j], Present(q)[k], throws(hs[j], Present(q)[k]))
    decreases |q|
  {
    FanoutSize(q, hs, throws);
    IndexBound(k, |Present(q)|, j, |hs|);
    if q[0].Some? {
      var first := DeliverTo(hs, q[0].value, throws);
      var rest := Fanout(q[1..], hs, throws);
      assert Fanout(q, hs, throws) == first + rest;
      if k == 0 {
        assert (first + rest)[j] == first[j];
      } else {
        FanoutAt(q[1..], hs, throws, k - 1, j);
        var i := (k - 1) * |hs| + j;
        assert k * |hs| + j == |first| + i;
        assert (first + rest)[|first| + i] == rest[i];
      }
    } else {
      FanoutAt(q[1..], hs, throws, k, j);
    }
  }

  /** Position j of block k lies inside n blocks of m. */
  lemma IndexBound(k: nat, n: nat, j: nat, m: nat)
    requires k < n && j < m
    ensures k * m + j < n * m
  {
    assert (k + 1) * m <= n * m;
  }

  lemma {:induction false} FanoutSize(q: seq<Option<WSData>>, hs: seq<HandlerId>, throws: (HandlerId, WSData) -> bool)
    ensures |Fanout(q, hs, throws)| == |Present(q)| * |hs|
    decreases |q|
  {
    if q != [] {
      FanoutSize(q[1..], hs, throws);
      if q[0].Some? {
        assert |Present(q)| * |hs| == |hs| + |Present(q[1..])| * |hs|;
      }
    }
  }
}
