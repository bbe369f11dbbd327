/** The subscription registry of the WebSocket service: the
    `Map<string, MessageHandler>` `messageHandlers`, as its entries in
    insertion order. `delete` drops an entry; `set` on a key that was just
    deleted appends it at the end, so a replaced key moves last. */
module WsRegistry {
  import opened Wrappers
  import opened Seqs

  /** Handlers are callbacks in the source; here they are named by an id. */
  type HandlerId = nat

  const MaxSubscriptions: nat := 100

  datatype Entry = Entry(key: string, handler: HandlerId)

  predicate DistinctKeys(es: seq<Entry>) {
    forall i, j :: 0 <= i < j < |es| ==> es[i].key != es[j].key
  }

  /** `messageHandlers.get(k)`. */
  function Lookup(es: seq<Entry>, k: string): (r: Option<HandlerId>)
    ensures r.None? <==> forall i :: 0 <= i < |es| ==> es[i].key != k
    ensures r.Some? ==> Entry(k, r.value) in es
    decreases |es|
  {
    if es == [] then None
    else if es[0].key == k then Some(es[0].handler)
    else Lookup(es[1..], k)
  }

  /** `messageHandlers.values()`, in map order. */
  function Handlers(es: seq<Entry>): (hs: seq<HandlerId>)
    ensures |hs| == |es|
    ensures forall i :: 0 <= i < |es| ==> hs[i] == es[i].handler
  {
    seq(|es|, i requires 0 <= i < |es| => es[i].handler)
  }

  /** `messageHandlers.delete(k)`. */
  function Remove(es: seq<Entry>, k: string): seq<Entry>
    decreases |es|
  {
    if es == [] then []
    else if es[0].key == k then Remove(es[1..], k)
    else [es[0]] + Remove(es[1..], k)
  }

  /** Deleting a key keeps the entries with other keys, in order. */
  lemma {:induction false} RemoveIsFilter(es: seq<Entry>, k: string)
    ensures Remove(es, k) == Filter(es, (e: Entry) => e.key != k)
    decreases |es|
  {
    if es != [] {
      RemoveIsFilter(es[1..], k);
    }
  }

  /** `delete(k)` followed by `set(k, h)`. */
  function Put(es: seq<Entry>, k: string, h: HandlerId): seq<Entry> {
    Remove(es, k) + [Entry(k, h)]
  }

  lemma {:induction false} LookupRemove(es: seq<Entry>, k: string, k': string)
    ensures Lookup(Remove(es, k), k') == if k' == k then None else Lookup(es, k')
    decreases |es|
  {
    if es != [] {
      LookupRemove(es[1..], k, k');
      var p := (e: Entry) => e.key != k;
      if p(es[0]) {
        assert Remove(es, k) == [es[0]] + Remove(es[1..], k);
        assert ([es[0]] + Remove(es[1..], k))[1..] == Remove(es[1..], k);
      }
    }
  }

  lemma LookupAppend(es: seq<Entry>, k: string, h: HandlerId, k': string)
    requires Lookup(es, k).None?
    ensures Lookup(es + [Entry(k, h)], k') == if k' == k then Some(h) else Lookup(es, k')
    decreases |es|
  {
    if es != [] {
      assert (es + [Entry(k, h)])[1..] == es[1..] + [Entry(k, h)];
      LookupAppend(es[1..], k, h, k');
    }
  }

  /** After `Put(es, k, h)` k maps to h and every other key maps as before:
      one handler per key, and replacing a key touches no other. */
  lemma LookupPut(es: seq<Entry>, k: string, h: HandlerId, k': string)
    ensures Lookup(Put(es, k, h), k') == if k' == k then Some(h) else Lookup(es, k')
  {
    LookupRemove(es, k, k);
    LookupRemove(es, k, k');
    LookupAppend(Remove(es, k), k, h, k');
  }

  lemma LookupDistinct(es: seq<Entry>, i: nat)
    requires DistinctKeys(es) && i < |es|
    ensures Lookup(es, es[i].key) == Some(es[i].handler)
    decreases i
  {
    if i > 0 {
      LookupDistinct(es[1..], i - 1);
    }
  }

  lemma {:induction false} RemoveSize(es: seq<Entry>, k: string)
    requires DistinctKeys(es)
    ensures DistinctKeys(Remove(es, k))
    ensures |Remove(es, k)| == if Lookup(es, k).Some? then |es| - 1 else |es|
    decreases |es|
  {
    if es != [] {
      RemoveSize(es[1..], k);
      var p := (e: Entry) => e.key != k;
      if p(es[0]) {
        var r := Remove(es[1..], k);
        RemoveIsFilter(es[1..], k);
        FilterMembers(es[1..], p);
        assert Remove(es, k) == [es[0]] + r;
        forall i | 0 <= i < |r| ensures r[i].key != es[0].key {
          assert r[i] in es[1..];
        }
      } else {
        assert Lookup(es[1..], k).None?;
      }
    }
  }

  lemma PutSize(es: seq<Entry>, k: string, h: HandlerId)
    requires DistinctKeys(es)
    ensures DistinctKeys(Put(es, k, h))
    ensures |Put(es, k, h)| == if Lookup(es, k).Some? then |es| else |es| + 1
  {
    RemoveSize(es, k);
    var r := Remove(es, k);
    RemoveIsFilter(es, k);
    FilterMembers(es, (e: Entry) => e.key != k);
    forall i | 0 <= i < |r| ensures r[i].key != k {
      assert p: r[i] in es && r[i].key != k;
    }
  }

  /** Deleting an absent key changes nothing, so `set` on a new key appends. */
  lemma RemoveAbsent(es: seq<Entry>, k: string)
    requires Lookup(es, k).None?
    ensures Remove(es, k) == es
  {
    RemoveIsFilter(es, k);
    FilterAll(es, (e: Entry) => e.key != k);
  }

  /** With distinct keys, deleting the key at position i cuts out exactly that
      entry. */
  lemma {:induction false} RemoveAt(es: seq<Entry>, i: nat)
    requires DistinctKeys(es) && i < |es|
    ensures Remove(es, es[i].key) == es[..i] + es[i + 1..]
    decreases i
  {
    var k := es[i].key;
    var tail := es[1..];
    assert DistinctKeys(tail) by {
      forall a, b | 0 <= a < b < |tail| ensures tail[a].key != tail[b].key {
        assert tail[a] == es[a + 1] && tail[b] == es[b + 1];
      }
    }
    if i == 0 {
      assert forall j :: 0 <= j < |tail| ==> tail[j].key != k by {
        forall j | 0 <= j < |tail| ensures tail[j].key != k {
          assert tail[j] == es[j + 1];
        }
      }
      RemoveAbsent(tail, k);
    } else {
      assert tail[i - 1] == es[i];
      RemoveAt(tail, i - 1);
      assert es[..i] == [es[0]] + tail[..i - 1];
      assert es[i + 1..] == tail[i..];
    }
  }

  /** Deleting twice is deleting once. */
  lemma RemoveIdempotent(es: seq<Entry>, k: string)
    ensures Remove(Remove(es, k), k) == Remove(es, k)
  {
    var r := Remove(es, k);
    RemoveIsFilter(es, k);
    RemoveIsFilter(r, k);
    FilterMembers(es, (e: Entry) => e.key != k);
    FilterAll(r, (e: Entry) => e.key != k);
  }

  /** `subscribe`'s effect on the registry: None is the capacity error, checked
      before the same-key replacement; otherwise the key maps to the handler,
      no other key changes, and the size grows by one exactly when the key is
      new. */
  function Subscribed(es: seq<Entry>, k: string, h: HandlerId): (r: Option<seq<Entry>>)
    ensures r.None? <==> |es| >= MaxSubscriptions
    ensures r.Some? ==> Lookup(r.value, k) == Some(h)
    ensures r.Some? ==> forall k' :: k' != k ==> Lookup(r.value, k') == Lookup(es, k')
    ensures r.Some? && DistinctKeys(es) ==> DistinctKeys(r.value) && |r.value| <= MaxSubscriptions
    ensures r.Some? && DistinctKeys(es) ==> |r.value| == if Lookup(es, k).Some? then |es| else |es| + 1
  {
    if |es| >= MaxSubscriptions then None
    else
      LookupPut(es, k, h, k);
      assert forall k' :: k' != k ==> Lookup(Put(es, k, h), k') == Lookup(es, k') by {
        forall k' | k' != k ensures Lookup(Put(es, k, h), k') == Lookup(es, k') {
          LookupPut(es, k, h, k');
        }
      }
      if DistinctKeys(es) then
        PutSize(es, k, h);
        Some(Put(es, k, h))
      else
        Some(Put(es, k, h))
  }

  /** `unsubscribe`'s effect on the registry: the key is gone whatever handler
      it held, nothing else changes, and doing it again changes nothing. */
  function Unsubscribed(es: seq<Entry>, k: string): (r: seq<Entry>)
    ensures Lookup(r, k).None?
    ensures forall k' :: k' != k ==> Lookup(r, k') == Lookup(es, k')
    ensures Remove(r, k) == r
    ensures DistinctKeys(es) ==> DistinctKeys(r) && |r| == if Lookup(es, k).Some? then |es| - 1 else |es|
  {
    LookupRemove(es, k, k);
    assert forall k' :: k' != k ==> Lookup(Remove(es, k), k') == Lookup(es, k') by {
      forall k' | k' != k ensures Lookup(Remove(es, k), k') == Lookup(es, k') {
        LookupRemove(es, k, k');
      }
    }
    RemoveIdempotent(es, k);
    if DistinctKeys(es) then
      RemoveSize(es, k);
      Remove(es, k)
    else
      Remove(es, k)
  }
}
