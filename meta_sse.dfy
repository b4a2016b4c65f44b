/**
 * The shared live-update connections of src/hooks/use-meta-sse.ts: a pool
 * holding at most one `EventSource` per page id with a reference count,
 * the `useMetaSSE` subscribe/cleanup pair, and the routing of a
 * `message-inserted` event to cache invalidations.
 */
module MetaSse {
  import opened Wrappers
  import opened QueryKey
  import opened Browser
  import opened UrlEncoding
  import MetaKeys
  import MetaQuery
  import Strings

  // ===== reference counts as a value =====

  /** `getOrCreateConnection` on the counts alone. */
  function Acquire(counts: map<string, int>, pageId: string): (r: map<string, int>)
    ensures r.Keys == counts.Keys + {pageId}
    ensures r[pageId] == if pageId in counts then counts[pageId] + 1 else 1
    ensures forall q :: q in counts && q != pageId ==> r[q] == counts[q]
  {
    if pageId in counts then counts[pageId := counts[pageId] + 1] else counts[pageId := 1]
  }

  /** `releaseConnection` on the counts alone. */
  function Release(counts: map<string, int>, pageId: string): (r: map<string, int>)
    ensures pageId !in counts ==> r == counts
    ensures pageId in counts && counts[pageId] - 1 <= 0 ==> r == counts - {pageId}
    ensures pageId in counts && counts[pageId] - 1 > 0 ==> r == counts[pageId := counts[pageId] - 1]
  {
    if pageId !in counts then counts
    else if counts[pageId] - 1 <= 0 then counts - {pageId}
    else counts[pageId := counts[pageId] - 1]
  }

  function AcquireTimes(counts: map<string, int>, pageId: string, n: nat): map<string, int> {
    if n == 0 then counts else Acquire(AcquireTimes(counts, pageId, n - 1), pageId)
  }

  function ReleaseTimes(counts: map<string, int>, pageId: string, k: nat): map<string, int> {
    if k == 0 then counts else Release(ReleaseTimes(counts, pageId, k - 1), pageId)
  }

  lemma {:induction false} AcquireTimesCount(counts: map<string, int>, pageId: string, n: nat)
    requires pageId !in counts && n >= 1
    ensures AcquireTimes(counts, pageId, n) == counts[pageId := n]
  {
    if n > 1 {
      AcquireTimesCount(counts, pageId, n - 1);
    }
  }

  lemma {:induction false} ReleaseTimesCount(counts: map<string, int>, pageId: string, n: nat, k: nat)
    requires pageId !in counts && n >= 1
    ensures ReleaseTimes(counts[pageId := n], pageId, k) ==
      if k < n then counts[pageId := n - k] else counts
  {
    if k > 0 {
      ReleaseTimesCount(counts, pageId, n, k - 1);
      if k - 1 < n {
        if k < n {
          assert counts[pageId := n - (k - 1)][pageId := n - k] == counts[pageId := n - k];
        } else {
          assert counts[pageId := 1] - {pageId} == counts;
        }
      }
    }
  }

  /** After n acquires and k releases of a page id with no entry: one entry
      with count n - k while k < n, no entry from the n-th release on, and
      every other page id as it was. */
  lemma RefCounting(counts: map<string, int>, pageId: string, n: nat, k: nat)
    requires pageId !in counts && n >= 1
    ensures var r := ReleaseTimes(AcquireTimes(counts, pageId, n), pageId, k);
      && (k < n ==> pageId in r && r[pageId] == n - k)
      && (k >= n ==> pageId !in r)
      && forall q :: q != pageId ==> (q in r <==> q in counts) && (q in r ==> r[q] == counts[q])
  {
    AcquireTimesCount(counts, pageId, n);
    ReleaseTimesCount(counts, pageId, n, k);
  }

  // ===== the pool =====

  const PagesPrefix := "/meta/pages/"

  /** `${BE_URL}/meta/pages/${encodeURIComponent(pageId)}/sse`: after the
      pages prefix the path has exactly two segments, the encoded page id
      and `sse`, because the encoding never writes a `/`. */
  function SseUrl(beUrl: string, pageId: string): (u: string)
    ensures Strings.StartsWith(u, beUrl + PagesPrefix)
    ensures Strings.Split(u[|beUrl + PagesPrefix|..], "/") == [EncodeUriComponent(pageId), SseWord]
  {
    var id := EncodeUriComponent(pageId);
    SseWordPlain();
    PrefixedSegments(beUrl + PagesPrefix, id, SseWord);
    beUrl + PagesPrefix + id + "/" + SseWord
  }

  const SseWord := "sse"

  lemma SseWordPlain()
    ensures Strings.Avoids(SseWord, '/')
  {
  }

  /** After a prefix, two texts without `/` joined by one `/` split back
      into the two. */
  lemma PrefixedSegments(pre: string, id: string, w: string)
    requires forall k :: 0 <= k < |id| ==> id[k] == '%' || UriUnreserved(id[k])
    requires Strings.Avoids(w, '/')
    ensures Strings.StartsWith(pre + id + "/" + w, pre)
    ensures Strings.Split((pre + id + "/" + w)[|pre|..], "/") == [id, w]
  {
    var u := pre + id + "/" + w;
    TwoSegments(id, w);
    assert u[|pre|..] == id + "/" + w;
    assert u[..|pre|] == pre;
  }

  /** Two texts without `/` joined by one `/` split back into the two. */
  lemma TwoSegments(id: string, w: string)
    requires forall k :: 0 <= k < |id| ==> id[k] == '%' || UriUnreserved(id[k])
    requires Strings.Avoids(w, '/')
    ensures Strings.Split(id + "/" + w, "/") == [id, w]
  {
    var parts := [id, w];
    assert Strings.Avoids(id, '/');
    assert Strings.Join(parts, "/") == id + "/" + w by { assert parts[1..] == [w]; }
    Strings.SplitJoinChar(parts, '/');
  }

  /** Different page ids get different stream URLs, so the pool's one
      connection per page id is one connection per URL. */
  lemma SseUrlInjective(beUrl: string, p: string, q: string)
    requires SseUrl(beUrl, p) == SseUrl(beUrl, q)
    ensures p == q
  {
    var n := |beUrl + PagesPrefix|;
    assert Strings.Split(SseUrl(beUrl, p)[n..], "/")[0] == EncodeUriComponent(p);
    assert Strings.Split(SseUrl(beUrl, q)[n..], "/")[0] == EncodeUriComponent(q);
    EncodeUriComponentInjective(p, q);
  }

  /** `{ es, refCount }`. The source bumps `refCount` in place; no other
      reference to the record exists, so replacing it is the same. */
  datatype Connection = Connection(es: EventSource, refCount: int)

  function Counts(pool: map<string, Connection>): (counts: map<string, int>)
    ensures counts.Keys == pool.Keys
  {
    map p | p in pool :: pool[p].refCount
  }

  /** The pool after `getOrCreateConnection`, `es` being the connection
      it opens when the page has none. */
  function Acquired(pool: map<string, Connection>, pageId: string, es: EventSource): (r: map<string, Connection>)
    ensures r.Keys == pool.Keys + {pageId}
  {
    if pageId in pool then pool[pageId := pool[pageId].(refCount := pool[pageId].refCount + 1)]
    else pool[pageId := Connection(es, 1)]
  }

  /** The pool after `releaseConnection`. */
  function Released(pool: map<string, Connection>, pageId: string): (r: map<string, Connection>)
  {
    if pageId !in pool then pool
    else if pool[pageId].refCount - 1 <= 0 then pool - {pageId}
    else pool[pageId := pool[pageId].(refCount := pool[pageId].refCount - 1)]
  }

  /** Every entry holds a credentialed connection to its own page's stream,
      no two entries share a connection, and every count is positive. */
  ghost predicate PoolOk(beUrl: string, pool: map<string, Connection>) {
    UrlsOk(beUrl, pool) && Distinct(pool) && Positive(pool)
  }

  ghost predicate UrlsOk(beUrl: string, pool: map<string, Connection>) {
    forall p :: p in pool ==> pool[p].es.url == SseUrl(beUrl, p) && pool[p].es.withCredentials
  }

  ghost predicate Distinct(pool: map<string, Connection>) {
    forall p, q :: p in pool && q in pool && p != q ==> pool[p].es != pool[q].es
  }

  predicate Positive(pool: map<string, Connection>) {
    forall p :: p in pool ==> pool[p].refCount >= 1
  }

  lemma AcquiredOk(beUrl: string, pool: map<string, Connection>, pageId: string, es: EventSource)
    requires PoolOk(beUrl, pool)
    requires pageId !in pool ==> es.url == SseUrl(beUrl, pageId) && es.withCredentials
    requires pageId !in pool ==> forall p :: p in pool ==> pool[p].es != es
    ensures PoolOk(beUrl, Acquired(pool, pageId, es))
    ensures Counts(Acquired(pool, pageId, es)) == Acquire(Counts(pool), pageId)
  {
    AcquiredCounts(pool, pageId, es);
    AcquiredUrls(beUrl, pool, pageId, es);
    AcquiredDistinct(pool, pageId, es);
    AcquiredPositive(pool, pageId, es);
  }

  lemma AcquiredUrls(beUrl: string, pool: map<string, Connection>, pageId: string, es: EventSource)
    requires UrlsOk(beUrl, pool)
    requires pageId !in pool ==> es.url == SseUrl(beUrl, pageId) && es.withCredentials
    ensures UrlsOk(beUrl, Acquired(pool, pageId, es))
  {
    var r := Acquired(pool, pageId, es);
    forall p | p in r ensures r[p].es.url == SseUrl(beUrl, p) && r[p].es.withCredentials {
      if p in pool {
        assert r[p].es == pool[p].es;
      } else {
        assert p == pageId && r[p].es == es;
      }
    }
  }

  lemma AcquiredDistinct(pool: map<string, Connection>, pageId: string, es: EventSource)
    requires Distinct(pool)
    requires pageId !in pool ==> forall p :: p in pool ==> pool[p].es != es
    ensures Distinct(Acquired(pool, pageId, es))
  {
    var r := Acquired(pool, pageId, es);
    assert forall p :: p in r ==> r[p].es == if p in pool then pool[p].es else es;
  }

  lemma AcquiredPositive(pool: map<string, Connection>, pageId: string, es: EventSource)
    requires Positive(pool)
    ensures Positive(Acquired(pool, pageId, es))
  {
  }

  lemma AcquiredCounts(pool: map<string, Connection>, pageId: string, es: EventSource)
    ensures Counts(Acquired(pool, pageId, es)) == Acquire(Counts(pool), pageId)
  {
  }

  lemma ReleasedOk(beUrl: string, pool: map<string, Connection>, pageId: string)
    requires PoolOk(beUrl, pool)
    ensures PoolOk(beUrl, Released(pool, pageId))
    ensures Counts(Released(pool, pageId)) == Release(Counts(pool), pageId)
  {
    ReleasedCounts(pool, pageId);
    ReleasedKeeps(pool, pageId);
  }

  /** Releasing keeps every remaining entry's connection and leaves no
      count below one. */
  lemma ReleasedKeeps(pool: map<string, Connection>, pageId: string)
    requires Positive(pool)
    ensures Positive(Released(pool, pageId))
    ensures forall p :: p in Released(pool, pageId) ==> p in pool && Released(pool, pageId)[p].es == pool[p].es
  {
  }

  lemma ReleasedCounts(pool: map<string, Connection>, pageId: string)
    ensures Counts(Released(pool, pageId)) == Release(Counts(pool), pageId)
  {
  }

  /** The three listeners one `useMetaSSE` effect registers. */
  function SubscriptionListeners(owner: nat): seq<Listener> {
    [Listener("ready", owner), Listener("keepalive", owner), Listener("message-inserted", owner)]
  }

  /** What one effect run of `useMetaSSE` holds for its cleanup. */
  datatype Subscription = Subscription(pageId: string, es: EventSource, owner: nat)

  class ConnectionPool {
    const beUrl: string
    var pool: map<string, Connection>

    ghost predicate Valid()
      reads this
    {
      PoolOk(beUrl, pool)
    }

    function RefCounts(): (counts: map<string, int>)
      reads this
      ensures counts.Keys == pool.Keys
    {
      Counts(pool)
    }

    constructor (beUrl: string)
      ensures Valid() && this.beUrl == beUrl && pool == map[]
    {
      this.beUrl := beUrl;
      pool := map[];
    }

    /** `getOrCreateConnection`: the existing connection with one more
        reference, or a new credentialed connection with one reference. */
    method GetOrCreateConnection(pageId: string) returns (es: EventSource)
      requires Valid()
      modifies this
      ensures Valid()
      ensures RefCounts() == Acquire(old(RefCounts()), pageId)
      ensures pool == Acquired(old(pool), pageId, es)
      ensures pageId in old(pool) ==> es == old(pool[pageId].es)
      ensures pageId !in old(pool) ==> fresh(es) && es.readyState == Connecting && es.listeners == []
    {
      if pageId in pool {
        es := pool[pageId].es;
      } else {
        es := new EventSource(SseUrl(beUrl, pageId), true);
      }
      AcquiredOk(beUrl, pool, pageId, es);
      pool := Acquired(pool, pageId, es);
    }

    /** `releaseConnection`: one reference fewer; at zero the connection is
        closed and the entry deleted. `closeThrows` stands for `close()`
        throwing: the entry is deleted anyway (`finally`) and the exception
        propagates (`thrown`). */
    method ReleaseConnection(pageId: string, closeThrows: bool) returns (thrown: bool)
      requires Valid()
      modifies this, if pageId in pool then {pool[pageId].es} else {}
      ensures Valid()
      ensures RefCounts() == Release(old(RefCounts()), pageId)
      ensures pool == Released(old(pool), pageId)
      ensures thrown == (closeThrows && pageId in old(pool) && old(pool[pageId].refCount) == 1)
      ensures pageId in old(pool) ==>
        && old(pool[pageId].es).readyState ==
             (if old(pool[pageId].refCount) == 1 && !closeThrows then Closed else old(pool[pageId].es.readyState))
        && old(pool[pageId].es).listeners == old(pool[pageId].es.listeners)
    {
      thrown := false;
      if pageId !in pool {
        return;
      }
      var existing := pool[pageId];
      ReleasedOk(beUrl, pool, pageId);
      pool := Released(pool, pageId);
      if existing.refCount - 1 <= 0 {
        if closeThrows {
          thrown := true;
        } else {
          existing.es.Close();
        }
      }
    }

    /** One run of `useMetaSSE`'s effect. Disabled or without a page id it
        does nothing; otherwise it takes a reference on the page's shared
        connection and registers its own three listeners there. */
    method Subscribe(pageId: Option<string>, enabled: bool, owner: nat)
      returns (sub: Option<Subscription>)
      requires Valid()
      requires pageId.Some? && pageId.value in pool ==> NotListening(pool[pageId.value].es.listeners, owner)
      modifies this, if pageId.Some? && pageId.value in pool then {pool[pageId.value].es} else {}
      ensures Valid()
      ensures !enabled || pageId.None? || pageId.value == "" ==>
        && sub.None? && pool == old(pool)
        && (pageId.Some? && pageId.value in pool ==> unchanged(pool[pageId.value].es))
      ensures enabled && pageId.Some? && pageId.value != "" ==>
        && sub.Some? && sub.value.pageId == pageId.value && sub.value.owner == owner
        && pool == Acquired(old(pool), pageId.value, sub.value.es)
        && RefCounts() == Acquire(old(RefCounts()), pageId.value)
        && (pageId.value in old(pool) ==> sub.value.es == old(pool[pageId.value].es))
        && sub.value.es.listeners == (if pageId.value in old(pool) then old(pool[pageId.value].es.listeners) else [])
                                     + SubscriptionListeners(owner)
    {
      if !enabled || pageId.None? || pageId.value == "" {
        return None;
      }
      var p := pageId.value;
      var es := GetOrCreateConnection(p);
      Listen(es, owner);
      sub := Some(Subscription(p, es, owner));
    }

    /** The cleanup of that effect run: its three listeners come off and
        exactly one reference is released; when the page has no entry any
        more, the release does nothing. */
    method Unsubscribe(sub: Subscription, closeThrows: bool) returns (thrown: bool)
      requires Valid()
      requires sub.pageId in pool ==> pool[sub.pageId].es == sub.es
      modifies this, sub.es
      ensures Valid()
      ensures pool == Released(old(pool), sub.pageId)
      ensures RefCounts() == Release(old(RefCounts()), sub.pageId)
      ensures sub.es.listeners == Unlistened(old(sub.es.listeners), sub.owner)
      ensures thrown == (closeThrows && sub.pageId in old(pool) && old(pool[sub.pageId].refCount) == 1)
      ensures sub.es.readyState ==
        (if sub.pageId in old(pool) && old(pool[sub.pageId].refCount) == 1 && !closeThrows then Closed
         else old(sub.es.readyState))
    {
      Unlisten(sub.es, sub.owner);
      thrown := ReleaseConnection(sub.pageId, closeThrows);
    }
  }

  predicate NotListening(ls: seq<Listener>, owner: nat) {
    forall l :: l in ls ==> l.owner != owner
  }

  /** The listener list once one subscription's three listeners are gone. */
  function Unlistened(ls: seq<Listener>, owner: nat): seq<Listener> {
    Without(Without(Without(ls, Listener("ready", owner)), Listener("keepalive", owner)),
            Listener("message-inserted", owner))
  }

  /** Subscribing then unsubscribing leaves a connection's listeners as they
      were. */
  lemma ListenUnlisten(ls: seq<Listener>, owner: nat)
    requires NotListening(ls, owner)
    ensures Unlistened(ls + SubscriptionListeners(owner), owner) == ls
  {
    var a := Listener("ready", owner);
    var b := Listener("keepalive", owner);
    var c := Listener("message-inserted", owner);
    assert a.event[0] == 'r' && b.event[0] == 'k' && c.event[0] == 'm';
    assert [a, b, c][1..] == [b, c] && [b, c][1..] == [c];
    WithoutAppend(ls, [a, b, c], a);
    assert Without([c], a) == [c] + Without([], a);
    assert Without([b, c], a) == [b] + Without([c], a);
    assert Without([a, b, c], a) == [b, c];
    WithoutAppend(ls, [b, c], b);
    assert Without([c], b) == [c] + Without([], b);
    assert Without([b, c], b) == [c];
    WithoutAppend(ls, [c], c);
    assert Without([c], c) == [];
  }

  lemma {:induction false} WithoutAppend(xs: seq<Listener>, ys: seq<Listener>, l: Listener)
    requires l !in xs
    ensures Without(xs + ys, l) == xs + Without(ys, l)
  {
    if |xs| > 0 {
      assert (xs + ys)[0] == xs[0] && (xs + ys)[1..] == xs[1..] + ys;
      assert xs[0] != l;
      WithoutAppend(xs[1..], ys, l);
      assert xs == [xs[0]] + xs[1..];
    } else {
      assert xs + ys == ys;
    }
  }

  method Listen(es: EventSource, owner: nat)
    requires NotListening(es.listeners, owner)
    modifies es
    ensures es.listeners == old(es.listeners) + SubscriptionListeners(owner)
    ensures es.readyState == old(es.readyState)
  {
    es.AddEventListener(Listener("ready", owner));
    es.AddEventListener(Listener("keepalive", owner));
    es.AddEventListener(Listener("message-inserted", owner));
  }

  method Unlisten(es: EventSource, owner: nat)
    modifies es
    ensures es.listeners == Unlistened(old(es.listeners), owner)
    ensures es.readyState == old(es.readyState)
  {
    es.RemoveEventListener(Listener("ready", owner));
    es.RemoveEventListener(Listener("keepalive", owner));
    es.RemoveEventListener(Listener("message-inserted", owner));
  }

  // ===== event routing =====

  /** The `message-inserted` payload after `JSON.parse`: unparsable, or a
      value whose `conversationId` may be missing. */
  datatype Payload = Malformed | Parsed(conversationId: Option<string>)

  /** `onMessageInserted`: a truthy `conversationId` invalidates that
      conversation's messages and the page's conversation list; anything
      else invalidates nothing (a parse error is caught and logged). */
  function OnMessageInserted(pageId: string, payload: Payload): (e: Effect)
    ensures e.removed == []
    ensures payload.Parsed? && payload.conversationId.Some? && payload.conversationId.value != "" ==>
      e.invalidated == [MetaKeys.ConversationMessages(pageId, payload.conversationId.value), MetaKeys.PageConversations(pageId)]
    ensures payload.Malformed? || payload.conversationId.None? || payload.conversationId.value == "" ==>
      e == NoEffect
  {
    match payload
    case Malformed => NoEffect
    case Parsed(cid) =>
      if cid.Some? && cid.value != "" then
        Effect([], [MetaKeys.ConversationMessages(pageId, cid.value), MetaKeys.PageConversations(pageId)])
      else NoEffect
  }

  /** A `message-inserted` event touches exactly the entries under the
      page's conversation list: the message list of every conversation of
      that page, not only the one named, and nothing of any other page. */
  lemma MessageInsertedTouches(pageId: string, cid: string, key: Key)
    requires cid != ""
    ensures var e := OnMessageInserted(pageId, Parsed(Some(cid)));
      Invalidates(e, key) <==> IsPrefix(MetaKeys.PageConversations(pageId), key)
  {
    assert OnMessageInserted(pageId, Parsed(Some(cid))) == MetaQuery.SendMessageEffect(pageId, cid);
    MetaQuery.SendMessageInvalidates(pageId, cid, key);
  }
}
