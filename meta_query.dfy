/** `metaKeys` of src/queries/meta.query.ts: the key hierarchy of the Meta
    channel data. Every key starts with "meta"; conversation lists and
    message lists of a page hang under `PageConversations(pageId)`. */
module MetaKeys {
  import opened QueryKey

  function All(): Key { [Str("meta")] }
  function Fanpages(): Key { All() + [Str("fanpages")] }
  function Pages(): Key { All() + [Str("pages")] }
  function Page(id: string): Key { Pages() + [Str(id)] }
  function Conversations(): Key { All() + [Str("conversations")] }
  function PageConversations(pageId: string): Key {
    Conversations() + [Str("page"), Str(pageId)]
  }
  function ConversationMessages(pageId: string, conversationId: string): Key {
    Conversations() + [Str("page"), Str(pageId), Str("conversation"), Str(conversationId)]
  }
  function Webhooks(): Key { All() + [Str("webhooks")] }
  /** The key of `useStoredPages(params)`: `[...pages(), params]`. */
  function StoredPages(params: KeyPart): Key { Pages() + [params] }

  /** `conversations()` is a prefix of `pageConversations(p)`, which is a
      proper prefix of `conversationMessages(p, c)`. */
  lemma ConversationKeyChain(p: string, c: string)
    ensures IsProperPrefix(Conversations(), PageConversations(p))
    ensures IsProperPrefix(PageConversations(p), ConversationMessages(p, c))
    ensures IsProperPrefix(Conversations(), ConversationMessages(p, c))
  {
  }

  /** The keys of two different pages select disjoint entries. */
  lemma PagesDiverge(p: string, q: string)
    requires p != q
    ensures Diverge(PageConversations(p), PageConversations(q))
    ensures Diverge(Page(p), Page(q))
  {
    assert PageConversations(p)[3] != PageConversations(q)[3];
    assert Page(p)[2] != Page(q)[2];
  }

  /** The five branches under "meta" are pairwise disjoint. */
  lemma BranchesDiverge()
    ensures Diverge(Fanpages(), Pages()) && Diverge(Fanpages(), Conversations())
    ensures Diverge(Fanpages(), Webhooks()) && Diverge(Pages(), Conversations())
    ensures Diverge(Pages(), Webhooks()) && Diverge(Conversations(), Webhooks())
  {
    assert Fanpages()[1] != Pages()[1] && Fanpages()[1] != Conversations()[1];
    assert Fanpages()[1] != Webhooks()[1] && Pages()[1] != Conversations()[1];
    assert Pages()[1] != Webhooks()[1] && Conversations()[1] != Webhooks()[1];
  }
}

/** The cache updaters, rollbacks, invalidation sets and pagination of
    src/queries/meta.query.ts. */
module MetaQuery {
  import opened Wrappers
  import opened Strings
  import opened QueryKey
  import opened QueryCache
  import MetaKeys

  // ===== onSuccess invalidation sets =====

  function UpsertMetaPagesEffect(): Effect { Effect([], [MetaKeys.Pages()]) }
  function SyncMetaPagesEffect(): Effect { Effect([], [MetaKeys.Fanpages(), MetaKeys.Pages()]) }
  function DeletePageEffect(pageId: string): Effect {
    Effect([MetaKeys.Page(pageId)], [MetaKeys.Pages()])
  }
  function SyncPageConversationsEffect(pageId: string): Effect {
    Effect([], [MetaKeys.PageConversations(pageId), MetaKeys.Conversations()])
  }
  function SendMessageEffect(pageId: string, conversationId: string): Effect {
    Effect([], [MetaKeys.ConversationMessages(pageId, conversationId), MetaKeys.PageConversations(pageId)])
  }
  function HandleWebhookEventEffect(): Effect { Effect([], [MetaKeys.Conversations()]) }

  /** A successful send marks stale exactly the entries under the page's
      conversation list: the list itself, the conversation's messages, and
      (because the list key is a prefix of theirs) the messages of every
      other conversation of the same page. Nothing is removed. */
  lemma SendMessageInvalidates(p: string, c: string, key: Key)
    ensures Invalidates(SendMessageEffect(p, c), key) <==> IsPrefix(MetaKeys.PageConversations(p), key)
    ensures !Removes(SendMessageEffect(p, c), key)
  {
    var e := SendMessageEffect(p, c);
    if IsPrefix(e.invalidated[0], key) {
      MetaKeys.ConversationKeyChain(p, c);
      PrefixTransitive(MetaKeys.PageConversations(p), e.invalidated[0], key);
    }
    if IsPrefix(MetaKeys.PageConversations(p), key) {
      assert IsPrefix(e.invalidated[1], key);
    }
  }

  /** No entry of another page is touched by a send. */
  lemma SendMessageSparesOtherPages(p: string, c: string, q: string, key: Key)
    requires p != q && IsPrefix(MetaKeys.PageConversations(q), key)
    ensures Untouched(SendMessageEffect(p, c), key)
  {
    SendMessageInvalidates(p, c, key);
    MetaKeys.PagesDiverge(p, q);
    DivergeDisjoint(MetaKeys.PageConversations(p), MetaKeys.PageConversations(q), key);
  }

  /** Syncing a page's conversations invalidates everything under
      `conversations()`, the first filter being subsumed by the second. */
  lemma SyncPageConversationsInvalidates(p: string, key: Key)
    ensures Invalidates(SyncPageConversationsEffect(p), key) <==> IsPrefix(MetaKeys.Conversations(), key)
  {
    var e := SyncPageConversationsEffect(p);
    if IsPrefix(e.invalidated[0], key) {
      MetaKeys.ConversationKeyChain(p, "");
      PrefixTransitive(MetaKeys.Conversations(), e.invalidated[0], key);
    }
    if IsPrefix(MetaKeys.Conversations(), key) {
      assert IsPrefix(e.invalidated[1], key);
    }
  }

  /** Deleting a page drops the entries under `page(id)` and marks every
      stored-pages list stale; conversation data is left alone. */
  lemma DeletePageTouches(p: string, params: KeyPart, c: string)
    ensures Removes(DeletePageEffect(p), MetaKeys.Page(p))
    ensures Invalidates(DeletePageEffect(p), MetaKeys.StoredPages(params))
    ensures Removes(DeletePageEffect(p), MetaKeys.StoredPages(params)) <==> params == Str(p)
    ensures Untouched(DeletePageEffect(p), MetaKeys.ConversationMessages(p, c))
  {
    var e := DeletePageEffect(p);
    assert IsPrefix(e.removed[0], MetaKeys.Page(p));
    assert IsPrefix(e.invalidated[0], MetaKeys.StoredPages(params));
    assert MetaKeys.StoredPages(params)[2] == params && MetaKeys.Page(p)[2] == Str(p);
    assert MetaKeys.Pages()[1] != MetaKeys.ConversationMessages(p, c)[1];
    UntouchedUnder(e, MetaKeys.ConversationMessages(p, c), MetaKeys.ConversationMessages(p, c));
  }

  // ===== optimistic send (useConversationWithOptimisticUpdates) =====

  /** `JSON.stringify({ name, id })` */
  function SenderJson(name: string, id: string): string {
    "{\"name\":" + JsonQuote(name) + ",\"id\":" + JsonQuote(id) + "}"
  }

  /** The provisional message built before the send request goes out. */
  function OptimisticMessage(pageId: string, conversationId: string, text: string,
                             nowMillis: int, nowIso: string): (m: Record)
    ensures m.Keys == {"id", "conversation_id", "created_time", "message", "from", "attachments", "_optimistic"}
    ensures m["id"] == VStr("temp_" + IntToString(nowMillis))
    ensures m["conversation_id"] == VStr(conversationId)
    ensures m["message"] == VStr(text) && m["created_time"] == VStr(nowIso)
    ensures m["from"] == VStr(SenderJson("You", pageId))
    ensures m["attachments"] == VNull && IsOptimistic(m)
  {
    map["id" := VStr("temp_" + IntToString(nowMillis)),
        "conversation_id" := VStr(conversationId),
        "created_time" := VStr(nowIso),
        "message" := VStr(text),
        "from" := VStr(SenderJson("You", pageId)),
        "attachments" := VNull,
        "_optimistic" := VBool(true)]
  }

  predicate IsOptimistic(r: Record) {
    "_optimistic" in r && r["_optimistic"] == VBool(true)
  }

  /** Number of provisional messages in a list. */
  function CountOptimistic(data: seq<Record>): nat {
    if |data| == 0 then 0
    else (if IsOptimistic(data[0]) then 1 else 0) + CountOptimistic(data[1..])
  }

  /** The updater passed to `setQueryData` for the messages entry. Without
      a successful entry it returns its input; otherwise the message goes
      first, every old message follows in order, and `meta.total` grows by
      one while every other field stays as it was. */
  function AddOptimisticMessage(prev: Option<Entry>, m: Record): (r: Option<Entry>)
    ensures NotSuccess(prev) ==> r == prev
    ensures !NotSuccess(prev) && prev.value.ListEntry? ==>
      && r.Some? && r.value.ListEntry? && r.value.success == prev.value.success
      && |r.value.data| == |prev.value.data| + 1
      && r.value.data[0] == m && r.value.data[1..] == prev.value.data
      && r.value.meta.total == prev.value.meta.total + 1
      && r.value.meta.(total := prev.value.meta.total) == prev.value.meta
  {
    if NotSuccess(prev) then prev
    else match prev.value
      case ListEntry(success, data, meta) =>
        Some(ListEntry(success, [m] + data, meta.(total := meta.total + 1)))
      case RecordEntry(_, _) => prev
  }

  lemma {:induction false} CountOptimisticAppend(a: seq<Record>, b: seq<Record>)
    ensures CountOptimistic(a + b) == CountOptimistic(a) + CountOptimistic(b)
  {
    if |a| > 0 {
      assert (a + b)[1..] == a[1..] + b;
      CountOptimisticAppend(a[1..], b);
    } else {
      assert a + b == b;
    }
  }

  /** The optimistic patch adds exactly one provisional message and keeps
      `meta.total` in step with the list when it was in step before. */
  lemma AddOptimisticMessageCounts(prev: Option<Entry>, pageId: string, conversationId: string,
                                   text: string, nowMillis: int, nowIso: string)
    requires !NotSuccess(prev) && prev.value.ListEntry?
    ensures var r := AddOptimisticMessage(prev, OptimisticMessage(pageId, conversationId, text, nowMillis, nowIso));
      && CountOptimistic(r.value.data) == CountOptimistic(prev.value.data) + 1
      && (prev.value.meta.total == |prev.value.data| ==> r.value.meta.total == |r.value.data|)
  {
    var m := OptimisticMessage(pageId, conversationId, text, nowMillis, nowIso);
    var r := AddOptimisticMessage(prev, m);
    assert r.value.data == [m] + prev.value.data;
    CountOptimisticAppend([m], prev.value.data);
  }

  /** Steps 1-4 of a send: cancel fetches of the messages entry, take the
      snapshot, patch the entry. Returns the snapshot for the rollback. */
  method BeginOptimisticSend(cache: Client, pageId: string, conversationId: string,
                             text: string, nowMillis: int, nowIso: string)
    returns (previous: Option<Entry>)
    modifies cache
    ensures var k := MetaKeys.ConversationMessages(pageId, conversationId);
      && previous == old(cache.GetQueryData(k))
      && cache.cancellations == old(cache.cancellations) + [k]
      && cache.invalidations == old(cache.invalidations)
      && var n := AddOptimisticMessage(previous, OptimisticMessage(pageId, conversationId, text, nowMillis, nowIso));
         cache.entries == if n.Some? then old(cache.entries)[k := n.value] else old(cache.entries)
  {
    var k := MetaKeys.ConversationMessages(pageId, conversationId);
    cache.CancelQueries(k);
    previous := cache.GetQueryData(k);
    var m := OptimisticMessage(pageId, conversationId, text, nowMillis, nowIso);
    cache.UpdateQueryData(k, prev => AddOptimisticMessage(prev, m));
  }

  /** Steps 6-7: on success invalidate the messages and the page's
      conversation list; on failure put the snapshot back. */
  method SettleSend(cache: Client, pageId: string, conversationId: string,
                    previous: Option<Entry>, sent: bool)
    modifies cache
    ensures var k := MetaKeys.ConversationMessages(pageId, conversationId);
      && cache.cancellations == old(cache.cancellations)
      && (sent ==>
            && cache.entries == old(cache.entries)
            && cache.invalidations == old(cache.invalidations) + SendMessageEffect(pageId, conversationId).invalidated)
      && (!sent ==>
            && cache.invalidations == old(cache.invalidations)
            && cache.entries == if previous.Some? then old(cache.entries)[k := previous.value] else old(cache.entries))
  {
    if sent {
      cache.Apply(SendMessageEffect(pageId, conversationId));
    } else {
      cache.SetQueryData(MetaKeys.ConversationMessages(pageId, conversationId), previous);
    }
  }

  /** `sendMessageWithOptimisticUpdate` with the request's outcome given.
      A failed send leaves the cache entries exactly as they were before
      the call; a successful one keeps the patch and marks both entries
      stale for refetching. */
  method SendMessageWithOptimisticUpdate(cache: Client, pageId: string, conversationId: string,
                                         text: string, nowMillis: int, nowIso: string, sent: bool)
    returns (ok: bool)
    modifies cache
    ensures ok == sent
    ensures var k := MetaKeys.ConversationMessages(pageId, conversationId);
      && cache.cancellations == old(cache.cancellations) + [k]
      && (!sent ==> cache.entries == old(cache.entries) && cache.invalidations == old(cache.invalidations))
      && (sent ==>
            && cache.invalidations == old(cache.invalidations) + [k, MetaKeys.PageConversations(pageId)]
            && var n := AddOptimisticMessage(old(cache.GetQueryData(k)), OptimisticMessage(pageId, conversationId, text, nowMillis, nowIso));
               cache.entries == if n.Some? then old(cache.entries)[k := n.value] else old(cache.entries))
  {
    var k := MetaKeys.ConversationMessages(pageId, conversationId);
    var previous := BeginOptimisticSend(cache, pageId, conversationId, text, nowMillis, nowIso);
    SettleSend(cache, pageId, conversationId, previous, sent);
    if !sent && previous.Some? {
      assert old(cache.entries)[k := previous.value] == old(cache.entries);
    }
    ok := sent;
  }

  /** Two sends to one conversation, the first failing while the second is
      still pending: the first rollback puts back a snapshot that predates
      the second patch, so the second provisional message disappears too. */
  method OverlappingSends(seed: seq<Record>, pageId: string, conversationId: string,
                          first: string, second: string, t1: int, t2: int, iso: string)
    returns (after: Option<Entry>)
    ensures after == Some(ListEntry(true, seed, ListMeta(|seed|, 1, 10)))
    ensures after.value.data == seed
  {
    var cache := new Client();
    var k := MetaKeys.ConversationMessages(pageId, conversationId);
    cache.SetQueryData(k, Some(ListEntry(true, seed, ListMeta(|seed|, 1, 10))));
    var snapshotA := BeginOptimisticSend(cache, pageId, conversationId, first, t1, iso);
    var snapshotB := BeginOptimisticSend(cache, pageId, conversationId, second, t2, iso);
    SettleSend(cache, pageId, conversationId, snapshotA, false);
    after := cache.GetQueryData(k);
  }

  // ===== `_syncing` updaters (useMetaFanpagesWithOptimisticUpdate,
  //       useSyncPageConversationsWithOptimisticUpdate) =====

  /** `{ ...old, data: old.data.map(x => ({ ...x, _syncing: true })) }`,
      or `old` itself when it is not a successful entry. */
  function MarkSyncing(prev: Option<Entry>): (r: Option<Entry>)
    ensures NotSuccess(prev) ==> r == prev
    ensures !NotSuccess(prev) && prev.value.ListEntry? ==>
      && r.Some? && r.value.ListEntry?
      && r.value.success == prev.value.success && r.value.meta == prev.value.meta
      && |r.value.data| == |prev.value.data|
      && forall i :: 0 <= i < |r.value.data| ==>
           r.value.data[i] == prev.value.data[i]["_syncing" := VBool(true)]
  {
    if NotSuccess(prev) then prev
    else match prev.value
      case ListEntry(success, data, meta) =>
        Some(ListEntry(success, seq(|data|, i requires 0 <= i < |data| => data[i]["_syncing" := VBool(true)]), meta))
      case RecordEntry(_, _) => prev
  }

  /** Marking twice is marking once, and afterwards every row is syncing. */
  lemma MarkSyncingIdempotent(prev: Option<Entry>)
    ensures MarkSyncing(MarkSyncing(prev)) == MarkSyncing(prev)
    ensures var r := MarkSyncing(prev);
      !NotSuccess(prev) && prev.value.ListEntry? ==>
        forall i :: 0 <= i < |r.value.data| ==> r.value.data[i]["_syncing"] == VBool(true)
  {
    var r := MarkSyncing(prev);
    if !NotSuccess(prev) && prev.value.ListEntry? {
      var rr := MarkSyncing(r);
      assert |rr.value.data| == |r.value.data|;
      forall i | 0 <= i < |r.value.data| ensures rr.value.data[i] == r.value.data[i] {
        assert r.value.data[i]["_syncing" := VBool(true)] == r.value.data[i];
      }
      assert rr.value.data == r.value.data;
    }
  }

  /** `useMetaFanpagesWithOptimisticUpdate().syncWithOptimisticUpdate` with
      the mutation's outcome given: both entries are snapshotted, the
      fanpages entry is marked syncing; success runs `useSyncMetaPages`'
      invalidations, failure writes both snapshots back. */
  method SyncMetaPagesWithOptimisticUpdate(cache: Client, synced: bool)
    modifies cache
    ensures cache.cancellations == old(cache.cancellations) + [MetaKeys.Fanpages(), MetaKeys.Pages()]
    ensures var patched := MarkSyncing(old(cache.GetQueryData(MetaKeys.Fanpages())));
      synced ==> && cache.invalidations == old(cache.invalidations) + SyncMetaPagesEffect().invalidated
                 && cache.entries == if patched.Some? then old(cache.entries)[MetaKeys.Fanpages() := patched.value] else old(cache.entries)
    ensures !synced ==> cache.entries == old(cache.entries) && cache.invalidations == old(cache.invalidations)
  {
    cache.CancelQueries(MetaKeys.Fanpages());
    cache.CancelQueries(MetaKeys.Pages());
    var previousFanpages := cache.GetQueryData(MetaKeys.Fanpages());
    var previousPages := cache.GetQueryData(MetaKeys.Pages());
    cache.UpdateQueryData(MetaKeys.Fanpages(), MarkSyncing);
    if synced {
      cache.Apply(SyncMetaPagesEffect());
    } else {
      ghost var patched := cache.entries;
      cache.SetQueryData(MetaKeys.Fanpages(), previousFanpages);
      cache.SetQueryData(MetaKeys.Pages(), previousPages);
      if previousFanpages.Some? {
        assert patched[MetaKeys.Fanpages() := previousFanpages.value] == old(cache.entries)[MetaKeys.Fanpages() := previousFanpages.value];
      }
      assert MetaKeys.Fanpages() != MetaKeys.Pages() by { assert MetaKeys.Fanpages()[1] != MetaKeys.Pages()[1]; }
    }
  }

  /** `useSyncPageConversationsWithOptimisticUpdate().syncWithOptimisticUpdate`
      with the mutation's outcome given. */
  method SyncPageConversationsWithOptimisticUpdate(cache: Client, pageId: string, synced: bool)
    modifies cache
    ensures var k := MetaKeys.PageConversations(pageId);
      cache.cancellations == old(cache.cancellations) + [k, MetaKeys.Conversations()]
    ensures var k := MetaKeys.PageConversations(pageId);
      var patched := MarkSyncing(old(cache.GetQueryData(k)));
      synced ==> && cache.invalidations == old(cache.invalidations) + SyncPageConversationsEffect(pageId).invalidated
                 && cache.entries == if patched.Some? then old(cache.entries)[k := patched.value] else old(cache.entries)
    ensures !synced ==> cache.entries == old(cache.entries) && cache.invalidations == old(cache.invalidations)
  {
    var k := MetaKeys.PageConversations(pageId);
    cache.CancelQueries(k);
    cache.CancelQueries(MetaKeys.Conversations());
    var previousConversations := cache.GetQueryData(k);
    cache.UpdateQueryData(k, MarkSyncing);
    if synced {
      cache.Apply(SyncPageConversationsEffect(pageId));
    } else {
      cache.SetQueryData(k, previousConversations);
      if previousConversations.Some? {
        assert old(cache.entries)[k := previousConversations.value] == old(cache.entries);
      }
    }
  }

  // ===== pagination (useMetaPagesWithPagination) =====

  /** `MetaPagesParams`: `page` and `limit`, each possibly undefined. */
  datatype PageParams = PageParams(page: Option<int>, limit: Option<int>)

  /** `x || d` for a number: `d` when `x` is undefined or 0. */
  function OrDefault(x: Option<int>, d: int): (r: int)
    ensures x.Some? && x.value != 0 ==> r == x.value
    ensures x.None? || x.value == 0 ==> r == d
  {
    if x.Some? && x.value != 0 then x.value else d
  }

  /** `Math.ceil(a / b)` */
  function CeilDiv(a: int, b: int): (r: int)
    requires b != 0
    ensures b > 0 ==> (r - 1) * b < a <= r * b
    ensures b < 0 ==> r * b <= a < (r - 1) * b
  {
    if b > 0 then -((-a) / b) else -(a / (-b))
  }

  function CurrentPage(p: PageParams): int { OrDefault(p.page, 1) }
  function PageSize(p: PageParams): (r: int) ensures r != 0 { OrDefault(p.limit, 10) }

  /** `totalPages`: `ceil(total / (limit || 10))`, with `total || 0`. */
  function TotalPages(p: PageParams, total: Option<int>): int {
    CeilDiv(OrDefault(total, 0), PageSize(p))
  }

  predicate CanGoNext(p: PageParams, total: Option<int>) { CurrentPage(p) < TotalPages(p, total) }
  predicate CanGoPrev(p: PageParams) { CurrentPage(p) > 1 }

  /** With a positive page size, `totalPages` is the least number of pages
      of that size that holds `total` rows. */
  lemma TotalPagesIsLeast(p: PageParams, total: Option<int>)
    requires PageSize(p) > 0
    ensures var n := TotalPages(p, total); var t := OrDefault(total, 0);
      n * PageSize(p) >= t && (n - 1) * PageSize(p) < t
  {
  }

  /** `{ page: 1, limit: 10, ...initialParams }` */
  function InitialParams(initial: Option<PageParams>): (r: PageParams)
    ensures initial.None? ==> r == PageParams(Some(1), Some(10))
    ensures initial.Some? && initial.value.page.Some? ==> r.page == initial.value.page
    ensures initial.Some? && initial.value.limit.Some? ==> r.limit == initial.value.limit
  {
    match initial
    case None => PageParams(Some(1), Some(10))
    case Some(p) => PageParams(if p.page.Some? then p.page else Some(1),
                               if p.limit.Some? then p.limit else Some(10))
  }

  /** The `params` state of `useMetaPagesWithPagination`. Each method is one
      handler call followed by a re-render. */
  class Pagination {
    var params: PageParams

    constructor (initial: Option<PageParams>)
      ensures params == InitialParams(initial)
    {
      params := InitialParams(initial);
    }

    method SetPage(page: int)
      modifies this
      ensures params == old(params).(page := Some(page))
    {
      params := params.(page := Some(page));
    }

    /** A new page size always goes back to page 1. */
    method SetPageSize(limit: int)
      modifies this
      ensures params == PageParams(Some(1), Some(limit))
      ensures CurrentPage(params) == 1
    {
      params := params.(limit := Some(limit), page := Some(1));
    }

    /** Moves forward only while the current page is before the last. */
    method NextPage(total: Option<int>)
      modifies this
      ensures CanGoNext(old(params), total) ==>
        params == old(params).(page := Some(CurrentPage(old(params)) + 1))
      ensures !CanGoNext(old(params), total) ==> params == old(params)
      ensures CurrentPage(old(params)) >= 0 && CanGoNext(old(params), total) ==>
        CurrentPage(params) <= TotalPages(params, total)
    {
      if CurrentPage(params) < TotalPages(params, total) {
        SetPage(CurrentPage(params) + 1);
      }
    }

    /** Moves back only while the current page is after the first. */
    method PrevPage()
      modifies this
      ensures CanGoPrev(old(params)) ==>
        params == old(params).(page := Some(CurrentPage(old(params)) - 1))
      ensures !CanGoPrev(old(params)) ==> params == old(params)
      ensures CurrentPage(params) >= 1 || params == old(params)
    {
      if CurrentPage(params) > 1 {
        SetPage(CurrentPage(params) - 1);
      }
    }
  }
}
