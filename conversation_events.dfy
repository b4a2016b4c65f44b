/**
 * The older per-conversation live-update hook of
 * src/hooks/use-conversation-events.ts: a bounded reconnect counter with
 * capped exponential backoff, the `cleanup` of its two refs, the
 * `onopen`/`onerror` transitions, and the dispatch of an incoming event to
 * cache invalidations. Timers are recorded, not run: a pending timer is the
 * delay it was scheduled with, and its firing is a method the caller
 * invokes.
 */
module ConversationEvents {
  import opened Wrappers
  import opened QueryKey
  import opened Browser
  import opened UrlEncoding
  import MetaKeys
  import Strings
  import BaseApi

  const MaxReconnectAttempts: nat := 5
  const MaxDelay: nat := 30000

  function Pow2(n: nat): (r: nat)
    ensures r >= 1
  {
    if n == 0 then 1 else 2 * Pow2(n - 1)
  }

  /** `Math.min(1000 * Math.pow(2, attempts), 30000)` */
  function BackoffDelay(attempts: nat): (d: nat)
    ensures 1000 <= d <= MaxDelay
  {
    if 1000 * Pow2(attempts) < MaxDelay then 1000 * Pow2(attempts) else MaxDelay
  }

  /** The delays of the first to the fifth reconnect attempt. */
  lemma BackoffSchedule()
    ensures BackoffDelay(1) == 2000 && BackoffDelay(2) == 4000 && BackoffDelay(3) == 8000
    ensures BackoffDelay(4) == 16000 && BackoffDelay(5) == 30000
  {
    assert Pow2(5) == 32;
  }

  lemma {:induction false} Pow2Monotone(a: nat, b: nat)
    requires a <= b
    ensures Pow2(a) <= Pow2(b)
  {
    if a < b {
      Pow2Monotone(a, b - 1);
    }
  }

  /** The delay never shrinks as the attempt number grows, and it stays at
      the cap from the fifth attempt on. */
  lemma BackoffMonotone(a: nat, b: nat)
    requires a <= b
    ensures BackoffDelay(a) <= BackoffDelay(b)
    ensures a >= 5 ==> BackoffDelay(a) == MaxDelay
  {
    Pow2Monotone(a, b);
    if a >= 5 {
      Pow2Monotone(5, a);
      assert Pow2(5) == 32;
    }
  }

  const EventsPath := "/meta/events?"
  const PageIdParam := "pageId"
  const ConversationIdParam := "conversationId"

  /** The search parameters `connect` sets, in order: `pageId`, then
      `conversationId` when it is truthy. */
  function EventsParams(pageId: string, conversationId: Option<string>): seq<(string, string)> {
    if conversationId.Some? && conversationId.value != "" then
      [(PageIdParam, pageId), (ConversationIdParam, conversationId.value)]
    else [(PageIdParam, pageId)]
  }

  /** `new URL("/meta/events", origin)` with those parameters set. The
      query after `?` splits on `&` into one `name=value` piece per
      parameter, the value form-encoded. */
  function EventsUrl(origin: string, pageId: string, conversationId: Option<string>): (u: string)
    ensures Strings.StartsWith(u, origin + EventsPath)
    ensures Strings.Split(u[|origin + EventsPath|..], "&") ==
      if conversationId.Some? && conversationId.value != "" then
        [PageIdParam + "=" + EncodeForm(pageId), ConversationIdParam + "=" + EncodeForm(conversationId.value)]
      else [PageIdParam + "=" + EncodeForm(pageId)]
  {
    var params := EventsParams(pageId, conversationId);
    var q := BaseApi.QueryString(params);
    EventsQueryPieces(pageId, conversationId);
    var u := origin + EventsPath + q;
    assert u[|origin + EventsPath|..] == q;
    u
  }

  lemma EventsQueryPieces(pageId: string, conversationId: Option<string>)
    ensures Strings.Split(BaseApi.QueryString(EventsParams(pageId, conversationId)), "&") ==
      if conversationId.Some? && conversationId.value != "" then
        [PageIdParam + "=" + EncodeForm(pageId), ConversationIdParam + "=" + EncodeForm(conversationId.value)]
      else [PageIdParam + "=" + EncodeForm(pageId)]
  {
    if conversationId.Some? && conversationId.value != "" {
      PairPieces(PageIdParam, pageId, ConversationIdParam, conversationId.value);
    } else {
      PairPiece(PageIdParam, pageId);
    }
  }

  lemma PairPieces(k1: string, v1: string, k2: string, v2: string)
    requires forall i :: 0 <= i < |k1| ==> IsAlphaNum(k1[i])
    requires forall i :: 0 <= i < |k2| ==> IsAlphaNum(k2[i])
    ensures Strings.Split(BaseApi.QueryString([(k1, v1), (k2, v2)]), "&") ==
      [k1 + "=" + EncodeForm(v1), k2 + "=" + EncodeForm(v2)]
  {
    AlphaNumUnencoded(k1);
    AlphaNumUnencoded(k2);
    var params := [(k1, v1), (k2, v2)];
    BaseApi.QueryStringSplits(params);
    var e := BaseApi.EncodedPairs(params);
    assert e == [e[0], e[1]];
  }

  lemma PairPiece(k: string, v: string)
    requires forall i :: 0 <= i < |k| ==> IsAlphaNum(k[i])
    ensures Strings.Split(BaseApi.QueryString([(k, v)]), "&") == [k + "=" + EncodeForm(v)]
  {
    AlphaNumUnencoded(k);
    var params := [(k, v)];
    BaseApi.QueryStringSplits(params);
    var e := BaseApi.EncodedPairs(params);
    assert e == [e[0]];
  }

  /** Each piece of the events query splits on `=` into the parameter's
      name and its encoded value, so the server reads back `pageId` and,
      exactly when it was set, `conversationId`. */
  lemma EventsQueryPairs(origin: string, pageId: string, conversationId: Option<string>, j: nat)
    requires j < |Strings.Split(EventsUrl(origin, pageId, conversationId)[|origin + EventsPath|..], "&")|
    ensures var pieces := Strings.Split(EventsUrl(origin, pageId, conversationId)[|origin + EventsPath|..], "&");
      && (conversationId.Some? && conversationId.value != "" <==> |pieces| == 2)
      && (j == 0 ==> Strings.Split(pieces[j], "=") == [PageIdParam, EncodeForm(pageId)])
      && (j == 1 ==>
            conversationId.Some? && Strings.Split(pieces[j], "=") == [ConversationIdParam, EncodeForm(conversationId.value)])
  {
    var pieces := Strings.Split(EventsUrl(origin, pageId, conversationId)[|origin + EventsPath|..], "&");
    PiecesParse(pageId, conversationId, pieces, j);
  }

  lemma PiecesParse(pageId: string, conversationId: Option<string>, pieces: seq<string>, j: nat)
    requires pieces ==
      if conversationId.Some? && conversationId.value != "" then
        [PageIdParam + "=" + EncodeForm(pageId), ConversationIdParam + "=" + EncodeForm(conversationId.value)]
      else [PageIdParam + "=" + EncodeForm(pageId)]
    requires j < |pieces|
    ensures conversationId.Some? && conversationId.value != "" <==> |pieces| == 2
    ensures j == 0 ==> Strings.Split(pieces[j], "=") == [PageIdParam, EncodeForm(pageId)]
    ensures j == 1 ==>
      conversationId.Some? && Strings.Split(pieces[j], "=") == [ConversationIdParam, EncodeForm(conversationId.value)]
  {
    ParamNamesAlphaNum();
    NamedPieceSplits(PageIdParam, pageId);
    if conversationId.Some? && conversationId.value != "" {
      NamedPieceSplits(ConversationIdParam, conversationId.value);
    }
  }

  lemma ParamNamesAlphaNum()
    ensures forall i :: 0 <= i < |PageIdParam| ==> IsAlphaNum(PageIdParam[i])
    ensures forall i :: 0 <= i < |ConversationIdParam| ==> IsAlphaNum(ConversationIdParam[i])
  {
  }

  /** A piece named by a letters-and-digits name splits back on `=` into
      that name and the encoded value. */
  lemma NamedPieceSplits(k: string, v: string)
    requires forall i :: 0 <= i < |k| ==> IsAlphaNum(k[i])
    ensures Strings.Split(k + "=" + EncodeForm(v), "=") == [k, EncodeForm(v)]
  {
    AlphaNumUnencoded(k);
    BaseApi.PairPieceSplits(k, v);
  }

  lemma AlphaNumUnencoded(w: string)
    requires forall k :: 0 <= k < |w| ==> IsAlphaNum(w[k])
    ensures EncodeForm(w) == w
  {
    assert forall k :: 0 <= k < |w| ==> FormSafe(w[k]);
  }

  /** The refs of one mounted hook: `reconnectAttempts`, `eventSourceRef`
      and `reconnectTimeoutRef`, plus whether the 100 ms reset that a fired
      reconnect timer schedules is still pending. */
  class EventsHook {
    var attempts: nat
    var eventSource: EventSource?
    var reconnectTimer: Option<nat>
    var resetPending: bool

    constructor ()
      ensures attempts == 0 && eventSource == null && reconnectTimer.None? && !resetPending
    {
      attempts := 0;
      eventSource := null;
      reconnectTimer := None;
      resetPending := false;
    }

    /** `isConnected` */
    predicate IsConnected()
      reads this, eventSource
    {
      eventSource != null && eventSource.readyState == Open
    }

    /** `cleanup`: close and drop the connection, clear the timer. */
    method Cleanup()
      modifies this, eventSource
      ensures eventSource == null && reconnectTimer.None? && !IsConnected()
      ensures old(eventSource) != null ==> old(eventSource).readyState == Closed
      ensures attempts == old(attempts) && resetPending == old(resetPending)
    {
      if eventSource != null {
        eventSource.Close();
        eventSource := null;
      }
      if reconnectTimer.Some? {
        reconnectTimer := None;
      }
    }

    /** `reconnect`: give up from the fifth attempt on; otherwise count the
        attempt and schedule the timer with the backoff delay. */
    method Reconnect() returns (gaveUp: bool)
      modifies this
      ensures gaveUp == (old(attempts) >= MaxReconnectAttempts)
      ensures gaveUp ==> attempts == old(attempts) && reconnectTimer == old(reconnectTimer)
      ensures !gaveUp ==> attempts == old(attempts) + 1 && reconnectTimer == Some(BackoffDelay(attempts))
      ensures attempts <= MaxReconnectAttempts || attempts == old(attempts)
      ensures eventSource == old(eventSource) && resetPending == old(resetPending)
    {
      if attempts >= MaxReconnectAttempts {
        return true;
      }
      attempts := attempts + 1;
      reconnectTimer := Some(BackoffDelay(attempts));
      gaveUp := false;
    }

    /** The reconnect timer's callback: `cleanup`, then schedule the reset.
        It opens no connection itself. */
    method ReconnectTimerFired()
      requires reconnectTimer.Some?
      modifies this, eventSource
      ensures eventSource == null && reconnectTimer.None? && resetPending
      ensures old(eventSource) != null ==> old(eventSource).readyState == Closed
      ensures attempts == old(attempts)
    {
      Cleanup();
      resetPending := true;
    }

    /** The 100 ms callback scheduled by the reconnect timer. */
    method ResetFired()
      requires resetPending
      modifies this
      ensures attempts == 0 && !resetPending
      ensures eventSource == old(eventSource) && reconnectTimer == old(reconnectTimer)
    {
      attempts := 0;
      resetPending := false;
    }

    /** `onopen` */
    method OnOpen()
      modifies this
      ensures attempts == 0
      ensures eventSource == old(eventSource) && reconnectTimer == old(reconnectTimer)
      ensures resetPending == old(resetPending)
    {
      attempts := 0;
    }

    /** `onerror` of the connection `es` (the handler closes over the
        connection it was installed on): reconnect only once it is closed. */
    method OnError(es: EventSource) returns (gaveUp: bool)
      modifies this
      ensures es.readyState != Closed ==>
        !gaveUp && attempts == old(attempts) && reconnectTimer == old(reconnectTimer)
      ensures es.readyState == Closed ==> gaveUp == (old(attempts) >= MaxReconnectAttempts)
      ensures es.readyState == Closed && !gaveUp ==>
        attempts == old(attempts) + 1 && reconnectTimer == Some(BackoffDelay(attempts))
      ensures eventSource == old(eventSource) && resetPending == old(resetPending)
    {
      gaveUp := false;
      if es.readyState == Closed {
        gaveUp := Reconnect();
      }
    }

    /** The `reconnect` control returned to callers. */
    method ManualReconnect()
      modifies this, eventSource
      ensures attempts == 0 && eventSource == null && reconnectTimer.None?
      ensures old(eventSource) != null ==> old(eventSource).readyState == Closed
      ensures resetPending == old(resetPending)
    {
      attempts := 0;
      Cleanup();
    }

    /** One run of the connection effect: nothing when disabled or without
        a page id; otherwise the previous connection is cleaned up and a new
        one opened on the events URL. */
    method Connect(origin: string, pageId: string, conversationId: Option<string>, enabled: bool)
      modifies this, eventSource
      ensures !enabled || pageId == "" ==>
        eventSource == old(eventSource) && reconnectTimer == old(reconnectTimer) && attempts == old(attempts)
      ensures enabled && pageId != "" ==>
        && eventSource != null && fresh(eventSource)
        && eventSource.url == EventsUrl(origin, pageId, conversationId)
        && eventSource.readyState == Connecting && !eventSource.withCredentials
        && reconnectTimer.None? && attempts == old(attempts)
        && (old(eventSource) != null ==> old(eventSource).readyState == Closed)
      ensures resetPending == old(resetPending)
    {
      if !enabled || pageId == "" {
        return;
      }
      Cleanup();
      var es := new EventSource(EventsUrl(origin, pageId, conversationId), false);
      eventSource := es;
    }
  }

  /** Cleanup twice is cleanup once: the second call finds nothing to close
      and nothing to clear. */
  method CleanupTwice(hook: EventsHook)
    modifies hook, hook.eventSource
    ensures hook.eventSource == null && hook.reconnectTimer.None?
    ensures hook.attempts == old(hook.attempts) && hook.resetPending == old(hook.resetPending)
  {
    hook.Cleanup();
    ghost var once := (hook.attempts, hook.eventSource, hook.reconnectTimer, hook.resetPending);
    hook.Cleanup();
    assert (hook.attempts, hook.eventSource, hook.reconnectTimer, hook.resetPending) == once;
  }

  /** A lost connection followed by its timer and reset: the counter is back
      at zero, so the limit of five is reached only by errors arriving
      before the reset runs. */
  method ErrorCycle(hook: EventsHook, es: EventSource)
    requires es.readyState == Closed && hook.attempts == 0 && !hook.resetPending
    modifies hook, hook.eventSource
    ensures hook.attempts == 0 && hook.eventSource == null && hook.reconnectTimer.None?
  {
    var gaveUp := hook.OnError(es);
    assert hook.reconnectTimer == Some(2000) by { BackoffSchedule(); }
    hook.ReconnectTimerFired();
    hook.ResetFired();
  }

  // ===== event dispatch =====

  /** The parsed `event.data`: unparsable, or an object with a `type`. */
  datatype EventData = Malformed | Parsed(kind: string)

  /** What `handleEvent` does besides invalidating: the caller's callback
      it invokes, the error toast, or nothing (a log line only). */
  datatype Reaction = CallOnMessage | CallOnConversation | ErrorToast | LogOnly

  /** `handleEvent` */
  function HandleEvent(pageId: string, conversationId: Option<string>, ev: EventData): (r: (Effect, Reaction))
    ensures r.0.removed == []
    ensures ev.Parsed? && ev.kind == "message" ==> r.1 == CallOnMessage
    ensures ev.Parsed? && ev.kind == "conversation" ==>
      r == (Effect([], [MetaKeys.PageConversations(pageId)]), CallOnConversation)
    ensures ev.Parsed? && ev.kind == "error" ==> r == (NoEffect, ErrorToast)
    ensures ev.Malformed? || (ev.kind != "message" && ev.kind != "conversation" && ev.kind != "error") ==>
      r == (NoEffect, LogOnly)
  {
    match ev
    case Malformed => (NoEffect, LogOnly)
    case Parsed(kind) =>
      if kind == "message" then
        if conversationId.Some? && conversationId.value != "" then
          (Effect([], [MetaKeys.ConversationMessages(pageId, conversationId.value), MetaKeys.PageConversations(pageId)]),
           CallOnMessage)
        else
          (Effect([], [MetaKeys.PageConversations(pageId)]), CallOnMessage)
      else if kind == "conversation" then
        (Effect([], [MetaKeys.PageConversations(pageId)]), CallOnConversation)
      else if kind == "error" then (NoEffect, ErrorToast)
      else (NoEffect, LogOnly)
  }

  /** A `message` event always invalidates the page's conversation list and
      invalidates the conversation's own messages exactly when the hook was
      given a conversation id. */
  lemma MessageEventInvalidates(pageId: string, conversationId: Option<string>)
    ensures var e := HandleEvent(pageId, conversationId, Parsed("message")).0;
      && MetaKeys.PageConversations(pageId) in e.invalidated
      && (forall c :: MetaKeys.ConversationMessages(pageId, c) in e.invalidated <==>
            conversationId == Some(c) && c != "")
  {
    forall c ensures MetaKeys.ConversationMessages(pageId, c) in HandleEvent(pageId, conversationId, Parsed("message")).0.invalidated
      ==> conversationId == Some(c) && c != ""
    {
      var e := HandleEvent(pageId, conversationId, Parsed("message")).0;
      if MetaKeys.ConversationMessages(pageId, c) in e.invalidated {
        assert |MetaKeys.ConversationMessages(pageId, c)| != |MetaKeys.PageConversations(pageId)|;
        assert MetaKeys.ConversationMessages(pageId, c)[5] == Str(c);
      }
    }
  }

  /** Under prefix matching a `message` event refreshes the same entries
      with or without a conversation id: everything under the page's
      conversation list. */
  lemma MessageEventTouches(pageId: string, conversationId: Option<string>, key: Key)
    ensures var e := HandleEvent(pageId, conversationId, Parsed("message")).0;
      Invalidates(e, key) <==> IsPrefix(MetaKeys.PageConversations(pageId), key)
  {
    var e := HandleEvent(pageId, conversationId, Parsed("message")).0;
    if conversationId.Some? && conversationId.value != "" {
      var c := conversationId.value;
      MetaKeys.ConversationKeyChain(pageId, c);
      if IsPrefix(e.invalidated[0], key) {
        PrefixTransitive(MetaKeys.PageConversations(pageId), e.invalidated[0], key);
      }
      if IsPrefix(MetaKeys.PageConversations(pageId), key) {
        assert IsPrefix(e.invalidated[1], key);
      }
    } else {
      assert e.invalidated == [MetaKeys.PageConversations(pageId)];
      if IsPrefix(MetaKeys.PageConversations(pageId), key) {
        assert IsPrefix(e.invalidated[0], key);
      }
    }
  }
}
