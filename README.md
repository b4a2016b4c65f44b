# Sale chatbot admin console: the sequential core, in Dafny

This project models the parts of the sale-chatbot admin console (a React
front end) that make decisions: how its TanStack Query cache keys nest and
which entries each mutation refreshes or drops, the optimistic cache
updaters and their rollbacks, the pagination arithmetic, the shared pool
of live-update connections, the reconnect logic of the older live-update
hook, cookie extraction and the route guards built on it, query strings and
HTTP error messages, dotted-key translation lookup, image validation,
the request paths of the Meta and product services, and the
authentication dialog store.

Modules follow the source files:

| module | source file |
|---|---|
| `MetaKeys`, `MetaQuery` | src/queries/meta.query.ts |
| `MetaSse` | src/hooks/use-meta-sse.ts |
| `ConversationEvents` | src/hooks/use-conversation-events.ts |
| `Loader` | src/lib/loader.ts |
| `BaseApi` | src/services/base-api.ts |
| `Translations` | src/lib/translations.ts |
| `ImageFiles` | src/lib/utils.ts and the identical static validators of src/services/products.service.ts |
| `ProductsService` | src/services/products.service.ts (paths) |
| `MetaService` | src/services/meta.service.ts |
| `CommonQuery` | src/queries/common.query.ts |
| `ProductsQuery` | src/queries/products.query.ts |
| `AiQuery` | src/queries/ai.query.ts |
| `AiAgentsQuery` | src/queries/ai-agents.query.ts |
| `AuthStore` | src/stores/auth.store.ts |
| `UseSpace` | src/hooks/use-space.ts |

Support modules:
- `Wrappers`: `Option` and `Result`.
- `Strings`: JavaScript's `split`, `includes` and `join`, with their round trips.
- `UrlEncoding`: `encodeURIComponent` and form encoding.
- `QueryKey`: cache keys, and which entries a filter selects.
- `QueryCache`: the query client as a class over a map of entries.
- `Browser`: the part of `EventSource` the hooks use.

Modelling choices:
- **Prefix matching.** TanStack Query's partial key matching is modelled as list-prefix matching (`QueryKey.IsPrefix`). This is an assumption about the library, whose source is not part of this model. The lemmas about invalidation sets are stated under it.
- **`onSuccess` effects.** A mutation's `onSuccess` is an `Effect`: the keys it removes and the keys it invalidates. `QueryCache.Client.Apply` performs one on the cache.
- **Cache entries.** An entry is either a list response (`success`, `data`, `meta`) or a record response (`success`, `data`). Records are maps from field names to scalar values.
- **`undefined` writes.** `setQueryData(key, undefined)` leaves the cache unchanged, so rolling back to a snapshot of a missing entry changes nothing.
- **Stateful pieces are classes.** The connection pool, the hook refs, the pagination state, the dialog store and the query client are classes whose methods change their fields.
- **Pure pieces are functions.** Key factories, updaters and string handling are functions.
- **Methods and their specifications.** Where a method's effect is more than a few field writes, it is proved against a function that the lemmas are about:
  - the pool's counts against `MetaSse.Acquire` and `MetaSse.Release`;
  - the translation loop against `Translations.Translate`;
  - the search-parameter loop against `BaseApi.SearchPairs`.

  The remaining methods (`ConversationEvents.EventsHook.Cleanup`, `OnOpen`, `ResetFired` and `ManualReconnect`, the dialog store's `ShowAuthDialog` and `HideAuthDialog`, `MetaService.WebhookHeaders`) only set fields; their contracts state each new field value directly.

Behaviour of the code worth knowing:
- **Invalidation breadth.** A sent message, and a `message-inserted` event, invalidate `pageConversations(pageId)`. Under prefix matching that key covers every conversation's messages on the page, not only the one written to (`MetaQuery.SendMessageInvalidates`, `MetaSse.MessageInsertedTouches`).
- **Overlapping sends.** Two sends to one conversation do not compose. The rollback of a failed first send writes back its snapshot and erases the second send's provisional message (`MetaQuery.OverlappingSends`).
- **401 responses.** The `redirect` built for a 401 response is discarded. The hook only returns the response.
- **A `null` error body.** When a failed response's body is the JSON `null`, reading `errorBody.message` throws a `TypeError`, so the hook never builds its `API Error` message (`BaseApi.AfterResponse`).
- **The reconnect timer does not reconnect.** In src/hooks/use-conversation-events.ts the reconnect timer only cleans up. A ref write causes no re-render, so no new connection is opened until the effect runs again for another reason.
- **The attempt cap.** The attempt counter is reset 100 ms after each timer, so the cap of 5 is reached only by errors that arrive before the reset.
- **Stale timer handles.** A reconnect overwrites the timer ref without clearing the earlier timer.
- **Deleting a product group leaves its products cached.** Deleting a product group removes only `group(id)`. The cached product lists and products of that group are neither removed nor invalidated (`ProductsQuery.DeleteGroupRemoves`).
- **Sending an AI chat message.** Sending a message invalidates `chatSession(agentId, undefined)`. Under prefix matching that key does not select sessions cached with a session id (`AiQuery.SendMessageTouches`).
- **Separate agent key roots.** The two agent query files use different roots (`"ai"` and `"ai-agents"`), so neither file's mutations refresh the other's entries (`AiAgentsQuery.FamiliesSeparate`).

## Model

| member | source | states |
|---|---|---|
| MetaKeys.ConversationKeyChain | src/queries/meta.query.ts:12-22 | `conversations()` is a proper prefix of `pageConversations(p)`, which is a proper prefix of `conversationMessages(p, c)` |
| MetaKeys.PagesDiverge | src/queries/meta.query.ts:11-14 | the page keys and the conversation-list keys of two different pages select disjoint entries |
| MetaKeys.BranchesDiverge | src/queries/meta.query.ts:9-23 | the `fanpages`, `pages`, `conversations` and `webhooks` branches are pairwise disjoint |
| MetaQuery.SendMessageInvalidates | src/queries/meta.query.ts:388-397 | a successful send invalidates exactly the entries under `pageConversations(p)` (which includes `conversationMessages(p, c)`) and removes nothing |
| MetaQuery.SendMessageSparesOtherPages | src/queries/meta.query.ts:388-397 | no entry of another page is touched by a send |
| MetaQuery.SyncPageConversationsInvalidates | src/queries/meta.query.ts:246-255 | syncing a page's conversations invalidates exactly the entries under `conversations()` |
| MetaQuery.DeletePageTouches | src/queries/meta.query.ts:96-101 | deleting a page removes `page(p)` (and the stored-pages entry whose params are the bare id), invalidates every stored-pages entry and leaves conversation messages untouched |
| MetaQuery.OptimisticMessage | src/queries/meta.query.ts:505-516 | the provisional message has exactly the seven fields, id `temp_<now>`, the conversation id, the text, sender JSON with the page id, `attachments` null and `_optimistic` true |
| MetaQuery.AddOptimisticMessage | src/queries/meta.query.ts:500-527 | without a successful entry the updater returns it unchanged; otherwise the message comes first, the old messages follow in order, `meta.total` grows by one and the other `meta` fields and `success` are kept |
| MetaQuery.CountOptimisticAppend | src/queries/meta.query.ts:515 | the number of provisional messages in a concatenation is the sum of the parts' |
| MetaQuery.AddOptimisticMessageCounts | src/queries/meta.query.ts:500-527 | the patch adds exactly one provisional message, and keeps `meta.total` equal to the list length when it was before |
| MetaQuery.BeginOptimisticSend | src/queries/meta.query.ts:488-527 | cancels fetches of the messages key, returns the snapshot taken before the patch and writes the updater's result, leaving every other entry as it was |
| MetaQuery.SettleSend | src/queries/meta.query.ts:530-545 | on success invalidates `conversationMessages(p, c)` then `pageConversations(p)`; on failure writes the snapshot back (nothing when it was absent) |
| MetaQuery.SendMessageWithOptimisticUpdate | src/queries/meta.query.ts:488-546 | the whole send: after a failure every cache entry is as before the call and nothing is invalidated; after a success the messages entry holds the patch and `conversationMessages(p, c)` and `pageConversations(p)` are invalidated, in that order |
| MetaQuery.OverlappingSends | src/queries/meta.query.ts:537-543 | a failing first send rolled back after a second send's patch leaves the list as before both sends, losing the second provisional message |
| MetaQuery.MarkSyncing | src/queries/meta.query.ts:126-135 | without a successful entry it is returned unchanged; otherwise the list keeps its length, order and `meta`, and every row gets `_syncing` true with its other fields kept |
| MetaQuery.MarkSyncingIdempotent | src/queries/meta.query.ts:285-297 | marking twice is marking once, and afterwards every row is syncing |
| MetaQuery.SyncMetaPagesWithOptimisticUpdate | src/queries/meta.query.ts:116-157 | cancels both keys, marks the fanpages entry; a failed sync restores the fanpages snapshot and issues no invalidation, a successful one invalidates `fanpages()` and `pages()` |
| MetaQuery.SyncPageConversationsWithOptimisticUpdate | src/queries/meta.query.ts:270-321 | the same for one page's conversation list: on failure the snapshot is restored, on success `pageConversations(p)` and `conversations()` are invalidated |
| MetaQuery.OrDefault | src/queries/meta.query.ts:196-198 | `x \|\| d` for a number: `d` exactly when `x` is undefined or 0 |
| MetaQuery.CeilDiv | src/queries/meta.query.ts:199-201 | `Math.ceil(a / b)`: the integer `r` with `(r-1)·b < a ≤ r·b` for positive `b` (and the mirror for negative `b`) |
| MetaQuery.CurrentPage | src/queries/meta.query.ts:196 | `page \|\| 1` |
| MetaQuery.PageSize | src/queries/meta.query.ts:197 | `limit \|\| 10`, never 0 |
| MetaQuery.TotalPagesIsLeast | src/queries/meta.query.ts:199-201 | with a positive page size, `totalPages` is the least number of pages that holds `total \|\| 0` items |
| MetaQuery.InitialParams | src/queries/meta.query.ts:187-191 | page 1 and limit 10 unless the initial params give them |
| MetaQuery.Pagination.constructor | src/queries/meta.query.ts:187-191 | the state starts at `InitialParams` |
| MetaQuery.Pagination.SetPage | src/queries/meta.query.ts:204-206 | replaces the page and keeps the limit |
| MetaQuery.Pagination.SetPageSize | src/queries/meta.query.ts:208-210 | sets the limit and goes back to page 1 |
| MetaQuery.Pagination.NextPage | src/queries/meta.query.ts:212-216 | moves to `currentPage + 1` exactly when `currentPage < totalPages`, otherwise changes nothing |
| MetaQuery.Pagination.PrevPage | src/queries/meta.query.ts:218-222 | moves to `currentPage - 1` exactly when `currentPage > 1`, otherwise changes nothing; the page never drops below 1 |
| MetaSse.Acquire | src/hooks/use-meta-sse.ts:13-23 | an absent page id gets count 1, a present one one more; other page ids keep their counts |
| MetaSse.Release | src/hooks/use-meta-sse.ts:25-36 | an absent page id changes nothing; a count that drops to 0 or below deletes the entry; otherwise the count drops by one |
| MetaSse.AcquireTimesCount | src/hooks/use-meta-sse.ts:13-23 | n acquires of a fresh page id leave count n |
| MetaSse.ReleaseTimesCount | src/hooks/use-meta-sse.ts:25-36 | k releases from count n leave n−k while k < n and no entry from k = n on |
| MetaSse.RefCounting | src/hooks/use-meta-sse.ts:13-36 | after n acquires and k releases: one entry with count n−k when k < n, none when k ≥ n, other page ids untouched |
| MetaSse.SseUrl | src/hooks/use-meta-sse.ts:19 | the stream URL starts with `<BE_URL>/meta/pages/`, and what follows splits on `/` into exactly the encoded page id and `sse`: the id is one path segment |
| MetaSse.SseUrlInjective | src/hooks/use-meta-sse.ts:19 | two pages with the same stream URL are the same page |
| UrlEncoding.EncodeUriComponentInjective | src/hooks/use-meta-sse.ts:19 | `encodeURIComponent` is injective: two texts with the same encoding are equal |
| MetaSse.AcquiredOk | src/hooks/use-meta-sse.ts:13-23 | acquiring keeps every connection credentialed and on its own page's URL, one connection per page, and moves the counts as `Acquire` |
| MetaSse.AcquiredCounts | src/hooks/use-meta-sse.ts:13-23 | the pool's counts after an acquire are `Acquire` of its counts before |
| MetaSse.ReleasedOk | src/hooks/use-meta-sse.ts:25-36 | releasing keeps the pool invariant and moves the counts as `Release` |
| MetaSse.ReleasedCounts | src/hooks/use-meta-sse.ts:25-36 | the pool's counts after a release are `Release` of its counts before |
| MetaSse.ConnectionPool.constructor | src/hooks/use-meta-sse.ts:11 | the pool starts empty |
| MetaSse.ConnectionPool.GetOrCreateConnection | src/hooks/use-meta-sse.ts:13-23 | an existing page returns its connection and counts one more; a new page opens one fresh credentialed connection with count 1; the counts move as `Acquire` |
| MetaSse.ConnectionPool.ReleaseConnection | src/hooks/use-meta-sse.ts:25-36 | counts move as `Release`; at zero the connection is closed and the entry deleted even when `close` throws |
| MetaSse.ConnectionPool.Subscribe | src/hooks/use-meta-sse.ts:55-96 | disabled or without a page id the pool and the page's listeners are unchanged; otherwise the pool becomes `Acquired` of the old pool (the existing connection reused, or a new one opened on `SseUrl`), its counts move as `Acquire` and the three listeners are added |
| MetaSse.ConnectionPool.Unsubscribe | src/hooks/use-meta-sse.ts:102-112 | the subscription's three listeners come off and the pool becomes `Released` of the old pool (nothing when the page has no entry); the connection is closed, and a throwing `close` propagates, exactly when its last reference goes |
| MetaSse.ListenUnlisten | src/hooks/use-meta-sse.ts:91-108 | adding a subscription's listeners then removing them gives the listener list back |
| MetaSse.WithoutAppend | src/hooks/use-meta-sse.ts:103-108 | removing a listener absent from a prefix removes it from the suffix only |
| MetaSse.Listen | src/hooks/use-meta-sse.ts:91-96 | appends the three listeners of one subscription |
| MetaSse.Unlisten | src/hooks/use-meta-sse.ts:103-108 | removes exactly that subscription's listeners |
| MetaSse.OnMessageInserted | src/hooks/use-meta-sse.ts:70-89 | a non-empty `conversationId` invalidates `conversationMessages(p, c)` and `pageConversations(p)`; a missing or empty one, or malformed JSON, invalidates nothing |
| MetaSse.MessageInsertedTouches | src/hooks/use-meta-sse.ts:70-89 | such an event refreshes exactly the entries under `pageConversations(p)` and removes none |
| ConversationEvents.BackoffDelay | src/hooks/use-conversation-events.ts:56-59 | `min(1000·2^attempts, 30000)` lies between 1000 and 30000 |
| ConversationEvents.BackoffSchedule | src/hooks/use-conversation-events.ts:55-59 | the delays of attempts 1 to 5 are 2000, 4000, 8000, 16000 and 30000 |
| ConversationEvents.Pow2Monotone | src/hooks/use-conversation-events.ts:57 | `2^a ≤ 2^b` for `a ≤ b` |
| ConversationEvents.BackoffMonotone | src/hooks/use-conversation-events.ts:56-59 | the delay never shrinks with the attempt number and is 30000 from attempt 5 on |
| ConversationEvents.EventsUrl | src/hooks/use-conversation-events.ts:128-132 | the events URL starts with `<origin>/meta/events?` and its query splits on `&` into `pageId=<encoded id>`, then `conversationId=<encoded id>` exactly when it is set and non-empty |
| ConversationEvents.EventsQueryPairs | src/hooks/use-conversation-events.ts:128-132 | the query parses back: two pieces exactly when a conversation id is set, and each piece splits on `=` into the parameter's name and its encoded value |
| ConversationEvents.EventsHook.constructor | src/hooks/use-conversation-events.ts:30-32 | no connection, no timer, zero attempts |
| ConversationEvents.EventsHook.Cleanup | src/hooks/use-conversation-events.ts:36-45 | closes and drops the connection, clears the timer, leaves the counter |
| ConversationEvents.EventsHook.Reconnect | src/hooks/use-conversation-events.ts:48-72 | at 5 attempts or more it schedules nothing and changes nothing; otherwise the counter grows by one and a timer with `BackoffDelay` of the new count is set |
| ConversationEvents.EventsHook.ReconnectTimerFired | src/hooks/use-conversation-events.ts:61-71 | the timer's callback cleans up and schedules the 100 ms reset |
| ConversationEvents.EventsHook.ResetFired | src/hooks/use-conversation-events.ts:67-70 | the reset sets the counter to 0 and changes nothing else |
| ConversationEvents.EventsHook.OnOpen | src/hooks/use-conversation-events.ts:142-145 | `onopen` sets the counter to 0 |
| ConversationEvents.EventsHook.OnError | src/hooks/use-conversation-events.ts:149-157 | `onerror` reconnects only when the connection is closed, giving up exactly when 5 attempts were already made |
| ConversationEvents.EventsHook.ManualReconnect | src/hooks/use-conversation-events.ts:179-182 | the manual control resets the counter and cleans up |
| ConversationEvents.EventsHook.Connect | src/hooks/use-conversation-events.ts:125-160 | disabled or without a page id it changes nothing; otherwise it closes the previous connection, clears the timer and opens a fresh connection (without credentials) on `EventsUrl`, keeping the counter |
| ConversationEvents.CleanupTwice | src/hooks/use-conversation-events.ts:36-45 | a second cleanup finds nothing to close and changes nothing |
| ConversationEvents.ErrorCycle | src/hooks/use-conversation-events.ts:48-72 | a lost connection, its timer and the reset leave the counter back at 0 with no connection and no timer |
| ConversationEvents.HandleEvent | src/hooks/use-conversation-events.ts:75-122 | `message` invalidates `pageConversations` and, when a conversation is set, its messages; `conversation` invalidates only `pageConversations`; `error`, unknown types and malformed JSON invalidate nothing |
| ConversationEvents.MessageEventInvalidates | src/hooks/use-conversation-events.ts:81-98 | a `message` event always lists `pageConversations(p)`, and lists a messages key exactly when a conversation id is set |
| ConversationEvents.MessageEventTouches | src/hooks/use-conversation-events.ts:81-98 | under prefix matching a `message` event refreshes exactly the entries under `pageConversations(p)` |
| Loader.Marker | src/lib/loader.ts:7-8 | the separator is `; ` then the name then `=` |
| Loader.GetCookieAbsent | src/lib/loader.ts:6-13 | no `; name=` in `"; " + cookie`: null |
| Loader.GetCookieRepeated | src/lib/loader.ts:8-12 | two non-overlapping `; name=`: three pieces or more, so null |
| Loader.GetCookieUnique | src/lib/loader.ts:7-11 | exactly one `; name=`: the text after it up to the first `;`, or null when that text is empty |
| Loader.GetCookieValue | src/lib/loader.ts:10 | a found value is non-empty and holds no `;` |
| Loader.MarkerPositions | src/lib/loader.ts:7-8 | `; name=` occurs exactly when the cookie starts with `name=` or holds `; name=` |
| Loader.SuffixNameDoesNotMatch | src/lib/loader.ts:7-8 | `xauth_token=abc` holds no `auth_token` |
| Loader.AuthLoader | src/lib/loader.ts:19-27 | redirects to `/auth/login` exactly when `auth_token` is missing |
| Loader.NonAuthLoader | src/lib/loader.ts:33-41 | redirects to `/` exactly when `auth_token` is present, which is exactly when `authLoader` lets the route load |
| BaseApi.DefaultBaseUrl | src/services/base-api.ts:19-23 | `https://<host>:8787` off localhost, `http://localhost:8787` on it or without a window |
| BaseApi.PrefixUrl | src/services/base-api.ts:26 | `${baseUrl \|\| defaultBaseUrl}/${groupPrefix}` |
| BaseApi.PrefixUrlFallback | src/services/base-api.ts:19-26 | without a base URL every request goes to port 8787 over https off localhost |
| BaseApi.KyUrl | src/services/base-api.ts:25-26 | with a prefix URL, an input starting with `/` is rejected; any other input follows the prefix, separated by one `/` that the prefix may already end with; without a prefix the input is the URL |
| BaseApi.KyUrlOneSlash | src/services/base-api.ts:25-26 | when the prefix does not end with `/` and the input does not start with one, the URL is the prefix, exactly one `/` and the input, with no `//` at the join |
| BaseApi.AfterResponse | src/services/base-api.ts:31-54 | OK and 401 responses pass through; any other throws a `TypeError` exactly when its body is the JSON `null`, and otherwise `API Error: <status> - <m>` with `m` the body's message, "Unknown error" without one, or the status text when the body does not parse |
| BaseApi.ThrownMessageParts | src/services/base-api.ts:47-51 | the thrown message splits into the status line and the detail, so an empty status text gives an empty detail |
| BaseApi.EntryPairs | src/services/base-api.ts:72-77 | undefined, null and `""` contribute nothing; an array contributes one pair per element in order; any other value one pair |
| BaseApi.CreateSearchParams | src/services/base-api.ts:69-81 | the loop yields `SearchPairs` of the entries |
| BaseApi.AppendEach | src/services/base-api.ts:75 | the inner loop appends one pair per array element |
| BaseApi.SearchPairsAppend | src/services/base-api.ts:71-79 | entries are serialised independently and in order |
| BaseApi.SkippedEntryVanishes | src/services/base-api.ts:72 | dropping a skipped entry changes nothing |
| BaseApi.SearchPairsKeys | src/services/base-api.ts:71-79 | every pair comes from a non-skipped entry with that key |
| BaseApi.EncodedPairs | src/services/meta.service.ts:46 | one form-encoded `key=value` per pair |
| BaseApi.QueryStringPieces | src/services/meta.service.ts:46 | the serialised query splits back on `&` into the pairs, and each piece on `=` into its encoded key and value |
| MetaService.SharedPaths | src/services/meta.service.ts:93-188 | reading and sending messages share `meta/pages/{p}/{c}`; listing conversations and deleting a page share `meta/pages/{p}` with different verbs; sync is `meta/pages/{p}/sync` |
| MetaService.MetaUrl | src/services/meta.service.ts:22-25 | with no group prefix a request goes to `baseUrl/` + its path, and is rejected when its path starts with `/` |
| MetaService.GetStoredPages | src/services/meta.service.ts:41-50 | without params `meta/pages`; with params `meta/pages?` and the serialised query |
| MetaService.StoredPagesEmptyParams | src/services/meta.service.ts:42-47 | an empty params object still adds the `?` |
| MetaService.VerifyWebhook | src/services/meta.service.ts:115-124 | a GET of `meta/webhook?` whose query splits into `hub.mode`, `hub.challenge` and `hub.verify_token` with their form-encoded values, in that order |
| MetaService.PagesToSync | src/services/meta.service.ts:74-81 | one upsert row per fanpage, in order, carrying its id, name, access token and category |
| MetaService.PagesToSyncIgnoresExtras | src/services/meta.service.ts:74-81 | fanpages that agree on those four fields give the same upsert body |
| MetaService.WebhookHeaders | src/services/meta.service.ts:132-139 | `Content-Type: application/json` always; `X-Hub-Signature-256` exactly when the signature is non-empty, with its value; no other header |
| Translations.T | src/lib/translations.ts:267-281 | the loop answers `Translate`: the text at the end of the dotted path, or the key |
| Translations.LookupNoneExtends | src/lib/translations.ts:272-277 | once a segment is missing the walk stays failed |
| Translations.LookupFront | src/lib/translations.ts:268-278 | the walk is the first step followed by the walk of the rest |
| Translations.LookupLeafIsInTable | src/lib/translations.ts:271-280 | a text the walk reaches is a text of the table |
| Translations.TranslateIsLeafOrKey | src/lib/translations.ts:267-281 | `t` answers either a text of the table or the key itself |
| Translations.MissingSegmentGivesKey | src/lib/translations.ts:272-277 | a missing segment anywhere gives the key back |
| Translations.SectionOrPastLeafGivesKey | src/lib/translations.ts:272-280 | a path ending on a section, or descending below a text, gives the key back |
| Translations.SplitDotted | src/lib/translations.ts:268 | `a.b` splits into its two segments |
| Translations.SplitPlain | src/lib/translations.ts:268 | a key without a dot is one segment |
| Translations.ExcerptText | src/lib/translations.ts:267-281 | `actions.edit` gives its text |
| Translations.ExcerptAppName | src/lib/translations.ts:267-281 | `app.name` gives its text |
| Translations.ExcerptSection | src/lib/translations.ts:280 | `auth` names a section and gives `auth` back |
| Translations.ExcerptMissing | src/lib/translations.ts:272-277 | `actions.rename` gives the key back |
| Translations.ExcerptPastLeaf | src/lib/translations.ts:272 | `actions.edit.x` gives the key back |
| ImageFiles.ValidatorBounds | src/lib/utils.ts:31-44 | the type check accepts exactly jpeg, png, webp and gif; the size check is `size ≤ maxSize`, 5242880 by default |
| ImageFiles.Settle | src/lib/utils.ts:59-78 | a file succeeds exactly when it passes the checks that apply and converts; the type check comes first, and `validateType: false` skips only it |
| ImageFiles.SettleFrom | src/lib/utils.ts:58-79 | one settled result per file, in order, each with its own index |
| ImageFiles.SuccessesAndFailuresPartition | src/lib/utils.ts:82-99 | every settled result is either fulfilled or rejected |
| ImageFiles.NoFailuresAllSucceed | src/lib/utils.ts:94-105 | with no rejection every result is fulfilled |
| ImageFiles.NoFailuresKeepsAll | src/lib/utils.ts:82-92 | with no rejection the fulfilled values are all results, in order |
| ImageFiles.FailureCountIsFailingFiles | src/lib/utils.ts:94-101 | there is a rejection exactly when some file failed |
| ImageFiles.ProcessImageFilesOutcome | src/lib/utils.ts:49-108 | the batch fails exactly when some file fails, with the number of failures; otherwise one result per file, in input order, with its original index |
| ProductsService.ProductPaths | src/services/products.service.ts:28-136 | group operations address `baseUrl/products/{groupId}`, product operations `baseUrl/products/{groupId}/{productId}`; the product path extends the group path, which holds no `/` |
| CommonQuery.AppInfoUnderAll | src/queries/common.query.ts:6-9 | `appInfo()` is `["common", "appInfo"]` and extends `all` |
| CommonQuery.MergeAppInfo | src/queries/common.query.ts:78-87 | without a successful entry it is returned unchanged; otherwise updated keys take the new values and every other field is kept |
| CommonQuery.MergeAppInfoComposes | src/queries/common.query.ts:78-87 | two merges in a row are one merge with both updates, the later winning |
| CommonQuery.MergeAppInfoIdempotent | src/queries/common.query.ts:78-87 | re-applying an update changes nothing |
| CommonQuery.UpdateField | src/queries/common.query.ts:49-54 | the update has exactly the one field |
| CommonQuery.UpdateFieldMerge | src/queries/common.query.ts:49-54 | a single-field update changes that field only |
| CommonQuery.SetWebhookVerifyKey | src/queries/common.query.ts:124-133 | without a successful entry unchanged; otherwise only `metaWebhookVerifyKey` changes |
| CommonQuery.SetWebhookVerifyKeyIsMerge | src/queries/common.query.ts:124-133 | writing the generated key is the single-field merge of that key |
| CommonQuery.OptimisticUpdate | src/queries/common.query.ts:70-88 | cancels app-info fetches, returns the snapshot and writes the merge |
| CommonQuery.MutateWithOptimisticUpdate | src/queries/common.query.ts:70-105 | on failure the app-info entry is back at its snapshot and nothing is invalidated; on success it holds the merge and `appInfo()` is invalidated |
| CommonQuery.GenerateWebhookVerifyKeySucceeded | src/queries/common.query.ts:122-134 | writes the new key into the cached app info and issues no invalidation |
| ProductsQuery.KeyHierarchy | src/queries/products.query.ts:18-36 | `groups()` heads the group keys, `productsByGroup(g)` heads that group's lists and products, and the `groups` and `products` branches are disjoint |
| ProductsQuery.KeysDiverge | src/queries/products.query.ts:20-30 | a group's key and the group lists diverge, as do the keys of different groups and of different groups' products |
| ProductsQuery.GroupMutationsInvalidate | src/queries/products.query.ts:60-113 | each group mutation invalidates exactly the entries under `groups()` and touches no product entry |
| ProductsQuery.DeleteGroupRemoves | src/queries/products.query.ts:104-113 | deleting a group removes exactly the entries under `group(g)`, not the group lists, and leaves that group's product lists untouched |
| ProductsQuery.ProductWritesInvalidate | src/queries/products.query.ts:160-202 | creating a product invalidates its group's products and the groups; updating invalidates only its group's products and leaves the groups untouched |
| ProductsQuery.DeleteProductTouches | src/queries/products.query.ts:215-230 | removes exactly the entries under `product(g, p)`, invalidates its group's products and the groups, leaves other groups' products untouched |
| AiQuery.KeyHierarchy | src/queries/ai.query.ts:18-28 | `agents()` heads every agent key, agent and chat keys are disjoint, and `chatSession(a, s)` has four parts under `chats()` |
| AiQuery.GetAgentQuery | src/queries/ai.query.ts:44-56 | the query uses `agent(id)` and is disabled exactly when `options.enabled` is `false` |
| AiQuery.AgentMutationsTouch | src/queries/ai.query.ts:67-118 | each agent mutation invalidates exactly the entries under `agents()`; delete removes exactly those under `agent(id)`; no chat entry is touched |
| AiQuery.SendMessageTouches | src/queries/ai.query.ts:138-143 | a send invalidates `chatSession(b, s)` exactly when `b` is the agent and `s` is undefined |
| AiQuery.SendMessageSparesAgents | src/queries/ai.query.ts:138-143 | a send touches no agent entry |
| AiQuery.NoEffectMutations | src/queries/ai.query.ts:152-206 | the streaming send and the prompt enhancement touch no cache entry |
| AiAgentsQuery.KeyHierarchy | src/queries/ai-agents.query.ts:12-19 | `lists()` heads `list(params)`, `details()` heads `detail(id)`, and the two branches are disjoint |
| AiAgentsQuery.AgentMutationsTouch | src/queries/ai-agents.query.ts:56-108 | create invalidates only the lists; update invalidates `detail(id)` and the lists; delete removes `detail(id)` and invalidates the lists; other agents' details are untouched |
| AiAgentsQuery.FamiliesSeparate | src/queries/ai-agents.query.ts:12-19 | the `"ai"` and `"ai-agents"` families never touch each other's entries |
| AuthStore.AuthDialogStore.constructor | src/stores/auth.store.ts:10 | the dialog starts closed |
| AuthStore.AuthDialogStore.ShowAuthDialog | src/stores/auth.store.ts:12-18 | the dialog is open afterwards, with a write only when it was closed |
| AuthStore.AuthDialogStore.HideAuthDialog | src/stores/auth.store.ts:20-22 | the dialog is closed afterwards, whatever it was |
| AuthStore.ShowRepeatedly | src/stores/auth.store.ts:12-18 | any number of shows in a row open the dialog with at most one write |
| AuthStore.ShowThenHide | src/stores/auth.store.ts:12-22 | showing then hiding leaves the dialog closed |
| UseSpace.Space | src/hooks/use-space.ts:6 | there is a segment exactly when the path holds a `/`, and it never holds one |
| UseSpace.SplitShape | src/hooks/use-space.ts:6 | `split("/")` has a second piece exactly when the path holds a `/`, and that piece holds none |
| UseSpace.SpaceBetweenSlashes | src/hooks/use-space.ts:6 | the segment is the text between the first `/` and the next one (or the end) |
| UseSpace.RootSpace | src/hooks/use-space.ts:6 | `"/"` gives `""` |
| UseSpace.NestedSpace | src/hooks/use-space.ts:6 | `"/products/12/34"` gives `"products"` |
| UseSpace.SpaceOfSlashPath | src/hooks/use-space.ts:6 | for `"/" + rest` the segment is `rest` up to its first `/` |

## Left out

- Network I/O is not modelled. ky requests, response bodies and the `EventSource` transport are parameters: the request's outcome, the parsed error body, the connection's `readyState` and a flag for a throwing `close`.
- Timers are recorded, not run. `setTimeout` stores the delay, `clearTimeout` clears it, and a timer firing is a method the caller invokes.
- `fileToBase64` and `FileReader` are a function parameter that may fail.
- `Date.now()`, `toISOString()` and the window's hostname are parameters.
- Toasts and console logging are not modelled.
- TanStack Query internals are not modelled: refetching, stale and garbage-collection times, retries, structural sharing, and the cancellation of in-flight requests. Cancellation is only recorded.
- Partial key matching is assumed to be list-prefix matching. Objects inside keys are compared as whole values, not by TanStack's recursive partial matching.
- ImageFiles.Settle: the `TooLarge` message carries the limit in bytes. The source's `maxSize / (1024*1024)` text is floating-point formatting.
- ImageFiles: numbers are integers, and the thrown batch message is modelled as its count and reasons, not as the joined text.
- BaseApi.Render: `String(v)` for non-integer numbers and for objects is not modelled; objects render as one fixed text.
- BaseApi.CreateSearchParams: the order of `Object.entries` is the order of the given sequence. JavaScript moves integer-like keys to the front, and that reordering is not modelled.
- UrlEncoding: Dafny characters are Unicode scalar values, so JavaScript strings with lone surrogates (where `encodeURIComponent` throws) are not modelled.
- MetaService.VerifyWebhook: the parameter order follows the caller's object literal, which the model fixes to mode, challenge and token.
- MetaQuery.InitialParams: an explicit `undefined` in the initial params is not told apart from an absent field. The source would overwrite the default with `undefined`, and then the `|| 1` and `|| 10` defaults still apply.
- ProductsService: the `searchParams` option of the product list requests is not modelled; only the paths are.
- Translations: the walk over the nested table is modelled. Prototype properties of JavaScript objects (a key segment such as `toString`) are not. The full table is not copied: three sections stand in for it.
- Translations.ExcerptText: stated over an abridged excerpt of the table, not the whole table; so are Translations.ExcerptAppName, ExcerptSection, ExcerptMissing and ExcerptPastLeaf.
- The thin service wrappers (src/services/ai.service.ts, ai-agents.service.ts, common.service.ts, auth.service.ts) and src/queries/auth.query.ts are not part of this model. They hold only endpoint strings.
- Rendering, routing, providers and the type files under src/types are not part of this model.
- MetaQuery.AddOptimisticMessage: given a record response instead of a list, returns it unchanged. JavaScript would build a mixed object; the typed model keeps the two response shapes apart.
- MetaQuery.MarkSyncing: the same for a record response.
- CommonQuery.MergeAppInfo: given a list response instead of a record, returns it unchanged, for the same reason.
- CommonQuery.SetWebhookVerifyKey: the same for a list response.
- MetaSse: the `ready` and `keepalive` listeners do nothing and are modelled only as registrations. The hook's `esRef` is write-only and is not modelled.
- ConversationEvents: the `isConnected` flag of the hook reads `readyState` and is a predicate, not a member with a contract. The `onMessage` and `onConversation` callbacks are returned as reactions, not called.
