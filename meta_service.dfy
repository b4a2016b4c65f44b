/**
 * Request shaping in src/services/meta.service.ts: the endpoint paths
 * (relative to the client's prefix URL), the page list sent by
 * `syncMetaPages`, the query of `getStoredPages`, and the headers of
 * `handleWebhookEvent`. The requests themselves are not modelled.
 */
module MetaService {
  import opened Wrappers
  import opened Strings
  import opened BaseApi
  import opened UrlEncoding

  const GroupPrefix := "meta"

  /** An HTTP method and a path. */
  datatype Request = Request(verb: string, path: string)

  function PagesPath(): string { GroupPrefix + "/pages" }

  /** `meta/pages/{pageId}`: the page itself. */
  function PagePath(pageId: string): string { PagesPath() + "/" + pageId }

  function GetMetaFanpages(): Request { Request("GET", GroupPrefix + "/meta-pages") }
  function UpsertMetaPages(): Request { Request("PATCH", PagesPath()) }
  function DeletePage(pageId: string): Request { Request("DELETE", PagePath(pageId)) }
  function SyncPageConversations(pageId: string): Request { Request("PATCH", PagePath(pageId) + "/sync") }
  function GetPageConversations(pageId: string): Request { Request("GET", PagePath(pageId)) }
  function GetConversationMessages(pageId: string, conversationId: string): Request {
    Request("GET", PagePath(pageId) + "/" + conversationId)
  }
  function SendMessageToConversation(pageId: string, conversationId: string): Request {
    Request("POST", PagePath(pageId) + "/" + conversationId)
  }
  function HandleWebhookEvent(): Request { Request("POST", GroupPrefix + "/webhook") }

  /** Reading and sending messages address one resource; listing a page's
      conversations and deleting the page address another; syncing hangs
      under the page. */
  lemma SharedPaths(pageId: string, conversationId: string)
    ensures GetConversationMessages(pageId, conversationId).path == SendMessageToConversation(pageId, conversationId).path
    ensures GetConversationMessages(pageId, conversationId).path == "meta/pages/" + pageId + "/" + conversationId
    ensures GetPageConversations(pageId).path == DeletePage(pageId).path == "meta/pages/" + pageId
    ensures GetPageConversations(pageId).verb != DeletePage(pageId).verb
    ensures SyncPageConversations(pageId).path == "meta/pages/" + pageId + "/sync"
    ensures StartsWith(SyncPageConversations(pageId).path, PagePath(pageId) + "/")
  {
    assert GroupPrefix + "/pages" + "/" + pageId == "meta/pages/" + pageId;
    var sync := SyncPageConversations(pageId).path;
    assert sync == (PagePath(pageId) + "/") + "sync";
    assert sync[..|PagePath(pageId) + "/"|] == PagePath(pageId) + "/";
  }

  /** The client is created with no group prefix, so its prefix URL ends
      in `/` and each path follows it directly; ky refuses a path that
      starts with `/`. */
  lemma MetaUrl(baseUrl: string, hostname: Option<string>, r: Request)
    requires baseUrl != ""
    ensures KyUrl(PrefixUrl(baseUrl, "", hostname), r.path) ==
      if StartsWith(r.path, "/") then None else Some(baseUrl + "/" + r.path)
  {
    var prefix := PrefixUrl(baseUrl, "", hostname);
    assert prefix == baseUrl + "/" && prefix[|prefix| - 1] == '/';
  }

  /** `getStoredPages(params)`: any params object, even an empty one,
      gives `meta/pages?` and the serialised query; none gives `meta/pages`. */
  function GetStoredPages(params: Option<seq<(string, ParamValue)>>): (r: Request)
    ensures r.verb == "GET"
    ensures params.None? ==> r.path == "meta/pages"
    ensures params.Some? ==> r.path == "meta/pages?" + QueryString(SearchPairs(params.value))
  {
    match params
    case None => Request("GET", PagesPath())
    case Some(p) => Request("GET", PagesPath() + "?" + QueryString(SearchPairs(p)))
  }

  /** An empty params object still adds the `?`. */
  lemma StoredPagesEmptyParams()
    ensures GetStoredPages(Some([])).path == "meta/pages?"
  {
    assert SearchPairs([]) == [];
    assert EncodedPairs([]) == [];
  }

  const HubMode := "hub.mode"
  const HubChallenge := "hub.challenge"
  const HubVerifyToken := "hub.verify_token"

  /** `verifyWebhook`: `new URLSearchParams(params)` over the three `hub.*`
      fields, in the order written. Unlike `createSearchParams` this keeps
      empty values. */
  function VerifyWebhook(mode: string, challenge: string, verifyToken: string): (r: Request)
    ensures r.verb == "GET"
    ensures StartsWith(r.path, "meta/webhook?")
    ensures Split(r.path[|"meta/webhook?"|..], "&") ==
      [HubMode + "=" + EncodeForm(mode), HubChallenge + "=" + EncodeForm(challenge),
       HubVerifyToken + "=" + EncodeForm(verifyToken)]
  {
    var q := QueryString(HubPairs(mode, challenge, verifyToken));
    HubQueryPieces(mode, challenge, verifyToken);
    var r := Request("GET", "meta/webhook?" + q);
    assert r.path[|"meta/webhook?"|..] == q;
    r
  }

  function HubPairs(mode: string, challenge: string, verifyToken: string): seq<(string, string)> {
    [(HubMode, mode), (HubChallenge, challenge), (HubVerifyToken, verifyToken)]
  }

  lemma HubQueryPieces(mode: string, challenge: string, verifyToken: string)
    ensures Split(QueryString(HubPairs(mode, challenge, verifyToken)), "&") ==
      [HubMode + "=" + EncodeForm(mode), HubChallenge + "=" + EncodeForm(challenge),
       HubVerifyToken + "=" + EncodeForm(verifyToken)]
  {
    QueryStringPieces(HubPairs(mode, challenge, verifyToken));
    EncodedTriple(HubPairs(mode, challenge, verifyToken));
    HubKeysUnencoded();
  }

  lemma EncodedTriple(pairs: seq<(string, string)>)
    requires |pairs| == 3
    ensures EncodedPairs(pairs) ==
      [EncodeForm(pairs[0].0) + "=" + EncodeForm(pairs[0].1),
       EncodeForm(pairs[1].0) + "=" + EncodeForm(pairs[1].1),
       EncodeForm(pairs[2].0) + "=" + EncodeForm(pairs[2].1)]
  {
    var e := EncodedPairs(pairs);
    ThreeElements(e, e[0], e[1], e[2]);
  }

  lemma ThreeElements(e: seq<string>, a: string, b: string, c: string)
    requires |e| == 3 && e[0] == a && e[1] == b && e[2] == c
    ensures e == [a, b, c]
  {
  }

  lemma HubKeysUnencoded()
    ensures EncodeForm(HubMode) == HubMode
    ensures EncodeForm(HubChallenge) == HubChallenge
    ensures EncodeForm(HubVerifyToken) == HubVerifyToken
  {
    HubModeUnencoded();
    HubChallengeUnencoded();
    HubTokenUnencoded();
  }
  lemma HubModeUnencoded()
    ensures EncodeForm(HubMode) == HubMode
  {
    FormSafeWord(HubMode);
  }

  lemma HubChallengeUnencoded()
    ensures EncodeForm(HubChallenge) == HubChallenge
  {
    FormSafeWord(HubChallenge);
  }

  lemma HubTokenUnencoded()
    ensures EncodeForm(HubVerifyToken) == HubVerifyToken
  {
    FormSafeWord(HubVerifyToken);
  }


  lemma FormSafeWord(w: string)
    requires forall k :: 0 <= k < |w| ==> ('a' <= w[k] <= 'z') || w[k] == '.' || w[k] == '_'
    ensures EncodeForm(w) == w
  {
    forall k | 0 <= k < |w| ensures FormSafe(w[k]) {
      assert IsAlphaNum(w[k]) || w[k] == '.' || w[k] == '_';
    }
  }

  /** A fanpage as the Graph API returns it. */
  datatype Fanpage = Fanpage(id: string, name: string, accessToken: string, category: string,
                             categoryList: Option<seq<(string, string)>>, tasks: Option<seq<string>>)

  /** The upsert body for one page. */
  datatype UpsertPage = UpsertPage(id: string, name: string, accessToken: string, category: string)

  function ToUpsert(p: Fanpage): UpsertPage {
    UpsertPage(p.id, p.name, p.accessToken, p.category)
  }

  /** The mapping in `syncMetaPages`. */
  function PagesToSync(pages: seq<Fanpage>): (r: seq<UpsertPage>)
    ensures |r| == |pages|
    ensures forall i :: 0 <= i < |r| ==>
      r[i].id == pages[i].id && r[i].name == pages[i].name &&
      r[i].accessToken == pages[i].accessToken && r[i].category == pages[i].category
  {
    if |pages| == 0 then [] else [ToUpsert(pages[0])] + PagesToSync(pages[1..])
  }

  /** `category_list` and `tasks` do not reach the upsert body. */
  lemma {:induction false} PagesToSyncIgnoresExtras(a: seq<Fanpage>, b: seq<Fanpage>)
    requires |a| == |b|
    requires forall i :: 0 <= i < |a| ==>
      a[i].id == b[i].id && a[i].name == b[i].name && a[i].accessToken == b[i].accessToken && a[i].category == b[i].category
    ensures PagesToSync(a) == PagesToSync(b)
  {
    if |a| > 0 {
      PagesToSyncIgnoresExtras(a[1..], b[1..]);
    }
  }

  /** The headers of `handleWebhookEvent`, filled in place. */
  method WebhookHeaders(signature: Option<string>) returns (headers: map<string, string>)
    ensures "Content-Type" in headers && headers["Content-Type"] == "application/json"
    ensures "X-Hub-Signature-256" in headers <==> signature.Some? && signature.value != ""
    ensures "X-Hub-Signature-256" in headers ==> headers["X-Hub-Signature-256"] == signature.value
    ensures headers.Keys <= {"Content-Type", "X-Hub-Signature-256"}
  {
    headers := map["Content-Type" := "application/json"];
    if signature.Some? && signature.value != "" {
      headers := headers["X-Hub-Signature-256" := signature.value];
    }
  }
}
