/**
 * The shared HTTP client setup of src/services/base-api.ts: the
 * `prefixUrl` choice, the `afterResponse` hook that turns failed
 * responses into errors, and `createSearchParams`.
 */
module BaseApi {
  import opened Wrappers
  import opened Strings
  import opened UrlEncoding

  // ===== prefixUrl =====

  const DefaultPort := ":8787"

  /** `defaultBaseUrl`: `hostname` is `None` where there is no `window`. */
  function DefaultBaseUrl(hostname: Option<string>): (u: string)
    ensures hostname.Some? && hostname.value != "localhost" ==> u == "https://" + hostname.value + DefaultPort
    ensures hostname.None? || hostname.value == "localhost" ==> u == "http://localhost" + DefaultPort
  {
    if hostname.Some? && hostname.value != "localhost" then "https://" + hostname.value + DefaultPort
    else "http://localhost" + DefaultPort
  }

  /** `${baseUrl || defaultBaseUrl}/${groupPrefix}`; `baseUrl` is the
      constructor argument after its `BE_URL` default. */
  function PrefixUrl(baseUrl: string, groupPrefix: string, hostname: Option<string>): (u: string)
    ensures baseUrl != "" ==> u == baseUrl + "/" + groupPrefix
    ensures baseUrl == "" ==> u == DefaultBaseUrl(hostname) + "/" + groupPrefix
  {
    (if baseUrl != "" then baseUrl else DefaultBaseUrl(hostname)) + "/" + groupPrefix
  }

  /** Without a base URL every request of a group goes to port 8787 of the
      page's own host over https, or of localhost over http. */
  lemma PrefixUrlFallback(groupPrefix: string, hostname: Option<string>)
    ensures var u := PrefixUrl("", groupPrefix, hostname);
      && (hostname.Some? && hostname.value != "localhost" ==> StartsWith(u, "https://" + hostname.value + ":8787/"))
      && (hostname.None? || hostname.value == "localhost" ==> StartsWith(u, "http://localhost:8787/"))
  {
    var u := PrefixUrl("", groupPrefix, hostname);
    if hostname.Some? && hostname.value != "localhost" {
      assert u == ("https://" + hostname.value + ":8787/") + groupPrefix;
    } else {
      assert u == "http://localhost:8787/" + groupPrefix;
    }
  }

  /** The URL ky requests for `input`. With a prefix URL, an input that
      starts with `/` makes ky throw (`None`), and otherwise a `/` is added
      to the prefix unless it already ends with one; without a prefix the
      input is used as it is. */
  function KyUrl(prefixUrl: string, input: string): (r: Option<string>)
    ensures r.None? <==> prefixUrl != "" && StartsWith(input, "/")
    ensures prefixUrl == "" ==> r == Some(input)
    ensures r.Some? && prefixUrl != "" ==>
      && StartsWith(r.value, prefixUrl)
      && |prefixUrl| + |input| <= |r.value| <= |prefixUrl| + 1 + |input|
      && r.value[|r.value| - |input|..] == input
      && r.value[|r.value| - |input| - 1] == '/'
  {
    if prefixUrl == "" then Some(input)
    else if StartsWith(input, "/") then None
    else
      var base := if prefixUrl[|prefixUrl| - 1] == '/' then prefixUrl else prefixUrl + "/";
      var u := base + input;
      assert u[..|prefixUrl|] == prefixUrl;
      assert u[|u| - |input|..] == input;
      Some(u)
  }

  /** A prefix given with or without its trailing `/` yields the same URL,
      and the prefix and the input are joined by exactly one `/`: the
      prefix does not end with one and the input does not start with one. */
  lemma KyUrlOneSlash(prefix: string, input: string)
    requires prefix != "" && prefix[|prefix| - 1] != '/'
    requires !StartsWith(input, "/")
    ensures KyUrl(prefix, input) == KyUrl(prefix + "/", input)
    ensures KyUrl(prefix, input).Some?
    ensures var u := KyUrl(prefix, input).value;
      && |u| == |prefix| + 1 + |input|
      && u[..|prefix|] == prefix && u[|prefix|] == '/' && u[|prefix| + 1..] == input
      && u[|prefix| - 1] != '/' && (|input| > 0 ==> u[|prefix| + 1] != '/')
  {
    var p' := prefix + "/";
    assert p'[|p'| - 1] == '/';
    var u := prefix + "/" + input;
    assert u[..|prefix|] == prefix && u[|prefix| + 1..] == input;
    if |input| > 0 {
      assert input[..1] != "/";
      assert input[0] != '/';
    }
  }

  // ===== afterResponse =====

  datatype Response = Response(ok: bool, status: int, statusText: string)

  /** The outcome of `res.json()` on a failed response: unparsable, the
      JSON `null`, or any other value whose `message` renders as the given
      text (`None` when it is absent, `null` or `undefined`; a number, a
      string or an array has no `message`). */
  datatype ErrorBody = Unparsable | NullBody | Parsed(message: Option<string>)

  /** The hook returns the response, throws an `Error` with a message, or,
      reading `message` off a `null` body, throws a `TypeError` before its
      own error is built. */
  datatype HookOutcome = PassThrough | Thrown(message: string) | TypeErrorThrown

  /** The `m` of the thrown message: the body's `message`, "Unknown error"
      when it has none, the status text when the body does not parse. */
  function ErrorDetail(res: Response, body: ErrorBody): string
    requires !body.NullBody?
  {
    match body
    case Unparsable => res.statusText
    case Parsed(None) => "Unknown error"
    case Parsed(Some(m)) => m
  }

  /** `afterResponse`. The `redirect("/auth/login")` of a 401 builds a
      response nobody returns or throws, so a 401 only passes through. */
  function AfterResponse(res: Response, body: ErrorBody): (r: HookOutcome)
    ensures r.PassThrough? <==> res.ok || res.status == 401
    ensures r.TypeErrorThrown? <==> !res.ok && res.status != 401 && body.NullBody?
    ensures r.Thrown? ==> !body.NullBody?
    ensures r.Thrown? ==>
      r.message == "API Error: " + IntToString(res.status) + " - " + ErrorDetail(res, body)
  {
    if res.ok then PassThrough
    else if res.status == 401 then PassThrough
    else if body.NullBody? then TypeErrorThrown
    else Thrown("API Error: " + IntToString(res.status) + " - " + ErrorDetail(res, body))
  }

  /** The thrown message is the status line followed by the detail,
      whatever the detail holds. */
  lemma ThrownMessageParts(res: Response, body: ErrorBody)
    requires !res.ok && res.status != 401 && !body.NullBody?
    ensures var msg := AfterResponse(res, body).message;
      var head := "API Error: " + IntToString(res.status) + " - ";
      StartsWith(msg, head) && msg[|head|..] == ErrorDetail(res, body)
  {
    var head := "API Error: " + IntToString(res.status) + " - ";
    assert AfterResponse(res, body).message == head + ErrorDetail(res, body);
  }

  // ===== createSearchParams =====

  /** A JavaScript value as `URLSearchParams.append` sees it; numbers are
      integers here. */
  datatype Scalar = SUndefined | SNull | SBool(b: bool) | SNum(n: int) | SStr(s: string) | SObject

  /** `String(v)` */
  function Render(v: Scalar): string {
    match v
    case SUndefined => "undefined"
    case SNull => "null"
    case SBool(b) => if b then "true" else "false"
    case SNum(n) => IntToString(n)
    case SStr(s) => s
    case SObject => "[object Object]"
  }

  datatype ParamValue = One(v: Scalar) | Many(items: seq<Scalar>)

  /** `undefined`, `null` and `""` are dropped; an empty array is not. */
  predicate Skipped(v: ParamValue) {
    v == One(SUndefined) || v == One(SNull) || v == One(SStr(""))
  }

  /** The pairs one entry contributes. */
  function EntryPairs(key: string, v: ParamValue): (r: seq<(string, string)>)
    ensures Skipped(v) ==> r == []
    ensures !Skipped(v) && v.One? ==> r == [(key, Render(v.v))]
    ensures !Skipped(v) && v.Many? ==>
      |r| == |v.items| && forall j :: 0 <= j < |r| ==> r[j] == (key, Render(v.items[j]))
  {
    if Skipped(v) then []
    else match v
      case One(x) => [(key, Render(x))]
      case Many(items) => seq(|items|, j requires 0 <= j < |items| => (key, Render(items[j])))
  }

  /** The pairs of `createSearchParams(params)`, entry after entry. */
  function SearchPairs(params: seq<(string, ParamValue)>): seq<(string, string)> {
    if |params| == 0 then []
    else SearchPairs(params[..|params| - 1]) + EntryPairs(params[|params| - 1].0, params[|params| - 1].1)
  }

  /** `createSearchParams`: the `forEach` over the entries, appending into
      the result. */
  method CreateSearchParams(params: seq<(string, ParamValue)>) returns (pairs: seq<(string, string)>)
    ensures pairs == SearchPairs(params)
  {
    pairs := [];
    var i := 0;
    while i < |params|
      invariant 0 <= i <= |params|
      invariant pairs == SearchPairs(params[..i])
    {
      var key := params[i].0;
      var value := params[i].1;
      assert params[..i + 1][..i] == params[..i];
      if !Skipped(value) {
        if value.Many? {
          pairs := AppendEach(pairs, key, value.items);
        } else {
          pairs := pairs + [(key, Render(value.v))];
        }
      }
      i := i + 1;
    }
    assert params[..i] == params;
  }

  /** `value.forEach((v) => searchParams.append(key, v))` */
  method AppendEach(pairs: seq<(string, string)>, key: string, items: seq<Scalar>)
    returns (r: seq<(string, string)>)
    ensures r == pairs + EntryPairs(key, Many(items))
  {
    r := pairs;
    var j := 0;
    while j < |items|
      invariant 0 <= j <= |items|
      invariant r == pairs + EntryPairs(key, Many(items[..j]))
    {
      assert items[..j + 1][..j] == items[..j];
      r := r + [(key, Render(items[j]))];
      j := j + 1;
    }
    assert items[..j] == items;
  }

  /** Entries are serialised independently and in order. */
  lemma {:induction false} SearchPairsAppend(a: seq<(string, ParamValue)>, b: seq<(string, ParamValue)>)
    ensures SearchPairs(a + b) == SearchPairs(a) + SearchPairs(b)
    decreases |b|
  {
    if |b| == 0 {
      assert a + b == a;
    } else {
      var b' := b[..|b| - 1];
      var last := b[|b| - 1];
      var e := EntryPairs(last.0, last.1);
      assert (a + b)[..|a + b| - 1] == a + b';
      assert (a + b)[|a + b| - 1] == last;
      assert SearchPairs(a + b) == SearchPairs(a + b') + e;
      assert SearchPairs(b) == SearchPairs(b') + e;
      SearchPairsAppend(a, b');
      assert (SearchPairs(a) + SearchPairs(b')) + e == SearchPairs(a) + (SearchPairs(b') + e);
    }
  }

  /** Dropping a skipped entry changes nothing. */
  lemma SkippedEntryVanishes(a: seq<(string, ParamValue)>, key: string, v: ParamValue, b: seq<(string, ParamValue)>)
    requires Skipped(v)
    ensures SearchPairs(a + [(key, v)] + b) == SearchPairs(a + b)
  {
    var a' := a + [(key, v)];
    assert a'[..|a'| - 1] == a && a'[|a'| - 1] == (key, v);
    assert SearchPairs(a') == SearchPairs(a) + EntryPairs(key, v);
    assert SearchPairs(a') == SearchPairs(a);
    SearchPairsAppend(a', b);
    SearchPairsAppend(a, b);
  }

  /** Every pair is keyed by one of the entries' keys, and no value comes
      from a skipped entry. */
  lemma {:induction false} SearchPairsKeys(params: seq<(string, ParamValue)>, k: nat)
    requires k < |SearchPairs(params)|
    ensures exists i :: 0 <= i < |params| && params[i].0 == SearchPairs(params)[k].0 && !Skipped(params[i].1)
  {
    var n := |params|;
    var init := SearchPairs(params[..n - 1]);
    if k < |init| {
      SearchPairsKeys(params[..n - 1], k);
      var i :| 0 <= i < n - 1 && params[..n - 1][i].0 == init[k].0 && !Skipped(params[..n - 1][i].1);
      assert params[i] == params[..n - 1][i];
    } else {
      assert SearchPairs(params)[k] == EntryPairs(params[n - 1].0, params[n - 1].1)[k - |init|];
    }
  }

  /** `searchParams.toString()`: form-encoded `key=value` pairs joined by `&`. */
  function QueryString(pairs: seq<(string, string)>): string {
    Join(EncodedPairs(pairs), "&")
  }

  function EncodedPairs(pairs: seq<(string, string)>): (r: seq<string>)
    ensures |r| == |pairs|
    ensures forall j :: 0 <= j < |r| ==> r[j] == EncodeForm(pairs[j].0) + "=" + EncodeForm(pairs[j].1)
  {
    seq(|pairs|, j requires 0 <= j < |pairs| => EncodeForm(pairs[j].0) + "=" + EncodeForm(pairs[j].1))
  }

  /** The serialised query splits back into one `key=value` piece per
      pair, each with exactly one `=`: keys and values cannot run into each
      other. */
  lemma QueryStringPieces(pairs: seq<(string, string)>)
    requires |pairs| >= 1
    ensures Split(QueryString(pairs), "&") == EncodedPairs(pairs)
    ensures forall j :: 0 <= j < |pairs| ==>
      Split(EncodedPairs(pairs)[j], "=") == [EncodeForm(pairs[j].0), EncodeForm(pairs[j].1)]
  {
    QueryStringSplits(pairs);
    forall j | 0 <= j < |pairs|
      ensures Split(EncodedPairs(pairs)[j], "=") == [EncodeForm(pairs[j].0), EncodeForm(pairs[j].1)]
    {
      PairPieceSplits(pairs[j].0, pairs[j].1);
    }
  }

  /** The serialised query splits on `&` into its encoded pairs. */
  lemma QueryStringSplits(pairs: seq<(string, string)>)
    requires |pairs| >= 1
    ensures Split(QueryString(pairs), "&") == EncodedPairs(pairs)
  {
    var parts := EncodedPairs(pairs);
    forall k | 0 <= k < |parts| ensures Avoids(parts[k], '&') {
      assert parts[k] == EncodeForm(pairs[k].0) + "=" + EncodeForm(pairs[k].1);
    }
    SplitJoinChar(parts, '&');
  }

  /** One encoded pair splits on `=` into its encoded key and value. */
  lemma PairPieceSplits(k: string, v: string)
    ensures Split(EncodeForm(k) + "=" + EncodeForm(v), "=") == [EncodeForm(k), EncodeForm(v)]
  {
    var kv := [EncodeForm(k), EncodeForm(v)];
    assert Avoids(kv[0], '=') && Avoids(kv[1], '=');
    assert Join(kv, "=") == EncodeForm(k) + "=" + EncodeForm(v) by { assert kv[1..] == [kv[1]]; }
    SplitJoinChar(kv, '=');
  }
}
