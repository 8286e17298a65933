/**
 * The request pipeline of `SpotifyAPI.request` as pure functions: whether a token refresh comes
 * first, how the outgoing request is built (method, Bearer authorization of section 2.1 of
 * RFC 6750, query string, JSON body) and how a reply is turned into a value or an error.
 * `RequestSpec` composes them into one exchange; the client class is proved to perform it.
 */
module Requests {
  import opened Wrappers
  import opened Strings
  import opened Types
  import opened Helpers
  import opened Authorization

  /** The argument of `request`: a bare URL, or `SpotifyRequestOptions`. */
  datatype RequestOptions =
    | UrlOnly(url: string)
      /**
       * An absent body is `Undefined`. `contentType` is carried because callers set it,
       * but the pipeline never reads it.
       */
    | Options(url: string, verb: Option<Method>, body: JsValue, params: Option<Params>, contentType: Option<string>)

  /** A parameter value as `URLSearchParams` renders it (`String(v)`). */
  function ParamText(v: ParamValue): string {
    match v
    case PString(s) => s
    case PNumber(n) => IntToString(n)
    case PBoolean(b) => if b then "true" else "false"
    case PUndefined => "undefined"
    case PStrings(items) => Join(items, ",")
  }

  /** The name/value pairs handed to the query serializer, in the parameters' order. */
  function QueryPairs(params: Params): (pairs: seq<(string, string)>)
    ensures |pairs| == |params|
    ensures forall k :: 0 <= k < |params| ==> pairs[k] == (params[k].0, ParamText(params[k].1))
  {
    seq(|params|, k requires 0 <= k < |params| => (params[k].0, ParamText(params[k].1)))
  }

  /** The URL the request goes to. */
  function RequestUrl(options: RequestOptions, codecs: Codecs): string {
    match options
    case UrlOnly(url) => url
    case Options(url, _, _, params, _) =>
      if params.Some? then AddTrailingSlash(url) + "?" + codecs.formEncode(QueryPairs(params.value))
      else url
  }

  /** The value of the Authorization header for the token in effect (`undefined` when none). */
  function BearerValue(token: Option<string>): string {
    "Bearer " + (if token.Some? then token.value else "undefined")
  }

  /** The body given, when it is truthy. */
  predicate HasBody(options: RequestOptions) {
    options.Options? && Truthy(options.body)
  }

  /** The request handed to the transport, with `token` as the stored access token. */
  function BuildRequest(options: RequestOptions, token: Option<string>, codecs: Codecs): HttpRequest {
    var auth := [("Authorization", BearerValue(token))];
    HttpRequest(
      RequestUrl(options, codecs),
      if options.Options? && options.verb.Some? then options.verb.value else GET,
      if HasBody(options) then auth + [("Content-Type", "application/json")] else auth,
      if HasBody(options) then Some(codecs.stringify(options.body)) else None)
  }

  /** What a successful request yields: the decoded JSON, or the body text. */
  datatype Payload = JsonPayload(value: JsValue) | TextPayload(text: string)

  /**
   * `error.message` from `const { error } = body`, rendered in a template literal; None where
   * JavaScript throws a TypeError (destructuring `null`/`undefined`, or `error` is missing,
   * `null` or `undefined`). A missing message renders as `undefined`.
   */
  function ErrorMessageOf(body: JsValue): Option<string> {
    match Property(body, "error")
    case None => None
    case Some(error) =>
      if error.Undefined? || error.Null? then None
      else Some(ToJsString(Property(error, "message").GetOr(Undefined)))
  }

  /** The reply's content type mentions `application/json`. */
  predicate IsJsonReply(res: HttpResponse) {
    res.contentType.Some? && Contains(res.contentType.value, "application/json")
  }

  /** The outcome of a reply to a request sent to `reqUrl`. */
  function Classify(res: HttpResponse, reqUrl: string): Result<Payload, Error> {
    if IsOk(res.status) then
      if !IsJsonReply(res) then Success(TextPayload(res.text))
      else if res.json.None? then Failure(JsonSyntaxError)
      else Success(JsonPayload(res.json.value))
    else if res.json.None? then Failure(JsonSyntaxError)
    else
      match ErrorMessageOf(res.json.value)
      case Some(message) => Failure(RequestFailed(reqUrl, res.status, res.statusText, message))
      case None => Failure(JsTypeError)
  }

  /** A refresh comes first when no token is stored or the stored one has expired. */
  predicate NeedsRefresh(c: Credentials, now: int) {
    !HasToken(c) || Expired(c, now)
  }

  /** One call of `request`: the new credentials, its outcome and the requests it sent. */
  datatype Exchange = Exchange(
    creds: Credentials,
    result: Result<Payload, Error>,
    tokenCalls: seq<HttpRequest>,
    apiCalls: seq<HttpRequest>)

  /** `request(options)` from credentials `c` at `now`. */
  function RequestSpec(c: Credentials, options: RequestOptions, now: int,
                       tokenEndpoint: HttpRequest -> TokenReply, send: HttpRequest -> HttpResponse,
                       codecs: Codecs): Exchange
  {
    if NeedsRefresh(c, now) && !c.refreshExpiredAccessToken then
      Exchange(c, Failure(RefreshDisabled), [], [])
    else
      var g := if NeedsRefresh(c, now) then Refresh(c, None, now, tokenEndpoint, codecs)
               else GrantResult(c, Pass, []);
      if g.outcome.Fail? then Exchange(g.creds, Failure(g.outcome.error), g.sent, [])
      else
        var req := BuildRequest(options, g.creds.accessToken, codecs);
        Exchange(g.creds, Classify(send(req), req.url), g.sent, [req])
  }

  // ---------------------------------------------------------------------------------------
  // Building the request

  /** The two header names differ. */
  lemma HeaderNamesDiffer()
    ensures "Authorization" != "Content-Type"
  {
    assert "Authorization"[0] != "Content-Type"[0];
  }

  /**
   * The request built: GET unless a method is given; the Bearer header with the stored token;
   * a JSON content type and the serialized body exactly when the body is truthy.
   */
  lemma BuiltRequest(options: RequestOptions, token: Option<string>, codecs: Codecs)
    ensures var req := BuildRequest(options, token, codecs);
      && req.url == RequestUrl(options, codecs)
      && (req.verb == GET <==> options.UrlOnly? || options.verb.None? || options.verb == Some(GET))
      && (options.Options? && options.verb.Some? ==> req.verb == options.verb.value)
      && Header(req, "Authorization") == Some(BearerValue(token))
      && (token.Some? ==> Header(req, "Authorization") == Some("Bearer " + token.value))
      && (Header(req, "Content-Type") == Some("application/json") <==> HasBody(options))
      && (Header(req, "Content-Type").None? <==> !HasBody(options))
      && (req.body.Some? <==> HasBody(options))
      && (HasBody(options) ==> req.body == Some(codecs.stringify(options.body)))
  {
    var req := BuildRequest(options, token, codecs);
    var auth := [("Authorization", BearerValue(token))];
    HeaderNamesDiffer();
    assert auth[..0] == [];
    assert HeaderIn(auth, "Content-Type") == None;
    assert HeaderIn(auth, "Authorization") == Some(BearerValue(token));
    if HasBody(options) {
      assert req.headers == auth + [("Content-Type", "application/json")];
      assert req.headers[..|req.headers| - 1] == auth;
      assert HeaderIn(req.headers, "Content-Type") == Some("application/json");
      assert HeaderIn(req.headers, "Authorization") == HeaderIn(auth, "Authorization");
    } else {
      assert req.headers == auth;
    }
  }

  /** A bare URL is a GET without parameters or body. */
  lemma UrlOnlyIsPlainGet(url: string, token: Option<string>, codecs: Codecs)
    ensures BuildRequest(UrlOnly(url), token, codecs) == BuildRequest(Options(url, None, Undefined, None, None), token, codecs)
    ensures BuildRequest(UrlOnly(url), token, codecs) == HttpRequest(url, GET, [("Authorization", BearerValue(token))], None)
  {
  }

  /** The descriptor's content type never reaches the request. */
  lemma ContentTypeIgnored(url: string, verb: Option<Method>, body: JsValue, params: Option<Params>,
                           contentType: Option<string>, token: Option<string>, codecs: Codecs)
    ensures BuildRequest(Options(url, verb, body, params, contentType), token, codecs)
         == BuildRequest(Options(url, verb, body, params, None), token, codecs)
  {
  }

  /**
   * With parameters the URL is the base URL, a slash unless it already ends with one, `?` and
   * the encoded query; without them it is the base URL itself.
   */
  lemma RequestUrlShape(options: RequestOptions, codecs: Codecs)
    ensures var u := RequestUrl(options, codecs);
      && StartsWith(u, options.url)
      && (options.UrlOnly? || options.params.None? ==> u == options.url)
      && (options.Options? && options.params.Some? ==>
            var q := codecs.formEncode(QueryPairs(options.params.value));
            && (EndsWith(options.url, "/") ==> u == options.url + "?" + q)
            && (!EndsWith(options.url, "/") ==> u == options.url + "/?" + q))
  {
    if options.Options? && options.params.Some? {
      var q := codecs.formEncode(QueryPairs(options.params.value));
      var u := RequestUrl(options, codecs);
      var s := AddTrailingSlash(options.url);
      assert u == s + ("?" + q);
      assert u[..|options.url|] == s[..|options.url|];
      if !EndsWith(options.url, "/") {
        assert s == options.url + "/";
        assert u == options.url + "/?" + q;
      }
    }
  }

  /** A parameter value as the JavaScript value it is. */
  function AsJs(v: ParamValue): JsValue {
    match v
    case PString(s) => Str(s)
    case PNumber(n) => Num(n)
    case PBoolean(b) => Bool(b)
    case PUndefined => Undefined
    case PStrings(items) => StrArray(items)
  }

  /**
   * The text sent for a parameter is `String(v)` of its value: the query serializer renders
   * a list of strings as the array's own `toString`, comma-joined.
   */
  lemma ParamTextIsString(v: ParamValue)
    ensures ParamText(v) == ToJsString(AsJs(v))
  {
    if v.PStrings? {
      var items := AsJs(v).items;
      assert seq(|items|, k requires 0 <= k < |items| =>
               if items[k].Undefined? || items[k].Null? then "" else ToJsString(items[k])) == v.items;
    }
  }

  // ---------------------------------------------------------------------------------------
  // Classifying the reply

  /** Only a reply with an ok status succeeds; an ok reply that is not JSON yields its text. */
  lemma ClassifySuccess(res: HttpResponse, reqUrl: string)
    ensures Classify(res, reqUrl).Success? ==> IsOk(res.status)
    ensures IsOk(res.status) && !IsJsonReply(res) ==> Classify(res, reqUrl) == Success(TextPayload(res.text))
    ensures IsOk(res.status) && IsJsonReply(res) ==>
      (Classify(res, reqUrl).Success? <==> res.json.Some?)
      && (res.json.Some? ==> Classify(res, reqUrl) == Success(JsonPayload(res.json.value)))
  {
  }

  /** A 200 reply of type `application/json; charset=utf-8` yields the decoded body unchanged. */
  lemma JsonReplyReturned(text: string, body: JsValue, reqUrl: string)
    ensures Classify(HttpResponse(200, "OK", Some("application/json; charset=utf-8"), text, Some(body)), reqUrl)
         == Success(JsonPayload(body))
  {
    var ct := "application/json; charset=utf-8";
    assert OccursAt(ct, "application/json", 0) by {
      assert ct[..|"application/json"|] == "application/json";
    }
  }

  /**
   * A failed reply whose body is `{ "error": { "message": m } }` fails with an error whose
   * message names the request URL, the status, the status text and `m`.
   */
  lemma FailedReplyMessage(res: HttpResponse, reqUrl: string, message: string, extra: seq<(string, JsValue)>)
    requires !IsOk(res.status)
    requires res.json == Some(Obj([("error", Obj(extra + [("message", Str(message))]))]))
    ensures Classify(res, reqUrl) == Failure(RequestFailed(reqUrl, res.status, res.statusText, message))
    ensures var m := Message(Classify(res, reqUrl).error);
      && Contains(m, reqUrl) && Contains(m, NatToString(res.status))
      && Contains(m, res.statusText) && Contains(m, message)
  {
    RequestFailedMessageMentions(reqUrl, res.status, res.statusText, message);
  }

  /**
   * A failed reply always fails: with the upstream message when its body has an `error` that is
   * neither null nor undefined, with a TypeError otherwise, and a SyntaxError when it is not JSON.
   */
  lemma ClassifyFailure(res: HttpResponse, reqUrl: string)
    requires !IsOk(res.status)
    ensures Classify(res, reqUrl).Failure?
    ensures res.json.None? ==> Classify(res, reqUrl) == Failure(JsonSyntaxError)
    ensures res.json.Some? ==>
      (Classify(res, reqUrl).error.RequestFailed? <==> ErrorMessageOf(res.json.value).Some?)
    ensures res.json.Some? && (res.json.value.Null? || !res.json.value.Obj?) ==>
      Classify(res, reqUrl) == Failure(JsTypeError)
  {
  }

  /** An error object without a message renders it as `undefined`. */
  lemma MissingMessageIsUndefined(fields: seq<(string, JsValue)>)
    requires forall k :: 0 <= k < |fields| ==> fields[k].0 != "message"
    ensures ErrorMessageOf(Obj([("error", Obj(fields))])) == Some("undefined")
  {
    LookupAbsent(fields, "message");
  }

  /** No field named `key` means no value for `key`. */
  lemma {:induction false} LookupAbsent(fields: seq<(string, JsValue)>, key: string)
    requires forall k :: 0 <= k < |fields| ==> fields[k].0 != key
    ensures Lookup(fields, key).None?
    decreases |fields|
  {
    if |fields| > 0 {
      LookupAbsent(fields[..|fields| - 1], key);
    }
  }

  // ---------------------------------------------------------------------------------------
  // The whole exchange

  /** With no usable token and refreshing disabled, the request fails before any call. */
  lemma RefreshDisabledFails(c: Credentials, options: RequestOptions, now: int,
                             tokenEndpoint: HttpRequest -> TokenReply, send: HttpRequest -> HttpResponse, codecs: Codecs)
    requires NeedsRefresh(c, now) && !c.refreshExpiredAccessToken
    ensures RequestSpec(c, options, now, tokenEndpoint, send, codecs) == Exchange(c, Failure(RefreshDisabled), [], [])
  {
  }

  /**
   * A token endpoint is called exactly when the stored token is missing or expired (and
   * refreshing is allowed with client credentials detected); with a usable token the request
   * goes out at once with that token and the credentials stay as they are.
   */
  lemma UsableTokenNoRefresh(c: Credentials, options: RequestOptions, now: int,
                             tokenEndpoint: HttpRequest -> TokenReply, send: HttpRequest -> HttpResponse, codecs: Codecs)
    ensures var x := RequestSpec(c, options, now, tokenEndpoint, send, codecs);
      && (!NeedsRefresh(c, now) ==>
            && x.tokenCalls == [] && x.creds == c
            && x.apiCalls == [BuildRequest(options, c.accessToken, codecs)]
            && x.result == Classify(send(x.apiCalls[0]), x.apiCalls[0].url))
      && (x.tokenCalls != [] ==>
            NeedsRefresh(c, now) && c.refreshExpiredAccessToken && IsSet(c.clientID) && IsSet(c.clientSecret))
  {
    var x := RequestSpec(c, options, now, tokenEndpoint, send, codecs);
    if x.tokenCalls != [] {
      RefreshDetected(c, now, tokenEndpoint, codecs);
    }
  }

  /**
   * At most one API call is made, and it carries the Bearer header of the token in effect
   * after any refresh; a failed refresh makes no API call and keeps the token.
   */
  lemma BearerOfTokenInEffect(c: Credentials, options: RequestOptions, now: int,
                              tokenEndpoint: HttpRequest -> TokenReply, send: HttpRequest -> HttpResponse, codecs: Codecs)
    ensures var x := RequestSpec(c, options, now, tokenEndpoint, send, codecs);
      && |x.apiCalls| <= 1 && |x.tokenCalls| <= 1
      && (x.apiCalls != [] ==> Header(x.apiCalls[0], "Authorization") == Some(BearerValue(x.creds.accessToken)))
      && (x.apiCalls == [] ==> x.result.Failure? && x.creds.accessToken == c.accessToken)
  {
    var x := RequestSpec(c, options, now, tokenEndpoint, send, codecs);
    RefreshKeepsFlagAndFailedToken(c, None, now, tokenEndpoint, codecs);
    if x.apiCalls != [] {
      BuiltRequest(options, x.creds.accessToken, codecs);
    }
  }

  /** A refresh that stores a token replaces the Bearer value sent with the new token. */
  lemma RefreshedTokenIsSent(c: Credentials, options: RequestOptions, now: int,
                             tokenEndpoint: HttpRequest -> TokenReply, send: HttpRequest -> HttpResponse, codecs: Codecs)
    requires NeedsRefresh(c, now) && c.refreshExpiredAccessToken
    requires IsSet(c.clientID) && IsSet(c.clientSecret)
    ensures var x := RequestSpec(c, options, now, tokenEndpoint, send, codecs);
      var reply := tokenEndpoint(TokenRequest(c.clientID.value, c.clientSecret.value, codecs));
      && x.tokenCalls == [TokenRequest(c.clientID.value, c.clientSecret.value, codecs)]
      && (reply.status == 200 && reply.json.Some? && reply.json.value.accessToken.Some? ==>
            Header(x.apiCalls[0], "Authorization") == Some("Bearer " + reply.json.value.accessToken.value))
  {
    var x := RequestSpec(c, options, now, tokenEndpoint, send, codecs);
    RefreshDetected(c, now, tokenEndpoint, codecs);
    GrantExchange(c, None, None, now, tokenEndpoint, codecs);
    if x.apiCalls != [] {
      BuiltRequest(options, x.creds.accessToken, codecs);
    }
  }
}
