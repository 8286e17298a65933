/**
 * The client object `SpotifyAPI`: a fixed API URL and the `Auth` state it drives. `Request`
 * performs one exchange step by step and is proved to agree with `RequestSpec`; `Invoke`
 * runs an endpoint method by describing its request and handing it to `Request`.
 */
module Client {
  import opened Wrappers
  import opened Strings
  import opened Types
  import opened Helpers
  import opened Authorization
  import opened Requests
  import opened Facade

  /** The API URL used unless the options name another. */
  const DefaultUrl := "https://api.spotify.com/v1"

  /** `SpotifyAPIClientOptions`, as far as the constructor reads them. */
  datatype ClientOptions = ClientOptions(url: Option<string>, auth: Option<AuthOptions>)

  class SpotifyAPI {
    const url: string
    const auth: Auth

    /** `new SpotifyAPI(options)` at instant `now`. */
    constructor (options: ClientOptions, now: int)
      ensures url == options.url.GetOr(DefaultUrl)
      ensures fresh(auth)
      ensures auth.State() == Initial(options.auth.GetOr(NoAuthOptions), now)
    {
      url := options.url.GetOr(DefaultUrl);
      auth := new Auth(options.auth.GetOr(NoAuthOptions), now);
    }

    /** `getApiUrl()`: the API URL fixed at construction, the default when none was given. */
    function GetApiUrl(): (u: string)
      ensures u == url
    {
      url
    }

    /**
     * `request(options)` at `now`: refresh first when the token is missing or expired, build
     * the request, send it through `send` and classify the reply.
     */
    method Request(options: RequestOptions, now: int,
                   tokenEndpoint: HttpRequest -> TokenReply, send: HttpRequest -> HttpResponse, codecs: Codecs)
      returns (r: Result<Payload, Error>, tokenCalls: seq<HttpRequest>, apiCalls: seq<HttpRequest>)
      modifies auth
      ensures Exchange(auth.State(), r, tokenCalls, apiCalls)
           == RequestSpec(old(auth.State()), options, now, tokenEndpoint, send, codecs)
    {
      tokenCalls, apiCalls := [], [];
      if !auth.HasAccessToken() || auth.IsAccessTokenExpired(now) {
        if !auth.refreshExpiredAccessToken {
          r := Failure(RefreshDisabled);
          return;
        }
        var outcome, sent := auth.RefreshAccessToken(None, now, tokenEndpoint, codecs);
        tokenCalls := sent;
        if outcome.Fail? {
          r := Failure(outcome.error);
          return;
        }
      }

      var req := Outgoing(options, auth.GetAccessToken(), codecs);
      apiCalls := [req];
      r := Receive(send(req), req.url);
    }

    /**
     * One endpoint method at `now`: its descriptor under this client's URL goes to `Request`;
     * when describing fails (an invalid track identifier) nothing is sent and nothing changes.
     */
    method Invoke(call: Call, now: int,
                  tokenEndpoint: HttpRequest -> TokenReply, send: HttpRequest -> HttpResponse, codecs: Codecs)
      returns (r: Result<Payload, Error>, tokenCalls: seq<HttpRequest>, apiCalls: seq<HttpRequest>)
      modifies auth
      ensures var d := Descriptor(call, url, codecs);
        && (d.Failure? ==>
              r == Failure(d.error) && tokenCalls == [] && apiCalls == [] && auth.State() == old(auth.State()))
        && (d.Success? ==>
              Exchange(auth.State(), r, tokenCalls, apiCalls)
              == RequestSpec(old(auth.State()), d.value, now, tokenEndpoint, send, codecs))
    {
      var d := Descriptor(call, url, codecs);
      if d.Failure? {
        r, tokenCalls, apiCalls := Failure(d.error), [], [];
        return;
      }
      r, tokenCalls, apiCalls := Request(d.value, now, tokenEndpoint, send, codecs);
    }
  }

  /** The request `request` builds for `options` with the stored `token`, step by step. */
  method Outgoing(options: RequestOptions, token: Option<string>, codecs: Codecs) returns (req: HttpRequest)
    ensures req == BuildRequest(options, token, codecs)
  {
    var verb := GET;
    var headers := [("Authorization", BearerValue(token))];
    var body: Option<string> := None;
    var reqUrl: string;
    match options {
      case UrlOnly(u) =>
        reqUrl := u;
      case Options(u, v, b, params, _) =>
        reqUrl := u;
        if params.Some? {
          reqUrl := AddTrailingSlash(reqUrl);
          reqUrl := reqUrl + "?" + codecs.formEncode(QueryPairs(params.value));
        }
        if Truthy(b) {
          body := Some(codecs.stringify(b));
          headers := headers + [("Content-Type", "application/json")];
        }
        if v.Some? {
          verb := v.value;
        }
    }
    req := HttpRequest(reqUrl, verb, headers, body);
  }

  /** What `request` makes of the reply `res` to a request sent to `reqUrl`. */
  method Receive(res: HttpResponse, reqUrl: string) returns (r: Result<Payload, Error>)
    ensures r == Classify(res, reqUrl)
  {
    if IsOk(res.status) {
      if IsJsonReply(res) {
        if res.json.None? {
          return Failure(JsonSyntaxError);
        }
        return Success(JsonPayload(res.json.value));
      }
      return Success(TextPayload(res.text));
    }
    if res.json.None? {
      return Failure(JsonSyntaxError);
    }
    var message := ErrorMessageOf(res.json.value);
    if message.None? {
      return Failure(JsTypeError);
    }
    r := Failure(RequestFailed(reqUrl, res.status, res.statusText, message.value));
  }

  /** A prefix of a prefix is a prefix. */
  lemma StartsWithTransitive(s: string, t: string, p: string)
    requires StartsWith(s, t) && StartsWith(t, p)
    ensures StartsWith(s, p)
  {
    assert s[..|p|] == s[..|t|][..|p|];
  }

  /**
   * Every request an endpoint method sends to the API goes to an address under the API URL:
   * the descriptor's URL is under it, and the query string only extends it.
   */
  lemma CallsStayUnderApiUrl(call: Call, base: string, c: Credentials, now: int,
                             tokenEndpoint: HttpRequest -> TokenReply, send: HttpRequest -> HttpResponse, codecs: Codecs)
    requires Descriptor(call, base, codecs).Success?
    ensures var x := RequestSpec(c, Descriptor(call, base, codecs).value, now, tokenEndpoint, send, codecs);
      forall k :: 0 <= k < |x.apiCalls| ==> StartsWith(x.apiCalls[k].url, base + "/")
  {
    var d := Descriptor(call, base, codecs).value;
    var x := RequestSpec(c, d, now, tokenEndpoint, send, codecs);
    if |x.apiCalls| > 0 {
      RequestUrlShape(d, codecs);
      assert x.apiCalls[0].url == RequestUrl(d, codecs);
      StartsWithTransitive(x.apiCalls[0].url, d.url, base + "/");
    }
  }

  /**
   * A blank client's first call does not reach the API: with no token and no client
   * credentials the refresh fails as an unsupported authorization-code grant.
   */
  lemma BlankClientFirstCall(options: RequestOptions, now: int,
                             tokenEndpoint: HttpRequest -> TokenReply, send: HttpRequest -> HttpResponse, codecs: Codecs)
    ensures var x := RequestSpec(Initial(NoAuthOptions, now), options, now, tokenEndpoint, send, codecs);
      x.result == Failure(AuthorizationCodeUnsupported) && x.tokenCalls == [] && x.apiCalls == []
  {
    RefreshDetected(Initial(NoAuthOptions, now), now, tokenEndpoint, codecs);
  }
}
