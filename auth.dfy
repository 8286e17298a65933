/**
 * The credential and token state of one client (class `Auth`): an optional access token, an
 * optional expiry instant (milliseconds since the epoch), the refresh-enabled flag and the
 * optional client ID and secret, with the client-credentials grant of section 4.4 of RFC 6749.
 *
 * The pure functions over `Credentials` specify every state change; the class's methods are
 * proved to perform them.
 */
module Authorization {
  import opened Wrappers
  import opened Strings
  import opened Types

  /** `!!s` for an optional string: absent and empty both count as not set. */
  predicate IsSet(s: Option<string>) {
    s.Some? && s.value != ""
  }

  /** `!!expiresIn` for an optional number of seconds: absent and 0 both count as not given. */
  predicate LifetimeGiven(expiresIn: Option<int>) {
    expiresIn.Some? && expiresIn.value != 0
  }

  /** The instant `seconds` after `now`, in milliseconds. */
  function ExpiryAfter(now: int, seconds: int): int {
    now + seconds * 1000
  }

  /** `AuthOptions`, as far as the constructor reads them. */
  datatype AuthOptions = AuthOptions(
    accessToken: Option<string>,
    accessTokenExpiresAt: Option<int>,
    accessTokenExpiresIn: Option<int>,
    refreshExpiredAccessToken: Option<bool>,
    clientID: Option<string>,
    clientSecret: Option<string>)

  /** No options at all (`options || {}`). */
  const NoAuthOptions := AuthOptions(None, None, None, None, None, None)

  /** The state of an `Auth` object. */
  datatype Credentials = Credentials(
    accessToken: Option<string>,
    expiresAt: Option<int>,
    refreshExpiredAccessToken: bool,
    clientID: Option<string>,
    clientSecret: Option<string>)

  /** The state the constructor sets up from its options at instant `now`. */
  function Initial(o: AuthOptions, now: int): Credentials {
    Credentials(
      o.accessToken,
      if o.accessTokenExpiresAt.Some? then o.accessTokenExpiresAt
      else if LifetimeGiven(o.accessTokenExpiresIn) then Some(ExpiryAfter(now, o.accessTokenExpiresIn.value))
      else None,
      o.refreshExpiredAccessToken.GetOr(true),
      o.clientID,
      o.clientSecret)
  }

  /** `hasAccessToken()` */
  predicate HasToken(c: Credentials) {
    IsSet(c.accessToken)
  }

  /** `isAccessTokenExpired()` at instant `now`: an expiry is set and lies strictly before `now`. */
  predicate Expired(c: Credentials, now: int) {
    c.expiresAt.Some? && c.expiresAt.value < now
  }

  /** `setAccessToken(token, expiresIn)` at `now`; without a lifetime the old expiry stays. */
  function WithAccessToken(c: Credentials, token: Option<string>, expiresIn: Option<int>, now: int): Credentials {
    c.(accessToken := token,
       expiresAt := if LifetimeGiven(expiresIn) then Some(ExpiryAfter(now, expiresIn.value)) else c.expiresAt)
  }

  /** `clearAccessToken()` */
  function Cleared(c: Credentials): Credentials {
    c.(accessToken := None, expiresAt := None)
  }

  /** `detectAuthMethod()` */
  function DetectedMethod(c: Credentials): AuthMethod {
    if IsSet(c.clientID) && IsSet(c.clientSecret) then ClientCredentials else AuthorizationCode
  }

  /** The token endpoint of the identity provider. */
  const TokenUrl := "https://accounts.spotify.com/api/token"

  /**
   * The token request of the client-credentials grant: a form body `grant_type=client_credentials`
   * and an HTTP Basic authorization (section 2 of RFC 7617) over `id:secret`.
   */
  function TokenRequest(id: string, secret: string, codecs: Codecs): HttpRequest {
    HttpRequest(
      TokenUrl,
      POST,
      [("Content-Type", "application/x-www-form-urlencoded"),
       ("Authorization", "Basic " + codecs.base64(id + ":" + secret))],
      Some(codecs.formEncode([("grant_type", "client_credentials")])))
  }

  /** The token request carries the form content type and the Basic credentials. */
  lemma TokenRequestHeaders(id: string, secret: string, codecs: Codecs)
    ensures var req := TokenRequest(id, secret, codecs);
      && Header(req, "Authorization") == Some("Basic " + codecs.base64(id + ":" + secret))
      && Header(req, "Content-Type") == Some("application/x-www-form-urlencoded")
      && req.url == TokenUrl && req.verb == POST
  {
    var req := TokenRequest(id, secret, codecs);
    var rest := req.headers[..|req.headers| - 1];
    assert rest == [("Content-Type", "application/x-www-form-urlencoded")];
    assert req.headers[|req.headers| - 1].0 != "Content-Type" by {
      assert "Authorization"[0] != "Content-Type"[0];
    }
    assert HeaderIn(rest, "Content-Type") == Some("application/x-www-form-urlencoded");
  }

  /** The state after a grant or refresh, how it completed and the token requests it sent. */
  datatype GrantResult = GrantResult(creds: Credentials, outcome: Outcome<Error>, sent: seq<HttpRequest>)

  /** The stored credentials after the grant's arguments: set arguments overwrite, others do not. */
  function WithGrantArguments(c: Credentials, id: Option<string>, secret: Option<string>): Credentials {
    c.(clientID := if IsSet(id) then id else c.clientID,
       clientSecret := if IsSet(secret) then secret else c.clientSecret)
  }

  /** `clientCredentialsGrant(id, secret)` at `now` against the token endpoint `endpoint`. */
  function Grant(c: Credentials, id: Option<string>, secret: Option<string>, now: int,
                 endpoint: HttpRequest -> TokenReply, codecs: Codecs): GrantResult
  {
    var c1 := WithGrantArguments(c, id, secret);
    if !IsSet(c1.clientID) || !IsSet(c1.clientSecret) then
      GrantResult(c1, Fail(MissingClientCredentials), [])
    else
      var req := TokenRequest(c1.clientID.value, c1.clientSecret.value, codecs);
      var reply := endpoint(req);
      if reply.status != 200 then
        GrantResult(c1, Fail(TokenRefreshFailed(reply.status, reply.statusText)), [req])
      else if reply.json.None? then
        GrantResult(c1, Fail(JsonSyntaxError), [req])
      else
        var fields := reply.json.value;
        GrantResult(WithAccessToken(c1, fields.accessToken, fields.expiresIn, now), Pass, [req])
  }

  /** `refreshAccessToken(method)`: the given method name, or the detected one, decides. */
  function Refresh(c: Credentials, requested: Option<string>, now: int,
                   endpoint: HttpRequest -> TokenReply, codecs: Codecs): GrantResult
  {
    var name := requested.GetOr(AuthMethodName(DetectedMethod(c)));
    match ParseAuthMethod(name)
    case Some(ClientCredentials) => Grant(c, None, None, now, endpoint, codecs)
    case Some(AuthorizationCode) => GrantResult(c, Fail(AuthorizationCodeUnsupported), [])
    case Some(ImplicitGrant) => GrantResult(c, Fail(ImplicitGrantUnsupported), [])
    case None => GrantResult(c, Fail(NoValidAuthMethod), [])
  }

  // ---------------------------------------------------------------------------------------
  // Properties of the specification

  /** A client built without options has no token, no expiry, no client ID or secret, and refreshes. */
  lemma BlankClient(now: int)
    ensures var c := Initial(NoAuthOptions, now);
      && c.accessToken.None? && c.expiresAt.None? && !HasToken(c)
      && !IsSet(c.clientID) && !IsSet(c.clientSecret)
      && c.refreshExpiredAccessToken
      && !Expired(c, now)
  {
  }

  /** An explicit expiry instant wins over a lifetime; a lifetime counts from construction. */
  lemma InitialExpiry(o: AuthOptions, now: int)
    ensures o.accessTokenExpiresAt.Some? ==> Initial(o, now).expiresAt == o.accessTokenExpiresAt
    ensures o.accessTokenExpiresAt.None? && LifetimeGiven(o.accessTokenExpiresIn) ==>
      Initial(o, now).expiresAt == Some(now + 1000 * o.accessTokenExpiresIn.value)
    ensures o.accessTokenExpiresAt.None? && !LifetimeGiven(o.accessTokenExpiresIn) ==>
      Initial(o, now).expiresAt.None?
    ensures Initial(o, now).refreshExpiredAccessToken <==> o.refreshExpiredAccessToken != Some(false)
  {
  }

  /** Without an expiry a state is never expired, whether or not it holds a token. */
  lemma NoExpiryNeverExpires(c: Credentials, now: int)
    requires c.expiresAt.None?
    ensures !Expired(c, now)
  {
  }

  /**
   * A token set with a lifetime of `seconds` is expired at `at` exactly when `at` lies strictly
   * after `now + 1000 * seconds`; in particular a positive lifetime is not expired at once.
   */
  lemma TokenLifetime(c: Credentials, token: string, seconds: int, now: int, at: int)
    requires seconds != 0
    ensures Expired(WithAccessToken(c, Some(token), Some(seconds), now), at) <==> now + 1000 * seconds < at
    ensures seconds > 0 ==> !Expired(WithAccessToken(c, Some(token), Some(seconds), now), now)
  {
  }

  /** Setting a token without a lifetime (or with 0) keeps whatever expiry was set before. */
  lemma TokenWithoutLifetimeKeepsExpiry(c: Credentials, token: string, expiresIn: Option<int>, now: int)
    requires !LifetimeGiven(expiresIn)
    ensures WithAccessToken(c, Some(token), expiresIn, now).expiresAt == c.expiresAt
    ensures HasToken(WithAccessToken(c, Some(token), expiresIn, now)) <==> token != ""
  {
  }

  /** Clearing removes the token and the expiry and nothing else. */
  lemma ClearedState(c: Credentials, now: int)
    ensures !HasToken(Cleared(c)) && !Expired(Cleared(c), now)
    ensures Cleared(c).clientID == c.clientID && Cleared(c).clientSecret == c.clientSecret
    ensures Cleared(c).refreshExpiredAccessToken == c.refreshExpiredAccessToken
  {
  }

  /** The client-credentials method is detected exactly when both client ID and secret are set. */
  lemma DetectedMethodIff(c: Credentials)
    ensures DetectedMethod(c) == ClientCredentials <==> IsSet(c.clientID) && IsSet(c.clientSecret)
    ensures DetectedMethod(c) != ImplicitGrant
  {
  }

  /** Empty grant arguments behave as absent ones. */
  lemma GrantEmptyArgumentsIgnored(c: Credentials, now: int, endpoint: HttpRequest -> TokenReply, codecs: Codecs)
    ensures Grant(c, Some(""), Some(""), now, endpoint, codecs) == Grant(c, None, None, now, endpoint, codecs)
  {
  }

  /**
   * A grant fails before any token request exactly when, after its arguments are stored,
   * the client ID or secret is missing.
   */
  lemma GrantMissingCredentials(c: Credentials, id: Option<string>, secret: Option<string>, now: int,
                                endpoint: HttpRequest -> TokenReply, codecs: Codecs)
    ensures var g := Grant(c, id, secret, now, endpoint, codecs);
      && (g.sent == [] <==> !IsSet(g.creds.clientID) || !IsSet(g.creds.clientSecret))
      && (g.sent == [] <==> g.outcome == Fail(MissingClientCredentials))
  {
  }

  /** A failed grant leaves the token and its expiry as they were. */
  lemma GrantFailureKeepsToken(c: Credentials, id: Option<string>, secret: Option<string>, now: int,
                               endpoint: HttpRequest -> TokenReply, codecs: Codecs)
    ensures var g := Grant(c, id, secret, now, endpoint, codecs);
      g.outcome.Fail? ==> g.creds.accessToken == c.accessToken && g.creds.expiresAt == c.expiresAt
  {
  }

  /**
   * A grant that reaches the endpoint sends one POST to the token URL with Basic credentials
   * built from the stored ID and secret; it succeeds exactly on status 200 with a decoded body,
   * and then stores the replied token as `setAccessToken` does.
   */
  lemma GrantExchange(c: Credentials, id: Option<string>, secret: Option<string>, now: int,
                      endpoint: HttpRequest -> TokenReply, codecs: Codecs)
    ensures var g := Grant(c, id, secret, now, endpoint, codecs);
      var c1 := WithGrantArguments(c, id, secret);
      g.sent != [] ==>
        && IsSet(c1.clientID) && IsSet(c1.clientSecret)
        && g.sent == [TokenRequest(c1.clientID.value, c1.clientSecret.value, codecs)]
        && g.sent[0].url == TokenUrl && g.sent[0].verb == POST
        && Header(g.sent[0], "Authorization") == Some("Basic " + codecs.base64(c1.clientID.value + ":" + c1.clientSecret.value))
        && Header(g.sent[0], "Content-Type") == Some("application/x-www-form-urlencoded")
        && var reply := endpoint(g.sent[0]);
           (g.outcome.Pass? <==> reply.status == 200 && reply.json.Some?)
           && (g.outcome.Pass? ==>
                 g.creds == WithAccessToken(c1, reply.json.value.accessToken, reply.json.value.expiresIn, now))
           && (reply.status != 200 ==> g.outcome == Fail(TokenRefreshFailed(reply.status, reply.statusText)))
  {
    var c1 := WithGrantArguments(c, id, secret);
    if IsSet(c1.clientID) && IsSet(c1.clientSecret) {
      TokenRequestHeaders(c1.clientID.value, c1.clientSecret.value, codecs);
    }
  }

  /** A blank client's grant without arguments fails for missing credentials and sends nothing. */
  lemma BlankClientGrant(now: int, endpoint: HttpRequest -> TokenReply, codecs: Codecs)
    ensures var g := Grant(Initial(NoAuthOptions, now), None, None, now, endpoint, codecs);
      g.outcome == Fail(MissingClientCredentials) && g.sent == []
  {
  }

  /**
   * Refreshing dispatches on the method name: only `client_credentials` runs the grant; the two
   * other known methods and every other name fail without a request and without a state change.
   */
  lemma RefreshDispatch(c: Credentials, name: string, now: int,
                        endpoint: HttpRequest -> TokenReply, codecs: Codecs)
    ensures var g := Refresh(c, Some(name), now, endpoint, codecs);
      && (name == "client_credentials" ==> g == Grant(c, None, None, now, endpoint, codecs))
      && (name == "authorization_code" ==> g == GrantResult(c, Fail(AuthorizationCodeUnsupported), []))
      && (name == "implicit_grant" ==> g == GrantResult(c, Fail(ImplicitGrantUnsupported), []))
      && (ParseAuthMethod(name).None? ==> g == GrantResult(c, Fail(NoValidAuthMethod), []))
  {
  }

  /**
   * Refreshing without a method runs the grant when both credentials are set and otherwise
   * fails as an unsupported authorization-code grant; it never reports an invalid method.
   */
  lemma RefreshDetected(c: Credentials, now: int, endpoint: HttpRequest -> TokenReply, codecs: Codecs)
    ensures var g := Refresh(c, None, now, endpoint, codecs);
      && (IsSet(c.clientID) && IsSet(c.clientSecret) ==> g == Grant(c, None, None, now, endpoint, codecs))
      && (!(IsSet(c.clientID) && IsSet(c.clientSecret)) ==>
            g == GrantResult(c, Fail(AuthorizationCodeUnsupported), []))
      && g.outcome != Fail(NoValidAuthMethod)
  {
  }

  /** A refresh never touches the refresh flag, and a failed one never touches the token. */
  lemma RefreshKeepsFlagAndFailedToken(c: Credentials, requested: Option<string>, now: int,
                                       endpoint: HttpRequest -> TokenReply, codecs: Codecs)
    ensures var g := Refresh(c, requested, now, endpoint, codecs);
      && g.creds.refreshExpiredAccessToken == c.refreshExpiredAccessToken
      && (g.outcome.Fail? ==> g.creds.accessToken == c.accessToken && g.creds.expiresAt == c.expiresAt)
  {
  }

  // ---------------------------------------------------------------------------------------
  // The class

  /** The authorization state of one client. */
  class Auth {
    var accessToken: Option<string>
    var accessTokenExpireDate: Option<int>
    var refreshExpiredAccessToken: bool
    var clientID: Option<string>
    var clientSecret: Option<string>

    /** The whole state as a value. */
    function State(): Credentials
      reads this
    {
      Credentials(accessToken, accessTokenExpireDate, refreshExpiredAccessToken, clientID, clientSecret)
    }

    /** `new Auth(fetch, options)` at instant `now`. */
    constructor (options: AuthOptions, now: int)
      ensures State() == Initial(options, now)
    {
      accessToken := options.accessToken;
      if options.accessTokenExpiresAt.Some? {
        accessTokenExpireDate := options.accessTokenExpiresAt;
      } else if LifetimeGiven(options.accessTokenExpiresIn) {
        accessTokenExpireDate := Some(ExpiryAfter(now, options.accessTokenExpiresIn.value));
      } else {
        accessTokenExpireDate := None;
      }
      refreshExpiredAccessToken := options.refreshExpiredAccessToken.GetOr(true);
      clientID := options.clientID;
      clientSecret := options.clientSecret;
    }

    /**
     * `setAccessToken(token, expiresIn)` at `now`. The TypeScript signature types the token
     * as a string, but the grant passes on whatever the reply held, possibly nothing.
     */
    method SetAccessToken(token: Option<string>, expiresIn: Option<int>, now: int)
      modifies this
      ensures State() == WithAccessToken(old(State()), token, expiresIn, now)
      ensures accessToken == token
      ensures !LifetimeGiven(expiresIn) ==> accessTokenExpireDate == old(accessTokenExpireDate)
    {
      accessToken := token;
      if !LifetimeGiven(expiresIn) {
        return;
      }
      SetAccessTokenExpireDate(ExpiryAfter(now, expiresIn.value));
    }

    /** `getAccessToken()` */
    function GetAccessToken(): (t: Option<string>)
      reads this
      ensures t == accessToken
    {
      accessToken
    }

    /** `hasAccessToken()`: a non-empty token is stored. */
    function HasAccessToken(): (b: bool)
      reads this
      ensures b <==> accessToken.Some? && accessToken.value != ""
    {
      HasToken(State())
    }

    /** `refreshAccessToken(method)` at `now`. */
    method RefreshAccessToken(requested: Option<string>, now: int, endpoint: HttpRequest -> TokenReply, codecs: Codecs)
      returns (r: Outcome<Error>, sent: seq<HttpRequest>)
      modifies this
      ensures var g := Refresh(old(State()), requested, now, endpoint, codecs);
        State() == g.creds && r == g.outcome && sent == g.sent
    {
      var authMethod := if requested.Some? then requested.value else AuthMethodName(DetectAuthMethod());
      if authMethod == "client_credentials" {
        r, sent := ClientCredentialsGrant(None, None, now, endpoint, codecs);
      } else if authMethod == "authorization_code" {
        r, sent := Fail(AuthorizationCodeUnsupported), [];
      } else if authMethod == "implicit_grant" {
        r, sent := Fail(ImplicitGrantUnsupported), [];
      } else {
        r, sent := Fail(NoValidAuthMethod), [];
      }
    }

    /** `detectAuthMethod()`: client credentials when both are set, else authorization code. */
    function DetectAuthMethod(): (m: AuthMethod)
      reads this
      ensures m == ClientCredentials <==> IsSet(clientID) && IsSet(clientSecret)
      ensures m != ImplicitGrant
    {
      DetectedMethod(State())
    }

    /** `clearAccessToken()` */
    method ClearAccessToken()
      modifies this
      ensures State() == Cleared(old(State()))
    {
      accessToken := None;
      accessTokenExpireDate := None;
    }

    /** `setAccessTokenExpireDate(expiresAt)` */
    method SetAccessTokenExpireDate(expiresAt: int)
      modifies this
      ensures State() == old(State()).(expiresAt := Some(expiresAt))
    {
      accessTokenExpireDate := Some(expiresAt);
    }

    /** `getAccessTokenExpireDate()` */
    function GetAccessTokenExpireDate(): (e: Option<int>)
      reads this
      ensures e == accessTokenExpireDate
    {
      accessTokenExpireDate
    }

    /** `isAccessTokenExpired()` at `now`: false without an expiry, else expiry strictly before `now`. */
    function IsAccessTokenExpired(now: int): (b: bool)
      reads this
      ensures b <==> accessTokenExpireDate.Some? && accessTokenExpireDate.value < now
      ensures accessTokenExpireDate.None? ==> !b
    {
      Expired(State(), now)
    }

    /** `setClientID(id)`; the empty string makes the ID count as unset. */
    method SetClientID(id: string)
      modifies this
      ensures State() == old(State()).(clientID := Some(id))
      ensures HasClientID() <==> id != ""
    {
      clientID := Some(id);
    }

    /** `hasClientID()`: a non-empty client ID is stored. */
    function HasClientID(): (b: bool)
      reads this
      ensures b <==> clientID.Some? && clientID.value != ""
    {
      IsSet(clientID)
    }

    /** `setClientSecret(secret)`; the empty string makes the secret count as unset. */
    method SetClientSecret(secret: string)
      modifies this
      ensures State() == old(State()).(clientSecret := Some(secret))
      ensures HasClientSecret() <==> secret != ""
    {
      clientSecret := Some(secret);
    }

    /** `hasClientSecret()`: a non-empty client secret is stored. */
    function HasClientSecret(): (b: bool)
      reads this
      ensures b <==> clientSecret.Some? && clientSecret.value != ""
    {
      IsSet(clientSecret)
    }

    /** `clientCredentialsGrant(id, secret)` at `now`, sending through `endpoint`. */
    method ClientCredentialsGrant(id: Option<string>, secret: Option<string>, now: int,
                                  endpoint: HttpRequest -> TokenReply, codecs: Codecs)
      returns (r: Outcome<Error>, sent: seq<HttpRequest>)
      modifies this
      ensures var g := Grant(old(State()), id, secret, now, endpoint, codecs);
        State() == g.creds && r == g.outcome && sent == g.sent
    {
      if IsSet(id) {
        SetClientID(id.value);
      }
      if IsSet(secret) {
        SetClientSecret(secret.value);
      }
      if !HasClientID() || !HasClientSecret() {
        r, sent := Fail(MissingClientCredentials), [];
        return;
      }
      var req := TokenRequest(clientID.value, clientSecret.value, codecs);
      sent := [req];
      var res := endpoint(req);
      if res.status == 200 {
        if res.json.None? {
          r := Fail(JsonSyntaxError);
          return;
        }
        SetAccessToken(res.json.value.accessToken, res.json.value.expiresIn, now);
        r := Pass;
      } else {
        r := Fail(TokenRefreshFailed(res.status, res.statusText));
      }
    }
  }
}
