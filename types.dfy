/**
 * The closed unions of the client's type declarations, the JavaScript values that travel
 * in request bodies and responses, the HTTP exchanges with the transport, and the errors
 * the client throws.
 */
module Types {
  import opened Wrappers
  import opened Strings

  /** `SpotifyRequestMethod` */
  datatype Method = GET | POST | PUT | DELETE

  /** `SpotifyParamValues`: string | number | boolean | undefined | string[] */
  datatype ParamValue =
    | PString(s: string)
    | PNumber(n: int)
    | PBoolean(b: bool)
    | PUndefined
    | PStrings(items: seq<string>)

  /** Query parameters: the keys of a parameter object in insertion order. */
  type Params = seq<(string, ParamValue)>

  /** `SpotifyAuthMethods` */
  datatype AuthMethod = ClientCredentials | AuthorizationCode | ImplicitGrant

  function AuthMethodName(m: AuthMethod): string {
    match m
    case ClientCredentials => "client_credentials"
    case AuthorizationCode => "authorization_code"
    case ImplicitGrant => "implicit_grant"
  }

  /** The `switch` over a method name: the method it names, if any. */
  function ParseAuthMethod(name: string): (m: Option<AuthMethod>)
    ensures m.Some? ==> AuthMethodName(m.value) == name
    ensures m.None? <==> name != "client_credentials" && name != "authorization_code" && name != "implicit_grant"
  {
    if name == "client_credentials" then Some(ClientCredentials)
    else if name == "authorization_code" then Some(AuthorizationCode)
    else if name == "implicit_grant" then Some(ImplicitGrant)
    else None
  }

  /** Every method name is recognised as its method. */
  lemma ParseAuthMethodName(m: AuthMethod)
    ensures ParseAuthMethod(AuthMethodName(m)) == Some(m)
  {
  }

  /** `SpotifyResource` */
  datatype Resource = Album | Artist | Playlist | Track | Show | Episode

  function ResourceName(r: Resource): string {
    match r
    case Album => "album"
    case Artist => "artist"
    case Playlist => "playlist"
    case Track => "track"
    case Show => "show"
    case Episode => "episode"
  }

  /** A JavaScript value as far as bodies and decoded replies need one (integers only). */
  datatype JsValue =
    | Undefined
    | Null
    | Bool(b: bool)
    | Num(n: int)
    | Str(s: string)
    | Arr(items: seq<JsValue>)
    | Obj(fields: seq<(string, JsValue)>)

  /** JavaScript truthiness. */
  predicate Truthy(v: JsValue) {
    match v
    case Undefined => false
    case Null => false
    case Bool(b) => b
    case Num(n) => n != 0
    case Str(s) => s != ""
    case Arr(_) => true
    case Obj(_) => true
  }

  /** An array of strings. */
  function StrArray(xs: seq<string>): JsValue {
    Arr(seq(|xs|, k requires 0 <= k < |xs| => Str(xs[k])))
  }

  /** The value of the last field named `key`, as a decoded object keeps it. */
  function Lookup(fields: seq<(string, JsValue)>, key: string): Option<JsValue> {
    if |fields| == 0 then None
    else if fields[|fields| - 1].0 == key then Some(fields[|fields| - 1].1)
    else Lookup(fields[..|fields| - 1], key)
  }

  /** `v[key]` as an own property; primitives and arrays have no such property. */
  function Property(v: JsValue, key: string): Option<JsValue> {
    if v.Obj? then Lookup(v.fields, key) else None
  }

  /** `String(v)`, as a template literal renders a value. */
  function ToJsString(v: JsValue): string
    decreases v
  {
    match v
    case Undefined => "undefined"
    case Null => "null"
    case Bool(b) => if b then "true" else "false"
    case Num(n) => IntToString(n)
    case Str(s) => s
    case Arr(items) =>
      Join(seq(|items|, k requires 0 <= k < |items| =>
             if items[k].Undefined? || items[k].Null? then "" else ToJsString(items[k])), ",")
    case Obj(_) => "[object Object]"
  }

  /** An outgoing request as handed to `fetch(url, init)`; headers in insertion order. */
  datatype HttpRequest = HttpRequest(
    url: string,
    verb: Method,
    headers: seq<(string, string)>,
    body: Option<string>)

  /** The value of the last header named `name`. */
  function Header(req: HttpRequest, name: string): Option<string> {
    HeaderIn(req.headers, name)
  }

  function HeaderIn(headers: seq<(string, string)>, name: string): Option<string> {
    if |headers| == 0 then None
    else if headers[|headers| - 1].0 == name then Some(headers[|headers| - 1].1)
    else HeaderIn(headers[..|headers| - 1], name)
  }

  /**
   * A reply of the resource API. `text` is what `res.text()` yields and `json` what
   * `res.json()` yields (None when the body is not JSON): two views of one body.
   */
  datatype HttpResponse = HttpResponse(
    status: nat,
    statusText: string,
    contentType: Option<string>,
    text: string,
    json: Option<JsValue>)

  /** `res.ok` */
  predicate IsOk(status: nat) {
    200 <= status <= 299
  }

  /** The two fields read from a token endpoint reply, each possibly absent. */
  datatype TokenFields = TokenFields(accessToken: Option<string>, expiresIn: Option<int>)

  /** A reply of the token endpoint: status, status text and the decoded body (None when not JSON). */
  datatype TokenReply = TokenReply(status: nat, statusText: string, json: Option<TokenFields>)

  /**
   * The encoders the client calls but does not define: the
   * application/x-www-form-urlencoded serializer of `URLSearchParams`, `JSON.stringify`,
   * `btoa` (base64 of section 4 of RFC 4648) and `encodeURIComponent`.
   */
  datatype Codecs = Codecs(
    formEncode: seq<(string, string)> -> string,
    stringify: JsValue -> string,
    base64: string -> string,
    encodeComponent: string -> string)

  /** Every failure the client can throw. */
  datatype Error =
    | InvalidSpotifyID
    | MissingClientCredentials
    | TokenRefreshFailed(status: nat, statusText: string)
    | AuthorizationCodeUnsupported
    | ImplicitGrantUnsupported
    | NoValidAuthMethod
    | RefreshDisabled
    | RequestFailed(url: string, status: nat, statusText: string, message: string)
      /** `res.json()` rejected: the body was not JSON. */
    | JsonSyntaxError
      /** A property was read from `undefined` or `null` in a decoded error body. */
    | JsTypeError

  /** The message of the thrown `Error` (for the two runtime errors, their name). */
  function Message(e: Error): string {
    match e
    case InvalidSpotifyID => "Invalid Spotify ID"
    case MissingClientCredentials => "Client ID or Client Secret is missing"
    case TokenRefreshFailed(status, statusText) =>
      "Could not refresh access token - " + NatToString(status) + ": " + statusText
    case AuthorizationCodeUnsupported => "Authorization code grant is not supported yet"
    case ImplicitGrantUnsupported => "Implicit grant is not supported yet"
    case NoValidAuthMethod => "No valid auth method provided"
    case RefreshDisabled =>
      "No non-expired access token set and expired token refresh is disabled."
    case RequestFailed(url, status, statusText, message) =>
      "Request to " + url + " failed with status " + NatToString(status) + ": " + statusText
      + " - Message: " + message
    case JsonSyntaxError => "SyntaxError"
    case JsTypeError => "TypeError"
  }

  /** A failed API request's message names the URL, the status, the status text and the upstream message. */
  lemma {:induction false} RequestFailedMessageMentions(url: string, status: nat, statusText: string, message: string)
    ensures var m := Message(RequestFailed(url, status, statusText, message));
      && Contains(m, url)
      && Contains(m, NatToString(status))
      && Contains(m, statusText)
      && Contains(m, message)
  {
    var code := NatToString(status);
    // The message as the left-nested concatenation the template literal builds.
    var p1 := "Request to " + url;
    var p2 := p1 + " failed with status ";
    var p3 := p2 + code;
    var p4 := p3 + ": ";
    var p5 := p4 + statusText;
    var p6 := p5 + " - Message: ";
    var m := p6 + message;
    assert m == Message(RequestFailed(url, status, statusText, message));
    ContainsSuffix("Request to ", url);
    ContainsExtended(p1, url, " failed with status ");
    ContainsExtended(p2, url, code);
    ContainsSuffix(p2, code);
    ContainsExtended(p3, url, ": ");
    ContainsExtended(p3, code, ": ");
    ContainsExtended(p4, url, statusText);
    ContainsExtended(p4, code, statusText);
    ContainsSuffix(p4, statusText);
    ContainsExtended(p5, url, " - Message: ");
    ContainsExtended(p5, code, " - Message: ");
    ContainsExtended(p5, statusText, " - Message: ");
    ContainsExtended(p6, url, message);
    ContainsExtended(p6, code, message);
    ContainsExtended(p6, statusText, message);
    ContainsSuffix(p6, message);
  }

  /** A failed token exchange's message names the status and the status text. */
  lemma {:induction false} TokenRefreshFailedMessageMentions(status: nat, statusText: string)
    ensures var m := Message(TokenRefreshFailed(status, statusText));
      && StartsWith(m, "Could not refresh access token")
      && Contains(m, NatToString(status))
      && EndsWith(m, statusText)
  {
    var code := NatToString(status);
    var m := Message(TokenRefreshFailed(status, statusText));
    assert m == "Could not refresh access token - " + code + (": " + statusText);
    ContainsMiddle("Could not refresh access token - ", code, ": " + statusText);
    assert m == "Could not refresh access token - " + code + ": " + statusText;
    assert m[..|"Could not refresh access token"|] == "Could not refresh access token";
    assert m[|m| - |statusText|..] == statusText;
  }
}
