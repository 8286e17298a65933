# Spotify Web API client: authorization state and request pipeline

This project is a Dafny model of the core of a TypeScript client for the Spotify Web API.
It covers four parts:

- **`Auth`** (`auth.dfy`, module `Authorization`): the credential and token state of one client.
  - It holds an optional access token, an optional expiry instant, the refresh-enabled flag and
    the optional client ID and secret.
  - It runs the client-credentials grant of section 4.4 of RFC 6749 against the token endpoint:
    a form body `grant_type=client_credentials` and an HTTP Basic authorization as in section 2
    of RFC 7617.
  - It is a class whose methods are proved to perform pure transitions over a `Credentials`
    value (`Initial`, `WithAccessToken`, `Cleared`, `Grant`, `Refresh`).
- **`SpotifyAPI.request`** (`request.dfy` and `client.dfy`): the request pipeline.
  - It refreshes first when the token is missing or expired, and fails when refreshing is
    disabled.
  - It builds the outgoing request: GET unless a method is given, a Bearer authorization as in
    section 2.1 of RFC 6750, the query string after a trailing slash, and a JSON body with its
    content type.
  - It turns the reply into the decoded JSON, the text, or an error.
  - `RequestSpec` states the whole exchange as a function. The class method
    `Client.SpotifyAPI.Request` is proved to agree with it.
- **The endpoint methods** (`facade.dfy`, module `Facade`): one table `Descriptor` maps every
  endpoint call to the descriptor it hands to `request`. `Client.SpotifyAPI.Invoke` runs a call
  end to end.
- **The identifier helpers** (`helpers.dfy`): `addTrailingSlash`, `isSpotifyID`, `spotifyURI`,
  `createURI` and `createURIs`.

Supporting modules:

- `wrappers.dfy` holds `Option`, `Result` and `Outcome`.
- `strings.dfy` holds the string operations of JavaScript the client relies on: `startsWith`,
  `includes`, `join`, `split` and number rendering.
- `types.dfy` holds the closed unions of the type declarations, JavaScript values, HTTP
  exchanges and the thrown errors with their exact messages.

How the environment is modelled:

- **Time** is an integer millisecond instant `now`, passed to every time-dependent operation.
- **The two transports are function parameters**: `tokenEndpoint` for the identity provider
  and `send` for the API.
- **Methods return the requests they sent**, so "no call was made" is observable.
- **The encoders are parameters**: the form serializer of `URLSearchParams`, `JSON.stringify`,
  `btoa` and `encodeURIComponent` are the fields of `Codecs`.
- **Every thrown error is an `Error` value**, and each has a `Message`.

Behaviour of the code that the model keeps, where a reader might expect otherwise:

- `isAccessTokenExpired` uses a strict `expiry < now` (src/spotify.ts:1538). A token is
  therefore not yet expired at exactly its expiry instant.
- `setAccessToken` without a lifetime, or with a lifetime of 0, keeps the previously stored
  expiry (src/spotify.ts:1456). It does not clear it.
- A refresh is attempted whenever there is no token or the token has expired. Only then is the
  refresh flag consulted; a disabled flag fails without any call (src/spotify.ts:78-83).
- The descriptor's `contentType` is never read by `request`. A body is always serialized with
  `JSON.stringify` and sent as `application/json`, including the cover-image upload that names
  `image/jpeg`.

## Model

| member | source | states |
|---|---|---|
| Helpers.AddTrailingSlash | src/helpers.ts:24-29 | the result ends with `/`, starts with the URL and is at most one character longer; a URL already ending with `/` is returned unchanged |
| Helpers.AddTrailingSlashIdempotent | src/helpers.ts:24-29 | adding the slash twice is adding it once |
| Helpers.AddTrailingSlashFixedPoints | src/helpers.ts:24-29 | the URL is unchanged exactly when it already ends with `/` |
| Helpers.MatchesIdRunIff | src/helpers.ts:47 | the anchored run `[0-9A-Za-z_-]{n}$` matches exactly the strings of length n over the class |
| Helpers.IsSpotifyIDMatchesRegex | src/helpers.ts:46-49 | the identifier test agrees with the anchored regular expression of 22 characters |
| Helpers.SpotifyIDExamples | test/helpers.test.ts:26-35 | the test identifier is accepted and its 23-character extension rejected |
| Helpers.NoSeparatorInParts | src/helpers.ts:40-47 | neither a valid identifier nor a resource name contains `:` |
| Helpers.SpotifyURI | src/helpers.ts:34-41 | succeeds iff the identifier is valid, with exactly `spotify:<resource>:<id>` of length \|resource\| + 31; otherwise fails with "Invalid Spotify ID" |
| Helpers.ParseResource | src/types/types.ts:125 | a name is read back as a resource iff it is the name of one, and then as the resource of that name |
| Helpers.ParseResourceName | src/types/types.ts:125 | every resource's name is read back as that resource |
| Helpers.SplitSpotifyURI | src/helpers.ts:40-47 | splitting a built URI on `:` gives exactly `spotify`, the resource name and the identifier |
| Helpers.ParsedURIIsBuilt | src/helpers.ts:34-41 | every string that parses as a URI is the URI `spotifyURI` builds from its parts |
| Helpers.CreateURI | src/helpers.ts:54-56 | succeeds iff the identifier is valid, fails with "Invalid Spotify ID" otherwise, and its URI parses back to the resource and identifier |
| Helpers.CreateURIInjective | src/helpers.ts:54-56 | distinct (resource, identifier) pairs never build the same URI |
| Helpers.CreateURIs | src/helpers.ts:61-63 | succeeds iff every identifier is valid; then it has the same length and element k is the URI of identifier k; any invalid identifier fails the whole call |
| Helpers.CreateURIsSingle | test/helpers.test.ts:47-56 | one valid identifier gives `["spotify:<resource>:<id>"]`, one invalid identifier the error |
| Types.ParseAuthMethod | src/spotify.ts:1481-1494 | a name is recognised iff it is one of `client_credentials`, `authorization_code` and `implicit_grant`, and then as the method of that name |
| Types.ParseAuthMethodName | src/types/types.ts:83 | every method's name is recognised as that method |
| Types.RequestFailedMessageMentions | src/spotify.ts:121-123 | the message of a failed request contains the request URL, the status digits, the status text and the upstream message |
| Types.TokenRefreshFailedMessageMentions | src/spotify.ts:1599 | the message of a failed token exchange starts with "Could not refresh access token", contains the status digits and ends with the status text |
| Authorization.BlankClient | test/initial.test.ts:7-12 | a client built without options has no token, no expiry, no client ID or secret, refreshes, and is not expired |
| Authorization.InitialExpiry | src/spotify.ts:1436-1442 | an explicit expiry instant wins; otherwise a non-zero lifetime gives now + 1000 × seconds; otherwise no expiry; refreshing is on unless explicitly false |
| Authorization.NoExpiryNeverExpires | src/spotify.ts:1535-1539 | without an expiry the state is never expired, with or without a token |
| Authorization.TokenLifetime | src/spotify.ts:1454-1460 | a token set with lifetime L ≠ 0 at `now` is expired at `at` iff now + 1000 × L < at; with L > 0 it is not expired at once |
| Authorization.TokenWithoutLifetimeKeepsExpiry | src/spotify.ts:1455-1456 | without a lifetime (or with 0) the old expiry stays; the token counts as present iff it is non-empty |
| Authorization.ClearedState | src/spotify.ts:1510-1513 | clearing removes the token and the expiry and keeps the client ID, secret and refresh flag |
| Authorization.DetectedMethodIff | src/spotify.ts:1500-1505 | the client-credentials method is detected iff both client ID and secret are non-empty; the implicit grant is never detected |
| Authorization.TokenRequestHeaders | src/spotify.ts:1582-1593 | the token request is a POST to the token URL with the form content type and `Basic base64(id:secret)` |
| Authorization.GrantEmptyArgumentsIgnored | src/spotify.ts:1577-1578 | empty client ID and secret arguments behave as absent ones |
| Authorization.GrantMissingCredentials | src/spotify.ts:1579-1581 | the grant sends nothing iff, after its arguments are stored, the client ID or secret is missing, iff it fails with "Client ID or Client Secret is missing" |
| Authorization.GrantFailureKeepsToken | src/spotify.ts:1595-1600 | a failed grant leaves the token and its expiry unchanged |
| Authorization.GrantExchange | src/spotify.ts:1582-1600 | a grant that sends sends exactly one token request built from the stored credentials; it succeeds iff the reply is 200 with a JSON body and then stores the replied token as `setAccessToken` does; a non-200 status fails with that status and status text |
| Authorization.BlankClientGrant | test/auth-flow.test.ts:10-14 | a blank client's grant without arguments fails for missing credentials and sends nothing |
| Authorization.RefreshDispatch | src/spotify.ts:1481-1494 | only `client_credentials` runs the grant; `authorization_code`, `implicit_grant` and any other name fail with their own errors, without a request and without a state change |
| Authorization.RefreshDetected | src/spotify.ts:1480 | without a method, the grant runs iff both credentials are set, otherwise the refresh fails as an unsupported authorization-code grant; it never reports an invalid method |
| Authorization.RefreshKeepsFlagAndFailedToken | src/spotify.ts:1479-1495 | a refresh never changes the refresh flag, and a failed one never changes the token or expiry |
| Authorization.Auth.constructor | src/spotify.ts:1425-1447 | the new state is `Initial(options, now)` |
| Authorization.Auth.SetAccessToken | src/spotify.ts:1454-1460 | the token is always replaced; the expiry follows `WithAccessToken`, unchanged without a lifetime |
| Authorization.Auth.GetAccessToken | src/spotify.ts:1465-1467 | returns the stored token |
| Authorization.Auth.HasAccessToken | src/spotify.ts:1472-1474 | true iff a non-empty token is stored |
| Authorization.Auth.RefreshAccessToken | src/spotify.ts:1479-1495 | new state, outcome and sent requests are those of `Refresh` |
| Authorization.Auth.DetectAuthMethod | src/spotify.ts:1500-1505 | client credentials iff both client ID and secret are non-empty; never the implicit grant |
| Authorization.Auth.ClearAccessToken | src/spotify.ts:1510-1513 | the new state is `Cleared` of the old |
| Authorization.Auth.SetAccessTokenExpireDate | src/spotify.ts:1519-1521 | only the expiry changes, to the given instant |
| Authorization.Auth.GetAccessTokenExpireDate | src/spotify.ts:1526-1528 | returns the stored expiry |
| Authorization.Auth.IsAccessTokenExpired | src/spotify.ts:1535-1539 | true iff an expiry is stored and lies strictly before `now`; false without an expiry |
| Authorization.Auth.SetClientID | src/spotify.ts:1545-1547 | only the client ID changes; it then counts as set iff non-empty |
| Authorization.Auth.HasClientID | src/spotify.ts:1552-1554 | true iff a non-empty client ID is stored |
| Authorization.Auth.SetClientSecret | src/spotify.ts:1560-1562 | only the client secret changes; it then counts as set iff non-empty |
| Authorization.Auth.HasClientSecret | src/spotify.ts:1567-1569 | true iff a non-empty client secret is stored |
| Authorization.Auth.ClientCredentialsGrant | src/spotify.ts:1576-1601 | new state, outcome and sent requests are those of `Grant` |
| Requests.QueryPairs | src/spotify.ts:97-98 | one name/value pair per parameter, in order, each value rendered as `String(v)` |
| Requests.BuiltRequest | src/spotify.ts:85-109 | GET unless a method is given; Authorization is `Bearer <token>`; Content-Type `application/json` and the serialized body are present iff the body is truthy |
| Requests.UrlOnlyIsPlainGet | src/spotify.ts:92-94 | a bare URL is a GET of that URL with only the Bearer header and no body |
| Requests.ContentTypeIgnored | src/spotify.ts:92-109 | the descriptor's content type never changes the request built |
| Requests.RequestUrlShape | src/spotify.ts:95-100 | the URL starts with the descriptor URL; with parameters it is `url?query` when the URL ends with `/`, else `url/?query`; without them it is the URL itself |
| Requests.ParamTextIsString | src/spotify.ts:97-99 | the text sent for every parameter value is `String(v)` of the JavaScript value, a list of strings rendering as its comma-joined `toString` |
| Requests.ClassifySuccess | src/spotify.ts:113-119 | only an ok status succeeds; an ok non-JSON reply yields its text; an ok JSON reply yields the decoded value, or fails when it does not decode |
| Requests.JsonReplyReturned | src/spotify.ts:113-117 | a 200 reply of type `application/json; charset=utf-8` yields its decoded body unchanged |
| Requests.FailedReplyMessage | src/spotify.ts:121-124 | a failed reply with `{error: {message: m}}` fails with `RequestFailed` whose message names the URL, status, status text and m |
| Requests.ClassifyFailure | src/spotify.ts:121-124 | a not-ok reply always fails: a SyntaxError when not JSON, the upstream message iff `error` is present and neither null nor undefined, a TypeError for a null or non-object body |
| Requests.MissingMessageIsUndefined | src/spotify.ts:121-124 | an `error` object without `message` renders the message as `undefined` |
| Requests.RefreshDisabledFails | src/spotify.ts:78-83 | with no usable token and refreshing disabled the request fails, sends nothing and changes nothing |
| Requests.UsableTokenNoRefresh | src/spotify.ts:78-83 | with a usable token nothing goes to the token endpoint, the state is unchanged and exactly the built request is sent; a token call happens only with a missing or expired token, refreshing on and both credentials set |
| Requests.BearerOfTokenInEffect | src/spotify.ts:78-90 | at most one token call and one API call; the API call carries the Bearer value of the token in effect after any refresh; without an API call the request failed and the token is unchanged |
| Requests.RefreshedTokenIsSent | src/spotify.ts:78-90 | with client credentials a missing or expired token triggers exactly the token request, and a granted token is the one sent as `Bearer` |
| Facade.TrackObjects | src/spotify.ts:686-688 | one `{uri}` object per URI, in order |
| Facade.StripJpegDataUri | src/spotify.ts:787 | a value starting with `data:image/jpeg;base64,` loses exactly that prefix; any other value is unchanged |
| Facade.BrowseDescriptor | src/spotify.ts:131-1406 | catalogue, library, follow, search and market descriptors address endpoints under the API URL |
| Facade.PlayerDescriptor | src/spotify.ts:1110-1276 | playback descriptors address endpoints under the API URL |
| Facade.PlaylistDescriptor | src/spotify.ts:498-791 | playlist-edit descriptors address endpoints under the API URL |
| Facade.Descriptor | src/spotify.ts:131-1406 | describing fails iff the call is `addTracksToPlaylistWithIDs` or `replacePlaylistItemsWithTrackIDs` and one identifier is invalid, with "Invalid Spotify ID"; every descriptor addresses an endpoint under the API URL |
| Facade.BatchIdsRecoverable | src/spotify.ts:178-186 | for valid identifiers the comma-joined `ids` parameter splits back into exactly the identifiers given |
| Facade.DeviceIdOnlyWithKey | src/spotify.ts:1147-1170 | queue, pause and the skips send `device_id` iff the options have the key, with the device given; a step without it has no query string |
| Facade.DeviceIdAlwaysSent | src/spotify.ts:1126-1276 | play and the seek, repeat, volume and shuffle settings always send `device_id`, as `undefined` when no device is given |
| Facade.MarketDefault | src/spotify.ts:1283-1406 | market lookups send the market given (even an empty one) and `ES` only when none is |
| Facade.AddTracksToPlaylistDelegates | src/spotify.ts:556-561 | `addTracksToPlaylist` describes the same request as `addToPlaylist` |
| Facade.ReplaceWithTracksDelegates | src/spotify.ts:619-624 | `replacePlaylistItemsWithTracks` describes the same request as `replacePlaylistItems` |
| Facade.RemoveTracksDelegates | src/spotify.ts:702-707 | `removeTracksFromPlaylist` describes the same request as `removeFromPlaylist` |
| Facade.SearchResourceDelegates | src/spotify.ts:975-1022 | each typed search is `search` with the one type named after its resource |
| Facade.TrackIdsDescriptor | src/spotify.ts:572-578 | with valid identifiers the identifier-taking edits describe their edit of the track URIs |
| Facade.TrackURIsOf | src/helpers.ts:61-63 | the URIs of valid track identifiers are `spotify:track:<id>`, in order |
| Facade.AddTrackIdsBecomeURIs | src/spotify.ts:572-578 | with valid identifiers adding by ID is adding `spotify:track:<id>` in order; any invalid identifier fails before a request |
| Facade.ReplaceTrackIdsBecomeURIs | src/spotify.ts:635-641 | with valid identifiers replacing by ID is replacing with the track URIs in order; any invalid identifier fails before a request |
| Facade.CoverImageSentAsJson | src/spotify.ts:780-791 | the data-URI prefix is stripped and the `image/jpeg` content type never reaches the request: the image goes out as a JSON string, and an empty image sends no body |
| Facade.RemoveTracksWithIDsAsWritten | src/spotify.ts:717-722 | as written, removing by identifiers never fails and describes the same request as removing those strings as URIs |
| Facade.RemoveTracksWithIDsSendsNoURI | src/spotify.ts:717-722 | as written, a valid track identifier is sent as an item `uri` that is not a Spotify URI |
| Facade.RemoveTracksWithIDsCorrected | src/spotify.ts:717-722 | as corrected, removing by identifiers fails iff one is invalid, with "Invalid Spotify ID" |
| Facade.RemoveTracksWithIDsSendsURIs | src/spotify.ts:717-722 | as corrected, removing by identifiers fails iff one is invalid, and otherwise sends the track URI of every identifier in order |
| Client.SpotifyAPI.constructor | src/spotify.ts:45-50 | the URL is the one given or `https://api.spotify.com/v1`; the auth state is fresh and `Initial` of the auth options (none if absent) |
| Client.SpotifyAPI.GetApiUrl | src/spotify.ts:55-57 | returns the URL fixed at construction |
| Client.SpotifyAPI.Request | src/spotify.ts:77-125 | the new auth state, the result and both call traces are exactly those of `RequestSpec` from the old state |
| Client.SpotifyAPI.Invoke | src/spotify.ts:572-578 | a call whose description fails sends nothing and changes nothing; otherwise it is `RequestSpec` of its descriptor |
| Client.Outgoing | src/spotify.ts:85-109 | the request assembled step by step is `BuildRequest` of the options and token |
| Client.Receive | src/spotify.ts:113-124 | the outcome computed step by step is `Classify` of the reply |
| Client.CallsStayUnderApiUrl | src/spotify.ts:92-111 | every API request an endpoint method sends goes to an address under the API URL |
| Client.BlankClientFirstCall | src/spotify.ts:78-83 | a blank client's first request fails as an unsupported authorization-code grant, with no token call and no API call |

## Left out

- `resolveFetch` and `setCustomFetch` (src/helpers.ts:9-21, src/spotify.ts:65-67) are not modelled. They look up a global or dynamically imported `fetch`; the transport is a parameter here.
- `Auth`'s own stored `fetch` is not modelled; the token endpoint is a parameter of the grant and the refresh.
- `scopes`, which the constructor stores (src/spotify.ts:1445) but nothing reads, and `refreshToken`, `autoRefreshToken` and `fetch` of `AuthOptions`, which the code ignores, are not modelled.
- Numbers are integers. Fractional seconds, `NaN` lifetimes and invalid `Date` values are not modelled.
- An explicit `url: undefined` in the client options is not modelled. The object spread would store `undefined` there; the model takes an absent URL as the default.
- `btoa` rejecting characters outside Latin-1 is not modelled; the encoders are uninterpreted functions.
- A rejected `fetch` (network failure) is not modelled; every call yields a reply.
- `res.json()` on an API reply is modelled as an optional decoded value. A body that decodes to a non-object (such as a bare string) is handled as JavaScript would handle it.
- A token endpoint reply is modelled as two optional fields, `access_token` as a string and `expires_in` as an integer. A 200 reply whose body is `null` is not modelled; there the destructuring at src/spotify.ts:1596 throws a TypeError. A non-string `access_token`, which the source stores as it is, is not modelled either.
- Facade.PlaylistBody: the body of `createPlaylist` and `changePlaylistDetails` lists its keys in the fixed order name, public, collaborative, description. The source spreads the caller's object and keeps the caller's key order, which `JSON.stringify` would show.
- Client.SpotifyAPI.Request: one instant `now` serves both the expiry check and the expiry computed by a refresh. The source reads the clock separately at each of the two points.
- Two concurrent `request` calls that both refresh are not modelled. This is asynchronous interleaving, not sequential logic.
- `setAccessTokenExpireDate` takes a millisecond instant rather than a `Date` object.
- `PlayOptions.offset` and `getRecommendations` options are passed through as the caller built them.
- The scripts under scripts/ (an Express callback server and interactive tooling) and the tests are not modelled. The tests call the live service and serve only as evidence for properties.

## Findings

| source | as written | input that shows it | evidently intended | confidence | as-written member | corrected member |
|---|---|---|---|---|---|---|
| src/spotify.ts:717-722 | `removeTracksFromPlaylistWithIDs` passes the identifiers straight to `removeFromPlaylist`, so each item sent is `{ uri: <id> }` | the valid identifier `4rzfv0JLZfVhOhbSQ8o5jZ` is sent as `uri` `4rzfv0JLZfVhOhbSQ8o5jZ`, which is not a Spotify URI | convert the identifiers with `createURIs('track', ids)` first, as `addTracksToPlaylistWithIDs` and `replacePlaylistItemsWithTrackIDs` do | medium, not executed | Facade.RemoveTracksWithIDsSendsNoURI | Facade.RemoveTracksWithIDsSendsURIs |

The endpoint table `Facade.Descriptor`, and so `Client.SpotifyAPI.Invoke`, keeps the behaviour as written for `removeTracksFromPlaylistWithIDs`. The corrected behaviour is the separate function `Facade.RemoveTracksWithIDsCorrected`.
