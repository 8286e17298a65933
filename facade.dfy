/**
 * The endpoint methods of `SpotifyAPI` as one table: each call, with its arguments, is mapped
 * to the request descriptor it hands to `request`. Only a few entries compute anything:
 * comma-joined identifier batches, the conditional `device_id` parameter, the `ES` market
 * default, the data-URI prefix strip and the identifier check before a playlist edit.
 */
module Facade {
  import opened Wrappers
  import opened Strings
  import opened Types
  import opened Helpers
  import opened Requests

  /** Calls that GET a fixed path under the API URL. */
  datatype FixedGet =
    | Me | MySavedTracks | MySavedAlbums | MyTopArtists | MyTopTracks | MyRecentlyPlayedTracks
    | MyPlaylists | FeaturedPlaylists | NewReleases | Categories | AvailableGenreSeeds
    | MyDevices | MyCurrentPlaybackState | MyCurrentPlayingTrack | MySavedShows

  function FixedPath(g: FixedGet): string {
    match g
    case Me => "me"
    case MySavedTracks => "me/tracks"
    case MySavedAlbums => "me/albums"
    case MyTopArtists => "me/top/artists"
    case MyTopTracks => "me/top/tracks"
    case MyRecentlyPlayedTracks => "me/player/recently-played"
    case MyPlaylists => "me/playlists"
    case FeaturedPlaylists => "browse/featured-playlists"
    case NewReleases => "browse/new-releases"
    case Categories => "browse/categories"
    case AvailableGenreSeeds => "recommendations/available-genre-seeds"
    case MyDevices => "me/player/devices"
    case MyCurrentPlaybackState => "me/player"
    case MyCurrentPlayingTrack => "me/player/currently-playing"
    case MySavedShows => "me/shows"
  }

  /** Calls that GET one item by an identifier spliced into the path as given. */
  datatype ItemGet =
    | User | PlaylistItem | PlaylistTracks | PlaylistCoverImage | AlbumItem | AlbumTracks
    | TrackItem | ArtistItem | ArtistAlbums | ArtistRelatedArtists | Category | CategoryPlaylists
    | AudioFeaturesForTrack | AudioAnalysisForTrack

  function ItemPath(g: ItemGet, id: string): string {
    match g
    case User => "users/" + id
    case PlaylistItem => "playlists/" + id
    case PlaylistTracks => "playlists/" + id + "/tracks"
    case PlaylistCoverImage => "playlists/" + id + "/images"
    case AlbumItem => "albums/" + id
    case AlbumTracks => "albums/" + id + "/tracks"
    case TrackItem => "tracks/" + id
    case ArtistItem => "artists/" + id
    case ArtistAlbums => "artists/" + id + "/albums"
    case ArtistRelatedArtists => "artists/" + id + "/related-artists"
    case Category => "browse/categories/" + id
    case CategoryPlaylists => "browse/categories/" + id + "/playlists"
    case AudioFeaturesForTrack => "audio-features/" + id
    case AudioAnalysisForTrack => "audio-analysis/" + id
  }

  /** The user's libraries: saved tracks, albums and shows. */
  datatype Library = SavedTracks | SavedAlbums | SavedShows

  function LibraryPath(l: Library): string {
    match l
    case SavedTracks => "me/tracks"
    case SavedAlbums => "me/albums"
    case SavedShows => "me/shows"
  }

  /** Whom a follow call is about, with the `type` parameter it sends. */
  datatype Followee = Users | Artists

  function FolloweeType(f: Followee): string {
    match f
    case Users => "user"
    case Artists => "artist"
  }

  /** The batch lookups by comma-joined identifiers. */
  datatype Batch = Albums | Tracks | ArtistsBatch

  function BatchPath(b: Batch): string {
    match b
    case Albums => "albums/"
    case Tracks => "tracks/"
    case ArtistsBatch => "artists/"
  }

  /** The single-item lookups that take a market (default `ES`). */
  datatype MarketItem = ShowItem | ShowEpisodes | EpisodeItem

  function MarketItemPath(m: MarketItem, id: string): string {
    match m
    case ShowItem => "shows/" + id
    case ShowEpisodes => "shows/" + id + "/episodes"
    case EpisodeItem => "episodes/" + id
  }

  /** The batch lookups that take a market (default `ES`). */
  datatype MarketBatch = Shows | Episodes

  function MarketBatchPath(m: MarketBatch): string {
    match m
    case Shows => "shows/"
    case Episodes => "episodes/"
  }

  /**
   * `DeviceOptions` as the `in` operator sees it: without a `device_id` key, or with one whose
   * value may still be undefined.
   */
  datatype DeviceOptions = NoDeviceKey | DeviceKey(deviceId: Option<string>)

  /** `options.device_id` as a parameter value. */
  function DeviceIdParam(d: DeviceOptions): ParamValue {
    if d.DeviceKey? && d.deviceId.Some? then PString(d.deviceId.value) else PUndefined
  }

  /** The `device_id` parameter, only when the key is present (`'device_id' in options`). */
  function DeviceKeyParams(d: DeviceOptions): Params {
    if d.DeviceKey? then [("device_id", DeviceIdParam(d))] else []
  }

  /** The player steps that take only device options. */
  datatype PlayerStep = Pause | SkipToNext | SkipToPrevious

  /** The player settings sent as a parameter next to `device_id`. */
  datatype PlayerSetting = Seek(positionMs: int) | Repeat(state: string) | Volume(percent: int) | Shuffle(on: bool)

  /** `PlaylistOptions`; absent optional keys are left out of the spread body. */
  datatype PlaylistOptions = PlaylistOptions(
    name: string, public: Option<bool>, collaborative: Option<bool>, description: Option<string>)

  /** `PlayOptions`; `offset` is passed through as the caller built it (`Undefined` if absent). */
  datatype PlayOptions = PlayOptions(
    deviceId: Option<string>, contextUri: Option<string>, uris: Option<seq<string>>,
    offset: JsValue, positionMs: Option<int>)

  /** One call of an endpoint method, with its arguments. */
  datatype Call =
    | GetFixed(fixed: FixedGet)
    | GetItem(item: ItemGet, id: string)
    | GetUserPlaylists(userId: string)
    | SaveToLibrary(library: Library, ids: seq<string>)
    | RemoveFromLibrary(library: Library, ids: seq<string>)
    | LibraryContains(library: Library, ids: seq<string>)
    | Follow(followee: Followee, ids: seq<string>)
    | Unfollow(followee: Followee, ids: seq<string>)
    | IsFollowing(followee: Followee, ids: seq<string>)
    | FollowPlaylist(playlistId: string)
    | UnfollowPlaylist(playlistId: string)
    | AreFollowingPlaylist(playlistId: string, ids: seq<string>)
    | GetFollowedArtists
    | GetBatch(batch: Batch, ids: seq<string>)
    | GetAudioFeaturesForTracks(ids: seq<string>)
    | GetArtistTopTracks(artistId: string, country: string)
    | GetRecommendations(params: Params)
    | Search(query: string, types: seq<string>)
    | SearchResource(query: string, resource: Resource)
    | CreatePlaylist(userId: string, playlist: PlaylistOptions)
    | ChangePlaylistDetails(playlistId: string, playlist: PlaylistOptions)
    | AddToPlaylist(playlistId: string, uris: seq<string>)
    | AddTracksToPlaylist(playlistId: string, uris: seq<string>)
    | AddTracksToPlaylistWithIDs(playlistId: string, ids: seq<string>)
    | ClearPlaylist(playlistId: string)
    | ReplacePlaylistItems(playlistId: string, uris: seq<string>)
    | ReplacePlaylistItemsWithTracks(playlistId: string, uris: seq<string>)
    | ReplacePlaylistItemsWithTrackIDs(playlistId: string, ids: seq<string>)
    | ReorderItemsInPlaylist(playlistId: string, rangeStart: int, insertBefore: int,
                             rangeLength: Option<int>, snapshotNumber: Option<int>)
    | RemoveFromPlaylist(playlistId: string, uris: seq<string>)
    | RemoveTracksFromPlaylist(playlistId: string, uris: seq<string>)
    | RemoveTracksFromPlaylistWithIDs(playlistId: string, ids: seq<string>)
    | RemoveItemsFromPlaylistWithSnapshotID(playlistId: string, uris: seq<string>, snapshotId: string)
    | RemoveFromPlaylistInPositions(playlistId: string, positions: seq<int>, snapshotId: string)
    | UploadCustomPlaylistCoverImage(playlistId: string, imageData: string)
    | TransferMyPlayback(deviceId: string)
    | Play(play: PlayOptions)
    | Queue(uri: string, device: DeviceOptions)
    | Step(step: PlayerStep, device: DeviceOptions)
    | Setting(setting: PlayerSetting, device: DeviceOptions)
    | GetMarketItem(marketItem: MarketItem, id: string, market: Option<string>)
    | GetMarketBatch(marketBatch: MarketBatch, ids: seq<string>, market: Option<string>)

  /** The endpoint `path` under the API URL `base`. */
  function Endpoint(base: string, path: string): (url: string)
    ensures StartsWith(url, base + "/")
  {
    assert (base + "/" + path)[..|base + "/"|] == base + "/";
    base + "/" + path
  }

  /** A descriptor with a method, a body (`Undefined` for none) and optional parameters. */
  function Describe(url: string, verb: Option<Method>, body: JsValue, params: Option<Params>): RequestOptions {
    Options(url, verb, body, params, None)
  }

  /** `ids.join(',')` as the `ids` parameter. */
  function IdsParam(ids: seq<string>): (string, ParamValue) {
    ("ids", PString(Join(ids, ",")))
  }

  /** `market ?? 'ES'`: only an absent market is replaced. */
  function MarketParam(market: Option<string>): (string, ParamValue) {
    ("market", PString(market.GetOr("ES")))
  }

  /** `{ ...options }` of `PlaylistOptions`. */
  function PlaylistBody(p: PlaylistOptions): JsValue {
    Obj([("name", Str(p.name))]
        + (if p.public.Some? then [("public", Bool(p.public.value))] else [])
        + (if p.collaborative.Some? then [("collaborative", Bool(p.collaborative.value))] else [])
        + (if p.description.Some? then [("description", Str(p.description.value))] else []))
  }

  /** `{ uri }` for every URI, in order. */
  function TrackObjects(uris: seq<string>): (objs: JsValue)
    ensures objs.Arr? && |objs.items| == |uris|
    ensures forall k :: 0 <= k < |uris| ==> objs.items[k] == Obj([("uri", Str(uris[k]))])
  {
    Arr(seq(|uris|, k requires 0 <= k < |uris| => Obj([("uri", Str(uris[k]))])))
  }

  /** An optional number as a body value. */
  function OptNum(n: Option<int>): JsValue {
    if n.Some? then Num(n.value) else Undefined
  }

  /** The prefix a JPEG data URI starts with. */
  const JpegDataUriPrefix := "data:image/jpeg;base64,"

  /** `imageData.replace(/^data:image\/jpeg;base64,/, '')` */
  function StripJpegDataUri(imageData: string): (s: string)
    ensures StartsWith(imageData, JpegDataUriPrefix) ==> imageData == JpegDataUriPrefix + s
    ensures !StartsWith(imageData, JpegDataUriPrefix) ==> s == imageData
  {
    if StartsWith(imageData, JpegDataUriPrefix) then
      assert imageData == imageData[..|JpegDataUriPrefix|] + imageData[|JpegDataUriPrefix|..];
      imageData[|JpegDataUriPrefix|..]
    else imageData
  }

  function PlayerStepPath(s: PlayerStep): string {
    match s
    case Pause => "me/player/pause"
    case SkipToNext => "me/player/next"
    case SkipToPrevious => "me/player/previous"
  }

  function PlayerStepMethod(s: PlayerStep): Method {
    match s
    case Pause => PUT
    case SkipToNext => POST
    case SkipToPrevious => POST
  }

  function SettingPath(s: PlayerSetting): string {
    match s
    case Seek(_) => "me/player/seek"
    case Repeat(_) => "me/player/repeat"
    case Volume(_) => "me/player/volume"
    case Shuffle(_) => "me/player/shuffle"
  }

  function SettingParam(s: PlayerSetting): (string, ParamValue) {
    match s
    case Seek(ms) => ("position_ms", PNumber(ms))
    case Repeat(state) => ("state", PString(state))
    case Volume(percent) => ("volume_percent", PNumber(percent))
    case Shuffle(on) => ("state", PBoolean(on))
  }

  /** The body of a `play` call: every option key, undefined where not given. */
  function PlayBody(p: PlayOptions): JsValue {
    Obj([("context_uri", if p.contextUri.Some? then Str(p.contextUri.value) else Undefined),
         ("uris", if p.uris.Some? then StrArray(p.uris.value) else Undefined),
         ("offset", p.offset),
         ("position_ms", OptNum(p.positionMs))])
  }

  /** The descriptor of the playlist-removal call for the given item URIs. */
  function RemovalOf(base: string, playlistId: string, uris: seq<string>): RequestOptions {
    Describe(Endpoint(base, "playlists/" + playlistId + "/tracks"), Some(DELETE),
             Obj([("tracks", TrackObjects(uris))]), None)
  }

  /** The descriptor of the playlist-append call for the given item URIs. */
  function AppendOf(base: string, playlistId: string, uris: seq<string>): RequestOptions {
    Describe(Endpoint(base, "playlists/" + playlistId + "/tracks"), Some(POST),
             Obj([("uris", StrArray(uris))]), None)
  }

  /** The descriptor of the playlist-replace call for the given item URIs. */
  function ReplacementOf(base: string, playlistId: string, uris: seq<string>): RequestOptions {
    Describe(Endpoint(base, "playlists/" + playlistId + "/tracks"), Some(PUT),
             Obj([("uris", StrArray(uris))]), None)
  }

  /** The calls that turn identifiers into track URIs before building the request. */
  predicate TakesTrackIds(call: Call) {
    call.AddTracksToPlaylistWithIDs? || call.ReplacePlaylistItemsWithTrackIDs?
  }

  /** The calls that read the catalogue, the user's profile and library, and follows. */
  predicate IsBrowseCall(call: Call) {
    || call.GetFixed? || call.GetItem? || call.GetUserPlaylists?
    || call.SaveToLibrary? || call.RemoveFromLibrary? || call.LibraryContains?
    || call.Follow? || call.Unfollow? || call.IsFollowing?
    || call.FollowPlaylist? || call.UnfollowPlaylist? || call.AreFollowingPlaylist? || call.GetFollowedArtists?
    || call.GetBatch? || call.GetAudioFeaturesForTracks? || call.GetArtistTopTracks?
    || call.GetRecommendations? || call.Search? || call.SearchResource?
    || call.GetMarketItem? || call.GetMarketBatch?
  }

  /** The calls that control playback. */
  predicate IsPlayerCall(call: Call) {
    call.TransferMyPlayback? || call.Play? || call.Queue? || call.Step? || call.Setting?
  }

  /** The descriptor of a catalogue, library or follow call. */
  function BrowseDescriptor(call: Call, base: string, codecs: Codecs): (d: RequestOptions)
    requires IsBrowseCall(call)
    ensures StartsWith(d.url, base + "/")
  {
    match call
    case GetFixed(g) => UrlOnly(Endpoint(base, FixedPath(g)))
    case GetItem(g, id) => UrlOnly(Endpoint(base, ItemPath(g, id)))
    case GetUserPlaylists(userId) =>
      UrlOnly(Endpoint(base, "users/" + codecs.encodeComponent(userId) + "/playlists"))
    case SaveToLibrary(l, ids) => Describe(Endpoint(base, LibraryPath(l)), Some(PUT), StrArray(ids), None)
    case RemoveFromLibrary(l, ids) => Describe(Endpoint(base, LibraryPath(l)), Some(DELETE), StrArray(ids), None)
    case LibraryContains(l, ids) =>
      Describe(Endpoint(base, LibraryPath(l) + "/contains"), None, Undefined, Some([IdsParam(ids)]))
    case Follow(f, ids) =>
      Describe(Endpoint(base, "me/following/"), Some(PUT), Undefined,
               Some([IdsParam(ids), ("type", PString(FolloweeType(f)))]))
    case Unfollow(f, ids) =>
      Describe(Endpoint(base, "me/following/"), Some(DELETE), Undefined,
               Some([IdsParam(ids), ("type", PString(FolloweeType(f)))]))
    case IsFollowing(f, ids) =>
      Describe(Endpoint(base, "me/following/contains"), None, Undefined,
               Some([IdsParam(ids), ("type", PString(FolloweeType(f)))]))
    case FollowPlaylist(p) => Describe(Endpoint(base, "playlists/" + p + "/followers"), Some(PUT), Undefined, None)
    case UnfollowPlaylist(p) => Describe(Endpoint(base, "playlists/" + p + "/followers"), Some(DELETE), Undefined, None)
    case AreFollowingPlaylist(p, ids) =>
      Describe(Endpoint(base, "playlists/" + p + "/followers/contains"), None, Undefined, Some([IdsParam(ids)]))
    case GetFollowedArtists =>
      Describe(Endpoint(base, "me/following"), None, Undefined, Some([("type", PString("artist"))]))
    case GetBatch(b, ids) => Describe(Endpoint(base, BatchPath(b)), None, Undefined, Some([IdsParam(ids)]))
    case GetAudioFeaturesForTracks(ids) =>
      Describe(Endpoint(base, "audio-features"), None, Undefined, Some([("ids", PStrings(ids))]))
    case GetArtistTopTracks(a, country) =>
      Describe(Endpoint(base, "artists/" + a + "/top-tracks"), None, Undefined, Some([("country", PString(country))]))
    case GetRecommendations(params) => Describe(Endpoint(base, "recommendations"), None, Undefined, Some(params))
    case Search(q, types) => SearchOf(base, q, types)
    case SearchResource(q, res) => SearchOf(base, q, [ResourceName(res)])
    case GetMarketItem(m, id, market) =>
      Describe(Endpoint(base, MarketItemPath(m, id)), None, Undefined, Some([MarketParam(market)]))
    case GetMarketBatch(m, ids, market) =>
      Describe(Endpoint(base, MarketBatchPath(m)), None, Undefined, Some([IdsParam(ids), MarketParam(market)]))
  }

  /** The descriptor of `search(query, types)`. */
  function SearchOf(base: string, query: string, types: seq<string>): RequestOptions {
    Describe(Endpoint(base, "search/"), None, Undefined, Some([("q", PString(query)), ("type", PString(Join(types, ",")))]))
  }

  /** The descriptor of a playback call. */
  function PlayerDescriptor(call: Call, base: string): (d: RequestOptions)
    requires IsPlayerCall(call)
    ensures StartsWith(d.url, base + "/")
  {
    match call
    case TransferMyPlayback(deviceId) =>
      Describe(Endpoint(base, "me/player"), Some(PUT), Obj([("device_ids", StrArray([deviceId]))]), None)
    case Play(p) =>
      Describe(Endpoint(base, "me/player/play"), Some(PUT), PlayBody(p),
               Some([("device_id", if p.deviceId.Some? then PString(p.deviceId.value) else PUndefined)]))
    case Queue(uri, d) =>
      Describe(Endpoint(base, "me/player/queue"), Some(POST), Undefined, Some([("uri", PString(uri))] + DeviceKeyParams(d)))
    case Step(s, d) =>
      Describe(Endpoint(base, PlayerStepPath(s)), Some(PlayerStepMethod(s)), Undefined,
               if d.DeviceKey? then Some(DeviceKeyParams(d)) else None)
    case Setting(s, d) =>
      Describe(Endpoint(base, SettingPath(s)), Some(PUT), Undefined, Some([SettingParam(s), ("device_id", DeviceIdParam(d))]))
  }

  /** The descriptor of a playlist edit that takes no identifiers to convert. */
  function PlaylistDescriptor(call: Call, base: string, codecs: Codecs): (d: RequestOptions)
    requires !IsBrowseCall(call) && !IsPlayerCall(call) && !TakesTrackIds(call)
    ensures StartsWith(d.url, base + "/")
  {
    match call
    case CreatePlaylist(userId, p) =>
      Describe(Endpoint(base, "users/" + codecs.encodeComponent(userId) + "/playlists"), Some(POST), PlaylistBody(p), None)
    case ChangePlaylistDetails(id, p) => Describe(Endpoint(base, "playlists/" + id), Some(PUT), PlaylistBody(p), None)
    case AddToPlaylist(id, uris) => AppendOf(base, id, uris)
    case AddTracksToPlaylist(id, uris) => AppendOf(base, id, uris)
    case ClearPlaylist(id) => Describe(Endpoint(base, "playlists/" + id + "/tracks"), Some(PUT), Undefined, None)
    case ReplacePlaylistItems(id, uris) => ReplacementOf(base, id, uris)
    case ReplacePlaylistItemsWithTracks(id, uris) => ReplacementOf(base, id, uris)
    case ReorderItemsInPlaylist(id, start, before, length, snapshot) =>
      Describe(Endpoint(base, "playlists/" + id + "/tracks"), Some(PUT),
               Obj([("range_start", Num(start)), ("insert_before", Num(before)),
                    ("range_length", OptNum(length)), ("snapshot_id", OptNum(snapshot))]), None)
    case RemoveFromPlaylist(id, uris) => RemovalOf(base, id, uris)
    case RemoveTracksFromPlaylist(id, uris) => RemovalOf(base, id, uris)
    case RemoveTracksFromPlaylistWithIDs(id, ids) => RemovalOf(base, id, ids)
    case RemoveItemsFromPlaylistWithSnapshotID(id, uris, snapshot) =>
      Describe(Endpoint(base, "playlists/" + id + "/tracks"), Some(DELETE),
               Obj([("tracks", TrackObjects(uris)), ("snapshot_id", Str(snapshot))]), None)
    case RemoveFromPlaylistInPositions(id, positions, snapshot) =>
      Describe(Endpoint(base, "playlists/" + id + "/tracks"), Some(DELETE),
               Obj([("positions", Arr(seq(|positions|, k requires 0 <= k < |positions| => Num(positions[k])))),
                    ("snapshot_id", Str(snapshot))]), None)
    case UploadCustomPlaylistCoverImage(id, imageData) =>
      Options(Endpoint(base, "playlists/" + id + "/images"), Some(PUT), Str(StripJpegDataUri(imageData)), None, Some("image/jpeg"))
  }

  /**
   * The descriptor a call hands to `request` with API URL `base`, or the error it throws first.
   * Only the calls that convert track identifiers can fail, and only for an invalid identifier;
   * every descriptor addresses an endpoint under the API URL.
   */
  function Descriptor(call: Call, base: string, codecs: Codecs): (r: Result<RequestOptions, Error>)
    ensures r.Failure? <==> TakesTrackIds(call) && !AllSpotifyIDs(call.ids)
    ensures r.Failure? ==> r.error == InvalidSpotifyID
    ensures r.Success? ==> StartsWith(r.value.url, base + "/")
  {
    if IsBrowseCall(call) then Success(BrowseDescriptor(call, base, codecs))
    else if IsPlayerCall(call) then Success(PlayerDescriptor(call, base))
    else if !TakesTrackIds(call) then Success(PlaylistDescriptor(call, base, codecs))
    else
      var uris := CreateURIs(Track, call.ids);
      if uris.Failure? then Failure(uris.error)
      else if call.AddTracksToPlaylistWithIDs? then Success(AppendOf(base, call.playlistId, uris.value))
      else Success(ReplacementOf(base, call.playlistId, uris.value))
  }

  // ---------------------------------------------------------------------------------------
  // Properties of the table

  /** The calls that send identifiers as one comma-joined `ids` parameter, first. */
  predicate JoinsIds(call: Call) {
    || call.LibraryContains? || call.Follow? || call.Unfollow? || call.IsFollowing?
    || call.AreFollowingPlaylist? || call.GetBatch? || call.GetMarketBatch?
  }

  /**
   * A comma-joined batch of valid identifiers can be split back into the same identifiers:
   * the `ids` parameter loses nothing.
   */
  lemma BatchIdsRecoverable(call: Call, base: string, codecs: Codecs)
    requires JoinsIds(call) && |call.ids| >= 1 && AllSpotifyIDs(call.ids)
    ensures var r := Descriptor(call, base, codecs);
      && r.Success? && r.value.Options? && r.value.params.Some? && |r.value.params.value| >= 1
      && r.value.params.value[0].0 == "ids" && r.value.params.value[0].1.PString?
      && Split(r.value.params.value[0].1.s, ',') == call.ids
  {
    forall k | 0 <= k < |call.ids| ensures ',' !in call.ids[k] {
      assert IsSpotifyID(call.ids[k]);
    }
    SplitJoin(call.ids, ',');
  }

  /**
   * `queue` and the pause and skip steps send `device_id` exactly when the options have the key,
   * with the given device when there is one; a step without the key has no query at all.
   */
  lemma DeviceIdOnlyWithKey(uri: string, step: PlayerStep, d: DeviceOptions, device: string, base: string, codecs: Codecs)
    ensures var q := Descriptor(Queue(uri, d), base, codecs).value;
      && q.params.Some?
      && (|q.params.value| == 2 <==> d.DeviceKey?)
      && (d == DeviceKey(Some(device)) ==> q.params.value == [("uri", PString(uri)), ("device_id", PString(device))])
      && (d == DeviceKey(None) ==> q.params.value == [("uri", PString(uri)), ("device_id", PUndefined)])
    ensures var st := Descriptor(Step(step, d), base, codecs).value;
      && (st.params.Some? <==> d.DeviceKey?)
      && (d.NoDeviceKey? ==> RequestUrl(st, codecs) == base + "/" + PlayerStepPath(step))
  {
  }

  /**
   * The settings calls (seek, repeat, volume, shuffle) and `play` always send `device_id`,
   * as the string `undefined` when no device is given.
   */
  lemma DeviceIdAlwaysSent(setting: PlayerSetting, d: DeviceOptions, play: PlayOptions, base: string, codecs: Codecs)
    ensures var r := Descriptor(Setting(setting, d), base, codecs).value;
      && r.params == Some([SettingParam(setting), ("device_id", DeviceIdParam(d))])
      && (d.NoDeviceKey? ==> ParamText(r.params.value[1].1) == "undefined")
    ensures var r := Descriptor(Play(play), base, codecs).value;
      && r.params.Some? && |r.params.value| == 1 && r.params.value[0].0 == "device_id"
      && (play.deviceId.None? ==> ParamText(r.params.value[0].1) == "undefined")
  {
  }

  /** Market lookups send the market given, even an empty one, and `ES` only when none is. */
  lemma MarketDefault(m: MarketItem, id: string, b: MarketBatch, ids: seq<string>, market: Option<string>,
                      base: string, codecs: Codecs)
    ensures var r := Descriptor(GetMarketItem(m, id, market), base, codecs).value;
      r.params == Some([("market", PString(if market.Some? then market.value else "ES"))])
    ensures var r := Descriptor(GetMarketBatch(b, ids, market), base, codecs).value;
      r.params.Some? && |r.params.value| == 2
      && r.params.value[1] == ("market", PString(if market.Some? then market.value else "ES"))
  {
  }

  /** `addTracksToPlaylist` only calls `addToPlaylist`. */
  lemma AddTracksToPlaylistDelegates(playlistId: string, uris: seq<string>, base: string, codecs: Codecs)
    ensures Descriptor(AddTracksToPlaylist(playlistId, uris), base, codecs) == Descriptor(AddToPlaylist(playlistId, uris), base, codecs)
    ensures Descriptor(AddToPlaylist(playlistId, uris), base, codecs) == Success(AppendOf(base, playlistId, uris))
  {
  }

  /** `replacePlaylistItemsWithTracks` only calls `replacePlaylistItems`. */
  lemma ReplaceWithTracksDelegates(playlistId: string, uris: seq<string>, base: string, codecs: Codecs)
    ensures Descriptor(ReplacePlaylistItemsWithTracks(playlistId, uris), base, codecs) == Descriptor(ReplacePlaylistItems(playlistId, uris), base, codecs)
    ensures Descriptor(ReplacePlaylistItems(playlistId, uris), base, codecs) == Success(ReplacementOf(base, playlistId, uris))
  {
  }

  /** `removeTracksFromPlaylist` only calls `removeFromPlaylist`. */
  lemma RemoveTracksDelegates(playlistId: string, uris: seq<string>, base: string, codecs: Codecs)
    ensures Descriptor(RemoveTracksFromPlaylist(playlistId, uris), base, codecs) == Descriptor(RemoveFromPlaylist(playlistId, uris), base, codecs)
    ensures Descriptor(RemoveFromPlaylist(playlistId, uris), base, codecs) == Success(RemovalOf(base, playlistId, uris))
  {
  }

  /** `searchAlbums` and its siblings search for the one type named after their resource. */
  lemma SearchResourceDelegates(query: string, r: Resource, base: string, codecs: Codecs)
    ensures Descriptor(SearchResource(query, r), base, codecs) == Descriptor(Search(query, [ResourceName(r)]), base, codecs)
    ensures Join([ResourceName(r)], ",") == ResourceName(r)
  {
  }

  /** With valid identifiers, the two conversions describe their edit of the track URIs. */
  lemma TrackIdsDescriptor(call: Call, base: string, codecs: Codecs)
    requires TakesTrackIds(call) && AllSpotifyIDs(call.ids)
    ensures var uris := CreateURIs(Track, call.ids).value;
      Descriptor(call, base, codecs) ==
        if call.AddTracksToPlaylistWithIDs? then Success(AppendOf(base, call.playlistId, uris))
        else Success(ReplacementOf(base, call.playlistId, uris))
  {
    assert !IsBrowseCall(call) && !IsPlayerCall(call);
  }

  /** The track URIs of valid identifiers, in order. */
  lemma TrackURIsOf(ids: seq<string>)
    requires AllSpotifyIDs(ids)
    ensures var uris := CreateURIs(Track, ids).value;
      |uris| == |ids| && forall k :: 0 <= k < |ids| ==> uris[k] == "spotify:track:" + ids[k]
  {
    var uris := CreateURIs(Track, ids).value;
    forall k | 0 <= k < |ids| ensures uris[k] == "spotify:track:" + ids[k] {
      assert CreateURI(Track, ids[k]) == Success(uris[k]);
      TrackURI(ids[k]);
    }
  }

  /** The track URI of one valid identifier. */
  lemma TrackURI(id: string)
    requires IsSpotifyID(id)
    ensures CreateURI(Track, id) == Success("spotify:track:" + id)
  {
    var u := SpotifyURI(Track, id).value;
    assert u == "spotify:" + "track" + ":" + id;
    assert "spotify:" + "track" + ":" == "spotify:track:";
    assert u == "spotify:track:" + id;
  }

  /**
   * With valid identifiers, adding by track ID is adding the track URIs `spotify:track:<id>`,
   * in order; with any invalid one it fails before a request is described.
   */
  lemma AddTrackIdsBecomeURIs(playlistId: string, ids: seq<string>, base: string, codecs: Codecs)
    ensures AllSpotifyIDs(ids) ==>
      && Descriptor(AddTracksToPlaylistWithIDs(playlistId, ids), base, codecs)
         == Descriptor(AddToPlaylist(playlistId, CreateURIs(Track, ids).value), base, codecs)
      && forall k :: 0 <= k < |ids| ==> CreateURIs(Track, ids).value[k] == "spotify:track:" + ids[k]
    ensures !AllSpotifyIDs(ids) ==> Descriptor(AddTracksToPlaylistWithIDs(playlistId, ids), base, codecs) == Failure(InvalidSpotifyID)
  {
    if AllSpotifyIDs(ids) {
      var uris := CreateURIs(Track, ids).value;
      AddTracksToPlaylistDelegates(playlistId, uris, base, codecs);
      TrackIdsDescriptor(AddTracksToPlaylistWithIDs(playlistId, ids), base, codecs);
      TrackURIsOf(ids);
    }
  }

  /**
   * With valid identifiers, replacing by track ID is replacing with the track URIs, in order;
   * with any invalid one it fails before a request is described.
   */
  lemma ReplaceTrackIdsBecomeURIs(playlistId: string, ids: seq<string>, base: string, codecs: Codecs)
    ensures AllSpotifyIDs(ids) ==>
      && Descriptor(ReplacePlaylistItemsWithTrackIDs(playlistId, ids), base, codecs)
         == Descriptor(ReplacePlaylistItems(playlistId, CreateURIs(Track, ids).value), base, codecs)
      && forall k :: 0 <= k < |ids| ==> CreateURIs(Track, ids).value[k] == "spotify:track:" + ids[k]
    ensures !AllSpotifyIDs(ids) ==> Descriptor(ReplacePlaylistItemsWithTrackIDs(playlistId, ids), base, codecs) == Failure(InvalidSpotifyID)
  {
    if AllSpotifyIDs(ids) {
      var uris := CreateURIs(Track, ids).value;
      ReplaceWithTracksDelegates(playlistId, uris, base, codecs);
      TrackIdsDescriptor(ReplacePlaylistItemsWithTrackIDs(playlistId, ids), base, codecs);
      TrackURIsOf(ids);
    }
  }

  /**
   * A JPEG data URI is sent without its prefix, as a JSON string: the `image/jpeg` content type
   * the descriptor names never reaches the request, and an empty image sends no body at all.
   */
  lemma CoverImageSentAsJson(playlistId: string, data: string, token: Option<string>, base: string, codecs: Codecs)
    ensures var d := Descriptor(UploadCustomPlaylistCoverImage(playlistId, JpegDataUriPrefix + data), base, codecs).value;
      var req := BuildRequest(d, token, codecs);
      && d.body == Str(data) && d.contentType == Some("image/jpeg")
      && (data != "" ==> Header(req, "Content-Type") == Some("application/json") && req.body == Some(codecs.stringify(Str(data))))
      && (data == "" ==> Header(req, "Content-Type").None? && req.body.None?)
  {
    var image := JpegDataUriPrefix + data;
    assert image[..|JpegDataUriPrefix|] == JpegDataUriPrefix;
    assert StripJpegDataUri(image) == data;
    var d := Descriptor(UploadCustomPlaylistCoverImage(playlistId, image), base, codecs).value;
    BuiltRequest(d, token, codecs);
  }

  // ---------------------------------------------------------------------------------------
  // removeTracksFromPlaylistWithIDs

  /**
   * `removeTracksFromPlaylistWithIDs` as written: the identifiers go to `removeFromPlaylist`
   * unchanged, so they are sent where the endpoint expects track URIs, and no identifier is
   * ever rejected.
   */
  function RemoveTracksWithIDsAsWritten(base: string, playlistId: string, ids: seq<string>, codecs: Codecs): (d: RequestOptions)
    ensures Descriptor(RemoveTracksFromPlaylistWithIDs(playlistId, ids), base, codecs) == Success(d)
    ensures Descriptor(RemoveFromPlaylist(playlistId, ids), base, codecs) == Success(d)
  {
    RemovalOf(base, playlistId, ids)
  }

  /** As written, removing a valid track identifier sends an item whose `uri` is not a Spotify URI. */
  lemma RemoveTracksWithIDsSendsNoURI(base: string, playlistId: string, id: string, codecs: Codecs)
    requires IsSpotifyID(id)
    ensures var d := RemoveTracksWithIDsAsWritten(base, playlistId, [id], codecs);
      && d.body == Obj([("tracks", Arr([Obj([("uri", Str(id))])]))])
      && ParseURI(id).None?
  {
    NoSeparatorInParts(Track, id);
    SplitWithoutSeparator(id, ':');
    var d := RemoveTracksWithIDsAsWritten(base, playlistId, [id], codecs);
    assert TrackObjects([id]).items == [Obj([("uri", Str(id))])];
  }

  /**
   * `removeTracksFromPlaylistWithIDs` as evidently intended: the identifiers are converted
   * with `createURIs('track', ids)` first, as the add and replace variants do.
   */
  function RemoveTracksWithIDsCorrected(base: string, playlistId: string, ids: seq<string>): (r: Result<RequestOptions, Error>)
    ensures r.Failure? <==> !AllSpotifyIDs(ids)
    ensures r.Failure? ==> r.error == InvalidSpotifyID
  {
    match CreateURIs(Track, ids)
    case Failure(e) => Failure(e)
    case Success(uris) => Success(RemovalOf(base, playlistId, uris))
  }

  /**
   * As corrected, removing by identifiers sends the track URI of every identifier, in order,
   * and fails before any request when one is invalid.
   */
  lemma RemoveTracksWithIDsSendsURIs(base: string, playlistId: string, ids: seq<string>)
    ensures var r := RemoveTracksWithIDsCorrected(base, playlistId, ids);
      && (r.Success? <==> AllSpotifyIDs(ids))
      && (r.Success? ==>
            && r.value.body.Obj? && |r.value.body.fields| == 1 && r.value.body.fields[0].0 == "tracks"
            && var tracks := r.value.body.fields[0].1;
               && tracks.Arr? && |tracks.items| == |ids|
               && forall k :: 0 <= k < |ids| ==>
                    exists u :: tracks.items[k] == Obj([("uri", Str(u))]) && ParseURI(u) == Some(URIParts(Track, ids[k])))
  {
    var r := RemoveTracksWithIDsCorrected(base, playlistId, ids);
    if r.Success? {
      var uris := CreateURIs(Track, ids).value;
      var tracks := r.value.body.fields[0].1;
      forall k | 0 <= k < |ids|
        ensures exists u :: tracks.items[k] == Obj([("uri", Str(u))]) && ParseURI(u) == Some(URIParts(Track, ids[k]))
      {
        assert CreateURI(Track, ids[k]) == Success(uris[k]);
        assert tracks.items[k] == Obj([("uri", Str(uris[k]))]);
      }
    }
  }
}
