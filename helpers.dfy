/** The URL and Spotify identifier helpers of the client. */
module Helpers {
  import opened Wrappers
  import opened Strings
  import opened Types

  /** `addTrailingSlash`: the URL itself when it already ends in '/', otherwise the URL and '/'. */
  function AddTrailingSlash(url: string): (r: string)
    ensures EndsWith(r, "/")
    ensures StartsWith(r, url) && |r| <= |url| + 1
    ensures EndsWith(url, "/") ==> r == url
  {
    if EndsWith(url, "/") then url else url + "/"
  }

  /** Adding the slash twice is adding it once. */
  lemma AddTrailingSlashIdempotent(url: string)
    ensures AddTrailingSlash(AddTrailingSlash(url)) == AddTrailingSlash(url)
  {
  }

  /** A URL is left alone exactly when it already ends in '/'. */
  lemma AddTrailingSlashFixedPoints(url: string)
    ensures AddTrailingSlash(url) == url <==> EndsWith(url, "/")
  {
  }

  /** One character of the class `[0-9A-Za-z_-]`. */
  predicate IsIdChar(c: char) {
    ('0' <= c <= '9') || ('A' <= c <= 'Z') || ('a' <= c <= 'z') || c == '_' || c == '-'
  }

  /** The number of characters in a Spotify identifier. */
  const IdLength: nat := 22

  /** The anchored regular expression `[0-9A-Za-z_-]{count}$` matched against all of `s`. */
  predicate MatchesIdRun(s: string, count: nat)
    decreases count
  {
    if count == 0 then s == ""
    else |s| > 0 && IsIdChar(s[0]) && MatchesIdRun(s[1..], count - 1)
  }

  /** `isSpotifyID`: the test of `/^[0-9A-Za-z_-]{22}$/`, exactly 22 characters of the class. */
  predicate IsSpotifyID(id: string) {
    |id| == IdLength && forall k :: 0 <= k < |id| ==> IsIdChar(id[k])
  }

  /** The anchored run matches exactly the strings of that length over the class. */
  lemma {:induction false} MatchesIdRunIff(s: string, count: nat)
    ensures MatchesIdRun(s, count) <==> |s| == count && forall k :: 0 <= k < |s| ==> IsIdChar(s[k])
    decreases count
  {
    if count > 0 && |s| > 0 {
      MatchesIdRunIff(s[1..], count - 1);
      if |s| == count && (forall k :: 0 <= k < |s| ==> IsIdChar(s[k])) {
        assert forall k :: 0 <= k < |s[1..]| ==> IsIdChar(s[1..][k]) by {
          forall k | 0 <= k < |s[1..]| ensures IsIdChar(s[1..][k]) {
            assert s[1..][k] == s[k + 1];
          }
        }
      }
    }
  }

  /** The identifier test is the anchored run of 22 characters the regular expression matches. */
  lemma IsSpotifyIDMatchesRegex(id: string)
    ensures IsSpotifyID(id) <==> MatchesIdRun(id, IdLength)
  {
    MatchesIdRunIff(id, IdLength);
  }

  /** The identifier accepted by the helper tests, and its 23-character extension rejected. */
  lemma SpotifyIDExamples()
    ensures IsSpotifyID("4rzfv0JLZfVhOhbSQ8o5jZ")
    ensures !IsSpotifyID("4rzfv0JLZfVhOhbSQ8o5jZz")
  {
    var valid := "4rzfv0JLZfVhOhbSQ8o5jZ";
    forall k | 0 <= k < |valid| ensures IsIdChar(valid[k]) {
    }
  }

  /** Neither a valid identifier nor a resource name contains the URI separator ':'. */
  lemma NoSeparatorInParts(r: Resource, id: string)
    requires IsSpotifyID(id)
    ensures ':' !in id && ':' !in ResourceName(r)
  {
  }

  /**
   * `spotifyURI`: `spotify:<resource>:<id>` for a valid identifier, otherwise the error
   * 'Invalid Spotify ID'.
   */
  function SpotifyURI(resource: Resource, id: string): (r: Result<string, Error>)
    ensures r.Success? <==> IsSpotifyID(id)
    ensures r.Failure? ==> r.error == InvalidSpotifyID
    ensures r.Success? ==> r.value == "spotify:" + ResourceName(resource) + ":" + id
    ensures r.Success? ==> |r.value| == |ResourceName(resource)| + 31
  {
    if !IsSpotifyID(id) then Failure(InvalidSpotifyID)
    else Success("spotify:" + ResourceName(resource) + ":" + id)
  }

  /** The resource and identifier a URI names. */
  datatype URIParts = URIParts(resource: Resource, id: string)

  /** The resource whose name is `name`, if any. */
  function ParseResource(name: string): (r: Option<Resource>)
    ensures r.Some? ==> ResourceName(r.value) == name
    ensures r.None? <==> forall res: Resource :: ResourceName(res) != name
  {
    if name == "album" then Some(Album)
    else if name == "artist" then Some(Artist)
    else if name == "playlist" then Some(Playlist)
    else if name == "track" then Some(Track)
    else if name == "show" then Some(Show)
    else if name == "episode" then Some(Episode)
    else None
  }

  /** Every resource name is read back as its resource. */
  lemma ParseResourceName(r: Resource)
    ensures ParseResource(ResourceName(r)) == Some(r)
  {
  }

  /** Reading a URI back: split on ':' into `spotify`, a resource name and a valid identifier. */
  function ParseURI(uri: string): Option<URIParts> {
    var parts := Split(uri, ':');
    if |parts| == 3 && parts[0] == "spotify" && ParseResource(parts[1]).Some? && IsSpotifyID(parts[2])
    then Some(URIParts(ParseResource(parts[1]).value, parts[2]))
    else None
  }

  /** Splitting a built URI on ':' recovers the three parts. */
  lemma {:induction false} SplitSpotifyURI(resource: Resource, id: string)
    requires IsSpotifyID(id)
    ensures Split(SpotifyURI(resource, id).value, ':') == ["spotify", ResourceName(resource), id]
  {
    var name := ResourceName(resource);
    NoSeparatorInParts(resource, id);
    assert SpotifyURI(resource, id).value == "spotify" + [':'] + (name + [':'] + id);
    SplitAtFirstSeparator("spotify", ':', name + [':'] + id);
    SplitAtFirstSeparator(name, ':', id);
    SplitWithoutSeparator(id, ':');
  }

  /** Every parsed URI is the one built from its parts. */
  lemma {:induction false} ParsedURIIsBuilt(uri: string)
    requires ParseURI(uri).Some?
    ensures var p := ParseURI(uri).value; SpotifyURI(p.resource, p.id) == Success(uri)
  {
    var parts := Split(uri, ':');
    JoinSplit(uri, ':');
    assert Join(parts[2..], ":") == parts[2];
    assert Join(parts[1..], ":") == parts[1] + ":" + parts[2];
    assert uri == parts[0] + ":" + (parts[1] + ":" + parts[2]);
    var p := ParseURI(uri).value;
    assert ResourceName(p.resource) == parts[1] && p.id == parts[2];
    assert "spotify:" + parts[1] + ":" + parts[2] == parts[0] + ":" + (parts[1] + ":" + parts[2]);
  }

  /** `createURI`: the same URI as `spotifyURI`, and one that parses back to its parts. */
  function CreateURI(resource: Resource, id: string): (r: Result<string, Error>)
    ensures r.Success? <==> IsSpotifyID(id)
    ensures r.Failure? ==> r.error == InvalidSpotifyID
    ensures r.Success? ==> ParseURI(r.value) == Some(URIParts(resource, id))
  {
    var r := SpotifyURI(resource, id);
    if r.Success? then SplitSpotifyURI(resource, id); r else r
  }

  /** Two valid pairs build the same URI only if they are the same pair. */
  lemma CreateURIInjective(r1: Resource, id1: string, r2: Resource, id2: string)
    requires CreateURI(r1, id1).Success? && CreateURI(r2, id2).Success?
    requires CreateURI(r1, id1).value == CreateURI(r2, id2).value
    ensures r1 == r2 && id1 == id2
  {
  }

  /** Every identifier of the list is valid. */
  predicate AllSpotifyIDs(ids: seq<string>) {
    forall k :: 0 <= k < |ids| ==> IsSpotifyID(ids[k])
  }

  /**
   * `createURIs`: the URIs of all identifiers in order, or 'Invalid Spotify ID' as soon as
   * one identifier is invalid.
   */
  function CreateURIs(resource: Resource, ids: seq<string>): (r: Result<seq<string>, Error>)
    ensures r.Success? <==> AllSpotifyIDs(ids)
    ensures r.Failure? ==> r.error == InvalidSpotifyID
    ensures r.Success? ==> |r.value| == |ids|
    ensures r.Success? ==> forall k :: 0 <= k < |ids| ==> CreateURI(resource, ids[k]) == Success(r.value[k])
  {
    if |ids| == 0 then Success([])
    else
      match CreateURI(resource, ids[0])
      case Failure(e) => Failure(e)
      case Success(u) =>
        match CreateURIs(resource, ids[1..])
        case Failure(e) => Failure(e)
        case Success(us) => Success([u] + us)
  }

  /** The single-identifier case of the helper tests. */
  lemma CreateURIsSingle(resource: Resource, id: string)
    ensures CreateURIs(resource, [id]) ==
      if IsSpotifyID(id) then Success(["spotify:" + ResourceName(resource) + ":" + id])
      else Failure(InvalidSpotifyID)
  {
    assert [id][0] == id && [id][1..] == [];
    assert CreateURIs(resource, []) == Success([]);
    if IsSpotifyID(id) {
      var u := CreateURI(resource, id).value;
      assert u == SpotifyURI(resource, id).value;
      assert CreateURIs(resource, [id]) == Success([u] + []);
      assert [u] + [] == [u];
      assert u == "spotify:" + ResourceName(resource) + ":" + id;
    }
  }
}
