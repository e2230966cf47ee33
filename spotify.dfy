/** The Spotify client (`api/spotify.rs`) on decoded responses. Each request
    is a field of `SpotifyServer`; a body that does not decode is a panic
    (`serde_json::from_str(..).unwrap()`), a failed request an error. */
module Spotify {
  import opened Wrappers
  import opened Entities
  import opened ApiTypes
  import opened Authorization
  import ShareLinks

  /** `ExternalId`: the body carries either an ISRC or a UPC. */
  datatype ExternalId = Isrc(isrc: string) | Upc(upc: string)

  /** `SongQuery`; the artists by name, in the API's order. */
  datatype SongQuery = SongQuery(name: string, durationMs: U64, externalIds: ExternalId, artists: seq<string>)

  /** `AlbumQuery`. */
  datatype AlbumQuery = AlbumQuery(name: string, externalIds: ExternalId)

  /** The requests the client makes: a track or album by id and market, and
      the ids of the search hits for an ISRC or a UPC. */
  datatype SpotifyServer = SpotifyServer(
    track: (string, string) -> Response<SongQuery>,
    album: (string, string) -> Response<AlbumQuery>,
    searchTracks: string -> Response<seq<string>>,
    searchAlbums: string -> Response<seq<string>>)

  // ---------------------------------------------------------------------
  // get_song_data
  // ---------------------------------------------------------------------

  /** One artist without albums per name, in order. */
  function AlbumlessArtists(keys: Keys, names: seq<string>): (artists: seq<ArtistData>)
    ensures |artists| == |names|
    ensures forall k :: 0 <= k < |names| ==> artists[k] == ArtistData.New(keys, names[k], [])
  {
    seq(|names|, k requires 0 <= k < |names| => ArtistData.New(keys, names[k], []))
  }

  /** `get_song_data`, as a function of the response. A song is read
      exactly when the track decodes and carries an ISRC; its duration is
      the milliseconds truncated to seconds, it has no albums and one
      album-less artist per API artist, in order. */
  function SongDataOf(keys: Keys, server: SpotifyServer, link: ShareLinks.ShareLink): (r: Result<SongData, ApiError>)
    ensures var reply := server.track(link.id, link.countryCode);
      r.Success? <==> reply.Decoded? && reply.body.externalIds.Isrc?
    ensures var reply := server.track(link.id, link.countryCode);
      r.Success? ==>
        && r.value.displayName == reply.body.name
        && r.value.normName == keys.songTitle(reply.body.name)
        && r.value.isrc == reply.body.externalIds.isrc
        && r.value.duration * 1000 <= reply.body.durationMs < (r.value.duration + 1) * 1000
        && r.value.albums == []
        && |r.value.artists| == |reply.body.artists|
        && (forall k :: 0 <= k < |reply.body.artists| ==>
              r.value.artists[k].displayName == reply.body.artists[k] && r.value.artists[k].albums == [])
  {
    var result :- FetchOrPanic(server.track(link.id, link.countryCode));
    match result.externalIds
    case Isrc(isrc) =>
      Success(SongData.New(keys, result.name, isrc, result.durationMs / 1000, [], AlbumlessArtists(keys, result.artists)))
    case Upc(_) => Failure(Unsupported("Should probably return a 503."))
  }

  /** `get_song_data` as written: the request, the ms to s conversion, the
      ISRC match, then a loop pushing one artist per API artist. */
  method GetSongData(keys: Keys, server: SpotifyServer, link: ShareLinks.ShareLink)
    returns (r: Result<SongData, ApiError>)
    ensures r == SongDataOf(keys, server, link)
  {
    var result :- FetchOrPanic(server.track(link.id, link.countryCode));
    var songDur := result.durationMs / 1000;
    if !result.externalIds.Isrc? {
      return Failure(Unsupported("Should probably return a 503."));
    }
    var songIsrc := result.externalIds.isrc;

    var artists: seq<ArtistData> := [];
    var i := 0;
    while i < |result.artists|
      invariant 0 <= i <= |result.artists|
      invariant artists == AlbumlessArtists(keys, result.artists[..i])
    {
      artists := artists + [ArtistData.New(keys, result.artists[i], [])];
      i := i + 1;
    }
    assert result.artists[..i] == result.artists;
    return Success(SongData.New(keys, result.name, songIsrc, songDur, [], artists));
  }

  // ---------------------------------------------------------------------
  // get_album_data
  // ---------------------------------------------------------------------

  /** `get_album_data`: an album with limited information, which needs a
      UPC. */
  function AlbumDataOf(keys: Keys, server: SpotifyServer, link: ShareLinks.ShareLink): (r: Result<AlbumData, ApiError>)
    ensures var reply := server.album(link.id, link.countryCode);
      r.Success? <==> reply.Decoded? && reply.body.externalIds.Upc?
    ensures r.Success? ==>
      var body := server.album(link.id, link.countryCode).body;
      r.value.upc == body.externalIds.upc && r.value.displayName == body.name
    ensures r.Success? ==> r.value.songs == [] && r.value.artists == []
  {
    var result :- FetchOrPanic(server.album(link.id, link.countryCode));
    match result.externalIds
    case Upc(upc) => Success(AlbumData.WithLimitedInfo(keys, result.name, upc))
    case Isrc(_) => Failure(Unsupported("also return 503"))
  }

  // ---------------------------------------------------------------------
  // get_song_link and get_album_link
  // ---------------------------------------------------------------------

  /** `get_album_link`: the UPC search must return exactly one hit, which
      becomes a Spotify album link in the given country. */
  function AlbumLinkOf(server: SpotifyServer, album: AlbumData, country: string): (r: Result<ShareLinks.ShareLink, ApiError>)
    ensures var reply := server.searchAlbums(album.upc);
      r.Success? <==> reply.Decoded? && |reply.body| == 1
    ensures r.Success? ==> r.value == ShareLinks.New(ShareLinks.Spotify, ShareLinks.Album, server.searchAlbums(album.upc).body[0], country)
  {
    var items :- FetchOrPanic(server.searchAlbums(album.upc));
    if |items| != 1 then Failure(Unsupported("Found no match or found multiple matches. Both is bad."))
    else Success(ShareLinks.New(ShareLinks.Spotify, ShareLinks.Album, items[0], country))
  }

  /** `get_song_link`: the ISRC search must return at least one hit; the
      first becomes a Spotify song link in the given country. */
  function SongLinkOf(server: SpotifyServer, song: SongData, country: string): (r: Result<ShareLinks.ShareLink, ApiError>)
    ensures var reply := server.searchTracks(song.isrc);
      r.Success? <==> reply.Decoded? && |reply.body| >= 1
    ensures r.Success? ==> r.value == ShareLinks.New(ShareLinks.Spotify, ShareLinks.Song, server.searchTracks(song.isrc).body[0], country)
  {
    var items :- FetchOrPanic(server.searchTracks(song.isrc));
    if |items| == 0 then Failure(Unsupported("Found no match."))
    else Success(ShareLinks.New(ShareLinks.Spotify, ShareLinks.Song, items[0], country))
  }

  // ---------------------------------------------------------------------
  // get_bearer_token
  // ---------------------------------------------------------------------

  const AuthEndpoint: string := "https://accounts.spotify.com/api/token"

  /** `get_bearer_token`: the cached token while it is live; otherwise a
      refresh, whose failure is unwrapped into a panic. */
  method GetBearerToken(token: AccessToken, now: nat, endpoint: TokenEndpoint)
    returns (r: Result<string, ApiError>)
    modifies token
    ensures !old(token.IsExpired(now)) ==> r == Success(old(token.token)) && unchanged(token)
    ensures old(token.IsExpired(now)) ==>
      var issued := Issue(now, endpoint(old(token.authEndpoint)));
      && (issued.Success? ==> r == Success(issued.value.0) && (token.token, token.expiry) == issued.value)
      && (issued.Failure? ==> r.Failure? && r.error.Panic?)
      && (issued.Failure? ==> token.token == old(token.token) && token.expiry == old(token.expiry))
    ensures token.authEndpoint == old(token.authEndpoint)
    ensures r.Success? ==> r.value == token.token
    ensures var reply := endpoint(old(token.authEndpoint));
      reply.Decoded? && reply.body.expiresIn > 5 ==> !token.IsExpired(now)
  {
    if !token.IsExpired(now) {
      return Success(token.token);
    }
    var refreshed := token.Refresh(now, endpoint);
    if refreshed.Failure? {
      return Failure(Panic("called `Result::unwrap()` on an `Err` value"));
    }
    return Success(token.token);
  }
}
