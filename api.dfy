/** The dispatch table of `api/mod.rs`: which client answers which request,
    and the errors of the platforms that are not supported yet. */
module Api {
  import opened Wrappers
  import opened Entities
  import opened ApiTypes
  import Authorization
  import ShareLinks
  import Spotify
  import Tidal
  import Deezer

  /** `SpotifyApi`: the requests it makes and its token. */
  datatype SpotifyApi = SpotifyApi(server: Spotify.SpotifyServer, token: Authorization.AccessToken)

  /** `TidalApi`: the requests it makes and its token. */
  datatype TidalApi = TidalApi(server: Tidal.TidalServer, token: Authorization.AccessToken)

  /** `AppleMusicApi`; apple_music.rs is not part of this model and the
      dispatch never calls into it. */
  datatype AppleMusicApi = AppleMusicApi

  datatype ApiClient =
    | SpotifyClient(spotify: SpotifyApi)
    | TidalClient(tidal: TidalApi)
    | DeezerClient(deezer: Deezer.DeezerServer)
    | AppleMusicClient(appleMusic: AppleMusicApi)

  /** The platform whose links a client produces. */
  function Platform(client: ApiClient): ShareLinks.LinkType {
    match client
    case SpotifyClient(_) => ShareLinks.Spotify
    case TidalClient(_) => ShareLinks.Tidal
    case DeezerClient(_) => ShareLinks.Deezer
    case AppleMusicClient(_) => ShareLinks.AppleMusic
  }

  /** The clients whose song and album operations are implemented. */
  predicate Implemented(client: ApiClient) {
    client.SpotifyClient? || client.TidalClient?
  }

  function NotSupported(client: ApiClient): ApiError
    requires !Implemented(client)
  {
    if client.DeezerClient? then Unsupported("Deezer is currently not supported.")
    else Unsupported("AppleMusic is currently not supported.")
  }

  const ArtistsNotSupported: ApiError := Unsupported("Conversion for artist links is currently not supported.")

  /** `link_to_data`: song and album links go to the client's data request
      and come back wrapped in the matching `Data` variant; artist links and
      the clients that are not implemented fail. */
  function LinkToData(keys: Keys, client: ApiClient, link: ShareLinks.ShareLink): (r: Result<Data, ApiError>)
    ensures link.shareObj == ShareLinks.Artist ==> r == Failure(ArtistsNotSupported)
    ensures link.shareObj != ShareLinks.Artist && !Implemented(client) ==> r == Failure(NotSupported(client))
    ensures r.Success? ==> Implemented(client) && link.shareObj != ShareLinks.Artist
    ensures r.Success? ==> (r.value.Song? <==> link.shareObj == ShareLinks.Song)
    ensures link.shareObj == ShareLinks.Song && client.SpotifyClient? ==>
      var d := Spotify.SongDataOf(keys, client.spotify.server, link);
      && (r.Success? <==> d.Success?)
      && (r.Success? ==> r.value == Data.Song(d.value))
      && (r.Failure? ==> r.error == d.error)
    ensures link.shareObj == ShareLinks.Song && client.TidalClient? ==>
      var d := Tidal.SongDataOf(keys, client.tidal.server, link);
      && (r.Success? <==> d.Success?)
      && (r.Success? ==> r.value == Data.Song(d.value))
      && (r.Failure? ==> r.error == d.error)
    ensures link.shareObj == ShareLinks.Album && client.SpotifyClient? ==>
      var d := Spotify.AlbumDataOf(keys, client.spotify.server, link);
      && (r.Success? <==> d.Success?)
      && (r.Success? ==> r.value == Data.Album(d.value))
      && (r.Failure? ==> r.error == d.error)
    ensures link.shareObj == ShareLinks.Album && client.TidalClient? ==>
      var d := Tidal.AlbumDataOf(keys, client.tidal.server, link);
      && (r.Success? <==> d.Success?)
      && (r.Success? ==> r.value == Data.Album(d.value))
      && (r.Failure? ==> r.error == d.error)
  {
    match link.shareObj
    case Song =>
      (match client
       case SpotifyClient(api) =>
         var song :- Spotify.SongDataOf(keys, api.server, link);
         Success(Data.Song(song))
       case TidalClient(api) =>
         var song :- Tidal.SongDataOf(keys, api.server, link);
         Success(Data.Song(song))
       case _ => Failure(NotSupported(client)))
    case Album =>
      (match client
       case SpotifyClient(api) =>
         var album :- Spotify.AlbumDataOf(keys, api.server, link);
         Success(Data.Album(album))
       case TidalClient(api) =>
         var album :- Tidal.AlbumDataOf(keys, api.server, link);
         Success(Data.Album(album))
       case _ => Failure(NotSupported(client)))
    case Artist => Failure(ArtistsNotSupported)
  }

  /** `data_to_link`: song data goes to the client's song search, album data
      to its album search; artist data and the clients that are not
      implemented fail. A link found is always one of the client's own
      platform. */
  function DataToLink(keys: Keys, client: ApiClient, data: Data, country: string): (r: Result<ShareLinks.ShareLink, ApiError>)
    ensures data.Artist? ==> r == Failure(ArtistsNotSupported)
    ensures !data.Artist? && !Implemented(client) ==> r == Failure(NotSupported(client))
    ensures r.Success? ==> Implemented(client) && r.value.linkType == Platform(client)
    ensures r.Success? ==> r.value.countryCode == country
    ensures r.Success? ==> (r.value.shareObj == ShareLinks.Song <==> data.Song?)
    ensures r.Success? ==> (r.value.shareObj == ShareLinks.Album <==> data.Album?)
    ensures client.SpotifyClient? && data.Song? ==> r == Spotify.SongLinkOf(client.spotify.server, data.song, country)
    ensures client.TidalClient? && data.Song? ==> r == Tidal.SongLinkOf(keys, client.tidal.server, data.song, country)
    ensures client.SpotifyClient? && data.Album? ==> r == Spotify.AlbumLinkOf(client.spotify.server, data.album, country)
    ensures client.TidalClient? && data.Album? ==> r == Tidal.AlbumLinkOf(keys, client.tidal.server, data.album, country)
  {
    match data
    case Song(song) =>
      (match client
       case SpotifyClient(api) => Spotify.SongLinkOf(api.server, song, country)
       case TidalClient(api) => Tidal.SongLinkOf(keys, api.server, song, country)
       case _ => Failure(NotSupported(client)))
    case Album(album) =>
      (match client
       case SpotifyClient(api) => Spotify.AlbumLinkOf(api.server, album, country)
       case TidalClient(api) => Tidal.AlbumLinkOf(keys, api.server, album, country)
       case _ => Failure(NotSupported(client)))
    case Artist(_) => Failure(ArtistsNotSupported)
  }
}
