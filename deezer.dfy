/** The Deezer client (`api/deezer.rs`) on decoded responses. Every failure
    of a request or of decoding is returned with `?`. */
module Deezer {
  import opened Wrappers
  import opened Entities
  import opened ApiTypes
  import ShareLinks

  // ---------------------------------------------------------------------
  // u64::to_string
  // ---------------------------------------------------------------------

  function DigitChar(d: nat): (c: char)
    requires d < 10
    ensures '0' <= c <= '9' && c as int - '0' as int == d
  {
    (d + '0' as int) as char
  }

  /** The decimal rendering of a number, most significant digit first. */
  function DecimalString(n: nat): (s: string)
    ensures |s| >= 1
    ensures forall k :: 0 <= k < |s| ==> '0' <= s[k] <= '9'
    ensures |s| > 1 ==> s[0] != '0'
  {
    if n < 10 then [DigitChar(n)] else DecimalString(n / 10) + [DigitChar(n % 10)]
  }

  /** The value of a string of decimal digits. */
  function ParseDecimal(s: string): nat
    requires forall k :: 0 <= k < |s| ==> '0' <= s[k] <= '9'
  {
    if s == [] then 0 else ParseDecimal(s[..|s| - 1]) * 10 + (s[|s| - 1] as int - '0' as int)
  }

  /** Reading back the decimal rendering gives the number. */
  lemma {:induction false} DecimalRoundTrip(n: nat)
    ensures ParseDecimal(DecimalString(n)) == n
  {
    var s := DecimalString(n);
    if n >= 10 {
      DecimalRoundTrip(n / 10);
      assert s[..|s| - 1] == DecimalString(n / 10);
    }
  }

  /** Distinct ids render as distinct strings. */
  lemma DecimalInjective(m: nat, n: nat)
    requires DecimalString(m) == DecimalString(n)
    ensures m == n
  {
    DecimalRoundTrip(m);
    DecimalRoundTrip(n);
  }

  // ---------------------------------------------------------------------
  // Decoded responses
  // ---------------------------------------------------------------------

  /** `SongQuery` of `get_song_data`: the album by id, the artist by name. */
  datatype SongQuery = SongQuery(title: string, isrc: string, duration: U64, albumId: U64, artistName: string)

  /** `AlbumQuery` of `get_album_data`. */
  datatype AlbumQuery = AlbumQuery(title: string, upc: string)

  /** `AlbumQuery` of `get_cover_art`. */
  datatype CoverQuery = CoverQuery(
    cover: string, coverSmall: Option<string>, coverMedium: Option<string>, coverBig: Option<string>)

  /** The requests the client makes: a track or album by id, the id found
      for an ISRC or a UPC, and the covers of the album with a UPC. */
  datatype DeezerServer = DeezerServer(
    track: string -> Response<SongQuery>,
    album: string -> Response<AlbumQuery>,
    trackByIsrc: string -> Response<U64>,
    albumByUpc: string -> Response<U64>,
    coversByUpc: string -> Response<CoverQuery>)

  // ---------------------------------------------------------------------
  // get_cover_art
  // ---------------------------------------------------------------------

  /** The preference chain of `get_cover_art`. */
  function PreferredCover(q: CoverQuery): (r: string)
    ensures q.coverMedium.Some? ==> r == q.coverMedium.value
    ensures q.coverMedium.None? && q.coverSmall.Some? ==> r == q.coverSmall.value
    ensures q.coverMedium.None? && q.coverSmall.None? && q.coverBig.Some? ==> r == q.coverBig.value
    ensures q.coverMedium.None? && q.coverSmall.None? && q.coverBig.None? ==> r == q.cover
  {
    if q.coverMedium.Some? then q.coverMedium.value
    else if q.coverSmall.Some? then q.coverSmall.value
    else if q.coverBig.Some? then q.coverBig.value
    else q.cover
  }

  /** `get_cover_art`. */
  function CoverArt(server: DeezerServer, album: AlbumData): (r: Result<string, ApiError>)
    ensures r.Success? <==> server.coversByUpc(album.upc).Decoded?
    ensures r.Success? ==> r.value == PreferredCover(server.coversByUpc(album.upc).body)
  {
    var info :- Fetch(server.coversByUpc(album.upc));
    Success(PreferredCover(info))
  }

  // ---------------------------------------------------------------------
  // get_album_data and get_song_data
  // ---------------------------------------------------------------------

  /** `get_album_data`: an album with limited information. The link's
      platform and kind are not checked. */
  function AlbumDataOf(keys: Keys, server: DeezerServer, link: ShareLinks.ShareLink): (r: Result<AlbumData, ApiError>)
    ensures r.Success? <==> server.album(link.id).Decoded?
    ensures r.Success? ==> var body := server.album(link.id).body;
      r.value.displayName == body.title && r.value.upc == body.upc
    ensures r.Success? ==> r.value.songs == [] && r.value.artists == []
  {
    var info :- Fetch(server.album(link.id));
    Success(AlbumData.WithLimitedInfo(keys, info.title, info.upc))
  }

  /** The Deezer album link built for a track's album: its id reads back as
      the album id. */
  function AlbumLinkFor(albumId: U64, country: string): (l: ShareLinks.ShareLink)
    ensures l.linkType == ShareLinks.Deezer && l.shareObj == ShareLinks.Album && l.countryCode == country
    ensures forall k :: 0 <= k < |l.id| ==> '0' <= l.id[k] <= '9'
    ensures ParseDecimal(l.id) == albumId
  {
    DecimalRoundTrip(albumId);
    ShareLinks.New(ShareLinks.Deezer, ShareLinks.Album, DecimalString(albumId), country)
  }

  /** `get_song_data`: the track, then its album through a Deezer album link
      with the decimal album id; the song has exactly that album and exactly
      one artist, whose album list is that same album. */
  function SongDataOf(keys: Keys, server: DeezerServer, link: ShareLinks.ShareLink): (r: Result<SongData, ApiError>)
    ensures r.Success? <==>
      && server.track(link.id).Decoded?
      && AlbumDataOf(keys, server, AlbumLinkFor(server.track(link.id).body.albumId, link.countryCode)).Success?
    ensures r.Success? ==>
      var body := server.track(link.id).body;
      var album := AlbumDataOf(keys, server, AlbumLinkFor(body.albumId, link.countryCode));
      && r.value.displayName == body.title && r.value.normName == keys.songTitle(body.title)
      && r.value.isrc == body.isrc && r.value.duration == body.duration
      && r.value.albums == [album.value]
      && |r.value.artists| == 1
      && r.value.artists[0].displayName == body.artistName
      && r.value.artists[0].albums == r.value.albums
  {
    var info :- Fetch(server.track(link.id));
    var albumLink := AlbumLinkFor(info.albumId, link.countryCode);
    var albumData :- AlbumDataOf(keys, server, albumLink);
    var artistData := ArtistData.New(keys, info.artistName, [albumData]);
    Success(SongData.New(keys, info.title, info.isrc, info.duration, [albumData], [artistData]))
  }

  // ---------------------------------------------------------------------
  // get_song_link and get_album_link
  // ---------------------------------------------------------------------

  /** `get_song_link`: a Deezer song link with the decimal id found for the
      song's ISRC, in the given country. */
  function SongLinkOf(server: DeezerServer, song: SongData, country: string): (r: Result<ShareLinks.ShareLink, ApiError>)
    ensures r.Success? <==> server.trackByIsrc(song.isrc).Decoded?
    ensures r.Success? ==> r.value.linkType == ShareLinks.Deezer && r.value.shareObj == ShareLinks.Song
    ensures r.Success? ==> r.value.countryCode == country
    ensures r.Success? ==> forall k :: 0 <= k < |r.value.id| ==> '0' <= r.value.id[k] <= '9'
    ensures r.Success? ==> ParseDecimal(r.value.id) == server.trackByIsrc(song.isrc).body
  {
    var id :- Fetch(server.trackByIsrc(song.isrc));
    DecimalRoundTrip(id);
    Success(ShareLinks.New(ShareLinks.Deezer, ShareLinks.Song, DecimalString(id), country))
  }

  /** `get_album_link`: a Deezer album link with the decimal id found for the
      album's UPC, in the given country. */
  function AlbumLinkOf(server: DeezerServer, album: AlbumData, country: string): (r: Result<ShareLinks.ShareLink, ApiError>)
    ensures r.Success? <==> server.albumByUpc(album.upc).Decoded?
    ensures r.Success? ==> r.value.linkType == ShareLinks.Deezer && r.value.shareObj == ShareLinks.Album
    ensures r.Success? ==> r.value.countryCode == country
    ensures r.Success? ==> forall k :: 0 <= k < |r.value.id| ==> '0' <= r.value.id[k] <= '9'
    ensures r.Success? ==> ParseDecimal(r.value.id) == server.albumByUpc(album.upc).body
  {
    var id :- Fetch(server.albumByUpc(album.upc));
    DecimalRoundTrip(id);
    Success(ShareLinks.New(ShareLinks.Deezer, ShareLinks.Album, DecimalString(id), country))
  }
}
