/** The Tidal client (`api/tidal.rs`) on decoded responses. Each HTTP
    exchange is a field of `TidalServer`: from the request's parameters to
    the decoded reply. */
module Tidal {
  import opened Wrappers
  import opened Entities
  import opened ApiTypes
  import opened Authorization
  import ShareLinks

  // ---------------------------------------------------------------------
  // iso8601_to_seconds
  // ---------------------------------------------------------------------

  /** `u32`, the type of the fields of a parsed ISO 8601 duration. */
  type U32 = x: int | 0 <= x < 0x1_0000_0000

  /** `iso8601::Duration` as the parser hands it over. */
  datatype IsoDuration =
    | Weeks(weeks: U32)
    | YMDHMS(year: U32, month: U32, day: U32, hour: U32, minute: U32, second: U32, millisecond: U32)

  datatype DurationError = WeeksUnsupported | YearsUnsupported | MonthsUnsupported

  /** The value `iso8601_to_seconds` computes from a parsed duration. */
  function DurationSeconds(d: IsoDuration): (r: Result<nat, DurationError>)
    ensures d.Weeks? ==> r == Failure(WeeksUnsupported)
    ensures d.YMDHMS? && d.year != 0 ==> r == Failure(YearsUnsupported)
    ensures d.YMDHMS? && d.year == 0 && d.month != 0 ==> r == Failure(MonthsUnsupported)
    ensures r.Success? <==> d.YMDHMS? && d.year == 0 && d.month == 0
    ensures r.Success? ==> r.value < U64Modulus
  {
    match d
    case Weeks(_) => Failure(WeeksUnsupported)
    case YMDHMS(year, month, day, hour, minute, second, millisecond) =>
      if year != 0 then Failure(YearsUnsupported)
      else if month != 0 then Failure(MonthsUnsupported)
      else Success(day * 86400 + hour * 3600 + minute * 60 + second + (if millisecond > 500 then 1 else 0))
  }

  /** `iso8601_to_seconds` as written: the rejections, then a running total
      that starts from the rounded milliseconds. */
  method IsoToSeconds(d: IsoDuration) returns (r: Result<nat, DurationError>)
    ensures r == DurationSeconds(d)
  {
    match d {
      case Weeks(_) =>
        return Failure(WeeksUnsupported);
      case YMDHMS(year, month, day, hour, minute, second, millisecond) =>
        if year != 0 {
          return Failure(YearsUnsupported);
        }
        if month != 0 {
          return Failure(MonthsUnsupported);
        }
        var seconds: nat := if millisecond > 500 then 1 else 0;
        seconds := seconds + second;
        seconds := seconds + minute * 60;
        seconds := seconds + hour * 60 * 60;
        seconds := seconds + day * 24 * 60 * 60;
        return Success(seconds);
    }
  }

  /** The duration of `s` seconds written with days, hours, minutes and
      seconds in their usual ranges. */
  function Normalized(s: nat): IsoDuration
    requires s / 86400 < 0x1_0000_0000
  {
    YMDHMS(0, 0, s / 86400, s / 3600 % 24, s / 60 % 60, s % 60, 0)
  }

  /** Seconds written as a duration read back as the same seconds. */
  lemma SecondsRoundTrip(s: nat)
    requires s / 86400 < 0x1_0000_0000
    ensures DurationSeconds(Normalized(s)) == Success(s)
  {
    var d, h, m, sec := s / 86400, s / 3600 % 24, s / 60 % 60, s % 60;
    var minutes := s / 60;
    var hours := minutes / 60;
    DivModOf(s / 3600, s / 3600 / 24, h, 24);
    assert s / 3600 == hours && hours / 24 == d;
    assert s == ((d * 24 + h) * 60 + m) * 60 + sec;
  }

  lemma {:induction false} MulAtLeast(k: nat, n: nat)
    requires k >= 1
    ensures k * n >= n
  {
    if k > 1 {
      MulAtLeast(k - 1, n);
      assert k * n == (k - 1) * n + n;
    }
  }

  /** The only multiple of `n` strictly between `-n` and `n` is zero. */
  lemma SmallMultipleIsZero(k: int, n: int)
    requires n > 0
    ensures -n < k * n < n ==> k == 0
  {
    if k >= 1 {
      MulAtLeast(k, n);
    } else if k <= -1 {
      MulAtLeast(-k, n);
      assert k * n == -((-k) * n);
    }
  }

  /** Quotient and remainder are determined by any decomposition with the
      remainder in range. */
  lemma DivModOf(s: nat, q: nat, r: nat, n: nat)
    requires n > 0 && r < n && s == q * n + r
    ensures s / n == q && s % n == r
  {
    var k := q - s / n;
    assert k * n == q * n - (s / n) * n;
    SmallMultipleIsZero(k, n);
  }

  /** A duration with fields in their usual ranges and no milliseconds is
      determined by its seconds. */
  lemma NormalizedRoundTrip(d: IsoDuration)
    requires d.YMDHMS? && d.year == 0 && d.month == 0
    requires d.hour < 24 && d.minute < 60 && d.second < 60 && d.millisecond == 0
    ensures DurationSeconds(d).Success?
    ensures Normalized(DurationSeconds(d).value) == d
  {
    var s := DurationSeconds(d).value;
    var hours := d.day * 24 + d.hour;
    var minutes := hours * 60 + d.minute;
    assert s == minutes * 60 + d.second;
    DivModOf(s, minutes, d.second, 60);
    DivModOf(minutes, hours, d.minute, 60);
    DivModOf(hours, d.day, d.hour, 24);
    assert s == hours * 3600 + (d.minute * 60 + d.second);
    DivModOf(s, hours, d.minute * 60 + d.second, 3600);
    assert s == d.day * 86400 + (d.hour * 3600 + d.minute * 60 + d.second);
    DivModOf(s, d.day, d.hour * 3600 + d.minute * 60 + d.second, 86400);
  }

  /** Milliseconds round to the nearest second, with exactly half a second
      rounding down. */
  lemma MillisecondsRounding(ms: U32)
    ensures DurationSeconds(YMDHMS(0, 0, 0, 0, 0, 0, ms)) == Success(if ms > 500 then 1 else 0)
    ensures DurationSeconds(YMDHMS(0, 0, 0, 0, 0, 0, 500)) == Success(0)
  {}

  // ---------------------------------------------------------------------
  // Decoded responses
  // ---------------------------------------------------------------------

  /** The `attributes` of a resource; a duration the ISO 8601 parser cannot
      read is `None`. */
  datatype Attributes =
    | Tracks(title: string, isrc: string, duration: Option<IsoDuration>)
    | Albums(title: string, upc: string, duration: Option<IsoDuration>)
    | Artists(name: string)

  /** One resource object (`Data` in the source). */
  datatype Resource = Resource(id: string, attributes: Attributes)

  datatype QueryResult = QueryResult(data: Resource, included: Option<seq<Resource>>)
  datatype FilterQuery = FilterQuery(data: seq<Resource>)
  datatype RelationshipResults = RelationshipResults(next: Option<string>, included: seq<Resource>)

  /** The requests the client makes, by their parameters. */
  datatype TidalServer = TidalServer(
    track: (string, string) -> Response<QueryResult>,
    album: (string, string) -> Response<QueryResult>,
    artist: (string, string) -> Response<QueryResult>,
    artistAlbums: (string, string) -> Response<RelationshipResults>,
    page: string -> Response<RelationshipResults>,
    tracksByIsrc: (string, string) -> Response<FilterQuery>,
    albumsByUpc: (string, string) -> Response<FilterQuery>)

  /** `iso8601_to_seconds(..).unwrap()` / `.expect(..)`: an unparsable or
      unsupported duration panics. */
  function SecondsOrPanic(d: Option<IsoDuration>): (r: Result<U64, ApiError>)
    ensures r.Success? <==> d.Some? && DurationSeconds(d.value).Success?
    ensures r.Success? ==> r.value == DurationSeconds(d.value).value
    ensures r.Failure? ==> r.error.Panic?
  {
    if d.None? then Failure(Panic("iso8601 duration does not parse"))
    else
      var s := DurationSeconds(d.value);
      if s.Failure? then Failure(Panic("Duration does not follow iso8601."))
      else Success(s.value)
  }

  /** `included.expect(INCLUDE_ERR_MSG)`. */
  function IncludedOrPanic(included: Option<seq<Resource>>): (r: Result<seq<Resource>, ApiError>)
    ensures r.Success? <==> included.Some?
    ensures r.Success? ==> r.value == included.value
    ensures r.Failure? ==> r.error.Panic?
  {
    if included.None? then Failure(Panic("Request with include query parameter did not return included in response."))
    else Success(included.value)
  }

  /** The link guard of the data requests: a Tidal link of the given kind. */
  function Guard(link: ShareLinks.ShareLink, kind: ShareLinks.ShareObject): (r: Result<(), ApiError>)
    ensures r.Success? <==> link.linkType == ShareLinks.Tidal && link.shareObj == kind
    ensures r.Failure? ==> r.error == UnsuitableLink
  {
    if link.linkType != ShareLinks.Tidal || link.shareObj != kind then Failure(UnsuitableLink)
    else Success(())
  }

  // ---------------------------------------------------------------------
  // get_song_data
  // ---------------------------------------------------------------------

  /** The includes loop of `get_song_data`, from `items` on, with the albums
      and artists collected so far. */
  function SongIncludes(keys: Keys, items: seq<Resource>, albums: seq<AlbumData>, artists: seq<ArtistData>)
    : (r: Result<(seq<AlbumData>, seq<ArtistData>), ApiError>)
    ensures r.Failure? ==> r.error == IncorrectAttributes || r.error.Panic?
    ensures r.Success? ==> albums <= r.value.0 && artists <= r.value.1
    decreases |items|
  {
    if items == [] then Success((albums, artists))
    else
      match items[0].attributes
      case Tracks(_, _, _) => Failure(IncorrectAttributes)
      case Albums(title, upc, duration) =>
        var _ :- SecondsOrPanic(duration);
        SongIncludes(keys, items[1..], albums + [AlbumData.WithLimitedInfo(keys, title, upc)], artists)
      case Artists(name) =>
        SongIncludes(keys, items[1..], albums, artists + [ArtistData.WithoutAlbums(keys, name)])
  }

  /** `get_song_data`, as a function of the responses. */
  function SongDataOf(keys: Keys, server: TidalServer, link: ShareLinks.ShareLink): (r: Result<SongData, ApiError>)
    ensures link.linkType != ShareLinks.Tidal || link.shareObj != ShareLinks.Song ==> r == Failure(UnsuitableLink)
  {
    var _ :- Guard(link, ShareLinks.Song);
    var results :- Fetch(server.track(link.id, link.countryCode));
    match results.data.attributes
    case Tracks(title, isrc, duration) =>
      var seconds :- SecondsOrPanic(duration);
      var included :- IncludedOrPanic(results.included);
      var collected :- SongIncludes(keys, included, [], []);
      Success(SongData.New(keys, title, isrc, seconds, collected.0, collected.1))
    case _ => Failure(IncorrectAttributes)
  }

  /** Whether `get_song_data` accepts an included resource: albums whose
      duration converts, and artists; an included track is rejected. */
  predicate SongIncludeAccepted(item: Resource) {
    match item.attributes
    case Tracks(_, _, _) => false
    case Albums(_, _, duration) => SecondsOrPanic(duration).Success?
    case Artists(_) => true
  }

  /** The artist of each item, without albums, in order (reading other
      items as nothing). */
  function BareArtists(keys: Keys, items: seq<Resource>): seq<ArtistData>
  {
    if items == [] then []
    else
      (if items[0].attributes.Artists? then [ArtistData.WithoutAlbums(keys, items[0].attributes.name)] else [])
      + BareArtists(keys, items[1..])
  }

  /** The includes of a track are taken exactly when every one of them is
      accepted. */
  lemma {:induction false} SongIncludesSucceeds(keys: Keys, items: seq<Resource>, albums: seq<AlbumData>, artists: seq<ArtistData>)
    ensures SongIncludes(keys, items, albums, artists).Success?
        <==> forall k :: 0 <= k < |items| ==> SongIncludeAccepted(items[k])
    decreases |items|
  {
    if items != [] {
      assert forall k :: 1 <= k < |items| ==> items[1..][k - 1] == items[k];
      match items[0].attributes
      case Tracks(_, _, _) =>
      case Albums(title, upc, duration) =>
        SongIncludesSucceeds(keys, items[1..], albums + [AlbumData.WithLimitedInfo(keys, title, upc)], artists);
      case Artists(name) =>
        SongIncludesSucceeds(keys, items[1..], albums, artists + [ArtistData.WithoutAlbums(keys, name)]);
    }
  }

  /** Taken includes add every included album, with limited information,
      and every included artist, without albums, each in order. */
  lemma {:induction false} SongIncludesCollects(keys: Keys, items: seq<Resource>, albums: seq<AlbumData>, artists: seq<ArtistData>)
    ensures var r := SongIncludes(keys, items, albums, artists);
      r.Success? ==> r.value == (albums + LimitedAlbums(keys, items), artists + BareArtists(keys, items))
    decreases |items|
  {
    if items != [] {
      var a := items[0].attributes;
      if a.Albums? && SecondsOrPanic(a.duration).Success? {
        var album := AlbumData.WithLimitedInfo(keys, a.title, a.upc);
        SongIncludesCollects(keys, items[1..], albums + [album], artists);
        assert LimitedAlbums(keys, items) == [album] + LimitedAlbums(keys, items[1..]);
        assert BareArtists(keys, items) == BareArtists(keys, items[1..]);
        assert albums + [album] + LimitedAlbums(keys, items[1..]) == albums + LimitedAlbums(keys, items);
      } else if a.Artists? {
        var artist := ArtistData.WithoutAlbums(keys, a.name);
        SongIncludesCollects(keys, items[1..], albums, artists + [artist]);
        assert LimitedAlbums(keys, items) == LimitedAlbums(keys, items[1..]);
        assert BareArtists(keys, items) == [artist] + BareArtists(keys, items[1..]);
        assert artists + [artist] + BareArtists(keys, items[1..]) == artists + BareArtists(keys, items);
      } else {
        assert SongIncludes(keys, items, albums, artists).Failure?;
      }
    } else {
      assert albums + [] == albums && artists + [] == artists;
    }
  }


  /** `get_song_data` as written: the guard, the request, the attribute
      check, then a loop over the includes that pushes albums and artists
      and rejects included tracks. */
  method GetSongData(keys: Keys, server: TidalServer, link: ShareLinks.ShareLink)
    returns (r: Result<SongData, ApiError>)
    ensures r == SongDataOf(keys, server, link)
  {
    if link.linkType != ShareLinks.Tidal || link.shareObj != ShareLinks.Song {
      return Failure(UnsuitableLink);
    }
    var results :- Fetch(server.track(link.id, link.countryCode));
    if !results.data.attributes.Tracks? {
      return Failure(IncorrectAttributes);
    }
    var attrs := results.data.attributes;
    var seconds :- SecondsOrPanic(attrs.duration);
    var included :- IncludedOrPanic(results.included);
    var albums: seq<AlbumData> := [];
    var artists: seq<ArtistData> := [];
    var i := 0;
    while i < |included|
      invariant 0 <= i <= |included|
      invariant SongIncludes(keys, included[i..], albums, artists) == SongIncludes(keys, included, [], [])
    {
      assert included[i..][1..] == included[i + 1..];
      match included[i].attributes {
        case Tracks(_, _, _) =>
          return Failure(IncorrectAttributes);
        case Albums(title, upc, duration) =>
          var _ :- SecondsOrPanic(duration);
          albums := albums + [AlbumData.WithLimitedInfo(keys, title, upc)];
        case Artists(name) =>
          artists := artists + [ArtistData.WithoutAlbums(keys, name)];
      }
      i := i + 1;
    }
    return Success(SongData.New(keys, attrs.title, attrs.isrc, seconds, albums, artists));
  }

  // ---------------------------------------------------------------------
  // get_album_data
  // ---------------------------------------------------------------------

  /** The includes loop of `get_album_data`: tracks become album-less songs,
      artists album-less artists, included albums are skipped. */
  function AlbumIncludes(keys: Keys, items: seq<Resource>, songs: seq<SongData>, artists: seq<ArtistData>)
    : (r: Result<(seq<SongData>, seq<ArtistData>), ApiError>)
    ensures r.Failure? ==> r.error.Panic?
    ensures r.Success? ==> songs <= r.value.0 && artists <= r.value.1
    decreases |items|
  {
    if items == [] then Success((songs, artists))
    else
      match items[0].attributes
      case Artists(name) =>
        AlbumIncludes(keys, items[1..], songs, artists + [ArtistData.WithoutAlbums(keys, name)])
      case Tracks(title, isrc, duration) =>
        var seconds :- SecondsOrPanic(duration);
        AlbumIncludes(keys, items[1..], songs + [SongData.New(keys, title, isrc, seconds, [], [])], artists)
      case Albums(_, _, _) =>
        AlbumIncludes(keys, items[1..], songs, artists)
  }

  /** The includes of an album are taken exactly when every included track
      has a duration that converts. */
  lemma {:induction false} AlbumIncludesSucceeds(keys: Keys, items: seq<Resource>, songs: seq<SongData>, artists: seq<ArtistData>)
    ensures AlbumIncludes(keys, items, songs, artists).Success?
        <==> forall k :: 0 <= k < |items| && items[k].attributes.Tracks? ==> SecondsOrPanic(items[k].attributes.duration).Success?
    decreases |items|
  {
    if items != [] {
      assert forall k :: 1 <= k < |items| ==> items[1..][k - 1] == items[k];
      match items[0].attributes
      case Artists(name) =>
        AlbumIncludesSucceeds(keys, items[1..], songs, artists + [ArtistData.WithoutAlbums(keys, name)]);
      case Tracks(title, isrc, duration) =>
        if SecondsOrPanic(duration).Success? {
          var song := SongData.New(keys, title, isrc, SecondsOrPanic(duration).value, [], []);
          AlbumIncludesSucceeds(keys, items[1..], songs + [song], artists);
        }
      case Albums(_, _, _) =>
        AlbumIncludesSucceeds(keys, items[1..], songs, artists);
    }
  }

  /** `get_album_data`, as a function of the responses. */
  function AlbumDataOf(keys: Keys, server: TidalServer, link: ShareLinks.ShareLink): (r: Result<AlbumData, ApiError>)
    ensures link.linkType != ShareLinks.Tidal || link.shareObj != ShareLinks.Album ==> r == Failure(UnsuitableLink)
  {
    var _ :- Guard(link, ShareLinks.Album);
    var results :- Fetch(server.album(link.id, link.countryCode));
    match results.data.attributes
    case Albums(title, upc, duration) =>
      var _ :- SecondsOrPanic(duration);
      var included :- IncludedOrPanic(results.included);
      var collected :- AlbumIncludes(keys, included, [], []);
      Success(AlbumData.New(keys, title, upc, collected.0, collected.1))
    case _ => Failure(IncorrectAttributes)
  }

  /** `get_album_data` as written. */
  method GetAlbumData(keys: Keys, server: TidalServer, link: ShareLinks.ShareLink)
    returns (r: Result<AlbumData, ApiError>)
    ensures r == AlbumDataOf(keys, server, link)
  {
    if link.linkType != ShareLinks.Tidal || link.shareObj != ShareLinks.Album {
      return Failure(UnsuitableLink);
    }
    var results :- Fetch(server.album(link.id, link.countryCode));
    if !results.data.attributes.Albums? {
      return Failure(IncorrectAttributes);
    }
    var attrs := results.data.attributes;
    var _ :- SecondsOrPanic(attrs.duration);
    var included :- IncludedOrPanic(results.included);
    var songs: seq<SongData> := [];
    var artists: seq<ArtistData> := [];
    var i := 0;
    while i < |included|
      invariant 0 <= i <= |included|
      invariant AlbumIncludes(keys, included[i..], songs, artists) == AlbumIncludes(keys, included, [], [])
    {
      assert included[i..][1..] == included[i + 1..];
      match included[i].attributes {
        case Artists(name) =>
          artists := artists + [ArtistData.WithoutAlbums(keys, name)];
        case Tracks(title, isrc, duration) =>
          var seconds :- SecondsOrPanic(duration);
          songs := songs + [SongData.New(keys, title, isrc, seconds, [], [])];
        case Albums(_, _, _) =>
      }
      i := i + 1;
    }
    return Success(AlbumData.New(keys, attrs.title, attrs.upc, songs, artists));
  }

  // ---------------------------------------------------------------------
  // get_artist_data
  // ---------------------------------------------------------------------

  /** At most this many further pages are requested. */
  const MaxRequests: nat := 3

  /** The inner loop over one page: every item must be an album. */
  function PageAlbums(keys: Keys, items: seq<Resource>, albums: seq<AlbumData>): (r: Result<seq<AlbumData>, ApiError>)
    ensures r.Failure? ==> r.error == IncorrectAttributes || r.error.Panic?
    ensures r.Success? ==> albums <= r.value
    decreases |items|
  {
    if items == [] then Success(albums)
    else
      match items[0].attributes
      case Albums(title, upc, duration) =>
        var _ :- SecondsOrPanic(duration);
        PageAlbums(keys, items[1..], albums + [AlbumData.WithLimitedInfo(keys, title, upc)])
      case _ => Failure(IncorrectAttributes)
  }

  /** The album of each item of a page, in order (reading non-album items
      as nothing). */
  function LimitedAlbums(keys: Keys, items: seq<Resource>): seq<AlbumData>
  {
    if items == [] then []
    else
      (if items[0].attributes.Albums?
       then [AlbumData.WithLimitedInfo(keys, items[0].attributes.title, items[0].attributes.upc)]
       else [])
      + LimitedAlbums(keys, items[1..])
  }

  /** A page that decodes entirely into albums appends them in order. */
  lemma {:induction false} PageAlbumsCollects(keys: Keys, items: seq<Resource>, albums: seq<AlbumData>)
    ensures var r := PageAlbums(keys, items, albums);
      r.Success? ==> r.value == albums + LimitedAlbums(keys, items)
    decreases |items|
  {
    if items != [] && items[0].attributes.Albums? {
      var a := items[0].attributes;
      var album := AlbumData.WithLimitedInfo(keys, a.title, a.upc);
      if SecondsOrPanic(a.duration).Success? {
        PageAlbumsCollects(keys, items[1..], albums + [album]);
        assert LimitedAlbums(keys, items) == [album] + LimitedAlbums(keys, items[1..]);
        assert albums + [album] + LimitedAlbums(keys, items[1..]) == albums + LimitedAlbums(keys, items);
      }
    }
  }

  /** A page is taken exactly when every item on it is an album whose
      duration converts. */
  lemma {:induction false} PageAlbumsSucceeds(keys: Keys, items: seq<Resource>, albums: seq<AlbumData>)
    ensures PageAlbums(keys, items, albums).Success?
        <==> forall k :: 0 <= k < |items| ==> items[k].attributes.Albums? && SecondsOrPanic(items[k].attributes.duration).Success?
    decreases |items|
  {
    if items != [] {
      assert forall k :: 1 <= k < |items| ==> items[1..][k - 1] == items[k];
      var a := items[0].attributes;
      if a.Albums? && SecondsOrPanic(a.duration).Success? {
        PageAlbumsSucceeds(keys, items[1..], albums + [AlbumData.WithLimitedInfo(keys, a.title, a.upc)]);
      }
    }
  }

  /** The outer `loop`: the page's albums, then either stop (the request
      cap is reached, or there is no `next` link) or fetch the next page. */
  function Paginate(keys: Keys, server: TidalServer, results: RelationshipResults, counter: nat, albums: seq<AlbumData>)
    : (r: Result<seq<AlbumData>, ApiError>)
    requires counter <= MaxRequests
    ensures r.Success? ==> albums <= r.value
    decreases MaxRequests - counter
  {
    var collected :- PageAlbums(keys, results.included, albums);
    if counter == MaxRequests then Success(collected)
    else
      match results.next
      case None => Success(collected)
      case Some(link) =>
        var nextResults :- Fetch(server.page(link));
        Paginate(keys, server, nextResults, counter + 1, collected)
  }

  /** The pages the loop reads, starting from `results`: at most
      `MaxRequests - counter` of them are fetched. */
  function Pages(server: TidalServer, results: RelationshipResults, counter: nat): (ps: seq<RelationshipResults>)
    requires counter <= MaxRequests
    ensures 1 <= |ps| <= MaxRequests - counter + 1 && ps[0] == results
    decreases MaxRequests - counter
  {
    if counter == MaxRequests || results.next.None? || !server.page(results.next.value).Decoded? then [results]
    else [results] + Pages(server, server.page(results.next.value).body, counter + 1)
  }

  /** The albums of a sequence of pages, page by page. */
  function PagesAlbums(keys: Keys, ps: seq<RelationshipResults>): seq<AlbumData>
  {
    if ps == [] then [] else LimitedAlbums(keys, ps[0].included) + PagesAlbums(keys, ps[1..])
  }

  /** The pagination collects every album item of every page it reads, in
      page order, and reads at most `MaxRequests` pages after the first. */
  lemma {:induction false} PaginateCollectsPages(keys: Keys, server: TidalServer, results: RelationshipResults, counter: nat, albums: seq<AlbumData>)
    requires counter <= MaxRequests
    ensures var r := Paginate(keys, server, results, counter, albums);
      r.Success? ==> r.value == albums + PagesAlbums(keys, Pages(server, results, counter))
    decreases MaxRequests - counter
  {
    var r := Paginate(keys, server, results, counter, albums);
    var collected := PageAlbums(keys, results.included, albums);
    var ps := Pages(server, results, counter);
    var own := LimitedAlbums(keys, results.included);
    if r.Success? {
      assert collected.Success?;
      PageAlbumsCollects(keys, results.included, albums);
      assert collected.value == albums + own;
      if counter == MaxRequests || results.next.None? {
        assert ps == [results];
        assert PagesAlbums(keys, ps) == own + PagesAlbums(keys, []);
        assert r.value == collected.value;
      } else {
        var reply := server.page(results.next.value);
        assert reply.Decoded?;
        var rest := Pages(server, reply.body, counter + 1);
        assert ps == [results] + rest;
        assert ps[1..] == rest;
        assert PagesAlbums(keys, ps) == own + PagesAlbums(keys, rest);
        assert r == Paginate(keys, server, reply.body, counter + 1, collected.value);
        PaginateCollectsPages(keys, server, reply.body, counter + 1, collected.value);
        assert albums + own + PagesAlbums(keys, rest) == albums + (own + PagesAlbums(keys, rest));
      }
    }
  }


  /** `get_artist_data`, as a function of the responses. */
  function ArtistDataOf(keys: Keys, server: TidalServer, link: ShareLinks.ShareLink): (r: Result<ArtistData, ApiError>)
    ensures link.linkType != ShareLinks.Tidal || link.shareObj != ShareLinks.Artist ==> r == Failure(UnsuitableLink)
  {
    var _ :- Guard(link, ShareLinks.Artist);
    var results :- Fetch(server.artist(link.id, link.countryCode));
    match results.data.attributes
    case Artists(name) =>
      var first :- Fetch(server.artistAlbums(link.id, link.countryCode));
      var albums :- Paginate(keys, server, first, 0, []);
      Success(ArtistData.New(keys, name, albums))
    case _ => Failure(IncorrectAttributes)
  }

  /** `get_artist_data` as written: a `loop` over pages whose body pushes the
      page's albums, stops at the request cap or at the last page, and
      otherwise fetches the next page and counts the request. */
  method GetArtistData(keys: Keys, server: TidalServer, link: ShareLinks.ShareLink)
    returns (r: Result<ArtistData, ApiError>)
    ensures r == ArtistDataOf(keys, server, link)
  {
    if link.linkType != ShareLinks.Tidal || link.shareObj != ShareLinks.Artist {
      return Failure(UnsuitableLink);
    }
    var artistResults :- Fetch(server.artist(link.id, link.countryCode));
    if !artistResults.data.attributes.Artists? {
      return Failure(IncorrectAttributes);
    }
    var artistName := artistResults.data.attributes.name;
    var albums: seq<AlbumData> := [];
    var results :- Fetch(server.artistAlbums(link.id, link.countryCode));
    ghost var first := results;

    var requestCounter := 0;
    while true
      invariant requestCounter <= MaxRequests
      invariant Paginate(keys, server, results, requestCounter, albums) == Paginate(keys, server, first, 0, [])
      decreases MaxRequests - requestCounter
    {
      ghost var pageStart := albums;
      var j := 0;
      while j < |results.included|
        invariant 0 <= j <= |results.included|
        invariant PageAlbums(keys, results.included[j..], albums) == PageAlbums(keys, results.included, pageStart)
      {
        assert results.included[j..][1..] == results.included[j + 1..];
        var item := results.included[j];
        if !item.attributes.Albums? {
          return Failure(IncorrectAttributes);
        }
        var _ :- SecondsOrPanic(item.attributes.duration);
        albums := albums + [AlbumData.WithLimitedInfo(keys, item.attributes.title, item.attributes.upc)];
        j := j + 1;
      }

      if requestCounter == MaxRequests {
        break;
      }
      match results.next {
        case None =>
          break;
        case Some(next) =>
          var nextResults :- Fetch(server.page(next));
          requestCounter := requestCounter + 1;
          results := nextResults;
      }
    }
    return Success(ArtistData.New(keys, artistName, albums));
  }

  // ---------------------------------------------------------------------
  // get_song_link and get_album_link
  // ---------------------------------------------------------------------

  /** The link `ShareLink::new` builds for a candidate. */
  function CandidateLink(kind: ShareLinks.ShareObject, id: string, country: string): ShareLinks.ShareLink {
    ShareLinks.New(ShareLinks.Tidal, kind, id, country)
  }

  /** The candidate loop of `get_song_link` from `items` on: fetch each
      candidate (an error ends the search) and return the first that equals
      the source song, the fetched song on the left. */
  function FirstMatchingSong(keys: Keys, server: TidalServer, song: SongData, country: string, items: seq<Resource>)
    : (r: Result<ShareLinks.ShareLink, ApiError>)
    ensures r.Success? ==> exists k :: 0 <= k < |items| && r.value == CandidateLink(ShareLinks.Song, items[k].id, country)
    ensures r.Success? ==> SongDataOf(keys, server, r.value).Success?
    ensures r.Success? ==> SongMatches(SongDataOf(keys, server, r.value).value, song)
    ensures items == [] ==> r == Failure(UnsuccessfulConversion)
    decreases |items|
  {
    if items == [] then Failure(UnsuccessfulConversion)
    else
      var link := CandidateLink(ShareLinks.Song, items[0].id, country);
      var fetched :- SongDataOf(keys, server, link);
      if SongMatches(fetched, song) then Success(link)
      else
        var r := FirstMatchingSong(keys, server, song, country, items[1..]);
        assert r.Success? ==> exists k :: 0 <= k < |items| && r.value == CandidateLink(ShareLinks.Song, items[k].id, country) by {
          if r.Success? {
            var k :| 0 <= k < |items[1..]| && r.value == CandidateLink(ShareLinks.Song, items[1..][k].id, country);
            assert items[1..][k] == items[k + 1];
          }
        }
        r
  }

  /** Every candidate before the returned one was fetched and did not
      match. */
  lemma {:induction false} FirstMatchingSongIsFirst(keys: Keys, server: TidalServer, song: SongData, country: string, items: seq<Resource>, j: nat)
    requires j < |items|
    requires FirstMatchingSong(keys, server, song, country, items).Success?
    requires forall k :: 0 <= k <= j ==> items[k].id != FirstMatchingSong(keys, server, song, country, items).value.id
    ensures SongDataOf(keys, server, CandidateLink(ShareLinks.Song, items[j].id, country)).Success?
    ensures !SongMatches(SongDataOf(keys, server, CandidateLink(ShareLinks.Song, items[j].id, country)).value, song)
    decreases j
  {
    var r := FirstMatchingSong(keys, server, song, country, items);
    var fetched := SongDataOf(keys, server, CandidateLink(ShareLinks.Song, items[0].id, country));
    assert items[0].id != r.value.id;
    assert fetched.Success? && !SongMatches(fetched.value, song);
    if j > 0 {
      var rest := items[1..];
      assert r == FirstMatchingSong(keys, server, song, country, rest);
      assert forall k :: 0 <= k <= j - 1 ==> rest[k].id != r.value.id by {
        forall k | 0 <= k <= j - 1 ensures rest[k].id != r.value.id {
          assert rest[k] == items[k + 1];
        }
      }
      FirstMatchingSongIsFirst(keys, server, song, country, rest, j - 1);
      assert rest[j - 1] == items[j];
    }
  }

  /** A fetched candidate that does not equal the source song. */
  predicate SongRejected(keys: Keys, server: TidalServer, song: SongData, country: string, item: Resource) {
    var fetched := SongDataOf(keys, server, CandidateLink(ShareLinks.Song, item.id, country));
    fetched.Success? && !SongMatches(fetched.value, song)
  }

  /** When every candidate is fetched and none equals the source song, the
      search ends in `UnsuccessfulConversion`. */
  lemma {:induction false} FirstMatchingSongNoneMatch(keys: Keys, server: TidalServer, song: SongData, country: string, items: seq<Resource>)
    requires forall k :: 0 <= k < |items| ==> SongRejected(keys, server, song, country, items[k])
    ensures FirstMatchingSong(keys, server, song, country, items) == Failure(UnsuccessfulConversion)
    decreases |items|
  {
    if items != [] {
      assert forall k :: 0 <= k < |items| - 1 ==> items[1..][k] == items[k + 1];
      FirstMatchingSongNoneMatch(keys, server, song, country, items[1..]);
    }
  }

  /** When the candidates before `j` are fetched and rejected and candidate
      `j` cannot be fetched, the search returns that fetch's error. */
  lemma {:induction false} FirstMatchingSongFetchError(keys: Keys, server: TidalServer, song: SongData, country: string, items: seq<Resource>, j: nat)
    requires j < |items|
    requires forall k :: 0 <= k < j ==> SongRejected(keys, server, song, country, items[k])
    requires SongDataOf(keys, server, CandidateLink(ShareLinks.Song, items[j].id, country)).Failure?
    ensures FirstMatchingSong(keys, server, song, country, items)
         == Failure(SongDataOf(keys, server, CandidateLink(ShareLinks.Song, items[j].id, country)).error)
    decreases j
  {
    if j > 0 {
      assert forall k :: 0 <= k < j - 1 ==> items[1..][k] == items[k + 1];
      assert items[1..][j - 1] == items[j];
      assert SongRejected(keys, server, song, country, items[0]);
      FirstMatchingSongFetchError(keys, server, song, country, items[1..], j - 1);
    }
  }


  /** `get_song_link`, as a function of the responses. */
  function SongLinkOf(keys: Keys, server: TidalServer, song: SongData, country: string)
    : (r: Result<ShareLinks.ShareLink, ApiError>)
    ensures r.Success? ==> r.value.linkType == ShareLinks.Tidal && r.value.shareObj == ShareLinks.Song
    ensures r.Success? ==> r.value.countryCode == country
    ensures r.Success? ==> SongDataOf(keys, server, r.value).Success?
    ensures r.Success? ==> SongMatches(SongDataOf(keys, server, r.value).value, song)
    ensures var reply := server.tracksByIsrc(country, song.isrc);
      reply.Decoded? && reply.body.data == [] ==> r == Failure(UnsuccessfulConversion)
  {
    var results :- Fetch(server.tracksByIsrc(country, song.isrc));
    FirstMatchingSong(keys, server, song, country, results.data)
  }

  /** `get_song_link` ends in `UnsuccessfulConversion` when the ISRC filter
      answers and every candidate it lists is fetched and rejected. */
  lemma SongLinkNoneMatch(keys: Keys, server: TidalServer, song: SongData, country: string)
    requires server.tracksByIsrc(country, song.isrc).Decoded?
    requires var items := server.tracksByIsrc(country, song.isrc).body.data;
      forall k :: 0 <= k < |items| ==> SongRejected(keys, server, song, country, items[k])
    ensures SongLinkOf(keys, server, song, country) == Failure(UnsuccessfulConversion)
  {
    FirstMatchingSongNoneMatch(keys, server, song, country, server.tracksByIsrc(country, song.isrc).body.data);
  }

  /** `get_song_link` as written: the ISRC filter request, then a loop that
      fetches each candidate and returns the first equal one. */
  method GetSongLink(keys: Keys, server: TidalServer, song: SongData, country: string)
    returns (r: Result<ShareLinks.ShareLink, ApiError>)
    ensures r == SongLinkOf(keys, server, song, country)
  {
    var results :- Fetch(server.tracksByIsrc(country, song.isrc));
    var i := 0;
    while i < |results.data|
      invariant 0 <= i <= |results.data|
      invariant FirstMatchingSong(keys, server, song, country, results.data[i..])
             == FirstMatchingSong(keys, server, song, country, results.data)
    {
      assert results.data[i..][1..] == results.data[i + 1..];
      var shareLink := CandidateLink(ShareLinks.Song, results.data[i].id, country);
      var sd :- GetSongData(keys, server, shareLink);
      if SongMatches(sd, song) {
        return Success(shareLink);
      }
      i := i + 1;
    }
    return Failure(UnsuccessfulConversion);
  }

  /** `get_album_data(..).await.unwrap()`: an error is a panic. */
  function Unwrapped<T>(r: Result<T, ApiError>): (u: Result<T, ApiError>)
    ensures u.Success? <==> r.Success?
    ensures u.Success? ==> u.value == r.value
    ensures u.Failure? ==> u.error.Panic?
  {
    if r.Failure? then Failure(Panic("called `Result::unwrap()` on an `Err` value")) else r
  }

  /** The candidate loop of `get_album_link`: as for songs, but a failed
      fetch panics and the comparison is album equality. */
  function FirstMatchingAlbum(keys: Keys, server: TidalServer, album: AlbumData, country: string, items: seq<Resource>)
    : (r: Result<ShareLinks.ShareLink, ApiError>)
    ensures r.Success? ==> exists k :: 0 <= k < |items| && r.value == CandidateLink(ShareLinks.Album, items[k].id, country)
    ensures r.Success? ==> AlbumDataOf(keys, server, r.value).Success?
    ensures r.Success? ==> AlbumMatches(AlbumDataOf(keys, server, r.value).value, album)
    ensures items == [] ==> r == Failure(UnsuccessfulConversion)
    decreases |items|
  {
    if items == [] then Failure(UnsuccessfulConversion)
    else
      var link := CandidateLink(ShareLinks.Album, items[0].id, country);
      var fetched :- Unwrapped(AlbumDataOf(keys, server, link));
      if AlbumMatches(fetched, album) then Success(link)
      else
        var r := FirstMatchingAlbum(keys, server, album, country, items[1..]);
        assert r.Success? ==> exists k :: 0 <= k < |items| && r.value == CandidateLink(ShareLinks.Album, items[k].id, country) by {
          if r.Success? {
            var k :| 0 <= k < |items[1..]| && r.value == CandidateLink(ShareLinks.Album, items[1..][k].id, country);
            assert items[1..][k] == items[k + 1];
          }
        }
        r
  }

  /** A fetched candidate that does not equal the source album. */
  predicate AlbumRejected(keys: Keys, server: TidalServer, album: AlbumData, country: string, item: Resource) {
    var fetched := AlbumDataOf(keys, server, CandidateLink(ShareLinks.Album, item.id, country));
    fetched.Success? && !AlbumMatches(fetched.value, album)
  }

  /** Every candidate before the returned one was fetched and did not
      match. */
  lemma {:induction false} FirstMatchingAlbumIsFirst(keys: Keys, server: TidalServer, album: AlbumData, country: string, items: seq<Resource>, j: nat)
    requires j < |items|
    requires FirstMatchingAlbum(keys, server, album, country, items).Success?
    requires forall k :: 0 <= k <= j ==> items[k].id != FirstMatchingAlbum(keys, server, album, country, items).value.id
    ensures AlbumRejected(keys, server, album, country, items[j])
    decreases j
  {
    var r := FirstMatchingAlbum(keys, server, album, country, items);
    FirstMatchingAlbumSkips(keys, server, album, country, items);
    if j > 0 {
      var rest := items[1..];
      assert forall k :: 0 <= k <= j - 1 ==> rest[k].id != r.value.id by {
        forall k | 0 <= k <= j - 1 ensures rest[k].id != r.value.id {
          assert rest[k] == items[k + 1];
        }
      }
      FirstMatchingAlbumIsFirst(keys, server, album, country, rest, j - 1);
      assert rest[j - 1] == items[j];
    }
  }

  /** A successful search that does not return the first candidate
      rejected it and returned what the rest of the list gives. */
  lemma FirstMatchingAlbumSkips(keys: Keys, server: TidalServer, album: AlbumData, country: string, items: seq<Resource>)
    requires items != []
    requires FirstMatchingAlbum(keys, server, album, country, items).Success?
    requires items[0].id != FirstMatchingAlbum(keys, server, album, country, items).value.id
    ensures AlbumRejected(keys, server, album, country, items[0])
    ensures FirstMatchingAlbum(keys, server, album, country, items) == FirstMatchingAlbum(keys, server, album, country, items[1..])
  {}

  /** When every candidate is fetched and none equals the source album,
      the search ends in `UnsuccessfulConversion`. */
  lemma {:induction false} FirstMatchingAlbumNoneMatch(keys: Keys, server: TidalServer, album: AlbumData, country: string, items: seq<Resource>)
    requires forall k :: 0 <= k < |items| ==> AlbumRejected(keys, server, album, country, items[k])
    ensures FirstMatchingAlbum(keys, server, album, country, items) == Failure(UnsuccessfulConversion)
    decreases |items|
  {
    if items != [] {
      assert forall k :: 0 <= k < |items| - 1 ==> items[1..][k] == items[k + 1];
      FirstMatchingAlbumNoneMatch(keys, server, album, country, items[1..]);
    }
  }

  /** When the candidates before `j` are fetched and rejected and candidate
      `j` cannot be fetched, the search panics, as the `unwrap` does. */
  lemma {:induction false} FirstMatchingAlbumFetchPanics(keys: Keys, server: TidalServer, album: AlbumData, country: string, items: seq<Resource>, j: nat)
    requires j < |items|
    requires forall k :: 0 <= k < j ==> AlbumRejected(keys, server, album, country, items[k])
    requires AlbumDataOf(keys, server, CandidateLink(ShareLinks.Album, items[j].id, country)).Failure?
    ensures FirstMatchingAlbum(keys, server, album, country, items).Failure?
    ensures FirstMatchingAlbum(keys, server, album, country, items).error.Panic?
    decreases j
  {
    if j > 0 {
      assert forall k :: 0 <= k < j - 1 ==> items[1..][k] == items[k + 1];
      assert items[1..][j - 1] == items[j];
      assert AlbumRejected(keys, server, album, country, items[0]);
      FirstMatchingAlbumFetchPanics(keys, server, album, country, items[1..], j - 1);
    }
  }

  /** `get_album_link`, as a function of the responses. */
  function AlbumLinkOf(keys: Keys, server: TidalServer, album: AlbumData, country: string)
    : (r: Result<ShareLinks.ShareLink, ApiError>)
    ensures r.Success? ==> r.value.linkType == ShareLinks.Tidal && r.value.shareObj == ShareLinks.Album
    ensures r.Success? ==> r.value.countryCode == country
    ensures r.Success? ==> AlbumDataOf(keys, server, r.value).Success?
    ensures r.Success? ==> AlbumMatches(AlbumDataOf(keys, server, r.value).value, album)
    ensures var reply := server.albumsByUpc(country, album.upc);
      reply.Decoded? && reply.body.data == [] ==> r == Failure(UnsuccessfulConversion)
  {
    var results :- Fetch(server.albumsByUpc(country, album.upc));
    FirstMatchingAlbum(keys, server, album, country, results.data)
  }

  /** `get_album_link` ends in `UnsuccessfulConversion` when the UPC filter
      answers and every candidate it lists is fetched and rejected. */
  lemma AlbumLinkNoneMatch(keys: Keys, server: TidalServer, album: AlbumData, country: string)
    requires server.albumsByUpc(country, album.upc).Decoded?
    requires var items := server.albumsByUpc(country, album.upc).body.data;
      forall k :: 0 <= k < |items| ==> AlbumRejected(keys, server, album, country, items[k])
    ensures AlbumLinkOf(keys, server, album, country) == Failure(UnsuccessfulConversion)
  {
    FirstMatchingAlbumNoneMatch(keys, server, album, country, server.albumsByUpc(country, album.upc).body.data);
  }

  /** `get_album_link` as written. */
  method GetAlbumLink(keys: Keys, server: TidalServer, album: AlbumData, country: string)
    returns (r: Result<ShareLinks.ShareLink, ApiError>)
    ensures r == AlbumLinkOf(keys, server, album, country)
  {
    var results :- Fetch(server.albumsByUpc(country, album.upc));
    var i := 0;
    while i < |results.data|
      invariant 0 <= i <= |results.data|
      invariant FirstMatchingAlbum(keys, server, album, country, results.data[i..])
             == FirstMatchingAlbum(keys, server, album, country, results.data)
    {
      assert results.data[i..][1..] == results.data[i + 1..];
      var shareLink := CandidateLink(ShareLinks.Album, results.data[i].id, country);
      var fetched := GetAlbumData(keys, server, shareLink);
      var ad :- Unwrapped(fetched);
      if AlbumMatches(ad, album) {
        return Success(shareLink);
      }
      i := i + 1;
    }
    return Failure(UnsuccessfulConversion);
  }

  // ---------------------------------------------------------------------
  // get_bearer_token
  // ---------------------------------------------------------------------

  const AuthEndpoint: string := "https://auth.tidal.com/v1/oauth2/token"

  /** `get_bearer_token`: the cached token while it is live, otherwise a
      refresh whose error is returned. */
  method GetBearerToken(token: AccessToken, now: nat, endpoint: TokenEndpoint)
    returns (r: Result<string, ApiError>)
    modifies token
    ensures !old(token.IsExpired(now)) ==> r == Success(old(token.token)) && unchanged(token)
    ensures old(token.IsExpired(now)) ==>
      var issued := Issue(now, endpoint(old(token.authEndpoint)));
      && (issued.Success? ==> r == Success(issued.value.0) && (token.token, token.expiry) == issued.value)
      && (issued.Failure? ==> r == Failure(TokenUnavailable(issued.error)))
      && (issued.Failure? ==> token.token == old(token.token) && token.expiry == old(token.expiry))
    ensures token.authEndpoint == old(token.authEndpoint)
    ensures r.Success? ==> r.value == token.token
    ensures var reply := endpoint(old(token.authEndpoint));
      reply.Decoded? && reply.body.expiresIn > 5 ==> !token.IsExpired(now)
  {
    if !token.IsExpired(now) {
      return Success(token.token);
    }
    var refreshed := token.Refresh(now, endpoint);
    if refreshed.Failure? {
      return Failure(TokenUnavailable(refreshed.error));
    }
    return Success(token.token);
  }
}
