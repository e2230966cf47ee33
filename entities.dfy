/** The shared items (`shared_item/song.rs`, `album.rs`, `artist.rs`): songs,
    albums and artists as found on one platform, and the fuzzy equalities
    under which an item found on one platform is taken to be the same as an
    item found on another. The three types refer to each other and so do
    their equalities, so they share one module. */
module Entities {
  import opened Norm

  /** The normalisers the constructors apply to the names they are given,
      as values: song titles, album titles and artist names. */
  datatype Keys = Keys(songTitle: string -> string, albumTitle: string -> string, artistName: string -> string)

  /** The normalisers of `norm.rs` under the given rules. Every stored song
      or album key is then folded (collapsed whitespace, nothing at either
      end), and two artist names listing the same artists, in any order
      and with repetitions, get the same key. */
  function KeysFor(rules: Rules): (keys: Keys)
    ensures forall s :: Folded(keys.songTitle(s)) && Folded(keys.albumTitle(s))
    ensures forall x, y :: SameArtistTokens(rules, x, y) ==> keys.artistName(x) == keys.artistName(y)
  {
    ArtistKeysAgree(rules);
    Keys(s => NormalizeSongTitle(rules, s), s => NormalizeAlbumTitle(rules, s), s => ArtistNameKey(rules, s))
  }

  /** `u64`, the type of a song's duration in seconds. */
  const U64Modulus: int := 0x1_0000_0000_0000_0000
  type U64 = x: int | 0 <= x < U64Modulus

  datatype SongData = SongData(
    displayName: string,
    normName: string,
    isrc: string,
    duration: U64,
    albums: seq<AlbumData>,
    artists: seq<ArtistData>)
  {
    /** `SongData::new`: the title's normalised key is stored beside it; all
        other fields are copied. */
    static function New(keys: Keys, name: string, isrc: string, duration: U64,
                        albums: seq<AlbumData>, artists: seq<ArtistData>): (s: SongData)
      ensures s.displayName == name && s.isrc == isrc && s.duration == duration
      ensures s.albums == albums && s.artists == artists
      ensures s.normName == keys.songTitle(name)
    {
      SongData(name, keys.songTitle(name), isrc, duration, albums, artists)
    }

    /** `PartialEq for SongData`: flags set one by one, two scanning loops
        that stop at the first shared album and artist, then the decision. */
    method Eq(other: SongData) returns (r: bool)
      ensures r == SongMatches(this, other)
    {
      var nameMatch := true;
      var durMatch := true;
      var isrcMatch := |isrc| != 0;
      var albumMatch := false;
      var artistMatch := false;

      if isrc != other.isrc {
        isrcMatch := false;
      }
      if normName != other.normName {
        nameMatch := false;
      }
      if !DurationsClose(duration, other.duration) {
        durMatch := false;
      }

      var i := 0;
      while i < |albums|
        invariant 0 <= i <= |albums|
        invariant !albumMatch && CountAlbumsIn(albums[..i], other.albums) == 0
      {
        assert albums[..i + 1][..i] == albums[..i];
        if ContainsAlbum(other.albums, albums[i]) {
          albumMatch := true;
          CountPrefixAlbums(albums, other.albums, i + 1);
          break;
        }
        i := i + 1;
      }
      if !albumMatch {
        assert albums[..i] == albums;
      }

      var j := 0;
      while j < |artists|
        invariant 0 <= j <= |artists|
        invariant !artistMatch && CountArtistsIn(artists[..j], other.artists) == 0
      {
        assert artists[..j + 1][..j] == artists[..j];
        if ContainsArtist(other.artists, artists[j]) {
          artistMatch := true;
          CountPrefixArtists(artists, other.artists, j + 1);
          break;
        }
        j := j + 1;
      }
      if !artistMatch {
        assert artists[..j] == artists;
      }

      var mdataMatch := nameMatch && albumMatch && artistMatch;
      if isrcMatch && durMatch {
        return true;
      }
      if isrcMatch && mdataMatch {
        return true;
      }
      return false;
    }
  }

  datatype AlbumData = AlbumData(
    displayName: string,
    normName: string,
    songs: seq<SongData>,
    artists: seq<ArtistData>,
    upc: string)
  {
    /** `AlbumData::new`. */
    static function New(keys: Keys, name: string, upc: string,
                        songs: seq<SongData>, artists: seq<ArtistData>): (a: AlbumData)
      ensures a.displayName == name && a.upc == upc && a.songs == songs && a.artists == artists
      ensures a.normName == keys.albumTitle(name)
    {
      AlbumData(name, keys.albumTitle(name), songs, artists, upc)
    }

    /** `AlbumData::with_limited_info`: a title and a UPC, nothing else. */
    static function WithLimitedInfo(keys: Keys, name: string, upc: string): (a: AlbumData)
      ensures a.displayName == name && a.upc == upc && a.songs == [] && a.artists == []
      ensures a.normName == keys.albumTitle(name)
    {
      AlbumData(name, keys.albumTitle(name), [], [], upc)
    }

    /** `PartialEq for AlbumData`: the UPC rule, the title rule, a loop
        counting the songs found on the other side, then a scan of the
        artists that returns at the first shared one. */
    method Eq(other: AlbumData) returns (r: bool)
      ensures r == AlbumMatches(this, other)
    {
      if |upc| > 0 {
        if upc == other.upc {
          return true;
        }
        return false;
      }
      if normName != other.normName {
        return false;
      }

      var reqSongMatchCount := Ceil90(Max(|songs|, |other.songs|));
      var songMatchCount := 0;
      var i := 0;
      while i < |songs|
        invariant 0 <= i <= |songs|
        invariant songMatchCount == CountSongsIn(songs[..i], other.songs)
      {
        assert songs[..i + 1][..i] == songs[..i];
        if ContainsSong(other.songs, songs[i]) {
          songMatchCount := songMatchCount + 1;
        }
        i := i + 1;
      }
      assert songs[..i] == songs;
      if songMatchCount < reqSongMatchCount {
        return false;
      }

      var j := 0;
      while j < |artists|
        invariant 0 <= j <= |artists|
        invariant CountArtistsIn(artists[..j], other.artists) == 0
      {
        assert artists[..j + 1][..j] == artists[..j];
        if ContainsArtist(other.artists, artists[j]) {
          CountPrefixArtists(artists, other.artists, j + 1);
          return true;
        }
        j := j + 1;
      }
      assert artists[..j] == artists;
      return false;
    }
  }

  datatype ArtistData = ArtistData(
    displayName: string,
    normName: string,
    albums: seq<AlbumData>)
  {
    /** `ArtistData::new`. */
    static function New(keys: Keys, name: string, albums: seq<AlbumData>): (a: ArtistData)
      ensures a.displayName == name && a.albums == albums
      ensures a.normName == keys.artistName(name)
    {
      ArtistData(name, keys.artistName(name), albums)
    }

    /** `ArtistData::without_albums`. */
    static function WithoutAlbums(keys: Keys, name: string): (a: ArtistData)
      ensures a.displayName == name && a.albums == []
      ensures a.normName == keys.artistName(name)
    {
      ArtistData(name, keys.artistName(name), [])
    }

    /** `add_album`: one copy of the album appended; the names stay. */
    function AddAlbum(album: AlbumData): (a: ArtistData)
      ensures a.displayName == displayName && a.normName == normName
      ensures a.albums == albums + [album]
    {
      this.(albums := albums + [album])
    }

    /** `add_multiple_albums`: all given albums appended in order. */
    function AddMultipleAlbums(more: seq<AlbumData>): (a: ArtistData)
      ensures a.displayName == displayName && a.normName == normName
      ensures a.albums == albums + more
    {
      this.(albums := albums + more)
    }

    /** `PartialEq for ArtistData`: names decide when either side has no
        albums; otherwise a loop counts the albums found on the other side
        and returns as soon as the count reaches half the shorter list. */
    method Eq(other: ArtistData) returns (r: bool)
      ensures r == ArtistMatches(this, other)
    {
      if |albums| == 0 || |other.albums| == 0 {
        if normName != other.normName {
          return false;
        }
        return true;
      }
      var reqAlbumMatchCount := Half(Min(|albums|, |other.albums|));
      HalfOfPositive(Min(|albums|, |other.albums|));
      var albumMatchCount := 0;
      var i := 0;
      while i < |albums|
        invariant 0 <= i <= |albums|
        invariant albumMatchCount == CountAlbumsIn(albums[..i], other.albums)
        invariant albumMatchCount < reqAlbumMatchCount
      {
        assert albums[..i + 1][..i] == albums[..i];
        if ContainsAlbum(other.albums, albums[i]) {
          albumMatchCount := albumMatchCount + 1;
          if albumMatchCount >= reqAlbumMatchCount {
            CountPrefixAlbums(albums, other.albums, i + 1);
            return true;
          }
        }
        i := i + 1;
      }
      assert albums[..i] == albums;
      return false;
    }
  }

  // ---------------------------------------------------------------------
  // Thresholds
  // ---------------------------------------------------------------------

  function Max(a: nat, b: nat): nat { if a >= b then a else b }
  function Min(a: nat, b: nat): nat { if a <= b then a else b }

  /** `(n as f64 * 0.9).ceil() as usize`, taken as the exact ceiling of
      nine tenths. */
  function Ceil90(n: nat): (c: nat)
    ensures 10 * c >= 9 * n && 10 * c < 9 * n + 10
  {
    (9 * n + 9) / 10
  }

  /** `(n as f64 * 0.5).ceil() as usize`, taken as the exact ceiling of one
      half. */
  function Half(n: nat): (h: nat)
    ensures 2 * h >= n && 2 * h < n + 2
  {
    (n + 1) / 2
  }

  /** With both album lists non-empty, at least one shared album is always
      needed. */
  lemma HalfOfPositive(n: nat)
    requires n >= 1
    ensures Half(n) >= 1
  {}

  // ---------------------------------------------------------------------
  // Durations
  // ---------------------------------------------------------------------

  /** Durations at most two seconds apart. */
  predicate DurationsClose(mine: U64, theirs: U64) {
    theirs - 2 <= mine <= theirs + 2
  }

  /** The duration test as written, on `u64`: `theirs - 2` and `theirs + 2`
      wrap around (as in a release build; a debug build panics instead). */
  predicate DurationsCloseAsWritten(mine: U64, theirs: U64) {
    mine >= (theirs - 2) % U64Modulus && mine <= (theirs + 2) % U64Modulus
  }

  /** Away from both ends of the `u64` range the written test is the
      intended one. */
  lemma DurationTestAgreesInRange(mine: U64, theirs: U64)
    requires 2 <= theirs < U64Modulus - 2
    ensures DurationsCloseAsWritten(mine, theirs) <==> DurationsClose(mine, theirs)
  {}

  /** A song of one second does not match itself on duration as written:
      `1 - 2` wraps to the largest `u64`. */
  lemma ShortSongFailsDurationTest()
    ensures !DurationsCloseAsWritten(1, 1)
    ensures DurationsClose(1, 1)
  {}

  /** The intended test is symmetric and reflexive. */
  lemma DurationsCloseSymmetric(x: U64, y: U64)
    ensures DurationsClose(x, y) <==> DurationsClose(y, x)
    ensures DurationsClose(x, x)
  {}

  // ---------------------------------------------------------------------
  // Equality, as functions
  // ---------------------------------------------------------------------

  /** Sizes of the finite trees, for termination of the equalities. */
  function SongSize(s: SongData): (n: nat)
    ensures n >= 1
  {
    1 + AlbumsSize(s.albums) + ArtistsSize(s.artists)
  }

  function AlbumSize(a: AlbumData): (n: nat)
    ensures n >= 1
  {
    1 + SongsSize(a.songs) + ArtistsSize(a.artists)
  }

  function ArtistSize(a: ArtistData): (n: nat)
    ensures n >= 1
  {
    1 + AlbumsSize(a.albums)
  }

  function SongsSize(xs: seq<SongData>): nat {
    if xs == [] then 0 else SongsSize(xs[..|xs| - 1]) + SongSize(xs[|xs| - 1])
  }

  function AlbumsSize(xs: seq<AlbumData>): nat {
    if xs == [] then 0 else AlbumsSize(xs[..|xs| - 1]) + AlbumSize(xs[|xs| - 1])
  }

  function ArtistsSize(xs: seq<ArtistData>): nat {
    if xs == [] then 0 else ArtistsSize(xs[..|xs| - 1]) + ArtistSize(xs[|xs| - 1])
  }

  /** `other == self` for songs (the definition of `PartialEq for SongData`). */
  predicate SongMatches(a: SongData, b: SongData)
    decreases SongSize(a) + SongSize(b), 0
  {
    var isrcMatch := a.isrc != [] && a.isrc == b.isrc;
    var mdataMatch := a.normName == b.normName
      && CountAlbumsIn(a.albums, b.albums) > 0 && CountArtistsIn(a.artists, b.artists) > 0;
    isrcMatch && (DurationsClose(a.duration, b.duration) || mdataMatch)
  }

  /** `PartialEq for AlbumData`. */
  predicate AlbumMatches(a: AlbumData, b: AlbumData)
    decreases AlbumSize(a) + AlbumSize(b), 0
  {
    if a.upc != [] then a.upc == b.upc
    else if a.normName != b.normName then false
    else if CountSongsIn(a.songs, b.songs) < Ceil90(Max(|a.songs|, |b.songs|)) then false
    else CountArtistsIn(a.artists, b.artists) > 0
  }

  /** `PartialEq for ArtistData`. */
  predicate ArtistMatches(a: ArtistData, b: ArtistData)
    decreases ArtistSize(a) + ArtistSize(b), 0
  {
    if |a.albums| == 0 || |b.albums| == 0 then a.normName == b.normName
    else CountAlbumsIn(a.albums, b.albums) >= Half(Min(|a.albums|, |b.albums|))
  }

  /** `hay.contains(x)`: some element `e` of `hay` has `e == x`, the element
      on the left. */
  predicate ContainsSong(hay: seq<SongData>, x: SongData)
    decreases SongsSize(hay) + SongSize(x), 1
  {
    hay != [] && (ContainsSong(hay[..|hay| - 1], x) || SongMatches(hay[|hay| - 1], x))
  }

  predicate ContainsAlbum(hay: seq<AlbumData>, x: AlbumData)
    decreases AlbumsSize(hay) + AlbumSize(x), 1
  {
    hay != [] && (ContainsAlbum(hay[..|hay| - 1], x) || AlbumMatches(hay[|hay| - 1], x))
  }

  predicate ContainsArtist(hay: seq<ArtistData>, x: ArtistData)
    decreases ArtistsSize(hay) + ArtistSize(x), 1
  {
    hay != [] && (ContainsArtist(hay[..|hay| - 1], x) || ArtistMatches(hay[|hay| - 1], x))
  }

  /** How many elements of `xs` are contained in `ys`. */
  function CountSongsIn(xs: seq<SongData>, ys: seq<SongData>): nat
    decreases SongsSize(xs) + SongsSize(ys), 2
  {
    if xs == [] then 0
    else CountSongsIn(xs[..|xs| - 1], ys) + (if ContainsSong(ys, xs[|xs| - 1]) then 1 else 0)
  }

  function CountAlbumsIn(xs: seq<AlbumData>, ys: seq<AlbumData>): nat
    decreases AlbumsSize(xs) + AlbumsSize(ys), 2
  {
    if xs == [] then 0
    else CountAlbumsIn(xs[..|xs| - 1], ys) + (if ContainsAlbum(ys, xs[|xs| - 1]) then 1 else 0)
  }

  function CountArtistsIn(xs: seq<ArtistData>, ys: seq<ArtistData>): nat
    decreases ArtistsSize(xs) + ArtistsSize(ys), 2
  {
    if xs == [] then 0
    else CountArtistsIn(xs[..|xs| - 1], ys) + (if ContainsArtist(ys, xs[|xs| - 1]) then 1 else 0)
  }

  /** Counting a prefix never gives more than counting the whole list. */
  lemma {:induction false} CountPrefixAlbums(xs: seq<AlbumData>, ys: seq<AlbumData>, i: nat)
    requires i <= |xs|
    ensures CountAlbumsIn(xs[..i], ys) <= CountAlbumsIn(xs, ys)
    decreases |xs|
  {
    if i < |xs| {
      var init := xs[..|xs| - 1];
      assert init[..i] == xs[..i];
      CountPrefixAlbums(init, ys, i);
    } else {
      assert xs[..i] == xs;
    }
  }

  lemma {:induction false} CountPrefixArtists(xs: seq<ArtistData>, ys: seq<ArtistData>, i: nat)
    requires i <= |xs|
    ensures CountArtistsIn(xs[..i], ys) <= CountArtistsIn(xs, ys)
    decreases |xs|
  {
    if i < |xs| {
      var init := xs[..|xs| - 1];
      assert init[..i] == xs[..i];
      CountPrefixArtists(init, ys, i);
    } else {
      assert xs[..i] == xs;
    }
  }

  /** A count is positive exactly when some element is contained. */
  lemma {:induction false} CountArtistsPositive(xs: seq<ArtistData>, ys: seq<ArtistData>)
    ensures CountArtistsIn(xs, ys) > 0 <==> exists k :: 0 <= k < |xs| && ContainsArtist(ys, xs[k])
    decreases |xs|
  {
    if xs != [] {
      var init := xs[..|xs| - 1];
      CountArtistsPositive(init, ys);
      assert forall k :: 0 <= k < |init| ==> init[k] == xs[k];
    }
  }

  lemma {:induction false} CountAlbumsPositive(xs: seq<AlbumData>, ys: seq<AlbumData>)
    ensures CountAlbumsIn(xs, ys) > 0 <==> exists k :: 0 <= k < |xs| && ContainsAlbum(ys, xs[k])
    decreases |xs|
  {
    if xs != [] {
      var init := xs[..|xs| - 1];
      CountAlbumsPositive(init, ys);
      assert forall k :: 0 <= k < |init| ==> init[k] == xs[k];
    }
  }

  /** The count never exceeds the length of the counted list. */
  lemma {:induction false} CountSongsBound(xs: seq<SongData>, ys: seq<SongData>)
    ensures CountSongsIn(xs, ys) <= |xs|
    decreases |xs|
  {
    if xs != [] {
      CountSongsBound(xs[..|xs| - 1], ys);
    }
  }

  // ---------------------------------------------------------------------
  // Properties of the equalities
  // ---------------------------------------------------------------------

  /** Equal songs share a non-empty ISRC. */
  lemma SongMatchNeedsIsrc(a: SongData, b: SongData)
    requires SongMatches(a, b)
    ensures a.isrc != [] && a.isrc == b.isrc
  {}

  /** A shared non-empty ISRC and durations at most two seconds apart make
      two songs equal. */
  lemma IsrcAndDurationSuffice(a: SongData, b: SongData)
    requires a.isrc != [] && a.isrc == b.isrc
    requires DurationsClose(a.duration, b.duration)
    ensures SongMatches(a, b)
  {}

  /** A shared non-empty ISRC, equal titles, one shared album and one shared
      artist make two songs equal, whatever their durations. */
  lemma IsrcAndMetadataSuffice(a: SongData, b: SongData, i: nat, j: nat)
    requires a.isrc != [] && a.isrc == b.isrc && a.normName == b.normName
    requires i < |a.albums| && ContainsAlbum(b.albums, a.albums[i])
    requires j < |a.artists| && ContainsArtist(b.artists, a.artists[j])
    ensures SongMatches(a, b)
  {
    CountAlbumsPositive(a.albums, b.albums);
    CountArtistsPositive(a.artists, b.artists);
  }

  /** Without a shared ISRC nothing else counts: matching duration and
      metadata alone do not make two songs equal. */
  lemma NoIsrcNoMatch(a: SongData, b: SongData)
    requires a.isrc == [] || a.isrc != b.isrc
    ensures !SongMatches(a, b)
  {}

  /** With a shared ISRC but durations more than two seconds apart, two
      songs differ as soon as the titles differ, or no album of the left is
      among the right's, or no artist of the left is among the right's. */
  lemma SongMismatch(a: SongData, b: SongData)
    requires a.isrc != [] && a.isrc == b.isrc
    requires !DurationsClose(a.duration, b.duration)
    requires || a.normName != b.normName
             || (forall i :: 0 <= i < |a.albums| ==> !ContainsAlbum(b.albums, a.albums[i]))
             || (forall j :: 0 <= j < |a.artists| ==> !ContainsArtist(b.artists, a.artists[j]))
    ensures !SongMatches(a, b)
  {
    CountAlbumsPositive(a.albums, b.albums);
    CountArtistsPositive(a.artists, b.artists);
  }

  /** Song equality in full: a shared non-empty ISRC, and either close
      durations or equal titles with a shared album and a shared artist. */
  lemma SongMatchCharacterised(a: SongData, b: SongData)
    ensures SongMatches(a, b) <==>
      && a.isrc != [] && a.isrc == b.isrc
      && (|| DurationsClose(a.duration, b.duration)
          || (&& a.normName == b.normName
              && (exists i :: 0 <= i < |a.albums| && ContainsAlbum(b.albums, a.albums[i]))
              && (exists j :: 0 <= j < |a.artists| && ContainsArtist(b.artists, a.artists[j]))))
  {
    CountAlbumsPositive(a.albums, b.albums);
    CountArtistsPositive(a.artists, b.artists);
  }

  /** A song equals itself exactly when it has an ISRC. */
  lemma SongSelfMatch(s: SongData)
    ensures SongMatches(s, s) <==> s.isrc != []
  {}

  /** With a UPC on the left, equality is UPC equality and nothing else. */
  lemma UpcDecides(a: AlbumData, b: AlbumData)
    requires a.upc != []
    ensures AlbumMatches(a, b) <==> a.upc == b.upc
  {}

  /** Without a UPC on the left, differing titles mean different albums. */
  lemma TitleMismatch(a: AlbumData, b: AlbumData)
    requires a.upc == [] && a.normName != b.normName
    ensures !AlbumMatches(a, b)
  {}

  /** Without a UPC on the left, equal albums share nine tenths of the
      larger song list and at least one artist. */
  lemma AlbumMatchWithoutUpc(a: AlbumData, b: AlbumData)
    requires a.upc == []
    ensures AlbumMatches(a, b) <==>
      && a.normName == b.normName
      && 10 * CountSongsIn(a.songs, b.songs) >= 9 * Max(|a.songs|, |b.songs|)
      && exists k :: 0 <= k < |a.artists| && ContainsArtist(b.artists, a.artists[k])
  {
    CountArtistsPositive(a.artists, b.artists);
    var n := Max(|a.songs|, |b.songs|);
    var c := CountSongsIn(a.songs, b.songs);
    assert c >= Ceil90(n) <==> 10 * c >= 9 * n;
  }

  /** An album without UPC and without artists equals nothing, itself
      included. */
  lemma NoArtistsNoMatch(a: AlbumData, b: AlbumData)
    requires a.upc == [] && a.artists == []
    ensures !AlbumMatches(a, b)
  {}

  /** Two albums built with limited information and no UPC are never
      equal. */
  lemma LimitedInfoAlbumsNeverEqual(keys: Keys, x: string, y: string)
    ensures !AlbumMatches(AlbumData.WithLimitedInfo(keys, x, ""), AlbumData.WithLimitedInfo(keys, y, ""))
  {
    NoArtistsNoMatch(AlbumData.WithLimitedInfo(keys, x, ""), AlbumData.WithLimitedInfo(keys, y, ""));
  }

  /** Album equality is not symmetric: only the left UPC is consulted. */
  lemma AlbumMatchIsAsymmetric()
    ensures exists a, b :: AlbumMatches(a, b) && !AlbumMatches(b, a)
  {
    var artist := ArtistData("x", "x", []);
    var a := AlbumData("t", "t", [], [artist], "");
    var b := AlbumData("t", "t", [], [artist], "1");
    assert ArtistMatches(artist, artist);
    assert [artist][..0] == [];
    assert ContainsArtist([artist], artist);
    assert CountArtistsIn([artist], [artist]) > 0;
    assert AlbumMatches(a, b);
    assert !AlbumMatches(b, a);
  }

  /** When either side has no albums, artist equality is equality of the
      normalised names. */
  lemma ArtistWithoutAlbumsByName(a: ArtistData, b: ArtistData)
    requires a.albums == [] || b.albums == []
    ensures ArtistMatches(a, b) <==> a.normName == b.normName
  {}

  /** With albums on both sides, equal artists share at least one album, and
      sharing at least half of the shorter list suffices. */
  lemma ArtistMatchWithAlbums(a: ArtistData, b: ArtistData)
    requires a.albums != [] && b.albums != []
    ensures ArtistMatches(a, b) ==> exists k :: 0 <= k < |a.albums| && ContainsAlbum(b.albums, a.albums[k])
    ensures ArtistMatches(a, b) <==> 2 * CountAlbumsIn(a.albums, b.albums) >= Min(|a.albums|, |b.albums|)
  {
    HalfOfPositive(Min(|a.albums|, |b.albums|));
    CountAlbumsPositive(a.albums, b.albums);
  }

  /** Adding albums one by one is adding them all at once. */
  lemma {:induction false} AddAlbumsOneByOne(a: ArtistData, more: seq<AlbumData>)
    ensures more != [] ==>
      a.AddMultipleAlbums(more) == a.AddMultipleAlbums(more[..|more| - 1]).AddAlbum(more[|more| - 1])
    ensures a.AddMultipleAlbums([]) == a
  {
    if more != [] {
      assert a.albums + more == (a.albums + more[..|more| - 1]) + [more[|more| - 1]];
    }
    assert a.albums + [] == a.albums;
  }
}
