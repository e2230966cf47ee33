/** Share links: the typed (platform, object, country, id) tuple, the URL
    parser `ShareLink::from_url` and the printer `ShareLink::to_url`. */
module ShareLinks {
  import opened Wrappers
  import opened Text
  import Iso3166

  /** The platforms. `Deezer` is not a variant of `LinkType` in
      share_link.rs but the Deezer client and the orchestrator construct
      Deezer links, so the model carries it. */
  datatype LinkType = Spotify | Tidal | AppleMusic | Deezer

  datatype ShareObject = Song | Album | Artist

  /** A share link; the country is kept as its ISO 3166-1 alpha-2 code. */
  datatype ShareLink = ShareLink(linkType: LinkType, countryCode: string, shareObj: ShareObject, id: string)

  /** `ShareLink::new`: the arguments, in their own order, become the
      fields; the id is copied. */
  function New(linkType: LinkType, shareObj: ShareObject, id: string, countryCode: string): (l: ShareLink)
    ensures l.linkType == linkType && l.shareObj == shareObj && l.id == id && l.countryCode == countryCode
  {
    ShareLink(linkType, countryCode, shareObj, id)
  }

  /** The distinct `bail!` messages of `from_url`. */
  datatype ParseError =
    | NotHttps                 // "... since it does not use HTTPS."
    | InvalidUrl               // "The provided URL is not valid."
    | UnsupportedHost          // "The provided link is not supported."
    | MalformedSpotifyCountry  // "... The country code is malformed."
    | InvalidCountryCode       // "... valid iso3166-1 alpha-2 country code."
    | NotSpotifyLink           // "... not a valid Spotify share link."
    | NotTidalLink             // "... not a valid Tidal share link."
    | InvalidShareLink         // "The provided link is not a valid share link."

  /** The path keyword `to_url` prints for an object kind. */
  function ObjectKeyword(o: ShareObject): string {
    match o
    case Album => "album"
    case Song => "track"
    case Artist => "artist"
  }

  /** `ShareLink::to_url`. The source has no arm for Deezer. */
  function ToUrl(l: ShareLink): (u: string)
    requires l.linkType != Deezer
    ensures "https://" <= u
    ensures |u| > |l.id| && u[|u| - |l.id| - 1] == '/' && u[|u| - |l.id|..] == l.id
  {
    match l.linkType
    case Tidal => "https://tidal.com/browse/" + ObjectKeyword(l.shareObj) + "/" + l.id
    case Spotify => "https://open.spotify.com/" + ObjectKeyword(l.shareObj) + "/" + l.id
    case AppleMusic =>
      "https://music.apple.com/" + ToAsciiLowercase(l.countryCode) + "/" + ObjectKeyword(l.shareObj) + "/" + l.id
  }

  // ---------------------------------------------------------------------
  // The grammar of `from_url`, stated over the `/`-separated segments.
  // ---------------------------------------------------------------------

  /** What the segment iterator yields at position `k`. */
  function Segment(parts: seq<string>, k: nat): Option<string> {
    if k < |parts| then Some(parts[k]) else None
  }

  function HostPlatform(host: string): Result<LinkType, ParseError> {
    if host == "open.spotify.com" then Success(Spotify)
    else if host == "tidal.com" then Success(Tidal)
    else if host == "music.apple.com" then Success(AppleMusic)
    else Failure(UnsupportedHost)
  }

  predicate IsObjectKeyword(text: string) {
    text == "track" || text == "album" || text == "artist"
  }

  /** A Spotify locale segment: seven bytes starting with `intl-`. */
  predicate IsSpotifyLocale(text: string) {
    Utf8Len(text) == 7 && StartsWith(text, "intl-")
  }

  /** The country the platform-specific segment yields, together with the
      position of the next unread segment. */
  function CountryStep(t: LinkType, parts: seq<string>): Result<(string, nat), ParseError>
    requires t != Deezer
  {
    match t
    case Spotify =>
      (match Segment(parts, 3)
       case None => Failure(NotSpotifyLink)
       case Some(text) =>
         if !IsSpotifyLocale(text) then
           // a bare object keyword is put back and the country defaults to US
           if IsObjectKeyword(text) then Success(("US", 3)) else Failure(MalformedSpotifyCountry)
         else
           var cc := ToAsciiUppercase(text[5..]);
           if Iso3166.IsAlpha2(cc) then Success((cc, 4)) else Failure(InvalidCountryCode))
    case Tidal =>
      if Segment(parts, 3) == Some("browse") then Success(("US", 4)) else Failure(NotTidalLink)
    case AppleMusic =>
      (match Segment(parts, 3)
       // no country segment: the object segment that follows is missing too
       case None => Failure(InvalidShareLink)
       case Some(text) =>
         var cc := ToAsciiUppercase(text);
         if Iso3166.IsAlpha2(cc) then Success((cc, 4)) else Failure(InvalidCountryCode))
  }

  function ObjectStep(t: LinkType, seg: Option<string>): Result<ShareObject, ParseError> {
    match seg
    case Some("track") => Success(Song)
    case Some("album") => Success(Album)
    case Some("artist") => Success(Artist)
    case Some("song") => if t == AppleMusic then Success(Song) else Failure(InvalidShareLink)
    case _ => Failure(InvalidShareLink)
  }

  /** Index of the first occurrence of `c` in `s`, or `|s|` if there is none. */
  function IndexOf(s: string, c: char): (i: nat)
    ensures i <= |s|
    ensures c !in s[..i]
    ensures i < |s| ==> s[i] == c
  {
    if s == [] then 0
    else if s[0] == c then 0
    else
      var i := 1 + IndexOf(s[1..], c);
      assert s[..i] == [s[0]] + s[1..][..i - 1];
      i
  }

  /** The id is the final segment up to its first `?`; a `?` with nothing
      before it is an error. */
  function IdStep(text: string): Result<string, ParseError> {
    var i := IndexOf(text, '?');
    if i < |text| && i == 0 then Failure(InvalidShareLink) else Success(text[..i])
  }

  /** The specification of `ShareLink::from_url` over the segments of
      the URL. */
  function ParseSegments(parts: seq<string>): (r: Result<ShareLink, ParseError>)
    requires |parts| >= 1
    ensures r.Success? ==>
      && r.value.linkType != Deezer
      && Iso3166.IsAlpha2(r.value.countryCode)
      && (r.value.linkType == Tidal ==> r.value.countryCode == "US")
      && var last := parts[|parts| - 1];
         r.value.id == last[..IndexOf(last, '?')]
  {
    if parts[0] != "https:" then Failure(NotHttps)
    else if Segment(parts, 1) != Some("") then Failure(InvalidUrl)
    else if |parts| < 3 then Failure(InvalidUrl)
    else
      var t :- HostPlatform(parts[2]);
      var step :- CountryStep(t, parts);
      CountryStepCode(t, parts);
      ParseTail(t, step.0, step.1, parts)
  }

  /** The segments after the country: the object keyword, the Apple Music
      slug, and the id as the final segment. */
  function ParseTail(t: LinkType, countryCode: string, next: nat, parts: seq<string>): (r: Result<ShareLink, ParseError>)
    ensures r.Success? ==>
      && r.value.linkType == t && r.value.countryCode == countryCode
      && |parts| >= 1
      && var last := parts[|parts| - 1];
         r.value.id == last[..IndexOf(last, '?')] && IdStep(last) == Success(r.value.id)
  {
    var obj :- ObjectStep(t, Segment(parts, next));
    var idAt := if t == AppleMusic then next + 2 else next + 1;
    if t == AppleMusic && Segment(parts, next + 1).None? then Failure(InvalidShareLink)
    else if Segment(parts, idAt).None? then Failure(InvalidShareLink)
    else if Segment(parts, idAt + 1).Some? then Failure(InvalidShareLink)
    else
      var id :- IdStep(parts[idAt]);
      Success(ShareLink(t, countryCode, obj, id))
  }

  /** The country step yields an assigned code, US for Tidal, and resumes
      at the fourth or fifth segment. */
  lemma CountryStepCode(t: LinkType, parts: seq<string>)
    requires t != Deezer && CountryStep(t, parts).Success?
    ensures Iso3166.IsAlpha2(CountryStep(t, parts).value.0)
    ensures t == Tidal ==> CountryStep(t, parts).value.0 == "US"
    ensures 3 <= CountryStep(t, parts).value.1 <= 4
  {
    if t == Tidal || (t == Spotify && !IsSpotifyLocale(parts[3])) {
      Iso3166.UnitedStatesIsAssigned();
    }
  }

  /** `ShareLink::from_url`: every link it accepts is well formed. */
  function ParseUrl(url: string): (r: Result<ShareLink, ParseError>)
    ensures r.Success? ==> WellFormed(r.value)
  {
    var parts := Split(url, "/");
    var r := ParseSegments(parts);
    if r.Success? then
      SplitPiecesAvoidChar(url, '/', |parts| - 1);
      r
    else r
  }

  /** What every parsed link satisfies: one of the three URL platforms, an
      assigned country code (US for Tidal), and an id free of `/` and `?`. */
  predicate WellFormed(l: ShareLink) {
    l.linkType != Deezer
    && Iso3166.IsAlpha2(l.countryCode)
    && (l.linkType == Tidal ==> l.countryCode == "US")
    && '/' !in l.id && '?' !in l.id
  }

  // ---------------------------------------------------------------------
  // `from_url` as written: a cursor over the segments with a saved
  // position, a country assigned step by step and an id built by a loop.
  // ---------------------------------------------------------------------

  method FromUrl(url: string) returns (r: Result<ShareLink, ParseError>)
    ensures r == ParseUrl(url)
  {
    var parts := Split(url, "/");
    var next := 0;

    if parts[next] != "https:" {
      return Failure(NotHttps);
    }
    next := next + 1;
    if next >= |parts| || parts[next] != "" {
      return Failure(InvalidUrl);
    }
    next := next + 1;
    if next >= |parts| {
      return Failure(InvalidUrl);
    }
    var host := parts[next];
    next := next + 1;
    var linkType: LinkType;
    if host == "open.spotify.com" {
      linkType := Spotify;
    } else if host == "tidal.com" {
      linkType := Tidal;
    } else if host == "music.apple.com" {
      linkType := AppleMusic;
    } else {
      return Failure(UnsupportedHost);
    }
    assert HostPlatform(parts[2]) == Success(linkType);

    var country := ReadCountry(linkType, parts);
    if country.Failure? {
      return Failure(country.error);
    }
    var countryCode := country.value.0;
    next := country.value.1;

    r := ReadTail(linkType, countryCode, next, parts);
  }

  /** The rest of `from_url` after the country: the object keyword, the
      Apple Music slug and the id, read with a cursor. */
  method ReadTail(linkType: LinkType, countryCode: string, at: nat, parts: seq<string>) returns (r: Result<ShareLink, ParseError>)
    ensures r == ParseTail(linkType, countryCode, at, parts)
  {
    var next := at;
    if next >= |parts| {
      return Failure(InvalidShareLink);
    }
    var keyword := parts[next];
    next := next + 1;
    var shareObj: ShareObject;
    if keyword == "track" {
      shareObj := Song;
    } else if keyword == "album" {
      shareObj := Album;
    } else if keyword == "artist" {
      shareObj := Artist;
    } else if keyword == "song" {
      if linkType != AppleMusic {
        return Failure(InvalidShareLink);
      }
      shareObj := Song;
    } else {
      return Failure(InvalidShareLink);
    }
    assert ObjectStep(linkType, Segment(parts, next - 1)) == Success(shareObj);

    // Apple Music carries a descriptive slug that is skipped.
    if linkType == AppleMusic {
      if next >= |parts| {
        return Failure(InvalidShareLink);
      }
      next := next + 1;
    }

    if next >= |parts| {
      return Failure(InvalidShareLink);
    }
    var text := parts[next];
    next := next + 1;
    if next < |parts| {
      return Failure(InvalidShareLink);
    }
    var id :- ReadId(text);
    return Success(ShareLink(linkType, countryCode, shareObj, id));
  }

  /** The country step of `from_url`: the cursor is saved before a Spotify
      segment is read and restored when that segment turns out to be the
      object keyword. */
  method ReadCountry(linkType: LinkType, parts: seq<string>) returns (r: Result<(string, nat), ParseError>)
    requires linkType != Deezer
    ensures r == CountryStep(linkType, parts)
  {
    var next := 3;
    var countryCode: Option<string> := None;
    if linkType == Spotify {
      var backup := next;
      if next >= |parts| {
        return Failure(NotSpotifyLink);
      }
      var text := parts[next];
      next := next + 1;
      if Utf8Len(text) != 7 || !StartsWith(text, "intl-") {
        if text == "track" || text == "album" || text == "artist" {
          next := backup;
          countryCode := Some("US");
        } else {
          return Failure(MalformedSpotifyCountry);
        }
      } else {
        var cc := ToAsciiUppercase(text[5..]);
        if !Iso3166.IsAlpha2(cc) {
          return Failure(InvalidCountryCode);
        }
        countryCode := Some(cc);
      }
    } else if linkType == Tidal {
      if next < |parts| && parts[next] == "browse" {
        countryCode := Some("US");
      } else {
        return Failure(NotTidalLink);
      }
      next := next + 1;
    } else {
      if next < |parts| {
        var cc := ToAsciiUppercase(parts[next]);
        if !Iso3166.IsAlpha2(cc) {
          return Failure(InvalidCountryCode);
        }
        countryCode := Some(cc);
      }
      next := next + 1;
    }
    if countryCode.None? {
      // Apple Music without a country segment: the object segment is
      // missing as well.
      return Failure(InvalidShareLink);
    }
    return Success((countryCode.value, next));
  }

  /** The character loop that builds the id of a share link. */
  method ReadId(text: string) returns (r: Result<string, ParseError>)
    ensures r == IdStep(text)
  {
    var id := "";
    var i := 0;
    while i < |text|
      invariant 0 <= i <= |text|
      invariant id == text[..i]
      invariant '?' !in id
    {
      if text[i] == '?' {
        if |id| == 0 {
          return Failure(InvalidShareLink);
        }
        break;
      }
      id := id + [text[i]];
      i := i + 1;
    }
    IndexOfUnique(text, '?', i);
    return Success(id);
  }

  lemma IndexOfUnique(s: string, c: char, i: nat)
    requires i <= |s| && c !in s[..i] && (i < |s| ==> s[i] == c)
    ensures i == IndexOf(s, c)
  {
  }

  // ---------------------------------------------------------------------
  // Properties of the parser.
  // ---------------------------------------------------------------------

  lemma JoinCons(a: string, rest: seq<string>)
    requires |rest| >= 1
    ensures Join([a] + rest, "/") == a + "/" + Join(rest, "/")
  {
    assert ([a] + rest)[1..] == rest;
  }

  lemma JoinFive(a: string, b: string, c: string, d: string, e: string)
    ensures Join([a, b, c, d, e], "/") == a + "/" + b + "/" + c + "/" + d + "/" + e
  {
    assert [a, b, c, d, e] == [a] + [b, c, d, e];
    assert [b, c, d, e] == [b] + [c, d, e];
    assert [c, d, e] == [c] + [d, e];
    assert [d, e] == [d] + [e];
    JoinCons(a, [b, c, d, e]);
    JoinCons(b, [c, d, e]);
    JoinCons(c, [d, e]);
    JoinCons(d, [e]);
  }

  lemma JoinSix(a: string, b: string, c: string, d: string, e: string, f: string)
    ensures Join([a, b, c, d, e, f], "/") == a + "/" + b + "/" + c + "/" + d + "/" + e + "/" + f
  {
    assert [a, b, c, d, e, f] == [a] + [b, c, d, e, f];
    JoinCons(a, [b, c, d, e, f]);
    JoinFive(b, c, d, e, f);
  }

  /** An id without `?` is read whole. */
  lemma IdStepWhole(text: string)
    requires '?' !in text
    ensures IdStep(text) == Success(text)
  {
    IndexOfUnique(text, '?', |text|);
    assert text[..|text|] == text;
  }

  /** Every accepted URL uses the `https:` scheme followed by an empty
      authority separator, and a URL without that scheme is refused as
      not using HTTPS. */
  lemma SchemeIsHttps(url: string)
    ensures ParseUrl(url).Success? ==>
      var parts := Split(url, "/");
      parts[0] == "https:" && |parts| >= 3 && parts[1] == ""
    ensures Split(url, "/")[0] != "https:" ==> ParseUrl(url) == Failure(NotHttps)
  {}

  /** The platform is decided by the host segment alone. */
  lemma HostDecidesPlatform(url: string)
    ensures ParseUrl(url).Success? ==>
      HostPlatform(Split(url, "/")[2]) == Success(ParseUrl(url).value.linkType)
    ensures
      var parts := Split(url, "/");
      parts[0] == "https:" && |parts| >= 3 && parts[1] == "" && HostPlatform(parts[2]).Failure?
      ==> ParseUrl(url) == Failure(UnsupportedHost)
  {}

  /** An accepted Spotify link either omits the locale, so the object
      keyword follows the host and the country is US, or carries a
      seven-character `intl-xx` locale whose upper-cased suffix is the
      country. */
  lemma SpotifyCountryRule(url: string)
    requires ParseUrl(url).Success? && ParseUrl(url).value.linkType == Spotify
    ensures
      var parts := Split(url, "/");
      var l := ParseUrl(url).value;
      || (|parts| == 5 && IsObjectKeyword(parts[3]) && l.countryCode == "US")
      || (|parts| == 6 && |parts[3]| == 7 && parts[3][..5] == "intl-"
          && l.countryCode == ToAsciiUppercase(parts[3][5..]))
  {
    var parts := Split(url, "/");
    var text := parts[3];
    if IsSpotifyLocale(text) {
      var cc := ToAsciiUppercase(text[5..]);
      assert Iso3166.IsAlpha2(cc);
      Utf8LenBounds(text);
    }
  }

  /** An accepted Tidal link has the `browse` segment and the country US. */
  lemma TidalCountryRule(url: string)
    requires ParseUrl(url).Success? && ParseUrl(url).value.linkType == Tidal
    ensures
      var parts := Split(url, "/");
      |parts| == 6 && parts[3] == "browse" && ParseUrl(url).value.countryCode == "US"
  {}

  /** An accepted Apple Music link has seven segments: the country, the
      object keyword, a slug that is skipped and the id. */
  lemma AppleMusicShape(url: string)
    requires ParseUrl(url).Success? && ParseUrl(url).value.linkType == AppleMusic
    ensures
      var parts := Split(url, "/");
      |parts| == 7 && ParseUrl(url).value.countryCode == ToAsciiUppercase(parts[3])
  {}

  /** The object keyword is the segment before the id (before the slug on
      Apple Music); `song` is accepted on Apple Music only. */
  lemma ObjectKeywordRule(url: string)
    requires ParseUrl(url).Success?
    ensures
      var parts := Split(url, "/");
      var l := ParseUrl(url).value;
      var at := if l.linkType == AppleMusic then |parts| - 3 else |parts| - 2;
      && 3 <= at
      && (parts[at] == ObjectKeyword(l.shareObj) || (parts[at] == "song" && l.linkType == AppleMusic && l.shareObj == Song))
  {
    ObjectKeywordSegment(Split(url, "/"));
  }

  lemma ObjectKeywordSegment(parts: seq<string>)
    requires |parts| >= 1 && ParseSegments(parts).Success?
    ensures
      var l := ParseSegments(parts).value;
      var at := if l.linkType == AppleMusic then |parts| - 3 else |parts| - 2;
      && 3 <= at
      && (parts[at] == ObjectKeyword(l.shareObj) || (parts[at] == "song" && l.linkType == AppleMusic && l.shareObj == Song))
  {
    var t := HostPlatform(parts[2]).value;
    var step := CountryStep(t, parts).value;
    CountryStepCode(t, parts);
    ObjectStepKeyword(t, Segment(parts, step.1), ParseSegments(parts).value.shareObj);
  }

  lemma ObjectStepKeyword(t: LinkType, seg: Option<string>, o: ShareObject)
    requires ObjectStep(t, seg) == Success(o)
    ensures seg.Some? && (seg.value == ObjectKeyword(o) || (seg.value == "song" && t == AppleMusic && o == Song))
  {}

  /** The id is the final segment up to its first `?`; it is empty only
      when that segment is empty. */
  lemma IdRule(url: string)
    requires ParseUrl(url).Success?
    ensures
      var parts := Split(url, "/");
      var last := parts[|parts| - 1];
      var id := ParseUrl(url).value.id;
      && StartsWith(last, id)
      && '?' !in id
      && (|id| < |last| ==> last[|id|] == '?')
      && (id == [] ==> last == [])
  {
    var parts := Split(url, "/");
    IdSegment(parts);
    IdStepShape(parts[|parts| - 1]);
  }

  lemma IdSegment(parts: seq<string>)
    requires |parts| >= 1 && ParseSegments(parts).Success?
    ensures IdStep(parts[|parts| - 1]) == Success(ParseSegments(parts).value.id)
  {
    var t := HostPlatform(parts[2]).value;
    var step := CountryStep(t, parts).value;
    CountryStepCode(t, parts);
    assert ParseSegments(parts) == ParseTail(t, step.0, step.1, parts);
  }

  /** What the id loop keeps of a segment: the text before its first `?`,
      never empty unless the segment is. */
  lemma IdStepShape(text: string)
    requires IdStep(text).Success?
    ensures
      var id := IdStep(text).value;
      && StartsWith(text, id)
      && '?' !in id
      && (|id| < |text| ==> text[|id|] == '?')
      && (id == [] ==> text == [])
  {
    var i := IndexOf(text, '?');
    assert IdStep(text).value == text[..i];
  }

  /** The segments of the URL `to_url` prints. */
  function PrintedSegments(l: ShareLink): seq<string>
    requires l.linkType != Deezer
  {
    var kw := ObjectKeyword(l.shareObj);
    match l.linkType
    case Tidal => ["https:", "", "tidal.com", "browse", kw, l.id]
    case Spotify => ["https:", "", "open.spotify.com", kw, l.id]
    case AppleMusic => ["https:", "", "music.apple.com", ToAsciiLowercase(l.countryCode), kw, l.id]
  }

  lemma PrintedUrlSegments(l: ShareLink)
    requires l.linkType != Deezer
    requires '/' !in l.countryCode && '/' !in l.id
    ensures ToUrl(l) == Join(PrintedSegments(l), "/")
    ensures forall k :: 0 <= k < |PrintedSegments(l)| ==> '/' !in PrintedSegments(l)[k]
  {
    PrintedUrlIsJoin(l);
    var lower := ToAsciiLowercase(l.countryCode);
    assert '/' !in lower;
    var parts := PrintedSegments(l);
    forall k | 0 <= k < |parts|
      ensures '/' !in parts[k]
    {
      assert parts[k] in {"https:", "", "tidal.com", "open.spotify.com", "music.apple.com",
                          "browse", lower, ObjectKeyword(l.shareObj), l.id};
    }
  }

  lemma PrintedUrlIsJoin(l: ShareLink)
    requires l.linkType != Deezer
    ensures ToUrl(l) == Join(PrintedSegments(l), "/")
  {
    var kw := ObjectKeyword(l.shareObj);
    match l.linkType
    case Tidal =>
      JoinSix("https:", "", "tidal.com", "browse", kw, l.id);
      TidalPrefix();
    case Spotify =>
      JoinFive("https:", "", "open.spotify.com", kw, l.id);
      SpotifyPrefix();
    case AppleMusic =>
      var lower := ToAsciiLowercase(l.countryCode);
      JoinSix("https:", "", "music.apple.com", lower, kw, l.id);
      AppleMusicPrefix();
  }

  lemma TidalPrefix()
    ensures "https:" + "/" + "" + "/" + "tidal.com" + "/" + "browse" + "/" == "https://tidal.com/browse/"
  {}

  lemma SpotifyPrefix()
    ensures "https:" + "/" + "" + "/" + "open.spotify.com" + "/" == "https://open.spotify.com/"
  {}

  lemma AppleMusicPrefix()
    ensures "https:" + "/" + "" + "/" + "music.apple.com" + "/" == "https://music.apple.com/"
  {}

  lemma JoinSeven(a: string, b: string, c: string, d: string, e: string, f: string, g: string)
    ensures Join([a, b, c, d, e, f, g], "/") == a + "/" + b + "/" + c + "/" + d + "/" + e + "/" + f + "/" + g
  {
    assert [a, b, c, d, e, f, g] == [a] + [b, c, d, e, f, g];
    JoinCons(a, [b, c, d, e, f, g]);
    JoinSix(b, c, d, e, f, g);
  }

  lemma SplitJoinedSegments(url: string, parts: seq<string>)
    requires |parts| >= 1
    requires forall k :: 0 <= k < |parts| ==> '/' !in parts[k]
    requires url == Join(parts, "/")
    ensures Split(url, "/") == parts
  {
    SplitJoin(parts, '/');
  }

  lemma ParseVia(url: string, parts: seq<string>)
    requires Split(url, "/") == parts
    ensures ParseUrl(url) == ParseSegments(parts)
  {}

  lemma PrintedSegmentsRoundTrip(l: ShareLink)
    requires l.linkType == Spotify || l.linkType == Tidal
    requires l.countryCode == "US"
    requires '?' !in l.id
    ensures ParseSegments(PrintedSegments(l)) == Success(l)
  {
    var kw := ObjectKeyword(l.shareObj);
    IdStepWhole(l.id);
    Iso3166.UnitedStatesIsAssigned();
    if l.linkType == Spotify {
      assert kw[0] != 'i';
      assert !StartsWith(kw, "intl-");
    }
  }

  lemma PrintedAppleMusicSegmentsFail(l: ShareLink)
    requires l.linkType == AppleMusic
    ensures ParseSegments(PrintedSegments(l)).Failure?
  {}

  /** Printing a Spotify or Tidal link and parsing the result gives the
      link back, provided its country is US (the printed URL drops the
      locale) and its id has no `/` or `?`. */
  lemma ToUrlRoundTrip(l: ShareLink)
    requires l.linkType == Spotify || l.linkType == Tidal
    requires l.countryCode == "US"
    requires '/' !in l.id && '?' !in l.id
    ensures ParseUrl(ToUrl(l)) == Success(l)
  {
    PrintedUrlSegments(l);
    SplitJoinedSegments(ToUrl(l), PrintedSegments(l));
    PrintedSegmentsRoundTrip(l);
    ParseVia(ToUrl(l), PrintedSegments(l));
  }

  /** An Apple Music link printed by `to_url` never parses back: the printed
      URL has no slug segment, so the parser takes the id for the slug and
      then finds no id. */
  lemma AppleMusicUrlDoesNotParse(l: ShareLink)
    requires l.linkType == AppleMusic
    requires '/' !in l.countryCode && '/' !in l.id
    ensures ParseUrl(ToUrl(l)).Failure?
  {
    PrintedUrlSegments(l);
    SplitJoinedSegments(ToUrl(l), PrintedSegments(l));
    PrintedAppleMusicSegmentsFail(l);
    ParseVia(ToUrl(l), PrintedSegments(l));
  }

  /** A `?` ends the id: an id followed by a query string is read up to
      the `?`. */
  lemma IdStepQuery(id: string, query: string)
    requires id != [] && '?' !in id
    ensures IdStep(id + "?" + query) == Success(id)
  {
    var text := id + "?" + query;
    assert text[..|id|] == id;
    IndexOfUnique(text, '?', |id|);
  }

  /** The lower-cased form of an assigned code reads back as the code. */
  lemma LowerCodeReadsBack(code: string)
    requires Iso3166.IsAlpha2(code)
    ensures ToAsciiUppercase(ToAsciiLowercase(code)) == code
    ensures Utf8Len(ToAsciiLowercase(code)) == 2
    ensures '/' !in ToAsciiLowercase(code)
  {
    UpperOfLowerIsIdentity(code);
    var lower := ToAsciiLowercase(code);
    Utf8LenBounds(lower);
  }

  /** A Spotify share link with an `intl-` locale and a tracking query, the
      shape of the links in the test suite: the locale gives the country and
      the query is dropped. */
  lemma ParsesSpotifyLocaleLink(code: string, o: ShareObject, id: string, query: string)
    requires Iso3166.IsAlpha2(code)
    requires id != [] && '/' !in id && '?' !in id && '/' !in query
    ensures
      var url := "https://open.spotify.com/intl-" + ToAsciiLowercase(code) + "/" + ObjectKeyword(o) + "/" + id + "?" + query;
      ParseUrl(url) == Success(ShareLink(Spotify, code, o, id))
  {
    var lower := ToAsciiLowercase(code);
    var locale := "intl-" + lower;
    var last := id + "?" + query;
    var kw := ObjectKeyword(o);
    var url := "https://open.spotify.com/intl-" + lower + "/" + kw + "/" + id + "?" + query;
    var parts := ["https:", "", "open.spotify.com", locale, kw, last];
    SpotifyLocaleUrl(lower, kw, id, query);
    LowerCodeReadsBack(code);
    assert '/' !in locale && '/' !in last;
    SplitJoinedSegments(url, parts);
    SpotifyLocaleSegments(code, o, id, query, parts);
    ParseVia(url, parts);
  }

  lemma SpotifyLocaleUrl(lower: string, kw: string, id: string, query: string)
    ensures "https://open.spotify.com/intl-" + lower + "/" + kw + "/" + id + "?" + query
         == Join(["https:", "", "open.spotify.com", "intl-" + lower, kw, id + "?" + query], "/")
  {
    JoinSix("https:", "", "open.spotify.com", "intl-" + lower, kw, id + "?" + query);
    assert "https:" + "/" + "" + "/" + "open.spotify.com" + "/" + "intl-" == "https://open.spotify.com/intl-";
  }

  lemma AppleMusicUrl(lower: string, keyword: string, slug: string, id: string)
    ensures "https://music.apple.com/" + lower + "/" + keyword + "/" + slug + "/" + id
         == Join(["https:", "", "music.apple.com", lower, keyword, slug, id], "/")
  {
    JoinSeven("https:", "", "music.apple.com", lower, keyword, slug, id);
    AppleMusicPrefix();
  }

  lemma SpotifyLocaleSegments(code: string, o: ShareObject, id: string, query: string, parts: seq<string>)
    requires Iso3166.IsAlpha2(code)
    requires id != [] && '?' !in id
    requires parts == ["https:", "", "open.spotify.com", "intl-" + ToAsciiLowercase(code), ObjectKeyword(o), id + "?" + query]
    ensures ParseSegments(parts) == Success(ShareLink(Spotify, code, o, id))
  {
    var locale := "intl-" + ToAsciiLowercase(code);
    LowerCodeReadsBack(code);
    Utf8Concat("intl-", ToAsciiLowercase(code));
    assert Utf8Len("intl-") == 5;
    assert locale[5..] == ToAsciiLowercase(code);
    assert StartsWith(locale, "intl-") by {
      assert locale[..5] == "intl-";
    }
    IdStepQuery(id, query);
  }

  /** An Apple Music share link with its slug, the shape of the links in the
      test suite: the country segment gives the country and `song` is read
      as a song. */
  lemma ParsesAppleMusicLink(code: string, keyword: string, slug: string, id: string)
    requires Iso3166.IsAlpha2(code)
    requires keyword in {"song", "track", "album", "artist"}
    requires '/' !in slug && '/' !in id && '?' !in id
    ensures
      var url := "https://music.apple.com/" + ToAsciiLowercase(code) + "/" + keyword + "/" + slug + "/" + id;
      var o := if keyword == "album" then Album else if keyword == "artist" then Artist else Song;
      ParseUrl(url) == Success(ShareLink(AppleMusic, code, o, id))
  {
    var lower := ToAsciiLowercase(code);
    var url := "https://music.apple.com/" + lower + "/" + keyword + "/" + slug + "/" + id;
    var parts := ["https:", "", "music.apple.com", lower, keyword, slug, id];
    AppleMusicUrl(lower, keyword, slug, id);
    LowerCodeReadsBack(code);
    assert '/' !in keyword;
    SplitJoinedSegments(url, parts);
    IdStepWhole(id);
    ParseVia(url, parts);
  }
}
