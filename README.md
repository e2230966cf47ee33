# interlude_server link resolution, modelled in Dafny

interlude_server turns a share link from one music platform into the links
for the same song or album on the other platforms. This project models that
resolution core:

- the share-link parser and printer;
- the title and artist normalisation that builds comparison keys;
- the fuzzy equality of songs, albums and artists;
- the OAuth access-token lifecycle;
- what the Spotify, Tidal and Deezer clients do with decoded responses;
- the dispatch table that routes song and album requests to a client;
- the conversion orchestrator, which asks every configured platform for its link.

One module per source file, except that the song, album and artist equalities
are mutually recursive and share the module `Entities`.

| file | module | source |
|---|---|---|
| wrappers.dfy | `Wrappers` | `Option`, `Result`, and `Response`: one HTTP exchange after decoding |
| text.dfy | `Text` | the parts of Rust's `str`/`char` API the core uses |
| iso3166.dfy | `Iso3166` | the alpha-2 table behind `rust_iso3166::from_alpha2` |
| share_link.dfy | `ShareLinks` | src/share_link.rs |
| norm.dfy | `Norm` | src/shared_item/norm.rs |
| entities.dfy | `Entities` | src/shared_item/song.rs, album.rs, artist.rs |
| authorization.dfy | `Authorization` | src/api/authorization.rs |
| api_types.dfy | `ApiTypes` | the error type and the `?` / `unwrap` conventions of the clients |
| tidal.dfy | `Tidal` | src/api/tidal.rs |
| spotify.dfy | `Spotify` | src/api/spotify.rs |
| deezer.dfy | `Deezer` | src/api/deezer.rs |
| api.dfy | `Api` | src/api/mod.rs |
| conversion.dfy | `Conversion` | src/api/conversion.rs |

Conventions:

- **Network and decoding.** Every HTTP exchange, followed by `serde_json`
  decoding, is a value `Response<T>`: `Failed`, `Undecodable` or `Decoded(body)`.
- **Platform endpoints.** Each client's endpoints are a datatype of functions
  from request parameters to responses (`TidalServer`, `SpotifyServer`,
  `DeezerServer`).
- **Errors.**
  - A `?` on an error returns it as a `Failure`.
  - An `unwrap`/`expect` that fails returns `Failure(Panic(..))`, so a panic is
    visible in the contracts.
- **The clock.** It is a parameter `now`.
- **Imperative source code.** Code that works by loops or mutation is a
  `method` proved equal to a specification function, for example
  `Tidal.GetArtistData` against `Tidal.ArtistDataOf`. The properties are then
  proved about the function.
- **The access token.** It is a `class`, whose `Refresh` updates its fields.

The external pieces of normalisation are parameters (`Norm.Rules`):

- Unicode decomposition, combining-mark removal and lower-casing, as one
  function per character;
- the three decoration and `feat.` regexes.

The artist connector regex is implemented concretely, with leftmost-first,
backtracking `\s*` semantics. The entity constructors take the three
normalisers as a value `Entities.Keys`; `Entities.KeysFor` builds them from
the functions of `Norm`.

## Model

| member | source | states |
|---|---|---|
| ShareLinks.New | src/share_link.rs:46-53 | the arguments become the fields of the link, unchanged |
| ShareLinks.ParseUrl | src/share_link.rs:55-176 | every accepted URL yields a well-formed link: one of the three URL platforms, an assigned alpha-2 country (US for Tidal) and an id with no `/` or `?` |
| ShareLinks.ParseSegments | src/share_link.rs:55-176 | on the URL's segments: an accepted link is of one of the three URL platforms, has an assigned country (US for Tidal), and its id is the last segment up to its first `?` |
| ShareLinks.ParseTail | src/share_link.rs:130-176 | after the country: an accepted tail keeps the platform and country, and its id is the last segment cut at its first `?`, as the id step reads it |
| ShareLinks.CountryStepCode | src/share_link.rs:89-126 | the country step yields an assigned code, US for Tidal, and resumes at the fourth or fifth segment |
| ShareLinks.FromUrl | src/share_link.rs:55-176 | the segment-by-segment state machine of `from_url` computes exactly `ParseUrl` |
| ShareLinks.ReadTail | src/share_link.rs:130-176 | the keyword, slug and id steps with the cursor compute exactly `ParseTail` |
| ShareLinks.ReadCountry | src/share_link.rs:89-126 | the country step (with the Spotify save and restore of the cursor) computes exactly the specified country and next position |
| ShareLinks.ReadId | src/share_link.rs:151-169 | the character loop that builds the id computes exactly the specified id step |
| ShareLinks.IndexOf | src/share_link.rs:153-160 | the position of the first `?`, or the end if there is none |
| ShareLinks.SchemeIsHttps | src/share_link.rs:63-74 | an accepted URL starts with `https:` and an empty segment; any other first segment is rejected as not HTTPS |
| ShareLinks.HostDecidesPlatform | src/share_link.rs:76-86 | the platform is decided by the host alone; a host other than the three known ones is an error |
| ShareLinks.SpotifyCountryRule | src/share_link.rs:89-110 | an accepted Spotify link has either no locale (country US) or an `intl-xx` locale whose upper-cased code is an assigned country |
| ShareLinks.TidalCountryRule | src/share_link.rs:111-116 | an accepted Tidal link has the `browse` segment and the country US |
| ShareLinks.AppleMusicShape | src/share_link.rs:117-126 | an accepted Apple Music link has seven segments: country, keyword, slug and id |
| ShareLinks.ObjectKeywordRule | src/share_link.rs:130-149 | the keyword decides the object kind; `song` is accepted on Apple Music only |
| ShareLinks.IdRule | src/share_link.rs:151-169 | the id is the last segment cut at its first `?` |
| ShareLinks.IdStepShape | src/share_link.rs:151-169 | the id loop keeps a prefix of the segment, free of `?`, that stops at the first `?`; it is empty only when the segment is |
| ShareLinks.IdStepWhole | src/share_link.rs:151-169 | an id segment without `?` is read whole |
| ShareLinks.IdStepQuery | src/share_link.rs:151-169 | a query string after `?` is dropped from the id |
| ShareLinks.ToUrl | src/share_link.rs:27-44 | the printed URL starts with `https://` and ends with `/` followed by the id |
| ShareLinks.PrintedUrlSegments | src/share_link.rs:27-44 | the printed URL is the `/`-join of its segments, none of which contains `/` |
| ShareLinks.ToUrlRoundTrip | src/share_link.rs:27-44 | parsing a printed Spotify or Tidal link with country US and an id free of `/` and `?` gives the link back |
| ShareLinks.AppleMusicUrlDoesNotParse | src/share_link.rs:27-44 | a printed Apple Music link never parses back, because the printer omits the slug |
| ShareLinks.ParsesSpotifyLocaleLink | src/share_link.rs:89-110 | an `intl-xx` Spotify link with a tracking query parses to that country and the id without the query |
| ShareLinks.ParsesAppleMusicLink | src/share_link.rs:117-149 | an Apple Music link with a slug parses to its country and id, and `song` reads as a song |
| ShareLinks.LowerCodeReadsBack | src/share_link.rs:41 | a lower-cased assigned code upper-cases back to itself |
| Iso3166.UnitedStatesIsAssigned | src/share_link.rs:97 | the default country US is an assigned code |
| Text.Split | src/share_link.rs:56 | splitting always yields at least one piece |
| Text.JoinSplit | src/shared_item/norm.rs:134-142 | joining the pieces of a split with the same pattern gives the input back |
| Text.SplitJoin | src/share_link.rs:56 | pieces free of a one-character separator, joined by it, split back into the same pieces |
| Text.Trim | src/shared_item/norm.rs:47 | `trim` never lengthens a string |
| Text.TrimIsSlice | src/shared_item/norm.rs:47 | the trim is the slice after the leading whitespace, with no whitespace at either end and only whitespace after it |
| Text.TrimFrame | src/shared_item/norm.rs:47 | what `trim` removes, before and after the slice it keeps, is all whitespace |
| Text.TrimBounds | src/shared_item/norm.rs:47 | a stretch that starts and ends with a non-whitespace character lies within the trimmed slice |
| Text.TrimKeepsInner | src/shared_item/norm.rs:47 | trimming keeps any visible-space-visible stretch of the text |
| Text.TrimKeepsAbsent | src/shared_item/norm.rs:47 | `trim` adds no character: one absent before is absent after |
| Text.Utf8LenBounds | src/share_link.rs:93 | the byte length is at least the character count, with equality exactly for ASCII |
| Text.LexLessTransitive | src/shared_item/norm.rs:140 | the byte-wise order that `sort_unstable` uses is transitive |
| Text.LexLessTotal | src/shared_item/norm.rs:140 | that order is total on distinct strings |
| Norm.Decomposed | src/shared_item/norm.rs:9-20 | a string whose characters all fold to themselves comes out unchanged |
| Norm.ReplaceEntities | src/shared_item/norm.rs:22-31 | without an `&`, each curly quote becomes its straight form and every other character is kept, position by position |
| Norm.AmpEntityDecoded | src/shared_item/norm.rs:26-27 | the entity `&amp;` becomes `&` |
| Norm.EntitiesRemoveCurlyQuotes | src/shared_item/norm.rs:26-31 | no typographic quote survives the entity and quote replacement |
| Norm.CollapseFrom | src/shared_item/norm.rs:33-46 | the collapse never lengthens the text and leaves text without whitespace unchanged |
| Norm.BasicFold | src/shared_item/norm.rs:9-48 | the output of `fold_basic` is collapsed (every whitespace character is a plain space, no two spaces adjacent) with no whitespace at either end |
| Norm.SkipRun | src/shared_item/norm.rs:33-46 | once `last_space` is set, a further whitespace run writes nothing |
| Norm.RunAfterVisible | src/shared_item/norm.rs:33-46 | with `last_space` clear, a whitespace run ended by a visible character writes exactly one space before it |
| Norm.RunBecomesOneSpace | src/shared_item/norm.rs:33-46 | a visible character, a whitespace run and a visible character collapse to the two characters with one space between them |
| Norm.CollapseAfterVisible | src/shared_item/norm.rs:33-46 | after a visible character the collapse starts afresh, and its output so far ends with that character |
| Norm.CollapseRunInside | src/shared_item/norm.rs:33-46 | anywhere in the text, a whitespace run between two visible characters becomes one space |
| Norm.CollapseRunAt | src/shared_item/norm.rs:33-46 | gives the position of that one space in the collapsed text: right after the collapse of everything up to the first visible character |
| Norm.FoldRunBecomesOneSpace | src/shared_item/norm.rs:9-48 | a whitespace run between two visible characters of the entity-replaced input comes out of `fold_basic` as exactly one space between them |
| Norm.FoldBasic | src/shared_item/norm.rs:9-48 | the push loops with the `last_space` flag compute exactly `BasicFold` |
| Norm.CollapseIsCollapsed | src/shared_item/norm.rs:33-46 | the collapse loop leaves no whitespace except single spaces |
| Norm.FoldKeepsVisible | src/shared_item/norm.rs:9-48 | `fold_basic` keeps every non-whitespace character of the folded, entity-replaced input, in order |
| Norm.FoldOfFolded | src/shared_item/norm.rs:9-48 | `fold_basic` is the identity on a folded string that has no character it rewrites |
| Norm.FoldRemovesCurlyQuotes | src/shared_item/norm.rs:26-31 | no typographic quote survives `fold_basic` |
| Norm.StripPunct | src/shared_item/norm.rs:51-55 | no ASCII punctuation remains after `strip_common_punct` |
| Norm.StripPunctMembership | src/shared_item/norm.rs:51-55 | a character survives iff it was in the input and is not ASCII punctuation |
| Norm.StripPunctConcat | src/shared_item/norm.rs:51-55 | stripping distributes over concatenation: order kept, nothing inserted |
| Norm.StripPunctIdempotent | src/shared_item/norm.rs:51-55 | stripping twice is stripping once |
| Norm.NormalizeSongTitle | src/shared_item/norm.rs:86-98 | a normalised song title is whitespace-normalised |
| Norm.NormalizeAlbumTitle | src/shared_item/norm.rs:101-107 | a normalised album title is whitespace-normalised |
| Norm.DashesToSpaces | src/shared_item/norm.rs:114-123 | each of the six dash characters becomes a space; every other character is kept |
| Norm.ReplaceConnectors | src/shared_item/norm.rs:125-128 | the connector replacement yields an empty string exactly for an empty input |
| Norm.ReplaceConnectorsNoMatch | src/shared_item/norm.rs:125-128 | where no connector match starts anywhere, the replacement leaves the text unchanged |
| Norm.CrossConnectorReplaced | src/shared_item/norm.rs:125-128 | `a x b` becomes `a and b` |
| Norm.AmpersandConnectorReplaced | src/shared_item/norm.rs:125-128 | `a & b` becomes `a and b`, the spaces around `&` absorbed |
| Norm.CommaConnectorReplaced | src/shared_item/norm.rs:125-128 | `a, b` becomes `a and b` |
| Norm.ReplaceRemovesConnectorChars | src/shared_item/norm.rs:125-128 | after connector standardisation no `&`, `,`, `;` or `+` remains |
| Norm.Tokens | src/shared_item/norm.rs:134-138 | every token is non-empty and not `various artists` |
| Norm.KeepTokens | src/shared_item/norm.rs:136-137 | the kept tokens are exactly the trimmed pieces that are non-empty and not `various artists` |
| Norm.SortStrings | src/shared_item/norm.rs:140 | `sort_unstable` yields a sorted permutation |
| Norm.Dedup | src/shared_item/norm.rs:141 | `dedup` keeps the same elements and leaves no adjacent repeat |
| Norm.DedupOfSorted | src/shared_item/norm.rs:140-141 | deduplicating a sorted list gives a strictly increasing one |
| Norm.StrictlySortedUnique | src/shared_item/norm.rs:140-142 | two strictly increasing lists with the same elements are equal |
| Norm.ArtistTokens | src/shared_item/norm.rs:134-141 | the artist tokens are strictly increasing, each non-empty and not `various artists`, and are exactly the tokens of the cleaned name |
| Norm.ArtistKeyIgnoresOrder | src/shared_item/norm.rs:110-143 | two names with the same token set have the same key, so order and repetition of artists do not matter |
| Norm.NormalizeArtistName | src/shared_item/norm.rs:110-143 | the dash loop, the connector, split, trim and filter pipeline, and the sort, dedup and join compute exactly the artist key |
| Entities.KeysFor | src/shared_item/norm.rs:86-143 | every song or album key the normalisers produce is whitespace-normalised, and two artist names listing the same artists, in any order and with repetitions, get the same key |
| Entities.SongData.New | src/shared_item/song.rs:14-29 | the song-title key of the name is stored; every other field is copied |
| Entities.SongData.Eq | src/shared_item/song.rs:32-88 | the flag-setting loops compute exactly the song equality (with the corrected duration test, see Findings) |
| Entities.AlbumData.New | src/shared_item/album.rs:13-21 | the album-title key is stored; the other fields are copied |
| Entities.AlbumData.WithLimitedInfo | src/shared_item/album.rs:22-30 | no songs and no artists; the album-title key is stored |
| Entities.AlbumData.Eq | src/shared_item/album.rs:33-74 | the counting loop and the artist scan with early return compute exactly the album equality |
| Entities.ArtistData.New | src/shared_item/artist.rs:11-17 | the artist-name key is stored; the albums are copied |
| Entities.ArtistData.WithoutAlbums | src/shared_item/artist.rs:19-25 | an empty album list; the artist-name key is stored |
| Entities.ArtistData.AddAlbum | src/shared_item/artist.rs:27-29 | exactly one copy of the album is appended; the names are unchanged |
| Entities.ArtistData.AddMultipleAlbums | src/shared_item/artist.rs:31-33 | all given albums are appended in order; the names are unchanged |
| Entities.AddAlbumsOneByOne | src/shared_item/artist.rs:27-33 | appending albums one at a time is appending them all at once |
| Entities.ArtistData.Eq | src/shared_item/artist.rs:36-61 | the counting loop with early return computes exactly the artist equality, that is, the count over all albums |
| Entities.Ceil90 | src/shared_item/album.rs:51-52 | the song threshold is the exact ceiling of nine tenths |
| Entities.Half | src/shared_item/artist.rs:46-47 | the album threshold is the exact ceiling of one half |
| Entities.HalfOfPositive | src/shared_item/artist.rs:46-47 | with both album lists non-empty at least one shared album is needed |
| Entities.SongMatchNeedsIsrc | src/shared_item/song.rs:36-42 | equal songs have the same ISRC, and the left one is non-empty |
| Entities.IsrcAndDurationSuffice | src/shared_item/song.rs:48-50 | a shared ISRC and durations within two seconds make songs equal |
| Entities.IsrcAndMetadataSuffice | src/shared_item/song.rs:52-78 | a shared ISRC, equal title keys, one shared album and one shared artist make songs equal, whatever the durations |
| Entities.NoIsrcNoMatch | src/shared_item/song.rs:80-86 | without a shared ISRC, songs are never equal (the duration-and-metadata rule is disabled) |
| Entities.SongMismatch | src/shared_item/song.rs:32-88 | with a shared ISRC but durations more than two seconds apart, songs differ when the titles differ, or no album is shared, or no artist is shared |
| Entities.SongMatchCharacterised | src/shared_item/song.rs:32-88 | songs are equal if and only if they share a non-empty ISRC and either the durations are close or the titles agree with a shared album and a shared artist |
| Entities.SongSelfMatch | src/shared_item/song.rs:32-88 | a song equals itself iff it has an ISRC |
| Entities.DurationsCloseSymmetric | src/shared_item/song.rs:48 | the intended duration test is symmetric and reflexive |
| Entities.DurationTestAgreesInRange | src/shared_item/song.rs:48 | away from both ends of the `u64` range the written test is the intended one |
| Entities.ShortSongFailsDurationTest | src/shared_item/song.rs:48 | as written, a one-second song fails the duration test against itself |
| Entities.UpcDecides | src/shared_item/album.rs:37-42 | with a UPC on the left, album equality is exactly UPC equality |
| Entities.TitleMismatch | src/shared_item/album.rs:45-47 | without a UPC on the left, different title keys mean different albums |
| Entities.AlbumMatchWithoutUpc | src/shared_item/album.rs:45-72 | without a UPC on the left: equal iff same title key, enough shared songs for nine tenths of the larger list, and a shared artist |
| Entities.NoArtistsNoMatch | src/shared_item/album.rs:65-72 | an album without UPC and without artists equals nothing, itself included |
| Entities.LimitedInfoAlbumsNeverEqual | src/shared_item/album.rs:22-30 | two limited-information albums without UPC are never equal |
| Entities.AlbumMatchIsAsymmetric | src/shared_item/album.rs:37-42 | album equality is not symmetric |
| Entities.ArtistWithoutAlbumsByName | src/shared_item/artist.rs:39-45 | when either side has no albums, artists are equal iff their name keys are |
| Entities.ArtistMatchWithAlbums | src/shared_item/artist.rs:46-59 | with albums on both sides: equal iff at least half of the shorter list is shared, which implies one shared album |
| Entities.CountAlbumsPositive | src/shared_item/artist.rs:50-57 | the shared-album count is positive iff some album is shared |
| Entities.CountSongsBound | src/shared_item/album.rs:55-59 | the shared-song count never exceeds the number of songs |
| Authorization.Issue | src/api/authorization.rs:29-50 | a token request succeeds iff its reply decodes, and then gives the token and `now + expires_in - 5` |
| Authorization.FreshTokenLive | src/api/authorization.rs:48 | a token is live at issue iff `expires_in > 5` |
| Authorization.AccessToken.New | src/api/authorization.rs:18-51 | a fresh token object holding the issued token, the expiry and the endpoint used; the request's error otherwise |
| Authorization.AccessToken.IsExpired | src/api/authorization.rs:63-74 | expired exactly when the clock has reached the expiry, the expiry instant included |
| Authorization.AccessToken.ExpiredStaysExpired | src/api/authorization.rs:63-74 | once expired, a token stays expired at every later instant until it is refreshed |
| Authorization.AccessToken.Refresh | src/api/authorization.rs:52-61 | requests from the stored endpoint; on success token and expiry are replaced, on failure nothing changes; the endpoint never changes |
| Authorization.RefreshedTokenLive | src/api/authorization.rs:52-74 | a token refreshed with a lifetime over five seconds is not expired at that instant |
| ApiTypes.Fetch | src/api/tidal.rs:118-132 | a request is taken iff its reply decodes; each failure is returned as its own error |
| ApiTypes.FetchOrPanic | src/api/spotify.rs:75-89 | as `Fetch`, but a body that does not decode is a panic |
| Tidal.DurationSeconds | src/api/tidal.rs:386-413 | Weeks, a non-zero year (checked first) and a non-zero month are errors; it succeeds exactly otherwise, below 2^64 |
| Tidal.IsoToSeconds | src/api/tidal.rs:386-413 | the running total of `iso8601_to_seconds` computes exactly `DurationSeconds` |
| Tidal.SecondsRoundTrip | src/api/tidal.rs:405-410 | a number of seconds written as days, hours, minutes and seconds reads back as the same number |
| Tidal.NormalizedRoundTrip | src/api/tidal.rs:405-410 | a duration with fields in range and no milliseconds is determined by its seconds |
| Tidal.MillisecondsRounding | src/api/tidal.rs:405 | milliseconds add one second only above 500; exactly 500 rounds down |
| Tidal.SecondsOrPanic | src/api/tidal.rs:140 | an unparsable or unsupported duration is a panic, otherwise its seconds |
| Tidal.IncludedOrPanic | src/api/tidal.rs:145 | a missing `included` list is a panic |
| Tidal.Guard | src/api/tidal.rs:111-113 | the link guard passes iff the link is Tidal of the given kind, otherwise `UnsuitableLink` |
| Tidal.SongDataOf | src/api/tidal.rs:110-160 | a link that is not a Tidal song link fails with `UnsuitableLink` |
| Tidal.SongIncludes | src/api/tidal.rs:145-155 | a failure is the wrong-attributes error or a panic; a success extends the given album and artist lists |
| Tidal.SongIncludesSucceeds | src/api/tidal.rs:145-155 | the includes of a track are taken iff every one is an artist or an album whose duration converts |
| Tidal.SongIncludesCollects | src/api/tidal.rs:145-155 | taken includes add every included album, with limited info, and every artist, without albums, in order |
| Tidal.GetSongData | src/api/tidal.rs:110-160 | the guard, request and includes loop compute exactly `SongDataOf` |
| Tidal.AlbumIncludes | src/api/tidal.rs:195-209 | a failure is a panic; a success extends the given song list |
| Tidal.AlbumIncludesSucceeds | src/api/tidal.rs:195-209 | the includes of an album are taken iff every included track's duration converts |
| Tidal.AlbumDataOf | src/api/tidal.rs:162-218 | a link that is not a Tidal album link fails with `UnsuitableLink` |
| Tidal.GetAlbumData | src/api/tidal.rs:162-218 | the includes loop computes exactly `AlbumDataOf` |
| Tidal.PageAlbums | src/api/tidal.rs:284-295 | a failure is the wrong-attributes error or a panic; a success extends the given album list |
| Tidal.PageAlbumsSucceeds | src/api/tidal.rs:284-295 | a page is taken iff every item is an album whose duration converts |
| Tidal.PageAlbumsCollects | src/api/tidal.rs:284-295 | a taken page appends its albums in order |
| Tidal.Paginate | src/api/tidal.rs:280-317 | a success extends the given album list |
| Tidal.Pages | src/api/tidal.rs:280-317 | the loop reads the first page and at most `MaxRequests` more |
| Tidal.PaginateCollectsPages | src/api/tidal.rs:280-317 | pagination collects every album of every page read, in page order |
| Tidal.ArtistDataOf | src/api/tidal.rs:220-320 | a link that is not a Tidal artist link fails with `UnsuitableLink` |
| Tidal.GetArtistData | src/api/tidal.rs:220-320 | the nested page and item loops, with the request counter, compute exactly `ArtistDataOf` |
| Tidal.FirstMatchingSong | src/api/tidal.rs:342-350 | a found link is a candidate's Tidal song link whose fetched song equals the source song; no candidates means `UnsuccessfulConversion` |
| Tidal.FirstMatchingSongIsFirst | src/api/tidal.rs:342-350 | every earlier candidate was fetched and did not match |
| Tidal.FirstMatchingSongNoneMatch | src/api/tidal.rs:342-350 | when every candidate is fetched and rejected, the search ends in `UnsuccessfulConversion` |
| Tidal.FirstMatchingSongFetchError | src/api/tidal.rs:345 | when the candidates before one are rejected and that one cannot be fetched, the search returns the fetch's error |
| Tidal.SongLinkOf | src/api/tidal.rs:322-351 | a found link is a Tidal song link in the given country whose fetched song equals the source song; an empty candidate list means `UnsuccessfulConversion` |
| Tidal.SongLinkNoneMatch | src/api/tidal.rs:322-351 | when the ISRC filter answers and every candidate is fetched and rejected, the result is `UnsuccessfulConversion` |
| Tidal.GetSongLink | src/api/tidal.rs:322-351 | the candidate loop, which returns the first equal candidate and propagates a fetch error, computes exactly `SongLinkOf` |
| Tidal.Unwrapped | src/api/tidal.rs:376 | an unwrapped error is a panic |
| Tidal.FirstMatchingAlbum | src/api/tidal.rs:373-382 | a found link is a candidate's Tidal album link whose fetched album equals the source album; no candidates means `UnsuccessfulConversion` |
| Tidal.FirstMatchingAlbumIsFirst | src/api/tidal.rs:373-382 | every earlier candidate was fetched and did not match |
| Tidal.FirstMatchingAlbumNoneMatch | src/api/tidal.rs:373-382 | when every candidate is fetched and rejected, the search ends in `UnsuccessfulConversion` |
| Tidal.FirstMatchingAlbumFetchPanics | src/api/tidal.rs:376 | when the candidates before one are rejected and that one cannot be fetched, the search panics |
| Tidal.AlbumLinkOf | src/api/tidal.rs:353-383 | a found link is a Tidal album link in the given country whose fetched album equals the source album; an empty candidate list means `UnsuccessfulConversion` |
| Tidal.AlbumLinkNoneMatch | src/api/tidal.rs:353-383 | when the UPC filter answers and every candidate is fetched and rejected, the result is `UnsuccessfulConversion` |
| Tidal.GetAlbumLink | src/api/tidal.rs:353-383 | the candidate loop, which returns the first equal candidate and panics on a fetch error, computes exactly `AlbumLinkOf` |
| Tidal.GetBearerToken | src/api/tidal.rs:98-108 | the cached token while live, the token object unchanged; otherwise a refresh: on success the new token and expiry are stored and the token returned, and a lifetime over five seconds leaves it live; on failure the error propagates and token and expiry are kept; the endpoint never changes |
| Spotify.AlbumlessArtists | src/api/spotify.rs:96-99 | one album-less artist per name, in order |
| Spotify.SongDataOf | src/api/spotify.rs:75-108 | succeeds iff the track decodes with an ISRC; the title is the track name and its key; the duration is the milliseconds truncated to seconds; no albums; one album-less artist per API artist, in order |
| Spotify.GetSongData | src/api/spotify.rs:75-108 | the artist push loop computes exactly `SongDataOf` |
| Spotify.AlbumDataOf | src/api/spotify.rs:110-137 | succeeds iff the album decodes with a UPC; limited info with that name and UPC |
| Spotify.AlbumLinkOf | src/api/spotify.rs:143-179 | succeeds iff the UPC search has exactly one hit, which becomes a Spotify album link in the given country |
| Spotify.SongLinkOf | src/api/spotify.rs:181-217 | succeeds iff the ISRC search has at least one hit; the first becomes a Spotify song link in the given country |
| Spotify.GetBearerToken | src/api/spotify.rs:64-74 | as for Tidal, except that a failed refresh is a panic |
| Deezer.DecimalString | src/api/deezer.rs:116-121 | `u64::to_string`: digits only, no leading zero |
| Deezer.DecimalRoundTrip | src/api/deezer.rs:116-121 | reading a rendered id back gives the number |
| Deezer.DecimalInjective | src/api/deezer.rs:116-121 | distinct ids render differently |
| Deezer.PreferredCover | src/api/deezer.rs:168-177 | medium, else small, else big, else the mandatory cover |
| Deezer.CoverArt | src/api/deezer.rs:150-178 | succeeds iff the covers decode, with the preferred cover |
| Deezer.AlbumLinkFor | src/api/deezer.rs:52-57 | the Deezer album link for a track's album, in the link's country, with an all-digit id that reads back as the album id |
| Deezer.AlbumDataOf | src/api/deezer.rs:72-92 | succeeds iff the album decodes; no songs, no artists, its title and UPC |
| Deezer.SongDataOf | src/api/deezer.rs:26-70 | succeeds iff the track decodes and its album, fetched via the track's decimal album id, succeeds; then the title, ISRC and duration are the track's, the albums are exactly that album, and the one artist is the track's artist with that album |
| Deezer.SongLinkOf | src/api/deezer.rs:98-122 | a Deezer song link in the given country whose all-digit id reads back as the found id |
| Deezer.AlbumLinkOf | src/api/deezer.rs:124-148 | a Deezer album link in the given country whose all-digit id reads back as the found id |
| Api.LinkToData | src/api/mod.rs:26-46 | artist links fail; Deezer and Apple Music fail; otherwise the result is exactly that client's song or album data for the link, wrapped as `Song` or `Album`, and its error when the fetch fails |
| Api.DataToLink | src/api/mod.rs:47-67 | artist data fails; Deezer and Apple Music fail; otherwise the result is exactly that client's song or album link search for the data in the given country, success or error, and a found link is on that platform and country |
| Conversion.EmptyFor | src/api/conversion.rs:32-40 | the placeholder carries the provider name and nothing else |
| Conversion.FromLinkAndData | src/api/conversion.rs:42-50 | url is the printed link, artwork is empty, provider, type and name come from the link and data |
| Conversion.NewClients | src/api/conversion.rs:61-78 | a Spotify or Tidal client exactly when its credentials exist; never Deezer or Apple Music; a token that cannot be obtained is a panic |
| Conversion.SupportedClients | src/api/conversion.rs:80-108 | a key for exactly each configured client, mapped to a client of that platform |
| Conversion.GetSupportedClients | src/api/conversion.rs:80-108 | the four conditional insertions compute exactly `SupportedClients` |
| Conversion.ProviderResult | src/api/conversion.rs:128-162 | an unconfigured provider gives its placeholder; a configured one succeeds only if both its link and data requests do, with the printed link as url |
| Conversion.Convert | src/api/conversion.rs:111-174 | a parse error is returned; an unsupported source platform fails; success gives four entries for Spotify, Tidal, Deezer and Apple Music in that order |
| Conversion.Entries | src/api/conversion.rs:128-172 | a built list has four entries, for Spotify, Tidal, Deezer and Apple Music in that order |
| Conversion.EntriesAllOrNothing | src/api/conversion.rs:128-172 | a built list means every provider succeeded, and each entry is that provider's own result |
| Conversion.ConvertIsAllOrNothing | src/api/conversion.rs:122-172 | a successful conversion means every provider succeeded and each entry is that provider's own result |
| Conversion.UnconfiguredPlaceholders | src/api/conversion.rs:75-76 | with the clients `ApiClients::new` builds, the Deezer and Apple Music entries are placeholders |

## Left out

- Network requests, `reqwest` and `serde_json` decoding are replaced by decoded
  `Response` values given as inputs. A bearer token used inside a data request
  is not modelled there; `GetBearerToken` is modelled on its own.
- Async execution, the `RwLock` around the token and concurrency are left out.
  Token handling is sequential, and the missing re-check of expiry after taking
  the write lock (src/api/tidal.rs:105-107) is not captured.
- The system clock is a parameter `now`. `AccessToken::new` and `is_expired`
  each read the clock, and the model gives them one reading.
- `Authorization.Issue`: the expiry is an unbounded integer. The `u64`
  overflow of `time_now + expires_in` (a panic in a debug build, a
  wrap-around in a release build) is not modelled; it needs an `expires_in`
  near 2^64. The subtraction of 5 cannot underflow for a clock reading past
  the epoch's first five seconds.
- Unicode decomposition, combining-mark removal and lower-casing, and the
  regexes `DECORATION_RE`, `ALBUM_DECORATION_RE` and `FEAT_RE`, are the
  parameters `Norm.Rules`; their behaviour is not modelled. `char::is_whitespace`
  is written out as the Unicode White_Space set.
- `Norm.ReplaceConnectors`: its own contract states only that it maps the
  empty string, and only it, to the empty string. Its behaviour is proved in
  lemmas: no connector character survives, text without a match is kept, and
  the `x`, `&` and comma connectors are each shown replaced between two
  one-letter names. A value lemma on a longer literal name makes the solver
  unfold the replacement character by character, so the model has none.
- `Entities.Ceil90` and `Entities.Half` are exact integer ceilings. The source
  computes them in `f64` (src/shared_item/album.rs:51-52,
  src/shared_item/artist.rs:46-47); float rounding is not modelled.
- `Entities.ArtistData.AddAlbum` and `Entities.ArtistData.AddMultipleAlbums`
  return the updated artist instead of mutating it in place. Artists are
  values everywhere else in the model.
- The `iso8601` string parser is replaced by its parsed fields (`Tidal.IsoDuration`).
  A string it cannot parse is `None`, and the `unwrap` on it is a panic.
- `rust_iso3166::from_alpha2` is the table of assigned codes in `Iso3166`.
- The source mixes revisions. The model follows `src/shared_item/album.rs` and
  `src/share_link.rs`:
  - `AlbumData::new` is called with a duration at src/api/tidal.rs:211-217, and
    `with_limited_info` at src/api/tidal.rs:148 and :290. The duration argument
    is dropped (it is still converted, so a bad duration still panics).
    src/api/spotify.rs:136 does the same.
  - `LinkType` has no `Deezer` variant (src/share_link.rs:5-9), but the Deezer
    client and the orchestrator use one, so the model adds it. `to_url` has no
    arm for it, so `ShareLinks.ToUrl` requires a non-Deezer link.
  - `ShareLink::new` takes the country by value but is called with a reference;
    the model passes the code.
  - `TidalApi::new` returns a `Result` that src/api/conversion.rs:69 stores as
    if it were the client. The model unwraps it, so a failure is a panic as for
    Spotify.
  - `ApiError` is not defined in the files shown. `ApiTypes.ApiError` names the
    variants used and adds `RequestFailed`, `BodyUndecodable`,
    `TokenUnavailable`, `InvalidLink`, `Unsupported` and `Panic` for the errors
    `?` and `bail!` carry.
  - `LinkType` has no `Display` implementation here. The supported-client map
    is keyed by `LinkType` instead of its string, and provider names, data
    types and display names are an abstract `Conversion.Naming`.
- `get_artist_data` of Spotify and Deezer is `todo!()` in the source and is not
  modelled. The dispatch never calls it.
- The Apple Music client (src/api/apple_music.rs) is not part of this model.
  The dispatch and the orchestrator only ever produce errors or placeholders
  for it.
- `Conversion.Convert` returns the list of results. Its `serde_json`
  serialisation is not modelled.
- `Conversion.NewClients` takes each platform's endpoints as a parameter rather
  than building a `reqwest` client.
- Failures from a configured provider are not tolerated. The code propagates
  them with `?`, so one failing provider fails the whole conversion; the model
  follows the code.

## Findings

| source | as written | input that shows it | evidently intended | confidence | as-written member | corrected member |
|---|---|---|---|---|---|---|
| src/shared_item/song.rs:48 | `other.duration - 2` is `u64` subtraction. It wraps in a release build (and panics in a debug build) when `other.duration < 2`. | two songs with the same ISRC and a duration of 1 second: as written the duration test fails even against itself | durations at most two seconds apart match | not executed | Entities.ShortSongFailsDurationTest | Entities.DurationsCloseSymmetric |

The as-written test is `Entities.DurationsCloseAsWritten`, which models the
release build's wrap-around. `Entities.DurationTestAgreesInRange` shows that
it agrees with the intended `Entities.DurationsClose` except at the ends of
the `u64` range. The song equality (`Entities.SongMatches`, computed by
`Entities.SongData.Eq`) uses the intended test.
