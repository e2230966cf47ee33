/** The conversion orchestrator (`api/conversion.rs`): the clients that are
    configured, the supported-client table, and `convert`, which parses a
    link, reads the item from its own platform and asks every configured
    platform for its link to the same item. The JSON serialisation of the
    result list is not modelled; `convert` returns the list. */
module Conversion {
  import opened Wrappers
  import opened Entities
  import opened ApiTypes
  import opened Api
  import Authorization
  import ShareLinks
  import Spotify
  import Tidal

  /** The names the source takes from `Display` impls and from the `Data`
      accessors that are not part of this model. */
  datatype Naming = Naming(
    provider: ShareLinks.LinkType -> string,
    dataType: Data -> string,
    displayName: Data -> string)

  /** One entry of the result list. */
  datatype Link = Link(provider: string, objectType: string, displayName: string, url: string, artwork: string)

  /** `Link::empty_for`: the placeholder of a platform that is not
      configured. */
  function EmptyFor(naming: Naming, provider: ShareLinks.LinkType): (l: Link)
    ensures l.provider == naming.provider(provider)
    ensures l.objectType == [] && l.displayName == [] && l.url == [] && l.artwork == []
  {
    Link(naming.provider(provider), "", "", "", "")
  }

  /** `Link::from_link_and_data`: the URL is the printed link and the
      artwork is always empty. */
  function FromLinkAndData(naming: Naming, link: ShareLinks.ShareLink, data: Data): (l: Link)
    requires link.linkType != ShareLinks.Deezer
    ensures l.provider == naming.provider(link.linkType)
    ensures l.objectType == naming.dataType(data) && l.displayName == naming.displayName(data)
    ensures l.url == ShareLinks.ToUrl(link) && l.artwork == []
  {
    Link(naming.provider(link.linkType), naming.dataType(data), naming.displayName(data), ShareLinks.ToUrl(link), "")
  }

  // ---------------------------------------------------------------------
  // ApiClients
  // ---------------------------------------------------------------------

  /** `ClientCredentials`. */
  datatype ClientCredentials = ClientCredentials(clientId: string, clientSecret: string)

  /** `Credentials`: one optional entry per platform. */
  datatype Credentials = Credentials(
    tidal: Option<ClientCredentials>,
    spotify: Option<ClientCredentials>,
    appleMusic: Option<string>,
    deezer: Option<ClientCredentials>)

  /** `ApiClients`: one optional client per platform. */
  datatype ApiClients = ApiClients(
    spotify: Option<SpotifyApi>,
    tidal: Option<TidalApi>,
    deezer: Option<Deezer.DeezerServer>,
    appleMusic: Option<AppleMusicApi>)

  /** Whether a token request with these credentials succeeds now. */
  predicate TokenIssued(now: nat, endpoints: ClientCredentials -> Authorization.TokenEndpoint,
                        creds: ClientCredentials, authEndpoint: string)
  {
    Authorization.Issue(now, endpoints(creds)(authEndpoint)).Success?
  }

  /** `ApiClients::new`: a Spotify client exactly when there are Spotify
      credentials, a Tidal client exactly when there are Tidal credentials,
      and never a Deezer or an Apple Music client. Each client obtains its
      token first; a token that cannot be obtained is a panic. */
  method NewClients(creds: Credentials, now: nat, endpoints: ClientCredentials -> Authorization.TokenEndpoint,
                    spotifyServer: Spotify.SpotifyServer, tidalServer: Tidal.TidalServer)
    returns (r: Result<ApiClients, ApiError>)
    ensures r.Success? <==>
      && (creds.spotify.Some? ==> TokenIssued(now, endpoints, creds.spotify.value, Spotify.AuthEndpoint))
      && (creds.tidal.Some? ==> TokenIssued(now, endpoints, creds.tidal.value, Tidal.AuthEndpoint))
    ensures r.Failure? ==> r.error.Panic?
    ensures r.Success? ==> (r.value.spotify.Some? <==> creds.spotify.Some?)
    ensures r.Success? ==> (r.value.tidal.Some? <==> creds.tidal.Some?)
    ensures r.Success? ==> r.value.deezer.None? && r.value.appleMusic.None?
    ensures r.Success? && r.value.spotify.Some? ==> r.value.spotify.value.server == spotifyServer
    ensures r.Success? && r.value.tidal.Some? ==> r.value.tidal.value.server == tidalServer
  {
    var spotify: Option<SpotifyApi> := None;
    var tidal: Option<TidalApi> := None;

    if creds.spotify.Some? {
      var token := Authorization.AccessToken.New(now, endpoints(creds.spotify.value), Spotify.AuthEndpoint);
      if token.Failure? {
        return Failure(Panic("called `Result::unwrap()` on an `Err` value"));
      }
      spotify := Some(SpotifyApi(spotifyServer, token.value));
    }
    if creds.tidal.Some? {
      var token := Authorization.AccessToken.New(now, endpoints(creds.tidal.value), Tidal.AuthEndpoint);
      if token.Failure? {
        return Failure(Panic("called `Result::unwrap()` on an `Err` value"));
      }
      tidal := Some(TidalApi(tidalServer, token.value));
    }
    return Success(ApiClients(spotify, tidal, None, None));
  }

  /** The table `get_supported_clients` builds, keyed by platform. */
  function SupportedClients(clients: ApiClients): (m: map<ShareLinks.LinkType, ApiClient>)
    ensures ShareLinks.Spotify in m <==> clients.spotify.Some?
    ensures ShareLinks.Tidal in m <==> clients.tidal.Some?
    ensures ShareLinks.Deezer in m <==> clients.deezer.Some?
    ensures ShareLinks.AppleMusic in m <==> clients.appleMusic.Some?
    ensures forall t :: t in m ==> Platform(m[t]) == t
  {
    var m0: map<ShareLinks.LinkType, ApiClient> := map[];
    var m1 := if clients.spotify.Some? then m0[ShareLinks.Spotify := SpotifyClient(clients.spotify.value)] else m0;
    var m2 := if clients.tidal.Some? then m1[ShareLinks.Tidal := TidalClient(clients.tidal.value)] else m1;
    var m3 := if clients.deezer.Some? then m2[ShareLinks.Deezer := DeezerClient(clients.deezer.value)] else m2;
    if clients.appleMusic.Some? then m3[ShareLinks.AppleMusic := AppleMusicClient(clients.appleMusic.value)] else m3
  }

  /** `get_supported_clients` as written: an empty map and one insertion
      per configured client. */
  method GetSupportedClients(clients: ApiClients) returns (m: map<ShareLinks.LinkType, ApiClient>)
    ensures m == SupportedClients(clients)
  {
    m := map[];
    if clients.spotify.Some? {
      m := m[ShareLinks.Spotify := SpotifyClient(clients.spotify.value)];
    }
    if clients.tidal.Some? {
      m := m[ShareLinks.Tidal := TidalClient(clients.tidal.value)];
    }
    if clients.deezer.Some? {
      m := m[ShareLinks.Deezer := DeezerClient(clients.deezer.value)];
    }
    if clients.appleMusic.Some? {
      m := m[ShareLinks.AppleMusic := AppleMusicClient(clients.appleMusic.value)];
    }
  }

  // ---------------------------------------------------------------------
  // convert
  // ---------------------------------------------------------------------

  /** The platforms of the result list, in order. */
  const ResultOrder: seq<ShareLinks.LinkType> := [ShareLinks.Spotify, ShareLinks.Tidal, ShareLinks.Deezer, ShareLinks.AppleMusic]

  /** One platform's entry: the placeholder when it is not configured,
      otherwise its link for the item and the item as it reads it there;
      either request failing fails the entry. */
  function ProviderResult(keys: Keys, naming: Naming, supported: map<ShareLinks.LinkType, ApiClient>,
                          provider: ShareLinks.LinkType, data: Data, country: string): (r: Result<Link, ApiError>)
    requires forall t :: t in supported ==> Platform(supported[t]) == t
    ensures provider !in supported ==> r == Success(EmptyFor(naming, provider))
    ensures r.Success? ==> r.value.provider == naming.provider(provider)
    ensures provider in supported && r.Success? ==>
      var link := DataToLink(keys, supported[provider], data, country);
      && link.Success?
      && LinkToData(keys, supported[provider], link.value).Success?
      && r.value.url == ShareLinks.ToUrl(link.value)
      && r.value.artwork == []
  {
    if provider !in supported then Success(EmptyFor(naming, provider))
    else
      var client := supported[provider];
      var link :- DataToLink(keys, client, data, country);
      var linkData :- LinkToData(keys, client, link);
      Success(FromLinkAndData(naming, link, linkData))
  }

  /** `convert`: parse the link (its error is returned), require a client
      for its platform, read the item there, then build the four entries in
      order; the first failing entry fails the conversion. */
  function Convert(keys: Keys, naming: Naming, url: string, clients: ApiClients): (r: Result<seq<Link>, ApiError>)
    ensures ShareLinks.ParseUrl(url).Failure? ==> r == Failure(InvalidLink(ShareLinks.ParseUrl(url).error))
    ensures ShareLinks.ParseUrl(url).Success? && ShareLinks.ParseUrl(url).value.linkType !in SupportedClients(clients)
      ==> r.Failure? && r.error.Unsupported?
    ensures r.Success? ==> |r.value| == 4
    ensures r.Success? ==> forall k :: 0 <= k < 4 ==> r.value[k].provider == naming.provider(ResultOrder[k])
  {
    var parsed := ShareLinks.ParseUrl(url);
    if parsed.Failure? then Failure(InvalidLink(parsed.error))
    else
      var shareLink := parsed.value;
      var supported := SupportedClients(clients);
      if shareLink.linkType !in supported then
        Failure(Unsupported("Cannot convert links from " + naming.provider(shareLink.linkType) + "."))
      else
        var data :- LinkToData(keys, supported[shareLink.linkType], shareLink);
        Entries(keys, naming, supported, data, shareLink.countryCode)
  }

  /** The four entries of `convert`, in order; the first failing entry
      fails the list. */
  function Entries(keys: Keys, naming: Naming, supported: map<ShareLinks.LinkType, ApiClient>,
                   data: Data, country: string): (r: Result<seq<Link>, ApiError>)
    requires forall t :: t in supported ==> Platform(supported[t]) == t
    ensures r.Success? ==> |r.value| == 4
    ensures r.Success? ==> forall k :: 0 <= k < 4 ==> r.value[k].provider == naming.provider(ResultOrder[k])
  {
    var spotifyResult :- ProviderResult(keys, naming, supported, ShareLinks.Spotify, data, country);
    var tidalResult :- ProviderResult(keys, naming, supported, ShareLinks.Tidal, data, country);
    var deezerResult :- ProviderResult(keys, naming, supported, ShareLinks.Deezer, data, country);
    var appleMusicResult :- ProviderResult(keys, naming, supported, ShareLinks.AppleMusic, data, country);
    Success([spotifyResult, tidalResult, deezerResult, appleMusicResult])
  }

  /** The list succeeds only when every entry does, and each entry is that
      platform's own result. */
  lemma EntriesAllOrNothing(keys: Keys, naming: Naming, supported: map<ShareLinks.LinkType, ApiClient>,
                            data: Data, country: string)
    requires forall t :: t in supported ==> Platform(supported[t]) == t
    requires Entries(keys, naming, supported, data, country).Success?
    ensures forall k :: 0 <= k < 4 ==>
      ProviderResult(keys, naming, supported, ResultOrder[k], data, country)
      == Success(Entries(keys, naming, supported, data, country).value[k])
  {
    var r := Entries(keys, naming, supported, data, country);
    forall k | 0 <= k < 4
      ensures ProviderResult(keys, naming, supported, ResultOrder[k], data, country) == Success(r.value[k])
    {
      if k == 0 {} else if k == 1 {} else if k == 2 {} else {}
    }
  }

  /** The item read from the link's own platform, when parsing and the
      platform check pass. */
  function SourceData(keys: Keys, url: string, clients: ApiClients): Result<Data, ApiError>
    requires ShareLinks.ParseUrl(url).Success?
    requires ShareLinks.ParseUrl(url).value.linkType in SupportedClients(clients)
  {
    var shareLink := ShareLinks.ParseUrl(url).value;
    LinkToData(keys, SupportedClients(clients)[shareLink.linkType], shareLink)
  }

  /** A conversion succeeds only when every entry does, and each entry of
      the result is that platform's own result: there is no partial list. */
  lemma ConvertIsAllOrNothing(keys: Keys, naming: Naming, url: string, clients: ApiClients)
    requires Convert(keys, naming, url, clients).Success?
    ensures ShareLinks.ParseUrl(url).Success?
    ensures ShareLinks.ParseUrl(url).value.linkType in SupportedClients(clients)
    ensures SourceData(keys, url, clients).Success?
    ensures forall k :: 0 <= k < 4 ==>
      ProviderResult(keys, naming, SupportedClients(clients), ResultOrder[k],
                     SourceData(keys, url, clients).value, ShareLinks.ParseUrl(url).value.countryCode)
      == Success(Convert(keys, naming, url, clients).value[k])
  {
    var shareLink := ShareLinks.ParseUrl(url).value;
    var supported := SupportedClients(clients);
    var data := SourceData(keys, url, clients).value;
    assert Convert(keys, naming, url, clients) == Entries(keys, naming, supported, data, shareLink.countryCode);
    EntriesAllOrNothing(keys, naming, supported, data, shareLink.countryCode);
  }

  /** With clients built by `ApiClients::new`, the Deezer and Apple Music
      entries of a successful conversion are always placeholders. */
  lemma UnconfiguredPlaceholders(keys: Keys, naming: Naming, url: string, clients: ApiClients)
    requires clients.deezer.None? && clients.appleMusic.None?
    requires Convert(keys, naming, url, clients).Success?
    ensures Convert(keys, naming, url, clients).value[2] == EmptyFor(naming, ShareLinks.Deezer)
    ensures Convert(keys, naming, url, clients).value[3] == EmptyFor(naming, ShareLinks.AppleMusic)
  {
    ConvertIsAllOrNothing(keys, naming, url, clients);
    assert ResultOrder[2] == ShareLinks.Deezer && ResultOrder[3] == ShareLinks.AppleMusic;
  }
}
