/** What the platform clients share: the errors they return (the
    `ApiError` variants, the `anyhow` errors of `bail!` and `?`, and the
    panics of `unwrap`/`expect`, each made a value) and the `Data` carried
    between them. */
module ApiTypes {
  import opened Wrappers
  import opened Entities
  import Authorization
  import ShareLinks

  datatype ApiError =
    | UnsuitableLink
    | IncorrectAttributes
    | UnsuccessfulConversion
    | RequestFailed(reason: string)
    | BodyUndecodable(reason: string)
    | TokenUnavailable(authError: Authorization.AuthError)
    | InvalidLink(parseError: ShareLinks.ParseError)
    | Unsupported(message: string)
    | Panic(message: string)

  /** `shared_item::Data`: one song, album or artist. */
  datatype Data = Song(song: SongData) | Album(album: AlbumData) | Artist(artist: ArtistData)

  /** `response?` after `send().await?.text().await?` and
      `serde_json::from_str(..)?`: both failures are returned. */
  function Fetch<T>(reply: Response<T>): (r: Result<T, ApiError>)
    ensures r.Success? <==> reply.Decoded?
    ensures r.Success? ==> r.value == reply.body
    ensures reply.Failed? ==> r == Failure(RequestFailed(reply.reason))
    ensures reply.Undecodable? ==> r == Failure(BodyUndecodable(reply.reason))
  {
    match reply
    case Failed(reason) => Failure(RequestFailed(reason))
    case Undecodable(reason) => Failure(BodyUndecodable(reason))
    case Decoded(body) => Success(body)
  }

  /** A request failure returned with `?`, a body that does not decode
      unwrapped (`serde_json::from_str(..).unwrap()`): a panic. */
  function FetchOrPanic<T>(reply: Response<T>): (r: Result<T, ApiError>)
    ensures r.Success? <==> reply.Decoded?
    ensures r.Success? ==> r.value == reply.body
    ensures reply.Failed? ==> r == Failure(RequestFailed(reply.reason))
    ensures reply.Undecodable? ==> r.Failure? && r.error.Panic?
  {
    match reply
    case Failed(reason) => Failure(RequestFailed(reason))
    case Undecodable(reason) => Failure(Panic(reason))
    case Decoded(body) => Success(body)
  }
}
