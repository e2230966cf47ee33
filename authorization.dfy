/** The OAuth client-credentials token kept by each platform client
    (`api/authorization.rs`). The system clock is a parameter (`now`, in
    seconds since the epoch) and the token endpoint is a function from the
    endpoint URL to the decoded reply of one exchange with it. */
module Authorization {
  import opened Wrappers

  /** The decoded body of a token response. */
  datatype TokenBody = TokenBody(accessToken: string, expiresIn: nat)

  /** Why a token could not be obtained. */
  datatype AuthError = AuthRequestFailed(reason: string) | AuthBodyUndecodable(reason: string)

  /** The endpoint as seen from the client: URL to the outcome of one
      request to it. */
  type TokenEndpoint = string -> Response<TokenBody>

  /** The expiry recorded for a token issued at `now`: five seconds earlier
      than the server's own deadline. */
  function IssuedExpiry(now: nat, expiresIn: nat): int {
    now + expiresIn - 5
  }

  /** The outcome of one token request: the new token and its expiry, or the
      request's error. */
  function Issue(now: nat, reply: Response<TokenBody>): (r: Result<(string, int), AuthError>)
    ensures r.Success? <==> reply.Decoded?
    ensures r.Success? ==> r.value == (reply.body.accessToken, IssuedExpiry(now, reply.body.expiresIn))
  {
    match reply
    case Failed(reason) => Failure(AuthRequestFailed(reason))
    case Undecodable(reason) => Failure(AuthBodyUndecodable(reason))
    case Decoded(body) => Success((body.accessToken, IssuedExpiry(now, body.expiresIn)))
  }

  /** A token is live for exactly the `expires_in - 5` seconds after issue:
      it is not expired at the instant of issue iff `expires_in > 5`. */
  lemma FreshTokenLive(now: nat, expiresIn: nat)
    ensures now < IssuedExpiry(now, expiresIn) <==> expiresIn > 5
  {}

  class AccessToken {
    var token: string
    var expiry: int
    var authEndpoint: string

    constructor (token: string, expiry: int, authEndpoint: string)
      ensures this.token == token && this.expiry == expiry && this.authEndpoint == authEndpoint
    {
      this.token := token;
      this.expiry := expiry;
      this.authEndpoint := authEndpoint;
    }

    /** `AccessToken::new`: the clock is read first, then the endpoint is
        asked for a token; any request or decoding failure is returned. */
    static method New(now: nat, endpoint: TokenEndpoint, authEndpoint: string)
      returns (r: Result<AccessToken, AuthError>)
      ensures r.Success? <==> Issue(now, endpoint(authEndpoint)).Success?
      ensures r.Failure? ==> r.error == Issue(now, endpoint(authEndpoint)).error
      ensures r.Success? ==> fresh(r.value)
      ensures r.Success? ==> (r.value.token, r.value.expiry) == Issue(now, endpoint(authEndpoint)).value
      ensures r.Success? ==> r.value.authEndpoint == authEndpoint
    {
      var issued := Issue(now, endpoint(authEndpoint));
      if issued.Failure? {
        return Failure(issued.error);
      }
      var t := new AccessToken(issued.value.0, issued.value.1, authEndpoint);
      return Success(t);
    }

    /** `refresh`: a new token is requested from the stored endpoint; on
        success token and expiry are replaced, on failure nothing changes. */
    method Refresh(now: nat, endpoint: TokenEndpoint) returns (r: Result<(), AuthError>)
      modifies this
      ensures authEndpoint == old(authEndpoint)
      ensures r.Success? <==> Issue(now, endpoint(old(authEndpoint))).Success?
      ensures r.Success? ==> (token, expiry) == Issue(now, endpoint(old(authEndpoint))).value
      ensures r.Failure? ==> token == old(token) && expiry == old(expiry)
      ensures r.Failure? ==> r.error == Issue(now, endpoint(old(authEndpoint))).error
    {
      var refreshed := New(now, endpoint, authEndpoint);
      if refreshed.Failure? {
        return Failure(refreshed.error);
      }
      token := refreshed.value.token;
      expiry := refreshed.value.expiry;
      return Success(());
    }

    /** `is_expired`: expired once the clock has reached the expiry, the
        expiry instant included. */
    predicate IsExpired(now: nat): (expired: bool)
      reads this
      ensures expired <==> expiry <= now
    {
      !(now < expiry)
    }

    /** Once expired, a token stays expired until it is refreshed. */
    lemma ExpiredStaysExpired(now: nat, later: nat)
      requires now <= later && IsExpired(now)
      ensures IsExpired(later)
    {}
  }

  /** A token refreshed with a lifetime over five seconds is live at the
      instant of refresh. */
  lemma RefreshedTokenLive(now: nat, reply: Response<TokenBody>)
    requires reply.Decoded? && reply.body.expiresIn > 5
    ensures Issue(now, reply).Success? && now < Issue(now, reply).value.1
  {
    FreshTokenLive(now, reply.body.expiresIn);
  }
}
