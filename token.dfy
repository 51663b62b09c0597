/** The `AuthorizationToken` value object and the JSON dictionary it is built from. */
module Token {
  import opened Wrappers

  /** The token endpoint's JSON body; a missing key is None. Instants and
      durations are whole seconds. */
  datatype TokenBody = TokenBody(
    accessToken: Option<string>,
    expiresIn: Option<int>,
    expiresAt: Option<int>,
    patient: Option<string>,
    refreshToken: Option<string>,
    scope: Option<string>,
    tokenType: Option<string>)

  /** The fields `AuthorizationToken.__init__` assigns; `expiresAt` is always an instant. */
  datatype AuthorizationToken = AuthorizationToken(
    accessToken: Option<string>,
    expiresIn: Option<int>,
    expiresAt: int,
    patient: Option<string>,
    refreshToken: Option<string>,
    scope: Option<string>,
    tokenType: Option<string>)

  /** `AuthorizationToken(auth_token)` at instant `now`: an `expires_at` in the
      dictionary takes precedence; only without one is `now + expires_in`
      computed, and without either `timedelta(seconds=None)` raises. */
  function NewToken(body: TokenBody, now: int): (r: Result<AuthorizationToken>)
    ensures r.Ok? <==> body.expiresAt.Some? || body.expiresIn.Some?
    ensures r.Err? ==> r.error == TypeError
    ensures body.expiresAt.Some? ==> r.Ok? && r.value.expiresAt == body.expiresAt.value
    ensures body.expiresAt.None? && body.expiresIn.Some? ==>
              r.Ok? && r.value.expiresAt == now + body.expiresIn.value
    ensures r.Ok? ==> r.value.accessToken == body.accessToken && r.value.expiresIn == body.expiresIn
                      && r.value.patient == body.patient && r.value.refreshToken == body.refreshToken
                      && r.value.scope == body.scope && r.value.tokenType == body.tokenType
  {
    var expiresAt :=
      if body.expiresAt.Some? then Some(body.expiresAt.value)
      else if body.expiresIn.Some? then Some(now + body.expiresIn.value)
      else None;
    match expiresAt
    case None => Err(TypeError)
    case Some(at) =>
      Ok(AuthorizationToken(body.accessToken, body.expiresIn, at, body.patient,
                            body.refreshToken, body.scope, body.tokenType))
  }

  /** `access_token_expired()`: strictly past the expiry instant. */
  predicate AccessTokenExpired(t: AuthorizationToken, now: int)
  {
    t.expiresAt < now
  }

  /** The token as a plain dictionary, with its absolute expiry. */
  function TokenDict(t: AuthorizationToken): TokenBody
  {
    TokenBody(t.accessToken, t.expiresIn, Some(t.expiresAt), t.patient, t.refreshToken, t.scope, t.tokenType)
  }

  /** Rebuilding a token from its dictionary at any later instant gives the
      same token: the expiry is never recomputed once it is absolute. */
  lemma TokenDictRoundTrip(t: AuthorizationToken, later: int)
    ensures NewToken(TokenDict(t), later) == Ok(t)
  {
  }

  /** A token is not expired at its expiry instant, is expired ten seconds
      later, and stays expired from then on. */
  lemma ExpiryBoundary(t: AuthorizationToken, now: int, later: int)
    ensures !AccessTokenExpired(t, t.expiresAt)
    ensures AccessTokenExpired(t, t.expiresAt + 10)
    ensures AccessTokenExpired(t, now) && now <= later ==> AccessTokenExpired(t, later)
  {
  }

  /** A token built at `now` from a non-negative `expires_in` is not yet expired at `now`. */
  lemma FreshTokenNotExpired(body: TokenBody, now: int)
    requires body.expiresAt.None? && body.expiresIn.Some? && body.expiresIn.value >= 0
    ensures NewToken(body, now).Ok? && !AccessTokenExpired(NewToken(body, now).value, now)
  {
  }
}
