/** The `AuthRequest` class of src/cms_bluebutton/auth.py: one authorization
    session over a configured `BlueButton`, holding its PKCE data, its
    authorize URL and the token it obtains. Its private helpers
    (`_get_random_string`, `_generate_random_state`, `_generate_pkce_data`,
    `_generate_authdata`) are the same code as the module functions of the
    `Auth` module and are modelled by them. */
module SrcCmsAuth {
  import opened Wrappers
  import opened Values
  import opened Http
  import opened Token
  import opened Settings
  import Auth
  import UrlEncoding
  import SrcBlueButton

  /** `_generate_authorize_url()` as written: `redirect_uri` is given the
      client secret. */
  function AuthorizeUrlAsWritten(authBaseUrl: string, clientId: ConfigValue, clientSecret: ConfigValue,
                                 callbackUrl: ConfigValue, authData: map<string, string>): (r: Result<string>)
    ensures r.Ok? <==> "state" in authData && "code_challenge" in authData
  {
    Auth.AuthorizeUrlFor(authBaseUrl, clientId, clientSecret, authData)
  }

  /** The authorize URL as written puts the client secret, not the callback
      URL, in `redirect_uri`: the secret travels through the browser. */
  lemma AsWrittenRedirectIsSecret(authBaseUrl: string, clientId: ConfigValue, clientSecret: ConfigValue,
                                  callbackUrl: ConfigValue, authData: map<string, string>)
    requires "state" in authData && "code_challenge" in authData
    ensures var r := AuthorizeUrlAsWritten(authBaseUrl, clientId, clientSecret, callbackUrl, authData);
            r.Ok? && |r.value| > |authBaseUrl|
            && var q := UrlEncoding.ParseQuery(r.value[|authBaseUrl| + 1..]);
               q.Some? && |q.value| == 6
               && q.value[1] == (Utf8("redirect_uri"), Utf8(Show(clientSecret)))
  {
    Auth.AuthorizeUrlDecodes(authBaseUrl, clientId, clientSecret, authData);
  }

  /** The evidently intended authorize URL: `redirect_uri` is the callback URL,
      as in cms_bluebutton/auth.py. */
  function AuthorizeUrl(authBaseUrl: string, clientId: ConfigValue, clientSecret: ConfigValue,
                        callbackUrl: ConfigValue, authData: map<string, string>): (r: Result<string>)
    ensures r.Ok? <==> "state" in authData && "code_challenge" in authData
  {
    Auth.AuthorizeUrlFor(authBaseUrl, clientId, callbackUrl, authData)
  }

  /** The corrected URL's query decodes to the callback URL in `redirect_uri`. */
  lemma CorrectedRedirectIsCallback(authBaseUrl: string, clientId: ConfigValue, clientSecret: ConfigValue,
                                    callbackUrl: ConfigValue, authData: map<string, string>)
    requires "state" in authData && "code_challenge" in authData
    ensures var r := AuthorizeUrl(authBaseUrl, clientId, clientSecret, callbackUrl, authData);
            r.Ok? && |r.value| > |authBaseUrl|
            && var q := UrlEncoding.ParseQuery(r.value[|authBaseUrl| + 1..]);
               q.Some? && |q.value| == 6
               && q.value[1] == (Utf8("redirect_uri"), Utf8(Show(callbackUrl)))
  {
    Auth.AuthorizeUrlDecodes(authBaseUrl, clientId, callbackUrl, authData);
  }

  /** `_get_access_token(code)` then `AuthorizationToken(...)`: a multipart
      POST without the SDK header, raising on 4xx/5xx, the expiry stamped. */
  function ExchangeCode(tokenUrl: string, clientId: ConfigValue, clientSecret: ConfigValue, callbackUrl: ConfigValue,
                        authData: map<string, string>, code: string,
                        post: TokenRequest -> Response<TokenBody>, now: int): (c: Call<AuthorizationToken>)
    ensures Auth.ExchangeFields(clientId, clientSecret, code, callbackUrl, authData).Err? ==>
              c == Call([], Err(Auth.ExchangeFields(clientId, clientSecret, code, callbackUrl, authData).error))
    ensures Auth.ExchangeFields(clientId, clientSecret, code, callbackUrl, authData).Ok? ==>
              c.sent == [TokenRequest(tokenUrl, Multipart,
                                      Auth.ExchangeFields(clientId, clientSecret, code, callbackUrl, authData).value,
                                      [], None)]
    ensures |c.sent| == 1 && IsErrorStatus(post(c.sent[0]).status) ==>
              c.result == Err(HttpError(post(c.sent[0]).status))
    // Any other status gives the token of the stamped body.
    ensures |c.sent| == 1 && !IsErrorStatus(post(c.sent[0]).status) ==>
              c.result == (match Auth.StampExpiry(post(c.sent[0]).body, now)
                           case Ok(b) => NewToken(b, now)
                           case Err(e) => Err(e))
    ensures c.result.Ok? ==>
              |c.sent| == 1 && !IsErrorStatus(post(c.sent[0]).status) && post(c.sent[0]).body.expiresIn.Some?
              && c.result.value.expiresAt == now + post(c.sent[0]).body.expiresIn.value
  {
    match Auth.ExchangeFields(clientId, clientSecret, code, callbackUrl, authData)
    case Err(e) => Call([], Err(e))
    case Ok(fields) =>
      var exchange := Auth.ExchangeCall(TokenRequest(tokenUrl, Multipart, fields, [], None), post, now);
      match exchange.result
      case Err(e) => Call(exchange.sent, Err(e))
      case Ok(body) => Call(exchange.sent, NewToken(body, now))
  }

  /** `refresh_access_token()`: the fields travel in the query string, with
      basic authentication and no SDK header; 4xx/5xx raises. */
  function Refresh(tokenUrl: string, clientId: ConfigValue, clientSecret: ConfigValue,
                   token: Option<AuthorizationToken>, post: TokenRequest -> Response<TokenBody>, now: int)
    : (c: Call<AuthorizationToken>)
    ensures token.None? ==> c == Call([], Err(AttributeError("refresh_token")))
    ensures token.Some? ==>
              c.sent == [TokenRequest(tokenUrl, QueryString, Auth.RefreshFields(clientId, token.value.refreshToken),
                                      [], Some((clientId, clientSecret)))]
              && (IsErrorStatus(post(c.sent[0]).status) ==> c.result == Err(HttpError(post(c.sent[0]).status)))
              && (!IsErrorStatus(post(c.sent[0]).status) ==> c.result == NewToken(post(c.sent[0]).body, now))
  {
    match token
    case None => Call([], Err(AttributeError("refresh_token")))
    case Some(t) =>
      var req := TokenRequest(tokenUrl, QueryString, Auth.RefreshFields(clientId, t.refreshToken),
                              [], Some((clientId, clientSecret)));
      var response := post(req);
      if IsErrorStatus(response.status) then Call([req], Err(HttpError(response.status)))
      else Call([req], NewToken(response.body, now))
  }

  /** `_generate_authdata()` followed by `_generate_authorize_url()` as
      written, so the stored URL carries the client secret in `redirect_uri`. */
  method NewSession(authBaseUrl: string, clientId: ConfigValue, clientSecret: ConfigValue, callbackUrl: ConfigValue,
                    statePicks: seq<nat>, verifierPicks: seq<nat>, sha256: seq<Byte> -> seq<Byte>)
    returns (authData: map<string, string>, url: string)
    requires |statePicks| == 32 && |verifierPicks| == 32
    ensures Auth.PkceAuthData(authData, sha256)
    ensures AuthorizeUrlAsWritten(authBaseUrl, clientId, clientSecret, callbackUrl, authData) == Ok(url)
  {
    authData := Auth.GenerateAuthData(statePicks, verifierPicks, sha256);
    url := AuthorizeUrlAsWritten(authBaseUrl, clientId, clientSecret, callbackUrl, authData).value;
  }

  class AuthRequest {
    const bb: SrcBlueButton.BlueButton
    const authBaseUrl: string
    const authTokenUrl: string
    const authData: map<string, string>
    const authUrl: string
    var authToken: Option<AuthorizationToken>

    /** `__init__(bb)`: the endpoints from the client's base URL and version,
        fresh PKCE data, and the authorize URL built from them as written. */
    constructor(bb: SrcBlueButton.BlueButton, statePicks: seq<nat>, verifierPicks: seq<nat>,
                sha256: seq<Byte> -> seq<Byte>)
      requires |statePicks| == 32 && |verifierPicks| == 32
      ensures this.bb == bb && authToken == None
      ensures authBaseUrl == AuthorizeEndpoint(ShowOpt(bb.baseUrl), bb.version)
      ensures authTokenUrl == TokenEndpoint(ShowOpt(bb.baseUrl), bb.version)
      ensures Auth.PkceAuthData(authData, sha256)
      ensures AuthorizeUrlAsWritten(authBaseUrl, bb.clientId, bb.clientSecret, bb.callbackUrl, authData) == Ok(authUrl)
    {
      var base := AuthorizeEndpoint(ShowOpt(bb.baseUrl), bb.version);
      var data, url := NewSession(base, bb.clientId, bb.clientSecret, bb.callbackUrl, statePicks, verifierPicks, sha256);
      this.bb := bb;
      authBaseUrl := base;
      authTokenUrl := TokenEndpoint(ShowOpt(bb.baseUrl), bb.version);
      authData := data;
      authUrl := url;
      authToken := None;
    }

    /** `get_authorize_url()`. */
    function GetAuthorizeUrl(): (url: string)
      ensures url == authUrl
    {
      authUrl
    }

    /** `authorize_callback(code, state)`: the three checks, then the
        exchange; the session keeps the token only when one is returned. */
    method AuthorizeCallback(code: Option<string>, state: Option<string>,
                             post: TokenRequest -> Response<TokenBody>, now: int)
      returns (c: Call<AuthorizationToken>)
      modifies this
      ensures Auth.CheckCallback(authData, code, state).Some? ==>
                c == Call([], Err(Auth.CheckCallback(authData, code, state).value))
      ensures Auth.CheckCallback(authData, code, state).None? ==>
                c == ExchangeCode(authTokenUrl, bb.clientId, bb.clientSecret, bb.callbackUrl, authData,
                                  code.value, post, now)
      ensures authToken == (if c.result.Ok? then Some(c.result.value) else old(authToken))
    {
      var check := Auth.CheckCallback(authData, code, state);
      if check.Some? {
        return Call([], Err(check.value));
      }
      c := ExchangeCode(authTokenUrl, bb.clientId, bb.clientSecret, bb.callbackUrl, authData, code.value, post, now);
      if c.result.Ok? {
        authToken := Some(c.result.value);
      }
    }

    /** `access_token_expired()`: an AttributeError before any token exists. */
    method AccessTokenExpired(now: int) returns (r: Result<bool>)
      ensures authToken.None? ==> r == Err(AttributeError("access_token_expired"))
      ensures authToken.Some? ==> r == Ok(authToken.value.expiresAt < now)
    {
      if authToken.None? {
        return Err(AttributeError("access_token_expired"));
      }
      r := Ok(Token.AccessTokenExpired(authToken.value, now));
    }

    /** `refresh_access_token()`: the session's token is replaced only when
        a new one is returned. */
    method RefreshAccessToken(post: TokenRequest -> Response<TokenBody>, now: int)
      returns (c: Call<AuthorizationToken>)
      modifies this
      ensures c == Refresh(authTokenUrl, bb.clientId, bb.clientSecret, old(authToken), post, now)
      ensures authToken == (if c.result.Ok? then Some(c.result.value) else old(authToken))
    {
      c := Refresh(authTokenUrl, bb.clientId, bb.clientSecret, authToken, post, now);
      if c.result.Ok? {
        authToken := Some(c.result.value);
      }
    }
  }
}
