/** The `AuthRequest` class of src/auth.py: an authorization session whose
    PKCE use is switched by the `pkce` setting, with a hand-built authorize
    URL and status-200 checks instead of `raise_for_status`. Its private
    helpers that generate random states and PKCE data are the same code as
    the module functions of the `Auth` module and are modelled by them. */
module SrcAuth {
  import opened Wrappers
  import opened Values
  import opened Http
  import opened Token
  import opened Settings
  import Auth
  import Base64Url
  import UrlEncoding

  /** The dictionary `bb.get_config()` returns, in the shape of `BB2_CONFIG`. */
  datatype Bb2Config = Bb2Config(
    baseUrl: ConfigValue,
    version: ConfigValue,
    clientId: ConfigValue,
    clientSecret: ConfigValue,
    callbackUrl: ConfigValue,
    pkce: bool)

  /** `BB2_TOKEN_URL`: unlike the packaged client, no trailing slash. */
  function TokenEndpointNoSlash(baseUrl: string, version: ConfigValue): (u: string)
    ensures TokenEndpoint(baseUrl, version) == u + "/"
  {
    baseUrl + "/v" + Show(version) + "/o/token"
  }

  /** `_generate_authdata()`: the state, and the PKCE data only when `pkce` is set. */
  method GenerateAuthData(pkce: bool, statePicks: seq<nat>, verifierPicks: seq<nat>, sha256: seq<Byte> -> seq<Byte>)
    returns (authData: map<string, string>)
    requires |statePicks| == 32 && |verifierPicks| == 32
    ensures pkce ==> Auth.PkceAuthData(authData, sha256)
    ensures !pkce ==> authData.Keys == {"state"} && Auth.RandomStateShape(authData["state"])
  {
    if pkce {
      authData := Auth.GenerateAuthData(statePicks, verifierPicks, sha256);
    } else {
      var state := Auth.GenerateRandomState(32, statePicks);
      authData := map["state" := state];
    }
  }

  /** `AUTH_URL_PKCE_PARAMS.format(code_challenge)`, or nothing without PKCE. */
  function PkceQuery(pkce: bool, authData: map<string, string>): (r: Result<string>)
    ensures r.Err? <==> pkce && "code_challenge" !in authData
    ensures !pkce ==> r == Ok("")
  {
    if !pkce then Ok("")
    else if "code_challenge" !in authData then Err(KeyError("code_challenge"))
    else Ok("&" + "code_challenge_method=S256" + "&" + ("code_challenge=" + authData["code_challenge"]))
  }

  /** The query part of `AUTH_URL_TEMPLATE`, values as `str()` gives them. */
  function TemplateQuery(cfg: Bb2Config, state: string, pkceParams: string): string
  {
    ("client_id=" + Show(cfg.clientId)) + "&" + ("redirect_uri=" + Show(cfg.callbackUrl)) + "&"
    + ("state=" + state) + "&" + "response_type=code" + pkceParams
  }

  /** `_generate_authorize_url()`: `AUTH_URL_TEMPLATE` filled in with no
      percent-encoding. The PKCE parameters are looked up first. */
  function AuthorizeUrl(authBaseUrl: string, cfg: Bb2Config, authData: map<string, string>): (r: Result<string>)
    ensures r.Err? <==> (cfg.pkce && "code_challenge" !in authData) || "state" !in authData
    ensures cfg.pkce && "code_challenge" !in authData ==> r == Err(KeyError("code_challenge"))
  {
    match PkceQuery(cfg.pkce, authData)
    case Err(e) => Err(e)
    case Ok(pkceParams) =>
      if "state" !in authData then Err(KeyError("state"))
      else Ok(authBaseUrl + "?" + TemplateQuery(cfg, authData["state"], pkceParams))
  }

  /** The query items the template writes, in order. */
  function AuthorizeItems(cfg: Bb2Config, authData: map<string, string>): (items: seq<string>)
    requires "state" in authData && (cfg.pkce ==> "code_challenge" in authData)
    ensures |items| == if cfg.pkce then 6 else 4
  {
    ["client_id=" + Show(cfg.clientId), "redirect_uri=" + Show(cfg.callbackUrl),
     "state=" + authData["state"], "response_type=code"]
    + (if cfg.pkce then ["code_challenge_method=S256", "code_challenge=" + authData["code_challenge"]] else [])
  }

  /** Joining one more part appends the separator and the part. */
  lemma {:induction false} JoinSnoc(parts: seq<string>, x: string, sep: char)
    requires |parts| >= 1
    ensures UrlEncoding.Join(parts + [x], sep) == UrlEncoding.Join(parts, sep) + [sep] + x
    decreases |parts|
  {
    if |parts| == 1 {
      assert parts + [x] == [parts[0], x];
      assert [parts[0], x][1..] == [x];
    } else {
      JoinSnoc(parts[1..], x, sep);
      assert (parts + [x])[1..] == parts[1..] + [x];
    }
  }

  /** Four parts joined by a separator. */
  lemma JoinFour(a: string, b: string, c: string, d: string, sep: char)
    ensures UrlEncoding.Join([a, b, c, d], sep) == a + [sep] + b + [sep] + c + [sep] + d
  {
    assert UrlEncoding.Join([a], sep) == a;
    JoinSnoc([a], b, sep);
    assert [a] + [b] == [a, b];
    JoinSnoc([a, b], c, sep);
    assert [a, b] + [c] == [a, b, c];
    JoinSnoc([a, b, c], d, sep);
    assert [a, b, c] + [d] == [a, b, c, d];
  }

  /** Two more parts after four. */
  lemma JoinSix(a: string, b: string, c: string, d: string, e: string, f: string, sep: char)
    ensures UrlEncoding.Join([a, b, c, d, e, f], sep)
            == UrlEncoding.Join([a, b, c, d], sep) + ([sep] + e + [sep] + f)
  {
    JoinSnoc([a, b, c, d], e, sep);
    assert [a, b, c, d] + [e] == [a, b, c, d, e];
    JoinSnoc([a, b, c, d, e], f, sep);
    assert [a, b, c, d, e] + [f] == [a, b, c, d, e, f];
  }

  /** The query is its items joined by `&`. */
  lemma QueryIsJoin(cfg: Bb2Config, authData: map<string, string>)
    requires "state" in authData && (cfg.pkce ==> "code_challenge" in authData)
    ensures TemplateQuery(cfg, authData["state"], PkceQuery(cfg.pkce, authData).value)
            == UrlEncoding.Join(AuthorizeItems(cfg, authData), '&')
  {
    var items := AuthorizeItems(cfg, authData);
    var a, b, c, d := items[0], items[1], items[2], items[3];
    JoinFour(a, b, c, d, '&');
    var q4 := a + "&" + b + "&" + c + "&" + d;
    if cfg.pkce {
      var e, f := items[4], items[5];
      JoinSix(a, b, c, d, e, f, '&');
      assert [a, b, c, d, e, f] == items;
    } else {
      assert [a, b, c, d] == items;
      assert q4 + "" == q4;
    }
  }

  /** Without encoding, the query splits into exactly the template's items
      (four, or six with PKCE) when no value holds an `&`. */
  lemma AuthorizeQueryItems(authBaseUrl: string, cfg: Bb2Config, authData: map<string, string>)
    requires "state" in authData && (cfg.pkce ==> "code_challenge" in authData)
    requires '&' !in Show(cfg.clientId) && '&' !in Show(cfg.callbackUrl) && '&' !in authData["state"]
    requires cfg.pkce ==> '&' !in authData["code_challenge"]
    ensures var r := AuthorizeUrl(authBaseUrl, cfg, authData);
            r.Ok? && |r.value| > |authBaseUrl| && r.value[..|authBaseUrl| + 1] == authBaseUrl + "?"
            && UrlEncoding.Split(r.value[|authBaseUrl| + 1..], '&') == AuthorizeItems(cfg, authData)
  {
    var query := TemplateQuery(cfg, authData["state"], PkceQuery(cfg.pkce, authData).value);
    var url := authBaseUrl + "?" + query;
    assert url[..|authBaseUrl| + 1] == authBaseUrl + "?";
    assert url[|authBaseUrl| + 1..] == query;
    QueryIsJoin(cfg, authData);
    ItemsHaveNoAmpersand(cfg, authData);
    UrlEncoding.SplitJoin(AuthorizeItems(cfg, authData), '&');
  }

  /** No item holds an `&` when the values do not. */
  lemma ItemsHaveNoAmpersand(cfg: Bb2Config, authData: map<string, string>)
    requires "state" in authData && (cfg.pkce ==> "code_challenge" in authData)
    requires '&' !in Show(cfg.clientId) && '&' !in Show(cfg.callbackUrl) && '&' !in authData["state"]
    requires cfg.pkce ==> '&' !in authData["code_challenge"]
    ensures forall i :: 0 <= i < |AuthorizeItems(cfg, authData)| ==> '&' !in AuthorizeItems(cfg, authData)[i]
  {
    var items := AuthorizeItems(cfg, authData);
    assert '&' !in "client_id=" && '&' !in "redirect_uri=" && '&' !in "state=" && '&' !in "response_type=code";
    assert '&' !in "code_challenge_method=S256" && '&' !in "code_challenge=";
    forall i | 0 <= i < |items| ensures '&' !in items[i] {
      if i == 0 {
        assert items[0] == "client_id=" + Show(cfg.clientId);
      } else if i == 1 {
        assert items[1] == "redirect_uri=" + Show(cfg.callbackUrl);
      } else if i == 2 {
        assert items[2] == "state=" + authData["state"];
      } else if i == 5 {
        assert items[5] == "code_challenge=" + authData["code_challenge"];
      }
    }
  }

  /** The generated state and challenge hold no `&`, so only the configured
      client id and callback URL can break the query apart. */
  lemma GeneratedValuesHaveNoAmpersand(authData: map<string, string>, sha256: seq<Byte> -> seq<Byte>)
    requires Auth.PkceAuthData(authData, sha256)
    ensures '&' !in authData["state"] && '&' !in authData["code_challenge"]
  {
    Base64Url.EncodeChars(sha256(Auth.AsciiBytes(authData["verifier"])));
  }

  /** The code exchange fields: five, then the verifier and challenge with PKCE. */
  function ExchangeFields(cfg: Bb2Config, code: string, authData: map<string, string>)
    : (r: Result<seq<(string, ConfigValue)>>)
    ensures r.Err? <==> cfg.pkce && ("verifier" !in authData || "code_challenge" !in authData)
    ensures cfg.pkce && "verifier" !in authData ==> r == Err(KeyError("verifier"))
    ensures cfg.pkce && "verifier" in authData && "code_challenge" !in authData ==> r == Err(KeyError("code_challenge"))
    ensures r.Ok? ==> FieldNames(r.value) == ["client_id", "client_secret", "code", "grant_type", "redirect_uri"]
                                             + (if cfg.pkce then ["code_verifier", "code_challenge"] else [])
    ensures r.Ok? ==> r.value[0].1 == cfg.clientId && r.value[1].1 == cfg.clientSecret
                      && r.value[2].1 == Str(code) && r.value[3].1 == Str("authorization_code")
                      && r.value[4].1 == cfg.callbackUrl
    ensures r.Ok? && cfg.pkce ==> r.value[5].1 == Str(authData["verifier"])
                                  && r.value[6].1 == Str(authData["code_challenge"])
  {
    var base := [("client_id", cfg.clientId), ("client_secret", cfg.clientSecret), ("code", Str(code)),
                 ("grant_type", Str("authorization_code")), ("redirect_uri", cfg.callbackUrl)];
    if !cfg.pkce then Ok(base)
    else if "verifier" !in authData then Err(KeyError("verifier"))
    else if "code_challenge" !in authData then Err(KeyError("code_challenge"))
    else Ok(base + [("code_verifier", Str(authData["verifier"])),
                    ("code_challenge", Str(authData["code_challenge"]))])
  }

  const ExchangeFailed: string := "Failed to get access token"
  const RefreshFailed: string := "Failed to refresh access token"
  const RefreshUnavailable: string := "Refresh token not available when calling refresh_access_token()."

  /** `_get_access_token` as written: `datetime` names the class, so
      `datetime.datetime.now()` raises AttributeError on every status 200. */
  function ExchangeAsWritten(tokenUrl: string, cfg: Bb2Config, code: string, authData: map<string, string>,
                             post: TokenRequest -> Response<TokenBody>): (c: Call<TokenBody>)
    ensures ExchangeFields(cfg, code, authData).Err? ==> c == Call([], Err(ExchangeFields(cfg, code, authData).error))
    ensures ExchangeFields(cfg, code, authData).Ok? ==>
              c.sent == [TokenRequest(tokenUrl, Multipart, ExchangeFields(cfg, code, authData).value, [], None)]
              && (post(c.sent[0]).status != 200 ==>
                    c.result == Err(RequestFailed(ExchangeFailed, post(c.sent[0]).status)))
  {
    match ExchangeFields(cfg, code, authData)
    case Err(e) => Call([], Err(e))
    case Ok(fields) =>
      var req := TokenRequest(tokenUrl, Multipart, fields, [], None);
      if post(req).status == 200 then Call([req], Err(AttributeError("datetime")))
      else Call([req], Err(RequestFailed(ExchangeFailed, post(req).status)))
  }

  /** As written, no code exchange ever returns a token: a 200 raises
      AttributeError and anything else raises the failure. */
  lemma ExchangeAsWrittenAlwaysRaises(tokenUrl: string, cfg: Bb2Config, code: string, authData: map<string, string>,
                                      post: TokenRequest -> Response<TokenBody>)
    ensures var c := ExchangeAsWritten(tokenUrl, cfg, code, authData, post);
            c.result.Err?
            && (|c.sent| == 1 && post(c.sent[0]).status == 200 ==> c.result.error == AttributeError("datetime"))
  {
  }

  /** The evidently intended exchange: on status 200 the expiry is
      `now + expires_in`; any other status raises. */
  function Exchange(tokenUrl: string, cfg: Bb2Config, code: string, authData: map<string, string>,
                    post: TokenRequest -> Response<TokenBody>, now: int): (c: Call<TokenBody>)
    ensures ExchangeFields(cfg, code, authData).Err? ==> c == Call([], Err(ExchangeFields(cfg, code, authData).error))
    ensures ExchangeFields(cfg, code, authData).Ok? ==>
              c.sent == [TokenRequest(tokenUrl, Multipart, ExchangeFields(cfg, code, authData).value, [], None)]
              && (post(c.sent[0]).status == 200 ==> c.result == Auth.StampExpiry(post(c.sent[0]).body, now))
              && (post(c.sent[0]).status != 200 ==>
                    c.result == Err(RequestFailed(ExchangeFailed, post(c.sent[0]).status)))
  {
    match ExchangeFields(cfg, code, authData)
    case Err(e) => Call([], Err(e))
    case Ok(fields) =>
      var req := TokenRequest(tokenUrl, Multipart, fields, [], None);
      if post(req).status == 200 then Call([req], Auth.StampExpiry(post(req).body, now))
      else Call([req], Err(RequestFailed(ExchangeFailed, post(req).status)))
  }

  /** `AuthorizationToken(auth_token)` as written: without an `expires_at`
      the fallback calls `datetime.datetime.now` and raises AttributeError. */
  function NewTokenAsWritten(body: TokenBody): (r: Result<AuthorizationToken>)
    ensures r.Ok? <==> body.expiresAt.Some?
    ensures r.Err? ==> r.error == AttributeError("datetime")
    ensures r.Ok? ==> r.value.expiresAt == body.expiresAt.value
                      && r.value.accessToken == body.accessToken && r.value.expiresIn == body.expiresIn
                      && r.value.refreshToken == body.refreshToken
  {
    if body.expiresAt.Some? then
      Ok(AuthorizationToken(body.accessToken, body.expiresIn, body.expiresAt.value, body.patient,
                            body.refreshToken, body.scope, body.tokenType))
    else Err(AttributeError("datetime"))
  }

  /** A body that carries only `expires_in`, as a token endpoint returns it,
      is rejected as written and accepted by the intended constructor. */
  lemma NewTokenAsWrittenRejectsExpiresIn(body: TokenBody, now: int)
    requires body.expiresAt.None? && body.expiresIn.Some?
    ensures NewTokenAsWritten(body) == Err(AttributeError("datetime"))
    ensures NewToken(body, now).Ok? && NewToken(body, now).value.expiresAt == now + body.expiresIn.value
  {
  }

  /** With an `expires_at` the two constructors agree. */
  lemma NewTokenAsWrittenAgrees(body: TokenBody, now: int)
    requires body.expiresAt.Some?
    ensures NewTokenAsWritten(body) == NewToken(body, now)
  {
  }

  /** `refresh_access_token()` as written: after the refresh-token check it
      reads `self.refresh_token`, which an `AuthRequest` never has. */
  function RefreshAsWritten(token: Option<AuthorizationToken>): (c: Call<AuthorizationToken>)
    ensures token.None? ==> c.result == Err(AttributeError("refresh_token"))
    ensures token.Some? && token.value.refreshToken.None? ==> c.result == Err(ValueError(RefreshUnavailable))
  {
    if token.None? then Call([], Err(AttributeError("refresh_token")))
    else if token.value.refreshToken.None? then Call([], Err(ValueError(RefreshUnavailable)))
    else Call([], Err(AttributeError("refresh_token")))
  }

  /** As written, a refresh never sends a request and never succeeds, even
      with a refresh token in hand. */
  lemma RefreshAsWrittenNeverSends(token: Option<AuthorizationToken>)
    ensures RefreshAsWritten(token).sent == [] && RefreshAsWritten(token).result.Err?
    ensures token.Some? && token.value.refreshToken.Some? ==>
              RefreshAsWritten(token).result == Err(AttributeError("refresh_token"))
  {
  }

  /** The evidently intended refresh: the session token's refresh token in
      the query string, basic authentication, status 200 required. */
  function Refresh(tokenUrl: string, cfg: Bb2Config, token: Option<AuthorizationToken>,
                   post: TokenRequest -> Response<TokenBody>, now: int): (c: Call<AuthorizationToken>)
    ensures token.None? ==> c == Call([], Err(AttributeError("refresh_token")))
    ensures token.Some? && token.value.refreshToken.None? ==> c == Call([], Err(ValueError(RefreshUnavailable)))
    ensures token.Some? && token.value.refreshToken.Some? ==>
              c.sent == [TokenRequest(tokenUrl, QueryString, Auth.RefreshFields(cfg.clientId, token.value.refreshToken),
                                      [], Some((cfg.clientId, cfg.clientSecret)))]
              && (post(c.sent[0]).status == 200 ==> c.result == NewToken(post(c.sent[0]).body, now))
              && (post(c.sent[0]).status != 200 ==>
                    c.result == Err(RequestFailed(RefreshFailed, post(c.sent[0]).status)))
  {
    if token.None? then Call([], Err(AttributeError("refresh_token")))
    else if token.value.refreshToken.None? then Call([], Err(ValueError(RefreshUnavailable)))
    else
      var req := TokenRequest(tokenUrl, QueryString, Auth.RefreshFields(cfg.clientId, token.value.refreshToken),
                              [], Some((cfg.clientId, cfg.clientSecret)));
      if post(req).status == 200 then Call([req], NewToken(post(req).body, now))
      else Call([req], Err(RequestFailed(RefreshFailed, post(req).status)))
  }

  /** `_generate_authdata()` followed by `_generate_authorize_url()`. */
  method NewSession(authBaseUrl: string, cfg: Bb2Config, statePicks: seq<nat>, verifierPicks: seq<nat>,
                    sha256: seq<Byte> -> seq<Byte>)
    returns (authData: map<string, string>, url: string)
    requires |statePicks| == 32 && |verifierPicks| == 32
    ensures cfg.pkce ==> Auth.PkceAuthData(authData, sha256)
    ensures !cfg.pkce ==> authData.Keys == {"state"} && Auth.RandomStateShape(authData["state"])
    ensures AuthorizeUrl(authBaseUrl, cfg, authData) == Ok(url)
  {
    authData := GenerateAuthData(cfg.pkce, statePicks, verifierPicks, sha256);
    url := AuthorizeUrl(authBaseUrl, cfg, authData).value;
  }

  class AuthRequest {
    const cfg: Bb2Config
    const authBaseUrl: string
    const authTokenUrl: string
    const authData: map<string, string>
    const authUrl: string
    var authToken: Option<AuthorizationToken>

    /** `__init__(bb)`: the endpoints, the session data and its authorize URL. */
    constructor(cfg: Bb2Config, statePicks: seq<nat>, verifierPicks: seq<nat>, sha256: seq<Byte> -> seq<Byte>)
      requires |statePicks| == 32 && |verifierPicks| == 32
      ensures this.cfg == cfg && authToken == None
      ensures authBaseUrl == AuthorizeEndpoint(Show(cfg.baseUrl), cfg.version)
      ensures authTokenUrl == TokenEndpointNoSlash(Show(cfg.baseUrl), cfg.version)
      ensures cfg.pkce ==> Auth.PkceAuthData(authData, sha256)
      ensures !cfg.pkce ==> authData.Keys == {"state"} && Auth.RandomStateShape(authData["state"])
      ensures AuthorizeUrl(authBaseUrl, cfg, authData) == Ok(authUrl)
    {
      var base := AuthorizeEndpoint(Show(cfg.baseUrl), cfg.version);
      var data, url := NewSession(base, cfg, statePicks, verifierPicks, sha256);
      this.cfg := cfg;
      authBaseUrl := base;
      authTokenUrl := TokenEndpointNoSlash(Show(cfg.baseUrl), cfg.version);
      authData := data;
      authUrl := url;
      authToken := None;
    }

    /** `authorize_callback(code, state)`: the three checks, then the
        intended exchange; the session keeps the token only when one is built. */
    method AuthorizeCallback(code: Option<string>, state: Option<string>,
                             post: TokenRequest -> Response<TokenBody>, now: int)
      returns (c: Call<AuthorizationToken>)
      modifies this
      ensures Auth.CheckCallback(authData, code, state).Some? ==>
                c == Call([], Err(Auth.CheckCallback(authData, code, state).value))
      ensures Auth.CheckCallback(authData, code, state).None? ==>
                var e := Exchange(authTokenUrl, cfg, code.value, authData, post, now);
                c.sent == e.sent
                && c.result == (match e.result case Err(err) => Err(err) case Ok(body) => NewToken(body, now))
      ensures authToken == (if c.result.Ok? then Some(c.result.value) else old(authToken))
    {
      var check := Auth.CheckCallback(authData, code, state);
      if check.Some? {
        return Call([], Err(check.value));
      }
      var e := Exchange(authTokenUrl, cfg, code.value, authData, post, now);
      if e.result.Err? {
        return Call(e.sent, Err(e.result.error));
      }
      c := Call(e.sent, NewToken(e.result.value, now));
      if c.result.Ok? {
        authToken := Some(c.result.value);
      }
    }

    /** `access_token_expired()`: an AttributeError before any token exists. */
    method AccessTokenExpired(now: int) returns (r: Result<bool>)
      ensures authToken.None? ==> r == Err(AttributeError("access_token_expired"))
      ensures authToken.Some? ==> r == Ok(authToken.value.expiresAt < now)
    {
      if authToken.None? {
        return Err(AttributeError("access_token_expired"));
      }
      r := Ok(Token.AccessTokenExpired(authToken.value, now));
    }

    /** `refresh_access_token()`, intended form: the session's token is
        replaced only when a new one is built. */
    method RefreshAccessToken(post: TokenRequest -> Response<TokenBody>, now: int)
      returns (c: Call<AuthorizationToken>)
      modifies this
      ensures c == Refresh(authTokenUrl, cfg, old(authToken), post, now)
      ensures authToken == (if c.result.Ok? then Some(c.result.value) else old(authToken))
    {
      c := Refresh(authTokenUrl, cfg, authToken, post, now);
      if c.result.Ok? {
        authToken := Some(c.result.value);
      }
    }
  }
}
