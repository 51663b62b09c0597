/** cms_bluebutton/fhir_request.py: one authenticated GET of a FHIR or
    profile resource, refreshing an expired token first. The resource
    server is the oracle `get`, the token endpoint the oracle `post`. */
module FhirRequest {
  import opened Wrappers
  import opened Values
  import opened Constants
  import opened Http
  import opened Token
  import opened Settings
  import Auth

  const AuthorizationHeader: string := "Authorization"

  /** The module-level header dictionary every resource request sends. It
      is one shared object: `headers = SDK_HEADERS` aliases it, so the
      bearer header written by one request stays in it for the next. */
  class HeaderMap {
    var entries: map<string, string>

    /** `{SDK_HEADER_KEY: SDK_HEADER}`. */
    constructor()
      ensures entries == map[SdkHeaderKey := SdkHeader]
    {
      entries := map[SdkHeaderKey := SdkHeader];
    }

    /** `headers[key] = value`. */
    method Set(key: string, value: string)
      modifies this
      ensures entries == old(entries)[key := value]
    {
      entries := entries[key := value];
    }
  }

  /** One entry of the caller's `config` dictionary: the key may be absent,
      present with the value None, or present with a value. */
  datatype Entry<T> = Absent | NoneValue | Present(value: T)

  /** The caller's `config` dictionary. */
  class RequestConfig {
    var authToken: Entry<AuthorizationToken>
    var url: Entry<string>
    var params: Entry<seq<(string, ConfigValue)>>

    constructor(authToken: Entry<AuthorizationToken>, url: Entry<string>,
                params: Entry<seq<(string, ConfigValue)>>)
      ensures this.authToken == authToken && this.url == url && this.params == params
    {
      this.authToken := authToken;
      this.url := url;
      this.params := params;
    }
  }

  /** What `"{}".format(config["url"])` writes for a present entry: `str(None)` is "None". */
  function PathText(url: Entry<string>): (p: string)
    requires !url.Absent?
    ensures url.NoneValue? ==> p == "None"
    ensures url.Present? ==> p == url.value
  {
    if url.NoneValue? then "None" else url.value
  }

  /** The query `sesh.get(params=config["params"])` sends for a present entry:
      `params=None` sends no query, like an empty dictionary. */
  function QueryOf(params: Entry<seq<(string, ConfigValue)>>): (q: seq<(string, ConfigValue)>)
    requires !params.Absent?
    ensures params.NoneValue? ==> q == []
    ensures params.Present? ==> q == params.value
  {
    if params.NoneValue? then [] else params.value
  }

  /** `{"auth_token": new_auth_token, "response": response}`. */
  datatype FhirResult = FhirResult(authToken: Option<AuthorizationToken>, response: Response<string>)

  /** The token requests and resource requests a call sent, in order, and
      what it returned or raised. */
  datatype FhirOutcome = FhirOutcome(sent: seq<TokenRequest>, got: seq<ResourceRequest>, result: Result<FhirResult>)

  /** What a call returns together with the shared header map after it. */
  datatype FhirStep = FhirStep(outcome: FhirOutcome, headers: map<string, string>)

  /** `handle_expired(bb, auth_token)`: refresh only an expired token. */
  function HandleExpired(bb: ClientSettings, token: AuthorizationToken,
                         post: TokenRequest -> Response<TokenBody>, now: int)
    : (c: Call<Option<AuthorizationToken>>)
    ensures !AccessTokenExpired(token, now) ==> c == Call([], Ok(None))
    ensures AccessTokenExpired(token, now) ==>
              c.sent == Auth.RefreshAuthToken(bb, token, post, now).sent
              && (c.result.Ok? <==> Auth.RefreshAuthToken(bb, token, post, now).result.Ok?)
              && (c.result.Ok? ==> c.result.value == Some(Auth.RefreshAuthToken(bb, token, post, now).result.value))
              && (c.result.Err? ==> c.result.error == Auth.RefreshAuthToken(bb, token, post, now).result.error)
  {
    if AccessTokenExpired(token, now) then
      var r := Auth.RefreshAuthToken(bb, token, post, now);
      match r.result
      case Ok(t) => Call(r.sent, Ok(Some(t)))
      case Err(e) => Call(r.sent, Err(e))
    else Call([], Ok(None))
  }

  /** `"{}/v{}/{}".format(bb.base_url, bb.version, config["url"])`: every
      path, an absolute URL included, is placed under the versioned base. */
  function FullUrl(bb: ClientSettings, path: string): (u: string)
    ensures |u| == |bb.baseUrl| + 2 + |Show(bb.version)| + 1 + |path|
    ensures u[..|bb.baseUrl| + 2] == bb.baseUrl + "/v" && u[|u| - |path|..] == path
    ensures u[|bb.baseUrl| + 2..|u| - |path|] == Show(bb.version) + "/"
  {
    bb.baseUrl + "/v" + Show(bb.version) + "/" + path
  }

  /** An absolute URL is never passed through unchanged. */
  lemma NoAbsolutePassThrough(bb: ClientSettings, path: string)
    ensures FullUrl(bb, path) != path
  {
    assert |FullUrl(bb, path)| > |path|;
  }

  /** `fhir_request(bb, config)` on values: the lookups, the refresh and the
      header write in the order the code performs them. */
  function FhirRequestSpec(bb: ClientSettings, authToken: Entry<AuthorizationToken>, url: Entry<string>,
                           params: Entry<seq<(string, ConfigValue)>>, headers: map<string, string>,
                           post: TokenRequest -> Response<TokenBody>, get: ResourceRequest -> Response<string>,
                           now: int): (s: FhirStep)
    // A missing token is a KeyError, and a None token fails on
    // `access_token_expired()`, both before anything is sent.
    ensures authToken.Absent? ==> s == FhirStep(FhirOutcome([], [], Err(KeyError("auth_token"))), headers)
    ensures authToken.NoneValue? ==>
              s == FhirStep(FhirOutcome([], [], Err(AttributeError("access_token_expired"))), headers)
    // Only an expired token is refreshed, with exactly one token request.
    ensures authToken.Present? ==> s.outcome.sent == HandleExpired(bb, authToken.value, post, now).sent
    // At most one resource request, and only with a resolved token and
    // present `url` and `params` keys (a None value is used as it is).
    ensures |s.outcome.got| <= 1
    ensures s.outcome.result.Ok? <==> s.outcome.got != []
    ensures s.outcome.got != [] ==>
              authToken.Present? && !url.Absent? && !params.Absent?
              && HandleExpired(bb, authToken.value, post, now).result.Ok?
              && (var renewed := HandleExpired(bb, authToken.value, post, now).result.value;
                  var used := if renewed.Some? then renewed.value else authToken.value;
                  used.accessToken.Some?
                  && s.outcome.got[0] == ResourceRequest(FullUrl(bb, PathText(url)), QueryOf(params),
                                                         headers[AuthorizationHeader := "Bearer " + used.accessToken.value],
                                                         FhirRetry)
                  && s.outcome.result.value == FhirResult(renewed, get(s.outcome.got[0])))
    // The shared map is either untouched or gains the bearer header; its SDK header survives.
    ensures s.headers == headers ||
              exists v :: s.headers == headers[AuthorizationHeader := "Bearer " + v]
    // After a request the shared map is exactly the map that request carried,
    // so its bearer is the one sent.
    ensures s.outcome.got != [] ==> s.headers == s.outcome.got[0].headers
    ensures SdkHeaderKey in headers ==> SdkHeaderKey in s.headers && s.headers[SdkHeaderKey] == headers[SdkHeaderKey]
  {
    match authToken
    case Absent => FhirStep(FhirOutcome([], [], Err(KeyError("auth_token"))), headers)
    case NoneValue => FhirStep(FhirOutcome([], [], Err(AttributeError("access_token_expired"))), headers)
    case Present(t) =>
      var h := HandleExpired(bb, t, post, now);
      match h.result
      case Err(e) => FhirStep(FhirOutcome(h.sent, [], Err(e)), headers)
      case Ok(renewed) =>
        var used := if renewed.Some? then renewed.value else t;
        if url.Absent? then FhirStep(FhirOutcome(h.sent, [], Err(KeyError("url"))), headers)
        else if used.accessToken.None? then FhirStep(FhirOutcome(h.sent, [], Err(TypeError)), headers)
        else
          var hs := headers[AuthorizationHeader := "Bearer " + used.accessToken.value];
          if params.Absent? then FhirStep(FhirOutcome(h.sent, [], Err(KeyError("params"))), hs)
          else
            var req := ResourceRequest(FullUrl(bb, PathText(url)), QueryOf(params), hs, FhirRetry);
            FhirStep(FhirOutcome(h.sent, [req], Ok(FhirResult(renewed, get(req)))), hs)
  }

  /** A token that has not expired is sent as it is: no refresh request, and
      the result's `auth_token` is None. */
  lemma UnexpiredTokenIsUsed(bb: ClientSettings, t: AuthorizationToken, url: string,
                             params: seq<(string, ConfigValue)>, headers: map<string, string>,
                             post: TokenRequest -> Response<TokenBody>, get: ResourceRequest -> Response<string>,
                             now: int)
    requires !AccessTokenExpired(t, now) && t.accessToken.Some?
    ensures var s := FhirRequestSpec(bb, Present(t), Present(url), Present(params), headers, post, get, now);
            s.outcome.sent == [] && |s.outcome.got| == 1
            && s.outcome.got[0].headers[AuthorizationHeader] == "Bearer " + t.accessToken.value
            && s.outcome.result == Ok(FhirResult(None, get(s.outcome.got[0])))
  {
  }

  /** An expired token is refreshed first; a refresh that fails stops the
      call before any resource request, and one that succeeds supplies the
      bearer header and is handed back. */
  lemma ExpiredTokenIsRefreshed(bb: ClientSettings, t: AuthorizationToken, url: string,
                                params: seq<(string, ConfigValue)>, headers: map<string, string>,
                                post: TokenRequest -> Response<TokenBody>, get: ResourceRequest -> Response<string>,
                                now: int)
    requires AccessTokenExpired(t, now)
    ensures var s := FhirRequestSpec(bb, Present(t), Present(url), Present(params), headers, post, get, now);
            var r := Auth.RefreshAuthToken(bb, t, post, now);
            s.outcome.sent == r.sent && |s.outcome.sent| == 1
            && (r.result.Err? ==> s.outcome.got == [] && s.outcome.result == Err(r.result.error))
            && (r.result.Ok? && r.result.value.accessToken.Some? ==>
                  |s.outcome.got| == 1
                  && s.outcome.got[0].headers[AuthorizationHeader] == "Bearer " + r.result.value.accessToken.value
                  && s.outcome.result.value.authToken == Some(r.result.value))
  {
  }

  /** `fhir_request(bb, config)`, writing the bearer header into the shared map. */
  method Request(bb: ClientSettings, config: RequestConfig, headers: HeaderMap,
                 post: TokenRequest -> Response<TokenBody>, get: ResourceRequest -> Response<string>, now: int)
    returns (out: FhirOutcome)
    modifies headers
    ensures var s := FhirRequestSpec(bb, config.authToken, config.url, config.params, old(headers.entries),
                                     post, get, now);
            out == s.outcome && headers.entries == s.headers
  {
    match config.authToken {
      case Absent => return FhirOutcome([], [], Err(KeyError("auth_token")));
      case NoneValue => return FhirOutcome([], [], Err(AttributeError("access_token_expired")));
      case Present(_) =>
    }
    var authToken := config.authToken.value;
    var h := HandleExpired(bb, authToken, post, now);
    if h.result.Err? {
      return FhirOutcome(h.sent, [], Err(h.result.error));
    }
    var renewed := h.result.value;
    if renewed.Some? {
      authToken := renewed.value;
    }
    if config.url.Absent? {
      return FhirOutcome(h.sent, [], Err(KeyError("url")));
    }
    var fullUrl := FullUrl(bb, PathText(config.url));
    if authToken.accessToken.None? {
      return FhirOutcome(h.sent, [], Err(TypeError));
    }
    headers.Set(AuthorizationHeader, "Bearer " + authToken.accessToken.value);
    if config.params.Absent? {
      return FhirOutcome(h.sent, [], Err(KeyError("params")));
    }
    var req := ResourceRequest(fullUrl, QueryOf(config.params), headers.entries, FhirRetry);
    var response := get(req);
    out := FhirOutcome(h.sent, [req], Ok(FhirResult(renewed, response)));
  }
}
