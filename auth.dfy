/** The OAuth2 authorization-code-with-PKCE client logic of
    cms_bluebutton/auth.py: random state and PKCE material, the authorize
    URL (section 4.1.1 of RFC 6749), the callback checks (sections 4.1.2 and
    10.12 of RFC 6749), the code exchange (section 4.1.3) and the refresh
    (section 6). The token endpoint is the oracle `post`; SHA-256 is the
    parameter `sha256`; `random.choice` is the list of indices `picks`. */
module Auth {
  import opened Wrappers
  import opened Values
  import opened Constants
  import opened Http
  import opened Token
  import opened Settings
  import Base64Url
  import UrlEncoding

  /** The characters `lo` to `hi` in code-point order. */
  function CharRange(lo: char, hi: char): (s: string)
    requires lo <= hi < 128 as char
    ensures |s| == hi as int - lo as int + 1
    ensures forall k :: 0 <= k < |s| ==> s[k] as int == lo as int + k
  {
    seq(hi as int - lo as int + 1, k requires 0 <= k <= hi as int - lo as int => (lo as int + k) as char)
  }

  /** `string.ascii_letters + string.digits + string.punctuation`: the
      punctuation is the four ASCII runs between the digits and letters. */
  const Letters: string :=
    CharRange('a', 'z') + CharRange('A', 'Z') + CharRange('0', '9')
    + CharRange('!', '/') + CharRange(':', '@') + CharRange('[', '`') + CharRange('{', '~')

  lemma LettersAreAscii()
    ensures |Letters| == 94 && IsAscii(Letters)
  {
  }

  /** `get_random_string(length)`: one `random.choice(letters)` per position;
      choice `i` is `Letters[picks[i] % 94]`. */
  method GetRandomString(length: nat, picks: seq<nat>) returns (s: string)
    requires |picks| == length
    ensures |s| == length
    ensures forall i :: 0 <= i < length ==> s[i] == Letters[picks[i] % |Letters|]
  {
    s := "";
    for i := 0 to length
      invariant |s| == i
      invariant forall k :: 0 <= k < i ==> s[k] == Letters[picks[k] % |Letters|]
    {
      s := s + [Letters[picks[i] % |Letters|]];
    }
  }

  /** Every random string is ASCII, so its UTF-8 and ASCII encodings agree. */
  lemma RandomStringIsAscii(s: string, picks: seq<nat>)
    requires |s| == |picks|
    requires forall i :: 0 <= i < |s| ==> s[i] == Letters[picks[i] % |Letters|]
    ensures IsAscii(s)
  {
    LettersAreAscii();
  }

  /** `base64_url_encode(buffer)`: base64url of the UTF-8 bytes, padding kept. */
  function Base64UrlEncode(buffer: string): string
  {
    Base64Url.Encode(Utf8(buffer))
  }

  /** The shape of every state and verifier: 44 characters, 43 from the
      base64url alphabet and a final `=`. */
  predicate RandomStateShape(s: string)
  {
    |s| == 44 && s[43] == '=' && forall i :: 0 <= i < 43 ==> Base64Url.IsAlphabet(s[i])
  }

  /** 32 ASCII characters, i.e. 32 bytes, encode to 44 characters with one `=`. */
  lemma EncodedShape(bytes: seq<Byte>)
    requires |bytes| == 32
    ensures RandomStateShape(Base64Url.Encode(bytes))
  {
    Base64Url.EncodeShape32(bytes);
  }

  lemma RandomStateHasShape(s: string)
    requires |s| == 32 && IsAscii(s)
    ensures RandomStateShape(Base64UrlEncode(s))
  {
    Utf8OfAscii(s);
    EncodedShape(Utf8(s));
  }

  /** `generate_random_state(num)`: a random string, base64url-encoded. */
  method GenerateRandomState(num: nat, picks: seq<nat>) returns (state: string)
    requires |picks| == num
    ensures exists s :: |s| == num && IsAscii(s) && state == Base64UrlEncode(s)
    ensures num == 32 ==> RandomStateShape(state)
  {
    var s := GetRandomString(num, picks);
    RandomStringIsAscii(s, picks);
    state := Base64UrlEncode(s);
    if num == 32 {
      RandomStateHasShape(s);
    }
  }

  /** `verifier.encode("ASCII")`. */
  function AsciiBytes(s: string): (bs: seq<Byte>)
    requires IsAscii(s)
    ensures |bs| == |s| && forall i :: 0 <= i < |s| ==> bs[i] == s[i] as int
  {
    seq(|s|, i requires 0 <= i < |s| => s[i] as int)
  }

  /** The S256 challenge of section 4.2 of RFC 7636 as the code computes it:
      base64url of SHA-256 of the ASCII verifier, with its `=` padding kept. */
  function CodeChallenge(sha256: seq<Byte> -> seq<Byte>, verifier: string): string
    requires IsAscii(verifier)
  {
    Base64Url.Encode(sha256(AsciiBytes(verifier)))
  }

  /** A 32-byte digest gives a 44-character challenge that decodes back to it. */
  lemma ChallengeDecodesToDigest(sha256: seq<Byte> -> seq<Byte>, verifier: string)
    requires IsAscii(verifier) && |sha256(AsciiBytes(verifier))| == 32
    ensures RandomStateShape(CodeChallenge(sha256, verifier))
    ensures Base64Url.Decode(CodeChallenge(sha256, verifier)) == Some(sha256(AsciiBytes(verifier)))
  {
    EncodedShape(sha256(AsciiBytes(verifier)));
    Base64Url.DecodeEncode(sha256(AsciiBytes(verifier)));
  }

  /** A code verifier as section 4.1 of RFC 7636 allows it: 43 to 128
      characters from A-Z a-z 0-9 and `-._~`. */
  predicate Rfc7636Verifier(v: string)
  {
    43 <= |v| <= 128 &&
    forall i :: 0 <= i < |v| ==> v[i] as int < 128 && UrlEncoding.Unreserved(v[i] as int)
  }

  /** The verifier the code generates keeps its `=` padding and so falls
      outside section 4.1 of RFC 7636. */
  lemma VerifierOutsideRfc7636(v: string)
    requires RandomStateShape(v)
    ensures !Rfc7636Verifier(v)
  {
    assert !UrlEncoding.Unreserved(v[43] as int);
  }

  /** `generate_pkce_data()`: a 32-character verifier and its challenge. */
  method GeneratePkceData(picks: seq<nat>, sha256: seq<Byte> -> seq<Byte>) returns (pkce: map<string, string>)
    requires |picks| == 32
    ensures pkce.Keys == {"code_challenge", "verifier"}
    ensures RandomStateShape(pkce["verifier"]) && IsAscii(pkce["verifier"])
    ensures pkce["code_challenge"] == CodeChallenge(sha256, pkce["verifier"])
  {
    var verifier := GenerateRandomState(32, picks);
    ShapeIsAscii(verifier);
    pkce := map["code_challenge" := CodeChallenge(sha256, verifier), "verifier" := verifier];
  }

  lemma ShapeIsAscii(s: string)
    requires RandomStateShape(s)
    ensures IsAscii(s)
  {
  }

  /** Session data as `generate_auth_data` leaves it: exactly the three
      keys, state and verifier of the random-state shape, and the challenge
      derived from the verifier. */
  predicate PkceAuthData(authData: map<string, string>, sha256: seq<Byte> -> seq<Byte>)
  {
    authData.Keys == {"state", "code_challenge", "verifier"}
    && RandomStateShape(authData["state"]) && RandomStateShape(authData["verifier"])
    && IsAscii(authData["verifier"])
    && authData["code_challenge"] == CodeChallenge(sha256, authData["verifier"])
  }

  /** `generate_auth_data()`: the state, then `update` with the PKCE data. */
  method GenerateAuthData(statePicks: seq<nat>, verifierPicks: seq<nat>, sha256: seq<Byte> -> seq<Byte>)
    returns (authData: map<string, string>)
    requires |statePicks| == 32 && |verifierPicks| == 32
    ensures "state" in authData && "code_challenge" in authData && "verifier" in authData
    ensures PkceAuthData(authData, sha256)
  {
    var state := GenerateRandomState(32, statePicks);
    authData := map["state" := state];
    var pkce := GeneratePkceData(verifierPicks, sha256);
    authData := authData + pkce;
  }

  /** The six authorize parameters in the order the dictionary literal lists them. */
  function AuthorizeParams(clientId: ConfigValue, redirectUri: ConfigValue, authData: map<string, string>)
    : (r: Result<seq<(string, ConfigValue)>>)
    ensures r.Err? <==> "state" !in authData || "code_challenge" !in authData
    // The literal is evaluated left to right: `state` is looked up first.
    ensures "state" !in authData ==> r == Err(KeyError("state"))
    ensures "state" in authData && "code_challenge" !in authData ==> r == Err(KeyError("code_challenge"))
    ensures r.Ok? ==> FieldNames(r.value) == ["client_id", "redirect_uri", "state", "response_type",
                                              "code_challenge_method", "code_challenge"]
    ensures r.Ok? ==> r.value[0].1 == clientId && r.value[1].1 == redirectUri
                      && r.value[2].1 == Str(authData["state"]) && r.value[3].1 == Str("code")
                      && r.value[4].1 == Str("S256") && r.value[5].1 == Str(authData["code_challenge"])
  {
    if "state" !in authData then Err(KeyError("state"))
    else if "code_challenge" !in authData then Err(KeyError("code_challenge"))
    else Ok([("client_id", clientId), ("redirect_uri", redirectUri), ("state", Str(authData["state"])),
             ("response_type", Str("code")), ("code_challenge_method", Str("S256")),
             ("code_challenge", Str(authData["code_challenge"]))])
  }

  /** `auth_base_url + "?" + urlencode(params, quote_via=quote)`. */
  function AuthorizeUrlFor(authBaseUrl: string, clientId: ConfigValue, redirectUri: ConfigValue,
                           authData: map<string, string>): (r: Result<string>)
    ensures r.Ok? <==> "state" in authData && "code_challenge" in authData
    ensures r.Ok? ==> |r.value| > |authBaseUrl| && r.value[..|authBaseUrl| + 1] == authBaseUrl + "?"
  {
    match AuthorizeParams(clientId, redirectUri, authData)
    case Err(e) => Err(e)
    case Ok(params) => Ok(authBaseUrl + "?" + UrlEncoding.Urlencode(params))
  }

  /** `generate_authorize_url(bb, auth_data)`: `redirect_uri` is the callback URL. */
  function GenerateAuthorizeUrl(bb: ClientSettings, authData: map<string, string>): (r: Result<string>)
    ensures r.Err? <==> "state" !in authData || "code_challenge" !in authData
    ensures r.Ok? ==>
              |r.value| > |bb.authBaseUrl| && r.value[..|bb.authBaseUrl| + 1] == bb.authBaseUrl + "?"
              && UrlEncoding.ParseQuery(r.value[|bb.authBaseUrl| + 1..])
                 == Some(UrlEncoding.Expected(AuthorizeParams(bb.clientId, bb.callbackUrl, authData).value))
  {
    AuthorizeUrlDecodes(bb.authBaseUrl, bb.clientId, bb.callbackUrl, authData);
    AuthorizeUrlFor(bb.authBaseUrl, bb.clientId, bb.callbackUrl, authData)
  }

  /** The authorize URL is the endpoint, `?`, and a query that decodes to
      the six parameters in order with every key and value recovered as
      UTF-8; a missing state or challenge is a KeyError. */
  lemma AuthorizeUrlDecodes(authBaseUrl: string, clientId: ConfigValue, redirectUri: ConfigValue,
                            authData: map<string, string>)
    ensures var r := AuthorizeUrlFor(authBaseUrl, clientId, redirectUri, authData);
            var p := AuthorizeParams(clientId, redirectUri, authData);
            (r.Err? <==> "state" !in authData || "code_challenge" !in authData) &&
            (r.Ok? ==> |r.value| > |authBaseUrl| && r.value[..|authBaseUrl| + 1] == authBaseUrl + "?"
                       && UrlEncoding.ParseQuery(r.value[|authBaseUrl| + 1..]) == Some(UrlEncoding.Expected(p.value)))
  {
    var p := AuthorizeParams(clientId, redirectUri, authData);
    var r := AuthorizeUrlFor(authBaseUrl, clientId, redirectUri, authData);
    if p.Ok? {
      assert r == Ok(authBaseUrl + "?" + UrlEncoding.Urlencode(p.value));
      QueryAfterBase(authBaseUrl, p.value);
    } else {
      assert r == Err(p.error);
    }
  }

  /** Any endpoint followed by `?` and an encoded query: the query that
      follows the endpoint decodes back to the parameters. */
  lemma QueryAfterBase(authBaseUrl: string, params: seq<(string, ConfigValue)>)
    requires |params| >= 1
    ensures var url := authBaseUrl + "?" + UrlEncoding.Urlencode(params);
            |url| > |authBaseUrl| && url[..|authBaseUrl| + 1] == authBaseUrl + "?"
            && UrlEncoding.ParseQuery(url[|authBaseUrl| + 1..]) == Some(UrlEncoding.Expected(params))
  {
    var url := authBaseUrl + "?" + UrlEncoding.Urlencode(params);
    assert url[..|authBaseUrl| + 1] == authBaseUrl + "?";
    assert url[|authBaseUrl| + 1..] == UrlEncoding.Urlencode(params);
    UrlEncoding.ParseUrlencode(params);
  }

  const CodeMissing: string := "Authorization code missing."
  const StateMissing: string := "Callback parameter 'state' missing."
  const StateMismatch: string := "Provided callback state does not match."

  /** The three ordered callback checks; None when the callback is accepted. */
  function CheckCallback(authData: map<string, string>, code: Option<string>, state: Option<string>)
    : (e: Option<Error>)
    ensures code.None? ==> e == Some(ValueError(CodeMissing))
    ensures code.Some? && state.None? ==> e == Some(ValueError(StateMissing))
    ensures code.Some? && state.Some? && "state" !in authData ==> e == Some(KeyError("state"))
    ensures code.Some? && state.Some? && "state" in authData && state.value != authData["state"] ==>
              e == Some(ValueError(StateMismatch))
    ensures e.None? <==> code.Some? && state.Some? && "state" in authData && state.value == authData["state"]
  {
    if code.None? then Some(ValueError(CodeMissing))
    else if state.None? then Some(ValueError(StateMissing))
    else if "state" !in authData then Some(KeyError("state"))
    else if state.value != authData["state"] then Some(ValueError(StateMismatch))
    else None
  }

  /** The seven fields of the code exchange, in the literal's order. */
  function ExchangeFields(clientId: ConfigValue, clientSecret: ConfigValue, code: string,
                          redirectUri: ConfigValue, authData: map<string, string>)
    : (r: Result<seq<(string, ConfigValue)>>)
    ensures r.Err? <==> "verifier" !in authData || "code_challenge" !in authData
    ensures "verifier" !in authData ==> r == Err(KeyError("verifier"))
    ensures "verifier" in authData && "code_challenge" !in authData ==> r == Err(KeyError("code_challenge"))
    ensures r.Ok? ==> FieldNames(r.value) == ["client_id", "client_secret", "code", "grant_type",
                                              "redirect_uri", "code_verifier", "code_challenge"]
    ensures r.Ok? ==> r.value[0].1 == clientId && r.value[1].1 == clientSecret
                      && r.value[2].1 == Str(code) && r.value[3].1 == Str("authorization_code")
                      && r.value[4].1 == redirectUri
                      && r.value[5].1 == Str(authData["verifier"])
                      && r.value[6].1 == Str(authData["code_challenge"])
  {
    if "verifier" !in authData then Err(KeyError("verifier"))
    else if "code_challenge" !in authData then Err(KeyError("code_challenge"))
    else Ok([("client_id", clientId), ("client_secret", clientSecret), ("code", Str(code)),
             ("grant_type", Str("authorization_code")), ("redirect_uri", redirectUri),
             ("code_verifier", Str(authData["verifier"])),
             ("code_challenge", Str(authData["code_challenge"]))])
  }

  /** `token_dict["expires_at"] = now + expires_in`: overwritten whatever the body held. */
  function StampExpiry(body: TokenBody, now: int): (r: Result<TokenBody>)
    ensures r.Err? <==> body.expiresIn.None?
    ensures r.Ok? ==> r.value == body.(expiresAt := Some(now + body.expiresIn.value))
  {
    if body.expiresIn.None? then Err(KeyError("expires_in"))
    else Ok(body.(expiresAt := Some(now + body.expiresIn.value)))
  }

  /** Post a code exchange, raise on 4xx/5xx, then stamp the expiry. */
  function ExchangeCall(req: TokenRequest, post: TokenRequest -> Response<TokenBody>, now: int)
    : (c: Call<TokenBody>)
    ensures c.sent == [req]
    ensures IsErrorStatus(post(req).status) ==> c.result == Err(HttpError(post(req).status))
    ensures !IsErrorStatus(post(req).status) ==> c.result == StampExpiry(post(req).body, now)
  {
    var response := post(req);
    if IsErrorStatus(response.status) then Call([req], Err(HttpError(response.status)))
    else Call([req], StampExpiry(response.body, now))
  }

  /** `get_access_token_from_code(bb, auth_data, callback_code)`: a multipart
      POST with the SDK header to the token endpoint. */
  function GetAccessTokenFromCode(bb: ClientSettings, authData: map<string, string>, code: string,
                                  post: TokenRequest -> Response<TokenBody>, now: int): (c: Call<TokenBody>)
    // A missing verifier or challenge raises before anything is sent.
    ensures ExchangeFields(bb.clientId, bb.clientSecret, code, bb.callbackUrl, authData).Err? ==>
              c == Call([], Err(ExchangeFields(bb.clientId, bb.clientSecret, code, bb.callbackUrl, authData).error))
    ensures ExchangeFields(bb.clientId, bb.clientSecret, code, bb.callbackUrl, authData).Ok? ==>
              c.sent == [TokenRequest(bb.authTokenUrl, Multipart,
                                      ExchangeFields(bb.clientId, bb.clientSecret, code, bb.callbackUrl, authData).value,
                                      [(SdkHeaderKey, SdkHeader)], None)]
    // A 4xx/5xx status raises; any other status returns the body with its
    // expiry stamped (a KeyError without `expires_in`).
    ensures |c.sent| == 1 && IsErrorStatus(post(c.sent[0]).status) ==> c.result == Err(HttpError(post(c.sent[0]).status))
    ensures |c.sent| == 1 && !IsErrorStatus(post(c.sent[0]).status) ==>
              c.result == StampExpiry(post(c.sent[0]).body, now)
    ensures c.result.Ok? ==>
              |c.sent| == 1 && !IsErrorStatus(post(c.sent[0]).status) && post(c.sent[0]).body.expiresIn.Some?
              && c.result.value == post(c.sent[0]).body.(expiresAt := Some(now + post(c.sent[0]).body.expiresIn.value))
  {
    match ExchangeFields(bb.clientId, bb.clientSecret, code, bb.callbackUrl, authData)
    case Err(e) => Call([], Err(e))
    case Ok(fields) =>
      ExchangeCall(TokenRequest(bb.authTokenUrl, Multipart, fields, [(SdkHeaderKey, SdkHeader)], None), post, now)
  }

  /** `get_authorization_token(bb, auth_data, callback_code, callback_state)`. */
  function GetAuthorizationToken(bb: ClientSettings, authData: map<string, string>, code: Option<string>,
                                 state: Option<string>, post: TokenRequest -> Response<TokenBody>, now: int)
    : (c: Call<AuthorizationToken>)
    // Any failed check raises before a request is made.
    ensures CheckCallback(authData, code, state).Some? ==>
              c == Call([], Err(CheckCallback(authData, code, state).value))
    // An accepted callback then raises on a missing verifier or challenge
    // before any request, or sends exactly the one exchange.
    ensures CheckCallback(authData, code, state).None? &&
            ExchangeFields(bb.clientId, bb.clientSecret, code.value, bb.callbackUrl, authData).Err? ==>
              c == Call([], Err(ExchangeFields(bb.clientId, bb.clientSecret, code.value, bb.callbackUrl, authData).error))
    ensures CheckCallback(authData, code, state).None? &&
            ExchangeFields(bb.clientId, bb.clientSecret, code.value, bb.callbackUrl, authData).Ok? ==>
              c.sent == [TokenRequest(bb.authTokenUrl, Multipart,
                                      ExchangeFields(bb.clientId, bb.clientSecret, code.value, bb.callbackUrl, authData).value,
                                      [(SdkHeaderKey, SdkHeader)], None)]
    // A 4xx/5xx status raises; any other status gives the token of the
    // stamped body, whose expiry is `now + expires_in` even when the body
    // carried an `expires_at`.
    ensures |c.sent| == 1 && IsErrorStatus(post(c.sent[0]).status) ==>
              c.result == Err(HttpError(post(c.sent[0]).status))
    ensures |c.sent| == 1 && !IsErrorStatus(post(c.sent[0]).status) ==>
              c.result == (match StampExpiry(post(c.sent[0]).body, now)
                           case Ok(b) => NewToken(b, now)
                           case Err(e) => Err(e))
    ensures c.result.Ok? ==>
              |c.sent| == 1 && !IsErrorStatus(post(c.sent[0]).status)
              && post(c.sent[0]).body.expiresIn.Some?
              && c.result.value.expiresAt == now + post(c.sent[0]).body.expiresIn.value
              && c.result.value.accessToken == post(c.sent[0]).body.accessToken
              && c.result.value.refreshToken == post(c.sent[0]).body.refreshToken
  {
    match CheckCallback(authData, code, state)
    case Some(e) => Call([], Err(e))
    case None =>
      var exchange := GetAccessTokenFromCode(bb, authData, code.value, post, now);
      match exchange.result
      case Err(e) => Call(exchange.sent, Err(e))
      case Ok(body) => Call(exchange.sent, NewToken(body, now))
  }

  /** The three fields of a refresh, in order. */
  function RefreshFields(clientId: ConfigValue, refreshToken: Option<string>): (fields: seq<(string, ConfigValue)>)
    ensures FieldNames(fields) == ["client_id", "grant_type", "refresh_token"]
    ensures fields[0].1 == clientId && fields[1].1 == Str("refresh_token") && fields[2].1 == OptStr(refreshToken)
  {
    [("client_id", clientId), ("grant_type", Str("refresh_token")), ("refresh_token", OptStr(refreshToken))]
  }

  /** `refresh_auth_token(bb, auth_token)`: a form POST with basic auth;
      4xx/5xx raises; otherwise a new token from the body. The input token
      is a value and is left as it was. */
  function RefreshAuthToken(bb: ClientSettings, token: AuthorizationToken,
                            post: TokenRequest -> Response<TokenBody>, now: int): (c: Call<AuthorizationToken>)
    ensures |c.sent| == 1
    ensures c.sent[0].url == bb.authTokenUrl && c.sent[0].carrier == FormBody
    ensures c.sent[0].fields == RefreshFields(bb.clientId, token.refreshToken)
    ensures c.sent[0].headers == [(SdkHeaderKey, SdkHeader)] && c.sent[0].basicAuth == Some((bb.clientId, bb.clientSecret))
    ensures IsErrorStatus(post(c.sent[0]).status) ==> c.result == Err(HttpError(post(c.sent[0]).status))
    ensures !IsErrorStatus(post(c.sent[0]).status) ==> c.result == NewToken(post(c.sent[0]).body, now)
  {
    var req := TokenRequest(bb.authTokenUrl, FormBody, RefreshFields(bb.clientId, token.refreshToken),
                            [(SdkHeaderKey, SdkHeader)], Some((bb.clientId, bb.clientSecret)));
    var response := post(req);
    if IsErrorStatus(response.status) then Call([req], Err(HttpError(response.status)))
    else Call([req], NewToken(response.body, now))
  }
}
