# Blue Button 2.0 Python SDK: a verified model of its client core

This project models the client core of the CMS Blue Button 2.0 Python SDK
(`cms-bb2-python-sdk`). The SDK lets a third-party application reach the
Medicare beneficiary FHIR API in four steps:

1. **Configuration.** The client is configured from a `.json`/`.yaml` file or
   a dictionary. The environment must be SANDBOX or PRODUCTION, and
   `client_id`, `client_secret` and `callback_url` are required.
2. **Login URL.** The SDK builds an OAuth2 authorization-code login URL with
   PKCE: a random `state`, a random verifier and its S256 challenge.
3. **Callback.** It validates the callback (code present, state present,
   state matching), then exchanges the code for a token.
4. **Resource requests.** It fetches FHIR resources with a bearer token,
   refreshing the token first when it has expired.

The model covers:

- the packaged client:
  - `cms_bluebutton/auth.py` → module `Auth`, with `Token`, `Base64Url` and `UrlEncoding` beside it;
  - `cms_bluebutton/cms_bluebutton.py` → `BlueButton`, with `Settings`;
  - `cms_bluebutton/fhir_request.py` → `FhirRequest`;
- the two earlier stateful `AuthRequest` revisions:
  - `src/cms_bluebutton/auth.py` → `SrcCmsAuth`;
  - `src/auth.py`, with its `pkce` switch → `SrcAuth`;
- the earlier configuration class `src/bluebutton.py` → `SrcBlueButton`.

Each file above is one Dafny module. The modules follow the source's own
form:

- **Pure computations are functions and lemmas.** This covers URL and query
  building, base64url, the callback checks and the request shaping.
- **Code that changes objects is imperative.** The fields are assigned one by
  one in `set_configuration`. The `AuthRequest` sessions overwrite
  `auth_token`. The shared `SDK_HEADERS` map is written in place. Each of
  these is a `class` whose methods carry `modifies` clauses.
- **Loops are methods with invariants.** `get_random_string` and the
  required-settings loop are written this way.

Each method is proved against a specification function, and the
properties are proved about those functions.

Outside effects are parameters:

- the token endpoint is `post: TokenRequest -> Response<TokenBody>`;
- the resource server is `get: ResourceRequest -> Response<string>`;
- SHA-256 is `sha256: seq<Byte> -> seq<Byte>`;
- `random.choice` is a sequence of indices `picks`, read modulo 94;
- the clock is an integer `now`, in seconds;
- the JSON and YAML readers are `readJson`/`readYaml`.

Every call that may contact the token endpoint returns `Call(sent, result)`.
`sent` lists the requests made, in order, so the model can state "no request
is made on failure". A raised exception is an `Err` of `Wrappers.Error`.

Behaviour of the code worth knowing, which the model states as written:

- **Expiry.** A token is expired only strictly after its instant
  (`expires_at < now`); at the exact instant it is still valid
  (`Token.ExpiryBoundary`).
- **Resource URLs.** Every resource URL is `base_url/v{version}/{path}`; an
  absolute URL given as the path is not passed through
  (`FhirRequest.NoAbsolutePassThrough`).
- **Verifier and challenge.** `base64_url_encode` keeps the `=` padding, so
  both are 44 characters, the last one `=`. A verifier of this shape is
  outside the character set of section 4.1 of RFC 7636, which allows only
  unreserved characters (`Auth.VerifierOutsideRfc7636`).
- **Expiry after a code exchange.** `expires_at` is always overwritten with
  `now + expires_in`, even when the token endpoint returned one
  (`Auth.StampExpiry`).

## Model

| member | source | states |
|---|---|---|
| Values.Utf8OfAscii | cms_bluebutton/auth.py:83-88 | On ASCII text, UTF-8 gives one byte per character, equal to its code point. So the verifier's `encode("ASCII")` and `base64_url_encode`'s `encode("utf-8")` agree. |
| Base64Url.Value | cms_bluebutton/auth.py:71-74 | The decoder table is defined exactly on the 64 alphabet characters. It inverts the encoder's character map. |
| Base64Url.EncodeShape | cms_bluebutton/auth.py:71-74 | `urlsafe_b64encode` of n bytes has 4·⌈n/3⌉ characters. All are from `A-Z a-z 0-9 - _` except the final (3 − n mod 3) mod 3, which are `=`. |
| Base64Url.EncodeShape32 | cms_bluebutton/auth.py:91-92 | 32 bytes encode to 44 characters: 43 from the alphabet and a final `=`. |
| Base64Url.EncodeChars | cms_bluebutton/auth.py:85-88 | Every character of an encoding is from the alphabet or is `=`. |
| Base64Url.DecodeEncode | cms_bluebutton/auth.py:71-74 | The strict padded decoder gives back exactly the encoded bytes, for every byte sequence. This row and `EncodeShape` cover `Base64Url.Encode` (`urlsafe_b64encode`) and `Auth.Base64UrlEncode` (its UTF-8 wrapper). |
| UrlEncoding.QuoteHasNoDelimiters | cms_bluebutton/auth.py:67 | `quote(s, safe='')` never yields `&` or `=`. It yields only unreserved characters, `%` and hex digits. |
| UrlEncoding.UnquoteQuote | cms_bluebutton/auth.py:67 | Percent-decoding a quoted string gives back its UTF-8 bytes. With `QuoteHasNoDelimiters`, this covers `UrlEncoding.Quote` (`quote(s, safe='')`). |
| UrlEncoding.SplitJoin | cms_bluebutton/auth.py:67 | Splitting a `&`-join gives back its parts when no part holds `&`. |
| UrlEncoding.EncodePairs | cms_bluebutton/auth.py:67 | `urlencode` writes one item per parameter, in order, each `quote(key)=quote(str(value))`. |
| UrlEncoding.ParseUrlencode | cms_bluebutton/auth.py:67 | Decoding an encoded query gives back every key and `str()` value, as UTF-8, in order. This is the partner of `UrlEncoding.Urlencode`. |
| Token.NewToken | cms_bluebutton/auth.py:14-26 | A body's `expires_at` takes precedence. Without one, the expiry is `now + expires_in`. Without either, the call raises TypeError. All other fields are copied. |
| Token.ExpiryBoundary | cms_bluebutton/auth.py:28-29 | `Token.AccessTokenExpired` (`access_token_expired`) is a strict test: a token is not expired at its own expiry instant, is expired 10 s later, and stays expired as time goes on. |
| Token.TokenDictRoundTrip | cms_bluebutton/auth.py:17-22 | Rebuilding a token from its own fields at any later instant gives the same token. An absolute expiry is never recomputed. |
| Token.FreshTokenNotExpired | cms_bluebutton/auth.py:17-29 | A token built at `now` from a non-negative `expires_in` is not expired at `now`. |
| Settings.SuffixOfFileName | cms_bluebutton/cms_bluebutton.py:46 | The `pathlib` suffix of a plain file name `stem.ext` is `.ext`. |
| Settings.Suffix | cms_bluebutton/cms_bluebutton.py:46 | `Path(config).suffix` is empty or a dot followed by at least one character. |
| Settings.LastDotOfFileName | cms_bluebutton/cms_bluebutton.py:46 | The last `.` of `stem.ext` is the one before `ext`. |
| Settings.ReadConfig | cms_bluebutton/cms_bluebutton.py:45-56 | `.json` goes to the JSON reader and `.yaml` to the YAML reader. Any other suffix raises the extension ValueError, and only then. |
| Settings.ReadConfigOfFileName | cms_bluebutton/cms_bluebutton.py:45-56 | A file `stem.ext` is read as JSON iff `ext` is `json`, and as YAML iff it is `yaml`. It is refused iff neither, so `yml` is refused. |
| Settings.LoadConfig | cms_bluebutton/cms_bluebutton.py:58-63 | A dictionary is used as given; a path is read through `_read_config`. |
| Settings.EnvironmentBaseUrl | cms_bluebutton/cms_bluebutton.py:66-73 | Only the exact strings SANDBOX and PRODUCTION are accepted, each mapped to its URL. |
| Settings.FirstMissing | cms_bluebutton/cms_bluebutton.py:76-83 | Returns None iff every named setting is non-None. Otherwise it returns the first setting that is None, and all before it are set. |
| Settings.FindMissingSetting | cms_bluebutton/cms_bluebutton.py:76-83 | The loop over `client_id`, `client_secret`, `callback_url` stops at the first setting that is None, and names it. |
| Settings.ApplySettings | cms_bluebutton/cms_bluebutton.py:65-88 | The environment is checked first; a bad one changes nothing. A missing setting raises with only `base_url` updated. Otherwise all fields are replaced, with `version` defaulting to 2. |
| Settings.EmptyStringsAccepted | cms_bluebutton/cms_bluebutton.py:76-83 | Empty strings pass the required-settings check; only None is rejected. |
| Auth.LettersAreAscii | cms_bluebutton/auth.py:78 | `ascii_letters + digits + punctuation` is 94 ASCII characters. |
| Auth.GetRandomString | cms_bluebutton/auth.py:77-80 | The loop yields `length` characters; character i is the i-th choice from the 94 letters. |
| Auth.RandomStringIsAscii | cms_bluebutton/auth.py:77-80 | Every random string is ASCII. |
| Auth.EncodedShape | cms_bluebutton/auth.py:91-92 | Any 32 bytes encode to the 44-character state shape. |
| Auth.RandomStateHasShape | cms_bluebutton/auth.py:71-74 | `base64_url_encode` of 32 ASCII characters has 44 characters: 43 from the alphabet and a final `=`. |
| Auth.GenerateRandomState | cms_bluebutton/auth.py:91-92 | The state is the base64url encoding of some ASCII string of length `num`. With `num = 32` it has the 44-character shape. |
| Auth.AsciiBytes | cms_bluebutton/auth.py:86 | `encode("ASCII")` maps each character to its code point. |
| Auth.ChallengeDecodesToDigest | cms_bluebutton/auth.py:85-87 | A 32-byte digest gives a 44-character challenge that decodes back to the digest. This states `Auth.CodeChallenge`. |
| Auth.VerifierOutsideRfc7636 | cms_bluebutton/auth.py:84 | The verifier shape, with its trailing `=`, is never a section 4.1 RFC 7636 verifier. |
| Auth.GeneratePkceData | cms_bluebutton/auth.py:83-88 | Returns exactly `code_challenge` and `verifier`. The verifier has the 44-character shape. The challenge is base64url(SHA-256(ASCII(verifier))), with padding kept. |
| Auth.ShapeIsAscii | cms_bluebutton/auth.py:86 | A string of the state shape is ASCII, so `encode("ASCII")` cannot fail on the verifier. |
| Auth.GenerateAuthData | cms_bluebutton/auth.py:95-98 | The data has exactly the keys `state`, `code_challenge` and `verifier`. State and verifier have the shape, and the challenge is derived from the verifier. |
| Auth.AuthorizeParams | cms_bluebutton/auth.py:55-62 | There are six parameters: `client_id`, `redirect_uri`, `state`, `response_type=code`, `code_challenge_method=S256`, `code_challenge`, in that order, with their values. A missing state is a KeyError naming `state`, checked first; then a missing challenge, a KeyError naming `code_challenge`. It fails only in these two cases. |
| Auth.GenerateAuthorizeUrl | cms_bluebutton/auth.py:54-68 | It fails iff state or challenge is missing. Otherwise the URL is `auth_base_url + "?"` and a query that decodes to the six parameters, with the callback URL as `redirect_uri`. |
| Auth.AuthorizeUrlDecodes | cms_bluebutton/auth.py:54-68 | For any redirect URI: the URL is an error iff a key is missing. Otherwise its query decodes to every key and value, in order. |
| Auth.AuthorizeUrlFor | cms_bluebutton/auth.py:54-68 | The URL fails iff state or challenge is missing. Otherwise it starts with the endpoint and `?`. |
| Auth.CheckCallback | cms_bluebutton/auth.py:127-135 | The checks run in order: code missing, then state missing, then a KeyError when the auth data has no `state`, then state mismatch. The callback is accepted iff code and state are present and the state matches. |
| Auth.ExchangeFields | cms_bluebutton/auth.py:102-110 | The seven exchange fields, in order, with their values: the client id and secret, the code, `grant_type=authorization_code`, the callback URL as `redirect_uri`, and the verifier and challenge from the auth data. A missing verifier is a KeyError naming `verifier`, checked first; then a missing challenge. It fails only in these two cases. |
| Auth.StampExpiry | cms_bluebutton/auth.py:119-122 | `expires_at` is overwritten with `now + expires_in` whatever the body held. A missing `expires_in` is a KeyError. |
| Auth.ExchangeCall | cms_bluebutton/auth.py:113-122 | Exactly one POST. A 4xx/5xx status raises; any other status stamps the expiry. |
| Auth.GetAccessTokenFromCode | cms_bluebutton/auth.py:101-124 | A missing key raises before any request. Otherwise one multipart POST to the token URL with the SDK header and the seven fields. 4xx/5xx raises HttpError. Any other status returns exactly the body with `expires_at` stamped to `now + expires_in`, or a KeyError without `expires_in`. |
| Auth.GetAuthorizationToken | cms_bluebutton/auth.py:127-137 | A failed check raises with no request made. After the checks, a missing verifier or challenge raises with no request; otherwise exactly the one multipart exchange with the SDK header and the seven fields. 4xx/5xx raises HttpError. Any other status gives `AuthorizationToken` of the stamped body, so every field is copied and the expiry is `now + expires_in`. |
| Auth.RefreshFields | cms_bluebutton/auth.py:33-37 | The three fields, in order, with their values: `client_id` = the client id, `grant_type=refresh_token`, and the token's `refresh_token`. |
| Auth.RefreshAuthToken | cms_bluebutton/auth.py:32-51 | Exactly one form POST to the token URL, with the SDK header and basic auth `(client_id, client_secret)`. 4xx/5xx raises; otherwise a new token is built from the body. |
| FhirRequest.HeaderMap.constructor | cms_bluebutton/constants.py:1-2 | The shared header map starts as `{X-BLUEBUTTON-SDK: python}`. |
| FhirRequest.HeaderMap.Set | cms_bluebutton/fhir_request.py:19 | A write replaces one entry of the shared map in place. |
| FhirRequest.RequestConfig.constructor | cms_bluebutton/fhir_request.py:8 | The caller's config holds `auth_token`, `url` and `params`. Each key may be absent, present with None, or present with a value. |
| FhirRequest.HandleExpired | cms_bluebutton/fhir_request.py:29-33 | An unexpired token gives None with no request. An expired one gives exactly `refresh_auth_token`'s requests and outcome. |
| FhirRequest.FullUrl | cms_bluebutton/fhir_request.py:17 | The URL is exactly the base URL, `/v`, the version, `/`, then the path. |
| FhirRequest.NoAbsolutePassThrough | cms_bluebutton/fhir_request.py:17 | No path, however absolute, is used unchanged. |
| FhirRequest.FhirRequestSpec | cms_bluebutton/fhir_request.py:7-26 | A missing `auth_token` key raises KeyError first; a None token raises AttributeError on `access_token_expired()`. Only an expired token is refreshed. The `url` and `params` keys must be present; a None `url` is written as `None` in the URL and None `params` send no query. At most one GET is made, and the call succeeds iff it is made. The GET carries the retry policy, the composed URL and the bearer of the refreshed or original token. The response is returned whatever its status, with `auth_token` = the refresh result or None. The shared map either keeps its entries or gains only the bearer header. After a GET it is exactly the map that GET carried, so its bearer is the token sent. Its SDK header survives. |
| FhirRequest.UnexpiredTokenIsUsed | cms_bluebutton/fhir_request.py:9-19 | An unexpired token is sent as it is. No token request is made, and `auth_token` is None. |
| FhirRequest.ExpiredTokenIsRefreshed | cms_bluebutton/fhir_request.py:9-19 | An expired token is refreshed first. A failed refresh stops the call before any GET. A successful one supplies the bearer and is returned. |
| FhirRequest.Request | cms_bluebutton/fhir_request.py:7-26 | Performs the spec's requests and returns its outcome. Writes the bearer header into the shared map in place, so the map afterwards is the spec's. The caller's config is not written. |
| BlueButton.Configure | cms_bluebutton/cms_bluebutton.py:58-90 | An unreadable file changes nothing. Otherwise the fields are the dictionary checks' result. The endpoints change iff configuration succeeds, and then lie under the new base URL and version. |
| BlueButton.FailedReconfigurationSplitsBase | cms_bluebutton/cms_bluebutton.py:66-90 | A reconfiguration that fails on a missing setting moves `base_url` while the endpoints keep the old base. |
| BlueButton.ConfigureIdempotent | cms_bluebutton/cms_bluebutton.py:58-90 | Configuring twice from the same dictionary gives the same client. |
| BlueButton.BlueButton.Init | cms_bluebutton/cms_bluebutton.py:26-32 | Before configuration: version 2 and every other field None. |
| BlueButton.BlueButton.SetConfiguration | cms_bluebutton/cms_bluebutton.py:58-90 | The field-by-field assignments leave exactly `Configure`'s state and error. On success the client is ready. |
| BlueButton.BlueButton.AssignSettings | cms_bluebutton/cms_bluebutton.py:85-90 | The three settings, the version (2 unless given) and the two endpoints under them. `/o/token/` keeps its trailing slash. |
| BlueButton.BlueButton.GetResource | cms_bluebutton/cms_bluebutton.py:92-94 | Overwrites the caller's `config["url"]` and keeps its other keys. Then performs the resource request. |
| BlueButton.BlueButton.GetPatientData | cms_bluebutton/cms_bluebutton.py:92-94 | `config["url"]` becomes `fhir/Patient/`, then the resource request. |
| BlueButton.BlueButton.GetCoverageData | cms_bluebutton/cms_bluebutton.py:96-98 | `config["url"]` becomes `fhir/Coverage/`, then the resource request. |
| BlueButton.BlueButton.GetExplainationOfBenefitData | cms_bluebutton/cms_bluebutton.py:100-102 | `config["url"]` becomes `fhir/ExplanationOfBenefit/`, then the resource request. |
| BlueButton.BlueButton.GetProfileData | cms_bluebutton/cms_bluebutton.py:104-106 | `config["url"]` becomes `connect/userinfo`, then the resource request. |
| BlueButton.BlueButton.GetCustomData | cms_bluebutton/cms_bluebutton.py:108-109 | The caller's config is used as it is and left unchanged. |
| BlueButton.NewBlueButton | cms_bluebutton/cms_bluebutton.py:26-34 | The constructor raises iff configuration fails. Otherwise it yields a ready client in the configured state. |
| SrcBlueButton.ConfigureFields | src/bluebutton.py:55-85 | The same dictionary checks. A success always leaves a base URL and all three settings non-None. |
| SrcBlueButton.ConfigurationForgetsHistory | src/bluebutton.py:55-85 | A successful configuration does not depend on the fields it started from. |
| SrcBlueButton.BlueButton.Init | src/bluebutton.py:23-29 | Version 2 and every other field None. |
| SrcBlueButton.BlueButton.SetConfiguration | src/bluebutton.py:55-85 | The step-by-step assignments leave exactly `ConfigureFields`' fields and error. |
| SrcBlueButton.NewBlueButton | src/bluebutton.py:23-31 | Raises iff configuration fails; otherwise the client has a base URL. |
| SrcCmsAuth.AuthorizeUrlAsWritten | src/cms_bluebutton/auth.py:65-73 | The URL the session stores. It fails iff state or challenge is missing. |
| SrcCmsAuth.AsWrittenRedirectIsSecret | src/cms_bluebutton/auth.py:65-73 | As written, the decoded `redirect_uri` is the client secret. |
| SrcCmsAuth.AuthorizeUrl | src/cms_bluebutton/auth.py:65-73 | The corrected URL fails iff state or challenge is missing. |
| SrcCmsAuth.CorrectedRedirectIsCallback | src/cms_bluebutton/auth.py:65-73 | In the corrected URL, the decoded `redirect_uri` is the callback URL. |
| SrcCmsAuth.ExchangeCode | src/cms_bluebutton/auth.py:98-115 | A missing verifier or challenge raises before any request. Otherwise one multipart POST without the SDK header. 4xx/5xx raises HttpError. Any other status gives `AuthorizationToken` of the body with its expiry stamped to `now + expires_in`. |
| SrcCmsAuth.Refresh | src/cms_bluebutton/auth.py:47-63 | With no token, AttributeError and no request. Otherwise one query-string POST with basic auth and no SDK header. 4xx/5xx raises; otherwise a new token is built. |
| SrcCmsAuth.NewSession | src/cms_bluebutton/auth.py:23-24 | Fresh PKCE data, and the authorize URL built from it as written, with the client secret in `redirect_uri`. |
| SrcCmsAuth.AuthRequest.constructor | src/cms_bluebutton/auth.py:19-25 | Endpoints from the client's base URL and version. The auth data is generated once. `auth_url` is its authorize URL as written, with the client secret in `redirect_uri`. `auth_token` is None. |
| SrcCmsAuth.AuthRequest.GetAuthorizeUrl | src/cms_bluebutton/auth.py:27-28 | Returns the URL stored at construction. |
| SrcCmsAuth.AuthRequest.AuthorizeCallback | src/cms_bluebutton/auth.py:30-42 | The three checks, then the exchange. `auth_token` is set iff a token is returned and is otherwise unchanged. |
| SrcCmsAuth.AuthRequest.AccessTokenExpired | src/cms_bluebutton/auth.py:44-45 | AttributeError before any token exists; otherwise the strict `expires_at < now` test. |
| SrcCmsAuth.AuthRequest.RefreshAccessToken | src/cms_bluebutton/auth.py:47-63 | `auth_token` is replaced iff the refresh returns a token; a raised refresh leaves it unchanged. |
| SrcAuth.TokenEndpointNoSlash | src/auth.py:13 | This revision's token URL is the packaged one without the trailing slash. |
| SrcAuth.GenerateAuthData | src/auth.py:93-97 | With `pkce`, the full PKCE data. Without it, only a `state` of the 44-character shape. |
| SrcAuth.PkceQuery | src/auth.py:69 | With `pkce` off, the empty string. With it on, a KeyError iff the challenge is missing. |
| SrcAuth.AuthorizeUrl | src/auth.py:68-73 | The challenge is looked up before the state. The URL fails iff one that is needed is missing. |
| SrcAuth.AuthorizeItems | src/auth.py:14-15 | The template writes four items, or six with PKCE. |
| SrcAuth.QueryIsJoin | src/auth.py:14-15 | The template's query is exactly its items joined by `&`. This states `SrcAuth.TemplateQuery`. |
| SrcAuth.AuthorizeQueryItems | src/auth.py:68-73 | The URL is `auth_base_url + "?"` followed by a query. Unencoded, the query splits on `&` into exactly the template's items when no value holds `&`. |
| SrcAuth.GeneratedValuesHaveNoAmpersand | src/auth.py:85-94 | Generated states and challenges hold no `&`. Only the configured client id and callback URL can break the query apart. |
| SrcAuth.ExchangeFields | src/auth.py:99-107 | Five fields with their values (client id and secret, code, `grant_type=authorization_code`, callback URL), plus the verifier and challenge only with `pkce`. A missing key is a KeyError only with `pkce`, naming `verifier` before `code_challenge`. |
| SrcAuth.ExchangeAsWritten | src/auth.py:99-116 | As written: a missing key raises before any request. Otherwise one multipart POST; a non-200 status raises "Failed to get access token". |
| SrcAuth.ExchangeAsWrittenAlwaysRaises | src/auth.py:109-116 | As written, the exchange never returns a body. A 200 raises AttributeError. |
| SrcAuth.Exchange | src/auth.py:109-116 | Corrected: one multipart POST. A 200 stamps `now + expires_in`; any other status raises "Failed to get access token". |
| SrcAuth.NewTokenAsWritten | src/auth.py:120-126 | As written: a token is built iff the body has `expires_at`, which it keeps. Otherwise AttributeError. |
| SrcAuth.NewTokenAsWrittenRejectsExpiresIn | src/auth.py:123 | As written, a body with only `expires_in` raises AttributeError. The intended constructor accepts it with expiry `now + expires_in`. |
| SrcAuth.NewTokenAsWrittenAgrees | src/auth.py:123 | With an `expires_at`, the as-written and intended constructors agree. |
| SrcAuth.RefreshAsWritten | src/auth.py:48-57 | As written: no token gives AttributeError, and no refresh token gives the "not available" ValueError. |
| SrcAuth.RefreshAsWrittenNeverSends | src/auth.py:48-57 | As written, a refresh never sends a request and always raises. |
| SrcAuth.Refresh | src/auth.py:48-66 | Corrected: no token gives AttributeError; a missing refresh token gives the "not available" ValueError. Neither sends a request. Otherwise one query-string POST with basic auth. A 200 builds a token; any other status raises "Failed to refresh access token". |
| SrcAuth.NewSession | src/auth.py:24-25 | Auth data for the `pkce` setting, and its authorize URL. |
| SrcAuth.AuthRequest.constructor | src/auth.py:20-26 | Endpoints from the config's base URL and version; the token URL has no trailing slash. The auth data follows the `pkce` switch. `auth_token` is None. |
| SrcAuth.AuthRequest.AuthorizeCallback | src/auth.py:31-43 | The three checks, then the corrected exchange and token. `auth_token` is set iff a token is built. |
| SrcAuth.AuthRequest.AccessTokenExpired | src/auth.py:45-46 | AttributeError before any token exists; otherwise the strict expiry test. |
| SrcAuth.AuthRequest.RefreshAccessToken | src/auth.py:48-66 | The corrected refresh. `auth_token` is replaced iff a token is built. |

## Left out

- **HTTP transport.** `requests.post`, `Session.get`/`mount`, `HTTPAdapter` and
  urllib3's `Retry` and backoff are oracles. The retry policy is kept only as
  the constant record `(3, 5, [500, 502, 503, 504])`.
- **`MultipartEncoder`.** It is reduced to the `Multipart` carrier; its
  `content-type` header (boundary included) is not modelled.
- **`raise_for_status`.** It is reduced to "a 4xx/5xx status raises
  HttpError(status)". The exception messages of the `Exception` raised in
  src/auth.py are reduced to their prefix and the status code; the response
  content is not modelled.
- **JSON and YAML.** `json.load` and `yaml.safe_load` are the parameters
  `readJson`/`readYaml`. The token endpoint's body is taken as already
  parsed into `TokenBody`.
- **SHA-256.** It is the uninterpreted parameter `sha256`; only its length
  (32 bytes) is assumed where a lemma says so.
- **Randomness.** `random.choice` is an index sequence. Nothing is claimed
  about its distribution.
- **Time.** Wall-clock time is one integer `now` per call, in seconds.
  Timezones are not modelled, nor the naive/aware distinction of `datetime`.
- **Configuration error messages.** The ` in: {config}` / ` for: {config}`
  suffixes of `set_configuration`'s messages are dropped from the
  environment and missing-setting messages.
- **Delegate wrappers.** `BlueButton.refresh_auth_token`,
  `generate_auth_data`, `generate_authorize_url` and
  `get_authorization_token` (cms_bluebutton/cms_bluebutton.py:111-121) are
  one-line delegations. They are modelled by the `Auth` functions applied to
  the client's settings (`BlueButton.BlueButton.Settings`).
- **Private `AuthRequest` helpers.** `_get_random_string`,
  `_generate_random_state`, `_generate_pkce_data`, `_base64_url_encode` and
  `_generate_authdata` are the same code as the `Auth` module functions and
  are modelled by them.
- **`SDK_HEADERS`.** It is imported by cms_bluebutton/fhir_request.py but is
  not defined in cms_bluebutton/constants.py. It is modelled as one shared
  `HeaderMap` that starts as `{X-BLUEBUTTON-SDK: python}` and is passed to
  the client.
- **`bb.get_config()`.** It is not provided by src/bb2.py. The
  configuration src/auth.py reads is the value `SrcAuth.Bb2Config`.
- **Earlier executors.** src/fhirRequest.py and
  src/cms_bluebutton/fhir_request.py are not part of this model; they cannot
  run as written.
- **Untested features.** Pagination, `get_dict`/`set_dict`, the LOCAL/TEST
  environments and `token_refresh_on_expire` appear only in tests or in the
  demo. They are not part of this model.
- **Other code.** app.py (the Flask demo), client/ (the React UI) and
  setup.py are not part of this model.
- Auth.StampExpiry: a body with `expires_in: null` is reported as KeyError("expires_in"), as a missing key is; the source raises TypeError from `timedelta`. The parsed token body does not distinguish a null value from an absent key.
- Token.NewToken: any present `expires_at` is kept, as if truthy. After a code exchange the value is a `datetime`, which is always truthy, so nothing is lost there. On the refresh paths (cms_bluebutton/auth.py:51, src/cms_bluebutton/auth.py:61) the raw JSON reaches `AuthorizationToken`. There a present but falsy `expires_at` (`0`, `""`, `false`) is recomputed by the source as `now + expires_in`, while the model keeps it. Times are plain integers here and cannot tell a JSON value from a `datetime`.
- **Concurrency on `SDK_HEADERS`.** Only sequential calls are modelled. Two
  threads writing the shared map are not.

## Findings

| source | as written | input that shows it | evidently intended | confidence | as-written member | corrected member |
|---|---|---|---|---|---|---|
| src/cms_bluebutton/auth.py:67 | `redirect_uri` is set to `bb.client_secret`; the `AuthRequest` session stores this URL, as the code does | any configured client with any auth data: the decoded query's second pair is `("redirect_uri", client_secret)` | `redirect_uri` is `bb.callback_url`, as in cms_bluebutton/auth.py:57 and the exchange at src/cms_bluebutton/auth.py:103 | not executed; high | SrcCmsAuth.AsWrittenRedirectIsSecret | SrcCmsAuth.CorrectedRedirectIsCallback |
| src/auth.py:113 | `datetime.datetime.now()` although `datetime` is imported as the class (line 7) | any status-200 response to the code exchange raises AttributeError | `expires_at = now + expires_in` | not executed; high | SrcAuth.ExchangeAsWrittenAlwaysRaises | SrcAuth.Exchange |
| src/auth.py:123 | the fallback calls `datetime.datetime.now(timezone.utc)` | a token body with `expires_in` and no `expires_at`, which is what a refresh returns, raises AttributeError | expiry `now + expires_in`, as in cms_bluebutton/auth.py:17-22 | not executed; high | SrcAuth.NewTokenAsWrittenRejectsExpiresIn | Token.NewToken |
| src/auth.py:56 | reads `self.refresh_token`, an attribute `AuthRequest` never has | a session holding a token with a refresh token: the refresh raises AttributeError and sends nothing | `self.auth_token.refresh_token`, the value checked at line 50 | not executed; high | SrcAuth.RefreshAsWrittenNeverSends | SrcAuth.Refresh |
