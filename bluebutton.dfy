/** The `BlueButton` class of cms_bluebutton/cms_bluebutton.py: the client
    configuration, assigned field by field, and the resource getters. */
module BlueButton {
  import opened Wrappers
  import opened Values
  import opened Constants
  import opened Http
  import opened Token
  import opened Settings
  import opened FhirRequest

  /** What a configuration leaves behind: the fields, the two endpoints
      (assigned only once every check has passed) and the error raised. */
  datatype Configured = Configured(fields: Fields, authBaseUrl: Option<string>, authTokenUrl: Option<string>,
                                   error: Option<Error>)

  /** `set_configuration(config)` on the fields and endpoints it starts from. */
  function Configure(f: Fields, authBaseUrl: Option<string>, authTokenUrl: Option<string>, source: ConfigSource,
                     readJson: string -> map<string, ConfigValue>, readYaml: string -> map<string, ConfigValue>)
    : (c: Configured)
    // A file that cannot be read changes nothing.
    ensures LoadConfig(source, readJson, readYaml).Err? ==>
              c == Configured(f, authBaseUrl, authTokenUrl, Some(LoadConfig(source, readJson, readYaml).error))
    // Otherwise the fields are exactly what the dictionary checks leave.
    ensures LoadConfig(source, readJson, readYaml).Ok? ==>
              c.fields == ApplySettings(f, LoadConfig(source, readJson, readYaml).value).fields
              && c.error == ApplySettings(f, LoadConfig(source, readJson, readYaml).value).error
    // The endpoints change exactly when the configuration succeeds, and then
    // sit under the new base URL and version.
    ensures c.error.Some? ==> c.authBaseUrl == authBaseUrl && c.authTokenUrl == authTokenUrl
    ensures c.error.None? ==>
              c.fields.baseUrl.Some?
              && c.authBaseUrl == Some(AuthorizeEndpoint(c.fields.baseUrl.value, c.fields.version))
              && c.authTokenUrl == Some(TokenEndpoint(c.fields.baseUrl.value, c.fields.version))
  {
    match LoadConfig(source, readJson, readYaml)
    case Err(e) => Configured(f, authBaseUrl, authTokenUrl, Some(e))
    case Ok(d) =>
      var a := ApplySettings(f, d);
      if a.error.Some? then Configured(a.fields, authBaseUrl, authTokenUrl, a.error)
      else
        var base := ShowOpt(a.fields.baseUrl);
        Configured(a.fields, Some(AuthorizeEndpoint(base, a.fields.version)),
                   Some(TokenEndpoint(base, a.fields.version)), None)
  }

  /** A second configuration that fails on a missing setting still moves
      `base_url` to the new environment while the endpoints keep the old
      one: the object is left inconsistent. */
  lemma FailedReconfigurationSplitsBase(f: Fields, authBaseUrl: Option<string>, authTokenUrl: Option<string>,
                                        d: map<string, ConfigValue>,
                                        readJson: string -> map<string, ConfigValue>,
                                        readYaml: string -> map<string, ConfigValue>)
    requires EnvironmentBaseUrl(Get(d, "environment")).Some? && FirstMissing(d, RequiredSettings).Some?
    ensures var c := Configure(f, authBaseUrl, authTokenUrl, Dict(d), readJson, readYaml);
            c.fields.baseUrl == EnvironmentBaseUrl(Get(d, "environment"))
            && c.authBaseUrl == authBaseUrl && c.authTokenUrl == authTokenUrl
            && c.error == Some(ValueError(MissingMessage(FirstMissing(d, RequiredSettings).value)))
  {
  }

  /** Configuring with the same dictionary twice gives the same client:
      the result depends on the dictionary alone, not on earlier state. */
  lemma ConfigureIdempotent(f: Fields, authBaseUrl: Option<string>, authTokenUrl: Option<string>,
                            d: map<string, ConfigValue>,
                            readJson: string -> map<string, ConfigValue>,
                            readYaml: string -> map<string, ConfigValue>)
    requires Configure(f, authBaseUrl, authTokenUrl, Dict(d), readJson, readYaml).error.None?
    ensures var c := Configure(f, authBaseUrl, authTokenUrl, Dict(d), readJson, readYaml);
            Configure(c.fields, c.authBaseUrl, c.authTokenUrl, Dict(d), readJson, readYaml) == c
  {
    var c := Configure(f, authBaseUrl, authTokenUrl, Dict(d), readJson, readYaml);
    var c2 := Configure(c.fields, c.authBaseUrl, c.authTokenUrl, Dict(d), readJson, readYaml);
    assert c2.fields == c.fields;
  }

  class BlueButton {
    var clientId: ConfigValue
    var clientSecret: ConfigValue
    var callbackUrl: ConfigValue
    var version: ConfigValue
    var baseUrl: Option<string>
    var authBaseUrl: Option<string>
    var authTokenUrl: Option<string>
    /** The shared `SDK_HEADERS` dictionary the resource requests send. */
    const sdkHeaders: HeaderMap

    function State(): Fields
      reads this
    {
      Fields(baseUrl, clientId, clientSecret, callbackUrl, version)
    }

    /** A configured client: both endpoints and the base URL are assigned. */
    predicate Ready()
      reads this
    {
      baseUrl.Some? && authBaseUrl.Some? && authTokenUrl.Some?
    }

    function Settings(): ClientSettings
      reads this
      requires Ready()
    {
      ClientSettings(baseUrl.value, version, clientId, clientSecret, callbackUrl,
                     authBaseUrl.value, authTokenUrl.value)
    }

    /** The assignments `__init__` makes before `set_configuration`. */
    constructor Init(sdkHeaders: HeaderMap)
      ensures State() == InitialFields && authBaseUrl.None? && authTokenUrl.None?
      ensures this.sdkHeaders == sdkHeaders
    {
      clientId := Null;
      clientSecret := Null;
      callbackUrl := Null;
      version := Int(2);
      baseUrl := None;
      authBaseUrl := None;
      authTokenUrl := None;
      this.sdkHeaders := sdkHeaders;
    }

    /** `set_configuration(config)`, one assignment at a time. */
    method SetConfiguration(source: ConfigSource, readJson: string -> map<string, ConfigValue>,
                            readYaml: string -> map<string, ConfigValue>)
      returns (error: Option<Error>)
      modifies this
      ensures var c := Configure(old(State()), old(authBaseUrl), old(authTokenUrl), source, readJson, readYaml);
              State() == c.fields && authBaseUrl == c.authBaseUrl && authTokenUrl == c.authTokenUrl
              && error == c.error
      ensures error.None? ==> Ready()
    {
      var loaded := LoadConfig(source, readJson, readYaml);
      if loaded.Err? {
        return Some(loaded.error);
      }
      var d := loaded.value;
      var base := EnvironmentBaseUrl(Get(d, "environment"));
      if base.None? {
        return Some(ValueError(EnvironmentMessage));
      }
      baseUrl := base;
      var missing := FindMissingSetting(d);
      if missing.Some? {
        return Some(ValueError(MissingMessage(missing.value)));
      }
      AssignSettings(d);
      error := None;
    }

    /** The assignments after every check has passed: the three settings,
        the version (2 unless given) and the two endpoints under them. */
    method AssignSettings(d: map<string, ConfigValue>)
      requires baseUrl.Some?
      modifies this
      ensures baseUrl == old(baseUrl)
      ensures clientId == Get(d, "client_id") && clientSecret == Get(d, "client_secret")
              && callbackUrl == Get(d, "callback_url")
      ensures version == if "version" in d then d["version"] else Int(2)
      ensures authBaseUrl == Some(AuthorizeEndpoint(baseUrl.value, version))
              && authTokenUrl == Some(TokenEndpoint(baseUrl.value, version))
    {
      clientId := Get(d, "client_id");
      clientSecret := Get(d, "client_secret");
      callbackUrl := Get(d, "callback_url");
      version := if "version" in d then d["version"] else Int(2);
      authBaseUrl := Some(AuthorizeEndpoint(baseUrl.value, version));
      authTokenUrl := Some(TokenEndpoint(baseUrl.value, version));
    }

    /** `config["url"] = path; return fhir_request(self, config)`. */
    method GetResource(path: string, config: RequestConfig,
                       post: TokenRequest -> Response<TokenBody>, get: ResourceRequest -> Response<string>, now: int)
      returns (out: FhirOutcome)
      requires Ready()
      modifies config, sdkHeaders
      ensures config.url == Present(path) && config.authToken == old(config.authToken)
              && config.params == old(config.params)
      ensures var s := FhirRequestSpec(Settings(), config.authToken, Present(path), config.params,
                                       old(sdkHeaders.entries), post, get, now);
              out == s.outcome && sdkHeaders.entries == s.headers
    {
      config.url := Present(path);
      out := Request(Settings(), config, sdkHeaders, post, get, now);
    }

    method GetPatientData(config: RequestConfig, post: TokenRequest -> Response<TokenBody>,
                          get: ResourceRequest -> Response<string>, now: int)
      returns (out: FhirOutcome)
      requires Ready()
      modifies config, sdkHeaders
      ensures config.url == Present(PatientPath) && config.authToken == old(config.authToken)
              && config.params == old(config.params)
      ensures var s := FhirRequestSpec(Settings(), config.authToken, Present(PatientPath), config.params,
                                       old(sdkHeaders.entries), post, get, now);
              out == s.outcome && sdkHeaders.entries == s.headers
    {
      out := GetResource(PatientPath, config, post, get, now);
    }

    method GetCoverageData(config: RequestConfig, post: TokenRequest -> Response<TokenBody>,
                           get: ResourceRequest -> Response<string>, now: int)
      returns (out: FhirOutcome)
      requires Ready()
      modifies config, sdkHeaders
      ensures config.url == Present(CoveragePath) && config.authToken == old(config.authToken)
              && config.params == old(config.params)
      ensures var s := FhirRequestSpec(Settings(), config.authToken, Present(CoveragePath), config.params,
                                       old(sdkHeaders.entries), post, get, now);
              out == s.outcome && sdkHeaders.entries == s.headers
    {
      out := GetResource(CoveragePath, config, post, get, now);
    }

    method GetExplainationOfBenefitData(config: RequestConfig, post: TokenRequest -> Response<TokenBody>,
                                        get: ResourceRequest -> Response<string>, now: int)
      returns (out: FhirOutcome)
      requires Ready()
      modifies config, sdkHeaders
      ensures config.url == Present(ExplanationOfBenefitPath) && config.authToken == old(config.authToken)
              && config.params == old(config.params)
      ensures var s := FhirRequestSpec(Settings(), config.authToken, Present(ExplanationOfBenefitPath), config.params,
                                       old(sdkHeaders.entries), post, get, now);
              out == s.outcome && sdkHeaders.entries == s.headers
    {
      out := GetResource(ExplanationOfBenefitPath, config, post, get, now);
    }

    method GetProfileData(config: RequestConfig, post: TokenRequest -> Response<TokenBody>,
                          get: ResourceRequest -> Response<string>, now: int)
      returns (out: FhirOutcome)
      requires Ready()
      modifies config, sdkHeaders
      ensures config.url == Present(ProfilePath) && config.authToken == old(config.authToken)
              && config.params == old(config.params)
      ensures var s := FhirRequestSpec(Settings(), config.authToken, Present(ProfilePath), config.params,
                                       old(sdkHeaders.entries), post, get, now);
              out == s.outcome && sdkHeaders.entries == s.headers
    {
      out := GetResource(ProfilePath, config, post, get, now);
    }

    /** `get_custom_data(config)`: the caller's own `url` is used as it is. */
    method GetCustomData(config: RequestConfig, post: TokenRequest -> Response<TokenBody>,
                         get: ResourceRequest -> Response<string>, now: int)
      returns (out: FhirOutcome)
      requires Ready()
      modifies sdkHeaders
      ensures var s := FhirRequestSpec(Settings(), config.authToken, config.url, config.params,
                                       old(sdkHeaders.entries), post, get, now);
              out == s.outcome && sdkHeaders.entries == s.headers
    {
      out := Request(Settings(), config, sdkHeaders, post, get, now);
    }
  }

  /** `BlueButton(config)`: `__init__` raises whatever `set_configuration`
      raises, and then no client exists. */
  method NewBlueButton(source: ConfigSource, readJson: string -> map<string, ConfigValue>,
                       readYaml: string -> map<string, ConfigValue>, sdkHeaders: HeaderMap)
    returns (r: Result<BlueButton>)
    ensures var c := Configure(InitialFields, None, None, source, readJson, readYaml);
            (r.Err? <==> c.error.Some?) && (r.Err? ==> r.error == c.error.value)
            && (r.Ok? ==> fresh(r.value) && r.value.Ready() && r.value.State() == c.fields
                          && r.value.authBaseUrl == c.authBaseUrl && r.value.authTokenUrl == c.authTokenUrl
                          && r.value.sdkHeaders == sdkHeaders)
  {
    var bb := new BlueButton.Init(sdkHeaders);
    var error := bb.SetConfiguration(source, readJson, readYaml);
    if error.Some? {
      return Err(error.value);
    }
    return Ok(bb);
  }
}
