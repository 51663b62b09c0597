/** The `BlueButton` class of src/bluebutton.py: the same configuration
    checks as the packaged client, without the endpoint fields or the
    resource getters. */
module SrcBlueButton {
  import opened Wrappers
  import opened Values
  import opened Settings

  /** `set_configuration(config)` on the fields it starts from. */
  function ConfigureFields(f: Fields, source: ConfigSource, readJson: string -> map<string, ConfigValue>,
                           readYaml: string -> map<string, ConfigValue>): (a: Applied)
    // A file that cannot be read changes nothing.
    ensures LoadConfig(source, readJson, readYaml).Err? ==>
              a == Applied(f, Some(LoadConfig(source, readJson, readYaml).error))
    ensures LoadConfig(source, readJson, readYaml).Ok? ==>
              a == ApplySettings(f, LoadConfig(source, readJson, readYaml).value)
    // A successful configuration always leaves a base URL and all three settings.
    ensures a.error.None? ==>
              a.fields.baseUrl.Some? && a.fields.clientId != Null && a.fields.clientSecret != Null
              && a.fields.callbackUrl != Null
  {
    match LoadConfig(source, readJson, readYaml)
    case Err(e) => Applied(f, Some(e))
    case Ok(d) => ApplySettings(f, d)
  }

  /** A successful configuration does not depend on the fields it started
      from: any two clients configured from the same source agree. */
  lemma ConfigurationForgetsHistory(f: Fields, g: Fields, source: ConfigSource,
                                    readJson: string -> map<string, ConfigValue>,
                                    readYaml: string -> map<string, ConfigValue>)
    requires ConfigureFields(f, source, readJson, readYaml).error.None?
    ensures ConfigureFields(g, source, readJson, readYaml) == ConfigureFields(f, source, readJson, readYaml)
  {
    var d := LoadConfig(source, readJson, readYaml).value;
    assert ApplySettings(g, d).fields == ApplySettings(f, d).fields;
  }

  class BlueButton {
    var clientId: ConfigValue
    var clientSecret: ConfigValue
    var callbackUrl: ConfigValue
    var version: ConfigValue
    var baseUrl: Option<string>

    function State(): Fields
      reads this
    {
      Fields(baseUrl, clientId, clientSecret, callbackUrl, version)
    }

    /** The assignments `__init__` makes before `set_configuration`. */
    constructor Init()
      ensures State() == InitialFields
    {
      clientId := Null;
      clientSecret := Null;
      callbackUrl := Null;
      version := Int(2);
      baseUrl := None;
    }

    /** `set_configuration(config)`, one assignment at a time. */
    method SetConfiguration(source: ConfigSource, readJson: string -> map<string, ConfigValue>,
                            readYaml: string -> map<string, ConfigValue>)
      returns (error: Option<Error>)
      modifies this
      ensures var a := ConfigureFields(old(State()), source, readJson, readYaml);
              State() == a.fields && error == a.error
    {
      var loaded := LoadConfig(source, readJson, readYaml);
      if loaded.Err? {
        return Some(loaded.error);
      }
      var d := loaded.value;
      var base := EnvironmentBaseUrl(Get(d, "environment"));
      if base.None? {
        return Some(ValueError(EnvironmentMessage));
      }
      baseUrl := base;
      var missing := FindMissingSetting(d);
      if missing.Some? {
        return Some(ValueError(MissingMessage(missing.value)));
      }
      clientId := Get(d, "client_id");
      clientSecret := Get(d, "client_secret");
      callbackUrl := Get(d, "callback_url");
      version := if "version" in d then d["version"] else Int(2);
      error := None;
    }
  }

  /** `BlueButton(config)`: no client exists when `set_configuration` raises. */
  method NewBlueButton(source: ConfigSource, readJson: string -> map<string, ConfigValue>,
                       readYaml: string -> map<string, ConfigValue>)
    returns (r: Result<BlueButton>)
    ensures var a := ConfigureFields(InitialFields, source, readJson, readYaml);
            (r.Err? <==> a.error.Some?) && (r.Err? ==> r.error == a.error.value)
            && (r.Ok? ==> fresh(r.value) && r.value.State() == a.fields && r.value.baseUrl.Some?)
  {
    var bb := new BlueButton.Init();
    var error := bb.SetConfiguration(source, readJson, readYaml);
    if error.Some? {
      return Err(error.value);
    }
    return Ok(bb);
  }
}
