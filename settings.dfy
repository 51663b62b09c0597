/** Configuration handling shared by both revisions of `BlueButton`
    (cms_bluebutton/cms_bluebutton.py and src/bluebutton.py): the file
    extension dispatch, the environment whitelist and the ordered check of
    required settings. */
module Settings {
  import opened Wrappers
  import opened Values
  import opened Constants
  import UrlEncoding

  /** `set_configuration` accepts a file path or an already parsed dictionary. */
  datatype ConfigSource = Path(path: string) | Dict(dict: map<string, ConfigValue>)

  /** The non-empty path components other than `.`, as `pathlib` keeps them. */
  function Components(parts: seq<string>): (r: seq<string>)
    ensures forall i :: 0 <= i < |r| ==> r[i] != "" && r[i] != "."
    decreases |parts|
  {
    if parts == [] then []
    else if parts[0] == "" || parts[0] == "." then Components(parts[1..])
    else [parts[0]] + Components(parts[1..])
  }

  /** `PurePosixPath(path).name`: the last component, or "" when there is none. */
  function Name(path: string): string
  {
    var comps := Components(UrlEncoding.Split(path, '/'));
    if comps == [] then "" else comps[|comps| - 1]
  }

  /** Index of the last `c` in `s`, or -1. */
  function LastIndexOf(s: string, c: char): (i: int)
    ensures -1 <= i < |s|
    ensures i >= 0 ==> s[i] == c && forall j :: i < j < |s| ==> s[j] != c
    ensures i == -1 ==> c !in s
    decreases |s|
  {
    if s == [] then -1
    else if s[|s| - 1] == c then |s| - 1
    else LastIndexOf(s[..|s| - 1], c)
  }

  /** `pathlib.Path(path).suffix`: the name's final `.`-suffix, "" for a
      leading dot, a trailing dot or none. */
  function Suffix(path: string): (s: string)
    // Empty, or a dot followed by at least one character of the last component.
    ensures s == "" || (|s| >= 2 && s[0] == '.')
  {
    var name := Name(path);
    var i := LastIndexOf(name, '.');
    if 0 < i < |name| - 1 then name[i..] else ""
  }

  /** A simple file name `stem.ext` has the suffix `.ext`. */
  lemma SuffixOfFileName(stem: string, ext: string)
    requires stem != "" && ext != ""
    requires '/' !in stem && '.' !in stem && '/' !in ext && '.' !in ext
    ensures Suffix(stem + "." + ext) == "." + ext
  {
    var name := stem + "." + ext;
    assert '/' !in name by {
      forall i | 0 <= i < |name| ensures name[i] != '/' {
        if i < |stem| { assert name[i] == stem[i]; }
        else if i > |stem| { assert name[i] == ext[i - |stem| - 1]; }
      }
    }
    UrlEncoding.SplitWhole(name, '/');
    assert name != "." by { assert |name| >= 3; }
    assert Components([name]) == [name];
    assert Name(name) == name;
    LastDotOfFileName(stem, ext);
    assert name[|stem|..] == "." + ext;
  }

  lemma {:induction false} LastDotOfFileName(stem: string, ext: string)
    requires '.' !in ext
    ensures LastIndexOf(stem + "." + ext, '.') == |stem|
    decreases |ext|
  {
    var name := stem + "." + ext;
    if ext == [] {
      assert name[|name| - 1] == '.';
    } else {
      assert name[|name| - 1] == ext[|ext| - 1];
      assert name[..|name| - 1] == stem + "." + ext[..|ext| - 1];
      LastDotOfFileName(stem, ext[..|ext| - 1]);
    }
  }

  function ExtensionMessage(path: string): string
  {
    "Error: Configuration file extension must be .json or .yaml for: " + path
  }

  const EnvironmentMessage: string :=
    "Error: Configuration environment must be set to SANDBOX or PRODUCTION"

  function MissingMessage(setting: string): string
  {
    "Error: Configuration setting \"" + setting + "\" is missing"
  }

  /** `_read_config`: dispatch on the suffix to the JSON or the YAML reader
      (both outside the model, passed in); any other suffix raises. */
  function ReadConfig(path: string, readJson: string -> map<string, ConfigValue>,
                      readYaml: string -> map<string, ConfigValue>): (r: Result<map<string, ConfigValue>>)
    ensures Suffix(path) == ".json" ==> r == Ok(readJson(path))
    ensures Suffix(path) == ".yaml" ==> r == Ok(readYaml(path))
    ensures r.Err? <==> Suffix(path) != ".json" && Suffix(path) != ".yaml"
    ensures r.Err? ==> r.error == ValueError(ExtensionMessage(path))
  {
    var extension := Suffix(path);
    if extension == ".json" then Ok(readJson(path))
    else if extension == ".yaml" then Ok(readYaml(path))
    else Err(ValueError(ExtensionMessage(path)))
  }

  /** A file `stem.ext` is read as JSON exactly when `ext` is `json`, as YAML
      exactly when it is `yaml`, and refused otherwise (`yml` included). */
  lemma ReadConfigOfFileName(stem: string, ext: string, readJson: string -> map<string, ConfigValue>,
                             readYaml: string -> map<string, ConfigValue>)
    requires stem != "" && ext != ""
    requires '/' !in stem && '.' !in stem && '/' !in ext && '.' !in ext
    ensures ext == "json" <==> ReadConfig(stem + "." + ext, readJson, readYaml) == Ok(readJson(stem + "." + ext))
                               && Suffix(stem + "." + ext) == ".json"
    ensures ext == "yaml" <==> ReadConfig(stem + "." + ext, readJson, readYaml) == Ok(readYaml(stem + "." + ext))
                               && Suffix(stem + "." + ext) == ".yaml"
    ensures ReadConfig(stem + "." + ext, readJson, readYaml).Err? <==> ext != "json" && ext != "yaml"
  {
    SuffixOfFileName(stem, ext);
    var sfx := "." + ext;
    assert sfx[1..] == ext;
    assert sfx == ".json" <==> ext == "json" by {
      if sfx == ".json" { assert ext == ".json"[1..]; }
    }
    assert sfx == ".yaml" <==> ext == "yaml" by {
      if sfx == ".yaml" { assert ext == ".yaml"[1..]; }
    }
  }

  /** The dictionary a configuration source stands for. */
  function LoadConfig(source: ConfigSource, readJson: string -> map<string, ConfigValue>,
                      readYaml: string -> map<string, ConfigValue>): (r: Result<map<string, ConfigValue>>)
    ensures source.Dict? ==> r == Ok(source.dict)
    ensures source.Path? ==> r == ReadConfig(source.path, readJson, readYaml)
  {
    match source
    case Path(p) => ReadConfig(p, readJson, readYaml)
    case Dict(d) => Ok(d)
  }

  /** The base URL for the `environment` setting: only the exact strings
      SANDBOX and PRODUCTION are accepted. */
  function EnvironmentBaseUrl(env: ConfigValue): (r: Option<string>)
    ensures r.Some? <==> env == Str("SANDBOX") || env == Str("PRODUCTION")
    ensures env == Str("SANDBOX") ==> r == Some("https://sandbox.bluebutton.cms.gov")
    ensures env == Str("PRODUCTION") ==> r == Some("https://api.bluebutton.cms.gov")
  {
    if env == Str("SANDBOX") || env == Str("PRODUCTION") then Some(EnvironmentUrls[env.s]) else None
  }

  const RequiredSettings: seq<string> := ["client_id", "client_secret", "callback_url"]

  /** The first of `names` whose setting is None (missing or null). */
  function FirstMissing(d: map<string, ConfigValue>, names: seq<string>): (r: Option<string>)
    ensures r.None? <==> forall i :: 0 <= i < |names| ==> Get(d, names[i]) != Null
    ensures r.Some? ==> exists i :: 0 <= i < |names| && names[i] == r.value && Get(d, names[i]) == Null
                                    && forall j :: 0 <= j < i ==> Get(d, names[j]) != Null
    decreases |names|
  {
    if names == [] then None
    else if Get(d, names[0]) == Null then Some(names[0])
    else
      var r := FirstMissing(d, names[1..]);
      assert r.Some? ==> exists i :: 1 <= i < |names| && names[i] == r.value && Get(d, names[i]) == Null
                                     && forall j :: 0 <= j < i ==> Get(d, names[j]) != Null by {
        if r.Some? {
          var k :| 0 <= k < |names| - 1 && names[1..][k] == r.value && Get(d, names[1..][k]) == Null
                   && forall j :: 0 <= j < k ==> Get(d, names[1..][j]) != Null;
          assert names[k + 1] == r.value;
        }
      }
      r
  }

  /** The loop over the required settings, stopping at the first None. */
  method FindMissingSetting(d: map<string, ConfigValue>) returns (missing: Option<string>)
    ensures missing == FirstMissing(d, RequiredSettings)
  {
    for i := 0 to |RequiredSettings|
      invariant FirstMissing(d, RequiredSettings) == FirstMissing(d, RequiredSettings[i..])
    {
      var s := RequiredSettings[i];
      assert RequiredSettings[i..][1..] == RequiredSettings[i + 1..];
      if Get(d, s) == Null {
        return Some(s);
      }
    }
    return None;
  }

  /** The fields both revisions of `set_configuration` assign. */
  datatype Fields = Fields(
    baseUrl: Option<string>,
    clientId: ConfigValue,
    clientSecret: ConfigValue,
    callbackUrl: ConfigValue,
    version: ConfigValue)

  /** What `__init__` assigns before configuring: version 2, everything else None. */
  const InitialFields: Fields := Fields(None, Null, Null, Null, Int(2))

  /** The fields after a `set_configuration` on a dictionary, and the error it raised. */
  datatype Applied = Applied(fields: Fields, error: Option<Error>)

  /** `set_configuration` on a dictionary: the environment check assigns
      `base_url` before the required settings are checked, so a missing
      setting leaves a partly updated object. */
  function ApplySettings(f: Fields, d: map<string, ConfigValue>): (a: Applied)
    // The environment is checked first; an unknown one changes nothing.
    ensures EnvironmentBaseUrl(Get(d, "environment")).None? ==>
              a == Applied(f, Some(ValueError(EnvironmentMessage)))
    // A missing setting is named; only base_url has been updated by then.
    ensures EnvironmentBaseUrl(Get(d, "environment")).Some? && FirstMissing(d, RequiredSettings).Some? ==>
              a.error == Some(ValueError(MissingMessage(FirstMissing(d, RequiredSettings).value)))
              && a.fields == f.(baseUrl := EnvironmentBaseUrl(Get(d, "environment")))
    // Otherwise every field is replaced; the version defaults to 2.
    ensures a.error.None? <==>
              EnvironmentBaseUrl(Get(d, "environment")).Some? && FirstMissing(d, RequiredSettings).None?
    ensures a.error.None? ==>
              a.fields.baseUrl == EnvironmentBaseUrl(Get(d, "environment"))
              && a.fields.clientId == d["client_id"] && a.fields.clientSecret == d["client_secret"]
              && a.fields.callbackUrl == d["callback_url"]
              && a.fields.clientId != Null && a.fields.clientSecret != Null && a.fields.callbackUrl != Null
              && a.fields.version == (if "version" in d then d["version"] else Int(2))
  {
    var base := EnvironmentBaseUrl(Get(d, "environment"));
    if base.None? then Applied(f, Some(ValueError(EnvironmentMessage)))
    else
      var f1 := f.(baseUrl := base);
      match FirstMissing(d, RequiredSettings)
      case Some(s) => Applied(f1, Some(ValueError(MissingMessage(s))))
      case None =>
        Applied(f1.(clientId := Get(d, "client_id"), clientSecret := Get(d, "client_secret"),
                    callbackUrl := Get(d, "callback_url"),
                    version := if "version" in d then d["version"] else Int(2)), None)
  }

  /** Only None is rejected: empty strings are accepted for all three settings. */
  lemma EmptyStringsAccepted(f: Fields, env: string)
    requires env == "SANDBOX" || env == "PRODUCTION"
    ensures var d := map["environment" := Str(env), "client_id" := Str(""),
                         "client_secret" := Str(""), "callback_url" := Str("")];
            ApplySettings(f, d).error.None? && ApplySettings(f, d).fields.version == Int(2)
  {
    var d := map["environment" := Str(env), "client_id" := Str(""),
                 "client_secret" := Str(""), "callback_url" := Str("")];
    assert Get(d, RequiredSettings[0]) != Null && Get(d, RequiredSettings[1]) != Null
           && Get(d, RequiredSettings[2]) != Null;
  }

  /** The configured client as the token and resource code reads it. */
  datatype ClientSettings = ClientSettings(
    baseUrl: string,
    version: ConfigValue,
    clientId: ConfigValue,
    clientSecret: ConfigValue,
    callbackUrl: ConfigValue,
    authBaseUrl: string,
    authTokenUrl: string)

  /** `"{}/v{}/o/authorize".format(base_url, version)`. */
  function AuthorizeEndpoint(baseUrl: string, version: ConfigValue): string
  {
    baseUrl + "/v" + Show(version) + "/o/authorize"
  }

  /** `"{}/v{}/o/token/".format(base_url, version)`, with its trailing slash. */
  function TokenEndpoint(baseUrl: string, version: ConfigValue): string
  {
    baseUrl + "/v" + Show(version) + "/o/token/"
  }

  /** `str(None)`, for a base URL that was never assigned. */
  function ShowOpt(o: Option<string>): string
  {
    match o
    case None => "None"
    case Some(s) => s
  }
}
