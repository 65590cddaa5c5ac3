/**
 * config.go: the client configuration, its defaults, the environment
 * overrides and Validate, which rewrites URL in place.
 */
module ClientConfig {
  import opened Wrappers
  import opened Text
  import opened Errors
  import OtelConfig

  const DefaultURL := "http://localhost:6006"
  const DefaultProjectName := "default"
  const CloudURL := "https://app.phoenix.arize.com"

  const EnvURL := "PHOENIX_URL"
  const EnvAPIKey := "PHOENIX_API_KEY"
  const EnvProjectName := "PHOENIX_PROJECT_NAME"
  const EnvSpaceID := "PHOENIX_SPACE_ID"

  /** The value of every field of a Config. */
  datatype Settings = Settings(url: string, spaceID: string, apiKey: string, projectName: string)

  /** NewConfig's fields. */
  const Defaults := Settings(DefaultURL, "", "", DefaultProjectName)

  class Config {
    var url: string
    var spaceID: string
    var apiKey: string
    var projectName: string

    function Value(): Settings
      reads this
    {
      Settings(url, spaceID, apiKey, projectName)
    }

    /** NewConfig: the local URL, no API key, the "default" project. */
    constructor ()
      ensures Value() == Defaults
    {
      url, spaceID, apiKey, projectName := DefaultURL, "", "", DefaultProjectName;
    }

    /** loadFromEnv: each non-empty variable overrides its field. */
    method LoadFromEnv(env: map<string, string>)
      modifies this
      ensures Value() == FromEnv(old(Value()), env)
    {
      var u := Getenv(env, EnvURL);
      if u != "" {
        url := u;
      }
      var s := Getenv(env, EnvSpaceID);
      if s != "" {
        spaceID := s;
        if url == DefaultURL {
          url := CloudURL;
        }
      }
      var k := Getenv(env, EnvAPIKey);
      if k != "" {
        apiKey := k;
      }
      var p := Getenv(env, EnvProjectName);
      if p != "" {
        projectName := p;
      }
    }

    /** Validate: ErrMissingURL for an empty URL; otherwise one trailing '/' off and the space appended. */
    method Validate() returns (err: Option<Error>)
      modifies this
      ensures old(url) == "" ==> err == Some(Sentinel(MissingURL)) && Value() == old(Value())
      ensures old(url) != "" ==> err.None? && Value() == Validated(old(Value())).value
    {
      if url == "" {
        return Some(Sentinel(MissingURL));
      }
      url := TrimSuffix(url, "/");
      if spaceID != "" {
        url := url + "/s/" + spaceID;
      }
      err := None;
    }

    /** BaseURL: the stored URL, which Validate has already completed. */
    function BaseURL(): (r: string)
      reads this
      ensures r == Value().url
    {
      url
    }
  }

  /** The reference definition of loadFromEnv. */
  function FromEnv(s: Settings, env: map<string, string>): Settings {
    var u := Getenv(env, EnvURL);
    var s1 := if u != "" then s.(url := u) else s;
    var sp := Getenv(env, EnvSpaceID);
    var s2 := if sp != "" then s1.(spaceID := sp, url := if s1.url == DefaultURL then CloudURL else s1.url) else s1;
    var k := Getenv(env, EnvAPIKey);
    var s3 := if k != "" then s2.(apiKey := k) else s2;
    var p := Getenv(env, EnvProjectName);
    if p != "" then s3.(projectName := p) else s3
  }

  /** The reference definition of Validate. */
  function Validated(s: Settings): Result<Settings, Error> {
    if s.url == "" then Failure(Sentinel(MissingURL))
    else
      var trimmed := TrimSuffix(s.url, "/");
      Success(s.(url := if s.spaceID != "" then trimmed + "/s/" + s.spaceID else trimmed))
  }

  /** LoadConfig: NewConfig, then loadFromEnv. */
  method LoadConfig(env: map<string, string>) returns (cfg: Config)
    ensures fresh(cfg) && cfg.Value() == FromEnv(Defaults, env)
  {
    cfg := new Config();
    cfg.LoadFromEnv(env);
  }

  /** Every variable overrides only when non-empty; an empty environment changes nothing. */
  lemma FromEnvOverrides(s: Settings, env: map<string, string>)
    ensures var r := FromEnv(s, env);
      (Getenv(env, EnvAPIKey) != "" ==> r.apiKey == Getenv(env, EnvAPIKey)) &&
      (Getenv(env, EnvAPIKey) == "" ==> r.apiKey == s.apiKey) &&
      (Getenv(env, EnvProjectName) != "" ==> r.projectName == Getenv(env, EnvProjectName)) &&
      (Getenv(env, EnvProjectName) == "" ==> r.projectName == s.projectName) &&
      (Getenv(env, EnvSpaceID) != "" ==> r.spaceID == Getenv(env, EnvSpaceID)) &&
      (Getenv(env, EnvSpaceID) == "" ==> r.spaceID == s.spaceID)
    ensures FromEnv(s, map[]) == s
  {
  }

  /**
   * The URL: PHOENIX_URL if set; then a space switches it to Phoenix Cloud
   * exactly when it still equals DefaultURL, even if PHOENIX_URL spelled out
   * DefaultURL explicitly.
   */
  lemma FromEnvURL(s: Settings, env: map<string, string>)
    ensures var u := if Getenv(env, EnvURL) != "" then Getenv(env, EnvURL) else s.url;
      (Getenv(env, EnvSpaceID) == "" ==> FromEnv(s, env).url == u) &&
      (Getenv(env, EnvSpaceID) != "" ==> FromEnv(s, env).url == (if u == DefaultURL then CloudURL else u))
    ensures Getenv(env, EnvURL) == DefaultURL && Getenv(env, EnvSpaceID) != "" ==>
      FromEnv(s, env).url == CloudURL
  {
  }

  /** LoadConfig with no environment is NewConfig. */
  lemma LoadConfigEmptyEnvironment()
    ensures FromEnv(Defaults, map[]) == Defaults
  {
  }

  /** Validate fails exactly for an empty URL, with ErrMissingURL, and touches nothing else on success. */
  lemma ValidatedFailsIffMissingURL(s: Settings)
    ensures Validated(s).Failure? <==> s.url == ""
    ensures Validated(s).Failure? ==> Validated(s).error == Sentinel(MissingURL)
    ensures Validated(s).Success? ==>
      var v := Validated(s).value; v.spaceID == s.spaceID && v.apiKey == s.apiKey && v.projectName == s.projectName
  {
  }

  /** Without a space Validate only removes at most one trailing '/'. */
  lemma ValidatedTrimsOneSlash(s: Settings)
    requires s.url != "" && s.spaceID == ""
    ensures var v := Validated(s).value.url;
      v == s.url || v + "/" == s.url
    ensures HasSuffix(s.url, "//") ==> HasSuffix(Validated(s).value.url, "/")
  {
    if HasSuffix(s.url, "//") {
      DoubleSlashKeepsOne(s.url);
    }
  }

  /** TrimSuffix(u, "/") of a URL ending in "//" still ends in '/'. */
  lemma DoubleSlashKeepsOne(u: string)
    requires HasSuffix(u, "//")
    ensures HasSuffix(TrimSuffix(u, "/"), "/")
  {
    var n := |u|;
    assert u[n - 2] == '/' by { assert u[n - 2..][0] == u[n - 2]; }
    assert u[n - 1..] == "/" by { assert u[n - 1..][0] == u[n - 2..][1]; }
    var v := u[..n - 1];
    assert TrimSuffix(u, "/") == v;
    assert v[|v| - 1..] == [u[n - 2]];
  }

  /** With a space Validate yields the once-trimmed URL + "/s/" + SpaceID. */
  lemma ValidatedAppendsSpace(s: Settings)
    requires s.url != "" && s.spaceID != ""
    ensures Validated(s).value.url == TrimSuffix(s.url, "/") + "/s/" + s.spaceID
    ensures HasSuffix(Validated(s).value.url, "/s/" + s.spaceID)
  {
    var v := TrimSuffix(s.url, "/") + "/s/" + s.spaceID;
    assert v[|v| - |"/s/" + s.spaceID|..] == "/s/" + s.spaceID;
  }

  /**
   * Validate is not idempotent with a space: a second call appends "/s/" +
   * SpaceID again, so the URL strictly grows (and when SpaceID does not end in
   * '/', the second URL is exactly the first + "/s/" + SpaceID).
   */
  lemma ValidatedTwiceAppendsAgain(s: Settings)
    requires s.url != "" && s.spaceID != ""
    ensures var once := Validated(s).value;
      Validated(once).Success? && |Validated(once).value.url| > |once.url|
    ensures !HasSuffix(s.spaceID, "/") ==>
      var once := Validated(s).value; Validated(once).value.url == once.url + "/s/" + s.spaceID
  {
    var once := Validated(s).value;
    ValidatedAppendsSpace(s);
    if !HasSuffix(s.spaceID, "/") {
      var u := once.url;
      assert u[|u| - 1] == s.spaceID[|s.spaceID| - 1];
      assert !HasSuffix(u, "/") by {
        assert u[|u| - 1..] == [u[|u| - 1]];
        assert s.spaceID[|s.spaceID| - 1..] == [s.spaceID[|s.spaceID| - 1]];
      }
    }
  }

  /**
   * The two normalisers differ: otel's EffectiveEndpoint strips every trailing
   * '/', the client's Validate only one, so "x//" with a space becomes
   * "x/s/<space>" for the exporter but "x//s/<space>" for the REST client.
   */
  lemma NormalisersDiffer(spaceID: string)
    requires spaceID != ""
    ensures OtelConfig.StripTrailingSlashes("x//") + "/s/" + spaceID == "x/s/" + spaceID
    ensures Validated(Settings("x//", spaceID, "", "")).value.url == "x//s/" + spaceID
  {
    assert "x//"[..2] == "x/" && "x/"[..1] == "x";
    assert HasSuffix("x//", "/");
  }
}
