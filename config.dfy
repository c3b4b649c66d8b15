/** Application settings read from the environment (backend/config.py): boolean
    flags, the proxy map handed to HTTP clients, the choice of the active
    configuration class and the production check of required secrets. */
module Config {
  import opened Wrappers
  import opened Text

  /** The process environment; an unset variable is absent from the map. */
  type Env = map<string, string>

  /** `os.getenv(name, default)`. */
  function Getenv(env: Env, name: string, default: string): string {
    if name in env then env[name] else default
  }

  /** The lower-cased spellings that make a flag true. */
  const TruthyFlagValues: seq<string> := ["true", "1", "t"]

  /** `value.lower() in ('true', '1', 't')`. */
  function FlagValue(value: string): (b: bool)
    ensures b ==> |value| == 1 || |value| == 4
  {
    Lower(value) in TruthyFlagValues
  }

  /** A flag does not depend on the case of its value. */
  lemma FlagCaseInsensitive(value: string)
    ensures FlagValue(value) == FlagValue(Lower(value))
  {
    LowerIdempotent(value);
  }

  /** The spellings a flag accepts and some it refuses. */
  lemma FlagExamples()
    ensures FlagValue("TRUE") && FlagValue("True") && FlagValue("1") && FlagValue("T")
    ensures !FlagValue("") && !FlagValue("yes") && !FlagValue("false") && !FlagValue("0")
  {
    assert Lower("TRUE") == "true";
    assert Lower("True") == "true";
    assert Lower("T") == "t";
    assert Lower("1") == "1";
    assert Lower("yes") == "yes";
    assert Lower("false") == "false";
    assert Lower("0") == "0";
  }

  /** The settings of the `Config` class that the rest of the backend reads. */
  datatype Settings = Settings(
    mfaRequired: bool,
    proxyEnabled: bool,
    proxyType: string,
    proxyHost: string,
    proxyPort: int,
    proxyUser: string,
    proxyPass: string,
    proxyRotation: bool,
    ethicalCheckEnabled: bool,
    saveSearchHistory: bool,
    privacyConsentRequired: bool)

  /** The class attributes of `Config`, evaluated against `env`. `proxyPort` is
      `int(os.getenv('PROXY_PORT', 8888))`, already converted. */
  function LoadSettings(env: Env, proxyPort: int): (s: Settings)
    ensures s.proxyPort == proxyPort
    ensures s.proxyEnabled <==> "PROXY_ENABLED" in env && FlagValue(env["PROXY_ENABLED"])
    ensures s.ethicalCheckEnabled <==> "ETHICAL_CHECK_ENABLED" !in env || FlagValue(env["ETHICAL_CHECK_ENABLED"])
    ensures s.saveSearchHistory <==> "SAVE_SEARCH_HISTORY" !in env || FlagValue(env["SAVE_SEARCH_HISTORY"])
  {
    assert Lower("false") == "false";
    assert Lower("true") == "true";
    Settings(
      mfaRequired := FlagValue(Getenv(env, "MFA_REQUIRED", "true")),
      proxyEnabled := FlagValue(Getenv(env, "PROXY_ENABLED", "false")),
      proxyType := Getenv(env, "PROXY_TYPE", "socks5"),
      proxyHost := Getenv(env, "PROXY_HOST", "localhost"),
      proxyPort := proxyPort,
      proxyUser := Getenv(env, "PROXY_USER", ""),
      proxyPass := Getenv(env, "PROXY_PASS", ""),
      proxyRotation := FlagValue(Getenv(env, "PROXY_ROTATION", "true")),
      ethicalCheckEnabled := FlagValue(Getenv(env, "ETHICAL_CHECK_ENABLED", "true")),
      saveSearchHistory := FlagValue(Getenv(env, "SAVE_SEARCH_HISTORY", "true")),
      privacyConsentRequired := FlagValue(Getenv(env, "PRIVACY_CONSENT_REQUIRED", "true")))
  }

  /** With nothing set, the proxy is off and every other flag is on. */
  lemma DefaultSettings()
    ensures var s := LoadSettings(map[], 8888);
      !s.proxyEnabled && s.mfaRequired && s.proxyRotation && s.ethicalCheckEnabled &&
      s.saveSearchHistory && s.privacyConsentRequired &&
      s.proxyType == "socks5" && s.proxyHost == "localhost" && s.proxyUser == "" && s.proxyPass == ""
  {
    assert Lower("true") == "true";
    assert Lower("false") == "false";
  }

  // ---------------------------------------------------------------------------
  // Proxies
  // ---------------------------------------------------------------------------

  /** `user:pass@` when both are non-empty, otherwise nothing. */
  function ProxyAuth(s: Settings): (auth: string)
    ensures auth != "" <==> s.proxyUser != "" && s.proxyPass != ""
    ensures auth != "" ==> auth == s.proxyUser + ":" + s.proxyPass + "@"
  {
    if s.proxyUser != "" && s.proxyPass != "" then s.proxyUser + ":" + s.proxyPass + "@" else ""
  }

  /** `f"{type}://{auth}{host}:{port}"`. */
  function ProxyUrl(s: Settings): string {
    s.proxyType + "://" + ProxyAuth(s) + s.proxyHost + ":" + IntToString(s.proxyPort)
  }

  /** `Config.get_proxies()`: nothing when the proxy is disabled, otherwise the
      same URL for both schemes. */
  function GetProxies(s: Settings): (m: map<string, string>)
    ensures !s.proxyEnabled ==> m == map[]
    ensures s.proxyEnabled ==> m.Keys == {"http", "https"} && m["http"] == m["https"]
    ensures s.proxyEnabled ==> IsPrefix(s.proxyType + "://", m["http"])
    ensures s.proxyEnabled ==> IsSuffix(s.proxyHost + ":" + IntToString(s.proxyPort), m["http"])
  {
    if !s.proxyEnabled then map[]
    else
      var url := ProxyUrl(s);
      assert url == (s.proxyType + "://") + (ProxyAuth(s) + s.proxyHost + ":" + IntToString(s.proxyPort));
      assert url == (s.proxyType + "://" + ProxyAuth(s)) + (s.proxyHost + ":" + IntToString(s.proxyPort));
      map["http" := url, "https" := url]
  }

  /** With both user and password set, the proxy URL carries them before the host. */
  lemma ProxyUrlWithCredentials(s: Settings)
    requires s.proxyEnabled && s.proxyUser != "" && s.proxyPass != ""
    ensures GetProxies(s)["http"] ==
      s.proxyType + "://" + s.proxyUser + ":" + s.proxyPass + "@" + s.proxyHost + ":" + IntToString(s.proxyPort)
  {
    var tail := s.proxyHost + ":" + IntToString(s.proxyPort);
    assert ProxyUrl(s) == s.proxyType + "://" + ProxyAuth(s) + tail;
    assert s.proxyType + "://" + s.proxyUser + ":" + s.proxyPass + "@" + s.proxyHost + ":" + IntToString(s.proxyPort)
      == s.proxyType + "://" + (s.proxyUser + ":" + s.proxyPass + "@") + tail;
  }

  /** Without a user or without a password, the proxy URL carries no credentials. */
  lemma ProxyUrlWithoutCredentials(s: Settings)
    requires s.proxyEnabled && (s.proxyUser == "" || s.proxyPass == "")
    ensures GetProxies(s)["http"] == s.proxyType + "://" + s.proxyHost + ":" + IntToString(s.proxyPort)
  {
    var tail := s.proxyHost + ":" + IntToString(s.proxyPort);
    assert ProxyUrl(s) == s.proxyType + "://" + ProxyAuth(s) + tail;
    assert s.proxyType + "://" + s.proxyHost + ":" + IntToString(s.proxyPort) == s.proxyType + "://" + tail;
  }

  // ---------------------------------------------------------------------------
  // Choice of configuration and production validation
  // ---------------------------------------------------------------------------

  datatype ConfigClass = DevelopmentConfig | TestingConfig | ProductionConfig

  /** `config_by_name[os.getenv('APP_ENV', 'development')]`; `None` is the
      `KeyError` raised at import for any other name. */
  function ActiveConfig(env: Env): (c: Option<ConfigClass>)
    ensures "APP_ENV" !in env ==> c == Some(DevelopmentConfig)
    ensures c.Some? <==> Getenv(env, "APP_ENV", "development") in {"development", "testing", "production"}
  {
    match Getenv(env, "APP_ENV", "development")
    case "development" => Some(DevelopmentConfig)
    case "testing" => Some(TestingConfig)
    case "production" => Some(ProductionConfig)
    case _ => None
  }

  /** The variables production refuses to start without. */
  const RequiredVars: seq<string> := ["JWT_SECRET", "API_KEY", "POSTGRES_PASSWORD", "REDIS_PASSWORD"]

  /** `not os.getenv(var)`: unset or empty. */
  predicate Unset(env: Env, name: string) {
    name !in env || env[name] == ""
  }

  /** The unset names of `vars`, in their order. */
  function MissingVars(env: Env, vars: seq<string>): (missing: seq<string>)
    ensures forall v :: v in missing <==> v in vars && Unset(env, v)
    ensures |missing| <= |vars|
  {
    if vars == [] then []
    else (if Unset(env, vars[0]) then [vars[0]] else []) + MissingVars(env, vars[1..])
  }

  const MissingVarsMessage: string := "Variables d'environnement manquantes en production: "

  /** `ProductionConfig.validate()`: raises, listing the missing names, iff one is unset. */
  function ValidateProduction(env: Env): (o: Outcome<string>)
    ensures o.Fail? <==> exists v :: v in RequiredVars && Unset(env, v)
    ensures o.Fail? ==> o.error == MissingVarsMessage + Join(", ", MissingVars(env, RequiredVars))
  {
    var missing := MissingVars(env, RequiredVars);
    if missing == [] then Pass
    else
      assert missing[0] in missing;
      Fail(MissingVarsMessage + Join(", ", missing))
  }

  /** One name at the head of `vars`: listed when unset, skipped when set. */
  lemma MissingVarsHead(env: Env, v: string, vars: seq<string>)
    ensures MissingVars(env, [v] + vars) == (if Unset(env, v) then [v] else []) + MissingVars(env, vars)
  {
    assert ([v] + vars)[0] == v && ([v] + vars)[1..] == vars;
  }

  /** `x` comes before `y` in `m`. */
  predicate InOrder(m: seq<string>, x: string, y: string) {
    exists i, j :: 0 <= i < j < |m| && m[i] == x && m[j] == y
  }

  /** Two unset names keep their relative order in the list. */
  lemma MissingVarsOrder(env: Env, vars: seq<string>)
    ensures forall a, b :: 0 <= a < b < |vars| && Unset(env, vars[a]) && Unset(env, vars[b]) ==>
      InOrder(MissingVars(env, vars), vars[a], vars[b])
  {
    forall a, b | 0 <= a < b < |vars| && Unset(env, vars[a]) && Unset(env, vars[b])
      ensures InOrder(MissingVars(env, vars), vars[a], vars[b])
    {
      MissingVarsPairOrder(env, vars, a, b);
    }
  }

  lemma MissingVarsPairOrder(env: Env, vars: seq<string>, a: nat, b: nat)
    requires a < b < |vars| && Unset(env, vars[a]) && Unset(env, vars[b])
    ensures InOrder(MissingVars(env, vars), vars[a], vars[b])
  {
    var x, y := vars[..b], vars[b..];
    assert vars == x + y;
    MissingVarsAppend(env, x, y);
    var mx, my := MissingVars(env, x), MissingVars(env, y);
    assert x[a] == vars[a];
    var i :| 0 <= i < |mx| && mx[i] == vars[a];
    assert y == [vars[b]] + y[1..];
    MissingVarsHead(env, vars[b], y[1..]);
    assert my[0] == vars[b];
    var m := MissingVars(env, vars);
    assert m == mx + my;
    assert m[i] == vars[a] && m[|mx|] == vars[b];
  }

  /** The list for two runs of names is the two lists one after the other. */
  lemma {:induction false} MissingVarsAppend(env: Env, x: seq<string>, y: seq<string>)
    ensures MissingVars(env, x + y) == MissingVars(env, x) + MissingVars(env, y)
  {
    if x == [] {
      assert x + y == y;
    } else {
      var h := if Unset(env, x[0]) then [x[0]] else [];
      assert x + y == [x[0]] + (x[1..] + y);
      MissingVarsHead(env, x[0], x[1..] + y);
      MissingVarsAppend(env, x[1..], y);
      assert x == [x[0]] + x[1..];
      MissingVarsHead(env, x[0], x[1..]);
      AppendAssoc(h, MissingVars(env, x[1..]), MissingVars(env, y));
    }
  }

  predicate NoDuplicates(s: seq<string>) {
    forall i, j :: 0 <= i < j < |s| ==> s[i] != s[j]
  }

  /** Each name is listed at most once when the names are themselves distinct. */
  lemma {:induction false} MissingVarsNoDuplicates(env: Env, vars: seq<string>)
    requires NoDuplicates(vars)
    ensures NoDuplicates(MissingVars(env, vars))
  {
    if vars != [] {
      var rest := vars[1..];
      assert NoDuplicates(rest) by {
        forall i, j | 0 <= i < j < |rest| ensures rest[i] != rest[j] {
          assert rest[i] == vars[i + 1] && rest[j] == vars[j + 1];
        }
      }
      MissingVarsNoDuplicates(env, rest);
      var mr := MissingVars(env, rest);
      if Unset(env, vars[0]) {
        assert vars[0] !in rest by {
          forall k | 0 <= k < |rest| ensures rest[k] != vars[0] {
            assert rest[k] == vars[k + 1];
          }
        }
        var m := [vars[0]] + mr;
        assert MissingVars(env, vars) == m;
        forall i, j | 0 <= i < j < |m| ensures m[i] != m[j] {
          if i == 0 {
            assert m[j] == mr[j - 1] && mr[j - 1] in mr;
          } else {
            assert m[i] == mr[i - 1] && m[j] == mr[j - 1];
          }
        }
      } else {
        assert MissingVars(env, vars) == mr;
      }
    }
  }

  /** The production message names every unset required variable exactly
      once, in the order of `RequiredVars`. */
  lemma ValidateProductionListing(env: Env)
    ensures var m := MissingVars(env, RequiredVars);
      NoDuplicates(m) && (forall v :: v in m <==> v in RequiredVars && Unset(env, v)) &&
      forall a, b :: 0 <= a < b < |RequiredVars| && Unset(env, RequiredVars[a]) && Unset(env, RequiredVars[b]) ==>
        InOrder(m, RequiredVars[a], RequiredVars[b])
  {
    assert NoDuplicates(RequiredVars);
    MissingVarsNoDuplicates(env, RequiredVars);
    MissingVarsOrder(env, RequiredVars);
  }

  /** The message lists the missing names in the order of `RequiredVars`. */
  lemma ValidateProductionExample()
    ensures var env := map["JWT_SECRET" := "s", "POSTGRES_PASSWORD" := "p"];
      MissingVars(env, RequiredVars) == ["API_KEY", "REDIS_PASSWORD"]
  {
    var env := map["JWT_SECRET" := "s", "POSTGRES_PASSWORD" := "p"];
    var v3 := ["REDIS_PASSWORD"];
    var v2 := ["POSTGRES_PASSWORD"] + v3;
    var v1 := ["API_KEY"] + v2;
    assert RequiredVars == ["JWT_SECRET"] + v1;
    assert Unset(env, "REDIS_PASSWORD");
    MissingVarsHead(env, "REDIS_PASSWORD", []);
    assert MissingVars(env, v3) == ["REDIS_PASSWORD"];
    assert !Unset(env, "POSTGRES_PASSWORD");
    MissingVarsHead(env, "POSTGRES_PASSWORD", v3);
    assert MissingVars(env, v2) == ["REDIS_PASSWORD"];
    assert Unset(env, "API_KEY");
    MissingVarsHead(env, "API_KEY", v2);
    assert MissingVars(env, v1) == ["API_KEY", "REDIS_PASSWORD"];
    assert !Unset(env, "JWT_SECRET");
    MissingVarsHead(env, "JWT_SECRET", v1);
  }
}
