/** The Auth0 settings the server derives from its environment at start-up, and the check
    that reports whether Auth0 login can be enabled. Console messages are not modelled;
    the check's outcome records which of them would be printed. */
module AuthConfig {
  import opened Common
  import opened Text

  const DefaultBaseUrl: string := "https://tings-production.up.railway.app"

  /** `BASE_URL`, unless unset, empty, or not starting with "http". */
  function BaseUrl(env: Env): (r: string)
    ensures StartsWith(r, "http")
    ensures IsSet(env, "BASE_URL") && StartsWith(env["BASE_URL"], "http") ==> r == env["BASE_URL"]
    ensures !(IsSet(env, "BASE_URL") && StartsWith(env["BASE_URL"], "http")) ==> r == DefaultBaseUrl
  {
    var candidate := EnvOr(env, "BASE_URL", DefaultBaseUrl);
    if StartsWith(candidate, "http") then candidate else DefaultBaseUrl
  }

  /** `AUTH0_CALLBACK_URL`, unless unset, empty, or not starting with "http"; otherwise the
      base URL followed by "/callback". */
  function CallbackUrl(env: Env): (r: string)
    ensures StartsWith(r, "http")
    ensures IsSet(env, "AUTH0_CALLBACK_URL") && StartsWith(env["AUTH0_CALLBACK_URL"], "http") ==>
      r == env["AUTH0_CALLBACK_URL"]
    ensures !(IsSet(env, "AUTH0_CALLBACK_URL") && StartsWith(env["AUTH0_CALLBACK_URL"], "http")) ==>
      r == BaseUrl(env) + "/callback"
  {
    if !IsSet(env, "AUTH0_CALLBACK_URL") then BaseUrl(env) + "/callback"
    else if !StartsWith(env["AUTH0_CALLBACK_URL"], "http") then BaseUrl(env) + "/callback"
    else env["AUTH0_CALLBACK_URL"]
  }

  /** `auth0Config`: the three credentials are passed through as they are (possibly unset). */
  datatype Auth0Settings = Auth0Settings(
    domain: Option<string>, clientID: Option<string>, clientSecret: Option<string>,
    callbackURL: string, baseURL: string, sessionSecret: string)

  const DefaultSessionSecret: string := "your-session-secret-change-in-production"

  function Auth0SettingsOf(env: Env): (c: Auth0Settings)
    ensures c.domain == EnvValue(env, "AUTH0_DOMAIN")
    ensures c.clientID == EnvValue(env, "AUTH0_CLIENT_ID")
    ensures c.clientSecret == EnvValue(env, "AUTH0_CLIENT_SECRET")
    ensures IsSet(env, "SESSION_SECRET") ==> c.sessionSecret == env["SESSION_SECRET"]
    ensures !IsSet(env, "SESSION_SECRET") ==> c.sessionSecret == DefaultSessionSecret
    ensures c.sessionSecret != ""
    ensures c.baseURL == BaseUrl(env) && c.callbackURL == CallbackUrl(env)
    ensures StartsWith(c.baseURL, "http") && StartsWith(c.callbackURL, "http")
  {
    Auth0Settings(
      EnvValue(env, "AUTH0_DOMAIN"), EnvValue(env, "AUTH0_CLIENT_ID"),
      EnvValue(env, "AUTH0_CLIENT_SECRET"), CallbackUrl(env), BaseUrl(env),
      EnvOr(env, "SESSION_SECRET", DefaultSessionSecret))
  }

  const RequiredKeys: seq<string> := ["AUTH0_DOMAIN", "AUTH0_CLIENT_ID", "AUTH0_CLIENT_SECRET"]

  /** The required variables that are unset or empty, in the order they are listed. */
  function MissingKeys(env: Env): (missing: seq<string>)
    ensures forall j :: 0 <= j < |missing| ==> missing[j] in RequiredKeys && !IsSet(env, missing[j])
    ensures forall j :: 0 <= j < |RequiredKeys| && !IsSet(env, RequiredKeys[j]) ==> RequiredKeys[j] in missing
    ensures IsSubsequence(missing, RequiredKeys)
  {
    FilterIsSubsequence(RequiredKeys, (key: string) => !IsSet(env, key));
    Filter(RequiredKeys, (key: string) => !IsSet(env, key))
  }

  /** What `validateAuth0Config` decides: whether Auth0 is enabled, the variables it names
      as missing, and whether it warns that the domain does not look like an Auth0 domain. */
  datatype Validation = Validation(valid: bool, missing: seq<string>, domainWarning: bool)

  function ValidateAuth0Config(env: Env): (v: Validation)
    ensures v.valid <==> IsSet(env, "AUTH0_DOMAIN") && IsSet(env, "AUTH0_CLIENT_ID") && IsSet(env, "AUTH0_CLIENT_SECRET")
    ensures v.valid <==> |v.missing| == 0
    ensures v.domainWarning <==> v.valid && !Includes(env["AUTH0_DOMAIN"], ".auth0.com")
  {
    var missing := MissingKeys(env);
    if |missing| > 0 then Validation(false, missing, false)
    else
      assert RequiredKeys[0] == "AUTH0_DOMAIN" && RequiredKeys[1] == "AUTH0_CLIENT_ID" && RequiredKeys[2] == "AUTH0_CLIENT_SECRET";
      Validation(true, [], !Includes(Auth0SettingsOf(env).domain.value, ".auth0.com"))
  }

  /** A configuration that validates hands Passport three non-empty credentials. */
  lemma ValidSettingsHaveCredentials(env: Env)
    requires ValidateAuth0Config(env).valid
    ensures var c := Auth0SettingsOf(env);
      && c.domain.Some? && c.domain.value != ""
      && c.clientID.Some? && c.clientID.value != ""
      && c.clientSecret.Some? && c.clientSecret.value != ""
  {
  }

  /** With nothing configured, Auth0 is off, all three keys are reported missing, and the
      URLs and session secret fall back to their defaults. */
  lemma EmptyEnvironmentDefaults()
    ensures var c := Auth0SettingsOf(map[]);
      && c.domain.None? && c.clientID.None? && c.clientSecret.None?
      && c.baseURL == DefaultBaseUrl && c.callbackURL == DefaultBaseUrl + "/callback"
      && c.sessionSecret == DefaultSessionSecret
    ensures ValidateAuth0Config(map[]) == Validation(false, RequiredKeys, false)
  {
    assert StartsWith(DefaultBaseUrl, "http");
    FilterKeepsAll(RequiredKeys, (key: string) => !IsSet(map[], key));
  }

  /** A tenant domain such as "tings.eu.auth0.com" passes without a warning. */
  lemma RegionalDomainAccepted(env: Env)
    requires IsSet(env, "AUTH0_CLIENT_ID") && IsSet(env, "AUTH0_CLIENT_SECRET")
    requires "AUTH0_DOMAIN" in env && env["AUTH0_DOMAIN"] == "tings.eu.auth0.com"
    ensures ValidateAuth0Config(env) == Validation(true, [], false)
  {
    var d := env["AUTH0_DOMAIN"];
    assert d[8..18] == ".auth0.com";
    IncludesAt(d, ".auth0.com", 8);
  }

  /** `auth0StrategyConfig`. */
  datatype StrategySettings = StrategySettings(
    domain: Option<string>, clientID: Option<string>, clientSecret: Option<string>,
    callbackURL: string, scope: string)

  function StrategySettingsOf(env: Env): (s: StrategySettings)
    ensures s.scope == "openid email profile"
    ensures var c := Auth0SettingsOf(env);
      s.domain == c.domain && s.clientID == c.clientID && s.clientSecret == c.clientSecret
      && s.callbackURL == c.callbackURL
  {
    var c := Auth0SettingsOf(env);
    StrategySettings(c.domain, c.clientID, c.clientSecret, c.callbackURL, "openid email profile")
  }
}
