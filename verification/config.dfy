/**
 * The configuration table, the configuration service (`get`, `getRequired`,
 * `isDebugMode`) and the start-up check of the environment.
 * The process environment is a map from variable name to value.
 */
module Config {

  import opened Common
  import opened Strings

  type Env = map<string, string>

  datatype ConfigKey =
    | LogFormat | WhitelistedHosts | ServiceId | RedisUrl | DBUri | IsDebugMode
    | JwtSecret | JwtRefreshSecret | NodeEnv | PaystackApiKey | MailgunApiKey
    | MailgunDomain | MailFrom | AppUrl

  /** One row of the table: the environment variable and whether it is required. */
  datatype ConfigEntry = ConfigEntry(env: string, required: bool)

  /** The keys of the table, in declaration order. */
  const ConfigKeys: seq<ConfigKey> := [
    LogFormat, WhitelistedHosts, ServiceId, RedisUrl, DBUri, IsDebugMode,
    JwtSecret, JwtRefreshSecret, NodeEnv, PaystackApiKey, MailgunApiKey,
    MailgunDomain, MailFrom, AppUrl]

  function Mapping(key: ConfigKey): ConfigEntry
  {
    match key
    case LogFormat => ConfigEntry("LOG_FORMAT", false)
    case WhitelistedHosts => ConfigEntry("WHITELISTED_HOSTS", true)
    case ServiceId => ConfigEntry("SERVICE_ID", true)
    case RedisUrl => ConfigEntry("REDIS_URL", false)
    case DBUri => ConfigEntry("DB_URI", true)
    case IsDebugMode => ConfigEntry("DEBUG", false)
    case JwtSecret => ConfigEntry("JWT_SECRET", true)
    case JwtRefreshSecret => ConfigEntry("REFRESH_JWT_SECRET", true)
    case NodeEnv => ConfigEntry("NODE_ENV", true)
    case PaystackApiKey => ConfigEntry("PAYSTACK_API_KEY", true)
    case MailgunApiKey => ConfigEntry("MAILGUN_API_KEY", true)
    case MailgunDomain => ConfigEntry("MAILGUN_DOMAIN", true)
    case MailFrom => ConfigEntry("MAIL_FROM", true)
    case AppUrl => ConfigEntry("APP_URL", true)
  }

  /** The key's own name, as it appears in error messages. */
  function KeyName(key: ConfigKey): string
  {
    match key
    case LogFormat => "logFormat"
    case WhitelistedHosts => "whitelistedHosts"
    case ServiceId => "serviceId"
    case RedisUrl => "redisUrl"
    case DBUri => "DBUri"
    case IsDebugMode => "isDebugMode"
    case JwtSecret => "jwtSecret"
    case JwtRefreshSecret => "jwtRefreshSecret"
    case NodeEnv => "nodeEnv"
    case PaystackApiKey => "paystackApiKey"
    case MailgunApiKey => "mailgunApiKey"
    case MailgunDomain => "mailgunDomain"
    case MailFrom => "mailFrom"
    case AppUrl => "appUrl"
  }

  /** A variable counts as set only when it holds a non-empty string. */
  predicate IsSet(env: Env, name: string)
  {
    name in env && env[name] != ""
  }

  /** `process.env[...] || defaultValue || null`. */
  function Get(env: Env, key: ConfigKey, defaultValue: Option<string>): (r: Option<string>)
    ensures IsSet(env, Mapping(key).env) ==> r == Some(env[Mapping(key).env])
    ensures !IsSet(env, Mapping(key).env) && defaultValue.Some? && defaultValue.value != "" ==> r == defaultValue
    ensures !IsSet(env, Mapping(key).env) && (defaultValue.None? || defaultValue.value == "") ==> r == None
    ensures r.Some? ==> r.value != ""
  {
    var name := Mapping(key).env;
    if name in env && env[name] != "" then Some(env[name])
    else if defaultValue.Some? && defaultValue.value != "" then defaultValue
    else None
  }

  datatype ConfigNotFoundError = ConfigNotFoundError(message: string, configName: string)

  /** A thrown ConfigNotFoundError is a plain Error, not an HttpError. */
  function AsAppError(e: ConfigNotFoundError): AppError
  {
    Plain(e.message)
  }

  function GetRequired(env: Env, key: ConfigKey): (r: Result<string, ConfigNotFoundError>)
    ensures r.Success? <==> IsSet(env, Mapping(key).env)
    ensures r.Success? ==> r.value == env[Mapping(key).env]
    ensures r.Failure? ==>
      && r.error.configName == KeyName(key)
      && r.error.message == "Missing required environment variable: " + KeyName(key)
  {
    var value := Get(env, key, None);
    if value.Some? then Success(value.value)
    else Failure(ConfigNotFoundError("Missing required environment variable: " + KeyName(key), KeyName(key)))
  }

  function IsDebugModeOn(env: Env): (r: bool)
    ensures r <==> "DEBUG" in env && Lower(env["DEBUG"]) == "true"
  {
    var v := Get(env, IsDebugMode, None);
    v.Some? && Lower(v.value) == "true"
  }

  /** The table rows whose variable is unset or empty, in table order: a row is missing exactly then. */
  function MissingEntries(keys: seq<ConfigKey>, env: Env): (r: seq<ConfigEntry>)
    ensures |r| <= |keys|
    ensures forall e :: e in r <==> exists k :: k in keys && Mapping(k) == e && !IsSet(env, e.env)
  {
    if keys == [] then []
    else
      var head := if IsSet(env, Mapping(keys[0]).env) then [] else [Mapping(keys[0])];
      var rest := MissingEntries(keys[1..], env);
      assert forall k :: k in keys <==> k == keys[0] || k in keys[1..];
      head + rest
  }

  function RequiredOnly(entries: seq<ConfigEntry>): (r: seq<ConfigEntry>)
    ensures |r| <= |entries|
  {
    if entries == [] then []
    else (if entries[0].required then [entries[0]] else []) + RequiredOnly(entries[1..])
  }

  function EnvNames(entries: seq<ConfigEntry>): (r: seq<string>)
    ensures |r| == |entries|
    ensures forall i :: 0 <= i < |entries| ==> r[i] == entries[i].env
  {
    if entries == [] then [] else [entries[0].env] + EnvNames(entries[1..])
  }

  lemma {:induction false} RequiredOnlyMembers(entries: seq<ConfigEntry>, e: ConfigEntry)
    ensures e in RequiredOnly(entries) <==> e in entries && e.required
  {
    if entries != [] {
      RequiredOnlyMembers(entries[1..], e);
    }
  }

  /** What the start-up check does: throw, warn, or stay silent. */
  datatype EnvCheck = Throws(message: string) | Warns(message: string) | Passes

  predicate SomeRequiredMissing(env: Env)
  {
    exists k :: k in ConfigKeys && Mapping(k).required && !IsSet(env, Mapping(k).env)
  }

  predicate SomeMissing(env: Env)
  {
    exists k :: k in ConfigKeys && !IsSet(env, Mapping(k).env)
  }

  function ValidateRequiredEnvVars(env: Env): (r: EnvCheck)
    ensures r.Throws? <==> SomeRequiredMissing(env)
    ensures r.Throws? ==>
      r.message == "Missing environment variables: " + Join(EnvNames(RequiredOnly(MissingEntries(ConfigKeys, env))), ", ")
    ensures r.Warns? <==> !SomeRequiredMissing(env) && SomeMissing(env)
    ensures r.Warns? ==>
      r.message == "missing environment variables: " + Join(EnvNames(MissingEntries(ConfigKeys, env)), ", ")
    ensures r.Passes? <==> !SomeMissing(env)
  {
    var missing := MissingEntries(ConfigKeys, env);
    var required := RequiredOnly(missing);
    MissingIff(env);
    if required != [] then
      Throws("Missing environment variables: " + Join(EnvNames(required), ", "))
    else if missing != [] then
      Warns("missing environment variables: " + Join(EnvNames(missing), ", "))
    else
      Passes
  }

  /** Some row of `keys` is missing exactly when the filtered list is non-empty. */
  lemma {:induction false} MissingNonEmpty(keys: seq<ConfigKey>, env: Env)
    ensures MissingEntries(keys, env) != [] <==> exists k :: k in keys && !IsSet(env, Mapping(k).env)
    ensures RequiredOnly(MissingEntries(keys, env)) != [] <==>
      exists k :: k in keys && Mapping(k).required && !IsSet(env, Mapping(k).env)
  {
    if keys != [] {
      MissingNonEmpty(keys[1..], env);
      assert forall k :: k in keys <==> k == keys[0] || k in keys[1..];
      var rest := MissingEntries(keys[1..], env);
      if !IsSet(env, Mapping(keys[0]).env) {
        assert MissingEntries(keys, env) == [Mapping(keys[0])] + rest;
        assert ([Mapping(keys[0])] + rest)[1..] == rest;
      } else {
        assert MissingEntries(keys, env) == rest;
      }
    }
  }

  /** The filtered lists are non-empty exactly when some (required) variable is missing. */
  lemma MissingIff(env: Env)
    ensures MissingEntries(ConfigKeys, env) != [] <==> SomeMissing(env)
    ensures RequiredOnly(MissingEntries(ConfigKeys, env)) != [] <==> SomeRequiredMissing(env)
  {
    MissingNonEmpty(ConfigKeys, env);
  }
}
