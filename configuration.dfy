/**
 * The deployment environment selector and the database connection options
 * derived from the settings (src/configuration.rs).
 */
module Configuration {
  import opened Wrappers

  type u16 = x: int | 0 <= x < 0x1_0000

  datatype Environment = Local | Production

  predicate IsAsciiUpper(c: char) {
    'A' <= c <= 'Z'
  }

  predicate IsLowercase(s: string) {
    forall i :: 0 <= i < |s| ==> !IsAsciiUpper(s[i])
  }

  function LowerChar(c: char): char {
    if IsAsciiUpper(c) then (c as int + 32) as char else c
  }

  /** `str::to_lowercase`, restricted to ASCII letters. */
  function ToLowercase(s: string): (r: string)
    ensures |r| == |s|
    ensures forall i :: 0 <= i < |s| ==> r[i] == LowerChar(s[i])
    ensures IsLowercase(r)
  {
    seq(|s|, i requires 0 <= i < |s| => LowerChar(s[i]))
  }

  /** The name of an environment, as used for the per-environment settings file. */
  function AsStr(e: Environment): (s: string)
    ensures IsLowercase(s) && s != []
  {
    match e
    case Local => "local"
    case Production => "production"
  }

  const UnsupportedEnvironment := " is not a supported environment. Use either local or production."

  /** `TryFrom<String> for Environment`: case-insensitive, exactly two names accepted. */
  function TryFrom(s: string): (r: Result<Environment, string>)
    ensures r.Ok? <==> ToLowercase(s) == "local" || ToLowercase(s) == "production"
    ensures r.Ok? ==> AsStr(r.value) == ToLowercase(s)
    ensures r.Err? ==> r.error == ToLowercase(s) + UnsupportedEnvironment
  {
    var lowered := ToLowercase(s);
    if lowered == "local" then Ok(Local)
    else if lowered == "production" then Ok(Production)
    else Err(lowered + UnsupportedEnvironment)
  }

  /** Lowering changes nothing in a string that has no uppercase letter. */
  lemma LowercaseIsIdentityOnLowercase(s: string)
    requires IsLowercase(s)
    ensures ToLowercase(s) == s
  {
  }

  /** Parsing the name of an environment gives that environment back. */
  lemma AsStrRoundTrip(e: Environment)
    ensures TryFrom(AsStr(e)) == Ok(e)
  {
    LowercaseIsIdentityOnLowercase(AsStr(e));
  }

  /** `TryFrom` accepts `s` as `e` exactly when `s` lowercases to the name of `e`. */
  lemma TryFromInvertsAsStr(s: string, e: Environment)
    ensures TryFrom(s) == Ok(e) <==> ToLowercase(s) == AsStr(e)
  {
    if ToLowercase(s) == AsStr(e) {
      match e
      case Local =>
      case Production =>
    }
  }

  /** Letter case does not matter: "PRODUCTION" selects Production. */
  lemma TryFromIgnoresCase()
    ensures TryFrom("PRODUCTION") == Ok(Production)
    ensures TryFrom("Local") == Ok(Local)
  {
    LowercaseOf("PRODUCTION", "production");
    LowercaseOf("Local", "local");
  }

  /** A lowercase form is determined letter by letter. */
  lemma LowercaseOf(s: string, t: string)
    requires |s| == |t| && forall i :: 0 <= i < |s| ==> LowerChar(s[i]) == t[i]
    ensures ToLowercase(s) == t
  {
  }

  const DefaultEnvironment := "local"

  /**
   * The value of `APP_ENVIRONMENT`. `None` stands for any error of `env::var`
   * (unset, or not valid Unicode), which means "local". An `Err` here is
   * where `get_configuration` panics through `expect`.
   */
  function EnvironmentFromVariable(variable: Option<string>): (r: Result<Environment, string>)
    ensures variable.None? ==> r == Ok(Local)
    ensures variable.Some? ==> r == TryFrom(variable.value)
  {
    AsStrRoundTrip(Local);
    TryFrom(variable.GetOr(DefaultEnvironment))
  }

  datatype PgSslMode = Prefer | Require

  datatype DatabaseSettings = DatabaseSettings(
    username: string, password: string, host: string, port: u16,
    databaseName: string, requireSsl: bool)

  /**
   * The connection options this code sets; `database` is None when the code
   * leaves the choice to the driver.
   */
  datatype ConnectOptions = ConnectOptions(
    host: string, username: string, password: string, port: u16,
    sslMode: PgSslMode, database: Option<string>)

  /** `DatabaseSettings::without_db`: SSL is demanded exactly when the settings require it. */
  function WithoutDb(settings: DatabaseSettings): (o: ConnectOptions)
    ensures o.sslMode == Require <==> settings.requireSsl
    ensures o.host == settings.host && o.username == settings.username
    ensures o.password == settings.password && o.port == settings.port
    ensures o.database.None?
  {
    var sslMode := if settings.requireSsl then Require else Prefer;
    ConnectOptions(settings.host, settings.username, settings.password, settings.port, sslMode, None)
  }

  /** `DatabaseSettings::with_db`: the options of `without_db`, now naming the database. */
  function WithDb(settings: DatabaseSettings): (o: ConnectOptions)
    ensures o.database == Some(settings.databaseName)
    ensures o.(database := None) == WithoutDb(settings)
  {
    WithoutDb(settings).(database := Some(settings.databaseName))
  }
}
