/**
 * The database-URL rewriting that `ConfigManager.get_flask_config` and
 * `configure_app` both do: the scheme fix, and an SSL parameter appended
 * with `?` or `&` when the URL does not mention `sslmode` yet.
 */
module DatabaseUrls {
  import opened Wrappers
  import Text

  const OldScheme := "postgres://"
  const NewScheme := "postgresql://"

  /** `url.replace("postgres://", "postgresql://", 1)`. */
  function SchemeFixed(url: string): string {
    Text.ReplaceFirst(url, OldScheme, NewScheme)
  }

  /** A `postgres://` URL gets the `postgresql://` scheme and keeps the rest. */
  lemma SchemeFixedRewrites(rest: string)
    ensures SchemeFixed(OldScheme + rest) == NewScheme + rest
  {
    var url := OldScheme + rest;
    assert Text.OccursAt(url, OldScheme, 0);
    assert Text.IndexOf(url, OldScheme, 0) == Some(0);
    assert url[|OldScheme|..] == rest;
  }

  /** A URL without `postgres://` in it is left as it is; in particular every `postgresql://` URL is. */
  lemma SchemeFixedKeeps(url: string)
    requires !Text.Contains(url, OldScheme)
    ensures SchemeFixed(url) == url
  {
  }

  /**
   * The SSL parameters appended: after `?` when the URL has no query, after
   * `&` when it has one without `sslmode`, and not at all otherwise.
   */
  function WithSsl(url: string, params: string): (r: string)
    ensures Text.StartsWith(r, url)
  {
    if '?' !in url then url + "?" + params
    else if !Text.Contains(url, "sslmode") then url + "&" + params
    else url
  }

  /** Parameters that begin by setting the SSL mode. */
  predicate SetsSslMode(params: string) {
    Text.StartsWith(params, "sslmode=")
  }

  /** After the rewrite the URL has a query and mentions `sslmode`. */
  lemma WithSslConfigures(url: string, params: string)
    requires SetsSslMode(params)
    ensures var r := WithSsl(url, params);
      '?' in r && Text.Contains(r, "sslmode")
  {
    var r := WithSsl(url, params);
    if '?' !in url || !Text.Contains(url, "sslmode") {
      var k := |r| - |params|;
      assert r[k..k + 7] == params[..7] == "sslmode";
      assert Text.OccursAt(r, "sslmode", k);
      assert r[|url|] in "?&";
      if '?' !in url {
        assert r[|url|] == '?';
      }
    }
  }

  /** Rewriting a rewritten URL changes nothing: the parameters are added at most once. */
  lemma WithSslStable(url: string, params: string)
    requires SetsSslMode(params)
    ensures WithSsl(WithSsl(url, params), params) == WithSsl(url, params)
  {
    WithSslConfigures(url, params);
  }

  /** A URL that already sets `sslmode` after its `?` is never touched, whatever it says. */
  lemma WithSslKeepsExplicit(url: string, params: string)
    requires '?' in url && Text.Contains(url, "sslmode")
    ensures WithSsl(url, params) == url
  {
  }
}

/**
 * `ConfigManager` (app/utils/config_manager.py): the environment read from
 * `FLASK_ENV`, the per-environment configuration tables, and the Flask
 * configuration built from them. The process environment is a map from
 * variable names to values.
 */
module ConfigManagement {
  import opened Wrappers
  import Text
  import DatabaseUrls

  datatype Environment = Development | Staging | Production

  /** The enum's value. */
  function EnvironmentName(e: Environment): string {
    match e
    case Development => "development"
    case Staging => "staging"
    case Production => "production"
  }

  /** `os.getenv(name)`. */
  function Getenv(vars: map<string, string>, name: string): Option<string> {
    if name in vars then Some(vars[name]) else None
  }

  /** `_detect_environment`: `FLASK_ENV` (default "development"), lowercased. */
  function DetectEnvironment(flaskEnv: Option<string>): Environment {
    var env := Text.Lower(if flaskEnv.Some? then flaskEnv.value else "development");
    if env == "production" then Production
    else if env == "staging" then Staging
    else Development
  }

  lemma LowerOfLower(s: string)
    ensures Text.Lower(s) == s <== forall i :: 0 <= i < |s| ==> Text.LowerChar(s[i]) == s[i]
  {
  }

  /**
   * Each environment's own name detects it, so does the name in any case,
   * and an unset variable means development; any other value is development too.
   */
  lemma DetectEnvironmentNames(e: Environment, s: string)
    ensures DetectEnvironment(Some(EnvironmentName(e))) == e
    ensures DetectEnvironment(Some(s)) == DetectEnvironment(Some(Text.Lower(s)))
    ensures DetectEnvironment(None) == Development
    ensures Text.Lower(s) != "production" && Text.Lower(s) != "staging" ==> DetectEnvironment(Some(s)) == Development
  {
    var n := EnvironmentName(e);
    LowerOfLower(n);
    forall i | 0 <= i < |s|
      ensures Text.Lower(Text.Lower(s))[i] == Text.Lower(s)[i]
    {
      Text.LowerCharIdempotent(s[i]);
    }
    LowerOfLower("development");
  }

  datatype CacheConfig = CacheConfig(
    redisUrl: Option<string>,
    defaultTimeout: int,
    maxTimeout: int,
    memoryBackupEnabled: bool,
    fileBackupEnabled: bool,
    backupMaxAgeHours: int,
    redisSocketTimeout: int,
    redisSocketConnectTimeout: int,
    redisRetryOnTimeout: bool,
    redisHealthCheckInterval: int)

  datatype ApiConfig = ApiConfig(
    coingeckoRequestsPerMinute: int,
    taapiRequestsPerMinute: int,
    alternativeMeRequestsPerMinute: int,
    defaultTimeout: real,
    parallelTimeout: real,
    criticalApiTimeout: real,
    circuitFailureThreshold: int,
    circuitTimeout: int,
    maxRetries: int,
    retryBackoffMultiplier: real)

  datatype DatabaseConfig = DatabaseConfig(
    connectionTimeout: int,
    poolSize: int,
    maxOverflow: int,
    poolTimeout: int,
    poolRecycle: int,
    poolPrePing: bool,
    sslMode: string,
    sslRootCert: string)

  datatype PerformanceConfig = PerformanceConfig(
    maxWorkers: int,
    aggressiveCaching: bool,
    cacheWarmingEnabled: bool,
    compressResponses: bool,
    enableEtag: bool,
    cleanupInterval: int,
    healthCheckInterval: int)

  datatype AppConfig = AppConfig(
    environment: Environment,
    debug: bool,
    secretKey: string,
    cache: CacheConfig,
    api: ApiConfig,
    database: DatabaseConfig,
    performance: PerformanceConfig,
    geminiApiKey: Option<string>,
    taapiSecret: Option<string>,
    coingeckoApiKey: Option<string>)

  function CacheConfigFor(e: Environment, redisUrl: Option<string>): CacheConfig {
    match e
    case Production => CacheConfig(redisUrl, 600, 7200, true, false, 48, 10, 5, true, 60)
    case Staging => CacheConfig(redisUrl, 300, 3600, true, true, 24, 5, 5, true, 30)
    case Development => CacheConfig(redisUrl, 120, 1800, true, true, 6, 5, 5, true, 30)
  }

  function ApiConfigFor(e: Environment): ApiConfig {
    match e
    case Production => ApiConfig(45, 1, 25, 15.0, 20.0, 30.0, 2, 120, 5, 1.5)
    case Staging => ApiConfig(30, 1, 20, 12.0, 18.0, 25.0, 3, 90, 3, 1.5)
    case Development => ApiConfig(60, 2, 40, 8.0, 12.0, 20.0, 5, 60, 3, 1.5)
  }

  function DatabaseConfigFor(e: Environment): DatabaseConfig {
    match e
    case Production => DatabaseConfig(45, 10, 20, 45, 300, true, "require", "DISABLE")
    case Staging => DatabaseConfig(30, 5, 10, 30, 300, true, "require", "DISABLE")
    case Development => DatabaseConfig(20, 3, 5, 20, 600, false, "require", "DISABLE")
  }

  function PerformanceConfigFor(e: Environment): PerformanceConfig {
    match e
    case Production => PerformanceConfig(6, true, true, true, true, 1800, 180)
    case Staging => PerformanceConfig(4, false, true, true, true, 3600, 300)
    case Development => PerformanceConfig(2, false, false, false, false, 7200, 600)
  }

  /**
   * The tables grow stricter towards production: the circuit opens after
   * fewer failures and stays open longer, the API rates are lower, the
   * default cache timeout stays within the maximum, and production alone
   * keeps no file backup.
   */
  lemma TablesStricterInProduction()
    ensures ApiConfigFor(Production).circuitFailureThreshold < ApiConfigFor(Staging).circuitFailureThreshold
                                                             < ApiConfigFor(Development).circuitFailureThreshold
    ensures ApiConfigFor(Production).circuitTimeout > ApiConfigFor(Staging).circuitTimeout
                                                    > ApiConfigFor(Development).circuitTimeout
    ensures forall e: Environment :: ApiConfigFor(e).coingeckoRequestsPerMinute <= ApiConfigFor(Development).coingeckoRequestsPerMinute
    ensures forall e: Environment, r :: CacheConfigFor(e, r).defaultTimeout <= CacheConfigFor(e, r).maxTimeout
    ensures forall e: Environment, r :: !CacheConfigFor(e, r).fileBackupEnabled <==> e == Production
  {
  }

  const DefaultSecret := "dev-secret-key-change-in-production"

  /** `_load_config`. */
  function LoadConfig(vars: map<string, string>): AppConfig {
    var e := DetectEnvironment(Getenv(vars, "FLASK_ENV"));
    var secret := Getenv(vars, "SECRET_KEY");
    AppConfig(e, e != Production, if secret.Some? then secret.value else DefaultSecret,
              CacheConfigFor(e, Getenv(vars, "REDIS_URL")), ApiConfigFor(e), DatabaseConfigFor(e),
              PerformanceConfigFor(e),
              Getenv(vars, "GEMINI_API_KEY"), Getenv(vars, "TAAPI_SECRET"), Getenv(vars, "COINGECKO_API_KEY"))
  }

  /** Debug is on exactly outside production, and the tables are the detected environment's. */
  lemma LoadConfigFollowsEnvironment(vars: map<string, string>)
    ensures var c := LoadConfig(vars);
      var e := DetectEnvironment(Getenv(vars, "FLASK_ENV"));
      c.environment == e && (c.debug <==> e != Production)
      && c.api == ApiConfigFor(e) && c.database == DatabaseConfigFor(e)
      && c.cache.redisUrl == Getenv(vars, "REDIS_URL")
  {
  }

  /** `SQLALCHEMY_ENGINE_OPTIONS`. */
  datatype Engine = Engine(
    poolPrePing: bool, poolRecycle: int, poolTimeout: int, maxOverflow: int, echo: bool,
    sslMode: string, connectTimeout: int, applicationName: string)

  datatype RedisOptions = RedisOptions(socketTimeout: int, socketConnectTimeout: int, retryOnTimeout: bool, healthCheckInterval: int)

  /** The dictionary `get_flask_config` returns. */
  datatype FlaskConfig = FlaskConfig(
    secretKey: string,
    debug: bool,
    trackModifications: bool,
    cacheDefaultTimeout: int,
    databaseUri: string,
    engineOptions: Option<Engine>,
    cacheType: string,
    cacheRedisUrl: Option<string>,
    cacheOptions: Option<RedisOptions>)

  const SqliteUri := "sqlite:///instance/local_dev.db"
  const ApplicationName := "crypto_dashboard_app"

  function SslParams(d: DatabaseConfig): string {
    "sslmode=" + d.sslMode + "&sslrootcert=" + d.sslRootCert
  }

  /** The database URI for a truthy `POSTGRES_URL`. */
  function PostgresUri(url: string, d: DatabaseConfig): string {
    DatabaseUrls.WithSsl(DatabaseUrls.SchemeFixed(url), SslParams(d))
  }

  /** `get_flask_config` for a loaded configuration and the current `POSTGRES_URL`. */
  function FlaskConfigOf(c: AppConfig, postgresUrl: Option<string>): FlaskConfig {
    var d := c.database;
    var redis := c.cache.redisUrl;
    var redisOn := TruthyStr(redis);
    FlaskConfig(
      c.secretKey, c.debug, false, c.cache.defaultTimeout,
      if TruthyStr(postgresUrl) then PostgresUri(postgresUrl.value, d) else SqliteUri,
      if TruthyStr(postgresUrl)
      then Some(Engine(d.poolPrePing, d.poolRecycle, d.poolTimeout, d.maxOverflow, c.debug, d.sslMode, d.connectionTimeout, ApplicationName))
      else None,
      if redisOn then "RedisCache" else "SimpleCache",
      if redisOn then redis else None,
      if redisOn
      then Some(RedisOptions(c.cache.redisSocketTimeout, c.cache.redisSocketConnectTimeout, c.cache.redisRetryOnTimeout, c.cache.redisHealthCheckInterval))
      else None)
  }

  /**
   * The Flask configuration: the cache is Redis exactly when the loaded
   * Redis URL is non-empty; without a `POSTGRES_URL` the database is the
   * local SQLite file and there are no engine options; with one, the URI
   * has the `postgresql://` scheme fixed and always carries `sslmode`, and
   * the engine echoes SQL exactly in debug.
   */
  lemma FlaskConfigMeaning(c: AppConfig, postgresUrl: Option<string>)
    ensures var f := FlaskConfigOf(c, postgresUrl);
      (f.cacheType == "RedisCache" <==> TruthyStr(c.cache.redisUrl))
      && (f.cacheRedisUrl.Some? <==> TruthyStr(c.cache.redisUrl))
      && (!TruthyStr(postgresUrl) ==> f.databaseUri == SqliteUri && f.engineOptions == None)
      && (TruthyStr(postgresUrl) ==>
            Text.Contains(f.databaseUri, "sslmode") && '?' in f.databaseUri
            && Text.StartsWith(f.databaseUri, DatabaseUrls.SchemeFixed(postgresUrl.value))
            && f.engineOptions.Some? && (f.engineOptions.value.echo <==> c.debug))
  {
    if TruthyStr(postgresUrl) {
      DatabaseUrls.WithSslConfigures(DatabaseUrls.SchemeFixed(postgresUrl.value), SslParams(c.database));
    }
  }

  /** The configuration's holder, loaded at construction and reloaded on request. */
  class ConfigManager {
    var config: Option<AppConfig>

    constructor (vars: map<string, string>)
      ensures config == Some(LoadConfig(vars))
    {
      config := Some(LoadConfig(vars));
    }

    /** The `config` property: the loaded configuration, loading it first if there is none. */
    method Config(vars: map<string, string>) returns (c: AppConfig)
      modifies this
      ensures old(config).Some? ==> c == old(config).value && config == old(config)
      ensures old(config).None? ==> c == LoadConfig(vars) && config == Some(c)
    {
      if config.None? {
        config := Some(LoadConfig(vars));
      }
      c := config.value;
    }

    method Reload(vars: map<string, string>)
      modifies this
      ensures config == Some(LoadConfig(vars))
    {
      config := Some(LoadConfig(vars));
    }

    /**
     * `get_flask_config`: the loaded configuration, with `POSTGRES_URL` read
     * now. The Redis URL is the one read at load time.
     */
    method GetFlaskConfig(vars: map<string, string>) returns (f: FlaskConfig)
      modifies this
      ensures config.Some? && f == FlaskConfigOf(config.value, Getenv(vars, "POSTGRES_URL"))
      ensures old(config).Some? ==> config == old(config)
    {
      var c := Config(vars);
      var postgresUrl := Getenv(vars, "POSTGRES_URL");
      var uri: string;
      var engine: Option<Engine> := None;
      if postgresUrl.Some? && postgresUrl.value != "" {
        var dbUrl := DatabaseUrls.SchemeFixed(postgresUrl.value);
        if '?' !in dbUrl {
          dbUrl := dbUrl + "?" + SslParams(c.database);
        } else if !Text.Contains(dbUrl, "sslmode") {
          dbUrl := dbUrl + "&" + SslParams(c.database);
        }
        uri := dbUrl;
        var d := c.database;
        engine := Some(Engine(d.poolPrePing, d.poolRecycle, d.poolTimeout, d.maxOverflow, c.debug, d.sslMode, d.connectionTimeout, ApplicationName));
      } else {
        uri := SqliteUri;
      }
      var cacheType := "SimpleCache";
      var redisUrl: Option<string> := None;
      var options: Option<RedisOptions> := None;
      if c.cache.redisUrl.Some? && c.cache.redisUrl.value != "" {
        cacheType := "RedisCache";
        redisUrl := c.cache.redisUrl;
        options := Some(RedisOptions(c.cache.redisSocketTimeout, c.cache.redisSocketConnectTimeout, c.cache.redisRetryOnTimeout, c.cache.redisHealthCheckInterval));
      }
      f := FlaskConfig(c.secretKey, c.debug, false, c.cache.defaultTimeout, uri, engine, cacheType, redisUrl, options);
    }
  }
}

/**
 * `configure_app` (app/config.py): the secret key, the database URI and
 * engine options, and the cache type written into the Flask app's
 * configuration, one entry at a time.
 */
module AppSetup {
  import opened Wrappers
  import Text
  import DatabaseUrls
  import ConfigManagement

  const DefaultSecret := "a_very_secret_key"
  const ApplicationName := "crypto_dashboard_app"

  /** `connect_args` and the other engine options. */
  datatype Engine = Engine(
    poolPrePing: bool, poolRecycle: int, poolTimeout: int, maxOverflow: int, echo: bool,
    connectTimeout: int, applicationName: string, sslMode: string)

  /** The entries `configure_app` writes; `None` for an entry not (yet) in `app.config`. */
  datatype Settings = Settings(
    secretKey: Option<string>,
    databaseUri: Option<string>,
    engineOptions: Option<Engine>,
    trackModifications: Option<bool>,
    cacheType: Option<string>,
    cacheRedisUrl: Option<string>)

  /** `os.getenv('POSTGRES_URL') or os.getenv('DATABASE_URL')`. */
  function DatabaseSource(vars: map<string, string>): Option<string> {
    var postgres := ConfigManagement.Getenv(vars, "POSTGRES_URL");
    if TruthyStr(postgres) then postgres else ConfigManagement.Getenv(vars, "DATABASE_URL")
  }

  /** A URL pointing at this machine. */
  predicate IsLocal(url: string) {
    Text.Contains(url, "localhost") || Text.Contains(url, "127.0.0.1")
  }

  /** SSL off for a local server, required for a remote one. */
  function SslModeFor(url: string): string {
    if IsLocal(url) then "disable" else "require"
  }

  /** The URI written for a truthy database variable. */
  function DatabaseUri(source: string): string {
    var url := DatabaseUrls.SchemeFixed(source);
    DatabaseUrls.WithSsl(url, SslParam(url))
  }

  /** The query parameter naming the SSL mode. */
  function SslParam(url: string): string {
    if IsLocal(url) then "sslmode=disable" else "sslmode=require"
  }

  function EngineFor(url: string): Engine {
    Engine(true, 300, 30, 10, false, if IsLocal(url) then 10 else 60, ApplicationName, SslModeFor(url))
  }

  /** `os.path.join(instance_path, 'local_dev.db')`. */
  function PathJoin(dir: string, name: string): string {
    if dir == [] || dir[|dir| - 1] == '/' then dir + name else dir + "/" + name
  }

  /** The database entries: a secured Postgres URI and engine options, or the SQLite file. */
  function WithDatabase(s: Settings, vars: map<string, string>, instancePath: string): Settings {
    var source := DatabaseSource(vars);
    if TruthyStr(source) then
      s.(databaseUri := Some(DatabaseUri(source.value)),
         engineOptions := Some(EngineFor(DatabaseUrls.SchemeFixed(source.value))))
    else s.(databaseUri := Some("sqlite:///" + PathJoin(instancePath, "local_dev.db")))
  }

  /** The cache entries: Redis with its URL, or the in-process cache. */
  function WithCache(s: Settings, vars: map<string, string>): Settings {
    var redis := ConfigManagement.Getenv(vars, "REDIS_URL");
    if TruthyStr(redis) then s.(cacheType := Some("RedisCache"), cacheRedisUrl := redis)
    else s.(cacheType := Some("SimpleCache"))
  }

  /** The configuration after `configure_app`, starting from `s`. */
  function Configured(s: Settings, vars: map<string, string>, instancePath: string): Settings {
    var secret := ConfigManagement.Getenv(vars, "SECRET_KEY");
    var keyed := s.(secretKey := Some(if secret.Some? then secret.value else DefaultSecret));
    WithCache(WithDatabase(keyed, vars, instancePath).(trackModifications := Some(false)), vars)
  }

  /**
   * The database settings: `POSTGRES_URL` is preferred to `DATABASE_URL`;
   * a hosted server gets `require` and a 60 s connect timeout, a local one
   * `disable` and 10 s, in the engine options and, unless the URL already
   * names an SSL mode, in the URI; the URI always ends up naming one.
   * Without either variable the database is SQLite under the instance path
   * and the engine options are left as they were.
   */
  lemma ConfiguredDatabase(s: Settings, vars: map<string, string>, instancePath: string)
    ensures var r := Configured(s, vars, instancePath);
      var source := DatabaseSource(vars);
      (TruthyStr(ConfigManagement.Getenv(vars, "POSTGRES_URL")) ==> source == ConfigManagement.Getenv(vars, "POSTGRES_URL"))
      && (TruthyStr(source) ==>
            var url := DatabaseUrls.SchemeFixed(source.value);
            r.databaseUri.Some? && Text.Contains(r.databaseUri.value, "sslmode")
            && r.engineOptions.Some?
            && (IsLocal(url) ==> r.engineOptions.value.sslMode == "disable" && r.engineOptions.value.connectTimeout == 10)
            && (!IsLocal(url) ==> r.engineOptions.value.sslMode == "require" && r.engineOptions.value.connectTimeout == 60))
      && (!TruthyStr(source) ==>
            r.databaseUri == Some("sqlite:///" + PathJoin(instancePath, "local_dev.db")) && r.engineOptions == s.engineOptions)
  {
    var source := DatabaseSource(vars);
    if TruthyStr(source) {
      var url := DatabaseUrls.SchemeFixed(source.value);
      assert SslParam(url)[..8] == "sslmode=";
      DatabaseUrls.WithSslConfigures(url, SslParam(url));
    }
  }

  /**
   * The URI keeps an SSL mode the URL already names, even when it is not
   * the one the engine options get: a local URL that asks for `require`
   * keeps asking for it, while `connect_args` says `disable`.
   */
  lemma ExplicitModeKept(s: Settings, vars: map<string, string>, instancePath: string)
    requires TruthyStr(DatabaseSource(vars))
    requires var url := DatabaseUrls.SchemeFixed(DatabaseSource(vars).value);
      '?' in url && Text.Contains(url, "sslmode")
    ensures var url := DatabaseUrls.SchemeFixed(DatabaseSource(vars).value);
      Configured(s, vars, instancePath).databaseUri == Some(url)
  {
  }

  /** The cache is Redis exactly when `REDIS_URL` is non-empty; otherwise the old Redis URL entry stays as it was. */
  lemma ConfiguredCache(s: Settings, vars: map<string, string>, instancePath: string)
    ensures var r := Configured(s, vars, instancePath);
      var redis := ConfigManagement.Getenv(vars, "REDIS_URL");
      (r.cacheType == Some("RedisCache") <==> TruthyStr(redis))
      && (TruthyStr(redis) ==> r.cacheRedisUrl == redis)
      && (!TruthyStr(redis) ==> r.cacheRedisUrl == s.cacheRedisUrl)
      && r.trackModifications == Some(false)
  {
  }

  /** A Flask application's configuration, as far as `configure_app` writes it. */
  class FlaskApp {
    var secretKey: Option<string>
    var databaseUri: Option<string>
    var engineOptions: Option<Engine>
    var trackModifications: Option<bool>
    var cacheType: Option<string>
    var cacheRedisUrl: Option<string>

    function View(): Settings
      reads this
    {
      Settings(secretKey, databaseUri, engineOptions, trackModifications, cacheType, cacheRedisUrl)
    }

    method ConfigureApp(vars: map<string, string>, instancePath: string)
      modifies this
      ensures View() == Configured(old(View()), vars, instancePath)
    {
      var secret := ConfigManagement.Getenv(vars, "SECRET_KEY");
      secretKey := Some(if secret.Some? then secret.value else DefaultSecret);
      SetDatabase(vars, instancePath);
      trackModifications := Some(false);
      SetCache(vars);
    }

    method SetDatabase(vars: map<string, string>, instancePath: string)
      modifies this
      ensures View() == WithDatabase(old(View()), vars, instancePath)
    {
      var dbEnv := DatabaseSource(vars);
      if dbEnv.Some? && dbEnv.value != "" {
        var dbUrl := DatabaseUrls.SchemeFixed(dbEnv.value);
        var isLocal := Text.Contains(dbUrl, "localhost") || Text.Contains(dbUrl, "127.0.0.1");
        dbUrl := Secured(dbUrl, isLocal);
        databaseUri := Some(dbUrl);
        engineOptions := Some(Engine(true, 300, 30, 10, false, if isLocal then 10 else 60, ApplicationName,
                                     if isLocal then "disable" else "require"));
      } else {
        databaseUri := Some("sqlite:///" + PathJoin(instancePath, "local_dev.db"));
      }
    }

    method SetCache(vars: map<string, string>)
      modifies this
      ensures View() == WithCache(old(View()), vars)
    {
      var redis := ConfigManagement.Getenv(vars, "REDIS_URL");
      if redis.Some? && redis.value != "" {
        cacheType := Some("RedisCache");
        cacheRedisUrl := redis;
      } else {
        cacheType := Some("SimpleCache");
      }
    }
  }

  /** The SSL branch of `configure_app`: `disable` for a local URL, `require` otherwise, unless one is named. */
  method Secured(dbUrl: string, isLocal: bool) returns (r: string)
    requires isLocal == IsLocal(dbUrl)
    ensures r == DatabaseUrls.WithSsl(dbUrl, SslParam(dbUrl))
  {
    r := dbUrl;
    if isLocal {
      if '?' !in r {
        r := r + "?" + "sslmode=disable";
      } else if !Text.Contains(r, "sslmode") {
        r := r + "&" + "sslmode=disable";
      }
    } else {
      if '?' !in r {
        r := r + "?" + "sslmode=require";
      } else if !Text.Contains(r, "sslmode") {
        r := r + "&" + "sslmode=require";
      }
    }
  }
}
