/** The top-level configuration of shared-config/loaders/go/config.go, reduced
    to the fields `overrideWithEnvVars` touches and the helpers that read it.
    The environment is an explicit map. */
module Settings {
  import opened Base
  import opened Text
  import opened Env
  import opened CacheSettings
  import opened DatabaseSettings

  datatype EnvironmentConfig = EnvironmentConfig(current: string, available: seq<string>)

  /** The JWT settings the override step writes (the rest of the security block is not read here). */
  datatype JwtConfig = JwtConfig(secret: string, accessExpiry: int, refreshExpiry: int)

  datatype LoggingConfig = LoggingConfig(level: string, format: string, output: string)

  datatype Config = Config(
    environment: EnvironmentConfig,
    postgres: PostgresConfig,
    mongo: MongoConfig,
    redis: RedisConfig,
    kafka: KafkaConfig,
    jwt: JwtConfig,
    logging: LoggingConfig)

  /** Every variable `overrideWithEnvVars` reads. */
  const OverrideKeys: set<string> := {
    "ERP_ENVIRONMENT",
    "POSTGRES_HOST", "POSTGRES_PORT", "POSTGRES_USER", "POSTGRES_PASSWORD", "POSTGRES_SSL_MODE",
    "MONGODB_HOST", "MONGODB_PORT", "MONGODB_USER", "MONGODB_PASSWORD",
    "REDIS_HOST", "REDIS_PORT", "REDIS_PASSWORD",
    "KAFKA_BROKERS",
    "JWT_SECRET", "JWT_ACCESS_EXPIRY", "JWT_REFRESH_EXPIRY",
    "LOG_LEVEL", "LOG_FORMAT", "LOG_OUTPUT"
  }

  /** The variables that set a text field through `getEnv`. */
  datatype TextVariable =
    | ErpEnvironment
    | PostgresHost | PostgresUser | PostgresPassword | PostgresSslMode
    | MongoHost | MongoUser | MongoPassword
    | RedisHost | RedisPassword
    | JwtSecret
    | LogLevel | LogFormat | LogOutput

  /** The variables that set a number field through `getEnvAsInt`. */
  datatype NumberVariable = PostgresPort | MongoPort | RedisPort | JwtAccessExpiry | JwtRefreshExpiry

  function TextKey(v: TextVariable): (key: string)
    ensures key in OverrideKeys
  {
    match v
    case ErpEnvironment => "ERP_ENVIRONMENT"
    case PostgresHost => "POSTGRES_HOST"
    case PostgresUser => "POSTGRES_USER"
    case PostgresPassword => "POSTGRES_PASSWORD"
    case PostgresSslMode => "POSTGRES_SSL_MODE"
    case MongoHost => "MONGODB_HOST"
    case MongoUser => "MONGODB_USER"
    case MongoPassword => "MONGODB_PASSWORD"
    case RedisHost => "REDIS_HOST"
    case RedisPassword => "REDIS_PASSWORD"
    case JwtSecret => "JWT_SECRET"
    case LogLevel => "LOG_LEVEL"
    case LogFormat => "LOG_FORMAT"
    case LogOutput => "LOG_OUTPUT"
  }

  function NumberKey(v: NumberVariable): (key: string)
    ensures key in OverrideKeys
  {
    match v
    case PostgresPort => "POSTGRES_PORT"
    case MongoPort => "MONGODB_PORT"
    case RedisPort => "REDIS_PORT"
    case JwtAccessExpiry => "JWT_ACCESS_EXPIRY"
    case JwtRefreshExpiry => "JWT_REFRESH_EXPIRY"
  }

  /** The text field a variable controls (config.go:168-198). */
  function TextSetting(c: Config, v: TextVariable): string {
    match v
    case ErpEnvironment => c.environment.current
    case PostgresHost => c.postgres.host
    case PostgresUser => c.postgres.username
    case PostgresPassword => c.postgres.password
    case PostgresSslMode => c.postgres.sslMode
    case MongoHost => c.mongo.host
    case MongoUser => c.mongo.username
    case MongoPassword => c.mongo.password
    case RedisHost => c.redis.host
    case RedisPassword => c.redis.password
    case JwtSecret => c.jwt.secret
    case LogLevel => c.logging.level
    case LogFormat => c.logging.format
    case LogOutput => c.logging.output
  }

  /** The number field a variable controls (config.go:168-198). */
  function NumberSetting(c: Config, v: NumberVariable): int {
    match v
    case PostgresPort => c.postgres.port
    case MongoPort => c.mongo.port
    case RedisPort => c.redis.port
    case JwtAccessExpiry => c.jwt.accessExpiry
    case JwtRefreshExpiry => c.jwt.refreshExpiry
  }

  /** `KAFKA_BROKERS` replaces the broker list with its comma split, but only when set and non-empty. */
  function OverrideBrokers(env: Environment, brokers: seq<string>): (r: seq<string>)
    ensures GetEnv(env, "KAFKA_BROKERS", "") != "" ==> r == Split(env["KAFKA_BROKERS"], ',')
    ensures GetEnv(env, "KAFKA_BROKERS", "") == "" ==> r == brokers
  {
    var listed := GetEnv(env, "KAFKA_BROKERS", "");
    if listed != "" then Split(listed, ',') else brokers
  }

  /** `overrideWithEnvVars`: each field takes its variable's value when that
      is set, non-empty and (for numbers) parses; otherwise it keeps its value. */
  function OverrideWithEnvVars(c: Config, env: Environment): (r: Config)
    ensures r.environment.available == c.environment.available
    ensures r.postgres.databases == c.postgres.databases && r.postgres.pool == c.postgres.pool
    ensures r.postgres.maxConnections == c.postgres.maxConnections
    ensures r.postgres.connectionTimeout == c.postgres.connectionTimeout
    ensures r.mongo.databases == c.mongo.databases && r.mongo.options == c.mongo.options
    ensures r.mongo.authSource == c.mongo.authSource
    ensures r.redis.databases == c.redis.databases && r.redis.pool == c.redis.pool
    ensures r.kafka.topics == c.kafka.topics && r.kafka.consumerGroups == c.kafka.consumerGroups
  {
    c.(
      environment := c.environment.(current := GetEnv(env, "ERP_ENVIRONMENT", c.environment.current)),
      postgres := c.postgres.(
        host := GetEnv(env, "POSTGRES_HOST", c.postgres.host),
        port := GetEnvAsInt(env, "POSTGRES_PORT", c.postgres.port),
        username := GetEnv(env, "POSTGRES_USER", c.postgres.username),
        password := GetEnv(env, "POSTGRES_PASSWORD", c.postgres.password),
        sslMode := GetEnv(env, "POSTGRES_SSL_MODE", c.postgres.sslMode)),
      mongo := c.mongo.(
        host := GetEnv(env, "MONGODB_HOST", c.mongo.host),
        port := GetEnvAsInt(env, "MONGODB_PORT", c.mongo.port),
        username := GetEnv(env, "MONGODB_USER", c.mongo.username),
        password := GetEnv(env, "MONGODB_PASSWORD", c.mongo.password)),
      redis := c.redis.(
        host := GetEnv(env, "REDIS_HOST", c.redis.host),
        port := GetEnvAsInt(env, "REDIS_PORT", c.redis.port),
        password := GetEnv(env, "REDIS_PASSWORD", c.redis.password)),
      kafka := c.kafka.(brokers := OverrideBrokers(env, c.kafka.brokers)),
      jwt := c.jwt.(
        secret := GetEnv(env, "JWT_SECRET", c.jwt.secret),
        accessExpiry := GetEnvAsInt(env, "JWT_ACCESS_EXPIRY", c.jwt.accessExpiry),
        refreshExpiry := GetEnvAsInt(env, "JWT_REFRESH_EXPIRY", c.jwt.refreshExpiry)),
      logging := LoggingConfig(
        GetEnv(env, "LOG_LEVEL", c.logging.level),
        GetEnv(env, "LOG_FORMAT", c.logging.format),
        GetEnv(env, "LOG_OUTPUT", c.logging.output)))
  }

  /** A text variable decides its own field: `getEnv(key, current)`. */
  lemma TextOverrideAt(c: Config, env: Environment, v: TextVariable)
    ensures TextSetting(OverrideWithEnvVars(c, env), v) == GetEnv(env, TextKey(v), TextSetting(c, v))
  {
  }

  /** A number variable decides its own field: `getEnvAsInt(key, current)`. */
  lemma NumberOverrideAt(c: Config, env: Environment, v: NumberVariable)
    ensures NumberSetting(OverrideWithEnvVars(c, env), v) == GetEnvAsInt(env, NumberKey(v), NumberSetting(c, v))
  {
  }

  /** Every override variable, one by one: a text field takes its variable's
      value when that is set and non-empty, a number field takes the parsed
      value when the variable is set, non-empty and parses, the broker list
      takes the comma split of a non-empty `KAFKA_BROKERS`; in every other
      case the field keeps what the configuration held. */
  lemma OverrideSetsEachVariable(c: Config, env: Environment)
    ensures forall v :: Lookup(env, TextKey(v)).Some? ==>
      TextSetting(OverrideWithEnvVars(c, env), v) == env[TextKey(v)]
    ensures forall v :: Lookup(env, TextKey(v)).None? ==>
      TextSetting(OverrideWithEnvVars(c, env), v) == TextSetting(c, v)
    ensures forall v :: Lookup(env, NumberKey(v)).Some? && Atoi(env[NumberKey(v)]).Some? ==>
      NumberSetting(OverrideWithEnvVars(c, env), v) == Atoi(env[NumberKey(v)]).value
    ensures forall v :: (Lookup(env, NumberKey(v)).None? || Atoi(env[NumberKey(v)]).None?) ==>
      NumberSetting(OverrideWithEnvVars(c, env), v) == NumberSetting(c, v)
    ensures Lookup(env, "KAFKA_BROKERS").Some? ==>
      OverrideWithEnvVars(c, env).kafka.brokers == Split(env["KAFKA_BROKERS"], ',')
    ensures Lookup(env, "KAFKA_BROKERS").None? ==> OverrideWithEnvVars(c, env).kafka.brokers == c.kafka.brokers
  {
    forall v: TextVariable
      ensures TextSetting(OverrideWithEnvVars(c, env), v) == GetEnv(env, TextKey(v), TextSetting(c, v))
    {
      TextOverrideAt(c, env, v);
    }
    forall v: NumberVariable
      ensures NumberSetting(OverrideWithEnvVars(c, env), v) == GetEnvAsInt(env, NumberKey(v), NumberSetting(c, v))
    {
      NumberOverrideAt(c, env, v);
    }
  }

  /** An environment in which none of the override variables is set to
      something non-empty leaves the configuration exactly as loaded. */
  lemma UnsetVariablesChangeNothing(c: Config, env: Environment)
    requires forall k :: k in OverrideKeys ==> Lookup(env, k).None?
    ensures OverrideWithEnvVars(c, env) == c
  {
    assert Lookup(env, "KAFKA_BROKERS").None?;
  }

  /** A variable that is unset or empty leaves its own field alone whatever
      the other variables hold. */
  lemma UnsetVariableKeepsField(c: Config, env: Environment)
    ensures forall v :: Lookup(env, TextKey(v)).None? ==>
      TextSetting(OverrideWithEnvVars(c, env), v) == TextSetting(c, v)
    ensures forall v :: Lookup(env, NumberKey(v)).None? ==>
      NumberSetting(OverrideWithEnvVars(c, env), v) == NumberSetting(c, v)
    ensures Lookup(env, "KAFKA_BROKERS").None? ==> OverrideWithEnvVars(c, env).kafka.brokers == c.kafka.brokers
    ensures Lookup(env, "POSTGRES_HOST").None? ==> OverrideWithEnvVars(c, env).postgres.host == c.postgres.host
    ensures Lookup(env, "REDIS_PORT").None? ==> OverrideWithEnvVars(c, env).redis.port == c.redis.port
  {
    OverrideSetsEachVariable(c, env);
    assert TextKey(PostgresHost) == "POSTGRES_HOST" && NumberKey(RedisPort) == "REDIS_PORT";
    assert TextSetting(OverrideWithEnvVars(c, env), PostgresHost) == OverrideWithEnvVars(c, env).postgres.host;
    assert NumberSetting(OverrideWithEnvVars(c, env), RedisPort) == OverrideWithEnvVars(c, env).redis.port;
  }

  /** The comma split of `KAFKA_BROKERS` is never empty, so a set variable
      always yields at least one (possibly empty) broker entry. */
  lemma BrokersFromEnvNonEmpty(c: Config, env: Environment)
    requires Lookup(env, "KAFKA_BROKERS").Some?
    ensures |OverrideWithEnvVars(c, env).kafka.brokers| >= 1
    ensures Join(OverrideWithEnvVars(c, env).kafka.brokers, ',') == env["KAFKA_BROKERS"]
  {
    JoinSplit(env["KAFKA_BROKERS"], ',');
  }

  /** Applying the overrides a second time changes nothing. */
  lemma OverrideIdempotent(c: Config, env: Environment)
    ensures OverrideWithEnvVars(OverrideWithEnvVars(c, env), env) == OverrideWithEnvVars(c, env)
  {
  }

  /** `IsProduction`. */
  function IsProduction(c: Config): (production: bool)
    ensures production ==> c.environment.current != "development"
  {
    c.environment.current == "production"
  }

  /** `IsDevelopment`. */
  function IsDevelopment(c: Config): (development: bool)
    ensures development ==> !IsProduction(c)
  {
    c.environment.current == "development"
  }

  /** The two environment tests never hold together, and an `ERP_ENVIRONMENT`
      set to something non-empty decides them both. */
  lemma EnvironmentTestsExclusive(c: Config, env: Environment)
    ensures !(IsProduction(c) && IsDevelopment(c))
    ensures Lookup(env, "ERP_ENVIRONMENT") == Some("production") ==>
      IsProduction(OverrideWithEnvVars(c, env)) && !IsDevelopment(OverrideWithEnvVars(c, env))
    ensures Lookup(env, "ERP_ENVIRONMENT").Some? && Lookup(env, "ERP_ENVIRONMENT") != Some("production") ==>
      !IsProduction(OverrideWithEnvVars(c, env))
    ensures Lookup(env, "ERP_ENVIRONMENT") == Some("development") ==>
      IsDevelopment(OverrideWithEnvVars(c, env)) && !IsProduction(OverrideWithEnvVars(c, env))
    ensures Lookup(env, "ERP_ENVIRONMENT").Some? && Lookup(env, "ERP_ENVIRONMENT") != Some("development") ==>
      !IsDevelopment(OverrideWithEnvVars(c, env))
  {
  }

  /** The tests are exact comparisons: an environment named neither
      "production" nor "development" (the empty one included) is neither,
      and without `ERP_ENVIRONMENT` both answers are those of the file. */
  lemma EnvironmentTestsAreExact(c: Config, env: Environment)
    ensures c.environment.current == "production" ==> IsProduction(c)
    ensures c.environment.current == "development" ==> IsDevelopment(c)
    ensures c.environment.current !in {"production", "development"} ==> !IsProduction(c) && !IsDevelopment(c)
    ensures Lookup(env, "ERP_ENVIRONMENT").None? ==>
      IsProduction(OverrideWithEnvVars(c, env)) == IsProduction(c) &&
      IsDevelopment(OverrideWithEnvVars(c, env)) == IsDevelopment(c)
  {
  }

  /** `GetServiceName`: `SERVICE_NAME`, or "erp-service". */
  function ServiceName(env: Environment): (name: string)
    ensures Lookup(env, "SERVICE_NAME").Some? ==> name == env["SERVICE_NAME"]
    ensures Lookup(env, "SERVICE_NAME").None? ==> name == "erp-service"
    ensures name != ""
  {
    GetEnv(env, "SERVICE_NAME", "erp-service")
  }

  /** `GetServiceVersion`: `SERVICE_VERSION`, or "1.0.0". */
  function ServiceVersion(env: Environment): (version: string)
    ensures Lookup(env, "SERVICE_VERSION").Some? ==> version == env["SERVICE_VERSION"]
    ensures Lookup(env, "SERVICE_VERSION").None? ==> version == "1.0.0"
    ensures version != ""
  {
    GetEnv(env, "SERVICE_VERSION", "1.0.0")
  }
}
