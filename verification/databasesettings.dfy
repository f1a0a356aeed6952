/** The relational and document database settings of
    shared-config/loaders/go/database.go: module-to-database switches with a
    fallback, the PostgreSQL URL and key/value DSN, the MongoDB URI, and pool
    getters where zero or less means "use the default". Durations are whole
    seconds. */
module DatabaseSettings {
  import opened Base
  import opened Text

  // ------------------------------------------------------------- PostgreSQL

  datatype PostgresDatabases = PostgresDatabases(auth: string, crm: string, hrm: string, finance: string,
                                                 inventory: string, projects: string, analytics: string)

  datatype PostgresPool = PostgresPool(maxOpenConnections: int, maxIdleConnections: int,
                                       connectionMaxLifetime: int, connectionMaxIdleTime: int)

  datatype PostgresConfig = PostgresConfig(host: string, port: int, username: string, password: string,
                                           sslMode: string, maxConnections: int, connectionTimeout: int,
                                           databases: PostgresDatabases, pool: PostgresPool)

  /** `getDatabaseName`: the seven modules, anything else the auth database. */
  function PostgresDatabaseName(p: PostgresConfig, moduleName: string): (name: string)
    ensures name in [p.databases.auth, p.databases.crm, p.databases.hrm, p.databases.finance,
                     p.databases.inventory, p.databases.projects, p.databases.analytics]
    ensures moduleName !in {"auth", "crm", "hrm", "finance", "inventory", "projects", "analytics"} ==> name == p.databases.auth
    ensures moduleName == "auth" ==> name == p.databases.auth
    ensures moduleName == "crm" ==> name == p.databases.crm
    ensures moduleName == "hrm" ==> name == p.databases.hrm
    ensures moduleName == "finance" ==> name == p.databases.finance
    ensures moduleName == "inventory" ==> name == p.databases.inventory
    ensures moduleName == "projects" ==> name == p.databases.projects
    ensures moduleName == "analytics" ==> name == p.databases.analytics
  {
    match moduleName
    case "auth" => p.databases.auth
    case "crm" => p.databases.crm
    case "hrm" => p.databases.hrm
    case "finance" => p.databases.finance
    case "inventory" => p.databases.inventory
    case "projects" => p.databases.projects
    case "analytics" => p.databases.analytics
    case _ => p.databases.auth
  }

  /** `<scheme>://user:password@host:port/`: a connection URL up to the database name. */
  function UrlHead(scheme: string, user: string, password: string, host: string, port: int): string {
    scheme + "://" + user + ":" + password + "@" + host + ":" + IntToString(port) + "/"
  }

  /** The part of the URL before the database name. */
  function PostgresUrlHead(p: PostgresConfig): string {
    UrlHead("postgresql", p.username, p.password, p.host, p.port)
  }

  /** `GetConnectionString(database)`. */
  function PostgresConnectionString(p: PostgresConfig, database: string): (url: string)
    ensures StartsWith(url, "postgresql://")
    ensures EndsWith(url, "?sslmode=" + p.sslMode)
  {
    var tail := "?sslmode=" + p.sslMode;
    var r := PostgresUrlHead(p) + PostgresDatabaseName(p, database) + tail;
    assert r[|r| - |tail|..] == tail;
    r
  }

  /** `host=… port=… user=… password=… dbname=`: a key/value DSN up to the database name. */
  function DsnHead(host: string, port: int, user: string, password: string): string {
    "host=" + host + " " + "port=" + IntToString(port) + " " + "user=" + user + " " + "password=" + password + " " + "dbname="
  }

  /** The part of the DSN before the database name. */
  function PostgresDsnHead(p: PostgresConfig): string {
    DsnHead(p.host, p.port, p.username, p.password)
  }

  /** `GetDSN(database)`. */
  function PostgresDsn(p: PostgresConfig, database: string): (dsn: string)
    ensures StartsWith(dsn, "host=")
    ensures EndsWith(dsn, " sslmode=" + p.sslMode)
  {
    var tail := " " + ("sslmode=" + p.sslMode);
    var r := PostgresDsnHead(p) + PostgresDatabaseName(p, database) + tail;
    assert tail == " sslmode=" + p.sslMode;
    assert r[|r| - |tail|..] == tail;
    r
  }

  /** Strings with a common head and tail are equal exactly when their middles are. */
  lemma FramedEqual(head: string, x: string, y: string, tail: string)
    ensures head + x + tail == head + y + tail <==> x == y
  {
    if head + x + tail == head + y + tail {
      assert |x| == |y|;
      assert x == (head + x + tail)[|head|..|head| + |x|];
    }
  }

  lemma UrlFrame(p: PostgresConfig, d1: string, d2: string)
    ensures PostgresConnectionString(p, d1) == PostgresConnectionString(p, d2)
      <==> PostgresDatabaseName(p, d1) == PostgresDatabaseName(p, d2)
  {
    FramedEqual(PostgresUrlHead(p), PostgresDatabaseName(p, d1), PostgresDatabaseName(p, d2), "?sslmode=" + p.sslMode);
  }

  lemma DsnFrame(p: PostgresConfig, d1: string, d2: string)
    ensures PostgresDsn(p, d1) == PostgresDsn(p, d2)
      <==> PostgresDatabaseName(p, d1) == PostgresDatabaseName(p, d2)
  {
    FramedEqual(PostgresDsnHead(p), PostgresDatabaseName(p, d1), PostgresDatabaseName(p, d2), " sslmode=" + p.sslMode);
  }

  /** The URL and the DSN name the same database for every module: two modules
      get the same URL exactly when they resolve to the same database name, and
      exactly then the same DSN. */
  lemma UrlAndDsnAgree(p: PostgresConfig, d1: string, d2: string)
    ensures PostgresConnectionString(p, d1) == PostgresConnectionString(p, d2)
      <==> PostgresDatabaseName(p, d1) == PostgresDatabaseName(p, d2)
    ensures PostgresDsn(p, d1) == PostgresDsn(p, d2)
      <==> PostgresConnectionString(p, d1) == PostgresConnectionString(p, d2)
  {
    UrlFrame(p, d1, d2);
    DsnFrame(p, d1, d2);
  }

  // ------------------------------------------- reading a connection back

  /** The six things a connection string or DSN carries. `options` is the
      query part (`sslmode=…` or `authSource=…`). */
  datatype Connection = Connection(user: string, password: string, host: string, port: int,
                                   database: string, options: string)

  /** `<scheme>://user:password@host:port/database?options`. */
  function UrlOf(scheme: string, c: Connection): string {
    UrlHead(scheme, c.user, c.password, c.host, c.port) + c.database + "?" + c.options
  }

  /** `host=… port=… user=… password=… dbname=… options`. */
  function DsnOf(c: Connection): string {
    DsnHead(c.host, c.port, c.user, c.password) + c.database + " " + c.options
  }

  /** A URL component free of the delimiters `@`, `:`, `/` and `?`. */
  predicate UrlPlain(s: string) {
    '@' !in s && ':' !in s && '/' !in s && '?' !in s
  }

  /** A URL reader: strip `<scheme>://`, then cut at `@`, `/`, `:` and `?`
      and read the port as a decimal number. */
  function ReadUrl(scheme: string, url: string): Option<Connection> {
    var prefix := scheme + "://";
    if !StartsWith(url, prefix) then None
    else
      var at := Split(url[|prefix|..], '@');
      if |at| != 2 then None
      else
        var credentials := Split(at[0], ':');
        var path := Split(at[1], '/');
        if |credentials| != 2 || |path| != 2 then None
        else
          var hostPort := Split(path[0], ':');
          var query := Split(path[1], '?');
          if |hostPort| != 2 || |query| != 2 then None
          else
            match Atoi(hostPort[1])
            case None => None
            case Some(port) => Some(Connection(credentials[0], credentials[1], hostPort[0], port, query[0], query[1]))
  }

  /** A DSN reader: six space-separated fields, the first five with their
      keys, the port read as a decimal number, the sixth kept whole. */
  function ReadDsn(dsn: string): Option<Connection> {
    var f := Split(dsn, ' ');
    if |f| != 6 || !StartsWith(f[0], "host=") || !StartsWith(f[1], "port=") || !StartsWith(f[2], "user=")
       || !StartsWith(f[3], "password=") || !StartsWith(f[4], "dbname=") then None
    else
      match Atoi(f[1][5..])
      case None => None
      case Some(port) => Some(Connection(f[2][5..], f[3][9..], f[0][5..], port, f[4][7..], f[5]))
  }

  lemma DecimalIsPlain(i: int)
    ensures UrlPlain(IntToString(i)) && ' ' !in IntToString(i)
  {
  }

  lemma UrlPlainAppend(a: string, b: string)
    requires UrlPlain(a) && UrlPlain(b)
    ensures UrlPlain(a + b)
  {
  }

  lemma QueryLayout(head: string, name: string, key: string, value: string)
    ensures head + name + "?" + (key + value) == head + name + ("?" + key + value)
  {
  }

  /** A character absent from two pieces and from the joint is absent from the whole. */
  lemma AbsentFromJoined(d: char, a: string, sep: char, b: string)
    requires d !in a && d !in b && d != sep
    ensures d !in a + [sep] + b
  {
  }

  /** The layout of a URL around its delimiters. */
  lemma UrlLayout(scheme: string, c: Connection)
    ensures StartsWith(UrlOf(scheme, c), scheme + "://")
    ensures UrlOf(scheme, c)[|scheme + "://"|..] ==
      (c.user + [':'] + c.password) + ['@'] + ((c.host + [':'] + IntToString(c.port)) + ['/'] + (c.database + ['?'] + c.options))
  {
    var prefix := scheme + "://";
    var rest := (c.user + [':'] + c.password) + ['@'] + ((c.host + [':'] + IntToString(c.port)) + ['/'] + (c.database + ['?'] + c.options));
    assert UrlOf(scheme, c) == prefix + rest;
  }

  /** Reading a URL back gives every field it was built from, as long as no
      field holds a delimiter. */
  lemma ReadUrlOf(scheme: string, c: Connection)
    requires UrlPlain(c.user) && UrlPlain(c.password) && UrlPlain(c.host)
    requires UrlPlain(c.database) && UrlPlain(c.options) && InInt64(c.port)
    ensures ReadUrl(scheme, UrlOf(scheme, c)) == Some(c)
  {
    var n := IntToString(c.port);
    DecimalIsPlain(c.port);
    var credentials := c.user + [':'] + c.password;
    var hostPort := c.host + [':'] + n;
    var query := c.database + ['?'] + c.options;
    var tail := hostPort + ['/'] + query;
    UrlLayout(scheme, c);
    AbsentFromJoined('@', c.user, ':', c.password);
    AbsentFromJoined('@', c.host, ':', n);
    AbsentFromJoined('@', c.database, '?', c.options);
    AbsentFromJoined('@', hostPort, '/', query);
    AbsentFromJoined('/', c.host, ':', n);
    AbsentFromJoined('/', c.database, '?', c.options);
    SplitTwo(credentials, tail, '@');
    SplitTwo(c.user, c.password, ':');
    SplitTwo(hostPort, query, '/');
    SplitTwo(c.host, n, ':');
    SplitTwo(c.database, c.options, '?');
    AtoiOfIntToString(c.port);
  }

  /** The layout of a DSN around its spaces. */
  lemma DsnLayout(c: Connection)
    ensures DsnOf(c) == ("host=" + c.host) + [' '] + (("port=" + IntToString(c.port)) + [' '] + (("user=" + c.user) + [' ']
      + (("password=" + c.password) + [' '] + (("dbname=" + c.database) + [' '] + c.options))))
  {
    SpaceLayout("host=", c.host, "port=", IntToString(c.port), "user=", c.user, "password=", c.password, "dbname=", c.database, c.options);
  }

  lemma SpaceLayout(k0: string, v0: string, k1: string, v1: string, k2: string, v2: string, k3: string, v3: string,
                    k4: string, v4: string, f5: string)
    ensures k0 + v0 + " " + k1 + v1 + " " + k2 + v2 + " " + k3 + v3 + " " + k4 + v4 + " " + f5
      == (k0 + v0) + [' '] + ((k1 + v1) + [' '] + ((k2 + v2) + [' '] + ((k3 + v3) + [' '] + ((k4 + v4) + [' '] + f5))))
  {
  }

  /** The DSN splits at its spaces into the six fields, when no field holds a space. */
  lemma DsnSplit(c: Connection)
    requires ' ' !in c.user && ' ' !in c.password && ' ' !in c.host
    requires ' ' !in c.database && ' ' !in c.options
    ensures Split(DsnOf(c), ' ') ==
      ["host=" + c.host, "port=" + IntToString(c.port), "user=" + c.user, "password=" + c.password, "dbname=" + c.database, c.options]
  {
    DecimalIsPlain(c.port);
    var f0, f1, f2, f3, f4 := "host=" + c.host, "port=" + IntToString(c.port), "user=" + c.user, "password=" + c.password, "dbname=" + c.database;
    var r4 := f4 + [' '] + c.options;
    var r3 := f3 + [' '] + r4;
    var r2 := f2 + [' '] + r3;
    var r1 := f1 + [' '] + r2;
    DsnLayout(c);
    SplitTwo(f4, c.options, ' ');
    SplitFirst(f3, r4, ' ');
    SplitFirst(f2, r3, ' ');
    SplitFirst(f1, r2, ' ');
    SplitFirst(f0, r1, ' ');
  }

  /** Reading a DSN back gives every field it was built from, as long as no
      field holds a space. */
  lemma ReadDsnOf(c: Connection)
    requires ' ' !in c.user && ' ' !in c.password && ' ' !in c.host
    requires ' ' !in c.database && ' ' !in c.options && InInt64(c.port)
    ensures ReadDsn(DsnOf(c)) == Some(c)
  {
    DsnSplit(c);
    var f := Split(DsnOf(c), ' ');
    assert f[1][5..] == IntToString(c.port) && f[0][5..] == c.host && f[2][5..] == c.user;
    assert f[3][9..] == c.password && f[4][7..] == c.database;
    AtoiOfIntToString(c.port);
  }

  /** What `GetConnectionString` and `GetDSN` both carry for a module. */
  function PostgresConnection(p: PostgresConfig, database: string): Connection {
    Connection(p.username, p.password, p.host, p.port, PostgresDatabaseName(p, database), "sslmode=" + p.sslMode)
  }

  lemma PostgresUrlIsUrlOf(p: PostgresConfig, database: string)
    ensures PostgresConnectionString(p, database) == UrlOf("postgresql", PostgresConnection(p, database))
  {
    QueryLayout(PostgresUrlHead(p), PostgresDatabaseName(p, database), "sslmode=", p.sslMode);
    assert "?" + "sslmode=" == "?sslmode=";
  }

  /** The URL reads back as user, password, host, port, the module's database
      and the SSL mode, when those are free of URL delimiters. */
  lemma PostgresUrlReadsBack(p: PostgresConfig, database: string)
    requires UrlPlain(p.username) && UrlPlain(p.password) && UrlPlain(p.host) && InInt64(p.port)
    requires UrlPlain(PostgresDatabaseName(p, database)) && UrlPlain(p.sslMode)
    ensures ReadUrl("postgresql", PostgresConnectionString(p, database)) == Some(PostgresConnection(p, database))
  {
    PostgresUrlIsUrlOf(p, database);
    UrlPlainAppend("sslmode=", p.sslMode);
    ReadUrlOf("postgresql", PostgresConnection(p, database));
  }

  /** The DSN splits into the six `key=value` fields, in the order of `GetDSN`,
      when no field holds a space. */
  lemma PostgresDsnFields(p: PostgresConfig, database: string)
    requires ' ' !in p.username && ' ' !in p.password && ' ' !in p.host && InInt64(p.port)
    requires ' ' !in PostgresDatabaseName(p, database) && ' ' !in p.sslMode
    ensures Split(PostgresDsn(p, database), ' ') ==
      ["host=" + p.host, "port=" + IntToString(p.port), "user=" + p.username, "password=" + p.password,
       "dbname=" + PostgresDatabaseName(p, database), "sslmode=" + p.sslMode]
    ensures ReadDsn(PostgresDsn(p, database)) == Some(PostgresConnection(p, database))
  {
    var c := PostgresConnection(p, database);
    assert PostgresDsn(p, database) == DsnOf(c);
    assert ' ' !in "sslmode=" + p.sslMode;
    DsnSplit(c);
    ReadDsnOf(c);
  }

  /** The URL and the DSN of a module carry the same user, password, host,
      port, database and SSL mode. */
  lemma PostgresUrlAndDsnCarrySameFields(p: PostgresConfig, database: string)
    requires UrlPlain(p.username) && UrlPlain(p.password) && UrlPlain(p.host) && InInt64(p.port)
    requires UrlPlain(PostgresDatabaseName(p, database)) && UrlPlain(p.sslMode)
    requires ' ' !in p.username && ' ' !in p.password && ' ' !in p.host
    requires ' ' !in PostgresDatabaseName(p, database) && ' ' !in p.sslMode
    ensures ReadUrl("postgresql", PostgresConnectionString(p, database)) == ReadDsn(PostgresDsn(p, database))
    ensures ReadDsn(PostgresDsn(p, database)).Some?
  {
    PostgresUrlReadsBack(p, database);
    PostgresDsnFields(p, database);
  }

  /** Every module not in the switch connects to the auth database. */
  lemma UnknownModuleUsesAuth(p: PostgresConfig, m: string)
    requires m !in {"auth", "crm", "hrm", "finance", "inventory", "projects", "analytics"}
    ensures PostgresConnectionString(p, m) == PostgresConnectionString(p, "auth")
    ensures PostgresDsn(p, m) == PostgresDsn(p, "auth")
  {
  }

  /** `GetMaxOpenConnections`: 25 by default. */
  function MaxOpenConnections(pool: PostgresPool): (n: nat)
    ensures pool.maxOpenConnections <= 0 ==> n == 25
    ensures pool.maxOpenConnections > 0 ==> n == pool.maxOpenConnections
  {
    PositiveOr(pool.maxOpenConnections, 25)
  }

  /** `GetMaxIdleConnections`: 5 by default. */
  function MaxIdleConnections(pool: PostgresPool): (n: nat)
    ensures pool.maxIdleConnections <= 0 ==> n == 5
    ensures pool.maxIdleConnections > 0 ==> n == pool.maxIdleConnections
  {
    PositiveOr(pool.maxIdleConnections, 5)
  }

  /** `GetConnectionMaxLifetime`: 5 minutes by default. */
  function ConnectionMaxLifetime(pool: PostgresPool): (seconds: nat)
    ensures pool.connectionMaxLifetime <= 0 ==> seconds == 5 * 60
    ensures pool.connectionMaxLifetime > 0 ==> seconds == pool.connectionMaxLifetime
  {
    PositiveOr(pool.connectionMaxLifetime, 5 * 60)
  }

  /** `GetConnectionMaxIdleTime`: 1 minute by default. */
  function ConnectionMaxIdleTime(pool: PostgresPool): (seconds: nat)
    ensures pool.connectionMaxIdleTime <= 0 ==> seconds == 60
    ensures pool.connectionMaxIdleTime > 0 ==> seconds == pool.connectionMaxIdleTime
  {
    PositiveOr(pool.connectionMaxIdleTime, 60)
  }

  /** Every pool getter answers a positive value whatever was configured. */
  lemma PoolGettersPositive(pool: PostgresPool)
    ensures MaxOpenConnections(pool) > 0 && MaxIdleConnections(pool) > 0
    ensures ConnectionMaxLifetime(pool) > 0 && ConnectionMaxIdleTime(pool) > 0
  {
  }

  // ---------------------------------------------------------------- MongoDB

  datatype MongoDatabases = MongoDatabases(analytics: string, logs: string, aiConversations: string, auditTrail: string)

  datatype MongoOptions = MongoOptions(maxPoolSize: int, minPoolSize: int, maxIdleTime: int, serverSelectionTimeout: int)

  datatype MongoConfig = MongoConfig(host: string, port: int, username: string, password: string,
                                     authSource: string, databases: MongoDatabases, options: MongoOptions)

  /** `getDatabaseName`: "ai" and "audit" are aliases of the full names, and
      anything unknown falls back to the analytics database. */
  function MongoDatabaseName(m: MongoConfig, purpose: string): (name: string)
    ensures name in [m.databases.analytics, m.databases.logs, m.databases.aiConversations, m.databases.auditTrail]
    ensures purpose !in {"analytics", "logs", "ai_conversations", "ai", "audit_trail", "audit"} ==> name == m.databases.analytics
    ensures purpose == "analytics" ==> name == m.databases.analytics
    ensures purpose == "logs" ==> name == m.databases.logs
    ensures purpose in {"ai_conversations", "ai"} ==> name == m.databases.aiConversations
    ensures purpose in {"audit_trail", "audit"} ==> name == m.databases.auditTrail
  {
    match purpose
    case "analytics" => m.databases.analytics
    case "logs" => m.databases.logs
    case "ai_conversations" => m.databases.aiConversations
    case "ai" => m.databases.aiConversations
    case "audit_trail" => m.databases.auditTrail
    case "audit" => m.databases.auditTrail
    case _ => m.databases.analytics
  }

  /** The part of the URI before the database name. */
  function MongoUrlHead(m: MongoConfig): string {
    UrlHead("mongodb", m.username, m.password, m.host, m.port)
  }

  /** `GetConnectionString(database)`. */
  function MongoConnectionString(m: MongoConfig, database: string): (url: string)
    ensures StartsWith(url, "mongodb://")
    ensures EndsWith(url, "?authSource=" + m.authSource)
  {
    var tail := "?authSource=" + m.authSource;
    var r := MongoUrlHead(m) + MongoDatabaseName(m, database) + tail;
    assert r[|r| - |tail|..] == tail;
    r
  }

  /** What `GetConnectionString` carries for a purpose. */
  function MongoConnection(m: MongoConfig, database: string): Connection {
    Connection(m.username, m.password, m.host, m.port, MongoDatabaseName(m, database), "authSource=" + m.authSource)
  }

  lemma MongoUrlIsUrlOf(m: MongoConfig, database: string)
    ensures MongoConnectionString(m, database) == UrlOf("mongodb", MongoConnection(m, database))
  {
    QueryLayout(MongoUrlHead(m), MongoDatabaseName(m, database), "authSource=", m.authSource);
    assert "?" + "authSource=" == "?authSource=";
  }

  /** The URI reads back as user, password, host, port, the purpose's database
      and the authentication database, when those are free of URL delimiters. */
  lemma MongoUriReadsBack(m: MongoConfig, database: string)
    requires UrlPlain(m.username) && UrlPlain(m.password) && UrlPlain(m.host) && InInt64(m.port)
    requires UrlPlain(MongoDatabaseName(m, database)) && UrlPlain(m.authSource)
    ensures ReadUrl("mongodb", MongoConnectionString(m, database)) == Some(MongoConnection(m, database))
  {
    MongoUrlIsUrlOf(m, database);
    UrlPlainAppend("authSource=", m.authSource);
    ReadUrlOf("mongodb", MongoConnection(m, database));
  }

  /** `GetURI(database)`: the connection string under another name. */
  function MongoUri(m: MongoConfig, database: string): (uri: string)
    ensures uri == MongoConnectionString(m, database)
  {
    MongoConnectionString(m, database)
  }

  /** The short and long spellings of a purpose reach the same database, so
      they build the same URI. */
  lemma MongoAliasesAgree(m: MongoConfig)
    ensures MongoUri(m, "ai") == MongoUri(m, "ai_conversations")
    ensures MongoUri(m, "audit") == MongoUri(m, "audit_trail")
  {
  }

  /** `GetMaxPoolSize`: 10 by default. */
  function MaxPoolSize(o: MongoOptions): (n: nat)
    ensures o.maxPoolSize <= 0 ==> n == 10
    ensures o.maxPoolSize > 0 ==> n == o.maxPoolSize
  {
    PositiveOr(o.maxPoolSize, 10)
  }

  /** `GetMinPoolSize`: 1 by default. */
  function MinPoolSize(o: MongoOptions): (n: nat)
    ensures o.minPoolSize <= 0 ==> n == 1
    ensures o.minPoolSize > 0 ==> n == o.minPoolSize
  {
    PositiveOr(o.minPoolSize, 1)
  }

  /** `GetMaxIdleTime`: 1 minute by default. */
  function MaxIdleTime(o: MongoOptions): (seconds: nat)
    ensures o.maxIdleTime <= 0 ==> seconds == 60
    ensures o.maxIdleTime > 0 ==> seconds == o.maxIdleTime
  {
    PositiveOr(o.maxIdleTime, 60)
  }

  /** `GetServerSelectionTimeout`: 30 s by default. */
  function ServerSelectionTimeout(o: MongoOptions): (seconds: nat)
    ensures o.serverSelectionTimeout <= 0 ==> seconds == 30
    ensures o.serverSelectionTimeout > 0 ==> seconds == o.serverSelectionTimeout
  {
    PositiveOr(o.serverSelectionTimeout, 30)
  }

  /** The getters do not reconcile the two pool bounds: a configured minimum
      above the default maximum is passed through as it is. */
  lemma PoolBoundsNotReconciled(o: MongoOptions)
    requires o.maxPoolSize <= 0 && o.minPoolSize > 10
    ensures MinPoolSize(o) > MaxPoolSize(o)
  {
  }
}
