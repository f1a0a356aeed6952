/** The cache, message-broker, vector-store and search settings of
    shared-config/loaders/go/cache.go and the helpers that read them:
    purpose-to-name switches with a fallback, address and URL builders, and
    timeouts where a value of zero or less means "use the default". Durations
    are whole seconds. */
module CacheSettings {
  import opened Base
  import opened Text

  // ------------------------------------------------------------------ Redis

  datatype RedisDatabases = RedisDatabases(default: int, sessions: int, queues: int, webSocket: int, cache: int)

  datatype RedisPool = RedisPool(maxActive: int, maxIdle: int, idleTimeout: int, dialTimeout: int,
                                 readTimeout: int, writeTimeout: int)

  datatype RedisConfig = RedisConfig(host: string, port: int, password: string,
                                     databases: RedisDatabases, pool: RedisPool)

  /** `getDatabaseNumber`: the five named purposes, anything else the default database. */
  function DatabaseNumber(r: RedisConfig, purpose: string): (db: int)
    ensures db in [r.databases.default, r.databases.sessions, r.databases.queues, r.databases.webSocket, r.databases.cache]
    ensures purpose !in {"default", "sessions", "queues", "websocket", "cache"} ==> db == r.databases.default
    ensures purpose == "sessions" ==> db == r.databases.sessions
    ensures purpose == "queues" ==> db == r.databases.queues
    ensures purpose == "websocket" ==> db == r.databases.webSocket
    ensures purpose == "cache" ==> db == r.databases.cache
    ensures purpose == "default" ==> db == r.databases.default
  {
    match purpose
    case "default" => r.databases.default
    case "sessions" => r.databases.sessions
    case "queues" => r.databases.queues
    case "websocket" => r.databases.webSocket
    case "cache" => r.databases.cache
    case _ => r.databases.default
  }

  /** `host:port`. */
  function HostPort(host: string, port: int): string {
    host + ":" + IntToString(port)
  }

  /** The text after the last `:` of an address, read as a port number. */
  function PortOf(addr: string): Option<int> {
    var parts := Split(addr, ':');
    Atoi(parts[|parts| - 1])
  }

  /** The text before the last `:` of an address. */
  function HostOf(addr: string): string {
    BeforeLast(addr, ':')
  }

  /** The host before the last `:` and the port after it read back, even
      when the host itself holds colons. */
  lemma HostPortReadsBack(host: string, port: int)
    ensures HostOf(HostPort(host, port)) == host
    ensures InInt64(port) ==> PortOf(HostPort(host, port)) == Some(port)
  {
    assert ':' !in IntToString(port);
    assert HostPort(host, port) == host + [':'] + IntToString(port);
    BeforeLastOf(host, IntToString(port), ':');
    SplitLast(host, IntToString(port), ':');
    if InInt64(port) {
      AtoiOfIntToString(port);
    }
  }

  /** `GetAddress`. */
  function RedisAddress(r: RedisConfig): (addr: string)
    ensures HostOf(addr) == r.host
    ensures InInt64(r.port) ==> PortOf(addr) == Some(r.port)
  {
    HostPortReadsBack(r.host, r.port);
    HostPort(r.host, r.port)
  }

  /** `GetConnectionString(database)`: a `:password@` user-info part only when
      a password is set, and the database number as the path. */
  function RedisConnectionString(r: RedisConfig, database: string): (url: string)
    ensures StartsWith(url, "redis://")
    ensures r.password != "" ==> StartsWith(url, "redis://:" + r.password + "@")
    ensures EndsWith(BeforeLast(url, '/'), RedisAddress(r))
    ensures BeforeLast(url, '/') == (if r.password != "" then "redis://:" + r.password + "@" else "redis://") + RedisAddress(r)
  {
    var n := DatabaseNumber(r, database);
    var db := IntToString(n);
    var front := if r.password != "" then "redis://:" + r.password + "@" + HostPort(r.host, r.port)
                 else "redis://" + HostPort(r.host, r.port);
    DecimalHasNoSlash(n);
    BeforeLastOf(front, db, '/');
    assert front + ['/'] + db == front + "/" + db;
    front + "/" + db
  }

  /** The path after the last `/` of a Redis URL, read as a database number. */
  function UrlDatabase(url: string): Option<int> {
    var parts := Split(url, '/');
    Atoi(parts[|parts| - 1])
  }

  lemma DecimalHasNoSlash(i: int)
    ensures '/' !in IntToString(i)
  {
  }

  /** Whatever the host and password contain, the database number the URL
      ends with reads back as the one `getDatabaseNumber` chose. */
  lemma RedisUrlNamesDatabase(r: RedisConfig, database: string)
    requires InInt64(DatabaseNumber(r, database))
    ensures UrlDatabase(RedisConnectionString(r, database)) == Some(DatabaseNumber(r, database))
  {
    var n := DatabaseNumber(r, database);
    var url := RedisConnectionString(r, database);
    var front := if r.password != "" then "redis://:" + r.password + "@" + HostPort(r.host, r.port)
                 else "redis://" + HostPort(r.host, r.port);
    assert url == front + "/" + IntToString(n);
    DatabaseAfterLastSlash(front, n);
  }

  /** Whatever precedes it, a number written after the last `/` reads back. */
  lemma DatabaseAfterLastSlash(front: string, n: int)
    requires InInt64(n)
    ensures UrlDatabase(front + "/" + IntToString(n)) == Some(n)
  {
    var db := IntToString(n);
    assert front + "/" + db == front + ['/'] + db;
    DecimalHasNoSlash(n);
    SplitLast(front, db, '/');
    AtoiOfIntToString(n);
  }

  /** With a host free of `@`, the URL carries user-info exactly when a password is set. */
  lemma RedisUrlCredentials(r: RedisConfig, database: string)
    requires '@' !in r.host
    ensures '@' in RedisConnectionString(r, database) <==> r.password != ""
  {
    var url := RedisConnectionString(r, database);
    var db := IntToString(DatabaseNumber(r, database));
    if r.password == "" {
      assert forall c :: c in url ==> c in "redis://" || c in r.host || c == ':' || c in IntToString(r.port) || c == '/' || c in db;
    } else {
      assert url[9 + |r.password|] == '@';
    }
  }

  /** `GetDialTimeout`: 5 s by default. */
  function DialTimeout(p: RedisPool): (seconds: nat)
    ensures p.dialTimeout <= 0 ==> seconds == 5
    ensures p.dialTimeout > 0 ==> seconds == p.dialTimeout
  {
    PositiveOr(p.dialTimeout, 5)
  }

  /** `GetReadTimeout`: 3 s by default. */
  function ReadTimeout(p: RedisPool): (seconds: nat)
    ensures p.readTimeout <= 0 ==> seconds == 3
    ensures p.readTimeout > 0 ==> seconds == p.readTimeout
  {
    PositiveOr(p.readTimeout, 3)
  }

  /** `GetWriteTimeout`: 3 s by default. */
  function WriteTimeout(p: RedisPool): (seconds: nat)
    ensures p.writeTimeout <= 0 ==> seconds == 3
    ensures p.writeTimeout > 0 ==> seconds == p.writeTimeout
  {
    PositiveOr(p.writeTimeout, 3)
  }

  /** `GetIdleTimeout`: 240 s by default. */
  function IdleTimeout(p: RedisPool): (seconds: nat)
    ensures p.idleTimeout <= 0 ==> seconds == 240
    ensures p.idleTimeout > 0 ==> seconds == p.idleTimeout
  {
    PositiveOr(p.idleTimeout, 240)
  }

  /** No pool timeout is ever zero, whatever was configured, so no Redis
      operation runs without a deadline. */
  lemma PoolTimeoutsPositive(p: RedisPool)
    ensures DialTimeout(p) > 0 && ReadTimeout(p) > 0 && WriteTimeout(p) > 0 && IdleTimeout(p) > 0
  {
  }

  // ------------------------------------------------------------------ Kafka

  datatype KafkaTopics = KafkaTopics(authEvents: string, userEvents: string, businessEvents: string,
                                     systemEvents: string, aiEvents: string, notificationEvents: string)

  datatype KafkaConsumerGroups = KafkaConsumerGroups(authService: string, notificationService: string,
                                                     analyticsService: string, auditService: string, aiService: string)

  /** The producer and consumer tuning blocks are carried but never read by a helper. */
  datatype KafkaConfig = KafkaConfig(brokers: seq<string>, topics: KafkaTopics, consumerGroups: KafkaConsumerGroups)

  const DefaultBroker: string := "localhost:9092"

  /** `GetBrokerList` as written: `fmt.Sprintf("%v", brokers)` prints the
      slice in brackets with a space between elements. */
  function BrokerListAsWritten(k: KafkaConfig): (list: string)
    ensures |k.brokers| == 0 ==> list == DefaultBroker
    ensures |k.brokers| > 0 ==> |list| >= 2 && list[0] == '[' && list[|list| - 1] == ']'
    ensures |k.brokers| > 0 ==> |list| == |Join(k.brokers, ',')| + 2
  {
    JoinLengthAnySeparator(k.brokers, ' ', ',');
    if |k.brokers| == 0 then DefaultBroker else "[" + Join(k.brokers, ' ') + "]"
  }

  /** As written, the default comes back exactly when no broker is configured:
      any other answer starts with a bracket. */
  lemma BrokerListDefaultOnlyWhenEmpty(k: KafkaConfig)
    ensures BrokerListAsWritten(k) == DefaultBroker <==> |k.brokers| == 0
  {
    if |k.brokers| > 0 {
      assert BrokerListAsWritten(k)[0] == '[' != DefaultBroker[0];
    }
  }

  /** The written form is not a comma-separated list: two brokers come back as
      one bracketed, space-separated string that a comma split cannot take apart. */
  lemma BrokerListAsWrittenIsNotCommaSeparated()
    ensures BrokerListAsWritten(KafkaConfig(["a", "b"], KafkaTopics("", "", "", "", "", ""), KafkaConsumerGroups("", "", "", "", "")))
      == "[a b]"
    ensures Split("[a b]", ',') == ["[a b]"]
  {
    assert Join(["a", "b"], ' ') == "a" + [' '] + Join(["b"], ' ');
    assert ',' !in "[a b]";
    SplitWithoutSeparator("[a b]", ',');
  }

  /** Whatever the brokers are, the written form never comma-splits back into
      them: a list that did would be their comma join, which is two characters
      shorter than the bracketed form. */
  lemma BrokerListAsWrittenNeverSplitsBack(k: KafkaConfig)
    requires |k.brokers| > 0
    ensures Split(BrokerListAsWritten(k), ',') != k.brokers
  {
    var list := BrokerListAsWritten(k);
    if Split(list, ',') == k.brokers {
      JoinSplit(list, ',');
      assert Join(k.brokers, ',') == list;
      assert false;
    }
  }

  /** `GetBrokerList` as documented: the brokers joined with commas. */
  function BrokerList(k: KafkaConfig): (list: string)
    ensures |k.brokers| == 0 ==> list == DefaultBroker
  {
    if |k.brokers| == 0 then DefaultBroker else Join(k.brokers, ',')
  }

  /** Splitting the corrected list on commas gives the brokers back, which is
      how `KAFKA_BROKERS` is read in the first place. */
  lemma BrokerListRoundTrip(k: KafkaConfig)
    requires |k.brokers| > 0
    requires forall i :: 0 <= i < |k.brokers| ==> ',' !in k.brokers[i]
    ensures Split(BrokerList(k), ',') == k.brokers
  {
    SplitJoin(k.brokers, ',');
  }

  /** `GetTopicName`: the six event types, anything else the system topic. */
  function TopicName(t: KafkaTopics, eventType: string): (topic: string)
    ensures topic in [t.authEvents, t.userEvents, t.businessEvents, t.systemEvents, t.aiEvents, t.notificationEvents]
    ensures eventType !in {"auth", "user", "business", "system", "ai", "notification"} ==> topic == t.systemEvents
    ensures eventType == "auth" ==> topic == t.authEvents
    ensures eventType == "user" ==> topic == t.userEvents
    ensures eventType == "business" ==> topic == t.businessEvents
    ensures eventType == "system" ==> topic == t.systemEvents
    ensures eventType == "ai" ==> topic == t.aiEvents
    ensures eventType == "notification" ==> topic == t.notificationEvents
  {
    match eventType
    case "auth" => t.authEvents
    case "user" => t.userEvents
    case "business" => t.businessEvents
    case "system" => t.systemEvents
    case "ai" => t.aiEvents
    case "notification" => t.notificationEvents
    case _ => t.systemEvents
  }

  /** `GetConsumerGroup`: the five named services, any other `<service>-group`. */
  function ConsumerGroup(g: KafkaConsumerGroups, service: string): (group: string)
    ensures service !in {"auth", "notification", "analytics", "audit", "ai"} ==> group == service + "-group"
    ensures service == "auth" ==> group == g.authService
    ensures service == "notification" ==> group == g.notificationService
    ensures service == "analytics" ==> group == g.analyticsService
    ensures service == "audit" ==> group == g.auditService
    ensures service == "ai" ==> group == g.aiService
  {
    match service
    case "auth" => g.authService
    case "notification" => g.notificationService
    case "analytics" => g.analyticsService
    case "audit" => g.auditService
    case "ai" => g.aiService
    case _ => service + "-group"
  }

  /** Distinct unnamed services get distinct generated groups. */
  lemma GeneratedGroupsDistinct(g: KafkaConsumerGroups, s1: string, s2: string)
    requires s1 !in {"auth", "notification", "analytics", "audit", "ai"}
    requires s2 !in {"auth", "notification", "analytics", "audit", "ai"}
    ensures ConsumerGroup(g, s1) == ConsumerGroup(g, s2) <==> s1 == s2
  {
    if ConsumerGroup(g, s1) == ConsumerGroup(g, s2) {
      assert |s1| == |s2|;
      assert s1 == ConsumerGroup(g, s1)[..|s1|];
    }
  }

  // ----------------------------------------------------------------- Qdrant

  datatype QdrantCollections = QdrantCollections(documents: string, products: string,
                                                 conversations: string, knowledgeBase: string)

  datatype QdrantConfig = QdrantConfig(host: string, httpPort: int, grpcPort: int, apiKey: string,
                                       collections: QdrantCollections)

  /** `GetHTTPURL`. */
  function QdrantHttpUrl(q: QdrantConfig): (url: string)
    ensures StartsWith(url, "http://")
    ensures HostOf(url) == "http://" + q.host
    ensures InInt64(q.httpPort) ==> PortOf(url) == Some(q.httpPort)
  {
    HostPortReadsBack("http://" + q.host, q.httpPort);
    HostPort("http://" + q.host, q.httpPort)
  }

  /** `GetGRPCAddress`. */
  function QdrantGrpcAddress(q: QdrantConfig): (addr: string)
    ensures HostOf(addr) == q.host
    ensures InInt64(q.grpcPort) ==> PortOf(addr) == Some(q.grpcPort)
  {
    HostPortReadsBack(q.host, q.grpcPort);
    HostPort(q.host, q.grpcPort)
  }

  lemma PrefixHostPort(prefix: string, host: string, port: int)
    ensures HostPort(prefix + host, port) == prefix + HostPort(host, port)
  {
  }

  /** The HTTP URL and the gRPC address name the same host and differ only in
      scheme and port: the URL is the address behind `http://` exactly when
      the two ports are equal. */
  lemma QdrantEndpointsShareHost(q: QdrantConfig)
    requires InInt64(q.httpPort) && InInt64(q.grpcPort)
    ensures q.httpPort == q.grpcPort <==> QdrantHttpUrl(q) == "http://" + QdrantGrpcAddress(q)
  {
    PrefixHostPort("http://", q.host, q.grpcPort);
    HostPortReadsBack("http://" + q.host, q.httpPort);
    HostPortReadsBack("http://" + q.host, q.grpcPort);
  }

  /** `GetCollectionName`: "knowledge" is an alias of "knowledge_base", and
      anything unknown falls back to the documents collection. */
  function CollectionName(c: QdrantCollections, purpose: string): (name: string)
    ensures name in [c.documents, c.products, c.conversations, c.knowledgeBase]
    ensures purpose !in {"documents", "products", "conversations", "knowledge", "knowledge_base"} ==> name == c.documents
    ensures purpose == "documents" ==> name == c.documents
    ensures purpose == "products" ==> name == c.products
    ensures purpose == "conversations" ==> name == c.conversations
    ensures purpose in {"knowledge", "knowledge_base"} ==> name == c.knowledgeBase
  {
    match purpose
    case "documents" => c.documents
    case "products" => c.products
    case "conversations" => c.conversations
    case "knowledge" => c.knowledgeBase
    case "knowledge_base" => c.knowledgeBase
    case _ => c.documents
  }

  /** Both spellings of the knowledge base name one collection, for every configuration. */
  lemma KnowledgeAliases(c: QdrantCollections)
    ensures CollectionName(c, "knowledge") == CollectionName(c, "knowledge_base") == c.knowledgeBase
  {
  }

  // ---------------------------------------------------------- Elasticsearch

  datatype EsIndices = EsIndices(contacts: string, products: string, documents: string,
                                 employees: string, transactions: string)

  datatype EsSettings = EsSettings(maxRetries: int, retryOnStatus: string, timeout: int)

  datatype EsConfig = EsConfig(host: string, port: int, username: string, password: string, scheme: string,
                               indices: EsIndices, settings: EsSettings)

  /** `GetURL`: `scheme://host:port`. */
  function EsUrl(e: EsConfig): (url: string)
    ensures StartsWith(url, e.scheme + "://")
    ensures HostOf(url) == e.scheme + "://" + e.host
    ensures InInt64(e.port) ==> PortOf(url) == Some(e.port)
  {
    HostPortReadsBack(e.scheme + "://" + e.host, e.port);
    HostPort(e.scheme + "://" + e.host, e.port)
  }

  /** `GetIndexName`: the five named indices, any other `erp_<purpose>`. */
  function IndexName(i: EsIndices, purpose: string): (name: string)
    ensures purpose !in {"contacts", "products", "documents", "employees", "transactions"} ==> name == "erp_" + purpose
    ensures purpose == "contacts" ==> name == i.contacts
    ensures purpose == "products" ==> name == i.products
    ensures purpose == "documents" ==> name == i.documents
    ensures purpose == "employees" ==> name == i.employees
    ensures purpose == "transactions" ==> name == i.transactions
  {
    match purpose
    case "contacts" => i.contacts
    case "products" => i.products
    case "documents" => i.documents
    case "employees" => i.employees
    case "transactions" => i.transactions
    case _ => "erp_" + purpose
  }

  /** A generated index name gives its purpose back after the `erp_` prefix. */
  lemma GeneratedIndexNamesPrefixPurpose(i: EsIndices, purpose: string)
    requires purpose !in {"contacts", "products", "documents", "employees", "transactions"}
    ensures IndexName(i, purpose)[..4] == "erp_" && IndexName(i, purpose)[4..] == purpose
  {
  }

  /** `GetTimeout`: 30 s by default. */
  function EsTimeout(s: EsSettings): (seconds: nat)
    ensures s.timeout <= 0 ==> seconds == 30
    ensures s.timeout > 0 ==> seconds == s.timeout
    ensures seconds > 0
  {
    PositiveOr(s.timeout, 30)
  }
}
