# ERP gateway resilience, batch loading and shared configuration — a Dafny model

This project models three parts of the ERP platform and proves properties of the model.

* **The resilient gRPC client layer of the GraphQL gateway** (`graphql-gateway/src/grpc-clients.js`):
  * the per-service circuit breaker (CLOSED / OPEN / HALF_OPEN, threshold 5, 60 s cool-down);
  * the retry loop (three attempts, backoff `2^attempt · 1000` ms, one shared 10 s deadline);
  * address resolution through service discovery, falling back to the default address;
  * the fallback client installed when a stub cannot be built.
* **The cache-aside batch loaders of the gateway** (`graphql-gateway/src/dataloaders.js`):
  * the generic batch function of `createBatchLoader`;
  * the three one-to-many relationship loaders;
  * the chained employee-manager loader;
  * cache key construction and the two invalidation helpers, including a `*`-glob matcher that decides which keys `clearEntityCache` reaches;
  * DataLoader's de-duplication and `maxBatchSize` chunking, as an abstract wrapper.
* **The Go configuration helpers** (`shared-config/loaders/go/`):
  * the Redis, Kafka, Qdrant and Elasticsearch helpers;
  * the PostgreSQL and MongoDB connection builders and pool getters;
  * the environment lookups and `overrideWithEnvVars`.

Everything is pure. The things the source gets from the outside world are inputs:

* clock readings, as integer milliseconds;
* the outcomes successive gRPC invocations would produce;
* the discovery answer and the random pick;
* whether the stub could be built;
* a Redis snapshot (a map from key to stored string);
* the backend's reply;
* the process environment, as a map.

Cache writes and backend requests are outputs. JSON encoding is the identity on an abstract `Value` (`null`, a record of string fields, or a list of records). A stored string is one of:

* `Blank`, the empty string and the only falsy one;
* the JSON of a value;
* `Garbled`, text that `JSON.parse` rejects.

Go durations are whole seconds.

Modules, one per file:

| file | module | models |
|---|---|---|
| base.dfy | `Base` | `Option`, and "positive or default" |
| text.dfy | `Text` | Go `%d`, `strconv.Atoi`, `strings.Split` / `Join`, prefix and suffix tests |
| env.dfy | `Env` | `getEnv` / `getEnvAsInt` (also JavaScript `process.env.X \|\| d`) |
| breaker.dfy | `Breaker` | the breaker record and its transitions |
| resilience.dfy | `Resilience` | retry, gating, service table, discovery, client creation, fallback |
| glob.dfy | `Glob` | Redis `KEYS` matching for `*` |
| store.dfy | `Store` | cache keys, `clearCache`, `clearEntityCache` |
| batchloader.dfy | `BatchLoader` | the `createBatchLoader` batch function |
| relationships.dfy | `Relationships` | contact leads, invoice line items, stock movements, employee managers |
| dispatch.dfy | `Dispatch` | DataLoader's per-dispatch de-duplication and chunking |
| cachesettings.dfy | `CacheSettings` | `cache.go` helpers |
| databasesettings.dfy | `DatabaseSettings` | `database.go` helpers |
| settings.dfy | `Settings` | `config.go` overrides and environment tests |

## Model

| member | source | states |
|---|---|---|
| Breaker.NewBreaker | graphql-gateway/src/grpc-clients.js:162-168 | a new breaker is CLOSED with no failures and no failure time, threshold 5 and timeout 60000 ms |
| Breaker.CheckGate | graphql-gateway/src/grpc-clients.js:186-194 | the call is refused exactly when the breaker is OPEN and less than the timeout has passed since the last failure (a missing time counts as 0); an OPEN breaker past its cool-down admits the call as HALF_OPEN; CLOSED and HALF_OPEN admit unchanged |
| Breaker.OnFailure | graphql-gateway/src/grpc-clients.js:204-211 | a failure adds one to the count and stamps the time; the breaker is OPEN once the count reaches the threshold, and otherwise keeps its state |
| Breaker.OnSuccess | graphql-gateway/src/grpc-clients.js:221-225 | a success clears the count and closes the breaker, leaving the failure time |
| Breaker.Step | graphql-gateway/src/grpc-clients.js:186-226 | no step changes threshold or timeout; an entry check never changes the count or the failure time; a failure adds one; a success closes the breaker and clears the count |
| Breaker.Run | graphql-gateway/src/grpc-clients.js:186-226 | a sequence of steps keeps threshold and timeout, and whatever came before, one that ends in a success leaves the breaker CLOSED with no failures |
| Breaker.RunPreservesValid | graphql-gateway/src/grpc-clients.js:186-226 | under any interleaving of entries, failures and successes, the breaker stays CLOSED exactly while fewer than 5 failures are counted, and a non-CLOSED breaker has a failure time |
| Breaker.ReachableBreakersAreValid | graphql-gateway/src/grpc-clients.js:162-226 | every breaker reachable from a new one satisfies that invariant |
| Breaker.FailedTrialReopens | graphql-gateway/src/grpc-clients.js:204-211 | HALF_OPEN keeps the failure count it had when OPEN, so one failed trial re-opens the breaker |
| Breaker.ClosedOpensAtThreshold | graphql-gateway/src/grpc-clients.js:208-211 | a valid CLOSED breaker opens on exactly the failure that brings the count to 5 |
| Breaker.RunOfFailures | graphql-gateway/src/grpc-clients.js:204-211 | n failures add n to the count, leave the last completion time, and leave the breaker OPEN once the count reaches the threshold |
| Breaker.ThresholdFailuresGateNextCall | graphql-gateway/src/grpc-clients.js:186-211 | after 5 failures a fresh breaker is OPEN; it refuses calls within 60 s of the last failure and admits a HALF_OPEN trial after that |
| Resilience.IsRetryable | graphql-gateway/src/grpc-clients.js:234-241 | an error is retried only if it carries a gRPC code, and then exactly when the code is UNAVAILABLE (14), DEADLINE_EXCEEDED (4) or RESOURCE_EXHAUSTED (8) |
| Resilience.BackoffMs | graphql-gateway/src/grpc-clients.js:216 | the pause is a whole number of seconds, at least one; 2000 ms after the first attempt and 4000 ms after the second |
| Resilience.CircuitOpenError | graphql-gateway/src/grpc-clients.js:190 | the breaker's own error carries no gRPC code, so it is never retryable |
| Resilience.UnavailableError | graphql-gateway/src/grpc-clients.js:247 | the fallback's error carries no gRPC code, so it is never retryable |
| Resilience.Retry | graphql-gateway/src/grpc-clients.js:199-241 | one invocation per attempt, at most `4 - attempt`, all with the same deadline; every invocation but the last failed with UNAVAILABLE, DEADLINE_EXCEEDED or RESOURCE_EXHAUSTED, and the next one starts `2^attempt · 1000` ms after that error; the last invocation decides the reply, with a response resetting the breaker and an error being final only when it is not retryable or the third attempt was reached, each failure being counted in the breaker, and the breaker ending OPEN once the count reaches the threshold and in its starting state below it |
| Resilience.Call | graphql-gateway/src/grpc-clients.js:182-231 | a refused call answers the circuit-open error with no invocation and no breaker change; an admitted call makes 1 to 3 invocations, starting now, all with deadline now + 10000 |
| Resilience.OpenBreakerNeverInvokes | graphql-gateway/src/grpc-clients.js:186-191 | an OPEN breaker inside its cool-down answers "Circuit breaker OPEN for <service>" without invoking the method and without changing the breaker |
| Resilience.OnlyOpenIsGated | graphql-gateway/src/grpc-clients.js:187-194 | CLOSED and HALF_OPEN breakers always invoke the method |
| Resilience.NonRetryableInvokedOnce | graphql-gateway/src/grpc-clients.js:213-220 | a non-retryable first error is delivered after exactly one invocation |
| Resilience.PersistentFailureInvokedThreeTimes | graphql-gateway/src/grpc-clients.js:213-220 | a persistently retryable failure is invoked exactly three times, with pauses of 2000 and 4000 ms; the third error is delivered and three failures are counted |
| Resilience.ResponsePassesThrough | graphql-gateway/src/grpc-clients.js:221-226 | a reply `Ok(r)` means some invocation responded with `r`, and the breaker is then CLOSED with no failures |
| Resilience.RetryIgnoresOpenedBreaker | graphql-gateway/src/grpc-clients.js:199-218 | a retryable failure that opens the breaker is still retried, because the breaker is only checked at entry; if the call still fails, the breaker ends OPEN |
| Resilience.FailedCallBreakerState | graphql-gateway/src/grpc-clients.js:182-231 | after an admitted call that fails, every invocation is counted; a failed HALF_OPEN trial re-opens the breaker, and a CLOSED breaker opens exactly when the count reaches 5 and otherwise stays CLOSED |
| Resilience.ThirdAttemptBudget | graphql-gateway/src/grpc-clients.js:197-216 | the deadline is computed once, so the third invocation has at most 4 s of the 10 s left |
| Resilience.Services | graphql-gateway/src/grpc-clients.js:26-63 | six services with distinct names, `auth`, `crm`, `hrm`, `finance`, `inventory` and `projects`; each default address is its own `GRPC_*_SERVICE` variable when that is non-empty, else its built-in `<name>-service:5005<n>` address, and is never empty |
| Resilience.ServiceAddress | graphql-gateway/src/grpc-clients.js:136-159 | the default address unless discovery answered within 5 s with a non-empty list, in which case `Address:Port` of one listed instance |
| Resilience.CreateClient | graphql-gateway/src/grpc-clients.js:83-134 | a built stub gives a resilient client with a fresh breaker at the resolved address; a failure anywhere in construction gives the fallback client for the same service |
| Resilience.Initialize | graphql-gateway/src/grpc-clients.js:72-81 | exactly one client per configured service name, each belonging to that service |
| Resilience.InitializeBuildsLastOfName | graphql-gateway/src/grpc-clients.js:72-81 | the client installed under a name is the one `createClient` built from the last configuration with that name, under that service's own setup |
| Resilience.InitializeInstallsEveryService | graphql-gateway/src/grpc-clients.js:26-81 | for the six-service table, each service's entry is the client built from its own table row |
| Resilience.CallClient | graphql-gateway/src/grpc-clients.js:161-251 | the fallback answers "<service> service unavailable" without invoking anything and stays as it is; a resilient client keeps its service and address, and its reply, invocations and new breaker are those of the gated retry call on its own breaker |
| Resilience.FreshClientInvokes | graphql-gateway/src/grpc-clients.js:162-231 | a freshly built resilient client always lets its first call through: 1 to 3 invocations, the first starting now with deadline now + 10000; a first response comes back after one invocation with the breaker still new |
| Resilience.FallbackFailsFast | graphql-gateway/src/grpc-clients.js:129-133 | when the stub cannot be built, every call, at any time and whatever the backend would answer, gets the unavailable error with no invocation |
| Store.CacheKey | graphql-gateway/src/dataloaders.js:11 | a key starts `dl:` and is five characters longer than its three parts together |
| Store.CacheKeyReadsBack | graphql-gateway/src/dataloaders.js:11 | splitting a key of colon-free parts at its colons gives `dl`, the service, the method and the id back |
| Store.ClearCache | graphql-gateway/src/dataloaders.js:280-285 | exactly the one key `dl:<service>:<method>:<id>` is removed; every other entry is kept as it was |
| Glob.Match | graphql-gateway/src/dataloaders.js:296 | the pattern `*` alone matches every key, as Redis `KEYS` does |
| Store.ClearEntityCache | graphql-gateway/src/dataloaders.js:288-304 | exactly the keys matching one of the three patterns are removed; the others are kept as they were |
| Store.SecondPatternNeverMatches | graphql-gateway/src/dataloaders.js:291 | the pattern `dl:*:*:<id>:*` needs four colons and never matches a cache key whose parts have no colon |
| Store.ThirdPatternReaches | graphql-gateway/src/dataloaders.js:292 | `dl:<entityType>:*:<id>` matches every key of service `entityType` with that id, under any method |
| Store.ThirdPatternOnly | graphql-gateway/src/dataloaders.js:292 | when no part has a colon, a key it matches has service `entityType` and that id |
| Store.FirstPatternReaches | graphql-gateway/src/dataloaders.js:290 | `dl:*:*<entityType>*:<id>` matches every key with that id whose method contains `entityType` |
| Store.FirstPatternOnly | graphql-gateway/src/dataloaders.js:290 | when no part has a colon, a key it matches has that id and a method containing `entityType` |
| Store.EntityEvictionReach | graphql-gateway/src/dataloaders.js:289-293 | for colon-free parts, `clearEntityCache(e, id)` reaches a key exactly when its id is `id` and either its service is `e` or its method contains `e` (case-sensitively) |
| BatchLoader.CacheTtl | graphql-gateway/src/dataloaders.js:8 | the TTL is the parsed value unless that is `NaN` or 0, which give 60; it is never 0 |
| BatchLoader.CacheKeys | graphql-gateway/src/dataloaders.js:19 | one cache key per input key, in the same position |
| BatchLoader.Probe | graphql-gateway/src/dataloaders.js:20-32 | the cache phase fails exactly when some entry does not parse; otherwise it is aligned with the keys and holds a value exactly at truthy entries, namely the parsed entry |
| BatchLoader.MissIndices | graphql-gateway/src/dataloaders.js:22-32 | the missed positions, strictly increasing, all of them and only them |
| BatchLoader.MissesAreTheMissedKeys | graphql-gateway/src/dataloaders.js:22-37 | a key is requested exactly when it missed at some position |
| BatchLoader.Fetched | graphql-gateway/src/dataloaders.js:48 | `items` when present (even empty), else `data`, else nothing |
| BatchLoader.IndexByFindsLast | graphql-gateway/src/dataloaders.js:49-53 | `IndexBy`'s map holds a key exactly when some fetched item carries it in `keyField`, and then holds the last such item |
| BatchLoader.FoundWrites | graphql-gateway/src/dataloaders.js:56-67 | a write exists exactly for each missed key that was found, under its cache key with the TTL and the found record |
| BatchLoader.Merge | graphql-gateway/src/dataloaders.js:26-59 | hits keep their cached value; misses take the found record or `null` |
| BatchLoader.AllNull | graphql-gateway/src/dataloaders.js:79 | one `null` per key |
| BatchLoader.BatchLoad | graphql-gateway/src/dataloaders.js:16-80 | exactly one result per input key, whatever happens |
| BatchLoader.BatchAnswersPositionally | graphql-gateway/src/dataloaders.js:19-59 | without a failure, a truthy cached position carries its cached value; any other position is `null` exactly when no fetched item has its key, and is otherwise the last fetched item with that key |
| BatchLoader.BatchRequestsMisses | graphql-gateway/src/dataloaders.js:35-45 | the backend is asked at most once, exactly when some key missed, for the missed keys in their original order |
| BatchLoader.BatchWritesFoundItems | graphql-gateway/src/dataloaders.js:56-72 | every write belongs to a batch whose read and backend call succeeded; it is for a missed key, carries the TTL and a record, and equals the result returned at that key's position |
| BatchLoader.ReadFailureNullsEverything | graphql-gateway/src/dataloaders.js:76-80 | a failing `mget` gives `null` for every key, cached ones included, with no request and no write |
| BatchLoader.BackendFailureNullsEverything | graphql-gateway/src/dataloaders.js:40-80 | a rejected backend call gives `null` for every key, including the cache hits of the same batch, and writes nothing |
| Relationships.Children | graphql-gateway/src/dataloaders.js:231-237 | the reference grouping: only items of that parent, in backend order |
| Relationships.ChildrenComplete | graphql-gateway/src/dataloaders.js:231-237 | an item is among a parent's children exactly when its foreign key names that parent |
| Relationships.GroupByIsChildren | graphql-gateway/src/dataloaders.js:231-237 | `GroupBy`, the `forEach` map, holds a parent exactly when it has children, and then holds its children in backend order |
| Relationships.AllEmpty | graphql-gateway/src/dataloaders.js:242 | one empty list per parent |
| Relationships.GroupLoad | graphql-gateway/src/dataloaders.js:219-246 | one result per parent, and one request naming all the parents |
| Relationships.InvoiceLineItems | graphql-gateway/src/dataloaders.js:219-246 | asks for the invoice ids with no limit |
| Relationships.ProductStockMovements | graphql-gateway/src/dataloaders.js:249-277 | asks for the product ids with a limit of 10 |
| Relationships.GroupLoadAnswers | graphql-gateway/src/dataloaders.js:231-243 | each parent gets the list of its children in backend order, `[]` when it has none, and `[]` for every parent when the call fails; never `null` |
| Relationships.LeadWrites | graphql-gateway/src/dataloaders.js:155-164 | one write per uncached contact under `dl:crm:contactLeads:<id>`, holding its leads list |
| Relationships.MergeLeads | graphql-gateway/src/dataloaders.js:129-158 | hits keep their cached value; misses take their contact's leads list |
| Relationships.ContactLeads | graphql-gateway/src/dataloaders.js:120-178 | exactly one result per contact, whatever happens |
| Relationships.ContactLeadsKeyIsCacheKey | graphql-gateway/src/dataloaders.js:123 | the literal leads key is the generic cache key for service `crm` and method `contactLeads` |
| Relationships.ContactLeadsWritesEveryMiss | graphql-gateway/src/dataloaders.js:155-164 | after a successful fetch, every uncached contact is answered, and written back, with its leads in backend order, even when the list is empty |
| Relationships.ContactLeadsFailureIsEmpty | graphql-gateway/src/dataloaders.js:172-175 | a failed read or a failed backend call gives `[]` for every contact, cached ones included, and writes nothing |
| Relationships.ManagerId | graphql-gateway/src/dataloaders.js:188-190 | an employee contributes a manager id exactly when it is a record with a non-empty `managerId` |
| Relationships.ManagerIds | graphql-gateway/src/dataloaders.js:188-194 | the ids listed are exactly the truthy manager ids, and the list is empty exactly when no employee has one |
| Relationships.ManagerMapHolds | graphql-gateway/src/dataloaders.js:200-205 | `ManagerMap` holds an id exactly when some loaded record carries it, and then holds a loaded record with that id |
| Relationships.EmployeeManagers | graphql-gateway/src/dataloaders.js:181-216 | one result per employee |
| Relationships.EmployeeManagerIsLoadedManager | graphql-gateway/src/dataloaders.js:207-209 | result `i` is `null` without a manager id; otherwise it is a loaded record whose `id` is that manager id, and it is non-null whenever loading that id gives such a record |
| Relationships.NoManagersAllNull | graphql-gateway/src/dataloaders.js:192-194 | with no manager id among the employees, every result is `null` |
| Relationships.ConsistentLoadGivesManager | graphql-gateway/src/dataloaders.js:196-209 | when each load returns `null` or the record with the requested id, result `i` is exactly the load of employee `i`'s manager id |
| Dispatch.Distinct | graphql-gateway/src/dataloaders.js:85-86 | the requested keys each once, nothing else |
| Dispatch.DistinctIgnoresRepeats | graphql-gateway/src/dataloaders.js:85-86 | requesting a key once more changes nothing, since the first request is kept |
| Dispatch.Chunks | graphql-gateway/src/dataloaders.js:84 | every batch is non-empty and at most `maxBatchSize` long |
| Dispatch.ChunksCover | graphql-gateway/src/dataloaders.js:84 | the batches laid end to end are the keys |
| Dispatch.Answers | graphql-gateway/src/dataloaders.js:75-79 | every key of the batch gets an answer, and every key is rejected when the answer has the wrong length |
| Dispatch.AnswersAtPosition | graphql-gateway/src/dataloaders.js:75 | with one answer per distinct key, each key gets the answer at its own position |
| Dispatch.Dispatch | graphql-gateway/src/dataloaders.js:84-86 | one result per request, and batches of at most `maxBatchSize` keys |
| Dispatch.DispatchRequestsEachKeyOnce | graphql-gateway/src/dataloaders.js:84-86 | the batches together hold every requested key exactly once, and requests for the same key get the same result |
| Dispatch.SingleBatchAnswers | graphql-gateway/src/dataloaders.js:84-86 | when the keys fit in one batch, each request gets the batch function's value at its key's position |
| Dispatch.RepeatedKeyBatchedOnce | graphql-gateway/src/dataloaders.js:84-85 | a worked example: requesting `1, 2, 1, 3` sends the single batch `1, 2, 3` |
| Env.GetEnv | shared-config/loaders/go/config.go:204-209 | the variable's value when it is set and non-empty, else the default |
| Env.GetEnvAsInt | shared-config/loaders/go/config.go:211-218 | the parsed value when the variable is set, non-empty and parses as an int, else the default |
| Env.GetEnvAsIntReadsFormatted | shared-config/loaders/go/config.go:211-218 | a number written in decimal is read back exactly |
| Text.IntToString | shared-config/loaders/go/cache.go:127 | `%d`: an optional minus sign, then digits only |
| Text.Atoi | shared-config/loaders/go/config.go:213 | a parsed value lies in the 64-bit range and comes from an optionally signed run of digits |
| Text.AtoiOfIntToString | shared-config/loaders/go/config.go:213 | parsing what `%d` printed gives the number back |
| Text.Split | shared-config/loaders/go/config.go:189 | `strings.Split` always gives at least one piece, and no piece contains the separator |
| Text.Join | shared-config/loaders/go/config.go:189 | a join starts with the first part and has at least one character per separator |
| Text.JoinSplit | shared-config/loaders/go/config.go:189 | joining the comma split gives the original string |
| Text.SplitJoin | shared-config/loaders/go/config.go:189 | splitting a comma join of comma-free parts gives the parts |
| CacheSettings.DatabaseNumber | shared-config/loaders/go/cache.go:138-153 | the five purposes pick their databases, anything else the default one; the answer is always a configured number |
| CacheSettings.RedisConnectionString | shared-config/loaders/go/cache.go:124-130 | the URL starts `redis://`, and `redis://:<password>@` when a password is set; the text before its last `/` is `redis://`, then `:<password>@` when a password is set, then the `host:port` address |
| CacheSettings.RedisUrlNamesDatabase | shared-config/loaders/go/cache.go:124-130 | the text after the URL's last `/` parses as the number `getDatabaseNumber` chose, whatever host and password hold |
| CacheSettings.RedisUrlCredentials | shared-config/loaders/go/cache.go:126-129 | for a host without `@`, the URL contains `@` exactly when the password is non-empty |
| CacheSettings.HostPortReadsBack | shared-config/loaders/go/cache.go:133-135 | the text before an address's last `:` is the host and the text after it parses as the port, even when the host has colons |
| CacheSettings.RedisAddress | shared-config/loaders/go/cache.go:133-135 | the host and the port read back from the address |
| CacheSettings.DialTimeout | shared-config/loaders/go/cache.go:156-161 | 5 s when the setting is zero or less, else the setting |
| CacheSettings.ReadTimeout | shared-config/loaders/go/cache.go:164-169 | 3 s when the setting is zero or less, else the setting |
| CacheSettings.WriteTimeout | shared-config/loaders/go/cache.go:172-177 | 3 s when the setting is zero or less, else the setting |
| CacheSettings.IdleTimeout | shared-config/loaders/go/cache.go:180-185 | 240 s when the setting is zero or less, else the setting |
| CacheSettings.PoolTimeoutsPositive | shared-config/loaders/go/cache.go:156-185 | no pool timeout is ever zero |
| CacheSettings.BrokerListAsWritten | shared-config/loaders/go/cache.go:188-193 | `localhost:9092` for no brokers, else a bracketed string two characters longer than the comma join |
| CacheSettings.BrokerListDefaultOnlyWhenEmpty | shared-config/loaders/go/cache.go:188-193 | the default comes back exactly when no broker is configured |
| CacheSettings.BrokerListAsWrittenIsNotCommaSeparated | shared-config/loaders/go/cache.go:192 | a worked example: two brokers `a`, `b` come back as `[a b]`, which a comma split cannot take apart |
| CacheSettings.BrokerListAsWrittenNeverSplitsBack | shared-config/loaders/go/cache.go:187-193 | for every non-empty broker list, splitting the written form on commas never gives the brokers back |
| CacheSettings.BrokerList | shared-config/loaders/go/cache.go:187-193 | the corrected list: `localhost:9092` for no brokers, else the brokers joined with commas |
| CacheSettings.BrokerListRoundTrip | shared-config/loaders/go/cache.go:187-193 | splitting the corrected list on commas gives the brokers back |
| CacheSettings.TopicName | shared-config/loaders/go/cache.go:196-213 | the six event types pick their topics, anything else the system topic; the answer is always a configured topic |
| CacheSettings.ConsumerGroup | shared-config/loaders/go/cache.go:216-231 | the five services pick their groups, any other service `<service>-group` |
| CacheSettings.GeneratedGroupsDistinct | shared-config/loaders/go/cache.go:228-229 | distinct unnamed services never share a generated group |
| CacheSettings.QdrantHttpUrl | shared-config/loaders/go/cache.go:234-236 | the URL starts `http://`, the text before its last `:` is `http://<host>`, and its port reads back as the HTTP port |
| CacheSettings.QdrantGrpcAddress | shared-config/loaders/go/cache.go:239-241 | the host and the gRPC port read back from the address |
| CacheSettings.QdrantEndpointsShareHost | shared-config/loaders/go/cache.go:233-241 | the HTTP URL is the gRPC address behind `http://` exactly when the two ports are equal |
| CacheSettings.CollectionName | shared-config/loaders/go/cache.go:244-257 | the named purposes pick their collections, anything else the documents collection; the answer is always a configured collection |
| CacheSettings.KnowledgeAliases | shared-config/loaders/go/cache.go:252-253 | "knowledge" and "knowledge_base" name the same collection |
| CacheSettings.EsUrl | shared-config/loaders/go/cache.go:260-262 | the URL starts with `<scheme>://`, the text before its last `:` is `<scheme>://<host>`, and its port reads back |
| CacheSettings.IndexName | shared-config/loaders/go/cache.go:265-280 | the five purposes pick their indices, anything else `erp_<purpose>` |
| CacheSettings.GeneratedIndexNamesPrefixPurpose | shared-config/loaders/go/cache.go:277-278 | a generated index name gives its purpose back after `erp_` |
| CacheSettings.EsTimeout | shared-config/loaders/go/cache.go:283-288 | 30 s when the setting is zero or less, else the setting; never zero |
| DatabaseSettings.PostgresDatabaseName | shared-config/loaders/go/database.go:78-97 | the seven modules pick their databases, anything else the auth database; the answer is always a configured name |
| DatabaseSettings.PostgresConnectionString | shared-config/loaders/go/database.go:64-68 | the URL starts `postgresql://` and ends `?sslmode=<mode>` |
| DatabaseSettings.PostgresDsn | shared-config/loaders/go/database.go:71-75 | the DSN starts `host=` and ends ` sslmode=<mode>` |
| DatabaseSettings.ReadUrlOf | shared-config/loaders/go/database.go:66-67 | a URL `<scheme>://user:password@host:port/database?options` reads back as exactly those six fields when none of them holds `@`, `:`, `/` or `?` |
| DatabaseSettings.ReadDsnOf | shared-config/loaders/go/database.go:73-74 | a DSN `host=… port=… user=… password=… dbname=… <options>` reads back as exactly those six fields when none of them holds a space |
| DatabaseSettings.PostgresUrlReadsBack | shared-config/loaders/go/database.go:64-68 | the URL reads back as the configured user, password, host and port, the module's database and `sslmode=<mode>` |
| DatabaseSettings.PostgresDsnFields | shared-config/loaders/go/database.go:71-75 | the DSN splits at its spaces into `host=`, `port=`, `user=`, `password=`, `dbname=` and `sslmode=` fields carrying the configured values and the module's database, in that order |
| DatabaseSettings.PostgresUrlAndDsnCarrySameFields | shared-config/loaders/go/database.go:64-75 | the URL and the DSN of a module carry the same user, password, host, port, database and SSL mode |
| DatabaseSettings.UrlAndDsnAgree | shared-config/loaders/go/database.go:64-97 | two modules get the same URL exactly when they resolve to the same database name, and exactly then the same DSN |
| DatabaseSettings.UnknownModuleUsesAuth | shared-config/loaders/go/database.go:94-95 | an unknown module gets the auth database's URL and DSN |
| DatabaseSettings.MaxOpenConnections | shared-config/loaders/go/database.go:128-133 | 25 when the setting is zero or less, else the setting |
| DatabaseSettings.MaxIdleConnections | shared-config/loaders/go/database.go:136-141 | 5 when the setting is zero or less, else the setting |
| DatabaseSettings.ConnectionMaxLifetime | shared-config/loaders/go/database.go:144-149 | 300 s when the setting is zero or less, else the setting |
| DatabaseSettings.ConnectionMaxIdleTime | shared-config/loaders/go/database.go:152-157 | 60 s when the setting is zero or less, else the setting |
| DatabaseSettings.PoolGettersPositive | shared-config/loaders/go/database.go:128-157 | every PostgreSQL pool getter is positive |
| DatabaseSettings.MongoDatabaseName | shared-config/loaders/go/database.go:112-125 | "ai" and "audit" are aliases of the full names, anything unknown gives analytics; the answer is always a configured name |
| DatabaseSettings.MongoConnectionString | shared-config/loaders/go/database.go:100-104 | the URI starts `mongodb://` and ends `?authSource=<source>` |
| DatabaseSettings.MongoUriReadsBack | shared-config/loaders/go/database.go:100-104 | the URI reads back as the configured user, password, host and port, the purpose's database and `authSource=<source>` |
| DatabaseSettings.MongoUri | shared-config/loaders/go/database.go:107-109 | `GetURI` is `GetConnectionString` for every database |
| DatabaseSettings.MongoAliasesAgree | shared-config/loaders/go/database.go:107-125 | the short and long spellings of a purpose give the same URI |
| DatabaseSettings.MaxPoolSize | shared-config/loaders/go/database.go:160-165 | 10 when the setting is zero or less, else the setting |
| DatabaseSettings.MinPoolSize | shared-config/loaders/go/database.go:168-173 | 1 when the setting is zero or less, else the setting |
| DatabaseSettings.MaxIdleTime | shared-config/loaders/go/database.go:176-181 | 60 s when the setting is zero or less, else the setting |
| DatabaseSettings.ServerSelectionTimeout | shared-config/loaders/go/database.go:184-189 | 30 s when the setting is zero or less, else the setting |
| DatabaseSettings.PoolBoundsNotReconciled | shared-config/loaders/go/database.go:160-173 | a configured minimum above the default maximum is returned as it is, above the maximum |
| Settings.OverrideBrokers | shared-config/loaders/go/config.go:188-190 | the comma split of `KAFKA_BROKERS` when it is non-empty, else the configured brokers |
| Settings.OverrideWithEnvVars | shared-config/loaders/go/config.go:165-201 | the fields no variable touches are unchanged: the available environments, the PostgreSQL connection limit, connect timeout, databases and pool, the MongoDB auth source, databases and options, the Redis databases and pool, and the Kafka topics and consumer groups |
| Settings.OverrideSetsEachVariable | shared-config/loaders/go/config.go:168-198 | for each of the 14 text variables, the field takes the variable's value when it is non-empty and is kept otherwise; for each of the 5 number variables, the field takes the `strconv.Atoi` value when the variable is non-empty and parses, and is kept otherwise; `KAFKA_BROKERS` replaces the broker list with its comma split only when non-empty |
| Settings.UnsetVariablesChangeNothing | shared-config/loaders/go/config.go:165-201 | with none of the 20 variables set to something non-empty, the configuration is unchanged |
| Settings.UnsetVariableKeepsField | shared-config/loaders/go/config.go:165-201 | each of the 20 variables, when unset or empty, leaves its own field alone whatever the others hold |
| Settings.BrokersFromEnvNonEmpty | shared-config/loaders/go/config.go:188-190 | a set `KAFKA_BROKERS` gives at least one broker, and joining them with commas gives the variable back |
| Settings.OverrideIdempotent | shared-config/loaders/go/config.go:165-201 | applying the overrides twice is the same as once |
| Settings.IsProduction | shared-config/loaders/go/config.go:249-251 | a production configuration is never a development one |
| Settings.EnvironmentTestsAreExact | shared-config/loaders/go/config.go:249-256 | `production` and `development` make their own test true, any other environment (the empty one included) makes both false, and without `ERP_ENVIRONMENT` both answers come from the file |
| Settings.IsDevelopment | shared-config/loaders/go/config.go:254-256 | a development configuration is never a production one |
| Settings.EnvironmentTestsExclusive | shared-config/loaders/go/config.go:249-256 | production and development are never both true; `ERP_ENVIRONMENT=production` makes it production and not development, `ERP_ENVIRONMENT=development` makes it development and not production, and any other non-empty value makes the matching test false |
| Settings.ServiceName | shared-config/loaders/go/config.go:239-241 | `SERVICE_NAME` when it is non-empty, else "erp-service"; never empty |
| Settings.ServiceVersion | shared-config/loaders/go/config.go:244-246 | `SERVICE_VERSION` when it is non-empty, else "1.0.0"; never empty |

## Left out

- Real timers, gRPC transport, proto loading, Consul, ioredis and the DataLoader scheduler. Time, invocation outcomes, the discovery answer, stub construction, the Redis snapshot and the backend reply are all inputs.
- Cache TTL expiry: a snapshot never changes on its own.
- The background cache writes are outputs only. Whether they succeed cannot change the results, because the model has no path back from them.
- The proto-descriptor lookup in `createClient` (`grpc-clients.js:95-114`) is one input, `stubBuilt`: whether any step of building the stub threw.
- `Math.random()` in `getServiceAddress` is an arbitrary natural `pick`, reduced modulo the number of instances.
- `startHealthChecking`, `shutdown` and the `prime` helper (`dataloaders.js:338-346`) are left out: they are I/O only.
- The eighteen `createBatchLoader` instances (`dataloaders.js:92-117`) are not spelled out one by one. `BatchLoader.BatchLoad` takes the service, method and key field as parameters.
- Glob `?`, `[...]` and backslash escapes are not interpreted. None of the three patterns uses them unless the entity type or id does.
- Resilience.Retry: the outcome sequence must cover the three invocations that may happen. This stands in for the backend answering every invocation, so a call whose callback never fires is not modelled.
- Resilience.Retry: the breaker is private to one call. In the source, every call to a service shares `this.circuitBreakers[serviceName]`, and other calls can change it during the 2 s and 4 s pauses, so the count after a call can differ from the `failures + n` stated here. The interleaved case is covered only by the invariant of Breaker.RunPreservesValid.
- Resilience.Call: a response of `null` or `undefined` from the backend is treated like any other response.
- BatchLoader.CacheTtl: takes the result of `parseInt` (a number or `NaN`) as its input. The lexical rules of `parseInt` are not modelled.
- Record fields are strings, and keys are compared as strings. A backend returning numeric ids, which the JavaScript `Map` would not match against string keys, is not modelled.
- employeeLoader.load inside `employeeManagerLoader` is a function parameter that never rejects. The generic batch function answers every key and never throws, so the loader's `catch` branch (`dataloaders.js:210-212`) is unreachable in the model.
- Dispatch.Dispatch abstracts DataLoader: de-duplication by key string, chunking by `maxBatchSize`, and rejection of a batch whose answer has the wrong length. Ticks, the memo across dispatches and `prime` are not modelled.
- CacheSettings.DialTimeout, CacheSettings.ReadTimeout, CacheSettings.WriteTimeout, CacheSettings.IdleTimeout and CacheSettings.EsTimeout return whole seconds. Go's `time.Duration` nanosecond overflow for huge settings is not modelled.
- DatabaseSettings.ConnectionMaxLifetime, DatabaseSettings.ConnectionMaxIdleTime, DatabaseSettings.MaxIdleTime and DatabaseSettings.ServerSelectionTimeout return whole seconds, with the same nanosecond overflow left out.
- DatabaseSettings.MaxPoolSize and DatabaseSettings.MinPoolSize return the setting as a natural number. The `uint64` conversion cannot wrap here, because only positive settings are converted.
- config.go's `Load`, `LoadFromPath` and `GetConfigPath` are left out: they read files and change the working directory.
- `getEnvAsBool` and `getEnvAsDuration` are left out: they wrap standard-library parsers and no modelled helper uses them.
- The configuration blocks no modelled helper reads are left out: Kafka producer and consumer tuning, security other than JWT, health checks, features and the rest. `Settings.Config` holds only what `overrideWithEnvVars` writes and what the modelled helpers read.
- DatabaseSettings.PostgresUrlReadsBack, DatabaseSettings.MongoUriReadsBack and DatabaseSettings.PostgresUrlAndDsnCarrySameFields require the fields to be free of `@`, `:`, `/` and `?`, and DatabaseSettings.PostgresDsnFields requires them to be free of spaces. A field holding such a character makes the string ambiguous, because `fmt.Sprintf` does not escape it. The port must be in the 64-bit range.
- Glob.Match: only the lone-`*` case is stated on the function. What the three eviction patterns match is stated by the Store lemmas.
- JSON encoding and decoding are the identity on `Value`. Text that fails to parse is the `Garbled` stored value.

## Findings

| source | as written | input that shows it | evidently intended | confidence | as-written member | corrected member |
|---|---|---|---|---|---|---|
| shared-config/loaders/go/cache.go:187-193 | `GetBrokerList` formats the slice with `%v`, which prints `[a b]`: brackets, with spaces between the brokers | brokers `["a", "b"]` give `[a b]`, and splitting that on commas gives the single piece `[a b]` | a comma-separated list `a,b`, as the doc comment says and as `KAFKA_BROKERS` is read | high; not executed | CacheSettings.BrokerListAsWrittenNeverSplitsBack | CacheSettings.BrokerListRoundTrip |
