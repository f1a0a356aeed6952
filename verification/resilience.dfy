/** The resilient gRPC client layer of graphql-gateway/src/grpc-clients.js:
    the service table, address resolution with discovery fallback, client
    construction with a fallback client, and the per-call wrapper that gates on
    the circuit breaker, then invokes the method up to three times with
    exponential backoff under one shared deadline.

    The network is replaced by inputs: the discovery answer, whether the stub
    could be built, and the sequence of outcomes the successive invocations of
    a method would produce. */
module Resilience {
  import opened Base
  import opened Text
  import opened Env
  import opened Breaker

  // ---------------------------------------------------------------- errors

  /** gRPC status codes the wrapper looks at (numeric values of `grpc.status`). */
  const DeadlineExceeded: int := 4
  const ResourceExhausted: int := 8
  const Unavailable: int := 14

  /** A JavaScript `Error`; backend errors carry a gRPC status `code`, the
      wrapper's own errors carry none. */
  datatype CallError = CallError(code: Option<int>, message: string)

  /** `isRetryableError`: UNAVAILABLE, DEADLINE_EXCEEDED or RESOURCE_EXHAUSTED. */
  function IsRetryable(e: CallError): (retryable: bool)
    ensures retryable ==> e.code.Some?
    ensures e.code.Some? ==> (retryable <==> e.code.value in {14, 4, 8})
  {
    e.code == Some(Unavailable) || e.code == Some(DeadlineExceeded) || e.code == Some(ResourceExhausted)
  }

  function CircuitOpenError(service: string): (e: CallError)
    ensures !IsRetryable(e)
  {
    CallError(None, "Circuit breaker OPEN for " + service)
  }

  function UnavailableError(service: string): (e: CallError)
    ensures !IsRetryable(e)
  {
    CallError(None, service + " service unavailable")
  }

  // ------------------------------------------------------- retry and gating

  const MaxAttempts: nat := 3
  const CallDeadlineMs: int := 10000

  function Pow2(n: nat): (p: nat)
    ensures p >= 1
  {
    if n == 0 then 1 else 2 * Pow2(n - 1)
  }

  /** `Math.pow(2, attempt) * 1000`: the pause after failed attempt `attempt`. */
  function BackoffMs(attempt: nat): (ms: nat)
    ensures ms >= 1000 && ms % 1000 == 0
    ensures attempt == 1 ==> ms == 2000
    ensures attempt == 2 ==> ms == 4000
  {
    Pow2(attempt) * 1000
  }

  /** What one invocation of the underlying method produces: a response, or an
      error delivered at time `at`. */
  datatype Outcome<R> = Responded(response: R) | Errored(error: CallError, at: int)

  /** One invocation of the underlying method: when it was started and the
      deadline it was handed. */
  datatype Invocation = Invocation(start: int, deadline: int)

  /** What the wrapped method's callback receives. */
  datatype Reply<R> = Ok(response: R) | Err(error: CallError)

  datatype CallRun<R> = CallRun(breaker: CircuitBreaker, reply: Reply<R>, invocations: seq<Invocation>)

  /** `callWithRetry(attempt)`: invoke, record the outcome in the breaker, and
      retry a retryable error while `attempt < 3`. The breaker is not consulted
      again between attempts, and every attempt carries the same `deadline`.
      `outcomes[k]` is what the (attempt + k)-th invocation produces. */
  function Retry<R>(b: CircuitBreaker, outcomes: seq<Outcome<R>>, attempt: nat, start: int, deadline: int): (run: CallRun<R>)
    requires 1 <= attempt <= MaxAttempts
    requires |outcomes| >= MaxAttempts - attempt + 1
    ensures 1 <= |run.invocations| <= MaxAttempts - attempt + 1
    ensures run.invocations[0].start == start
    ensures forall k :: 0 <= k < |run.invocations| ==> run.invocations[k].deadline == deadline
    // every invocation but the last failed retryably, and the next one started after the backoff
    ensures forall k :: 0 <= k < |run.invocations| - 1 ==>
      && outcomes[k].Errored? && IsRetryable(outcomes[k].error)
      && run.invocations[k + 1].start == outcomes[k].at + BackoffMs(attempt + k)
    // the last invocation decides the reply
    ensures var n := |run.invocations|;
      match outcomes[n - 1]
      case Responded(r) =>
        run.reply == Ok(r) && run.breaker.failures == 0 && run.breaker.state == Closed
      case Errored(e, t) =>
        && run.reply == Err(e)
        && (!IsRetryable(e) || attempt + n - 1 == MaxAttempts)
        && run.breaker.failures == b.failures + n
        && run.breaker.lastFailureTime == Some(t)
        && (run.breaker.failures >= b.threshold ==> run.breaker.state == Open)
        && (run.breaker.failures < b.threshold ==> run.breaker.state == b.state)
    ensures run.breaker.threshold == b.threshold && run.breaker.timeout == b.timeout
    decreases MaxAttempts - attempt
  {
    match outcomes[0]
    case Responded(r) => CallRun(OnSuccess(b), Ok(r), [Invocation(start, deadline)])
    case Errored(e, t) =>
      var failed := OnFailure(b, t);
      if attempt < MaxAttempts && IsRetryable(e) then
        var rest := Retry(failed, outcomes[1..], attempt + 1, t + BackoffMs(attempt), deadline);
        CallRun(rest.breaker, rest.reply, [Invocation(start, deadline)] + rest.invocations)
      else
        CallRun(failed, Err(e), [Invocation(start, deadline)])
  }

  /** The wrapped method called at time `now` (`wrapMethodWithResilience`): the
      breaker is checked once at entry, then the retry loop runs with the
      deadline `now + 10000`. */
  function Call<R>(b: CircuitBreaker, service: string, now: int, outcomes: seq<Outcome<R>>): (run: CallRun<R>)
    requires |outcomes| >= MaxAttempts
    ensures CheckGate(b, now).Refuse? ==> run == CallRun(b, Err(CircuitOpenError(service)), [])
    ensures CheckGate(b, now).Admit? ==>
      && 1 <= |run.invocations| <= MaxAttempts
      && run.invocations[0].start == now
      && (forall k :: 0 <= k < |run.invocations| ==> run.invocations[k].deadline == now + CallDeadlineMs)
  {
    match CheckGate(b, now)
    case Refuse => CallRun(b, Err(CircuitOpenError(service)), [])
    case Admit(admitted) => Retry(admitted, outcomes, 1, now, now + CallDeadlineMs)
  }

  /** An OPEN breaker inside its cool-down refuses the call: the method is never
      invoked and the breaker is left as it was. */
  lemma OpenBreakerNeverInvokes<R>(b: CircuitBreaker, service: string, now: int, outcomes: seq<Outcome<R>>)
    requires |outcomes| >= MaxAttempts
    requires b.state == Open && ElapsedSinceFailure(b, now) < b.timeout
    ensures Call(b, service, now, outcomes).invocations == []
    ensures Call(b, service, now, outcomes).reply == Err(CallError(None, "Circuit breaker OPEN for " + service))
    ensures Call(b, service, now, outcomes).breaker == b
  {
  }

  /** CLOSED and HALF_OPEN breakers never gate: the method is invoked at least once. */
  lemma OnlyOpenIsGated<R>(b: CircuitBreaker, service: string, now: int, outcomes: seq<Outcome<R>>)
    requires |outcomes| >= MaxAttempts
    requires b.state != Open
    ensures |Call(b, service, now, outcomes).invocations| >= 1
  {
  }

  /** A non-retryable error on the first invocation is surfaced after exactly
      one invocation. */
  lemma NonRetryableInvokedOnce<R>(b: CircuitBreaker, service: string, now: int, outcomes: seq<Outcome<R>>)
    requires |outcomes| >= MaxAttempts
    requires CheckGate(b, now).Admit?
    requires outcomes[0].Errored? && !IsRetryable(outcomes[0].error)
    ensures |Call(b, service, now, outcomes).invocations| == 1
    ensures Call(b, service, now, outcomes).reply == Err(outcomes[0].error)
  {
  }

  /** A persistently failing retryable call is invoked exactly three times,
      with pauses of 2 s and 4 s, and the third error is surfaced. */
  lemma PersistentFailureInvokedThreeTimes<R>(b: CircuitBreaker, service: string, now: int, outcomes: seq<Outcome<R>>)
    requires |outcomes| >= MaxAttempts
    requires CheckGate(b, now).Admit?
    requires forall k :: 0 <= k < MaxAttempts ==> outcomes[k].Errored? && IsRetryable(outcomes[k].error)
    ensures var run := Call(b, service, now, outcomes);
      && |run.invocations| == 3
      && run.invocations[1].start == outcomes[0].at + 2000
      && run.invocations[2].start == outcomes[1].at + 4000
      && run.reply == Err(outcomes[2].error)
      && run.breaker.failures == b.failures + 3
  {
    var run := Call(b, service, now, outcomes);
    assert BackoffMs(1) == 2000 && BackoffMs(2) == 4000;
  }

  /** A response on any invocation is passed through unchanged and resets the
      breaker to CLOSED with no failures. */
  lemma ResponsePassesThrough<R>(b: CircuitBreaker, service: string, now: int, outcomes: seq<Outcome<R>>, r: R)
    requires |outcomes| >= MaxAttempts
    requires CheckGate(b, now).Admit?
    requires Call(b, service, now, outcomes).reply == Ok(r)
    ensures exists k :: 0 <= k < MaxAttempts && outcomes[k] == Responded(r)
    ensures Call(b, service, now, outcomes).breaker.failures == 0
    ensures Call(b, service, now, outcomes).breaker.state == Closed
  {
    var run := Call(b, service, now, outcomes);
    var n := |run.invocations|;
    assert outcomes[n - 1] == Responded(r);
  }

  /** Retries do not re-check the breaker: a first failure that opens the
      breaker is still followed by a second invocation when it is retryable. */
  lemma RetryIgnoresOpenedBreaker<R>(b: CircuitBreaker, service: string, now: int, outcomes: seq<Outcome<R>>)
    requires |outcomes| >= MaxAttempts
    requires Valid(b) && b.state == Closed && b.failures == Threshold - 1
    requires outcomes[0].Errored? && IsRetryable(outcomes[0].error)
    ensures OnFailure(b, outcomes[0].at).state == Open
    ensures |Call(b, service, now, outcomes).invocations| >= 2
    ensures Call(b, service, now, outcomes).reply.Err? ==> Call(b, service, now, outcomes).breaker.state == Open
  {
  }

  /** After an admitted call that ends in an error, every invocation has been
      counted, and the breaker is OPEN exactly when the count reached the
      threshold: a failed HALF_OPEN trial re-opens it, and a CLOSED breaker
      stays CLOSED while the count is below the threshold. */
  lemma FailedCallBreakerState<R>(b: CircuitBreaker, service: string, now: int, outcomes: seq<Outcome<R>>)
    requires |outcomes| >= MaxAttempts
    requires Valid(b) && CheckGate(b, now).Admit?
    requires Call(b, service, now, outcomes).reply.Err?
    ensures Call(b, service, now, outcomes).breaker.failures == b.failures + |Call(b, service, now, outcomes).invocations|
    ensures b.state != Closed ==> Call(b, service, now, outcomes).breaker.state == Open
    ensures b.state == Closed ==>
      (Call(b, service, now, outcomes).breaker.state == Open <==>
       b.failures + |Call(b, service, now, outcomes).invocations| >= Threshold)
    ensures b.state == Closed && b.failures + |Call(b, service, now, outcomes).invocations| < Threshold ==>
      Call(b, service, now, outcomes).breaker.state == Closed
  {
    var admitted := CheckGate(b, now).breaker;
    var run := Retry(admitted, outcomes, 1, now, now + CallDeadlineMs);
    assert outcomes[|run.invocations| - 1].Errored?;
  }

  /** The deadline is computed once, so the backoff pauses eat into it: when
      each error arrives no earlier than its invocation started, the third
      invocation has at most 4 s of the original 10 s left. */
  lemma ThirdAttemptBudget<R>(b: CircuitBreaker, service: string, now: int, outcomes: seq<Outcome<R>>)
    requires |outcomes| >= MaxAttempts
    requires CheckGate(b, now).Admit?
    requires forall k :: 0 <= k < MaxAttempts ==> outcomes[k].Errored? && IsRetryable(outcomes[k].error)
    requires outcomes[0].at >= now && outcomes[1].at >= outcomes[0].at + BackoffMs(1)
    ensures var run := Call(b, service, now, outcomes);
      |run.invocations| == 3 && run.invocations[2].deadline - run.invocations[2].start <= 4000
  {
    PersistentFailureInvokedThreeTimes(b, service, now, outcomes);
  }

  // --------------------------------------------------- service table & setup

  /** One entry of `SERVICES`. */
  datatype ServiceConfig = ServiceConfig(name: string, packageName: string, serviceName: string, defaultAddress: string)

  /** The six backend services, each default address overridable through the
      environment (an empty variable keeps the built-in address). */
  function Services(env: Environment): (cs: seq<ServiceConfig>)
    ensures |cs| == 6
    ensures forall k :: 0 <= k < |cs| ==> cs[k].defaultAddress != ""
    ensures forall i, j :: 0 <= i < j < |cs| ==> cs[i].name != cs[j].name
    ensures cs[0].name == "auth" && cs[0].defaultAddress == GetEnv(env, "GRPC_AUTH_SERVICE", "auth-service:50051")
    ensures cs[1].name == "crm" && cs[1].defaultAddress == GetEnv(env, "GRPC_CRM_SERVICE", "crm-service:50052")
    ensures cs[2].name == "hrm" && cs[2].defaultAddress == GetEnv(env, "GRPC_HRM_SERVICE", "hrm-service:50053")
    ensures cs[3].name == "finance" && cs[3].defaultAddress == GetEnv(env, "GRPC_FINANCE_SERVICE", "finance-service:50054")
    ensures cs[4].name == "inventory" && cs[4].defaultAddress == GetEnv(env, "GRPC_INVENTORY_SERVICE", "inventory-service:50055")
    ensures cs[5].name == "projects" && cs[5].defaultAddress == GetEnv(env, "GRPC_PROJECT_SERVICE", "project-service:50056")
  {
    [ ServiceConfig("auth", "auth", "AuthService", GetEnv(env, "GRPC_AUTH_SERVICE", "auth-service:50051")),
      ServiceConfig("crm", "crm", "CRMService", GetEnv(env, "GRPC_CRM_SERVICE", "crm-service:50052")),
      ServiceConfig("hrm", "hrm", "HRMService", GetEnv(env, "GRPC_HRM_SERVICE", "hrm-service:50053")),
      ServiceConfig("finance", "finance", "FinanceService", GetEnv(env, "GRPC_FINANCE_SERVICE", "finance-service:50054")),
      ServiceConfig("inventory", "inventory", "InventoryService", GetEnv(env, "GRPC_INVENTORY_SERVICE", "inventory-service:50055")),
      ServiceConfig("projects", "projects", "ProjectService", GetEnv(env, "GRPC_PROJECT_SERVICE", "project-service:50056")) ]
  }

  /** A healthy instance returned by discovery (`Service.Address`, `Service.Port`). */
  datatype Instance = Instance(address: string, port: int)

  /** How discovery went: an answer (possibly `null`) after `elapsedMs`, or a failure. */
  datatype Discovery = Resolved(elapsedMs: int, services: Option<seq<Instance>>) | DiscoveryFailed

  const DiscoveryTimeoutMs: int := 5000

  function InstanceAddress(i: Instance): string {
    i.address + ":" + IntToString(i.port)
  }

  /** Discovery is used only when it answers before the timeout with at least one instance. */
  predicate DiscoveryUsable(d: Discovery) {
    d.Resolved? && d.elapsedMs < DiscoveryTimeoutMs && d.services.Some? && |d.services.value| > 0
  }

  /** `getServiceAddress`: one of the discovered instances (picked by the random
      index `pick`, reduced into range), else the default address. */
  function ServiceAddress(d: Discovery, pick: nat, defaultAddress: string): (addr: string)
    ensures !DiscoveryUsable(d) ==> addr == defaultAddress
    ensures DiscoveryUsable(d) ==>
      exists k :: 0 <= k < |d.services.value| && addr == InstanceAddress(d.services.value[k])
  {
    if DiscoveryUsable(d) then
      var instances := d.services.value;
      assert 0 <= pick % |instances| < |instances|;
      InstanceAddress(instances[pick % |instances|])
    else defaultAddress
  }

  /** A client as installed in `this.clients`: the resilient wrapper around a
      stub at `address` with its own breaker, or the fallback. */
  datatype Client = Resilient(service: string, address: string, breaker: CircuitBreaker) | Fallback(service: string)

  /** Everything about the environment that decides how one client is set up:
      the discovery answer, the random pick, and whether loading the proto and
      constructing the stub succeeded. */
  datatype Setup = Setup(discovery: Discovery, pick: nat, stubBuilt: bool)

  /** `createClient`: a resilient client with a fresh breaker at the resolved
      address, or the fallback when anything in construction threw. */
  function CreateClient(config: ServiceConfig, setup: Setup): (c: Client)
    ensures c.service == config.name
    ensures setup.stubBuilt ==>
      c == Resilient(config.name, ServiceAddress(setup.discovery, setup.pick, config.defaultAddress), NewBreaker())
    ensures !setup.stubBuilt ==> c == Fallback(config.name)
  {
    if setup.stubBuilt then
      Resilient(config.name, ServiceAddress(setup.discovery, setup.pick, config.defaultAddress), NewBreaker())
    else Fallback(config.name)
  }

  /** No later entry of `configs` has the same name as entry `k`. */
  predicate LastOfName(configs: seq<ServiceConfig>, k: int) {
    0 <= k < |configs| && forall j :: k < j < |configs| ==> configs[j].name != configs[k].name
  }

  /** `initialize`: one client per configured service, keyed by service name. */
  function Initialize(configs: seq<ServiceConfig>, setup: string -> Setup): (clients: map<string, Client>)
    ensures clients.Keys == set k | 0 <= k < |configs| :: configs[k].name
    ensures forall name :: name in clients ==> clients[name].service == name
    decreases |configs|
  {
    if |configs| == 0 then map[]
    else
      var last := configs[|configs| - 1];
      var earlier := Initialize(configs[..|configs| - 1], setup);
      assert forall k :: 0 <= k < |configs| - 1 ==> configs[..|configs| - 1][k] == configs[k];
      earlier[last.name := CreateClient(last, setup(last.name))]
  }

  lemma LastOfNameInFront(configs: seq<ServiceConfig>, k: int)
    requires LastOfName(configs, k) && k < |configs| - 1
    ensures LastOfName(configs[..|configs| - 1], k)
    ensures configs[..|configs| - 1][k] == configs[k]
    ensures configs[|configs| - 1].name != configs[k].name
  {
    var front := configs[..|configs| - 1];
    assert forall j :: k < j < |front| ==> front[j] == configs[j];
  }

  /** The entry installed under a name is the client `createClient` built for
      the last configuration of that name: later entries overwrite earlier ones. */
  lemma {:induction false} InitializeBuildsLastOfName(configs: seq<ServiceConfig>, setup: string -> Setup, k: int)
    requires LastOfName(configs, k)
    ensures configs[k].name in Initialize(configs, setup)
    ensures Initialize(configs, setup)[configs[k].name] == CreateClient(configs[k], setup(configs[k].name))
    decreases |configs|
  {
    var n := |configs|;
    if k < n - 1 {
      LastOfNameInFront(configs, k);
      InitializeBuildsLastOfName(configs[..n - 1], setup, k);
    }
  }

  /** Setting up the six services installs, under each service's name, the
      client built from its own table entry. */
  lemma InitializeInstallsEveryService(env: Environment, setup: string -> Setup)
    ensures var cs := Services(env);
      forall k :: 0 <= k < |cs| ==>
        Initialize(cs, setup)[cs[k].name] == CreateClient(cs[k], setup(cs[k].name))
  {
    var cs := Services(env);
    forall k | 0 <= k < |cs|
      ensures Initialize(cs, setup)[cs[k].name] == CreateClient(cs[k], setup(cs[k].name))
    {
      InitializeBuildsLastOfName(cs, setup, k);
    }
  }

  /** Calling any method of an installed client. The fallback answers with
      "<service> service unavailable" without invoking anything; the resilient
      client runs `Call` and keeps the updated breaker. */
  function CallClient<R>(c: Client, now: int, outcomes: seq<Outcome<R>>): (result: (Client, Reply<R>, seq<Invocation>))
    requires |outcomes| >= MaxAttempts
    ensures result.0.service == c.service
    ensures c.Fallback? ==> result == (c, Err(UnavailableError(c.service)), [])
    ensures c.Resilient? ==> result.0.Resilient? && result.0.address == c.address
    ensures c.Resilient? ==> var run := Call(c.breaker, c.service, now, outcomes);
      result.0.breaker == run.breaker && result.1 == run.reply && result.2 == run.invocations
    ensures |result.2| <= MaxAttempts
  {
    match c
    case Fallback(service) => (c, Err(UnavailableError(service)), [])
    case Resilient(service, address, b) =>
      var run := Call(b, service, now, outcomes);
      (Resilient(service, address, run.breaker), run.reply, run.invocations)
  }

  /** A service whose stub could not be built answers every call, at any time
      and whatever the backend would have done, with the same non-retryable
      error and never invokes a method. */
  lemma FallbackFailsFast<R>(config: ServiceConfig, setup: Setup, now: int, outcomes: seq<Outcome<R>>)
    requires |outcomes| >= MaxAttempts
    requires !setup.stubBuilt
    ensures var (c, reply, invs) := CallClient(CreateClient(config, setup), now, outcomes);
      && c == Fallback(config.name)
      && reply == Err(CallError(None, config.name + " service unavailable"))
      && invs == []
  {
  }

  /** A freshly built resilient client admits its first call: it invokes the
      method at least once, and a first response is passed through with the
      breaker still CLOSED and clear. */
  lemma FreshClientInvokes<R>(config: ServiceConfig, setup: Setup, now: int, outcomes: seq<Outcome<R>>)
    requires |outcomes| >= MaxAttempts
    requires setup.stubBuilt
    ensures var (c, reply, invs) := CallClient(CreateClient(config, setup), now, outcomes);
      && 1 <= |invs| <= MaxAttempts
      && invs[0] == Invocation(now, now + CallDeadlineMs)
      && (outcomes[0].Responded? ==>
            reply == Ok(outcomes[0].response) && |invs| == 1 && c.breaker == NewBreaker())
  {
    assert CheckGate(NewBreaker(), now) == Admit(NewBreaker());
  }
}
