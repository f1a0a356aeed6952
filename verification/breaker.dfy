/** The per-service circuit breaker of the gRPC client wrapper
    (graphql-gateway/src/grpc-clients.js): a record with three pure transitions.
    Time is an integer number of milliseconds supplied by the caller. */
module Breaker {
  import opened Base

  datatype State = Closed | Open | HalfOpen

  datatype CircuitBreaker = CircuitBreaker(
    failures: nat,
    lastFailureTime: Option<int>,
    state: State,
    threshold: nat,
    timeout: int)

  /** Consecutive failures that open the breaker. */
  const Threshold: nat := 5
  /** Cool-down after the last failure before a trial call, in milliseconds. */
  const CoolDownMs: int := 60000

  /** The breaker every wrapped client starts with. */
  function NewBreaker(): (b: CircuitBreaker)
    ensures b.state == Closed && b.failures == 0 && b.lastFailureTime == None
    ensures b.threshold == 5 && b.timeout == 60000
  {
    CircuitBreaker(0, None, Closed, Threshold, CoolDownMs)
  }

  /** `Date.now() - lastFailureTime`: JavaScript turns a `null` timestamp into 0. */
  function ElapsedSinceFailure(b: CircuitBreaker, now: int): int {
    now - b.lastFailureTime.GetOr(0)
  }

  /** What the entry check decides: refuse the call, or let it through with
      the (possibly updated) breaker. */
  datatype Gate = Refuse | Admit(breaker: CircuitBreaker)

  /** The check made once when a wrapped method is called. Only OPEN is gated;
      once the cool-down has elapsed the breaker optimistically turns HALF_OPEN. */
  function CheckGate(b: CircuitBreaker, now: int): (g: Gate)
    ensures g.Refuse? <==> b.state == Open && ElapsedSinceFailure(b, now) < b.timeout
    ensures g.Admit? && b.state != Open ==> g.breaker == b
    ensures g.Admit? && b.state == Open ==> g.breaker == b.(state := HalfOpen)
  {
    if b.state == Open then
      if ElapsedSinceFailure(b, now) < b.timeout then Refuse else Admit(b.(state := HalfOpen))
    else Admit(b)
  }

  /** Bookkeeping after a failed attempt that completed at time `now`. */
  function OnFailure(b: CircuitBreaker, now: int): (b': CircuitBreaker)
    ensures b'.failures == b.failures + 1
    ensures b'.lastFailureTime == Some(now)
    ensures b'.failures >= b.threshold ==> b'.state == Open
    ensures b'.failures < b.threshold ==> b'.state == b.state
    ensures b'.threshold == b.threshold && b'.timeout == b.timeout
  {
    var counted := b.(failures := b.failures + 1, lastFailureTime := Some(now));
    if counted.failures >= counted.threshold then counted.(state := Open) else counted
  }

  /** Bookkeeping after a successful attempt; the timestamp is left as it was. */
  function OnSuccess(b: CircuitBreaker): (b': CircuitBreaker)
    ensures b'.failures == 0 && b'.state == Closed
    ensures b'.lastFailureTime == b.lastFailureTime
    ensures b'.threshold == b.threshold && b'.timeout == b.timeout
  {
    b.(failures := 0, state := Closed)
  }

  /** The invariant every breaker reachable from `NewBreaker` keeps: it is CLOSED
      exactly while fewer than `threshold` failures are counted, and a breaker
      that is not CLOSED has a recorded failure time. */
  predicate Valid(b: CircuitBreaker) {
    && b.threshold == Threshold
    && b.timeout == CoolDownMs
    && (b.state == Closed <==> b.failures < b.threshold)
    && (b.state != Closed ==> b.lastFailureTime.Some?)
  }

  /** One step a breaker can take; concurrent calls interleave these steps. */
  datatype Event = Entry(now: int) | Failure(now: int) | Success

  /** One step: an entry check, a counted failure, or a success. */
  function Step(b: CircuitBreaker, e: Event): (b': CircuitBreaker)
    ensures b'.threshold == b.threshold && b'.timeout == b.timeout
    ensures e.Entry? ==> b'.failures == b.failures && b'.lastFailureTime == b.lastFailureTime
    ensures e.Failure? ==> b'.failures == b.failures + 1
    ensures e.Success? ==> b'.state == Closed && b'.failures == 0
  {
    match e
    case Entry(now) => (match CheckGate(b, now) case Refuse => b case Admit(b') => b')
    case Failure(now) => OnFailure(b, now)
    case Success => OnSuccess(b)
  }

  /** The breaker after a sequence of steps; whatever came before, a run
      that ends in a success leaves it CLOSED and clear. */
  function Run(b: CircuitBreaker, events: seq<Event>): (b': CircuitBreaker)
    ensures b'.threshold == b.threshold && b'.timeout == b.timeout
    ensures |events| > 0 && events[|events| - 1] == Success ==> b'.state == Closed && b'.failures == 0
    decreases |events|
  {
    if |events| == 0 then b else Run(Step(b, events[0]), events[1..])
  }

  lemma StepPreservesValid(b: CircuitBreaker, e: Event)
    requires Valid(b)
    ensures Valid(Step(b, e))
  {
  }

  /** Whatever interleaving of entries, failures and successes the calls
      produce, the breaker stays `Valid`. */
  lemma {:induction false} RunPreservesValid(b: CircuitBreaker, events: seq<Event>)
    requires Valid(b)
    ensures Valid(Run(b, events))
    decreases |events|
  {
    if |events| > 0 {
      StepPreservesValid(b, events[0]);
      RunPreservesValid(Step(b, events[0]), events[1..]);
    }
  }

  lemma ReachableBreakersAreValid(events: seq<Event>)
    ensures Valid(Run(NewBreaker(), events))
  {
    RunPreservesValid(NewBreaker(), events);
  }

  /** HALF_OPEN keeps the failure count of the OPEN state it came from, so a
      single failed trial call re-opens the breaker. */
  lemma FailedTrialReopens(b: CircuitBreaker, now: int)
    requires Valid(b) && b.state == HalfOpen
    ensures OnFailure(b, now).state == Open
    ensures OnFailure(b, now).lastFailureTime == Some(now)
  {
  }

  /** A valid CLOSED breaker opens on exactly the failure that brings the
      count to the threshold; it never skips OPEN. */
  lemma ClosedOpensAtThreshold(b: CircuitBreaker, now: int)
    requires Valid(b) && b.state == Closed
    ensures OnFailure(b, now).state == Open <==> b.failures + 1 == Threshold
  {
  }

  /** The events of a run of failed attempts completing at the given times. */
  function Failures(times: seq<int>): (evs: seq<Event>)
    ensures |evs| == |times|
    ensures forall k :: 0 <= k < |times| ==> evs[k] == Failure(times[k])
  {
    seq(|times|, k requires 0 <= k < |times| => Failure(times[k]))
  }

  /** A run of failures adds one to the count per failure, stamps the last
      completion time, and leaves the breaker OPEN once the count reaches the
      threshold. */
  lemma {:induction false} RunOfFailures(b: CircuitBreaker, times: seq<int>)
    requires |times| > 0
    ensures Run(b, Failures(times)).failures == b.failures + |times|
    ensures Run(b, Failures(times)).lastFailureTime == Some(times[|times| - 1])
    ensures Run(b, Failures(times)).threshold == b.threshold
    ensures Run(b, Failures(times)).timeout == b.timeout
    ensures b.failures + |times| >= b.threshold ==> Run(b, Failures(times)).state == Open
    decreases |times|
  {
    var evs := Failures(times);
    assert Run(b, evs) == Run(OnFailure(b, times[0]), evs[1..]);
    if |times| > 1 {
      assert evs[1..] == Failures(times[1..]);
      RunOfFailures(OnFailure(b, times[0]), times[1..]);
    } else {
      assert evs[1..] == [];
    }
  }

  /** After `Threshold` failures from a fresh breaker, an entry within the
      cool-down of the last failure is refused, and one after it is admitted
      as a HALF_OPEN trial. */
  lemma ThresholdFailuresGateNextCall(times: seq<int>, now: int)
    requires |times| == Threshold
    ensures Run(NewBreaker(), Failures(times)).state == Open
    ensures now - times[|times| - 1] < CoolDownMs ==> CheckGate(Run(NewBreaker(), Failures(times)), now).Refuse?
    ensures now - times[|times| - 1] >= CoolDownMs ==>
      CheckGate(Run(NewBreaker(), Failures(times)), now) == Admit(Run(NewBreaker(), Failures(times)).(state := HalfOpen))
  {
    RunOfFailures(NewBreaker(), times);
  }
}
