/**
 One backend's runtime state as a value, and every update the balancer makes to it as a function.
 The classes FlowStats and BackendState are proved against these functions; the run theorems of
 the balancer are about them.
 */
module BackendModel {
  import opened Common

  /** Counters of FlowStats. Averages over time-to-first-token are kept as an exact sum. */
  datatype Flow = Flow(
    windowSeconds: int,
    dispatched: int, completed: int,
    success: int, failure: int, timeout: int,
    sumTTFTMs: real,
    lastDispatched: Time, lastCompleted: Time, lastSuccess: Time)

  /** The derived figures that the load score and the overload test read. */
  datatype Snapshot = Snapshot(
    dispatched: int, completed: int, success: int, failure: int, timeout: int,
    stalled: int, successRate: real)

  datatype Backend = Backend(
    id: string, weight: int,
    healthy: bool, failures: int, lastHealthCheck: Time, lastSuccessAt: Time,
    rampingUp: bool, rampUpEnd: Time, unhealthySince: Time, recentFailureUntil: Time,
    metricsAvailable: bool, running: int, waiting: int, kvCachePct: real, lastMetricsUpdate: Time,
    inFlight: int, flow: Flow)

  function NewFlow(windowSeconds: int): Flow {
    Flow(windowSeconds, 0, 0, 0, 0, 0, 0.0, 0, 0, 0)
  }

  function NewBackend(id: string, weight: int, windowSeconds: int): Backend {
    Backend(id, weight, true, 0, 0, 0, false, 0, 0, 0, false, 0, 0, 0.0, 0, 0, NewFlow(windowSeconds))
  }

  // ---- Flow ------------------------------------------------------------------------------

  function Dispatched(f: Flow, now: Time): Flow {
    f.(dispatched := f.dispatched + 1, lastDispatched := now)
  }

  function Completed(f: Flow, success: bool, timedOut: bool, ttftMs: real, now: Time): Flow {
    var g := f.(completed := f.completed + 1, sumTTFTMs := f.sumTTFTMs + ttftMs, lastCompleted := now);
    if timedOut then g.(timeout := g.timeout + 1)
    else if success then g.(success := g.success + 1, lastSuccess := now)
    else g.(failure := g.failure + 1)
  }

  function Stats(f: Flow): Snapshot {
    Snapshot(f.dispatched, f.completed, f.success, f.failure, f.timeout,
             Max(0, f.dispatched - f.completed),
             if f.completed > 0 then f.success as real / f.completed as real else 1.0)
  }

  /** What the counters of a backend satisfy when requests are counted in before they are counted out. */
  ghost predicate Balanced(f: Flow) {
    && 0 <= f.success && 0 <= f.failure && 0 <= f.timeout
    && f.completed == f.success + f.failure + f.timeout
    && f.completed <= f.dispatched
  }

  // ---- Health ----------------------------------------------------------------------------

  const PROBE_GRACE: Time := 60 * SECOND
  const DEFAULT_COOLDOWN: int := 10
  const DEFAULT_THRESHOLD: int := 3

  predicate RampingNow(b: Backend, now: Time) {
    b.rampingUp && now <= b.rampUpEnd
  }

  predicate FailingNow(b: Backend, now: Time) {
    now < b.recentFailureUntil
  }

  function StartRamp(b: Backend, rampUpSeconds: int, now: Time): Backend {
    if rampUpSeconds > 0 then b.(rampingUp := true, rampUpEnd := now + rampUpSeconds * SECOND)
    else b.(rampingUp := false)
  }

  function MadeHealthy(b: Backend, rampUpSeconds: int, now: Time): Backend {
    StartRamp(b.(healthy := true, failures := 0, lastHealthCheck := now), rampUpSeconds, now)
  }

  /** Below the threshold a failing backend stays as it is; an unhealthy one keeps its timestamp. */
  function Demoted(b: Backend, threshold: int, now: Time): Backend {
    if b.failures >= threshold && b.healthy then b.(healthy := false, unhealthySince := now) else b
  }

  /** A probe failure overwrites the counter with the probe loop's own count. */
  function ProbeFailed(b: Backend, failures: int, threshold: int, now: Time): Backend {
    var limit := if threshold == 0 then DEFAULT_THRESHOLD else threshold;
    Demoted(b.(failures := failures), limit, now).(lastHealthCheck := now)
  }

  function DispatchFailed(b: Backend, cooldownSeconds: int, now: Time): Backend {
    var cooldown := if cooldownSeconds <= 0 then DEFAULT_COOLDOWN else cooldownSeconds;
    b.(recentFailureUntil := now + cooldown * SECOND)
  }

  function OutcomeRecorded(b: Backend, success: bool, unhealthyAfter: int, rampUpSeconds: int, now: Time): Backend {
    var c := b.(lastHealthCheck := now);
    if success then
      var d := c.(failures := 0, lastSuccessAt := now);
      if !d.healthy then StartRamp(d.(healthy := true), rampUpSeconds, now)
      else if d.rampingUp && now > d.rampUpEnd then d.(rampingUp := false)
      else d
    else
      Demoted(c.(failures := c.failures + 1),
              if unhealthyAfter <= 0 then DEFAULT_THRESHOLD else unhealthyAfter, now)
  }

  predicate RetryDue(b: Backend, retryDelaySec: int, now: Time) {
    b.healthy || retryDelaySec <= 0 || now - b.unhealthySince >= retryDelaySec * SECOND
  }

  predicate RecentSuccess(b: Backend, now: Time) {
    now - b.lastSuccessAt < PROBE_GRACE
  }

  // ---- Metrics ---------------------------------------------------------------------------

  function MetricsUpdated(b: Backend, available: bool, running: int, waiting: int, kvCachePct: real, now: Time): Backend {
    b.(metricsAvailable := available, running := running, waiting := waiting,
       kvCachePct := kvCachePct, lastMetricsUpdate := now)
  }

  function EffectiveLoad(b: Backend, stale: Time, now: Time): real {
    if b.metricsAvailable && now - b.lastMetricsUpdate < stale then b.running as real else b.inFlight as real
  }

  predicate OverloadedByMetrics(b: Backend, kvCachePct: real, stale: Time, now: Time) {
    b.metricsAvailable && now - b.lastMetricsUpdate <= stale && kvCachePct > 0.0 && b.kvCachePct >= kvCachePct
  }

  // ---- From an update to the instant at which it stops mattering -------------------------

  /** A recovery at t with r seconds of ramp-up: ramping from then on up to t + r, that instant included, and never for r <= 0. */
  lemma RampUpWindow(b: Backend, r: int, t: Time, u: Time)
    ensures RampingNow(MadeHealthy(b, r, t), u) <==> r > 0 && u <= t + r * SECOND
  {
  }

  /** A dispatch failure at t: failing up to the end of the cooldown, that instant excluded. */
  lemma CooldownWindow(b: Backend, seconds: int, t: Time, u: Time)
    ensures FailingNow(DispatchFailed(b, seconds, t), u) <==> u < t + (if seconds <= 0 then 10 else seconds) * SECOND
  {
  }

  /** The third failure in a row at t demotes, and a retry is due `delay` seconds later. */
  lemma RetryWindow(b: Backend, t: Time, delay: int, u: Time)
    requires b.healthy && b.failures >= 2
    ensures var c := OutcomeRecorded(b, false, 3, 0, t);
            !c.healthy && (RetryDue(c, delay, u) <==> delay <= 0 || u >= t + delay * SECOND)
  {
  }

  /** Further failures and timeouts of an unhealthy backend do not put the retry off. */
  lemma {:induction false} FailuresDoNotDelayRetry(b: Backend, trace: seq<(Outcome, Time)>, delay: int, u: Time)
    requires !b.healthy && forall i :: 0 <= i < |trace| ==> !trace[i].0.Success?
    ensures !WitnessAll(b, trace).healthy && (RetryDue(WitnessAll(b, trace), delay, u) <==> RetryDue(b, delay, u))
  {
    if trace != [] {
      FailuresDoNotDelayRetry(b, trace[..|trace| - 1], delay, u);
    }
  }

  /** Metrics scraped at t decide the load before t + stale; from then on the in-flight count does. */
  lemma ScrapedLoadWindow(b: Backend, available: bool, running: int, waiting: int, kv: real, t: Time, stale: Time, u: Time)
    ensures EffectiveLoad(MetricsUpdated(b, available, running, waiting, kv, t), stale, u)
         == if available && u < t + stale then running as real else b.inFlight as real
  {
  }

  /**
   The overload test believes the same metrics for one instant longer, t + stale itself: there, and
   only there, it still reads a cache figure that the load no longer counts.
   */
  lemma ScrapedOverloadWindow(b: Backend, running: int, waiting: int, kv: real, t: Time, limit: real, stale: Time, u: Time)
    requires 0.0 < limit <= kv && running != b.inFlight
    ensures var c := MetricsUpdated(b, true, running, waiting, kv, t);
            && (OverloadedByMetrics(c, limit, stale, u) <==> u <= t + stale)
            && (OverloadedByMetrics(c, limit, stale, u) && EffectiveLoad(c, stale, u) != running as real <==> u == t + stale)
  {
  }

  // ---- Health from traffic alone ---------------------------------------------------------

  /** How one proxied request ended. */
  datatype Outcome = Success | Failure | Timeout

  /** CompleteAndDecr's effect on health: timeouts do not count, three failures in a row demote. */
  function Witness(b: Backend, o: Outcome, now: Time): Backend {
    if o.Timeout? then b else OutcomeRecorded(b, o.Success?, 3, 0, now)
  }

  function WitnessAll(b: Backend, trace: seq<(Outcome, Time)>): Backend {
    if trace == [] then b
    else Witness(WitnessAll(b, trace[..|trace| - 1]), trace[|trace| - 1].0, trace[|trace| - 1].1)
  }

  function WithoutTimeouts(trace: seq<(Outcome, Time)>): seq<Outcome> {
    if trace == [] then []
    else
      var front := WithoutTimeouts(trace[..|trace| - 1]);
      if trace[|trace| - 1].0.Timeout? then front else front + [trace[|trace| - 1].0]
  }

  /** The length of the longest suffix of failures. */
  function TrailingFailures(os: seq<Outcome>): nat {
    if os == [] || !os[|os| - 1].Failure? then 0 else 1 + TrailingFailures(os[..|os| - 1])
  }

  /**
   Starting healthy with a clean counter, traffic leaves a backend healthy if and only if, with
   timeouts erased, fewer than three failures follow the last success.
   */
  lemma {:induction false} HealthIsASuffixProperty(b: Backend, trace: seq<(Outcome, Time)>)
    requires b.healthy && b.failures == 0
    ensures WitnessAll(b, trace).healthy <==> TrailingFailures(WithoutTimeouts(trace)) < 3
    ensures WitnessAll(b, trace).failures == TrailingFailures(WithoutTimeouts(trace))
  {
    if trace != [] {
      HealthIsASuffixProperty(b, trace[..|trace| - 1]);
      var front, last := WithoutTimeouts(trace[..|trace| - 1]), trace[|trace| - 1].0;
      if !last.Timeout? {
        assert (front + [last])[..|front|] == front;
      }
    }
  }
}
