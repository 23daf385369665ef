/** Runtime state of one backend: health, recovery, scraped metrics, flow and in-flight counters. */
module BackendState {
  import opened Common
  import opened BackendModel
  import opened FlowStats

  class BackendState {
    const id: string
    const weight: int
    var healthy: bool
    var consecutiveFailures: int
    var lastHealthCheck: Time
    var lastSuccessAt: Time
    var rampingUp: bool
    var rampUpEnd: Time
    var unhealthySince: Time
    var recentFailureUntil: Time
    var metricsAvailable: bool
    var runningReqs: int
    var waitingReqs: int
    var kvCachePct: real
    var lastMetricsUpdate: Time
    const flow: FlowStats
    var inFlight: int

    ghost function View(): Backend
      reads this, flow
    {
      Backend(id, weight, healthy, consecutiveFailures, lastHealthCheck, lastSuccessAt,
              rampingUp, rampUpEnd, unhealthySince, recentFailureUntil,
              metricsAvailable, runningReqs, waitingReqs, kvCachePct, lastMetricsUpdate,
              inFlight, flow.View())
    }

    constructor (id: string, weight: int, windowSeconds: int)
      ensures View() == NewBackend(id, weight, windowSeconds) && fresh(flow)
    {
      this.id, this.weight := id, weight;
      healthy, consecutiveFailures, lastHealthCheck, lastSuccessAt := true, 0, 0, 0;
      rampingUp, rampUpEnd, unhealthySince, recentFailureUntil := false, 0, 0, 0;
      metricsAvailable, runningReqs, waitingReqs, kvCachePct, lastMetricsUpdate := false, 0, 0, 0.0, 0;
      flow := new FlowStats(windowSeconds);
      inFlight := 0;
    }

    function IsHealthy(): bool
      reads this
    {
      healthy
    }

    predicate IsRampingUp(now: Time)
      reads this, flow
      ensures IsRampingUp(now) == RampingNow(View(), now)
    {
      if !rampingUp then false
      else if now > rampUpEnd then false
      else true
    }

    predicate IsFailing(now: Time)
      reads this, flow
      ensures IsFailing(now) == FailingNow(View(), now)
    {
      now < recentFailureUntil
    }

    method SetHealthy(rampUpSeconds: int, now: Time)
      modifies this
      ensures View() == MadeHealthy(old(View()), rampUpSeconds, now)
    {
      healthy := true;
      consecutiveFailures := 0;
      lastHealthCheck := now;
      if rampUpSeconds > 0 {
        rampingUp := true;
        rampUpEnd := now + rampUpSeconds * SECOND;
      } else {
        rampingUp := false;
      }
    }

    method RecordFailure(failures: int, threshold: int, now: Time)
      modifies this
      ensures View() == ProbeFailed(old(View()), failures, threshold, now)
    {
      consecutiveFailures := failures;
      var limit := threshold;
      if limit == 0 {
        limit := 3;
      }
      if failures >= limit && healthy {
        healthy := false;
        unhealthySince := now;
      }
      lastHealthCheck := now;
    }

    method RecordDispatchFailure(cooldownSeconds: int, now: Time)
      modifies this
      ensures View() == DispatchFailed(old(View()), cooldownSeconds, now)
    {
      var cooldown := cooldownSeconds;
      if cooldown <= 0 {
        cooldown := 10;
      }
      recentFailureUntil := now + cooldown * SECOND;
    }

    method RecordRequestOutcome(success: bool, unhealthyAfter: int, rampUpSeconds: int, now: Time)
      modifies this
      ensures View() == OutcomeRecorded(old(View()), success, unhealthyAfter, rampUpSeconds, now)
    {
      lastHealthCheck := now;
      if success {
        consecutiveFailures := 0;
        lastSuccessAt := now;
        if !healthy {
          healthy := true;
          if rampUpSeconds > 0 {
            rampingUp := true;
            rampUpEnd := now + rampUpSeconds * SECOND;
          } else {
            rampingUp := false;
          }
        } else if rampingUp && now > rampUpEnd {
          rampingUp := false;
        }
        return;
      }
      consecutiveFailures := consecutiveFailures + 1;
      var limit := unhealthyAfter;
      if limit <= 0 {
        limit := 3;
      }
      if consecutiveFailures >= limit && healthy {
        healthy := false;
        unhealthySince := now;
      }
    }

    predicate ShouldRetry(retryDelaySec: int, now: Time)
      reads this, flow
      ensures ShouldRetry(retryDelaySec, now) == RetryDue(View(), retryDelaySec, now)
    {
      if healthy then true
      else if retryDelaySec <= 0 then true
      else now - unhealthySince >= retryDelaySec * SECOND
    }

    method UpdateMetrics(available: bool, running: int, waiting: int, kv: real, now: Time)
      modifies this
      ensures View() == MetricsUpdated(old(View()), available, running, waiting, kv, now)
    {
      metricsAvailable := available;
      runningReqs := running;
      waitingReqs := waiting;
      kvCachePct := kv;
      lastMetricsUpdate := now;
    }

    function GetEffectiveLoad(stale: Time, now: Time): (load: real)
      reads this, flow
      ensures load == EffectiveLoad(View(), stale, now)
    {
      if metricsAvailable && now - lastMetricsUpdate < stale then runningReqs as real else inFlight as real
    }

    predicate IsOverloadedByMetrics(kvLimit: real, stale: Time, now: Time)
      reads this, flow
      ensures IsOverloadedByMetrics(kvLimit, stale, now) == OverloadedByMetrics(View(), kvLimit, stale, now)
    {
      if !metricsAvailable || now - lastMetricsUpdate > stale then false
      else kvLimit > 0.0 && kvCachePct >= kvLimit
    }

    /** The atomic in-flight counter: Add(1) and Add(-1). */
    method AddInFlight(delta: int)
      modifies this
      ensures View() == old(View()).(inFlight := old(View()).inFlight + delta)
    {
      inFlight := inFlight + delta;
    }
  }
}
