/** The message-flow counters of one backend. */
module FlowStats {
  import opened Common
  import opened BackendModel

  class FlowStats {
    const windowSeconds: int
    var dispatched: int
    var completed: int
    var success: int
    var failure: int
    var timeout: int
    var sumTTFTMs: real
    var lastDispatched: Time
    var lastCompleted: Time
    var lastSuccess: Time

    ghost function View(): Flow
      reads this
    {
      Flow(windowSeconds, dispatched, completed, success, failure, timeout, sumTTFTMs,
           lastDispatched, lastCompleted, lastSuccess)
    }

    constructor (windowSeconds: int)
      ensures View() == NewFlow(windowSeconds)
    {
      this.windowSeconds := windowSeconds;
      dispatched, completed, success, failure, timeout := 0, 0, 0, 0, 0;
      sumTTFTMs := 0.0;
      lastDispatched, lastCompleted, lastSuccess := 0, 0, 0;
    }

    method Dispatch(now: Time)
      modifies this
      ensures View() == Dispatched(old(View()), now)
    {
      dispatched := dispatched + 1;
      lastDispatched := now;
    }

    method Complete(succeeded: bool, timedOut: bool, ttftMs: real, now: Time)
      modifies this
      ensures View() == Completed(old(View()), succeeded, timedOut, ttftMs, now)
    {
      completed := completed + 1;
      if timedOut {
        timeout := timeout + 1;
      } else if succeeded {
        success := success + 1;
        lastSuccess := now;
      } else {
        failure := failure + 1;
      }
      sumTTFTMs := sumTTFTMs + ttftMs;
      lastCompleted := now;
    }

    /** The success rate and the stall count are within their ranges when the counters balance. */
    function GetStats(): (s: Snapshot)
      reads this
      ensures s == Stats(View())
      ensures Balanced(View()) ==> s.stalled == s.dispatched - s.completed && 0.0 <= s.successRate <= 1.0
    {
      var stalled := dispatched - completed;
      var rate := if completed > 0 then success as real / completed as real else 1.0;
      assert Balanced(View()) && completed > 0 ==> 0.0 <= rate <= 1.0 by {
        if Balanced(View()) && completed > 0 {
          RatioInUnit(success as real, completed as real);
        }
      }
      Snapshot(dispatched, completed, success, failure, timeout, if stalled < 0 then 0 else stalled, rate)
    }
  }

  lemma RatioInUnit(a: real, b: real)
    requires 0.0 <= a <= b && 0.0 < b
    ensures 0.0 <= a / b <= 1.0
  {
  }
}
