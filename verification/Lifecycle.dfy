/** The runtime lifecycle, and the production runtime that composes it with admission. */
module Lifecycle {
  import opened Text
  import opened Admission

  datatype RuntimeState = Running | Draining | Stopped

  /** `inside` are the runs whose leave closure has not run; `drained` the drain promises resolved, in order. */
  datatype Life = Life(state: RuntimeState, active: int, inside: set<nat>, drainWaiters: seq<nat>, drained: seq<nat>)

  const BORN: Life := Life(Running, 0, {}, [], [])

  function FinishDrain(l: Life): Life {
    if l.state != Draining || l.active != 0 then l
    else l.(state := Stopped, drainWaiters := [], drained := l.drained + l.drainWaiters)
  }

  function EnterRun(l: Life, run: nat): (Life, bool) {
    if l.state != Running then (l, false) else (l.(active := l.active + 1, inside := l.inside + {run}), true)
  }

  function LeaveRun(l: Life, run: nat): Life {
    if run !in l.inside then l else FinishDrain(l.(active := l.active - 1, inside := l.inside - {run}))
  }

  function BeginDrain(l: Life): Life {
    if l.state == Stopped then l else FinishDrain(l.(state := Draining))
  }

  /** The answer says whether the promise resolves at once. */
  function WaitForDrain(l: Life, waiter: nat): (Life, bool) {
    var draining := BeginDrain(l);
    if draining.state == Stopped then (draining, true)
    else (draining.(drainWaiters := draining.drainWaiters + [waiter]), false)
  }

  class RuntimeLifecycle {
    var state: RuntimeState
    var activeRuns: int
    var inside: set<nat>
    var drainWaiters: seq<nat>
    var drained: seq<nat>

    ghost function Value(): Life
      reads this
    {
      Life(state, activeRuns, inside, drainWaiters, drained)
    }

    constructor ()
      ensures Value() == BORN
    {
      state, activeRuns, inside, drainWaiters, drained := Running, 0, {}, [], [];
    }

    method Enter(run: nat) returns (entered: bool)
      modifies this
      ensures (Value(), entered) == EnterRun(old(Value()), run)
    {
      if state != Running {
        return false;
      }
      activeRuns := activeRuns + 1;
      inside := inside + {run};
      entered := true;
    }

    method Leave(run: nat)
      modifies this
      ensures Value() == LeaveRun(old(Value()), run)
    {
      if run !in inside {
        return;
      }
      inside := inside - {run};
      activeRuns := activeRuns - 1;
      FinishDrainIfPossible();
    }

    method StartDrain()
      modifies this
      ensures Value() == BeginDrain(old(Value()))
    {
      if state == Stopped {
        return;
      }
      state := Draining;
      FinishDrainIfPossible();
    }

    method AwaitDrain(waiter: nat) returns (resolved: bool)
      modifies this
      ensures (Value(), resolved) == WaitForDrain(old(Value()), waiter)
    {
      StartDrain();
      if state == Stopped {
        return true;
      }
      drainWaiters := drainWaiters + [waiter];
      resolved := false;
    }

    method FinishDrainIfPossible()
      modifies this
      ensures Value() == FinishDrain(old(Value()))
    {
      if state != Draining || activeRuns != 0 {
        return;
      }
      state := Stopped;
      ghost var all := drained + drainWaiters;
      while |drainWaiters| > 0
        invariant state == Stopped && activeRuns == old(activeRuns) && inside == old(inside)
        invariant drained + drainWaiters == all
        decreases |drainWaiters|
      {
        var next := drainWaiters[0];
        drained, drainWaiters := drained + [next], drainWaiters[1..];
      }
      assert drained == all;
    }
  }

  // ----- the production runtime -----

  /** Where a run stands: waiting for a slot, running in one, failed but not yet out, or over. */
  datatype Position = Waiting | InSlot | Failing | Over

  /** A run is known by the number of its `acquire` call. */
  datatype Runtime = Runtime(admission: Controller, life: Life, runs: map<nat, Position>)

  const STARTED: Runtime := Runtime(FRESH, BORN, map[])

  /** The first synchronous stretch of `run`: enter the lifecycle, then ask for a slot. */
  function BeginRun(r: Runtime, limits: Limits, aborted: bool, timeout: TimeoutOption): Runtime {
    var call := r.admission.nextCall;
    var (life, entered) := EnterRun(r.life, call);
    if !entered then r
    else
      var (admission, answer) := Acquire(r.admission, limits, aborted, timeout);
      Runtime(admission, life,
              r.runs[call := match answer case Slot(_) => InSlot case Queued(_) => Waiting case _ => Failing])
  }

  /** A settled waiter's continuation runs. */
  function ResumeRun(r: Runtime, call: nat): Runtime {
    if call !in r.runs || !r.runs[call].Waiting? || call !in r.admission.waiters || r.admission.waiters[call].PendingWait? then r
    else r.(runs := r.runs[call := if r.admission.waiters[call].AdmittedWait? then InSlot else Failing])
  }

  /** Both `finally` blocks: release the slot, if any, and leave the lifecycle. */
  function EndRun(r: Runtime, call: nat): Runtime {
    if call !in r.runs then r
    else if r.runs[call].InSlot? then Runtime(Release(r.admission, call), LeaveRun(r.life, call), r.runs[call := Over])
    else if r.runs[call].Failing? then r.(life := LeaveRun(r.life, call), runs := r.runs[call := Over])
    else r
  }

  function DrainRuntime(r: Runtime): Runtime {
    r.(life := BeginDrain(r.life), admission := Close(r.admission))
  }

  class ProductionAgentRuntime {
    const admission: RunAdmissionController
    const lifecycle: RuntimeLifecycle

    constructor (admission: RunAdmissionController, lifecycle: RuntimeLifecycle)
      ensures this.admission == admission && this.lifecycle == lifecycle
    {
      this.admission := admission;
      this.lifecycle := lifecycle;
    }

    method StartRun(aborted: bool, timeout: TimeoutOption) returns (entered: bool, answer: AcquireAnswer)
      modifies admission, lifecycle
      ensures var begin := EnterRun(old(lifecycle.Value()), old(admission.nextCall));
              && entered == begin.1 && lifecycle.Value() == begin.0
              && (if entered then (admission.State(), answer) == Acquire(old(admission.State()), admission.limits, aborted, timeout)
                  else admission.State() == old(admission.State()))
    {
      answer := AdmissionClosed;
      entered := lifecycle.Enter(admission.nextCall);
      if entered {
        answer := admission.AcquireSlot(aborted, timeout);
      }
    }

    method FinishRun(call: nat, admitted: bool)
      modifies admission, lifecycle
      ensures admission.State() == if admitted then Release(old(admission.State()), call) else old(admission.State())
      ensures lifecycle.Value() == LeaveRun(old(lifecycle.Value()), call)
    {
      if admitted {
        admission.ReleaseSlot(call);
      }
      lifecycle.Leave(call);
    }

    method StartDraining()
      modifies admission, lifecycle
      ensures lifecycle.Value() == BeginDrain(old(lifecycle.Value()))
      ensures admission.State() == Close(old(admission.State()))
    {
      lifecycle.StartDrain();
      admission.CloseAdmission();
    }
  }
}
