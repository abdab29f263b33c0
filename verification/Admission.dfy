/** Run admission: a bounded number of slots, a bounded FIFO queue, cancellation, timeout and close. */
module Admission {
  import opened Text

  datatype WaiterState = PendingWait | AdmittedWait | TimedOutWait | CancelledWait | DrainingWait

  datatype Limits = Limits(maxConcurrent: nat, maxQueued: nat)

  /**
   * Calls of `acquire` are numbered as they come. `held` are the calls whose release closure exists and
   * has not run; `waiters` the calls that were queued; `settled` the order in which their promises were
   * resolved or rejected, `admitted` those that were resolved.
   */
  datatype Controller = Controller(
    active: int,
    accepting: bool,
    queue: seq<nat>,
    waiters: map<nat, WaiterState>,
    held: set<nat>,
    settled: seq<nat>,
    admitted: seq<nat>,
    nextCall: nat)

  const FRESH: Controller := Controller(0, true, [], map[], {}, [], [], 0)

  datatype TimeoutOption = NoTimeout | TimeoutMs(ms: int) | NotFinite

  datatype AcquireAnswer =
    | AdmissionClosed
    | AlreadyCancelled
    | BadTimeout
    | Slot(call: nat)
    | Overloaded
    | Queued(call: nat)

  // ----- what each operation does -----

  function Acquire(c: Controller, limits: Limits, aborted: bool, timeout: TimeoutOption): (Controller, AcquireAnswer) {
    var next := c.(nextCall := c.nextCall + 1);
    if !c.accepting then (next, AdmissionClosed)
    else if aborted then (next, AlreadyCancelled)
    else if timeout.NotFinite? || (timeout.TimeoutMs? && timeout.ms <= 0) then (next, BadTimeout)
    else if c.active < limits.maxConcurrent then
      (next.(active := c.active + 1, held := c.held + {c.nextCall}), Slot(c.nextCall))
    else if |c.queue| >= limits.maxQueued then (next, Overloaded)
    else (next.(queue := c.queue + [c.nextCall], waiters := c.waiters[c.nextCall := PendingWait]), Queued(c.nextCall))
  }

  /** The queue without the first occurrence of `call`. */
  function Without(queue: seq<nat>, call: nat): seq<nat> {
    if queue == [] then []
    else if queue[0] == call then queue[1..]
    else [queue[0]] + Without(queue[1..], call)
  }

  /** A timer or an abort signal fires. */
  function Fail(c: Controller, call: nat, state: WaiterState): Controller {
    if call !in c.waiters || !c.waiters[call].PendingWait? then c
    else c.(waiters := c.waiters[call := state], queue := Without(c.queue, call), settled := c.settled + [call])
  }

  /** The promises of the queued calls are rejected in order, skipping the settled ones. */
  function RejectAll(c: Controller, calls: seq<nat>): Controller
    decreases |calls|
  {
    if calls == [] then c
    else if calls[0] in c.waiters && c.waiters[calls[0]].PendingWait? then
      RejectAll(c.(waiters := c.waiters[calls[0] := DrainingWait], settled := c.settled + [calls[0]]), calls[1..])
    else RejectAll(c, calls[1..])
  }

  function Close(c: Controller): Controller {
    if !c.accepting then c else RejectAll(c.(accepting := false, queue := []), c.queue)
  }

  /** The first pending waiter gets the slot; the ones before it are dropped from the queue. */
  function HandOver(c: Controller): Controller
    decreases |c.queue|
  {
    if !c.accepting || c.queue == [] then c.(active := c.active - 1)
    else
      var next := c.queue[0];
      var rest := c.(queue := c.queue[1..]);
      if next !in c.waiters || !c.waiters[next].PendingWait? then HandOver(rest)
      else rest.(waiters := c.waiters[next := AdmittedWait], held := c.held + {next}, settled := c.settled + [next],
                 admitted := c.admitted + [next])
  }

  function Release(c: Controller, call: nat): Controller {
    if call !in c.held then c else HandOver(c.(held := c.held - {call}))
  }

  // ----- the class -----

  class RunAdmissionController {
    const limits: Limits
    var activeRuns: int
    var accepting: bool
    var queue: seq<nat>
    var waiters: map<nat, WaiterState>
    var held: set<nat>
    var settled: seq<nat>
    var admitted: seq<nat>
    var nextCall: nat

    ghost function State(): Controller
      reads this
    {
      Controller(activeRuns, accepting, queue, waiters, held, settled, admitted, nextCall)
    }

    constructor (limits: Limits)
      requires limits.maxConcurrent > 0
      ensures this.limits == limits && State() == FRESH
    {
      this.limits := limits;
      activeRuns, accepting, queue, waiters, held, settled, admitted, nextCall := 0, true, [], map[], {}, [], [], 0;
    }

    method AcquireSlot(aborted: bool, timeout: TimeoutOption) returns (answer: AcquireAnswer)
      modifies this
      ensures (State(), answer) == Acquire(old(State()), limits, aborted, timeout)
    {
      var call := nextCall;
      nextCall := nextCall + 1;
      if !accepting {
        return AdmissionClosed;
      }
      if aborted {
        return AlreadyCancelled;
      }
      if timeout.NotFinite? || (timeout.TimeoutMs? && timeout.ms <= 0) {
        return BadTimeout;
      }
      if activeRuns < limits.maxConcurrent {
        activeRuns := activeRuns + 1;
        held := held + {call};
        return Slot(call);
      }
      if |queue| >= limits.maxQueued {
        return Overloaded;
      }
      waiters := waiters[call := PendingWait];
      queue := queue + [call];
      answer := Queued(call);
    }

    /** indexOf, then splice. */
    method RemoveWaiter(call: nat)
      modifies this`queue
      ensures queue == Without(old(queue), call)
    {
      var index := 0;
      while index < |queue| && queue[index] != call
        invariant 0 <= index <= |queue|
        invariant forall j | 0 <= j < index :: queue[j] != call
      {
        index := index + 1;
      }
      WithoutAt(queue, call, index);
      if index < |queue| {
        queue := queue[..index] + queue[index + 1..];
      }
    }

    method FailWaiter(call: nat, state: WaiterState)
      modifies this
      ensures State() == Fail(old(State()), call, state)
    {
      if call !in waiters || !waiters[call].PendingWait? {
        return;
      }
      waiters := waiters[call := state];
      RemoveWaiter(call);
      settled := settled + [call];
    }

    method CloseAdmission()
      modifies this
      ensures State() == Close(old(State()))
    {
      if !accepting {
        return;
      }
      accepting := false;
      var queued := queue;
      queue := [];
      ghost var begin := State();
      for i := 0 to |queued|
        invariant RejectAll(State(), queued[i..]) == RejectAll(begin, queued)
      {
        var waiter := queued[i];
        assert queued[i..][1..] == queued[i + 1..];
        if waiter in waiters && waiters[waiter].PendingWait? {
          waiters := waiters[waiter := DrainingWait];
          settled := settled + [waiter];
        }
      }
    }

    /** The release closure of one call. */
    method ReleaseSlot(call: nat)
      modifies this
      ensures State() == Release(old(State()), call)
    {
      if call !in held {
        return;
      }
      held := held - {call};
      ghost var begin := State();
      while accepting && |queue| > 0
        invariant State() == begin.(queue := queue)
        invariant HandOver(State()) == HandOver(begin)
        decreases |queue|
      {
        var next := queue[0];
        queue := queue[1..];
        if next in waiters && waiters[next].PendingWait? {
          waiters := waiters[next := AdmittedWait];
          settled := settled + [next];
          admitted := admitted + [next];
          held := held + {next};
          return;
        }
      }
      activeRuns := activeRuns - 1;
    }
  }

  lemma WithoutAt(queue: seq<nat>, call: nat, index: nat)
    requires index <= |queue| && forall j | 0 <= j < index :: queue[j] != call
    requires index < |queue| ==> queue[index] == call
    ensures Without(queue, call) == if index < |queue| then queue[..index] + queue[index + 1..] else queue
  {
    if index > 0 {
      WithoutAt(queue[1..], call, index - 1);
    }
  }
}
