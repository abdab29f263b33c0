/** What holds of admission and lifecycle together in every state of every run of the production runtime. */
module AdmissionRuns {
  import opened Text
  import opened Admission
  import opened Lifecycle

  datatype Move =
    | Begin(aborted: bool, timeout: TimeoutOption)
    | TimeOut(call: nat)
    | Cancel(call: nat)
    | ContinueRun(call: nat)
    | End(call: nat)
    | Drain
    | AwaitDrain(waiter: nat)

  function Next(r: Runtime, limits: Limits, m: Move): Runtime {
    match m
    case Begin(aborted, timeout) => BeginRun(r, limits, aborted, timeout)
    case TimeOut(call) => r.(admission := Fail(r.admission, call, TimedOutWait))
    case Cancel(call) => r.(admission := Fail(r.admission, call, CancelledWait))
    case ContinueRun(call) => ResumeRun(r, call)
    case End(call) => EndRun(r, call)
    case Drain => DrainRuntime(r)
    case AwaitDrain(waiter) =>
      var drained := DrainRuntime(r);
      drained.(life := WaitForDrain(drained.life, waiter).0)
  }

  function Run(limits: Limits, moves: seq<Move>): Runtime
    decreases |moves|
  {
    if moves == [] then STARTED else Next(Run(limits, moves[..|moves| - 1]), limits, moves[|moves| - 1])
  }

  // ----- the invariant -----

  predicate Increasing(s: seq<nat>) {
    forall i, j | 0 <= i < j < |s| :: s[i] < s[j]
  }

  predicate Distinct(s: seq<nat>) {
    forall i, j | 0 <= i < j < |s| :: s[i] != s[j]
  }

  predicate IsPending(c: Controller, call: nat) {
    call in c.waiters && c.waiters[call].PendingWait?
  }

  /** Slots: the counter counts the outstanding handles and respects the limit. */
  ghost predicate SlotsOk(c: Controller, limits: Limits) {
    && c.active == |c.held| && c.active <= limits.maxConcurrent
    && (forall h | h in c.held :: h < c.nextCall && (h in c.waiters ==> c.waiters[h].AdmittedWait?))
  }

  /** The queue holds exactly the pending calls, in order of arrival, and only while every slot is taken. */
  ghost predicate QueueOk(c: Controller, limits: Limits) {
    && Increasing(c.queue) && |c.queue| <= limits.maxQueued
    && (forall w | w in c.waiters :: w < c.nextCall)
    && (forall w :: w in c.queue <==> IsPending(c, w))
    && (c.queue != [] ==> c.accepting && c.active == limits.maxConcurrent)
  }

  /** A waiter settles once, and waiters are admitted in order of arrival. */
  ghost predicate SettledOk(c: Controller) {
    && Distinct(c.settled)
    && (forall w :: w in c.settled <==> w in c.waiters && !c.waiters[w].PendingWait?)
    && Increasing(c.admitted)
    && (forall a | a in c.admitted :: a in c.waiters && c.waiters[a].AdmittedWait?)
    && (forall a, q | a in c.admitted && q in c.queue :: a < q)
  }

  ghost predicate AdmissionInv(c: Controller, limits: Limits) {
    SlotsOk(c, limits) && QueueOk(c, limits) && SettledOk(c)
  }

  ghost predicate LifeInv(l: Life) {
    && l.active == |l.inside|
    && (l.state == Stopped ==> l.inside == {} && l.drainWaiters == [])
    && (l.state == Draining ==> l.inside != {})
    && (l.state == Lifecycle.Running ==> l.drainWaiters == [])
  }

  /** Each run stands where admission says it does; it is inside the lifecycle until it is over. */
  ghost predicate RunsInv(r: Runtime) {
    && (forall x :: x in r.life.inside <==> x in r.runs && !r.runs[x].Over?)
    && (forall x | x in r.runs :: x < r.admission.nextCall)
    && (forall x | x in r.admission.held :: x in r.runs && (r.runs[x].InSlot? || r.runs[x].Waiting?))
    && (forall x | x in r.runs && r.runs[x].InSlot? :: x in r.admission.held)
    && (forall x | x in r.admission.waiters && r.admission.waiters[x].PendingWait? :: x in r.runs && r.runs[x].Waiting?)
    && (forall x | x in r.runs && r.runs[x].Waiting? ::
          x in r.admission.waiters && (r.admission.waiters[x].AdmittedWait? ==> x in r.admission.held))
    && (r.admission.accepting <==> r.life.state == Lifecycle.Running)
  }

  ghost predicate Inv(r: Runtime, limits: Limits) {
    AdmissionInv(r.admission, limits) && LifeInv(r.life) && RunsInv(r)
  }

  // ----- sequences -----

  lemma {:induction false} WithoutIs(queue: seq<nat>, call: nat)
    requires Increasing(queue)
    ensures Increasing(Without(queue, call)) && |Without(queue, call)| <= |queue|
    ensures forall w :: w in Without(queue, call) <==> w in queue && w != call
  {
    if queue != [] {
      var rest := Without(queue[1..], call);
      assert Increasing(queue[1..]);
      assert queue == [queue[0]] + queue[1..];
      forall w | w in queue[1..] ensures queue[0] < w {}
      if queue[0] != call {
        WithoutIs(queue[1..], call);
        PrependIncreasing(queue[0], rest);
      }
    }
  }

  lemma PrependIncreasing(x: nat, s: seq<nat>)
    requires Increasing(s) && forall y | y in s :: x < y
    ensures Increasing([x] + s)
  {
    forall i | 0 <= i < |s| ensures x < s[i] {
      assert s[i] in s;
    }
  }

  lemma AppendIncreasing(s: seq<nat>, x: nat)
    requires Increasing(s) && forall y | y in s :: y < x
    ensures Increasing(s + [x])
  {
    forall i | 0 <= i < |s| ensures s[i] < x {
      assert s[i] in s;
    }
  }

  lemma AppendDistinct(s: seq<nat>, x: nat)
    requires Distinct(s) && x !in s
    ensures Distinct(s + [x])
  {
  }

  // ----- admission -----

  lemma AcquireKeeps(c: Controller, limits: Limits, aborted: bool, timeout: TimeoutOption)
    requires AdmissionInv(c, limits)
    ensures AdmissionInv(Acquire(c, limits, aborted, timeout).0, limits)
  {
    var (n, answer) := Acquire(c, limits, aborted, timeout);
    match answer {
      case Queued(call) => AppendIncreasing(c.queue, call);
      case _ =>
    }
  }

  lemma FailKeeps(c: Controller, limits: Limits, call: nat, state: WaiterState)
    requires AdmissionInv(c, limits) && (state.TimedOutWait? || state.CancelledWait?)
    ensures AdmissionInv(Fail(c, call, state), limits)
  {
    if IsPending(c, call) {
      WithoutIs(c.queue, call);
      AppendDistinct(c.settled, call);
    }
  }

  /** The first waiter is pending, so it gets the slot at once and the counter does not move. */
  lemma ReleaseKeeps(c: Controller, limits: Limits, call: nat)
    requires AdmissionInv(c, limits) && call in c.held
    ensures AdmissionInv(Release(c, call), limits)
    ensures c.queue != [] ==>
        && Release(c, call).held == c.held - {call} + {c.queue[0]}
        && Release(c, call).waiters == c.waiters[c.queue[0] := AdmittedWait]
    ensures c.queue == [] ==> Release(c, call).held == c.held - {call} && Release(c, call).waiters == c.waiters
    ensures Release(c, call).accepting == c.accepting && Release(c, call).nextCall == c.nextCall
  {
    if c.queue != [] {
      var next := c.queue[0];
      assert IsPending(c, next);
      AppendDistinct(c.settled, next);
      AppendIncreasing(c.admitted, next);
      assert forall w :: w in c.queue[1..] <==> w in c.queue && w != next;
    }
  }

  lemma {:induction false} RejectAllIs(c: Controller, calls: seq<nat>)
    requires Distinct(calls) && forall w | w in calls :: IsPending(c, w)
    ensures RejectAll(c, calls).settled == c.settled + calls
    ensures RejectAll(c, calls) == c.(waiters := RejectAll(c, calls).waiters, settled := c.settled + calls)
    ensures RejectAll(c, calls).waiters.Keys == c.waiters.Keys
    ensures forall w | w in c.waiters :: RejectAll(c, calls).waiters[w] == if w in calls then DrainingWait else c.waiters[w]
    decreases |calls|
  {
    if calls == [] {
    } else {
      var n := c.(waiters := c.waiters[calls[0] := DrainingWait], settled := c.settled + [calls[0]]);
      assert IsPending(c, calls[0]);
      forall w | w in calls[1..] ensures w in calls && w != calls[0] && IsPending(n, w) {
        assert IsPending(c, w);
      }
      RejectAllIs(n, calls[1..]);
      assert c.settled + [calls[0]] + calls[1..] == c.settled + calls;
    }
  }

  lemma CloseKeeps(c: Controller, limits: Limits)
    requires AdmissionInv(c, limits)
    ensures var n := Close(c);
            && AdmissionInv(n, limits) && !n.accepting && n.held == c.held && n.nextCall == c.nextCall
            && n.waiters.Keys == c.waiters.Keys
            && (forall w | w in c.waiters :: n.waiters[w] == if IsPending(c, w) then DrainingWait else c.waiters[w])
  {
    if c.accepting {
      var closed := c.(accepting := false, queue := []);
      forall w | w in c.queue ensures IsPending(closed, w) {
        assert IsPending(c, w);
      }
      RejectAllIs(closed, c.queue);
      var n := Close(c);
      assert Distinct(n.settled) by {
        forall i, j | 0 <= i < j < |n.settled| ensures n.settled[i] != n.settled[j] {
          if i < |c.settled| <= j {
            assert n.settled[i] in c.settled && n.settled[j] in c.queue;
          }
        }
      }
      hide RejectAll;
      forall w | w in c.waiters ensures w in c.queue <==> IsPending(c, w) {
      }
    } else {
      forall w ensures !IsPending(c, w) {
        assert w in c.queue <==> IsPending(c, w);
      }
    }
  }

  // ----- the lifecycle -----

  lemma EnterKeeps(l: Life, run: nat)
    requires LifeInv(l) && run !in l.inside
    ensures LifeInv(EnterRun(l, run).0)
  {
  }

  lemma LeaveKeeps(l: Life, run: nat)
    requires LifeInv(l) && run in l.inside
    ensures LifeInv(LeaveRun(l, run)) && LeaveRun(l, run).inside == l.inside - {run}
    ensures (LeaveRun(l, run).state == Lifecycle.Running) == (l.state == Lifecycle.Running)
  {
    assert l.active == |l.inside - {run}| + 1;
  }

  lemma DrainKeeps(l: Life)
    requires LifeInv(l)
    ensures LifeInv(BeginDrain(l)) && BeginDrain(l).inside == l.inside && BeginDrain(l).state != Lifecycle.Running
  {
    if l.active == 0 {
      assert l.inside == {};
    }
  }

  lemma AwaitKeeps(l: Life, waiter: nat)
    requires LifeInv(l)
    ensures LifeInv(WaitForDrain(l, waiter).0) && WaitForDrain(l, waiter).0.inside == l.inside
    ensures WaitForDrain(l, waiter).0.state != Lifecycle.Running
  {
    DrainKeeps(l);
  }

  // ----- together -----

  lemma BeginKeepsInv(r: Runtime, limits: Limits, aborted: bool, timeout: TimeoutOption)
    requires Inv(r, limits)
    ensures Inv(BeginRun(r, limits, aborted, timeout), limits)
  {
    var call := r.admission.nextCall;
    assert call !in r.life.inside;
    AcquireKeeps(r.admission, limits, aborted, timeout);
    AcquireIs(r.admission, limits, aborted, timeout);
    EnterKeeps(r.life, call);
    hide AdmissionInv, LifeInv, RunsInv, Acquire;
    if r.life.state == Lifecycle.Running {
      BeginKeepsRuns(r, Acquire(r.admission, limits, aborted, timeout).0, Acquire(r.admission, limits, aborted, timeout).1);
    }
  }

  /** The rows an acquire changes, by its answer. */
  lemma AcquireIs(c: Controller, limits: Limits, aborted: bool, timeout: TimeoutOption)
    ensures var (n, answer) := Acquire(c, limits, aborted, timeout);
            && n.nextCall == c.nextCall + 1 && n.accepting == c.accepting
            && n.held == (if answer.Slot? then c.held + {c.nextCall} else c.held)
            && n.waiters == (if answer.Queued? then c.waiters[c.nextCall := PendingWait] else c.waiters)
  {
  }

  lemma BeginKeepsRuns(r: Runtime, n: Controller, answer: AcquireAnswer)
    requires RunsInv(r) && r.life.state == Lifecycle.Running
    requires var call := r.admission.nextCall;
             && n.nextCall == call + 1 && n.accepting == r.admission.accepting
             && n.held == (if answer.Slot? then r.admission.held + {call} else r.admission.held)
             && n.waiters == (if answer.Queued? then r.admission.waiters[call := PendingWait] else r.admission.waiters)
    ensures var call := r.admission.nextCall;
            RunsInv(Runtime(n, EnterRun(r.life, call).0,
                            r.runs[call := match answer case Slot(_) => InSlot case Queued(_) => Waiting case _ => Failing]))
  {
  }

  lemma FailKeepsInv(r: Runtime, limits: Limits, call: nat, state: WaiterState)
    requires Inv(r, limits) && (state.TimedOutWait? || state.CancelledWait?)
    ensures Inv(r.(admission := Fail(r.admission, call, state)), limits)
  {
    FailKeeps(r.admission, limits, call, state);
    hide AdmissionInv, LifeInv, Without;
  }

  lemma ContinueKeepsInv(r: Runtime, limits: Limits, call: nat)
    requires Inv(r, limits)
    ensures Inv(ResumeRun(r, call), limits)
  {
    assert SlotsOk(r.admission, limits);
    hide AdmissionInv, LifeInv;
  }

  lemma EndKeepsInv(r: Runtime, limits: Limits, call: nat)
    requires Inv(r, limits)
    ensures Inv(EndRun(r, call), limits)
  {
    if call in r.runs && (r.runs[call].InSlot? || r.runs[call].Failing?) {
      LeaveKeeps(r.life, call);
      if r.runs[call].InSlot? {
        ReleaseKeeps(r.admission, limits, call);
        assert r.admission.queue != [] ==> IsPending(r.admission, r.admission.queue[0]);
        hide AdmissionInv, LifeInv, RunsInv, Release, LeaveRun;
        EndSlotKeepsRuns(r, Release(r.admission, call), LeaveRun(r.life, call), call);
      } else {
        hide AdmissionInv, LifeInv, LeaveRun;
      }
    }
  }

  /** The slot goes to the first in the queue, if there is one. */
  lemma EndSlotKeepsRuns(r: Runtime, n: Controller, life: Life, call: nat)
    requires RunsInv(r) && call in r.runs && r.runs[call].InSlot?
    requires var queue := r.admission.queue;
             if queue != [] then
               IsPending(r.admission, queue[0])
               && n.held == r.admission.held - {call} + {queue[0]} && n.waiters == r.admission.waiters[queue[0] := AdmittedWait]
             else n.held == r.admission.held - {call} && n.waiters == r.admission.waiters
    requires n.accepting == r.admission.accepting && n.nextCall == r.admission.nextCall
    requires life.inside == r.life.inside - {call}
    requires (life.state == Lifecycle.Running) == (r.life.state == Lifecycle.Running)
    ensures RunsInv(Runtime(n, life, r.runs[call := Over]))
  {
  }

  lemma DrainKeepsInv(r: Runtime, limits: Limits)
    requires Inv(r, limits)
    ensures Inv(DrainRuntime(r), limits)
  {
    CloseKeeps(r.admission, limits);
    DrainKeeps(r.life);
    hide AdmissionInv, LifeInv, BeginDrain, Close;
  }

  lemma NextKeepsInv(r: Runtime, limits: Limits, m: Move)
    requires Inv(r, limits)
    ensures Inv(Next(r, limits, m), limits)
  {
    match m
    case Begin(aborted, timeout) => BeginKeepsInv(r, limits, aborted, timeout);
    case TimeOut(call) => FailKeepsInv(r, limits, call, TimedOutWait);
    case Cancel(call) => FailKeepsInv(r, limits, call, CancelledWait);
    case ContinueRun(call) => ContinueKeepsInv(r, limits, call);
    case End(call) => EndKeepsInv(r, limits, call);
    case Drain => DrainKeepsInv(r, limits);
    case AwaitDrain(waiter) =>
      DrainKeepsInv(r, limits);
      AwaitKeeps(DrainRuntime(r).life, waiter);
      hide AdmissionInv, LifeInv, BeginDrain, Close, WaitForDrain;
  }

  lemma {:induction false} RunKeepsInv(limits: Limits, moves: seq<Move>)
    ensures Inv(Run(limits, moves), limits)
    decreases |moves|
  {
    hide Next;
    if moves == [] {
    } else {
      hide Inv;
      RunKeepsInv(limits, moves[..|moves| - 1]);
      NextKeepsInv(Run(limits, moves[..|moves| - 1]), limits, moves[|moves| - 1]);
    }
  }
}
