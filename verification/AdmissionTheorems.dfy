/** The theorems about slots, the queue, drain and stop. */
module AdmissionTheorems {
  import opened Text
  import opened Admission
  import opened Lifecycle
  import opened AdmissionRuns

  /**
   * In every state of every run of the runtime the counter equals the outstanding handles and respects
   * the limit, each handle belongs to one run, a non-empty queue means every slot is taken and the
   * controller accepts, and the queue holds exactly the pending calls in order of arrival.
   */
  lemma SlotsAndQueue(limits: Limits, moves: seq<Move>)
    ensures var r := Run(limits, moves);
            var c := r.admission;
            && c.active == |c.held| <= limits.maxConcurrent
            && (forall h | h in c.held :: h in r.runs && (r.runs[h].InSlot? || r.runs[h].Waiting?))
            && (forall h | h in r.runs && r.runs[h].InSlot? :: h in c.held)
            && |c.queue| <= limits.maxQueued && Increasing(c.queue)
            && (c.queue != [] ==> c.accepting && c.active == limits.maxConcurrent)
            && (forall w :: w in c.queue <==> IsPending(c, w))
  {
    RunKeepsInv(limits, moves);
    hide Run;
  }

  /** Every waiter's promise settles at most once, exactly when it stops being pending, and admission is in order of arrival. */
  lemma SettlesOnceInOrder(limits: Limits, moves: seq<Move>)
    ensures var c := Run(limits, moves).admission;
            && Distinct(c.settled)
            && (forall w :: w in c.settled <==> w in c.waiters && !IsPending(c, w))
            && Increasing(c.admitted)
            && (forall a, q: nat | a in c.admitted && IsPending(c, q) :: a < q)
  {
    RunKeepsInv(limits, moves);
    hide Run;
    var c := Run(limits, moves).admission;
    forall a, q: nat | a in c.admitted && IsPending(c, q) ensures a < q {
      assert q in c.queue;
    }
  }

  // ----- what each call is answered -----

  /** A call that comes while the controller accepts, is not cancelled already and brings a sensible timeout. */
  predicate Welcome(c: Controller, aborted: bool, timeout: TimeoutOption) {
    c.accepting && !aborted && (timeout == NoTimeout || (timeout.TimeoutMs? && timeout.ms > 0))
  }

  /**
   * In every state of every run: a welcome call gets a slot exactly when one is free, a place at the end of the queue exactly when
   * every slot is held and the queue has room, and is turned away as overloaded exactly when neither is the
   * case. It never overtakes: when a slot is free nobody waits. Any other answer changes nothing but the numbering.
   */
  lemma AcquireDecides(limits: Limits, moves: seq<Move>, aborted: bool, timeout: TimeoutOption)
    ensures var c := Run(limits, moves).admission;
            var (n, answer) := Acquire(c, limits, aborted, timeout);
            var call, welcome := c.nextCall, Welcome(c, aborted, timeout);
            && call !in c.held && call !in c.waiters && call !in c.queue && n.nextCall == call + 1
            && (answer == Slot(call) <==> welcome && |c.held| < limits.maxConcurrent)
            && (answer == Queued(call) <==> welcome && |c.held| == limits.maxConcurrent && |c.queue| < limits.maxQueued)
            && (answer == Overloaded <==> welcome && |c.held| == limits.maxConcurrent && |c.queue| == limits.maxQueued)
            && (answer == AdmissionClosed <==> !c.accepting)
            && (answer == AlreadyCancelled <==> c.accepting && aborted)
            && (answer == BadTimeout <==> c.accepting && !aborted && !welcome)
            && (answer.Slot? ==> c.queue == [] && n == c.(nextCall := call + 1, active := c.active + 1, held := c.held + {call}))
            && (answer.Queued? ==>
                n == c.(nextCall := call + 1, queue := c.queue + [call], waiters := c.waiters[call := PendingWait]))
            && (!answer.Slot? && !answer.Queued? ==> n == c.(nextCall := call + 1))
  {
    RunKeepsInv(limits, moves);
    hide Run;
    var c := Run(limits, moves).admission;
    assert c.nextCall in c.queue <==> IsPending(c, c.nextCall);
  }

  /**
   * A slot that is given back goes to whoever has waited longest, whose promise is then resolved, and stays taken; it becomes free
   * exactly when nobody waits. Giving it back twice does nothing.
   */
  lemma ReleaseDecides(limits: Limits, moves: seq<Move>, call: nat)
    ensures var c := Run(limits, moves).admission;
            var n := Release(c, call);
            && (call !in c.held ==> n == c)
            && (call in c.held && c.queue == [] ==> n == c.(held := c.held - {call}, active := c.active - 1))
            && (call in c.held && c.queue != [] ==>
                var next := c.queue[0];
                && (forall w | IsPending(c, w) :: next <= w)
                && n == c.(held := c.held - {call} + {next}, queue := c.queue[1..], waiters := c.waiters[next := AdmittedWait],
                           settled := c.settled + [next], admitted := c.admitted + [next]))
  {
    RunKeepsInv(limits, moves);
    hide Run;
    var c := Run(limits, moves).admission;
    if call in c.held && c.queue != [] {
      assert IsPending(c, c.queue[0]);
      forall w | IsPending(c, w) ensures c.queue[0] <= w {
        assert w in c.queue;
      }
    }
  }

  /** A waiter that times out or is cancelled leaves the queue, the others keep their order, and a call that no longer waits is left alone. */
  lemma FailDecides(limits: Limits, moves: seq<Move>, call: nat, state: WaiterState)
    ensures var c := Run(limits, moves).admission;
            var n := Fail(c, call, state);
            && (!IsPending(c, call) ==> n == c)
            && (IsPending(c, call) ==>
                && n == c.(queue := n.queue, waiters := c.waiters[call := state], settled := c.settled + [call])
                && (forall w :: w in n.queue <==> w in c.queue && w != call) && Increasing(n.queue))
  {
    RunKeepsInv(limits, moves);
    hide Run;
    WithoutIs(Run(limits, moves).admission.queue, call);
  }

  /** Closing turns everybody who waits away, in order of arrival, and keeps the slots that are held. */
  lemma CloseDecides(limits: Limits, moves: seq<Move>)
    ensures var c := Run(limits, moves).admission;
            var n := Close(c);
            && !n.accepting && n.queue == [] && n.held == c.held && n.active == c.active
            && n.admitted == c.admitted && n.nextCall == c.nextCall
            && n.settled == c.settled + c.queue
            && n.waiters.Keys == c.waiters.Keys
            && (forall w | w in c.waiters :: n.waiters[w] == if c.waiters[w] == PendingWait then DrainingWait else c.waiters[w])
  {
    RunKeepsInv(limits, moves);
    hide Run;
    var c := Run(limits, moves).admission;
    if c.accepting {
      forall w | w in c.queue ensures IsPending(c, w) {}
      RejectsAll(c.(accepting := false, queue := []), c.queue);
      forall w | w in c.waiters && c.waiters[w] == PendingWait ensures w in c.queue {
        assert IsPending(c, w);
      }
    } else {
      forall w | w in c.waiters ensures c.waiters[w] != PendingWait {
        assert IsPending(c, w) ==> w in c.queue;
      }
    }
  }

  lemma {:induction false} RejectsAll(c: Controller, calls: seq<nat>)
    requires Increasing(calls) && forall w | w in calls :: IsPending(c, w)
    ensures var n := RejectAll(c, calls);
            && n == c.(settled := c.settled + calls, waiters := n.waiters)
            && n.waiters.Keys == c.waiters.Keys
            && (forall w | w in c.waiters :: n.waiters[w] == if w in calls then DrainingWait else c.waiters[w])
    decreases |calls|
  {
    if calls != [] {
      assert IsPending(c, calls[0]);
      var next := c.(waiters := c.waiters[calls[0] := DrainingWait], settled := c.settled + [calls[0]]);
      assert Increasing(calls[1..]);
      forall w | w in calls[1..] ensures IsPending(next, w) {
        assert w in calls && w != calls[0];
      }
      RejectsAll(next, calls[1..]);
      assert calls == [calls[0]] + calls[1..];
      assert next.settled + calls[1..] == c.settled + calls;
    }
  }

  // ----- the lifecycle around them -----

  /** A run begins exactly while the runtime is running, and stands where admission has put it. */
  lemma BeginDecides(limits: Limits, moves: seq<Move>, aborted: bool, timeout: TimeoutOption)
    ensures var r := Run(limits, moves);
            var call, n := r.admission.nextCall, BeginRun(r, limits, aborted, timeout);
            && (r.life.state != Lifecycle.Running ==> n == r)
            && (r.life.state == Lifecycle.Running ==>
                && call !in r.runs && n.runs.Keys == r.runs.Keys + {call}
                && n.life == r.life.(active := r.life.active + 1, inside := r.life.inside + {call})
                && (n.runs[call].InSlot? <==> call in n.admission.held)
                && (n.runs[call].Waiting? <==> call in n.admission.queue)
                && (n.runs[call].Failing? <==> n.admission == r.admission.(nextCall := call + 1)))
  {
    RunKeepsInv(limits, moves);
    AcquireDecides(limits, moves, aborted, timeout);
    hide Run, AdmissionInv, LifeInv, Acquire;
  }

  /** Whoever leaves is out; the last one out of a drain stops the runtime and resolves every drain promise in order. */
  lemma LeaveDecides(limits: Limits, moves: seq<Move>, call: nat)
    ensures var l := Run(limits, moves).life;
            var n, last := LeaveRun(l, call), l.state == Draining && l.inside == {call};
            && (call !in l.inside ==> n == l)
            && (call in l.inside ==>
                n == Life(if last then Stopped else l.state, |l.inside| - 1, l.inside - {call}, if last then [] else l.drainWaiters,
                          if last then l.drained + l.drainWaiters else l.drained))
  {
    RunKeepsInv(limits, moves);
    hide Run, AdmissionInv, RunsInv;
    var l := Run(limits, moves).life;
    if call in l.inside {
      assert l.inside == (l.inside - {call}) + {call};
      assert l.inside - {call} == {} <==> l.inside == {call};
    }
  }

  /** A drain ends at once exactly when nobody is inside; a promise asked for earlier waits its turn. */
  lemma DrainDecides(limits: Limits, moves: seq<Move>, waiter: nat)
    ensures var l := Run(limits, moves).life;
            var (n, resolved) := WaitForDrain(l, waiter);
            && BeginDrain(l) == l.(state := if l.inside == {} then Stopped else Draining)
            && (resolved <==> l.inside == {})
            && n == l.(state := if resolved then Stopped else Draining,
                       drainWaiters := if resolved then l.drainWaiters else l.drainWaiters + [waiter])
  {
    RunKeepsInv(limits, moves);
    hide Run, AdmissionInv, RunsInv;
  }

  // ----- counting -----

  function AsSet(s: seq<nat>): set<nat> {
    set x | x in s
  }

  lemma {:induction false} DistinctSize(s: seq<nat>)
    requires Increasing(s)
    ensures |AsSet(s)| == |s|
  {
    if s == [] {
    } else {
      assert Increasing(s[1..]);
      DistinctSize(s[1..]);
      assert AsSet(s) == {s[0]} + AsSet(s[1..]);
      assert s[0] !in AsSet(s[1..]);
    }
  }

  lemma SubsetSize(a: set<nat>, b: set<nat>)
    requires a <= b
    ensures |a| <= |b|
  {
    assert b == a + (b - a);
  }

  /** The lifecycle counts at least the runs that hold a slot and the runs that wait for one. */
  lemma LifecycleCoversAdmission(limits: Limits, moves: seq<Move>)
    ensures var r := Run(limits, moves);
            r.life.active >= r.admission.active + |r.admission.queue|
  {
    RunKeepsInv(limits, moves);
    hide Run;
    var r := Run(limits, moves);
    var queued := AsSet(r.admission.queue);
    DistinctSize(r.admission.queue);
    forall w | w in queued ensures w !in r.admission.held && w in r.life.inside {
      assert IsPending(r.admission, w);
    }
    assert |r.admission.held + queued| == |r.admission.held| + |queued|;
    SubsetSize(r.admission.held + queued, r.life.inside);
  }

  /** Stopped means no run is inside, no slot is held, nobody waits, and every drain promise has been resolved. */
  lemma StoppedIsEmpty(limits: Limits, moves: seq<Move>)
    requires Run(limits, moves).life.state == Stopped
    ensures var r := Run(limits, moves);
            && r.admission.held == {} && r.admission.active == 0 && r.admission.queue == []
            && (forall x | x in r.runs :: r.runs[x].Over?)
            && r.life.drainWaiters == []
  {
    RunKeepsInv(limits, moves);
    LifecycleCoversAdmission(limits, moves);
    hide Run;
    var r := Run(limits, moves);
    HeldAreInside(r, limits);
  }

  lemma HeldAreInside(r: Runtime, limits: Limits)
    requires Inv(r, limits)
    ensures r.admission.held <= r.life.inside
  {
    hide AdmissionInv, LifeInv;
  }

  /** Once draining, no call of `acquire` gets a slot or a place in the queue, and stopped is for good. */
  ghost predicate OnlyWindsDown(a: Runtime, b: Runtime) {
    && (a.life.state != Lifecycle.Running ==> b.life.state != Lifecycle.Running && b.admission.held <= a.admission.held
                                              && b.admission.queue == [] && b.runs.Keys == a.runs.Keys)
    && (a.life.state == Stopped ==> b.life == a.life && b.admission.held == {} && b.runs == a.runs)
  }

  lemma NextWindsDown(r: Runtime, limits: Limits, m: Move)
    requires Inv(r, limits)
    ensures OnlyWindsDown(r, Next(r, limits, m))
  {
    if r.life.state != Lifecycle.Running {
      assert r.admission.queue == [];
      match m
      case End(call) => EndWindsDown(r, limits, call);
      case Drain => DrainWindsDown(r, limits);
      case AwaitDrain(waiter) => DrainWindsDown(r, limits);
      case ContinueRun(call) => StoppedHasNoRuns(r, limits);
      case _ =>
    }
  }

  lemma StoppedHasNoRuns(r: Runtime, limits: Limits)
    requires Inv(r, limits)
    ensures r.life.state == Stopped ==> r.admission.held == {} && forall x | x in r.runs :: r.runs[x].Over?
  {
    HeldAreInside(r, limits);
  }

  lemma EndWindsDown(r: Runtime, limits: Limits, call: nat)
    requires Inv(r, limits) && r.life.state != Lifecycle.Running && r.admission.queue == []
    ensures OnlyWindsDown(r, EndRun(r, call))
  {
    StoppedHasNoRuns(r, limits);
    assert !r.admission.accepting;
  }

  lemma DrainWindsDown(r: Runtime, limits: Limits)
    requires Inv(r, limits) && r.life.state != Lifecycle.Running && r.admission.queue == []
    ensures OnlyWindsDown(r, DrainRuntime(r)) && DrainRuntime(r) == r
  {
    StoppedHasNoRuns(r, limits);
    assert !r.admission.accepting;
  }

  lemma WindDownTransitive(a: Runtime, b: Runtime, c: Runtime)
    requires OnlyWindsDown(a, b) && OnlyWindsDown(b, c)
    ensures OnlyWindsDown(a, c)
  {
  }

  /** Over any continuation a draining runtime only winds down and a stopped one never changes again. */
  lemma {:induction false} DrainIsOneWay(limits: Limits, moves: seq<Move>, more: seq<Move>)
    requires more != []
    ensures OnlyWindsDown(Run(limits, moves), Run(limits, moves + more))
    decreases |more|
  {
    hide Run, Next, Inv, OnlyWindsDown;
    var m, rest := more[|more| - 1], more[..|more| - 1];
    assert moves + more == moves + rest + [m];
    RunKeepsInv(limits, moves + rest);
    NextWindsDown(Run(limits, moves + rest), limits, m);
    LastMove(limits, moves + rest, m, moves + more);
    if rest == [] {
      assert moves + rest == moves;
    } else {
      DrainIsOneWay(limits, moves, rest);
      WindDownTransitive(Run(limits, moves), Run(limits, moves + rest), Run(limits, moves + more));
    }
  }

  lemma LastMove(limits: Limits, moves: seq<Move>, m: Move, all: seq<Move>)
    requires all == moves + [m]
    ensures Run(limits, all) == Next(Run(limits, moves), limits, m)
  {
    hide Next;
    assert all[..|all| - 1] == moves;
  }
}
