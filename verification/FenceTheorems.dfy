/** Writer epochs over whole traces, and what the fence adds to the delivery protocol. */
module FenceTheorems {
  import opened Text
  import opened Records
  import opened Database
  import opened OutboxDelivery
  import opened FencedDelivery

  /** An accepted write and the fence it was made under. */
  datatype Write = Write(scope: string, fence: WriterFence)

  /** `rotations` lists the fences granted per scope, `writes` the accepted writes of all scopes in order. */
  datatype Trace = Trace(tables: FencedTables, rotations: map<string, seq<WriterFence>>, writes: seq<Write>)

  const START: Trace := Trace(FencedTables(map[], Queue(map[], map[]), map[]), map[], [])

  datatype Call =
    | RotateCall(scope: string, ownerId: string)
    | UpdateCall(scope: string, ownerId: string, epoch: int, statement: Statement)
    | ClaimCall(claim: FencedClaimInput, token: string)
    | AckCall(ack: FencedAckInput)
    | AppendCall(event: OutboxRow)

  function RotationsOf(t: Trace, scope: string): seq<WriterFence> {
    if scope in t.rotations then t.rotations[scope] else []
  }

  /** The fence a call presents. */
  function Presented(c: Call): Option<Write> {
    match c
    case UpdateCall(scope, ownerId, epoch, _) => Some(Write(scope, WriterFence(epoch, ownerId)))
    case ClaimCall(claim, _) => Some(Write(OUTBOX_SCOPE, WriterFence(claim.epoch, claim.workerId)))
    case AckCall(ack) => Some(Write(OUTBOX_SCOPE, WriterFence(ack.epoch, ack.workerId)))
    case _ => None
  }

  function TablesAfter(t: FencedTables, c: Call): FencedTables {
    match c
    case RotateCall(scope, ownerId) => Rotate(t, scope, ownerId).tables
    case UpdateCall(scope, ownerId, epoch, statement) => GuardedUpdate(t, scope, ownerId, epoch, statement).tables
    case ClaimCall(claim, token) => FencedClaim(t, claim, token).tables
    case AckCall(ack) => FencedAck(t, ack).tables
    case AppendCall(event) =>
      if event.record.id in t.queue.outbox then t
      else t.(queue := t.queue.(outbox := t.queue.outbox[event.record.id := event]))
  }

  /** The call was let through and wrote. */
  predicate Accepted(t: FencedTables, c: Call) {
    match c
    case UpdateCall(scope, ownerId, epoch, statement) => GuardedUpdate(t, scope, ownerId, epoch, statement).result.Ok?
    case ClaimCall(claim, token) =>
      var r := FencedClaim(t, claim, token).result;
      r.Ok? && r.value.FencedClaimed?
    case AckCall(ack) => FencedAck(t, ack).result == Ok(FencedDispatched)
    case _ => false
  }

  function Next(t: Trace, c: Call): Trace {
    var tables := TablesAfter(t.tables, c);
    if c.RotateCall? then
      if Rotate(t.tables, c.scope, c.ownerId).result.Ok? && c.scope in tables.fences then
        t.(tables := tables, rotations := t.rotations[c.scope := RotationsOf(t, c.scope) + [tables.fences[c.scope]]])
      else t
    else if Accepted(t.tables, c) && Presented(c).Some? then
      t.(tables := tables, writes := t.writes + [Presented(c).value])
    else t.(tables := tables)
  }

  function Run(calls: seq<Call>): Trace
    decreases |calls|
  {
    if calls == [] then START else Next(Run(calls[..|calls| - 1]), calls[|calls| - 1])
  }

  // ----- the invariant -----

  ghost predicate RotationsOk(t: Trace) {
    && (forall s :: s in t.tables.fences <==> s in t.rotations)
    && (forall s | s in t.rotations ::
          && 0 < |t.rotations[s]| <= MAX_SAFE
          && t.tables.fences[s] == t.rotations[s][|t.rotations[s]| - 1]
          && forall i | 0 <= i < |t.rotations[s]| :: t.rotations[s][i].epoch == i + 1)
  }

  ghost predicate WritesOk(t: Trace) {
    && (forall i | 0 <= i < |t.writes| :: t.writes[i].fence in RotationsOf(t, t.writes[i].scope))
    && (forall i, j | 0 <= i < j < |t.writes| && t.writes[i].scope == t.writes[j].scope ::
          t.writes[i].fence.epoch <= t.writes[j].fence.epoch)
  }

  ghost predicate Inv(t: Trace) {
    RotationsOk(t) && WritesOk(t)
  }

  /** The in-transaction compare-and-set can never fail: nothing ran between the read and the write. */
  lemma CasNeverFails(t: FencedTables, claim: FencedClaimInput, token: string, ack: FencedAckInput)
    ensures FencedClaim(t, claim, token).result != Denied(CasConflict)
    ensures FencedAck(t, ack).result != Denied(CasConflict)
  {
  }

  /** A call whose fence is not the stored one changes no table and is denied. */
  lemma StaleFenceChangesNothing(t: FencedTables, c: Call)
    requires Presented(c).Some?
    requires !Holds(t.fences, Presented(c).value.scope, Presented(c).value.fence.ownerId, Presented(c).value.fence.epoch)
    ensures TablesAfter(t, c) == t && !Accepted(t, c)
  {
  }

  /** Only an accepted call writes the guarded tables. */
  lemma OnlyAcceptedCallsWrite(t: FencedTables, c: Call)
    requires Presented(c).Some? && !Accepted(t, c)
    ensures TablesAfter(t, c) == t
  {
    hide PlanDelivery, TokenTaken;
  }

  lemma GuardedCallsKeepFences(t: FencedTables, c: Call)
    requires !c.RotateCall?
    ensures TablesAfter(t, c).fences == t.fences
  {
  }

  lemma RotateKeepsInv(t: Trace, scope: string, ownerId: string)
    requires Inv(t)
    ensures Inv(Next(t, RotateCall(scope, ownerId)))
  {
    var n := Next(t, RotateCall(scope, ownerId));
    if n != t {
      var earlier := RotationsOf(t, scope);
      assert n.rotations[scope] == earlier + [WriterFence(|earlier| + 1, ownerId)];
      forall i | 0 <= i < |n.writes| ensures n.writes[i].fence in RotationsOf(n, n.writes[i].scope) {
        assert t.writes[i].fence in RotationsOf(t, t.writes[i].scope);
      }
    }
  }

  /** A write is accepted under the stored fence, which is the newest one granted for its scope. */
  lemma WriteKeepsInv(t: Trace, c: Call)
    requires Inv(t) && !c.RotateCall?
    ensures Inv(Next(t, c))
  {
    var n := Next(t, c);
    GuardedCallsKeepFences(t.tables, c);
    hide TablesAfter, Accepted;
    if n.writes != t.writes {
      var w := Presented(c).value;
      assert Holds(t.tables.fences, w.scope, w.fence.ownerId, w.fence.epoch) by {
        if !Holds(t.tables.fences, w.scope, w.fence.ownerId, w.fence.epoch) {
          StaleFenceChangesNothing(t.tables, c);
        }
      }
      var log := t.rotations[w.scope];
      assert w.fence == log[|log| - 1];
      forall i | 0 <= i < |t.writes| && t.writes[i].scope == w.scope ensures t.writes[i].fence.epoch <= w.fence.epoch {
        assert t.writes[i].fence in log;
      }
    }
  }

  lemma {:induction false} RunKeepsInv(calls: seq<Call>)
    ensures Inv(Run(calls))
    decreases |calls|
  {
    hide Next;
    if calls == [] {
    } else {
      hide Inv;
      var before, c := Run(calls[..|calls| - 1]), calls[|calls| - 1];
      RunKeepsInv(calls[..|calls| - 1]);
      if c.RotateCall? {
        RotateKeepsInv(before, c.scope, c.ownerId);
      } else {
        WriteKeepsInv(before, c);
      }
    }
  }

  // ----- the theorems -----

  /**
   * In every trace of rotations, guarded updates, claims and acknowledgements the epoch of a scope
   * counts its rotations, strictly increases and stays a safe integer, and the epochs stamped on its
   * accepted writes never decrease, so the writes of one epoch form one block, all by one owner.
   */
  lemma EpochsAreFenced(calls: seq<Call>, scope: string)
    ensures var t := Run(calls);
            && EpochOf(t.tables.fences, scope) == |RotationsOf(t, scope)| <= MAX_SAFE
            && (forall i, j | 0 <= i < j < |RotationsOf(t, scope)| ::
                  RotationsOf(t, scope)[i].epoch < RotationsOf(t, scope)[j].epoch)
            && (forall i, j, k | 0 <= i < j < k < |t.writes|
                  && t.writes[i].scope == scope && t.writes[j].scope == scope && t.writes[k].scope == scope
                  && t.writes[i].fence.epoch == t.writes[k].fence.epoch ::
                  t.writes[j].fence == t.writes[i].fence == t.writes[k].fence)
  {
    RunKeepsInv(calls);
    hide Run;
    var t := Run(calls);
    forall i, j, k | 0 <= i < j < k < |t.writes|
        && t.writes[i].scope == scope && t.writes[j].scope == scope && t.writes[k].scope == scope
        && t.writes[i].fence.epoch == t.writes[k].fence.epoch
      ensures t.writes[j].fence == t.writes[i].fence == t.writes[k].fence
    {
      assert t.writes[i].fence.epoch <= t.writes[j].fence.epoch <= t.writes[k].fence.epoch;
      OneOwnerPerEpoch(t, t.writes[i], t.writes[j]);
      OneOwnerPerEpoch(t, t.writes[i], t.writes[k]);
    }
  }

  lemma OneOwnerPerEpoch(t: Trace, a: Write, b: Write)
    requires RotationsOk(t) && a.scope == b.scope && a.fence.epoch == b.fence.epoch
    requires a.fence in RotationsOf(t, a.scope) && b.fence in RotationsOf(t, b.scope)
    ensures a.fence == b.fence
  {
  }

  lemma {:induction false} EpochsOnlyGrow(calls: seq<Call>, more: seq<Call>, scope: string)
    ensures EpochOf(Run(calls).tables.fences, scope) <= EpochOf(Run(calls + more).tables.fences, scope)
    decreases |more|
  {
    hide TablesAfter, Accepted;
    if more == [] {
      assert calls + more == calls;
    } else {
      var c, rest := more[|more| - 1], more[..|more| - 1];
      EpochsOnlyGrow(calls, rest, scope);
      assert (calls + more)[..|calls + more| - 1] == calls + rest;
      CallKeepsEpoch(Run(calls + rest).tables, c, scope);
    }
  }

  lemma CallKeepsEpoch(t: FencedTables, c: Call, scope: string)
    ensures EpochOf(t.fences, scope) <= EpochOf(TablesAfter(t, c).fences, scope)
  {
    if !c.RotateCall? {
      GuardedCallsKeepFences(t, c);
      hide TablesAfter;
    }
  }

  /** A writer whose epoch has been superseded changes nothing, now and at every later point of the trace. */
  lemma SupersededForGood(calls: seq<Call>, more: seq<Call>, c: Call)
    requires Presented(c).Some?
    requires Presented(c).value.fence.epoch < EpochOf(Run(calls).tables.fences, Presented(c).value.scope)
    ensures Next(Run(calls + more), c).tables == Run(calls + more).tables
    ensures Next(Run(calls + more), c).writes == Run(calls + more).writes
  {
    EpochsOnlyGrow(calls, more, Presented(c).value.scope);
    hide Run;
    StaleFenceChangesNothing(Run(calls + more).tables, c);
    hide TablesAfter, Accepted;
  }

  /** The lease of the record, if there is one, was taken by the worker that acknowledges. */
  predicate LeasedBy(q: Queue, ack: FencedAckInput) {
    ack.outboxId in q.leases ==> q.leases[ack.outboxId].workerId == ack.workerId
  }

  /** The unfenced acknowledgement refuses blank ids up front; the fenced one only when it finds nothing under them. */
  predicate BlankAck(ack: FencedAckInput) {
    Blank(ack.outboxId) || Blank(ack.eventId)
  }

  /**
   * A fenced claim under the stored fence does to the outbox and lease tables exactly what the unfenced one
   * does. So does an acknowledgement by the worker that holds the lease, unless it dispatches under a
   * blank id. Under any other fence, or another worker's lease, nothing happens.
   */
  lemma FencedDeliveryIsDelivery(t: FencedTables, claim: FencedClaimInput, token: string, ack: FencedAckInput)
    ensures FencedClaim(t, claim, token).tables ==
        if Holds(t.fences, OUTBOX_SCOPE, claim.workerId, claim.epoch)
        then t.(queue := ClaimLease(t.queue, Unfenced(claim), token).queue) else t
    ensures !Holds(t.fences, OUTBOX_SCOPE, ack.workerId, ack.epoch) || !LeasedBy(t.queue, ack) ==> FencedAck(t, ack).tables == t
    ensures Holds(t.fences, OUTBOX_SCOPE, ack.workerId, ack.epoch) && LeasedBy(t.queue, ack) ==>
        (FencedAck(t, ack).tables
         == t.(queue := Acknowledge(t.queue, AckInput(ack.outboxId, ack.eventId, ack.token, ack.nowMs)).queue)
         <==> !(BlankAck(ack) && FencedAck(t, ack).result == Ok(FencedDispatched)))
  {
    BlankIdsAreHeld(t.queue, claim);
    hide PlanDelivery, TokenTaken, NextAttempt, Blank;
    if FencedAck(t, ack).result == Ok(FencedDispatched) {
      DispatchChanges(t, ack);
    }
    hide DispatchedRecord;
  }

  lemma BlankIdsAreHeld(q: Queue, claim: FencedClaimInput)
    ensures Blank(claim.outboxId) && claim.outboxId in q.outbox && Decodes(claim.outboxId, q.outbox[claim.outboxId]) ==>
        !PlanDelivery(q.outbox[claim.outboxId].record, claim.consumer).RequiresClaim?
  {
  }

  lemma DispatchChanges(t: FencedTables, ack: FencedAckInput)
    requires FencedAck(t, ack).result == Ok(FencedDispatched)
    ensures FencedAck(t, ack).tables != t
  {
    hide Blank;
    var n := FencedAck(t, ack).tables;
    assert n.queue.outbox[ack.outboxId].record.status == Dispatched;
  }

  /** And under the stored fence the answers are those of the unfenced calls. */
  lemma FencedAnswersAreUnfenced(t: FencedTables, claim: FencedClaimInput, token: string, ack: FencedAckInput)
    ensures var fenced, plain := FencedClaim(t, claim, token).result, ClaimLease(t.queue, Unfenced(claim), token).result;
            var held := Holds(t.fences, OUTBOX_SCOPE, claim.workerId, claim.epoch);
            && (fenced.Ok? && fenced.value.FencedClaimed? <==> held && plain.Ok? && plain.value.LeaseClaimed?)
            && (fenced.Ok? && fenced.value.FencedClaimed? ==>
                fenced.value.record == plain.value.record && fenced.value.token == token == plain.value.token)
            && (fenced == Ok(FencedBusy) <==> held && plain.Ok? && plain.value.Busy?)
            && (fenced == Ok(FencedPlan(AlreadyDelivered)) <==> held && plain.Ok? && plain.value.AlreadyDispatched?)
    ensures var fenced := FencedAck(t, ack).result;
            var plain := Acknowledge(t.queue, AckInput(ack.outboxId, ack.eventId, ack.token, ack.nowMs)).result;
            Holds(t.fences, OUTBOX_SCOPE, ack.workerId, ack.epoch) && LeasedBy(t.queue, ack) && !BlankAck(ack) ==>
              && (fenced == Ok(FencedDispatched) <==> plain.Ok? && plain.value.AckDispatched?)
              && (fenced == Ok(FencedAlreadyDispatched) <==> plain.Ok? && plain.value.AckAlreadyDispatched?)
  {
    BlankIdsAreHeld(t.queue, claim);
    BlankIdsAreNotDone(t.queue, claim);
    hide PlanDelivery, TokenTaken, NextAttempt, Blank, DispatchedRecord;
  }

  lemma BlankIdsAreNotDone(q: Queue, claim: FencedClaimInput)
    ensures Blank(claim.outboxId) && claim.outboxId in q.outbox && Decodes(claim.outboxId, q.outbox[claim.outboxId]) ==>
        !PlanDelivery(q.outbox[claim.outboxId].record, claim.consumer).AlreadyDelivered?
  {
  }

  /** In every trace a rotation is granted exactly to a named owner of a named scope with epochs left; the old fence then holds no more. */
  lemma RotateDecides(calls: seq<Call>, scope: string, ownerId: string)
    ensures var t := Run(calls).tables;
            var o, epoch := Rotate(t, scope, ownerId), EpochOf(t.fences, scope) + 1;
            && (o.result.Ok? <==> !Blank(scope) && !Blank(ownerId) && epoch <= MAX_SAFE)
            && (o.result.Ok? ==>
                && o.result.value == epoch && o.tables == t.(fences := t.fences[scope := WriterFence(epoch, ownerId)])
                && (forall owner, other | other != epoch :: !Holds(o.tables.fences, scope, owner, other)))
            && (o.result.Denied? ==> o.tables == t)
  {
    EpochsAreFenced(calls, scope);
    hide Run, Blank;
  }

  /** A guarded statement runs exactly under the stored fence; it leaves its rows and its count unless it raises. */
  lemma GuardDecides(t: FencedTables, scope: string, ownerId: string, epoch: int, statement: Statement)
    ensures var o := GuardedUpdate(t, scope, ownerId, epoch, statement);
            var admitted := !Blank(scope) && !Blank(ownerId) && 1 <= epoch <= MAX_SAFE
                          && scope in t.fences && t.fences[scope] == WriterFence(epoch, ownerId);
            && (o.result.Ok? <==> admitted && statement.Writes?)
            && (o.result == Denied(SqlError) <==> admitted && statement.Raises?)
            && (o.result.Ok? ==> o.result.value == statement.changes && o.tables == t.(rows := statement.rows))
            && (o.result.Denied? ==> o.tables == t)
  {
    hide Blank;
  }

  // ----- in a trace nothing is leased under a blank id -----

  ghost predicate LeasesNamed(q: Queue) {
    forall o | o in q.leases :: !Blank(o) && !Blank(q.leases[o].eventId)
  }

  lemma CallKeepsLeasesNamed(t: FencedTables, c: Call)
    requires LeasesNamed(t.queue)
    ensures LeasesNamed(TablesAfter(t, c).queue)
  {
    hide Blank, TokenTaken, NextAttempt, BlankBody;
  }

  lemma {:induction false} TraceLeasesNamed(calls: seq<Call>)
    ensures LeasesNamed(Run(calls).tables.queue)
    decreases |calls|
  {
    hide TablesAfter, Accepted, LeasesNamed;
    if calls == [] {
      assert LeasesNamed(START.tables.queue) by { EmptyLeasesNamed(); }
    } else {
      TraceLeasesNamed(calls[..|calls| - 1]);
      CallKeepsLeasesNamed(Run(calls[..|calls| - 1]).tables, calls[|calls| - 1]);
    }
  }

  lemma EmptyLeasesNamed()
    ensures LeasesNamed(Queue(map[], map[]))
  {
  }

  /** So in every trace the lease holder's acknowledgement is the unfenced one, without exception. */
  lemma FencedAckIsAck(calls: seq<Call>, ack: FencedAckInput)
    ensures var t := Run(calls).tables;
            Holds(t.fences, OUTBOX_SCOPE, ack.workerId, ack.epoch) && LeasedBy(t.queue, ack) ==>
              FencedAck(t, ack).tables
              == t.(queue := Acknowledge(t.queue, AckInput(ack.outboxId, ack.eventId, ack.token, ack.nowMs)).queue)
  {
    TraceLeasesNamed(calls);
    hide Run;
    var t := Run(calls).tables;
    var contract := Contract(false, 0, 0, false);
    FencedDeliveryIsDelivery(t, FencedClaimInput("", "", 0, contract, 0, 0), "", ack);
    hide Acknowledge, Holds, Blank, DispatchedRecord;
  }
}
