/** Checkpoint saves, ACL changes, delivery claims and acknowledgements keep every invariant. */
module DeliveryPreservation {
  import opened Text
  import opened Records
  import opened Database
  import opened World
  import opened Invariants
  import opened CommandLinks
  import opened CommandPreservation
  import opened OutboxDelivery
  import CommandUnitOfWork
  import ReceiptFinalizer

  lemma CommandsStay(a: map<string, Row<Command>>)
    ensures CommandsAdvance(a, a)
  {
  }

  lemma LogsStay<T>(a: map<string, seq<T>>)
    ensures LogsGrow(a, a)
  {
  }

  // ----- checkpoint saves -----

  lemma AppendCheckpoint(checkpoints: map<string, Row<Checkpoint>>, logs: map<string, seq<Checkpoint>>, run: string, entry: Checkpoint)
    requires CheckpointInv(checkpoints, logs)
    requires entry.runId == run && entry.version == |Log(logs, run)| + 1
    ensures CheckpointInv(checkpoints[run := Row(entry.version, entry)], Append(logs, run, entry))
    ensures LogsGrow(logs, Append(logs, run, entry))
  {
    var logs' := Append(logs, run, entry);
    assert CheckpointLog(run, logs'[run]);
    forall r | r in logs' ensures CheckpointLog(r, logs'[r]) {
      assert r != run ==> CheckpointLog(r, logs[r]);
    }
  }

  /** A save that wins the CAS extends the log by exactly one version. */
  lemma SaveExtendsLog(t: Tables, logs: map<string, seq<Checkpoint>>, checkpoint: Checkpoint, expectedVersion: int, at: Timestamp)
    requires CheckpointInv(t.checkpoints, logs)
    requires CommandUnitOfWork.SaveCheckpoint(t, checkpoint, expectedVersion, at).result.Ok?
    ensures var outcome := CommandUnitOfWork.SaveCheckpoint(t, checkpoint, expectedVersion, at);
            && expectedVersion == |Log(logs, checkpoint.runId)|
            && CheckpointInv(outcome.tables.checkpoints, Append(logs, checkpoint.runId, outcome.result.value))
            && LogsGrow(logs, Append(logs, checkpoint.runId, outcome.result.value))
  {
    var outcome := CommandUnitOfWork.SaveCheckpoint(t, checkpoint, expectedVersion, at);
    AppendCheckpoint(t.checkpoints, logs, checkpoint.runId, outcome.result.value);
  }

  lemma SaveRunKeepsInv(w: World, checkpoint: Checkpoint, expectedVersion: int, at: Timestamp)
    requires Inv(w)
    ensures Inv(StepSaveRun(w, checkpoint, expectedVersion, at))
    ensures Advances(w, StepSaveRun(w, checkpoint, expectedVersion, at))
  {
    var n := StepSaveRun(w, checkpoint, expectedVersion, at);
    Stays(w);
    hide LedgerInv, FenceInv, CommandInv, EffectCommands, TerminalEffects, ConsumptionInv, ControlInv, CheckpointInv,
         OutboxInv, WorkerInv, EffectsAdvance, CommandsAdvance, OutboxAdvances, LogsGrow;
    if CommandUnitOfWork.SaveCheckpoint(w.t, checkpoint, expectedVersion, at).result.Ok? {
      SaveExtendsLog(w.t, w.history.checkpoints, checkpoint, expectedVersion, at);
      WorkerInvFollows(w.atomic, w.legacy, w.t.commands, w.t.commands, w.history.checkpoints, n.history.checkpoints,
                       w.history.controls, w.history.controls, w.invoked);
    }
  }

  lemma ChangeAclKeepsInv(w: World, acl: Acl)
    requires Inv(w)
    ensures var n := w.(t := w.t.(acl := acl));
            Inv(n) && Advances(w, n)
  {
    hide LedgerInv, FenceInv, CommandInv, EffectCommands, TerminalEffects, ConsumptionInv, ControlInv, CheckpointInv,
         OutboxInv, WorkerInv;
  }

  // ----- delivery -----

  /** One record is claimed again: its row and its lease change together. */
  lemma LeaseRow(q: Queue, id: string, row: OutboxRow, lease: Lease)
    requires OutboxRows(q.outbox, q.leases)
    requires id in q.outbox && SameEvent(q.outbox[id], row) && OutboxRowOk(id, row)
    requires lease.eventId == row.eventId && 0 < lease.attempt == row.record.attempts
    requires !TokenTaken(q.leases, id, lease.token)
    ensures OutboxRows(q.outbox[id := row], q.leases[id := lease])
  {
    hide OutboxRowOk;
    assert forall o | o in q.leases && o != id :: q.leases[o].token != lease.token;
  }

  lemma AckRow(q: Queue, id: string, row: OutboxRow)
    requires OutboxRows(q.outbox, q.leases)
    requires id in q.outbox && SameEvent(q.outbox[id], row) && OutboxRowOk(id, row)
    requires row.record.attempts == q.outbox[id].record.attempts
    ensures OutboxRows(q.outbox[id := row], q.leases)
  {
    hide OutboxRowOk;
  }

  lemma NextAttemptOk(id: string, row: OutboxRow, nowMs: int, consumer: Contract)
    requires OutboxRowOk(id, row) && PlanDelivery(row.record, consumer).RequiresClaim?
    ensures OutboxRowOk(id, row.(record := NextAttempt(row.record, nowMs)))
    ensures SameEvent(row, row.(record := NextAttempt(row.record, nowMs)))
    ensures 0 < NextAttempt(row.record, nowMs).attempts
  {
  }

  lemma DispatchedRecordOk(id: string, row: OutboxRow, nowMs: int)
    requires OutboxRowOk(id, row) && row.record.status == Pending && row.record.attempts > 0
    ensures OutboxRowOk(id, row.(record := DispatchedRecord(row.record, nowMs)))
    ensures SameEvent(row, row.(record := DispatchedRecord(row.record, nowMs)))
  {
  }

  lemma OneRowAdvances(a: map<string, OutboxRow>, id: string, row: OutboxRow)
    requires id in a && SameEvent(a[id], row)
    ensures OutboxAdvances(a, a[id := row])
  {
  }

  /** A claim adds one attempt and one version to one pending record, and leases that attempt. */
  lemma ClaimKeepsRows(q: Queue, input: ClaimInput, token: string)
    requires OutboxRows(q.outbox, q.leases)
    ensures var n := ClaimLease(q, input, token).queue;
            OutboxRows(n.outbox, n.leases) && OutboxAdvances(q.outbox, n.outbox) && n.outbox.Keys == q.outbox.Keys
  {
    assert forall o | o in q.outbox :: OutboxRowOk(o, q.outbox[o]);
    assert OutboxAdvances(q.outbox, q.outbox);
    hide OutboxRows, OutboxRowOk, SameEvent, OutboxAdvances, WellFormedRecord, TokenTaken, ValidClaimInput, NextAttempt, PlanDelivery;
    var n := ClaimLease(q, input, token).queue;
    var id := input.outboxId;
    if n != q {
      NextAttemptOk(id, q.outbox[id], input.nowMs, input.consumer);
      assert n.outbox[id].record.attempts == n.leases[id].attempt;
      OneRowAdvances(q.outbox, id, n.outbox[id]);
      LeaseRow(q, id, n.outbox[id], n.leases[id]);
    }
  }

  lemma AckKeepsRows(q: Queue, input: AckInput)
    requires OutboxRows(q.outbox, q.leases)
    ensures var n := Acknowledge(q, input).queue;
            OutboxRows(n.outbox, n.leases) && OutboxAdvances(q.outbox, n.outbox) && n.outbox.Keys == q.outbox.Keys
  {
    assert forall o | o in q.outbox :: OutboxRowOk(o, q.outbox[o]) && (o in q.leases ==> q.outbox[o].record.attempts > 0);
    assert OutboxAdvances(q.outbox, q.outbox);
    hide OutboxRows, OutboxRowOk, SameEvent, OutboxAdvances;
    var n := Acknowledge(q, input).queue;
    var id := input.outboxId;
    if n != q {
      DispatchedRecordOk(id, q.outbox[id], input.nowMs);
      OneRowAdvances(q.outbox, id, n.outbox[id]);
      AckRow(q, id, n.outbox[id]);
    }
  }

  lemma DeliveredOutboxCommands(a: map<string, OutboxRow>, b: map<string, OutboxRow>, commands: map<string, Row<Command>>)
    requires OutboxCommands(a, commands) && OutboxAdvances(a, b) && b.Keys == a.Keys
    ensures OutboxCommands(b, commands)
  {
    forall o | o in b ensures SameEvent(a[o], b[o]) && (TerminalRow(o, a[o]) || ReceiptRow(o, a[o])) {
      assert o in a;
    }
  }

  lemma DeliveredReceiptEvents(a: map<string, OutboxRow>, b: map<string, OutboxRow>, consumptions: map<string, Consumption>)
    requires ReceiptEvents(a, consumptions) && OutboxAdvances(a, b) && b.Keys == a.Keys
    ensures ReceiptEvents(b, consumptions)
  {
    forall o | o in b && b[o].record.payload.ReceiptAudit?
      ensures exists e :: e in consumptions && consumptions[e].commandId == b[o].commandId
                       && consumptions[e].providerId == b[o].record.payload.providerId
                       && consumptions[e].receiptId == b[o].record.payload.receiptId
    {
      assert o in a && SameEvent(a[o], b[o]);
    }
  }

  lemma DeliveryKeepsInv(w: World, q: Queue)
    requires Inv(w)
    requires OutboxRows(q.outbox, q.leases) && OutboxAdvances(w.t.outbox, q.outbox) && q.outbox.Keys == w.t.outbox.Keys
    ensures var n := w.(t := WithQueue(w.t, q));
            Inv(n) && Advances(w, n)
  {
    var n := w.(t := WithQueue(w.t, q));
    CommandsStay(w.t.commands);
    LogsStay(w.history.controls);
    hide LedgerInv, FenceInv, CommandInv, EffectCommands, TerminalEffects, ConsumptionInv, ControlInv, CheckpointInv,
         OutboxRows, OutboxCommands, ReceiptEvents, WorkerInv, OutboxAdvances;
    DeliveredOutboxCommands(w.t.outbox, q.outbox, w.t.commands);
    DeliveredReceiptEvents(w.t.outbox, q.outbox, w.t.consumptions);
    ConsumptionInvFollows(w.t.consumptions, w.t.effects, w.t.commands, w.t.commands, w.t.outbox, q.outbox,
                          w.history.controls, w.history.controls);
  }

  lemma ClaimDeliveryKeepsInv(w: World, claim: ClaimInput, token: string)
    requires Inv(w)
    ensures var n := w.(t := WithQueue(w.t, ClaimLease(QueueOf(w.t), claim, token).queue));
            Inv(n) && Advances(w, n)
  {
    hide LedgerInv, FenceInv, CommandInv, EffectCommands, TerminalEffects, ConsumptionInv, ControlInv, CheckpointInv,
         OutboxRows, OutboxCommands, ReceiptEvents, WorkerInv, OutboxAdvances, Advances, ClaimLease;
    ClaimKeepsRows(QueueOf(w.t), claim, token);
    DeliveryKeepsInv(w, ClaimLease(QueueOf(w.t), claim, token).queue);
  }

  lemma AckDeliveryKeepsInv(w: World, ack: AckInput)
    requires Inv(w)
    ensures var n := w.(t := WithQueue(w.t, Acknowledge(QueueOf(w.t), ack).queue));
            Inv(n) && Advances(w, n)
  {
    hide LedgerInv, FenceInv, CommandInv, EffectCommands, TerminalEffects, ConsumptionInv, ControlInv, CheckpointInv,
         OutboxRows, OutboxCommands, ReceiptEvents, WorkerInv, OutboxAdvances, Advances, Acknowledge;
    AckKeepsRows(QueueOf(w.t), ack);
    DeliveryKeepsInv(w, Acknowledge(QueueOf(w.t), ack).queue);
  }
}
