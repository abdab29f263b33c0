/** What every reachable state of the protocol satisfies, one predicate per group of tables. */
module Invariants {
  import opened Text
  import opened Records
  import opened Database
  import opened Authority
  import opened ControlPreparation
  import opened ReceiptReview
  import opened World
  import ReceiptFinalizer
  import OutboxDelivery

  // ----- the effect ledger -----

  ghost predicate EffectRows(effects: map<string, Effect>) {
    forall e | e in effects ::
      && effects[e].intent.effectId == e
      && effects[e].idempotencyKey == effects[e].intent.idempotencyKey
      && 0 <= effects[e].epoch <= MAX_SAFE
      && (effects[e].status != PendingEffect ==> 1 <= effects[e].epoch)
  }

  ghost predicate SinkRows(sinks: map<string, SinkReceipt>, effects: map<string, Effect>) {
    forall k | k in sinks ::
      && sinks[k].effectId in effects
      && effects[sinks[k].effectId].idempotencyKey == k
      && effects[sinks[k].effectId].epoch == sinks[k].appliedEpoch
      && effects[sinks[k].effectId].status != PendingEffect
  }

  predicate RemoteRowBound(row: RemoteRow, intent: Intent, epoch: int) {
    && row.idempotencyKey == intent.idempotencyKey
    && row.receipt.trusted
    && row.receipt.receiptId == row.receiptId
    && ReceiptBound(row.receipt, intent, IssuedFence(intent, epoch), row.providerId)
  }

  ghost predicate RemoteRows(remotes: map<string, RemoteRow>, effects: map<string, Effect>, sinks: map<string, SinkReceipt>) {
    forall e | e in remotes ::
      && e in effects
      && (effects[e].status == UnknownEffect || effects[e].status == Committed)
      && effects[e].idempotencyKey !in sinks
      && RemoteRowBound(remotes[e], effects[e].intent, effects[e].epoch)
  }

  ghost predicate ConsumptionRows(consumptions: map<string, Consumption>, effects: map<string, Effect>,
                                  remotes: map<string, RemoteRow>) {
    forall e | e in consumptions ::
      && e in effects && e in remotes
      && effects[e].status == Committed
      && effects[e].intent.owner == AtomicControlOnly
      && consumptions[e].providerId == remotes[e].providerId
      && consumptions[e].receiptId == remotes[e].receiptId
      && consumptions[e].commandId == effects[e].intent.command.commandId
      && consumptions[e].eventId == ReceiptEventId(consumptions[e].commandId)
  }

  ghost predicate CommittedRows(effects: map<string, Effect>, sinks: map<string, SinkReceipt>,
                                consumptions: map<string, Consumption>) {
    forall e | e in effects && effects[e].status == Committed :: effects[e].idempotencyKey in sinks || e in consumptions
  }

  ghost predicate LedgerInv(effects: map<string, Effect>, sinks: map<string, SinkReceipt>,
                            remotes: map<string, RemoteRow>, consumptions: map<string, Consumption>) {
    && EffectRows(effects)
    && EffectKeysUnique(effects)
    && SinkRows(sinks, effects)
    && RemoteRows(remotes, effects, sinks)
    && RemoteReceiptsUnique(remotes)
    && ConsumptionRows(consumptions, effects, remotes)
    && ConsumptionsUnique(consumptions)
    && CommittedRows(effects, sinks, consumptions)
  }

  /** One fence per successful dispatch claim, and the epoch counts them. */
  ghost predicate FenceInv(effects: map<string, Effect>, fences: map<string, seq<Fence>>) {
    && (forall e | e in fences :: e in effects)
    && (forall e | e in effects ::
          && |Log(fences, e)| == effects[e].epoch
          && forall i | 0 <= i < |Log(fences, e)| :: Log(fences, e)[i] == IssuedFence(effects[e].intent, i + 1))
  }

  // ----- commands -----

  predicate CommandRow(id: string, row: Row<Command>) {
    var c := row.payload;
    && c.request.commandId == id
    && row.version == c.version
    && c.owner.Some?
    && (c.status == Accepted <==> c.version == 1)
    && (c.status == Executing <==> c.version == 2)
    && (Terminal(c.status) <==> c.version == 3)
    && (c.owner == Some(AtomicControlOnly) ==>
        && c.version >= 2
        && ControlOnly(c.request.operation)
        && !Blank(c.request.commandId)
        && (c.version == 3 ==> c.resultSnapshot.Some? && !c.status.Failed?))
  }

  ghost predicate CommandInv(commands: map<string, Row<Command>>) {
    forall c | c in commands :: CommandRow(c, commands[c])
  }

  /** An effect belongs to a started command with the same owner. */
  ghost predicate EffectCommands(effects: map<string, Effect>, commands: map<string, Row<Command>>) {
    forall e | e in effects ::
      && effects[e].intent.command.commandId in commands
      && commands[effects[e].intent.command.commandId].payload.request == effects[e].intent.command
      && commands[effects[e].intent.command.commandId].payload.owner == Some(effects[e].intent.owner)
      && commands[effects[e].intent.command.commandId].version >= 2
  }

  ghost predicate ConsumedBy(consumptions: map<string, Consumption>, commandId: string) {
    exists e :: e in consumptions && consumptions[e].commandId == commandId
  }

  /** An atomic command with an effect only ends by consuming a receipt. */
  ghost predicate TerminalEffects(effects: map<string, Effect>, commands: map<string, Row<Command>>,
                                  consumptions: map<string, Consumption>) {
    forall e | e in effects && effects[e].intent.owner == AtomicControlOnly ::
      var id := effects[e].intent.command.commandId;
      id in commands && commands[id].version == 3 ==> ConsumedBy(consumptions, id)
  }

  ghost predicate ConsumptionInv(consumptions: map<string, Consumption>, effects: map<string, Effect>,
                                 commands: map<string, Row<Command>>, outbox: map<string, OutboxRow>,
                                 controls: map<string, seq<Control>>) {
    forall e | e in consumptions && e in effects ::
      var row, request := consumptions[e], effects[e].intent.command;
      && request.commandId in commands
      && ReceiptFinalizer.CommandFinalized(commands[request.commandId], row.controlVersion)
      && commands[request.commandId].payload.owner == Some(AtomicControlOnly)
      && commands[request.commandId].payload.fenced
      && ReceiptFinalizer.TerminalEventStored(outbox, request, row.receiptId, row.providerId)
      && 1 <= row.controlVersion <= |Log(controls, request.runId)|
      && Log(controls, request.runId)[row.controlVersion - 1].causedBy == Some(request.commandId)
  }

  // ----- controls and checkpoints -----

  /** Status before entry `i` of a run's control log; a run starts active. */
  function StatusBefore(log: seq<Control>, i: nat): ControlStatus
    requires i <= |log|
  {
    if i == 0 then Active else log[i - 1].status
  }

  /** The stored result of a command that wrote this control version says what it did. */
  predicate AppliedResult(c: Command, controlVersion: int) {
    && c.resultSnapshot.Some?
    && c.resultReason == Some(c.resultSnapshot.value.reason)
    && AppliedOutcome(c.request.operation, c.resultSnapshot.value.status, c.resultSnapshot.value.reason)
    && c.resultSnapshot.value.checkpointVersion == c.request.expectedCheckpointVersion
    && c.resultSnapshot.value.controlVersion == controlVersion
  }

  predicate ControlEntry(runId: string, log: seq<Control>, i: nat, commands: map<string, Row<Command>>)
    requires i < |log|
  {
    var c := log[i];
    && c.runId == runId
    && c.version == i + 1
    && c.causedBy.Some?
    && c.causedBy.value in commands
    && (var cause := commands[c.causedBy.value];
        && cause.version == 3
        && cause.payload.status == Succeeded
        && cause.payload.owner == Some(AtomicControlOnly)
        && cause.payload.request.runId == runId
        && cause.payload.request.ControlVersion() == i
        && LegalMove(cause.payload.request.operation, StatusBefore(log, i), c.status)
        && AppliedResult(cause.payload, i + 1)
        && c.reason == Some(cause.payload.request.reason) && c.updatedBy == Some(cause.payload.request.requestedBy))
  }

  ghost predicate ControlLog(runId: string, log: seq<Control>, commands: map<string, Row<Command>>) {
    forall i: nat | i < |log| :: ControlEntry(runId, log, i, commands)
  }

  ghost predicate ControlInv(controls: map<string, Row<Control>>, logs: map<string, seq<Control>>,
                             commands: map<string, Row<Command>>) {
    && (forall r :: r in controls <==> r in logs)
    && (forall r | r in logs :: |logs[r]| > 0 && controls[r] == Row(|logs[r]|, logs[r][|logs[r]| - 1]))
    && (forall r | r in logs :: ControlLog(r, logs[r], commands))
  }

  ghost predicate CheckpointLog(runId: string, log: seq<Checkpoint>) {
    forall i | 0 <= i < |log| :: log[i].runId == runId && log[i].version == i + 1
  }

  ghost predicate CheckpointInv(checkpoints: map<string, Row<Checkpoint>>, logs: map<string, seq<Checkpoint>>) {
    && (forall r :: r in checkpoints <==> r in logs)
    && (forall r | r in logs :: |logs[r]| > 0 && checkpoints[r] == Row(|logs[r]|, logs[r][|logs[r]| - 1]))
    && (forall r | r in logs :: CheckpointLog(r, logs[r]))
  }

  // ----- the outbox -----

  predicate OutboxRowOk(id: string, row: OutboxRow) {
    OutboxDelivery.Decodes(id, row) && OutboxDelivery.VersionCounts(row.record)
  }

  ghost predicate OutboxRows(outbox: map<string, OutboxRow>, leases: map<string, Lease>) {
    && EventIdsUnique(outbox)
    && TokensUnique(leases)
    && (forall o | o in outbox :: OutboxRowOk(o, outbox[o]) && (outbox[o].record.attempts > 0 <==> o in leases))
    && (forall o | o in leases ::
          && o in outbox
          && leases[o].eventId == outbox[o].eventId
          && leases[o].attempt == outbox[o].record.attempts)
  }

  predicate TerminalRow(id: string, row: OutboxRow) {
    && id == TerminalOutboxId(row.commandId)
    && row.eventId == TerminalEventId(row.commandId)
    && row.record.payload.TerminalAudit?
  }

  predicate ReceiptRow(id: string, row: OutboxRow) {
    && id == ReceiptOutboxId(row.commandId)
    && row.eventId == ReceiptEventId(row.commandId)
    && row.record.payload.ReceiptAudit?
  }

  /** Every event is the terminal event of a finished atomic command, of one kind or the other. */
  ghost predicate OutboxCommands(outbox: map<string, OutboxRow>, commands: map<string, Row<Command>>) {
    forall o | o in outbox ::
      && (TerminalRow(o, outbox[o]) || ReceiptRow(o, outbox[o]))
      && outbox[o].commandId in commands
      && commands[outbox[o].commandId].version == 3
      && commands[outbox[o].commandId].payload.owner == Some(AtomicControlOnly)
      && commands[outbox[o].commandId].payload.request.runId == outbox[o].runId
  }

  /** A receipt event is backed by the consumption row of its command. */
  ghost predicate ReceiptEvents(outbox: map<string, OutboxRow>, consumptions: map<string, Consumption>) {
    forall o | o in outbox && outbox[o].record.payload.ReceiptAudit? ::
      exists e :: e in consumptions && consumptions[e].commandId == outbox[o].commandId
               && consumptions[e].providerId == outbox[o].record.payload.providerId
               && consumptions[e].receiptId == outbox[o].record.payload.receiptId
  }

  ghost predicate OutboxInv(outbox: map<string, OutboxRow>, leases: map<string, Lease>,
                            commands: map<string, Row<Command>>, consumptions: map<string, Consumption>) {
    OutboxRows(outbox, leases) && OutboxCommands(outbox, commands) && ReceiptEvents(outbox, consumptions)
  }

  // ----- workers -----

  predicate ReadLogged(run: string, checkpoint: Checkpoint, logs: map<string, seq<Checkpoint>>) {
    && checkpoint.runId == run
    && 1 <= checkpoint.version <= |Log(logs, run)|
    && Log(logs, run)[checkpoint.version - 1] == checkpoint
  }

  predicate ControlReadLogged(run: string, control: Option<Control>, logs: map<string, seq<Control>>) {
    control.Some? ==>
      && control.value.runId == run
      && 1 <= control.value.version <= |Log(logs, run)|
      && Log(logs, run)[control.value.version - 1] == control.value
  }

  /** The record a worker holds is the executing version of the stored command. */
  predicate HeldRecord(record: Command, owner: Owner, commands: map<string, Row<Command>>) {
    var id := record.request.commandId;
    && id in commands
    && commands[id].version >= 2
    && commands[id].payload.request == record.request
    && commands[id].payload.owner == Some(owner)
    && record.owner == Some(owner)
    && record.status == Executing && record.version == 2
  }

  predicate AtomicWorkerOk(a: AtomicWorker, commands: map<string, Row<Command>>, checkpoints: map<string, seq<Checkpoint>>,
                           controls: map<string, seq<Control>>, invoked: seq<string>) {
    a.AtomicIdle? ||
    (var run := a.record.request.runId;
     && HeldRecord(a.record, AtomicControlOnly, commands)
     && a.record.fenced == commands[a.record.request.commandId].payload.fenced
     && (a.Authorized? <==> a.record.request.commandId in invoked)
     && (!a.Admitted? ==> ReadLogged(run, a.checkpoint, checkpoints))
     && (a.StateRead? || a.Authorized? ==> ControlReadLogged(run, a.control, controls)))
  }

  predicate LegacyWorkerOk(l: LegacyWorker, commands: map<string, Row<Command>>, invoked: seq<string>) {
    match l
    case LegacyIdle => true
    case Inserted(record) => record.version == 1
    case Running(record) => HeldRecord(record, Legacy, commands) && record.request.commandId !in invoked
    case Returned(record, _, _, _) => HeldRecord(record, Legacy, commands) && record.request.commandId in invoked
  }

  ghost predicate AtomicExclusive(atomic: map<nat, AtomicWorker>) {
    forall v, w | v in atomic && w in atomic && !atomic[v].AtomicIdle? && !atomic[w].AtomicIdle? ::
      atomic[v].record.request.commandId == atomic[w].record.request.commandId ==> v == w
  }

  ghost predicate LegacyExclusive(legacy: map<nat, LegacyWorker>) {
    forall v, w | v in legacy && w in legacy && legacy[v].Running? && legacy[w].Running? ::
      legacy[v].record.request.commandId == legacy[w].record.request.commandId ==> v == w
  }

  ghost predicate InvokedOnce(invoked: seq<string>) {
    forall i, j | 0 <= i < |invoked| && 0 <= j < |invoked| :: invoked[i] == invoked[j] ==> i == j
  }

  ghost predicate InvokedStarted(invoked: seq<string>, commands: map<string, Row<Command>>) {
    forall c | c in invoked :: c in commands && commands[c].version >= 2
  }

  ghost predicate WorkerInv(atomic: map<nat, AtomicWorker>, legacy: map<nat, LegacyWorker>,
                            commands: map<string, Row<Command>>, checkpoints: map<string, seq<Checkpoint>>,
                            controls: map<string, seq<Control>>, invoked: seq<string>) {
    && (forall w | w in atomic :: AtomicWorkerOk(atomic[w], commands, checkpoints, controls, invoked))
    && (forall w | w in legacy :: LegacyWorkerOk(legacy[w], commands, invoked))
    && AtomicExclusive(atomic)
    && LegacyExclusive(legacy)
    && InvokedOnce(invoked)
    && InvokedStarted(invoked, commands)
  }

  // ----- all of it -----

  ghost predicate Inv(w: World) {
    && LedgerInv(w.t.effects, w.t.sinkReceipts, w.t.remoteReceipts, w.t.consumptions)
    && FenceInv(w.t.effects, w.history.fences)
    && CommandInv(w.t.commands)
    && EffectCommands(w.t.effects, w.t.commands)
    && TerminalEffects(w.t.effects, w.t.commands, w.t.consumptions)
    && ConsumptionInv(w.t.consumptions, w.t.effects, w.t.commands, w.t.outbox, w.history.controls)
    && ControlInv(w.t.controls, w.history.controls, w.t.commands)
    && CheckpointInv(w.t.checkpoints, w.history.checkpoints)
    && OutboxInv(w.t.outbox, w.t.leases, w.t.commands, w.t.consumptions)
    && WorkerInv(w.atomic, w.legacy, w.t.commands, w.history.checkpoints, w.history.controls, w.invoked)
  }

  // ----- what a step may change, over any distance -----

  /** Intents are frozen, epochs only grow, a committed row never changes again. */
  ghost predicate EffectsAdvance(a: map<string, Effect>, b: map<string, Effect>) {
    forall e | e in a ::
      && e in b
      && b[e].intent == a[e].intent
      && b[e].idempotencyKey == a[e].idempotencyKey
      && a[e].epoch <= b[e].epoch
      && (a[e].status == Committed ==> b[e] == a[e])
  }

  /** Identity and owner are frozen, versions only grow, a terminal row never changes again. */
  ghost predicate CommandsAdvance(a: map<string, Row<Command>>, b: map<string, Row<Command>>) {
    forall c | c in a ::
      && c in b
      && b[c].payload.request == a[c].payload.request
      && b[c].payload.owner == a[c].payload.owner
      && a[c].version <= b[c].version
      && (a[c].version == 3 ==> b[c] == a[c])
      && (a[c].payload.owner == Some(AtomicControlOnly) ==> b[c].payload.fenced == a[c].payload.fenced)
  }

  /** Rows are only ever added. */
  ghost predicate Grows<K, V>(a: map<K, V>, b: map<K, V>) {
    forall k | k in a :: k in b && b[k] == a[k]
  }

  ghost predicate LogsGrow<T>(a: map<string, seq<T>>, b: map<string, seq<T>>) {
    forall k :: Log(a, k) <= Log(b, k)
  }

  /** Delivery only touches attempts, version, status and times of a record. */
  predicate SameEvent(a: OutboxRow, b: OutboxRow) {
    && a.eventId == b.eventId && a.commandId == b.commandId && a.runId == b.runId
    && a.record.(attempts := 0, version := 0, status := Pending, updatedAt := Instant(0), dispatchedAt := None)
       == b.record.(attempts := 0, version := 0, status := Pending, updatedAt := Instant(0), dispatchedAt := None)
    && a.record.attempts <= b.record.attempts
    && (a.record.status == Dispatched ==> b.record == a.record)
  }

  ghost predicate OutboxAdvances(a: map<string, OutboxRow>, b: map<string, OutboxRow>) {
    forall o | o in a :: o in b && SameEvent(a[o], b[o])
  }

  ghost predicate Advances(v: World, w: World) {
    && EffectsAdvance(v.t.effects, w.t.effects)
    && Grows(v.t.sinkReceipts, w.t.sinkReceipts)
    && Grows(v.t.remoteReceipts, w.t.remoteReceipts)
    && Grows(v.t.consumptions, w.t.consumptions)
    && CommandsAdvance(v.t.commands, w.t.commands)
    && OutboxAdvances(v.t.outbox, w.t.outbox)
    && LogsGrow(v.history.checkpoints, w.history.checkpoints)
    && LogsGrow(v.history.controls, w.history.controls)
    && LogsGrow(v.history.fences, w.history.fences)
    && v.invoked <= w.invoked
  }

  lemma Stays(w: World)
    ensures Advances(w, w)
  {
  }
}
