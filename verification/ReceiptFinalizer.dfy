/** Consuming a stored remote receipt: five tables change in one transaction, or none does. */
module ReceiptFinalizer {
  import opened Text
  import opened Records
  import opened Database
  import opened Authority
  import opened ControlPreparation
  import opened ReceiptReview
  import EffectLedger
  import CommandUnitOfWork

  datatype FinalizeDenial =
    | FenceInvalid
    | PlanInvalid
    | EffectOrReceiptChanged
    | ReceiptBinding
    | AuthorityChanged
    | CommandMissing
    | CommandIdentity
    | ReplayInconsistent
    | StaleTerminalClaim
    | MixedSinkEvidence
    | ProviderConformance
    | CheckpointCas
    | ControlCas
    | NotApplicable
    | TransactionFailure
    | OutboxTaken
    | ProviderDrift

  datatype FinalizeInput = FinalizeInput(
    intent: Intent,
    fence: Fence,
    providerId: string,
    plan: ConsumptionPlan,
    recoveryWindowSeconds: int,
    nowMs: int,
    maxProbeAgeMs: int,
    at: Timestamp)

  datatype FinalizeAnswer =
    | Finalized(controlVersion: int, eventId: string)
    | ReplayedTerminal(controlVersion: int, eventId: string)

  /** The checks made before the transaction begins. */
  predicate PlanMatches(input: FinalizeInput) {
    var intent, plan := input.intent, input.plan;
    && intent.owner == AtomicControlOnly
    && plan.ConsumeReceipt?
    && plan.commandId == intent.command.commandId
    && plan.runId == intent.command.runId
    && plan.effectId == intent.effectId
    && plan.idempotencyKey == intent.idempotencyKey
    && plan.epoch == input.fence.epoch
    && plan.providerId == input.providerId
    && intent.command.expectedControlVersion == Some(plan.expectedControlVersion)
    && SafeInteger(input.nowMs)
    && SafeInteger(input.maxProbeAgeMs)
    && SafeInteger(input.recoveryWindowSeconds)
    && input.at.Instant?
  }

  predicate EffectMatches(t: Tables, input: FinalizeInput) {
    var intent := input.intent;
    && intent.effectId in t.effects
    && intent.effectId in t.remoteReceipts
    && t.effects[intent.effectId].epoch == input.fence.epoch
    && EffectLedger.SameIntent(t.effects[intent.effectId], intent)
  }

  predicate ReceiptMatches(row: RemoteRow, input: FinalizeInput) {
    && row.receipt.trusted
    && ReceiptBound(row.receipt, input.intent, input.fence, input.providerId)
    && input.plan.ConsumeReceipt?
    && row.receipt.receiptId == input.plan.receiptId
    && row.receipt.receiptId == row.receiptId
    && row.providerId == input.providerId
    && row.idempotencyKey == input.intent.idempotencyKey
  }

  predicate CommandMatches(row: Row<Command>, intent: Intent) {
    && row.payload.request == intent.command
    && row.payload.owner == Some(AtomicControlOnly)
    && row.payload.fenced
    && row.payload.version == row.version
  }

  /** The terminal event of a consumed receipt, wherever delivery has taken it since. */
  predicate TerminalEventMatches(row: OutboxRow, id: string, request: Request, receiptId: string, providerId: string) {
    && id == ReceiptOutboxId(request.commandId)
    && row.eventId == ReceiptEventId(request.commandId)
    && row.commandId == request.commandId
    && row.runId == request.runId
    && row.record.id == id
    && row.record.eventId == row.eventId
    && row.record.commandId == row.commandId
    && row.record.runId == row.runId
    && row.record.kind == Audit
    && row.record.payload == ReceiptAudit(request.operation, receiptId, providerId)
  }

  predicate TerminalEventStored(outbox: map<string, OutboxRow>, request: Request, receiptId: string, providerId: string) {
    var id := ReceiptOutboxId(request.commandId);
    id in outbox && TerminalEventMatches(outbox[id], id, request, receiptId, providerId)
  }

  predicate CommandFinalized(row: Row<Command>, controlVersion: int) {
    && row.version == 3
    && row.payload.status == Succeeded
    && row.payload.resultSnapshot.Some?
    && row.payload.resultSnapshot.value.controlVersion == controlVersion
  }

  predicate ControlStillNames(t: Tables, runId: string, controlVersion: int, commandId: string) {
    && runId in t.controls
    && t.controls[runId].version == controlVersion
    && t.controls[runId].payload.causedBy == Some(commandId)
  }

  predicate ReplayConsistent(t: Tables, input: FinalizeInput, consumed: Consumption)
    requires EffectMatches(t, input) && input.intent.command.commandId in t.commands
  {
    var request := input.intent.command;
    var receipt := t.remoteReceipts[input.intent.effectId].receipt;
    && t.effects[input.intent.effectId].status == Committed
    && consumed.providerId == input.providerId
    && consumed.receiptId == receipt.receiptId
    && consumed.commandId == request.commandId
    && consumed.eventId == ReceiptEventId(request.commandId)
    && CommandFinalized(t.commands[request.commandId], consumed.controlVersion)
    && TerminalEventStored(t.outbox, request, receipt.receiptId, input.providerId)
    && ControlStillNames(t, request.runId, consumed.controlVersion, request.commandId)
  }

  const SAME_SQLITE_AUTHORIZED := Decision(true, "same_sqlite_authorized")

  /** Everything a successful finalization writes. */
  datatype Writes = Writes(
    consumption: Consumption,
    control: Control,
    command: Command,
    event: OutboxRecord,
    effect: Effect)

  function ReceiptEvent(request: Request, receiptId: string, providerId: string, at: Timestamp): OutboxRecord {
    OutboxRecord(ReceiptOutboxId(request.commandId), ReceiptEventId(request.commandId), request.commandId, request.runId,
                 Audit, ReceiptAudit(request.operation, receiptId, providerId), Pending, 0, 1, at, at, None)
  }

  function PlanWrites(t: Tables, input: FinalizeInput, prepared: Prepared): Writes
    requires EffectMatches(t, input) && input.plan.ConsumeReceipt?
    requires input.intent.command.commandId in t.commands && input.intent.command.runId in t.checkpoints
  {
    var request := input.intent.command;
    var receiptId := t.remoteReceipts[input.intent.effectId].receipt.receiptId;
    var control := prepared.control.(version := input.plan.expectedControlVersion + 1, updatedAt := input.at);
    var snapshot := Snapshot(prepared.status, prepared.reason, t.checkpoints[request.runId].version, control.version);
    Writes(
      Consumption(input.providerId, receiptId, request.commandId, ReceiptEventId(request.commandId), control.version),
      control,
      t.commands[request.commandId].payload.(status := Succeeded, version := 3, updatedAt := input.at,
                                             resultReason := Some(prepared.reason), resultSnapshot := Some(snapshot)),
      ReceiptEvent(request, receiptId, input.providerId, input.at),
      t.effects[input.intent.effectId].(status := Committed))
  }

  predicate ConsumptionTaken(consumptions: map<string, Consumption>, row: Consumption) {
    exists e :: e in consumptions && ConsumptionsClash(consumptions[e], row)
  }

  function ApplyWrites(t: Tables, input: FinalizeInput, writes: Writes): Tables {
    var request := input.intent.command;
    t.(consumptions := t.consumptions[input.intent.effectId := writes.consumption],
       controls := t.controls[request.runId := Row(writes.control.version, writes.control)],
       commands := t.commands[request.commandId := Row(3, writes.command)],
       outbox := t.outbox[writes.event.id := CommandUnitOfWork.NewOutboxRow(writes.event)],
       effects := t.effects[input.intent.effectId := writes.effect])
  }

  /** A UNIQUE constraint, the injected fault or a last look at the registry can still abort the writes. */
  function WriteDenial(t: Tables, answers: RegistryAnswers, writes: Writes, fault: bool): Option<FinalizeDenial> {
    if ConsumptionTaken(t.consumptions, writes.consumption) || fault then Some(TransactionFailure)
    else if writes.event.id in t.outbox then Some(OutboxTaken)
    else if CommandUnitOfWork.EventTaken(t.outbox, writes.event) then Some(TransactionFailure)
    else if answers.atCommit.LookThrew? then Some(TransactionFailure)
    else if !answers.StaysPut() then Some(ProviderDrift)
    else None
  }

  /** The rows the UPDATE statements are conditioned on. */
  ghost predicate WritesReady(t: Tables, input: FinalizeInput, writes: Writes) {
    var request := input.intent.command;
    && input.plan.ConsumeReceipt?
    && (request.runId in t.controls ==> t.controls[request.runId].version == input.plan.expectedControlVersion)
    && request.commandId in t.commands && t.commands[request.commandId].version == 2
    && input.intent.effectId in t.effects
    && t.effects[input.intent.effectId].status == UnknownEffect
    && t.effects[input.intent.effectId].epoch == input.fence.epoch
    && writes.effect == t.effects[input.intent.effectId].(status := Committed)
  }

  /** Passing the checks keeps every UNIQUE constraint. */
  lemma ApplyWritesKeepsSchema(t: Tables, answers: RegistryAnswers, input: FinalizeInput, writes: Writes, fault: bool)
    requires Schema(t) && WritesReady(t, input, writes)
    requires input.intent.effectId !in t.consumptions
    requires WriteDenial(t, answers, writes, fault).None?
    ensures Schema(ApplyWrites(t, input, writes))
  {
    var next := ApplyWrites(t, input, writes);
    assert EffectKeysUnique(next.effects);
    assert forall e | e in t.consumptions :: !ConsumptionsClash(t.consumptions[e], writes.consumption);
    assert ConsumptionsUnique(next.consumptions);
    assert EventIdsUnique(next.outbox);
  }

  /** The checks that replay and first execution share. */
  function CommonDenial(t: Tables, input: FinalizeInput): Option<FinalizeDenial> {
    if !FenceBound(input.intent, input.fence) then Some(FenceInvalid)
    else if !PlanMatches(input) then Some(PlanInvalid)
    else if !EffectMatches(t, input) then Some(EffectOrReceiptChanged)
    else if !ReceiptMatches(t.remoteReceipts[input.intent.effectId], input) then Some(ReceiptBinding)
    else if !AuthorityHolds(t.acl, input.intent.command, input.intent.evidence) then Some(AuthorityChanged)
    else if input.intent.command.commandId !in t.commands then Some(CommandMissing)
    else if !CommandMatches(t.commands[input.intent.command.commandId], input.intent) then Some(CommandIdentity)
    else None
  }

  /** The compare-and-set checks of a first execution. */
  function CasDenial(t: Tables, answers: RegistryAnswers, input: FinalizeInput): Option<FinalizeDenial>
    requires CommonDenial(t, input).None?
  {
    var request := input.intent.command;
    var row := t.commands[request.commandId];
    if t.effects[input.intent.effectId].status != UnknownEffect || row.version != 2 || row.payload.status != Executing then
      Some(StaleTerminalClaim)
    else if input.intent.idempotencyKey in t.sinkReceipts then Some(MixedSinkEvidence)
    else if !answers.available then Some(TransactionFailure)
    else if !EffectLedger.RegistryAgrees(answers, t.remoteReceipts[input.intent.effectId].receipt) then
      Some(ProviderConformance)
    else if request.runId !in t.checkpoints || t.checkpoints[request.runId].version != request.expectedCheckpointVersion then
      Some(CheckpointCas)
    else if CommandUnitOfWork.ControlVersionOf(t, request.runId) != input.plan.expectedControlVersion then Some(ControlCas)
    else None
  }

  function PreparedFor(t: Tables, input: FinalizeInput): Result<Prepared, PreparationError>
    requires input.intent.command.runId in t.checkpoints
  {
    var request := input.intent.command;
    Prepare(request, t.checkpoints[request.runId].payload, CommandUnitOfWork.StoredControl(t, request.runId),
            SAME_SQLITE_AUTHORIZED, input.at)
  }

  function Finalize(t: Tables, answers: RegistryAnswers, input: FinalizeInput, fault: bool)
    : Outcome<FinalizeAnswer, FinalizeDenial>
  {
    var common := CommonDenial(t, input);
    if common.Some? then Outcome(t, Denied(common.value))
    else if input.intent.effectId in t.consumptions then
      var consumed := t.consumptions[input.intent.effectId];
      if ReplayConsistent(t, input, consumed) then
        Outcome(t, Ok(ReplayedTerminal(consumed.controlVersion, consumed.eventId)))
      else Outcome(t, Denied(ReplayInconsistent))
    else
      var cas := CasDenial(t, answers, input);
      if cas.Some? then Outcome(t, Denied(cas.value))
      else
        var preparation := PreparedFor(t, input);
        if preparation.Denied? then Outcome(t, Denied(TransactionFailure))
        else if preparation.value.outcome != Applied then Outcome(t, Denied(NotApplicable))
        else
          var writes := PlanWrites(t, input, preparation.value);
          var denied := WriteDenial(t, answers, writes, fault);
          if denied.Some? then Outcome(t, Denied(denied.value))
          else Outcome(ApplyWrites(t, input, writes), Ok(Finalized(writes.control.version, writes.consumption.eventId)))
  }

  class SQLiteRecoveryRemoteReceiptFinalizer {
    const file: SqliteFile

    constructor (file: SqliteFile)
      ensures this.file == file
    {
      this.file := file;
    }

    /** The replay branch: the terminal event is looked up by its UNIQUE event id. */
    method CheckReplay(input: FinalizeInput, consumed: Consumption) returns (consistent: bool)
      requires Schema(file.tables)
      requires EffectMatches(file.tables, input) && input.intent.command.commandId in file.tables.commands
      ensures consistent == ReplayConsistent(file.tables, input, consumed)
    {
      var t := file.tables;
      var request := input.intent.command;
      var receipt := t.remoteReceipts[input.intent.effectId].receipt;
      var eventId := ReceiptEventId(request.commandId);
      var event: Option<string> := None;
      if o :| o in t.outbox && t.outbox[o].eventId == eventId {
        event := Some(o);
      }
      consistent :=
        && t.effects[input.intent.effectId].status == Committed
        && consumed.providerId == input.providerId
        && consumed.receiptId == receipt.receiptId
        && consumed.commandId == request.commandId
        && consumed.eventId == eventId
        && CommandFinalized(t.commands[request.commandId], consumed.controlVersion)
        && event.Some?
        && TerminalEventMatches(t.outbox[event.value], event.value, request, receipt.receiptId, input.providerId)
        && ControlStillNames(t, request.runId, consumed.controlVersion, request.commandId);
    }

    /**
     * The five writes in the order of the source. `fault` is the injected failure after the first
     * one. A denial leaves the tables half written: the caller rolls back.
     */
    method WriteAll(answers: RegistryAnswers, input: FinalizeInput, writes: Writes, fault: bool)
      returns (denied: Option<FinalizeDenial>)
      requires WritesReady(file.tables, input, writes)
      modifies file
      ensures denied == WriteDenial(old(file.tables), answers, writes, fault)
      ensures denied.None? ==> file.tables == ApplyWrites(old(file.tables), input, writes)
    {
      var request := input.intent.command;
      var effectId := input.intent.effectId;
      if exists e :: e in file.tables.consumptions && ConsumptionsClash(file.tables.consumptions[e], writes.consumption) {
        return Some(TransactionFailure);
      }
      file.tables := file.tables.(consumptions := file.tables.consumptions[effectId := writes.consumption]);
      if fault {
        return Some(TransactionFailure);
      }
      // UPDATE ... WHERE version = expected, or INSERT when the run has no control row: one row changes.
      assert request.runId in file.tables.controls ==>
          file.tables.controls[request.runId].version == input.plan.expectedControlVersion;
      file.tables := file.tables.(controls := file.tables.controls[request.runId := Row(writes.control.version, writes.control)]);
      // UPDATE ... WHERE version = 2 and status = 'executing': one row changes.
      assert file.tables.commands[request.commandId].version == 2;
      file.tables := file.tables.(commands := file.tables.commands[request.commandId := Row(3, writes.command)]);
      if writes.event.id in file.tables.outbox {
        return Some(OutboxTaken);
      }
      if exists o :: o in file.tables.outbox && file.tables.outbox[o].eventId == writes.event.eventId {
        return Some(TransactionFailure);  // UNIQUE(event_id)
      }
      file.tables := file.tables.(outbox := file.tables.outbox[writes.event.id := CommandUnitOfWork.NewOutboxRow(writes.event)]);
      // UPDATE ... WHERE status = 'unknown' and epoch = fence.epoch: one row changes.
      assert file.tables.effects[effectId].status == UnknownEffect && file.tables.effects[effectId].epoch == input.fence.epoch;
      file.tables := file.tables.(effects := file.tables.effects[effectId := writes.effect]);
      if answers.atCommit.LookThrew? {
        return Some(TransactionFailure);
      }
      if answers.atCommit.revision != answers.revisionBefore {
        return Some(ProviderDrift);
      }
      denied := None;
    }

    method FinalizeReceipt(answers: RegistryAnswers, input: FinalizeInput, fault: bool)
      returns (answer: Result<FinalizeAnswer, FinalizeDenial>)
      requires Schema(file.tables)
      modifies file
      ensures Outcome(file.tables, answer) == Finalize(old(file.tables), answers, input, fault)
      ensures Schema(file.tables)
      ensures answer.Denied? || answer.value.ReplayedTerminal? ==> file.tables == old(file.tables)
    {
      var begin := file.tables;
      var common := CommonDenial(begin, input);
      if common.Some? {
        return Denied(common.value);
      }
      if input.intent.effectId in begin.consumptions {
        var consumed := begin.consumptions[input.intent.effectId];
        var consistent := CheckReplay(input, consumed);
        if !consistent {
          return Denied(ReplayInconsistent);
        }
        return Ok(ReplayedTerminal(consumed.controlVersion, consumed.eventId));
      }
      var cas := CasDenial(begin, answers, input);
      if cas.Some? {
        return Denied(cas.value);
      }
      var preparation := PreparedFor(begin, input);
      if preparation.Denied? {
        return Denied(TransactionFailure);
      }
      if preparation.value.outcome != Applied {
        return Denied(NotApplicable);
      }
      var writes := PlanWrites(begin, input, preparation.value);
      var denied := WriteAll(answers, input, writes, fault);
      if denied.Some? {
        file.tables := begin;
        return Denied(denied.value);
      }
      ApplyWritesKeepsSchema(begin, answers, input, writes, fault);
      answer := Ok(Finalized(writes.control.version, writes.consumption.eventId));
    }
  }
}
