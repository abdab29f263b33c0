/** The same-file ledger of external effects: staging, epoch leases, UNKNOWN and the two kinds of receipt. */
module EffectLedger {
  import opened Text
  import opened Records
  import opened Database
  import opened Authority
  import opened ReceiptReview

  datatype LedgerDenial = LedgerConflict | FenceConflict

  // ----- what each transaction does to the tables -----

  /** Command, owner and ACL of an intent, as they are stored now. */
  predicate CurrentAuthority(t: Tables, intent: Intent) {
    && EvidenceBound(intent.command, intent.evidence.actorId, intent.evidence.tenantId, intent.evidence)
    && ValidId(intent.effectId) && ValidId(intent.idempotencyKey)
    && intent.command.commandId in t.commands
    && (var command := t.commands[intent.command.commandId].payload;
        && command.status == Executing
        && command.version == 2
        && command.fenced
        && command.owner == Some(intent.owner)
        && command.request.(commandId := intent.command.commandId) == intent.command)
    && Granted(t.acl, intent.evidence)
  }

  predicate SameIntent(effect: Effect, intent: Intent) {
    effect.intent == intent && effect.idempotencyKey == intent.idempotencyKey
  }

  predicate KeyTaken(effects: map<string, Effect>, key: string) {
    exists e :: e in effects && effects[e].idempotencyKey == key
  }

  function Stage(t: Tables, intent: Intent): Outcome<EffectStatus, LedgerDenial> {
    if !CurrentAuthority(t, intent) then Outcome(t, Denied(LedgerConflict))
    else if intent.effectId in t.effects then
      if SameIntent(t.effects[intent.effectId], intent) then Outcome(t, Ok(t.effects[intent.effectId].status))
      else Outcome(t, Denied(LedgerConflict))
    else if KeyTaken(t.effects, intent.idempotencyKey) then Outcome(t, Denied(LedgerConflict))
    else
      var row := Effect(intent.idempotencyKey, intent, PendingEffect, 0, None);
      Outcome(t.(effects := t.effects[intent.effectId := row]), Ok(PendingEffect))
  }

  datatype DispatchClaim =
    | Claimed(fence: Fence)
    | InFlight
    | ReconcileRequired
    | AlreadyCommitted

  function ClaimDispatch(t: Tables, effectId: string, dispatcherId: string): Outcome<DispatchClaim, LedgerDenial> {
    if !ValidId(dispatcherId) || effectId !in t.effects then Outcome(t, Denied(LedgerConflict))
    else
      var row := t.effects[effectId];
      match row.status
      case Leased => Outcome(t, Ok(InFlight))
      case UnknownEffect => Outcome(t, Ok(ReconcileRequired))
      case Committed => Outcome(t, Ok(AlreadyCommitted))
      case PendingEffect =>
        if !CurrentAuthority(t, row.intent) || !(0 <= row.epoch < MAX_SAFE) then Outcome(t, Denied(LedgerConflict))
        else
          var next := row.(status := Leased, epoch := row.epoch + 1, dispatcher := Some(dispatcherId));
          Outcome(t.(effects := t.effects[effectId := next]), Ok(Claimed(IssuedFence(row.intent, row.epoch + 1))))
  }

  datatype Applied = CommittedNow | AlreadyApplied

  function Dispatch(t: Tables, intent: Intent, fence: Fence): Outcome<Applied, LedgerDenial> {
    if !FenceBound(intent, fence) then Outcome(t, Denied(FenceConflict))
    else if intent.effectId !in t.effects || !SameIntent(t.effects[intent.effectId], intent) then
      Outcome(t, Denied(LedgerConflict))
    else if t.effects[intent.effectId].status != Leased || t.effects[intent.effectId].epoch != fence.epoch then
      Outcome(t, Denied(FenceConflict))
    else if !CurrentAuthority(t, intent) then Outcome(t, Denied(LedgerConflict))
    else if intent.idempotencyKey in t.sinkReceipts then
      if t.sinkReceipts[intent.idempotencyKey].effectId != intent.effectId then Outcome(t, Denied(LedgerConflict))
      else Outcome(t, Ok(AlreadyApplied))
    else if exists k :: k in t.sinkReceipts && t.sinkReceipts[k].effectId == intent.effectId then
      Outcome(t, Denied(LedgerConflict))
    else
      var receipt := SinkReceipt(intent.effectId, fence.epoch);
      Outcome(t.(sinkReceipts := t.sinkReceipts[intent.idempotencyKey := receipt]), Ok(CommittedNow))
  }

  predicate SinkApplied(t: Tables, key: string, effectId: string) {
    key in t.sinkReceipts && t.sinkReceipts[key].effectId == effectId
  }

  function Confirm(t: Tables, intent: Intent, fence: Fence): Outcome<(), LedgerDenial> {
    if !FenceBound(intent, fence) then Outcome(t, Denied(FenceConflict))
    else if intent.effectId !in t.effects || !SameIntent(t.effects[intent.effectId], intent) then
      Outcome(t, Denied(LedgerConflict))
    else
      var row := t.effects[intent.effectId];
      if row.epoch != fence.epoch || row.status == PendingEffect
         || !SinkApplied(t, intent.idempotencyKey, intent.effectId) then Outcome(t, Denied(LedgerConflict))
      else Outcome(t.(effects := t.effects[intent.effectId := row.(status := Committed)]), Ok(()))
  }

  function MarkUnknown(t: Tables, effectId: string, epoch: int): Outcome<(), LedgerDenial> {
    if effectId !in t.effects || t.effects[effectId].epoch != epoch || t.effects[effectId].status != Leased then
      Outcome(t, Denied(LedgerConflict))
    else
      var row := t.effects[effectId];
      Outcome(t.(effects := t.effects[effectId := row.(status := UnknownEffect)]), Ok(()))
  }

  datatype Reconciled = ReconciledCommitted | ReadyForNewEpoch

  function Reconcile(t: Tables, effectId: string): Outcome<Reconciled, LedgerDenial> {
    if effectId !in t.effects || t.effects[effectId].status != UnknownEffect then Outcome(t, Denied(LedgerConflict))
    else
      var row := t.effects[effectId];
      var receipt := row.idempotencyKey in t.sinkReceipts;
      if (receipt && t.sinkReceipts[row.idempotencyKey].effectId != effectId) || effectId in t.remoteReceipts then
        Outcome(t, Denied(LedgerConflict))
      else
        var status := if receipt then Committed else PendingEffect;
        Outcome(t.(effects := t.effects[effectId := row.(status := status)]),
                Ok(if receipt then ReconciledCommitted else ReadyForNewEpoch))
  }

  datatype Stored = StoredNow | AlreadyStored

  /** Equal up to the observation time. */
  predicate SameObservation(a: Receipt, b: Receipt) {
    a.(observedAtMs := 0) == b.(observedAtMs := 0)
  }

  /** The receipt's identity, or the effect's, is already spoken for. */
  predicate ReceiptClash(remotes: map<string, RemoteRow>, effectId: string, row: RemoteRow) {
    effectId in remotes || exists e :: e in remotes && (SameReceipt(remotes[e], row) || SameProviderKey(remotes[e], row))
  }

  function Persist(t: Tables, answers: RegistryAnswers, input: ReviewInput): Outcome<Stored, LedgerDenial> {
    var intent := input.intent;
    var denied := Outcome(t, Denied(LedgerConflict));
    if !FenceBound(intent, input.fence) || intent.effectId !in t.effects
       || !SameIntent(t.effects[intent.effectId], intent) then denied
    else
      var effect := t.effects[intent.effectId];
      if effect.status != UnknownEffect || effect.epoch != input.fence.epoch
         || effect.idempotencyKey in t.sinkReceipts || !CurrentAuthority(t, intent)
         || ReviewForPersistence(answers, input, effect.status, effect.epoch).Denied? || input.receipt.None? then denied
      else
        var receipt := input.receipt.value;
        var row := RemoteRow(receipt.providerId, receipt.receiptId, effect.idempotencyKey, receipt);
        if intent.effectId in t.remoteReceipts
           && SameReceipt(t.remoteReceipts[intent.effectId], row)
           && SameProviderKey(t.remoteReceipts[intent.effectId], row)
           && SameObservation(t.remoteReceipts[intent.effectId].receipt, receipt) then Outcome(t, Ok(AlreadyStored))
        else if ReceiptClash(t.remoteReceipts, intent.effectId, row) then denied
        else Outcome(t.(remoteReceipts := t.remoteReceipts[intent.effectId := row]), Ok(StoredNow))
  }

  // ----- the read-only terminal readiness review -----

  /** Finality checks that the review and the receipt finalizer share. */
  predicate RegistryAgrees(answers: RegistryAnswers, receipt: Receipt) {
    && answers.available
    && answers.candidate
    && answers.revisionBefore.Some? && SafeInteger(answers.revisionBefore.value)
    && answers.revisionBefore == answers.revisionAfter
    && Some(receipt.profileRevision) == answers.revisionBefore
  }

  function StoredControlVersion(t: Tables, runId: string): int {
    if runId in t.controls then t.controls[runId].version else 0
  }

  function ReviewTerminalReadiness(t: Tables, answers: RegistryAnswers, intent: Intent, fence: Fence, providerId: string)
    : TerminalReview
  {
    if !FenceBound(intent, fence) || intent.effectId !in t.effects then HoldReview
    else
      var effect := t.effects[intent.effectId];
      if effect.status != UnknownEffect || effect.epoch != fence.epoch || !SameIntent(effect, intent)
         || effect.idempotencyKey in t.sinkReceipts || intent.effectId !in t.remoteReceipts then HoldReview
      else
        var saved := t.remoteReceipts[intent.effectId];
        if !saved.receipt.trusted || saved.receipt.receiptId != saved.receiptId
           || !ReceiptBound(saved.receipt, intent, fence, providerId)
           || saved.providerId != providerId || saved.idempotencyKey != effect.idempotencyKey
           || !CurrentAuthority(t, intent) || intent.command.expectedControlVersion.None?
           || !Revision(intent.command.expectedControlVersion.value)
           || StoredControlVersion(t, intent.command.runId) != intent.command.expectedControlVersion.value
           || !RegistryAgrees(answers, saved.receipt) then HoldReview
        else RequiresTerminalTransaction(saved.receipt.receiptId, intent.command.commandId, intent.command.runId,
                                         intent.command.expectedControlVersion.value)
  }

  // ----- the class -----

  class SQLiteRecoveryExternalEffectLedger {
    const file: SqliteFile

    constructor (file: SqliteFile)
      ensures this.file == file
    {
      this.file := file;
    }

    method StageIntent(intent: Intent) returns (answer: Result<EffectStatus, LedgerDenial>)
      requires Schema(file.tables)
      modifies file
      ensures Outcome(file.tables, answer) == Stage(old(file.tables), intent)
      ensures Schema(file.tables)
    {
      if !CurrentAuthority(file.tables, intent) {
        return Denied(LedgerConflict);
      }
      if intent.effectId in file.tables.effects {
        var row := file.tables.effects[intent.effectId];
        if row.intent != intent || row.idempotencyKey != intent.idempotencyKey {
          return Denied(LedgerConflict);
        }
        return Ok(row.status);
      }
      if exists e :: e in file.tables.effects && file.tables.effects[e].idempotencyKey == intent.idempotencyKey {
        return Denied(LedgerConflict);  // UNIQUE(idempotency_key)
      }
      var row := Effect(intent.idempotencyKey, intent, PendingEffect, 0, None);
      file.tables := file.tables.(effects := file.tables.effects[intent.effectId := row]);
      answer := Ok(PendingEffect);
    }

    method ClaimForDispatch(effectId: string, dispatcherId: string) returns (answer: Result<DispatchClaim, LedgerDenial>)
      requires Schema(file.tables)
      modifies file
      ensures Outcome(file.tables, answer) == ClaimDispatch(old(file.tables), effectId, dispatcherId)
      ensures Schema(file.tables)
    {
      if !ValidId(dispatcherId) {
        return Denied(LedgerConflict);
      }
      if effectId !in file.tables.effects {
        return Denied(LedgerConflict);
      }
      var row := file.tables.effects[effectId];
      if row.status == Leased { return Ok(InFlight); }
      if row.status == UnknownEffect { return Ok(ReconcileRequired); }
      if row.status == Committed { return Ok(AlreadyCommitted); }
      if !CurrentAuthority(file.tables, row.intent) {
        return Denied(LedgerConflict);
      }
      if !SafeInteger(row.epoch) || row.epoch < 0 || row.epoch == MAX_SAFE {
        return Denied(LedgerConflict);
      }
      var epoch := row.epoch + 1;
      file.tables := file.tables.(effects :=
        file.tables.effects[effectId := row.(status := Leased, epoch := epoch, dispatcher := Some(dispatcherId))]);
      answer := Ok(Claimed(IssuedFence(row.intent, epoch)));
    }

    method DispatchToSameSQLiteSink(intent: Intent, fence: Fence) returns (answer: Result<Applied, LedgerDenial>)
      requires Schema(file.tables)
      modifies file
      ensures Outcome(file.tables, answer) == Dispatch(old(file.tables), intent, fence)
      ensures Schema(file.tables)
    {
      if !FenceBound(intent, fence) {
        return Denied(FenceConflict);
      }
      if intent.effectId !in file.tables.effects {
        return Denied(LedgerConflict);
      }
      var row := file.tables.effects[intent.effectId];
      if !SameIntent(row, intent) {
        return Denied(LedgerConflict);
      }
      if row.status != Leased || row.epoch != fence.epoch {
        return Denied(FenceConflict);
      }
      if !CurrentAuthority(file.tables, intent) {
        return Denied(LedgerConflict);
      }
      if intent.idempotencyKey in file.tables.sinkReceipts {
        if file.tables.sinkReceipts[intent.idempotencyKey].effectId != intent.effectId {
          return Denied(LedgerConflict);
        }
        return Ok(AlreadyApplied);
      }
      if exists k :: k in file.tables.sinkReceipts && file.tables.sinkReceipts[k].effectId == intent.effectId {
        return Denied(LedgerConflict);  // UNIQUE(effect_id)
      }
      file.tables := file.tables.(sinkReceipts :=
        file.tables.sinkReceipts[intent.idempotencyKey := SinkReceipt(intent.effectId, fence.epoch)]);
      answer := Ok(CommittedNow);
    }

    method ConfirmApplied(intent: Intent, fence: Fence) returns (answer: Result<(), LedgerDenial>)
      requires Schema(file.tables)
      modifies file
      ensures Outcome(file.tables, answer) == Confirm(old(file.tables), intent, fence)
      ensures Schema(file.tables)
    {
      if !FenceBound(intent, fence) {
        return Denied(FenceConflict);
      }
      if intent.effectId !in file.tables.effects {
        return Denied(LedgerConflict);
      }
      var row := file.tables.effects[intent.effectId];
      if !SameIntent(row, intent) {
        return Denied(LedgerConflict);
      }
      if row.epoch != fence.epoch || row.status !in {Leased, UnknownEffect, Committed}
         || intent.idempotencyKey !in file.tables.sinkReceipts
         || file.tables.sinkReceipts[intent.idempotencyKey].effectId != intent.effectId {
        return Denied(LedgerConflict);
      }
      file.tables := file.tables.(effects := file.tables.effects[intent.effectId := row.(status := Committed)]);
      answer := Ok(());
    }

    method MarkEffectUnknown(effectId: string, epoch: int) returns (answer: Result<(), LedgerDenial>)
      requires Schema(file.tables)
      modifies file
      ensures Outcome(file.tables, answer) == MarkUnknown(old(file.tables), effectId, epoch)
      ensures Schema(file.tables)
    {
      if effectId !in file.tables.effects {
        return Denied(LedgerConflict);
      }
      var row := file.tables.effects[effectId];
      if row.epoch != epoch || row.status != Leased {
        return Denied(LedgerConflict);
      }
      file.tables := file.tables.(effects := file.tables.effects[effectId := row.(status := UnknownEffect)]);
      answer := Ok(());
    }

    method ReconcileAgainstSameSQLiteSink(effectId: string) returns (answer: Result<Reconciled, LedgerDenial>)
      requires Schema(file.tables)
      modifies file
      ensures Outcome(file.tables, answer) == Reconcile(old(file.tables), effectId)
      ensures Schema(file.tables)
    {
      if effectId !in file.tables.effects {
        return Denied(LedgerConflict);
      }
      var row := file.tables.effects[effectId];
      if row.status != UnknownEffect {
        return Denied(LedgerConflict);
      }
      var receipt := row.idempotencyKey in file.tables.sinkReceipts;
      if receipt && file.tables.sinkReceipts[row.idempotencyKey].effectId != effectId {
        return Denied(LedgerConflict);
      }
      if effectId in file.tables.remoteReceipts {
        return Denied(LedgerConflict);
      }
      var status := if receipt then Committed else PendingEffect;
      file.tables := file.tables.(effects := file.tables.effects[effectId := row.(status := status)]);
      answer := Ok(if receipt then ReconciledCommitted else ReadyForNewEpoch);
    }

    /** Looks a receipt up by receipt id, by effect and by key, exactly as the three SELECTs do. */
    method PersistReviewedRemoteAppliedReceipt(answers: RegistryAnswers, input: ReviewInput)
      returns (answer: Result<Stored, LedgerDenial>)
      requires Schema(file.tables)
      modifies file
      ensures Outcome(file.tables, answer) == Persist(old(file.tables), answers, input)
      ensures Schema(file.tables)
    {
      var intent := input.intent;
      if !FenceBound(intent, input.fence) {
        return Denied(LedgerConflict);
      }
      if intent.effectId !in file.tables.effects {
        return Denied(LedgerConflict);
      }
      var effect := file.tables.effects[intent.effectId];
      if !SameIntent(effect, intent) {
        return Denied(LedgerConflict);
      }
      if effect.status != UnknownEffect || effect.epoch != input.fence.epoch {
        return Denied(LedgerConflict);
      }
      if effect.idempotencyKey in file.tables.sinkReceipts {
        return Denied(LedgerConflict);
      }
      if !CurrentAuthority(file.tables, intent) {
        return Denied(LedgerConflict);
      }
      var review := ReviewForPersistence(answers, input, effect.status, effect.epoch);
      ReviewAcceptsIff(answers, input, effect.status, effect.epoch);
      if review.Denied? || input.receipt.None?
         || review.value.providerId != input.receipt.value.providerId
         || review.value.receiptId != input.receipt.value.receiptId
         || review.value.effectId != intent.effectId
         || review.value.idempotencyKey != effect.idempotencyKey
         || review.value.commandId != intent.command.commandId
         || review.value.epoch != effect.epoch {
        return Denied(LedgerConflict);
      }
      var receipt := input.receipt.value;
      var row := RemoteRow(receipt.providerId, receipt.receiptId, effect.idempotencyKey, receipt);
      var remotes := file.tables.remoteReceipts;

      var byReceipt: Option<string> := None;
      if e :| e in remotes && SameReceipt(remotes[e], row) {
        byReceipt := Some(e);
      }
      var byKey: Option<string> := None;
      if e :| e in remotes && SameProviderKey(remotes[e], row) {
        byKey := Some(e);
      }
      var byEffect := if intent.effectId in remotes then Some(intent.effectId) else None;
      var previous := if byReceipt.Some? then byReceipt else if byEffect.Some? then byEffect else byKey;
      if previous.Some? {
        var saved := remotes[previous.value];
        if previous.value != intent.effectId
           || saved.idempotencyKey != effect.idempotencyKey
           || saved.providerId != receipt.providerId
           || saved.receiptId != receipt.receiptId
           || !SameObservation(saved.receipt, receipt)
           || (byReceipt.Some? && byReceipt.value != intent.effectId)
           || (byEffect.Some? && remotes[byEffect.value].receiptId != receipt.receiptId)
           || (byKey.Some? && byKey.value != intent.effectId) {
          return Denied(LedgerConflict);
        }
        return Ok(AlreadyStored);
      }
      file.tables := file.tables.(remoteReceipts := remotes[intent.effectId := row]);
      answer := Ok(StoredNow);
    }
  }
}
