/** When a receipt is stored, found ready and consumed, in terms of the rows, the registry's answers and the caller's input alone. */
module ReceiptAnswers {
  import opened Text
  import opened Records
  import opened Database
  import opened Authority
  import opened ControlPreparation
  import opened ReceiptReview
  import opened World
  import opened Invariants
  import opened Safety
  import opened LedgerAnswers
  import opened ReceiptFinalizer
  import opened ReceiptTheorems
  import CommandUnitOfWork
  import CommandTheorems
  import CommandPreservation
  import EffectLedger

  // ----- shared facts -----

  /** The effect is stored for this very intent, and the fence is the one issued at its epoch. */
  ghost predicate FencedRow(t: Tables, intent: Intent, fence: Fence) {
    && intent.effectId in t.effects && t.effects[intent.effectId].intent == intent
    && fence == IssuedFence(intent, t.effects[intent.effectId].epoch)
    && 1 <= fence.epoch <= MAX_SAFE
    && EvidenceBound(intent.command, intent.evidence.actorId, intent.evidence.tenantId, intent.evidence)
    && ValidId(intent.effectId) && ValidId(intent.idempotencyKey)
  }

  lemma FencedRowIff(t: Tables, intent: Intent, fence: Fence)
    requires LedgerHolds(t)
    ensures FencedRow(t, intent, fence) <==>
        && FenceBound(intent, fence) && intent.effectId in t.effects
        && EffectLedger.SameIntent(t.effects[intent.effectId], intent) && t.effects[intent.effectId].epoch == fence.epoch
  {
    BoundFenceIsIssued(intent, fence);
    hide FenceBound, EvidenceBound, ValidId, SinkRows, RemoteRows, ConsumptionRows, CommittedRows, EffectKeysUnique,
         RemoteReceiptsUnique, ConsumptionsUnique;
  }

  /** The stored receipt of an effect repeats its intent and its epoch, whatever happened since it was stored. */
  lemma StoredReceiptBound(t: Tables, e: string)
    requires LedgerHolds(t) && e in t.remoteReceipts
    ensures var row := t.remoteReceipts[e];
            && e in t.effects && (t.effects[e].status == UnknownEffect || t.effects[e].status == Committed)
            && t.effects[e].idempotencyKey == t.effects[e].intent.idempotencyKey && t.effects[e].intent.effectId == e
            && t.effects[e].idempotencyKey !in t.sinkReceipts
            && row.receipt.trusted && row.receipt.receiptId == row.receiptId
            && row.idempotencyKey == t.effects[e].intent.idempotencyKey
            && ReceiptBound(row.receipt, t.effects[e].intent, IssuedFence(t.effects[e].intent, t.effects[e].epoch), row.providerId)
  {
    assert RemoteRowBound(t.remoteReceipts[e], t.effects[e].intent, t.effects[e].epoch);
    hide SinkRows, ConsumptionRows, CommittedRows, EffectKeysUnique, RemoteReceiptsUnique, ConsumptionsUnique, ReceiptBound;
  }

  // ----- storing a receipt -----

  /** A fresh, final and authentic observation of this effect by a provider that stands by it. */
  predicate Trustworthy(answers: RegistryAnswers, input: ReviewInput) {
    && answers.available && answers.candidate
    && answers.profile.Some? && answers.profile.value == Profile(input.providerId, true, true)
    && answers.revisionBefore.Some? && answers.revisionBefore == answers.revisionAfter
    && input.receipt.Some?
    && var receipt, intent := input.receipt.value, input.intent;
    && 0 < receipt.profileRevision <= MAX_SAFE && answers.revisionBefore == Some(receipt.profileRevision)
    && ValidId(receipt.receiptId) && ValidId(input.providerId)
    && 0 < receipt.observedAtMs <= input.nowMs <= MAX_SAFE && 0 < input.maxObservationAgeMs <= MAX_SAFE
    && input.nowMs - receipt.observedAtMs <= input.maxObservationAgeMs
    && receipt == Receipt(true, input.providerId, receipt.profileRevision, receipt.receiptId, intent.command.commandId,
                          intent.command.runId, intent.command.operation, intent.command.requestedBy, intent.evidence.tenantId,
                          intent.owner, intent.effectId, intent.idempotencyKey, input.fence.epoch, receipt.observedAtMs)
  }

  lemma TrustworthyIff(answers: RegistryAnswers, input: ReviewInput, status: EffectStatus, epoch: int)
    ensures ReviewForPersistence(answers, input, status, epoch).Ok? <==>
        FenceBound(input.intent, input.fence) && status == UnknownEffect && epoch == input.fence.epoch && Trustworthy(answers, input)
  {
    ReviewAcceptsIff(answers, input, status, epoch);
    hide FenceBound, ReviewForPersistence, ValidId;
  }

  /** Nothing that is stored speaks of the receipt's identity or of the provider's receipt for this key. */
  predicate Unspoken(remotes: map<string, RemoteRow>, receipt: Receipt) {
    forall e | e in remotes :: remotes[e].providerId == receipt.providerId ==>
      remotes[e].receiptId != receipt.receiptId && remotes[e].idempotencyKey != receipt.idempotencyKey
  }

  /** The effect is unknown without a receipt of the local sink, under the caller's fence, and its command may act. */
  ghost predicate AwaitsReceipt(t: Tables, intent: Intent, fence: Fence) {
    && FencedRow(t, intent, fence) && t.effects[intent.effectId].status == UnknownEffect
    && intent.idempotencyKey !in t.sinkReceipts && MayAct(t, intent)
  }

  /**
   * A receipt is stored exactly for an effect that awaits one, on a trustworthy observation, when neither the effect
   * nor the receipt is spoken for; it is known already exactly when the same observation is what is stored.
   * Anything else is refused, and only the first of the three writes, one row.
   */
  lemma PersistAnswers(w: World, answers: RegistryAnswers, input: ReviewInput)
    requires Reachable(w)
    ensures var e, o := input.intent.effectId, EffectLedger.Persist(w.t, answers, input);
            var due := AwaitsReceipt(w.t, input.intent, input.fence) && Trustworthy(answers, input);
            && (o.result == Ok(EffectLedger.StoredNow) <==>
                due && e !in w.t.remoteReceipts && Unspoken(w.t.remoteReceipts, input.receipt.value))
            && (o.result == Ok(EffectLedger.AlreadyStored) <==>
                due && e in w.t.remoteReceipts
                && w.t.remoteReceipts[e].receipt == input.receipt.value.(observedAtMs := w.t.remoteReceipts[e].receipt.observedAtMs))
            && (o.result == Ok(EffectLedger.StoredNow) ==>
                var receipt := input.receipt.value;
                o.tables == w.t.(remoteReceipts := w.t.remoteReceipts[e :=
                  RemoteRow(input.providerId, receipt.receiptId, input.intent.idempotencyKey, receipt)]))
            && (o.result != Ok(EffectLedger.StoredNow) ==> o.tables == w.t)
  {
    hide Reachable, LedgerInv, CommandInv, EffectLedger.Persist, AwaitsReceipt, Trustworthy, Unspoken;
    ReachableFacts(w);
    PersistOnRows(w.t, answers, input);
  }

  lemma PersistOnRows(t: Tables, answers: RegistryAnswers, input: ReviewInput)
    requires LedgerHolds(t) && CommandInv(t.commands)
    ensures var e, o := input.intent.effectId, EffectLedger.Persist(t, answers, input);
            var due := AwaitsReceipt(t, input.intent, input.fence) && Trustworthy(answers, input);
            && (o.result == Ok(EffectLedger.StoredNow) <==>
                due && e !in t.remoteReceipts && Unspoken(t.remoteReceipts, input.receipt.value))
            && (o.result == Ok(EffectLedger.AlreadyStored) <==>
                due && e in t.remoteReceipts
                && t.remoteReceipts[e].receipt == input.receipt.value.(observedAtMs := t.remoteReceipts[e].receipt.observedAtMs))
            && (o.result == Ok(EffectLedger.StoredNow) ==>
                var receipt := input.receipt.value;
                o.tables == t.(remoteReceipts := t.remoteReceipts[e :=
                  RemoteRow(input.providerId, receipt.receiptId, input.intent.idempotencyKey, receipt)]))
            && (o.result != Ok(EffectLedger.StoredNow) ==> o.tables == t)
  {
    AwaitsIff(t, input.intent, input.fence);
    if AwaitsReceipt(t, input.intent, input.fence) {
      TrustworthyIff(answers, input, UnknownEffect, input.fence.epoch);
    }
    hide FenceBound, LedgerInv, CommandInv, EffectLedger.CurrentAuthority, AwaitsReceipt, ReviewForPersistence, Unspoken,
         EffectLedger.ReceiptClash;
    if AwaitsReceipt(t, input.intent, input.fence) && Trustworthy(answers, input) {
      PersistDue(t, answers, input);
    }
  }

  /** The code's own checks on effect, fence and authority. */
  lemma AwaitsIff(t: Tables, intent: Intent, fence: Fence)
    requires LedgerHolds(t) && CommandInv(t.commands)
    ensures AwaitsReceipt(t, intent, fence) <==>
        && FenceBound(intent, fence) && intent.effectId in t.effects
        && EffectLedger.SameIntent(t.effects[intent.effectId], intent) && t.effects[intent.effectId].epoch == fence.epoch
        && t.effects[intent.effectId].status == UnknownEffect && t.effects[intent.effectId].idempotencyKey !in t.sinkReceipts
        && EffectLedger.CurrentAuthority(t, intent)
  {
    FencedRowIff(t, intent, fence);
    MayActIsAuthority(t, intent);
    hide FenceBound, LedgerInv, CommandInv, EffectLedger.CurrentAuthority, MayAct, FencedRow;
    if intent.effectId in t.effects && t.effects[intent.effectId].intent == intent {
      KeyOf(t, intent.effectId);
    }
    FencedRowHas(t, intent, fence);
  }

  lemma FencedRowHas(t: Tables, intent: Intent, fence: Fence)
    ensures FencedRow(t, intent, fence) ==> intent.effectId in t.effects && t.effects[intent.effectId].intent == intent
  {
    hide EvidenceBound, ValidId;
  }

  lemma KeyOf(t: Tables, e: string)
    requires LedgerHolds(t) && e in t.effects
    ensures t.effects[e].idempotencyKey == t.effects[e].intent.idempotencyKey
  {
    hide SinkRows, RemoteRows, ConsumptionRows, CommittedRows, EffectKeysUnique, RemoteReceiptsUnique, ConsumptionsUnique;
  }

  lemma PersistDue(t: Tables, answers: RegistryAnswers, input: ReviewInput)
    requires LedgerHolds(t) && CommandInv(t.commands)
    requires AwaitsReceipt(t, input.intent, input.fence) && Trustworthy(answers, input)
    ensures var e, receipt, o := input.intent.effectId, input.receipt.value, EffectLedger.Persist(t, answers, input);
            var row := RemoteRow(input.providerId, receipt.receiptId, input.intent.idempotencyKey, receipt);
            o == if e in t.remoteReceipts then
                   Outcome(t, if t.remoteReceipts[e].receipt == receipt.(observedAtMs := t.remoteReceipts[e].receipt.observedAtMs)
                              then Ok(EffectLedger.AlreadyStored) else Denied(EffectLedger.LedgerConflict))
                 else if Unspoken(t.remoteReceipts, receipt) then
                   Outcome(t.(remoteReceipts := t.remoteReceipts[e := row]), Ok(EffectLedger.StoredNow))
                 else Outcome(t, Denied(EffectLedger.LedgerConflict))
  {
    var e, receipt := input.intent.effectId, input.receipt.value;
    AwaitsIff(t, input.intent, input.fence);
    TrustworthyIff(answers, input, UnknownEffect, input.fence.epoch);
    if e in t.remoteReceipts {
      StoredReceiptBound(t, e);
    }
    UnspokenIff(t.remoteReceipts, e, RemoteRow(receipt.providerId, receipt.receiptId, input.intent.idempotencyKey, receipt));
    hide FenceBound, LedgerInv, CommandInv, EffectLedger.CurrentAuthority, AwaitsReceipt, ReviewForPersistence, Unspoken,
         EffectLedger.ReceiptClash;
  }

  lemma UnspokenIff(remotes: map<string, RemoteRow>, e: string, row: RemoteRow)
    requires row.receipt.providerId == row.providerId && row.receipt.receiptId == row.receiptId
    requires row.receipt.idempotencyKey == row.idempotencyKey
    ensures EffectLedger.ReceiptClash(remotes, e, row) <==> e in remotes || !Unspoken(remotes, row.receipt)
  {
  }

  // ----- ready for the terminal transaction -----

  /** The registry stands by the revision the stored receipt was observed at. */
  predicate StandsBy(answers: RegistryAnswers, receipt: Receipt) {
    && answers.available && answers.candidate && SafeInteger(receipt.profileRevision)
    && answers.revisionBefore == Some(receipt.profileRevision) && answers.revisionAfter == Some(receipt.profileRevision)
  }

  /** An effect with a stored receipt of this provider whose command may act and expects the run's control version by number. */
  ghost predicate ReadyForTerminal(t: Tables, answers: RegistryAnswers, intent: Intent, fence: Fence, providerId: string) {
    && AwaitsReceipt(t, intent, fence) && intent.effectId in t.remoteReceipts
    && t.remoteReceipts[intent.effectId].providerId == providerId
    && intent.command.expectedControlVersion == Some(CommandUnitOfWork.ControlVersionOf(t, intent.command.runId))
    && Revision(CommandUnitOfWork.ControlVersionOf(t, intent.command.runId))
    && StandsBy(answers, t.remoteReceipts[intent.effectId].receipt)
  }

  /** The readiness review is positive exactly for such an effect, and the plan then names the stored receipt. */
  lemma PlanAnswers(w: World, answers: RegistryAnswers, intent: Intent, fence: Fence, providerId: string)
    requires Reachable(w)
    ensures var review := EffectLedger.ReviewTerminalReadiness(w.t, answers, intent, fence, providerId);
            && (review.RequiresTerminalTransaction? <==> ReadyForTerminal(w.t, answers, intent, fence, providerId))
            && (review.RequiresTerminalTransaction? ==>
                var receipt := w.t.remoteReceipts[intent.effectId];
                && review == RequiresTerminalTransaction(receipt.receiptId, intent.command.commandId, intent.command.runId,
                                                         intent.command.ControlVersion())
                && (PlanConsumption(intent, fence, providerId, review).ConsumeReceipt? <==>
                    intent.owner == AtomicControlOnly && ValidId(providerId) && ValidId(receipt.receiptId))
                && (PlanConsumption(intent, fence, providerId, review).ConsumeReceipt? ==>
                    PlanConsumption(intent, fence, providerId, review)
                    == ConsumeReceipt(providerId, receipt.receiptId, intent.effectId, intent.idempotencyKey, intent.command.commandId,
                                      intent.command.runId, fence.epoch, intent.command.ControlVersion())))
            && (review.HoldReview? ==> PlanConsumption(intent, fence, providerId, review).HoldPlan?)
  {
    hide Reachable, LedgerInv, CommandInv, ReadyForTerminal, EffectLedger.ReviewTerminalReadiness;
    ReachableFacts(w);
    ReviewOnRows(w.t, answers, intent, fence, providerId);
    if ReadyForTerminal(w.t, answers, intent, fence, providerId) {
      ReadyIsFenced(w.t, answers, intent, fence, providerId);
    }
    hide FenceBound, ValidId;
  }

  lemma ReadyIsFenced(t: Tables, answers: RegistryAnswers, intent: Intent, fence: Fence, providerId: string)
    requires ReadyForTerminal(t, answers, intent, fence, providerId)
    ensures FenceBound(intent, fence) && intent.effectId in t.remoteReceipts
    ensures intent.command.expectedControlVersion.Some? && Revision(intent.command.expectedControlVersion.value)
  {
    BoundFenceIsIssued(intent, fence);
  }

  lemma ReviewOnRows(t: Tables, answers: RegistryAnswers, intent: Intent, fence: Fence, providerId: string)
    requires LedgerHolds(t) && CommandInv(t.commands)
    ensures var review := EffectLedger.ReviewTerminalReadiness(t, answers, intent, fence, providerId);
            && (review.RequiresTerminalTransaction? <==> ReadyForTerminal(t, answers, intent, fence, providerId))
            && (review.RequiresTerminalTransaction? ==>
                review == RequiresTerminalTransaction(t.remoteReceipts[intent.effectId].receiptId, intent.command.commandId,
                                                      intent.command.runId, intent.command.ControlVersion()))
  {
    hide LedgerInv, CommandInv, EffectLedger.ReviewTerminalReadiness, AwaitsReceipt, StandsBy;
    if AwaitsReceipt(t, intent, fence) && intent.effectId in t.remoteReceipts {
      ReviewOfStored(t, answers, intent, fence, providerId);
    } else {
      NothingToReview(t, answers, intent, fence, providerId);
    }
  }

  lemma NothingToReview(t: Tables, answers: RegistryAnswers, intent: Intent, fence: Fence, providerId: string)
    requires LedgerHolds(t) && CommandInv(t.commands)
    requires !AwaitsReceipt(t, intent, fence) || intent.effectId !in t.remoteReceipts
    ensures EffectLedger.ReviewTerminalReadiness(t, answers, intent, fence, providerId).HoldReview?
  {
    AwaitsIff(t, intent, fence);
    hide FenceBound, LedgerInv, CommandInv, EffectLedger.CurrentAuthority, AwaitsReceipt, ReceiptBound, EffectLedger.RegistryAgrees,
         EffectLedger.SameIntent;
  }

  lemma ReviewOfStored(t: Tables, answers: RegistryAnswers, intent: Intent, fence: Fence, providerId: string)
    requires LedgerHolds(t) && CommandInv(t.commands) && AwaitsReceipt(t, intent, fence) && intent.effectId in t.remoteReceipts
    ensures var review := EffectLedger.ReviewTerminalReadiness(t, answers, intent, fence, providerId);
            && (review.RequiresTerminalTransaction? <==> ReadyForTerminal(t, answers, intent, fence, providerId))
            && (review.RequiresTerminalTransaction? ==>
                review == RequiresTerminalTransaction(t.remoteReceipts[intent.effectId].receiptId, intent.command.commandId,
                                                      intent.command.runId, intent.command.ControlVersion()))
  {
    AwaitsIff(t, intent, fence);
    AwaitsHas(t, intent, fence);
    StoredReceiptBound(t, intent.effectId);
    ProviderOf(t.remoteReceipts[intent.effectId].receipt, intent, fence, t.remoteReceipts[intent.effectId].providerId);
    StandsByIff(answers, t.remoteReceipts[intent.effectId].receipt);
    hide FenceBound, LedgerInv, CommandInv, EffectLedger.CurrentAuthority, AwaitsReceipt, ReceiptBound, StandsBy, EffectLedger.RegistryAgrees;
  }

  lemma StandsByIff(answers: RegistryAnswers, receipt: Receipt)
    ensures StandsBy(answers, receipt) <==> EffectLedger.RegistryAgrees(answers, receipt)
  {
  }

  lemma ProviderOf(receipt: Receipt, intent: Intent, fence: Fence, providerId: string)
    requires ReceiptBound(receipt, intent, fence, providerId)
    ensures forall other :: ReceiptBound(receipt, intent, fence, other) <==> other == providerId
  {
  }

  lemma AwaitsHas(t: Tables, intent: Intent, fence: Fence)
    ensures AwaitsReceipt(t, intent, fence) ==>
      && intent.effectId in t.effects && t.effects[intent.effectId].intent == intent
      && fence == IssuedFence(intent, t.effects[intent.effectId].epoch)
  {
    hide EvidenceBound, ValidId, MayAct;
  }

  // ----- the terminal transaction -----

  /** The plan a positive review makes, field by field. */
  ghost predicate PlanFits(input: FinalizeInput, receiptId: string) {
    var intent, request := input.intent, input.intent.command;
    && intent.owner == AtomicControlOnly && request.expectedControlVersion.Some?
    && input.plan == ConsumeReceipt(input.providerId, receiptId, intent.effectId, intent.idempotencyKey, request.commandId,
                                    request.runId, input.fence.epoch, request.expectedControlVersion.value)
    && SaneClocks(input)
  }

  /** What first call and replay need alike: the plan of a stored receipt under the effect's fence, and authority as it was staged. */
  ghost predicate Entitled(t: Tables, input: FinalizeInput) {
    var e, id := input.intent.effectId, input.intent.command.commandId;
    && FencedRow(t, input.intent, input.fence)
    && e in t.remoteReceipts && t.remoteReceipts[e].providerId == input.providerId
    && PlanFits(input, t.remoteReceipts[e].receiptId)
    && AuthorityHolds(t.acl, input.intent.command, input.intent.evidence)
    && id in t.commands && t.commands[id].payload.fenced
  }

  /** The rows a first call compares: effect and command still open, checkpoint and control row at the expected versions, and a legal move. */
  ghost predicate Open(t: Tables, input: FinalizeInput) {
    var request, e := input.intent.command, input.intent.effectId;
    var id, run := request.commandId, request.runId;
    && e in t.effects && t.effects[e].status == UnknownEffect
    && id in t.commands && t.commands[id].version == 2
    && run in t.checkpoints && t.checkpoints[run].version == request.expectedCheckpointVersion
    && !t.checkpoints[run].payload.boundary.Completed?
    && CommandUnitOfWork.ControlVersionOf(t, run) == request.ControlVersion()
    && exists after :: LegalMove(request.operation, ControlStatusOf(t, run), after)
  }

  ghost predicate RegistryStays(t: Tables, answers: RegistryAnswers, e: string) {
    e in t.remoteReceipts && StandsBy(answers, t.remoteReceipts[e].receipt) && answers.atCommit == Read(answers.revisionBefore)
  }

  lemma CommonIff(t: Tables, input: FinalizeInput)
    requires LedgerHolds(t) && CommandInv(t.commands) && EffectCommands(t.effects, t.commands)
    ensures CommonDenial(t, input).None? <==> Entitled(t, input)
  {
    FencedRowIff(t, input.intent, input.fence);
    if input.intent.effectId in t.remoteReceipts {
      StoredReceiptBound(t, input.intent.effectId);
    }
    hide FenceBound, FencedRow, LedgerInv, CommandInv, EffectCommands, AuthorityHolds, SaneClocks, PlanMatches, ReceiptMatches,
         PlanFits, CommandMatches;
    if FencedRow(t, input.intent, input.fence) {
      FencedRowHas(t, input.intent, input.fence);
      CommandOfEffect(t, input.intent.effectId);
      if input.intent.effectId in t.remoteReceipts {
        PlanFitsIff(t, input);
      }
    }
    CommandMatchesIff(t, input.intent);
  }

  lemma CommandOfEffect(t: Tables, e: string)
    requires CommandInv(t.commands) && EffectCommands(t.effects, t.commands) && e in t.effects
    ensures var intent, id := t.effects[e].intent, t.effects[e].intent.command.commandId;
            && id in t.commands && t.commands[id].version == t.commands[id].payload.version
            && t.commands[id].payload.request == intent.command && t.commands[id].payload.owner == Some(intent.owner)
            && (t.commands[id].payload.status == Executing <==> t.commands[id].version == 2)
            && (intent.owner == AtomicControlOnly ==> ControlOnly(intent.command.operation) && !Blank(id))
  {
    assert CommandRow(t.effects[e].intent.command.commandId, t.commands[t.effects[e].intent.command.commandId]);
    hide Blank;
  }

  lemma CommandMatchesIff(t: Tables, intent: Intent)
    ensures var id := intent.command.commandId;
            id in t.commands && t.commands[id].version == t.commands[id].payload.version
            && t.commands[id].payload.request == intent.command && t.commands[id].payload.owner == Some(AtomicControlOnly) ==>
            (CommandMatches(t.commands[id], intent) <==> t.commands[id].payload.fenced)
  {
  }

  /** Given the stored receipt of the effect, the checks on plan and receipt come down to the plan and the provider. */
  lemma PlanFitsIff(t: Tables, input: FinalizeInput)
    requires LedgerHolds(t) && FencedRow(t, input.intent, input.fence) && input.intent.effectId in t.remoteReceipts
    ensures var row := t.remoteReceipts[input.intent.effectId];
            && (PlanMatches(input) && ReceiptMatches(row, input) <==> PlanFits(input, row.receiptId) && row.providerId == input.providerId)
            && (PlanFits(input, row.receiptId) ==> input.intent.owner == AtomicControlOnly)
  {
    StoredReceiptBound(t, input.intent.effectId);
    FencedRowHas(t, input.intent, input.fence);
    hide LedgerInv, FencedRow;
  }

  lemma PreparedIff(t: Tables, input: FinalizeInput)
    requires var request := input.intent.command;
             && ControlOnly(request.operation) && !Blank(request.commandId)
             && request.runId in t.checkpoints && t.checkpoints[request.runId].payload.runId == request.runId
             && t.checkpoints[request.runId].payload.version == request.expectedCheckpointVersion
             && (request.runId in t.controls ==>
                 && t.controls[request.runId].payload.runId == request.runId
                 && t.controls[request.runId].payload.version == t.controls[request.runId].version)
             && CommandUnitOfWork.ControlVersionOf(t, request.runId) == request.ControlVersion()
    ensures PreparedFor(t, input).Ok? && PreparedFor(t, input).value.outcome == Applied <==>
        && !t.checkpoints[input.intent.command.runId].payload.boundary.Completed?
        && exists after :: LegalMove(input.intent.command.operation, ControlStatusOf(t, input.intent.command.runId), after)
  {
    var request := input.intent.command;
    assert PreparedFor(t, input).Ok?;
    var current := CurrentControl(request.runId, CommandUnitOfWork.StoredControl(t, request.runId), input.at);
    assert current.version == request.ControlVersion() && current.status == ControlStatusOf(t, request.runId);
    AppliedIff(request, t.checkpoints[request.runId].payload, CommandUnitOfWork.StoredControl(t, request.runId),
               SAME_SQLITE_AUTHORIZED, input.at);
    hide Prepare, Blank;
  }

  lemma ControlPayload(w: World, run: string)
    requires ControlInv(w.t.controls, w.history.controls, w.t.commands) && run in w.t.controls
    ensures w.t.controls[run].payload.runId == run && w.t.controls[run].payload.version == w.t.controls[run].version
  {
    var log := w.history.controls[run];
    assert ControlLog(run, log, w.t.commands);
    assert ControlEntry(run, log, |log| - 1, w.t.commands);
  }

  /**
   * A first call consumes the receipt if and only if its caller is entitled to, effect, command, checkpoint and control row
   * are as they must be, the registry stands by the receipt up to the commit, and no fault is injected.
   */
  lemma FinalizeDecides(w: World, answers: RegistryAnswers, input: FinalizeInput, fault: bool)
    requires Reachable(w) && input.intent.effectId !in w.t.consumptions
    ensures ReceiptFinalizer.Finalize(w.t, answers, input, fault).result.Ok? <==>
        Entitled(w.t, input) && Open(w.t, input) && RegistryStays(w.t, answers, input.intent.effectId) && !fault
  {
    hide Reachable, LedgerInv, CommandInv, EffectCommands, CheckpointInv, ControlInv, MayFinalize, Entitled, Open, RegistryStays,
         ReceiptFinalizer.Finalize, CommonDenial;
    FinalizesIff(w, answers, input, fault);
    ReachableFacts(w);
    CommonIff(w.t, input);
    if CommonDenial(w.t, input).None? {
      OpenIff(w, answers, input);
    } else {
      NotCommonNotFinal(w.t, answers, input);
    }
  }

  lemma NotCommonNotFinal(t: Tables, answers: RegistryAnswers, input: FinalizeInput)
    requires CommonDenial(t, input).Some?
    ensures !MayFinalize(t, answers, input)
  {
    hide CommonDenial;
  }

  lemma OpenIff(w: World, answers: RegistryAnswers, input: FinalizeInput)
    requires LedgerHolds(w.t) && CommandInv(w.t.commands) && EffectCommands(w.t.effects, w.t.commands)
    requires CheckpointInv(w.t.checkpoints, w.history.checkpoints) && ControlInv(w.t.controls, w.history.controls, w.t.commands)
    requires CommonDenial(w.t, input).None? && Entitled(w.t, input)
    ensures MayFinalize(w.t, answers, input) <==> Open(w.t, input) && RegistryStays(w.t, answers, input.intent.effectId)
  {
    var run := input.intent.command.runId;
    hide FenceBound, LedgerInv, CommandInv, EffectCommands, CheckpointInv, ControlInv, AuthorityHolds, SaneClocks, CommonDenial,
         PreparedFor, LegalMove, Blank, CasDenial, Open, RegistryStays, FencedRow;
    FencedRowHas(w.t, input.intent, input.fence);
    CommandOfEffect(w.t, input.intent.effectId);
    StoredReceiptBound(w.t, input.intent.effectId);
    CasIff(w.t, answers, input);
    if run in w.t.checkpoints {
      CommandTheorems.StoredVersions(w, run);
    }
    if run in w.t.controls {
      ControlPayload(w, run);
    }
    if CasDenial(w.t, answers, input).None? {
      PreparedIff(w.t, input);
    }
    OpenParts(w.t, answers, input);
  }

  /** The compare-and-set checks, one by one. */
  ghost predicate Comparisons(t: Tables, answers: RegistryAnswers, input: FinalizeInput) {
    var request, e := input.intent.command, input.intent.effectId;
    var id, run := request.commandId, request.runId;
    && e in t.effects && t.effects[e].status == UnknownEffect
    && id in t.commands && t.commands[id].version == 2
    && run in t.checkpoints && t.checkpoints[run].version == request.expectedCheckpointVersion
    && CommandUnitOfWork.ControlVersionOf(t, run) == request.ControlVersion()
    && e in t.remoteReceipts && StandsBy(answers, t.remoteReceipts[e].receipt)
  }

  lemma CasIff(t: Tables, answers: RegistryAnswers, input: FinalizeInput)
    requires CommonDenial(t, input).None?
    requires input.intent.effectId in t.effects && input.intent.effectId in t.remoteReceipts
    requires PlanFits(input, t.remoteReceipts[input.intent.effectId].receiptId) && input.intent.idempotencyKey !in t.sinkReceipts
    requires var id := input.intent.command.commandId;
             id in t.commands && (t.commands[id].payload.status == Executing <==> t.commands[id].version == 2)
    ensures CasDenial(t, answers, input).None? <==> Comparisons(t, answers, input)
  {
    hide CommonDenial, SaneClocks;
  }

  lemma OpenParts(t: Tables, answers: RegistryAnswers, input: FinalizeInput)
    ensures Open(t, input) && RegistryStays(t, answers, input.intent.effectId) <==>
        && Comparisons(t, answers, input) && answers.StaysPut()
        && !t.checkpoints[input.intent.command.runId].payload.boundary.Completed?
        && exists after :: LegalMove(input.intent.command.operation, ControlStatusOf(t, input.intent.command.runId), after)
  {
    hide LegalMove, StandsBy;
  }

  /** A call for an effect that is consumed already is answered from the consumption row, exactly while that is the run's last word; it never writes. */
  lemma FinalizeOnConsumed(w: World, answers: RegistryAnswers, input: FinalizeInput, fault: bool)
    requires Reachable(w) && input.intent.effectId in w.t.consumptions
    ensures var row, o := w.t.consumptions[input.intent.effectId], ReceiptFinalizer.Finalize(w.t, answers, input, fault);
            && o.tables == w.t
            && (o.result.Ok? <==>
                Entitled(w.t, input) && CommandUnitOfWork.ControlVersionOf(w.t, input.intent.command.runId) == row.controlVersion)
            && (o.result.Ok? ==> o.result.value == ReplayedTerminal(row.controlVersion, ReceiptEventId(input.intent.command.commandId)))
  {
    hide Reachable, LedgerInv, CommandInv, EffectCommands, ConsumptionInv, ControlInv, Entitled, CommonDenial,
         ReceiptFinalizer.Finalize, CommandUnitOfWork.ControlVersionOf, ReceiptEventId;
    ReachableFacts(w);
    CommonIff(w.t, input);
    if Entitled(w.t, input) {
      EntitledReplays(w, input);
      ReplayAnswers(w, answers, input, fault, w.t.consumptions[input.intent.effectId].controlVersion);
      EntitledHolds(w.t, input);
    } else {
      DeniedInCommon(w.t, answers, input, fault);
    }
  }

  lemma DeniedInCommon(t: Tables, answers: RegistryAnswers, input: FinalizeInput, fault: bool)
    requires CommonDenial(t, input).Some?
    ensures ReceiptFinalizer.Finalize(t, answers, input, fault).result.Denied? && ReceiptFinalizer.Finalize(t, answers, input, fault).tables == t
  {
    hide CommonDenial;
  }

  lemma EntitledHolds(t: Tables, input: FinalizeInput)
    requires Entitled(t, input)
    ensures AuthorityHolds(t.acl, input.intent.command, input.intent.evidence)
  {
    hide FencedRow, PlanFits, AuthorityHolds;
  }

  lemma EntitledReplays(w: World, input: FinalizeInput)
    requires LedgerHolds(w.t) && Entitled(w.t, input) && CommonDenial(w.t, input).None?
    requires input.intent.effectId in w.t.consumptions
    ensures Replayable(w, input, w.t.consumptions[input.intent.effectId].controlVersion)
  {
    hide FenceBound, FencedRow, LedgerInv, AuthorityHolds, PlanMatches, ReceiptMatches, CommandMatches, PlanFits;
  }
}
