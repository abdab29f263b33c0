/** The pure reviews around a remote receipt: before it is stored, and before it is consumed. */
module ReceiptReview {
  import opened Text
  import opened Records
  import opened Authority

  /** A verified capability profile, as far as the review reads it. */
  datatype Profile = Profile(providerId: string, authoritativeFinal: bool, stableReceiptIdentity: bool)

  /** The registry is asked once more just before the commit, and may throw then. */
  datatype LastLook = LookThrew | Read(revision: Option<int>)

  /** What the provider registry, which lives outside the database, answers during one call. */
  datatype RegistryAnswers = RegistryAnswers(
    available: bool,
    revisionBefore: Option<int>,
    candidate: bool,
    profile: Option<Profile>,
    revisionAfter: Option<int>,
    atCommit: LastLook)
  {
    /** The registry answers at the end what it answered at the beginning. */
    predicate StaysPut() {
      atCommit == Read(revisionBefore)
    }
  }

  predicate PositiveSafe(n: int) {
    0 < n <= MAX_SAFE
  }

  datatype ReviewInput = ReviewInput(
    intent: Intent,
    fence: Fence,
    providerId: string,
    receipt: Option<Receipt>,
    nowMs: int,
    maxObservationAgeMs: int)

  datatype ReviewHold =
    | BadOrStaleEffectFence
    | LedgerNotUnknown
    | ProviderConformanceDenied
    | MissingOrUntrustedReceipt
    | ReceiptIdentityMismatch
    | ReceiptRevisionMismatch
    | ReceiptObservationStale
    | AuthorityUnavailable

  datatype ReceiptIdentity = ReceiptIdentity(
    providerId: string,
    receiptId: string,
    effectId: string,
    idempotencyKey: string,
    commandId: string,
    epoch: int)

  /** Every field a stored receipt must repeat from the intent and the fence. */
  predicate ReceiptBound(receipt: Receipt, intent: Intent, fence: Fence, providerId: string) {
    && receipt.providerId == providerId
    && receipt.commandId == intent.command.commandId
    && receipt.runId == intent.command.runId
    && receipt.operation == intent.command.operation
    && receipt.actorId == intent.command.requestedBy
    && receipt.tenantId == intent.evidence.tenantId
    && receipt.owner == intent.owner
    && receipt.effectId == intent.effectId
    && receipt.idempotencyKey == intent.idempotencyKey
    && receipt.epoch == fence.epoch
  }

  predicate ConformantProvider(answers: RegistryAnswers, providerId: string) {
    && answers.candidate
    && answers.profile.Some?
    && answers.profile.value.providerId == providerId
    && answers.profile.value.authoritativeFinal
    && answers.profile.value.stableReceiptIdentity
    && answers.revisionBefore.Some? && PositiveSafe(answers.revisionBefore.value)
    && answers.revisionBefore == answers.revisionAfter
  }

  predicate FreshObservation(observedAtMs: int, nowMs: int, maxAgeMs: int) {
    && PositiveSafe(nowMs) && PositiveSafe(maxAgeMs) && PositiveSafe(observedAtMs)
    && observedAtMs <= nowMs
    && nowMs - observedAtMs <= maxAgeMs
  }

  // The advisory policy for an UNKNOWN effect, on an "applied" observation.

  datatype UnknownPlan =
    | ManualReview
    | AppliedNeedsPersistence(receiptId: string)

  function PlanUnknownApplied(intent: Intent, fence: Fence, status: EffectStatus, epoch: int,
                              authoritativeFinal: bool, observed: Receipt): UnknownPlan {
    if !FenceBound(intent, fence) || status != UnknownEffect || epoch != fence.epoch || !authoritativeFinal
       || observed.commandId != intent.command.commandId || observed.effectId != intent.effectId
       || observed.idempotencyKey != intent.idempotencyKey || !ValidId(observed.receiptId) then ManualReview
    else AppliedNeedsPersistence(observed.receiptId)
  }

  function ReviewForPersistence(answers: RegistryAnswers, input: ReviewInput, status: EffectStatus, epoch: int)
    : Result<ReceiptIdentity, ReviewHold>
  {
    if !FenceBound(input.intent, input.fence) then Denied(BadOrStaleEffectFence)
    else if status != UnknownEffect || epoch != input.fence.epoch then Denied(LedgerNotUnknown)
    else if !answers.available then Denied(AuthorityUnavailable)
    else if !ConformantProvider(answers, input.providerId) then Denied(ProviderConformanceDenied)
    else if input.receipt.None? || !input.receipt.value.trusted
            || !ValidId(input.receipt.value.receiptId) || !ValidId(input.receipt.value.providerId) then
      Denied(MissingOrUntrustedReceipt)
    else
      var r := input.receipt.value;
      if !ReceiptBound(r, input.intent, input.fence, input.providerId) then Denied(ReceiptIdentityMismatch)
      else if !PositiveSafe(r.profileRevision) || Some(r.profileRevision) != answers.revisionBefore then
        Denied(ReceiptRevisionMismatch)
      else if !FreshObservation(r.observedAtMs, input.nowMs, input.maxObservationAgeMs) then
        Denied(ReceiptObservationStale)
      else
        match PlanUnknownApplied(input.intent, input.fence, status, epoch, answers.profile.value.authoritativeFinal, r)
        case ManualReview => Denied(ProviderConformanceDenied)
        case AppliedNeedsPersistence(receiptId) =>
          Ok(ReceiptIdentity(r.providerId, receiptId, r.effectId, r.idempotencyKey, r.commandId, r.epoch))
  }

  /** The review accepts exactly when every independent check holds; its last denial cannot fire. */
  lemma ReviewAcceptsIff(answers: RegistryAnswers, input: ReviewInput, status: EffectStatus, epoch: int)
    ensures var review := ReviewForPersistence(answers, input, status, epoch);
            && (review.Ok? <==>
                && FenceBound(input.intent, input.fence)
                && status == UnknownEffect && epoch == input.fence.epoch
                && answers.available && ConformantProvider(answers, input.providerId)
                && input.receipt.Some? && input.receipt.value.trusted && ValidId(input.receipt.value.receiptId)
                && ValidId(input.providerId)
                && ReceiptBound(input.receipt.value, input.intent, input.fence, input.providerId)
                && Some(input.receipt.value.profileRevision) == answers.revisionBefore
                && FreshObservation(input.receipt.value.observedAtMs, input.nowMs, input.maxObservationAgeMs))
            && (review.Ok? ==>
                review.value == ReceiptIdentity(input.providerId, input.receipt.value.receiptId, input.intent.effectId,
                                                input.intent.idempotencyKey, input.intent.command.commandId,
                                                input.fence.epoch))
  {
    if input.receipt.Some? && ReceiptBound(input.receipt.value, input.intent, input.fence, input.providerId) {
      assert input.receipt.value.providerId == input.providerId;
    }
  }

  // ----- planning the consumption of a stored receipt -----

  datatype TerminalReview =
    | HoldReview
    | RequiresTerminalTransaction(receiptId: string, commandId: string, runId: string, expectedControlVersion: int)

  datatype PlanHold =
    | InvalidFence
    | ReviewNotReady
    | UnsupportedOwner
    | InvalidReceiptIdentity
    | IdentityMismatchHold
    | VersionMismatch

  /** The fixed literals of the plan (unknown, executing, version 2, no resend) are left implicit. */
  datatype ConsumptionPlan =
    | HoldPlan(reason: PlanHold)
    | ConsumeReceipt(providerId: string, receiptId: string, effectId: string, idempotencyKey: string,
                     commandId: string, runId: string, epoch: int, expectedControlVersion: int)

  function PlanConsumption(intent: Intent, fence: Fence, providerId: string, review: TerminalReview): ConsumptionPlan {
    if !FenceBound(intent, fence) then HoldPlan(InvalidFence)
    else if review.HoldReview? then HoldPlan(ReviewNotReady)
    else if intent.owner != AtomicControlOnly then HoldPlan(UnsupportedOwner)
    else if !ValidId(providerId) || !ValidId(review.receiptId) then HoldPlan(InvalidReceiptIdentity)
    else if review.commandId != intent.command.commandId || review.runId != intent.command.runId then
      HoldPlan(IdentityMismatchHold)
    else if intent.command.expectedControlVersion.None?
            || !Revision(intent.command.expectedControlVersion.value)
            || review.expectedControlVersion != intent.command.expectedControlVersion.value then HoldPlan(VersionMismatch)
    else ConsumeReceipt(providerId, review.receiptId, intent.effectId, intent.idempotencyKey, intent.command.commandId,
                        intent.command.runId, fence.epoch, review.expectedControlVersion)
  }
}
