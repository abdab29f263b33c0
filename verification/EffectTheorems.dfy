/** What holds of external effects in every reachable state and over every run. */
module EffectTheorems {
  import opened Text
  import opened Records
  import opened Database
  import opened Authority
  import opened ReceiptReview
  import opened EffectLedger
  import opened World
  import opened Invariants
  import opened Safety

  ghost predicate LedgerHolds(t: Tables) {
    LedgerInv(t.effects, t.sinkReceipts, t.remoteReceipts, t.consumptions)
  }

  // ----- the two kinds of receipt -----

  ghost predicate HasSinkReceipt(t: Tables, e: string) {
    exists k :: k in t.sinkReceipts && t.sinkReceipts[k].effectId == e
  }

  ghost predicate ConsumedRemotely(t: Tables, e: string) {
    e in t.remoteReceipts && e in t.consumptions
  }

  lemma ReceiptsOf(t: Tables, e: string)
    requires LedgerHolds(t) && e in t.effects
    ensures HasSinkReceipt(t, e) <==> t.effects[e].idempotencyKey in t.sinkReceipts
    ensures t.effects[e].status == PendingEffect ==> !HasSinkReceipt(t, e) && e !in t.remoteReceipts
    ensures !(HasSinkReceipt(t, e) && e in t.remoteReceipts)
    ensures t.effects[e].status == Committed ==> HasSinkReceipt(t, e) != ConsumedRemotely(t, e)
    ensures e in t.consumptions ==> t.effects[e].status == Committed && e in t.remoteReceipts
  {
    var key := t.effects[e].idempotencyKey;
    if HasSinkReceipt(t, e) {
      var k :| k in t.sinkReceipts && t.sinkReceipts[k].effectId == e;
      assert k == key;
    }
    if key in t.sinkReceipts {
      assert t.effects[t.sinkReceipts[key].effectId].idempotencyKey == t.effects[e].idempotencyKey;
    }
  }

  /**
   * In every reachable state a pending effect has no receipt of either kind, no effect has both
   * kinds, and a committed one has exactly one of a sink receipt and a consumed remote receipt.
   */
  lemma ReceiptsAreExclusive(w: World, e: string)
    requires Reachable(w) && e in w.t.effects
    ensures w.t.effects[e].status == PendingEffect ==> !HasSinkReceipt(w.t, e) && e !in w.t.remoteReceipts
    ensures !(HasSinkReceipt(w.t, e) && e in w.t.remoteReceipts)
    ensures w.t.effects[e].status == Committed ==> HasSinkReceipt(w.t, e) != ConsumedRemotely(w.t, e)
    ensures e in w.t.consumptions ==> w.t.effects[e].status == Committed && e in w.t.remoteReceipts
  {
    hide Reachable, LedgerInv, HasSinkReceipt, ConsumedRemotely;
    ReachableFacts(w);
    ReceiptsOf(w.t, e);
  }

  // ----- epochs and fences -----

  lemma FencesOf(effects: map<string, Effect>, fences: map<string, seq<Fence>>, e: string)
    requires FenceInv(effects, fences) && e in effects
    ensures var log := Log(fences, e);
            && effects[e].epoch == |log|
            && (forall i | 0 <= i < |log| :: log[i] == IssuedFence(effects[e].intent, i + 1))
            && (forall i, j | 0 <= i < j < |log| :: log[i].epoch != log[j].epoch)
  {
  }

  lemma EpochIsSafe(t: Tables, e: string)
    requires LedgerHolds(t) && e in t.effects
    ensures 0 <= t.effects[e].epoch <= MAX_SAFE
    ensures t.effects[e].idempotencyKey == t.effects[e].intent.idempotencyKey && t.effects[e].intent.effectId == e
  {
  }

  /** The epoch counts the successful dispatch claims, stays a safe integer, and no two fences share one. */
  lemma EpochsCountClaims(w: World, e: string)
    requires Reachable(w) && e in w.t.effects
    ensures var log := Log(w.history.fences, e);
            && w.t.effects[e].epoch == |log| <= MAX_SAFE
            && (forall i | 0 <= i < |log| :: log[i] == IssuedFence(w.t.effects[e].intent, i + 1))
            && (forall i, j | 0 <= i < j < |log| :: log[i].epoch != log[j].epoch)
  {
    hide Reachable, LedgerInv, FenceInv, IssuedFence, Log;
    ReachableFacts(w);
    FencesOf(w.t.effects, w.history.fences, e);
    EpochIsSafe(w.t, e);
  }

  /** The current row of the effect a fence names is bound to it. */
  ghost predicate FenceCurrent(t: Tables, intent: Intent, fence: Fence) {
    && FenceBound(intent, fence)
    && intent.effectId in t.effects && SameIntent(t.effects[intent.effectId], intent)
    && t.effects[intent.effectId].epoch == fence.epoch
  }

  lemma AcceptanceChecksTheFence(t: Tables, intent: Intent, fence: Fence, answers: RegistryAnswers, input: ReviewInput)
    ensures EffectLedger.Dispatch(t, intent, fence).result.Ok? ==> FenceCurrent(t, intent, fence)
    ensures EffectLedger.Confirm(t, intent, fence).result.Ok? ==> FenceCurrent(t, intent, fence)
    ensures EffectLedger.Persist(t, answers, input).result.Ok? ==> FenceCurrent(t, input.intent, input.fence)
  {
    hide FenceBound, CurrentAuthority, ReviewForPersistence, ReceiptClash;
  }

  lemma CurrentFenceWasIssued(w: World, intent: Intent, fence: Fence)
    requires FenceInv(w.t.effects, w.history.fences) && FenceCurrent(w.t, intent, fence)
    ensures var log := Log(w.history.fences, intent.effectId);
            0 < |log| == fence.epoch && log[|log| - 1] == fence
  {
    BoundFenceIsIssued(intent, fence);
  }

  /** Whatever fence a ledger transaction accepts, it is the latest one a dispatch claim issued for that effect. */
  lemma AcceptedFencesWereIssued(w: World, intent: Intent, fence: Fence, answers: RegistryAnswers, input: ReviewInput)
    requires Reachable(w)
    requires || EffectLedger.Dispatch(w.t, intent, fence).result.Ok?
             || EffectLedger.Confirm(w.t, intent, fence).result.Ok?
             || (EffectLedger.Persist(w.t, answers, input).result.Ok? && input.intent == intent && input.fence == fence)
    ensures var log := Log(w.history.fences, intent.effectId);
            0 < |log| == fence.epoch && log[|log| - 1] == fence
  {
    hide Reachable, FenceInv, FenceCurrent, EffectLedger.Dispatch, EffectLedger.Confirm, EffectLedger.Persist, Log;
    AcceptanceChecksTheFence(w.t, intent, fence, answers, input);
    ReachableFacts(w);
    CurrentFenceWasIssued(w, intent, fence);
  }

  lemma SinkRowFacts(t: Tables, k: string)
    requires LedgerHolds(t) && k in t.sinkReceipts
    ensures var e := t.sinkReceipts[k].effectId;
            && e in t.effects && t.effects[e].idempotencyKey == k
            && t.effects[e].epoch == t.sinkReceipts[k].appliedEpoch && t.effects[e].status != PendingEffect
            && e !in t.remoteReceipts
  {
  }

  /** With a sink receipt stored, a fence of another epoch is never accepted and nothing is applied again. */
  lemma AppliedOnceHere(t: Tables, k: string, intent: Intent, fence: Fence)
    requires LedgerHolds(t) && k in t.sinkReceipts && intent.effectId == t.sinkReceipts[k].effectId
    ensures EffectLedger.Dispatch(t, intent, fence).result.Ok? ==>
        && fence.epoch == t.sinkReceipts[k].appliedEpoch
        && EffectLedger.Dispatch(t, intent, fence) == Outcome(t, Ok(AlreadyApplied))
    ensures EffectLedger.Confirm(t, intent, fence).result.Ok? ==> fence.epoch == t.sinkReceipts[k].appliedEpoch
  {
    SinkRowFacts(t, k);
    hide LedgerHolds, CurrentAuthority, FenceBound;
  }

  /**
   * Once a sink receipt exists its applied epoch is the effect's epoch in every later state, and no
   * fence of another epoch is ever answered committed or already applied again.
   */
  lemma AppliedEpochIsFinal(w: World, later: World, k: string, intent: Intent, fence: Fence)
    requires Reachable(w) && Leads(w, later) && k in w.t.sinkReceipts
    ensures var receipt := w.t.sinkReceipts[k];
            && k in later.t.sinkReceipts && later.t.sinkReceipts[k] == receipt
            && receipt.effectId in later.t.effects && later.t.effects[receipt.effectId].epoch == receipt.appliedEpoch
            && (intent.effectId == receipt.effectId && EffectLedger.Dispatch(later.t, intent, fence).result.Ok? ==>
                && fence.epoch == receipt.appliedEpoch
                && EffectLedger.Dispatch(later.t, intent, fence) == Outcome(later.t, Ok(AlreadyApplied)))
            && (intent.effectId == receipt.effectId && EffectLedger.Confirm(later.t, intent, fence).result.Ok? ==>
                fence.epoch == receipt.appliedEpoch)
  {
    hide Reachable, Leads, LedgerInv, EffectLedger.Dispatch, EffectLedger.Confirm;
    LaterFacts(w, later);
    ReachableFacts(later);
    SinkRowFacts(later.t, k);
    if intent.effectId == w.t.sinkReceipts[k].effectId {
      AppliedOnceHere(later.t, k, intent, fence);
    }
  }

  // ----- remote receipts -----

  lemma RemoteRowFacts(t: Tables, e: string)
    requires LedgerHolds(t) && e in t.remoteReceipts
    ensures e in t.effects && RemoteRowBound(t.remoteReceipts[e], t.effects[e].intent, t.effects[e].epoch)
    ensures forall f | f in t.remoteReceipts && SameReceipt(t.remoteReceipts[f], t.remoteReceipts[e]) :: f == e
    ensures t.effects[e].status == (if e in t.consumptions then Committed else UnknownEffect)
    ensures t.effects[e].idempotencyKey !in t.sinkReceipts
  {
  }

  /**
   * Effects and (provider, receipt id) pairs are matched one to one, a stored row never changes, and
   * its effect stays UNKNOWN at the same epoch until exactly its consumption commits it.
   */
  lemma RemoteReceiptsAreAnInjection(w: World, later: World, e: string)
    requires Reachable(w) && Leads(w, later) && e in w.t.remoteReceipts
    ensures e in later.t.remoteReceipts && later.t.remoteReceipts[e] == w.t.remoteReceipts[e]
    ensures forall f | f in later.t.remoteReceipts && SameReceipt(later.t.remoteReceipts[f], w.t.remoteReceipts[e]) :: f == e
    ensures e in w.t.effects && e in later.t.effects
    ensures RemoteRowBound(w.t.remoteReceipts[e], later.t.effects[e].intent, later.t.effects[e].epoch)
    ensures later.t.effects[e].epoch == w.t.effects[e].epoch
    ensures later.t.effects[e].status == (if e in later.t.consumptions then Committed else UnknownEffect)
  {
    hide Reachable, Leads, LedgerInv, SameReceipt;
    LaterFacts(w, later);
    ReachableFacts(w);
    ReachableFacts(later);
    RemoteRowFacts(w.t, e);
    RemoteRowFacts(later.t, e);
  }

  lemma RemoteRowColumns(t: Tables, e: string)
    requires LedgerHolds(t) && e in t.remoteReceipts && e in t.effects
    ensures var row := t.remoteReceipts[e];
            && row.providerId == row.receipt.providerId && row.receiptId == row.receipt.receiptId
            && row.idempotencyKey == t.effects[e].idempotencyKey
            && row.receipt.idempotencyKey == t.effects[e].idempotencyKey
  {
  }

  /** When a receipt for an effect that has one already is recognised. */
  ghost predicate Recognised(t: Tables, answers: RegistryAnswers, input: ReviewInput)
    requires input.intent.effectId in t.remoteReceipts
  {
    && FenceCurrent(t, input.intent, input.fence)
    && input.intent.effectId !in t.consumptions
    && CurrentAuthority(t, input.intent)
    && ReviewForPersistence(answers, input, UnknownEffect, input.fence.epoch).Ok?
    && input.receipt.Some?
    && SameObservation(t.remoteReceipts[input.intent.effectId].receipt, input.receipt.value)
  }

  lemma AlreadyStoredHere(t: Tables, answers: RegistryAnswers, input: ReviewInput)
    requires LedgerHolds(t) && input.intent.effectId in t.remoteReceipts && input.intent.effectId in t.effects
    ensures EffectLedger.Persist(t, answers, input)
         == Outcome(t, if Recognised(t, answers, input) then Ok(AlreadyStored) else Denied(EffectLedger.LedgerConflict))
  {
    RemoteRowFacts(t, input.intent.effectId);
    if input.receipt.Some? {
      SameObservationSameRow(t, input.intent.effectId, input.receipt.value);
    }
    hide LedgerHolds, CurrentAuthority, FenceBound, ReviewForPersistence, ReceiptBound, RemoteRowBound, SameIntent,
         SameReceipt, SameProviderKey, SameObservation;
  }

  lemma SameObservationSameRow(t: Tables, e: string, receipt: Receipt)
    requires LedgerHolds(t) && e in t.remoteReceipts && e in t.effects
    ensures var stored := t.remoteReceipts[e];
            var row := RemoteRow(receipt.providerId, receipt.receiptId, t.effects[e].idempotencyKey, receipt);
            SameObservation(stored.receipt, receipt) ==> SameReceipt(stored, row) && SameProviderKey(stored, row)
  {
    RemoteRowColumns(t, e);
    hide LedgerHolds;
  }

  /**
   * With a remote receipt stored, another one is answered "already stored" exactly when the effect is
   * not consumed, fence and authority are current, the review accepts, and the receipt equals the
   * stored one up to its observation time. Nothing is written either way.
   */
  lemma AlreadyStoredIff(w: World, answers: RegistryAnswers, input: ReviewInput)
    requires Reachable(w) && input.intent.effectId in w.t.remoteReceipts
    ensures EffectLedger.Persist(w.t, answers, input)
         == Outcome(w.t, if Recognised(w.t, answers, input) then Ok(AlreadyStored) else Denied(EffectLedger.LedgerConflict))
  {
    hide Reachable, LedgerInv, EffectLedger.Persist, Recognised;
    ReachableFacts(w);
    RemoteRowFacts(w.t, input.intent.effectId);
    AlreadyStoredHere(w.t, answers, input);
  }
}
