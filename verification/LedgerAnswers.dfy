/** What the ledger's answers mean: each is tied to what was done to the effect before, and to what is stored after. */
module LedgerAnswers {
  import opened Text
  import opened Records
  import opened Database
  import opened Authority
  import opened ReceiptReview
  import opened World
  import opened Invariants
  import opened Safety
  import opened Frames
  import opened EffectTheorems
  import CommandUnitOfWork
  import ControlPreparation
  import EffectLedger
  import ReceiptFinalizer
  import OutboxDelivery
  import ReceiptTheorems

  // ----- which steps touch an effect row -----

  lemma CommandStepsKeepEffects(w: World, a: Action)
    requires a.ClaimCommand? || a.AdmitCommand? || a.ReadCheckpoint? || a.ReadControl? || a.Authorize? || a.CommitAtomic? || a.Crash?
    ensures Step(w, a).t.effects == w.t.effects
  {
    hide StepFinalize, StepClaim, StepAdmit, StepReadCheckpoint, StepReadControl, StepAuthorize, StepCommitAtomic,
         StepInsertLegacy, StepStartLegacy, StepInvokeLegacy, StepFinishLegacy, StepSaveRun, StepClaimEffect,
         EffectLedger.Stage, EffectLedger.Dispatch, EffectLedger.Confirm, EffectLedger.MarkUnknown, EffectLedger.Reconcile,
         EffectLedger.Persist, OutboxDelivery.ClaimLease, OutboxDelivery.Acknowledge, CommandUnitOfWork.LegacyUpdate;
    match a
    case ClaimCommand(worker, request, owner, evidence, at) => ClaimKeepsEffects(w, worker, request, owner, evidence, at);
    case AdmitCommand(worker, request, at) => AdmitKeepsEffects(w, worker, request, at);
    case CommitAtomic(worker, preparedAt, eventAt, at) => CommitKeepsEffects(w, worker, preparedAt, eventAt, at);
    case ReadCheckpoint(worker) => ReadsKeepEffects(w, worker, ControlPreparation.Decision(false, ""));
    case ReadControl(worker) => ReadsKeepEffects(w, worker, ControlPreparation.Decision(false, ""));
    case Authorize(worker, decision) => ReadsKeepEffects(w, worker, decision);
    case Crash(_) =>
  }

  lemma ClaimKeepsEffects(w: World, worker: nat, request: Request, owner: Owner, evidence: Option<Evidence>, at: Timestamp)
    ensures StepClaim(w, worker, request, owner, evidence, at).t.effects == w.t.effects
  {
    ClaimTouchesCommands(w.t, request, owner, evidence, at);
    hide CommandUnitOfWork.Claim;
  }

  lemma AdmitKeepsEffects(w: World, worker: nat, request: Request, at: Timestamp)
    ensures StepAdmit(w, worker, request, at).t.effects == w.t.effects
  {
    hide Blank;
  }

  lemma CommitKeepsEffects(w: World, worker: nat, preparedAt: Timestamp, eventAt: Timestamp, at: Timestamp)
    ensures StepCommitAtomic(w, worker, preparedAt, eventAt, at).t.effects == w.t.effects
  {
    hide CommandUnitOfWork.Commit, AtomicDraft;
    var draft := AtomicDraft(AtomicAt(w, worker), preparedAt, eventAt);
    if draft.Some? {
      CommitTablesFrame(w.t, draft.value, at);
    }
  }

  lemma ReadsKeepEffects(w: World, worker: nat, decision: ControlPreparation.Decision)
    ensures StepReadCheckpoint(w, worker).t.effects == w.t.effects && StepReadControl(w, worker).t.effects == w.t.effects
    ensures StepAuthorize(w, worker, decision).t.effects == w.t.effects
  {
  }

  lemma LegacyStepsKeepEffects(w: World, a: Action)
    requires a.InsertLegacy? || a.StartLegacy? || a.InvokeLegacy? || a.FinishLegacy? || a.ProposeLegacy?
    ensures Step(w, a).t.effects == w.t.effects
  {
    hide StepFinalize, StepClaim, StepAdmit, StepReadCheckpoint, StepReadControl, StepAuthorize, StepCommitAtomic, StepSaveRun,
         StepClaimEffect, EffectLedger.Stage, EffectLedger.Dispatch, EffectLedger.Confirm, EffectLedger.MarkUnknown,
         EffectLedger.Reconcile, EffectLedger.Persist, OutboxDelivery.ClaimLease, OutboxDelivery.Acknowledge;
  }

  lemma ReceiptStepsKeepEffects(w: World, a: Action)
    requires a.Dispatch? || a.Persist?
    ensures Step(w, a).t.effects == w.t.effects
  {
    if a.Dispatch? {
      DispatchKeepsEffects(w.t, a.intent, a.fence);
    } else {
      PersistKeepsEffects(w.t, a.answers, a.review);
    }
    hide StepFinalize, StepClaim, StepAdmit, StepReadCheckpoint, StepReadControl, StepAuthorize, StepCommitAtomic, StepClaimEffect,
         StepInsertLegacy, StepStartLegacy, StepInvokeLegacy, StepFinishLegacy, StepSaveRun, EffectLedger.Stage, EffectLedger.Dispatch,
         EffectLedger.Confirm, EffectLedger.MarkUnknown, EffectLedger.Reconcile, EffectLedger.Persist, OutboxDelivery.ClaimLease,
         OutboxDelivery.Acknowledge, CommandUnitOfWork.LegacyUpdate;
  }

  lemma DispatchKeepsEffects(t: Tables, intent: Intent, fence: Fence)
    ensures EffectLedger.Dispatch(t, intent, fence).tables.effects == t.effects
  {
    hide FenceBound, EffectLedger.CurrentAuthority, EffectLedger.SameIntent;
  }

  lemma PersistKeepsEffects(t: Tables, answers: RegistryAnswers, input: ReviewInput)
    ensures EffectLedger.Persist(t, answers, input).tables.effects == t.effects
  {
    hide FenceBound, ReviewForPersistence, EffectLedger.CurrentAuthority, EffectLedger.ReceiptClash;
  }

  lemma OtherStepsKeepEffects(w: World, a: Action)
    requires a.SaveRun? || a.ChangeAcl? || a.ClaimDelivery? || a.AckDelivery?
    ensures Step(w, a).t.effects == w.t.effects
  {
    hide StepFinalize, StepClaim, StepAdmit, StepReadCheckpoint, StepReadControl, StepAuthorize, StepCommitAtomic, StepClaimEffect,
         StepInsertLegacy, StepStartLegacy, StepInvokeLegacy, StepFinishLegacy, EffectLedger.Stage, EffectLedger.Dispatch,
         EffectLedger.Confirm, EffectLedger.MarkUnknown, EffectLedger.Reconcile, EffectLedger.Persist, OutboxDelivery.ClaimLease,
         OutboxDelivery.Acknowledge, CommandUnitOfWork.LegacyUpdate;
  }

  /** The step is about this effect and may change its row. */
  predicate About(a: Action, e: string) {
    match a
    case Stage(intent) => intent.effectId == e
    case ClaimEffect(effectId, _) => effectId == e
    case Confirm(intent, _) => intent.effectId == e
    case MarkUnknown(effectId, _) => effectId == e
    case Reconcile(effectId) => effectId == e
    case Finalize(_, input, _) => input.intent.effectId == e
    case _ => false
  }

  lemma LedgerStepsKeepOthers(w: World, a: Action, e: string)
    requires a.Stage? || a.ClaimEffect? || a.Confirm? || a.MarkUnknown? || a.Reconcile?
    requires e in w.t.effects && !About(a, e)
    ensures e in Step(w, a).t.effects && Step(w, a).t.effects[e] == w.t.effects[e]
  {
    hide StepFinalize, StepClaim, StepAdmit, StepReadCheckpoint, StepReadControl, StepAuthorize, StepCommitAtomic,
         StepInsertLegacy, StepStartLegacy, StepInvokeLegacy, StepFinishLegacy, StepSaveRun, EffectLedger.Dispatch,
         EffectLedger.Persist, OutboxDelivery.ClaimLease, OutboxDelivery.Acknowledge, CommandUnitOfWork.LegacyUpdate,
         EffectLedger.CurrentAuthority, FenceBound, ValidId, EffectLedger.SinkApplied;
  }

  lemma FinalizeKeepsOthers(w: World, a: Action, e: string)
    requires a.Finalize? && e in w.t.effects
    requires a.input.intent.effectId != e || ReceiptFinalizer.Finalize(w.t, a.answers, a.input, a.fault).result.Denied?
    ensures e in Step(w, a).t.effects && Step(w, a).t.effects[e] == w.t.effects[e]
  {
    FinalizeStep(w, a);
    hide Step, ReceiptFinalizer.Finalize;
    ReceiptTheorems.FinalizeIsAllOrNothing(w.t, a.answers, a.input, a.fault);
  }

  lemma FinalizeStep(w: World, a: Action)
    requires a.Finalize?
    ensures Step(w, a) == StepFinalize(w, a.answers, a.input, a.fault)
  {
  }

  /** A row is only changed by a step about it. */
  lemma EffectRowStays(w: World, a: Action, e: string)
    requires e in w.t.effects && !About(a, e)
    ensures e in Step(w, a).t.effects && Step(w, a).t.effects[e] == w.t.effects[e]
  {
    hide Step;
    if a.Stage? || a.ClaimEffect? || a.Confirm? || a.MarkUnknown? || a.Reconcile? {
      LedgerStepsKeepOthers(w, a, e);
    } else if a.Finalize? {
      FinalizeKeepsOthers(w, a, e);
    } else if a.InsertLegacy? || a.StartLegacy? || a.InvokeLegacy? || a.FinishLegacy? || a.ProposeLegacy? {
      LegacyStepsKeepEffects(w, a);
    } else if a.Dispatch? || a.Persist? {
      ReceiptStepsKeepEffects(w, a);
    } else if a.SaveRun? || a.ChangeAcl? || a.ClaimDelivery? || a.AckDelivery? {
      OtherStepsKeepEffects(w, a);
    } else {
      CommandStepsKeepEffects(w, a);
    }
  }

  // ----- what ends a lease, and what ends UNKNOWN -----

  /** The step is an accepted MarkUnknown or Confirm of this effect. */
  predicate EndsLease(w: World, a: Action, e: string) {
    || (a.MarkUnknown? && a.effectId == e && EffectLedger.MarkUnknown(w.t, e, a.epoch).result.Ok?)
    || (a.Confirm? && a.intent.effectId == e && EffectLedger.Confirm(w.t, a.intent, a.fence).result.Ok?)
  }

  /** The step is an accepted Reconcile, Confirm or Finalize of this effect. */
  predicate EndsUnknown(w: World, a: Action, e: string) {
    || (a.Reconcile? && a.effectId == e && EffectLedger.Reconcile(w.t, e).result.Ok?)
    || (a.Confirm? && a.intent.effectId == e && EffectLedger.Confirm(w.t, a.intent, a.fence).result.Ok?)
    || (a.Finalize? && a.input.intent.effectId == e
        && ReceiptFinalizer.Finalize(w.t, a.answers, a.input, a.fault).result.Ok?)
  }

  /** The step is an accepted claim of this effect. */
  predicate StartsLease(w: World, a: Action, e: string) {
    && a.ClaimEffect? && a.effectId == e
    && EffectLedger.ClaimDispatch(w.t, e, a.dispatcherId).result.Ok?
    && EffectLedger.ClaimDispatch(w.t, e, a.dispatcherId).result.value.Claimed?
  }

  lemma LedgerStepAbout(w: World, a: Action, e: string)
    requires a.Stage? || a.ClaimEffect? || a.Confirm? || a.MarkUnknown? || a.Reconcile?
    requires e in w.t.effects && About(a, e)
    requires !EndsLease(w, a, e) && !EndsUnknown(w, a, e) && !StartsLease(w, a, e)
    ensures Step(w, a).t == w.t
  {
    hide StepFinalize, StepClaim, StepAdmit, StepReadCheckpoint, StepReadControl, StepAuthorize, StepCommitAtomic,
         StepInsertLegacy, StepStartLegacy, StepInvokeLegacy, StepFinishLegacy, StepSaveRun, EffectLedger.Dispatch,
         EffectLedger.Persist, OutboxDelivery.ClaimLease, OutboxDelivery.Acknowledge, CommandUnitOfWork.LegacyUpdate,
         EffectLedger.CurrentAuthority, FenceBound, ValidId, EffectLedger.SinkApplied;
  }

  /** A row changes only by an accepted claim, an accepted end of its lease, or an accepted end of UNKNOWN. */
  lemma OnlyAcceptedStepsChange(w: World, a: Action, e: string)
    requires e in w.t.effects && !EndsLease(w, a, e) && !EndsUnknown(w, a, e) && !StartsLease(w, a, e)
    ensures e in Step(w, a).t.effects && Step(w, a).t.effects[e] == w.t.effects[e]
  {
    if !About(a, e) {
      EffectRowStays(w, a, e);
    } else if a.Finalize? {
      FinalizeKeepsOthers(w, a, e);
    } else {
      LedgerStepAbout(w, a, e);
    }
    hide Step;
  }

  lemma EndsByStatus(w: World, a: Action, e: string)
    requires e in w.t.effects
    ensures StartsLease(w, a, e) ==> w.t.effects[e].status == PendingEffect
    ensures w.t.effects[e].status == Leased && a.Reconcile? ==> !EndsUnknown(w, a, e)
    ensures EndsLease(w, a, e) && a.MarkUnknown? ==> w.t.effects[e].status == Leased
  {
    hide FenceBound, EffectLedger.CurrentAuthority, ReceiptFinalizer.Finalize;
  }

  lemma FinalizeNeedsUnknown(w: World, a: Action, e: string)
    requires a.Finalize? && e in w.t.effects && w.t.effects[e].status != UnknownEffect && a.input.intent.effectId == e
    ensures e in Step(w, a).t.effects && Step(w, a).t.effects[e] == w.t.effects[e]
  {
    FinalizeStep(w, a);
    hide Step, ReceiptFinalizer.Finalize;
    ReceiptTheorems.FinalizeIsAllOrNothing(w.t, a.answers, a.input, a.fault);
  }

  /** A leased row stays until its lease ends. */
  lemma LeasedStays(w: World, a: Action, e: string)
    requires e in w.t.effects && w.t.effects[e].status == Leased && !EndsLease(w, a, e)
    ensures e in Step(w, a).t.effects && Step(w, a).t.effects[e] == w.t.effects[e]
  {
    hide Step;
    EndsByStatus(w, a, e);
    if a.Finalize? && a.input.intent.effectId == e {
      FinalizeNeedsUnknown(w, a, e);
    } else {
      OnlyAcceptedStepsChange(w, a, e);
    }
  }

  /** An unknown row stays until UNKNOWN ends. */
  lemma UnknownStays(w: World, a: Action, e: string)
    requires e in w.t.effects && w.t.effects[e].status == UnknownEffect && !EndsUnknown(w, a, e)
    ensures e in Step(w, a).t.effects && Step(w, a).t.effects[e] == w.t.effects[e]
  {
    hide Step;
    EndsByStatus(w, a, e);
    OnlyAcceptedStepsChange(w, a, e);
  }

  /** A pending row stays until a claim is accepted. */
  lemma PendingStays(w: World, a: Action, e: string)
    requires e in w.t.effects && w.t.effects[e].status == PendingEffect && !StartsLease(w, a, e)
    ensures e in Step(w, a).t.effects && Step(w, a).t.effects[e] == w.t.effects[e]
  {
    hide Step;
    EndsByStatus(w, a, e);
    if a.Finalize? && a.input.intent.effectId == e {
      FinalizeNeedsUnknown(w, a, e);
    } else {
      if !a.Finalize? {
        PendingHasNoEnd(w, a, e);
      }
      OnlyAcceptedStepsChange(w, a, e);
    }
  }

  lemma PendingHasNoEnd(w: World, a: Action, e: string)
    requires e in w.t.effects && w.t.effects[e].status == PendingEffect && !a.Finalize?
    ensures !EndsLease(w, a, e) && !EndsUnknown(w, a, e)
  {
    hide FenceBound, ReceiptFinalizer.Finalize;
  }

  // ----- what a claim of an effect is answered, over runs -----

  lemma {:induction false} LeasedAlong(states: seq<World>, actions: seq<Action>, i: nat, j: nat, e: string)
    requires IsRun(states, actions) && i <= j <= |actions|
    requires e in states[i].t.effects && states[i].t.effects[e].status == Leased
    requires forall k | i <= k < j :: !EndsLease(states[k], actions[k], e)
    ensures e in states[j].t.effects && states[j].t.effects[e] == states[i].t.effects[e]
    decreases j - i
  {
    hide Step, EndsLease;
    if i < j {
      LeasedAlong(states, actions, i, j - 1, e);
      assert !EndsLease(states[j - 1], actions[j - 1], e);
      assert states[j] == Step(states[j - 1], actions[j - 1]);
      LeasedStays(states[j - 1], actions[j - 1], e);
    }
  }

  lemma {:induction false} UnknownAlong(states: seq<World>, actions: seq<Action>, i: nat, j: nat, e: string)
    requires IsRun(states, actions) && i <= j <= |actions|
    requires e in states[i].t.effects && states[i].t.effects[e].status == UnknownEffect
    requires forall k | i <= k < j :: !EndsUnknown(states[k], actions[k], e)
    ensures e in states[j].t.effects && states[j].t.effects[e] == states[i].t.effects[e]
    decreases j - i
  {
    hide Step, EndsUnknown;
    if i < j {
      UnknownAlong(states, actions, i, j - 1, e);
      assert !EndsUnknown(states[j - 1], actions[j - 1], e);
      assert states[j] == Step(states[j - 1], actions[j - 1]);
      UnknownStays(states[j - 1], actions[j - 1], e);
    }
  }

  lemma {:induction false} PendingAlong(states: seq<World>, actions: seq<Action>, i: nat, j: nat, e: string)
    requires IsRun(states, actions) && i <= j <= |actions|
    requires e in states[i].t.effects && states[i].t.effects[e].status == PendingEffect
    requires forall k | i <= k < j :: !StartsLease(states[k], actions[k], e)
    ensures e in states[j].t.effects && states[j].t.effects[e] == states[i].t.effects[e]
    decreases j - i
  {
    hide Step, StartsLease;
    if i < j {
      PendingAlong(states, actions, i, j - 1, e);
      assert !StartsLease(states[j - 1], actions[j - 1], e);
      assert states[j] == Step(states[j - 1], actions[j - 1]);
      PendingStays(states[j - 1], actions[j - 1], e);
    }
  }

  /** The row an accepted claim leaves. */
  lemma ClaimedRow(w: World, a: Action, e: string)
    requires StartsLease(w, a, e)
    ensures e in w.t.effects && e in Step(w, a).t.effects
    ensures Step(w, a).t.effects[e] == w.t.effects[e].(status := Leased, epoch := w.t.effects[e].epoch + 1, dispatcher := Some(a.dispatcherId))
    ensures EffectLedger.ClaimDispatch(w.t, e, a.dispatcherId).result.value.fence == IssuedFence(w.t.effects[e].intent, w.t.effects[e].epoch + 1)
  {
    ClaimEffectStep(w, a);
    hide Step, EffectLedger.CurrentAuthority, ValidId;
  }

  lemma ClaimEffectStep(w: World, a: Action)
    requires a.ClaimEffect?
    ensures Step(w, a) == StepClaimEffect(w, a.effectId, a.dispatcherId)
  {
  }

  /**
   * From an accepted claim until its effect is marked unknown or confirmed, every further claim, by any
   * dispatcher, is answered "in flight" and changes nothing: the row is the claimant's.
   */
  lemma InFlightUntilLeaseEnds(states: seq<World>, actions: seq<Action>, i: nat, j: nat, e: string, dispatcherId: string)
    requires IsRun(states, actions) && i < j <= |actions| && StartsLease(states[i], actions[i], e)
    requires forall k | i < k < j :: !EndsLease(states[k], actions[k], e)
    requires ValidId(dispatcherId)
    ensures EffectLedger.ClaimDispatch(states[j].t, e, dispatcherId) == Outcome(states[j].t, Ok(EffectLedger.InFlight))
    ensures states[j].t.effects[e].dispatcher == Some(actions[i].dispatcherId)
  {
    hide Step, StartsLease, EndsLease, ValidId;
    assert states[i + 1] == Step(states[i], actions[i]);
    StartsIsClaim(states[i], actions[i], e);
    ClaimedRow(states[i], actions[i], e);
    LeasedAlong(states, actions, i + 1, j, e);
  }

  lemma StartsIsClaim(w: World, a: Action, e: string)
    requires StartsLease(w, a, e)
    ensures a.ClaimEffect? && a.effectId == e
  {
  }

  lemma MarkedRow(w: World, a: Action, e: string)
    requires a.MarkUnknown? && EndsLease(w, a, e)
    ensures e in w.t.effects && e in Step(w, a).t.effects
    ensures Step(w, a).t.effects[e] == w.t.effects[e].(status := UnknownEffect)
  {
    MarkStep(w, a);
    hide Step, EffectLedger.Confirm;
  }

  lemma MarkStep(w: World, a: Action)
    requires a.MarkUnknown?
    ensures Step(w, a).t == EffectLedger.MarkUnknown(w.t, a.effectId, a.epoch).tables
  {
    hide EffectLedger.MarkUnknown;
  }

  /** From an accepted MarkUnknown until UNKNOWN ends, every claim is answered "reconcile first" and changes nothing. */
  lemma ReconcileFirstUntilUnknownEnds(states: seq<World>, actions: seq<Action>, i: nat, j: nat, e: string, dispatcherId: string)
    requires IsRun(states, actions) && i < j <= |actions| && actions[i].MarkUnknown? && EndsLease(states[i], actions[i], e)
    requires forall k | i < k < j :: !EndsUnknown(states[k], actions[k], e)
    requires ValidId(dispatcherId)
    ensures EffectLedger.ClaimDispatch(states[j].t, e, dispatcherId) == Outcome(states[j].t, Ok(EffectLedger.ReconcileRequired))
  {
    hide Step, EndsLease, EndsUnknown, ValidId;
    assert states[i + 1] == Step(states[i], actions[i]);
    MarkedRow(states[i], actions[i], e);
    UnknownAlong(states, actions, i + 1, j, e);
  }

  /** The three steps after which an effect is committed. */
  predicate Commits(w: World, a: Action, e: string) {
    || (a.Confirm? && a.intent.effectId == e && EffectLedger.Confirm(w.t, a.intent, a.fence).result.Ok?)
    || (a.Reconcile? && a.effectId == e && EffectLedger.Reconcile(w.t, e).result == Ok(EffectLedger.ReconciledCommitted))
    || (a.Finalize? && a.input.intent.effectId == e
        && ReceiptFinalizer.Finalize(w.t, a.answers, a.input, a.fault).result.Ok?
        && ReceiptFinalizer.Finalize(w.t, a.answers, a.input, a.fault).result.value.Finalized?)
  }

  lemma CommittedRow(w: World, a: Action, e: string)
    requires Commits(w, a, e)
    ensures e in Step(w, a).t.effects && Step(w, a).t.effects[e].status == Committed
  {
    if a.Finalize? {
      FinalizeStep(w, a);
      FinalizedCommits(w, a);
      hide Step, ReceiptFinalizer.Finalize;
    } else {
      LocalCommitStep(w, a, e);
    }
  }

  lemma FinalizedCommits(w: World, a: Action)
    requires a.Finalize? && Commits(w, a, a.input.intent.effectId)
    ensures var n := StepFinalize(w, a.answers, a.input, a.fault).t;
            a.input.intent.effectId in n.effects && n.effects[a.input.intent.effectId].status == Committed
  {
    hide ReceiptFinalizer.Finalize;
    ReceiptTheorems.FinalizeIsAllOrNothing(w.t, a.answers, a.input, a.fault);
  }

  lemma LocalCommitStep(w: World, a: Action, e: string)
    requires Commits(w, a, e) && !a.Finalize?
    ensures e in Step(w, a).t.effects && Step(w, a).t.effects[e].status == Committed
  {
    hide StepFinalize, StepClaim, StepAdmit, StepReadCheckpoint, StepReadControl, StepAuthorize, StepCommitAtomic,
         StepInsertLegacy, StepStartLegacy, StepInvokeLegacy, StepFinishLegacy, StepSaveRun, StepClaimEffect, EffectLedger.Dispatch,
         EffectLedger.Persist, OutboxDelivery.ClaimLease, OutboxDelivery.Acknowledge, CommandUnitOfWork.LegacyUpdate, FenceBound,
         EffectLedger.SinkApplied, EffectLedger.Stage, EffectLedger.MarkUnknown, ReceiptFinalizer.Finalize;
  }

  /** Once confirmed, reconciled as committed or finalized, every claim at every later state is answered "already committed". */
  lemma CommittedForGood(states: seq<World>, actions: seq<Action>, i: nat, j: nat, e: string, dispatcherId: string)
    requires IsRun(states, actions) && Reachable(states[0]) && i < j <= |actions| && Commits(states[i], actions[i], e)
    requires ValidId(dispatcherId)
    ensures EffectLedger.ClaimDispatch(states[j].t, e, dispatcherId) == Outcome(states[j].t, Ok(EffectLedger.AlreadyCommitted))
  {
    hide Step, Reachable, Commits, ValidId, Inv, Advances;
    assert states[i + 1] == Step(states[i], actions[i]);
    CommittedRow(states[i], actions[i], e);
    ReachableInv(states[0]);
    RunKeepsInv(states, actions, i + 1, j);
    EffectsAdvanced(states[i + 1], states[j]);
  }

  lemma EffectsAdvanced(w: World, n: World)
    requires Advances(w, n)
    ensures EffectsAdvance(w.t.effects, n.t.effects)
  {
    hide EffectsAdvance, CommandsAdvance, OutboxAdvances;
  }

  // ----- who may act for an effect, and what the other answers mean -----

  /** The command is in execution with its fence, and its evidence is granted by the rows as they are. */
  ghost predicate MayAct(t: Tables, intent: Intent) {
    && intent.command.commandId in t.commands
    && (var row := t.commands[intent.command.commandId];
        && row.version == 2 && row.payload.fenced && row.payload.owner == Some(intent.owner) && row.payload.request == intent.command)
    && AuthorityHolds(t.acl, intent.command, intent.evidence)
    && ValidId(intent.effectId) && ValidId(intent.idempotencyKey)
  }

  lemma MayActIsAuthority(t: Tables, intent: Intent)
    requires CommandInv(t.commands)
    ensures EffectLedger.CurrentAuthority(t, intent) <==> MayAct(t, intent)
  {
    var id := intent.command.commandId;
    if id in t.commands {
      assert CommandRow(id, t.commands[id]);
    }
    hide ValidId, Granted, EvidenceBound, CommandInv, Blank;
  }

  /**
   * A pending effect, new or handed back, is leased to the next well-formed claim if and only if its
   * command may act and epochs are left: at the next epoch, with the fence for it.
   */
  lemma PendingIsClaimable(w: World, e: string, dispatcherId: string)
    requires Reachable(w) && e in w.t.effects && w.t.effects[e].status == PendingEffect
    ensures var row, o := w.t.effects[e], EffectLedger.ClaimDispatch(w.t, e, dispatcherId);
            && (o.result.Ok? <==> ValidId(dispatcherId) && MayAct(w.t, row.intent) && row.epoch < MAX_SAFE)
            && (o.result.Ok? ==>
                && o.result.value == EffectLedger.Claimed(IssuedFence(row.intent, row.epoch + 1))
                && o.tables == w.t.(effects := w.t.effects[e := row.(status := Leased, epoch := row.epoch + 1,
                                                                    dispatcher := Some(dispatcherId))]))
            && (o.result.Denied? ==> o.tables == w.t)
  {
    hide Reachable, LedgerInv, CommandInv, EffectLedger.ClaimDispatch, MayAct, ValidId, IssuedFence;
    ReachableFacts(w);
    PendingOnRows(w.t, e, dispatcherId);
  }

  lemma PendingOnRows(t: Tables, e: string, dispatcherId: string)
    requires EffectTheorems.LedgerHolds(t) && CommandInv(t.commands) && e in t.effects && t.effects[e].status == PendingEffect
    ensures var row, o := t.effects[e], EffectLedger.ClaimDispatch(t, e, dispatcherId);
            && (o.result.Ok? <==> ValidId(dispatcherId) && MayAct(t, row.intent) && row.epoch < MAX_SAFE)
            && (o.result.Ok? ==>
                && o.result.value == EffectLedger.Claimed(IssuedFence(row.intent, row.epoch + 1))
                && o.tables == t.(effects := t.effects[e := row.(status := Leased, epoch := row.epoch + 1,
                                                                    dispatcher := Some(dispatcherId))]))
            && (o.result.Denied? ==> o.tables == t)
  {
    MayActIsAuthority(t, t.effects[e].intent);
    EpochIsSafe(t, e);
    hide EffectLedger.CurrentAuthority, MayAct, ValidId, LedgerInv, CommandInv;
  }

  /** An intent that no other effect's row stands in the way of. */
  ghost predicate FitsLedger(t: Tables, intent: Intent) {
    if intent.effectId in t.effects then t.effects[intent.effectId].intent == intent
    else forall e | e in t.effects :: t.effects[e].idempotencyKey != intent.idempotencyKey
  }

  /** Staging is accepted for a command that may act and an intent that fits; it answers the status that is stored afterwards. */
  lemma StageAnswers(w: World, intent: Intent)
    requires Reachable(w)
    ensures var e, o := intent.effectId, EffectLedger.Stage(w.t, intent);
            && (o.result.Ok? <==> MayAct(w.t, intent) && FitsLedger(w.t, intent))
            && (o.result.Ok? ==>
                && e in o.tables.effects && o.tables.effects[e].intent == intent && o.result.value == o.tables.effects[e].status)
            && (o.tables != w.t <==> o.result.Ok? && e !in w.t.effects)
            && (o.tables != w.t ==>
                o.tables == w.t.(effects := w.t.effects[e := Effect(intent.idempotencyKey, intent, PendingEffect, 0, None)]))
  {
    hide Reachable, LedgerInv, CommandInv;
    ReachableFacts(w);
    MayActIsAuthority(w.t, intent);
    if intent.effectId in w.t.effects {
      EpochIsSafe(w.t, intent.effectId);
    }
    hide EffectLedger.CurrentAuthority, MayAct;
    if EffectLedger.Stage(w.t, intent).result.Ok? && intent.effectId !in w.t.effects {
      assert intent.effectId in EffectLedger.Stage(w.t, intent).tables.effects;
    }
  }

  /**
   * Dispatch is accepted exactly under the current fence of a leased effect whose command may act. The
   * first one answers "committed" and stores the receipt of this epoch; every further one finds it,
   * answers "already applied" and changes nothing.
   */
  lemma DispatchAnswers(w: World, intent: Intent, fence: Fence)
    requires Reachable(w)
    ensures var e, o := intent.effectId, EffectLedger.Dispatch(w.t, intent, fence);
            && (o.result.Ok? <==> FenceCurrent(w.t, intent, fence) && w.t.effects[e].status == Leased && MayAct(w.t, intent))
            && (o.result.Ok? ==> (o.result.value == EffectLedger.CommittedNow <==> !HasSinkReceipt(w.t, e)))
            && (o.tables != w.t <==> o.result == Ok(EffectLedger.CommittedNow))
            && (o.tables != w.t ==>
                o.tables == w.t.(sinkReceipts := w.t.sinkReceipts[intent.idempotencyKey := SinkReceipt(e, fence.epoch)]))
  {
    hide Reachable, LedgerInv, CommandInv, EffectLedger.Dispatch, MayAct, FenceCurrent, HasSinkReceipt;
    ReachableFacts(w);
    DispatchOnRows(w.t, intent, fence);
  }

  lemma DispatchOnRows(t: Tables, intent: Intent, fence: Fence)
    requires EffectTheorems.LedgerHolds(t) && CommandInv(t.commands)
    ensures var e, o := intent.effectId, EffectLedger.Dispatch(t, intent, fence);
            && (o.result.Ok? <==> FenceCurrent(t, intent, fence) && t.effects[e].status == Leased && MayAct(t, intent))
            && (o.result.Ok? ==> (o.result.value == EffectLedger.CommittedNow <==> !HasSinkReceipt(t, e)))
            && (o.tables != t <==> o.result == Ok(EffectLedger.CommittedNow))
            && (o.tables != t ==>
                o.tables == t.(sinkReceipts := t.sinkReceipts[intent.idempotencyKey := SinkReceipt(e, fence.epoch)]))
  {
    MayActIsAuthority(t, intent);
    hide EffectLedger.CurrentAuthority, MayAct, FenceBound, LedgerInv, CommandInv;
    if intent.effectId in t.effects {
      ReceiptsOf(t, intent.effectId);
      SinkOfKey(t, intent.effectId);
    }
    var o := EffectLedger.Dispatch(t, intent, fence);
    if o.result == Ok(EffectLedger.CommittedNow) {
      assert intent.idempotencyKey in o.tables.sinkReceipts && intent.idempotencyKey !in t.sinkReceipts;
    }
  }

  lemma SinkOfKey(t: Tables, e: string)
    requires EffectTheorems.LedgerHolds(t) && e in t.effects
    ensures t.effects[e].idempotencyKey in t.sinkReceipts ==>
        && t.sinkReceipts[t.effects[e].idempotencyKey].effectId == e
        && t.sinkReceipts[t.effects[e].idempotencyKey].appliedEpoch == t.effects[e].epoch
        && t.effects[e].status != PendingEffect
  {
    var key := t.effects[e].idempotencyKey;
    if key in t.sinkReceipts {
      assert t.effects[t.sinkReceipts[key].effectId].idempotencyKey == key;
    }
  }

  /** Confirmation is accepted exactly under the current fence of an effect with a sink receipt, and commits it. */
  lemma ConfirmAnswers(w: World, intent: Intent, fence: Fence)
    requires Reachable(w)
    ensures var e, o := intent.effectId, EffectLedger.Confirm(w.t, intent, fence);
            && (o.result.Ok? <==> FenceCurrent(w.t, intent, fence) && HasSinkReceipt(w.t, e))
            && (o.result.Ok? ==> o.tables == w.t.(effects := w.t.effects[e := w.t.effects[e].(status := Committed)]))
            && (o.result.Denied? ==> o.tables == w.t)
  {
    hide Reachable, LedgerInv;
    ReachableFacts(w);
    hide FenceBound;
    if intent.effectId in w.t.effects {
      ReceiptsOf(w.t, intent.effectId);
      SinkOfKey(w.t, intent.effectId);
    }
  }

  /**
   * Reconciliation is accepted exactly for an unknown effect without a remote receipt. It answers
   * "committed" when the local sink has the receipt and "ready for a new epoch" when it has not, and the
   * stored status agrees: committed or pending at the same epoch.
   */
  lemma ReconcileAnswers(w: World, e: string)
    requires Reachable(w)
    ensures var o := EffectLedger.Reconcile(w.t, e);
            && (o.result.Ok? <==> e in w.t.effects && w.t.effects[e].status == UnknownEffect && e !in w.t.remoteReceipts)
            && (o.result.Ok? ==>
                && (o.result.value == EffectLedger.ReconciledCommitted <==> HasSinkReceipt(w.t, e))
                && o.tables == w.t.(effects := w.t.effects[e := w.t.effects[e].(status :=
                                      if HasSinkReceipt(w.t, e) then Committed else PendingEffect)]))
            && (o.result.Denied? ==> o.tables == w.t)
  {
    hide Reachable, LedgerInv;
    ReachableFacts(w);
    if e in w.t.effects {
      ReceiptsOf(w.t, e);
      SinkOfKey(w.t, e);
    }
  }

  /** Marking is accepted exactly for a leased effect at its epoch. */
  lemma MarkAnswers(t: Tables, e: string, epoch: int)
    ensures var o := EffectLedger.MarkUnknown(t, e, epoch);
            && (o.result.Ok? <==> e in t.effects && t.effects[e].status == Leased && t.effects[e].epoch == epoch)
            && (o.result.Ok? ==> o.tables == t.(effects := t.effects[e := t.effects[e].(status := UnknownEffect)]))
            && (o.result.Denied? ==> o.tables == t)
  {
  }
}
