/** Authorization over whole runs: it holds unchanged from first use to last write, and once changed it is inert. */
module AuthorityTheorems {
  import opened Text
  import opened Records
  import opened Database
  import opened Authority
  import opened ReceiptReview
  import opened World
  import opened Invariants
  import opened Safety
  import opened Frames
  import CommandUnitOfWork
  import CommandPreservation
  import AtomicAdapter
  import EffectLedger
  import ReceiptFinalizer
  import OutboxDelivery

  // ----- the discipline of the ACL writer -----

  ghost predicate Disciplined(before: Acl, after: Acl) {
    forall evidence: Evidence :: FactsAdvance(EvidenceFacts(before, evidence), EvidenceFacts(after, evidence))
  }

  /** A run in which every ACL change follows the discipline. */
  ghost predicate DisciplinedRun(states: seq<World>, actions: seq<Action>) {
    && IsRun(states, actions)
    && forall i {:trigger actions[i]} | 0 <= i < |actions| :: actions[i].ChangeAcl? ==> Disciplined(states[i].t.acl, actions[i].acl)
  }

  lemma StepFollowsDiscipline(w: World, a: Action)
    requires a.ChangeAcl? ==> Disciplined(w.t.acl, a.acl)
    ensures Disciplined(w.t.acl, Step(w, a).t.acl)
  {
    hide Step;
    StepFrame(w, a);
  }

  /** The rows behind an evidence only advance along a disciplined run. */
  lemma {:induction false} FactsAdvanceAlong(states: seq<World>, actions: seq<Action>, i: nat, j: nat, evidence: Evidence)
    requires DisciplinedRun(states, actions) && i <= j <= |actions|
    ensures FactsAdvance(EvidenceFacts(states[i].t.acl, evidence), EvidenceFacts(states[j].t.acl, evidence))
    decreases j - i
  {
    hide Step, EvidenceFacts;
    if i < j {
      FactsAdvanceAlong(states, actions, i, j - 1, evidence);
      var a := actions[j - 1];
      assert states[j] == Step(states[j - 1], a);
      StepFollowsDiscipline(states[j - 1], a);
      FactsAdvanceTransitive(EvidenceFacts(states[i].t.acl, evidence), EvidenceFacts(states[j - 1].t.acl, evidence),
                             EvidenceFacts(states[j].t.acl, evidence));
    }
  }

  /** Authority granted at both ends of a stretch was granted, by the same rows, at every state within it. */
  lemma GrantedBetween(states: seq<World>, actions: seq<Action>, i: nat, k: nat, j: nat, evidence: Evidence)
    requires DisciplinedRun(states, actions) && i <= k <= j <= |actions|
    requires Granted(states[i].t.acl, evidence) && Granted(states[j].t.acl, evidence)
    ensures EvidenceFacts(states[k].t.acl, evidence) == EvidenceFacts(states[i].t.acl, evidence)
    ensures Granted(states[k].t.acl, evidence)
  {
    FactsAdvanceAlong(states, actions, i, k, evidence);
    FactsAdvanceAlong(states, actions, k, j, evidence);
    hide EvidenceFacts, DisciplinedRun;
  }

  /** Authority that was granted and then is not is never granted to the same evidence again. */
  lemma RevokedForGood(states: seq<World>, actions: seq<Action>, i: nat, j: nat, k: nat, evidence: Evidence)
    requires DisciplinedRun(states, actions) && i <= j <= k <= |actions|
    requires Granted(states[i].t.acl, evidence) && !Granted(states[j].t.acl, evidence)
    ensures !Granted(states[k].t.acl, evidence)
  {
    if Granted(states[k].t.acl, evidence) {
      GrantedBetween(states, actions, i, j, k, evidence);
    }
  }

  // ----- what stale evidence can still do -----

  /** The seven kinds of step that check this evidence against the authority tables before they write. */
  predicate ChecksEvidence(w: World, a: Action, evidence: Evidence) {
    match a
    case Stage(intent) => intent.evidence == evidence
    case ClaimEffect(effectId, _) => effectId in w.t.effects && w.t.effects[effectId].intent.evidence == evidence
    case Dispatch(intent, _) => intent.evidence == evidence
    case Persist(_, review) => review.intent.evidence == evidence
    case Finalize(_, input, _) => input.intent.evidence == evidence
    case ClaimCommand(_, _, _, brought, _) => brought == Some(evidence)
    case CommitAtomic(worker, _, _, _) => !AtomicAt(w, worker).AtomicIdle? && AtomicAt(w, worker).evidence == Some(evidence)
    case _ => false
  }

  lemma LedgerNeedsAuthority(t: Tables, intent: Intent, fence: Fence, effectId: string, dispatcherId: string,
                             answers: RegistryAnswers, review: ReviewInput)
    ensures !Granted(t.acl, intent.evidence) ==> EffectLedger.Stage(t, intent).tables == t
    ensures !Granted(t.acl, intent.evidence) ==> EffectLedger.Dispatch(t, intent, fence).tables == t
    ensures effectId in t.effects && !Granted(t.acl, t.effects[effectId].intent.evidence) ==>
        EffectLedger.ClaimDispatch(t, effectId, dispatcherId).tables == t
    ensures !Granted(t.acl, review.intent.evidence) ==> EffectLedger.Persist(t, answers, review).tables == t
  {
    hide Granted, FenceBound, ReviewForPersistence, EffectLedger.ReceiptClash, EvidenceBound;
  }

  lemma FinalizeNeedsAuthority(t: Tables, answers: RegistryAnswers, input: ReceiptFinalizer.FinalizeInput, fault: bool)
    requires !Granted(t.acl, input.intent.evidence)
    ensures ReceiptFinalizer.Finalize(t, answers, input, fault).result.Denied?
    ensures ReceiptFinalizer.Finalize(t, answers, input, fault).tables == t
  {
    hide Granted, FenceBound, ReceiptFinalizer.ReceiptMatches, EvidenceBound, ReceiptFinalizer.PreparedFor,
         ReceiptFinalizer.PlanMatches, ReceiptFinalizer.PlanWrites, ReceiptFinalizer.ReplayConsistent;
  }

  lemma ClaimNeedsAuthority(t: Tables, request: Request, owner: Owner, evidence: Evidence, at: Timestamp)
    requires !Granted(t.acl, evidence)
    ensures CommandUnitOfWork.Claim(t, request, owner, Some(evidence), at).tables == t
    ensures CommandUnitOfWork.Claim(t, request, owner, Some(evidence), at).result.Denied?
  {
    hide Granted, EvidenceBound;
  }

  lemma CommitNeedsAuthority(t: Tables, input: CommandUnitOfWork.CommitInput, at: Timestamp)
    requires input.evidence.Some? && !Granted(t.acl, input.evidence.value)
    ensures CommandUnitOfWork.Commit(t, input, at).tables == t
    ensures CommandUnitOfWork.Commit(t, input, at).result.Denied?
  {
    hide Granted, EvidenceBound, CommandUnitOfWork.AppendEvents, CommandUnitOfWork.TerminalDraftAccepted,
         CommandUnitOfWork.RunStateDenial;
  }

  lemma StaleCommitIsInert(w: World, worker: nat, preparedAt: Timestamp, eventAt: Timestamp, at: Timestamp, evidence: Evidence)
    requires !Granted(w.t.acl, evidence)
    requires !AtomicAt(w, worker).AtomicIdle? && AtomicAt(w, worker).evidence == Some(evidence)
    ensures StepCommitAtomic(w, worker, preparedAt, eventAt, at).t == w.t
  {
    hide CommandUnitOfWork.Commit, Granted;
    var draft := AtomicDraft(AtomicAt(w, worker), preparedAt, eventAt);
    if draft.Some? {
      CommitNeedsAuthority(w.t, draft.value, at);
    }
  }

  lemma StaleEvidenceWritesNothing(w: World, a: Action, evidence: Evidence)
    requires !Granted(w.t.acl, evidence) && ChecksEvidence(w, a, evidence)
    ensures Step(w, a).t == w.t
  {
    hide Granted, EffectLedger.Stage, EffectLedger.Dispatch, EffectLedger.ClaimDispatch, EffectLedger.Persist,
         ReceiptFinalizer.Finalize, CommandUnitOfWork.Claim, StepCommitAtomic, EffectLedger.Confirm, EffectLedger.MarkUnknown,
         EffectLedger.Reconcile, OutboxDelivery.ClaimLease, OutboxDelivery.Acknowledge, CommandUnitOfWork.LegacyUpdate,
         StepAdmit, StepReadCheckpoint, StepReadControl, StepAuthorize, StepInsertLegacy, StepStartLegacy, StepInvokeLegacy,
         StepFinishLegacy, StepSaveRun;
    match a
    case Stage(intent) => StaleLedgerStep(w, a, evidence);
    case ClaimEffect(effectId, dispatcherId) => StaleLedgerStep(w, a, evidence);
    case Dispatch(intent, fence) => StaleLedgerStep(w, a, evidence);
    case Persist(answers, review) => StaleLedgerStep(w, a, evidence);
    case Finalize(answers, input, fault) => FinalizeNeedsAuthority(w.t, answers, input, fault);
    case ClaimCommand(worker, request, owner, brought, at) => ClaimNeedsAuthority(w.t, request, owner, evidence, at);
    case CommitAtomic(worker, preparedAt, eventAt, at) => StaleCommitIsInert(w, worker, preparedAt, eventAt, at, evidence);
  }

  lemma StaleLedgerStep(w: World, a: Action, evidence: Evidence)
    requires !Granted(w.t.acl, evidence) && ChecksEvidence(w, a, evidence)
    requires a.Stage? || a.ClaimEffect? || a.Dispatch? || a.Persist?
    ensures Step(w, a).t == w.t
  {
    hide Granted, EffectLedger.Stage, EffectLedger.Dispatch, EffectLedger.ClaimDispatch, EffectLedger.Persist,
         StepFinalize, StepClaim, StepCommitAtomic, EffectLedger.Confirm, EffectLedger.MarkUnknown,
         EffectLedger.Reconcile, OutboxDelivery.ClaimLease, OutboxDelivery.Acknowledge, CommandUnitOfWork.LegacyUpdate,
         StepAdmit, StepReadCheckpoint, StepReadControl, StepAuthorize, StepInsertLegacy, StepStartLegacy, StepInvokeLegacy,
         StepFinishLegacy, StepSaveRun;
    var intent := if a.Stage? || a.Dispatch? then a.intent else if a.Persist? then a.review.intent
                  else w.t.effects[a.effectId].intent;
    var fence := if a.Dispatch? then a.fence else IssuedFence(intent, 0);
    var answers := RegistryAnswers(false, None, false, None, None, LookThrew);
    match a
    case Persist(given, review) => LedgerNeedsAuthority(w.t, intent, fence, "", "", given, review);
    case ClaimEffect(effectId, dispatcherId) =>
      LedgerNeedsAuthority(w.t, intent, fence, effectId, dispatcherId, answers, ReviewInput(intent, fence, "", None, 0, 0));
    case _ => LedgerNeedsAuthority(w.t, intent, fence, "", "", answers, ReviewInput(intent, fence, "", None, 0, 0));
  }

  /**
   * Every step that carries this evidence, in its arguments, in the stored intent of its effect, or in
   * the worker that takes it. The last three of the ledger never look at the authority tables.
   */
  predicate CarriesEvidence(w: World, a: Action, evidence: Evidence) {
    match a
    case Confirm(intent, _) => intent.evidence == evidence
    case MarkUnknown(effectId, _) => effectId in w.t.effects && w.t.effects[effectId].intent.evidence == evidence
    case Reconcile(effectId) => effectId in w.t.effects && w.t.effects[effectId].intent.evidence == evidence
    case ReadCheckpoint(worker) => !AtomicAt(w, worker).AtomicIdle? && AtomicAt(w, worker).evidence == Some(evidence)
    case ReadControl(worker) => !AtomicAt(w, worker).AtomicIdle? && AtomicAt(w, worker).evidence == Some(evidence)
    case Authorize(worker, _) => !AtomicAt(w, worker).AtomicIdle? && AtomicAt(w, worker).evidence == Some(evidence)
    case _ => ChecksEvidence(w, a, evidence)
  }

  /** The three writes that need no authority, with the exact guards of their transactions. */
  predicate UncheckedWrite(t: Tables, a: Action) {
    match a
    case Confirm(intent, fence) =>
      && FenceBound(intent, fence)
      && intent.effectId in t.effects && EffectLedger.SameIntent(t.effects[intent.effectId], intent)
      && t.effects[intent.effectId].epoch == fence.epoch
      && (t.effects[intent.effectId].status == Leased || t.effects[intent.effectId].status == UnknownEffect)
      && EffectLedger.SinkApplied(t, intent.idempotencyKey, intent.effectId)
    case MarkUnknown(effectId, epoch) =>
      effectId in t.effects && t.effects[effectId].epoch == epoch && t.effects[effectId].status == Leased
    case Reconcile(effectId) =>
      && effectId in t.effects && t.effects[effectId].status == UnknownEffect
      && effectId !in t.remoteReceipts
      && (t.effects[effectId].idempotencyKey in t.sinkReceipts ==>
          t.sinkReceipts[t.effects[effectId].idempotencyKey].effectId == effectId)
    case _ => false
  }

  /** The effect such a write is about. */
  function WrittenEffect(a: Action): string
    requires a.Confirm? || a.MarkUnknown? || a.Reconcile?
  {
    if a.Confirm? then a.intent.effectId else a.effectId
  }

  lemma UncheckedStep(w: World, a: Action)
    requires a.Confirm? || a.MarkUnknown? || a.Reconcile?
    ensures Step(w, a).t != w.t <==> UncheckedWrite(w.t, a)
    ensures UncheckedWrite(w.t, a) ==>
        var e, n := WrittenEffect(a), Step(w, a).t;
        && e in w.t.effects && e in n.effects && n.effects[e].status != w.t.effects[e].status
        && n == w.t.(effects := w.t.effects[e := w.t.effects[e].(status := n.effects[e].status)])
  {
    hide FenceBound, EffectLedger.Stage, EffectLedger.Dispatch, EffectLedger.ClaimDispatch, EffectLedger.Persist,
         StepFinalize, StepClaim, StepCommitAtomic, OutboxDelivery.ClaimLease, OutboxDelivery.Acknowledge,
         CommandUnitOfWork.LegacyUpdate, StepAdmit, StepReadCheckpoint, StepReadControl, StepAuthorize, StepInsertLegacy,
         StepStartLegacy, StepInvokeLegacy, StepFinishLegacy, StepSaveRun, StepClaimEffect;
    var e, n := WrittenEffect(a), Step(w, a).t;
    if e in w.t.effects && n != w.t {
      assert n == w.t.(effects := n.effects) && n.effects == w.t.effects[e := n.effects[e]];
    }
    if e in w.t.effects && n.effects == w.t.effects[e := w.t.effects[e]] {
      assert n.effects == w.t.effects;
    }
  }

  lemma ReadsWriteNothing(w: World, a: Action)
    requires a.ReadCheckpoint? || a.ReadControl? || a.Authorize?
    ensures Step(w, a).t == w.t
  {
    hide EffectLedger.Stage, EffectLedger.Dispatch, EffectLedger.ClaimDispatch, EffectLedger.Persist, EffectLedger.Confirm,
         EffectLedger.MarkUnknown, EffectLedger.Reconcile, StepFinalize, StepClaim, StepCommitAtomic, OutboxDelivery.ClaimLease,
         OutboxDelivery.Acknowledge, CommandUnitOfWork.LegacyUpdate, StepAdmit, StepInsertLegacy, StepStartLegacy,
         StepInvokeLegacy, StepFinishLegacy, StepSaveRun, StepClaimEffect;
  }

  /**
   * With the evidence not granted, a step that carries it changes a table if and only if it is one of
   * three: confirming an effect that is leased or unknown, at its epoch and with its own sink receipt
   * stored; marking a leased effect unknown at its epoch; or reconciling an unknown effect with no remote
   * and no foreign sink receipt. Each of them moves the status of that one effect and nothing else.
   */
  lemma StaleEvidenceWritesIff(w: World, a: Action, evidence: Evidence)
    requires !Granted(w.t.acl, evidence) && CarriesEvidence(w, a, evidence)
    ensures Step(w, a).t != w.t <==> UncheckedWrite(w.t, a)
    ensures UncheckedWrite(w.t, a) ==>
        && (a.Confirm? || a.MarkUnknown? || a.Reconcile?)
        && var e, n := WrittenEffect(a), Step(w, a).t;
        && e in w.t.effects && e in n.effects && n.effects[e].status != w.t.effects[e].status
        && n == w.t.(effects := w.t.effects[e := w.t.effects[e].(status := n.effects[e].status)])
  {
    hide Step, Granted, ChecksEvidence;
    if a.Confirm? || a.MarkUnknown? || a.Reconcile? {
      UncheckedStep(w, a);
    } else if a.ReadCheckpoint? || a.ReadControl? || a.Authorize? {
      ReadsWriteNothing(w, a);
    } else {
      StaleEvidenceWritesNothing(w, a, evidence);
    }
    hide UncheckedWrite;
  }

  /** Once the rows behind an evidence have changed, later steps that carry it write exactly these three things. */
  lemma StaleAuthorityWritesIff(states: seq<World>, actions: seq<Action>, i: nat, j: nat, k: nat, evidence: Evidence)
    requires DisciplinedRun(states, actions) && i <= j <= k < |actions|
    requires Granted(states[i].t.acl, evidence) && !Granted(states[j].t.acl, evidence)
    requires CarriesEvidence(states[k], actions[k], evidence)
    ensures states[k + 1].t != states[k].t <==> UncheckedWrite(states[k].t, actions[k])
    ensures ChecksEvidence(states[k], actions[k], evidence) ==> states[k + 1].t == states[k].t
  {
    hide Step, Granted, CarriesEvidence, UncheckedWrite, ChecksEvidence;
    RevokedForGood(states, actions, i, j, k, evidence);
    var a := actions[k];
    assert states[k + 1] == Step(states[k], a);
    StaleEvidenceWritesIff(states[k], a, evidence);
    if ChecksEvidence(states[k], a, evidence) {
      StaleEvidenceWritesNothing(states[k], a, evidence);
    }
  }

  /** The legacy store never looks at the authority tables, not even for a command that was claimed with an evidence. */
  lemma LegacyIgnoresAuthority(t: Tables, acl: Acl, proposed: Command, expectedVersion: int)
    ensures var here, there := CommandUnitOfWork.LegacyUpdate(t, proposed, expectedVersion),
                               CommandUnitOfWork.LegacyUpdate(t.(acl := acl), proposed, expectedVersion);
            there.result == here.result && there.tables == here.tables.(acl := acl)
  {
  }

  // ----- from the claim, or the staging, to the write -----

  /** A fenced atomic command, all of whose busy workers carry the evidence of its claim. */
  ghost predicate ClaimedWith(w: World, id: string, evidence: Evidence) {
    && id in w.t.commands
    && w.t.commands[id].payload.owner == Some(AtomicControlOnly)
    && w.t.commands[id].payload.fenced
    && forall v | v in w.atomic && !w.atomic[v].AtomicIdle? && w.atomic[v].record.request.commandId == id ::
         w.atomic[v].evidence == Some(evidence)
  }

  lemma WinningClaim(w: World, worker: nat, request: Request, evidence: Evidence, at: Timestamp)
    requires WorkerInv(w.atomic, w.legacy, w.t.commands, w.history.checkpoints, w.history.controls, w.invoked)
    requires request.commandId !in w.t.commands
    requires request.commandId in StepClaim(w, worker, request, AtomicControlOnly, Some(evidence), at).t.commands
    ensures AuthorityHolds(w.t.acl, request, evidence)
    ensures ClaimedWith(StepClaim(w, worker, request, AtomicControlOnly, Some(evidence), at), request.commandId, evidence)
    ensures StepClaim(w, worker, request, AtomicControlOnly, Some(evidence), at).t.commands[request.commandId].payload.request == request
  {
    CommandPreservation.FreshCommandUnheld(w, request.commandId);
    hide WorkerInv, AuthorityHolds, Blank;
  }

  lemma ClaimedWithStays(w: World, n: World, id: string, evidence: Evidence)
    requires ClaimedWith(w, id, evidence) && WorkersDescend(w, n) && CommandsAdvance(w.t.commands, n.t.commands)
    ensures ClaimedWith(n, id, evidence)
  {
  }

  lemma {:induction false} ClaimedWithAlong(states: seq<World>, actions: seq<Action>, i: nat, j: nat, id: string, evidence: Evidence)
    requires IsRun(states, actions) && Reachable(states[0]) && i <= j <= |actions|
    requires ClaimedWith(states[i], id, evidence)
    ensures ClaimedWith(states[j], id, evidence)
    decreases j
  {
    hide Step, Reachable, ClaimedWith, Inv, Advances;
    if i < j {
      ClaimedWithAlong(states, actions, i, j - 1, id, evidence);
      var a := actions[j - 1];
      assert states[j] == Step(states[j - 1], a);
      StepFrame(states[j - 1], a);
      ReachableInv(states[0]);
      RunKeepsInv(states, actions, j - 1, j);
      AdvancesCommands(states[j - 1], states[j]);
      ClaimedWithStays(states[j - 1], states[j], id, evidence);
    }
  }

  lemma AdvancesCommands(w: World, n: World)
    requires Advances(w, n)
    ensures CommandsAdvance(w.t.commands, n.t.commands) && EffectsAdvance(w.t.effects, n.t.effects)
  {
    hide CommandsAdvance, EffectsAdvance, OutboxAdvances;
  }

  /** The generic commit ends a command only with the worker that holds it, and checks the evidence it carries. */
  lemma CommitEndsHeldCommand(w: World, worker: nat, preparedAt: Timestamp, eventAt: Timestamp, at: Timestamp, id: string, evidence: Evidence)
    requires ClaimedWith(w, id, evidence) && w.t.commands[id].version == 2
    requires var n := StepCommitAtomic(w, worker, preparedAt, eventAt, at);
             id in n.t.commands && n.t.commands[id].version == 3
    ensures AuthorityHolds(w.t.acl, w.t.commands[id].payload.request, evidence)
  {
    var draft := AtomicDraft(AtomicAt(w, worker), preparedAt, eventAt);
    hide AtomicDraft, AuthorityHolds, CommandUnitOfWork.RunStateDenial;
    DraftOf(w, worker, preparedAt, eventAt);
    if draft.Some? {
      CommitChecksEvidence(w.t, draft.value, at);
    }
  }

  lemma DraftOf(w: World, worker: nat, preparedAt: Timestamp, eventAt: Timestamp)
    ensures var a, draft := AtomicAt(w, worker), AtomicDraft(AtomicAt(w, worker), preparedAt, eventAt);
            draft.Some? ==> a.Authorized? && draft.value.command.request == a.record.request && draft.value.evidence == a.evidence
  {
  }

  lemma CommitChecksEvidence(t: Tables, input: CommandUnitOfWork.CommitInput, at: Timestamp)
    requires CommandUnitOfWork.Commit(t, input, at).result.Ok?
    ensures var id, n := input.command.request.commandId, CommandUnitOfWork.Commit(t, input, at).tables;
            && id in t.commands && t.commands[id].payload.request == input.command.request
            && (forall c | c in n.commands && c != id :: c in t.commands && n.commands[c] == t.commands[c])
            && (t.commands[id].payload.fenced ==>
                input.evidence.Some? && AuthorityHolds(t.acl, input.command.request, input.evidence.value))
  {
    hide AuthorityHolds, CommandUnitOfWork.RunStateDenial, CommandUnitOfWork.AppendEvents;
  }

  /** Step `i` of the run is the claim that created the command, with this evidence. */
  ghost predicate ClaimedAt(states: seq<World>, actions: seq<Action>, i: nat, request: Request, evidence: Evidence)
    requires IsRun(states, actions)
  {
    && i < |actions|
    && actions[i].ClaimCommand? && actions[i].request == request && actions[i].owner == AtomicControlOnly
    && actions[i].evidence == Some(evidence)
    && request.commandId !in states[i].t.commands && request.commandId in states[i + 1].t.commands
  }

  lemma ClaimStep(w: World, a: Action)
    requires a.ClaimCommand?
    ensures Step(w, a) == StepClaim(w, a.worker, a.request, a.owner, a.evidence, a.at)
  {
  }

  lemma CommitStep(w: World, a: Action)
    requires a.CommitAtomic?
    ensures Step(w, a) == StepCommitAtomic(w, a.worker, a.preparedAt, a.eventAt, a.at)
  {
  }

  lemma ClaimedAtHolds(states: seq<World>, actions: seq<Action>, i: nat, request: Request, evidence: Evidence)
    requires IsRun(states, actions) && Reachable(states[0]) && ClaimedAt(states, actions, i, request, evidence)
    ensures AuthorityHolds(states[i].t.acl, request, evidence)
    ensures ClaimedWith(states[i + 1], request.commandId, evidence)
    ensures states[i + 1].t.commands[request.commandId].payload.request == request
  {
    hide Step, Reachable, Inv, AuthorityHolds, StepClaim, Advances, ClaimedWith;
    ReachableInv(states[0]);
    RunKeepsInv(states, actions, 0, i);
    var a := actions[i];
    assert states[i + 1] == Step(states[i], a);
    ClaimStep(states[i], a);
    InvWorkers(states[i]);
    WinningClaim(states[i], a.worker, request, evidence, a.at);
  }

  lemma InvWorkers(w: World)
    requires Inv(w)
    ensures WorkerInv(w.atomic, w.legacy, w.t.commands, w.history.checkpoints, w.history.controls, w.invoked)
  {
    hide LedgerInv, FenceInv, CommandInv, EffectCommands, TerminalEffects, ConsumptionInv, ControlInv, CheckpointInv,
         OutboxInv, WorkerInv;
  }

  /**
   * When the generic commit ends a command that was claimed with an evidence, that evidence held, by
   * the very same rows, in every state from the claim to the commit.
   */
  lemma AuthorityHoldsFromClaimToCommit(states: seq<World>, actions: seq<Action>, i: nat, k: nat, j: nat,
                                        request: Request, evidence: Evidence)
    requires DisciplinedRun(states, actions) && Reachable(states[0]) && ClaimedAt(states, actions, i, request, evidence)
    requires i <= k <= j && i < j < |actions| && actions[j].CommitAtomic?
    requires request.commandId in states[j].t.commands && states[j].t.commands[request.commandId].version == 2
    requires request.commandId in states[j + 1].t.commands && states[j + 1].t.commands[request.commandId].version == 3
    ensures AuthorityHolds(states[k].t.acl, request, evidence)
    ensures EvidenceFacts(states[k].t.acl, evidence) == EvidenceFacts(states[i].t.acl, evidence)
  {
    var id := request.commandId;
    hide Step, Reachable, Inv, Advances, ClaimedWith, StepCommitAtomic, Granted, EvidenceFacts, ClaimedAt, Disciplined;
    ClaimedAtHolds(states, actions, i, request, evidence);
    ClaimedWithAlong(states, actions, i + 1, j, id, evidence);
    RunReachable(states, actions, i + 1);
    ReachableInv(states[0]);
    RunKeepsInv(states, actions, i + 1, j);
    AdvancesCommands(states[i + 1], states[j]);
    RequestKept(states[i + 1], states[j], id, evidence);
    var a := actions[j];
    assert states[j + 1] == Step(states[j], a);
    CommitStep(states[j], a);
    CommitEndsHeldCommand(states[j], a.worker, a.preparedAt, a.eventAt, a.at, id, evidence);
    GrantedBetween(states, actions, i, k, j, evidence);
  }

  lemma RequestKept(w: World, n: World, id: string, evidence: Evidence)
    requires ClaimedWith(w, id, evidence) && CommandsAdvance(w.t.commands, n.t.commands)
    ensures id in n.t.commands && n.t.commands[id].payload.request == w.t.commands[id].payload.request
  {
  }

  lemma RunReachable(states: seq<World>, actions: seq<Action>, j: nat)
    requires IsRun(states, actions) && Reachable(states[0]) && j <= |actions|
    ensures Reachable(states[j])
  {
    hide Step;
    var s, a := states[..j + 1], actions[..j];
    assert IsRun(s, a) by {
      forall i {:trigger a[i]} | 0 <= i < |a| ensures s[i + 1] == Step(s[i], a[i]) {
        assert a[i] == actions[i];
      }
    }
    assert s[0] == states[0] && s[|a|] == states[j];
    LeadsTransitive(INITIAL, states[0], states[j]);
  }

  // ----- effects and the finalizer -----

  /** Every effect was added by staging exactly its intent, under authority that held then. */
  lemma {:induction false} EffectsWereStaged(states: seq<World>, actions: seq<Action>, j: nat, e: string)
    requires IsRun(states, actions) && states[0] == INITIAL && j <= |actions| && e in states[j].t.effects
    ensures exists i :: 0 <= i < j && actions[i] == Stage(states[j].t.effects[e].intent) && e !in states[i].t.effects
                     && Granted(states[i].t.acl, states[j].t.effects[e].intent.evidence)
    decreases j
  {
    hide Step, Inv, Advances, Granted;
    InitialInv();
    if j > 0 {
      var a := actions[j - 1];
      assert states[j] == Step(states[j - 1], a);
      if e in states[j - 1].t.effects {
        EffectsWereStaged(states, actions, j - 1, e);
        RunKeepsInv(states, actions, j - 1, j);
        AdvancesCommands(states[j - 1], states[j]);
      } else {
        StepFrame(states[j - 1], a);
        StageStep(states[j - 1], a.intent);
        StageFrame(states[j - 1].t, a.intent);
        assert actions[j - 1] == Stage(states[j].t.effects[e].intent);
      }
    }
  }

  lemma FinalizeHadAuthority(t: Tables, answers: RegistryAnswers, input: ReceiptFinalizer.FinalizeInput, fault: bool)
    requires ReceiptFinalizer.Finalize(t, answers, input, fault).result.Ok?
    ensures AuthorityHolds(t.acl, input.intent.command, input.intent.evidence)
    ensures input.intent.effectId in t.effects && t.effects[input.intent.effectId].intent == input.intent
  {
    hide AuthorityHolds, FenceBound, ReceiptFinalizer.ReceiptMatches, ReceiptFinalizer.PreparedFor,
         ReceiptFinalizer.PlanMatches, ReceiptFinalizer.PlanWrites, ReceiptFinalizer.ReplayConsistent;
  }

  /**
   * When the finalizer accepts an input, its intent was staged earlier in the run, and the evidence in
   * it held, by the very same rows, in every state from the staging on.
   */
  lemma AuthorityHoldsFromStagingToFinalize(states: seq<World>, actions: seq<Action>, j: nat)
    requires DisciplinedRun(states, actions) && states[0] == INITIAL && j < |actions| && actions[j].Finalize?
    requires ReceiptFinalizer.Finalize(states[j].t, actions[j].answers, actions[j].input, actions[j].fault).result.Ok?
    ensures exists i :: 0 <= i < j && actions[i] == Stage(actions[j].input.intent)
                     && actions[j].input.intent.effectId !in states[i].t.effects
                     && forall k {:trigger states[k]} | i <= k <= j ::
                          AuthorityHolds(states[k].t.acl, actions[j].input.intent.command, actions[j].input.intent.evidence)
  {
    hide Step, Granted, ReceiptFinalizer.Finalize, Disciplined;
    var input := actions[j].input;
    FinalizeHadAuthority(states[j].t, actions[j].answers, input, actions[j].fault);
    EffectsWereStaged(states, actions, j, input.intent.effectId);
    var i :| 0 <= i < j && actions[i] == Stage(input.intent) && input.intent.effectId !in states[i].t.effects
          && Granted(states[i].t.acl, input.intent.evidence);
    forall k {:trigger states[k]} | i <= k <= j ensures AuthorityHolds(states[k].t.acl, input.intent.command, input.intent.evidence) {
      GrantedBetween(states, actions, i, k, j, input.intent.evidence);
    }
  }

  lemma SameCommandSameEvidence(acl: Acl, request: Request, a: Evidence, b: Evidence)
    requires AuthorityHolds(acl, request, a) && AuthorityHolds(acl, request, b)
    ensures a == b
  {
    assert acl.runs[request.runId].tenantId == a.tenantId == b.tenantId;
  }

  /** A disciplined run that claims a command with this evidence at step `i` and finalizes an effect of it at step `j`. */
  ghost predicate ClaimedThenFinalized(states: seq<World>, actions: seq<Action>, i: nat, j: nat, evidence: Evidence) {
    && DisciplinedRun(states, actions) && states[0] == INITIAL && i < j < |actions| && actions[j].Finalize?
    && ReceiptFinalizer.Finalize(states[j].t, actions[j].answers, actions[j].input, actions[j].fault).result.Ok?
    && ClaimedAt(states, actions, i, actions[j].input.intent.command, evidence)
  }

  /**
   * Between the claim of a command and a finalization of its effect the claimed authority held
   * throughout if and only if the staged intent carries the claim's evidence: the claim's evidence is
   * not stored, so an intent staged after a re-grant may carry a newer one.
   */
  lemma FinalizeKeepsClaimedAuthorityIff(states: seq<World>, actions: seq<Action>, i: nat, j: nat, evidence: Evidence)
    requires ClaimedThenFinalized(states, actions, i, j, evidence)
    ensures (forall k {:trigger states[k]} | i <= k <= j ::
               AuthorityHolds(states[k].t.acl, actions[j].input.intent.command, evidence))
       <==> actions[j].input.intent.evidence == evidence
  {
    hide Step, Granted, ReceiptFinalizer.Finalize, Disciplined, Reachable, ClaimedAt, EvidenceBound;
    var input := actions[j].input;
    InitialIsReachable();
    ClaimedAtHolds(states, actions, i, input.intent.command, evidence);
    FinalizeHadAuthority(states[j].t, actions[j].answers, input, actions[j].fault);
    if input.intent.evidence == evidence {
      forall k {:trigger states[k]} | i <= k <= j ensures AuthorityHolds(states[k].t.acl, input.intent.command, evidence) {
        GrantedBetween(states, actions, i, k, j, evidence);
      }
    } else if AuthorityHolds(states[j].t.acl, input.intent.command, evidence) {
      SameCommandSameEvidence(states[j].t.acl, input.intent.command, evidence, input.intent.evidence);
    }
  }
}
