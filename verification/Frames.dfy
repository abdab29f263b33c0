/** What each kind of step leaves alone: the authority tables, the set of effects, and the workers. */
module Frames {
  import opened Text
  import opened Records
  import opened Database
  import opened Authority
  import opened ReceiptReview
  import opened World
  import CommandUnitOfWork
  import AtomicAdapter
  import EffectLedger
  import ReceiptFinalizer
  import ReceiptTheorems
  import OutboxDelivery
  import ControlPreparation

  ghost predicate SameFrame(w: World, n: World) {
    n.t.acl == w.t.acl && n.t.effects.Keys == w.t.effects.Keys && n.atomic == w.atomic
  }

  /** Every busy atomic worker was busy with the same record and evidence, or starts on a command that is new. */
  ghost predicate WorkersDescend(w: World, n: World) {
    forall v | v in n.atomic && !n.atomic[v].AtomicIdle? ::
      || (v in w.atomic && !w.atomic[v].AtomicIdle?
          && w.atomic[v].record == n.atomic[v].record && w.atomic[v].evidence == n.atomic[v].evidence)
      || (n.atomic[v].record.request.commandId !in w.t.commands && n.atomic[v].record.request.commandId in n.t.commands)
  }

  ghost predicate WorkerFrame(w: World, n: World) {
    n.t.acl == w.t.acl && n.t.effects.Keys == w.t.effects.Keys && WorkersDescend(w, n)
  }

  ghost predicate QueueStays(w: World, n: World) {
    n.t.outbox == w.t.outbox && n.t.leases == w.t.leases
  }

  lemma LedgerFrame(w: World, a: Action)
    requires a.Dispatch? || a.Confirm? || a.MarkUnknown? || a.Reconcile? || a.Persist?
    ensures SameFrame(w, Step(w, a))
    ensures QueueStays(w, Step(w, a))
  {
    hide EffectLedger.CurrentAuthority, FenceBound, EffectLedger.SinkApplied, EffectLedger.ReceiptClash, OutboxDelivery.ClaimLease,
         OutboxDelivery.Acknowledge, ReviewForPersistence, StepFinalize, StepClaim, StepAdmit, StepReadCheckpoint,
         StepReadControl, StepAuthorize, StepCommitAtomic, StepInsertLegacy, StepStartLegacy, StepInvokeLegacy, StepFinishLegacy,
         StepSaveRun, StepClaimEffect, EffectLedger.Stage, CommandUnitOfWork.LegacyUpdate;
  }

  lemma ClaimEffectFrame(w: World, effectId: string, dispatcherId: string)
    ensures SameFrame(w, StepClaimEffect(w, effectId, dispatcherId))
    ensures QueueStays(w, StepClaimEffect(w, effectId, dispatcherId))
  {
    hide EffectLedger.CurrentAuthority, ValidId;
  }

  lemma StageFrame(t: Tables, intent: Intent)
    ensures var n := EffectLedger.Stage(t, intent).tables;
            && n == t.(effects := n.effects)
            && (n.effects != t.effects ==>
                && intent.effectId !in t.effects && n.effects.Keys == t.effects.Keys + {intent.effectId}
                && n.effects[intent.effectId].intent == intent && Granted(t.acl, intent.evidence))
  {
    hide ValidId, Granted, EvidenceBound;
  }

  lemma SaveRunFrame(w: World, checkpoint: Checkpoint, expectedVersion: int, at: Timestamp)
    ensures SameFrame(w, StepSaveRun(w, checkpoint, expectedVersion, at))
    ensures QueueStays(w, StepSaveRun(w, checkpoint, expectedVersion, at))
  {
  }

  lemma FinalizeFrame(w: World, answers: RegistryAnswers, input: ReceiptFinalizer.FinalizeInput, fault: bool)
    ensures SameFrame(w, StepFinalize(w, answers, input, fault))
  {
    ReceiptTheorems.FinalizeIsAllOrNothing(w.t, answers, input, fault);
    hide ReceiptFinalizer.Finalize;
  }

  lemma LegacyFrame(w: World, worker: nat, at: Timestamp)
    ensures SameFrame(w, StepStartLegacy(w, worker, at)) && SameFrame(w, StepFinishLegacy(w, worker, at))
    ensures QueueStays(w, StepStartLegacy(w, worker, at)) && QueueStays(w, StepFinishLegacy(w, worker, at))
  {
  }

  lemma InsertFrame(w: World, worker: nat, request: Request, at: Timestamp)
    ensures SameFrame(w, StepInsertLegacy(w, worker, request, at))
    ensures QueueStays(w, StepInsertLegacy(w, worker, request, at))
  {
  }

  lemma InvokeFrame(w: World, worker: nat, status: CommandStatus, reason: ResultReason, snapshot: Option<Snapshot>)
    ensures SameFrame(w, StepInvokeLegacy(w, worker, status, reason, snapshot))
    ensures QueueStays(w, StepInvokeLegacy(w, worker, status, reason, snapshot))
  {
  }

  lemma ClaimFrame(w: World, worker: nat, request: Request, owner: Owner, evidence: Option<Evidence>, at: Timestamp)
    ensures WorkerFrame(w, StepClaim(w, worker, request, owner, evidence, at))
    ensures QueueStays(w, StepClaim(w, worker, request, owner, evidence, at))
  {
    ClaimTouchesCommands(w.t, request, owner, evidence, at);
    hide CommandUnitOfWork.Claim;
  }

  lemma ClaimTouchesCommands(t: Tables, request: Request, owner: Owner, evidence: Option<Evidence>, at: Timestamp)
    ensures var claimed := CommandUnitOfWork.Claim(t, request, owner, evidence, at);
            && claimed.tables == t.(commands := claimed.tables.commands)
            && (claimed.result.Ok? && claimed.result.value.ClaimedExecuting? ==>
                claimed.result.value.record.request == request
                && request.commandId !in t.commands && request.commandId in claimed.tables.commands)
  {
    hide AuthorityHolds, Blank, ControlOnly, Terminal;
    if request.commandId !in t.commands {
      assert CommandUnitOfWork.Decide(None, request) == Ok(CommandUnitOfWork.AcceptNew);
    } else {
      assert CommandUnitOfWork.Decide(Some(t.commands[request.commandId].payload), request) != Ok(CommandUnitOfWork.AcceptNew);
    }
    hide CommandUnitOfWork.Decide;
  }

  lemma AdmitFrame(w: World, worker: nat, request: Request, at: Timestamp)
    ensures WorkerFrame(w, StepAdmit(w, worker, request, at))
    ensures QueueStays(w, StepAdmit(w, worker, request, at))
  {
    hide Blank;
    assert CommandUnitOfWork.Admit(w.t, request, at).tables.acl == w.t.acl;
  }

  lemma ReadFrame(w: World, worker: nat, decision: ControlPreparation.Decision)
    ensures WorkerFrame(w, StepReadCheckpoint(w, worker)) && WorkerFrame(w, StepReadControl(w, worker))
    ensures WorkerFrame(w, StepAuthorize(w, worker, decision))
    ensures QueueStays(w, StepReadCheckpoint(w, worker)) && QueueStays(w, StepReadControl(w, worker))
    ensures QueueStays(w, StepAuthorize(w, worker, decision))
  {
  }

  lemma CommitFrame(w: World, worker: nat, preparedAt: Timestamp, eventAt: Timestamp, at: Timestamp)
    ensures WorkerFrame(w, StepCommitAtomic(w, worker, preparedAt, eventAt, at))
  {
    hide CommandUnitOfWork.Commit, AtomicDraft;
    var draft := AtomicDraft(AtomicAt(w, worker), preparedAt, eventAt);
    if draft.Some? {
      CommitTablesFrame(w.t, draft.value, at);
    }
  }

  lemma CommitTablesFrame(t: Tables, input: CommandUnitOfWork.CommitInput, at: Timestamp)
    ensures CommandUnitOfWork.Commit(t, input, at).tables.acl == t.acl
    ensures CommandUnitOfWork.Commit(t, input, at).tables.effects == t.effects
  {
    hide CommandUnitOfWork.EvidenceAccepted, CommandUnitOfWork.AppendEvents, CommandUnitOfWork.TerminalDraftAccepted;
  }

  lemma ServiceFrame(w: World, a: Action)
    requires a.Finalize? || a.ClaimEffect? || a.SaveRun? || a.ClaimDelivery? || a.AckDelivery?
    ensures SameFrame(w, Step(w, a))
  {
    hide SameFrame, StepFinalize, StepClaim, StepAdmit, StepReadCheckpoint, StepReadControl, StepAuthorize, StepCommitAtomic,
         StepInsertLegacy, StepStartLegacy, StepInvokeLegacy, StepFinishLegacy, StepSaveRun, StepClaimEffect,
         EffectLedger.Stage, EffectLedger.Dispatch, EffectLedger.Confirm, EffectLedger.MarkUnknown, EffectLedger.Reconcile,
         EffectLedger.Persist, OutboxDelivery.ClaimLease, OutboxDelivery.Acknowledge, CommandUnitOfWork.LegacyUpdate;
    match a
    case Finalize(answers, input, fault) => FinalizeFrame(w, answers, input, fault);
    case ClaimEffect(effectId, dispatcherId) => ClaimEffectFrame(w, effectId, dispatcherId);
    case SaveRun(checkpoint, expectedVersion, at) => SaveRunFrame(w, checkpoint, expectedVersion, at);
    case _ => QueueFrame(w, Step(w, a).t.outbox, Step(w, a).t.leases);
  }

  lemma QueueFrame(w: World, outbox: map<string, OutboxRow>, leases: map<string, Lease>)
    ensures SameFrame(w, w.(t := OutboxDelivery.WithQueue(w.t, OutboxDelivery.Queue(outbox, leases))))
  {
  }

  lemma LegacyRouteFrame(w: World, a: Action)
    requires a.InsertLegacy? || a.StartLegacy? || a.InvokeLegacy? || a.FinishLegacy? || a.ProposeLegacy?
    ensures SameFrame(w, Step(w, a))
    ensures QueueStays(w, Step(w, a))
  {
    hide SameFrame, StepFinalize, StepClaim, StepAdmit, StepReadCheckpoint, StepReadControl, StepAuthorize, StepCommitAtomic,
         StepInsertLegacy, StepStartLegacy, StepInvokeLegacy, StepFinishLegacy, StepSaveRun, StepClaimEffect,
         EffectLedger.Stage, EffectLedger.Dispatch, EffectLedger.Confirm, EffectLedger.MarkUnknown, EffectLedger.Reconcile,
         EffectLedger.Persist, OutboxDelivery.ClaimLease, OutboxDelivery.Acknowledge, CommandUnitOfWork.LegacyUpdate;
    match a
    case InsertLegacy(worker, request, at) => InsertFrame(w, worker, request, at);
    case StartLegacy(worker, at) => LegacyFrame(w, worker, at);
    case FinishLegacy(worker, at) => LegacyFrame(w, worker, at);
    case InvokeLegacy(worker, status, reason, snapshot) => InvokeFrame(w, worker, status, reason, snapshot);
    case ProposeLegacy(proposed, expectedVersion) => ProposeFrame(w, proposed, expectedVersion);
  }

  lemma ProposeFrame(w: World, proposed: Command, expectedVersion: int)
    ensures SameFrame(w, w.(t := CommandUnitOfWork.LegacyUpdate(w.t, proposed, expectedVersion).tables))
    ensures QueueStays(w, w.(t := CommandUnitOfWork.LegacyUpdate(w.t, proposed, expectedVersion).tables))
  {
  }

  lemma AtomicRouteFrame(w: World, a: Action)
    requires a.ClaimCommand? || a.AdmitCommand? || a.ReadCheckpoint? || a.ReadControl? || a.Authorize? || a.CommitAtomic? || a.Crash?
    ensures WorkerFrame(w, Step(w, a))
  {
    hide WorkerFrame, StepFinalize, StepClaim, StepAdmit, StepReadCheckpoint, StepReadControl, StepAuthorize, StepCommitAtomic,
         StepInsertLegacy, StepStartLegacy, StepInvokeLegacy, StepFinishLegacy, StepSaveRun, StepClaimEffect,
         EffectLedger.Stage, EffectLedger.Dispatch, EffectLedger.Confirm, EffectLedger.MarkUnknown, EffectLedger.Reconcile,
         EffectLedger.Persist, OutboxDelivery.ClaimLease, OutboxDelivery.Acknowledge, CommandUnitOfWork.LegacyUpdate;
    var anyone := ControlPreparation.Decision(false, "");
    match a
    case ClaimCommand(worker, request, owner, evidence, at) => ClaimFrame(w, worker, request, owner, evidence, at);
    case AdmitCommand(worker, request, at) => AdmitFrame(w, worker, request, at);
    case ReadCheckpoint(worker) => ReadFrame(w, worker, anyone);
    case ReadControl(worker) => ReadFrame(w, worker, anyone);
    case Authorize(worker, decision) => ReadFrame(w, worker, decision);
    case CommitAtomic(worker, preparedAt, eventAt, at) => CommitFrame(w, worker, preparedAt, eventAt, at);
    case Crash(worker) => CrashFrame(w, worker);
  }

  lemma CrashFrame(w: World, worker: nat)
    ensures WorkerFrame(w, w.(atomic := w.atomic[worker := AtomicIdle], legacy := w.legacy[worker := LegacyIdle]))
  {
  }

  /** Only the ACL writer changes authority, only staging adds an effect, only a claim starts a worker. */
  lemma StepFrame(w: World, a: Action)
    ensures !a.ChangeAcl? ==> Step(w, a).t.acl == w.t.acl
    ensures a.ChangeAcl? ==> Step(w, a).t.acl == a.acl
    ensures !a.Stage? ==> Step(w, a).t.effects.Keys == w.t.effects.Keys
    ensures WorkersDescend(w, Step(w, a))
  {
    if a.Stage? {
      StageFrame(w.t, a.intent);
      StageStep(w, a.intent);
    } else if a.ChangeAcl? {
      AclStep(w, a.acl);
    } else if a.Dispatch? || a.Confirm? || a.MarkUnknown? || a.Reconcile? || a.Persist? {
      hide Step;
      LedgerFrame(w, a);
    } else if a.Finalize? || a.ClaimEffect? || a.SaveRun? || a.ClaimDelivery? || a.AckDelivery? {
      hide Step;
      ServiceFrame(w, a);
    } else if a.InsertLegacy? || a.StartLegacy? || a.InvokeLegacy? || a.FinishLegacy? || a.ProposeLegacy? {
      hide Step;
      LegacyRouteFrame(w, a);
    } else {
      hide Step;
      AtomicRouteFrame(w, a);
    }
  }

  lemma StageStep(w: World, intent: Intent)
    ensures Step(w, Stage(intent)) == w.(t := EffectLedger.Stage(w.t, intent).tables)
  {
  }

  lemma AclStep(w: World, acl: Acl)
    ensures Step(w, ChangeAcl(acl)) == w.(t := w.t.(acl := acl))
  {
  }
}
