/** What the whole protocol does to the producer's delivery tables is what the delivery protocol allows. */
module OutboxProjection {
  import opened Text
  import opened Records
  import opened Database
  import opened World
  import opened Frames
  import opened OutboxDelivery
  import opened ReceiptReview
  import CommandUnitOfWork
  import CommitPreservation
  import ControlPreparation
  import AtomicAdapter
  import ReceiptFinalizer
  import EffectLedger

  ghost predicate Appends(q: Queue, n: Queue, event: OutboxRecord) {
    && !CommandUnitOfWork.EventTaken(q.outbox, event)
    && n == q.(outbox := q.outbox[event.id := CommandUnitOfWork.NewOutboxRow(event)])
  }

  lemma CommitAppends(w: World, worker: nat, preparedAt: Timestamp, eventAt: Timestamp, at: Timestamp)
    ensures var q, n := QueueOf(w.t), QueueOf(StepCommitAtomic(w, worker, preparedAt, eventAt, at).t);
            n == q || exists event :: Appends(q, n, event)
  {
    hide CommandUnitOfWork.Commit, ControlPreparation.Prepare, AtomicAdapter.AdapterCommit, CommandUnitOfWork.EventTaken,
         CommandUnitOfWork.NewOutboxRow, CommitPreservation.FinishedCommand, CommandUnitOfWork.EffectBacked;
    match AtomicAt(w, worker) {
      case Authorized(record, evidence, checkpoint, control, decision) =>
        var prepared := ControlPreparation.Prepare(record.request, checkpoint, control, decision, preparedAt);
        if prepared.Ok? {
          CommitPreservation.PreparedShape(record.request, checkpoint, control, decision, preparedAt);
          var draft := AtomicAdapter.AdapterCommit(record, prepared.value, evidence, eventAt);
          if CommandUnitOfWork.Commit(w.t, draft, at).result.Ok? {
            CommitPreservation.AdapterCommitTables(w.t, record, prepared.value, evidence, eventAt, at);
            var n := StepCommitAtomic(w, worker, preparedAt, eventAt, at);
            assert Appends(QueueOf(w.t), QueueOf(n.t), AtomicAdapter.TerminalEvent(prepared.value, eventAt));
          }
        }
      case _ =>
    }
  }

  lemma FinalizeAppends(w: World, answers: RegistryAnswers, input: ReceiptFinalizer.FinalizeInput, fault: bool)
    ensures var q, n := QueueOf(w.t), QueueOf(StepFinalize(w, answers, input, fault).t);
            n == q || exists event :: Appends(q, n, event)
  {
    hide ReceiptFinalizer.Finalize, ReceiptFinalizer.PreparedFor, ReceiptFinalizer.ReceiptMatches,
         ReceiptFinalizer.CommandMatches, CommandUnitOfWork.EventTaken,
         ReceiptFinalizer.ConsumptionTaken;
    var outcome := ReceiptFinalizer.Finalize(w.t, answers, input, fault);
    if outcome.result.Ok? && outcome.result.value.Finalized? {
      CommitPreservation.FinalizedFrom(w.t, answers, input, fault);
      var writes := ReceiptFinalizer.PlanWrites(w.t, input, ReceiptFinalizer.PreparedFor(w.t, input).value);
      assert Appends(QueueOf(w.t), QueueOf(outcome.tables), writes.event);
    }
  }

  lemma AtomicRouteMoves(w: World, a: Action)
    requires a.ClaimCommand? || a.AdmitCommand? || a.ReadCheckpoint? || a.ReadControl? || a.Authorize? || a.CommitAtomic? || a.Crash?
    ensures var q, n := QueueOf(w.t), QueueOf(Step(w, a).t);
            n == q || exists event :: Appends(q, n, event)
  {
    hide StepClaimEffect, StepFinalize, StepClaim, StepAdmit, StepReadCheckpoint, StepReadControl, StepAuthorize,
         StepCommitAtomic, StepInsertLegacy, StepStartLegacy, StepInvokeLegacy, StepFinishLegacy, StepSaveRun,
         EffectLedger.Stage, EffectLedger.Dispatch, EffectLedger.Confirm, EffectLedger.MarkUnknown, EffectLedger.Reconcile,
         EffectLedger.Persist, CommandUnitOfWork.LegacyUpdate, ClaimLease, Acknowledge, Appends, SameFrame, WorkerFrame;
    var anyone := ControlPreparation.Decision(false, "");
    match a
    case ClaimCommand(worker, request, owner, evidence, at) => ClaimFrame(w, worker, request, owner, evidence, at);
    case AdmitCommand(worker, request, at) => AdmitFrame(w, worker, request, at);
    case ReadCheckpoint(worker) => ReadFrame(w, worker, anyone);
    case ReadControl(worker) => ReadFrame(w, worker, anyone);
    case Authorize(worker, decision) => ReadFrame(w, worker, decision);
    case CommitAtomic(worker, preparedAt, eventAt, at) => CommitAppends(w, worker, preparedAt, eventAt, at);
    case Crash(_) =>
  }

  lemma ServiceMoves(w: World, a: Action)
    requires a.Stage? || a.ClaimEffect? || a.Finalize? || a.SaveRun? || a.ChangeAcl?
    ensures var q, n := QueueOf(w.t), QueueOf(Step(w, a).t);
            n == q || exists event :: Appends(q, n, event)
  {
    hide StepClaimEffect, StepFinalize, StepClaim, StepAdmit, StepReadCheckpoint, StepReadControl, StepAuthorize,
         StepCommitAtomic, StepInsertLegacy, StepStartLegacy, StepInvokeLegacy, StepFinishLegacy, StepSaveRun,
         EffectLedger.Stage, EffectLedger.Dispatch, EffectLedger.Confirm, EffectLedger.MarkUnknown, EffectLedger.Reconcile,
         EffectLedger.Persist, CommandUnitOfWork.LegacyUpdate, ClaimLease, Acknowledge, Appends, SameFrame, WorkerFrame;
    match a
    case Stage(intent) => StageFrame(w.t, intent);
    case ClaimEffect(effectId, dispatcherId) => ClaimEffectFrame(w, effectId, dispatcherId);
    case Finalize(answers, input, fault) => FinalizeAppends(w, answers, input, fault);
    case SaveRun(checkpoint, expectedVersion, at) => SaveRunFrame(w, checkpoint, expectedVersion, at);
    case _ =>
  }

  lemma DeliveryMoves(w: World, a: Action)
    ensures a.ClaimDelivery? ==> QueueOf(Step(w, a).t) == ClaimLease(QueueOf(w.t), a.claim, a.token).queue
    ensures a.AckDelivery? ==> QueueOf(Step(w, a).t) == Acknowledge(QueueOf(w.t), a.ack).queue
  {
    hide StepClaimEffect, StepFinalize, StepClaim, StepAdmit, StepReadCheckpoint, StepReadControl, StepAuthorize,
         StepCommitAtomic, StepInsertLegacy, StepStartLegacy, StepInvokeLegacy, StepFinishLegacy, StepSaveRun,
         EffectLedger.Stage, EffectLedger.Dispatch, EffectLedger.Confirm, EffectLedger.MarkUnknown, EffectLedger.Reconcile,
         EffectLedger.Persist, CommandUnitOfWork.LegacyUpdate, ClaimLease, Acknowledge, Appends, SameFrame, WorkerFrame;
  }

  /**
   * Every step of the protocol leaves the outbox and lease tables alone, appends one event under free
   * ids, or is one delivery claim or acknowledgement: the producer side of the delivery protocol.
   */
  lemma StepsMoveTheQueue(w: World, a: Action)
    ensures var q, n := QueueOf(w.t), QueueOf(Step(w, a).t);
            || n == q
            || (exists event :: Appends(q, n, event))
            || (a.ClaimDelivery? && n == ClaimLease(q, a.claim, a.token).queue)
            || (a.AckDelivery? && n == Acknowledge(q, a.ack).queue)
  {
    hide Step, Appends, SameFrame, WorkerFrame, ClaimLease, Acknowledge;
    if a.Dispatch? || a.Confirm? || a.MarkUnknown? || a.Reconcile? || a.Persist? {
      LedgerFrame(w, a);
    } else if a.InsertLegacy? || a.StartLegacy? || a.InvokeLegacy? || a.FinishLegacy? || a.ProposeLegacy? {
      LegacyRouteFrame(w, a);
    } else if a.Stage? || a.ClaimEffect? || a.Finalize? || a.SaveRun? || a.ChangeAcl? {
      ServiceMoves(w, a);
    } else if a.ClaimDelivery? || a.AckDelivery? {
      DeliveryMoves(w, a);
    } else {
      AtomicRouteMoves(w, a);
    }
  }
}
