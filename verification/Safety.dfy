/** Every reachable state satisfies the invariant, and every run only advances. */
module Safety {
  import opened Text
  import opened Records
  import opened Database
  import opened World
  import opened Invariants
  import LedgerPreservation
  import opened CommandPreservation
  import opened DeliveryPreservation
  import opened CommitPreservation
  import CommandUnitOfWork
  import EffectLedger
  import ReceiptFinalizer
  import OutboxDelivery

  lemma LegacyStepKeepsInv(w: World, a: Action)
    requires Inv(w)
    requires a.InsertLegacy? || a.StartLegacy? || a.InvokeLegacy? || a.FinishLegacy? || a.ProposeLegacy? || a.Crash?
    ensures Inv(Step(w, a)) && Advances(w, Step(w, a))
  {
    hide Inv, Advances, StepClaimEffect, StepFinalize, StepClaim, StepAdmit, StepReadCheckpoint, StepReadControl, StepAuthorize, StepCommitAtomic,
         StepInsertLegacy, StepStartLegacy, StepInvokeLegacy, StepFinishLegacy, StepSaveRun, EffectLedger.Stage,
         EffectLedger.Dispatch, EffectLedger.Confirm, EffectLedger.MarkUnknown, EffectLedger.Reconcile, EffectLedger.Persist,
         CommandUnitOfWork.LegacyUpdate, OutboxDelivery.ClaimLease, OutboxDelivery.Acknowledge, OutboxDelivery.WithQueue;
    match a
    case InsertLegacy(worker, request, at) => InsertLegacyKeepsInv(w, worker, request, at);
    case StartLegacy(worker, at) => StartLegacyKeepsInv(w, worker, at);
    case InvokeLegacy(worker, status, reason, snapshot) => InvokeLegacyKeepsInv(w, worker, status, reason, snapshot);
    case FinishLegacy(worker, at) => FinishLegacyKeepsInv(w, worker, at);
    case ProposeLegacy(proposed, expectedVersion) => ProposeLegacyKeepsInv(w, proposed, expectedVersion);
    case Crash(worker) => CrashKeepsInv(w, worker);
  }

  lemma AtomicStepKeepsInv(w: World, a: Action)
    requires Inv(w)
    requires a.ClaimCommand? || a.AdmitCommand? || a.ReadCheckpoint? || a.ReadControl? || a.Authorize? || a.CommitAtomic?
    ensures Inv(Step(w, a)) && Advances(w, Step(w, a))
  {
    hide Inv, Advances, StepClaimEffect, StepFinalize, StepClaim, StepAdmit, StepReadCheckpoint, StepReadControl, StepAuthorize, StepCommitAtomic,
         StepInsertLegacy, StepStartLegacy, StepInvokeLegacy, StepFinishLegacy, StepSaveRun, EffectLedger.Stage,
         EffectLedger.Dispatch, EffectLedger.Confirm, EffectLedger.MarkUnknown, EffectLedger.Reconcile, EffectLedger.Persist,
         CommandUnitOfWork.LegacyUpdate, OutboxDelivery.ClaimLease, OutboxDelivery.Acknowledge, OutboxDelivery.WithQueue;
    match a
    case ClaimCommand(worker, request, owner, evidence, at) => ClaimKeepsInv(w, worker, request, owner, evidence, at);
    case AdmitCommand(worker, request, at) => AdmitKeepsInv(w, worker, request, at);
    case ReadCheckpoint(worker) => ReadCheckpointKeepsInv(w, worker);
    case ReadControl(worker) => ReadControlKeepsInv(w, worker);
    case Authorize(worker, decision) => AuthorizeKeepsInv(w, worker, decision);
    case CommitAtomic(worker, preparedAt, eventAt, at) => CommitAtomicKeepsInv(w, worker, preparedAt, eventAt, at);
  }

  lemma DeliveryStepKeepsInv(w: World, a: Action)
    requires Inv(w)
    requires a.Finalize? || a.SaveRun? || a.ChangeAcl? || a.ClaimDelivery? || a.AckDelivery?
    ensures Inv(Step(w, a)) && Advances(w, Step(w, a))
  {
    hide Inv, Advances, StepClaimEffect, StepFinalize, StepClaim, StepAdmit, StepReadCheckpoint, StepReadControl, StepAuthorize, StepCommitAtomic,
         StepInsertLegacy, StepStartLegacy, StepInvokeLegacy, StepFinishLegacy, StepSaveRun, EffectLedger.Stage,
         EffectLedger.Dispatch, EffectLedger.Confirm, EffectLedger.MarkUnknown, EffectLedger.Reconcile, EffectLedger.Persist,
         CommandUnitOfWork.LegacyUpdate, OutboxDelivery.ClaimLease, OutboxDelivery.Acknowledge, OutboxDelivery.WithQueue;
    match a
    case Finalize(answers, input, fault) => FinalizeKeepsInv(w, answers, input, fault);
    case SaveRun(checkpoint, expectedVersion, at) => SaveRunKeepsInv(w, checkpoint, expectedVersion, at);
    case ChangeAcl(acl) => ChangeAclKeepsInv(w, acl);
    case ClaimDelivery(claim, token) => ClaimDeliveryKeepsInv(w, claim, token);
    case AckDelivery(ack) => AckDeliveryKeepsInv(w, ack);
  }

  /** Any transaction, or any statement of a worker between two transactions. */
  lemma StepKeepsInv(w: World, a: Action)
    requires Inv(w)
    ensures Inv(Step(w, a)) && Advances(w, Step(w, a))
  {
    hide Inv, Advances, Step;
    match a
    case Stage(_) => LedgerPreservation.LedgerStepKeepsInv(w, a);
    case ClaimEffect(_, _) => LedgerPreservation.LedgerStepKeepsInv(w, a);
    case Dispatch(_, _) => LedgerPreservation.LedgerStepKeepsInv(w, a);
    case Confirm(_, _) => LedgerPreservation.LedgerStepKeepsInv(w, a);
    case MarkUnknown(_, _) => LedgerPreservation.LedgerStepKeepsInv(w, a);
    case Reconcile(_) => LedgerPreservation.LedgerStepKeepsInv(w, a);
    case Persist(_, _) => LedgerPreservation.LedgerStepKeepsInv(w, a);
    case Finalize(_, _, _) => DeliveryStepKeepsInv(w, a);
    case SaveRun(_, _, _) => DeliveryStepKeepsInv(w, a);
    case ChangeAcl(_) => DeliveryStepKeepsInv(w, a);
    case ClaimDelivery(_, _) => DeliveryStepKeepsInv(w, a);
    case AckDelivery(_) => DeliveryStepKeepsInv(w, a);
    case ClaimCommand(_, _, _, _, _) => AtomicStepKeepsInv(w, a);
    case AdmitCommand(_, _, _) => AtomicStepKeepsInv(w, a);
    case ReadCheckpoint(_) => AtomicStepKeepsInv(w, a);
    case ReadControl(_) => AtomicStepKeepsInv(w, a);
    case Authorize(_, _) => AtomicStepKeepsInv(w, a);
    case CommitAtomic(_, _, _, _) => AtomicStepKeepsInv(w, a);
    case _ => LegacyStepKeepsInv(w, a);
  }

  lemma InitialInv()
    ensures Inv(INITIAL)
  {
  }

  // ----- whole runs -----

  lemma SameEventTransitive(a: OutboxRow, b: OutboxRow, c: OutboxRow)
    requires SameEvent(a, b) && SameEvent(b, c)
    ensures SameEvent(a, c)
  {
  }

  lemma TablesAdvanceTransitive(u: Tables, v: Tables, w: Tables)
    requires EffectsAdvance(u.effects, v.effects) && EffectsAdvance(v.effects, w.effects)
    requires CommandsAdvance(u.commands, v.commands) && CommandsAdvance(v.commands, w.commands)
    requires OutboxAdvances(u.outbox, v.outbox) && OutboxAdvances(v.outbox, w.outbox)
    ensures EffectsAdvance(u.effects, w.effects) && CommandsAdvance(u.commands, w.commands)
    ensures OutboxAdvances(u.outbox, w.outbox)
  {
    hide SameEvent;
    forall o | o in u.outbox ensures o in w.outbox && SameEvent(u.outbox[o], w.outbox[o]) {
      SameEventTransitive(u.outbox[o], v.outbox[o], w.outbox[o]);
    }
  }

  lemma LogsGrowTransitive<T>(a: map<string, seq<T>>, b: map<string, seq<T>>, c: map<string, seq<T>>)
    requires LogsGrow(a, b) && LogsGrow(b, c)
    ensures LogsGrow(a, c)
  {
    forall k ensures Log(a, k) <= Log(c, k) {
      assert Log(a, k) <= Log(b, k) <= Log(c, k);
    }
  }

  lemma AdvancesTransitive(u: World, v: World, w: World)
    requires Advances(u, v) && Advances(v, w)
    ensures Advances(u, w)
  {
    TablesAdvanceTransitive(u.t, v.t, w.t);
    hide EffectsAdvance, CommandsAdvance, OutboxAdvances;
    LogsGrowTransitive(u.history.checkpoints, v.history.checkpoints, w.history.checkpoints);
    LogsGrowTransitive(u.history.controls, v.history.controls, w.history.controls);
    LogsGrowTransitive(u.history.fences, v.history.fences, w.history.fences);
  }

  /** Every state of a run that starts in the invariant satisfies it, and advances every earlier one. */
  lemma {:induction false} RunKeepsInv(states: seq<World>, actions: seq<Action>, i: nat, j: nat)
    requires IsRun(states, actions) && Inv(states[0]) && i <= j <= |actions|
    ensures Inv(states[i]) && Inv(states[j]) && Advances(states[i], states[j])
    decreases j
  {
    hide Inv, Advances, Step;
    if j == 0 {
      Stays(states[0]);
    } else {
      if i == j {
        RunKeepsInv(states, actions, i - 1, j - 1);
        Stays(states[j]);
      } else {
        RunKeepsInv(states, actions, i, j - 1);
      }
      var a := actions[j - 1];
      assert states[j] == Step(states[j - 1], a);
      StepKeepsInv(states[j - 1], a);
      if i < j {
        AdvancesTransitive(states[i], states[j - 1], states[j]);
      }
    }
  }

  lemma LeadsKeepsInv(w: World, later: World)
    requires Inv(w) && Leads(w, later)
    ensures Inv(later) && Advances(w, later)
  {
    hide Inv, Advances, Step;
    var states, actions :| IsRun(states, actions) && states[0] == w && states[|actions|] == later;
    RunKeepsInv(states, actions, 0, |actions|);
  }

  lemma ReachableInv(w: World)
    requires Reachable(w)
    ensures Inv(w)
  {
    hide Inv, Step;
    InitialInv();
    LeadsKeepsInv(INITIAL, w);
  }

  lemma LaterInv(w: World, later: World)
    requires Reachable(w) && Leads(w, later)
    ensures Reachable(later) && Inv(w) && Inv(later) && Advances(w, later)
  {
    hide Inv, Advances, Leads;
    ReachableInv(w);
    LeadsKeepsInv(w, later);
    LeadsTransitive(INITIAL, w, later);
  }

  /** The invariant and the advance of a reachable state, conjunct by conjunct. */
  lemma ReachableFacts(w: World)
    requires Reachable(w)
    ensures LedgerInv(w.t.effects, w.t.sinkReceipts, w.t.remoteReceipts, w.t.consumptions)
    ensures FenceInv(w.t.effects, w.history.fences)
    ensures CommandInv(w.t.commands)
    ensures EffectCommands(w.t.effects, w.t.commands)
    ensures TerminalEffects(w.t.effects, w.t.commands, w.t.consumptions)
    ensures ConsumptionInv(w.t.consumptions, w.t.effects, w.t.commands, w.t.outbox, w.history.controls)
    ensures ControlInv(w.t.controls, w.history.controls, w.t.commands)
    ensures CheckpointInv(w.t.checkpoints, w.history.checkpoints)
    ensures OutboxRows(w.t.outbox, w.t.leases) && OutboxCommands(w.t.outbox, w.t.commands)
    ensures ReceiptEvents(w.t.outbox, w.t.consumptions)
    ensures WorkerInv(w.atomic, w.legacy, w.t.commands, w.history.checkpoints, w.history.controls, w.invoked)
  {
    hide Step, Reachable, LedgerInv, FenceInv, CommandInv, EffectCommands, TerminalEffects, ConsumptionInv, ControlInv,
         CheckpointInv, OutboxRows, OutboxCommands, ReceiptEvents, WorkerInv;
    ReachableInv(w);
  }

  lemma LaterFacts(w: World, later: World)
    requires Reachable(w) && Leads(w, later)
    ensures Reachable(later)
    ensures EffectsAdvance(w.t.effects, later.t.effects)
    ensures Grows(w.t.sinkReceipts, later.t.sinkReceipts)
    ensures Grows(w.t.remoteReceipts, later.t.remoteReceipts)
    ensures Grows(w.t.consumptions, later.t.consumptions)
    ensures CommandsAdvance(w.t.commands, later.t.commands)
    ensures OutboxAdvances(w.t.outbox, later.t.outbox)
    ensures LogsGrow(w.history.checkpoints, later.history.checkpoints)
    ensures LogsGrow(w.history.controls, later.history.controls)
    ensures LogsGrow(w.history.fences, later.history.fences)
    ensures w.invoked <= later.invoked
  {
    hide Step, Reachable, Leads, Inv, EffectsAdvance, CommandsAdvance, OutboxAdvances, LogsGrow, Grows;
    LaterInv(w, later);
  }
}
