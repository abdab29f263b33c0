/** The seven ledger transactions keep every invariant. */
module LedgerPreservation {
  import opened Text
  import opened Records
  import opened Database
  import opened Authority
  import opened ReceiptReview
  import opened EffectLedger
  import opened World
  import opened Invariants
  import opened LedgerRows

  ghost predicate TablesLedgerInv(t: Tables) {
    LedgerInv(t.effects, t.sinkReceipts, t.remoteReceipts, t.consumptions)
  }

  // ----- each transaction is one primitive change -----

  lemma StageKeepsLedger(t: Tables, intent: Intent)
    requires TablesLedgerInv(t)
    ensures var n := EffectLedger.Stage(t, intent).tables;
            TablesLedgerInv(n) && EffectsAdvance(t.effects, n.effects) && n == t.(effects := n.effects)
  {
    var n := EffectLedger.Stage(t, intent).tables;
    if n != t {
      InsertEffect(t.effects, t.sinkReceipts, t.remoteReceipts, t.consumptions, intent.effectId, n.effects[intent.effectId]);
    }
  }

  lemma ClaimKeepsLedger(t: Tables, effectId: string, dispatcherId: string)
    requires TablesLedgerInv(t)
    ensures var n := ClaimDispatch(t, effectId, dispatcherId).tables;
            && TablesLedgerInv(n) && EffectsAdvance(t.effects, n.effects)
            && n == t.(effects := n.effects) && n.effects.Keys == t.effects.Keys
  {
    var n := ClaimDispatch(t, effectId, dispatcherId).tables;
    if n != t {
      var row := t.effects[effectId];
      assert row.idempotencyKey !in t.sinkReceipts;
      assert effectId !in t.remoteReceipts;
      MoveEffect(t.effects, t.sinkReceipts, t.remoteReceipts, t.consumptions, effectId, n.effects[effectId]);
    }
  }

  lemma DispatchKeepsLedger(t: Tables, intent: Intent, fence: Fence)
    requires TablesLedgerInv(t)
    ensures var n := EffectLedger.Dispatch(t, intent, fence).tables;
            && TablesLedgerInv(n) && Grows(t.sinkReceipts, n.sinkReceipts)
            && n == t.(sinkReceipts := n.sinkReceipts)
  {
    var n := EffectLedger.Dispatch(t, intent, fence).tables;
    if n != t {
      InsertSink(t.effects, t.sinkReceipts, t.remoteReceipts, t.consumptions, intent.effectId);
    }
  }

  /** A sink receipt stored under an effect's key belongs to that effect and excludes a remote one. */
  lemma ConfirmKeepsLedger(t: Tables, intent: Intent, fence: Fence)
    requires TablesLedgerInv(t)
    ensures var n := EffectLedger.Confirm(t, intent, fence).tables;
            && TablesLedgerInv(n) && EffectsAdvance(t.effects, n.effects)
            && n == t.(effects := n.effects) && n.effects.Keys == t.effects.Keys
  {
    var n := EffectLedger.Confirm(t, intent, fence).tables;
    if EffectLedger.Confirm(t, intent, fence).result.Ok? {
      var e := intent.effectId;
      assert t.effects[e].idempotencyKey in t.sinkReceipts;
      assert e !in t.remoteReceipts;
      MoveEffect(t.effects, t.sinkReceipts, t.remoteReceipts, t.consumptions, e, n.effects[e]);
    }
  }

  lemma MarkUnknownKeepsLedger(t: Tables, effectId: string, epoch: int)
    requires TablesLedgerInv(t)
    ensures var n := EffectLedger.MarkUnknown(t, effectId, epoch).tables;
            && TablesLedgerInv(n) && EffectsAdvance(t.effects, n.effects)
            && n == t.(effects := n.effects) && n.effects.Keys == t.effects.Keys
  {
    var n := EffectLedger.MarkUnknown(t, effectId, epoch).tables;
    if n != t {
      assert effectId !in t.remoteReceipts;
      MoveEffect(t.effects, t.sinkReceipts, t.remoteReceipts, t.consumptions, effectId, n.effects[effectId]);
    }
  }

  lemma ReconcileKeepsLedger(t: Tables, effectId: string)
    requires TablesLedgerInv(t)
    ensures var n := EffectLedger.Reconcile(t, effectId).tables;
            && TablesLedgerInv(n) && EffectsAdvance(t.effects, n.effects)
            && n == t.(effects := n.effects) && n.effects.Keys == t.effects.Keys
  {
    var n := EffectLedger.Reconcile(t, effectId).tables;
    if n != t {
      MoveEffect(t.effects, t.sinkReceipts, t.remoteReceipts, t.consumptions, effectId, n.effects[effectId]);
    }
  }

  lemma AcceptedReceiptIsBound(answers: RegistryAnswers, input: ReviewInput, epoch: int, row: RemoteRow)
    requires ReviewForPersistence(answers, input, UnknownEffect, epoch).Ok?
    requires row == RemoteRow(input.receipt.value.providerId, input.receipt.value.receiptId, input.intent.idempotencyKey, input.receipt.value)
    ensures RemoteRowBound(row, input.intent, epoch)
  {
    ReviewAcceptsIff(answers, input, UnknownEffect, epoch);
  }

  lemma PersistKeepsLedger(t: Tables, answers: RegistryAnswers, input: ReviewInput)
    requires TablesLedgerInv(t)
    ensures var n := EffectLedger.Persist(t, answers, input).tables;
            && TablesLedgerInv(n) && Grows(t.remoteReceipts, n.remoteReceipts)
            && n == t.(remoteReceipts := n.remoteReceipts)
  {
    var n := EffectLedger.Persist(t, answers, input).tables;
    if n != t {
      var e := input.intent.effectId;
      ReviewAcceptsIff(answers, input, UnknownEffect, t.effects[e].epoch);
      AcceptedReceiptIsBound(answers, input, t.effects[e].epoch, n.remoteReceipts[e]);
      InsertRemote(t.effects, t.sinkReceipts, t.remoteReceipts, t.consumptions, e, n.remoteReceipts[e]);
    }
  }

  // ----- fences -----

  lemma IssueFence(effects: map<string, Effect>, fences: map<string, seq<Fence>>, e: string, row: Effect)
    requires FenceInv(effects, fences)
    requires e in effects && row.intent == effects[e].intent && row.epoch == effects[e].epoch + 1
    ensures var fences' := Append(fences, e, IssuedFence(row.intent, row.epoch));
            FenceInv(effects[e := row], fences') && LogsGrow(fences, fences')
  {
    var log := Log(fences, e);
    var fences' := Append(fences, e, IssuedFence(row.intent, row.epoch));
    assert |log| == effects[e].epoch;
    forall f | f in effects && f != e ensures Log(fences', f) == Log(fences, f) {}
    forall i | 0 <= i < |Log(fences', e)| ensures Log(fences', e)[i] == IssuedFence(row.intent, i + 1) {
      if i < |log| {
        assert Log(fences', e)[i] == log[i];
      }
    }
  }

  lemma EpochsKeptKeepFences(a: map<string, Effect>, b: map<string, Effect>, fences: map<string, seq<Fence>>)
    requires FenceInv(a, fences)
    requires forall e | e in a :: e in b && b[e].intent == a[e].intent && b[e].epoch == a[e].epoch
    requires forall e | e in b && e !in a :: b[e].epoch == 0
    ensures FenceInv(b, fences)
  {
    forall e | e in b
      ensures |Log(fences, e)| == b[e].epoch
      ensures forall i | 0 <= i < |Log(fences, e)| :: Log(fences, e)[i] == IssuedFence(b[e].intent, i + 1)
    {
      if e in a {
        assert |Log(fences, e)| == a[e].epoch;
      } else {
        assert e !in fences;
      }
    }
  }

  // ----- what the rest of the state sees of a ledger step -----

  lemma StageKeepsEffectCommands(t: Tables, intent: Intent)
    requires CommandInv(t.commands) && EffectCommands(t.effects, t.commands)
    ensures EffectCommands(EffectLedger.Stage(t, intent).tables.effects, t.commands)
  {
    var n := EffectLedger.Stage(t, intent).tables;
    if n != t {
      assert CommandRow(intent.command.commandId, t.commands[intent.command.commandId]);
    }
  }

  /** A staged intent belongs to a command that is executing, so it is not terminal. */
  lemma StageKeepsTerminalEffects(t: Tables, intent: Intent)
    requires CommandInv(t.commands) && TerminalEffects(t.effects, t.commands, t.consumptions)
    ensures TerminalEffects(EffectLedger.Stage(t, intent).tables.effects, t.commands, t.consumptions)
  {
    var n := EffectLedger.Stage(t, intent).tables;
    if n != t {
      assert CommandRow(intent.command.commandId, t.commands[intent.command.commandId]);
    }
  }

  /** Everything outside the ledger only depends on the frozen intents. */
  lemma FrozenIntentsKeepLinks(w: World, effects: map<string, Effect>)
    requires EffectCommands(w.t.effects, w.t.commands) && TerminalEffects(w.t.effects, w.t.commands, w.t.consumptions)
    requires EffectsAdvance(w.t.effects, effects) && effects.Keys == w.t.effects.Keys
    ensures EffectCommands(effects, w.t.commands)
    ensures TerminalEffects(effects, w.t.commands, w.t.consumptions)
  {
    forall e | e in effects ensures e in w.t.effects && effects[e].intent == w.t.effects[e].intent {}
  }

  lemma FrozenIntentsKeepConsumptions(w: World, effects: map<string, Effect>)
    requires ConsumptionInv(w.t.consumptions, w.t.effects, w.t.commands, w.t.outbox, w.history.controls)
    requires forall e | e in w.t.consumptions :: e in w.t.effects
    requires EffectsAdvance(w.t.effects, effects)
    ensures ConsumptionInv(w.t.consumptions, effects, w.t.commands, w.t.outbox, w.history.controls)
  {
    forall e | e in w.t.consumptions ensures e in w.t.effects && effects[e].intent == w.t.effects[e].intent {}
  }

  // ----- the whole invariant -----

  /** A step that only touches the ledger tables and the fence log. */
  lemma AssembleLedgerStep(w: World, n: World)
    requires Inv(w)
    requires n == w.(t := w.t.(effects := n.t.effects, sinkReceipts := n.t.sinkReceipts, remoteReceipts := n.t.remoteReceipts),
                     history := w.history.(fences := n.history.fences))
    requires TablesLedgerInv(n.t) && FenceInv(n.t.effects, n.history.fences)
    requires EffectCommands(n.t.effects, n.t.commands) && TerminalEffects(n.t.effects, n.t.commands, n.t.consumptions)
    requires ConsumptionInv(n.t.consumptions, n.t.effects, n.t.commands, n.t.outbox, n.history.controls)
    ensures Inv(n)
  {
    hide LedgerInv, FenceInv, CommandInv, EffectCommands, TerminalEffects, ConsumptionInv, ControlInv, CheckpointInv,
         OutboxInv, WorkerInv;
  }

  lemma AssembleLedgerAdvance(w: World, n: World)
    requires n == w.(t := w.t.(effects := n.t.effects, sinkReceipts := n.t.sinkReceipts, remoteReceipts := n.t.remoteReceipts),
                     history := w.history.(fences := n.history.fences))
    requires EffectsAdvance(w.t.effects, n.t.effects) && LogsGrow(w.history.fences, n.history.fences)
    requires Grows(w.t.sinkReceipts, n.t.sinkReceipts) && Grows(w.t.remoteReceipts, n.t.remoteReceipts)
    ensures Advances(w, n)
  {
    hide EffectsAdvance;
  }

  /** A step that only touches `effects` (and the fence log). */
  lemma EffectsStepKeepsInv(w: World, n: World)
    requires Inv(w)
    requires n == w.(t := w.t.(effects := n.t.effects), history := w.history.(fences := n.history.fences))
    requires TablesLedgerInv(n.t) && FenceInv(n.t.effects, n.history.fences)
    requires EffectCommands(n.t.effects, n.t.commands) && TerminalEffects(n.t.effects, n.t.commands, n.t.consumptions)
    requires EffectsAdvance(w.t.effects, n.t.effects) && LogsGrow(w.history.fences, n.history.fences)
    ensures Inv(n) && Advances(w, n)
  {
    hide FenceInv, CommandInv, EffectCommands, TerminalEffects, ConsumptionInv, ControlInv, CheckpointInv,
         OutboxInv, WorkerInv, EffectsAdvance, Advances;
    assert forall e | e in w.t.consumptions :: e in w.t.effects;
    FrozenIntentsKeepConsumptions(w, n.t.effects);
    AssembleLedgerStep(w, n);
    AssembleLedgerAdvance(w, n);
  }

  lemma StageKeepsInv(w: World, intent: Intent)
    requires Inv(w)
    ensures Inv(Step(w, Action.Stage(intent))) && Advances(w, Step(w, Action.Stage(intent)))
  {
    hide LedgerInv, FenceInv, CommandInv, EffectCommands, TerminalEffects, ConsumptionInv, ControlInv, CheckpointInv,
         OutboxInv, WorkerInv, EffectsAdvance, Advances;
    var n := Step(w, Action.Stage(intent));
    StageKeepsLedger(w.t, intent);
    StageKeepsEffectCommands(w.t, intent);
    StageKeepsTerminalEffects(w.t, intent);
    assert forall e | e in w.t.effects :: n.t.effects[e] == w.t.effects[e];
    EpochsKeptKeepFences(w.t.effects, n.t.effects, w.history.fences);
    EffectsStepKeepsInv(w, n);
  }

  lemma ClaimEffectKeepsInv(w: World, effectId: string, dispatcherId: string)
    requires Inv(w)
    ensures Inv(StepClaimEffect(w, effectId, dispatcherId)) && Advances(w, StepClaimEffect(w, effectId, dispatcherId))
  {
    hide LedgerInv, FenceInv, CommandInv, EffectCommands, TerminalEffects, ConsumptionInv, ControlInv, CheckpointInv,
         OutboxInv, WorkerInv, EffectsAdvance, Advances;
    var n := StepClaimEffect(w, effectId, dispatcherId);
    ClaimKeepsLedger(w.t, effectId, dispatcherId);
    if n == w {
      Stays(w);
    } else {
      IssueFence(w.t.effects, w.history.fences, effectId, n.t.effects[effectId]);
      FrozenIntentsKeepLinks(w, n.t.effects);
      EffectsStepKeepsInv(w, n);
    }
  }

  /** Confirm, MarkUnknown and Reconcile. */
  lemma StatusStepKeepsInv(w: World, n: World)
    requires Inv(w)
    requires n == w.(t := w.t.(effects := n.t.effects)) && n.t.effects.Keys == w.t.effects.Keys
    requires TablesLedgerInv(n.t) && EffectsAdvance(w.t.effects, n.t.effects)
    requires forall e | e in w.t.effects :: n.t.effects[e].epoch == w.t.effects[e].epoch
    ensures Inv(n) && Advances(w, n)
  {
    hide LedgerInv, FenceInv, CommandInv, EffectCommands, TerminalEffects, ConsumptionInv, ControlInv, CheckpointInv,
         OutboxInv, WorkerInv, Advances;
    FrozenIntentsKeepLinks(w, n.t.effects);
    EpochsKeptKeepFences(w.t.effects, n.t.effects, w.history.fences);
    EffectsStepKeepsInv(w, n);
  }

  lemma ReceiptStepKeepsInv(w: World, n: World)
    requires Inv(w)
    requires n == w.(t := w.t.(sinkReceipts := n.t.sinkReceipts, remoteReceipts := n.t.remoteReceipts))
    requires TablesLedgerInv(n.t)
    requires Grows(w.t.sinkReceipts, n.t.sinkReceipts) && Grows(w.t.remoteReceipts, n.t.remoteReceipts)
    ensures Inv(n) && Advances(w, n)
  {
    hide LedgerInv, FenceInv, CommandInv, EffectCommands, TerminalEffects, ConsumptionInv, ControlInv, CheckpointInv,
         OutboxInv, WorkerInv, Advances;
    AssembleLedgerStep(w, n);
    AssembleLedgerAdvance(w, n);
  }

  lemma DispatchKeepsInv(w: World, intent: Intent, fence: Fence)
    requires Inv(w)
    ensures Inv(Step(w, Action.Dispatch(intent, fence))) && Advances(w, Step(w, Action.Dispatch(intent, fence)))
  {
    hide LedgerInv, FenceInv, CommandInv, EffectCommands, TerminalEffects, ConsumptionInv, ControlInv, CheckpointInv,
         OutboxInv, WorkerInv, Advances;
    DispatchKeepsLedger(w.t, intent, fence);
    ReceiptStepKeepsInv(w, Step(w, Action.Dispatch(intent, fence)));
  }

  lemma ConfirmKeepsInv(w: World, intent: Intent, fence: Fence)
    requires Inv(w)
    ensures Inv(Step(w, Action.Confirm(intent, fence))) && Advances(w, Step(w, Action.Confirm(intent, fence)))
  {
    hide LedgerInv, FenceInv, CommandInv, EffectCommands, TerminalEffects, ConsumptionInv, ControlInv, CheckpointInv,
         OutboxInv, WorkerInv, Advances;
    ConfirmKeepsLedger(w.t, intent, fence);
    StatusStepKeepsInv(w, Step(w, Action.Confirm(intent, fence)));
  }

  lemma MarkUnknownKeepsInv(w: World, effectId: string, epoch: int)
    requires Inv(w)
    ensures Inv(Step(w, Action.MarkUnknown(effectId, epoch))) && Advances(w, Step(w, Action.MarkUnknown(effectId, epoch)))
  {
    hide LedgerInv, FenceInv, CommandInv, EffectCommands, TerminalEffects, ConsumptionInv, ControlInv, CheckpointInv,
         OutboxInv, WorkerInv, Advances;
    MarkUnknownKeepsLedger(w.t, effectId, epoch);
    StatusStepKeepsInv(w, Step(w, Action.MarkUnknown(effectId, epoch)));
  }

  lemma ReconcileKeepsInv(w: World, effectId: string)
    requires Inv(w)
    ensures Inv(Step(w, Action.Reconcile(effectId))) && Advances(w, Step(w, Action.Reconcile(effectId)))
  {
    hide LedgerInv, FenceInv, CommandInv, EffectCommands, TerminalEffects, ConsumptionInv, ControlInv, CheckpointInv,
         OutboxInv, WorkerInv, Advances;
    ReconcileKeepsLedger(w.t, effectId);
    StatusStepKeepsInv(w, Step(w, Action.Reconcile(effectId)));
  }

  lemma PersistKeepsInv(w: World, answers: RegistryAnswers, review: ReviewInput)
    requires Inv(w)
    ensures Inv(Step(w, Action.Persist(answers, review))) && Advances(w, Step(w, Action.Persist(answers, review)))
  {
    hide LedgerInv, FenceInv, CommandInv, EffectCommands, TerminalEffects, ConsumptionInv, ControlInv, CheckpointInv,
         OutboxInv, WorkerInv, Advances;
    PersistKeepsLedger(w.t, answers, review);
    ReceiptStepKeepsInv(w, Step(w, Action.Persist(answers, review)));
  }

  lemma LedgerStepKeepsInv(w: World, a: Action)
    requires Inv(w)
    requires a.Stage? || a.ClaimEffect? || a.Dispatch? || a.Confirm? || a.MarkUnknown? || a.Reconcile? || a.Persist?
    ensures Inv(Step(w, a)) && Advances(w, Step(w, a))
  {
    hide Inv, Advances, StepClaimEffect;
    match a
    case Stage(intent) => StageKeepsInv(w, intent);
    case ClaimEffect(effectId, dispatcherId) => ClaimEffectKeepsInv(w, effectId, dispatcherId);
    case Dispatch(intent, fence) => DispatchKeepsInv(w, intent, fence);
    case Confirm(intent, fence) => ConfirmKeepsInv(w, intent, fence);
    case MarkUnknown(effectId, epoch) => MarkUnknownKeepsInv(w, effectId, epoch);
    case Reconcile(effectId) => ReconcileKeepsInv(w, effectId);
    case Persist(answers, review) => PersistKeepsInv(w, answers, review);
  }
}
