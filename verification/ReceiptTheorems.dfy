/** What a consumed receipt means in this and every later state, and when the finalizer succeeds, replays or denies. */
module ReceiptTheorems {
  import opened Text
  import opened Records
  import opened Database
  import opened Authority
  import opened ControlPreparation
  import opened ReceiptReview
  import opened World
  import opened Invariants
  import opened Safety
  import opened ReceiptFinalizer
  import CommandUnitOfWork
  import EffectLedger
  import CommitPreservation

  ghost predicate LedgerHolds(t: Tables) {
    LedgerInv(t.effects, t.sinkReceipts, t.remoteReceipts, t.consumptions)
  }

  // ----- a consumption row -----

  /** An outbox record that carries this receipt. */
  predicate CarriesReceipt(row: OutboxRow, providerId: string, receiptId: string) {
    row.record.payload.ReceiptAudit? && row.record.payload.providerId == providerId && row.record.payload.receiptId == receiptId
  }

  /** Everything a consumption row says about the other tables. */
  ghost predicate ConsumptionMeans(w: World, e: string, c: Consumption) {
    && e in w.t.effects && e in w.t.remoteReceipts && w.t.effects[e].status == Committed
    && w.t.remoteReceipts[e].providerId == c.providerId && w.t.remoteReceipts[e].receiptId == c.receiptId
    && w.t.remoteReceipts[e].receipt.epoch == w.t.effects[e].epoch
    && (var request := w.t.effects[e].intent.command;
        && c.commandId == request.commandId && c.eventId == ReceiptEventId(request.commandId)
        && request.commandId in w.t.commands
        && CommandFinalized(w.t.commands[request.commandId], c.controlVersion)
        && (var log := Log(w.history.controls, request.runId);
            && 1 <= c.controlVersion <= |log| && log[c.controlVersion - 1].causedBy == Some(request.commandId)
            && log[c.controlVersion - 1].reason == Some(request.reason)
            && log[c.controlVersion - 1].updatedBy == Some(request.requestedBy)
            && LegalMove(request.operation, StatusBefore(log, c.controlVersion - 1), log[c.controlVersion - 1].status))
        && AppliedResult(w.t.commands[request.commandId].payload, c.controlVersion)
        && ReceiptOutboxId(request.commandId) in w.t.outbox
        && w.t.outbox[ReceiptOutboxId(request.commandId)].eventId == c.eventId
        && CarriesReceipt(w.t.outbox[ReceiptOutboxId(request.commandId)], c.providerId, c.receiptId)
        && forall o | o in w.t.outbox && CarriesReceipt(w.t.outbox[o], c.providerId, c.receiptId) ::
             o == ReceiptOutboxId(request.commandId))
  }

  /** Only one event carries a receipt: two of them would need two consumptions of it. */
  lemma OneEventPerReceipt(t: Tables, o: string, e: string)
    requires LedgerHolds(t) && OutboxCommands(t.outbox, t.commands) && ReceiptEvents(t.outbox, t.consumptions)
    requires o in t.outbox && e in t.consumptions
    requires CarriesReceipt(t.outbox[o], t.consumptions[e].providerId, t.consumptions[e].receiptId)
    ensures o == ReceiptOutboxId(t.consumptions[e].commandId)
  {
    assert ReceiptRow(o, t.outbox[o]);
    var f :| f in t.consumptions && t.consumptions[f].commandId == t.outbox[o].commandId
             && t.consumptions[f].providerId == t.outbox[o].record.payload.providerId
             && t.consumptions[f].receiptId == t.outbox[o].record.payload.receiptId;
    assert ConsumptionsClash(t.consumptions[f], t.consumptions[e]);
    hide EffectRows, EffectKeysUnique, SinkRows, RemoteRows, RemoteReceiptsUnique, ConsumptionRows, CommittedRows, ReceiptOutboxId;
  }

  lemma ConsumptionRowMeans(w: World, e: string)
    requires LedgerHolds(w.t) && OutboxCommands(w.t.outbox, w.t.commands) && ReceiptEvents(w.t.outbox, w.t.consumptions)
    requires ConsumptionInv(w.t.consumptions, w.t.effects, w.t.commands, w.t.outbox, w.history.controls)
    requires ControlInv(w.t.controls, w.history.controls, w.t.commands) && EffectCommands(w.t.effects, w.t.commands)
    requires e in w.t.consumptions
    ensures ConsumptionMeans(w, e, w.t.consumptions[e])
  {
    hide LedgerInv, OutboxCommands, ReceiptEvents, ConsumptionInv, ControlInv, ReceiptOutboxId, ReceiptEventId, CommandFinalized,
         AppliedResult, LegalMove, StatusBefore;
    ConsumptionRowLedger(w.t, e);
    ConsumptionRowLinks(w, e);
    ConsumptionWrote(w, w.t.effects[e].intent.command, w.t.consumptions[e].controlVersion);
    forall o | o in w.t.outbox && CarriesReceipt(w.t.outbox[o], w.t.consumptions[e].providerId, w.t.consumptions[e].receiptId)
      ensures o == ReceiptOutboxId(w.t.consumptions[e].commandId)
    {
      OneEventPerReceipt(w.t, o, e);
    }
  }

  /** The control version a consumption names was written by its command, and its result says so. */
  lemma ConsumptionWrote(w: World, request: Request, version: int)
    requires ControlInv(w.t.controls, w.history.controls, w.t.commands)
    requires 1 <= version <= |Log(w.history.controls, request.runId)|
    requires Log(w.history.controls, request.runId)[version - 1].causedBy == Some(request.commandId)
    requires request.commandId in w.t.commands && w.t.commands[request.commandId].payload.request == request
    ensures var log := Log(w.history.controls, request.runId);
            && log[version - 1].reason == Some(request.reason) && log[version - 1].updatedBy == Some(request.requestedBy)
            && LegalMove(request.operation, StatusBefore(log, version - 1), log[version - 1].status)
            && AppliedResult(w.t.commands[request.commandId].payload, version)
  {
    var log := Log(w.history.controls, request.runId);
    assert ControlLog(request.runId, log, w.t.commands);
    assert ControlEntry(request.runId, log, version - 1, w.t.commands);
    hide ControlInv, ControlLog;
  }

  lemma ConsumptionRowLinks(w: World, e: string)
    requires ConsumptionInv(w.t.consumptions, w.t.effects, w.t.commands, w.t.outbox, w.history.controls)
    requires e in w.t.consumptions && e in w.t.effects
    ensures var c, request := w.t.consumptions[e], w.t.effects[e].intent.command;
            && request.commandId in w.t.commands
            && CommandFinalized(w.t.commands[request.commandId], c.controlVersion)
            && (var log := Log(w.history.controls, request.runId);
                1 <= c.controlVersion <= |log| && log[c.controlVersion - 1].causedBy == Some(request.commandId))
            && ReceiptOutboxId(request.commandId) in w.t.outbox
            && w.t.outbox[ReceiptOutboxId(request.commandId)].eventId == ReceiptEventId(request.commandId)
            && CarriesReceipt(w.t.outbox[ReceiptOutboxId(request.commandId)], c.providerId, c.receiptId)
  {
    hide ReceiptOutboxId, ReceiptEventId, CommandFinalized;
    assert TerminalEventStored(w.t.outbox, w.t.effects[e].intent.command, w.t.consumptions[e].receiptId, w.t.consumptions[e].providerId);
  }

  lemma ConsumptionRowLedger(t: Tables, e: string)
    requires LedgerHolds(t) && e in t.consumptions
    ensures var c := t.consumptions[e];
            && e in t.effects && e in t.remoteReceipts && t.effects[e].status == Committed
            && t.remoteReceipts[e].providerId == c.providerId && t.remoteReceipts[e].receiptId == c.receiptId
            && t.remoteReceipts[e].receipt.epoch == t.effects[e].epoch
            && c.commandId == t.effects[e].intent.command.commandId && c.eventId == ReceiptEventId(c.commandId)
  {
    assert RemoteRowBound(t.remoteReceipts[e], t.effects[e].intent, t.effects[e].epoch);
    hide EffectRows, EffectKeysUnique, SinkRows, RemoteReceiptsUnique, ConsumptionsUnique, CommittedRows, ReceiptEventId;
  }

  /**
   * A consumption row is never changed, and in this and every later state its effect is committed at
   * the receipt's epoch, its command succeeded at version 3 with the row's control version, exactly
   * one outbox record carries the receipt, and the control history at that version names the command.
   */
  lemma ConsumptionIsForever(w: World, later: World, e: string)
    requires Reachable(w) && Leads(w, later) && e in w.t.consumptions
    ensures e in later.t.consumptions && later.t.consumptions[e] == w.t.consumptions[e]
    ensures ConsumptionMeans(w, e, w.t.consumptions[e]) && ConsumptionMeans(later, e, w.t.consumptions[e])
    ensures later.t.effects[e] == w.t.effects[e]
  {
    hide Reachable, Leads, LedgerInv, OutboxCommands, ReceiptEvents, ConsumptionInv;
    LaterFacts(w, later);
    ReachableFacts(w);
    ReachableFacts(later);
    ConsumptionRowLedger(w.t, e);
    ConsumptionRowMeans(w, e);
    ConsumptionRowMeans(later, e);
    hide ConsumptionMeans;
  }

  /** The consumption row of `f` names a finished command. */
  ghost predicate NamesFinished(t: Tables, f: string)
    requires f in t.consumptions
  {
    t.consumptions[f].commandId in t.commands && t.commands[t.consumptions[f].commandId].version == 3
  }

  lemma EffectBackedTerminal(t: Tables, e: string)
    requires LedgerHolds(t) && CommandInv(t.commands) && EffectCommands(t.effects, t.commands)
    requires TerminalEffects(t.effects, t.commands, t.consumptions) && e in t.effects
    requires forall f | f in t.consumptions :: NamesFinished(t, f)
    requires t.effects[e].intent.owner == AtomicControlOnly
    ensures var id := t.effects[e].intent.command.commandId;
            && id in t.commands
            && (t.commands[id].version == 3 <==> exists f :: f in t.consumptions && t.consumptions[f].commandId == id)
            && (forall f, g | f in t.consumptions && g in t.consumptions
                  && t.consumptions[f].commandId == id && t.consumptions[g].commandId == id :: f == g)
  {
    var id := t.effects[e].intent.command.commandId;
    forall f, g | f in t.consumptions && g in t.consumptions && t.consumptions[f].commandId == id && t.consumptions[g].commandId == id
      ensures f == g
    {
      assert ConsumptionsClash(t.consumptions[f], t.consumptions[g]);
    }
  }

  /** An atomic command with an effect is terminal exactly when one consumption row names it, and then only one does. */
  lemma EffectBackedCommandsEndByReceipt(w: World, e: string)
    requires Reachable(w) && e in w.t.effects && w.t.effects[e].intent.owner == AtomicControlOnly
    ensures var id := w.t.effects[e].intent.command.commandId;
            && id in w.t.commands
            && (w.t.commands[id].version == 3 <==> exists f :: f in w.t.consumptions && w.t.consumptions[f].commandId == id)
            && (forall f, g | f in w.t.consumptions && g in w.t.consumptions
                  && w.t.consumptions[f].commandId == id && w.t.consumptions[g].commandId == id :: f == g)
  {
    hide Reachable, LedgerInv, OutboxCommands, ReceiptEvents, ConsumptionInv, CommandInv, EffectCommands, TerminalEffects;
    ReachableFacts(w);
    forall f | f in w.t.consumptions
      ensures NamesFinished(w.t, f)
    {
      ConsumptionRowMeans(w, f);
    }
    EffectBackedTerminal(w.t, e);
  }

  // ----- finalize: all or nothing -----

  /**
   * A denial, an injected fault and a replay leave every table as it was; a first success changes five
   * rows together: one new consumption, one new event, the command to version 3, the effect to
   * committed and the control row to the next version, caused by the command.
   */
  lemma FinalizeIsAllOrNothing(t: Tables, answers: RegistryAnswers, input: FinalizeInput, fault: bool)
    ensures var outcome := ReceiptFinalizer.Finalize(t, answers, input, fault);
            var n, request, e := outcome.tables, input.intent.command, input.intent.effectId;
            && (outcome.result.Denied? || outcome.result.value.ReplayedTerminal? ==> n == t)
            && (fault ==> outcome.result.Denied? || outcome.result.value.ReplayedTerminal?)
            && (outcome.result.Ok? && outcome.result.value.Finalized? ==>
                && e !in t.consumptions && n.consumptions.Keys == t.consumptions.Keys + {e}
                && ReceiptOutboxId(request.commandId) !in t.outbox
                && n.outbox.Keys == t.outbox.Keys + {ReceiptOutboxId(request.commandId)}
                && request.commandId in t.commands && t.commands[request.commandId].version == 2
                && n.commands[request.commandId].version == 3
                && n.commands[request.commandId].payload.status == Succeeded
                && e in t.effects && t.effects[e].status == UnknownEffect
                && n.effects == t.effects[e := t.effects[e].(status := Committed)]
                && request.runId in n.controls
                && n.controls[request.runId].version == CommandUnitOfWork.ControlVersionOf(t, request.runId) + 1
                && n.controls[request.runId].payload.causedBy == Some(request.commandId)
                && outcome.result.value == Finalized(n.controls[request.runId].version, ReceiptEventId(request.commandId))
                && n.checkpoints == t.checkpoints && n.sinkReceipts == t.sinkReceipts
                && n.remoteReceipts == t.remoteReceipts && n.leases == t.leases && n.acl == t.acl)
  {
    hide ReceiptMatches, Prepare, AuthorityHolds, FenceBound, EffectLedger.RegistryAgrees;
    var outcome := ReceiptFinalizer.Finalize(t, answers, input, fault);
    if outcome.result.Ok? && outcome.result.value.Finalized? {
      PreparationNames(t, input);
    }
  }

  function ControlStatusOf(t: Tables, runId: string): ControlStatus {
    if runId in t.controls then t.controls[runId].payload.status else Active
  }

  /** The five rows of a finalization, field by field, as they follow from the request, the receipt and the rows before. */
  ghost predicate StoredByFinalization(t: Tables, n: Tables, input: FinalizeInput)
    requires input.intent.effectId in t.effects && input.intent.effectId in t.remoteReceipts
    requires input.intent.command.commandId in t.commands && input.intent.command.commandId in n.commands
    requires input.intent.command.runId in n.controls
  {
    var request, e := input.intent.command, input.intent.effectId;
    var id, run, version, receipt := request.commandId, request.runId, request.ControlVersion() + 1, t.remoteReceipts[e];
    var command, control := n.commands[id].payload, n.controls[run].payload;
    && n.effects == t.effects[e := t.effects[e].(status := Committed)]
    && n.consumptions == t.consumptions[e := Consumption(receipt.providerId, receipt.receiptId, id, ReceiptEventId(id), version)]
    && n.commands == t.commands[id := Row(3, command)]
    && command == t.commands[id].payload.(status := Succeeded, version := 3, updatedAt := input.at,
                                          resultReason := command.resultReason, resultSnapshot := command.resultSnapshot)
    && AppliedResult(command, version)
    && n.controls == t.controls[run := Row(version, control)]
    && control == Control(run, version, control.status, Some(request.reason), Some(request.requestedBy), Some(id), input.at)
    && LegalMove(request.operation, ControlStatusOf(t, run), control.status)
    && n.outbox == t.outbox[ReceiptOutboxId(id) :=
         OutboxRow(ReceiptEventId(id), id, run,
                   OutboxRecord(ReceiptOutboxId(id), ReceiptEventId(id), id, run, Audit,
                                ReceiptAudit(request.operation, receipt.receiptId, receipt.providerId), Pending, 0, 1,
                                input.at, input.at, None))]
  }

  /**
   * A first finalization stores the operation's own result at the checkpoint version its command
   * expected, moves the control row one version on in the request's name, records the receipt's
   * consumption and one event, and touches nothing else of the rows it updates.
   */
  lemma FinalizationStores(t: Tables, answers: RegistryAnswers, input: FinalizeInput, fault: bool)
    requires var r := ReceiptFinalizer.Finalize(t, answers, input, fault).result;
             r.Ok? && r.value.Finalized?
    ensures var n := ReceiptFinalizer.Finalize(t, answers, input, fault).tables;
            && input.intent.effectId in t.effects && input.intent.effectId in t.remoteReceipts
            && input.intent.command.commandId in t.commands && input.intent.command.commandId in n.commands
            && input.intent.command.runId in n.controls
            && StoredByFinalization(t, n, input)
            && ReceiptFinalizer.Finalize(t, answers, input, fault).result
               == Ok(Finalized(input.intent.command.ControlVersion() + 1, ReceiptEventId(input.intent.command.commandId)))
  {
    var request := input.intent.command;
    hide ReceiptFinalizer.Finalize, CommandUnitOfWork.EventTaken, ConsumptionTaken, Prepare, LegalMove, AppliedOutcome, FenceBound;
    CommitPreservation.FinalizedFrom(t, answers, input, fault);
    FinalizeIsAllOrNothing(t, answers, input, fault);
    PreparedMeans(request, t.checkpoints[request.runId].payload, CommandUnitOfWork.StoredControl(t, request.runId), input.at);
  }

  /** An applied preparation, as seen from the request and the control row it was made on. */
  lemma PreparedMeans(request: Request, checkpoint: Checkpoint, read: Option<Control>, at: Timestamp)
    requires Prepare(request, checkpoint, read, SAME_SQLITE_AUTHORIZED, at).Ok?
    requires Prepare(request, checkpoint, read, SAME_SQLITE_AUTHORIZED, at).value.outcome == Applied
    ensures var p := Prepare(request, checkpoint, read, SAME_SQLITE_AUTHORIZED, at).value;
            && AppliedOutcome(request.operation, p.status, p.reason)
            && p.control == Control(request.runId, p.control.version, p.control.status, Some(request.reason),
                                    Some(request.requestedBy), Some(request.commandId), at)
            && LegalMove(request.operation, if read.Some? then read.value.status else Active, p.control.status)
  {
  }

  lemma PreparationNames(t: Tables, input: FinalizeInput)
    requires input.intent.command.runId in t.checkpoints
    requires PreparedFor(t, input).Ok? && PreparedFor(t, input).value.outcome == Applied
    ensures PreparedFor(t, input).value.control.causedBy == Some(input.intent.command.commandId)
  {
  }

  // ----- finalize: when it succeeds -----

  /** Everything a first finalization needs, without a word about the uniqueness of what it inserts. */
  ghost predicate MayFinalize(t: Tables, answers: RegistryAnswers, input: FinalizeInput) {
    && CommonDenial(t, input).None?
    && CasDenial(t, answers, input).None?
    && PreparedFor(t, input).Ok? && PreparedFor(t, input).value.outcome == Applied
    && answers.StaysPut()
  }

  lemma NothingIsTaken(t: Tables, input: FinalizeInput, prepared: Prepared)
    requires LedgerHolds(t) && OutboxCommands(t.outbox, t.commands)
    requires forall f | f in t.consumptions :: NamesFinished(t, f)
    requires EffectMatches(t, input) && ReceiptMatches(t.remoteReceipts[input.intent.effectId], input)
    requires input.intent.command.commandId in t.commands && t.commands[input.intent.command.commandId].version == 2
    requires input.intent.command.runId in t.checkpoints
    requires input.intent.effectId !in t.consumptions
    ensures !ConsumptionTaken(t.consumptions, PlanWrites(t, input, prepared).consumption)
    ensures !CommandUnitOfWork.EventTaken(t.outbox, PlanWrites(t, input, prepared).event)
  {
    var writes, e := PlanWrites(t, input, prepared), input.intent.effectId;
    assert ReceiptColumns(t, e);
    hide Prepare, LedgerInv, OutboxCommands, NamesFinished, ReceiptBound, CommandUnitOfWork.EventTaken, ConsumptionTaken;
    ConsumptionIsFree(t, e, writes.consumption);
    EventIsFree(t, writes.event);
  }

  ghost predicate ReceiptColumns(t: Tables, e: string) {
    && e in t.remoteReceipts
    && t.remoteReceipts[e].providerId == t.remoteReceipts[e].receipt.providerId
    && t.remoteReceipts[e].receiptId == t.remoteReceipts[e].receipt.receiptId
  }

  /** A clash with another consumption would be one of the same receipt or of the same, finished, command. */
  lemma ConsumptionIsFree(t: Tables, e: string, row: Consumption)
    requires LedgerHolds(t) && e in t.remoteReceipts && e !in t.consumptions
    requires forall f | f in t.consumptions :: NamesFinished(t, f)
    requires row.commandId in t.commands && t.commands[row.commandId].version == 2
    requires row.eventId == ReceiptEventId(row.commandId)
    requires row.providerId == t.remoteReceipts[e].providerId && row.receiptId == t.remoteReceipts[e].receiptId
    ensures !ConsumptionTaken(t.consumptions, row)
  {
    hide LedgerInv, ReceiptEventId;
    forall f | f in t.consumptions ensures !ConsumptionsClash(t.consumptions[f], row) {
      assert NamesFinished(t, f);
      ConsumptionRowLedger(t, f);
      DerivedIdsInjective(t.consumptions[f].commandId, row.commandId);
      if SameReceipt(t.remoteReceipts[f], t.remoteReceipts[e]) {
        ReceiptsDiffer(t, f, e);
      }
    }
  }

  lemma ReceiptsDiffer(t: Tables, f: string, e: string)
    requires LedgerHolds(t) && f in t.remoteReceipts && e in t.remoteReceipts
    requires SameReceipt(t.remoteReceipts[f], t.remoteReceipts[e])
    ensures f == e
  {
    hide EffectRows, EffectKeysUnique, SinkRows, RemoteRows, ConsumptionRows, ConsumptionsUnique, CommittedRows, SameReceipt;
  }

  /** The ids derived from a command that is still executing are not in the outbox. */
  lemma EventIsFree(t: Tables, event: OutboxRecord)
    requires OutboxCommands(t.outbox, t.commands)
    requires event.commandId in t.commands && t.commands[event.commandId].version == 2
    requires event.id == ReceiptOutboxId(event.commandId) && event.eventId == ReceiptEventId(event.commandId)
    ensures !CommandUnitOfWork.EventTaken(t.outbox, event)
  {
    hide ReceiptOutboxId, ReceiptEventId, TerminalOutboxId, TerminalEventId;
    forall o | o in t.outbox ensures o != event.id && t.outbox[o].eventId != event.eventId {
      assert TerminalRow(o, t.outbox[o]) || ReceiptRow(o, t.outbox[o]);
      DerivedIdsInjective(t.outbox[o].commandId, event.commandId);
      DerivedKindsDistinct(t.outbox[o].commandId, event.commandId);
    }
  }

  /**
   * In a reachable state a first finalization succeeds if and only if its fence, plan, receipt,
   * authority and versions hold, the operation applies, the registry does not drift and no fault is
   * injected: the UNIQUE constraints never get in the way.
   */
  lemma FinalizesIff(w: World, answers: RegistryAnswers, input: FinalizeInput, fault: bool)
    requires Reachable(w) && input.intent.effectId !in w.t.consumptions
    ensures var result := ReceiptFinalizer.Finalize(w.t, answers, input, fault).result;
            result.Ok? <==> MayFinalize(w.t, answers, input) && !fault
  {
    hide Reachable, LedgerInv, OutboxCommands, ConsumptionInv, ReceiptEvents, NamesFinished, MayFinalize,
         ReceiptFinalizer.Finalize, NothingTaken;
    ReachableFacts(w);
    forall f | f in w.t.consumptions ensures NamesFinished(w.t, f) {
      ConsumptionRowMeans(w, f);
      MeansFinished(w, f);
    }
    if MayFinalize(w.t, answers, input) {
      MayFinalizeFindsNothingTaken(w.t, answers, input);
    }
    OnlyFaultsRemain(w.t, answers, input, fault);
  }

  ghost predicate NothingTaken(t: Tables, input: FinalizeInput)
    requires CommonDenial(t, input).None? && input.intent.command.runId in t.checkpoints
  {
    PreparedFor(t, input).Ok? ==>
      && !ConsumptionTaken(t.consumptions, PlanWrites(t, input, PreparedFor(t, input).value).consumption)
      && !CommandUnitOfWork.EventTaken(t.outbox, PlanWrites(t, input, PreparedFor(t, input).value).event)
  }

  lemma MayFinalizeFindsNothingTaken(t: Tables, answers: RegistryAnswers, input: FinalizeInput)
    requires LedgerHolds(t) && OutboxCommands(t.outbox, t.commands)
    requires forall f | f in t.consumptions :: NamesFinished(t, f)
    requires MayFinalize(t, answers, input) && input.intent.effectId !in t.consumptions
    ensures NothingTaken(t, input)
  {
    hide LedgerInv, OutboxCommands, NamesFinished, EffectMatches, ReceiptMatches, ConsumptionTaken, PlanWrites, PreparedFor,
         FenceBound, PlanMatches, AuthorityHolds, EffectLedger.RegistryAgrees, CommandUnitOfWork.EventTaken;
    NothingIsTaken(t, input, PreparedFor(t, input).value);
  }

  lemma OnlyFaultsRemain(t: Tables, answers: RegistryAnswers, input: FinalizeInput, fault: bool)
    requires input.intent.effectId !in t.consumptions
    requires MayFinalize(t, answers, input) ==> NothingTaken(t, input)
    ensures ReceiptFinalizer.Finalize(t, answers, input, fault).result.Ok? <==> MayFinalize(t, answers, input) && !fault
  {
    hide EffectMatches, ReceiptMatches, ConsumptionTaken, PlanWrites, PreparedFor, FenceBound, PlanMatches, AuthorityHolds,
         EffectLedger.RegistryAgrees;
  }

  lemma MeansFinished(w: World, f: string)
    requires f in w.t.consumptions && ConsumptionMeans(w, f, w.t.consumptions[f])
    ensures NamesFinished(w.t, f)
  {
  }

  // ----- finalize: replay -----

  /** What a first finalization leaves for a later call with the same input to find. */
  ghost predicate Replayable(w: World, input: FinalizeInput, controlVersion: int) {
    var request, e := input.intent.command, input.intent.effectId;
    && FenceBound(input.intent, input.fence) && PlanMatches(input)
    && EffectMatches(w.t, input) && ReceiptMatches(w.t.remoteReceipts[e], input)
    && request.commandId in w.t.commands && CommandMatches(w.t.commands[request.commandId], input.intent)
    && e in w.t.consumptions && w.t.consumptions[e].controlVersion == controlVersion
  }

  lemma FinalizedIsReplayable(w: World, answers: RegistryAnswers, input: FinalizeInput, fault: bool)
    requires var r := ReceiptFinalizer.Finalize(w.t, answers, input, fault).result;
             r.Ok? && r.value.Finalized?
    ensures var r := ReceiptFinalizer.Finalize(w.t, answers, input, fault).result;
            && Replayable(StepFinalize(w, answers, input, fault), input, r.value.controlVersion)
            && r.value.eventId == ReceiptEventId(input.intent.command.commandId)
  {
    FinalizeIsAllOrNothing(w.t, answers, input, fault);
    FinalizedCommandMatches(w.t, answers, input, fault);
    hide ReceiptMatches, CommandMatches, FenceBound, PlanMatches, ReceiptFinalizer.Finalize, ReceiptEventId, ReceiptOutboxId;
  }

  lemma FinalizedCommandMatches(t: Tables, answers: RegistryAnswers, input: FinalizeInput, fault: bool)
    requires var r := ReceiptFinalizer.Finalize(t, answers, input, fault).result;
             r.Ok? && r.value.Finalized?
    ensures var outcome := ReceiptFinalizer.Finalize(t, answers, input, fault);
            var n, request, e := outcome.tables, input.intent.command, input.intent.effectId;
            && FenceBound(input.intent, input.fence) && PlanMatches(input)
            && EffectMatches(t, input) && ReceiptMatches(t.remoteReceipts[e], input)
            && request.commandId in n.commands && CommandMatches(n.commands[request.commandId], input.intent)
            && e in n.consumptions && n.consumptions[e].controlVersion == outcome.result.value.controlVersion
  {
    hide ReceiptMatches, FenceBound, PlanMatches, AuthorityHolds, ConsumptionTaken, EffectLedger.RegistryAgrees, PreparedFor,
         ReceiptEventId, ReceiptOutboxId;
  }

  lemma ReplayableStays(w: World, later: World, input: FinalizeInput, controlVersion: int)
    requires Replayable(w, input, controlVersion)
    requires LedgerHolds(w.t) && ConsumptionInv(w.t.consumptions, w.t.effects, w.t.commands, w.t.outbox, w.history.controls)
    requires EffectsAdvance(w.t.effects, later.t.effects) && Grows(w.t.remoteReceipts, later.t.remoteReceipts)
    requires Grows(w.t.consumptions, later.t.consumptions) && CommandsAdvance(w.t.commands, later.t.commands)
    ensures Replayable(later, input, controlVersion)
  {
    ConsumptionRowLedger(w.t, input.intent.effectId);
    ConsumptionRowLinks(w, input.intent.effectId);
    hide LedgerInv, ConsumptionInv, ReceiptMatches, CommandMatches, FenceBound, PlanMatches, ReceiptEventId, ReceiptOutboxId;
  }

  /** With the control row still at the consumed version, it still names the command. */
  lemma ConsumedControlNames(w: World, run: string, controlVersion: int, id: string)
    requires ControlInv(w.t.controls, w.history.controls, w.t.commands)
    requires 1 <= controlVersion <= |Log(w.history.controls, run)|
    requires Log(w.history.controls, run)[controlVersion - 1].causedBy == Some(id)
    ensures ControlStillNames(w.t, run, controlVersion, id) <==> CommandUnitOfWork.ControlVersionOf(w.t, run) == controlVersion
  {
    hide ControlLog;
  }

  /** The stored row of a receipt event is the event the replay branch looks for. */
  lemma ReplayableEvent(w: World, input: FinalizeInput, controlVersion: int)
    requires Replayable(w, input, controlVersion)
    requires ConsumptionInv(w.t.consumptions, w.t.effects, w.t.commands, w.t.outbox, w.history.controls)
    requires LedgerHolds(w.t)
    ensures var request, c := input.intent.command, w.t.consumptions[input.intent.effectId];
            && c.receiptId == w.t.remoteReceipts[input.intent.effectId].receipt.receiptId && c.providerId == input.providerId
            && TerminalEventStored(w.t.outbox, request, c.receiptId, c.providerId)
  {
    var e := input.intent.effectId;
    ConsumptionRowLedger(w.t, e);
    hide LedgerInv, CommandMatches, FenceBound, PlanMatches, TerminalEventStored, ReceiptEventId, ReceiptOutboxId, ReceiptBound;
  }

  lemma ReplayAnswers(w: World, answers: RegistryAnswers, input: FinalizeInput, fault: bool, controlVersion: int)
    requires Replayable(w, input, controlVersion) && LedgerHolds(w.t)
    requires ConsumptionInv(w.t.consumptions, w.t.effects, w.t.commands, w.t.outbox, w.history.controls)
    requires ControlInv(w.t.controls, w.history.controls, w.t.commands)
    ensures ReceiptFinalizer.Finalize(w.t, answers, input, fault) == ReplayOutcome(w.t, input, controlVersion)
  {
    hide LedgerInv, ConsumptionInv, ControlInv, ReceiptMatches, CommandMatches, FenceBound, PlanMatches, AuthorityHolds,
         ReceiptEventId, CasDenial, PreparedFor, ReplayConsistent;
    ReplayConsistentIff(w, input, controlVersion);
  }

  lemma ReplayConsistentIff(w: World, input: FinalizeInput, controlVersion: int)
    requires Replayable(w, input, controlVersion) && LedgerHolds(w.t)
    requires ConsumptionInv(w.t.consumptions, w.t.effects, w.t.commands, w.t.outbox, w.history.controls)
    requires ControlInv(w.t.controls, w.history.controls, w.t.commands)
    ensures var c := w.t.consumptions[input.intent.effectId];
            && (ReplayConsistent(w.t, input, c)
                <==> CommandUnitOfWork.ControlVersionOf(w.t, input.intent.command.runId) == controlVersion)
            && c.eventId == ReceiptEventId(input.intent.command.commandId)
  {
    var e := input.intent.effectId;
    hide LedgerInv, ConsumptionInv, ControlInv, ReceiptMatches, CommandMatches, FenceBound, PlanMatches,
         TerminalEventStored, ReceiptEventId, ReceiptOutboxId, ControlStillNames, CommandFinalized, CarriesReceipt;
    ConsumptionRowLedger(w.t, e);
    ConsumptionRowLinks(w, e);
    ReplayableEvent(w, input, controlVersion);
    ConsumedControlNames(w, input.intent.command.runId, controlVersion, input.intent.command.commandId);
  }

  /** The answer to a repeated call: a replay while authority and control version are unchanged, a denial otherwise. */
  function ReplayOutcome(t: Tables, input: FinalizeInput, controlVersion: int): Outcome<FinalizeAnswer, FinalizeDenial> {
    Outcome(t,
      if !AuthorityHolds(t.acl, input.intent.command, input.intent.evidence) then Denied(AuthorityChanged)
      else if CommandUnitOfWork.ControlVersionOf(t, input.intent.command.runId) != controlVersion then Denied(ReplayInconsistent)
      else Ok(ReplayedTerminal(controlVersion, ReceiptEventId(input.intent.command.commandId))))
  }

  /**
   * After a successful finalization the same input, at any later state and whatever the registry or the
   * fault injector say, replays the same control version and event if and only if its authority still
   * holds and the run's control version has not moved; otherwise it is denied. It never writes.
   */
  lemma FinalizeReplays(w: World, answers: RegistryAnswers, input: FinalizeInput, fault: bool, later: World,
                        laterAnswers: RegistryAnswers, laterFault: bool)
    requires Reachable(w)
    requires var r := ReceiptFinalizer.Finalize(w.t, answers, input, fault).result;
             r.Ok? && r.value.Finalized?
    requires Leads(StepFinalize(w, answers, input, fault), later)
    ensures ReceiptFinalizer.Finalize(later.t, laterAnswers, input, laterFault)
         == ReplayOutcome(later.t, input, ReceiptFinalizer.Finalize(w.t, answers, input, fault).result.value.controlVersion)
  {
    var n := StepFinalize(w, answers, input, fault);
    var controlVersion := ReceiptFinalizer.Finalize(w.t, answers, input, fault).result.value.controlVersion;
    FinalizedIsReplayable(w, answers, input, fault);
    FinalizeStepReachable(w, answers, input, fault);
    hide Reachable, Leads, Replayable, LedgerInv, ConsumptionInv, ControlInv, EffectsAdvance, Grows, CommandsAdvance,
         ReceiptFinalizer.Finalize, StepFinalize, ReplayOutcome;
    ReachableFacts(n);
    LaterFacts(n, later);
    ReplayableStays(n, later, input, controlVersion);
    ReachableFacts(later);
    ReplayAnswers(later, laterAnswers, input, laterFault, controlVersion);
  }

  lemma FinalizeStepReachable(w: World, answers: RegistryAnswers, input: FinalizeInput, fault: bool)
    requires Reachable(w)
    ensures Reachable(StepFinalize(w, answers, input, fault))
  {
    hide Leads, StepFinalize;
    OneStepLeads(w, Action.Finalize(answers, input, fault));
    LeadsTransitive(INITIAL, w, StepFinalize(w, answers, input, fault));
  }

  // ----- from the readiness review to the finalizer -----

  function PlanFromReview(t: Tables, answers: RegistryAnswers, intent: Intent, fence: Fence, providerId: string): ConsumptionPlan {
    PlanConsumption(intent, fence, providerId, EffectLedger.ReviewTerminalReadiness(t, answers, intent, fence, providerId))
  }

  /** What is left to check once the review is positive. */
  ghost predicate StillApplicable(t: Tables, answers: RegistryAnswers, input: FinalizeInput) {
    var request := input.intent.command;
    && request.runId in t.checkpoints && t.checkpoints[request.runId].version == request.expectedCheckpointVersion
    && PreparedFor(t, input).Ok? && PreparedFor(t, input).value.outcome == Applied
    && answers.StaysPut()
  }

  ghost predicate SaneClocks(input: FinalizeInput) {
    SafeInteger(input.nowMs) && SafeInteger(input.maxProbeAgeMs) && SafeInteger(input.recoveryWindowSeconds) && input.at.Instant?
  }

  lemma ReviewedPlanPassesChecks(t: Tables, answers: RegistryAnswers, input: FinalizeInput)
    requires CommandInv(t.commands) && SaneClocks(input)
    requires input.plan == PlanFromReview(t, answers, input.intent, input.fence, input.providerId) && input.plan.ConsumeReceipt?
    ensures CommonDenial(t, input).None?
    ensures MayFinalize(t, answers, input) <==> StillApplicable(t, answers, input)
    ensures input.intent.effectId in t.effects && t.effects[input.intent.effectId].status == UnknownEffect
  {
    var id := input.intent.command.commandId;
    assert id in t.commands ==> CommandRow(id, t.commands[id]);
    hide PreparedFor, ReceiptBound, Granted, CommandInv, FenceBound;
    assert FenceBound(input.intent, input.fence);
    assert EffectLedger.CurrentAuthority(t, input.intent);
  }

  /**
   * A plan made from a positive readiness review, used in the same state, is finalized if and only if
   * the checkpoint is at the expected version, the operation applies, the registry does not drift
   * before the commit and no fault is injected. Nothing the review looked at is refused again.
   */
  lemma ReviewedPlansFinalize(w: World, answers: RegistryAnswers, input: FinalizeInput, fault: bool)
    requires Reachable(w) && SaneClocks(input)
    requires input.plan == PlanFromReview(w.t, answers, input.intent, input.fence, input.providerId) && input.plan.ConsumeReceipt?
    ensures ReceiptFinalizer.Finalize(w.t, answers, input, fault).result.Ok? <==> StillApplicable(w.t, answers, input) && !fault
  {
    hide Reachable, LedgerInv, CommandInv, MayFinalize, StillApplicable, ReceiptFinalizer.Finalize, PlanFromReview, CommonDenial;
    ReachableFacts(w);
    ReviewedPlanPassesChecks(w.t, answers, input);
    if input.intent.effectId in w.t.consumptions {
      ConsumptionRowLedger(w.t, input.intent.effectId);
    } else {
      FinalizesIff(w, answers, input, fault);
    }
  }
}
