/** The two transactions that end a command, the adapter's commit and the receipt finalizer, keep every invariant. */
module CommitPreservation {
  import opened Text
  import opened Records
  import opened Database
  import opened Authority
  import opened ControlPreparation
  import opened ReceiptReview
  import opened World
  import opened Invariants
  import opened LedgerRows
  import opened CommandLinks
  import opened CommandPreservation
  import opened DeliveryPreservation
  import LedgerPreservation
  import CommandUnitOfWork
  import AtomicAdapter
  import EffectLedger
  import ReceiptFinalizer
  import OutboxDelivery

  // ----- a command ends -----

  lemma FinishCommand(commands: map<string, Row<Command>>, id: string, row: Row<Command>)
    requires CommandInv(commands)
    requires id in commands && commands[id].version == 2 && CommandRow(id, row) && row.version == 3
    requires row.payload.request == commands[id].payload.request
    requires row.payload.owner == commands[id].payload.owner && row.payload.fenced == commands[id].payload.fenced
    ensures CommandInv(commands[id := row]) && CommandsAdvance(commands, commands[id := row])
  {
    hide CommandRow;
  }

  // ----- a control entry is appended -----

  lemma AppendedEntries(run: string, log: seq<Control>, entry: Control, commands: map<string, Row<Command>>)
    requires ControlLog(run, log, commands) && ControlEntry(run, log + [entry], |log|, commands)
    ensures ControlLog(run, log + [entry], commands)
  {
    var log' := log + [entry];
    forall i: nat | i < |log'| ensures ControlEntry(run, log', i, commands) {
      if i < |log| {
        assert ControlEntry(run, log, i, commands);
        assert log'[i] == log[i] && StatusBefore(log', i) == StatusBefore(log, i);
      }
    }
  }

  lemma AppendControl(controls: map<string, Row<Control>>, logs: map<string, seq<Control>>,
                      commands: map<string, Row<Command>>, run: string, entry: Control)
    requires ControlInv(controls, logs, commands)
    requires ControlEntry(run, Log(logs, run) + [entry], |Log(logs, run)|, commands)
    ensures ControlInv(controls[run := Row(entry.version, entry)], Append(logs, run, entry), commands)
    ensures LogsGrow(logs, Append(logs, run, entry))
  {
    var logs' := Append(logs, run, entry);
    assert entry.version == |Log(logs, run)| + 1;
    assert ControlLog(run, Log(logs, run), commands);
    AppendedEntries(run, Log(logs, run), entry, commands);
    hide ControlEntry, ControlLog;
    forall r | r in logs' ensures ControlLog(r, logs'[r], commands) {
      assert r != run ==> logs'[r] == logs[r];
    }
  }

  /**
   * A version number determines its control row: what a worker read at the version that is still
   * stored is the last entry of the log, whatever happened in between.
   */
  lemma VersionDeterminesControl(run: string, read: Option<Control>, logs: map<string, seq<Control>>,
                                 commands: map<string, Row<Command>>, at: Timestamp)
    requires run in logs ==> ControlLog(run, logs[run], commands)
    requires ControlReadLogged(run, read, logs)
    requires CurrentControl(run, read, at).version == |Log(logs, run)|
    ensures CurrentControl(run, read, at).status == StatusBefore(Log(logs, run), |Log(logs, run)|)
    ensures |Log(logs, run)| > 0 ==> read == Some(Log(logs, run)[|Log(logs, run)| - 1])
    ensures |Log(logs, run)| == 0 ==> read == None
  {
  }

  /** The row an applied preparation commits is a legal next entry. */
  lemma AppliedEntry(request: Request, checkpoint: Checkpoint, read: Option<Control>, decision: Decision,
                     preparedAt: Timestamp, at: Timestamp, logs: map<string, seq<Control>>,
                     commands: map<string, Row<Command>>, entry: Control)
    requires Prepare(request, checkpoint, read, decision, preparedAt).Ok?
    requires Prepare(request, checkpoint, read, decision, preparedAt).value.outcome == Applied
    requires request.runId in logs ==> ControlLog(request.runId, logs[request.runId], commands)
    requires ControlReadLogged(request.runId, read, logs)
    requires request.ControlVersion() == |Log(logs, request.runId)|
    requires entry == Prepare(request, checkpoint, read, decision, preparedAt).value.control
                      .(version := request.ControlVersion() + 1, updatedAt := at)
    requires request.commandId in commands && commands[request.commandId].version == 3
    requires commands[request.commandId].payload.request == request
    requires commands[request.commandId].payload.status == Succeeded
    requires commands[request.commandId].payload.owner == Some(AtomicControlOnly)
    requires AppliedResult(commands[request.commandId].payload, request.ControlVersion() + 1)
    ensures ControlEntry(request.runId, Log(logs, request.runId) + [entry], |Log(logs, request.runId)|, commands)
  {
    var run := request.runId;
    AppliedIff(request, checkpoint, read, decision, preparedAt);
    VersionDeterminesControl(run, read, logs, commands, preparedAt);
    hide ControlLog, Prepare, ControlReadLogged;
    var log := Log(logs, run);
    assert (log + [entry])[|log|] == entry;
    assert StatusBefore(log + [entry], |log|) == StatusBefore(log, |log|);
  }

  // ----- an event is appended -----

  lemma AppendEvent(outbox: map<string, OutboxRow>, leases: map<string, Lease>, event: OutboxRecord)
    requires OutboxRows(outbox, leases) && !CommandUnitOfWork.EventTaken(outbox, event)
    ensures OutboxRows(outbox[event.id := CommandUnitOfWork.NewOutboxRow(event)], leases)
    ensures OutboxAdvances(outbox, outbox[event.id := CommandUnitOfWork.NewOutboxRow(event)])
  {
    var row := CommandUnitOfWork.NewOutboxRow(event);
    assert OutboxRowOk(event.id, row);
    hide OutboxRowOk;
    assert forall o | o in outbox :: outbox[o].eventId != event.eventId;
    assert event.id !in leases;
  }

  lemma AppendEventCommands(outbox: map<string, OutboxRow>, commands: map<string, Row<Command>>, event: OutboxRecord)
    requires OutboxCommands(outbox, commands)
    requires var row := CommandUnitOfWork.NewOutboxRow(event);
             TerminalRow(event.id, row) || ReceiptRow(event.id, row)
    requires event.commandId in commands && commands[event.commandId].version == 3
    requires commands[event.commandId].payload.owner == Some(AtomicControlOnly)
    requires commands[event.commandId].payload.request.runId == event.runId
    ensures OutboxCommands(outbox[event.id := CommandUnitOfWork.NewOutboxRow(event)], commands)
  {
    hide TerminalRow, ReceiptRow;
  }

  // ----- assembling -----

  lemma AssembleTerminalStep(w: World, n: World)
    requires Inv(w)
    requires n == w.(t := w.t.(effects := n.t.effects, consumptions := n.t.consumptions, controls := n.t.controls,
                               commands := n.t.commands, outbox := n.t.outbox),
                     history := w.history.(controls := n.history.controls), atomic := n.atomic)
    requires LedgerInv(n.t.effects, n.t.sinkReceipts, n.t.remoteReceipts, n.t.consumptions)
    requires FenceInv(n.t.effects, n.history.fences) && EffectCommands(n.t.effects, n.t.commands)
    requires TerminalEffects(n.t.effects, n.t.commands, n.t.consumptions)
    requires EffectsAdvance(w.t.effects, n.t.effects) && Grows(w.t.consumptions, n.t.consumptions)
    requires CommandInv(n.t.commands) && CommandsAdvance(w.t.commands, n.t.commands)
    requires ConsumptionInv(n.t.consumptions, n.t.effects, n.t.commands, n.t.outbox, n.history.controls)
    requires ControlInv(n.t.controls, n.history.controls, n.t.commands)
    requires LogsGrow(w.history.controls, n.history.controls)
    requires OutboxInv(n.t.outbox, n.t.leases, n.t.commands, n.t.consumptions) && OutboxAdvances(w.t.outbox, n.t.outbox)
    requires WorkerInv(n.atomic, n.legacy, n.t.commands, n.history.checkpoints, n.history.controls, n.invoked)
    ensures Inv(n) && Advances(w, n)
  {
    hide LedgerInv, FenceInv, CommandInv, EffectCommands, TerminalEffects, ConsumptionInv, ControlInv, CheckpointInv,
         OutboxInv, WorkerInv, EffectsAdvance, CommandsAdvance, OutboxAdvances;
  }

  // ----- the adapter's commit -----

  function CommittedEntry(prepared: Prepared, at: Timestamp): Control {
    prepared.control.(version := prepared.request.ControlVersion() + 1, updatedAt := at)
  }

  /** The record after the commit: status, result and snapshot of the draft at version 3. */
  function FinishedCommand(executing: Command, prepared: Prepared, evidence: Option<Evidence>, at: Timestamp): Command {
    AtomicAdapter.AdapterCommit(executing, prepared, evidence, at).command.(version := executing.version + 1)
  }

  /** What an accepted commit of the adapter's draft leaves behind, and what it has checked. */
  ghost predicate AdapterCommitted(t: Tables, n: Tables, executing: Command, prepared: Prepared, evidence: Option<Evidence>,
                                   eventAt: Timestamp, at: Timestamp) {
    var request, event := prepared.request, AtomicAdapter.TerminalEvent(prepared, eventAt);
    var id, run := request.commandId, request.runId;
    && n == t.(
         controls := if prepared.writes.control == CasUpdate then
                       t.controls[run := Row(request.ControlVersion() + 1, CommittedEntry(prepared, at))]
                     else t.controls,
         commands := t.commands[id := Row(executing.version + 1, FinishedCommand(executing, prepared, evidence, at))],
         outbox := t.outbox[event.id := CommandUnitOfWork.NewOutboxRow(event)])
    && !CommandUnitOfWork.EffectBacked(t.effects, id)
    && !CommandUnitOfWork.EventTaken(t.outbox, event)
    && prepared.checkpoint.runId == run
    && run in t.checkpoints && t.checkpoints[run].version == request.expectedCheckpointVersion
    && CommandUnitOfWork.ControlVersionOf(t, run) == request.ControlVersion()
    && id in t.commands && t.commands[id].version == executing.version
    && t.commands[id].payload.request == request && t.commands[id].payload.owner == executing.owner
    && t.commands[id].payload.fenced == executing.fenced
  }

  lemma AdapterCommitTables(t: Tables, executing: Command, prepared: Prepared, evidence: Option<Evidence>,
                            eventAt: Timestamp, at: Timestamp)
    requires prepared.writes.checkpoint == Compare && prepared.request == executing.request
    requires CommandUnitOfWork.Commit(t, AtomicAdapter.AdapterCommit(executing, prepared, evidence, eventAt), at).result.Ok?
    ensures var outcome := CommandUnitOfWork.Commit(t, AtomicAdapter.AdapterCommit(executing, prepared, evidence, eventAt), at);
            && AdapterCommitted(t, outcome.tables, executing, prepared, evidence, eventAt, at)
            && (prepared.writes.control == CasUpdate ==> outcome.result.value.control == CommittedEntry(prepared, at))
  {
    hide CommandUnitOfWork.EffectBacked, CommandUnitOfWork.EventTaken, CommandUnitOfWork.EvidenceAccepted;
    var input := AtomicAdapter.AdapterCommit(executing, prepared, evidence, eventAt);
    var event := AtomicAdapter.TerminalEvent(prepared, eventAt);
    assert input.outbox == [event];
    assert input.outbox[1..] == [];
    assert CommandUnitOfWork.AppendEvents(t.outbox, input.outbox)
        == if CommandUnitOfWork.EventTaken(t.outbox, event) then None
           else Some(t.outbox[event.id := CommandUnitOfWork.NewOutboxRow(event)]);
  }

  /** The finished row of the adapter, against the executing row it replaces. */
  lemma FinishedRowOk(commands: map<string, Row<Command>>, executing: Command, prepared: Prepared,
                      evidence: Option<Evidence>, at: Timestamp)
    requires CommandInv(commands) && HeldRecord(executing, AtomicControlOnly, commands)
    requires prepared.request == executing.request
    requires commands[executing.request.commandId].version == 2
    requires commands[executing.request.commandId].payload.fenced == executing.fenced
    ensures var id, row := executing.request.commandId, Row(3, FinishedCommand(executing, prepared, evidence, at));
            && CommandInv(commands[id := row]) && CommandsAdvance(commands, commands[id := row])
            && row.payload.request == executing.request && row.payload.owner == Some(AtomicControlOnly)
            && row.payload.status == (if prepared.outcome.RejectedOutcome? then Rejected else Succeeded)
            && (prepared.writes.control == CasUpdate && AppliedOutcome(executing.request.operation, prepared.status, prepared.reason) ==>
                AppliedResult(row.payload, executing.request.ControlVersion() + 1))
  {
    var id, row := executing.request.commandId, Row(3, FinishedCommand(executing, prepared, evidence, at));
    assert CommandRow(id, commands[id]);
    assert CommandRow(id, row);
    FinishCommand(commands, id, row);
  }

  lemma AppliedControls(t: Tables, logs: map<string, seq<Control>>, commands: map<string, Row<Command>>,
                        request: Request, checkpoint: Checkpoint, read: Option<Control>, decision: Decision,
                        preparedAt: Timestamp, at: Timestamp)
    requires ControlInv(t.controls, logs, t.commands) && CommandsAdvance(t.commands, commands)
    requires ControlReadLogged(request.runId, read, logs)
    requires CommandUnitOfWork.ControlVersionOf(t, request.runId) == request.ControlVersion()
    requires Prepare(request, checkpoint, read, decision, preparedAt).Ok?
    requires Prepare(request, checkpoint, read, decision, preparedAt).value.outcome == Applied
    requires request.commandId in commands && commands[request.commandId].version == 3
    requires commands[request.commandId].payload.request == request
    requires commands[request.commandId].payload.status == Succeeded
    requires commands[request.commandId].payload.owner == Some(AtomicControlOnly)
    requires AppliedResult(commands[request.commandId].payload, request.ControlVersion() + 1)
    ensures var entry := CommittedEntry(Prepare(request, checkpoint, read, decision, preparedAt).value, at);
            && ControlInv(t.controls[request.runId := Row(entry.version, entry)], Append(logs, request.runId, entry), commands)
            && LogsGrow(logs, Append(logs, request.runId, entry))
            && entry.version == request.ControlVersion() + 1
  {
    var run := request.runId;
    assert run in t.controls <==> run in logs;
    ControlInvFollows(t.controls, logs, t.commands, commands);
    assert run in logs ==> ControlLog(run, logs[run], commands);
    assert request.ControlVersion() == |Log(logs, run)|;
    var entry := CommittedEntry(Prepare(request, checkpoint, read, decision, preparedAt).value, at);
    hide ControlInv, ControlLog, ControlEntry, ControlReadLogged, CommandsAdvance, LogsGrow;
    AppliedEntry(request, checkpoint, read, decision, preparedAt, at, logs, commands, entry);
    AppendControl(t.controls, logs, commands, run, entry);
  }

  lemma TerminalOutbox(t: Tables, commands: map<string, Row<Command>>, event: OutboxRecord)
    requires OutboxInv(t.outbox, t.leases, t.commands, t.consumptions) && CommandsAdvance(t.commands, commands)
    requires !CommandUnitOfWork.EventTaken(t.outbox, event) && TerminalRow(event.id, CommandUnitOfWork.NewOutboxRow(event))
    requires event.commandId in commands && commands[event.commandId].version == 3
    requires commands[event.commandId].payload.owner == Some(AtomicControlOnly)
    requires commands[event.commandId].payload.request.runId == event.runId
    ensures var outbox := t.outbox[event.id := CommandUnitOfWork.NewOutboxRow(event)];
            OutboxInv(outbox, t.leases, commands, t.consumptions) && OutboxAdvances(t.outbox, outbox)
  {
    var outbox := t.outbox[event.id := CommandUnitOfWork.NewOutboxRow(event)];
    hide OutboxRows, OutboxCommands, OutboxAdvances, CommandsAdvance, CommandUnitOfWork.EventTaken;
    OutboxCommandsFollow(t.outbox, t.commands, commands);
    AppendEvent(t.outbox, t.leases, event);
    AppendEventCommands(t.outbox, commands, event);
    assert ReceiptEvents(outbox, t.consumptions);
  }

  lemma AdapterWorkers(w: World, commands: map<string, Row<Command>>, controls: map<string, seq<Control>>, worker: nat)
    requires WorkerInv(w.atomic, w.legacy, w.t.commands, w.history.checkpoints, w.history.controls, w.invoked)
    requires CommandsAdvance(w.t.commands, commands) && LogsGrow(w.history.controls, controls)
    ensures WorkerInv(w.atomic[worker := AtomicIdle], w.legacy, commands, w.history.checkpoints, controls, w.invoked)
  {
    LogsStay(w.history.checkpoints);
    hide WorkerInv, CommandsAdvance, LogsGrow;
    WorkerInvFollows(w.atomic, w.legacy, w.t.commands, commands, w.history.checkpoints, w.history.checkpoints,
                     w.history.controls, controls, w.invoked);
    SetAtomic(w.atomic, w.legacy, commands, w.history.checkpoints, controls, w.invoked, worker, AtomicIdle);
  }

  /** What a worker about to commit knows. */
  lemma AuthorizedKnows(w: World, worker: nat)
    requires WorkerInv(w.atomic, w.legacy, w.t.commands, w.history.checkpoints, w.history.controls, w.invoked)
    requires AtomicAt(w, worker).Authorized?
    ensures var a := w.atomic[worker];
            && HeldRecord(a.record, AtomicControlOnly, w.t.commands)
            && a.record.fenced == w.t.commands[a.record.request.commandId].payload.fenced
            && a.record.request.commandId in w.invoked
            && ReadLogged(a.record.request.runId, a.checkpoint, w.history.checkpoints)
            && ControlReadLogged(a.record.request.runId, a.control, w.history.controls)
  {
    assert AtomicWorkerOk(w.atomic[worker], w.t.commands, w.history.checkpoints, w.history.controls, w.invoked);
  }

  /** Finishing an atomic command that no effect is attached to. */
  lemma UnbackedTerminal(effects: map<string, Effect>, a: map<string, Row<Command>>, b: map<string, Row<Command>>,
                         consumptions: map<string, Consumption>, id: string)
    requires EffectCommands(effects, a) && TerminalEffects(effects, a, consumptions)
    requires id in b && b == a[id := b[id]] && CommandsAdvance(a, b) && !CommandUnitOfWork.EffectBacked(effects, id)
    ensures EffectCommands(effects, b) && TerminalEffects(effects, b, consumptions)
  {
    hide EffectCommands, TerminalEffects, CommandsAdvance, CommandUnitOfWork.EffectBacked;
    EffectCommandsFollow(effects, a, b);
    TerminalEffectsFollow(effects, a, b, consumptions);
  }

  lemma PreparedShape(request: Request, checkpoint: Checkpoint, read: Option<Control>, decision: Decision, at: Timestamp)
    requires Prepare(request, checkpoint, read, decision, at).Ok?
    ensures var prepared := Prepare(request, checkpoint, read, decision, at).value;
            && prepared.request == request && prepared.checkpoint == checkpoint && prepared.checkpoint.runId == request.runId
            && prepared.writes.checkpoint == Compare && (prepared.writes.control == CasUpdate <==> prepared.outcome == Applied)
            && ControlOnly(request.operation)
            && (prepared.outcome == Applied ==> AppliedOutcome(request.operation, prepared.status, prepared.reason))
  {
  }

  /** An atomic command without effects ends: its row, one event, and the control row it may have changed. */
  lemma EndAtomicCommand(w: World, n: World, worker: nat, id: string, row: Row<Command>, event: OutboxRecord)
    requires Inv(w)
    requires n == w.(t := w.t.(commands := w.t.commands[id := row], controls := n.t.controls,
                               outbox := w.t.outbox[event.id := CommandUnitOfWork.NewOutboxRow(event)]),
                     history := w.history.(controls := n.history.controls), atomic := w.atomic[worker := AtomicIdle])
    requires CommandInv(n.t.commands) && CommandsAdvance(w.t.commands, n.t.commands)
    requires row.version == 3 && row.payload.owner == Some(AtomicControlOnly)
    requires !CommandUnitOfWork.EffectBacked(w.t.effects, id)
    requires event.commandId == id && row.payload.request.runId == event.runId
    requires !CommandUnitOfWork.EventTaken(w.t.outbox, event) && TerminalRow(event.id, CommandUnitOfWork.NewOutboxRow(event))
    requires ControlInv(n.t.controls, n.history.controls, n.t.commands) && LogsGrow(w.history.controls, n.history.controls)
    ensures Inv(n) && Advances(w, n)
  {
    EffectsStay(w.t.effects);
    hide LedgerInv, FenceInv, CommandInv, EffectCommands, TerminalEffects, ConsumptionInv, ControlInv, CheckpointInv,
         OutboxInv, WorkerInv, EffectsAdvance, CommandsAdvance, OutboxAdvances, LogsGrow, Advances, TerminalRow,
         CommandUnitOfWork.EventTaken, CommandUnitOfWork.EffectBacked, CommandUnitOfWork.NewOutboxRow;
    UnbackedTerminal(w.t.effects, w.t.commands, n.t.commands, w.t.consumptions, id);
    TerminalOutbox(w.t, n.t.commands, event);
    AdapterWorkers(w, n.t.commands, n.history.controls, worker);
    ConsumptionInvFollows(w.t.consumptions, w.t.effects, w.t.commands, n.t.commands, w.t.outbox, n.t.outbox,
                          w.history.controls, n.history.controls);
    AssembleTerminalStep(w, n);
  }

  lemma TerminalEventIsTerminalRow(prepared: Prepared, at: Timestamp)
    ensures var event := AtomicAdapter.TerminalEvent(prepared, at);
            && TerminalRow(event.id, CommandUnitOfWork.NewOutboxRow(event))
            && event.commandId == prepared.request.commandId && event.runId == prepared.request.runId
  {
  }

  /** The control row and its log after an accepted commit, whether or not the operation was applied. */
  lemma AdapterControls(w: World, n: World, a: AtomicWorker, prepared: Prepared, preparedAt: Timestamp, at: Timestamp)
    requires ControlInv(w.t.controls, w.history.controls, w.t.commands) && CommandsAdvance(w.t.commands, n.t.commands)
    requires a.Authorized? && ControlReadLogged(a.record.request.runId, a.control, w.history.controls)
    requires Prepare(a.record.request, a.checkpoint, a.control, a.decision, preparedAt) == Ok(prepared)
    requires prepared.request == a.record.request && (prepared.writes.control == CasUpdate <==> prepared.outcome == Applied)
    requires CommandUnitOfWork.ControlVersionOf(w.t, a.record.request.runId) == a.record.request.ControlVersion()
    requires n.t.controls == if prepared.writes.control == CasUpdate then
                               w.t.controls[a.record.request.runId := Row(a.record.request.ControlVersion() + 1, CommittedEntry(prepared, at))]
                             else w.t.controls
    requires n.history.controls == if prepared.writes.control == CasUpdate then
                                     Append(w.history.controls, prepared.request.runId, CommittedEntry(prepared, at))
                                   else w.history.controls
    requires a.record.request.commandId in n.t.commands
    requires prepared.outcome == Applied ==>
        var row := n.t.commands[a.record.request.commandId];
        && row.version == 3 && row.payload.request == a.record.request && row.payload.status == Succeeded
        && row.payload.owner == Some(AtomicControlOnly) && AppliedResult(row.payload, a.record.request.ControlVersion() + 1)
    ensures ControlInv(n.t.controls, n.history.controls, n.t.commands) && LogsGrow(w.history.controls, n.history.controls)
  {
    hide ControlInv, CommandsAdvance, LogsGrow, ControlReadLogged, Prepare, AppliedResult, CommandUnitOfWork.ControlVersionOf;
    if prepared.outcome == Applied {
      AppliedControls(w.t, w.history.controls, n.t.commands, a.record.request, a.checkpoint, a.control, a.decision, preparedAt, at);
    } else {
      ControlInvFollows(w.t.controls, w.history.controls, w.t.commands, n.t.commands);
      LogsStay(w.history.controls);
    }
  }

  /** The row an accepted commit leaves, and what the worker's draft is made of. */
  lemma AdapterRow(w: World, a: AtomicWorker, prepared: Prepared, preparedAt: Timestamp, at: Timestamp)
    requires CommandInv(w.t.commands) && a.Authorized? && HeldRecord(a.record, AtomicControlOnly, w.t.commands)
    requires Prepare(a.record.request, a.checkpoint, a.control, a.decision, preparedAt) == Ok(prepared)
    requires w.t.commands[a.record.request.commandId].version == 2
    requires w.t.commands[a.record.request.commandId].payload.fenced == a.record.fenced
    ensures prepared.request == a.record.request && (prepared.writes.control == CasUpdate <==> prepared.outcome == Applied)
    ensures var id, row := a.record.request.commandId, Row(3, FinishedCommand(a.record, prepared, a.evidence, at));
            && CommandInv(w.t.commands[id := row]) && CommandsAdvance(w.t.commands, w.t.commands[id := row])
            && row.payload.request == a.record.request && row.payload.owner == Some(AtomicControlOnly)
            && (prepared.outcome == Applied ==>
                row.payload.status == Succeeded && AppliedResult(row.payload, a.record.request.ControlVersion() + 1))
  {
    hide CommandInv, CommandsAdvance, FinishedCommand, Prepare, AppliedResult, AppliedOutcome, HeldRecord;
    PreparedShape(a.record.request, a.checkpoint, a.control, a.decision, preparedAt);
    HeldShape(a.record, w.t.commands);
    FinishedRowOk(w.t.commands, a.record, prepared, a.evidence, at);
  }

  lemma HeldShape(record: Command, commands: map<string, Row<Command>>)
    requires HeldRecord(record, AtomicControlOnly, commands)
    ensures record.version == 2 && record.owner == Some(AtomicControlOnly) && record.request.commandId in commands
    ensures commands[record.request.commandId].payload.request == record.request
  {
  }

  /** One accepted commit, stated without the step function around it. */
  lemma AdapterStepKeepsInv(w: World, n: World, worker: nat, prepared: Prepared,
                            preparedAt: Timestamp, eventAt: Timestamp, at: Timestamp)
    requires Inv(w) && AtomicAt(w, worker).Authorized?
    requires Prepare(w.atomic[worker].record.request, w.atomic[worker].checkpoint, w.atomic[worker].control,
                     w.atomic[worker].decision, preparedAt) == Ok(prepared)
    requires AdapterCommitted(w.t, n.t, w.atomic[worker].record, prepared, w.atomic[worker].evidence, eventAt, at)
    requires n == w.(t := n.t, atomic := w.atomic[worker := AtomicIdle],
                     history := w.history.(controls :=
                       if prepared.writes.control == CasUpdate then
                         Append(w.history.controls, prepared.request.runId, CommittedEntry(prepared, at))
                       else w.history.controls))
    ensures Inv(n) && Advances(w, n)
  {
    var a := w.atomic[worker];
    hide LedgerInv, FenceInv, CommandInv, EffectCommands, TerminalEffects, ConsumptionInv, ControlInv, CheckpointInv,
         OutboxInv, WorkerInv, CommandsAdvance, OutboxAdvances, LogsGrow, ControlReadLogged, ReadLogged, HeldRecord,
         CommandUnitOfWork.EventTaken, CommandUnitOfWork.EffectBacked, Advances, EffectsAdvance,
         FinishedCommand, CommandUnitOfWork.NewOutboxRow, AtomicAdapter.AdapterCommit, AtomicAdapter.TerminalEvent,
         Prepare, CommittedEntry, CommandUnitOfWork.ControlVersionOf, TerminalRow, AppliedResult, AppliedOutcome, Append;
    var event := AtomicAdapter.TerminalEvent(prepared, eventAt);
    var row := Row(3, FinishedCommand(a.record, prepared, a.evidence, at));
    AuthorizedKnows(w, worker);
    HeldShape(a.record, w.t.commands);
    AdapterRow(w, a, prepared, preparedAt, at);
    TerminalEventIsTerminalRow(prepared, eventAt);
    AdapterControls(w, n, a, prepared, preparedAt, at);
    EndAtomicCommand(w, n, worker, a.record.request.commandId, row, event);
  }

  lemma SetAtomicIdle(w: World, worker: nat)
    requires Inv(w)
    ensures var n := w.(atomic := w.atomic[worker := AtomicIdle]);
            Inv(n) && Advances(w, n)
  {
    hide Inv, Advances;
    MoveAtomic(w, worker, AtomicIdle);
  }

  lemma EffectsStay(a: map<string, Effect>)
    ensures EffectsAdvance(a, a)
  {
  }

  lemma CommitAtomicKeepsInv(w: World, worker: nat, preparedAt: Timestamp, eventAt: Timestamp, at: Timestamp)
    requires Inv(w)
    ensures var n := StepCommitAtomic(w, worker, preparedAt, eventAt, at);
            Inv(n) && Advances(w, n)
  {
    Stays(w);
    hide Inv, Advances, CommandUnitOfWork.Commit, Prepare, AdapterCommitted, CommittedEntry;
    var n := StepCommitAtomic(w, worker, preparedAt, eventAt, at);
    match AtomicAt(w, worker) {
      case Authorized(record, evidence, checkpoint, control, decision) =>
        SetAtomicIdle(w, worker);
        var prepared := Prepare(record.request, checkpoint, control, decision, preparedAt);
        if prepared.Ok? {
          PreparedShape(record.request, checkpoint, control, decision, preparedAt);
          var draft := AtomicAdapter.AdapterCommit(record, prepared.value, evidence, eventAt);
          if CommandUnitOfWork.Commit(w.t, draft, at).result.Ok? {
            AdapterCommitTables(w.t, record, prepared.value, evidence, eventAt, at);
            AdapterStepKeepsInv(w, n, worker, prepared.value, preparedAt, eventAt, at);
          }
        }
      case _ =>
    }
  }

  // ----- the receipt finalizer -----

  /** What a first, successful finalization has checked before it writes. */
  ghost predicate Finalizable(t: Tables, input: ReceiptFinalizer.FinalizeInput, prepared: Prepared) {
    var request, e := input.intent.command, input.intent.effectId;
    && ReceiptFinalizer.PlanMatches(input)
    && ReceiptFinalizer.EffectMatches(t, input)
    && ReceiptFinalizer.ReceiptMatches(t.remoteReceipts[e], input)
    && request.commandId in t.commands
    && ReceiptFinalizer.CommandMatches(t.commands[request.commandId], input.intent)
    && t.commands[request.commandId].version == 2
    && e !in t.consumptions
    && t.effects[e].status == UnknownEffect
    && input.intent.idempotencyKey !in t.sinkReceipts
    && request.runId in t.checkpoints && t.checkpoints[request.runId].version == request.expectedCheckpointVersion
    && CommandUnitOfWork.ControlVersionOf(t, request.runId) == request.ControlVersion()
    && ReceiptFinalizer.PreparedFor(t, input) == Ok(prepared)
    && prepared.outcome == Applied
    && var writes := ReceiptFinalizer.PlanWrites(t, input, prepared);
       && !ReceiptFinalizer.ConsumptionTaken(t.consumptions, writes.consumption)
       && !CommandUnitOfWork.EventTaken(t.outbox, writes.event)
  }

  lemma FinalizedFrom(t: Tables, answers: RegistryAnswers, input: ReceiptFinalizer.FinalizeInput, fault: bool)
    requires var r := ReceiptFinalizer.Finalize(t, answers, input, fault).result;
             r.Ok? && r.value.Finalized?
    ensures input.intent.command.runId in t.checkpoints && ReceiptFinalizer.PreparedFor(t, input).Ok?
    ensures var prepared := ReceiptFinalizer.PreparedFor(t, input).value;
            && Finalizable(t, input, prepared)
            && ReceiptFinalizer.Finalize(t, answers, input, fault).tables
               == ReceiptFinalizer.ApplyWrites(t, input, ReceiptFinalizer.PlanWrites(t, input, prepared))
  {
    hide FenceBound, ReceiptFinalizer.ReceiptMatches, ReceiptFinalizer.CommandMatches, AuthorityHolds, Prepare,
         ReceiptFinalizer.ConsumptionTaken, ReceiptFinalizer.ApplyWrites, EffectLedger.RegistryAgrees;
  }

  // The ledger: one effect is committed by a consumption row.

  lemma ConsumedRows(effects: map<string, Effect>, sinks: map<string, SinkReceipt>, remotes: map<string, RemoteRow>,
                     consumptions: map<string, Consumption>, e: string, row: Consumption)
    requires ConsumptionRows(consumptions, effects, remotes) && ConsumptionsUnique(consumptions)
    requires CommittedRows(effects, sinks, consumptions)
    requires e in effects && e in remotes && e !in consumptions && !ReceiptFinalizer.ConsumptionTaken(consumptions, row)
    requires effects[e].intent.owner == AtomicControlOnly
    requires row.providerId == remotes[e].providerId && row.receiptId == remotes[e].receiptId
    requires row.commandId == effects[e].intent.command.commandId && row.eventId == ReceiptEventId(row.commandId)
    ensures ConsumptionRows(consumptions[e := row], effects[e := effects[e].(status := Committed)], remotes)
    ensures ConsumptionsUnique(consumptions[e := row])
    ensures CommittedRows(effects[e := effects[e].(status := Committed)], sinks, consumptions[e := row])
  {
    hide ReceiptEventId;
    assert forall f | f in consumptions :: !ConsumptionsClash(consumptions[f], row);
  }

  lemma ConsumeRows(effects: map<string, Effect>, sinks: map<string, SinkReceipt>, remotes: map<string, RemoteRow>,
                    consumptions: map<string, Consumption>, e: string, row: Consumption)
    requires LedgerInv(effects, sinks, remotes, consumptions)
    requires e in effects && effects[e].status == UnknownEffect && effects[e].intent.owner == AtomicControlOnly
    requires e in remotes && e !in consumptions && !ReceiptFinalizer.ConsumptionTaken(consumptions, row)
    requires row.providerId == remotes[e].providerId && row.receiptId == remotes[e].receiptId
    requires row.commandId == effects[e].intent.command.commandId && row.eventId == ReceiptEventId(row.commandId)
    ensures LedgerInv(effects[e := effects[e].(status := Committed)], sinks, remotes, consumptions[e := row])
    ensures EffectsAdvance(effects, effects[e := effects[e].(status := Committed)])
    ensures Grows(consumptions, consumptions[e := row])
  {
    var row' := effects[e].(status := Committed);
    assert effects[e].idempotencyKey !in sinks;
    assert 1 <= effects[e].epoch <= MAX_SAFE;
    hide EffectRows, EffectKeysUnique, SinkRows, RemoteRows, RemoteReceiptsUnique, ConsumptionRows, ConsumptionsUnique,
         CommittedRows, EffectsAdvance;
    MoveEffectRows(effects, e, row');
    MoveEffectSinks(effects, sinks, e, row');
    MoveEffectRemotes(effects, sinks, remotes, e, row');
    ConsumedRows(effects, sinks, remotes, consumptions, e, row);
  }

  lemma ConsumedTerminal(effects: map<string, Effect>, a: map<string, Row<Command>>, b: map<string, Row<Command>>,
                         earlier: map<string, Consumption>, consumptions: map<string, Consumption>, e: string, id: string)
    requires EffectCommands(effects, a) && TerminalEffects(effects, a, earlier) && Grows(earlier, consumptions)
    requires id in b && b == a[id := b[id]] && CommandsAdvance(a, b)
    requires e in consumptions && consumptions[e].commandId == id
    ensures EffectCommands(effects, b) && TerminalEffects(effects, b, consumptions)
  {
    EffectCommandsFollow(effects, a, b);
    forall f | f in effects && effects[f].intent.owner == AtomicControlOnly
      ensures var c := effects[f].intent.command.commandId;
              c in b && b[c].version == 3 ==> ConsumedBy(consumptions, c)
    {
      var c := effects[f].intent.command.commandId;
      assert c in a;
    }
  }

  lemma ConsumptionExtends(consumptions: map<string, Consumption>, effects: map<string, Effect>,
                           commands: map<string, Row<Command>>, outbox: map<string, OutboxRow>,
                           controls: map<string, seq<Control>>, e: string, row: Consumption)
    requires ConsumptionInv(consumptions, effects, commands, outbox, controls)
    requires e in effects
    requires var request := effects[e].intent.command;
             && request.commandId in commands
             && ReceiptFinalizer.CommandFinalized(commands[request.commandId], row.controlVersion)
             && commands[request.commandId].payload.owner == Some(AtomicControlOnly)
             && commands[request.commandId].payload.fenced
             && ReceiptFinalizer.TerminalEventStored(outbox, request, row.receiptId, row.providerId)
             && 1 <= row.controlVersion <= |Log(controls, request.runId)|
             && Log(controls, request.runId)[row.controlVersion - 1].causedBy == Some(request.commandId)
    ensures ConsumptionInv(consumptions[e := row], effects, commands, outbox, controls)
  {
    hide ReceiptFinalizer.TerminalEventStored, ReceiptFinalizer.CommandFinalized;
  }

  lemma ReceiptEventsGrow(outbox: map<string, OutboxRow>, a: map<string, Consumption>, b: map<string, Consumption>)
    requires ReceiptEvents(outbox, a) && Grows(a, b)
    ensures ReceiptEvents(outbox, b)
  {
    forall o | o in outbox && outbox[o].record.payload.ReceiptAudit?
      ensures exists e :: e in b && b[e].commandId == outbox[o].commandId
                       && b[e].providerId == outbox[o].record.payload.providerId
                       && b[e].receiptId == outbox[o].record.payload.receiptId
    {
      var e :| e in a && a[e].commandId == outbox[o].commandId
               && a[e].providerId == outbox[o].record.payload.providerId
               && a[e].receiptId == outbox[o].record.payload.receiptId;
      assert e in b && b[e] == a[e];
    }
  }

  lemma AppendReceiptEvent(outbox: map<string, OutboxRow>, consumptions: map<string, Consumption>, event: OutboxRecord, e: string)
    requires ReceiptEvents(outbox, consumptions)
    requires event.payload.ReceiptAudit?
    requires e in consumptions && consumptions[e].commandId == event.commandId
    requires consumptions[e].providerId == event.payload.providerId && consumptions[e].receiptId == event.payload.receiptId
    ensures ReceiptEvents(outbox[event.id := CommandUnitOfWork.NewOutboxRow(event)], consumptions)
  {
  }

  lemma ReceiptOutbox(t: Tables, commands: map<string, Row<Command>>, consumptions: map<string, Consumption>,
                      event: OutboxRecord, e: string)
    requires OutboxInv(t.outbox, t.leases, t.commands, t.consumptions) && CommandsAdvance(t.commands, commands)
    requires Grows(t.consumptions, consumptions)
    requires !CommandUnitOfWork.EventTaken(t.outbox, event) && ReceiptRow(event.id, CommandUnitOfWork.NewOutboxRow(event))
    requires event.commandId in commands && commands[event.commandId].version == 3
    requires commands[event.commandId].payload.owner == Some(AtomicControlOnly)
    requires commands[event.commandId].payload.request.runId == event.runId
    requires e in consumptions && consumptions[e].commandId == event.commandId
    requires consumptions[e].providerId == event.payload.providerId && consumptions[e].receiptId == event.payload.receiptId
    ensures var outbox := t.outbox[event.id := CommandUnitOfWork.NewOutboxRow(event)];
            OutboxInv(outbox, t.leases, commands, consumptions) && OutboxAdvances(t.outbox, outbox)
  {
    hide OutboxRows, OutboxCommands, ReceiptEvents, OutboxAdvances, CommandsAdvance, CommandUnitOfWork.EventTaken, Grows;
    OutboxCommandsFollow(t.outbox, t.commands, commands);
    AppendEvent(t.outbox, t.leases, event);
    AppendEventCommands(t.outbox, commands, event);
    ReceiptEventsGrow(t.outbox, t.consumptions, consumptions);
    AppendReceiptEvent(t.outbox, consumptions, event, e);
  }

  /** The effect `e` is UNKNOWN with a stored receipt, and `c` is a first consumption of it. */
  ghost predicate ReadyToConsume(t: Tables, e: string, c: Consumption) {
    && e in t.effects && e in t.remoteReceipts && e !in t.consumptions
    && t.effects[e].status == UnknownEffect && t.effects[e].intent.owner == AtomicControlOnly
    && !ReceiptFinalizer.ConsumptionTaken(t.consumptions, c)
    && c.providerId == t.remoteReceipts[e].providerId
    && c.receiptId == t.remoteReceipts[e].receiptId
    && c.commandId == t.effects[e].intent.command.commandId
    && c.eventId == ReceiptEventId(c.commandId)
  }

  /** The terminal row and event that go with the consumption `c` of a command. */
  ghost predicate ReceiptEnding(request: Request, row: Row<Command>, event: OutboxRecord, c: Consumption) {
    && ReceiptFinalizer.CommandFinalized(row, c.controlVersion)
    && row.payload.owner == Some(AtomicControlOnly) && row.payload.fenced
    && row.payload.request == request && request.commandId == c.commandId
    && event.commandId == c.commandId && event.runId == request.runId
    && event.payload == ReceiptAudit(request.operation, c.receiptId, c.providerId)
    && ReceiptRow(event.id, CommandUnitOfWork.NewOutboxRow(event))
  }

  ghost predicate ControlNames(logs: map<string, seq<Control>>, run: string, version: int, id: string) {
    1 <= version <= |Log(logs, run)| && Log(logs, run)[version - 1].causedBy == Some(id)
  }

  /** The tables after a consumption, apart from the control rows. */
  ghost predicate ConsumedTables(w: World, n: World, e: string, row: Row<Command>, event: OutboxRecord, c: Consumption)
    requires e in w.t.effects
  {
    n == w.(t := w.t.(effects := w.t.effects[e := w.t.effects[e].(status := Committed)],
                      consumptions := w.t.consumptions[e := c], controls := n.t.controls,
                      commands := w.t.commands[c.commandId := row],
                      outbox := w.t.outbox[event.id := CommandUnitOfWork.NewOutboxRow(event)]),
            history := w.history.(controls := n.history.controls))
  }

  lemma ConsumedLedger(w: World, n: World, e: string, row: Row<Command>, event: OutboxRecord, c: Consumption)
    requires LedgerInv(w.t.effects, w.t.sinkReceipts, w.t.remoteReceipts, w.t.consumptions)
    requires FenceInv(w.t.effects, w.history.fences) && EffectCommands(w.t.effects, w.t.commands)
    requires TerminalEffects(w.t.effects, w.t.commands, w.t.consumptions)
    requires ReadyToConsume(w.t, e, c) && ConsumedTables(w, n, e, row, event, c)
    requires CommandsAdvance(w.t.commands, n.t.commands)
    ensures LedgerInv(n.t.effects, n.t.sinkReceipts, n.t.remoteReceipts, n.t.consumptions)
    ensures EffectsAdvance(w.t.effects, n.t.effects) && Grows(w.t.consumptions, n.t.consumptions)
    ensures FenceInv(n.t.effects, n.history.fences) && EffectCommands(n.t.effects, n.t.commands)
    ensures TerminalEffects(n.t.effects, n.t.commands, n.t.consumptions)
  {
    hide LedgerInv, FenceInv, EffectCommands, TerminalEffects, EffectsAdvance, CommandsAdvance, Grows,
         CommandUnitOfWork.NewOutboxRow, ReceiptFinalizer.ConsumptionTaken, ReceiptEventId;
    ConsumeRows(w.t.effects, w.t.sinkReceipts, w.t.remoteReceipts, w.t.consumptions, e, c);
    LedgerPreservation.EpochsKeptKeepFences(w.t.effects, n.t.effects, w.history.fences);
    LedgerPreservation.FrozenIntentsKeepLinks(w, n.t.effects);
    ConsumedTerminal(n.t.effects, w.t.commands, n.t.commands, w.t.consumptions, n.t.consumptions, e, c.commandId);
  }

  lemma ConsumedEvent(w: World, n: World, e: string, row: Row<Command>, event: OutboxRecord, c: Consumption)
    requires OutboxInv(w.t.outbox, w.t.leases, w.t.commands, w.t.consumptions)
    requires ReadyToConsume(w.t, e, c) && ConsumedTables(w, n, e, row, event, c)
    requires ReceiptEnding(w.t.effects[e].intent.command, row, event, c)
    requires CommandsAdvance(w.t.commands, n.t.commands)
    requires Grows(w.t.consumptions, n.t.consumptions) && !CommandUnitOfWork.EventTaken(w.t.outbox, event)
    ensures OutboxInv(n.t.outbox, n.t.leases, n.t.commands, n.t.consumptions) && OutboxAdvances(w.t.outbox, n.t.outbox)
  {
    assert row.version == 3;
    hide OutboxInv, OutboxAdvances, CommandsAdvance, Grows, CommandUnitOfWork.EventTaken, CommandUnitOfWork.NewOutboxRow,
         ReceiptFinalizer.ConsumptionTaken, ReceiptFinalizer.CommandFinalized, ReceiptRow, ReceiptEventId;
    ReceiptOutbox(w.t, n.t.commands, n.t.consumptions, event, e);
  }

  lemma ConsumedEffectsExist(t: Tables)
    requires LedgerInv(t.effects, t.sinkReceipts, t.remoteReceipts, t.consumptions)
    ensures forall e | e in t.consumptions :: e in t.effects
  {
    hide EffectRows, EffectKeysUnique, SinkRows, RemoteRows, RemoteReceiptsUnique, ConsumptionsUnique, CommittedRows;
  }

  lemma ConsumedConsumptions(w: World, n: World, e: string, row: Row<Command>, event: OutboxRecord, c: Consumption)
    requires LedgerInv(w.t.effects, w.t.sinkReceipts, w.t.remoteReceipts, w.t.consumptions)
    requires ConsumptionInv(w.t.consumptions, w.t.effects, w.t.commands, w.t.outbox, w.history.controls)
    requires ReadyToConsume(w.t, e, c) && ConsumedTables(w, n, e, row, event, c)
    requires ReceiptEnding(w.t.effects[e].intent.command, row, event, c)
    requires CommandsAdvance(w.t.commands, n.t.commands) && LogsGrow(w.history.controls, n.history.controls)
    requires EffectsAdvance(w.t.effects, n.t.effects) && OutboxAdvances(w.t.outbox, n.t.outbox)
    requires ControlNames(n.history.controls, row.payload.request.runId, c.controlVersion, c.commandId)
    requires ReceiptFinalizer.TerminalEventStored(n.t.outbox, row.payload.request, c.receiptId, c.providerId)
    ensures ConsumptionInv(n.t.consumptions, n.t.effects, n.t.commands, n.t.outbox, n.history.controls)
  {
    hide LedgerInv, ConsumptionInv, EffectsAdvance, CommandsAdvance, OutboxAdvances, LogsGrow, ReceiptRow,
         CommandUnitOfWork.NewOutboxRow, ReceiptFinalizer.ConsumptionTaken, ReceiptEventId,
         ReceiptFinalizer.TerminalEventStored, ReceiptFinalizer.CommandFinalized;
    ConsumedEffectsExist(w.t);
    LedgerPreservation.FrozenIntentsKeepConsumptions(w, n.t.effects);
    ConsumptionInvFollows(w.t.consumptions, n.t.effects, w.t.commands, n.t.commands, w.t.outbox, n.t.outbox,
                          w.history.controls, n.history.controls);
    ConsumptionExtends(w.t.consumptions, n.t.effects, n.t.commands, n.t.outbox, n.history.controls, e, c);
  }

  /** An atomic command ends because the receipt of its effect `e` is consumed. */
  lemma EndByConsumption(w: World, n: World, e: string, row: Row<Command>, event: OutboxRecord, c: Consumption)
    requires Inv(w)
    requires ReadyToConsume(w.t, e, c) && ConsumedTables(w, n, e, row, event, c)
    requires ReceiptEnding(w.t.effects[e].intent.command, row, event, c)
    requires !CommandUnitOfWork.EventTaken(w.t.outbox, event)
    requires ReceiptFinalizer.TerminalEventStored(n.t.outbox, row.payload.request, c.receiptId, c.providerId)
    requires CommandInv(n.t.commands) && CommandsAdvance(w.t.commands, n.t.commands)
    requires ControlInv(n.t.controls, n.history.controls, n.t.commands) && LogsGrow(w.history.controls, n.history.controls)
    requires ControlNames(n.history.controls, row.payload.request.runId, c.controlVersion, c.commandId)
    ensures Inv(n) && Advances(w, n)
  {
    LogsStay(w.history.checkpoints);
    hide LedgerInv, FenceInv, CommandInv, EffectCommands, TerminalEffects, ConsumptionInv, ControlInv, CheckpointInv,
         OutboxInv, WorkerInv, EffectsAdvance, CommandsAdvance, OutboxAdvances, LogsGrow, Advances, Grows,
         ReadyToConsume, ReceiptEnding, ControlNames, CommandUnitOfWork.EventTaken, CommandUnitOfWork.NewOutboxRow,
         ReceiptFinalizer.TerminalEventStored;
    ConsumedLedger(w, n, e, row, event, c);
    ConsumedEvent(w, n, e, row, event, c);
    ConsumedConsumptions(w, n, e, row, event, c);
    WorkerInvFollows(w.atomic, w.legacy, w.t.commands, n.t.commands, w.history.checkpoints, w.history.checkpoints,
                     w.history.controls, n.history.controls, w.invoked);
    AssembleTerminalStep(w, n);
  }

  /** The command row the finalizer writes. */
  lemma FinalizedRowOk(commands: map<string, Row<Command>>, intent: Intent, status: ResultStatus, reason: ResultReason,
                       snapshot: Snapshot, at: Timestamp)
    requires CommandInv(commands) && intent.command.commandId in commands
    requires ReceiptFinalizer.CommandMatches(commands[intent.command.commandId], intent)
    requires commands[intent.command.commandId].version == 2
    ensures var id := intent.command.commandId;
            var row := Row(3, commands[id].payload.(status := Succeeded, version := 3, updatedAt := at,
                                                    resultReason := Some(reason), resultSnapshot := Some(snapshot)));
            CommandInv(commands[id := row]) && CommandsAdvance(commands, commands[id := row])
  {
    var id := intent.command.commandId;
    var row := Row(3, commands[id].payload.(status := Succeeded, version := 3, updatedAt := at,
                                            resultReason := Some(reason), resultSnapshot := Some(snapshot)));
    assert CommandRow(id, commands[id]);
    assert CommandRow(id, row);
    FinishCommand(commands, id, row);
  }

  // Connecting the writes of the finalizer to the above.

  lemma WritesAreReady(t: Tables, input: ReceiptFinalizer.FinalizeInput, prepared: Prepared)
    requires LedgerInv(t.effects, t.sinkReceipts, t.remoteReceipts, t.consumptions)
    requires Finalizable(t, input, prepared)
    ensures ReadyToConsume(t, input.intent.effectId, ReceiptFinalizer.PlanWrites(t, input, prepared).consumption)
  {
    hide LedgerInv, ReceiptFinalizer.ConsumptionTaken, Prepare, ReceiptFinalizer.PreparedFor, ReceiptEventId,
         CommandUnitOfWork.EventTaken, ReceiptFinalizer.CommandMatches;
  }

  lemma WritesEndTheCommand(t: Tables, input: ReceiptFinalizer.FinalizeInput, prepared: Prepared)
    requires Finalizable(t, input, prepared)
    ensures var writes := ReceiptFinalizer.PlanWrites(t, input, prepared);
            ReceiptEnding(t.effects[input.intent.effectId].intent.command, Row(3, writes.command), writes.event, writes.consumption)
  {
    hide ReceiptFinalizer.ConsumptionTaken, Prepare, ReceiptFinalizer.PreparedFor, CommandUnitOfWork.EventTaken;
  }

  lemma WritesStoreTheEvent(t: Tables, input: ReceiptFinalizer.FinalizeInput, prepared: Prepared)
    requires Finalizable(t, input, prepared)
    ensures var writes := ReceiptFinalizer.PlanWrites(t, input, prepared);
            ReceiptFinalizer.TerminalEventStored(t.outbox[writes.event.id := CommandUnitOfWork.NewOutboxRow(writes.event)],
                                                 input.intent.command, writes.consumption.receiptId, writes.consumption.providerId)
  {
    hide ReceiptFinalizer.ConsumptionTaken, Prepare, ReceiptFinalizer.PreparedFor, CommandUnitOfWork.EventTaken,
         ReceiptFinalizer.CommandMatches;
  }

  lemma WritesControl(w: World, commands: map<string, Row<Command>>, input: ReceiptFinalizer.FinalizeInput, prepared: Prepared)
    requires ControlInv(w.t.controls, w.history.controls, w.t.commands) && CommandsAdvance(w.t.commands, commands)
    requires Finalizable(w.t, input, prepared)
    requires var id := input.intent.command.commandId;
             && id in commands && commands[id] == Row(3, ReceiptFinalizer.PlanWrites(w.t, input, prepared).command)
    ensures var run, writes := input.intent.command.runId, ReceiptFinalizer.PlanWrites(w.t, input, prepared);
            var logs := Append(w.history.controls, run, writes.control);
            && ControlInv(w.t.controls[run := Row(writes.control.version, writes.control)], logs, commands)
            && LogsGrow(w.history.controls, logs)
            && ControlNames(logs, run, writes.consumption.controlVersion, input.intent.command.commandId)
  {
    var request, writes := input.intent.command, ReceiptFinalizer.PlanWrites(w.t, input, prepared);
    var checkpoint, read := w.t.checkpoints[request.runId].payload, CommandUnitOfWork.StoredControl(w.t, request.runId);
    AppliedIff(request, checkpoint, read, ReceiptFinalizer.SAME_SQLITE_AUTHORIZED, input.at);
    PreparedShape(request, checkpoint, read, ReceiptFinalizer.SAME_SQLITE_AUTHORIZED, input.at);
    hide ReceiptFinalizer.ConsumptionTaken, Prepare, CommandUnitOfWork.EventTaken, ControlInv, CommandsAdvance, LogsGrow,
         LegalMove, ReceiptFinalizer.ReceiptMatches;
    StoredControlLogged(w, request.runId);
    assert writes.control == CommittedEntry(prepared, input.at);
    assert AppliedResult(commands[request.commandId].payload, request.ControlVersion() + 1);
    AppliedControls(w.t, w.history.controls, commands, request, checkpoint, read, ReceiptFinalizer.SAME_SQLITE_AUTHORIZED,
                    input.at, input.at);
    assert writes.control.version == |Log(w.history.controls, request.runId)| + 1;
  }

  lemma FinalizeKeepsInv(w: World, answers: RegistryAnswers, input: ReceiptFinalizer.FinalizeInput, fault: bool)
    requires Inv(w)
    ensures var n := StepFinalize(w, answers, input, fault);
            Inv(n) && Advances(w, n)
  {
    var n := StepFinalize(w, answers, input, fault);
    Stays(w);
    hide Inv, Advances, ReceiptFinalizer.Finalize, ReceiptFinalizer.PreparedFor, Finalizable;
    var outcome := ReceiptFinalizer.Finalize(w.t, answers, input, fault);
    if outcome.result.Ok? && outcome.result.value.Finalized? {
      FinalizedFrom(w.t, answers, input, fault);
      FinalizedStepKeepsInv(w, n, input, ReceiptFinalizer.PreparedFor(w.t, input).value);
    }
  }

  lemma FinalizedStepKeepsInv(w: World, n: World, input: ReceiptFinalizer.FinalizeInput, prepared: Prepared)
    requires Inv(w) && Finalizable(w.t, input, prepared)
    requires n.t == ReceiptFinalizer.ApplyWrites(w.t, input, ReceiptFinalizer.PlanWrites(w.t, input, prepared))
    requires n == w.(t := n.t, history := w.history.(controls :=
                     Append(w.history.controls, input.intent.command.runId,
                            ReceiptFinalizer.PlanWrites(w.t, input, prepared).control)))
    ensures Inv(n) && Advances(w, n)
  {
    var writes := ReceiptFinalizer.PlanWrites(w.t, input, prepared);
    hide LedgerInv, FenceInv, CommandInv, EffectCommands, TerminalEffects, ConsumptionInv, ControlInv, CheckpointInv,
         OutboxInv, WorkerInv, Advances, ReadyToConsume, ReceiptEnding, ReceiptFinalizer.TerminalEventStored, ControlNames,
         CommandsAdvance, LogsGrow, ReceiptFinalizer.ConsumptionTaken, CommandUnitOfWork.EventTaken,
         ReceiptFinalizer.PreparedFor, ReceiptFinalizer.ReceiptMatches, ReceiptFinalizer.CommandMatches;
    WritesAreReady(w.t, input, prepared);
    WritesEndTheCommand(w.t, input, prepared);
    WritesStoreTheEvent(w.t, input, prepared);
    FinalizedRowOk(w.t.commands, input.intent, prepared.status, prepared.reason, writes.command.resultSnapshot.value, input.at);
    WritesControl(w, n.t.commands, input, prepared);
    EndByConsumption(w, n, input.intent.effectId, Row(3, writes.command), writes.event, writes.consumption);
  }
}
