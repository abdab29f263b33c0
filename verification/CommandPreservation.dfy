/** Claims, admissions, the legacy route and the workers' own moves keep every invariant. */
module CommandPreservation {
  import opened Text
  import opened Records
  import opened Database
  import opened ControlPreparation
  import opened World
  import opened Invariants
  import opened CommandLinks
  import CommandUnitOfWork

  // ----- assembling -----

  /** A step that only touches the command table and the workers. */
  lemma AssembleCommandStep(w: World, n: World)
    requires Inv(w)
    requires n == w.(t := w.t.(commands := n.t.commands), atomic := n.atomic, legacy := n.legacy, invoked := n.invoked)
    requires CommandInv(n.t.commands) && CommandsAdvance(w.t.commands, n.t.commands) && w.invoked <= n.invoked
    requires TerminalEffects(n.t.effects, n.t.commands, n.t.consumptions)
    requires WorkerInv(n.atomic, n.legacy, n.t.commands, n.history.checkpoints, n.history.controls, n.invoked)
    ensures Inv(n) && Advances(w, n)
  {
    hide LedgerInv, FenceInv, CommandInv, EffectCommands, TerminalEffects, ConsumptionInv, ControlInv, CheckpointInv,
         OutboxRows, OutboxCommands, ReceiptEvents, WorkerInv, CommandsAdvance;
    EffectCommandsFollow(w.t.effects, w.t.commands, n.t.commands);
    ControlInvFollows(w.t.controls, w.history.controls, w.t.commands, n.t.commands);
    OutboxCommandsFollow(w.t.outbox, w.t.commands, n.t.commands);
    assert OutboxAdvances(w.t.outbox, w.t.outbox);
    assert LogsGrow(w.history.controls, w.history.controls);
    ConsumptionInvFollows(w.t.consumptions, w.t.effects, w.t.commands, n.t.commands, w.t.outbox, w.t.outbox,
                          w.history.controls, w.history.controls);
  }

  // ----- a new command row -----

  lemma InsertCommand(w: World, id: string, row: Row<Command>)
    requires CommandInv(w.t.commands) && EffectCommands(w.t.effects, w.t.commands)
    requires TerminalEffects(w.t.effects, w.t.commands, w.t.consumptions)
    requires id !in w.t.commands && CommandRow(id, row) && row.version != 3
    ensures CommandInv(w.t.commands[id := row]) && CommandsAdvance(w.t.commands, w.t.commands[id := row])
    ensures TerminalEffects(w.t.effects, w.t.commands[id := row], w.t.consumptions)
  {
    hide EffectCommands, TerminalEffects, CommandUnitOfWork.EffectBacked;
    TerminalEffectsFollow(w.t.effects, w.t.commands, w.t.commands[id := row], w.t.consumptions);
  }

  /** Nobody holds, and nobody has invoked, a command that does not exist yet. */
  lemma FreshCommandUnheld(w: World, id: string)
    requires WorkerInv(w.atomic, w.legacy, w.t.commands, w.history.checkpoints, w.history.controls, w.invoked)
    requires id !in w.t.commands
    ensures id !in w.invoked
    ensures forall v | v in w.atomic && !w.atomic[v].AtomicIdle? :: w.atomic[v].record.request.commandId != id
    ensures forall v | v in w.legacy && w.legacy[v].Running? :: w.legacy[v].record.request.commandId != id
  {
    forall v | v in w.atomic && !w.atomic[v].AtomicIdle? ensures w.atomic[v].record.request.commandId != id {
      assert AtomicWorkerOk(w.atomic[v], w.t.commands, w.history.checkpoints, w.history.controls, w.invoked);
    }
    forall v | v in w.legacy && w.legacy[v].Running? ensures w.legacy[v].record.request.commandId != id {
      assert LegacyWorkerOk(w.legacy[v], w.t.commands, w.invoked);
    }
  }

  lemma NewAtomicWorker(w: World, n: World, worker: nat, record: Command, evidence: Option<Evidence>)
    requires Inv(w)
    requires record.request.commandId !in w.t.commands
    requires n == w.(t := w.t.(commands := w.t.commands[record.request.commandId := Row(2, record)]),
                     atomic := w.atomic[worker := Admitted(record, evidence)])
    requires CommandRow(record.request.commandId, Row(2, record)) && record.status == Executing && record.version == 2
    requires record.owner == Some(AtomicControlOnly)
    ensures Inv(n) && Advances(w, n)
  {
    hide LedgerInv, FenceInv, CommandInv, EffectCommands, TerminalEffects, ConsumptionInv, ControlInv, CheckpointInv,
         OutboxInv, WorkerInv, CommandsAdvance, Advances, CommandRow;
    var id := record.request.commandId;
    InsertCommand(w, id, Row(2, record));
    FreshCommandUnheld(w, id);
    assert LogsGrow(w.history.controls, w.history.controls) && LogsGrow(w.history.checkpoints, w.history.checkpoints);
    WorkerInvFollows(w.atomic, w.legacy, w.t.commands, n.t.commands, w.history.checkpoints, w.history.checkpoints,
                     w.history.controls, w.history.controls, w.invoked);
    SetAtomic(w.atomic, w.legacy, n.t.commands, w.history.checkpoints, w.history.controls, w.invoked, worker,
              Admitted(record, evidence));
    AssembleCommandStep(w, n);
  }

  lemma NewLegacyWorker(w: World, n: World, worker: nat, row: Row<Command>, l: LegacyWorker)
    requires Inv(w)
    requires row.payload.request.commandId !in w.t.commands
    requires n == w.(t := w.t.(commands := w.t.commands[row.payload.request.commandId := row]), legacy := w.legacy[worker := l])
    requires CommandRow(row.payload.request.commandId, row) && row.payload.owner == Some(Legacy)
    requires row.version != 3
    requires l == (if row.version == 2 then Running(row.payload) else Inserted(row.payload))
    ensures Inv(n) && Advances(w, n)
  {
    var id := row.payload.request.commandId;
    assert row.version == row.payload.version;
    assert row.version == 2 ==> row.payload.status == Executing;
    assert row.version != 2 ==> row.payload.version == 1;
    hide LedgerInv, FenceInv, CommandInv, EffectCommands, TerminalEffects, ConsumptionInv, ControlInv, CheckpointInv,
         OutboxInv, WorkerInv, CommandsAdvance, Advances, CommandRow;
    InsertCommand(w, id, row);
    FreshCommandUnheld(w, id);
    assert LogsGrow(w.history.controls, w.history.controls) && LogsGrow(w.history.checkpoints, w.history.checkpoints);
    WorkerInvFollows(w.atomic, w.legacy, w.t.commands, n.t.commands, w.history.checkpoints, w.history.checkpoints,
                     w.history.controls, w.history.controls, w.invoked);
    SetLegacy(w.atomic, w.legacy, n.t.commands, w.history.checkpoints, w.history.controls, w.invoked, worker, l);
    AssembleCommandStep(w, n);
  }

  lemma ClaimKeepsInv(w: World, worker: nat, request: Request, owner: Owner, evidence: Option<Evidence>, at: Timestamp)
    requires Inv(w)
    ensures var n := StepClaim(w, worker, request, owner, evidence, at);
            Inv(n) && Advances(w, n)
  {
    hide Inv, Advances;
    var n := StepClaim(w, worker, request, owner, evidence, at);
    if n == w {
      Stays(w);
    } else if owner == AtomicControlOnly {
      NewAtomicWorker(w, n, worker, n.atomic[worker].record, evidence);
    } else {
      NewLegacyWorker(w, n, worker, n.t.commands[request.commandId], n.legacy[worker]);
    }
  }

  lemma AdmitKeepsInv(w: World, worker: nat, request: Request, at: Timestamp)
    requires Inv(w)
    ensures var n := StepAdmit(w, worker, request, at);
            Inv(n) && Advances(w, n)
  {
    hide Inv, Advances;
    var n := StepAdmit(w, worker, request, at);
    if n == w {
      Stays(w);
    } else {
      NewAtomicWorker(w, n, worker, n.atomic[worker].record, None);
    }
  }

  lemma InsertLegacyKeepsInv(w: World, worker: nat, request: Request, at: Timestamp)
    requires Inv(w)
    ensures var n := StepInsertLegacy(w, worker, request, at);
            Inv(n) && Advances(w, n)
  {
    hide Inv, Advances;
    var n := StepInsertLegacy(w, worker, request, at);
    if n == w {
      Stays(w);
    } else {
      NewLegacyWorker(w, n, worker, n.t.commands[request.commandId], n.legacy[worker]);
    }
  }

  // ----- legacy updates -----

  lemma LegacyRowOk(t: Tables, proposed: Command, expectedVersion: int)
    requires CommandInv(t.commands)
    requires CommandUnitOfWork.LegacyUpdate(t, proposed, expectedVersion).result.Ok?
    ensures var id, n := proposed.request.commandId, CommandUnitOfWork.LegacyUpdate(t, proposed, expectedVersion).tables;
            && id in t.commands && id in n.commands && n == t.(commands := t.commands[id := n.commands[id]])
            && CommandRow(id, n.commands[id])
            && n.commands[id].payload.request == t.commands[id].payload.request
            && n.commands[id].payload.owner == t.commands[id].payload.owner == Some(Legacy)
            && n.commands[id].version == t.commands[id].version + 1 <= 3
  {
    assert CommandRow(proposed.request.commandId, t.commands[proposed.request.commandId]);
  }

  lemma ReplaceLegacyRow(commands: map<string, Row<Command>>, id: string, row: Row<Command>)
    requires CommandInv(commands) && id in commands && CommandRow(id, row)
    requires row.payload.request == commands[id].payload.request
    requires row.payload.owner == commands[id].payload.owner == Some(Legacy) && row.version == commands[id].version + 1 <= 3
    ensures CommandInv(commands[id := row]) && CommandsAdvance(commands, commands[id := row])
    ensures forall c | c in commands[id := row] && commands[id := row][c].payload.owner == Some(AtomicControlOnly) ::
              c in commands && commands[id := row][c] == commands[c]
  {
    hide CommandRow;
  }

  /** A legacy update keeps identity and owner and moves the version by one; atomic rows are out of its reach. */
  lemma LegacyUpdateAdvances(t: Tables, proposed: Command, expectedVersion: int)
    requires CommandInv(t.commands)
    ensures var n := CommandUnitOfWork.LegacyUpdate(t, proposed, expectedVersion).tables;
            && n == t.(commands := n.commands)
            && CommandInv(n.commands) && CommandsAdvance(t.commands, n.commands)
            && (forall c | c in n.commands && n.commands[c].payload.owner == Some(AtomicControlOnly) ::
                  c in t.commands && n.commands[c] == t.commands[c])
  {
    hide CommandRow;
    var outcome := CommandUnitOfWork.LegacyUpdate(t, proposed, expectedVersion);
    if outcome.result.Ok? {
      var id := proposed.request.commandId;
      LegacyRowOk(t, proposed, expectedVersion);
      hide CommandRow, CommandUnitOfWork.LegacyUpdate, CommandInv;
      ReplaceLegacyRow(t.commands, id, outcome.tables.commands[id]);
    }
  }

  lemma LegacyUpdateKeepsTerminalEffects(w: World, proposed: Command, expectedVersion: int)
    requires Inv(w)
    ensures var n := CommandUnitOfWork.LegacyUpdate(w.t, proposed, expectedVersion).tables;
            TerminalEffects(w.t.effects, n.commands, w.t.consumptions)
  {
    var n := CommandUnitOfWork.LegacyUpdate(w.t, proposed, expectedVersion).tables;
    LegacyUpdateAdvances(w.t, proposed, expectedVersion);
    hide LedgerInv, FenceInv, CommandInv, ConsumptionInv, ControlInv, CheckpointInv, OutboxInv, WorkerInv,
         CommandUnitOfWork.LegacyUpdate, EffectCommands, TerminalEffects, CommandsAdvance, CommandUnitOfWork.EffectBacked;
    TerminalEffectsFollow(w.t.effects, w.t.commands, n.commands, w.t.consumptions);
  }

  lemma LegacyUpdateKeepsWorkers(w: World, proposed: Command, expectedVersion: int)
    requires Inv(w)
    ensures var n := CommandUnitOfWork.LegacyUpdate(w.t, proposed, expectedVersion).tables;
            WorkerInv(w.atomic, w.legacy, n.commands, w.history.checkpoints, w.history.controls, w.invoked)
  {
    hide LedgerInv, FenceInv, ConsumptionInv, ControlInv, CheckpointInv, OutboxInv, WorkerInv,
         CommandUnitOfWork.LegacyUpdate, EffectCommands, TerminalEffects, CommandsAdvance, CommandInv;
    var n := CommandUnitOfWork.LegacyUpdate(w.t, proposed, expectedVersion).tables;
    LegacyUpdateAdvances(w.t, proposed, expectedVersion);
    WorkerInvFollows(w.atomic, w.legacy, w.t.commands, n.commands, w.history.checkpoints, w.history.checkpoints,
                     w.history.controls, w.history.controls, w.invoked);
  }

  /** The table part of StartLegacy, FinishLegacy and ProposeLegacy, with any change of one legacy worker. */
  lemma LegacyUpdateStep(w: World, n: World, proposed: Command, expectedVersion: int)
    requires Inv(w)
    requires n == w.(t := CommandUnitOfWork.LegacyUpdate(w.t, proposed, expectedVersion).tables, legacy := n.legacy)
    requires WorkerInv(w.atomic, n.legacy, n.t.commands, w.history.checkpoints, w.history.controls, w.invoked)
    ensures Inv(n) && Advances(w, n)
  {
    hide LedgerInv, FenceInv, ConsumptionInv, ControlInv, CheckpointInv, OutboxInv, WorkerInv,
         CommandUnitOfWork.LegacyUpdate, EffectCommands, TerminalEffects, CommandsAdvance, CommandInv, Advances;
    LegacyUpdateAdvances(w.t, proposed, expectedVersion);
    LegacyUpdateKeepsTerminalEffects(w, proposed, expectedVersion);
    AssembleCommandStep(w, n);
  }

  lemma ProposeLegacyKeepsInv(w: World, proposed: Command, expectedVersion: int)
    requires Inv(w)
    ensures Inv(Step(w, ProposeLegacy(proposed, expectedVersion)))
    ensures Advances(w, Step(w, ProposeLegacy(proposed, expectedVersion)))
  {
    hide Inv, Advances, WorkerInv, CommandUnitOfWork.LegacyUpdate;
    LegacyUpdateKeepsWorkers(w, proposed, expectedVersion);
    LegacyUpdateStep(w, Step(w, ProposeLegacy(proposed, expectedVersion)), proposed, expectedVersion);
  }

  /** Winning the CAS from accepted means nobody runs the command yet. */
  lemma StartedWorkerOk(w: World, record: Command, at: Timestamp)
    requires Inv(w) && record.version == 1
    requires CommandUnitOfWork.LegacyUpdate(w.t, record.(status := Executing, updatedAt := at), 1).result.Ok?
    ensures var outcome := CommandUnitOfWork.LegacyUpdate(w.t, record.(status := Executing, updatedAt := at), 1);
            var running := Running(outcome.result.value);
            && LegacyWorkerOk(running, outcome.tables.commands, w.invoked)
            && forall v | v in w.legacy && w.legacy[v].Running? ::
                 w.legacy[v].record.request.commandId != running.record.request.commandId
  {
    hide LedgerInv, FenceInv, ConsumptionInv, ControlInv, CheckpointInv, OutboxInv, EffectCommands, TerminalEffects;
    var id := record.request.commandId;
    assert CommandRow(id, w.t.commands[id]);
    assert w.t.commands[id].version == 1;
    forall v | v in w.legacy && w.legacy[v].Running? ensures w.legacy[v].record.request.commandId != id {
      assert LegacyWorkerOk(w.legacy[v], w.t.commands, w.invoked);
    }
  }

  lemma StartLegacyKeepsInv(w: World, worker: nat, at: Timestamp)
    requires Inv(w)
    ensures Inv(StepStartLegacy(w, worker, at)) && Advances(w, StepStartLegacy(w, worker, at))
  {
    var n := StepStartLegacy(w, worker, at);
    assert LegacyAt(w, worker).Inserted? ==> LegacyAt(w, worker).record.version == 1 by {
      if worker in w.legacy {
        assert LegacyWorkerOk(w.legacy[worker], w.t.commands, w.invoked);
      }
    }
    hide LedgerInv, FenceInv, ConsumptionInv, ControlInv, CheckpointInv, OutboxInv, EffectCommands, TerminalEffects,
         CommandInv, WorkerInv, CommandsAdvance, Advances, CommandUnitOfWork.LegacyUpdate, LegacyWorkerOk;
    match LegacyAt(w, worker) {
      case Inserted(record) =>
        var proposed := record.(status := Executing, updatedAt := at);
        var outcome := CommandUnitOfWork.LegacyUpdate(w.t, proposed, 1);
        LegacyUpdateKeepsWorkers(w, proposed, 1);
        if outcome.result.Denied? {
          SetLegacyIdle(w, worker);
        } else {
          StartedWorkerOk(w, record, at);
          SetLegacy(w.atomic, w.legacy, outcome.tables.commands, w.history.checkpoints, w.history.controls, w.invoked,
                    worker, Running(outcome.result.value));
          LegacyUpdateStep(w, n, proposed, 1);
        }
      case _ => Stays(w);
    }
  }

  lemma FinishLegacyKeepsInv(w: World, worker: nat, at: Timestamp)
    requires Inv(w)
    ensures Inv(StepFinishLegacy(w, worker, at)) && Advances(w, StepFinishLegacy(w, worker, at))
  {
    var n := StepFinishLegacy(w, worker, at);
    hide LedgerInv, FenceInv, ConsumptionInv, ControlInv, CheckpointInv, OutboxInv, EffectCommands, TerminalEffects,
         CommandInv, WorkerInv, CommandsAdvance, Advances, CommandUnitOfWork.LegacyUpdate;
    match LegacyAt(w, worker) {
      case Returned(record, status, reason, snapshot) =>
        var proposed := record.(status := status, resultReason := Some(reason), resultSnapshot := snapshot, updatedAt := at);
        LegacyUpdateKeepsWorkers(w, proposed, record.version);
        SetLegacy(w.atomic, w.legacy, n.t.commands, w.history.checkpoints, w.history.controls, w.invoked, worker, LegacyIdle);
        LegacyUpdateStep(w, n, proposed, record.version);
      case _ => Stays(w);
    }
  }

  // ----- moves of the workers alone -----

  lemma AssembleWorkerStep(w: World, n: World)
    requires Inv(w)
    requires n == w.(atomic := n.atomic, legacy := n.legacy, invoked := n.invoked) && w.invoked <= n.invoked
    requires WorkerInv(n.atomic, n.legacy, n.t.commands, n.history.checkpoints, n.history.controls, n.invoked)
    ensures Inv(n) && Advances(w, n)
  {
    hide LedgerInv, FenceInv, ConsumptionInv, ControlInv, CheckpointInv, OutboxInv, EffectCommands, TerminalEffects,
         CommandInv, WorkerInv;
  }

  lemma SetLegacyIdle(w: World, worker: nat)
    requires Inv(w)
    ensures var n := w.(legacy := w.legacy[worker := LegacyIdle]);
            Inv(n) && Advances(w, n)
  {
    hide LedgerInv, FenceInv, ConsumptionInv, ControlInv, CheckpointInv, OutboxInv, EffectCommands, TerminalEffects,
         CommandInv, WorkerInv, Advances;
    var n := w.(legacy := w.legacy[worker := LegacyIdle]);
    SetLegacy(w.atomic, w.legacy, w.t.commands, w.history.checkpoints, w.history.controls, w.invoked, worker, LegacyIdle);
    AssembleWorkerStep(w, n);
  }

  /** A worker that keeps its record may move on. */
  lemma MoveAtomic(w: World, worker: nat, a: AtomicWorker)
    requires Inv(w)
    requires AtomicWorkerOk(a, w.t.commands, w.history.checkpoints, w.history.controls, w.invoked)
    requires !a.AtomicIdle? ==> worker in w.atomic && !w.atomic[worker].AtomicIdle? && w.atomic[worker].record == a.record
    ensures var n := w.(atomic := w.atomic[worker := a]);
            Inv(n) && Advances(w, n)
  {
    assert AtomicExclusive(w.atomic);
    hide LedgerInv, FenceInv, ConsumptionInv, ControlInv, CheckpointInv, OutboxInv, EffectCommands, TerminalEffects,
         CommandInv, WorkerInv, Advances, AtomicWorkerOk;
    var n := w.(atomic := w.atomic[worker := a]);
    SetAtomic(w.atomic, w.legacy, w.t.commands, w.history.checkpoints, w.history.controls, w.invoked, worker, a);
    AssembleWorkerStep(w, n);
  }

  /** What is stored now is the last entry of its log. */
  lemma StoredCheckpointLogged(w: World, run: string)
    requires CheckpointInv(w.t.checkpoints, w.history.checkpoints) && run in w.t.checkpoints
    ensures ReadLogged(run, w.t.checkpoints[run].payload, w.history.checkpoints)
    ensures w.t.checkpoints[run].version == |Log(w.history.checkpoints, run)|
  {
    assert CheckpointLog(run, w.history.checkpoints[run]);
  }

  lemma StoredControlLogged(w: World, run: string)
    requires ControlInv(w.t.controls, w.history.controls, w.t.commands)
    ensures ControlReadLogged(run, CommandUnitOfWork.StoredControl(w.t, run), w.history.controls)
    ensures CommandUnitOfWork.ControlVersionOf(w.t, run) == |Log(w.history.controls, run)|
  {
    if run in w.t.controls {
      var log := w.history.controls[run];
      assert ControlLog(run, log, w.t.commands);
      assert ControlEntry(run, log, |log| - 1, w.t.commands);
    }
  }

  lemma AtomicWorkerKnows(w: World, worker: nat)
    requires WorkerInv(w.atomic, w.legacy, w.t.commands, w.history.checkpoints, w.history.controls, w.invoked)
    ensures AtomicWorkerOk(AtomicAt(w, worker), w.t.commands, w.history.checkpoints, w.history.controls, w.invoked)
  {
    hide AtomicWorkerOk;
    if worker !in w.atomic {
      IdleWorkerOk(w);
    }
  }

  lemma IdleWorkerOk(w: World)
    ensures AtomicWorkerOk(AtomicIdle, w.t.commands, w.history.checkpoints, w.history.controls, w.invoked)
  {
  }

  lemma LegacyWorkersKnow(w: World)
    requires WorkerInv(w.atomic, w.legacy, w.t.commands, w.history.checkpoints, w.history.controls, w.invoked)
    ensures forall v | v in w.legacy :: LegacyWorkerOk(w.legacy[v], w.t.commands, w.invoked)
  {
  }

  lemma ReadCheckpointKeepsInv(w: World, worker: nat)
    requires Inv(w)
    ensures Inv(StepReadCheckpoint(w, worker)) && Advances(w, StepReadCheckpoint(w, worker))
  {
    hide LedgerInv, FenceInv, CommandInv, EffectCommands, TerminalEffects, ConsumptionInv, ControlInv, CheckpointInv,
         OutboxInv, WorkerInv, Advances;
    Stays(w);
    match AtomicAt(w, worker) {
      case Admitted(record, evidence) =>
        var run := record.request.runId;
        AtomicWorkerKnows(w, worker);
        IdleWorkerOk(w);
        if run in w.t.checkpoints {
          StoredCheckpointLogged(w, run);
          MoveAtomic(w, worker, CheckpointRead(record, evidence, w.t.checkpoints[run].payload));
        } else {
          MoveAtomic(w, worker, AtomicIdle);
        }
      case _ =>
    }
  }

  lemma ReadControlKeepsInv(w: World, worker: nat)
    requires Inv(w)
    ensures Inv(StepReadControl(w, worker)) && Advances(w, StepReadControl(w, worker))
  {
    hide LedgerInv, FenceInv, CommandInv, EffectCommands, TerminalEffects, ConsumptionInv, ControlInv, CheckpointInv,
         OutboxInv, WorkerInv, Advances;
    Stays(w);
    match AtomicAt(w, worker) {
      case CheckpointRead(record, evidence, checkpoint) =>
        var run := record.request.runId;
        AtomicWorkerKnows(w, worker);
        StoredControlLogged(w, run);
        MoveAtomic(w, worker, StateRead(record, evidence, checkpoint, CommandUnitOfWork.StoredControl(w.t, run)));
      case _ =>
    }
  }

  /** Only the exclusive holder appends a command id to the invocation log, and only once. */
  lemma InvokeKeepsWorkers(w: World, n: World, id: string)
    requires WorkerInv(w.atomic, w.legacy, w.t.commands, w.history.checkpoints, w.history.controls, w.invoked)
    requires id !in w.invoked && id in w.t.commands && w.t.commands[id].version >= 2
    requires n.invoked == w.invoked + [id]
    requires forall v | v in n.atomic :: v in w.atomic || n.atomic[v].AtomicIdle?
    requires forall v | v in n.atomic && v in w.atomic && n.atomic[v] != w.atomic[v] ::
               n.atomic[v].Authorized? && w.atomic[v].StateRead? && n.atomic[v].record == w.atomic[v].record
               && n.atomic[v].checkpoint == w.atomic[v].checkpoint && n.atomic[v].control == w.atomic[v].control
               && w.atomic[v].record.request.commandId == id
    requires forall v | v in n.atomic && v in w.atomic && n.atomic[v] == w.atomic[v] && !w.atomic[v].AtomicIdle? ::
               w.atomic[v].record.request.commandId != id
    requires forall v | v in n.legacy :: v in w.legacy
    requires forall v | v in n.legacy && n.legacy[v] != w.legacy[v] ::
               n.legacy[v].Returned? && w.legacy[v].Running? && n.legacy[v].record == w.legacy[v].record
               && w.legacy[v].record.request.commandId == id
    requires forall v | v in n.legacy && n.legacy[v] == w.legacy[v] && w.legacy[v].Running? ::
               w.legacy[v].record.request.commandId != id
    ensures WorkerInv(n.atomic, n.legacy, w.t.commands, w.history.checkpoints, w.history.controls, n.invoked)
  {
    forall v | v in n.atomic
      ensures AtomicWorkerOk(n.atomic[v], w.t.commands, w.history.checkpoints, w.history.controls, n.invoked)
    {
      if v in w.atomic {
        assert AtomicWorkerOk(w.atomic[v], w.t.commands, w.history.checkpoints, w.history.controls, w.invoked);
      }
    }
    forall v | v in n.legacy ensures LegacyWorkerOk(n.legacy[v], w.t.commands, n.invoked) {
      assert LegacyWorkerOk(w.legacy[v], w.t.commands, w.invoked);
    }
  }

  /** Two holders of one command id are the same worker, and the two routes never hold the same one. */
  lemma HoldersAreExclusive(w: World, id: string)
    requires WorkerInv(w.atomic, w.legacy, w.t.commands, w.history.checkpoints, w.history.controls, w.invoked)
    requires id in w.t.commands
    ensures w.t.commands[id].payload.owner == Some(AtomicControlOnly) ==>
        forall v | v in w.legacy && w.legacy[v].Running? :: w.legacy[v].record.request.commandId != id
    ensures w.t.commands[id].payload.owner == Some(Legacy) ==>
        forall v | v in w.atomic && !w.atomic[v].AtomicIdle? :: w.atomic[v].record.request.commandId != id
    ensures forall u, v | u in w.atomic && v in w.atomic && !w.atomic[u].AtomicIdle? && !w.atomic[v].AtomicIdle? ::
        w.atomic[u].record.request.commandId == w.atomic[v].record.request.commandId ==> u == v
    ensures forall u, v | u in w.legacy && v in w.legacy && w.legacy[u].Running? && w.legacy[v].Running? ::
        w.legacy[u].record.request.commandId == w.legacy[v].record.request.commandId ==> u == v
  {
    forall v | v in w.legacy && w.legacy[v].Running? && w.legacy[v].record.request.commandId == id
      ensures w.t.commands[id].payload.owner == Some(Legacy)
    {
      assert LegacyWorkerOk(w.legacy[v], w.t.commands, w.invoked);
    }
    forall v | v in w.atomic && !w.atomic[v].AtomicIdle? && w.atomic[v].record.request.commandId == id
      ensures w.t.commands[id].payload.owner == Some(AtomicControlOnly)
    {
      assert AtomicWorkerOk(w.atomic[v], w.t.commands, w.history.checkpoints, w.history.controls, w.invoked);
    }
  }

  lemma AuthorizeKeepsInv(w: World, worker: nat, decision: Decision)
    requires Inv(w)
    ensures Inv(StepAuthorize(w, worker, decision)) && Advances(w, StepAuthorize(w, worker, decision))
  {
    hide LedgerInv, FenceInv, CommandInv, EffectCommands, TerminalEffects, ConsumptionInv, ControlInv, CheckpointInv,
         OutboxInv, WorkerInv, Advances;
    var n := StepAuthorize(w, worker, decision);
    Stays(w);
    match AtomicAt(w, worker) {
      case StateRead(record, evidence, checkpoint, control) =>
        AtomicWorkerKnows(w, worker);
        HoldersAreExclusive(w, record.request.commandId);
        InvokeKeepsWorkers(w, n, record.request.commandId);
        AssembleWorkerStep(w, n);
      case _ =>
    }
  }

  lemma InvokeLegacyKeepsInv(w: World, worker: nat, status: CommandStatus, reason: ResultReason, snapshot: Option<Snapshot>)
    requires Inv(w)
    ensures var n := StepInvokeLegacy(w, worker, status, reason, snapshot);
            Inv(n) && Advances(w, n)
  {
    hide LedgerInv, FenceInv, CommandInv, EffectCommands, TerminalEffects, ConsumptionInv, ControlInv, CheckpointInv,
         OutboxInv, WorkerInv, Advances;
    var n := StepInvokeLegacy(w, worker, status, reason, snapshot);
    Stays(w);
    match LegacyAt(w, worker) {
      case Running(record) =>
        LegacyWorkersKnow(w);
        HoldersAreExclusive(w, record.request.commandId);
        InvokeKeepsWorkers(w, n, record.request.commandId);
        AssembleWorkerStep(w, n);
      case _ =>
    }
  }

  lemma CrashKeepsInv(w: World, worker: nat)
    requires Inv(w)
    ensures Inv(Step(w, Crash(worker))) && Advances(w, Step(w, Crash(worker)))
  {
    hide LedgerInv, FenceInv, ConsumptionInv, ControlInv, CheckpointInv, OutboxInv, EffectCommands, TerminalEffects,
         CommandInv, Advances, WorkerInv;
    SetAtomic(w.atomic, w.legacy, w.t.commands, w.history.checkpoints, w.history.controls, w.invoked, worker, AtomicIdle);
    SetLegacy(w.atomic[worker := AtomicIdle], w.legacy, w.t.commands, w.history.checkpoints, w.history.controls, w.invoked,
              worker, LegacyIdle);
    AssembleWorkerStep(w, Step(w, Crash(worker)));
  }
}
