/** What survives when command rows only advance. */
module CommandLinks {
  import opened Text
  import opened Records
  import opened Database
  import opened World
  import opened Invariants
  import ReceiptFinalizer
  import CommandUnitOfWork

  lemma EffectCommandsFollow(effects: map<string, Effect>, a: map<string, Row<Command>>, b: map<string, Row<Command>>)
    requires EffectCommands(effects, a) && CommandsAdvance(a, b)
    ensures EffectCommands(effects, b)
  {
    forall e | e in effects ensures effects[e].intent.command.commandId in b {
      assert effects[e].intent.command.commandId in a;
    }
  }

  /** An atomic command only becomes terminal here when no effect belongs to it. */
  lemma TerminalEffectsFollow(effects: map<string, Effect>, a: map<string, Row<Command>>, b: map<string, Row<Command>>,
                              consumptions: map<string, Consumption>)
    requires EffectCommands(effects, a) && TerminalEffects(effects, a, consumptions)
    requires forall c | c in b && b[c].version == 3 && b[c].payload.owner == Some(AtomicControlOnly) ::
               (c in a && a[c].version == 3) || !CommandUnitOfWork.EffectBacked(effects, c)
    requires CommandsAdvance(a, b)
    ensures TerminalEffects(effects, b, consumptions)
  {
    forall e | e in effects && effects[e].intent.owner == AtomicControlOnly
      ensures var id := effects[e].intent.command.commandId;
              id in b && b[id].version == 3 ==> ConsumedBy(consumptions, id)
    {
      var id := effects[e].intent.command.commandId;
      assert id in a && a[id].payload.owner == Some(AtomicControlOnly);
    }
  }

  lemma ControlEntryFollows(runId: string, log: seq<Control>, i: nat, a: map<string, Row<Command>>, b: map<string, Row<Command>>)
    requires i < |log| && ControlEntry(runId, log, i, a) && CommandsAdvance(a, b)
    ensures ControlEntry(runId, log, i, b)
  {
    assert b[log[i].causedBy.value] == a[log[i].causedBy.value];
  }

  lemma ControlLogFollows(runId: string, log: seq<Control>, a: map<string, Row<Command>>, b: map<string, Row<Command>>)
    requires ControlLog(runId, log, a) && CommandsAdvance(a, b)
    ensures ControlLog(runId, log, b)
  {
    hide CommandsAdvance, ControlEntry;
    forall i: nat | i < |log| ensures ControlEntry(runId, log, i, b) {
      ControlEntryFollows(runId, log, i, a, b);
    }
  }

  lemma ControlInvFollows(controls: map<string, Row<Control>>, logs: map<string, seq<Control>>,
                          a: map<string, Row<Command>>, b: map<string, Row<Command>>)
    requires ControlInv(controls, logs, a) && CommandsAdvance(a, b)
    ensures ControlInv(controls, logs, b)
  {
    hide CommandsAdvance, ControlLog;
    forall r | r in logs ensures ControlLog(r, logs[r], b) {
      ControlLogFollows(r, logs[r], a, b);
    }
  }

  lemma OutboxCommandsFollow(outbox: map<string, OutboxRow>, a: map<string, Row<Command>>, b: map<string, Row<Command>>)
    requires OutboxCommands(outbox, a) && CommandsAdvance(a, b)
    ensures OutboxCommands(outbox, b)
  {
    hide TerminalRow, ReceiptRow;
    forall o | o in outbox ensures outbox[o].commandId in b && b[outbox[o].commandId] == a[outbox[o].commandId] {
      assert outbox[o].commandId in a && a[outbox[o].commandId].version == 3;
    }
  }

  lemma TerminalEventFollows(a: map<string, OutboxRow>, b: map<string, OutboxRow>, request: Request,
                             receiptId: string, providerId: string)
    requires OutboxAdvances(a, b) && ReceiptFinalizer.TerminalEventStored(a, request, receiptId, providerId)
    ensures ReceiptFinalizer.TerminalEventStored(b, request, receiptId, providerId)
  {
    var id := ReceiptOutboxId(request.commandId);
    assert SameEvent(a[id], b[id]);
  }

  lemma ConsumptionInvFollows(consumptions: map<string, Consumption>, effects: map<string, Effect>,
                              a: map<string, Row<Command>>, b: map<string, Row<Command>>,
                              outboxA: map<string, OutboxRow>, outboxB: map<string, OutboxRow>,
                              logsA: map<string, seq<Control>>, logsB: map<string, seq<Control>>)
    requires ConsumptionInv(consumptions, effects, a, outboxA, logsA)
    requires CommandsAdvance(a, b) && OutboxAdvances(outboxA, outboxB) && LogsGrow(logsA, logsB)
    ensures ConsumptionInv(consumptions, effects, b, outboxB, logsB)
  {
    hide OutboxAdvances, ReceiptFinalizer.TerminalEventStored;
    forall e | e in consumptions && e in effects
      ensures var row, request := consumptions[e], effects[e].intent.command;
              && request.commandId in b && b[request.commandId] == a[request.commandId]
              && ReceiptFinalizer.TerminalEventStored(outboxB, request, row.receiptId, row.providerId)
              && 1 <= row.controlVersion <= |Log(logsB, request.runId)|
              && Log(logsB, request.runId)[row.controlVersion - 1].causedBy == Some(request.commandId)
    {
      var row, request := consumptions[e], effects[e].intent.command;
      TerminalEventFollows(outboxA, outboxB, request, row.receiptId, row.providerId);
      assert Log(logsA, request.runId) <= Log(logsB, request.runId);
    }
  }

  // ----- workers -----

  lemma HeldRecordFollows(record: Command, owner: Owner, a: map<string, Row<Command>>, b: map<string, Row<Command>>)
    requires HeldRecord(record, owner, a) && CommandsAdvance(a, b)
    ensures HeldRecord(record, owner, b)
    ensures owner == AtomicControlOnly ==>
        b[record.request.commandId].payload.fenced == a[record.request.commandId].payload.fenced
  {
  }

  lemma AtomicWorkerFollows(worker: AtomicWorker, a: map<string, Row<Command>>, b: map<string, Row<Command>>,
                            cpA: map<string, seq<Checkpoint>>, cpB: map<string, seq<Checkpoint>>,
                            ctA: map<string, seq<Control>>, ctB: map<string, seq<Control>>, invoked: seq<string>)
    requires AtomicWorkerOk(worker, a, cpA, ctA, invoked)
    requires CommandsAdvance(a, b) && LogsGrow(cpA, cpB) && LogsGrow(ctA, ctB)
    ensures AtomicWorkerOk(worker, b, cpB, ctB, invoked)
  {
    if !worker.AtomicIdle? {
      var run := worker.record.request.runId;
      HeldRecordFollows(worker.record, AtomicControlOnly, a, b);
      assert Log(cpA, run) <= Log(cpB, run);
      assert Log(ctA, run) <= Log(ctB, run);
    }
  }

  lemma LegacyWorkerFollows(worker: LegacyWorker, a: map<string, Row<Command>>, b: map<string, Row<Command>>, invoked: seq<string>)
    requires LegacyWorkerOk(worker, a, invoked) && CommandsAdvance(a, b)
    ensures LegacyWorkerOk(worker, b, invoked)
  {
    if worker.Running? || worker.Returned? {
      HeldRecordFollows(worker.record, Legacy, a, b);
    }
  }

  lemma WorkerInvFollows(atomic: map<nat, AtomicWorker>, legacy: map<nat, LegacyWorker>,
                         a: map<string, Row<Command>>, b: map<string, Row<Command>>,
                         cpA: map<string, seq<Checkpoint>>, cpB: map<string, seq<Checkpoint>>,
                         ctA: map<string, seq<Control>>, ctB: map<string, seq<Control>>, invoked: seq<string>)
    requires WorkerInv(atomic, legacy, a, cpA, ctA, invoked)
    requires CommandsAdvance(a, b) && LogsGrow(cpA, cpB) && LogsGrow(ctA, ctB)
    ensures WorkerInv(atomic, legacy, b, cpB, ctB, invoked)
  {
    assert InvokedStarted(invoked, b);
    hide CommandsAdvance, LogsGrow, AtomicWorkerOk, LegacyWorkerOk, AtomicExclusive, LegacyExclusive, InvokedOnce, InvokedStarted;
    forall w | w in atomic ensures AtomicWorkerOk(atomic[w], b, cpB, ctB, invoked) {
      AtomicWorkerFollows(atomic[w], a, b, cpA, cpB, ctA, ctB, invoked);
    }
    forall w | w in legacy ensures LegacyWorkerOk(legacy[w], b, invoked) {
      LegacyWorkerFollows(legacy[w], a, b, invoked);
    }
  }

  lemma SetAtomic(atomic: map<nat, AtomicWorker>, legacy: map<nat, LegacyWorker>, commands: map<string, Row<Command>>,
                  cp: map<string, seq<Checkpoint>>, ct: map<string, seq<Control>>, invoked: seq<string>,
                  worker: nat, a: AtomicWorker)
    requires WorkerInv(atomic, legacy, commands, cp, ct, invoked)
    requires AtomicWorkerOk(a, commands, cp, ct, invoked)
    requires !a.AtomicIdle? ==>
               forall v | v in atomic && v != worker && !atomic[v].AtomicIdle? ::
                 atomic[v].record.request.commandId != a.record.request.commandId
    ensures WorkerInv(atomic[worker := a], legacy, commands, cp, ct, invoked)
  {
    hide AtomicWorkerOk, LegacyWorkerOk, LegacyExclusive, InvokedOnce, InvokedStarted;
  }

  lemma SetLegacy(atomic: map<nat, AtomicWorker>, legacy: map<nat, LegacyWorker>, commands: map<string, Row<Command>>,
                  cp: map<string, seq<Checkpoint>>, ct: map<string, seq<Control>>, invoked: seq<string>,
                  worker: nat, l: LegacyWorker)
    requires WorkerInv(atomic, legacy, commands, cp, ct, invoked)
    requires LegacyWorkerOk(l, commands, invoked)
    requires l.Running? ==>
               forall v | v in legacy && v != worker && legacy[v].Running? ::
                 legacy[v].record.request.commandId != l.record.request.commandId
    ensures WorkerInv(atomic, legacy[worker := l], commands, cp, ct, invoked)
  {
    hide AtomicWorkerOk, LegacyWorkerOk, AtomicExclusive, InvokedOnce, InvokedStarted;
  }
}
