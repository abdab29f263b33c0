/** The legacy route: insert or claim, run the business executor once, record how it ended. */
module Orchestrator {
  import opened Text
  import opened Records
  import opened Database
  import opened CommandUnitOfWork
  import opened Invariants
  import ClaimAnswers
  import RecoveryOperations
  import World

  datatype Execution =
    | ExecutedNew(record: Command, snapshot: Option<Snapshot>)
    | ReplayedTerminal(record: Command, snapshot: Option<Snapshot>)
    | LeftInFlight(record: Command, facts: Facts)

  datatype OrchestratorDenial =
    | WrongOwner
    | IdentityBound
    | CommandLost
    | CheckpointNotFound
    | NotExecutingV2
    | StoreRefused(reason: CommandDenial)

  /** Where a run stands, for a command that is left in flight. */
  datatype Facts = Facts(checkpointVersion: int, boundary: Boundary, controlVersion: int, controlStatus: ControlStatus)

  /** What the checkpoint store and the control store, which are the caller's own, hold for the run when they are asked. */
  datatype Stored = Stored(checkpoint: Option<Checkpoint>, control: Option<Control>)

  type Answer = Outcome<Execution, OrchestratorDenial>

  /** What each statement finds when rivals have run since the one before it. */
  datatype Rivals = Rivals(
    beforeInsert: Tables,
    afterInsert: Tables,
    beforeStart: Tables,
    afterLostStart: Tables,
    afterExecutor: Tables,
    afterLostRecord: Tables,
    beforeFailed: Tables,
    afterLostFailed: Tables,
    stored: Stored)

  ghost predicate RivalsKeepSchema(rivals: Rivals) {
    && Schema(rivals.beforeInsert) && Schema(rivals.afterInsert) && Schema(rivals.beforeStart) && Schema(rivals.afterLostStart)
    && Schema(rivals.afterExecutor) && Schema(rivals.afterLostRecord)
    && Schema(rivals.beforeFailed) && Schema(rivals.afterLostFailed)
  }

  /** What the executor did: its result, or None when it threw; `failure` is the message a failed record would carry. */
  datatype Executed = Executed(result: Option<RecoveryOperations.OperationResult>, failure: ResultReason)

  function SnapshotOf(result: RecoveryOperations.OperationResult): Snapshot {
    Snapshot(result.status, result.reason, result.checkpoint.version, result.control.version)
  }

  function FinishedDraft(record: Command, result: RecoveryOperations.OperationResult, at: Timestamp): Command {
    record.(status := if result.status == Refused then Rejected else Succeeded, resultReason := Some(result.reason),
            resultSnapshot := Some(SnapshotOf(result)), updatedAt := at)
  }

  function FailedDraft(record: Command, failure: ResultReason, at: Timestamp): Command {
    record.(status := Failed, resultReason := Some(failure), updatedAt := at)
  }

  function DraftOf(record: Command, executed: Executed, at: Timestamp): Command {
    if executed.result.Some? then FinishedDraft(record, executed.result.value, at) else FailedDraft(record, executed.failure, at)
  }

  function CurrentFacts(stored: Stored): Result<Facts, OrchestratorDenial> {
    if stored.checkpoint.None? then Denied(CheckpointNotFound)
    else Ok(Facts(stored.checkpoint.value.version, stored.checkpoint.value.boundary,
                  if stored.control.Some? then stored.control.value.version else 0,
                  if stored.control.Some? then stored.control.value.status else Active))
  }

  function InFlight(record: Command, stored: Stored): Result<Execution, OrchestratorDenial> {
    match CurrentFacts(stored)
    case Denied(reason) => Denied(reason)
    case Ok(facts) => Ok(LeftInFlight(record, facts))
  }

  /** What a stored command is answered with when this call may not run it. */
  function RouteExisting(t: Tables, request: Request, stored: Stored): Result<Execution, OrchestratorDenial> {
    if request.commandId !in t.commands then Denied(CommandLost)
    else
      var record := t.commands[request.commandId].payload;
      match Decide(Some(record), request)
      case Denied(_) => Denied(IdentityBound)
      case Ok(decision) =>
        if decision.ReplayTerminal? then Ok(ReplayedTerminal(record, record.resultSnapshot)) else InFlight(record, stored)
  }

  // ----- before the executor -----

  /** Either this call may run the executor for the record it has started, or it is answered already. */
  datatype Beginning = MayRun(record: Command) | Answered(answer: Answer)

  function Begin(t: Tables, request: Request, rivals: Rivals, insertedAt: Timestamp, startedAt: Timestamp): Beginning {
    if request.commandId in t.commands then Answered(Outcome(t, RouteExisting(t, request, rivals.stored)))
    else if LegacyInsert(rivals.beforeInsert, request, insertedAt).result != Ok(true) then
      Answered(Outcome(rivals.afterInsert, RouteExisting(rivals.afterInsert, request, rivals.stored)))
    else if request.commandId !in rivals.afterInsert.commands then Answered(Outcome(rivals.afterInsert, Denied(CommandLost)))
    else
      var current := rivals.afterInsert.commands[request.commandId].payload;
      var started := LegacyUpdate(rivals.beforeStart, current.(status := Executing, updatedAt := startedAt), current.version);
      match started.result
      case Ok(record) => MayRun(record)
      case Denied(VersionConflict) => Answered(Outcome(rivals.afterLostStart, RouteExisting(rivals.afterLostStart, request, rivals.stored)))
      case Denied(reason) => Answered(Outcome(started.tables, Denied(StoreRefused(reason))))
  }

  function BeginClaimed(t: Tables, request: Request, claimedOwner: Owner, claim: ClaimAnswer, stored: Stored): Beginning {
    if claimedOwner != Legacy || claim.record.owner != Some(Legacy) then Answered(Outcome(t, Denied(WrongOwner)))
    else if Decide(Some(claim.record), request).Denied? then Answered(Outcome(t, Denied(IdentityBound)))
    else
      match claim
      case Replayed(record, snapshot) => Answered(Outcome(t, Ok(ReplayedTerminal(record, Some(snapshot)))))
      case Suspended(record) => Answered(Outcome(t, InFlight(record, stored)))
      case ClaimedExecuting(record, _) =>
        if record.status != Executing || record.version != 2 then Answered(Outcome(t, Denied(NotExecutingV2))) else MayRun(record)
  }

  // ----- after the executor -----

  /** The outer catch: record the failure in `found`, or answer with what `afterLost` holds. */
  function RecordFailure(request: Request, record: Command, failure: ResultReason, found: Tables, afterLost: Tables, stored: Stored,
                         at: Timestamp): Answer {
    var update := LegacyUpdate(found, FailedDraft(record, failure, at), record.version);
    match update.result
    case Ok(saved) => Outcome(update.tables, Ok(ExecutedNew(saved, None)))
    case Denied(VersionConflict) => Outcome(afterLost, RouteExisting(afterLost, request, stored))
    case Denied(reason) => Outcome(update.tables, Denied(StoreRefused(reason)))
  }

  /**
   * The inner try lies inside the outer one: a refused save, and a command that is gone after a lost
   * one, end in the outer catch and are recorded as a failure.
   */
  function Record(request: Request, record: Command, executed: Executed, rivals: Rivals, at: Timestamp): Answer {
    match executed.result
    case None => RecordFailure(request, record, executed.failure, rivals.afterExecutor, rivals.afterLostRecord, rivals.stored, at)
    case Some(result) =>
      var update := LegacyUpdate(rivals.afterExecutor, FinishedDraft(record, result, at), record.version);
      if update.result.Ok? then Outcome(update.tables, Ok(ExecutedNew(update.result.value, Some(SnapshotOf(result)))))
      else if update.result == Denied(VersionConflict) && request.commandId in rivals.afterLostRecord.commands then
        Outcome(rivals.afterLostRecord, RouteExisting(rivals.afterLostRecord, request, rivals.stored))
      else RecordFailure(request, record, executed.failure, rivals.beforeFailed, rivals.afterLostFailed, rivals.stored, at)
  }

  function Finish(beginning: Beginning, request: Request, executed: Executed, rivals: Rivals, at: Timestamp): Answer {
    match beginning
    case Answered(answer) => answer
    case MayRun(record) => Record(request, record, executed, rivals, at)
  }

  class DurableRecoveryOperationOrchestrator {
    const file: SqliteFile
    const unitOfWork: SQLiteRecoveryFinalizationUnitOfWork

    constructor (file: SqliteFile, unitOfWork: SQLiteRecoveryFinalizationUnitOfWork)
      requires unitOfWork.file == file
      ensures this.file == file && this.unitOfWork == unitOfWork
    {
      this.file := file;
      this.unitOfWork := unitOfWork;
    }

    /** Other connections ran between two of our statements and left the tables as `found`. */
    method OthersRan(found: Tables)
      requires Schema(found)
      modifies file
      ensures file.tables == found
    {
      file.tables := found;
    }

    method CatchFailure(request: Request, record: Command, failure: ResultReason, afterLost: Tables, stored: Stored, at: Timestamp)
      returns (answer: Result<Execution, OrchestratorDenial>)
      requires unitOfWork.file == file && Schema(file.tables) && Schema(afterLost)
      modifies file
      ensures Outcome(file.tables, answer) == RecordFailure(request, record, failure, old(file.tables), afterLost, stored, at)
    {
      var saved := unitOfWork.UpdateLegacyCommandIfVersion(FailedDraft(record, failure, at), record.version);
      if saved.Ok? {
        return Ok(ExecutedNew(saved.value, None));
      }
      if saved.reason == VersionConflict {
        OthersRan(afterLost);
        return RouteExisting(file.tables, request, stored);
      }
      answer := Denied(StoreRefused(saved.reason));
    }

    /** From the executor on; the executor itself is what `executed` says. */
    method ExecuteAlreadyClaimed(request: Request, record: Command, executed: Executed, rivals: Rivals, at: Timestamp)
      returns (answer: Result<Execution, OrchestratorDenial>)
      requires unitOfWork.file == file && RivalsKeepSchema(rivals)
      modifies file
      ensures Outcome(file.tables, answer) == Record(request, record, executed, rivals, at)
    {
      OthersRan(rivals.afterExecutor);
      if executed.result.None? {
        answer := CatchFailure(request, record, executed.failure, rivals.afterLostRecord, rivals.stored, at);
        return;
      }
      var result := executed.result.value;
      var saved := unitOfWork.UpdateLegacyCommandIfVersion(FinishedDraft(record, result, at), record.version);
      if saved.Ok? {
        return Ok(ExecutedNew(saved.value, Some(SnapshotOf(result))));
      }
      if saved.reason == VersionConflict {
        OthersRan(rivals.afterLostRecord);
        if request.commandId in file.tables.commands {
          return RouteExisting(file.tables, request, rivals.stored);
        }
      }
      OthersRan(rivals.beforeFailed);
      answer := CatchFailure(request, record, executed.failure, rivals.afterLostFailed, rivals.stored, at);
    }

    /** The unclaimed entry. `ran` says whether the executor was reached. */
    method ExecuteCommand(request: Request, executed: Executed, rivals: Rivals,
                          insertedAt: Timestamp, startedAt: Timestamp, at: Timestamp)
      returns (answer: Result<Execution, OrchestratorDenial>, ran: bool)
      requires unitOfWork.file == file && Schema(file.tables) && RivalsKeepSchema(rivals)
      modifies file
      ensures var beginning := Begin(old(file.tables), request, rivals, insertedAt, startedAt);
              && ran == beginning.MayRun?
              && Outcome(file.tables, answer) == Finish(beginning, request, executed, rivals, at)
    {
      hide Record, LegacyUpdate, RouteExisting, Schema, Decide;
      if request.commandId in file.tables.commands {
        return RouteExisting(file.tables, request, rivals.stored), false;
      }
      OthersRan(rivals.beforeInsert);
      var inserted := unitOfWork.InsertLegacyCommandIfAbsent(LegacyRecord(request, insertedAt));
      OthersRan(rivals.afterInsert);
      if inserted != Ok(true) {
        return RouteExisting(file.tables, request, rivals.stored), false;
      }
      if request.commandId !in file.tables.commands {
        return Denied(CommandLost), false;
      }
      var current := file.tables.commands[request.commandId].payload;
      OthersRan(rivals.beforeStart);
      var started := unitOfWork.UpdateLegacyCommandIfVersion(current.(status := Executing, updatedAt := startedAt), current.version);
      if started.Denied? {
        if started.reason == VersionConflict {
          OthersRan(rivals.afterLostStart);
          return RouteExisting(file.tables, request, rivals.stored), false;
        }
        return Denied(StoreRefused(started.reason)), false;
      }
      ran := true;
      answer := ExecuteAlreadyClaimed(request, started.value, executed, rivals, at);
    }

    /** The claimed entry: the shared claim has already taken the command to executing version 2. */
    method ExecuteClaimedCommand(request: Request, claimedOwner: Owner, claim: ClaimAnswer, executed: Executed, rivals: Rivals, at: Timestamp)
      returns (answer: Result<Execution, OrchestratorDenial>, ran: bool)
      requires unitOfWork.file == file && Schema(file.tables) && RivalsKeepSchema(rivals)
      modifies file
      ensures var beginning := BeginClaimed(old(file.tables), request, claimedOwner, claim, rivals.stored);
              && ran == beginning.MayRun?
              && Outcome(file.tables, answer) == Finish(beginning, request, executed, rivals, at)
    {
      hide Record;
      ran := false;
      if claimedOwner != Legacy || claim.record.owner != Some(Legacy) {
        return Denied(WrongOwner), false;
      }
      if Decide(Some(claim.record), request).Denied? {
        return Denied(IdentityBound), false;
      }
      if claim.Replayed? {
        return Ok(ReplayedTerminal(claim.record, Some(claim.snapshot))), false;
      }
      if claim.Suspended? {
        return InFlight(claim.record, rivals.stored), false;
      }
      if claim.record.status != Executing || claim.record.version != 2 {
        return Denied(NotExecutingV2), false;
      }
      ran := true;
      answer := ExecuteAlreadyClaimed(request, claim.record, executed, rivals, at);
    }
  }

  // ----- what the route guarantees among rivals that keep the command table's invariant -----

  /** Rivals follow the protocol from the insert of this call up to its start. */
  ghost predicate OrderlyStart(request: Request, rivals: Rivals, insertedAt: Timestamp) {
    && CommandInv(rivals.afterInsert.commands) && CommandInv(rivals.beforeStart.commands)
    && CommandsAdvance(LegacyInsert(rivals.beforeInsert, request, insertedAt).tables.commands, rivals.afterInsert.commands)
    && CommandsAdvance(rivals.afterInsert.commands, rivals.beforeStart.commands)
  }

  /**
   * The executor is reached if and only if the command was unknown to both looks and nobody has moved
   * the row from version 1; the record it runs for is this very request at executing version 2.
   */
  lemma RunsIff(t: Tables, request: Request, rivals: Rivals, insertedAt: Timestamp, startedAt: Timestamp)
    requires OrderlyStart(request, rivals, insertedAt)
    ensures var id := request.commandId;
            var beginning := Begin(t, request, rivals, insertedAt, startedAt);
            && (beginning.MayRun? <==>
                && id !in t.commands && id !in rivals.beforeInsert.commands
                && id in rivals.beforeStart.commands && rivals.beforeStart.commands[id].version == 1)
            && (beginning.MayRun? ==>
                beginning.record.request == request && beginning.record.owner == Some(Legacy)
                && beginning.record.status == Executing && beginning.record.version == 2)
  {
    var id := request.commandId;
    var inserted := LegacyInsert(rivals.beforeInsert, request, insertedAt);
    assert id in inserted.tables.commands;
    assert CommandRow(id, rivals.afterInsert.commands[id]);
    assert CommandRow(id, rivals.beforeStart.commands[id]);
    hide CommandInv, CommandsAdvance;
  }

  /**
   * And when it is not reached, the call reports the command as the look that stopped it finds it: the first, the one after a lost
   * insert, or the one after a lost start. Only if a rival has moved the row before this call loaded it, and nobody since, the
   * store refuses the start as an illegal transition, and the call fails with that.
   */
  lemma StoppedReports(t: Tables, request: Request, rivals: Rivals, insertedAt: Timestamp, startedAt: Timestamp, found: Tables)
    requires OrderlyStart(request, rivals, insertedAt) && CommandInv(found.commands)
    requires Begin(t, request, rivals, insertedAt, startedAt).Answered?
    requires found == if request.commandId in t.commands then t
                      else if request.commandId in rivals.beforeInsert.commands then rivals.afterInsert else rivals.afterLostStart
    requires request.commandId in found.commands && found.commands[request.commandId].payload.request == request
    ensures var id, answer := request.commandId, Begin(t, request, rivals, insertedAt, startedAt).answer;
            && id in rivals.afterInsert.commands && id in rivals.beforeStart.commands
            && if id !in t.commands && id !in rivals.beforeInsert.commands
                  && rivals.beforeStart.commands[id].version == rivals.afterInsert.commands[id].version then
                 answer == Outcome(rivals.beforeStart, Denied(StoreRefused(LegacyTransition)))
               else answer.tables == found && ReportsStored(answer.result, found.commands[id], rivals.stored)
  {
    var id := request.commandId;
    InsertedRow(request, rivals, insertedAt);
    RunsIff(t, request, rivals, insertedAt, startedAt);
    LookReports(found, request, rivals.stored);
    hide CommandInv, CommandsAdvance, RouteExisting, ReportsStored, CommandRow, OrderlyStart;
  }

  lemma InsertedRow(request: Request, rivals: Rivals, insertedAt: Timestamp)
    requires OrderlyStart(request, rivals, insertedAt)
    ensures var id := request.commandId;
            && id in rivals.afterInsert.commands && id in rivals.beforeStart.commands
            && rivals.afterInsert.commands[id].payload.version == rivals.afterInsert.commands[id].version
            && rivals.afterInsert.commands[id].payload.request.commandId == id
            && rivals.beforeStart.commands[id].payload.version == rivals.beforeStart.commands[id].version
            && (rivals.beforeStart.commands[id].payload.status == Accepted <==> rivals.beforeStart.commands[id].version == 1)
            && rivals.beforeStart.commands[id].payload.request == rivals.afterInsert.commands[id].payload.request
            && rivals.beforeStart.commands[id].payload.owner == rivals.afterInsert.commands[id].payload.owner
            && (id !in rivals.beforeInsert.commands ==> rivals.afterInsert.commands[id].payload.owner == Some(Legacy))
  {
    var id := request.commandId;
    assert id in LegacyInsert(rivals.beforeInsert, request, insertedAt).tables.commands;
    assert CommandRow(id, rivals.afterInsert.commands[id]);
    assert CommandRow(id, rivals.beforeStart.commands[id]);
    hide CommandInv;
  }

  /** A rival that starts after this call's start never reaches the executor for the same command. */
  lemma SecondStartNeverRuns(t: Tables, request: Request, rivals: Rivals, insertedAt: Timestamp, startedAt: Timestamp,
                             started: Tables, other: Rivals, otherT: Tables, otherInsertedAt: Timestamp, otherAt: Timestamp)
    requires OrderlyStart(request, rivals, insertedAt) && OrderlyStart(request, other, otherInsertedAt)
    requires var beginning := Begin(t, request, rivals, insertedAt, startedAt);
             beginning.MayRun? && started == PutCommand(rivals.beforeStart, beginning.record)
    requires CommandsAdvance(started.commands, other.beforeStart.commands)
    ensures Begin(otherT, request, other, otherInsertedAt, otherAt).Answered?
  {
    RunsIff(t, request, rivals, insertedAt, startedAt);
    RunsIff(otherT, request, other, otherInsertedAt, otherAt);
    assert request.commandId in started.commands && started.commands[request.commandId].version == 2;
    hide Begin, OrderlyStart;
  }

  /** Rivals follow the protocol from a start of `record` up to the look after a lost save. */
  ghost predicate OrderlyFinish(begin: Tables, record: Command, rivals: Rivals) {
    && record.request.commandId in begin.commands && begin.commands[record.request.commandId] == Row(2, record)
    && record.owner == Some(Legacy)
    && CommandInv(begin.commands) && CommandInv(rivals.afterExecutor.commands)
    && CommandsAdvance(begin.commands, rivals.afterExecutor.commands)
    && CommandsAdvance(rivals.afterExecutor.commands, rivals.afterLostRecord.commands)
  }

  /** `settled` wrote the end of the command as the executor left it, as one new row at version 3. */
  predicate RecordsTheEnd(settled: Answer, found: Tables, request: Request, executed: Executed) {
    && settled.result.Ok? && settled.result.value.ExecutedNew?
    && var saved := settled.result.value.record;
    && settled.tables == PutCommand(found, saved)
    && saved.version == 3 && saved.request == request && saved.owner == Some(Legacy)
    && (saved.status == Failed <==> executed.result.None?)
    && (saved.status == Rejected <==> executed.result.Some? && executed.result.value.status == Refused)
    && (saved.status == Succeeded <==> executed.result.Some? && executed.result.value.status != Refused)
    && saved.resultReason == Some(if executed.result.Some? then executed.result.value.reason else executed.failure)
    && settled.result.value.snapshot == (if executed.result.Some? then saved.resultSnapshot else None)
    && (executed.result.Some? ==> saved.resultSnapshot == Some(SnapshotOf(executed.result.value)))
  }

  /**
   * How the executor ended is what is recorded: rejected exactly when it refused, failed exactly when it
   * threw, never a failure in place of a result, and with its own reason and snapshot. If somebody else
   * has ended the command, that end is answered and stays.
   */
  lemma OutcomeIsSettled(begin: Tables, request: Request, record: Command, executed: Executed, rivals: Rivals, at: Timestamp)
    requires record.request == request && OrderlyFinish(begin, record, rivals)
    ensures var settled := Record(request, record, executed, rivals, at);
            var found := rivals.afterExecutor.commands;
            request.commandId in found &&
            if found[request.commandId].version == 2 then RecordsTheEnd(settled, rivals.afterExecutor, request, executed)
            else settled == Outcome(rivals.afterLostRecord, Ok(ReplayedTerminal(found[request.commandId].payload,
                                                                                found[request.commandId].payload.resultSnapshot)))
  {
    var id := request.commandId;
    assert CommandRow(id, begin.commands[id]);
    assert CommandRow(id, rivals.afterExecutor.commands[id]);
    var row := rivals.afterExecutor.commands[id];
    assert row.version == 3 ==> id in rivals.afterLostRecord.commands && rivals.afterLostRecord.commands[id] == row;
    hide CommandInv, CommandsAdvance, LegacyUpdate, CommandRow, RecordsTheEnd, Record, RouteExisting;
    SaveIsWonOrLost(rivals.afterExecutor, record, DraftOf(record, executed, at));
    if row.version == 2 {
      WonSave(request, record, executed, rivals, at);
    } else {
      LostSave(request, record, executed, rivals, row, at);
    }
  }

  lemma WonSave(request: Request, record: Command, executed: Executed, rivals: Rivals, at: Timestamp)
    requires record.request == request && record.owner == Some(Legacy) && record.version == 2
    requires var saved := DraftOf(record, executed, at).(version := 3);
             LegacyUpdate(rivals.afterExecutor, DraftOf(record, executed, at), 2) == Outcome(PutCommand(rivals.afterExecutor, saved), Ok(saved))
    ensures RecordsTheEnd(Record(request, record, executed, rivals, at), rivals.afterExecutor, request, executed)
  {
    hide LegacyUpdate, RouteExisting;
  }

  lemma LostSave(request: Request, record: Command, executed: Executed, rivals: Rivals, row: Row<Command>, at: Timestamp)
    requires record.request == request && record.version == 2
    requires LegacyUpdate(rivals.afterExecutor, DraftOf(record, executed, at), 2) == Outcome(rivals.afterExecutor, Denied(VersionConflict))
    requires request.commandId in rivals.afterLostRecord.commands && rivals.afterLostRecord.commands[request.commandId] == row
    requires row.payload.request == request && Terminal(row.payload.status)
    ensures Record(request, record, executed, rivals, at)
         == Outcome(rivals.afterLostRecord, Ok(ReplayedTerminal(row.payload, row.payload.resultSnapshot)))
  {
    hide LegacyUpdate;
  }

  /** The save of a started record is accepted while the row is at version 2; afterwards it is a version conflict. */
  lemma SaveIsWonOrLost(found: Tables, record: Command, draft: Command)
    requires record.request.commandId in found.commands
    requires var row := found.commands[record.request.commandId];
             CommandRow(record.request.commandId, row) && row.version >= 2
             && row.payload.request == record.request && row.payload.owner == Some(Legacy)
    requires draft.request == record.request && draft.owner == Some(Legacy) && Terminal(draft.status)
    ensures var row := found.commands[record.request.commandId];
            && row.version in {2, 3} && (row.version == 3 ==> Terminal(row.payload.status))
            && LegacyUpdate(found, draft, 2)
               == if row.version == 2 then Outcome(PutCommand(found, draft.(version := 3)), Ok(draft.(version := 3)))
                  else Outcome(found, Denied(VersionConflict))
  {
  }

  // ----- claimed calls -----

  /** Where the run stands, from the caller's own stores: each version in its place, and a run without a control row is active at 0. */
  predicate FactsOf(stored: Stored, facts: Facts) {
    && stored.checkpoint.Some?
    && facts.checkpointVersion == stored.checkpoint.value.version && facts.boundary == stored.checkpoint.value.boundary
    && (stored.control.Some? ==>
        facts.controlVersion == stored.control.value.version && facts.controlStatus == stored.control.value.status)
    && (stored.control.None? ==> facts.controlVersion == 0 && facts.controlStatus == Active)
  }

  /** How a stored command that this call may not run is reported. */
  predicate ReportsStored(answer: Result<Execution, OrchestratorDenial>, row: Row<Command>, stored: Stored) {
    if row.version == 3 then answer == Ok(ReplayedTerminal(row.payload, row.payload.resultSnapshot))
    else if stored.checkpoint.None? then answer == Denied(CheckpointNotFound)
    else answer.Ok? && answer.value.LeftInFlight? && answer.value.record == row.payload && FactsOf(stored, answer.value.facts)
  }

  /** An unclaimed call that does not run reports the stored command, refuses another's identity, or has lost it. */
  lemma LookReports(t: Tables, request: Request, stored: Stored)
    requires CommandInv(t.commands)
    ensures var id, answer := request.commandId, RouteExisting(t, request, stored);
            && (answer == Denied(CommandLost) <==> id !in t.commands)
            && (answer == Denied(IdentityBound) <==> id in t.commands && t.commands[id].payload.request != request)
            && (id in t.commands && t.commands[id].payload.request == request ==> ReportsStored(answer, t.commands[id], stored))
  {
    if request.commandId in t.commands {
      ClaimAnswers.TerminalRow3(t.commands, request.commandId);
    }
    hide CommandInv, Terminal;
  }

  /**
   * A call with the answer of its own legacy claim reaches the executor if and only if the command was unknown when
   * it claimed, and then for the record that the claim has stored. Otherwise it reports the stored command.
   */
  lemma ClaimedRunsIff(t: Tables, request: Request, evidence: Option<Evidence>, claimedAt: Timestamp, now: Tables, stored: Stored)
    requires CommandInv(t.commands) && Claim(t, request, Legacy, evidence, claimedAt).result.Ok?
    ensures var id, claimed := request.commandId, Claim(t, request, Legacy, evidence, claimedAt);
            var beginning := BeginClaimed(now, request, Legacy, claimed.result.value, stored);
            && (beginning.MayRun? <==> id !in t.commands)
            && (beginning.MayRun? ==>
                && beginning.record == ClaimAnswers.ExecutingRecord(request, Legacy, evidence.Some?, claimedAt)
                && claimed.tables.commands == t.commands[id := Row(2, beginning.record)])
            && (beginning.Answered? ==>
                && claimed.tables == t && beginning.answer.tables == now
                && ReportsStored(beginning.answer.result, t.commands[id], stored))
  {
    hide CommandInv, Claim, ClaimAnswers.MayClaim;
    ClaimAnswers.ClaimDecides(t, request, Legacy, evidence, claimedAt);
    if request.commandId in t.commands {
      ClaimAnswers.TerminalRow3(t.commands, request.commandId);
    }
  }

  /** A claim that is handed to the wrong route, or with another request than it was made for, runs nothing. */
  lemma ForeignClaimsNeverRun(t: Tables, request: Request, claimedOwner: Owner, claim: ClaimAnswer, stored: Stored)
    ensures claimedOwner != Legacy || claim.record.owner != Some(Legacy) || claim.record.request != request ==>
      var beginning := BeginClaimed(t, request, claimedOwner, claim, stored);
      beginning.Answered? && beginning.answer.tables == t && beginning.answer.result in {Denied(WrongOwner), Denied(IdentityBound)}
  {
  }

  /** Of any two claimed calls for one command id, however many rivals ran between their claims, at most one reaches the executor. */
  lemma OneClaimedRun(t: Tables, request: Request, evidence: Option<Evidence>, claimedAt: Timestamp,
                      later: Tables, other: Request, otherEvidence: Option<Evidence>, otherAt: Timestamp,
                      now: Tables, otherNow: Tables, stored: Stored, otherStored: Stored)
    requires CommandInv(t.commands) && CommandInv(later.commands) && other.commandId == request.commandId
    requires Claim(t, request, Legacy, evidence, claimedAt).result.Ok? && Claim(later, other, Legacy, otherEvidence, otherAt).result.Ok?
    requires CommandsAdvance(Claim(t, request, Legacy, evidence, claimedAt).tables.commands, later.commands)
    ensures BeginClaimed(now, request, Legacy, Claim(t, request, Legacy, evidence, claimedAt).result.value, stored).Answered?
         || BeginClaimed(otherNow, other, Legacy, Claim(later, other, Legacy, otherEvidence, otherAt).result.value, otherStored).Answered?
  {
    ClaimedRunsIff(t, request, evidence, claimedAt, now, stored);
    ClaimedRunsIff(later, other, otherEvidence, otherAt, otherNow, otherStored);
    hide CommandInv, Claim, BeginClaimed, ReportsStored;
  }

  /** An unclaimed call that looks after a claim has won never reaches the executor. */
  lemma ClaimExcludesPlainRun(t: Tables, request: Request, evidence: Option<Evidence>, claimedAt: Timestamp,
                              later: Tables, other: Request, rivals: Rivals, insertedAt: Timestamp, startedAt: Timestamp)
    requires CommandInv(t.commands) && other.commandId == request.commandId
    requires Claim(t, request, Legacy, evidence, claimedAt).result.Ok?
    requires CommandsAdvance(Claim(t, request, Legacy, evidence, claimedAt).tables.commands, rivals.beforeInsert.commands)
    ensures Begin(later, other, rivals, insertedAt, startedAt).Answered?
  {
    hide CommandInv, Claim, ClaimAnswers.MayClaim, RouteExisting, LegacyUpdate;
    ClaimAnswers.ClaimDecides(t, request, Legacy, evidence, claimedAt);
  }

  /** Nor does a claimed call whose claim comes after an unclaimed call has inserted the command. */
  lemma PlainInsertExcludesClaimedRun(t: Tables, request: Request, insertedAt: Timestamp, later: Tables, evidence: Option<Evidence>,
                                      claimedAt: Timestamp, now: Tables, stored: Stored)
    requires LegacyInsert(t, request, insertedAt).result == Ok(true) && CommandInv(later.commands)
    requires CommandsAdvance(LegacyInsert(t, request, insertedAt).tables.commands, later.commands)
    requires Claim(later, request, Legacy, evidence, claimedAt).result.Ok?
    ensures BeginClaimed(now, request, Legacy, Claim(later, request, Legacy, evidence, claimedAt).result.value, stored).Answered?
  {
    assert request.commandId in LegacyInsert(t, request, insertedAt).tables.commands;
    ClaimedRunsIff(later, request, evidence, claimedAt, now, stored);
    hide CommandInv, Claim, BeginClaimed, ReportsStored, LegacyInsert;
  }

  /** The state machine's claim starts a legacy worker exactly when the claimed call may run, and for the same record. */
  lemma ClaimStartsTheWorker(w: World.World, worker: nat, request: Request, evidence: Option<Evidence>, claimedAt: Timestamp,
                             now: Tables, stored: Stored)
    requires CommandInv(w.t.commands) && Claim(w.t, request, Legacy, evidence, claimedAt).result.Ok?
    ensures var n := World.StepClaim(w, worker, request, Legacy, evidence, claimedAt);
            var beginning := BeginClaimed(now, request, Legacy, Claim(w.t, request, Legacy, evidence, claimedAt).result.value, stored);
            n == if beginning.MayRun? then w.(t := Claim(w.t, request, Legacy, evidence, claimedAt).tables,
                                              legacy := w.legacy[worker := World.Running(beginning.record)])
                 else w
  {
    ClaimShape(w.t, request, evidence, claimedAt);
    ClaimedRunsIff(w.t, request, evidence, claimedAt, now, stored);
    hide Claim, CommandInv, ReportsStored, BeginClaimed, ClaimAnswers.ExecutingRecord;
  }

  lemma ClaimShape(t: Tables, request: Request, evidence: Option<Evidence>, at: Timestamp)
    requires CommandInv(t.commands) && Claim(t, request, Legacy, evidence, at).result.Ok?
    ensures var answer := Claim(t, request, Legacy, evidence, at).result.value;
            && (answer.ClaimedExecuting? <==> request.commandId !in t.commands)
            && (answer.ClaimedExecuting? ==> answer.record == ClaimAnswers.ExecutingRecord(request, Legacy, evidence.Some?, at))
  {
    hide CommandInv, Claim, ClaimAnswers.MayClaim, ClaimAnswers.ExecutingRecord;
    ClaimAnswers.ClaimDecides(t, request, Legacy, evidence, at);
  }
}
