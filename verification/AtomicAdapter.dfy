/** The opt-in adapter: read without a lock, authorize, prepare, then commit by compare-and-set. */
module AtomicAdapter {
  import opened Text
  import opened Records
  import opened Database
  import opened ControlPreparation
  import opened CommandUnitOfWork

  /** The single audit event of a control-only command. */
  function TerminalEvent(prepared: Prepared, at: Timestamp): OutboxRecord {
    var request := prepared.request;
    OutboxRecord(TerminalOutboxId(request.commandId), TerminalEventId(request.commandId), request.commandId, request.runId,
                 Audit, TerminalAudit(request.operation, prepared.outcome, prepared.reason), Pending, 0, 0, at, at, None)
  }

  /** What the adapter hands to the commit transaction. `executing` is the record its claim returned. */
  function AdapterCommit(executing: Command, prepared: Prepared, evidence: Option<Evidence>, at: Timestamp): CommitInput {
    var request := prepared.request;
    var written := if prepared.writes.control == CasUpdate then 1 else 0;
    var snapshot := Snapshot(prepared.status, prepared.reason, request.expectedCheckpointVersion,
                             request.ControlVersion() + written);
    CommitInput(
      prepared.checkpoint, request.expectedCheckpointVersion,
      prepared.control, request.ControlVersion(),
      executing.(status := if prepared.outcome.RejectedOutcome? then Rejected else Succeeded,
                 resultReason := Some(prepared.reason), resultSnapshot := Some(snapshot), updatedAt := at),
      executing.version,
      [TerminalEvent(prepared, at)],
      evidence,
      Some(prepared.writes))
  }

  datatype AdapterDenial =
    | CheckpointNotFound
    | PreparationFailed
    | CommitDenied(reason: CommandDenial)
    | TerminalSnapshotLost
    | NotTheOwner
    | IdentityRefused(reason: CommandDenial)
    | NotExecuting
    | AdmissionRefused(reason: CommandDenial)

  /**
   * The checkpoint is read in `begin`, the control row in `afterFirstRead`, and the commit runs in
   * `afterAuthorize`.
   */
  function ExecuteAdmitted(begin: Tables, executing: Command, evidence: Option<Evidence>, decision: Decision,
                           afterFirstRead: Tables, afterAuthorize: Tables,
                           preparedAt: Timestamp, eventAt: Timestamp, at: Timestamp): Outcome<Command, AdapterDenial>
  {
    var request := executing.request;
    if request.runId !in begin.checkpoints then Outcome(begin, Denied(CheckpointNotFound))
    else
      var prepared := Prepare(request, begin.checkpoints[request.runId].payload, StoredControl(afterFirstRead, request.runId),
                              decision, preparedAt);
      if prepared.Denied? then Outcome(afterAuthorize, Denied(PreparationFailed))
      else
        var committed := Commit(afterAuthorize, AdapterCommit(executing, prepared.value, evidence, eventAt), at);
        Outcome(committed.tables, if committed.result.Denied? then Denied(CommitDenied(committed.result.reason))
                                  else Ok(committed.result.value.command))
  }

  /** What to do with a claim that was handed over. */
  datatype ClaimRouting = ReplayClaim(record: Command, snapshot: Snapshot) | SuspendClaim(record: Command) | ProceedWith(record: Command)

  function RouteClaim(request: Request, claimedOwner: Owner, claim: ClaimAnswer): Result<ClaimRouting, AdapterDenial> {
    if claimedOwner != AtomicControlOnly || claim.record.owner != Some(AtomicControlOnly) then Denied(NotTheOwner)
    else if Decide(Some(claim.record), request).Denied? then Denied(IdentityRefused(IdentityConflict))
    else
      match claim
      case Replayed(record, snapshot) => Ok(ReplayClaim(record, snapshot))
      case Suspended(record) => Ok(SuspendClaim(record))
      case ClaimedExecuting(record, _) =>
        if record.status != Executing || record.version != 2 then Denied(NotExecuting) else Ok(ProceedWith(record))
  }

  datatype AtomicExecution =
    | ReplayedBefore(record: Command, snapshot: Snapshot)
    | StillInFlight(record: Command)
    | ExecutedNow(record: Command)
    | LegacyUnchanged
    | OperationUnsupported

  datatype AtomicRoute = RunLegacy | RefuseOperation | AdmitNew | ReplayStored(record: Command, snapshot: Snapshot) | SuspendStored(record: Command)

  /** The look before the admission: a decision about the stored record that writes nothing. */
  function SelectRoute(enabled: bool, request: Request, existing: Option<Command>): Result<AtomicRoute, CommandDenial> {
    if !enabled then Ok(RunLegacy)
    else if !request.Identified() then Denied(IncompleteIdentity)
    else
      match Decide(existing, request)
      case Denied(reason) => Denied(reason)
      case Ok(decision) =>
        if !ControlOnly(request.operation) then Ok(RefuseOperation)
        else if decision.AcceptNew? then Ok(AdmitNew)
        else if decision.ResumeInFlight? then Ok(SuspendStored(existing.value))
        else if existing.value.resultSnapshot.None? then Denied(SnapshotMissing)
        else Ok(ReplayStored(existing.value, existing.value.resultSnapshot.value))
  }

  /** The admission decides again, because rivals may have admitted the same command since the look. */
  function AdmitAndExecute(atAdmission: Tables, request: Request, decision: Decision,
                           begin: Tables, afterFirstRead: Tables, afterAuthorize: Tables,
                           admittedAt: Timestamp, preparedAt: Timestamp, eventAt: Timestamp, at: Timestamp)
    : Outcome<AtomicExecution, AdapterDenial>
  {
    var admission := Admit(atAdmission, request, admittedAt);
    match admission.result
    case Denied(reason) => Outcome(admission.tables, Denied(AdmissionRefused(reason)))
    case Ok(AdmissionReplay(record, snapshot)) => Outcome(admission.tables, Ok(ReplayedBefore(record, snapshot)))
    case Ok(AdmissionSuspended(record)) => Outcome(admission.tables, Ok(StillInFlight(record)))
    case Ok(UnsupportedAtomicOperation) => Outcome(admission.tables, Denied(NotExecuting))
    case Ok(AdmittedExecuting(record)) =>
      var done := ExecuteAdmitted(begin, record, None, decision, afterFirstRead, afterAuthorize, preparedAt, eventAt, at);
      Outcome(done.tables, if done.result.Denied? then Denied(done.result.reason) else Ok(ExecutedNow(done.result.value)))
  }

  /** The unclaimed entry. It looks in `t`, admits in `atAdmission`, and then goes on from `begin`. */
  function ExecuteUnclaimed(t: Tables, enabled: bool, request: Request, decision: Decision,
                            atAdmission: Tables, begin: Tables, afterFirstRead: Tables, afterAuthorize: Tables,
                            admittedAt: Timestamp, preparedAt: Timestamp, eventAt: Timestamp, at: Timestamp)
    : Outcome<AtomicExecution, AdapterDenial>
  {
    match SelectRoute(enabled, request, LoadCommand(t, request.commandId))
    case Denied(reason) => Outcome(t, Denied(AdmissionRefused(reason)))
    case Ok(RunLegacy) => Outcome(t, Ok(LegacyUnchanged))
    case Ok(RefuseOperation) => Outcome(t, Ok(OperationUnsupported))
    case Ok(ReplayStored(record, snapshot)) => Outcome(t, Ok(ReplayedBefore(record, snapshot)))
    case Ok(SuspendStored(record)) => Outcome(t, Ok(StillInFlight(record)))
    case Ok(AdmitNew) =>
      AdmitAndExecute(atAdmission, request, decision, begin, afterFirstRead, afterAuthorize, admittedAt, preparedAt, eventAt, at)
  }

  /**
   * The look answers exactly what the admission would answer in the same state, so it only saves a
   * transaction; and the branch for an unexpected admission decision is never reached.
   */
  lemma LookAnswersAsAdmission(t: Tables, request: Request, at: Timestamp)
    ensures var look, admission := SelectRoute(true, request, LoadCommand(t, request.commandId)), Admit(t, request, at);
            && (look.Denied? <==> admission.result.Denied?)
            && (look.Denied? ==> look.reason == admission.result.reason)
            && (look == Ok(RefuseOperation) <==> admission.result == Ok(UnsupportedAtomicOperation))
            && (look == Ok(AdmitNew) <==> admission.result.Ok? && admission.result.value.AdmittedExecuting?)
            && (forall record, snapshot ::
                  look == Ok(ReplayStored(record, snapshot)) <==> admission.result == Ok(AdmissionReplay(record, snapshot)))
            && (forall record :: look == Ok(SuspendStored(record)) <==> admission.result == Ok(AdmissionSuspended(record)))
            && (look != Ok(AdmitNew) ==> admission.tables == t)
    ensures forall other :: SelectRoute(true, request, other) == Ok(AdmitNew) ==> Admit(t, request, at).result != Ok(UnsupportedAtomicOperation)
  {
    hide Blank, Terminal;
  }

  /** After an accepted commit the stored row is the committed record, terminal and with its snapshot. */
  lemma CommittedIsPersisted(t: Tables, executing: Command, prepared: Prepared, evidence: Option<Evidence>, eventAt: Timestamp, at: Timestamp)
    requires Commit(t, AdapterCommit(executing, prepared, evidence, eventAt), at).result.Ok?
    ensures var committed := Commit(t, AdapterCommit(executing, prepared, evidence, eventAt), at);
            var record := committed.result.value.command;
            && LoadCommand(committed.tables, executing.request.commandId) == Some(record)
            && record.resultSnapshot.Some? && Terminal(record.status)
  {
    hide EvidenceAccepted, RunStateDenial, AppendEvents, EffectBacked, TerminalDraftAccepted, CommittedCheckpoint, CommittedControl;
  }

  lemma LookIgnoredWhenOff(enabled: bool, request: Request, existing: Option<Command>)
    ensures SelectRoute(enabled, request, if enabled then existing else None) == SelectRoute(enabled, request, existing)
  {
  }

  lemma PreparedForRequest(request: Request, checkpoint: Checkpoint, control: Option<Control>, decision: Decision, at: Timestamp)
    requires Prepare(request, checkpoint, control, decision, at).Ok?
    ensures Prepare(request, checkpoint, control, decision, at).value.request == request
  {
  }

  class AtomicRecoveryControlOnlyAdapter {
    const file: SqliteFile
    const finalizer: SQLiteRecoveryFinalizationUnitOfWork

    constructor (file: SqliteFile, finalizer: SQLiteRecoveryFinalizationUnitOfWork)
      requires finalizer.file == file
      ensures this.file == file && this.finalizer == finalizer
    {
      this.file := file;
      this.finalizer := finalizer;
    }

    /** Other connections ran between two of our statements and left the tables as `found`. */
    method OthersRan(found: Tables)
      requires Schema(found)
      modifies file
      ensures file.tables == found
    {
      file.tables := found;
    }

    /**
     * The checkpoint is read in the caller's state, the control row in `afterFirstRead`, and the
     * commit runs in `afterAuthorize`: the three states may differ in any way.
     */
    method ExecuteAlreadyAdmitted(executing: Command, evidence: Option<Evidence>, decision: Decision,
                                  afterFirstRead: Tables, afterAuthorize: Tables,
                                  preparedAt: Timestamp, eventAt: Timestamp, at: Timestamp)
      returns (answer: Result<Command, AdapterDenial>)
      requires finalizer.file == file
      requires Schema(file.tables) && Schema(afterFirstRead) && Schema(afterAuthorize)
      modifies file
      ensures Outcome(file.tables, answer)
           == ExecuteAdmitted(old(file.tables), executing, evidence, decision, afterFirstRead, afterAuthorize, preparedAt, eventAt, at)
    {
      hide Commit, Prepare, AdapterCommit;
      var request := executing.request;
      if request.runId !in file.tables.checkpoints {
        return Denied(CheckpointNotFound);
      }
      var checkpoint := file.tables.checkpoints[request.runId].payload;
      OthersRan(afterFirstRead);
      var control := StoredControl(file.tables, request.runId);
      OthersRan(afterAuthorize);
      var prepared := Prepare(request, checkpoint, control, decision, preparedAt);
      if prepared.Denied? {
        return Denied(PreparationFailed);
      }
      var input := AdapterCommit(executing, prepared.value, evidence, eventAt);
      var committed := finalizer.CommitTerminal(input, at);
      if committed.Denied? {
        return Denied(CommitDenied(committed.reason));
      }
      // Read durable truth rather than returning the draft.
      CommittedIsPersisted(afterAuthorize, executing, prepared.value, evidence, eventAt, at);
      PreparedForRequest(request, checkpoint, control, decision, preparedAt);
      var persisted := LoadCommand(file.tables, request.commandId);
      if persisted.None? || persisted.value.resultSnapshot.None? || !Terminal(persisted.value.status) {
        return Denied(TerminalSnapshotLost);
      }
      answer := Ok(persisted.value);
    }

    method AdmitThenExecute(request: Request, decision: Decision,
                            begin: Tables, afterFirstRead: Tables, afterAuthorize: Tables,
                            admittedAt: Timestamp, preparedAt: Timestamp, eventAt: Timestamp, at: Timestamp)
      returns (answer: Result<AtomicExecution, AdapterDenial>)
      requires finalizer.file == file && Schema(file.tables)
      requires Schema(begin) && Schema(afterFirstRead) && Schema(afterAuthorize)
      modifies file
      ensures Outcome(file.tables, answer)
           == AdmitAndExecute(old(file.tables), request, decision, begin, afterFirstRead, afterAuthorize, admittedAt, preparedAt, eventAt, at)
    {
      hide ExecuteAdmitted, Admit, Schema;
      var admission := finalizer.AdmitControlOnlyCommand(request, admittedAt);
      if admission.Denied? {
        return Denied(AdmissionRefused(admission.reason));
      }
      match admission.value {
        case AdmissionReplay(record, snapshot) => return Ok(ReplayedBefore(record, snapshot));
        case AdmissionSuspended(record) => return Ok(StillInFlight(record));
        case UnsupportedAtomicOperation => return Denied(NotExecuting);
        case AdmittedExecuting(record) =>
          OthersRan(begin);
          var done := ExecuteAlreadyAdmitted(record, None, decision, afterFirstRead, afterAuthorize, preparedAt, eventAt, at);
          answer := if done.Denied? then Denied(done.reason) else Ok(ExecutedNow(done.value));
      }
    }

    /** The unclaimed entry, behind the flag; with the flag off it does not even look. */
    method ExecuteCommand(request: Request, enabled: bool, decision: Decision,
                          atAdmission: Tables, begin: Tables, afterFirstRead: Tables, afterAuthorize: Tables,
                          admittedAt: Timestamp, preparedAt: Timestamp, eventAt: Timestamp, at: Timestamp)
      returns (answer: Result<AtomicExecution, AdapterDenial>)
      requires finalizer.file == file && Schema(file.tables)
      requires Schema(atAdmission) && Schema(begin) && Schema(afterFirstRead) && Schema(afterAuthorize)
      modifies file
      ensures Outcome(file.tables, answer)
           == ExecuteUnclaimed(old(file.tables), enabled, request, decision, atAdmission, begin, afterFirstRead, afterAuthorize,
                               admittedAt, preparedAt, eventAt, at)
    {
      hide AdmitAndExecute, SelectRoute, Schema;
      LookIgnoredWhenOff(enabled, request, LoadCommand(file.tables, request.commandId));
      var initial := SelectRoute(enabled, request, if enabled then LoadCommand(file.tables, request.commandId) else None);
      if initial.Denied? {
        return Denied(AdmissionRefused(initial.reason));
      }
      match initial.value {
        case RunLegacy => return Ok(LegacyUnchanged);
        case RefuseOperation => return Ok(OperationUnsupported);
        case ReplayStored(record, snapshot) => return Ok(ReplayedBefore(record, snapshot));
        case SuspendStored(record) => return Ok(StillInFlight(record));
        case AdmitNew =>
          OthersRan(atAdmission);
          answer := AdmitThenExecute(request, decision, begin, afterFirstRead, afterAuthorize, admittedAt, preparedAt, eventAt, at);
      }
    }

    /**
     * Only a claim that this very call won is executed; a replay and a suspension read nothing, ask no
     * authorizer and write nothing.
     */
    method ExecuteClaimed(request: Request, claimedOwner: Owner, claim: ClaimAnswer, decision: Decision,
                          afterFirstRead: Tables, afterAuthorize: Tables,
                          preparedAt: Timestamp, eventAt: Timestamp, at: Timestamp)
      returns (answer: Result<AtomicExecution, AdapterDenial>, authorized: bool)
      requires finalizer.file == file
      requires Schema(file.tables) && Schema(afterFirstRead) && Schema(afterAuthorize)
      modifies file
      ensures var routing := RouteClaim(request, claimedOwner, claim);
              && (routing.Denied? ==> answer == Denied(routing.reason) && !authorized && file.tables == old(file.tables))
              && (routing.Ok? && routing.value.ReplayClaim? ==>
                  answer == Ok(ReplayedBefore(routing.value.record, routing.value.snapshot)) && !authorized
                  && file.tables == old(file.tables))
              && (routing.Ok? && routing.value.SuspendClaim? ==>
                  answer == Ok(StillInFlight(routing.value.record)) && !authorized && file.tables == old(file.tables))
              && (routing.Ok? && routing.value.ProceedWith? ==>
                  claim.ClaimedExecuting? &&
                  var done := ExecuteAdmitted(old(file.tables), claim.record, claim.evidence, decision, afterFirstRead,
                                              afterAuthorize, preparedAt, eventAt, at);
                  && file.tables == done.tables && authorized == (request.runId in old(file.tables).checkpoints)
                  && answer == if done.result.Denied? then Denied(done.result.reason) else Ok(ExecutedNow(done.result.value)))
    {
      authorized := false;
      if claimedOwner != AtomicControlOnly || claim.record.owner != Some(AtomicControlOnly) {
        return Denied(NotTheOwner), false;
      }
      if Decide(Some(claim.record), request).Denied? {
        return Denied(IdentityRefused(IdentityConflict)), false;
      }
      if claim.Replayed? {
        return Ok(ReplayedBefore(claim.record, claim.snapshot)), false;
      }
      if claim.Suspended? {
        return Ok(StillInFlight(claim.record)), false;
      }
      if claim.record.status != Executing || claim.record.version != 2 {
        return Denied(NotExecuting), false;
      }
      authorized := request.runId in file.tables.checkpoints;
      var done := ExecuteAlreadyAdmitted(claim.record, claim.evidence, decision, afterFirstRead, afterAuthorize, preparedAt, eventAt, at);
      answer := if done.Denied? then Denied(done.reason) else Ok(ExecutedNow(done.value));
    }
  }
}
