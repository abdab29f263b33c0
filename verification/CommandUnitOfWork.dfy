/** Claiming, admitting and terminating recovery commands in the shared file. */
module CommandUnitOfWork {
  import opened Text
  import opened Records
  import opened Database
  import opened Authority
  import opened ControlPreparation

  datatype CommandDenial =
    | IncompleteIdentity
    | UnsupportedByOwner
    | EvidenceConflict
    | IdentityConflict
    | OwnershipConflict
    | SnapshotMissing
    | VersionConflict
    | LegacyTransition
    | EffectRequiresReceipt
    | RunIdentity
    | CheckpointConflict
    | ControlConflict
    | CommandIdentityOrStatus
    | OutboxIdentity
    | OutboxConflict

  // ----- the decision shared by every route -----

  datatype DurableDecision = AcceptNew | ReplayTerminal | ResumeInFlight

  function Decide(existing: Option<Command>, request: Request): Result<DurableDecision, CommandDenial> {
    if existing.None? then Ok(AcceptNew)
    else if existing.value.request != request then Denied(IdentityConflict)
    else if Terminal(existing.value.status) then Ok(ReplayTerminal)
    else Ok(ResumeInFlight)
  }

  function LoadCommand(t: Tables, commandId: string): Option<Command> {
    if commandId in t.commands then Some(t.commands[commandId].payload) else None
  }

  function NewCommand(request: Request, owner: Owner, fenced: bool, at: Timestamp): Command {
    Command(request, Some(owner), fenced, Accepted, 1, at, at, None, None)
  }

  function PutCommand(t: Tables, command: Command): Tables {
    t.(commands := t.commands[command.request.commandId := Row(command.version, command)])
  }

  datatype ClaimAnswer =
    | ClaimedExecuting(record: Command, evidence: Option<Evidence>)
    | Suspended(record: Command)
    | Replayed(record: Command, snapshot: Snapshot)

  /** One transaction for both owners: identity, owner, insert at version 1 and CAS to executing version 2. */
  function Claim(t: Tables, request: Request, owner: Owner, evidence: Option<Evidence>, at: Timestamp)
    : Outcome<ClaimAnswer, CommandDenial>
  {
    if !request.Identified() then Outcome(t, Denied(IncompleteIdentity))
    else if owner == AtomicControlOnly && !ControlOnly(request.operation) then Outcome(t, Denied(UnsupportedByOwner))
    else if evidence.Some? && !AuthorityHolds(t.acl, request, evidence.value) then Outcome(t, Denied(EvidenceConflict))
    else
      var existing := LoadCommand(t, request.commandId);
      match Decide(existing, request)
      case Denied(reason) => Outcome(t, Denied(reason))
      case Ok(AcceptNew) =>
        var executing := NewCommand(request, owner, evidence.Some?, at).(status := Executing, version := 2);
        Outcome(PutCommand(t, executing), Ok(ClaimedExecuting(executing, evidence)))
      case Ok(decision) =>
        if existing.value.owner != Some(owner) then Outcome(t, Denied(OwnershipConflict))
        else if decision.ResumeInFlight? then Outcome(t, Ok(Suspended(existing.value)))
        else if existing.value.resultSnapshot.None? then Outcome(t, Denied(SnapshotMissing))
        else Outcome(t, Ok(Replayed(existing.value, existing.value.resultSnapshot.value)))
  }

  datatype Admission =
    | AdmittedExecuting(record: Command)
    | UnsupportedAtomicOperation
    | AdmissionReplay(record: Command, snapshot: Snapshot)
    | AdmissionSuspended(record: Command)

  /** The older admission of the atomic route; it does not look at the stored owner. */
  function Admit(t: Tables, request: Request, at: Timestamp): Outcome<Admission, CommandDenial> {
    if !request.Identified() then Outcome(t, Denied(IncompleteIdentity))
    else
      var existing := LoadCommand(t, request.commandId);
      match Decide(existing, request)
      case Denied(reason) => Outcome(t, Denied(reason))
      case Ok(decision) =>
        if !ControlOnly(request.operation) then Outcome(t, Ok(UnsupportedAtomicOperation))
        else if decision.ReplayTerminal? then
          if existing.value.resultSnapshot.None? then Outcome(t, Denied(SnapshotMissing))
          else Outcome(t, Ok(AdmissionReplay(existing.value, existing.value.resultSnapshot.value)))
        else if decision.ResumeInFlight? then Outcome(t, Ok(AdmissionSuspended(existing.value)))
        else
          var executing := NewCommand(request, AtomicControlOnly, false, at).(status := Executing, version := 2);
          Outcome(PutCommand(t, executing), Ok(AdmittedExecuting(executing)))
  }

  /** The plain insert: whatever record is offered is stored at version 1, unless its id is there already. */
  function InsertCommandIfAbsent(t: Tables, record: Command): Outcome<bool, CommandDenial> {
    if record.request.commandId in t.commands then Outcome(t, Ok(false))
    else Outcome(PutCommand(t, record.(version := 1)), Ok(true))
  }

  /** The insert of the legacy command store. */
  function LegacyStoreInsert(t: Tables, record: Command): Outcome<bool, CommandDenial> {
    if record.owner != Some(Legacy) then Outcome(t, Denied(OwnershipConflict)) else InsertCommandIfAbsent(t, record)
  }

  /** What the legacy route offers to the store: a newly accepted record. */
  function LegacyRecord(request: Request, at: Timestamp): Command {
    NewCommand(request, Legacy, false, at).(version := 0)
  }

  function LegacyInsert(t: Tables, request: Request, at: Timestamp): Outcome<bool, CommandDenial> {
    LegacyStoreInsert(t, LegacyRecord(request, at))
  }

  predicate LegacyMove(before: CommandStatus, after: CommandStatus) {
    || (before == Accepted && after == Executing)
    || (before == Executing && Terminal(after))
  }

  function LegacyUpdate(t: Tables, proposed: Command, expectedVersion: int): Outcome<Command, CommandDenial> {
    var previous := LoadCommand(t, proposed.request.commandId);
    if previous.None? || previous.value.version != expectedVersion then Outcome(t, Denied(VersionConflict))
    else if previous.value.owner != Some(Legacy) || proposed.owner != Some(Legacy) then Outcome(t, Denied(OwnershipConflict))
    else if previous.value.request != proposed.request then Outcome(t, Denied(IdentityConflict))
    else if !LegacyMove(previous.value.status, proposed.status) then Outcome(t, Denied(LegacyTransition))
    else if t.commands[proposed.request.commandId].version != expectedVersion then Outcome(t, Denied(LegacyTransition))
    else
      var saved := proposed.(version := previous.value.version + 1);
      Outcome(PutCommand(t, saved), Ok(saved))
  }

  // ----- the generic terminal transaction -----

  datatype CommitInput = CommitInput(
    checkpoint: Checkpoint,
    expectedCheckpointVersion: int,
    control: Control,
    expectedControlVersion: int,
    command: Command,
    expectedCommandVersion: int,
    outbox: seq<OutboxRecord>,
    evidence: Option<Evidence>,
    writes: Option<WriteSet>)

  datatype CommitAnswer = CommitAnswer(checkpoint: Checkpoint, control: Control, command: Command)

  predicate EffectBacked(effects: map<string, Effect>, commandId: string) {
    exists e :: e in effects && effects[e].intent.command.commandId == commandId
  }

  /** Claim-time authorization is not enough: a fenced command needs its evidence again, an unfenced one may bring none. */
  predicate EvidenceAccepted(t: Tables, input: CommitInput) {
    var claimed := LoadCommand(t, input.command.request.commandId);
    if claimed.Some? && claimed.value.fenced then
      input.evidence.Some? && AuthorityHolds(t.acl, input.command.request, input.evidence.value)
    else input.evidence.None?
  }

  function EffectiveWrites(input: CommitInput): WriteSet {
    if input.writes.Some? then input.writes.value else WriteSet(CasUpdate, CasUpdate)
  }

  function StoredControl(t: Tables, runId: string): Option<Control> {
    if runId in t.controls then Some(t.controls[runId].payload) else None
  }

  function ControlVersionOf(t: Tables, runId: string): int {
    if runId in t.controls then t.controls[runId].version else 0
  }

  predicate EventTaken(outbox: map<string, OutboxRow>, event: OutboxRecord) {
    event.id in outbox || exists o :: o in outbox && outbox[o].eventId == event.eventId
  }

  function NewOutboxRow(event: OutboxRecord): OutboxRow {
    OutboxRow(event.eventId, event.commandId, event.runId, event.(status := Pending, attempts := 0, version := 1))
  }

  /** Appends in order; an id or event id already present aborts the transaction. */
  function AppendEvents(outbox: map<string, OutboxRow>, events: seq<OutboxRecord>): Option<map<string, OutboxRow>>
    decreases |events|
  {
    if events == [] then Some(outbox)
    else if EventTaken(outbox, events[0]) then None
    else AppendEvents(outbox[events[0].id := NewOutboxRow(events[0])], events[1..])
  }

  predicate TerminalDraftAccepted(t: Tables, input: CommitInput) {
    var id := input.command.request.commandId;
    && id in t.commands
    && t.commands[id].version == input.expectedCommandVersion
    && (var stored := t.commands[id].payload;
        && stored.status == Executing
        && stored.request == input.command.request
        && stored.owner == input.command.owner
        && stored.fenced == input.command.fenced)
    && Terminal(input.command.status)
  }

  predicate EventsNameCommand(events: seq<OutboxRecord>, request: Request) {
    forall i :: 0 <= i < |events| ==> events[i].commandId == request.commandId && events[i].runId == request.runId
  }

  /** Even compare-only state belongs to the transaction's read set. */
  function RunStateDenial(t: Tables, input: CommitInput): Option<CommandDenial> {
    var runId := input.checkpoint.runId;
    if runId !in t.checkpoints || t.checkpoints[runId].version != input.expectedCheckpointVersion then
      Some(CheckpointConflict)
    else if ControlVersionOf(t, runId) != input.expectedControlVersion then Some(ControlConflict)
    else if EffectiveWrites(input).control == CasUpdate && input.expectedControlVersion == 0 && runId in t.controls then
      Some(ControlConflict)
    else None
  }

  function CommittedCheckpoint(t: Tables, input: CommitInput, at: Timestamp): Checkpoint
    requires RunStateDenial(t, input).None?
  {
    if EffectiveWrites(input).checkpoint == CasUpdate then
      input.checkpoint.(version := input.expectedCheckpointVersion + 1, updatedAt := at)
    else t.checkpoints[input.checkpoint.runId].payload
  }

  function CommittedControl(t: Tables, input: CommitInput, at: Timestamp): Control {
    if EffectiveWrites(input).control == CasUpdate then
      input.control.(version := input.expectedControlVersion + 1, updatedAt := at)
    else if input.checkpoint.runId in t.controls then t.controls[input.checkpoint.runId].payload
    else input.control.(version := 0)
  }

  function Commit(t: Tables, input: CommitInput, at: Timestamp): Outcome<CommitAnswer, CommandDenial> {
    var request := input.command.request;
    var runId := input.checkpoint.runId;
    var writes := EffectiveWrites(input);
    if EffectBacked(t.effects, request.commandId) then Outcome(t, Denied(EffectRequiresReceipt))
    else if !EvidenceAccepted(t, input) then Outcome(t, Denied(EvidenceConflict))
    else if runId != request.runId || input.control.runId != request.runId then Outcome(t, Denied(RunIdentity))
    else if RunStateDenial(t, input).Some? then Outcome(t, Denied(RunStateDenial(t, input).value))
    else if !TerminalDraftAccepted(t, input) then Outcome(t, Denied(CommandIdentityOrStatus))
    else if !EventsNameCommand(input.outbox, request) then Outcome(t, Denied(OutboxIdentity))
    else
      var appended := AppendEvents(t.outbox, input.outbox);
      if appended.None? then Outcome(t, Denied(OutboxConflict))
      else
        var checkpoint := CommittedCheckpoint(t, input, at);
        var control := CommittedControl(t, input, at);
        var command := input.command.(version := input.expectedCommandVersion + 1, updatedAt := at);
        var next := t.(
          checkpoints := if writes.checkpoint == CasUpdate then t.checkpoints[runId := Row(checkpoint.version, checkpoint)]
                         else t.checkpoints,
          controls := if writes.control == CasUpdate then t.controls[runId := Row(control.version, control)] else t.controls,
          commands := t.commands[request.commandId := Row(command.version, command)],
          outbox := appended.value);
        Outcome(next, Ok(CommitAnswer(checkpoint, control, command)))
  }

  /** TransactionalCheckpointStore.save over the SQLite checkpoint table. */
  function SaveCheckpoint(t: Tables, checkpoint: Checkpoint, expectedVersion: int, at: Timestamp)
    : Outcome<Checkpoint, CommandDenial>
  {
    var next := checkpoint.(version := expectedVersion + 1, updatedAt := at);
    var present := checkpoint.runId in t.checkpoints;
    if (if expectedVersion == 0 then !present else present && t.checkpoints[checkpoint.runId].version == expectedVersion) then
      Outcome(t.(checkpoints := t.checkpoints[checkpoint.runId := Row(next.version, next)]), Ok(next))
    else Outcome(t, Denied(VersionConflict))
  }

  // ----- the class -----

  class SQLiteRecoveryFinalizationUnitOfWork {
    const file: SqliteFile

    constructor (file: SqliteFile)
      ensures this.file == file
    {
      this.file := file;
    }

    method ClaimOwnership(request: Request, owner: Owner, evidence: Option<Evidence>, at: Timestamp)
      returns (answer: Result<ClaimAnswer, CommandDenial>)
      requires Schema(file.tables)
      modifies file
      ensures Outcome(file.tables, answer) == Claim(old(file.tables), request, owner, evidence, at)
      ensures Schema(file.tables)
    {
      hide AuthorityHolds, EffectKeysUnique, SinkEffectsUnique, RemoteReceiptsUnique, ConsumptionsUnique, EventIdsUnique, TokensUnique;
      if Blank(request.commandId) || Blank(request.runId) || Blank(request.requestedBy) {
        return Denied(IncompleteIdentity);
      }
      if owner == AtomicControlOnly && request.operation !in {Quarantine, ReleaseQuarantine, DeadLetter} {
        return Denied(UnsupportedByOwner);
      }
      if evidence.Some? && !AuthorityHolds(file.tables.acl, request, evidence.value) {
        return Denied(EvidenceConflict);
      }
      var existing := LoadCommand(file.tables, request.commandId);
      var decision := Decide(existing, request);
      if decision.Denied? {
        return Denied(decision.reason);
      }
      if existing.Some? {
        if existing.value.owner != Some(owner) {
          return Denied(OwnershipConflict);
        }
        if decision.value == ReplayTerminal {
          if existing.value.resultSnapshot.None? {
            return Denied(SnapshotMissing);
          }
          return Ok(Replayed(existing.value, existing.value.resultSnapshot.value));
        }
        return Ok(Suspended(existing.value));
      }
      var accepted := NewCommand(request, owner, evidence.Some?, at);
      file.tables := PutCommand(file.tables, accepted);
      var executing := accepted.(status := Executing, version := 2);
      file.tables := PutCommand(file.tables, executing);
      answer := Ok(ClaimedExecuting(executing, evidence));
    }

    method AdmitControlOnlyCommand(request: Request, at: Timestamp) returns (answer: Result<Admission, CommandDenial>)
      requires Schema(file.tables)
      modifies file
      ensures Outcome(file.tables, answer) == Admit(old(file.tables), request, at)
      ensures Schema(file.tables)
    {
      if !request.Identified() {
        return Denied(IncompleteIdentity);
      }
      var existing := LoadCommand(file.tables, request.commandId);
      var decision := Decide(existing, request);
      if decision.Denied? {
        return Denied(decision.reason);
      }
      if !ControlOnly(request.operation) {
        return Ok(UnsupportedAtomicOperation);
      }
      if decision.value == ReplayTerminal {
        if existing.value.resultSnapshot.None? {
          return Denied(SnapshotMissing);
        }
        return Ok(AdmissionReplay(existing.value, existing.value.resultSnapshot.value));
      }
      if decision.value == ResumeInFlight {
        return Ok(AdmissionSuspended(existing.value));
      }
      var accepted := NewCommand(request, AtomicControlOnly, false, at);
      file.tables := PutCommand(file.tables, accepted);
      var executing := accepted.(status := Executing, version := 2);
      file.tables := PutCommand(file.tables, executing);
      answer := Ok(AdmittedExecuting(executing));
    }

    method InsertLegacyCommandIfAbsent(record: Command) returns (answer: Result<bool, CommandDenial>)
      requires Schema(file.tables)
      modifies file
      ensures Outcome(file.tables, answer) == LegacyStoreInsert(old(file.tables), record)
      ensures Schema(file.tables)
    {
      if record.owner != Some(Legacy) {
        return Denied(OwnershipConflict);
      }
      if record.request.commandId in file.tables.commands {
        return Ok(false);
      }
      var stored := record.(version := 1);
      file.tables := file.tables.(commands := file.tables.commands[stored.request.commandId := Row(stored.version, stored)]);
      answer := Ok(true);
    }

    method UpdateLegacyCommandIfVersion(proposed: Command, expectedVersion: int)
      returns (answer: Result<Command, CommandDenial>)
      requires Schema(file.tables)
      modifies file
      ensures Outcome(file.tables, answer) == LegacyUpdate(old(file.tables), proposed, expectedVersion)
      ensures Schema(file.tables)
    {
      var previous := LoadCommand(file.tables, proposed.request.commandId);
      var actual := if previous.Some? then previous.value.version else 0;
      if previous.None? || actual != expectedVersion {
        return Denied(VersionConflict);
      }
      if previous.value.owner != Some(Legacy) || proposed.owner != Some(Legacy) {
        return Denied(OwnershipConflict);
      }
      if Decide(previous, proposed.request).Denied? {
        return Denied(IdentityConflict);
      }
      if !LegacyMove(previous.value.status, proposed.status) {
        return Denied(LegacyTransition);
      }
      if file.tables.commands[proposed.request.commandId].version != expectedVersion {
        return Denied(LegacyTransition);  // the CAS touched no row
      }
      var saved := proposed.(version := actual + 1);
      file.tables := PutCommand(file.tables, saved);
      answer := Ok(saved);
    }

    /** The outbox loop of the commit. On failure the caller rolls back. */
    method AppendOutbox(events: seq<OutboxRecord>) returns (written: bool)
      requires Schema(file.tables)
      modifies file
      ensures Schema(file.tables)
      ensures file.tables == old(file.tables).(outbox := file.tables.outbox)
      ensures AppendEvents(old(file.tables.outbox), events) == if written then Some(file.tables.outbox) else None
    {
      var begin := file.tables;
      for i := 0 to |events|
        invariant file.tables == begin.(outbox := file.tables.outbox)
        invariant EventIdsUnique(file.tables.outbox)
        invariant AppendEvents(begin.outbox, events) == AppendEvents(file.tables.outbox, events[i..])
      {
        var event := events[i];
        if EventTaken(file.tables.outbox, event) {
          return false;
        }
        file.tables := file.tables.(outbox := file.tables.outbox[event.id := NewOutboxRow(event)]);
        assert events[i..][1..] == events[i + 1..];
      }
      written := true;
    }

    /** The Checkpoint and Control part of the commit, compare or CAS. On denial the caller rolls back. */
    method WriteRunState(input: CommitInput, at: Timestamp)
      returns (denied: Option<CommandDenial>, checkpoint: Checkpoint, control: Control)
      requires Schema(file.tables)
      requires input.control.runId == input.checkpoint.runId
      modifies file
      ensures Schema(file.tables)
      ensures file.tables == old(file.tables).(checkpoints := file.tables.checkpoints, controls := file.tables.controls)
      ensures var t, runId, writes := old(file.tables), input.checkpoint.runId, EffectiveWrites(input);
              && denied == RunStateDenial(t, input)
              && (denied.None? ==>
                  && checkpoint == CommittedCheckpoint(t, input, at)
                  && control == CommittedControl(t, input, at)
                  && file.tables.checkpoints ==
                     (if writes.checkpoint == CasUpdate then t.checkpoints[runId := Row(checkpoint.version, checkpoint)]
                      else t.checkpoints)
                  && file.tables.controls ==
                     (if writes.control == CasUpdate then t.controls[runId := Row(control.version, control)]
                      else t.controls))
    {
      var writes := EffectiveWrites(input);
      var runId := input.checkpoint.runId;
      denied, checkpoint, control := None, input.checkpoint, input.control;
      if runId !in file.tables.checkpoints || file.tables.checkpoints[runId].version != input.expectedCheckpointVersion {
        denied := Some(CheckpointConflict);
        return;
      }
      checkpoint := file.tables.checkpoints[runId].payload;
      if writes.checkpoint == CasUpdate {
        checkpoint := input.checkpoint.(version := input.expectedCheckpointVersion + 1, updatedAt := at);
        file.tables := file.tables.(checkpoints := file.tables.checkpoints[runId := Row(checkpoint.version, checkpoint)]);
      }
      if ControlVersionOf(file.tables, runId) != input.expectedControlVersion {
        denied := Some(ControlConflict);
        return;
      }
      control := if runId in file.tables.controls then file.tables.controls[runId].payload
                 else input.control.(version := 0);
      if writes.control == CasUpdate {
        control := input.control.(version := input.expectedControlVersion + 1, updatedAt := at);
        if input.expectedControlVersion == 0 && runId in file.tables.controls {
          denied := Some(ControlConflict);  // ON CONFLICT DO NOTHING
          return;
        }
        file.tables := file.tables.(controls := file.tables.controls[runId := Row(control.version, control)]);
      }
    }

    /** Writes row by row and restores the snapshot when a later check fails. */
    method CommitTerminal(input: CommitInput, at: Timestamp) returns (answer: Result<CommitAnswer, CommandDenial>)
      requires Schema(file.tables)
      modifies file
      ensures Outcome(file.tables, answer) == Commit(old(file.tables), input, at)
      ensures Schema(file.tables)
    {
      var begin := file.tables;
      var request := input.command.request;
      if EffectBacked(begin.effects, request.commandId) {
        return Denied(EffectRequiresReceipt);
      }
      if !EvidenceAccepted(begin, input) {
        return Denied(EvidenceConflict);
      }
      if input.checkpoint.runId != request.runId || input.control.runId != request.runId {
        return Denied(RunIdentity);
      }
      var denied, checkpoint, control := WriteRunState(input, at);
      if denied.Some? {
        file.tables := begin;
        return Denied(denied.value);
      }
      if !TerminalDraftAccepted(file.tables, input) {
        file.tables := begin;
        return Denied(CommandIdentityOrStatus);
      }
      if !EventsNameCommand(input.outbox, request) {
        file.tables := begin;
        return Denied(OutboxIdentity);
      }
      var command := input.command.(version := input.expectedCommandVersion + 1, updatedAt := at);
      file.tables := file.tables.(commands := file.tables.commands[request.commandId := Row(command.version, command)]);
      var written := AppendOutbox(input.outbox);
      if !written {
        file.tables := begin;
        return Denied(OutboxConflict);
      }
      answer := Ok(CommitAnswer(checkpoint, control, command));
    }

    method SaveRunCheckpoint(checkpoint: Checkpoint, expectedVersion: int, at: Timestamp)
      returns (answer: Result<Checkpoint, CommandDenial>)
      requires Schema(file.tables)
      modifies file
      ensures Outcome(file.tables, answer) == SaveCheckpoint(old(file.tables), checkpoint, expectedVersion, at)
      ensures Schema(file.tables)
    {
      var next := checkpoint.(version := expectedVersion + 1, updatedAt := at);
      var rows := file.tables.checkpoints;
      var written := false;
      if expectedVersion == 0 {
        if next.runId !in rows {
          file.tables := file.tables.(checkpoints := rows[next.runId := Row(next.version, next)]);
          written := true;
        }
      } else if next.runId in rows && rows[next.runId].version == expectedVersion {
        file.tables := file.tables.(checkpoints := rows[next.runId := Row(next.version, next)]);
        written := true;
      }
      if !written {
        return Denied(VersionConflict);
      }
      answer := Ok(next);
    }
  }
}
