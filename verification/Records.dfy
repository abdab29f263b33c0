/** The values stored in, and passed between, the recovery tables. */
module Records {
  import opened Text

  /** Times are opaque to the protocol except for whether they parse. */
  datatype Timestamp = Instant(ms: int) | Unparsable(text: string)

  datatype Operation =
    | RetryRecovery
    | ReconcileAgain
    | Quarantine
    | ReleaseQuarantine
    | Resume
    | DeadLetter

  predicate ControlOnly(operation: Operation) {
    operation.Quarantine? || operation.ReleaseQuarantine? || operation.DeadLetter?
  }

  datatype Owner = Legacy | AtomicControlOnly

  /** A recovery command as its caller sends it: the immutable identity of the durable record. */
  datatype Request = Request(
    commandId: string,
    runId: string,
    operation: Operation,
    requestedBy: string,
    reason: string,
    expectedCheckpointVersion: int,
    expectedControlVersion: Option<int>)
  {
    /** `expectedControlVersion ?? 0` */
    function ControlVersion(): int {
      if expectedControlVersion.Some? then expectedControlVersion.value else 0
    }

    predicate Identified() {
      !Blank(commandId) && !Blank(runId) && !Blank(requestedBy)
    }
  }

  datatype CommandStatus = Accepted | Executing | Succeeded | Rejected | Failed

  predicate Terminal(status: CommandStatus) {
    status.Succeeded? || status.Rejected? || status.Failed?
  }

  datatype ResultStatus = Executed | Refused | QuarantineSet | Released | DeadLettered | NoOp

  datatype ResultReason =
    | AuthorizationReason(text: string)
    | CheckpointVersionConflict
    | ControlVersionConflict
    | CheckpointAlreadyCompleted
    | RunDeadLettered
    | RunAlreadyQuarantined
    | RunQuarantined
    | ReleaseRequiresQuarantine
    | RunReleased
    | ResumeRequiresQuarantine
    | Recovery(text: string)
    | ExecutorError(text: string)

  datatype Snapshot = Snapshot(
    status: ResultStatus,
    reason: ResultReason,
    checkpointVersion: int,
    controlVersion: int)

  datatype Command = Command(
    request: Request,
    owner: Option<Owner>,
    fenced: bool,
    status: CommandStatus,
    version: int,
    createdAt: Timestamp,
    updatedAt: Timestamp,
    resultReason: Option<ResultReason>,
    resultSnapshot: Option<Snapshot>)

  datatype ControlStatus = Active | Quarantined | Dead

  datatype Control = Control(
    runId: string,
    version: int,
    status: ControlStatus,
    reason: Option<string>,
    updatedBy: Option<string>,
    causedBy: Option<string>,
    updatedAt: Timestamp)

  datatype ToolOutcome =
    | NeverExecuted
    | Started
    | ToolExecuted
    | ToolFailed
    | Unknown
    | CancelledBeforeExecution

  datatype SideEffect = NoSideEffect | InternalWrite | ExternalSideEffect

  datatype ToolRecord = ToolRecord(
    toolCallId: string,
    toolName: string,
    outcome: ToolOutcome,
    idempotencyKey: Option<string>,
    sideEffect: Option<SideEffect>,
    retrySafe: Option<bool>,
    finishedAt: Option<Timestamp>)

  datatype Boundary =
    | ReadyForLlm
    | ReadyForTool
    | WaitingApproval
    | ReconcilingTool
    | ReadyForNextStep
    | Completed

  datatype Checkpoint = Checkpoint(
    runId: string,
    version: int,
    step: int,
    boundary: Boundary,
    tools: seq<ToolRecord>,
    causedBy: Option<string>,
    updatedAt: Timestamp)

  // ----- authorization -----

  datatype Revisions = Revisions(runTenant: int, runAcl: int, actorGrant: int)

  datatype Evidence = Evidence(
    actorId: string,
    tenantId: string,
    runId: string,
    operation: Operation,
    allowed: bool,
    revisions: Revisions)

  datatype RunAuthority = RunAuthority(tenantId: string, tenantRevision: int, aclRevision: int)
  datatype GrantKey = GrantKey(actorId: string, tenantId: string, operation: Operation)
  datatype Grant = Grant(revision: int, allowed: bool)
  datatype PermissionKey = PermissionKey(runId: string, actorId: string, operation: Operation)

  /** The three authority tables, maintained by the ACL writer. */
  datatype Acl = Acl(
    runs: map<string, RunAuthority>,
    grants: map<GrantKey, Grant>,
    permissions: map<PermissionKey, bool>)

  // ----- external effects -----

  datatype Intent = Intent(
    command: Request,
    owner: Owner,
    effectId: string,
    idempotencyKey: string,
    evidence: Evidence)

  datatype Fence = Fence(
    commandId: string,
    runId: string,
    actorId: string,
    tenantId: string,
    owner: Owner,
    effectId: string,
    idempotencyKey: string,
    epoch: int,
    revisions: Revisions)

  datatype EffectStatus = PendingEffect | Leased | UnknownEffect | Committed

  datatype Effect = Effect(
    idempotencyKey: string,
    intent: Intent,
    status: EffectStatus,
    epoch: int,
    dispatcher: Option<string>)

  datatype SinkReceipt = SinkReceipt(effectId: string, appliedEpoch: int)

  /** `trusted` stands for the source literal "authenticated_server_adapter". */
  datatype Receipt = Receipt(
    trusted: bool,
    providerId: string,
    profileRevision: int,
    receiptId: string,
    commandId: string,
    runId: string,
    operation: Operation,
    actorId: string,
    tenantId: string,
    owner: Owner,
    effectId: string,
    idempotencyKey: string,
    epoch: int,
    observedAtMs: int)

  datatype RemoteRow = RemoteRow(
    providerId: string,
    receiptId: string,
    idempotencyKey: string,
    receipt: Receipt)

  datatype Consumption = Consumption(
    providerId: string,
    receiptId: string,
    commandId: string,
    eventId: string,
    controlVersion: int)

  // ----- outbox -----

  datatype OutboxKind = Audit | RecoveryEvent
  datatype OutboxStatus = Pending | Dispatched

  datatype PreparationOutcome = Applied | RejectedOutcome | NoOpOutcome

  /** The JSON body of an event; the first two never serialize to a blank string. */
  datatype Body =
    | TerminalAudit(operation: Operation, outcome: PreparationOutcome, reason: ResultReason)
    | ReceiptAudit(auditedOperation: Operation, receiptId: string, providerId: string)
    | RawBody(text: string)

  predicate BlankBody(body: Body) {
    body.RawBody? && Blank(body.text)
  }

  datatype OutboxRecord = OutboxRecord(
    id: string,
    eventId: string,
    commandId: string,
    runId: string,
    kind: OutboxKind,
    payload: Body,
    status: OutboxStatus,
    attempts: int,
    version: int,
    createdAt: Timestamp,
    updatedAt: Timestamp,
    dispatchedAt: Option<Timestamp>)

  /** The table columns beside the JSON payload column. */
  datatype OutboxRow = OutboxRow(
    eventId: string,
    commandId: string,
    runId: string,
    record: OutboxRecord)

  datatype Lease = Lease(
    eventId: string,
    workerId: string,
    token: string,
    expiresMs: int,
    attempt: int)

  /** A row with its own version column beside the JSON payload. */
  datatype Row<+T> = Row(version: int, payload: T)
}
