/** Writer epochs: rotation, the fence checked inside each transaction, and fenced delivery on top of it. */
module FencedDelivery {
  import opened Text
  import opened Records
  import opened Database
  import opened OutboxDelivery

  datatype WriterFence = WriterFence(epoch: int, ownerId: string)

  /** The fence table is keyed by scope; `rows` stands for the tables a guarded update may write. */
  datatype FencedTables = FencedTables(fences: map<string, WriterFence>, queue: Queue, rows: map<string, string>)

  const OUTBOX_SCOPE := "outbox"

  datatype FenceDenial =
    | InvalidIdentity
    | InvalidFence
    | EpochOverflow
    | StaleWriter
    | InvalidClaim
    | InvalidAck
    | OutboxMissing
    | IdentityMismatch
    | LeaseMismatch
    | CasConflict
    | AckMismatch
    | StaleLease
    | SqlError
    | DateOutOfRange

  datatype FencedOutcome<+T> = FencedOutcome(tables: FencedTables, result: Result<T, FenceDenial>)

  // ----- rotation -----

  function EpochOf(fences: map<string, WriterFence>, scope: string): int {
    if scope in fences then fences[scope].epoch else 0
  }

  function Rotate(t: FencedTables, scope: string, ownerId: string): FencedOutcome<int> {
    if Blank(scope) || Blank(ownerId) then FencedOutcome(t, Denied(InvalidIdentity))
    else if !SafeInteger(EpochOf(t.fences, scope) + 1) then FencedOutcome(t, Denied(EpochOverflow))
    else
      var epoch := EpochOf(t.fences, scope) + 1;
      FencedOutcome(t.(fences := t.fences[scope := WriterFence(epoch, ownerId)]), Ok(epoch))
  }

  predicate Holds(fences: map<string, WriterFence>, scope: string, ownerId: string, epoch: int) {
    scope in fences && fences[scope] == WriterFence(epoch, ownerId)
  }

  /** What the trusted constant statement does when it runs: it raises, or leaves these rows and reports how many it changed. */
  datatype Statement = Raises | Writes(rows: map<string, string>, changes: nat)

  /** Answers the number of changed rows. */
  function GuardedUpdate(t: FencedTables, scope: string, ownerId: string, epoch: int, statement: Statement): FencedOutcome<nat>
  {
    if Blank(scope) || Blank(ownerId) || !SafeInteger(epoch) || epoch < 1 then FencedOutcome(t, Denied(InvalidFence))
    else if !Holds(t.fences, scope, ownerId, epoch) then FencedOutcome(t, Denied(StaleWriter))
    else if statement.Raises? then FencedOutcome(t, Denied(SqlError))
    else FencedOutcome(t.(rows := statement.rows), Ok(statement.changes))
  }

  // ----- fenced claim and acknowledgement -----

  datatype FencedClaimInput = FencedClaimInput(outboxId: string, workerId: string, epoch: int, consumer: Contract, nowMs: int, leaseMs: int)

  datatype FencedClaimAnswer =
    | FencedClaimed(record: OutboxRecord, token: string)
    | FencedBusy
    | FencedPlan(plan: DeliveryPlan)

  function Unfenced(input: FencedClaimInput): ClaimInput {
    ClaimInput(input.outboxId, input.workerId, input.consumer, input.nowMs, input.leaseMs)
  }

  /** The UPDATE is conditioned on the version and status that were read in the same transaction. */
  predicate CasMatches(outbox: map<string, OutboxRow>, current: OutboxRecord) {
    && current.id in outbox
    && outbox[current.id].eventId == current.eventId
    && outbox[current.id].record.version == current.version
    && outbox[current.id].record.status == current.status
  }

  function FencedClaim(t: FencedTables, input: FencedClaimInput, token: string): FencedOutcome<FencedClaimAnswer> {
    var id, q := input.outboxId, t.queue;
    if Blank(input.workerId) || !(0 <= input.nowMs <= MAX_SAFE) || !SafeInteger(input.leaseMs) || input.leaseMs <= 0
       || !SafeInteger(input.nowMs + input.leaseMs) then FencedOutcome(t, Denied(InvalidClaim))
    else if !Holds(t.fences, OUTBOX_SCOPE, input.workerId, input.epoch) then FencedOutcome(t, Denied(StaleWriter))
    else if id !in q.outbox then FencedOutcome(t, Denied(OutboxMissing))
    else if !Decodes(id, q.outbox[id]) then FencedOutcome(t, Denied(IdentityMismatch))
    else
      var record := q.outbox[id].record;
      var plan := PlanDelivery(record, input.consumer);
      if !plan.RequiresClaim? then FencedOutcome(t, Ok(FencedPlan(plan)))
      else if id in q.leases && q.leases[id].eventId != record.eventId then FencedOutcome(t, Denied(LeaseMismatch))
      else if id in q.leases && q.leases[id].expiresMs > input.nowMs then FencedOutcome(t, Ok(FencedBusy))
      else if input.nowMs > MAX_DATE_MS then FencedOutcome(t, Denied(DateOutOfRange))
      else if !CasMatches(q.outbox, record) then FencedOutcome(t, Denied(CasConflict))
      else if TokenTaken(q.leases, id, token) then FencedOutcome(t, Denied(SqlError))
      else
        var next := NextAttempt(record, input.nowMs);
        var lease := Lease(record.eventId, input.workerId, token, input.nowMs + input.leaseMs, next.attempts);
        FencedOutcome(t.(queue := Queue(q.outbox[id := q.outbox[id].(record := next)], q.leases[id := lease])),
                      Ok(FencedClaimed(next, token)))
  }

  datatype FencedAckInput = FencedAckInput(outboxId: string, eventId: string, workerId: string, epoch: int, token: string, nowMs: int)

  datatype FencedAckAnswer = FencedDispatched | FencedAlreadyDispatched

  function FencedAck(t: FencedTables, input: FencedAckInput): FencedOutcome<FencedAckAnswer> {
    var id, q := input.outboxId, t.queue;
    if !(0 <= input.nowMs <= MAX_SAFE) || Blank(input.token) then FencedOutcome(t, Denied(InvalidAck))
    else if !Holds(t.fences, OUTBOX_SCOPE, input.workerId, input.epoch) then FencedOutcome(t, Denied(StaleWriter))
    else if id !in q.outbox then FencedOutcome(t, Denied(OutboxMissing))
    else if !Decodes(id, q.outbox[id]) then FencedOutcome(t, Denied(IdentityMismatch))
    else
      var record := q.outbox[id].record;
      if record.eventId != input.eventId || id !in q.leases || q.leases[id].eventId != input.eventId
         || q.leases[id].workerId != input.workerId || q.leases[id].token != input.token then
        FencedOutcome(t, Denied(AckMismatch))
      else if record.status == Dispatched then FencedOutcome(t, Ok(FencedAlreadyDispatched))
      else if q.leases[id].expiresMs <= input.nowMs || q.leases[id].attempt != record.attempts then
        FencedOutcome(t, Denied(StaleLease))
      else if input.nowMs > MAX_DATE_MS then FencedOutcome(t, Denied(DateOutOfRange))
      else if !CasMatches(q.outbox, record) then FencedOutcome(t, Denied(CasConflict))
      else
        var next := DispatchedRecord(record, input.nowMs);
        FencedOutcome(t.(queue := Queue(q.outbox[id := q.outbox[id].(record := next)], q.leases)), Ok(FencedDispatched))
  }

  // ----- the classes -----

  class FencedFile {
    var tables: FencedTables

    constructor ()
      ensures tables == FencedTables(map[], Queue(map[], map[]), map[])
    {
      tables := FencedTables(map[], Queue(map[], map[]), map[]);
    }
  }

  class SQLiteWriterEpochStore {
    const file: FencedFile

    constructor (file: FencedFile)
      ensures this.file == file
    {
      this.file := file;
    }

    method RotateScope(scope: string, ownerId: string) returns (answer: Result<int, FenceDenial>)
      modifies file
      ensures FencedOutcome(file.tables, answer) == Rotate(old(file.tables), scope, ownerId)
    {
      if Blank(scope) || Blank(ownerId) {
        return Denied(InvalidIdentity);
      }
      var epoch := (if scope in file.tables.fences then file.tables.fences[scope].epoch else 0) + 1;
      if !SafeInteger(epoch) {
        return Denied(EpochOverflow);
      }
      file.tables := file.tables.(fences := file.tables.fences[scope := WriterFence(epoch, ownerId)]);
      answer := Ok(epoch);
    }

    method UpdateGuarded(scope: string, ownerId: string, epoch: int, statement: Statement)
      returns (answer: Result<nat, FenceDenial>)
      modifies file
      ensures FencedOutcome(file.tables, answer) == GuardedUpdate(old(file.tables), scope, ownerId, epoch, statement)
    {
      if Blank(scope) || Blank(ownerId) || !SafeInteger(epoch) || epoch < 1 {
        return Denied(InvalidFence);
      }
      if scope !in file.tables.fences {
        return Denied(StaleWriter);
      }
      var row := file.tables.fences[scope];
      if row.epoch != epoch || row.ownerId != ownerId {
        return Denied(StaleWriter);
      }
      if statement.Raises? {
        return Denied(SqlError);
      }
      file.tables := file.tables.(rows := statement.rows);
      answer := Ok(statement.changes);
    }
  }

  class SQLiteFencedOutboxDelivery {
    const file: FencedFile

    constructor (file: FencedFile)
      ensures this.file == file
    {
      this.file := file;
    }

    method RotateOwner(ownerId: string) returns (answer: Result<int, FenceDenial>)
      modifies file
      ensures FencedOutcome(file.tables, answer) == Rotate(old(file.tables), OUTBOX_SCOPE, ownerId)
    {
      assert !IsSpace(OUTBOX_SCOPE[0]) && !Blank(OUTBOX_SCOPE);
      if Blank(ownerId) {
        return Denied(InvalidIdentity);
      }
      var epoch := (if OUTBOX_SCOPE in file.tables.fences then file.tables.fences[OUTBOX_SCOPE].epoch else 0) + 1;
      if !SafeInteger(epoch) {
        return Denied(EpochOverflow);
      }
      file.tables := file.tables.(fences := file.tables.fences[OUTBOX_SCOPE := WriterFence(epoch, ownerId)]);
      answer := Ok(epoch);
    }

    method ClaimFenced(input: FencedClaimInput, token: string) returns (answer: Result<FencedClaimAnswer, FenceDenial>)
      modifies file
      ensures FencedOutcome(file.tables, answer) == FencedClaim(old(file.tables), input, token)
    {
      if Blank(input.workerId) || input.nowMs < 0 || input.nowMs > MAX_SAFE || !SafeInteger(input.leaseMs) || input.leaseMs <= 0
         || !SafeInteger(input.nowMs + input.leaseMs) {
        return Denied(InvalidClaim);
      }
      if !Holds(file.tables.fences, OUTBOX_SCOPE, input.workerId, input.epoch) {
        return Denied(StaleWriter);
      }
      var begin, id := file.tables, input.outboxId;
      if id !in begin.queue.outbox {
        return Denied(OutboxMissing);
      }
      var row := begin.queue.outbox[id];
      if !Decodes(id, row) {
        return Denied(IdentityMismatch);
      }
      var plan := PlanDelivery(row.record, input.consumer);
      if plan != RequiresClaim {
        return Ok(FencedPlan(plan));
      }
      if id in begin.queue.leases {
        if begin.queue.leases[id].eventId != row.record.eventId {
          return Denied(LeaseMismatch);
        }
        if begin.queue.leases[id].expiresMs > input.nowMs {
          return Ok(FencedBusy);
        }
      }
      if input.nowMs > MAX_DATE_MS {
        return Denied(DateOutOfRange);
      }
      var next := row.record.(attempts := row.record.attempts + 1, version := Increment(row.record.version), updatedAt := Instant(input.nowMs));
      if !CasMatches(begin.queue.outbox, row.record) {
        return Denied(CasConflict);
      }
      file.tables := file.tables.(queue := file.tables.queue.(outbox := begin.queue.outbox[id := row.(record := next)]));
      if exists o :: o in begin.queue.leases && o != id && begin.queue.leases[o].token == token {
        file.tables := begin;
        return Denied(SqlError);  // UNIQUE(lease_token)
      }
      var lease := Lease(row.record.eventId, input.workerId, token, input.nowMs + input.leaseMs, next.attempts);
      file.tables := file.tables.(queue := file.tables.queue.(leases := begin.queue.leases[id := lease]));
      answer := Ok(FencedClaimed(next, token));
    }

    method AcknowledgeFenced(input: FencedAckInput) returns (answer: Result<FencedAckAnswer, FenceDenial>)
      modifies file
      ensures FencedOutcome(file.tables, answer) == FencedAck(old(file.tables), input)
    {
      if input.nowMs < 0 || input.nowMs > MAX_SAFE || Blank(input.token) {
        return Denied(InvalidAck);
      }
      if !Holds(file.tables.fences, OUTBOX_SCOPE, input.workerId, input.epoch) {
        return Denied(StaleWriter);
      }
      var q, id := file.tables.queue, input.outboxId;
      if id !in q.outbox {
        return Denied(OutboxMissing);
      }
      var row := q.outbox[id];
      if !Decodes(id, row) {
        return Denied(IdentityMismatch);
      }
      if row.record.eventId != input.eventId || id !in q.leases || q.leases[id].eventId != input.eventId
         || q.leases[id].workerId != input.workerId || q.leases[id].token != input.token {
        return Denied(AckMismatch);
      }
      if row.record.status == Dispatched {
        return Ok(FencedAlreadyDispatched);
      }
      if q.leases[id].expiresMs <= input.nowMs || q.leases[id].attempt != row.record.attempts {
        return Denied(StaleLease);
      }
      if input.nowMs > MAX_DATE_MS {
        return Denied(DateOutOfRange);
      }
      if !CasMatches(q.outbox, row.record) {
        return Denied(CasConflict);
      }
      var next := row.record.(status := Dispatched, version := Increment(row.record.version), updatedAt := Instant(input.nowMs),
                              dispatchedAt := Some(Instant(input.nowMs)));
      file.tables := file.tables.(queue := q.(outbox := q.outbox[id := row.(record := next)]));
      answer := Ok(FencedDispatched);
    }
  }
}
