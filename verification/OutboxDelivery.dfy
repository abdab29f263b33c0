/** Claiming, leasing and acknowledging outbox records on the producer's side. */
module OutboxDelivery {
  import opened Text
  import opened Records
  import opened Database

  /** What the consumer has been verified to guarantee. */
  datatype Contract = Contract(
    durableDedupeByEventId: bool,
    dedupeRetentionSeconds: int,
    deliveryRecoveryWindowSeconds: int,
    authenticatedEventAck: bool)

  datatype PlanHold =
    | InvalidOutboxRecord
    | ConsumerDedupeUnverified
    | DedupeWindowInsufficient
    | AckContractUnverified

  datatype DeliveryPlan = HoldDelivery(reason: PlanHold) | AlreadyDelivered | RequiresClaim

  predicate WellFormedRecord(record: OutboxRecord) {
    && !Blank(record.id) && !Blank(record.eventId) && !Blank(record.commandId) && !Blank(record.runId)
    && !BlankBody(record.payload)
    && 1 <= record.version <= MAX_SAFE
    && 0 <= record.attempts <= MAX_SAFE
  }

  function PlanDelivery(record: OutboxRecord, consumer: Contract): DeliveryPlan {
    if !WellFormedRecord(record) then HoldDelivery(InvalidOutboxRecord)
    else if record.status == Dispatched then AlreadyDelivered
    else if !consumer.durableDedupeByEventId then HoldDelivery(ConsumerDedupeUnverified)
    else if !SafeInteger(consumer.dedupeRetentionSeconds) || !SafeInteger(consumer.deliveryRecoveryWindowSeconds)
            || consumer.deliveryRecoveryWindowSeconds <= 0
            || consumer.dedupeRetentionSeconds < consumer.deliveryRecoveryWindowSeconds then
      HoldDelivery(DedupeWindowInsufficient)
    else if !consumer.authenticatedEventAck then HoldDelivery(AckContractUnverified)
    else RequiresClaim
  }

  /** The two producer tables that delivery touches. */
  datatype Queue = Queue(outbox: map<string, OutboxRow>, leases: map<string, Lease>)

  function QueueOf(t: Tables): Queue {
    Queue(t.outbox, t.leases)
  }

  function WithQueue(t: Tables, queue: Queue): Tables {
    t.(outbox := queue.outbox, leases := queue.leases)
  }

  datatype QueueOutcome<+T, +E> = QueueOutcome(queue: Queue, result: Result<T, E>)

  datatype DeliveryDenial =
    | OutboxIdentityMismatch
    | LeaseIdentityMismatch
    | ClaimTransactionFailed
    | AckUntrustedOrInvalid
    | AckBindingMismatch
    | AckStaleLease
    | AckTransactionFailed

  /** The JSON payload repeats the columns. */
  predicate Decodes(id: string, row: OutboxRow) {
    && row.record.id == id
    && row.record.eventId == row.eventId
    && row.record.commandId == row.commandId
    && row.record.runId == row.runId
  }

  /** 1 + attempts, plus one once dispatched; only a record dispatched after 2^53 - 1 attempts loses the last step. */
  predicate VersionCounts(record: OutboxRecord) {
    && 0 <= record.attempts <= MAX_SAFE
    && (record.status == Pending ==> record.version == 1 + record.attempts)
    && (record.status == Dispatched ==>
        && 1 <= record.attempts
        && record.version == if record.attempts == MAX_SAFE then 1 + record.attempts else 2 + record.attempts)
  }

  datatype ClaimInput = ClaimInput(outboxId: string, workerId: string, consumer: Contract, nowMs: int, leaseMs: int)

  predicate ValidClaimInput(input: ClaimInput) {
    && !Blank(input.outboxId) && !Blank(input.workerId)
    && 0 <= input.nowMs <= MAX_SAFE
    && 0 < input.leaseMs <= MAX_SAFE
    && input.nowMs + input.leaseMs <= MAX_SAFE
  }

  datatype LeaseAnswer =
    | LeaseClaimed(record: OutboxRecord, token: string, expiresMs: int, consumerIdempotencyKey: string)
    | Busy(eventId: string, expiresMs: int)
    | AlreadyDispatched(eventId: string)
    | Held

  function NextAttempt(record: OutboxRecord, nowMs: int): OutboxRecord {
    record.(attempts := record.attempts + 1, version := Increment(record.version), updatedAt := Instant(nowMs))
  }

  predicate TokenTaken(leases: map<string, Lease>, outboxId: string, token: string) {
    exists o :: o in leases && o != outboxId && leases[o].token == token
  }

  function ClaimLease(q: Queue, input: ClaimInput, token: string): QueueOutcome<LeaseAnswer, DeliveryDenial> {
    var id := input.outboxId;
    if !ValidClaimInput(input) || id !in q.outbox then QueueOutcome(q, Ok(Held))
    else if !Decodes(id, q.outbox[id]) then QueueOutcome(q, Denied(OutboxIdentityMismatch))
    else
      var record := q.outbox[id].record;
      match PlanDelivery(record, input.consumer)
      case HoldDelivery(_) => QueueOutcome(q, Ok(Held))
      case AlreadyDelivered => QueueOutcome(q, Ok(AlreadyDispatched(record.eventId)))
      case RequiresClaim =>
        if id in q.leases && q.leases[id].eventId != record.eventId then QueueOutcome(q, Denied(LeaseIdentityMismatch))
        else if id in q.leases && q.leases[id].expiresMs > input.nowMs then
          QueueOutcome(q, Ok(Busy(record.eventId, q.leases[id].expiresMs)))
        else if input.nowMs > MAX_DATE_MS || TokenTaken(q.leases, id, token) then
          QueueOutcome(q, Denied(ClaimTransactionFailed))
        else
          var next := NextAttempt(record, input.nowMs);
          var expires := input.nowMs + input.leaseMs;
          QueueOutcome(
            Queue(q.outbox[id := q.outbox[id].(record := next)],
                  q.leases[id := Lease(record.eventId, input.workerId, token, expires, next.attempts)]),
            Ok(LeaseClaimed(next, token, expires, record.eventId)))
  }

  datatype AckInput = AckInput(outboxId: string, eventId: string, token: string, nowMs: int)

  datatype AckAnswer =
    | AckDispatched(eventId: string, version: int)
    | AckAlreadyDispatched(eventId: string, version: int)

  function DispatchedRecord(record: OutboxRecord, nowMs: int): OutboxRecord {
    record.(status := Dispatched, version := Increment(record.version), updatedAt := Instant(nowMs),
            dispatchedAt := Some(Instant(nowMs)))
  }

  function Acknowledge(q: Queue, input: AckInput): QueueOutcome<AckAnswer, DeliveryDenial> {
    var id := input.outboxId;
    if Blank(id) || Blank(input.eventId) || Blank(input.token) || !(0 <= input.nowMs <= MAX_SAFE) then
      QueueOutcome(q, Denied(AckUntrustedOrInvalid))
    else if id !in q.outbox || id !in q.leases || q.outbox[id].eventId != input.eventId
            || q.leases[id].eventId != input.eventId || q.leases[id].token != input.token then
      QueueOutcome(q, Denied(AckBindingMismatch))
    else if !Decodes(id, q.outbox[id]) then QueueOutcome(q, Denied(OutboxIdentityMismatch))
    else
      var record := q.outbox[id].record;
      if record.status == Dispatched then QueueOutcome(q, Ok(AckAlreadyDispatched(record.eventId, record.version)))
      else if input.nowMs >= q.leases[id].expiresMs || q.leases[id].attempt != record.attempts then
        QueueOutcome(q, Denied(AckStaleLease))
      else if input.nowMs > MAX_DATE_MS then QueueOutcome(q, Denied(AckTransactionFailed))
      else
        var next := DispatchedRecord(record, input.nowMs);
        QueueOutcome(Queue(q.outbox[id := q.outbox[id].(record := next)], q.leases),
                     Ok(AckDispatched(record.eventId, next.version)))
  }

  // ----- the authenticated acknowledgement -----

  datatype AckEvidence = AckEvidence(
    eventId: string,
    outboxId: string,
    commandId: string,
    runId: string,
    consumerId: string,
    evidenceId: string,
    observedAtMs: int)

  datatype VerifiedAckInput = VerifiedAckInput(
    outboxId: string,
    eventId: string,
    token: string,
    consumerId: string,
    nowMs: int,
    maxEvidenceAgeMs: int)

  predicate EvidenceBindsRecord(evidence: AckEvidence, record: OutboxRecord, input: VerifiedAckInput) {
    && !Blank(evidence.eventId) && !Blank(evidence.outboxId) && !Blank(evidence.commandId) && !Blank(evidence.runId)
    && !Blank(evidence.consumerId) && !Blank(evidence.evidenceId)
    && evidence.eventId == record.eventId
    && evidence.outboxId == record.id
    && evidence.commandId == record.commandId
    && evidence.runId == record.runId
    && evidence.consumerId == input.consumerId
    && SafeInteger(input.nowMs) && SafeInteger(evidence.observedAtMs) && SafeInteger(input.maxEvidenceAgeMs)
    && 0 < input.maxEvidenceAgeMs
    && evidence.observedAtMs <= input.nowMs
    && input.nowMs - evidence.observedAtMs <= input.maxEvidenceAgeMs
  }

  datatype VerifiedAck = AckHeld | AckAnswered(answer: AckAnswer)

  /** The look at the record before the verifier is asked. */
  function InspectFor(q: Queue, input: VerifiedAckInput): Result<Option<OutboxRecord>, DeliveryDenial> {
    if input.outboxId !in q.outbox then Ok(None)
    else if !Decodes(input.outboxId, q.outbox[input.outboxId]) then Denied(OutboxIdentityMismatch)
    else if q.outbox[input.outboxId].record.eventId != input.eventId then Ok(None)
    else Ok(Some(q.outbox[input.outboxId].record))
  }

  /**
   * The record is inspected in `q`; `verified` is what the verifier answers, None also for one that
   * threw; the acknowledgement runs in `afterVerify`, which is what rivals left while it was asked.
   */
  function AcknowledgeVerified(q: Queue, verified: Option<AckEvidence>, afterVerify: Queue, input: VerifiedAckInput)
    : QueueOutcome<VerifiedAck, DeliveryDenial>
  {
    match InspectFor(q, input)
    case Denied(reason) => QueueOutcome(q, Denied(reason))
    case Ok(None) => QueueOutcome(q, Ok(AckHeld))
    case Ok(Some(record)) =>
      if verified.None? || !EvidenceBindsRecord(verified.value, record, input) then QueueOutcome(afterVerify, Ok(AckHeld))
      else
        var acked := Acknowledge(afterVerify, AckInput(record.id, record.eventId, input.token, input.nowMs));
        match acked.result
        case Ok(answer) => QueueOutcome(acked.queue, Ok(AckAnswered(answer)))
        case Denied(reason) => QueueOutcome(acked.queue, Denied(reason))
  }

  // ----- the class -----

  class SQLiteRecoveryOutboxDeliveryClaimer {
    const file: SqliteFile

    constructor (file: SqliteFile)
      ensures this.file == file
    {
      this.file := file;
    }

    /** `token` is the fresh UUID of this call. */
    method ClaimDelivery(input: ClaimInput, token: string) returns (answer: Result<LeaseAnswer, DeliveryDenial>)
      requires Schema(file.tables)
      modifies file
      ensures var expected := ClaimLease(QueueOf(old(file.tables)), input, token);
              answer == expected.result && file.tables == WithQueue(old(file.tables), expected.queue)
      ensures Schema(file.tables)
    {
      var id := input.outboxId;
      if !ValidClaimInput(input) {
        return Ok(Held);
      }
      if id !in file.tables.outbox {
        return Ok(Held);
      }
      var row := file.tables.outbox[id];
      if !Decodes(id, row) {
        return Denied(OutboxIdentityMismatch);
      }
      var record := row.record;
      var plan := PlanDelivery(record, input.consumer);
      if plan.HoldDelivery? {
        return Ok(Held);
      }
      if plan.AlreadyDelivered? {
        return Ok(AlreadyDispatched(record.eventId));
      }
      if id in file.tables.leases {
        var previous := file.tables.leases[id];
        if previous.eventId != record.eventId {
          return Denied(LeaseIdentityMismatch);
        }
        if previous.expiresMs > input.nowMs {
          return Ok(Busy(record.eventId, previous.expiresMs));
        }
      }
      if input.nowMs > MAX_DATE_MS {
        return Denied(ClaimTransactionFailed);  // toISOString throws
      }
      var begin := file.tables;
      var expires := input.nowMs + input.leaseMs;
      var next := record.(attempts := record.attempts + 1, version := Increment(record.version), updatedAt := Instant(input.nowMs));
      file.tables := file.tables.(outbox := file.tables.outbox[id := row.(record := next)]);
      if exists o :: o in file.tables.leases && o != id && file.tables.leases[o].token == token {
        file.tables := begin;
        return Denied(ClaimTransactionFailed);  // UNIQUE(lease_token)
      }
      var lease := Lease(record.eventId, input.workerId, token, expires, next.attempts);
      file.tables := file.tables.(leases := file.tables.leases[id := lease]);
      answer := Ok(LeaseClaimed(next, token, expires, record.eventId));
    }

    method AcknowledgeDelivery(input: AckInput) returns (answer: Result<AckAnswer, DeliveryDenial>)
      requires Schema(file.tables)
      modifies file
      ensures var expected := Acknowledge(QueueOf(old(file.tables)), input);
              answer == expected.result && file.tables == WithQueue(old(file.tables), expected.queue)
      ensures Schema(file.tables)
    {
      var id := input.outboxId;
      if Blank(id) || Blank(input.eventId) || Blank(input.token) || input.nowMs < 0 || input.nowMs > MAX_SAFE {
        return Denied(AckUntrustedOrInvalid);
      }
      if id !in file.tables.outbox || id !in file.tables.leases {
        return Denied(AckBindingMismatch);
      }
      var row, lease := file.tables.outbox[id], file.tables.leases[id];
      if row.eventId != input.eventId || lease.eventId != input.eventId || lease.token != input.token {
        return Denied(AckBindingMismatch);
      }
      if !Decodes(id, row) {
        return Denied(OutboxIdentityMismatch);
      }
      var record := row.record;
      if record.status == Dispatched {
        return Ok(AckAlreadyDispatched(record.eventId, record.version));
      }
      if input.nowMs >= lease.expiresMs || lease.attempt != record.attempts {
        return Denied(AckStaleLease);
      }
      if input.nowMs > MAX_DATE_MS {
        return Denied(AckTransactionFailed);  // toISOString throws
      }
      var next := record.(status := Dispatched, version := Increment(record.version), updatedAt := Instant(input.nowMs),
                          dispatchedAt := Some(Instant(input.nowMs)));
      file.tables := file.tables.(outbox := file.tables.outbox[id := row.(record := next)]);
      answer := Ok(AckDispatched(record.eventId, next.version));
    }

    /** Other connections ran while the verifier was asked. */
    method OthersRan(found: Tables)
      requires Schema(found)
      modifies file
      ensures file.tables == found
    {
      file.tables := found;
    }

    method AcknowledgeVerifiedConsumerDelivery(verified: Option<AckEvidence>, afterVerify: Tables, input: VerifiedAckInput)
      returns (answer: Result<VerifiedAck, DeliveryDenial>)
      requires Schema(file.tables) && Schema(afterVerify)
      modifies file
      ensures var q := QueueOf(old(file.tables));
              var expected := AcknowledgeVerified(q, verified, QueueOf(afterVerify), input);
              && answer == expected.result
              && file.tables == if InspectFor(q, input).Ok? && InspectFor(q, input).value.Some?
                                then WithQueue(afterVerify, expected.queue) else old(file.tables)
      ensures Schema(file.tables)
    {
      hide Acknowledge, Schema;
      if input.outboxId !in file.tables.outbox {
        return Ok(AckHeld);
      }
      if !Decodes(input.outboxId, file.tables.outbox[input.outboxId]) {
        return Denied(OutboxIdentityMismatch);
      }
      var record := file.tables.outbox[input.outboxId].record;
      if record.eventId != input.eventId {
        return Ok(AckHeld);
      }
      OthersRan(afterVerify);
      if verified.None? {
        return Ok(AckHeld);
      }
      if !EvidenceBindsRecord(verified.value, record, input) {
        return Ok(AckHeld);
      }
      var acked := AcknowledgeDelivery(AckInput(record.id, record.eventId, input.token, input.nowMs));
      answer := if acked.Ok? then Ok(AckAnswered(acked.value)) else Denied(acked.reason);
    }
  }
}
