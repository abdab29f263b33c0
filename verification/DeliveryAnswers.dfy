/** When an outbox record is leased, acknowledged and consumed, in terms of the record, the lease and the caller's words alone. */
module DeliveryAnswers {
  import opened Text
  import opened Records
  import opened Database
  import opened World
  import opened Invariants
  import opened Safety
  import opened OutboxDelivery
  import opened ConsumerInbox

  // ----- leasing -----

  /** Duplicates are recognised for at least as long as a delivery may be repeated, and acknowledgements are authentic. */
  predicate Dependable(consumer: Contract) {
    && consumer.durableDedupeByEventId && consumer.authenticatedEventAck
    && 0 < consumer.deliveryRecoveryWindowSeconds <= consumer.dedupeRetentionSeconds <= MAX_SAFE
  }

  predicate Deliverable(record: OutboxRecord) {
    && !Blank(record.id) && !Blank(record.eventId) && !Blank(record.commandId) && !Blank(record.runId)
    && (record.payload.RawBody? ==> !Blank(record.payload.text))
    && 1 <= record.version <= MAX_SAFE && 0 <= record.attempts <= MAX_SAFE
  }

  /** The call names a worker and a lease that ends within the safe integers, and the record is there and sound. */
  predicate Addressed(q: Queue, input: ClaimInput) {
    && !Blank(input.outboxId) && !Blank(input.workerId)
    && 0 <= input.nowMs < input.nowMs + input.leaseMs <= MAX_SAFE
    && input.outboxId in q.outbox && Deliverable(q.outbox[input.outboxId].record)
  }

  /** A lease of the record that ends after this moment. */
  predicate LiveLease(q: Queue, id: string, nowMs: int) {
    id in q.leases && nowMs < q.leases[id].expiresMs
  }

  /** A pending record, a dependable consumer, and nobody busy with it. */
  predicate Due(q: Queue, input: ClaimInput) {
    Addressed(q, input) && q.outbox[input.outboxId].record.status == Pending && Dependable(input.consumer)
  }

  predicate Possible(q: Queue, input: ClaimInput, token: string) {
    input.nowMs <= MAX_DATE_MS && forall l | l in q.leases && l != input.outboxId :: q.leases[l].token != token
  }

  /** The granted lease: one attempt and one version more, and the lease of this worker under this token. */
  predicate Granted(q: Queue, input: ClaimInput, token: string, o: QueueOutcome<LeaseAnswer, DeliveryDenial>)
    requires Addressed(q, input)
  {
    var id, expires := input.outboxId, input.nowMs + input.leaseMs;
    var row := q.outbox[id];
    var next := row.record.(attempts := row.record.attempts + 1, version := row.record.version + 1, updatedAt := Instant(input.nowMs));
    && o.result == Ok(LeaseClaimed(next, token, expires, row.eventId))
    && o.queue == Queue(q.outbox[id := row.(record := next)],
                        q.leases[id := Lease(row.eventId, input.workerId, token, expires, next.attempts)])
  }

  /** The answer to a claim, case by case; whatever is not granted changes nothing. */
  ghost predicate LeaseAnswered(q: Queue, input: ClaimInput, token: string, o: QueueOutcome<LeaseAnswer, DeliveryDenial>) {
    var id := input.outboxId;
    if !Addressed(q, input) then o == QueueOutcome(q, Ok(Held))
    else if q.outbox[id].record.status == Dispatched then o == QueueOutcome(q, Ok(AlreadyDispatched(q.outbox[id].eventId)))
    else if !Dependable(input.consumer) then o == QueueOutcome(q, Ok(Held))
    else if LiveLease(q, id, input.nowMs) then o == QueueOutcome(q, Ok(Busy(q.outbox[id].eventId, q.leases[id].expiresMs)))
    else if Possible(q, input, token) then Granted(q, input, token, o)
    else o == QueueOutcome(q, Denied(ClaimTransactionFailed))
  }

  /** In a sound queue the two identity mismatches never happen, and the plan's holds are the reasons above. */
  lemma LeaseOnRows(q: Queue, input: ClaimInput, token: string)
    requires OutboxRows(q.outbox, q.leases)
    ensures LeaseAnswered(q, input, token, ClaimLease(q, input, token))
  {
    if input.outboxId in q.outbox {
      RowShape(q.outbox, q.leases, input.outboxId);
      PlanMeans(q.outbox[input.outboxId].record, input.consumer);
    }
    hide OutboxRows, Blank, Decodes, PlanDelivery, Deliverable, Dependable, VersionCounts;
    TakenMeans(q.leases, input.outboxId, token);
    hide TokenTaken;
    if Addressed(q, input) {
      VersionIsSafe(q.outbox[input.outboxId].record);
    }
  }

  lemma VersionIsSafe(record: OutboxRecord)
    requires Deliverable(record)
    ensures Increment(record.version) == record.version + 1
  {
  }

  lemma PlanMeans(record: OutboxRecord, consumer: Contract)
    ensures PlanDelivery(record, consumer).RequiresClaim? <==> Deliverable(record) && record.status == Pending && Dependable(consumer)
    ensures PlanDelivery(record, consumer).AlreadyDelivered? <==> Deliverable(record) && record.status == Dispatched
  {
    hide Blank;
  }

  /**
   * In every reachable state a well-addressed call leases a pending record exactly when its consumer is dependable and no lease is
   * live. It learns who is busy exactly when one is, and that the record is dispatched exactly when it is; it is held back
   * for an undependable consumer, and fails for a clock beyond the range of dates or a token in use elsewhere.
   */
  lemma LeaseDecides(w: World, input: ClaimInput, token: string)
    requires Reachable(w)
    ensures var q := QueueOf(w.t);
            var o := ClaimLease(q, input, token);
            && LeaseAnswered(q, input, token, o)
            && (o.result.Ok? && o.result.value.LeaseClaimed? <==>
                Due(q, input) && !LiveLease(q, input.outboxId, input.nowMs) && Possible(q, input, token))
            && (o.result.Ok? && o.result.value.Busy? <==> Due(q, input) && LiveLease(q, input.outboxId, input.nowMs))
  {
    hide Reachable, OutboxRows, ClaimLease, Deliverable, Dependable, Blank;
    ReachableFacts(w);
    LeaseOnRows(QueueOf(w.t), input, token);
  }

  lemma RowShape(outbox: map<string, OutboxRow>, leases: map<string, Lease>, id: string)
    requires OutboxRows(outbox, leases) && id in outbox
    ensures Decodes(id, outbox[id]) && outbox[id].record.eventId == outbox[id].eventId
    ensures id in leases ==> leases[id].eventId == outbox[id].eventId && leases[id].attempt == outbox[id].record.attempts
    ensures id in leases <==> outbox[id].record.attempts > 0
    ensures VersionCounts(outbox[id].record)
  {
    assert OutboxRowOk(id, outbox[id]);
  }

  lemma TakenMeans(leases: map<string, Lease>, id: string, token: string)
    ensures TokenTaken(leases, id, token) <==> !forall l | l in leases && l != id :: leases[l].token != token
  {
  }

  // ----- acknowledging -----

  /** The call names the record's event and the token of its latest lease. */
  predicate HoldsLease(q: Queue, ack: AckInput) {
    && !Blank(ack.outboxId) && !Blank(ack.eventId) && !Blank(ack.token) && 0 <= ack.nowMs <= MAX_SAFE
    && ack.outboxId in q.outbox && q.outbox[ack.outboxId].eventId == ack.eventId
    && ack.outboxId in q.leases && q.leases[ack.outboxId].token == ack.token
  }

  /** Under the latest token a pending record is dispatched exactly before its lease ends; a dispatched one is only confirmed. */
  lemma AckDecides(w: World, ack: AckInput)
    requires Reachable(w)
    ensures var q, id := QueueOf(w.t), ack.outboxId;
            var o := Acknowledge(q, ack);
            var inTime := HoldsLease(q, ack) && q.outbox[id].record.status == Pending && ack.nowMs < q.leases[id].expiresMs
                          && ack.nowMs <= MAX_DATE_MS;
            && (o.result.Ok? && o.result.value.AckDispatched? <==> inTime)
            && (o.result.Ok? && o.result.value.AckAlreadyDispatched? <==> HoldsLease(q, ack) && q.outbox[id].record.status == Dispatched)
            && (o.result.Ok? && o.result.value.AckAlreadyDispatched? ==>
                o.result.value == AckAlreadyDispatched(ack.eventId, q.outbox[id].record.version))
            && (inTime ==>
                var record := q.outbox[id].record;
                var next := record.(status := Dispatched, version := Increment(record.version), updatedAt := Instant(ack.nowMs),
                                    dispatchedAt := Some(Instant(ack.nowMs)));
                && o.result.value == AckDispatched(ack.eventId, next.version)
                && o.queue == q.(outbox := q.outbox[id := q.outbox[id].(record := next)]))
            && (!inTime ==> o.queue == q)
            && (o.result == Denied(AckStaleLease) <==>
                HoldsLease(q, ack) && q.outbox[id].record.status == Pending && q.leases[id].expiresMs <= ack.nowMs)
  {
    hide Reachable;
    ReachableFacts(w);
    if ack.outboxId in w.t.outbox {
      RowShape(w.t.outbox, w.t.leases, ack.outboxId);
    }
    hide OutboxRows, Blank, Decodes;
  }

  /** The evidence names the record and the consumer throughout and was observed within the allowed age. */
  predicate Vouched(verified: Option<AckEvidence>, record: OutboxRecord, input: VerifiedAckInput) {
    && verified.Some?
    && var evidence := verified.value;
    && evidence == AckEvidence(record.eventId, record.id, record.commandId, record.runId, input.consumerId, evidence.evidenceId,
                               evidence.observedAtMs)
    && !Blank(record.eventId) && !Blank(record.id) && !Blank(record.commandId) && !Blank(record.runId)
    && !Blank(input.consumerId) && !Blank(evidence.evidenceId)
    && -MAX_SAFE <= evidence.observedAtMs <= input.nowMs <= MAX_SAFE && 0 < input.maxEvidenceAgeMs <= MAX_SAFE
    && input.nowMs - evidence.observedAtMs <= input.maxEvidenceAgeMs
  }

  /**
   * The verified call acknowledges, in the tables as they are after the verifier has answered, exactly when the event was found under
   * its id and the verifier vouches for the record that was found; otherwise it is held back and writes nothing.
   */
  lemma VerifiedAckDecides(q: Queue, verified: Option<AckEvidence>, afterVerify: Queue, input: VerifiedAckInput)
    requires OutboxRows(q.outbox, q.leases)
    ensures var id, o := input.outboxId, AcknowledgeVerified(q, verified, afterVerify, input);
            var seen := id in q.outbox && q.outbox[id].eventId == input.eventId;
            if seen && Vouched(verified, q.outbox[id].record, input) then
              var acked := Acknowledge(afterVerify, AckInput(id, input.eventId, input.token, input.nowMs));
              && o.queue == acked.queue && (o.result.Ok? <==> acked.result.Ok?)
              && (o.result.Ok? ==> o.result.value == AckAnswered(acked.result.value))
              && (o.result.Denied? ==> o.result.reason == acked.result.reason)
            else o == QueueOutcome(if seen then afterVerify else q, Ok(AckHeld))
  {
    if input.outboxId in q.outbox {
      RowShape(q.outbox, q.leases, input.outboxId);
    }
    hide OutboxRows, Blank, Acknowledge, VersionCounts;
  }

  // ----- consuming -----

  /** A leased record with its ids, and a clock within the safe integers. */
  predicate Consumable(record: OutboxRecord, nowMs: int) {
    Deliverable(record) && record.attempts >= 1 && 0 <= nowMs <= MAX_SAFE
  }

  /** The stored rows of the event are this record's. */
  predicate Recorded(db: ConsumerTables, record: OutboxRecord) {
    && record.eventId in db.inbox && record.eventId in db.effects
    && db.inbox[record.eventId] == InboxRow(record.id, record.commandId, record.runId, record.kind, record.payload,
                                            db.inbox[record.eventId].consumedAtMs)
    && db.effects[record.eventId] == BusinessEffect(record.commandId, record.runId, record.payload)
  }

  /**
   * A consumable record is applied exactly once: when its event is in neither table and nothing fails, and then both rows are written
   * with its payload and this time. It is replayed exactly when both rows are its own, with the time of the first.
   * Anything else is refused and changes nothing.
   */
  lemma ConsumeDecides(db: ConsumerTables, record: OutboxRecord, nowMs: int, fault: FaultPoint)
    ensures var e, o := record.eventId, Consume(db, record, nowMs, fault);
            var applies := Consumable(record, nowMs) && e !in db.inbox && e !in db.effects && fault == NoFault;
            && (o.result.Ok? && o.result.value.action == AppliedEvent <==> applies)
            && (o.result.Ok? && o.result.value.action == ReplayedEvent <==> Consumable(record, nowMs) && Recorded(db, record))
            && (applies ==>
                && o.result.value == ConsumeAnswer(AppliedEvent, e, record.commandId, record.runId, record.payload, nowMs)
                && o.db == ConsumerTables(
                     db.inbox[e := InboxRow(record.id, record.commandId, record.runId, record.kind, record.payload, nowMs)],
                     db.effects[e := BusinessEffect(record.commandId, record.runId, record.payload)]))
            && (!applies ==> o.db == db)
            && (o.result.Ok? && o.result.value.action == ReplayedEvent ==>
                o.result.value == ConsumeAnswer(ReplayedEvent, e, record.commandId, record.runId, record.payload, db.inbox[e].consumedAtMs))
            && (o.result == Denied(InvalidEnvelope) <==> !Consumable(record, nowMs))
            && (o.result == Denied(InjectedFault) ==> fault != NoFault && e !in db.inbox)
  {
    hide Blank;
  }

  /** The same event again, at any later time and under any later attempt, is replayed with the time it was applied at, whatever fails. */
  lemma AppliedThenReplayed(db: ConsumerTables, record: OutboxRecord, nowMs: int, later: ConsumerTables, again: OutboxRecord, laterMs: int,
                            fault: FaultPoint)
    requires var first := Consume(db, record, nowMs, NoFault);
             && first.result.Ok? && first.result.value.action == AppliedEvent
             && (forall e | e in first.db.inbox :: e in later.inbox && later.inbox[e] == first.db.inbox[e])
             && (forall e | e in first.db.effects :: e in later.effects && later.effects[e] == first.db.effects[e])
    requires Consumable(again, laterMs)
    requires again == record.(status := again.status, attempts := again.attempts, version := again.version, updatedAt := again.updatedAt,
                              dispatchedAt := again.dispatchedAt)
    ensures Consume(later, again, laterMs, fault)
         == ConsumeOutcome(later, Ok(ConsumeAnswer(ReplayedEvent, record.eventId, record.commandId, record.runId, record.payload, nowMs)))
  {
    hide Consume, Consumable;
    ConsumeDecides(db, record, nowMs, NoFault);
    ConsumeDecides(later, again, laterMs, fault);
    assert record.eventId in Consume(db, record, nowMs, NoFault).db.inbox;
    assert record.eventId in Consume(db, record, nowMs, NoFault).db.effects;
  }
}
