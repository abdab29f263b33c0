/** The consumer's own database: an inbox row and a business effect per event, written together. */
module ConsumerInbox {
  import opened Text
  import opened Records

  datatype InboxRow = InboxRow(
    outboxId: string,
    commandId: string,
    runId: string,
    kind: OutboxKind,
    payload: Body,
    consumedAtMs: int)

  datatype BusinessEffect = BusinessEffect(commandId: string, runId: string, payload: Body)

  /** Both tables are keyed by event id. */
  datatype ConsumerTables = ConsumerTables(inbox: map<string, InboxRow>, effects: map<string, BusinessEffect>)

  datatype ConsumeDenial =
    | InvalidEnvelope
    | EventIdRebound
    | EffectInconsistent
    | InjectedFault
    | ConsumerTransactionFailed

  datatype FaultPoint = NoFault | AfterInboxInsert | AfterEffectInsert

  datatype ConsumeAction = AppliedEvent | ReplayedEvent

  datatype ConsumeAnswer = ConsumeAnswer(action: ConsumeAction, eventId: string, commandId: string, runId: string,
                                         payload: Body, consumedAtMs: int)

  predicate ValidEnvelope(record: OutboxRecord, nowMs: int) {
    && !Blank(record.id) && !Blank(record.eventId) && !Blank(record.commandId) && !Blank(record.runId)
    && !BlankBody(record.payload)
    && 1 <= record.version <= MAX_SAFE
    && 1 <= record.attempts <= MAX_SAFE
    && 0 <= nowMs <= MAX_SAFE
  }

  predicate BoundTo(row: InboxRow, record: OutboxRecord) {
    && row.outboxId == record.id
    && row.commandId == record.commandId
    && row.runId == record.runId
    && row.kind == record.kind
    && row.payload == record.payload
  }

  function InboxRowOf(record: OutboxRecord, nowMs: int): InboxRow {
    InboxRow(record.id, record.commandId, record.runId, record.kind, record.payload, nowMs)
  }

  function EffectOf(record: OutboxRecord): BusinessEffect {
    BusinessEffect(record.commandId, record.runId, record.payload)
  }

  datatype ConsumeOutcome = ConsumeOutcome(db: ConsumerTables, result: Result<ConsumeAnswer, ConsumeDenial>)

  function Consume(db: ConsumerTables, record: OutboxRecord, nowMs: int, fault: FaultPoint): ConsumeOutcome {
    var e := record.eventId;
    if !ValidEnvelope(record, nowMs) then ConsumeOutcome(db, Denied(InvalidEnvelope))
    else if e in db.inbox then
      if !BoundTo(db.inbox[e], record) then ConsumeOutcome(db, Denied(EventIdRebound))
      else if e !in db.effects || db.effects[e] != EffectOf(record) then ConsumeOutcome(db, Denied(EffectInconsistent))
      else ConsumeOutcome(db, Ok(ConsumeAnswer(ReplayedEvent, e, db.inbox[e].commandId, db.inbox[e].runId, db.inbox[e].payload,
                                               db.inbox[e].consumedAtMs)))
    else if fault == AfterInboxInsert then ConsumeOutcome(db, Denied(InjectedFault))
    else if e in db.effects then ConsumeOutcome(db, Denied(ConsumerTransactionFailed))
    else if fault == AfterEffectInsert then ConsumeOutcome(db, Denied(InjectedFault))
    else ConsumeOutcome(ConsumerTables(db.inbox[e := InboxRowOf(record, nowMs)], db.effects[e := EffectOf(record)]),
                        Ok(ConsumeAnswer(AppliedEvent, e, record.commandId, record.runId, record.payload, nowMs)))
  }

  class SQLiteRecoveryOutboxConsumerInbox {
    var db: ConsumerTables

    constructor ()
      ensures db == ConsumerTables(map[], map[])
    {
      db := ConsumerTables(map[], map[]);
    }

    /** Two inserts in one transaction; a fault between or after them rolls both back. */
    method ConsumeEvent(record: OutboxRecord, nowMs: int, fault: FaultPoint) returns (answer: Result<ConsumeAnswer, ConsumeDenial>)
      modifies this
      ensures ConsumeOutcome(db, answer) == Consume(old(db), record, nowMs, fault)
    {
      if !ValidEnvelope(record, nowMs) {
        return Denied(InvalidEnvelope);
      }
      var begin := db;
      if record.eventId in db.inbox {
        var previous := db.inbox[record.eventId];
        if previous.outboxId != record.id || previous.commandId != record.commandId || previous.runId != record.runId
           || previous.kind != record.kind || previous.payload != record.payload {
          return Denied(EventIdRebound);
        }
        if record.eventId !in db.effects {
          return Denied(EffectInconsistent);
        }
        var effect := db.effects[record.eventId];
        if effect.commandId != record.commandId || effect.runId != record.runId || effect.payload != record.payload {
          return Denied(EffectInconsistent);
        }
        return Ok(ConsumeAnswer(ReplayedEvent, record.eventId, previous.commandId, previous.runId, previous.payload,
                                previous.consumedAtMs));
      }
      db := db.(inbox := db.inbox[record.eventId := InboxRowOf(record, nowMs)]);
      if fault == AfterInboxInsert {
        db := begin;
        return Denied(InjectedFault);
      }
      if record.eventId in db.effects {
        db := begin;
        return Denied(ConsumerTransactionFailed);  // PRIMARY KEY
      }
      db := db.(effects := db.effects[record.eventId := EffectOf(record)]);
      if fault == AfterEffectInsert {
        db := begin;
        return Denied(InjectedFault);
      }
      answer := Ok(ConsumeAnswer(AppliedEvent, record.eventId, record.commandId, record.runId, record.payload, nowMs));
    }
  }
}
