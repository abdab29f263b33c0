/** The tables of the one SQLite file that every recovery component opens. */
module Database {
  import opened Text
  import opened Records

  /**
   * Primary keys are the map keys. `sinkReceipts` is keyed by idempotency key,
   * `remoteReceipts` and `consumptions` by effect id.
   */
  datatype Tables = Tables(
    checkpoints: map<string, Row<Checkpoint>>,
    controls: map<string, Row<Control>>,
    commands: map<string, Row<Command>>,
    outbox: map<string, OutboxRow>,
    leases: map<string, Lease>,
    acl: Acl,
    effects: map<string, Effect>,
    sinkReceipts: map<string, SinkReceipt>,
    remoteReceipts: map<string, RemoteRow>,
    consumptions: map<string, Consumption>)

  const EMPTY_TABLES: Tables :=
    Tables(map[], map[], map[], map[], map[], Acl(map[], map[], map[]), map[], map[], map[], map[])

  /** One transaction: the tables it leaves behind and what it answers. */
  datatype Outcome<+T, +E> = Outcome(tables: Tables, result: Result<T, E>)

  // ----- the UNIQUE constraints of the schema -----

  ghost predicate EffectKeysUnique(effects: map<string, Effect>) {
    forall a, b | a in effects && b in effects :: effects[a].idempotencyKey == effects[b].idempotencyKey ==> a == b
  }

  ghost predicate SinkEffectsUnique(sinks: map<string, SinkReceipt>) {
    forall a, b | a in sinks && b in sinks :: sinks[a].effectId == sinks[b].effectId ==> a == b
  }

  predicate SameReceipt(a: RemoteRow, b: RemoteRow) {
    a.providerId == b.providerId && a.receiptId == b.receiptId
  }

  predicate SameProviderKey(a: RemoteRow, b: RemoteRow) {
    a.providerId == b.providerId && a.idempotencyKey == b.idempotencyKey
  }

  ghost predicate RemoteReceiptsUnique(remotes: map<string, RemoteRow>) {
    && (forall a, b | a in remotes && b in remotes :: SameReceipt(remotes[a], remotes[b]) ==> a == b)
    && (forall a, b | a in remotes && b in remotes :: SameProviderKey(remotes[a], remotes[b]) ==> a == b)
  }

  /** Two consumption rows clash when any of the three UNIQUE keys coincide. */
  predicate ConsumptionsClash(a: Consumption, b: Consumption) {
    || a.commandId == b.commandId
    || a.eventId == b.eventId
    || (a.providerId == b.providerId && a.receiptId == b.receiptId)
  }

  ghost predicate ConsumptionsUnique(consumptions: map<string, Consumption>) {
    forall a, b | a in consumptions && b in consumptions :: ConsumptionsClash(consumptions[a], consumptions[b]) ==> a == b
  }

  ghost predicate EventIdsUnique(outbox: map<string, OutboxRow>) {
    forall a, b | a in outbox && b in outbox :: outbox[a].eventId == outbox[b].eventId ==> a == b
  }

  ghost predicate TokensUnique(leases: map<string, Lease>) {
    forall a, b | a in leases && b in leases :: leases[a].token == leases[b].token ==> a == b
  }

  /** What SQLite itself guarantees about any table contents. */
  ghost predicate Schema(t: Tables) {
    && EffectKeysUnique(t.effects)
    && SinkEffectsUnique(t.sinkReceipts)
    && RemoteReceiptsUnique(t.remoteReceipts)
    && ConsumptionsUnique(t.consumptions)
    && EventIdsUnique(t.outbox)
    && TokensUnique(t.leases)
  }

  /** A handle on the file. Every component holds one and updates the tables in place. */
  class SqliteFile {
    var tables: Tables

    constructor ()
      ensures tables == EMPTY_TABLES && Schema(tables)
    {
      tables := EMPTY_TABLES;
    }
  }
}
