/** The four ways a row of the ledger tables can change, and why each keeps the ledger invariant. */
module LedgerRows {
  import opened Text
  import opened Records
  import opened Database
  import opened EffectLedger
  import opened Invariants

  // ----- a new pending effect -----

  lemma InsertEffectRows(effects: map<string, Effect>, e: string, row: Effect)
    requires EffectRows(effects) && EffectKeysUnique(effects)
    requires e !in effects && row.intent.effectId == e && row.idempotencyKey == row.intent.idempotencyKey
    requires row.status == PendingEffect && row.epoch == 0 && !KeyTaken(effects, row.idempotencyKey)
    ensures EffectRows(effects[e := row]) && EffectKeysUnique(effects[e := row])
  {
    assert forall f | f in effects :: effects[f].idempotencyKey != row.idempotencyKey;
  }

  lemma InsertEffectOthers(effects: map<string, Effect>, sinks: map<string, SinkReceipt>, remotes: map<string, RemoteRow>,
                           e: string, row: Effect)
    requires SinkRows(sinks, effects) && RemoteRows(remotes, effects, sinks)
    requires e !in effects
    ensures SinkRows(sinks, effects[e := row]) && RemoteRows(remotes, effects[e := row], sinks)
  {
    forall k | k in sinks ensures sinks[k].effectId != e {}
    forall f | f in remotes ensures f != e {}
  }

  lemma InsertEffectConsumed(effects: map<string, Effect>, sinks: map<string, SinkReceipt>, remotes: map<string, RemoteRow>,
                             consumptions: map<string, Consumption>, e: string, row: Effect)
    requires ConsumptionRows(consumptions, effects, remotes) && CommittedRows(effects, sinks, consumptions)
    requires e !in effects && row.status == PendingEffect
    ensures ConsumptionRows(consumptions, effects[e := row], remotes)
    ensures CommittedRows(effects[e := row], sinks, consumptions)
  {
    forall f | f in consumptions ensures f != e {}
  }

  lemma InsertEffect(effects: map<string, Effect>, sinks: map<string, SinkReceipt>, remotes: map<string, RemoteRow>,
                     consumptions: map<string, Consumption>, e: string, row: Effect)
    requires LedgerInv(effects, sinks, remotes, consumptions)
    requires e !in effects && row.intent.effectId == e && row.idempotencyKey == row.intent.idempotencyKey
    requires row.status == PendingEffect && row.epoch == 0 && !KeyTaken(effects, row.idempotencyKey)
    ensures LedgerInv(effects[e := row], sinks, remotes, consumptions)
    ensures EffectsAdvance(effects, effects[e := row])
  {
    InsertEffectRows(effects, e, row);
    InsertEffectOthers(effects, sinks, remotes, e, row);
    InsertEffectConsumed(effects, sinks, remotes, consumptions, e, row);
  }

  // ----- a move of one effect's status and epoch -----

  predicate SameIdentity(a: Effect, b: Effect) {
    a.intent == b.intent && a.idempotencyKey == b.idempotencyKey
  }

  lemma MoveEffectRows(effects: map<string, Effect>, e: string, row: Effect)
    requires EffectRows(effects) && EffectKeysUnique(effects)
    requires e in effects && SameIdentity(row, effects[e])
    requires effects[e].epoch <= row.epoch <= MAX_SAFE && (row.status != PendingEffect ==> 1 <= row.epoch)
    requires effects[e].status == Committed ==> row == effects[e]
    ensures EffectRows(effects[e := row]) && EffectKeysUnique(effects[e := row])
    ensures EffectsAdvance(effects, effects[e := row])
  {
    forall f | f in effects[e := row] ensures effects[e := row][f].idempotencyKey == effects[f].idempotencyKey {}
  }

  lemma MoveEffectSinks(effects: map<string, Effect>, sinks: map<string, SinkReceipt>, e: string, row: Effect)
    requires SinkRows(sinks, effects)
    requires e in effects && SameIdentity(row, effects[e])
    requires row.idempotencyKey in sinks ==> row.status != PendingEffect && row.epoch == effects[e].epoch
    ensures SinkRows(sinks, effects[e := row])
  {
  }

  lemma MoveEffectRemotes(effects: map<string, Effect>, sinks: map<string, SinkReceipt>, remotes: map<string, RemoteRow>,
                          e: string, row: Effect)
    requires RemoteRows(remotes, effects, sinks)
    requires e in effects && SameIdentity(row, effects[e])
    requires e in remotes ==> (row.status == UnknownEffect || row.status == Committed) && row.epoch == effects[e].epoch
    ensures RemoteRows(remotes, effects[e := row], sinks)
  {
  }

  lemma MoveEffectConsumed(effects: map<string, Effect>, sinks: map<string, SinkReceipt>, remotes: map<string, RemoteRow>,
                           consumptions: map<string, Consumption>, e: string, row: Effect)
    requires ConsumptionRows(consumptions, effects, remotes) && CommittedRows(effects, sinks, consumptions)
    requires e in effects && SameIdentity(row, effects[e])
    requires effects[e].status == Committed ==> row == effects[e]
    requires row.status == Committed ==> row.idempotencyKey in sinks || e in consumptions
    ensures ConsumptionRows(consumptions, effects[e := row], remotes)
    ensures CommittedRows(effects[e := row], sinks, consumptions)
  {
  }

  lemma MoveEffect(effects: map<string, Effect>, sinks: map<string, SinkReceipt>, remotes: map<string, RemoteRow>,
                   consumptions: map<string, Consumption>, e: string, row: Effect)
    requires LedgerInv(effects, sinks, remotes, consumptions)
    requires e in effects && SameIdentity(row, effects[e])
    requires effects[e].epoch <= row.epoch <= MAX_SAFE && (row.status != PendingEffect ==> 1 <= row.epoch)
    requires effects[e].status == Committed ==> row == effects[e]
    requires row.idempotencyKey in sinks ==> row.status != PendingEffect && row.epoch == effects[e].epoch
    requires e in remotes ==> (row.status == UnknownEffect || row.status == Committed) && row.epoch == effects[e].epoch
    requires row.status == Committed ==> row.idempotencyKey in sinks || e in consumptions
    ensures LedgerInv(effects[e := row], sinks, remotes, consumptions)
    ensures EffectsAdvance(effects, effects[e := row])
  {
    MoveEffectRows(effects, e, row);
    MoveEffectSinks(effects, sinks, e, row);
    MoveEffectRemotes(effects, sinks, remotes, e, row);
    MoveEffectConsumed(effects, sinks, remotes, consumptions, e, row);
  }

  // ----- a local sink receipt -----

  lemma InsertSink(effects: map<string, Effect>, sinks: map<string, SinkReceipt>, remotes: map<string, RemoteRow>,
                   consumptions: map<string, Consumption>, e: string)
    requires LedgerInv(effects, sinks, remotes, consumptions)
    requires e in effects && effects[e].status == Leased
    requires effects[e].idempotencyKey !in sinks
    ensures var sinks' := sinks[effects[e].idempotencyKey := SinkReceipt(e, effects[e].epoch)];
            LedgerInv(effects, sinks', remotes, consumptions) && Grows(sinks, sinks')
  {
  }

  // ----- a stored remote receipt -----

  lemma InsertRemoteRows(effects: map<string, Effect>, sinks: map<string, SinkReceipt>, remotes: map<string, RemoteRow>,
                         e: string, row: RemoteRow)
    requires RemoteRows(remotes, effects, sinks)
    requires e in effects && effects[e].status == UnknownEffect && effects[e].idempotencyKey !in sinks
    requires RemoteRowBound(row, effects[e].intent, effects[e].epoch)
    ensures RemoteRows(remotes[e := row], effects, sinks)
  {
  }

  lemma InsertRemoteUnique(remotes: map<string, RemoteRow>, e: string, row: RemoteRow)
    requires RemoteReceiptsUnique(remotes)
    requires !ReceiptClash(remotes, e, row)
    ensures RemoteReceiptsUnique(remotes[e := row])
  {
    assert forall f | f in remotes :: !SameReceipt(remotes[f], row) && !SameProviderKey(remotes[f], row);
  }

  lemma InsertRemote(effects: map<string, Effect>, sinks: map<string, SinkReceipt>, remotes: map<string, RemoteRow>,
                     consumptions: map<string, Consumption>, e: string, row: RemoteRow)
    requires LedgerInv(effects, sinks, remotes, consumptions)
    requires e in effects && effects[e].status == UnknownEffect
    requires effects[e].idempotencyKey !in sinks
    requires RemoteRowBound(row, effects[e].intent, effects[e].epoch)
    requires !ReceiptClash(remotes, e, row)
    ensures LedgerInv(effects, sinks, remotes[e := row], consumptions)
    ensures Grows(remotes, remotes[e := row])
  {
    hide EffectRows, SinkRows, RemoteRows, RemoteReceiptsUnique, ConsumptionRows, CommittedRows, RemoteRowBound,
         EffectKeysUnique, ConsumptionsUnique;
    InsertRemoteRows(effects, sinks, remotes, e, row);
    InsertRemoteUnique(remotes, e, row);
    InsertRemoteKeepsConsumed(effects, remotes, consumptions, e, row);
    UnstoredRemote(remotes, e, row);
  }

  lemma InsertRemoteKeepsConsumed(effects: map<string, Effect>, remotes: map<string, RemoteRow>,
                                  consumptions: map<string, Consumption>, e: string, row: RemoteRow)
    requires ConsumptionRows(consumptions, effects, remotes)
    requires e in effects && effects[e].status == UnknownEffect
    ensures ConsumptionRows(consumptions, effects, remotes[e := row])
  {
  }

  lemma UnstoredRemote(remotes: map<string, RemoteRow>, e: string, row: RemoteRow)
    requires !ReceiptClash(remotes, e, row)
    ensures Grows(remotes, remotes[e := row])
  {
    assert e !in remotes;
  }
}
