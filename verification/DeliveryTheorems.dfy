/** Exactly-once effects, lease windows and the latest token, over every run of the delivery protocol. */
module DeliveryTheorems {
  import opened Text
  import opened Records
  import opened Database
  import opened OutboxDelivery
  import opened ConsumerInbox
  import opened DeliveryRuns

  /**
   * Whatever is claimed, resent, lost, delayed, duplicated, reordered or interrupted by a fault: inbox
   * and effect rows match one to one, each business effect ran exactly once, with the producer's
   * payload, and a record the producer counts as dispatched has had its effect.
   */
  lemma ExactlyOnce(moves: seq<Move>)
    ensures var s := Run(START, moves);
            && s.consumer.inbox.Keys == s.consumer.effects.Keys
            && (forall i, j | 0 <= i < j < |s.applied| :: s.applied[i] != s.applied[j])
            && (forall e :: e in s.applied <==> e in s.consumer.effects)
            && (forall e | e in s.consumer.effects ::
                  exists o :: o in s.queue.outbox && s.queue.outbox[o].eventId == e
                           && s.consumer.effects[e] == EffectOf(s.queue.outbox[o].record))
            && (forall o | o in s.queue.outbox && s.queue.outbox[o].record.status == Dispatched ::
                  s.queue.outbox[o].eventId in s.consumer.effects
                  && s.consumer.effects[s.queue.outbox[o].eventId] == EffectOf(s.queue.outbox[o].record))
  {
    hide Run, ProducerInv, NetworkInv;
    RunKeepsInv(moves);
    var s := Run(START, moves);
    forall e | e in s.consumer.effects
      ensures exists o :: o in s.queue.outbox && s.queue.outbox[o].eventId == e
                       && s.consumer.effects[e] == EffectOf(s.queue.outbox[o].record)
    {
      assert s.consumer.inbox[e].outboxId in s.queue.outbox;
    }
    forall o | o in s.queue.outbox && s.queue.outbox[o].record.status == Dispatched
      ensures s.consumer.effects[s.queue.outbox[o].eventId] == EffectOf(s.queue.outbox[o].record)
    {
      EventNamesOneRow(s, o, s.consumer.inbox[s.queue.outbox[o].eventId].outboxId);
    }
  }

  lemma EventNamesOneRow(s: State, o: string, p: string)
    requires ProducerInv(s) && o in s.queue.outbox && p in s.queue.outbox
    requires s.queue.outbox[o].eventId == s.queue.outbox[p].eventId
    ensures o == p
  {
    hide RowOk, WindowsOk, TokensIssued, TokensUnique;
  }

  /** Each claim of a record is made at least a millisecond after the one before, and dates end. */
  lemma {:induction false} ClaimsTakeTime(eventId: string, claims: seq<Claiming>, i: nat)
    requires WindowsOk(eventId, claims) && i < |claims|
    ensures i <= claims[i].atMs
  {
    if i > 0 {
      ClaimsTakeTime(eventId, claims, i - 1);
      assert claims[i - 1].lease.expiresMs <= claims[i].atMs;
    }
  }

  /**
   * No record is ever claimed as often as a double can count: a claim needs a date, and there are fewer
   * milliseconds in the range of dates than safe integers. So a version is always 1 + attempts, plus one
   * once dispatched.
   */
  lemma AttemptsStaySafe(moves: seq<Move>, id: string)
    requires id in Run(START, moves).queue.outbox
    ensures var record := Run(START, moves).queue.outbox[id].record;
            && 0 <= record.attempts <= MAX_DATE_MS + 1 < MAX_SAFE
            && record.version == 1 + record.attempts + (if record.status == Dispatched then 1 else 0)
  {
    RunKeepsInv(moves);
    var s := Run(START, moves);
    hide Run, ProducerInv;
    RowsOf(s, id);
    var claims := ClaimsOf(s, id);
    if claims != [] {
      ClaimsTakeTime(s.queue.outbox[id].eventId, claims, |claims| - 1);
    }
  }

  /**
   * Consuming a record that was sent is never denied for a rebound or an inconsistent event, nor for
   * anything about the record. It is denied exactly when the consumer's clock is not a safe integer, or
   * when a fault is injected on a first delivery.
   */
  lemma ConsumeNeverConflicts(moves: seq<Move>, message: OutboxRecord, nowMs: int, fault: FaultPoint)
    requires message in Run(START, moves).sent
    ensures var s := Run(START, moves);
            var result := Consume(s.consumer, message, nowMs, fault).result;
            && message.version == 1 + message.attempts && 1 <= message.attempts
            && (result == Denied(InvalidEnvelope) <==> !(0 <= nowMs <= MAX_SAFE))
            && (result == Denied(InjectedFault) <==>
                0 <= nowMs <= MAX_SAFE && fault != NoFault && message.eventId !in s.consumer.inbox)
            && (result.Denied? ==> result.reason == InvalidEnvelope || result.reason == InjectedFault)
            && (result.Ok? ==> result.value.payload == message.payload && result.value.eventId == message.eventId)
  {
    RunKeepsInv(moves);
    var s := Run(START, moves);
    SentComesFrom(s, message);
    AttemptsStaySafe(moves, message.id);
    SentIsValid(s, message, nowMs);
    SentMatchesInbox(s, message);
    hide Run, Inv, ProducerInv, NetworkInv, ConsumerInv, Consume, ValidEnvelope, BoundTo, EffectOf, SentOk;
    ConsumesSent(s.consumer, message, nowMs, fault);
  }

  lemma ConsumesSent(db: ConsumerTables, message: OutboxRecord, nowMs: int, fault: FaultPoint)
    requires ValidEnvelope(message, nowMs) <==> 0 <= nowMs <= MAX_SAFE
    requires message.eventId in db.inbox ==>
        && BoundTo(db.inbox[message.eventId], message)
        && message.eventId in db.effects && db.effects[message.eventId] == EffectOf(message)
    requires message.eventId !in db.inbox ==> message.eventId !in db.effects
    ensures var result := Consume(db, message, nowMs, fault).result;
            && (result == Denied(InvalidEnvelope) <==> !(0 <= nowMs <= MAX_SAFE))
            && (result == Denied(InjectedFault) <==> 0 <= nowMs <= MAX_SAFE && fault != NoFault && message.eventId !in db.inbox)
            && (result.Denied? ==> result.reason == InvalidEnvelope || result.reason == InjectedFault)
            && (result.Ok? ==> result.value.payload == message.payload && result.value.eventId == message.eventId)
  {
    hide ValidEnvelope;
  }

  lemma SentIsValid(s: State, message: OutboxRecord, nowMs: int)
    requires NetworkInv(s) && message in s.sent
    requires message.id in s.queue.outbox && s.queue.outbox[message.id].record.attempts < MAX_SAFE
    ensures message.version == 1 + message.attempts && 1 <= message.attempts
    ensures ValidEnvelope(message, nowMs) <==> 0 <= nowMs <= MAX_SAFE
  {
    assert SentOk(message, s.queue.outbox);
    hide Blank, BlankBody, SameIdentity;
  }

  /**
   * For any clocks the claimers bring: attempts count the claims, the version is 1 + attempts, plus one
   * once dispatched, the stored lease is the last claim's, the windows of successive leases do not
   * overlap, their expiries increase, and no token is issued twice.
   */
  lemma LeasesAreSuccessive(moves: seq<Move>, id: string)
    requires id in Run(START, moves).queue.outbox
    ensures var s := Run(START, moves);
            var record, claims := s.queue.outbox[id].record, ClaimsOf(s, id);
            && record.attempts == |claims|
            && record.version == 1 + record.attempts + (if record.status == Dispatched then 1 else 0)
            && (id in s.queue.leases <==> |claims| > 0)
            && (|claims| > 0 ==> s.queue.leases[id] == claims[|claims| - 1].lease && s.queue.leases[id].attempt == record.attempts)
            && (forall i | 0 <= i < |claims| :: claims[i].atMs < claims[i].lease.expiresMs)
            && (forall i, j | 0 <= i < j < |claims| ::
                  && claims[i].lease.expiresMs <= claims[j].atMs
                  && claims[i].lease.expiresMs < claims[j].lease.expiresMs
                  && claims[i].lease.token != claims[j].lease.token)
  {
    RunKeepsInv(moves);
    AttemptsStaySafe(moves, id);
    var s := Run(START, moves);
    hide Run, ProducerInv;
    RowsOf(s, id);
  }

  /** Only the token of the latest claim can dispatch a record, and only before that claim's lease expires. */
  lemma OnlyTheLatestTokenDispatches(moves: seq<Move>, input: AckInput)
    ensures var s := Run(START, moves);
            var outcome, id := Acknowledge(s.queue, input), input.outboxId;
            && (outcome.queue != s.queue ==>
                && outcome.result.Ok? && outcome.result.value.AckDispatched?
                && id in s.queue.outbox && s.queue.outbox[id].record.status == Pending
                && |ClaimsOf(s, id)| > 0
                && input.token == ClaimsOf(s, id)[|ClaimsOf(s, id)| - 1].lease.token
                && input.nowMs < ClaimsOf(s, id)[|ClaimsOf(s, id)| - 1].lease.expiresMs
                && outcome.queue.outbox[id].record.status == Dispatched)
            && (forall i | 0 <= i < |ClaimsOf(s, id)| - 1 && id in s.queue.outbox ::
                  input.token == ClaimsOf(s, id)[i].lease.token ==>
                    outcome.result == Denied(AckBindingMismatch) || outcome.result == Denied(AckUntrustedOrInvalid))
  {
    RunKeepsInv(moves);
    var s := Run(START, moves);
    hide Run, ProducerInv;
    if input.outboxId in s.queue.outbox {
      RowsOf(s, input.outboxId);
    }
  }

  // ----- nothing done is undone -----

  ghost predicate OnlyMoreDone(s: State, n: State) {
    && (forall o | o in s.queue.outbox && s.queue.outbox[o].record.status == Dispatched ::
          o in n.queue.outbox && n.queue.outbox[o] == s.queue.outbox[o])
    && (forall e | e in s.consumer.inbox :: e in n.consumer.inbox && n.consumer.inbox[e] == s.consumer.inbox[e])
    && (forall e | e in s.consumer.effects :: e in n.consumer.effects && n.consumer.effects[e] == s.consumer.effects[e])
    && s.applied <= n.applied
  }

  lemma ClaimLeavesDispatched(s: State, claim: ClaimInput, token: string)
    ensures OnlyMoreDone(s, StepClaim(s, claim, token))
  {
    hide TokenTaken, ValidClaimInput, NextAttempt;
  }

  lemma AckLeavesDispatched(s: State, record: OutboxRecord, evidence: Option<AckEvidence>, ack: VerifiedAckInput)
    ensures OnlyMoreDone(s, StepAck(s, record, evidence, ack))
  {
    hide Acknowledge, EvidenceBindsRecord;
    AckParts(s.queue, AckInput(record.id, record.eventId, ack.token, ack.nowMs));
  }

  lemma NextOnlyDoesMore(s: State, m: Move)
    ensures OnlyMoreDone(s, Next(s, m))
  {
    hide StepClaim, StepAck;
    if Enabled(s, m) {
      match m
      case Claim(claim, token) => ClaimLeavesDispatched(s, claim, token);
      case VerifiedAck(record, evidence, ack) => AckLeavesDispatched(s, record, evidence, ack);
      case _ =>
    }
  }

  /** Dispatched records, inbox rows and effects stay exactly as they are over any continuation. */
  lemma {:induction false} DoneIsFinal(moves: seq<Move>, more: seq<Move>)
    ensures OnlyMoreDone(Run(START, moves), Run(START, moves + more))
    decreases |more|
  {
    hide Next;
    if more == [] {
      assert moves + more == moves;
    } else {
      var m, rest := more[|more| - 1], more[..|more| - 1];
      DoneIsFinal(moves, rest);
      assert (moves + more)[..|moves + more| - 1] == moves + rest;
      NextOnlyDoesMore(Run(START, moves + rest), m);
    }
  }
}
