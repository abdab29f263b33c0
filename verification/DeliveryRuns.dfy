/**
 * End to end delivery: a producer that claims, leases and resends, a network that loses, delays,
 * duplicates and reorders, a deduplicating consumer in another database, and acknowledgements through
 * a verifier that only vouches for events the consumer holds.
 */
module DeliveryRuns {
  import opened Text
  import opened Records
  import opened Database
  import opened OutboxDelivery
  import opened ConsumerInbox
  import CommandUnitOfWork

  /** One claim of one record: when it was made and the lease it wrote. */
  datatype Claiming = Claiming(atMs: int, lease: Lease)

  /**
   * `sent` holds every record ever handed to the network and `inspected` every record ever read before
   * an acknowledgement; nothing is removed from either. `claims` lists the leases of each outbox id in
   * order, `tokens` every token issued, `applied` the event ids whose business effect was executed.
   */
  datatype State = State(
    queue: Queue,
    claims: map<string, seq<Claiming>>,
    tokens: set<string>,
    sent: set<OutboxRecord>,
    inspected: set<OutboxRecord>,
    consumer: ConsumerTables,
    applied: seq<string>)

  const START: State := State(Queue(map[], map[]), map[], {}, {}, {}, ConsumerTables(map[], map[]), [])

  datatype Move =
    | Append(event: OutboxRecord)
    | Claim(claim: ClaimInput, token: string)
    | Deliver(message: OutboxRecord, nowMs: int, fault: FaultPoint)
    | Inspect(outboxId: string)
    | VerifiedAck(record: OutboxRecord, evidence: Option<AckEvidence>, ack: VerifiedAckInput)

  function ClaimsOf(s: State, id: string): seq<Claiming> {
    if id in s.claims then s.claims[id] else []
  }

  /** The verifier's obligation: it vouches only for an event the consumer's inbox holds. */
  predicate Truthful(consumer: ConsumerTables, evidence: Option<AckEvidence>) {
    evidence.Some? ==> evidence.value.eventId in consumer.inbox
  }

  /** The token of every claim is a fresh UUID; the record was read by an earlier statement. */
  predicate Enabled(s: State, m: Move) {
    match m
    case Append(event) => !CommandUnitOfWork.EventTaken(s.queue.outbox, event)
    case Claim(_, token) => token !in s.tokens
    case Deliver(message, _, _) => message in s.sent
    case Inspect(outboxId) => outboxId in s.queue.outbox
    case VerifiedAck(record, evidence, _) => record in s.inspected && Truthful(s.consumer, evidence)
  }

  function StepClaim(s: State, claim: ClaimInput, token: string): State {
    var outcome := ClaimLease(s.queue, claim, token);
    if outcome.result.Ok? && outcome.result.value.LeaseClaimed? && claim.outboxId in outcome.queue.leases then
      s.(queue := outcome.queue, tokens := s.tokens + {token},
         claims := s.claims[claim.outboxId := ClaimsOf(s, claim.outboxId)
                                              + [Claiming(claim.nowMs, outcome.queue.leases[claim.outboxId])]],
         sent := s.sent + {outcome.result.value.record})
    else s
  }

  function StepDeliver(s: State, message: OutboxRecord, nowMs: int, fault: FaultPoint): State {
    var outcome := Consume(s.consumer, message, nowMs, fault);
    s.(consumer := outcome.db,
       applied := if outcome.result.Ok? && outcome.result.value.action == AppliedEvent then s.applied + [message.eventId]
                  else s.applied)
  }

  /** The rows are re-read inside the acknowledgement; only the identity comes from the earlier read. */
  function StepAck(s: State, record: OutboxRecord, evidence: Option<AckEvidence>, ack: VerifiedAckInput): State {
    if record.eventId != ack.eventId || evidence.None? || !EvidenceBindsRecord(evidence.value, record, ack) then s
    else s.(queue := Acknowledge(s.queue, AckInput(record.id, record.eventId, ack.token, ack.nowMs)).queue)
  }

  /** The authenticated acknowledgement is an `Inspect`, whatever happens then, and a `VerifiedAck` of the record it read. */
  lemma AckIsInspectThenAck(s: State, later: State, evidence: Option<AckEvidence>, ack: VerifiedAckInput)
    requires InspectFor(s.queue, ack).Ok? && InspectFor(s.queue, ack).value.Some?
    ensures var record := InspectFor(s.queue, ack).value.value;
            && record in Next(s, Inspect(ack.outboxId)).inspected
            && AcknowledgeVerified(s.queue, evidence, later.queue, ack).queue == StepAck(later, record, evidence, ack).queue
  {
    hide Acknowledge, EvidenceBindsRecord;
  }

  function Next(s: State, m: Move): State {
    if !Enabled(s, m) then s
    else
      match m
      case Append(event) =>
        s.(queue := s.queue.(outbox := s.queue.outbox[event.id := CommandUnitOfWork.NewOutboxRow(event)]))
      case Claim(claim, token) => StepClaim(s, claim, token)
      case Deliver(message, nowMs, fault) => StepDeliver(s, message, nowMs, fault)
      case Inspect(outboxId) => s.(inspected := s.inspected + {s.queue.outbox[outboxId].record})
      case VerifiedAck(record, evidence, ack) => StepAck(s, record, evidence, ack)
  }

  function Run(s: State, moves: seq<Move>): State
    decreases |moves|
  {
    if moves == [] then s else Next(Run(s, moves[..|moves| - 1]), moves[|moves| - 1])
  }

  // ----- the invariant -----

  /** What delivery never changes about a record. */
  predicate SameIdentity(a: OutboxRecord, b: OutboxRecord) {
    && a.id == b.id && a.eventId == b.eventId && a.commandId == b.commandId && a.runId == b.runId
    && a.kind == b.kind && a.payload == b.payload
  }

  function LeaseAt(leases: map<string, Lease>, id: string): Option<Lease> {
    if id in leases then Some(leases[id]) else None
  }

  /** One row, its lease and its claims: the lease is the last claim's, and attempts count the claims. */
  predicate RowOk(id: string, row: OutboxRow, lease: Option<Lease>, claims: seq<Claiming>) {
    && Decodes(id, row)
    && VersionCounts(row.record)
    && |claims| == row.record.attempts
    && lease == if claims == [] then None else Some(claims[|claims| - 1].lease)
  }

  /** Windows start in order, none starts before the previous one has ended, and attempts count up. */
  predicate WindowsOk(eventId: string, claims: seq<Claiming>) {
    && (forall i | 0 <= i < |claims| ::
          && claims[i].lease.eventId == eventId
          && claims[i].lease.attempt == i + 1
          && 0 <= claims[i].atMs <= MAX_DATE_MS && claims[i].atMs < claims[i].lease.expiresMs)
    && (forall i, j | 0 <= i < j < |claims| :: claims[i].lease.expiresMs <= claims[j].atMs)
    && (forall i, j | 0 <= i < j < |claims| :: claims[i].lease.token != claims[j].lease.token)
  }

  predicate TokensIssued(claims: seq<Claiming>, tokens: set<string>) {
    forall i | 0 <= i < |claims| :: claims[i].lease.token in tokens
  }

  ghost predicate ProducerInv(s: State) {
    && EventIdsUnique(s.queue.outbox)
    && (forall o | o in s.queue.outbox :: RowOk(o, s.queue.outbox[o], LeaseAt(s.queue.leases, o), ClaimsOf(s, o)))
    && (forall o | o in s.queue.outbox :: WindowsOk(s.queue.outbox[o].eventId, ClaimsOf(s, o)))
    && (forall o | o in s.claims :: o in s.queue.outbox && TokensIssued(s.claims[o], s.tokens))
    && (forall o | o in s.queue.leases :: o in s.queue.outbox)
    && TokensUnique(s.queue.leases)
  }

  /** A record that was sent or read is an earlier state of the row it came from. */
  predicate ComesFrom(record: OutboxRecord, outbox: map<string, OutboxRow>) {
    record.id in outbox && SameIdentity(record, outbox[record.id].record)
  }

  predicate SentOk(record: OutboxRecord, outbox: map<string, OutboxRow>) {
    && ComesFrom(record, outbox)
    && record.status == Pending && 1 <= record.attempts <= outbox[record.id].record.attempts
    && record.version == 1 + record.attempts
    && !Blank(record.id) && !Blank(record.eventId) && !Blank(record.commandId) && !Blank(record.runId)
    && !BlankBody(record.payload)
  }

  ghost predicate NetworkInv(s: State) {
    && (forall r | r in s.sent :: SentOk(r, s.queue.outbox))
    && (forall r | r in s.inspected :: ComesFrom(r, s.queue.outbox))
  }

  /** An inbox row and its effect repeat a producer row, and the effect ran exactly once. */
  ghost predicate ConsumerInv(s: State) {
    && s.consumer.effects.Keys == s.consumer.inbox.Keys
    && (forall e | e in s.consumer.inbox ::
          && s.consumer.inbox[e].outboxId in s.queue.outbox
          && s.queue.outbox[s.consumer.inbox[e].outboxId].eventId == e
          && BoundTo(s.consumer.inbox[e], s.queue.outbox[s.consumer.inbox[e].outboxId].record)
          && e in s.consumer.effects
          && s.consumer.effects[e] == EffectOf(s.queue.outbox[s.consumer.inbox[e].outboxId].record))
    && (forall i, j | 0 <= i < j < |s.applied| :: s.applied[i] != s.applied[j])
    && (forall e :: e in s.applied <==> e in s.consumer.inbox)
  }

  ghost predicate DispatchedInv(s: State) {
    forall o | o in s.queue.outbox && s.queue.outbox[o].record.status == Dispatched :: s.queue.outbox[o].eventId in s.consumer.inbox
  }

  ghost predicate Inv(s: State) {
    ProducerInv(s) && NetworkInv(s) && ConsumerInv(s) && DispatchedInv(s)
  }

  // ----- each move keeps it: the producer -----

  lemma RowsOf(s: State, id: string)
    requires ProducerInv(s) && id in s.queue.outbox
    ensures RowOk(id, s.queue.outbox[id], LeaseAt(s.queue.leases, id), ClaimsOf(s, id))
    ensures WindowsOk(s.queue.outbox[id].eventId, ClaimsOf(s, id))
    ensures TokensIssued(ClaimsOf(s, id), s.tokens)
    ensures EventIdsUnique(s.queue.outbox) && TokensUnique(s.queue.leases)
  {
    hide RowOk, WindowsOk, EventIdsUnique, TokensUnique;
  }

  lemma SameEventIdStaysUnique(outbox: map<string, OutboxRow>, id: string, row: OutboxRow)
    requires EventIdsUnique(outbox) && id in outbox && row.eventId == outbox[id].eventId
    ensures EventIdsUnique(outbox[id := row])
  {
  }

  lemma IssuedTokensGrow(claims: seq<Claiming>, a: set<string>, b: set<string>)
    requires TokensIssued(claims, a) && a <= b
    ensures TokensIssued(claims, b)
  {
  }

  /** The producer's tables after a change at one outbox id. */
  lemma PutRow(s: State, n: State, id: string)
    requires ProducerInv(s) && id in n.queue.outbox
    requires n.queue.outbox == s.queue.outbox[id := n.queue.outbox[id]] && EventIdsUnique(n.queue.outbox)
    requires n.queue.leases == s.queue.leases || (id in n.queue.leases && n.queue.leases == s.queue.leases[id := n.queue.leases[id]])
    requires n.claims == s.claims || (id in n.claims && n.claims == s.claims[id := n.claims[id]])
    requires s.tokens <= n.tokens && TokensIssued(ClaimsOf(n, id), n.tokens) && TokensUnique(n.queue.leases)
    requires RowOk(id, n.queue.outbox[id], LeaseAt(n.queue.leases, id), ClaimsOf(n, id))
    requires WindowsOk(n.queue.outbox[id].eventId, ClaimsOf(n, id))
    ensures ProducerInv(n)
  {
    hide RowOk, WindowsOk, TokensIssued, EventIdsUnique, TokensUnique;
    forall o | o in n.claims ensures TokensIssued(n.claims[o], n.tokens) {
      if o != id {
        IssuedTokensGrow(s.claims[o], s.tokens, n.tokens);
      }
    }
  }

  lemma NewRowOk(event: OutboxRecord)
    ensures RowOk(event.id, CommandUnitOfWork.NewOutboxRow(event), None, [])
    ensures WindowsOk(event.eventId, []) && CommandUnitOfWork.NewOutboxRow(event).eventId == event.eventId
  {
  }

  lemma AppendKeepsProducer(s: State, event: OutboxRecord)
    requires ProducerInv(s) && !CommandUnitOfWork.EventTaken(s.queue.outbox, event)
    ensures var outbox := s.queue.outbox[event.id := CommandUnitOfWork.NewOutboxRow(event)];
            ProducerInv(s.(queue := s.queue.(outbox := outbox)))
  {
    var n := s.(queue := s.queue.(outbox := s.queue.outbox[event.id := CommandUnitOfWork.NewOutboxRow(event)]));
    NewRowOk(event);
    hide RowOk, WindowsOk, TokensUnique;
    assert EventIdsUnique(n.queue.outbox) by {
      assert forall o | o in s.queue.outbox :: s.queue.outbox[o].eventId != event.eventId;
    }
    PutRow(s, n, event.id);
  }

  /** The windows of a record after one more claim, made once the previous lease had run out. */
  lemma WindowsExtend(eventId: string, claims: seq<Claiming>, tokens: set<string>, c: Claiming)
    requires WindowsOk(eventId, claims) && TokensIssued(claims, tokens)
    requires |claims| > 0 ==> claims[|claims| - 1].lease.expiresMs <= c.atMs
    requires 0 <= c.atMs <= MAX_DATE_MS && c.atMs < c.lease.expiresMs
    requires c.lease.eventId == eventId && c.lease.attempt == |claims| + 1
    requires c.lease.token !in tokens
    ensures WindowsOk(eventId, claims + [c]) && TokensIssued(claims + [c], tokens + {c.lease.token})
  {
    var longer := claims + [c];
    forall i, j | 0 <= i < j < |longer| ensures longer[i].lease.expiresMs <= longer[j].atMs {
      if j == |claims| && i < |claims| - 1 {
        assert claims[i].lease.expiresMs <= claims[|claims| - 1].atMs;
      }
    }
  }

  lemma FreshTokenIsUnique(s: State, token: string, id: string, lease: Lease)
    requires ProducerInv(s) && token !in s.tokens && lease.token == token
    ensures TokensUnique(s.queue.leases[id := lease])
  {
    forall o | o in s.queue.leases ensures s.queue.leases[o].token != token {
      RowsOf(s, o);
    }
    hide RowOk, WindowsOk, TokensIssued, EventIdsUnique;
  }

  /** The row and the lease a successful claim writes. */
  function ClaimedRow(row: OutboxRow, claim: ClaimInput): OutboxRow {
    row.(record := NextAttempt(row.record, claim.nowMs))
  }

  function ClaimedLease(row: OutboxRow, claim: ClaimInput, token: string): Lease {
    Lease(row.eventId, claim.workerId, token, claim.nowMs + claim.leaseMs, row.record.attempts + 1)
  }

  predicate ClaimSucceeds(s: State, claim: ClaimInput, token: string) {
    var r := ClaimLease(s.queue, claim, token).result;
    r.Ok? && r.value.LeaseClaimed?
  }

  lemma ClaimedParts(s: State, claim: ClaimInput, token: string)
    requires ProducerInv(s) && token !in s.tokens && ClaimSucceeds(s, claim, token)
    ensures var id, n := claim.outboxId, StepClaim(s, claim, token);
            && id in s.queue.outbox && PlanDelivery(s.queue.outbox[id].record, claim.consumer).RequiresClaim?
            && var row, lease := ClaimedRow(s.queue.outbox[id], claim), ClaimedLease(s.queue.outbox[id], claim, token);
               && n == s.(queue := Queue(s.queue.outbox[id := row], s.queue.leases[id := lease]), tokens := s.tokens + {token},
                          claims := s.claims[id := ClaimsOf(s, id) + [Claiming(claim.nowMs, lease)]],
                          sent := s.sent + {row.record})
               && (id in s.queue.leases ==> s.queue.leases[id].expiresMs <= claim.nowMs)
               && 0 < claim.leaseMs && 0 <= claim.nowMs <= MAX_DATE_MS
  {
    RowsOf(s, claim.outboxId);
    hide ProducerInv, PlanDelivery, TokenTaken, WindowsOk;
  }

  lemma NoClaimNoChange(s: State, claim: ClaimInput, token: string)
    requires !ClaimSucceeds(s, claim, token)
    ensures StepClaim(s, claim, token) == s
  {
    hide ClaimLease;
  }

  lemma ClaimedRowOk(id: string, row: OutboxRow, lease: Option<Lease>, claims: seq<Claiming>, claim: ClaimInput, token: string)
    requires RowOk(id, row, lease, claims) && PlanDelivery(row.record, claim.consumer).RequiresClaim?
    ensures var next := ClaimedLease(row, claim, token);
            RowOk(id, ClaimedRow(row, claim), Some(next), claims + [Claiming(claim.nowMs, next)])
    ensures SentOk(ClaimedRow(row, claim).record, map[id := ClaimedRow(row, claim)])
    ensures SameIdentity(row.record, ClaimedRow(row, claim).record) && row.record.attempts < ClaimedRow(row, claim).record.attempts
  {
  }

  lemma ClaimKeepsProducer(s: State, claim: ClaimInput, token: string)
    requires ProducerInv(s) && token !in s.tokens && ClaimSucceeds(s, claim, token)
    ensures ProducerInv(StepClaim(s, claim, token))
  {
    hide ProducerInv, ClaimLease, StepClaim, PlanDelivery, EventIdsUnique, TokensUnique, TokensIssued, WindowsOk, RowOk,
         ClaimedRow, ClaimSucceeds;
    var id, n := claim.outboxId, StepClaim(s, claim, token);
    ClaimedParts(s, claim, token);
    RowsOf(s, id);
    var row := s.queue.outbox[id];
    var lease := ClaimedLease(row, claim, token);
    LastClaim(id, row, LeaseAt(s.queue.leases, id), ClaimsOf(s, id));
    ClaimedRowOk(id, row, LeaseAt(s.queue.leases, id), ClaimsOf(s, id), claim, token);
    ClaimedRowKeepsEvent(row, claim);
    SameEventIdStaysUnique(s.queue.outbox, id, ClaimedRow(row, claim));
    WindowsExtend(row.eventId, ClaimsOf(s, id), s.tokens, Claiming(claim.nowMs, lease));
    FreshTokenIsUnique(s, token, id, lease);
    PutRow(s, n, id);
  }

  lemma LastClaim(id: string, row: OutboxRow, lease: Option<Lease>, claims: seq<Claiming>)
    requires RowOk(id, row, lease, claims)
    ensures |claims| == row.record.attempts
    ensures claims != [] ==> lease == Some(claims[|claims| - 1].lease)
  {
  }

  lemma ClaimedRowKeepsEvent(row: OutboxRow, claim: ClaimInput)
    ensures ClaimedRow(row, claim).eventId == row.eventId
  {
  }

  lemma DispatchedRowOk(id: string, row: OutboxRow, lease: Option<Lease>, claims: seq<Claiming>, nowMs: int)
    requires RowOk(id, row, lease, claims) && lease.Some? && row.record.status == Pending
    ensures var next := row.(record := DispatchedRecord(row.record, nowMs));
            RowOk(id, next, lease, claims) && SameIdentity(row.record, next.record) && next.record.attempts == row.record.attempts
  {
  }

  /** What an acknowledgement changes: nothing, or one pending row with a live lease, to dispatched. */
  lemma AckParts(q: Queue, input: AckInput)
    ensures var n, id := Acknowledge(q, input).queue, input.outboxId;
            n != q ==>
              && id in q.outbox && id in q.leases && q.outbox[id].record.status == Pending && q.outbox[id].eventId == input.eventId
              && q.leases[id].token == input.token && input.nowMs < q.leases[id].expiresMs
              && n == Queue(q.outbox[id := q.outbox[id].(record := DispatchedRecord(q.outbox[id].record, input.nowMs))], q.leases)
  {
  }

  lemma AckKeepsProducer(s: State, input: AckInput)
    requires ProducerInv(s)
    ensures ProducerInv(s.(queue := Acknowledge(s.queue, input).queue))
  {
    var n, id := s.(queue := Acknowledge(s.queue, input).queue), input.outboxId;
    hide ProducerInv, Acknowledge, RowOk, WindowsOk, TokensIssued, EventIdsUnique, TokensUnique, DispatchedRecord;
    AckParts(s.queue, input);
    if n.queue != s.queue {
      RowsOf(s, id);
      DispatchedRowOk(id, s.queue.outbox[id], LeaseAt(s.queue.leases, id), ClaimsOf(s, id), input.nowMs);
      SameEventIdStaysUnique(s.queue.outbox, id, n.queue.outbox[id]);
      PutRow(s, n, id);
    } else {
      assert n == s;
    }
  }

  // ----- each move keeps it: network and consumer -----

  /** Rows keep their identity and gain attempts. */
  ghost predicate RowsAdvance(a: map<string, OutboxRow>, b: map<string, OutboxRow>) {
    forall o | o in a ::
      && o in b && a[o].eventId == b[o].eventId
      && SameIdentity(a[o].record, b[o].record) && a[o].record.attempts <= b[o].record.attempts
  }

  lemma NetworkFollows(s: State, n: State)
    requires NetworkInv(s) && RowsAdvance(s.queue.outbox, n.queue.outbox)
    requires forall r | r in n.sent :: r in s.sent || SentOk(r, n.queue.outbox)
    requires forall r | r in n.inspected :: r in s.inspected || ComesFrom(r, n.queue.outbox)
    ensures NetworkInv(n)
  {
    forall r | r in n.sent ensures SentOk(r, n.queue.outbox) {
      assert r in s.sent ==> SentOk(r, s.queue.outbox);
    }
    forall r | r in n.inspected ensures ComesFrom(r, n.queue.outbox) {
      assert r in s.inspected ==> ComesFrom(r, s.queue.outbox);
    }
  }

  lemma ConsumerFollows(s: State, n: State)
    requires ConsumerInv(s) && RowsAdvance(s.queue.outbox, n.queue.outbox)
    requires n.consumer == s.consumer && n.applied == s.applied
    ensures ConsumerInv(n)
  {
  }

  lemma ProducerFollows(s: State, n: State)
    requires ProducerInv(s) && n.queue == s.queue && n.claims == s.claims && n.tokens == s.tokens
    ensures ProducerInv(n)
  {
    hide RowOk, WindowsOk, TokensIssued, EventIdsUnique, TokensUnique;
    forall o | o in n.queue.outbox ensures ClaimsOf(n, o) == ClaimsOf(s, o) {}
  }

  lemma AppendAdvances(outbox: map<string, OutboxRow>, event: OutboxRecord)
    requires !CommandUnitOfWork.EventTaken(outbox, event)
    ensures RowsAdvance(outbox, outbox[event.id := CommandUnitOfWork.NewOutboxRow(event)])
    ensures CommandUnitOfWork.NewOutboxRow(event).record.status == Pending
  {
  }

  lemma RowsStay(outbox: map<string, OutboxRow>)
    ensures RowsAdvance(outbox, outbox)
  {
  }

  lemma AppendKeepsInv(s: State, event: OutboxRecord)
    requires Inv(s) && !CommandUnitOfWork.EventTaken(s.queue.outbox, event)
    ensures var outbox := s.queue.outbox[event.id := CommandUnitOfWork.NewOutboxRow(event)];
            Inv(s.(queue := s.queue.(outbox := outbox)))
  {
    var n := s.(queue := s.queue.(outbox := s.queue.outbox[event.id := CommandUnitOfWork.NewOutboxRow(event)]));
    AppendAdvances(s.queue.outbox, event);
    hide ProducerInv, NetworkInv, ConsumerInv, RowsAdvance, CommandUnitOfWork.NewOutboxRow, CommandUnitOfWork.EventTaken;
    AppendKeepsProducer(s, event);
    NetworkFollows(s, n);
    ConsumerFollows(s, n);
  }

  lemma OneRowAdvances(outbox: map<string, OutboxRow>, id: string, row: OutboxRow)
    requires id in outbox && outbox[id].eventId == row.eventId
    requires SameIdentity(outbox[id].record, row.record) && outbox[id].record.attempts <= row.record.attempts
    ensures RowsAdvance(outbox, outbox[id := row])
  {
  }

  lemma SentHere(record: OutboxRecord, id: string, row: OutboxRow, outbox: map<string, OutboxRow>)
    requires SentOk(record, map[id := row]) && id in outbox && outbox[id] == row
    ensures SentOk(record, outbox)
  {
  }

  lemma ClaimKeepsInv(s: State, claim: ClaimInput, token: string)
    requires Inv(s) && token !in s.tokens
    ensures Inv(StepClaim(s, claim, token))
  {
    hide ProducerInv, NetworkInv, ConsumerInv, ClaimLease, StepClaim, PlanDelivery, RowOk, WindowsOk, ClaimSucceeds, SentOk,
         ClaimedLease, RowsAdvance, TokensIssued, SameIdentity;
    if ClaimSucceeds(s, claim, token) {
      var id, n := claim.outboxId, StepClaim(s, claim, token);
      ClaimedParts(s, claim, token);
      RowsOf(s, id);
      ClaimedRowOk(id, s.queue.outbox[id], LeaseAt(s.queue.leases, id), ClaimsOf(s, id), claim, token);
      OneRowAdvances(s.queue.outbox, id, ClaimedRow(s.queue.outbox[id], claim));
      SentHere(ClaimedRow(s.queue.outbox[id], claim).record, id, ClaimedRow(s.queue.outbox[id], claim), n.queue.outbox);
      ClaimKeepsProducer(s, claim, token);
      NetworkFollows(s, n);
      ConsumerFollows(s, n);
    } else {
      NoClaimNoChange(s, claim, token);
    }
  }

  lemma ReadComesFrom(s: State, outboxId: string)
    requires ProducerInv(s) && outboxId in s.queue.outbox
    ensures ComesFrom(s.queue.outbox[outboxId].record, s.queue.outbox)
  {
    hide WindowsOk, TokensIssued, EventIdsUnique, TokensUnique;
    assert RowOk(outboxId, s.queue.outbox[outboxId], LeaseAt(s.queue.leases, outboxId), ClaimsOf(s, outboxId));
  }

  lemma DispatchedFollows(s: State, n: State)
    requires DispatchedInv(s) && n.queue.outbox == s.queue.outbox && s.consumer.inbox.Keys <= n.consumer.inbox.Keys
    ensures DispatchedInv(n)
  {
  }

  lemma InspectKeepsInv(s: State, outboxId: string)
    requires Inv(s) && outboxId in s.queue.outbox
    ensures Inv(s.(inspected := s.inspected + {s.queue.outbox[outboxId].record}))
  {
    hide ProducerInv, NetworkInv, ConsumerInv, DispatchedInv, ComesFrom, SentOk, RowsAdvance;
    var n := s.(inspected := s.inspected + {s.queue.outbox[outboxId].record});
    ReadComesFrom(s, outboxId);
    RowsStay(s.queue.outbox);
    ProducerFollows(s, n);
    NetworkFollows(s, n);
    ConsumerFollows(s, n);
    DispatchedFollows(s, n);
  }

  lemma AckKeepsInv(s: State, record: OutboxRecord, evidence: Option<AckEvidence>, ack: VerifiedAckInput)
    requires Inv(s) && Truthful(s.consumer, evidence)
    ensures Inv(StepAck(s, record, evidence, ack))
  {
    var input := AckInput(record.id, record.eventId, ack.token, ack.nowMs);
    var n := StepAck(s, record, evidence, ack);
    hide ProducerInv, NetworkInv, ConsumerInv, Acknowledge, DispatchedRecord, RowOk, WindowsOk, TokensIssued, EventIdsUnique,
         TokensUnique, RowsAdvance;
    AckParts(s.queue, input);
    if n.queue != s.queue {
      RowsOf(s, input.outboxId);
      DispatchedRowOk(input.outboxId, s.queue.outbox[input.outboxId], LeaseAt(s.queue.leases, input.outboxId),
                      ClaimsOf(s, input.outboxId), ack.nowMs);
      OneRowAdvances(s.queue.outbox, input.outboxId, n.queue.outbox[input.outboxId]);
      AckKeepsProducer(s, input);
      NetworkFollows(s, n);
      ConsumerFollows(s, n);
    } else {
      assert n == s;
    }
  }

  // ----- the consumer -----

  /** A message that was sent is never refused as rebound or inconsistent: it repeats what the consumer holds. */
  lemma SentMatchesInbox(s: State, message: OutboxRecord)
    requires ProducerInv(s) && NetworkInv(s) && ConsumerInv(s) && message in s.sent
    ensures message.eventId in s.consumer.inbox ==>
        && BoundTo(s.consumer.inbox[message.eventId], message)
        && message.eventId in s.consumer.effects && s.consumer.effects[message.eventId] == EffectOf(message)
    ensures message.eventId !in s.consumer.inbox ==> message.eventId !in s.consumer.effects
    ensures message.id in s.queue.outbox && s.queue.outbox[message.id].eventId == message.eventId
  {
    assert SentOk(message, s.queue.outbox);
    RowsOf(s, message.id);
    if message.eventId in s.consumer.inbox {
      var o := s.consumer.inbox[message.eventId].outboxId;
      assert s.queue.outbox[o].eventId == s.queue.outbox[message.id].eventId;
      RowsOf(s, o);
    }
    hide ProducerInv, WindowsOk, TokensIssued;
  }

  lemma InsertConsumed(s: State, message: OutboxRecord, nowMs: int)
    requires ConsumerInv(s) && message.eventId !in s.consumer.inbox
    requires ComesFrom(message, s.queue.outbox) && s.queue.outbox[message.id].eventId == message.eventId
    ensures ConsumerInv(s.(consumer := ConsumerTables(s.consumer.inbox[message.eventId := InboxRowOf(message, nowMs)],
                                                      s.consumer.effects[message.eventId := EffectOf(message)]),
                           applied := s.applied + [message.eventId]))
  {
  }

  lemma DeliverKeepsInv(s: State, message: OutboxRecord, nowMs: int, fault: FaultPoint)
    requires Inv(s) && message in s.sent
    ensures Inv(StepDeliver(s, message, nowMs, fault))
  {
    hide ProducerInv, NetworkInv, ValidEnvelope, ConsumerInv, RowsAdvance, BoundTo, InboxRowOf, EffectOf, SentOk;
    var n := StepDeliver(s, message, nowMs, fault);
    SentMatchesInbox(s, message);
    SentComesFrom(s, message);
    RowsStay(s.queue.outbox);
    ProducerFollows(s, n);
    NetworkFollows(s, n);
    if n.applied != s.applied {
      InsertConsumed(s, message, nowMs);
    } else {
      ConsumerFollows(s, n);
    }
  }

  lemma SentComesFrom(s: State, message: OutboxRecord)
    requires NetworkInv(s) && message in s.sent
    ensures ComesFrom(message, s.queue.outbox)
  {
    assert SentOk(message, s.queue.outbox);
  }

  /** Every move keeps the invariant. */
  lemma NextKeepsInv(s: State, m: Move)
    requires Inv(s)
    ensures Inv(Next(s, m))
  {
    hide Inv, StepClaim, StepDeliver, StepAck;
    if Enabled(s, m) {
      match m
      case Append(event) => AppendKeepsInv(s, event);
      case Claim(claim, token) => ClaimKeepsInv(s, claim, token);
      case Deliver(message, nowMs, fault) => DeliverKeepsInv(s, message, nowMs, fault);
      case Inspect(outboxId) => InspectKeepsInv(s, outboxId);
      case VerifiedAck(record, evidence, ack) => AckKeepsInv(s, record, evidence, ack);
    }
  }

  lemma {:induction false} RunKeepsInv(moves: seq<Move>)
    ensures Inv(Run(START, moves))
    decreases |moves|
  {
    hide Next;
    if moves == [] {
    } else {
      hide Inv;
      RunKeepsInv(moves[..|moves| - 1]);
      NextKeepsInv(Run(START, moves[..|moves| - 1]), moves[|moves| - 1]);
    }
  }
}
