/** The whole protocol with its network and its consumer: exactly-once effects of what the commands announced. */
module EndToEnd {
  import opened Text
  import opened Records
  import opened Database
  import opened World
  import opened Invariants
  import opened Safety
  import opened OutboxDelivery
  import opened ConsumerInbox
  import opened OutboxProjection
  import Delivery = DeliveryRuns
  import DeliveryTheorems
  import CommandUnitOfWork

  /** The producer's world, and what network, verifier and consumer know. */
  datatype Joint = Joint(w: World, d: Delivery.State)

  const BEGINNING: Joint := Joint(INITIAL, Delivery.START)

  /**
   * Any step of the protocol, except an acknowledgement nobody verified; a delivery or an inspection; an
   * acknowledgement of an inspected record by a truthful verifier. Tokens are fresh.
   */
  datatype JointMove =
    | Protocol(action: Action)
    | Network(move: Delivery.Move)
    | Acknowledged(record: OutboxRecord, evidence: Option<AckEvidence>, ack: VerifiedAckInput)

  predicate Allowed(j: Joint, m: JointMove) {
    match m
    case Protocol(a) => !a.AckDelivery? && (a.ClaimDelivery? ==> a.token !in j.d.tokens)
    case Network(move) => move.Deliver? || move.Inspect?
    case Acknowledged(record, evidence, ack) =>
      && Delivery.Enabled(j.d, Delivery.VerifiedAck(record, evidence, ack))
      && record.eventId == ack.eventId && evidence.Some? && EvidenceBindsRecord(evidence.value, record, ack)
  }

  function Next(j: Joint, m: JointMove): Joint {
    if !Allowed(j, m) then j
    else
      match m
      case Protocol(a) =>
        var w := Step(j.w, a);
        Joint(w, if a.ClaimDelivery? then Delivery.Next(j.d, Delivery.Claim(a.claim, a.token)) else j.d.(queue := QueueOf(w.t)))
      case Network(move) => j.(d := Delivery.Next(j.d, move))
      case Acknowledged(record, evidence, ack) =>
        Joint(Step(j.w, AckDelivery(AckInput(record.id, record.eventId, ack.token, ack.nowMs))),
              Delivery.Next(j.d, Delivery.VerifiedAck(record, evidence, ack)))
  }

  function Run(moves: seq<JointMove>): Joint
    decreases |moves|
  {
    if moves == [] then BEGINNING else Next(Run(moves[..|moves| - 1]), moves[|moves| - 1])
  }

  // ----- the delivery side of a run is a run of the delivery protocol -----

  ghost predicate IsDeliveryRun(d: Delivery.State) {
    exists moves :: Delivery.Run(Delivery.START, moves) == d
  }

  ghost predicate Simulated(j: Joint) {
    Reachable(j.w) && j.d.queue == QueueOf(j.w.t) && IsDeliveryRun(j.d)
  }

  lemma DeliveryRunExtends(d: Delivery.State, m: Delivery.Move)
    requires IsDeliveryRun(d)
    ensures IsDeliveryRun(Delivery.Next(d, m))
  {
    hide Delivery.Next;
    var moves :| Delivery.Run(Delivery.START, moves) == d;
    assert (moves + [m])[..|moves + [m]| - 1] == moves;
    assert Delivery.Run(Delivery.START, moves + [m]) == Delivery.Next(d, m);
  }

  lemma StepReachable(w: World, a: Action)
    requires Reachable(w)
    ensures Reachable(Step(w, a))
  {
    hide Step, Leads;
    OneStepLeads(w, a);
    LeadsTransitive(INITIAL, w, Step(w, a));
  }

  /** A step that appends an event is an append of the delivery protocol. */
  lemma AppendedRun(d: Delivery.State, n: Queue, event: OutboxRecord)
    requires IsDeliveryRun(d) && Appends(d.queue, n, event)
    ensures IsDeliveryRun(d.(queue := n))
  {
    hide IsDeliveryRun, CommandUnitOfWork.EventTaken, CommandUnitOfWork.NewOutboxRow;
    DeliveryRunExtends(d, Delivery.Append(event));
  }

  lemma ClaimedQueue(d: Delivery.State, claim: ClaimInput, token: string)
    requires token !in d.tokens
    ensures Delivery.Next(d, Delivery.Claim(claim, token)).queue == ClaimLease(d.queue, claim, token).queue
  {
    hide TokenTaken, ValidClaimInput, NextAttempt, PlanDelivery;
  }

  lemma AcknowledgedQueue(j: Joint, m: JointMove)
    requires m.Acknowledged? && Allowed(j, m)
    ensures Next(j, m).d.queue == Acknowledge(j.d.queue, AckInput(m.record.id, m.record.eventId, m.ack.token, m.ack.nowMs)).queue
  {
    hide Acknowledge, Step, EvidenceBindsRecord;
  }

  lemma NetworkQueue(d: Delivery.State, m: Delivery.Move)
    requires m.Deliver? || m.Inspect?
    ensures Delivery.Next(d, m).queue == d.queue
  {
    hide Consume;
  }

  lemma ProtocolSimulated(j: Joint, a: Action)
    requires Simulated(j) && Allowed(j, Protocol(a))
    ensures Simulated(Next(j, Protocol(a)))
  {
    hide Step, Reachable, IsDeliveryRun, Delivery.Next, Appends, ClaimLease;
    StepReachable(j.w, a);
    StepsMoveTheQueue(j.w, a);
    var q, n := QueueOf(j.w.t), QueueOf(Step(j.w, a).t);
    if a.ClaimDelivery? {
      DeliveryMoves(j.w, a);
      ClaimedQueue(j.d, a.claim, a.token);
      DeliveryRunExtends(j.d, Delivery.Claim(a.claim, a.token));
    } else if n == q {
      assert j.d.(queue := n) == j.d;
    } else {
      var event :| Appends(q, n, event);
      AppendedRun(j.d, n, event);
    }
  }

  lemma NextSimulated(j: Joint, m: JointMove)
    requires Simulated(j)
    ensures Simulated(Next(j, m))
  {
    hide Step, Reachable, IsDeliveryRun, Delivery.Next, Delivery.Enabled, Acknowledge, EvidenceBindsRecord;
    if Allowed(j, m) {
      match m
      case Protocol(a) => ProtocolSimulated(j, a);
      case Network(move) =>
        NetworkQueue(j.d, move);
        DeliveryRunExtends(j.d, move);
      case Acknowledged(record, evidence, ack) =>
        var input := AckInput(record.id, record.eventId, ack.token, ack.nowMs);
        AcknowledgedQueue(j, m);
        DeliveryMoves(j.w, AckDelivery(input));
        StepReachable(j.w, AckDelivery(input));
        DeliveryRunExtends(j.d, Delivery.VerifiedAck(record, evidence, ack));
    }
  }

  /** Every joint run projects to a run of the protocol and to a run of the delivery protocol with the same outbox and leases. */
  lemma {:induction false} RunSimulated(moves: seq<JointMove>)
    ensures Simulated(Run(moves))
    decreases |moves|
  {
    hide Next;
    if moves == [] {
      InitialIsReachable();
      assert Delivery.Run(Delivery.START, []) == Delivery.START;
    } else {
      hide Simulated;
      RunSimulated(moves[..|moves| - 1]);
      NextSimulated(Run(moves[..|moves| - 1]), moves[|moves| - 1]);
    }
  }

  /**
   * Exactly once, from the command to the consumer. Whatever commands, workers, providers and the network
   * do, every business effect ran exactly once, is the effect of one outbox record with that record's
   * payload, and that record announces the end of a finished atomic command; a record that the producer
   * counts as dispatched has had its effect.
   */
  lemma ExactlyOnceFromCommandToConsumer(moves: seq<JointMove>)
    ensures var j := Run(moves);
            var outbox, consumer := j.w.t.outbox, j.d.consumer;
            && Reachable(j.w)
            && consumer.inbox.Keys == consumer.effects.Keys
            && (forall i, k | 0 <= i < k < |j.d.applied| :: j.d.applied[i] != j.d.applied[k])
            && (forall e :: e in j.d.applied <==> e in consumer.effects)
            && (forall e | e in consumer.effects ::
                  exists o :: o in outbox && outbox[o].eventId == e && consumer.effects[e] == EffectOf(outbox[o].record)
                           && AnnouncesEnd(j.w.t, o))
            && (forall o | o in outbox && outbox[o].record.status == Dispatched ::
                  outbox[o].eventId in consumer.effects && consumer.effects[outbox[o].eventId] == EffectOf(outbox[o].record))
  {
    RunSimulated(moves);
    hide Run, Reachable, Delivery.Run, AnnouncesEnd;
    var j := Run(moves);
    var d :| Delivery.Run(Delivery.START, d) == j.d;
    DeliveryTheorems.ExactlyOnce(d);
    forall e | e in j.d.consumer.effects
      ensures exists o :: o in j.w.t.outbox && j.w.t.outbox[o].eventId == e
                       && j.d.consumer.effects[e] == EffectOf(j.w.t.outbox[o].record) && AnnouncesEnd(j.w.t, o)
    {
      var o :| o in j.d.queue.outbox && j.d.queue.outbox[o].eventId == e && j.d.consumer.effects[e] == EffectOf(j.d.queue.outbox[o].record);
      RowAnnouncesEnd(j.w, o);
    }
  }

  /** The row carries the terminal event of a finished atomic command of its run. */
  predicate AnnouncesEnd(t: Tables, o: string) {
    && o in t.outbox && t.outbox[o].commandId in t.commands
    && t.commands[t.outbox[o].commandId].version == 3
    && Terminal(t.commands[t.outbox[o].commandId].payload.status)
    && t.commands[t.outbox[o].commandId].payload.owner == Some(AtomicControlOnly)
    && t.commands[t.outbox[o].commandId].payload.request.runId == t.outbox[o].runId
    && t.outbox[o].record.commandId == t.outbox[o].commandId
    && (t.outbox[o].eventId == TerminalEventId(t.outbox[o].commandId) || t.outbox[o].eventId == ReceiptEventId(t.outbox[o].commandId))
  }

  lemma RowAnnouncesEnd(w: World, o: string)
    requires Reachable(w) && o in w.t.outbox
    ensures AnnouncesEnd(w.t, o)
  {
    hide Reachable, LedgerInv, EffectCommands, TerminalEffects, ConsumptionInv, ControlInv, CheckpointInv, ReceiptEvents, WorkerInv;
    ReachableFacts(w);
    assert CommandRow(w.t.outbox[o].commandId, w.t.commands[w.t.outbox[o].commandId]);
    assert OutboxRowOk(o, w.t.outbox[o]);
    hide CommandInv, OutboxRows;
  }
}
