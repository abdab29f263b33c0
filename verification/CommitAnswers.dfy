/** When the terminal transaction of a command accepts a draft, and what it stores, in terms of the rows alone. */
module CommitAnswers {
  import opened Text
  import opened Records
  import opened Database
  import opened Authority
  import opened ControlPreparation
  import opened CommandUnitOfWork
  import opened World
  import opened Invariants
  import opened Safety
  import AtomicAdapter
  import CommandTheorems
  import CommitPreservation
  import ReceiptTheorems
  import StaleRejection

  // ----- the outbox loop -----

  /** No id and no event id is in the outbox, or twice among the events. */
  ghost predicate Fresh(outbox: map<string, OutboxRow>, events: seq<OutboxRecord>) {
    && (forall i | 0 <= i < |events| :: events[i].id !in outbox)
    && (forall i, o | 0 <= i < |events| && o in outbox :: outbox[o].eventId != events[i].eventId)
    && (forall i, j | 0 <= i < j < |events| :: events[i].id != events[j].id && events[i].eventId != events[j].eventId)
  }

  /** The old rows as they were, and one pending row for each event. */
  ghost predicate Appended(outbox: map<string, OutboxRow>, n: map<string, OutboxRow>, events: seq<OutboxRecord>) {
    && (forall o | o in n :: o in outbox || exists event :: event in events && event.id == o)
    && (forall o | o in outbox :: o in n && n[o] == outbox[o])
    && (forall event | event in events :: event.id in n && n[event.id] ==
          OutboxRow(event.eventId, event.commandId, event.runId, event.(status := Pending, attempts := 0, version := 1)))
  }

  /** The loop succeeds exactly on fresh events, and then adds one pending row for each. */
  lemma {:induction false} AppendsIff(outbox: map<string, OutboxRow>, events: seq<OutboxRecord>)
    ensures AppendEvents(outbox, events).Some? <==> Fresh(outbox, events)
    ensures AppendEvents(outbox, events).Some? ==> Appended(outbox, AppendEvents(outbox, events).value, events)
    decreases |events|
  {
    if events != [] && !EventTaken(outbox, events[0]) {
      var more := outbox[events[0].id := NewOutboxRow(events[0])];
      AppendsIff(more, events[1..]);
      FreshFromFirst(outbox, events);
      if AppendEvents(more, events[1..]).Some? {
        AppendedFromFirst(outbox, AppendEvents(more, events[1..]).value, events);
      }
    }
  }

  lemma FreshFromFirst(outbox: map<string, OutboxRow>, events: seq<OutboxRecord>)
    requires events != [] && !EventTaken(outbox, events[0])
    ensures Fresh(outbox[events[0].id := NewOutboxRow(events[0])], events[1..]) <==> Fresh(outbox, events)
  {
    var first, rest := events[0], events[1..];
    var more := outbox[first.id := NewOutboxRow(first)];
    if Fresh(more, rest) {
      forall i, j | 0 <= i < j < |events| ensures events[i].id != events[j].id && events[i].eventId != events[j].eventId {
        assert events[j] == rest[j - 1];
        if i > 0 {
          assert events[i] == rest[i - 1];
        } else {
          assert rest[j - 1].id !in more && more[first.id].eventId != rest[j - 1].eventId;
        }
      }
      forall i | 0 <= i < |events| ensures events[i].id !in outbox && forall o | o in outbox :: outbox[o].eventId != events[i].eventId {
        if i > 0 {
          assert events[i] == rest[i - 1];
          forall o | o in outbox ensures outbox[o].eventId != events[i].eventId {
            assert o in more && more[o] == outbox[o];
          }
        }
      }
    }
    if Fresh(outbox, events) {
      forall i | 0 <= i < |rest| ensures rest[i].id !in more && forall o | o in more :: more[o].eventId != rest[i].eventId {
        assert rest[i] == events[i + 1];
        assert events[0].id != events[i + 1].id && events[0].eventId != events[i + 1].eventId;
      }
    }
  }

  lemma AppendedFromFirst(outbox: map<string, OutboxRow>, n: map<string, OutboxRow>, events: seq<OutboxRecord>)
    requires events != [] && events[0].id !in outbox
    requires Appended(outbox[events[0].id := NewOutboxRow(events[0])], n, events[1..])
    ensures Appended(outbox, n, events)
  {
    var first := events[0];
    var more := outbox[first.id := NewOutboxRow(first)];
    assert forall event :: event in events <==> event == first || event in events[1..];
    assert first.id in more;
    forall o | o in outbox ensures o in n && n[o] == outbox[o] {
      assert o in more && more[o] == outbox[o];
    }
    forall o | o in n ensures o in outbox || exists event :: event in events && event.id == o {
      if o in more {
        assert o in outbox || o == first.id;
      } else {
        var event :| event in events[1..] && event.id == o;
        assert event in events;
      }
    }
  }

  // ----- any draft -----

  predicate WritesControl(input: CommitInput) {
    input.writes.None? || input.writes.value.control == CasUpdate
  }

  predicate WritesCheckpoint(input: CommitInput) {
    input.writes.None? || input.writes.value.checkpoint == CasUpdate
  }

  /** The row of a control update may only be new when the run is expected to have none. */
  ghost predicate RunMatches(t: Tables, input: CommitInput) {
    var run := input.command.request.runId;
    && input.checkpoint.runId == run && input.control.runId == run
    && run in t.checkpoints && t.checkpoints[run].version == input.expectedCheckpointVersion
    && (if run in t.controls then t.controls[run].version == input.expectedControlVersion else input.expectedControlVersion == 0)
    && (WritesControl(input) && run in t.controls ==> input.expectedControlVersion != 0)
  }

  ghost predicate CommandMatches(t: Tables, input: CommitInput) {
    var id := input.command.request.commandId;
    && id in t.commands && t.commands[id].version == input.expectedCommandVersion
    && (var stored := t.commands[id].payload;
        && stored.status == Executing && stored.request == input.command.request
        && stored.owner == input.command.owner && stored.fenced == input.command.fenced
        && (if stored.fenced then input.evidence.Some? && AuthorityHolds(t.acl, input.command.request, input.evidence.value)
            else input.evidence.None?))
    && input.command.status in {Succeeded, Rejected, Failed}
    && forall e | e in t.effects :: t.effects[e].intent.command.commandId != id
  }

  ghost predicate EventsMatch(t: Tables, input: CommitInput) {
    && (forall event | event in input.outbox ::
          event.commandId == input.command.request.commandId && event.runId == input.command.request.runId)
    && Fresh(t.outbox, input.outbox)
  }

  /** Everything an accepted draft leaves behind: only what it says it writes, one version on, stamped with the commit's time. */
  ghost predicate CommittedTables(t: Tables, n: Tables, input: CommitInput, at: Timestamp) {
    var id, run := input.command.request.commandId, input.command.request.runId;
    var checkpointVersion, controlVersion := input.expectedCheckpointVersion + 1, input.expectedControlVersion + 1;
    && n == t.(checkpoints := n.checkpoints, controls := n.controls, commands := n.commands, outbox := n.outbox)
    && n.checkpoints == (if !WritesCheckpoint(input) then t.checkpoints else
         t.checkpoints[run := Row(checkpointVersion, input.checkpoint.(version := checkpointVersion, updatedAt := at))])
    && n.controls == (if !WritesControl(input) then t.controls else
         t.controls[run := Row(controlVersion, input.control.(version := controlVersion, updatedAt := at))])
    && n.commands == t.commands[id := Row(input.expectedCommandVersion + 1,
                                          input.command.(version := input.expectedCommandVersion + 1, updatedAt := at))]
    && Appended(t.outbox, n.outbox, input.outbox)
  }

  /** The reason that is given is the case. */
  ghost predicate RefusedFor(t: Tables, input: CommitInput, reason: CommandDenial) {
    var id, run := input.command.request.commandId, input.command.request.runId;
    match reason
    case EffectRequiresReceipt => exists e :: e in t.effects && t.effects[e].intent.command.commandId == id
    case EvidenceConflict =>
      if id in t.commands && t.commands[id].payload.fenced then
        input.evidence.None? || !AuthorityHolds(t.acl, input.command.request, input.evidence.value)
      else input.evidence.Some?
    case RunIdentity => input.checkpoint.runId != run || input.control.runId != run
    case CheckpointConflict => run !in t.checkpoints || t.checkpoints[run].version != input.expectedCheckpointVersion
    case ControlConflict =>
      if run in t.controls then t.controls[run].version != input.expectedControlVersion || input.expectedControlVersion == 0
      else input.expectedControlVersion != 0
    case CommandIdentityOrStatus =>
      || input.command.status in {Accepted, Executing}
      || id !in t.commands || t.commands[id].version != input.expectedCommandVersion
      || t.commands[id].payload.status != Executing
      || t.commands[id].payload.(status := input.command.status, version := input.command.version,
                                 createdAt := input.command.createdAt, updatedAt := input.command.updatedAt,
                                 resultReason := input.command.resultReason, resultSnapshot := input.command.resultSnapshot)
         != input.command
    case OutboxIdentity => exists event :: event in input.outbox && (event.commandId != id || event.runId != run)
    case OutboxConflict => !Fresh(t.outbox, input.outbox)
    case _ => false
  }

  lemma AcceptsIff(t: Tables, input: CommitInput, at: Timestamp)
    ensures Commit(t, input, at).result.Ok? <==> RunMatches(t, input) && CommandMatches(t, input) && EventsMatch(t, input)
    ensures Commit(t, input, at).result.Denied? ==> Commit(t, input, at).tables == t
  {
    AppendsIff(t.outbox, input.outbox);
    EventsNamed(input.outbox, input.command.request);
    BackedMeans(t, input.command.request.commandId);
    hide AuthorityHolds, AppendEvents, Fresh, Appended, EventsNameCommand, EffectBacked;
  }

  lemma AcceptedWrites(t: Tables, input: CommitInput, at: Timestamp)
    requires Commit(t, input, at).result.Ok?
    ensures var o, id, run := Commit(t, input, at), input.command.request.commandId, input.command.request.runId;
            && CommittedTables(t, o.tables, input, at)
            && id in o.tables.commands && run in o.tables.checkpoints
            && o.result.value == CommitAnswer(
                 o.tables.checkpoints[run].payload,
                 if run in o.tables.controls then o.tables.controls[run].payload else input.control.(version := 0),
                 o.tables.commands[id].payload)
  {
    AppendsIff(t.outbox, input.outbox);
    hide EvidenceAccepted, TerminalDraftAccepted, AppendEvents, Appended, Fresh, EventsNameCommand, EffectBacked;
  }

  lemma RefusalIsTrue(t: Tables, input: CommitInput, at: Timestamp)
    requires Commit(t, input, at).result.Denied?
    ensures RefusedFor(t, input, Commit(t, input, at).result.reason)
  {
    AppendsIff(t.outbox, input.outbox);
    EventsNamed(input.outbox, input.command.request);
    BackedMeans(t, input.command.request.commandId);
    hide AuthorityHolds, AppendEvents, Fresh, Appended, EventsNameCommand, EffectBacked, CommittedCheckpoint, CommittedControl;
  }

  /** Any draft by any caller: accepted exactly when it matches run, command and outbox; a refusal is for a reason and changes nothing. */
  lemma CommitDecides(t: Tables, input: CommitInput, at: Timestamp)
    ensures var o, id, run := Commit(t, input, at), input.command.request.commandId, input.command.request.runId;
            && (o.result.Ok? <==> RunMatches(t, input) && CommandMatches(t, input) && EventsMatch(t, input))
            && (o.result.Ok? ==>
                && CommittedTables(t, o.tables, input, at)
                && id in o.tables.commands && run in o.tables.checkpoints
                && o.result.value == CommitAnswer(
                     o.tables.checkpoints[run].payload,
                     if run in o.tables.controls then o.tables.controls[run].payload else input.control.(version := 0),
                     o.tables.commands[id].payload))
            && (o.result.Denied? ==> o.tables == t && RefusedFor(t, input, o.result.reason))
  {
    hide Commit, RunMatches, CommandMatches, EventsMatch, CommittedTables, RefusedFor;
    AcceptsIff(t, input, at);
    if Commit(t, input, at).result.Ok? {
      AcceptedWrites(t, input, at);
    } else {
      RefusalIsTrue(t, input, at);
    }
  }

  lemma EventsNamed(events: seq<OutboxRecord>, request: Request)
    ensures EventsNameCommand(events, request)
       <==> forall event | event in events :: event.commandId == request.commandId && event.runId == request.runId
  {
  }

  lemma BackedMeans(t: Tables, id: string)
    ensures EffectBacked(t.effects, id) <==> !forall e | e in t.effects :: t.effects[e].intent.command.commandId != id
  {
  }

  /** A run's own save is accepted exactly at the expected version, 0 for a run without a row, and stores the next one. */
  lemma SaveDecides(t: Tables, checkpoint: Checkpoint, expectedVersion: int, at: Timestamp)
    ensures var run, o := checkpoint.runId, SaveCheckpoint(t, checkpoint, expectedVersion, at);
            var next := checkpoint.(version := expectedVersion + 1, updatedAt := at);
            && (o.result.Ok? <==>
                if expectedVersion == 0 then run !in t.checkpoints
                else run in t.checkpoints && t.checkpoints[run].version == expectedVersion)
            && (o.result.Ok? ==>
                o.result.value == next && o.tables == t.(checkpoints := t.checkpoints[run := Row(expectedVersion + 1, next)]))
            && (o.result.Denied? ==> o == Outcome(t, Denied(VersionConflict)))
  {
  }

  // ----- the draft of an adapter's worker -----

  /** What the tables must hold for an authorized worker to end its command. */
  ghost predicate MayEnd(t: Tables, a: AtomicWorker)
    requires a.Authorized?
  {
    var request := a.record.request;
    var id, run := request.commandId, request.runId;
    && id in t.commands && t.commands[id].version == 2
    && (if t.commands[id].payload.fenced then a.evidence.Some? && AuthorityHolds(t.acl, request, a.evidence.value)
        else a.evidence.None?)
    && (forall e | e in t.effects :: t.effects[e].intent.command.commandId != id)
    && run in t.checkpoints && t.checkpoints[run].version == request.expectedCheckpointVersion
    && (if run in t.controls then t.controls[run].version else 0) == request.ControlVersion()
  }

  lemma DraftShape(a: AtomicWorker, preparedAt: Timestamp, eventAt: Timestamp)
    requires a.Authorized? && AtomicDraft(a, preparedAt, eventAt).Some?
    ensures var input, request := AtomicDraft(a, preparedAt, eventAt).value, a.record.request;
            && input.command.request == request && input.command.owner == a.record.owner
            && input.command.fenced == a.record.fenced && input.command.status in {Succeeded, Rejected}
            && input.expectedCommandVersion == a.record.version && input.evidence == a.evidence
            && input.checkpoint.runId == request.runId && input.control.runId == request.runId
            && input.expectedCheckpointVersion == request.expectedCheckpointVersion
            && input.expectedControlVersion == request.ControlVersion() && !WritesCheckpoint(input)
            && |input.outbox| == 1
            && input.outbox[0].id == TerminalOutboxId(request.commandId)
            && input.outbox[0].eventId == TerminalEventId(request.commandId)
            && input.outbox[0].commandId == request.commandId && input.outbox[0].runId == request.runId
  {
    AppliedIff(a.record.request, a.checkpoint, a.control, a.decision, preparedAt);
    CommitPreservation.PreparedShape(a.record.request, a.checkpoint, a.control, a.decision, preparedAt);
    hide Prepare, TerminalOutboxId, TerminalEventId;
  }

  /** The event of a command that is still executing is not in the outbox. */
  lemma TerminalEventIsFresh(t: Tables, events: seq<OutboxRecord>, id: string)
    requires OutboxCommands(t.outbox, t.commands) && id in t.commands && t.commands[id].version == 2
    requires |events| == 1 && events[0].id == TerminalOutboxId(id) && events[0].eventId == TerminalEventId(id)
    ensures Fresh(t.outbox, events)
  {
    hide TerminalOutboxId, TerminalEventId, ReceiptOutboxId, ReceiptEventId;
    forall o | o in t.outbox ensures o != events[0].id && t.outbox[o].eventId != events[0].eventId {
      assert TerminalRow(o, t.outbox[o]) || ReceiptRow(o, t.outbox[o]);
      DerivedIdsInjective(t.outbox[o].commandId, id);
      DerivedKindsDistinct(id, t.outbox[o].commandId);
    }
  }

  lemma ExecutingRow(commands: map<string, Row<Command>>, id: string)
    requires CommandInv(commands) && id in commands
    ensures commands[id].payload.status == Executing <==> commands[id].version == 2
  {
    assert CommandRow(id, commands[id]);
  }

  /** A control row that is there is past version 0. */
  lemma ControlRowsCount(w: World, run: string)
    requires ControlInv(w.t.controls, w.history.controls, w.t.commands) && run in w.t.controls
    ensures w.t.controls[run].version > 0
  {
    assert run in w.history.controls;
    hide ControlLog;
  }

  /**
   * Whatever its preparation came to, an authorized worker's commit is accepted if and only if its command is
   * still executing without an effect, its authority is what its claim said it would be, and the run's checkpoint
   * and control row are at the versions the command expects. Nothing else can stand in its way.
   */
  lemma CommitsIff(w: World, worker: nat, preparedAt: Timestamp, eventAt: Timestamp, at: Timestamp)
    requires Reachable(w) && AtomicAt(w, worker).Authorized?
    requires AtomicDraft(AtomicAt(w, worker), preparedAt, eventAt).Some?
    ensures var a := AtomicAt(w, worker);
            var o := Commit(w.t, AtomicDraft(a, preparedAt, eventAt).value, at);
            && (o.result.Ok? <==> MayEnd(w.t, a))
            && (o.result.Denied? ==> o.tables == w.t)
  {
    var a := AtomicAt(w, worker);
    var input := AtomicDraft(a, preparedAt, eventAt).value;
    hide Reachable, Commit, AtomicDraft, OutboxCommands, CommandInv, WorkerInv, ControlInv, TerminalOutboxId, TerminalEventId,
         CommittedTables, ReadLogged, ControlReadLogged;
    ReachableFacts(w);
    CommitPreservation.AuthorizedKnows(w, worker);
    DraftShape(a, preparedAt, eventAt);
    AcceptsIff(w.t, input, at);
    DraftAccepted(w, a, input);
  }

  lemma DraftAccepted(w: World, a: AtomicWorker, input: CommitInput)
    requires a.Authorized? && CommandInv(w.t.commands) && OutboxCommands(w.t.outbox, w.t.commands)
    requires ControlInv(w.t.controls, w.history.controls, w.t.commands)
    requires HeldRecord(a.record, AtomicControlOnly, w.t.commands)
    requires a.record.fenced == w.t.commands[a.record.request.commandId].payload.fenced
    requires var request := a.record.request;
             && input.command.request == request && input.command.owner == a.record.owner
             && input.command.fenced == a.record.fenced && input.command.status in {Succeeded, Rejected}
             && input.expectedCommandVersion == a.record.version && input.evidence == a.evidence
             && input.checkpoint.runId == request.runId && input.control.runId == request.runId
             && input.expectedCheckpointVersion == request.expectedCheckpointVersion
             && input.expectedControlVersion == request.ControlVersion()
             && |input.outbox| == 1
             && input.outbox[0].id == TerminalOutboxId(request.commandId)
             && input.outbox[0].eventId == TerminalEventId(request.commandId)
             && input.outbox[0].commandId == request.commandId && input.outbox[0].runId == request.runId
    ensures RunMatches(w.t, input) && CommandMatches(w.t, input) && EventsMatch(w.t, input) <==> MayEnd(w.t, a)
  {
    var id, run := a.record.request.commandId, a.record.request.runId;
    hide CommandInv, OutboxCommands, ControlInv, TerminalOutboxId, TerminalEventId, AuthorityHolds, Fresh;
    ExecutingRow(w.t.commands, id);
    if w.t.commands[id].version == 2 {
      TerminalEventIsFresh(w.t, input.outbox, id);
    }
    if run in w.t.controls {
      ControlRowsCount(w, run);
    }
  }

  /** What the commit of an authorized worker stores, field by field. */
  ghost predicate StoredByCommit(t: Tables, n: Tables, a: AtomicWorker, eventAt: Timestamp, at: Timestamp)
    requires a.Authorized? && a.record.request.commandId in n.commands
  {
    var request := a.record.request;
    var id, run, version := request.commandId, request.runId, request.ControlVersion();
    var command := n.commands[id].payload;
    && n == t.(commands := t.commands[id := Row(3, command)], controls := n.controls, outbox := n.outbox)
    && command == a.record.(status := command.status, version := 3, updatedAt := at,
                            resultReason := command.resultReason, resultSnapshot := command.resultSnapshot)
    && command.resultSnapshot.Some?
    && var result := command.resultSnapshot.value;
    && command.resultReason == Some(result.reason)
    && Owed(request, a.decision, a.checkpoint.version, if a.control.Some? then a.control.value.version else 0,
            a.checkpoint.boundary.Completed?, if a.control.Some? then a.control.value.status else Active,
            result.status, result.reason)
    && command.status == (if result.status == Refused then Rejected else Succeeded)
    && result.checkpointVersion == request.expectedCheckpointVersion
    && (if result.status == Refused || result.status == NoOp then
          n.controls == t.controls && result.controlVersion == version
        else
          && result.controlVersion == version + 1 && run in n.controls
          && (var control := n.controls[run].payload;
              && n.controls == t.controls[run := Row(version + 1, control)]
              && control == Control(run, version + 1, control.status, Some(request.reason), Some(request.requestedBy), Some(id), at)
              && LegalMove(request.operation, ReceiptTheorems.ControlStatusOf(t, run), control.status)))
    && n.outbox == t.outbox[TerminalOutboxId(id) :=
         OutboxRow(TerminalEventId(id), id, run,
                   OutboxRecord(TerminalOutboxId(id), TerminalEventId(id), id, run, Audit,
                                TerminalAudit(request.operation, OutcomeOf(result.status), result.reason),
                                Pending, 0, 1, eventAt, eventAt, None))]
  }

  function OutcomeOf(status: ResultStatus): PreparationOutcome {
    if status == Refused then RejectedOutcome else if status == NoOp then NoOpOutcome else Applied
  }

  /** The control row of an applied preparation, made on a current read. */
  lemma AppliedControl(w: World, request: Request, checkpoint: Checkpoint, read: Option<Control>, decision: Decision, preparedAt: Timestamp)
    requires ControlInv(w.t.controls, w.history.controls, w.t.commands)
    requires ControlReadLogged(request.runId, read, w.history.controls)
    requires ControlVersionOf(w.t, request.runId) == request.ControlVersion()
    requires Prepare(request, checkpoint, read, decision, preparedAt).Ok?
    requires Prepare(request, checkpoint, read, decision, preparedAt).value.outcome == Applied
    ensures var control := Prepare(request, checkpoint, read, decision, preparedAt).value.control;
            && control == Control(request.runId, control.version, control.status, Some(request.reason),
                                  Some(request.requestedBy), Some(request.commandId), preparedAt)
            && LegalMove(request.operation, ReceiptTheorems.ControlStatusOf(w.t, request.runId), control.status)
  {
    AppliedIff(request, checkpoint, read, decision, preparedAt);
    hide ControlInv, ControlReadLogged;
    CommandTheorems.CurrentReads(w, request.runId, checkpoint, read, preparedAt);
  }

  /**
   * An accepted commit stores what its command is owed for what its worker read, at the checkpoint version the command
   * expected; it writes the control row, in the request's name, exactly when the operation is applied, announces
   * the outcome in one event, and touches nothing else.
   */
  lemma CommitStores(w: World, worker: nat, preparedAt: Timestamp, eventAt: Timestamp, at: Timestamp)
    requires Reachable(w) && AtomicAt(w, worker).Authorized?
    requires AtomicDraft(AtomicAt(w, worker), preparedAt, eventAt).Some?
    requires Commit(w.t, AtomicDraft(AtomicAt(w, worker), preparedAt, eventAt).value, at).result.Ok?
    ensures var a := AtomicAt(w, worker);
            var o := Commit(w.t, AtomicDraft(a, preparedAt, eventAt).value, at);
            && a.record.request.commandId in w.t.commands && a.record.request.commandId in o.tables.commands
            && StoredByCommit(w.t, o.tables, a, eventAt, at)
            && o.result.value.command == o.tables.commands[a.record.request.commandId].payload
  {
    var a := AtomicAt(w, worker);
    var prepared := Prepare(a.record.request, a.checkpoint, a.control, a.decision, preparedAt).value;
    hide Reachable, Commit, Prepare, OutboxCommands, CommandInv, WorkerInv, ControlInv, TerminalOutboxId, TerminalEventId,
         ReadLogged, ControlReadLogged, StoredByCommit, AtomicAdapter.AdapterCommit, Owed, LegalMove;
    ReachableFacts(w);
    CommitPreservation.AuthorizedKnows(w, worker);
    CommitPreservation.PreparedShape(a.record.request, a.checkpoint, a.control, a.decision, preparedAt);
    CommitPreservation.AdapterCommitTables(w.t, a.record, prepared, a.evidence, eventAt, at);
    CommitStoresRows(w, a, prepared, preparedAt, eventAt, at);
    AcceptedWrites(w.t, AtomicAdapter.AdapterCommit(a.record, prepared, a.evidence, eventAt), at);
  }

  lemma CommitStoresRows(w: World, a: AtomicWorker, prepared: Prepared, preparedAt: Timestamp, eventAt: Timestamp, at: Timestamp)
    requires a.Authorized? && HeldRecord(a.record, AtomicControlOnly, w.t.commands)
    requires ControlInv(w.t.controls, w.history.controls, w.t.commands)
    requires ControlReadLogged(a.record.request.runId, a.control, w.history.controls)
    requires Prepare(a.record.request, a.checkpoint, a.control, a.decision, preparedAt) == Ok(prepared)
    requires prepared.request == a.record.request && (prepared.writes.control == CasUpdate <==> prepared.outcome == Applied)
    requires Commit(w.t, AtomicAdapter.AdapterCommit(a.record, prepared, a.evidence, eventAt), at).result.Ok?
    requires CommitPreservation.AdapterCommitted(w.t, Commit(w.t, AtomicAdapter.AdapterCommit(a.record, prepared, a.evidence, eventAt), at).tables,
                                                 a.record, prepared, a.evidence, eventAt, at)
    ensures StoredByCommit(w.t, Commit(w.t, AtomicAdapter.AdapterCommit(a.record, prepared, a.evidence, eventAt), at).tables, a, eventAt, at)
  {
    hide Commit, Prepare, Owed, LegalMove, ControlInv, ControlReadLogged, EventTaken, EffectBacked, AtomicAdapter.AdapterCommit,
         CommitPreservation.FinishedCommand, AtomicAdapter.TerminalEvent, NewOutboxRow, TerminalOutboxId, TerminalEventId;
    PreparedIsOwed(a.record.request, a.checkpoint, a.control, a.decision, preparedAt);
    FinishedShape(a.record, prepared, a.evidence, eventAt, at);
    if prepared.outcome == Applied {
      AppliedControl(w, a.record.request, a.checkpoint, a.control, a.decision, preparedAt);
    }
  }

  lemma FinishedShape(record: Command, prepared: Prepared, evidence: Option<Evidence>, eventAt: Timestamp, at: Timestamp)
    requires prepared.request == record.request && record.version == 2
    ensures var request, event := prepared.request, AtomicAdapter.TerminalEvent(prepared, eventAt);
            var version := request.ControlVersion() + (if prepared.writes.control == CasUpdate then 1 else 0);
            && CommitPreservation.FinishedCommand(record, prepared, evidence, at)
               == record.(status := if prepared.outcome == RejectedOutcome then Rejected else Succeeded, version := 3, updatedAt := at,
                          resultReason := Some(prepared.reason),
                          resultSnapshot := Some(Snapshot(prepared.status, prepared.reason, request.expectedCheckpointVersion, version)))
            && event.id == TerminalOutboxId(request.commandId)
            && NewOutboxRow(event)
               == OutboxRow(TerminalEventId(request.commandId), request.commandId, request.runId,
                            OutboxRecord(TerminalOutboxId(request.commandId), TerminalEventId(request.commandId), request.commandId,
                                         request.runId, Audit, TerminalAudit(request.operation, prepared.outcome, prepared.reason),
                                         Pending, 0, 1, eventAt, eventAt, None))
  {
    hide TerminalOutboxId, TerminalEventId;
  }

  /**
   * The adapter's method is its four steps in the state machine, with any rivals in between: it leaves the tables its
   * worker's commit leaves, and it succeeds exactly when that commit is accepted.
   */
  lemma AdapterIsItsSteps(w0: World, w1: World, w2: World, w3: World, worker: nat, record: Command, evidence: Option<Evidence>,
                          decision: Decision, preparedAt: Timestamp, eventAt: Timestamp, at: Timestamp)
    requires AtomicAt(w0, worker) == Admitted(record, evidence)
    requires AtomicAt(w1, worker) == AtomicAt(StepReadCheckpoint(w0, worker), worker)
    requires AtomicAt(w2, worker) == AtomicAt(StepReadControl(w1, worker), worker)
    requires AtomicAt(w3, worker) == AtomicAt(StepAuthorize(w2, worker, decision), worker)
    ensures var run := AtomicAdapter.ExecuteAdmitted(w0.t, record, evidence, decision, w1.t, w3.t, preparedAt, eventAt, at);
            var a := AtomicAt(w3, worker);
            if record.request.runId in w0.t.checkpoints then
              && a.Authorized? && a.record == record && a.evidence == evidence && a.decision == decision
              && a.checkpoint == w0.t.checkpoints[record.request.runId].payload && a.control == StoredControl(w1.t, record.request.runId)
              && (run.result.Ok? <==>
                  AtomicDraft(a, preparedAt, eventAt).Some?
                  && Commit(w3.t, AtomicDraft(a, preparedAt, eventAt).value, at).result.Ok?)
              && run.tables == StepCommitAtomic(w3, worker, preparedAt, eventAt, at).t
            else AtomicAt(w1, worker).AtomicIdle? && run == Outcome(w0.t, Denied(AtomicAdapter.CheckpointNotFound))
  {
    hide Commit, Prepare, AtomicAdapter.AdapterCommit;
    DeniedCommitWritesNothing(w3.t, at);
  }

  lemma DeniedCommitWritesNothing(t: Tables, at: Timestamp)
    ensures forall input :: Commit(t, input, at).result.Denied? ==> Commit(t, input, at).tables == t
  {
    forall input | Commit(t, input, at).result.Denied? ensures Commit(t, input, at).tables == t {
      AcceptsIff(t, input, at);
      hide *;
    }
  }

  // ----- an applied operation does commit -----

  ghost predicate QuarantineCommitted(w: World, worker: nat) {
    && AtomicAt(w, worker).Authorized?
    && AtomicDraft(AtomicAt(w, worker), Instant(0), Instant(0)).Some?
    && var a := AtomicAt(w, worker);
       var o := Commit(w.t, AtomicDraft(a, Instant(0), Instant(0)).value, Instant(0));
       && o.result.Ok? && a.record.request.operation == Quarantine
       && a.record.request.runId in o.tables.controls && a.record.request.runId !in w.t.controls
       && o.tables.controls[a.record.request.runId].payload.status == Quarantined
       && o.result.value.command.resultSnapshot == Some(Snapshot(QuarantineSet, RunQuarantined, 2, 1))
  }

  /** The scene: checkpoint version 2 is expected, read and stored, and there is no control row. */
  function CurrentWorker(): AtomicWorker {
    Authorized(StaleRejection.Executing2(), None, StaleRejection.Saved(2), None, StaleRejection.ALLOWED)
  }

  lemma CurrentWorkerMayEnd()
    ensures var w := StaleRejection.Scene(2, true, CurrentWorker(), true);
            && AtomicAt(w, 0) == CurrentWorker() && MayEnd(w.t, CurrentWorker()) && w.t.controls == map[]
            && AtomicDraft(CurrentWorker(), Instant(0), Instant(0)).Some?
  {
    assert !Blank("c") by { assert !IsSpace("c"[0]); }
  }

  /** What the worker is owed: nothing but an applied quarantine. */
  lemma OwedQuarantine(t: Tables, n: Tables)
    requires StaleRejection.REQUEST.commandId in n.commands && t.controls == map[]
    requires StoredByCommit(t, n, CurrentWorker(), Instant(0), Instant(0))
    ensures "r" in n.controls && n.controls["r"].payload.status == Quarantined
    ensures n.commands[StaleRejection.REQUEST.commandId].payload.resultSnapshot == Some(Snapshot(QuarantineSet, RunQuarantined, 2, 1))
  {
    assert LegalMove(Quarantine, Active, Quarantined);
    hide TerminalOutboxId, TerminalEventId;
  }

  /** A quarantine is admitted, read, authorized and committed as applied. */
  lemma AppliedQuarantineCommits()
    ensures exists w: World, worker: nat :: Reachable(w) && QuarantineCommitted(w, worker)
  {
    var w := StaleRejection.Scene(2, true, CurrentWorker(), true);
    hide Reachable, StaleRejection.Scene, Commit, AtomicDraft, MayEnd, StoredByCommit;
    StaleRejection.CurrentSceneIsReachable();
    CurrentWorkerMayEnd();
    CommitsIff(w, 0, Instant(0), Instant(0), Instant(0));
    CommitStores(w, 0, Instant(0), Instant(0), Instant(0));
    OwedQuarantine(w.t, Commit(w.t, AtomicDraft(CurrentWorker(), Instant(0), Instant(0)).value, Instant(0)).tables);
    assert QuarantineCommitted(w, 0);
  }
}
