/** What holds of commands and control rows over every run: at most once, serializable, and a dead letter for good. */
module CommandTheorems {
  import opened Text
  import opened Records
  import opened Database
  import opened ControlPreparation
  import opened World
  import opened Invariants
  import opened Safety
  import opened CommandPreservation
  import opened CommitPreservation
  import CommandUnitOfWork
  import AtomicAdapter

  // ----- at most once -----

  /**
   * Over any run, by any number of workers on either route and with crashes anywhere: no command id
   * reaches an authorizer or a business executor twice, identity and owner of a row never change, its
   * version is 1, 2 or 3 exactly when it is accepted, executing or terminal, and terminal is final.
   */
  lemma AtMostOnce(w: World, later: World, id: string)
    requires Reachable(w) && Leads(w, later)
    ensures w.invoked <= later.invoked
    ensures forall i, j | 0 <= i < j < |later.invoked| :: later.invoked[i] != later.invoked[j]
    ensures id in later.invoked ==> id in later.t.commands && later.t.commands[id].version >= 2
    ensures id in w.t.commands ==>
        && id in later.t.commands
        && later.t.commands[id].payload.request == w.t.commands[id].payload.request
        && later.t.commands[id].payload.owner == w.t.commands[id].payload.owner
        && (Terminal(w.t.commands[id].payload.status) ==> later.t.commands[id] == w.t.commands[id])
    ensures id in later.t.commands ==>
        var row := later.t.commands[id];
        && row.version == row.payload.version && row.payload.request.commandId == id
        && (row.payload.status == Accepted <==> row.version == 1)
        && (row.payload.status == Executing <==> row.version == 2)
        && (Terminal(row.payload.status) <==> row.version == 3)
  {
    hide Reachable, Leads, WorkerInv, Terminal;
    LaterFacts(w, later);
    ReachableFacts(w);
    ReachableFacts(later);
    InvocationsOf(later);
    hide CommandRow;
    if id in w.t.commands { RowFacts(w.t.commands, id); }
    if id in later.t.commands { RowFacts(later.t.commands, id); }
  }

  lemma RowFacts(commands: map<string, Row<Command>>, id: string)
    requires CommandInv(commands) && id in commands
    ensures var row := commands[id];
            && row.version == row.payload.version && row.payload.request.commandId == id
            && (row.payload.status == Accepted <==> row.version == 1)
            && (row.payload.status == Executing <==> row.version == 2)
            && (Terminal(row.payload.status) <==> row.version == 3)
  {
    assert CommandRow(id, commands[id]);
  }

  lemma InvocationsOf(w: World)
    requires WorkerInv(w.atomic, w.legacy, w.t.commands, w.history.checkpoints, w.history.controls, w.invoked)
    ensures forall i, j | 0 <= i < j < |w.invoked| :: w.invoked[i] != w.invoked[j]
    ensures forall id | id in w.invoked :: id in w.t.commands && w.t.commands[id].version >= 2
  {
    hide AtomicWorkerOk, LegacyWorkerOk, AtomicExclusive, LegacyExclusive;
  }

  /** A dispatcher never reaches an executor through the route that does not own the command. */
  lemma OwnerRunsAlone(w: World, worker: nat)
    requires Reachable(w)
    ensures var a := AtomicAt(w, worker);
            !a.AtomicIdle? ==>
              && a.record.request.commandId in w.t.commands
              && w.t.commands[a.record.request.commandId].payload.owner == Some(AtomicControlOnly)
    ensures var l := LegacyAt(w, worker);
            l.Running? || l.Returned? ==>
              && l.record.request.commandId in w.t.commands
              && w.t.commands[l.record.request.commandId].payload.owner == Some(Legacy)
  {
    hide Reachable, WorkerInv;
    ReachableFacts(w);
    AtomicWorkerKnows(w, worker);
    LegacyWorkersKnow(w);
  }

  // ----- control history -----

  /** The control row is the last entry of a log whose versions count 1, 2, 3, ... and whose causes are distinct. */
  lemma ControlVersionsAreConsecutive(w: World, run: string)
    requires Reachable(w)
    ensures var log := Log(w.history.controls, run);
            && CommandUnitOfWork.ControlVersionOf(w.t, run) == |log|
            && (|log| > 0 ==> CommandUnitOfWork.StoredControl(w.t, run) == Some(log[|log| - 1]))
            && (forall i: nat | i < |log| :: log[i].version == i + 1 && log[i].causedBy.Some?)
            && (forall i, j | 0 <= i < j < |log| :: log[i].causedBy != log[j].causedBy)
  {
    hide Reachable;
    ReachableFacts(w);
    hide ControlLog;
    if run in w.history.controls {
      LogFacts(run, w.history.controls[run], w.t.commands);
    }
  }

  lemma LogFacts(run: string, log: seq<Control>, commands: map<string, Row<Command>>)
    requires ControlLog(run, log, commands)
    ensures forall i: nat | i < |log| :: log[i].version == i + 1 && log[i].causedBy.Some?
    ensures forall i, j | 0 <= i < j < |log| :: log[i].causedBy != log[j].causedBy
  {
    forall i: nat | i < |log| ensures log[i].version == i + 1 && log[i].causedBy.Some? {
      assert ControlEntry(run, log, i, commands);
    }
    forall i, j | 0 <= i < j < |log| ensures log[i].causedBy != log[j].causedBy {
      assert ControlEntry(run, log, i, commands) && ControlEntry(run, log, j, commands);
    }
  }

  lemma NothingFollowsDead(run: string, log: seq<Control>, i: nat, commands: map<string, Row<Command>>)
    requires ControlLog(run, log, commands) && 0 < i < |log|
    ensures !log[i - 1].status.Dead?
  {
    assert ControlEntry(run, log, i, commands);
  }

  /** No entry follows a dead letter. */
  lemma DeadLogStops(run: string, log: seq<Control>, longer: seq<Control>, commands: map<string, Row<Command>>)
    requires ControlLog(run, longer, commands) && log <= longer
    requires |log| > 0 && log[|log| - 1].status.Dead?
    ensures longer == log
  {
    if |longer| > |log| {
      NothingFollowsDead(run, longer, |log|, commands);
    }
  }

  /** A command was applied when it caused a version of its run's control row. */
  ghost predicate WasApplied(w: World, id: string) {
    && id in w.t.commands
    && exists i: nat :: i < |Log(w.history.controls, w.t.commands[id].payload.request.runId)|
                     && Log(w.history.controls, w.t.commands[id].payload.request.runId)[i].causedBy == Some(id)
  }

  /** Two commands that expect the same control version of the same run are never both applied. */
  lemma SameExpectedVersionAppliesOnce(w: World, a: string, b: string)
    requires Reachable(w) && WasApplied(w, a) && WasApplied(w, b)
    requires w.t.commands[a].payload.request.runId == w.t.commands[b].payload.request.runId
    requires w.t.commands[a].payload.request.ControlVersion() == w.t.commands[b].payload.request.ControlVersion()
    ensures a == b
  {
    hide Reachable;
    ReachableFacts(w);
    AppliedAtExpected(w, a);
    AppliedAtExpected(w, b);
  }

  /** An applied command wrote exactly the version after the one it expected, legally and in its own name, and its stored result says so. */
  lemma AppliedAtExpected(w: World, id: string)
    requires ControlInv(w.t.controls, w.history.controls, w.t.commands) && WasApplied(w, id)
    ensures var request := w.t.commands[id].payload.request;
            var log := Log(w.history.controls, request.runId);
            && 0 <= request.ControlVersion() < |log|
            && log[request.ControlVersion()].causedBy == Some(id)
            && w.t.commands[id].version == 3 && w.t.commands[id].payload.status == Succeeded
            && LegalMove(request.operation, StatusBefore(log, request.ControlVersion()), log[request.ControlVersion()].status)
            && log[request.ControlVersion()].reason == Some(request.reason)
            && log[request.ControlVersion()].updatedBy == Some(request.requestedBy)
            && AppliedResult(w.t.commands[id].payload, request.ControlVersion() + 1)
  {
    var run := w.t.commands[id].payload.request.runId;
    var log := Log(w.history.controls, run);
    var i: nat :| i < |log| && log[i].causedBy == Some(id);
    assert ControlLog(run, log, w.t.commands);
    assert ControlEntry(run, log, i, w.t.commands);
  }

  /** A dead-lettered run keeps its control row in every later state, under every interleaving. */
  lemma DeadLetterIsAbsorbing(w: World, later: World, run: string)
    requires Reachable(w) && Leads(w, later)
    requires run in w.t.controls && w.t.controls[run].payload.status.Dead?
    ensures run in later.t.controls && later.t.controls[run] == w.t.controls[run]
  {
    hide Reachable, Leads, ControlInv;
    LaterFacts(w, later);
    ReachableFacts(w);
    ReachableFacts(later);
    DeadStays(w, later, run);
  }

  lemma DeadStays(w: World, later: World, run: string)
    requires ControlInv(w.t.controls, w.history.controls, w.t.commands)
    requires ControlInv(later.t.controls, later.history.controls, later.t.commands)
    requires LogsGrow(w.history.controls, later.history.controls)
    requires run in w.t.controls && w.t.controls[run].payload.status.Dead?
    ensures run in later.t.controls && later.t.controls[run] == w.t.controls[run]
  {
    hide ControlLog;
    assert Log(w.history.controls, run) <= Log(later.history.controls, run);
    DeadLogStops(run, w.history.controls[run], later.history.controls[run], later.t.commands);
  }

  // ----- serializability -----

  predicate VersionConflict(reason: ResultReason) {
    reason == CheckpointVersionConflict || reason == ControlVersionConflict
  }

  /** An authorized worker that has read another version of the checkpoint or the control row than its command expects. */
  predicate ReadsLag(request: Request, checkpoint: Checkpoint, read: Option<Control>, decision: Decision) {
    && decision.allowed
    && (checkpoint.version != request.expectedCheckpointVersion
        || (if read.Some? then read.value.version else 0) != request.ControlVersion())
  }

  /** The same verdict, and the same control state when one is written. */
  predicate SameEffect(a: Prepared, b: Prepared) {
    && a.outcome == b.outcome && a.status == b.status && a.reason == b.reason && a.writes == b.writes
    && (a.outcome == Applied ==> a.control == b.control)
  }

  /** A version number determines its checkpoint row too. */
  lemma VersionDeterminesCheckpoint(w: World, run: string, read: Checkpoint)
    requires CheckpointInv(w.t.checkpoints, w.history.checkpoints) && ReadLogged(run, read, w.history.checkpoints)
    requires run in w.t.checkpoints && w.t.checkpoints[run].version == read.version
    ensures w.t.checkpoints[run].payload == read
  {
  }

  lemma StoredVersions(w: World, run: string)
    requires CheckpointInv(w.t.checkpoints, w.history.checkpoints) && run in w.t.checkpoints
    ensures w.t.checkpoints[run].version == w.t.checkpoints[run].payload.version
    ensures w.t.checkpoints[run].payload.runId == run
  {
    assert CheckpointLog(run, w.history.checkpoints[run]);
  }

  /** Preparing on reads that are still current is preparing on the rows themselves. */
  lemma CurrentReads(w: World, run: string, checkpoint: Checkpoint, read: Option<Control>, at: Timestamp)
    requires ControlInv(w.t.controls, w.history.controls, w.t.commands)
    requires ControlReadLogged(run, read, w.history.controls)
    requires CurrentControl(run, read, at).version == CommandUnitOfWork.ControlVersionOf(w.t, run)
    ensures read == CommandUnitOfWork.StoredControl(w.t, run)
  {
    StoredControlLogged(w, run);
    VersionDeterminesControl(run, read, w.history.controls, w.t.commands, at);
  }

  /** The verdict is a version conflict exactly when the reads lag. */
  lemma MatchedVersionsNeverConflict(request: Request, checkpoint: Checkpoint, read: Option<Control>, decision: Decision, at: Timestamp)
    requires Prepare(request, checkpoint, read, decision, at).Ok?
    ensures VersionConflict(Prepare(request, checkpoint, read, decision, at).value.reason)
       <==> ReadsLag(request, checkpoint, read, decision)
  {
  }

  /** A refusal by the authorizer does not depend on what was read. */
  lemma RefusalIgnoresReads(request: Request, c: Checkpoint, d: Checkpoint, r: Option<Control>, s: Option<Control>,
                            decision: Decision, at: Timestamp)
    requires !decision.allowed
    requires Prepare(request, c, r, decision, at).Ok? && Prepare(request, d, s, decision, at).Ok?
    ensures SameEffect(Prepare(request, c, r, decision, at).value, Prepare(request, d, s, decision, at).value)
  {
  }

  lemma SerialCore(w: World, request: Request, checkpoint: Checkpoint, read: Option<Control>, decision: Decision, at: Timestamp)
    requires CheckpointInv(w.t.checkpoints, w.history.checkpoints)
    requires ControlInv(w.t.controls, w.history.controls, w.t.commands)
    requires ReadLogged(request.runId, checkpoint, w.history.checkpoints)
    requires ControlReadLogged(request.runId, read, w.history.controls)
    requires Prepare(request, checkpoint, read, decision, at).Ok?
    requires request.runId in w.t.checkpoints && w.t.checkpoints[request.runId].version == request.expectedCheckpointVersion
    requires CommandUnitOfWork.ControlVersionOf(w.t, request.runId) == request.ControlVersion()
    ensures var serial := Prepare(request, w.t.checkpoints[request.runId].payload,
                                  CommandUnitOfWork.StoredControl(w.t, request.runId), decision, at);
            && serial.Ok?
            && (SameEffect(Prepare(request, checkpoint, read, decision, at).value, serial.value)
                <==> !ReadsLag(request, checkpoint, read, decision))
  {
    var run := request.runId;
    var stored, control := w.t.checkpoints[run].payload, CommandUnitOfWork.StoredControl(w.t, run);
    StoredVersions(w, run);
    StoredControlLogged(w, run);
    assert Prepare(request, stored, control, decision, at).Ok?;
    assert CurrentControl(run, control, at).version == request.ControlVersion() by {
      CurrentStoredControl(w, run, at);
    }
    MatchedVersionsNeverConflict(request, checkpoint, read, decision, at);
    MatchedVersionsNeverConflict(request, stored, control, decision, at);
    hide Prepare, CheckpointInv, ControlInv;
    if !decision.allowed {
      RefusalIgnoresReads(request, checkpoint, stored, read, control, decision, at);
    } else if !ReadsLag(request, checkpoint, read, decision) {
      VersionDeterminesCheckpoint(w, run, checkpoint);
      CurrentReads(w, run, checkpoint, read, at);
    }
  }

  lemma CurrentStoredControl(w: World, run: string, at: Timestamp)
    requires ControlInv(w.t.controls, w.history.controls, w.t.commands)
    ensures CurrentControl(run, CommandUnitOfWork.StoredControl(w.t, run), at).version == CommandUnitOfWork.ControlVersionOf(w.t, run)
  {
    if run in w.t.controls {
      var log := w.history.controls[run];
      assert ControlLog(run, log, w.t.commands);
      assert ControlEntry(run, log, |log| - 1, w.t.commands);
    }
  }

  /**
   * Serializability of the adapter. When a commit prepared on earlier unlocked reads is accepted, it
   * has the effect of preparing on the rows inside the commit transaction if and only if its reads did not
   * lag: the authorizer refused, or both versions read were the expected ones. In particular every
   * applied outcome is serial. The exception is real: a rejection that was caused by a stale read can
   * commit after the version has caught up.
   */
  lemma AcceptedCommitsAreSerial(w: World, worker: nat, preparedAt: Timestamp, eventAt: Timestamp, at: Timestamp)
    requires Reachable(w) && AtomicAt(w, worker).Authorized?
    requires AtomicDraft(AtomicAt(w, worker), preparedAt, eventAt).Some?
    requires CommandUnitOfWork.Commit(w.t, AtomicDraft(AtomicAt(w, worker), preparedAt, eventAt).value, at).result.Ok?
    ensures var a := AtomicAt(w, worker);
            var request := a.record.request;
            var prepared := Prepare(request, a.checkpoint, a.control, a.decision, preparedAt).value;
            && request.runId in w.t.checkpoints
            && var serial := Prepare(request, w.t.checkpoints[request.runId].payload,
                                     CommandUnitOfWork.StoredControl(w.t, request.runId), a.decision, preparedAt);
               && serial.Ok?
               && (SameEffect(prepared, serial.value) <==> !ReadsLag(request, a.checkpoint, a.control, a.decision))
               && (prepared.outcome == Applied ==> SameEffect(prepared, serial.value))
  {
    hide Reachable, WorkerInv, CheckpointInv, ControlInv, CommandUnitOfWork.Commit, Prepare, AdapterCommitted,
         AtomicAdapter.AdapterCommit, SameEffect, VersionConflict, ReadsLag, ReadLogged, ControlReadLogged, HeldRecord;
    var a := AtomicAt(w, worker);
    var request := a.record.request;
    var prepared := Prepare(request, a.checkpoint, a.control, a.decision, preparedAt).value;
    ReachableFacts(w);
    AuthorizedKnows(w, worker);
    PreparedShape(request, a.checkpoint, a.control, a.decision, preparedAt);
    AdapterCommitTables(w.t, a.record, prepared, a.evidence, eventAt, at);
    CommitChecked(w.t, a.record, prepared, a.evidence, eventAt, at);
    SerialCore(w, request, a.checkpoint, a.control, a.decision, preparedAt);
    AppliedIsNoConflict(request, a.checkpoint, a.control, a.decision, preparedAt);
  }

  lemma CommitChecked(t: Tables, executing: Command, prepared: Prepared, evidence: Option<Evidence>, eventAt: Timestamp, at: Timestamp)
    requires AdapterCommitted(t, CommandUnitOfWork.Commit(t, AtomicAdapter.AdapterCommit(executing, prepared, evidence, eventAt), at).tables,
                              executing, prepared, evidence, eventAt, at)
    ensures var request := prepared.request;
            && request.runId in t.checkpoints && t.checkpoints[request.runId].version == request.expectedCheckpointVersion
            && CommandUnitOfWork.ControlVersionOf(t, request.runId) == request.ControlVersion()
  {
    hide CommandUnitOfWork.Commit, AtomicAdapter.AdapterCommit, FinishedCommand;
  }

  lemma AppliedIsNoConflict(request: Request, checkpoint: Checkpoint, read: Option<Control>, decision: Decision, at: Timestamp)
    requires Prepare(request, checkpoint, read, decision, at).Ok?
    ensures var p := Prepare(request, checkpoint, read, decision, at).value;
            p.outcome == Applied ==> !ReadsLag(request, checkpoint, read, decision)
  {
  }
}
