/** What the adapter commits, on reads that may be stale, is what the older service would have done on the stored rows. */
module ServiceRefinement {
  import opened Text
  import opened Records
  import opened Database
  import opened ControlPreparation
  import opened World
  import opened RecoveryOperations
  import opened CommandTheorems
  import CommandUnitOfWork
  import CommitPreservation
  import AtomicAdapter

  /** The control rows as the service's store holds them. */
  function ServiceControls(t: Tables): Controls {
    map r | r in t.controls :: t.controls[r].payload
  }

  lemma SameStored(t: Tables, run: string)
    ensures Stored(ServiceControls(t), run) == CommandUnitOfWork.StoredControl(t, run)
  {
  }

  /** The terminal record and control row of an accepted commit, in terms of its preparation. */
  lemma CommitReports(w: World, worker: nat, preparedAt: Timestamp, eventAt: Timestamp, at: Timestamp)
    requires AtomicAt(w, worker).Authorized?
    requires AtomicDraft(AtomicAt(w, worker), preparedAt, eventAt).Some?
    requires CommandUnitOfWork.Commit(w.t, AtomicDraft(AtomicAt(w, worker), preparedAt, eventAt).value, at).result.Ok?
    ensures var a := AtomicAt(w, worker);
            var request := a.record.request;
            var prepared := Prepare(request, a.checkpoint, a.control, a.decision, preparedAt).value;
            var n := StepCommitAtomic(w, worker, preparedAt, eventAt, at).t;
            && request.commandId in n.commands
            && n.commands[request.commandId].payload.resultReason == Some(prepared.reason)
            && n.commands[request.commandId].payload.resultSnapshot.Some?
            && n.commands[request.commandId].payload.resultSnapshot.value.status == prepared.status
            && (prepared.outcome == Applied ==>
                request.runId in n.controls
                && n.controls[request.runId].payload == CommitPreservation.CommittedEntry(prepared, at)
                && n.controls != w.t.controls)
            && (prepared.outcome != Applied ==> n.controls == w.t.controls)
  {
    hide CommandUnitOfWork.Commit, Prepare, CommandUnitOfWork.NewOutboxRow, CommandUnitOfWork.EventTaken,
         CommandUnitOfWork.EffectBacked;
    var a := AtomicAt(w, worker);
    var prepared := Prepare(a.record.request, a.checkpoint, a.control, a.decision, preparedAt).value;
    CommitPreservation.PreparedShape(a.record.request, a.checkpoint, a.control, a.decision, preparedAt);
    CommitPreservation.AdapterCommitTables(w.t, a.record, prepared, a.evidence, eventAt, at);
    var n := StepCommitAtomic(w, worker, preparedAt, eventAt, at).t;
    if prepared.outcome == Applied {
      assert CommandUnitOfWork.ControlVersionOf(n, a.record.request.runId)
          == CommandUnitOfWork.ControlVersionOf(w.t, a.record.request.runId) + 1;
    }
  }

  /** A committed entry is the prepared control one version on, at another time. */
  lemma EntryIsCommittedNext(request: Request, checkpoint: Checkpoint, read: Option<Control>, decision: Decision,
                             preparedAt: Timestamp, at: Timestamp)
    requires Prepare(request, checkpoint, read, decision, preparedAt).Ok?
    requires Prepare(request, checkpoint, read, decision, preparedAt).value.outcome == Applied
    ensures var prepared := Prepare(request, checkpoint, read, decision, preparedAt).value;
            SameControl(CommitPreservation.CommittedEntry(prepared, at), CommittedNext(prepared))
  {
  }

  lemma SameControlTransitive(a: Control, b: Control, c: Control)
    requires SameControl(a, b) && SameControl(b, c)
    ensures SameControl(a, c) && SameControl(c, a)
  {
  }

  lemma EqualNext(p: Prepared, q: Prepared)
    requires SameEffect(p, q) && p.outcome == Applied
    ensures CommittedNext(p) == CommittedNext(q)
  {
  }

  /**
   * When the adapter's commit is accepted and its reads did not lag behind, its command ends
   * with the status and reason the service would have answered on the rows stored at the commit, and
   * the control row it leaves is the one the service would have left, apart from causation and time.
   */
  lemma AdapterRefinesService(w: World, worker: nat, preparedAt: Timestamp, eventAt: Timestamp, at: Timestamp,
                              loadedAt: Timestamp, savedAt: Timestamp, recovered: Recovered)
    requires Reachable(w) && AtomicAt(w, worker).Authorized?
    requires AtomicDraft(AtomicAt(w, worker), preparedAt, eventAt).Some?
    requires CommandUnitOfWork.Commit(w.t, AtomicDraft(AtomicAt(w, worker), preparedAt, eventAt).value, at).result.Ok?
    requires var a := AtomicAt(w, worker);
             !ReadsLag(a.record.request, a.checkpoint, a.control, a.decision)
    ensures var a := AtomicAt(w, worker);
            var request, controls := a.record.request, ServiceControls(w.t);
            var n := StepCommitAtomic(w, worker, preparedAt, eventAt, at).t;
            && request.runId in w.t.checkpoints && request.commandId in n.commands
            && var served := Serve(request, a.decision, Some(w.t.checkpoints[request.runId].payload), controls, loadedAt,
                                   controls, savedAt, recovered);
               && served.result.Ok?
               && n.commands[request.commandId].payload.resultReason == Some(served.result.value.reason)
               && n.commands[request.commandId].payload.resultSnapshot.Some?
               && n.commands[request.commandId].payload.resultSnapshot.value.status == served.result.value.status
               && (n.controls == w.t.controls <==> served.controls == controls)
               && (n.controls != w.t.controls ==>
                   request.runId in n.controls
                   && SameControl(n.controls[request.runId].payload, served.result.value.control))
  {
    hide Reachable, CommandUnitOfWork.Commit, Prepare, Serve, StepCommitAtomic, AtomicDraft, SameControl, CommittedNext, ReadsLag;
    var a := AtomicAt(w, worker);
    var request := a.record.request;
    DraftPrepared(a, preparedAt, eventAt);
    AcceptedCommitsAreSerial(w, worker, preparedAt, eventAt, at);
    CommitReports(w, worker, preparedAt, eventAt, at);
    SameStored(w.t, request.runId);
    var prepared := Prepare(request, a.checkpoint, a.control, a.decision, preparedAt).value;
    var stored := w.t.checkpoints[request.runId].payload;
    var serial := Prepare(request, stored, CommandUnitOfWork.StoredControl(w.t, request.runId), a.decision, preparedAt).value;
    PreparationRefinesService(request, a.decision, stored, ServiceControls(w.t), loadedAt, savedAt, preparedAt, recovered);
    ServedChangesIff(request, a.decision, stored, ServiceControls(w.t), loadedAt, savedAt, preparedAt, recovered);
    if prepared.outcome == Applied {
      EntryIsCommittedNext(request, a.checkpoint, a.control, a.decision, preparedAt, at);
      EqualNext(prepared, serial);
      var served := Serve(request, a.decision, Some(stored), ServiceControls(w.t), loadedAt, ServiceControls(w.t), savedAt, recovered);
      SameControlSymmetric(served.result.value.control, CommittedNext(serial));
      SameControlTransitive(CommitPreservation.CommittedEntry(prepared, at), CommittedNext(prepared), served.result.value.control);
    }
  }

  /** The service moves its store exactly when the preparation applies. */
  lemma ServedChangesIff(request: Request, decision: Decision, checkpoint: Checkpoint, controls: Controls, loadedAt: Timestamp,
                         savedAt: Timestamp, preparedAt: Timestamp, recovered: Recovered)
    requires Prepare(request, checkpoint, Stored(controls, request.runId), decision, preparedAt).Ok?
    ensures Serve(request, decision, Some(checkpoint), controls, loadedAt, controls, savedAt, recovered).controls != controls
       <==> Prepare(request, checkpoint, Stored(controls, request.runId), decision, preparedAt).value.outcome == Applied
  {
    PreparationRefinesService(request, decision, checkpoint, controls, loadedAt, savedAt, preparedAt, recovered);
    var prepared := Prepare(request, checkpoint, Stored(controls, request.runId), decision, preparedAt).value;
    var served := Serve(request, decision, Some(checkpoint), controls, loadedAt, controls, savedAt, recovered);
    AppliedIff(request, checkpoint, Stored(controls, request.runId), decision, preparedAt);
    hide Serve, Prepare, LegalMove;
    if prepared.outcome == Applied {
      assert served.controls[request.runId].version == CurrentControl(request.runId, Stored(controls, request.runId), preparedAt).version + 1;
    }
  }

  lemma SameControlSymmetric(a: Control, b: Control)
    requires SameControl(a, b)
    ensures SameControl(b, a)
  {
  }

  lemma DraftPrepared(a: AtomicWorker, preparedAt: Timestamp, eventAt: Timestamp)
    requires a.Authorized? && AtomicDraft(a, preparedAt, eventAt).Some?
    ensures Prepare(a.record.request, a.checkpoint, a.control, a.decision, preparedAt).Ok?
  {
  }
}
