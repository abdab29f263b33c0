/** The one way an accepted adapter commit can differ from its serial counterpart, as a concrete run. */
module StaleRejection {
  import opened Text
  import opened Records
  import opened Database
  import opened ControlPreparation
  import opened World
  import opened CommandTheorems
  import CommandUnitOfWork
  import AtomicAdapter

  const AT: Timestamp := Instant(0)

  const REQUEST: Request := Request("c", "r", Quarantine, "u", "", 2, None)

  const DRAFT: Checkpoint := Checkpoint("r", 0, 0, ReadyForLlm, [], None, AT)

  const ALLOWED: Decision := Decision(true, "")

  function Executing2(): Command {
    CommandUnitOfWork.NewCommand(REQUEST, AtomicControlOnly, false, AT).(status := Executing, version := 2)
  }

  function Saved(version: int): Checkpoint {
    DRAFT.(version := version)
  }

  /** Run "r" has a checkpoint at `version` and the worker stands at `a`. */
  function Scene(version: nat, admitted: bool, a: AtomicWorker, invoked: bool): World {
    INITIAL.(
      t := EMPTY_TABLES.(
        checkpoints := if version > 0 then map["r" := Row(version, Saved(version))] else map[],
        commands := if admitted then map["c" := Row(2, Executing2())] else map[]),
      history := INITIAL.history.(checkpoints :=
        if version == 0 then map[] else map["r" := if version == 1 then [Saved(1)] else [Saved(1), Saved(2)]]),
      atomic := if admitted then map[0 := a] else map[],
      invoked := if invoked then ["c"] else [])
  }

  lemma Saves(w: World, n: World, expectedVersion: int)
    requires Reachable(w) && StepSaveRun(w, DRAFT, expectedVersion, AT) == n
    ensures Reachable(n)
  {
    hide Reachable, StepSaveRun;
    Reaches(w, SaveRun(DRAFT, expectedVersion, AT), n);
  }

  lemma FirstSave()
    ensures StepSaveRun(Scene(0, false, AtomicIdle, false), DRAFT, 0, AT) == Scene(1, false, AtomicIdle, false)
  {
    var w, n := Scene(0, false, AtomicIdle, false), Scene(1, false, AtomicIdle, false);
    var outcome := CommandUnitOfWork.SaveCheckpoint(w.t, DRAFT, 0, AT);
    assert outcome.result == Ok(Saved(1));
    assert outcome.tables.checkpoints == n.t.checkpoints;
    assert [] + [Saved(1)] == [Saved(1)];
    assert Append(w.history.checkpoints, "r", Saved(1)) == n.history.checkpoints;
  }

  lemma Admission(version: nat)
    ensures Step(Scene(version, false, AtomicIdle, false), AdmitCommand(0, REQUEST, AT))
         == Scene(version, true, Admitted(Executing2(), None), false)
  {
    var w, n := Scene(version, false, AtomicIdle, false), Scene(version, true, Admitted(Executing2(), None), false);
    assert !Blank("c") by { assert !IsSpace("c"[0]); }
    assert !Blank("r") by { assert !IsSpace("r"[0]); }
    assert !Blank("u") by { assert !IsSpace("u"[0]); }
    var outcome := CommandUnitOfWork.Admit(w.t, REQUEST, AT);
    assert outcome.result == Ok(CommandUnitOfWork.AdmittedExecuting(Executing2()));
    assert outcome.tables.commands == n.t.commands;
    assert w.atomic[0 := Admitted(Executing2(), None)] == n.atomic;
  }

  lemma Reads(version: nat)
    requires version > 0
    ensures Step(Scene(version, true, Admitted(Executing2(), None), false), ReadCheckpoint(0))
         == Scene(version, true, CheckpointRead(Executing2(), None, Saved(version)), false)
    ensures Step(Scene(version, true, CheckpointRead(Executing2(), None, Saved(version)), false), ReadControl(0))
         == Scene(version, true, StateRead(Executing2(), None, Saved(version), None), false)
    ensures Step(Scene(version, true, StateRead(Executing2(), None, Saved(version), None), false), Authorize(0, ALLOWED))
         == Scene(version, true, Authorized(Executing2(), None, Saved(version), None, ALLOWED), true)
  {
    assert [] + ["c"] == ["c"];
  }

  lemma SecondSave(admitted: bool, a: AtomicWorker, invoked: bool)
    ensures StepSaveRun(Scene(1, admitted, a, invoked), DRAFT, 1, AT) == Scene(2, admitted, a, invoked)
  {
    var w, n := Scene(1, admitted, a, invoked), Scene(2, admitted, a, invoked);
    var outcome := CommandUnitOfWork.SaveCheckpoint(w.t, DRAFT, 1, AT);
    assert outcome.result == Ok(Saved(2));
    assert outcome.tables.checkpoints == n.t.checkpoints;
    assert [Saved(1)] + [Saved(2)] == [Saved(1), Saved(2)];
    assert Append(w.history.checkpoints, "r", Saved(2)) == n.history.checkpoints;
  }

  lemma FirstSceneIsReachable()
    ensures Reachable(Scene(1, false, AtomicIdle, false))
  {
    assert Scene(0, false, AtomicIdle, false) == INITIAL;
    hide Step, StepSaveRun, Scene, Leads;
    InitialIsReachable();
    FirstSave();
    Saves(Scene(0, false, AtomicIdle, false), Scene(1, false, AtomicIdle, false), 0);
  }

  /** From admission to the authorizer, with the checkpoint at one version throughout. */
  lemma AuthorizedScene(version: nat)
    requires version > 0 && Reachable(Scene(version, false, AtomicIdle, false))
    ensures Reachable(Scene(version, true, Authorized(Executing2(), None, Saved(version), None, ALLOWED), true))
  {
    var record, read := Executing2(), Saved(version);
    hide Step, Scene, Executing2, Reachable, Saved;
    Admission(version);
    Reads(version);
    Reaches(Scene(version, false, AtomicIdle, false), AdmitCommand(0, REQUEST, AT), Scene(version, true, Admitted(record, None), false));
    Reaches(Scene(version, true, Admitted(record, None), false), ReadCheckpoint(0),
            Scene(version, true, CheckpointRead(record, None, read), false));
    Reaches(Scene(version, true, CheckpointRead(record, None, read), false), ReadControl(0),
            Scene(version, true, StateRead(record, None, read, None), false));
    Reaches(Scene(version, true, StateRead(record, None, read, None), false), Authorize(0, ALLOWED),
            Scene(version, true, Authorized(record, None, read, None, ALLOWED), true));
  }

  lemma LastSceneIsReachable()
    ensures Reachable(Scene(2, true, Authorized(Executing2(), None, Saved(1), None, ALLOWED), true))
  {
    var a := Authorized(Executing2(), None, Saved(1), None, ALLOWED);
    hide Reachable, StepSaveRun, Scene;
    FirstSceneIsReachable();
    AuthorizedScene(1);
    SecondSave(true, a, true);
    Saves(Scene(1, true, a, true), Scene(2, true, a, true), 1);
  }

  /** The same quarantine, admitted after the second save: its reads are current when it commits. */
  lemma CurrentSceneIsReachable()
    ensures Reachable(Scene(2, true, Authorized(Executing2(), None, Saved(2), None, ALLOWED), true))
  {
    hide Reachable, StepSaveRun, Scene;
    FirstSceneIsReachable();
    SecondSave(false, AtomicIdle, false);
    Saves(Scene(1, false, AtomicIdle, false), Scene(2, false, AtomicIdle, false), 1);
    AuthorizedScene(2);
  }

  /** A stale rejection: prepared on reads that lag behind, refused for a version conflict, and yet committed. */
  ghost predicate StaleRejectionCommitted(w: World, worker: nat) {
    && AtomicAt(w, worker).Authorized?
    && var a := AtomicAt(w, worker);
       var run := a.record.request.runId;
       var prepared := Prepare(a.record.request, a.checkpoint, a.control, a.decision, AT);
       && prepared.Ok? && prepared.value.outcome == RejectedOutcome && prepared.value.reason == CheckpointVersionConflict
       && CommandUnitOfWork.Commit(w.t, AtomicAdapter.AdapterCommit(a.record, prepared.value, a.evidence, AT), AT).result.Ok?
       && run in w.t.checkpoints
       && var serial := Prepare(a.record.request, w.t.checkpoints[run].payload,
                                CommandUnitOfWork.StoredControl(w.t, run), a.decision, AT);
          serial.Ok? && serial.value.outcome == Applied
  }

  lemma LastSceneCommits()
    ensures StaleRejectionCommitted(Scene(2, true, Authorized(Executing2(), None, Saved(1), None, ALLOWED), true), 0)
  {
    var a := Authorized(Executing2(), None, Saved(1), None, ALLOWED);
    var w := Scene(2, true, a, true);
    assert !Blank("c") by { assert !IsSpace("c"[0]); }
    var prepared := Prepare(REQUEST, Saved(1), None, ALLOWED, AT);
    assert prepared.Ok? && prepared.value.reason == CheckpointVersionConflict;
    var input := AtomicAdapter.AdapterCommit(Executing2(), prepared.value, None, AT);
    assert CommandUnitOfWork.AppendEvents(w.t.outbox, input.outbox).Some? by {
      assert input.outbox[1..] == [];
      assert !CommandUnitOfWork.EventTaken(w.t.outbox, input.outbox[0]);
    }
    assert CommandUnitOfWork.Commit(w.t, input, AT).result.Ok?;
  }

  /** The command expects checkpoint version 2, reads version 1, and commits after version 2 was saved. */
  lemma StaleRejectionCommits()
    ensures exists w: World, worker: nat :: Reachable(w) && StaleRejectionCommitted(w, worker)
  {
    hide Reachable, StaleRejectionCommitted, Scene;
    LastSceneIsReachable();
    LastSceneCommits();
  }
}
