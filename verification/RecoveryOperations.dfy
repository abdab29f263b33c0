/** The older service: it authorizes, reads, decides and saves step by step. */
module RecoveryOperations {
  import opened Text
  import opened Records
  import opened ControlPreparation

  type Controls = map<string, Control>

  /** Saving is conditioned on the version that was read; the causation of the old row is kept. */
  function SaveControl(states: Controls, state: Control, expectedVersion: int): Option<Control> {
    var actual := if state.runId in states then states[state.runId].version else 0;
    if actual != expectedVersion then None else Some(state.(version := actual + 1))
  }

  function Stored(controls: Controls, runId: string): Option<Control> {
    if runId in controls then Some(controls[runId]) else None
  }

  class InMemoryRecoveryControlStore {
    var states: Controls

    constructor ()
      ensures states == map[]
    {
      states := map[];
    }

    method SaveState(state: Control, expectedVersion: int) returns (saved: Option<Control>)
      modifies this
      ensures saved == SaveControl(old(states), state, expectedVersion)
      ensures states == if saved.Some? then old(states)[saved.value.runId := saved.value] else old(states)
    {
      var actual := 0;
      if state.runId in states {
        actual := states[state.runId].version;
      }
      if actual != expectedVersion {
        return None;
      }
      var next := state.(version := actual + 1);
      states := states[next.runId := next];
      saved := Some(next);
    }

    /** Other callers saved between our load and our save. */
    method OthersRan(found: Controls)
      modifies this
      ensures states == found
    {
      states := found;
    }
  }

  datatype AuditOutcome = AuditDenied | AuditExecuted | AuditFailed

  /** The reason text: mostly the answer's own, but a no-op says so and a failure carries the error's message. */
  datatype AuditReason = AnswerReason(reason: ResultReason) | NoOpReason(reason: ResultReason) | FailureMessage(message: string)

  datatype AuditEvent = AuditEvent(actorId: string, operation: Operation, runId: string, outcome: AuditOutcome, reason: AuditReason)

  datatype OperationResult = OperationResult(status: ResultStatus, reason: ResultReason, checkpoint: Checkpoint, control: Control)

  datatype ServiceError = CheckpointMissing | ControlMoved | RecoveryThrew

  /** What the coordinator answers when the service runs it. */
  datatype CoordinatorAnswer = CoordinatorAnswer(reason: ResultReason, checkpoint: Checkpoint)

  /** Its answer, or the message of the error it throws. */
  type Recovered = Result<CoordinatorAnswer, string>

  /** The service's decision, before it writes anything. */
  datatype Ruling =
    | Answer(status: ResultStatus, reason: ResultReason, audit: AuditOutcome)
    | SaveAndAnswer(next: ControlStatus, status: ResultStatus, reason: ResultReason)
    | SaveAndRecover
    | RecoverOnly

  function Rule(request: Request, checkpoint: Checkpoint, control: Control, decision: Decision): Ruling {
    if !decision.allowed then Answer(Refused, AuthorizationReason(decision.reason), AuditDenied)
    else if checkpoint.version != request.expectedCheckpointVersion then Answer(Refused, CheckpointVersionConflict, AuditDenied)
    else if control.version != request.ControlVersion() then Answer(Refused, ControlVersionConflict, AuditDenied)
    else if checkpoint.boundary == Completed then Answer(NoOp, CheckpointAlreadyCompleted, AuditExecuted)
    else if control.status == Dead then Answer(Refused, RunDeadLettered, AuditDenied)
    else if request.operation == Quarantine then
      if control.status == Quarantined then Answer(NoOp, RunAlreadyQuarantined, AuditExecuted)
      else SaveAndAnswer(Quarantined, QuarantineSet, RunQuarantined)
    else if request.operation == ReleaseQuarantine then
      if control.status != Quarantined then Answer(Refused, ReleaseRequiresQuarantine, AuditDenied)
      else SaveAndAnswer(Active, Released, RunReleased)
    else if request.operation == DeadLetter then SaveAndAnswer(Dead, DeadLettered, RunDeadLettered)
    else if request.operation == Resume then
      if control.status != Quarantined then Answer(Refused, ResumeRequiresQuarantine, AuditDenied)
      else SaveAndRecover
    else if control.status == Quarantined then Answer(Refused, RunQuarantined, AuditDenied)
    else RecoverOnly
  }

  function NextControl(request: Request, control: Control, status: ControlStatus, at: Timestamp): Control {
    control.(status := status, reason := Some(request.reason), updatedBy := Some(request.requestedBy), updatedAt := at)
  }

  datatype Served = Served(controls: Controls, result: Result<OperationResult, ServiceError>, audits: seq<AuditEvent>)

  function AuditOf(request: Request, outcome: AuditOutcome, reason: AuditReason): AuditEvent {
    AuditEvent(request.requestedBy, request.operation, request.runId, outcome, reason)
  }

  /** The reason written for an answer. */
  function ReasonFor(status: ResultStatus, reason: ResultReason): AuditReason {
    if status == NoOp then NoOpReason(reason) else AnswerReason(reason)
  }

  /** The rows are read in `atLoad` and, when something is saved, `atSave` is what the save meets. */
  function Obey(request: Request, checkpoint: Checkpoint, control: Control, ruling: Ruling, atLoad: Controls,
                atSave: Controls, savedAt: Timestamp, recovered: Recovered): Served
  {
    match ruling
    case Answer(status, reason, audit) =>
      Served(atLoad, Ok(OperationResult(status, reason, checkpoint, control)), [AuditOf(request, audit, ReasonFor(status, reason))])
    case SaveAndAnswer(next, status, reason) =>
      var saved := SaveControl(atSave, NextControl(request, control, next, savedAt), control.version);
      if saved.None? then Served(atSave, Denied(ControlMoved), [])
      else Served(atSave[saved.value.runId := saved.value],
                  Ok(OperationResult(status, reason, checkpoint, saved.value)),
                  [AuditOf(request, AuditExecuted, AnswerReason(reason))])
    case SaveAndRecover =>
      var saved := SaveControl(atSave, NextControl(request, control, Active, savedAt), control.version);
      if saved.None? then Served(atSave, Denied(ControlMoved), [])
      else ServeRecovery(request, atSave[saved.value.runId := saved.value], saved.value, recovered)
    case RecoverOnly => ServeRecovery(request, atLoad, control, recovered)
  }

  function Serve(request: Request, decision: Decision, checkpoint: Option<Checkpoint>, atLoad: Controls, loadedAt: Timestamp,
                 atSave: Controls, savedAt: Timestamp, recovered: Recovered): Served
  {
    if checkpoint.None? then Served(atLoad, Denied(CheckpointMissing), [])
    else
      var control := CurrentControl(request.runId, Stored(atLoad, request.runId), loadedAt);
      Obey(request, checkpoint.value, control, Rule(request, checkpoint.value, control, decision), atLoad, atSave, savedAt, recovered)
  }

  function ServeRecovery(request: Request, controls: Controls, control: Control, recovered: Recovered): Served {
    if recovered.Denied? then Served(controls, Denied(RecoveryThrew), [AuditOf(request, AuditFailed, FailureMessage(recovered.reason))])
    else Served(controls, Ok(OperationResult(Executed, recovered.value.reason, recovered.value.checkpoint, control)),
                [AuditOf(request, AuditExecuted, AnswerReason(recovered.value.reason))])
  }

  class RecoveryOperationService {
    const controlStore: InMemoryRecoveryControlStore
    var audits: seq<AuditEvent>

    constructor (controlStore: InMemoryRecoveryControlStore)
      ensures this.controlStore == controlStore && audits == []
    {
      this.controlStore := controlStore;
      audits := [];
    }

    method RunRecovery(request: Request, control: Control, recovered: Recovered)
      returns (answer: Result<OperationResult, ServiceError>)
      modifies this`audits
      ensures var served := ServeRecovery(request, controlStore.states, control, recovered);
              answer == served.result && audits == old(audits) + served.audits
    {
      if recovered.Denied? {
        audits := audits + [AuditOf(request, AuditFailed, FailureMessage(recovered.reason))];
        return Denied(RecoveryThrew);
      }
      audits := audits + [AuditOf(request, AuditExecuted, AnswerReason(recovered.value.reason))];
      answer := Ok(OperationResult(Executed, recovered.value.reason, recovered.value.checkpoint, control));
    }

    /** Audits and answers without touching the control row. */
    method AnswerOnly(request: Request, outcome: AuditOutcome, reason: AuditReason, result: OperationResult)
      returns (answer: Result<OperationResult, ServiceError>)
      modifies this`audits
      ensures answer == Ok(result) && audits == old(audits) + [AuditOf(request, outcome, reason)]
    {
      audits := audits + [AuditOf(request, outcome, reason)];
      answer := Ok(result);
    }

    /** Everything that happens once the ruling is known; rivals may save in between. */
    method CarryOut(request: Request, checkpoint: Checkpoint, control: Control, ruling: Ruling,
                    atSave: Controls, savedAt: Timestamp, recovered: Recovered)
      returns (answer: Result<OperationResult, ServiceError>)
      modifies controlStore, this`audits
      ensures var served := Obey(request, checkpoint, control, ruling, old(controlStore.states), atSave, savedAt, recovered);
              answer == served.result && controlStore.states == served.controls && audits == old(audits) + served.audits
    {
      match ruling {
        case Answer(status, reason, audit) =>
          answer := AnswerOnly(request, audit, ReasonFor(status, reason), OperationResult(status, reason, checkpoint, control));
        case RecoverOnly =>
          answer := RunRecovery(request, control, recovered);
        case SaveAndRecover =>
          controlStore.OthersRan(atSave);
          var released := controlStore.SaveState(NextControl(request, control, Active, savedAt), control.version);
          if released.None? {
            return Denied(ControlMoved);
          }
          answer := RunRecovery(request, released.value, recovered);
        case SaveAndAnswer(next, status, reason) =>
          controlStore.OthersRan(atSave);
          var saved := controlStore.SaveState(NextControl(request, control, next, savedAt), control.version);
          if saved.None? {
            return Denied(ControlMoved);
          }
          answer := AnswerOnly(request, AuditExecuted, AnswerReason(reason),
                               OperationResult(status, reason, checkpoint, saved.value));
      }
    }

    method ExecuteOperation(request: Request, decision: Decision, checkpoint: Option<Checkpoint>, loadedAt: Timestamp,
                            atSave: Controls, savedAt: Timestamp, recovered: Recovered)
      returns (answer: Result<OperationResult, ServiceError>)
      modifies controlStore, this`audits
      ensures var served := Serve(request, decision, checkpoint, old(controlStore.states), loadedAt, atSave, savedAt, recovered);
              answer == served.result && controlStore.states == served.controls && audits == old(audits) + served.audits
    {
      if checkpoint.None? {
        return Denied(CheckpointMissing);
      }
      var control := DefaultControl(request.runId, loadedAt);
      if request.runId in controlStore.states {
        control := controlStore.states[request.runId];
      }
      answer := CarryOut(request, checkpoint.value, control, Rule(request, checkpoint.value, control, decision),
                         atSave, savedAt, recovered);
    }
  }

  // ----- what a call of the service comes to -----

  /** Versions match, the run is not completed and the caller is allowed. */
  predicate Clear(request: Request, decision: Decision, checkpoint: Checkpoint, controlVersion: int) {
    && decision.allowed && checkpoint.version == request.expectedCheckpointVersion && controlVersion == request.ControlVersion()
    && checkpoint.boundary != Completed
  }

  /** The status a clear operation moves the control row to; None when it leaves it alone. */
  function MovesTo(operation: Operation, before: ControlStatus): Option<ControlStatus> {
    if operation == Quarantine && before == Active then Some(Quarantined)
    else if operation in {ReleaseQuarantine, Resume} && before == Quarantined then Some(Active)
    else if operation == DeadLetter && before != Dead then Some(Dead)
    else None
  }

  /** Recovery runs for a resumed run, which is released first, and for a retry or a renewed reconciliation of an active one. */
  predicate Recovers(operation: Operation, before: ControlStatus) {
    || (operation == Resume && before == Quarantined)
    || (operation in {RetryRecovery, ReconcileAgain} && before == Active)
  }

  /** Why a clear operation that neither moves the row nor recovers is turned down. */
  function Obstacle(operation: Operation, before: ControlStatus): (ResultStatus, ResultReason) {
    if before == Dead then (Refused, RunDeadLettered)
    else if operation == Quarantine then (NoOp, RunAlreadyQuarantined)
    else if operation == ReleaseQuarantine then (Refused, ReleaseRequiresQuarantine)
    else if operation == Resume then (Refused, ResumeRequiresQuarantine)
    else (Refused, RunQuarantined)
  }

  /** One audit event per answer, denied exactly for a refusal; one for a recovery that threw; none for a lost save or a missing checkpoint. */
  predicate Audited(request: Request, served: Served, recovered: Recovered) {
    served.audits == match served.result
      case Ok(result) =>
        [AuditEvent(request.requestedBy, request.operation, request.runId, if result.status == Refused then AuditDenied else AuditExecuted,
                    if result.status == NoOp then NoOpReason(result.reason) else AnswerReason(result.reason))]
      case Denied(RecoveryThrew) =>
        [AuditEvent(request.requestedBy, request.operation, request.runId, AuditFailed,
                    FailureMessage(if recovered.Denied? then recovered.reason else ""))]
      case Denied(_) => []
  }

  /** The answer to an operation that neither moves the row nor recovers. */
  function TurnedDown(request: Request, decision: Decision, checkpoint: Checkpoint, control: Control): (ResultStatus, ResultReason) {
    if !decision.allowed then (Refused, AuthorizationReason(decision.reason))
    else if checkpoint.version != request.expectedCheckpointVersion then (Refused, CheckpointVersionConflict)
    else if control.version != request.ControlVersion() then (Refused, ControlVersionConflict)
    else if checkpoint.boundary == Completed then (NoOp, CheckpointAlreadyCompleted)
    else Obstacle(request.operation, control.status)
  }

  lemma RulingDecides(request: Request, checkpoint: Checkpoint, control: Control, decision: Decision)
    ensures var ruling, moves := Rule(request, checkpoint, control, decision), MovesTo(request.operation, control.status);
            if Clear(request, decision, checkpoint, control.version) && (moves.Some? || Recovers(request.operation, control.status)) then
              if moves.None? then ruling == RecoverOnly
              else if request.operation == Resume then ruling == SaveAndRecover && moves == Some(Active)
              else ruling.SaveAndAnswer? && ruling.next == moves.value && AppliedOutcome(request.operation, ruling.status, ruling.reason)
            else
              var (status, reason) := TurnedDown(request, decision, checkpoint, control);
              ruling == Answer(status, reason, if status == Refused then AuditDenied else AuditExecuted)
  {
  }

  /**
   * For all six operations: the row is saved exactly when a clear operation moves it and nobody moved it in between, and then one
   * version on in the caller's name with its causation kept; recovery runs exactly when it should, after that save,
   * which stays when recovery throws; what is turned down changes nothing; and every answer leaves its audit event.
   */
  lemma ServeDecides(request: Request, decision: Decision, checkpoint: Checkpoint, atLoad: Controls, loadedAt: Timestamp,
                     atSave: Controls, savedAt: Timestamp, recovered: Recovered)
    requires request.runId in atLoad ==> atLoad[request.runId].runId == request.runId
    ensures var run, served := request.runId, Serve(request, decision, Some(checkpoint), atLoad, loadedAt, atSave, savedAt, recovered);
            var control := if run in atLoad then atLoad[run] else Control(run, 0, Active, None, None, None, loadedAt);
            var clear, moves := Clear(request, decision, checkpoint, control.version), MovesTo(request.operation, control.status);
            var kept := control.version == if run in atSave then atSave[run].version else 0;
            var row := if clear && moves.Some? then
                         Control(run, control.version + 1, moves.value, Some(request.reason), Some(request.requestedBy), control.causedBy, savedAt)
                       else control;
            && Audited(request, served, recovered)
            && (served.result == Denied(ControlMoved) <==> clear && moves.Some? && !kept)
            && served.controls == (if !clear || moves.None? then atLoad else if kept then atSave[run := row] else atSave)
            && (served.result != Denied(ControlMoved) && clear && Recovers(request.operation, control.status) ==>
                served.result == if recovered.Ok? then Ok(OperationResult(Executed, recovered.value.reason, recovered.value.checkpoint, row))
                                 else Denied(RecoveryThrew))
            && (served.result != Denied(ControlMoved) && !(clear && Recovers(request.operation, control.status)) ==>
                && served.result.Ok? && served.result.value.checkpoint == checkpoint && served.result.value.control == row
                && (clear && moves.Some? ==> AppliedOutcome(request.operation, served.result.value.status, served.result.value.reason))
                && (!clear || moves.None? ==>
                    (served.result.value.status, served.result.value.reason) == TurnedDown(request, decision, checkpoint, control)))
  {
    var control := CurrentControl(request.runId, Stored(atLoad, request.runId), loadedAt);
    RulingDecides(request, checkpoint, control, decision);
    RecoversMoves(request.operation, control.status);
    hide Rule, TurnedDown, Clear, MovesTo, Recovers, AppliedOutcome, Obstacle;
  }

  lemma RecoversMoves(operation: Operation, before: ControlStatus)
    ensures Recovers(operation, before) && MovesTo(operation, before).Some? <==> operation == Resume && MovesTo(operation, before).Some?
    ensures forall status, reason :: AppliedOutcome(operation, status, reason) ==> status != Refused && status != NoOp
  {
  }

  // ----- the newer path refines this one -----

  /** Equal apart from who caused the row and when it was written. */
  predicate SameControl(a: Control, b: Control) {
    a.(causedBy := None, updatedAt := Instant(0)) == b.(causedBy := None, updatedAt := Instant(0))
  }

  /** What the newer path leaves in the control row once its preparation is committed. */
  function CommittedNext(prepared: Prepared): Control {
    if prepared.writes.control == CasUpdate then prepared.control.(version := prepared.control.version + 1) else prepared.control
  }

  /** The two decision chains reach the same verdict. */
  lemma RulingIsVerdict(request: Request, checkpoint: Checkpoint, control: Control, decision: Decision)
    requires ControlOnly(request.operation)
    ensures var verdict, ruling := Judge(request, checkpoint, control, decision), Rule(request, checkpoint, control, decision);
            && (verdict.outcome == Applied ==> ruling == SaveAndAnswer(verdict.next, verdict.status, verdict.reason))
            && (verdict.outcome != Applied ==>
                ruling.Answer? && ruling.status == verdict.status && ruling.reason == verdict.reason)
  {
  }

  /**
   * For every control-only operation, checkpoint, control row and decision the side-effect-free
   * preparation gives the status and the reason the service gives, and the control row the service
   * saves or leaves, apart from causation and time.
   */
  lemma PreparationRefinesService(request: Request, decision: Decision, checkpoint: Checkpoint, controls: Controls,
                                  loadedAt: Timestamp, savedAt: Timestamp, preparedAt: Timestamp,
                                  recovered: Recovered)
    requires var stored := Stored(controls, request.runId);
             Prepare(request, checkpoint, stored, decision, preparedAt).Ok?
    ensures var stored := Stored(controls, request.runId);
            var prepared := Prepare(request, checkpoint, stored, decision, preparedAt).value;
            var served := Serve(request, decision, Some(checkpoint), controls, loadedAt, controls, savedAt, recovered);
            && served.result.Ok?
            && served.result.value.status == prepared.status && served.result.value.reason == prepared.reason
            && served.result.value.checkpoint == prepared.checkpoint
            && SameControl(served.result.value.control, CommittedNext(prepared))
            && (prepared.outcome == Applied ==>
                served.controls == controls[request.runId := served.result.value.control])
            && (prepared.outcome != Applied ==> served.controls == controls)
  {
    var stored := Stored(controls, request.runId);
    RulingIsVerdict(request, checkpoint, CurrentControl(request.runId, stored, loadedAt), decision);
    JudgeIgnoresTime(request, checkpoint, stored, decision, loadedAt, preparedAt);
    hide Rule, Judge;
  }

  /** When a run has no control row yet, the verdict does not depend on the time stamped on the default one. */
  lemma JudgeIgnoresTime(request: Request, checkpoint: Checkpoint, stored: Option<Control>, decision: Decision, a: Timestamp, b: Timestamp)
    ensures Judge(request, checkpoint, CurrentControl(request.runId, stored, a), decision)
         == Judge(request, checkpoint, CurrentControl(request.runId, stored, b), decision)
  {
  }

  /** One command as either path meets it. */
  datatype Item = Item(request: Request, checkpoint: Checkpoint, decision: Decision, at: Timestamp)

  function ServeAll(controls: Controls, items: seq<Item>): (Controls, seq<(ResultStatus, ResultReason)>)
    decreases |items|
  {
    if items == [] then (controls, [])
    else
      var (before, answers) := ServeAll(controls, items[..|items| - 1]);
      var i := items[|items| - 1];
      var served := Serve(i.request, i.decision, Some(i.checkpoint), before, i.at, before, i.at, Denied(""));
      (served.controls,
       answers + if served.result.Ok? then [(served.result.value.status, served.result.value.reason)] else [])
  }

  function PrepareAll(controls: Controls, items: seq<Item>): (Controls, seq<(ResultStatus, ResultReason)>)
    decreases |items|
  {
    if items == [] then (controls, [])
    else
      var (before, answers) := PrepareAll(controls, items[..|items| - 1]);
      var i := items[|items| - 1];
      var prepared := Prepare(i.request, i.checkpoint, Stored(before, i.request.runId), i.decision, i.at);
      if prepared.Denied? then (before, answers)
      else
        (if prepared.value.outcome == Applied then before[i.request.runId := CommittedNext(prepared.value)] else before,
         answers + [(prepared.value.status, prepared.value.reason)])
  }

  ghost predicate SameControls(a: Controls, b: Controls) {
    a.Keys == b.Keys && forall r | r in a :: SameControl(a[r], b[r]) && a[r].runId == r
  }

  predicate WellAddressed(i: Item) {
    ControlOnly(i.request.operation) && !Blank(i.request.commandId) && i.checkpoint.runId == i.request.runId
  }

  lemma OneItem(a: Controls, b: Controls, i: Item)
    requires SameControls(a, b) && WellAddressed(i)
    ensures var served := Serve(i.request, i.decision, Some(i.checkpoint), a, i.at, a, i.at, Denied(""));
            var prepared := Prepare(i.request, i.checkpoint, Stored(b, i.request.runId), i.decision, i.at);
            && served.result.Ok? && prepared.Ok?
            && served.result.value.status == prepared.value.status && served.result.value.reason == prepared.value.reason
            && SameControls(served.controls,
                            if prepared.value.outcome == Applied then b[i.request.runId := CommittedNext(prepared.value)] else b)
  {
    var run := i.request.runId;
    assert Prepare(i.request, i.checkpoint, Stored(b, run), i.decision, i.at).Ok?;
    assert Prepare(i.request, i.checkpoint, Stored(a, run), i.decision, i.at).Ok?;
    PreparationRefinesService(i.request, i.decision, i.checkpoint, a, i.at, i.at, i.at, Denied(""));
    SameControlSamePreparation(i.request, i.checkpoint, Stored(a, run), Stored(b, run), i.decision, i.at);
    hide Prepare, Serve;
  }

  lemma SameControlSamePreparation(request: Request, checkpoint: Checkpoint, x: Option<Control>, y: Option<Control>,
                                   decision: Decision, at: Timestamp)
    requires x.Some? == y.Some? && (x.Some? ==> SameControl(x.value, y.value))
    requires Prepare(request, checkpoint, x, decision, at).Ok? && Prepare(request, checkpoint, y, decision, at).Ok?
    ensures var p, q := Prepare(request, checkpoint, x, decision, at).value, Prepare(request, checkpoint, y, decision, at).value;
            && p.outcome == q.outcome && p.status == q.status && p.reason == q.reason
            && SameControl(CommittedNext(p), CommittedNext(q))
            && CommittedNext(p).runId == request.runId
  {
  }

  /** Over any sequence of control-only commands the two paths give the same answers and the same control rows. */
  lemma {:induction false} PathsAgree(a: Controls, b: Controls, items: seq<Item>)
    requires SameControls(a, b) && forall i | i in items :: WellAddressed(i)
    ensures SameControls(ServeAll(a, items).0, PrepareAll(b, items).0)
    ensures ServeAll(a, items).1 == PrepareAll(b, items).1
    decreases |items|
  {
    if items == [] {
    } else {
      var rest, i := items[..|items| - 1], items[|items| - 1];
      PathsAgree(a, b, rest);
      OneItem(ServeAll(a, rest).0, PrepareAll(b, rest).0, i);
      hide Serve, Prepare, SameControls;
    }
  }
}
