/** The side-effect-free preparation of the three control-only operations. */
module ControlPreparation {
  import opened Text
  import opened Records

  datatype Decision = Decision(allowed: bool, reason: string)

  datatype Write = Compare | CasUpdate

  datatype WriteSet = WriteSet(checkpoint: Write, control: Write)

  datatype Prepared = Prepared(
    request: Request,
    outcome: PreparationOutcome,
    status: ResultStatus,
    reason: ResultReason,
    checkpoint: Checkpoint,
    control: Control,
    writes: WriteSet)

  datatype PreparationError = UnsupportedOperation | IdentityMismatch

  /** The state a run without a control row is taken to be in. */
  function DefaultControl(runId: string, at: Timestamp): Control {
    Control(runId, 0, Active, None, None, None, at)
  }

  function CurrentControl(runId: string, control: Option<Control>, at: Timestamp): Control {
    if control.Some? then control.value else DefaultControl(runId, at)
  }

  /** The verdict of the decision chain, before any state is touched. */
  datatype Verdict = Verdict(outcome: PreparationOutcome, status: ResultStatus, reason: ResultReason, next: ControlStatus)

  function Judge(request: Request, checkpoint: Checkpoint, control: Control, decision: Decision): Verdict {
    if !decision.allowed then
      Verdict(RejectedOutcome, Refused, AuthorizationReason(decision.reason), control.status)
    else if checkpoint.version != request.expectedCheckpointVersion then
      Verdict(RejectedOutcome, Refused, CheckpointVersionConflict, control.status)
    else if control.version != request.ControlVersion() then
      Verdict(RejectedOutcome, Refused, ControlVersionConflict, control.status)
    else if checkpoint.boundary.Completed? then
      Verdict(NoOpOutcome, NoOp, CheckpointAlreadyCompleted, control.status)
    else if control.status.Dead? then
      Verdict(RejectedOutcome, Refused, RunDeadLettered, control.status)
    else if request.operation.Quarantine? then
      if control.status.Quarantined? then Verdict(NoOpOutcome, NoOp, RunAlreadyQuarantined, control.status)
      else Verdict(Applied, QuarantineSet, RunQuarantined, Quarantined)
    else if request.operation.ReleaseQuarantine? then
      if !control.status.Quarantined? then Verdict(RejectedOutcome, Refused, ReleaseRequiresQuarantine, control.status)
      else Verdict(Applied, Released, RunReleased, Active)
    else
      Verdict(Applied, DeadLettered, RunDeadLettered, Dead)
  }

  function Prepare(request: Request, checkpoint: Checkpoint, control: Option<Control>, decision: Decision, at: Timestamp)
    : Result<Prepared, PreparationError>
  {
    if !ControlOnly(request.operation) then Denied(UnsupportedOperation)
    else if Blank(request.commandId) || checkpoint.runId != request.runId
            || (control.Some? && control.value.runId != request.runId) then Denied(IdentityMismatch)
    else
      var current := CurrentControl(request.runId, control, at);
      var verdict := Judge(request, checkpoint, current, decision);
      var next :=
        if verdict.outcome.Applied? then
          current.(status := verdict.next, reason := Some(request.reason), updatedBy := Some(request.requestedBy),
                   causedBy := Some(request.commandId), updatedAt := at)
        else current;
      Ok(Prepared(request, verdict.outcome, verdict.status, verdict.reason, checkpoint, next,
                  WriteSet(Compare, if verdict.outcome.Applied? then CasUpdate else Compare)))
  }

  /** The three moves of the control machine. */
  predicate LegalMove(operation: Operation, before: ControlStatus, after: ControlStatus) {
    match operation
    case Quarantine => before == Active && after == Quarantined
    case ReleaseQuarantine => before == Quarantined && after == Active
    case DeadLetter => before != Dead && after == Dead
    case _ => false
  }

  /** What an applied operation is reported as. */
  predicate AppliedOutcome(operation: Operation, status: ResultStatus, reason: ResultReason) {
    match operation
    case Quarantine => status == QuarantineSet && reason == RunQuarantined
    case ReleaseQuarantine => status == Released && reason == RunReleased
    case DeadLetter => status == DeadLettered && reason == RunDeadLettered
    case _ => false
  }

  /**
   * An operation is applied exactly when it is authorized, both versions match, the run is not
   * completed and the move is legal; only then is a write planned, it is to the control row
   * alone, and it names this command.
   */
  lemma AppliedIff(request: Request, checkpoint: Checkpoint, control: Option<Control>, decision: Decision, at: Timestamp)
    requires Prepare(request, checkpoint, control, decision, at).Ok?
    ensures var p := Prepare(request, checkpoint, control, decision, at).value;
            var current := CurrentControl(request.runId, control, at);
            && p.writes.checkpoint == Compare && p.checkpoint == checkpoint
            && (p.writes.control == CasUpdate <==> p.outcome == Applied)
            && (p.outcome == Applied <==>
                && decision.allowed
                && checkpoint.version == request.expectedCheckpointVersion
                && current.version == request.ControlVersion()
                && !checkpoint.boundary.Completed?
                && exists after :: LegalMove(request.operation, current.status, after))
            && (p.outcome == Applied ==>
                && LegalMove(request.operation, current.status, p.control.status)
                && AppliedOutcome(request.operation, p.status, p.reason)
                && p.control.causedBy == Some(request.commandId)
                && p.control.reason == Some(request.reason)
                && p.control.updatedBy == Some(request.requestedBy))
            && (p.outcome != Applied ==> p.control == current && (p.status == Refused || p.status == NoOp))
            && (p.outcome == RejectedOutcome <==> p.status == Refused)
            && p.control.version == current.version && p.control.runId == request.runId
  {
    var current := CurrentControl(request.runId, control, at);
    var after := match request.operation
      case Quarantine => Quarantined
      case ReleaseQuarantine => Active
      case _ => Dead;
    assert (exists a :: LegalMove(request.operation, current.status, a))
        <==> LegalMove(request.operation, current.status, after);
  }

  /** What a command is owed for the versions, the completion and the control status it was judged on. */
  predicate Owed(request: Request, decision: Decision, checkpointVersion: int, controlVersion: int, completed: bool,
                 before: ControlStatus, status: ResultStatus, reason: ResultReason) {
    var current := checkpointVersion == request.expectedCheckpointVersion && controlVersion == request.ControlVersion();
    var open := decision.allowed && current && !completed;
    && (AppliedOutcome(request.operation, status, reason) <==>
        open && exists after :: LegalMove(request.operation, before, after))
    && (status == NoOp <==> decision.allowed && current && (completed || (request.operation.Quarantine? && before == Quarantined)))
    && (status == Refused <==> status != NoOp && !AppliedOutcome(request.operation, status, reason))
    && (!decision.allowed <==> reason.AuthorizationReason?)
    && (!decision.allowed ==> reason.text == decision.reason)
    && (reason == CheckpointVersionConflict <==> decision.allowed && checkpointVersion != request.expectedCheckpointVersion)
    && (reason == ControlVersionConflict <==>
        decision.allowed && checkpointVersion == request.expectedCheckpointVersion && controlVersion != request.ControlVersion())
    && (reason == CheckpointAlreadyCompleted <==> decision.allowed && current && completed)
    && (reason == RunDeadLettered && status == Refused <==> open && before == Dead)
    && (reason == RunAlreadyQuarantined <==> open && before == Quarantined && request.operation.Quarantine?)
    && (reason == ReleaseRequiresQuarantine <==> open && before == Active && request.operation.ReleaseQuarantine?)
  }

  /** A preparation gives exactly what is owed, and names it in the prepared outcome. */
  lemma PreparedIsOwed(request: Request, checkpoint: Checkpoint, control: Option<Control>, decision: Decision, at: Timestamp)
    requires Prepare(request, checkpoint, control, decision, at).Ok?
    ensures var p := Prepare(request, checkpoint, control, decision, at).value;
            && Owed(request, decision, checkpoint.version, if control.Some? then control.value.version else 0,
                    checkpoint.boundary.Completed?, if control.Some? then control.value.status else Active, p.status, p.reason)
            && p.outcome == (if p.status == Refused then RejectedOutcome else if p.status == NoOp then NoOpOutcome else Applied)
  {
    var before := if control.Some? then control.value.status else Active;
    var after := match request.operation
      case Quarantine => Quarantined
      case ReleaseQuarantine => Active
      case _ => Dead;
    assert (exists a :: LegalMove(request.operation, before, a)) <==> LegalMove(request.operation, before, after);
  }

  /** Nothing moves a run out of the dead letter. */
  lemma DeadIsFinal(request: Request, checkpoint: Checkpoint, control: Control, decision: Decision, at: Timestamp)
    requires control.status.Dead?
    requires Prepare(request, checkpoint, Some(control), decision, at).Ok?
    ensures Prepare(request, checkpoint, Some(control), decision, at).value.outcome != Applied
    ensures Prepare(request, checkpoint, Some(control), decision, at).value.control == control
  {
  }
}
