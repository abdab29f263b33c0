/** Planning, reconciling and preparing the recovery of a run's last tool execution. */
module RecoveryPreparation {
  import opened Text
  import opened Records

  // ----- upserting a tool execution -----

  /** The position of the first record with this tool call id, or the length. */
  function FirstIndex(tools: seq<ToolRecord>, toolCallId: string): (i: nat)
    ensures i <= |tools|
    ensures i < |tools| ==> tools[i].toolCallId == toolCallId
    ensures forall j | 0 <= j < i :: tools[j].toolCallId != toolCallId
  {
    if tools == [] then 0
    else if tools[0].toolCallId == toolCallId then 0
    else 1 + FirstIndex(tools[1..], toolCallId)
  }

  function Upserted(tools: seq<ToolRecord>, record: ToolRecord): seq<ToolRecord> {
    var i := FirstIndex(tools, record.toolCallId);
    if i < |tools| then tools[i := record] else tools + [record]
  }

  /** Copies the list, then overwrites the first match or appends. */
  method UpsertToolExecution(tools: seq<ToolRecord>, record: ToolRecord) returns (copy: seq<ToolRecord>)
    ensures copy == Upserted(tools, record)
  {
    var existing := 0;
    while existing < |tools| && tools[existing].toolCallId != record.toolCallId
      invariant 0 <= existing <= |tools|
      invariant forall j | 0 <= j < existing :: tools[j].toolCallId != record.toolCallId
    {
      existing := existing + 1;
    }
    copy := tools;
    if existing < |tools| {
      copy := copy[existing := record];
    } else {
      copy := copy + [record];
    }
  }

  // ----- finding the record to recover -----

  predicate Recoverable(record: ToolRecord) {
    record.outcome != CancelledBeforeExecution
  }

  /** The position of the last recoverable record. */
  function LastRecoverable(tools: seq<ToolRecord>): (i: Option<nat>)
    ensures i.Some? ==> i.value < |tools| && Recoverable(tools[i.value])
    ensures i.Some? ==> forall j | i.value < j < |tools| :: !Recoverable(tools[j])
    ensures i.None? ==> forall j | 0 <= j < |tools| :: !Recoverable(tools[j])
  {
    if tools == [] then None
    else if Recoverable(tools[|tools| - 1]) then Some(|tools| - 1)
    else LastRecoverable(tools[..|tools| - 1])
  }

  // ----- planning -----

  datatype PlanAction = Skip | Retry | ReconcileTool | Suspend

  datatype PlanReason =
    | AlreadyExecuted
    | NotExecutedRetrySafe
    | NotExecutedRetryUnsafe
    | SideEffectFree
    | UncertainSideEffect
    | NoSafeReconciliation
    | FailedRetrySafe
    | FailedRetryUnsafe
    | ReconciliationUnavailable
    | ConfirmedExecuted
    | StillUnknown

  datatype Plan = Plan(action: PlanAction, reason: PlanReason)

  function PlanRecovery(outcome: ToolOutcome, sideEffect: SideEffect, retrySafe: bool, hasKey: bool, canReconcile: bool): Plan {
    match outcome
    case ToolExecuted => Plan(Skip, AlreadyExecuted)
    case NeverExecuted => if retrySafe then Plan(Retry, NotExecutedRetrySafe) else Plan(Suspend, NotExecutedRetryUnsafe)
    case CancelledBeforeExecution =>
      if retrySafe then Plan(Retry, NotExecutedRetrySafe) else Plan(Suspend, NotExecutedRetryUnsafe)
    case ToolFailed => if retrySafe then Plan(Retry, FailedRetrySafe) else Plan(Suspend, FailedRetryUnsafe)
    case _ =>
      if sideEffect == NoSideEffect && retrySafe then Plan(Retry, SideEffectFree)
      else if canReconcile && hasKey then Plan(ReconcileTool, UncertainSideEffect)
      else Plan(Suspend, NoSafeReconciliation)
  }

  datatype ReconcileAnswer = SaysExecuted | SaysNeverExecuted | SaysUnknown

  /** What surrounds one record: its tool's policy, whether a reconciler exists, and what it would answer. */
  datatype Surroundings = Surroundings(sideEffect: SideEffect, retrySafe: bool, canReconcile: bool, answer: ReconcileAnswer)

  function EffectiveSideEffect(record: ToolRecord, around: Surroundings): SideEffect {
    if record.sideEffect.Some? then record.sideEffect.value else around.sideEffect
  }

  function EffectiveRetrySafe(record: ToolRecord, around: Surroundings): bool {
    if record.retrySafe.Some? then record.retrySafe.value else around.retrySafe
  }

  predicate HasKey(record: ToolRecord) {
    record.idempotencyKey.Some? && record.idempotencyKey.value != ""
  }

  function BuildPlan(record: ToolRecord, around: Surroundings): Plan {
    PlanRecovery(record.outcome, EffectiveSideEffect(record, around), EffectiveRetrySafe(record, around), HasKey(record),
                 around.canReconcile)
  }

  /** `resolved` and `next` are absent when nothing was reconciled. */
  datatype Resolution = Resolution(plan: Plan, resolved: Option<ToolOutcome>, next: Option<Plan>)

  function RecoverTool(record: ToolRecord, around: Surroundings): Resolution {
    var plan := BuildPlan(record, around);
    if plan.action != ReconcileTool then Resolution(plan, None, None)
    else if !around.canReconcile || !HasKey(record) then
      Resolution(Plan(Suspend, ReconciliationUnavailable), None, None)
    else
      match around.answer
      case SaysExecuted => Resolution(plan, Some(ToolExecuted), Some(Plan(Skip, ConfirmedExecuted)))
      case SaysNeverExecuted =>
        Resolution(plan, Some(NeverExecuted),
                   Some(PlanRecovery(NeverExecuted, EffectiveSideEffect(record, around), EffectiveRetrySafe(record, around),
                                     HasKey(record), true)))
      case SaysUnknown => Resolution(plan, Some(Unknown), Some(Plan(Suspend, StillUnknown)))
  }

  // ----- applying -----

  datatype PreparedStatus = PreparedCompleted | PreparedAdvanced | PreparedRetryRequired | PreparedSuspended | PreparedNoPendingTool

  datatype AppliedResolution = AppliedResolution(checkpoint: Checkpoint, status: PreparedStatus, shouldPersist: bool)

  function FinalAction(resolution: Resolution): PlanAction {
    if resolution.next.Some? then resolution.next.value.action else resolution.plan.action
  }

  function WithTool(checkpoint: Checkpoint, boundary: Boundary, record: ToolRecord, at: Timestamp): Checkpoint {
    checkpoint.(boundary := boundary, tools := Upserted(checkpoint.tools, record), updatedAt := at)
  }

  function ApplyResolution(checkpoint: Checkpoint, record: ToolRecord, resolution: Resolution, at: Timestamp): AppliedResolution {
    var action := FinalAction(resolution);
    if resolution.resolved == Some(ToolExecuted) || action == Skip then
      var executed := record.(outcome := ToolExecuted,
                              finishedAt := if record.finishedAt.Some? then record.finishedAt else Some(at));
      AppliedResolution(WithTool(checkpoint, ReadyForNextStep, executed, at), PreparedAdvanced,
              record.outcome != ToolExecuted || checkpoint.boundary != ReadyForNextStep)
    else if resolution.resolved == Some(NeverExecuted) || action == Retry then
      AppliedResolution(WithTool(checkpoint, ReadyForTool, record.(outcome := NeverExecuted), at), PreparedRetryRequired,
              record.outcome != NeverExecuted || checkpoint.boundary != ReadyForTool)
    else if resolution.resolved == Some(Unknown) || action == Suspend then
      var outcome := if resolution.resolved.Some? then resolution.resolved.value else record.outcome;
      AppliedResolution(WithTool(checkpoint, ReconcilingTool, record.(outcome := outcome), at), PreparedSuspended,
              outcome != record.outcome || checkpoint.boundary != ReconcilingTool)
    else AppliedResolution(checkpoint, PreparedSuspended, false)
  }

  datatype Transition = Transition(
    status: PreparedStatus,
    expectedVersion: int,
    current: Checkpoint,
    next: Checkpoint,
    shouldPersist: bool,
    record: Option<ToolRecord>,
    resolution: Option<Resolution>)

  function PrepareTransition(checkpoint: Checkpoint, around: Surroundings, at: Timestamp): Transition {
    var found := LastRecoverable(checkpoint.tools);
    if checkpoint.boundary == Completed then
      Transition(PreparedCompleted, checkpoint.version, checkpoint, checkpoint, false, None, None)
    else if found.None? then
      Transition(PreparedNoPendingTool, checkpoint.version, checkpoint, checkpoint, false, None, None)
    else
      var record := checkpoint.tools[found.value];
      var resolution := RecoverTool(record, around);
      var applied := ApplyResolution(checkpoint, record, resolution, at);
      Transition(applied.status, checkpoint.version, checkpoint, applied.checkpoint, applied.shouldPersist, Some(record),
                 Some(resolution))
  }

  // ----- one preparation in brief -----

  /** The outcome one preparation leaves for the record it recovers. */
  function NextOutcome(record: ToolRecord, around: Surroundings): ToolOutcome {
    var resolution := RecoverTool(record, around);
    if resolution.resolved == Some(ToolExecuted) || FinalAction(resolution) == Skip then ToolExecuted
    else if resolution.resolved == Some(NeverExecuted) || FinalAction(resolution) == Retry then NeverExecuted
    else if resolution.resolved.Some? then resolution.resolved.value
    else record.outcome
  }

  function NextBoundary(record: ToolRecord, around: Surroundings): Boundary {
    var resolution := RecoverTool(record, around);
    if resolution.resolved == Some(ToolExecuted) || FinalAction(resolution) == Skip then ReadyForNextStep
    else if resolution.resolved == Some(NeverExecuted) || FinalAction(resolution) == Retry then ReadyForTool
    else ReconcilingTool
  }

  function NextRecord(record: ToolRecord, around: Surroundings, at: Timestamp): ToolRecord {
    if NextOutcome(record, around) == ToolExecuted then
      record.(outcome := ToolExecuted, finishedAt := if record.finishedAt.Some? then record.finishedAt else Some(at))
    else record.(outcome := NextOutcome(record, around))
  }

  /** The record to recover. */
  function Pending(checkpoint: Checkpoint): ToolRecord
    requires LastRecoverable(checkpoint.tools).Some?
  {
    checkpoint.tools[LastRecoverable(checkpoint.tools).value]
  }

  lemma AppliedInBrief(checkpoint: Checkpoint, record: ToolRecord, around: Surroundings, at: Timestamp)
    ensures var applied := ApplyResolution(checkpoint, record, RecoverTool(record, around), at);
            && applied.checkpoint == WithTool(checkpoint, NextBoundary(record, around), NextRecord(record, around, at), at)
            && (applied.shouldPersist <==>
                NextOutcome(record, around) != record.outcome || NextBoundary(record, around) != checkpoint.boundary)
            && applied.status == (match NextBoundary(record, around)
                                  case ReadyForNextStep => PreparedAdvanced
                                  case ReadyForTool => PreparedRetryRequired
                                  case _ => PreparedSuspended)
  {
    hide Upserted;
  }

  lemma PreparedInBrief(checkpoint: Checkpoint, around: Surroundings, at: Timestamp)
    requires checkpoint.boundary != Completed && LastRecoverable(checkpoint.tools).Some?
    ensures var t, record := PrepareTransition(checkpoint, around, at), Pending(checkpoint);
            && t.record == Some(record) && t.resolution == Some(RecoverTool(record, around))
            && t.expectedVersion == checkpoint.version
            && t.next == WithTool(checkpoint, NextBoundary(record, around), NextRecord(record, around, at), at)
            && (t.shouldPersist <==>
                NextOutcome(record, around) != record.outcome || NextBoundary(record, around) != checkpoint.boundary)
            && (t.status == PreparedAdvanced <==> NextBoundary(record, around) == ReadyForNextStep)
            && (t.status == PreparedRetryRequired <==> NextBoundary(record, around) == ReadyForTool)
            && (t.status == PreparedSuspended <==> NextBoundary(record, around) == ReconcilingTool)
            && RecoveredRecord(t) == NextRecord(record, around, at)
  {
    var record := Pending(checkpoint);
    AppliedInBrief(checkpoint, record, around, at);
    UpsertedHoldsRecord(checkpoint.tools, NextRecord(record, around, at));
    hide ApplyResolution, Upserted, RecoverTool, FirstIndexAgrees;
  }

  /** The record a preparation leaves for the recovered tool call. */
  function RecoveredRecord(t: Transition): ToolRecord
    requires t.record.Some?
  {
    var i := FirstIndex(t.next.tools, t.record.value.toolCallId);
    if i < |t.next.tools| then t.next.tools[i] else t.record.value
  }

  lemma PreparedHasRecord(checkpoint: Checkpoint, around: Surroundings, at: Timestamp)
    ensures PrepareTransition(checkpoint, around, at).record.Some?
       <==> checkpoint.boundary != Completed && LastRecoverable(checkpoint.tools).Some?
  {
    hide ApplyResolution, RecoverTool;
  }

  /** An upsert leaves the record first under its id, and every other id where it was. */
  lemma UpsertedHoldsRecord(tools: seq<ToolRecord>, record: ToolRecord)
    ensures var i := FirstIndex(Upserted(tools, record), record.toolCallId);
            && i < |Upserted(tools, record)| && Upserted(tools, record)[i] == record
            && i == FirstIndex(tools, record.toolCallId)
    ensures forall other: string | other != record.toolCallId :: FirstIndexAgrees(tools, Upserted(tools, record), other)
  {
    var after := Upserted(tools, record);
    var i, j := FirstIndex(tools, record.toolCallId), FirstIndex(after, record.toolCallId);
    assert after[i] == record;
    forall other: string | other != record.toolCallId ensures FirstIndexAgrees(tools, after, other) {
      var a, b := FirstIndex(tools, other), FirstIndex(after, other);
      if a < |tools| {
        assert after[a] == tools[a];
        assert a == b;
      }
    }
  }

  /** Both lists have the same first record for an id, or both have none. */
  predicate FirstIndexAgrees(a: seq<ToolRecord>, b: seq<ToolRecord>, toolCallId: string) {
    var i, j := FirstIndex(a, toolCallId), FirstIndex(b, toolCallId);
    if i < |a| then j < |b| && a[i] == b[j] else j == |b|
  }

  /** The reconciler is asked: the outcome is uncertain, the call was not free of side effects and safe to repeat, and it can be told by its key. */
  predicate Asked(record: ToolRecord, around: Surroundings) {
    && record.outcome in {Started, Unknown}
    && !(EffectiveSideEffect(record, around) == NoSideEffect && EffectiveRetrySafe(record, around))
    && around.canReconcile && HasKey(record)
  }

  /** The call is repeated on the record's own word: it did not happen, it failed, or it is uncertain but free of side effects. */
  predicate RepeatedUnasked(record: ToolRecord, around: Surroundings) {
    && EffectiveRetrySafe(record, around)
    && (record.outcome in {NeverExecuted, ToolFailed}
        || (record.outcome in {Started, Unknown} && EffectiveSideEffect(record, around) == NoSideEffect))
  }

  /**
   * What becomes of the last record that was not cancelled. Recovery goes on after a call that was executed, by the record or by
   * the reconciler; it repeats one that may be repeated or that the reconciler denies; it suspends for all others. The record then
   * says so, and a save is due exactly when record or boundary change.
   */
  lemma RecoveryDecides(checkpoint: Checkpoint, around: Surroundings, at: Timestamp)
    requires checkpoint.boundary != Completed && LastRecoverable(checkpoint.tools).Some?
    ensures var t, record := PrepareTransition(checkpoint, around, at), Pending(checkpoint);
            var executed := record.outcome == ToolExecuted || (Asked(record, around) && around.answer == SaysExecuted);
            var repeated := RepeatedUnasked(record, around) || (Asked(record, around) && around.answer == SaysNeverExecuted);
            var outcome := if executed then ToolExecuted else if repeated then NeverExecuted
                           else if Asked(record, around) then Unknown else record.outcome;
            var boundary := if executed then ReadyForNextStep else if repeated then ReadyForTool else ReconcilingTool;
            && t.status == (if executed then PreparedAdvanced else if repeated then PreparedRetryRequired else PreparedSuspended)
            && t.next == checkpoint.(boundary := boundary, updatedAt := at, tools := Upserted(checkpoint.tools,
                 record.(outcome := outcome,
                         finishedAt := if executed && record.finishedAt.None? then Some(at) else record.finishedAt)))
            && (t.shouldPersist <==> outcome != record.outcome || boundary != checkpoint.boundary)
  {
    PreparedInBrief(checkpoint, around, at);
    hide PrepareTransition, Upserted, RecoveredRecord;
  }

  /** Without a record to recover, or after the end of the run, nothing is prepared and nothing saved. */
  lemma NothingToRecover(checkpoint: Checkpoint, around: Surroundings, at: Timestamp)
    requires checkpoint.boundary == Completed || forall record | record in checkpoint.tools :: record.outcome == CancelledBeforeExecution
    ensures var t := PrepareTransition(checkpoint, around, at);
            && t.status == (if checkpoint.boundary == Completed then PreparedCompleted else PreparedNoPendingTool)
            && t.next == checkpoint && !t.shouldPersist
  {
  }

  // ----- soundness -----

  /** What a record claims, against what really happened to the tool call. */
  predicate Sound(record: ToolRecord, around: Surroundings, happened: bool) {
    && (record.outcome == ToolExecuted ==> happened)
    && (record.outcome == NeverExecuted ==> !happened || EffectiveRetrySafe(record, around))
  }

  /** The stricter reading: a record that says never executed was never executed. */
  predicate StrictlySound(record: ToolRecord, happened: bool) {
    && (record.outcome == ToolExecuted ==> happened)
    && (record.outcome == NeverExecuted ==> !happened)
  }

  predicate Truthful(around: Surroundings, happened: bool) {
    && (around.answer == SaysExecuted ==> happened)
    && (around.answer == SaysNeverExecuted ==> !happened)
  }

  /**
   * Given a sound record and a truthful reconciler, recovery keeps the record sound, and asks for a
   * retry only when the effect did not happen or the tool is retry safe; for a tool that is not, only
   * when the reconciler answered "never executed" in this very call.
   */
  lemma RecoveryIsSound(checkpoint: Checkpoint, around: Surroundings, at: Timestamp, happened: bool)
    requires PrepareTransition(checkpoint, around, at).record.Some?
    requires Truthful(around, happened)
    requires Sound(PrepareTransition(checkpoint, around, at).record.value, around, happened)
    ensures var t := PrepareTransition(checkpoint, around, at);
            var record := t.record.value;
            && Sound(RecoveredRecord(t), around, happened)
            && RecoveredRecord(t).toolCallId == record.toolCallId
            && (t.status == PreparedRetryRequired ==> !happened || EffectiveRetrySafe(record, around))
            && (t.status == PreparedRetryRequired && !EffectiveRetrySafe(record, around) ==>
                t.resolution.value.plan.action == ReconcileTool && around.answer == SaysNeverExecuted)
            && (t.status == PreparedAdvanced ==> happened && RecoveredRecord(t).outcome == ToolExecuted)
  {
    PreparedHasRecord(checkpoint, around, at);
    PreparedInBrief(checkpoint, around, at);
    hide PrepareTransition, Upserted, RecoveredRecord;
  }

  /** The plans that retry an uncertain or failed execution without asking anybody whether it happened. */
  predicate RetriesUnasked(record: ToolRecord, around: Surroundings) {
    && EffectiveRetrySafe(record, around)
    && (record.outcome == ToolFailed
        || ((record.outcome == Started || record.outcome == Unknown) && EffectiveSideEffect(record, around) == NoSideEffect))
  }

  /**
   * The strict reading is kept, whatever really happened, if and only if the record is not one that is
   * retried unasked: such a record is rewritten to "never executed" although the call may have happened.
   */
  lemma StrictSoundnessKeptIff(checkpoint: Checkpoint, around: Surroundings, at: Timestamp)
    requires PrepareTransition(checkpoint, around, at).record.Some?
    ensures var t := PrepareTransition(checkpoint, around, at);
            (forall happened: bool | (t.resolution.value.plan.action == ReconcileTool ==> Truthful(around, happened))
                                     && StrictlySound(t.record.value, happened) ::
               StrictlySound(RecoveredRecord(t), happened))
            <==> !RetriesUnasked(t.record.value, around)
  {
    PreparedHasRecord(checkpoint, around, at);
    PreparedInBrief(checkpoint, around, at);
    hide PrepareTransition, Upserted, RecoveredRecord;
    var t := PrepareTransition(checkpoint, around, at);
    if RetriesUnasked(t.record.value, around) {
      assert StrictlySound(t.record.value, true) && !StrictlySound(RecoveredRecord(t), true);
    }
  }

  // ----- stabilization -----

  predicate Persists(checkpoint: Checkpoint, around: Surroundings, at: Timestamp) {
    PrepareTransition(checkpoint, around, at).shouldPersist
  }

  /** One round of the recovery loop without rivals: prepare, and save when the preparation says so. */
  function Round(checkpoint: Checkpoint, around: Surroundings, at: Timestamp): Checkpoint {
    var t := PrepareTransition(checkpoint, around, at);
    if t.shouldPersist then t.next.(version := checkpoint.version + 1) else checkpoint
  }

  function Rounds(checkpoint: Checkpoint, around: Surroundings, at: Timestamp, n: nat): Checkpoint {
    if n == 0 then checkpoint else Round(Rounds(checkpoint, around, at, n - 1), around, at)
  }

  /** The record to recover is the first with its tool call id, so the upsert hits the record itself. */
  predicate FoundIsFirst(tools: seq<ToolRecord>) {
    LastRecoverable(tools).Some? ==>
      FirstIndex(tools, tools[LastRecoverable(tools).value].toolCallId) == LastRecoverable(tools).value
  }

  lemma LastRecoverableIs(tools: seq<ToolRecord>, i: nat)
    requires i < |tools| && Recoverable(tools[i]) && forall j | i < j < |tools| :: !Recoverable(tools[j])
    ensures LastRecoverable(tools) == Some(i)
  {
  }

  /** After an upsert the record to recover stands where it stood; it changed only if it was the first with its id. */
  lemma FoundAfterUpsert(tools: seq<ToolRecord>, changed: ToolRecord)
    requires LastRecoverable(tools).Some? && Recoverable(changed)
    requires changed.toolCallId == tools[LastRecoverable(tools).value].toolCallId
    ensures var k, after := LastRecoverable(tools).value, Upserted(tools, changed);
            && LastRecoverable(after) == Some(k) && |after| == |tools|
            && after[k] == (if FoundIsFirst(tools) then changed else tools[k])
            && (FoundIsFirst(after) <==> FoundIsFirst(tools))
  {
    var k, after := LastRecoverable(tools).value, Upserted(tools, changed);
    var i := FirstIndex(tools, changed.toolCallId);
    assert i <= k;
    assert after == tools[i := changed];
    LastRecoverableIs(after, k);
    UpsertedHoldsRecord(tools, changed);
  }

  predicate InRecovery(checkpoint: Checkpoint) {
    checkpoint.boundary != Completed && LastRecoverable(checkpoint.tools).Some?
  }

  /** A round that saves moves to the next boundary, and changes the pending record only if it is the first with its id. */
  lemma RoundInBrief(checkpoint: Checkpoint, around: Surroundings, at: Timestamp)
    requires InRecovery(checkpoint)
    ensures var record, n := Pending(checkpoint), Round(checkpoint, around, at);
            && InRecovery(n)
            && (FoundIsFirst(n.tools) <==> FoundIsFirst(checkpoint.tools))
            && (Persists(checkpoint, around, at) <==>
                NextOutcome(record, around) != record.outcome || NextBoundary(record, around) != checkpoint.boundary)
            && (Persists(checkpoint, around, at) ==>
                && n.boundary == NextBoundary(record, around)
                && Pending(n) == if FoundIsFirst(checkpoint.tools) then NextRecord(record, around, at) else record)
            && (!Persists(checkpoint, around, at) ==> n == checkpoint)
  {
    var record := Pending(checkpoint);
    PreparedInBrief(checkpoint, around, at);
    NextRecordRecoverable(record, around, at);
    FoundAfterUpsert(checkpoint.tools, NextRecord(record, around, at));
    hide PrepareTransition, Upserted, RecoverTool, FoundIsFirst;
  }

  lemma NextRecordRecoverable(record: ToolRecord, around: Surroundings, at: Timestamp)
    requires Recoverable(record)
    ensures Recoverable(NextRecord(record, around, at)) && NextRecord(record, around, at).toolCallId == record.toolCallId
    ensures NextBoundary(record, around) != Completed
  {
  }

  /** The one record that takes two saves: reconciled as never executed, with a tool that is not retry safe. */
  predicate TakesTwoSaves(record: ToolRecord, around: Surroundings) {
    && BuildPlan(record, around).action == ReconcileTool
    && around.answer == SaysNeverExecuted
    && !EffectiveRetrySafe(record, around)
  }

  /** What a second look at the saved record decides. */
  lemma SecondLook(record: ToolRecord, around: Surroundings, at: Timestamp)
    requires Recoverable(record)
    ensures var n := NextRecord(record, around, at);
            && NextOutcome(n, around) == n.outcome
            && (NextBoundary(n, around) != NextBoundary(record, around) <==> TakesTwoSaves(record, around))
            && (TakesTwoSaves(record, around) ==>
                && NextOutcome(record, around) != record.outcome
                && NextBoundary(NextRecord(n, around, at), around) == NextBoundary(n, around))
  {
  }

  /**
   * With a fixed answer, and the record to recover being the first with its id, at most two saves
   * happen before preparing again saves nothing; it takes two exactly when an uncertain execution is
   * reconciled as never executed for a tool that is not retry safe.
   */
  lemma RecoveryStabilizes(checkpoint: Checkpoint, around: Surroundings, at: Timestamp)
    requires InRecovery(checkpoint) && FoundIsFirst(checkpoint.tools)
    ensures !Persists(Rounds(checkpoint, around, at, 2), around, at)
    ensures Persists(checkpoint, around, at) && Persists(Rounds(checkpoint, around, at, 1), around, at)
       <==> TakesTwoSaves(Pending(checkpoint), around)
  {
    var one := Round(checkpoint, around, at);
    assert Rounds(checkpoint, around, at, 0) == checkpoint;
    assert Rounds(checkpoint, around, at, 1) == one;
    assert Rounds(checkpoint, around, at, 2) == Round(one, around, at);
    hide Round, Rounds, Persists, RecoverTool, LastRecoverable, FirstIndex, FinalAction, NextRecord, NextOutcome, NextBoundary,
         FoundIsFirst, TakesTwoSaves;
    RoundInBrief(checkpoint, around, at);
    RoundInBrief(one, around, at);
    RoundInBrief(Round(one, around, at), around, at);
    SecondLook(Pending(checkpoint), around, at);
    SecondLook(Pending(one), around, at);
  }

  /**
   * With duplicated tool call ids the save hits another record, and a preparation that wants to change
   * the outcome is never satisfied: it saves again in every round.
   */
  lemma {:induction false} DuplicatesNeverStabilize(checkpoint: Checkpoint, around: Surroundings, at: Timestamp, n: nat)
    requires InRecovery(checkpoint) && !FoundIsFirst(checkpoint.tools)
    requires NextOutcome(Pending(checkpoint), around) != Pending(checkpoint).outcome
    ensures var c := Rounds(checkpoint, around, at, n);
            InRecovery(c) && !FoundIsFirst(c.tools) && Pending(c) == Pending(checkpoint) && Persists(c, around, at)
  {
    hide Round, Persists, RecoverTool, LastRecoverable, FirstIndex, FinalAction, NextRecord, NextOutcome, NextBoundary, FoundIsFirst;
    if n > 0 {
      DuplicatesNeverStabilize(checkpoint, around, at, n - 1);
      RoundInBrief(Rounds(checkpoint, around, at, n - 1), around, at);
    }
    RoundInBrief(Rounds(checkpoint, around, at, n), around, at);
  }

  /** Recovery comes to rest if and only if the pending record is the first with its id or keeps its outcome. */
  lemma StabilizesIff(checkpoint: Checkpoint, around: Surroundings, at: Timestamp)
    requires InRecovery(checkpoint)
    ensures (exists n: nat :: !Persists(Rounds(checkpoint, around, at, n), around, at))
       <==> FoundIsFirst(checkpoint.tools) || NextOutcome(Pending(checkpoint), around) == Pending(checkpoint).outcome
  {
    if FoundIsFirst(checkpoint.tools) {
      RecoveryStabilizes(checkpoint, around, at);
    } else if NextOutcome(Pending(checkpoint), around) == Pending(checkpoint).outcome {
      assert Rounds(checkpoint, around, at, 0) == checkpoint;
      assert Rounds(checkpoint, around, at, 1) == Round(checkpoint, around, at);
      hide Round, Rounds, Persists, RecoverTool, LastRecoverable, FirstIndex, FinalAction, NextRecord, NextOutcome, NextBoundary,
           FoundIsFirst;
      RoundInBrief(checkpoint, around, at);
      RoundInBrief(Round(checkpoint, around, at), around, at);
      assert !Persists(Rounds(checkpoint, around, at, 1), around, at);
    } else {
      forall n: nat ensures Persists(Rounds(checkpoint, around, at, n), around, at) {
        DuplicatesNeverStabilize(checkpoint, around, at, n);
      }
    }
  }

  // ----- both failures happen -----

  /** A failed call of a retry-safe tool without side effects; there is no reconciler. */
  const FAILED: ToolRecord := ToolRecord("t", "tool", ToolFailed, None, None, None, None)

  const RETRY_SAFE: Surroundings := Surroundings(NoSideEffect, true, false, SaysUnknown)

  function WithRecords(tools: seq<ToolRecord>): Checkpoint {
    Checkpoint("r", 1, 0, ReconcilingTool, tools, None, Instant(0))
  }

  /** A call that failed after it had happened is rewritten to "never executed". */
  lemma StrictSoundnessIsLost()
    ensures var t := PrepareTransition(WithRecords([FAILED]), RETRY_SAFE, Instant(1));
            && t.record == Some(FAILED) && StrictlySound(FAILED, true)
            && RecoveredRecord(t).outcome == NeverExecuted && !StrictlySound(RecoveredRecord(t), true)
  {
    var c := WithRecords([FAILED]);
    LastRecoverableIs(c.tools, 0);
    PreparedInBrief(c, RETRY_SAFE, Instant(1));
    hide PrepareTransition, RecoveredRecord;
  }

  /** Two records of one tool call: every round saves again. */
  lemma TwoRecordsNeverRest(n: nat)
    ensures Persists(Rounds(WithRecords([FAILED, FAILED]), RETRY_SAFE, Instant(1), n), RETRY_SAFE, Instant(1))
  {
    var c := WithRecords([FAILED, FAILED]);
    LastRecoverableIs(c.tools, 1);
    assert FirstIndex(c.tools, "t") == 0;
    hide Rounds, Persists;
    DuplicatesNeverStabilize(c, RETRY_SAFE, Instant(1), n);
  }
}
