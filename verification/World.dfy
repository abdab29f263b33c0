/**
 * Every run of the protocol: any number of workers, any interleaving of their transactions and of
 * the statements between them, crashes, and an ACL writer.
 */
module World {
  import opened Text
  import opened Records
  import opened Database
  import opened ControlPreparation
  import opened ReceiptReview
  import EffectLedger
  import CommandUnitOfWork
  import AtomicAdapter
  import ReceiptFinalizer
  import OutboxDelivery

  /** Where one run of the atomic adapter stands. */
  datatype AtomicWorker =
    | AtomicIdle
    | Admitted(record: Command, evidence: Option<Evidence>)
    | CheckpointRead(record: Command, evidence: Option<Evidence>, checkpoint: Checkpoint)
    | StateRead(record: Command, evidence: Option<Evidence>, checkpoint: Checkpoint, control: Option<Control>)
    | Authorized(record: Command, evidence: Option<Evidence>, checkpoint: Checkpoint, control: Option<Control>,
                 decision: Decision)

  /** Where one run of the legacy orchestrator stands. */
  datatype LegacyWorker =
    | LegacyIdle
    | Inserted(record: Command)
    | Running(record: Command)
    | Returned(record: Command, status: CommandStatus, reason: ResultReason, snapshot: Option<Snapshot>)

  /** Everything ever written, per key and in order; the tables only hold the last entry. */
  datatype History = History(
    checkpoints: map<string, seq<Checkpoint>>,
    controls: map<string, seq<Control>>,
    fences: map<string, seq<Fence>>)

  /** `invoked` lists the command ids that reached an authorizer or a business executor. */
  datatype World = World(
    t: Tables,
    history: History,
    atomic: map<nat, AtomicWorker>,
    legacy: map<nat, LegacyWorker>,
    invoked: seq<string>)

  const INITIAL: World := World(EMPTY_TABLES, History(map[], map[], map[]), map[], map[], [])

  datatype Action =
    | Stage(intent: Intent)
    | ClaimEffect(effectId: string, dispatcherId: string)
    | Dispatch(intent: Intent, fence: Fence)
    | Confirm(intent: Intent, fence: Fence)
    | MarkUnknown(effectId: string, epoch: int)
    | Reconcile(effectId: string)
    | Persist(answers: RegistryAnswers, review: ReviewInput)
    | Finalize(answers: RegistryAnswers, input: ReceiptFinalizer.FinalizeInput, fault: bool)
    | ClaimCommand(worker: nat, request: Request, owner: Owner, evidence: Option<Evidence>, at: Timestamp)
    | AdmitCommand(worker: nat, request: Request, at: Timestamp)
    | ReadCheckpoint(worker: nat)
    | ReadControl(worker: nat)
    | Authorize(worker: nat, decision: Decision)
    | CommitAtomic(worker: nat, preparedAt: Timestamp, eventAt: Timestamp, at: Timestamp)
    | InsertLegacy(worker: nat, request: Request, at: Timestamp)
    | StartLegacy(worker: nat, at: Timestamp)
    | InvokeLegacy(worker: nat, status: CommandStatus, reason: ResultReason, snapshot: Option<Snapshot>)
    | FinishLegacy(worker: nat, at: Timestamp)
    | ProposeLegacy(proposed: Command, expectedVersion: int)
    | Crash(worker: nat)
    | SaveRun(checkpoint: Checkpoint, expectedVersion: int, at: Timestamp)
    | ChangeAcl(acl: Acl)
    | ClaimDelivery(claim: OutboxDelivery.ClaimInput, token: string)
    | AckDelivery(ack: OutboxDelivery.AckInput)

  function Log<T>(m: map<string, seq<T>>, key: string): seq<T> {
    if key in m then m[key] else []
  }

  function Append<T>(m: map<string, seq<T>>, key: string, entry: T): map<string, seq<T>> {
    m[key := Log(m, key) + [entry]]
  }

  function AtomicAt(w: World, worker: nat): AtomicWorker {
    if worker in w.atomic then w.atomic[worker] else AtomicIdle
  }

  function LegacyAt(w: World, worker: nat): LegacyWorker {
    if worker in w.legacy then w.legacy[worker] else LegacyIdle
  }

  // ----- one function per kind of step; a step that is not enabled changes nothing -----

  function StepClaimEffect(w: World, effectId: string, dispatcherId: string): World {
    var outcome := EffectLedger.ClaimDispatch(w.t, effectId, dispatcherId);
    if outcome.result.Ok? && outcome.result.value.Claimed? then
      w.(t := outcome.tables,
         history := w.history.(fences := Append(w.history.fences, effectId, outcome.result.value.fence)))
    else w
  }

  function StepFinalize(w: World, answers: RegistryAnswers, input: ReceiptFinalizer.FinalizeInput, fault: bool): World {
    var outcome := ReceiptFinalizer.Finalize(w.t, answers, input, fault);
    var runId := input.intent.command.runId;
    if outcome.result.Ok? && outcome.result.value.Finalized? && runId in outcome.tables.controls then
      w.(t := outcome.tables,
         history := w.history.(controls := Append(w.history.controls, runId, outcome.tables.controls[runId].payload)))
    else w
  }

  /** A claim that wins starts its worker; any other answer leaves the worker where it was. */
  function StepClaim(w: World, worker: nat, request: Request, owner: Owner, evidence: Option<Evidence>, at: Timestamp): World {
    var outcome := CommandUnitOfWork.Claim(w.t, request, owner, evidence, at);
    if outcome.result.Denied? || !outcome.result.value.ClaimedExecuting? then w
    else if owner == AtomicControlOnly then
      w.(t := outcome.tables, atomic := w.atomic[worker := Admitted(outcome.result.value.record, evidence)])
    else
      w.(t := outcome.tables, legacy := w.legacy[worker := Running(outcome.result.value.record)])
  }

  function StepAdmit(w: World, worker: nat, request: Request, at: Timestamp): World {
    var outcome := CommandUnitOfWork.Admit(w.t, request, at);
    if outcome.result.Denied? || !outcome.result.value.AdmittedExecuting? then w
    else w.(t := outcome.tables, atomic := w.atomic[worker := Admitted(outcome.result.value.record, None)])
  }

  function StepReadCheckpoint(w: World, worker: nat): World {
    match AtomicAt(w, worker)
    case Admitted(record, evidence) =>
      if record.request.runId in w.t.checkpoints then
        w.(atomic := w.atomic[worker := CheckpointRead(record, evidence, w.t.checkpoints[record.request.runId].payload)])
      else w.(atomic := w.atomic[worker := AtomicIdle])  // Checkpoint not found: the command stays in flight
    case _ => w
  }

  function StepReadControl(w: World, worker: nat): World {
    match AtomicAt(w, worker)
    case CheckpointRead(record, evidence, checkpoint) =>
      var control := CommandUnitOfWork.StoredControl(w.t, record.request.runId);
      w.(atomic := w.atomic[worker := StateRead(record, evidence, checkpoint, control)])
    case _ => w
  }

  function StepAuthorize(w: World, worker: nat, decision: Decision): World {
    match AtomicAt(w, worker)
    case StateRead(record, evidence, checkpoint, control) =>
      w.(atomic := w.atomic[worker := Authorized(record, evidence, checkpoint, control, decision)],
         invoked := w.invoked + [record.request.commandId])
    case _ => w
  }

  /** What the worker's commit transaction answers, and the draft it brings. */
  function AtomicDraft(a: AtomicWorker, preparedAt: Timestamp, eventAt: Timestamp): Option<CommandUnitOfWork.CommitInput> {
    match a
    case Authorized(record, evidence, checkpoint, control, decision) =>
      var prepared := Prepare(record.request, checkpoint, control, decision, preparedAt);
      if prepared.Denied? then None
      else Some(AtomicAdapter.AdapterCommit(record, prepared.value, evidence, eventAt))
    case _ => None
  }

  function StepCommitAtomic(w: World, worker: nat, preparedAt: Timestamp, eventAt: Timestamp, at: Timestamp): World {
    if !AtomicAt(w, worker).Authorized? then w
    else
      var draft := AtomicDraft(AtomicAt(w, worker), preparedAt, eventAt);
      var idle := w.(atomic := w.atomic[worker := AtomicIdle]);
      if draft.None? then idle
      else
        var outcome := CommandUnitOfWork.Commit(w.t, draft.value, at);
        if outcome.result.Denied? then idle
        else
          var runId := draft.value.checkpoint.runId;
          var controls :=
            if CommandUnitOfWork.EffectiveWrites(draft.value).control == CasUpdate then
              Append(w.history.controls, runId, outcome.result.value.control)
            else w.history.controls;
          idle.(t := outcome.tables, history := w.history.(controls := controls))
  }

  function StepInsertLegacy(w: World, worker: nat, request: Request, at: Timestamp): World {
    var outcome := CommandUnitOfWork.LegacyInsert(w.t, request, at);
    if outcome.result == Ok(true) then
      w.(t := outcome.tables,
         legacy := w.legacy[worker := Inserted(CommandUnitOfWork.NewCommand(request, Legacy, false, at))])
    else w
  }

  function StepStartLegacy(w: World, worker: nat, at: Timestamp): World {
    match LegacyAt(w, worker)
    case Inserted(record) =>
      var outcome := CommandUnitOfWork.LegacyUpdate(w.t, record.(status := Executing, updatedAt := at), record.version);
      if outcome.result.Denied? then w.(legacy := w.legacy[worker := LegacyIdle])
      else w.(t := outcome.tables, legacy := w.legacy[worker := Running(outcome.result.value)])
    case _ => w
  }

  /** The business executor runs; `status`, `reason` and `snapshot` are whatever came of it. */
  function StepInvokeLegacy(w: World, worker: nat, status: CommandStatus, reason: ResultReason, snapshot: Option<Snapshot>): World {
    match LegacyAt(w, worker)
    case Running(record) =>
      w.(legacy := w.legacy[worker := Returned(record, status, reason, snapshot)],
         invoked := w.invoked + [record.request.commandId])
    case _ => w
  }

  function StepFinishLegacy(w: World, worker: nat, at: Timestamp): World {
    match LegacyAt(w, worker)
    case Returned(record, status, reason, snapshot) =>
      var proposed := record.(status := status, resultReason := Some(reason), resultSnapshot := snapshot, updatedAt := at);
      var outcome := CommandUnitOfWork.LegacyUpdate(w.t, proposed, record.version);
      w.(t := outcome.tables, legacy := w.legacy[worker := LegacyIdle])
    case _ => w
  }

  function StepSaveRun(w: World, checkpoint: Checkpoint, expectedVersion: int, at: Timestamp): World {
    var outcome := CommandUnitOfWork.SaveCheckpoint(w.t, checkpoint, expectedVersion, at);
    if outcome.result.Denied? then w
    else w.(t := outcome.tables,
            history := w.history.(checkpoints := Append(w.history.checkpoints, checkpoint.runId, outcome.result.value)))
  }

  function Step(w: World, a: Action): World {
    match a
    case Stage(intent) => w.(t := EffectLedger.Stage(w.t, intent).tables)
    case ClaimEffect(effectId, dispatcherId) => StepClaimEffect(w, effectId, dispatcherId)
    case Dispatch(intent, fence) => w.(t := EffectLedger.Dispatch(w.t, intent, fence).tables)
    case Confirm(intent, fence) => w.(t := EffectLedger.Confirm(w.t, intent, fence).tables)
    case MarkUnknown(effectId, epoch) => w.(t := EffectLedger.MarkUnknown(w.t, effectId, epoch).tables)
    case Reconcile(effectId) => w.(t := EffectLedger.Reconcile(w.t, effectId).tables)
    case Persist(answers, review) => w.(t := EffectLedger.Persist(w.t, answers, review).tables)
    case Finalize(answers, input, fault) => StepFinalize(w, answers, input, fault)
    case ClaimCommand(worker, request, owner, evidence, at) => StepClaim(w, worker, request, owner, evidence, at)
    case AdmitCommand(worker, request, at) => StepAdmit(w, worker, request, at)
    case ReadCheckpoint(worker) => StepReadCheckpoint(w, worker)
    case ReadControl(worker) => StepReadControl(w, worker)
    case Authorize(worker, decision) => StepAuthorize(w, worker, decision)
    case CommitAtomic(worker, preparedAt, eventAt, at) => StepCommitAtomic(w, worker, preparedAt, eventAt, at)
    case InsertLegacy(worker, request, at) => StepInsertLegacy(w, worker, request, at)
    case StartLegacy(worker, at) => StepStartLegacy(w, worker, at)
    case InvokeLegacy(worker, status, reason, snapshot) => StepInvokeLegacy(w, worker, status, reason, snapshot)
    case FinishLegacy(worker, at) => StepFinishLegacy(w, worker, at)
    case ProposeLegacy(proposed, expectedVersion) =>
      w.(t := CommandUnitOfWork.LegacyUpdate(w.t, proposed, expectedVersion).tables)
    case Crash(worker) => w.(atomic := w.atomic[worker := AtomicIdle], legacy := w.legacy[worker := LegacyIdle])
    case SaveRun(checkpoint, expectedVersion, at) => StepSaveRun(w, checkpoint, expectedVersion, at)
    case ChangeAcl(acl) => w.(t := w.t.(acl := acl))
    case ClaimDelivery(claim, token) =>
      w.(t := OutboxDelivery.WithQueue(w.t, OutboxDelivery.ClaimLease(OutboxDelivery.QueueOf(w.t), claim, token).queue))
    case AckDelivery(ack) =>
      w.(t := OutboxDelivery.WithQueue(w.t, OutboxDelivery.Acknowledge(OutboxDelivery.QueueOf(w.t), ack).queue))
  }

  /** A run: each state follows from the one before it by one action. */
  ghost predicate IsRun(states: seq<World>, actions: seq<Action>) {
    && |states| == |actions| + 1
    && forall i {:trigger actions[i]} | 0 <= i < |actions| :: states[i + 1] == Step(states[i], actions[i])
  }

  /** `later` is the end of a run that starts at `earlier`. */
  ghost predicate Leads(earlier: World, later: World) {
    exists states, actions :: IsRun(states, actions) && states[0] == earlier && states[|actions|] == later
  }

  ghost predicate Reachable(w: World) {
    Leads(INITIAL, w)
  }

  lemma RunsJoin(s: seq<World>, a: seq<Action>, t: seq<World>, b: seq<Action>)
    requires IsRun(s, a) && IsRun(t, b) && s[|a|] == t[0]
    ensures IsRun(s + t[1..], a + b)
  {
    hide Step;
    var states, actions := s + t[1..], a + b;
    forall i {:trigger actions[i]} | 0 <= i < |actions| ensures states[i + 1] == Step(states[i], actions[i]) {
      if i < |a| {
        assert actions[i] == a[i] && states[i] == s[i] && states[i + 1] == s[i + 1];
      } else {
        assert actions[i] == b[i - |a|] && states[i] == t[i - |a|] && states[i + 1] == t[i - |a| + 1];
      }
    }
  }

  lemma LeadsTransitive(u: World, v: World, w: World)
    requires Leads(u, v) && Leads(v, w)
    ensures Leads(u, w)
  {
    hide Step;
    var s, a :| IsRun(s, a) && s[0] == u && s[|a|] == v;
    var t, b :| IsRun(t, b) && t[0] == v && t[|b|] == w;
    RunsJoin(s, a, t, b);
    var states, actions := s + t[1..], a + b;
    assert states[0] == u && states[|actions|] == w;
  }

  lemma OneStepLeads(w: World, a: Action)
    ensures Leads(w, Step(w, a))
  {
    hide Step;
    var states, actions := [w, Step(w, a)], [a];
    assert IsRun(states, actions);
    assert states[0] == w && states[|actions|] == Step(w, a);
  }

  lemma InitialIsReachable()
    ensures Reachable(INITIAL)
  {
    hide Step;
    var states, actions: seq<Action> := [INITIAL], [];
    assert IsRun(states, actions);
    assert states[0] == INITIAL && states[|actions|] == INITIAL;
  }

  lemma Reaches(u: World, a: Action, v: World)
    requires Reachable(u) && Step(u, a) == v
    ensures Reachable(v)
  {
    hide Step;
    OneStepLeads(u, a);
    LeadsTransitive(INITIAL, u, v);
  }
}
