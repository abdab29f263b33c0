/** What a caller learns from claiming, admitting or updating a command: the stored record, and whether it is his, busy or over. */
module ClaimAnswers {
  import opened Text
  import opened Records
  import opened Database
  import opened Authority
  import opened ControlPreparation
  import opened CommandUnitOfWork
  import opened World
  import opened Invariants
  import opened Safety
  import opened CommitAnswers
  import AtomicAdapter
  import EntryDispatcher
  import Frames
  import ReceiptFinalizer
  import ReceiptTheorems

  // ----- one claim -----

  predicate WellFormed(request: Request) {
    !Blank(request.commandId) && !Blank(request.runId) && !Blank(request.requestedBy)
  }

  /** What a claim needs of its caller, whatever is stored for the command. */
  predicate MayClaim(t: Tables, request: Request, owner: Owner, evidence: Option<Evidence>) {
    && WellFormed(request)
    && (owner == AtomicControlOnly ==> request.operation in {Quarantine, ReleaseQuarantine, DeadLetter})
    && (evidence.Some? ==> AuthorityHolds(t.acl, request, evidence.value))
  }

  /** The reason that is given is the case, and nothing that comes before it is. */
  predicate ClaimRefusedFor(t: Tables, request: Request, owner: Owner, evidence: Option<Evidence>, reason: CommandDenial) {
    var id := request.commandId;
    match reason
    case IncompleteIdentity => !WellFormed(request)
    case UnsupportedByOwner => owner == AtomicControlOnly && request.operation in {RetryRecovery, ReconcileAgain, Resume}
    case EvidenceConflict => evidence.Some? && !AuthorityHolds(t.acl, request, evidence.value)
    case IdentityConflict => MayClaim(t, request, owner, evidence) && id in t.commands && t.commands[id].payload.request != request
    case OwnershipConflict =>
      MayClaim(t, request, owner, evidence) && id in t.commands && t.commands[id].payload.request == request
      && t.commands[id].payload.owner != Some(owner)
    case SnapshotMissing =>
      MayClaim(t, request, owner, evidence) && id in t.commands && t.commands[id].payload.request == request
      && t.commands[id].payload.owner == Some(owner)
      && t.commands[id].version == 3 && t.commands[id].payload.resultSnapshot.None?
    case _ => false
  }

  function ExecutingRecord(request: Request, owner: Owner, fenced: bool, at: Timestamp): Command {
    Command(request, Some(owner), fenced, Executing, 2, at, at, None, None)
  }

  /** The answer for a stored command: replayed with its own snapshot when it is over, suspended while it is not. */
  function StoredAnswer(row: Row<Command>): Result<ClaimAnswer, CommandDenial> {
    if row.version != 3 then Ok(Suspended(row.payload))
    else if row.payload.resultSnapshot.None? then Denied(SnapshotMissing)
    else Ok(Replayed(row.payload, row.payload.resultSnapshot.value))
  }

  lemma TerminalRow3(commands: map<string, Row<Command>>, id: string)
    requires CommandInv(commands) && id in commands
    ensures commands[id].payload.request.commandId == id
    ensures Terminal(commands[id].payload.status) <==> commands[id].version == 3
  {
    assert CommandRow(id, commands[id]);
  }

  lemma FreshClaimWins(t: Tables, request: Request, owner: Owner, evidence: Option<Evidence>, at: Timestamp)
    requires request.commandId !in t.commands && MayClaim(t, request, owner, evidence)
    ensures var record := ExecutingRecord(request, owner, evidence.Some?, at);
            Claim(t, request, owner, evidence, at)
            == Outcome(t.(commands := t.commands[request.commandId := Row(2, record)]), Ok(ClaimedExecuting(record, evidence)))
  {
    assert Decide(None, request) == Ok(AcceptNew);
    hide AuthorityHolds, Blank, Decide;
  }

  lemma ClaimRefusals(t: Tables, request: Request, owner: Owner, evidence: Option<Evidence>, at: Timestamp)
    requires CommandInv(t.commands) && Claim(t, request, owner, evidence, at).result.Denied?
    ensures Claim(t, request, owner, evidence, at).tables == t
    ensures ClaimRefusedFor(t, request, owner, evidence, Claim(t, request, owner, evidence, at).result.reason)
  {
    if request.commandId in t.commands {
      TerminalRow3(t.commands, request.commandId);
    }
    hide AuthorityHolds, Blank, Terminal, CommandInv;
  }

  /**
   * A claim that may be made wins exactly when the command is unknown; of a known one it learns what is stored,
   * if request and owner are the stored ones. Only a claim that wins changes anything, and only that row.
   */
  lemma ClaimDecides(t: Tables, request: Request, owner: Owner, evidence: Option<Evidence>, at: Timestamp)
    requires CommandInv(t.commands)
    ensures var id, o := request.commandId, Claim(t, request, owner, evidence, at);
            && (id !in t.commands && MayClaim(t, request, owner, evidence) ==>
                var record := ExecutingRecord(request, owner, evidence.Some?, at);
                o == Outcome(t.(commands := t.commands[id := Row(2, record)]), Ok(ClaimedExecuting(record, evidence))))
            && (id in t.commands && MayClaim(t, request, owner, evidence)
                && t.commands[id].payload.request == request && t.commands[id].payload.owner == Some(owner) ==>
                o == Outcome(t, StoredAnswer(t.commands[id])))
            && (o.result.Denied? ==> o.tables == t && ClaimRefusedFor(t, request, owner, evidence, o.result.reason))
            && (o.result.Ok? ==>
                && MayClaim(t, request, owner, evidence)
                && (id in t.commands ==> t.commands[id].payload.request == request && t.commands[id].payload.owner == Some(owner)))
  {
    if Claim(t, request, owner, evidence, at).result.Denied? {
      ClaimRefusals(t, request, owner, evidence, at);
    }
    if request.commandId in t.commands {
      TerminalRow3(t.commands, request.commandId);
    }
    hide AuthorityHolds, Blank, Terminal, CommandInv, ClaimRefusedFor;
  }

  /** The refusal for a missing snapshot, exactly: the command is over without one, which only a legacy command can be. */
  lemma SnapshotMissingIff(w: World, request: Request, owner: Owner, evidence: Option<Evidence>, at: Timestamp)
    requires Reachable(w)
    ensures var id := request.commandId;
            Claim(w.t, request, owner, evidence, at).result == Denied(SnapshotMissing) <==>
            && MayClaim(w.t, request, owner, evidence) && id in w.t.commands
            && w.t.commands[id].payload.request == request && w.t.commands[id].payload.owner == Some(owner)
            && w.t.commands[id].version == 3 && w.t.commands[id].payload.resultSnapshot.None?
    ensures Claim(w.t, request, owner, evidence, at).result == Denied(SnapshotMissing) ==> owner == Legacy
  {
    hide Reachable, CommandInv, Claim, MayClaim;
    ReachableFacts(w);
    ClaimDecides(w.t, request, owner, evidence, at);
    if request.commandId in w.t.commands {
      AtomicHasSnapshot(w.t.commands, request.commandId);
    }
  }

  lemma AtomicHasSnapshot(commands: map<string, Row<Command>>, id: string)
    requires CommandInv(commands) && id in commands
    ensures commands[id].version == 3 && commands[id].payload.owner == Some(AtomicControlOnly) ==> commands[id].payload.resultSnapshot.Some?
  {
    assert CommandRow(id, commands[id]);
  }

  // ----- one admission -----

  /** The older admission: the same answers without an owner to compare and without evidence, for control-only operations. */
  lemma AdmitDecides(t: Tables, request: Request, at: Timestamp)
    requires CommandInv(t.commands)
    ensures var id, o := request.commandId, Admit(t, request, at);
            var supported := request.operation in {Quarantine, ReleaseQuarantine, DeadLetter};
            var known := id in t.commands;
            && (o.result == Denied(IncompleteIdentity) <==> !WellFormed(request))
            && (o.result == Denied(IdentityConflict) <==> WellFormed(request) && known && t.commands[id].payload.request != request)
            && (WellFormed(request) && (known ==> t.commands[id].payload.request == request) ==>
                if !supported then o == Outcome(t, Ok(UnsupportedAtomicOperation))
                else if known then
                  o == Outcome(t, match StoredAnswer(t.commands[id])
                                  case Ok(Suspended(record)) => Ok(AdmissionSuspended(record))
                                  case Ok(Replayed(record, snapshot)) => Ok(AdmissionReplay(record, snapshot))
                                  case _ => Denied(SnapshotMissing))
                else
                  var record := ExecutingRecord(request, AtomicControlOnly, false, at);
                  o == Outcome(t.(commands := t.commands[id := Row(2, record)]), Ok(AdmittedExecuting(record))))
            && (o.result.Denied? ==> o.tables == t)
  {
    if request.commandId in t.commands {
      TerminalRow3(t.commands, request.commandId);
    }
    hide Blank, Terminal, CommandInv;
  }

  // ----- over runs: busy, then over for good -----

  /** Every claim and every admission of the command, by anyone entitled to ask, is answered with this end. */
  ghost predicate AnswersEnd(t: Tables, request: Request, record: Command, snapshot: Snapshot, evidence: Option<Evidence>, at: Timestamp) {
    && (MayClaim(t, request, AtomicControlOnly, evidence) ==>
        Claim(t, request, AtomicControlOnly, evidence, at) == Outcome(t, Ok(Replayed(record, snapshot))))
    && (WellFormed(request) ==> Admit(t, request, at) == Outcome(t, Ok(AdmissionReplay(record, snapshot))))
  }

  lemma EndedRowAnswers(t: Tables, request: Request, record: Command, evidence: Option<Evidence>, at: Timestamp)
    requires CommandInv(t.commands) && request.commandId in t.commands
    requires t.commands[request.commandId] == Row(3, record) && record.request == request
    requires record.owner == Some(AtomicControlOnly) && record.resultSnapshot.Some? && ControlOnly(request.operation)
    ensures AnswersEnd(t, request, record, record.resultSnapshot.value, evidence, at)
  {
    hide CommandInv, Claim, Admit, MayClaim, WellFormed;
    ClaimDecides(t, request, AtomicControlOnly, evidence, at);
    AdmitDecides(t, request, at);
  }

  /** An ended atomic command stays as it is, so its end is what every later question is answered with. */
  lemma EndedForGood(w: World, later: World, id: string, evidence: Option<Evidence>, at: Timestamp)
    requires Reachable(w) && Leads(w, later)
    requires id in w.t.commands && w.t.commands[id].version == 3 && w.t.commands[id].payload.owner == Some(AtomicControlOnly)
    ensures var record := w.t.commands[id].payload;
            && record.resultSnapshot.Some? && later.t.commands.Keys >= {id} && later.t.commands[id] == w.t.commands[id]
            && AnswersEnd(later.t, record.request, record, record.resultSnapshot.value, evidence, at)
  {
    hide Reachable, Leads, CommandInv, CommandsAdvance, AnswersEnd;
    LaterFacts(w, later);
    ReachableFacts(w);
    ReachableFacts(later);
    EndedRow(w.t.commands, id);
    KeptRow(w.t.commands, later.t.commands, id);
    EndedRowAnswers(later.t, w.t.commands[id].payload.request, w.t.commands[id].payload, evidence, at);
  }

  lemma EndedRow(commands: map<string, Row<Command>>, id: string)
    requires CommandInv(commands) && id in commands && commands[id].version == 3
    requires commands[id].payload.owner == Some(AtomicControlOnly)
    ensures var record := commands[id].payload;
            && commands[id] == Row(3, record) && record.request.commandId == id
            && record.resultSnapshot.Some? && ControlOnly(record.request.operation)
  {
    assert CommandRow(id, commands[id]);
  }

  lemma KeptRow(a: map<string, Row<Command>>, b: map<string, Row<Command>>, id: string)
    requires CommandsAdvance(a, b) && id in a && a[id].version == 3
    ensures id in b && b[id] == a[id]
  {
  }

  /**
   * Once an adapter commit has been accepted, the same request under its owner, with no evidence or with evidence that
   * holds, is replayed at every later state with exactly the record and the snapshot that commit stored, and nothing changes.
   */
  lemma CommittedIsReplayed(w: World, worker: nat, preparedAt: Timestamp, eventAt: Timestamp, at: Timestamp, later: World,
                            evidence: Option<Evidence>, askedAt: Timestamp)
    requires Reachable(w) && AtomicAt(w, worker).Authorized?
    requires AtomicDraft(AtomicAt(w, worker), preparedAt, eventAt).Some?
    requires Commit(w.t, AtomicDraft(AtomicAt(w, worker), preparedAt, eventAt).value, at).result.Ok?
    requires Leads(StepCommitAtomic(w, worker, preparedAt, eventAt, at), later)
    ensures var record := Commit(w.t, AtomicDraft(AtomicAt(w, worker), preparedAt, eventAt).value, at).result.value.command;
            && record.request == AtomicAt(w, worker).record.request && record.resultSnapshot.Some?
            && AnswersEnd(later.t, record.request, record, record.resultSnapshot.value, evidence, askedAt)
  {
    var n := StepCommitAtomic(w, worker, preparedAt, eventAt, at);
    var id := AtomicAt(w, worker).record.request.commandId;
    hide Reachable, Leads, Step, AnswersEnd, Commit, AtomicDraft;
    CommitStep(w, worker, preparedAt, eventAt, at);
    Reaches(w, CommitAtomic(worker, preparedAt, eventAt, at), n);
    CommittedEnd(w, worker, preparedAt, eventAt, at);
    EndedForGood(n, later, id, evidence, askedAt);
  }

  lemma CommitStep(w: World, worker: nat, preparedAt: Timestamp, eventAt: Timestamp, at: Timestamp)
    ensures Step(w, CommitAtomic(worker, preparedAt, eventAt, at)) == StepCommitAtomic(w, worker, preparedAt, eventAt, at)
  {
  }

  lemma CommittedEnd(w: World, worker: nat, preparedAt: Timestamp, eventAt: Timestamp, at: Timestamp)
    requires Reachable(w) && AtomicAt(w, worker).Authorized?
    requires AtomicDraft(AtomicAt(w, worker), preparedAt, eventAt).Some?
    requires Commit(w.t, AtomicDraft(AtomicAt(w, worker), preparedAt, eventAt).value, at).result.Ok?
    ensures var id, n := AtomicAt(w, worker).record.request.commandId, StepCommitAtomic(w, worker, preparedAt, eventAt, at).t;
            && id in n.commands && n.commands[id].version == 3
            && n.commands[id].payload == Commit(w.t, AtomicDraft(AtomicAt(w, worker), preparedAt, eventAt).value, at).result.value.command
            && n.commands[id].payload.owner == Some(AtomicControlOnly)
            && n.commands[id].payload.request == AtomicAt(w, worker).record.request
  {
    hide Reachable, Commit, AtomicDraft, WorkerInv, ReadLogged, ControlReadLogged;
    CommitStores(w, worker, preparedAt, eventAt, at);
    ReachableFacts(w);
    CommitPreservation.AuthorizedKnows(w, worker);
    CommitStepTables(w, worker, preparedAt, eventAt, at);
    StoredIdentity(w.t, Commit(w.t, AtomicDraft(AtomicAt(w, worker), preparedAt, eventAt).value, at).tables, AtomicAt(w, worker), eventAt, at);
  }

  lemma CommitStepTables(w: World, worker: nat, preparedAt: Timestamp, eventAt: Timestamp, at: Timestamp)
    requires AtomicAt(w, worker).Authorized? && AtomicDraft(AtomicAt(w, worker), preparedAt, eventAt).Some?
    requires Commit(w.t, AtomicDraft(AtomicAt(w, worker), preparedAt, eventAt).value, at).result.Ok?
    ensures StepCommitAtomic(w, worker, preparedAt, eventAt, at).t
         == Commit(w.t, AtomicDraft(AtomicAt(w, worker), preparedAt, eventAt).value, at).tables
  {
    hide Commit, AtomicDraft;
  }

  lemma StoredIdentity(t: Tables, n: Tables, a: AtomicWorker, eventAt: Timestamp, at: Timestamp)
    requires a.Authorized? && a.record.request.commandId in n.commands && StoredByCommit(t, n, a, eventAt, at)
    ensures n.commands[a.record.request.commandId].version == 3
    ensures n.commands[a.record.request.commandId].payload.request == a.record.request
    ensures n.commands[a.record.request.commandId].payload.owner == a.record.owner
  {
    hide Owed, LegalMove, TerminalOutboxId, TerminalEventId;
  }

  /** And so is a command that was ended by consuming a receipt. */
  lemma FinalizedIsReplayed(w: World, a: Action, later: World, evidence: Option<Evidence>, askedAt: Timestamp)
    requires Reachable(w) && a.Finalize?
    requires var r := ReceiptFinalizer.Finalize(w.t, a.answers, a.input, a.fault).result;
             r.Ok? && r.value.Finalized?
    requires Leads(StepFinalize(w, a.answers, a.input, a.fault), later)
    ensures var id, n := a.input.intent.command.commandId, ReceiptFinalizer.Finalize(w.t, a.answers, a.input, a.fault).tables;
            && id in n.commands && n.commands[id].payload.resultSnapshot.Some?
            && AnswersEnd(later.t, a.input.intent.command, n.commands[id].payload, n.commands[id].payload.resultSnapshot.value, evidence, askedAt)
  {
    var n := StepFinalize(w, a.answers, a.input, a.fault);
    var id := a.input.intent.command.commandId;
    hide Reachable, Leads, Step, AnswersEnd, StepFinalize, ReceiptFinalizer.Finalize;
    ReceiptTheorems.FinalizeStepReachable(w, a.answers, a.input, a.fault);
    FinalizedEnd(w, a);
    EndedForGood(n, later, id, evidence, askedAt);
  }

  lemma FinalizedEnd(w: World, a: Action)
    requires a.Finalize?
    requires var r := ReceiptFinalizer.Finalize(w.t, a.answers, a.input, a.fault).result;
             r.Ok? && r.value.Finalized?
    ensures var id, n := a.input.intent.command.commandId, StepFinalize(w, a.answers, a.input, a.fault).t;
            && n == ReceiptFinalizer.Finalize(w.t, a.answers, a.input, a.fault).tables
            && id in n.commands && n.commands[id].version == 3 && n.commands[id].payload.owner == Some(AtomicControlOnly)
            && n.commands[id].payload.request == a.input.intent.command
  {
    ReceiptTheorems.FinalizeIsAllOrNothing(w.t, a.answers, a.input, a.fault);
    ReceiptTheorems.FinalizedCommandMatches(w.t, a.answers, a.input, a.fault);
    hide ReceiptFinalizer.Finalize, ReceiptOutboxId, ReceiptEventId, FenceBound, ReceiptFinalizer.PlanMatches,
         ReceiptFinalizer.EffectMatches, ReceiptFinalizer.ReceiptMatches;
  }

  /** From the claim that won until its command is over, every further claim under the same owner is suspended with the stored record. */
  lemma BusyUntilOver(w: World, worker: nat, request: Request, owner: Owner, evidence: Option<Evidence>, at: Timestamp, later: World,
                      other: Option<Evidence>, askedAt: Timestamp)
    requires Reachable(w) && request.commandId !in w.t.commands && MayClaim(w.t, request, owner, evidence)
    requires Leads(StepClaim(w, worker, request, owner, evidence, at), later)
    requires MayClaim(later.t, request, owner, other)
    ensures var id := request.commandId;
            && id in later.t.commands && later.t.commands[id].payload.request == request
            && later.t.commands[id].version in {2, 3}
            && (later.t.commands[id].version == 2 ==>
                Claim(later.t, request, owner, other, askedAt) == Outcome(later.t, Ok(Suspended(later.t.commands[id].payload))))
  {
    var n := StepClaim(w, worker, request, owner, evidence, at);
    hide Reachable, Leads, Step, Claim, MayClaim, CommandInv, CommandsAdvance;
    ClaimStep(w, worker, request, owner, evidence, at);
    Reaches(w, ClaimCommand(worker, request, owner, evidence, at), n);
    hide StepClaim;
    WonRow(w, worker, request, owner, evidence, at);
    LaterFacts(n, later);
    ReachableFacts(later);
    StartedRow(n.t.commands, later.t.commands, request.commandId);
    if later.t.commands[request.commandId].version == 2 {
      BusyRowAnswers(later.t, request, owner, other, askedAt);
    }
  }

  lemma WonRow(w: World, worker: nat, request: Request, owner: Owner, evidence: Option<Evidence>, at: Timestamp)
    requires request.commandId !in w.t.commands && MayClaim(w.t, request, owner, evidence)
    ensures var n := StepClaim(w, worker, request, owner, evidence, at);
            && n.t.commands == w.t.commands[request.commandId := Row(2, ExecutingRecord(request, owner, evidence.Some?, at))]
            && (owner == Legacy ==> LegacyAt(n, worker) == Running(ExecutingRecord(request, owner, evidence.Some?, at)))
            && (owner == AtomicControlOnly ==>
                AtomicAt(n, worker) == Admitted(ExecutingRecord(request, owner, evidence.Some?, at), evidence))
  {
    FreshClaimWins(w.t, request, owner, evidence, at);
    hide Claim, MayClaim, ExecutingRecord;
  }

  lemma BusyRowAnswers(t: Tables, request: Request, owner: Owner, evidence: Option<Evidence>, at: Timestamp)
    requires CommandInv(t.commands) && MayClaim(t, request, owner, evidence)
    requires request.commandId in t.commands && t.commands[request.commandId].version == 2
    requires t.commands[request.commandId].payload.request == request && t.commands[request.commandId].payload.owner == Some(owner)
    ensures Claim(t, request, owner, evidence, at) == Outcome(t, Ok(Suspended(t.commands[request.commandId].payload)))
  {
    hide CommandInv, Claim, MayClaim;
    ClaimDecides(t, request, owner, evidence, at);
  }

  lemma ClaimStep(w: World, worker: nat, request: Request, owner: Owner, evidence: Option<Evidence>, at: Timestamp)
    ensures Step(w, ClaimCommand(worker, request, owner, evidence, at)) == StepClaim(w, worker, request, owner, evidence, at)
  {
  }

  lemma StartedRow(a: map<string, Row<Command>>, b: map<string, Row<Command>>, id: string)
    requires CommandsAdvance(a, b) && CommandInv(b) && id in a && a[id].version == 2
    ensures id in b && b[id].version in {2, 3}
    ensures b[id].payload.request == a[id].payload.request && b[id].payload.owner == a[id].payload.owner
  {
    assert CommandRow(id, b[id]);
  }

  // ----- the legacy store -----

  /** An update is accepted exactly for the next status of the same legacy command at the version its caller has seen. */
  lemma LegacyUpdateDecides(t: Tables, proposed: Command, expectedVersion: int)
    requires CommandInv(t.commands)
    ensures var id, o := proposed.request.commandId, LegacyUpdate(t, proposed, expectedVersion);
            && (o.result.Ok? <==>
                && id in t.commands && t.commands[id].version == expectedVersion
                && t.commands[id].payload.request == proposed.request
                && t.commands[id].payload.owner == Some(Legacy) && proposed.owner == Some(Legacy)
                && ((expectedVersion == 1 && proposed.status == Executing)
                    || (expectedVersion == 2 && proposed.status in {Succeeded, Rejected, Failed})))
            && (o.result.Ok? ==>
                && o.result.value == proposed.(version := expectedVersion + 1)
                && o.tables == t.(commands := t.commands[id := Row(expectedVersion + 1, o.result.value)]))
            && (o.result.Denied? ==> o.tables == t)
            && (o.result == Denied(VersionConflict) <==> id !in t.commands || t.commands[id].version != expectedVersion)
  {
    var id := proposed.request.commandId;
    if id in t.commands {
      assert CommandRow(id, t.commands[id]);
    }
    hide CommandInv;
  }

  // ----- what the two handlers do with a claim -----

  /** With the answer of its own claim the adapter proceeds exactly on a claim that won; a stored command is replayed or left suspended. */
  lemma AdapterProceedsIff(t: Tables, request: Request, evidence: Option<Evidence>, at: Timestamp)
    requires CommandInv(t.commands) && Claim(t, request, AtomicControlOnly, evidence, at).result.Ok?
    ensures var id, routed := request.commandId,
                              AtomicAdapter.RouteClaim(request, AtomicControlOnly, Claim(t, request, AtomicControlOnly, evidence, at).result.value);
            && (id !in t.commands ==> routed == Ok(AtomicAdapter.ProceedWith(ExecutingRecord(request, AtomicControlOnly, evidence.Some?, at))))
            && (id in t.commands && t.commands[id].version != 3 ==> routed == Ok(AtomicAdapter.SuspendClaim(t.commands[id].payload)))
            && (id in t.commands && t.commands[id].version == 3 ==>
                t.commands[id].payload.resultSnapshot.Some?
                && routed == Ok(AtomicAdapter.ReplayClaim(t.commands[id].payload, t.commands[id].payload.resultSnapshot.value)))
  {
    hide CommandInv, Claim, MayClaim;
    ClaimDecides(t, request, AtomicControlOnly, evidence, at);
    if request.commandId in t.commands {
      TerminalRow3(t.commands, request.commandId);
    }
  }

  /**
   * The unclaimed entry of the adapter. Switched off it does nothing; a command that is there at the look, or at the admission
   * after it, is answered with what is stored; only a command that is at neither is executed, from the record just admitted.
   */
  lemma UnclaimedDecides(t: Tables, enabled: bool, request: Request, decision: Decision, atAdmission: Tables, begin: Tables,
                         afterFirstRead: Tables, afterAuthorize: Tables, admittedAt: Timestamp, preparedAt: Timestamp,
                         eventAt: Timestamp, at: Timestamp)
    requires CommandInv(t.commands) && CommandInv(atAdmission.commands)
    ensures var id, supported := request.commandId, request.operation in {Quarantine, ReleaseQuarantine, DeadLetter};
            var o := AtomicAdapter.ExecuteUnclaimed(t, enabled, request, decision, atAdmission, begin, afterFirstRead, afterAuthorize,
                                                    admittedAt, preparedAt, eventAt, at);
            && (!enabled ==> o == Outcome(t, Ok(AtomicAdapter.LegacyUnchanged)))
            && (enabled && !WellFormed(request) ==> o == Outcome(t, Denied(AtomicAdapter.AdmissionRefused(IncompleteIdentity))))
            && (enabled && WellFormed(request) ==>
                if id in t.commands && t.commands[id].payload.request != request then o == Outcome(t, StoredExecution(t.commands[id], request))
                else if !supported then o == Outcome(t, Ok(AtomicAdapter.OperationUnsupported))
                else if id in t.commands then o == Outcome(t, StoredExecution(t.commands[id], request))
                else if id in atAdmission.commands then o == Outcome(atAdmission, StoredExecution(atAdmission.commands[id], request))
                else
                  var done := AtomicAdapter.ExecuteAdmitted(begin, ExecutingRecord(request, AtomicControlOnly, false, admittedAt), None, decision,
                                                            afterFirstRead, afterAuthorize, preparedAt, eventAt, at);
                  && o.tables == done.tables
                  && o.result == if done.result.Denied? then Denied(done.result.reason) else Ok(AtomicAdapter.ExecutedNow(done.result.value)))
  {
    hide CommandInv, WellFormed, AtomicAdapter.ExecuteAdmitted, AtomicAdapter.SelectRoute, AtomicAdapter.AdmitAndExecute, ExecutingRecord;
    LookWhenOff(request, LoadCommand(t, request.commandId));
    LookDecides(t, request);
    if WellFormed(request) {
      AdmissionExecutes(atAdmission, request, decision, begin, afterFirstRead, afterAuthorize, admittedAt, preparedAt, eventAt, at);
    }
  }

  lemma LookDecides(t: Tables, request: Request)
    requires CommandInv(t.commands)
    ensures AtomicAdapter.SelectRoute(true, request, LoadCommand(t, request.commandId)) ==
            if !WellFormed(request) then Denied(IncompleteIdentity)
            else if request.commandId in t.commands && t.commands[request.commandId].payload.request != request then Denied(IdentityConflict)
            else if request.operation !in {Quarantine, ReleaseQuarantine, DeadLetter} then Ok(AtomicAdapter.RefuseOperation)
            else if request.commandId !in t.commands then Ok(AtomicAdapter.AdmitNew)
            else match StoredAnswer(t.commands[request.commandId])
              case Ok(Suspended(record)) => Ok(AtomicAdapter.SuspendStored(record))
              case Ok(Replayed(record, snapshot)) => Ok(AtomicAdapter.ReplayStored(record, snapshot))
              case _ => Denied(SnapshotMissing)
  {
    if request.commandId in t.commands {
      TerminalRow3(t.commands, request.commandId);
    }
    hide CommandInv, Terminal, Blank;
  }

  lemma AdmissionExecutes(t: Tables, request: Request, decision: Decision, begin: Tables, afterFirstRead: Tables, afterAuthorize: Tables,
                          admittedAt: Timestamp, preparedAt: Timestamp, eventAt: Timestamp, at: Timestamp)
    requires CommandInv(t.commands) && WellFormed(request)
    ensures var o := AtomicAdapter.AdmitAndExecute(t, request, decision, begin, afterFirstRead, afterAuthorize, admittedAt, preparedAt,
                                                   eventAt, at);
            request.operation in {Quarantine, ReleaseQuarantine, DeadLetter} ==>
              if request.commandId in t.commands then o == Outcome(t, StoredExecution(t.commands[request.commandId], request))
              else
                var done := AtomicAdapter.ExecuteAdmitted(begin, ExecutingRecord(request, AtomicControlOnly, false, admittedAt), None, decision,
                                                          afterFirstRead, afterAuthorize, preparedAt, eventAt, at);
                && o.tables == done.tables
                && o.result == if done.result.Denied? then Denied(done.result.reason) else Ok(AtomicAdapter.ExecutedNow(done.result.value))
  {
    AdmitDecides(t, request, admittedAt);
    hide CommandInv, WellFormed, Admit, AtomicAdapter.ExecuteAdmitted, ExecutingRecord;
  }

  lemma LookWhenOff(request: Request, existing: Option<Command>)
    ensures AtomicAdapter.SelectRoute(false, request, existing) == Ok(AtomicAdapter.RunLegacy)
  {
  }

  /** How the adapter reports a stored command. */
  function StoredExecution(row: Row<Command>, request: Request): Result<AtomicAdapter.AtomicExecution, AtomicAdapter.AdapterDenial> {
    if row.payload.request != request then Denied(AtomicAdapter.AdmissionRefused(IdentityConflict))
    else
      match StoredAnswer(row)
      case Ok(Suspended(record)) => Ok(AtomicAdapter.StillInFlight(record))
      case Ok(Replayed(record, snapshot)) => Ok(AtomicAdapter.ReplayedBefore(record, snapshot))
      case _ => Denied(AtomicAdapter.AdmissionRefused(SnapshotMissing))
  }

  /** A shared claim reaches the handler of the flag exactly when it is answered for that owner, and hands on that answer. */
  lemma DispatchHandsOnTheClaim(t: Tables, atomicEnabled: bool, request: Request, evidence: Option<Evidence>, at: Timestamp)
    ensures var owner := if atomicEnabled then AtomicControlOnly else Legacy;
            var o, claimed := EntryDispatcher.DispatchClaimed(t, atomicEnabled, request, evidence, at), Claim(t, request, owner, evidence, at);
            && o.tables == claimed.tables
            && (o.result.Ok? <==> claimed.result.Ok?)
            && (o.result.Ok? ==> o.result.value == EntryDispatcher.ToHandler(owner, Some(claimed.result.value)))
            && (o.result == Denied(EntryDispatcher.AtomicUnsupported) <==>
                atomicEnabled && request.operation in {RetryRecovery, ReconcileAgain, Resume})
            && (o.result.Denied? && o.result.reason.ClaimDenied? ==> claimed.result == Denied(o.result.reason.reason))
  {
    hide Blank, AuthorityHolds, Decide;
  }

  /** Without a shared claim the flag decides, unless a guarded look finds the command under another request or another owner. */
  lemma GuardDecides(t: Tables, atomicEnabled: bool, guarded: bool, request: Request)
    ensures var id, owner := request.commandId, if atomicEnabled then AtomicControlOnly else Legacy;
            var answer := EntryDispatcher.DispatchGuarded(t, atomicEnabled, guarded, request);
            var looked := guarded && id in t.commands;
            && (answer == Denied(EntryDispatcher.IdentityRefused) <==> looked && t.commands[id].payload.request != request)
            && (answer == Denied(EntryDispatcher.RouteOwnershipConflict) <==>
                looked && t.commands[id].payload.request == request && t.commands[id].payload.owner != Some(owner))
            && (answer.Ok? <==>
                && (looked ==> t.commands[id].payload.request == request && t.commands[id].payload.owner == Some(owner))
                && (atomicEnabled ==> request.operation in {Quarantine, ReleaseQuarantine, DeadLetter}))
            && (answer.Ok? ==> answer.value == EntryDispatcher.ToHandler(owner, None))
  {
  }
}
