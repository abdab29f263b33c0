/** From a fresh command to its terminal receipt: the six steps, from any reachable state. */
module ReceiptPath {
  import opened Text
  import opened Records
  import opened Database
  import opened Authority
  import opened ControlPreparation
  import opened ReceiptReview
  import opened World
  import opened Invariants
  import opened Safety
  import opened ReceiptFinalizer
  import opened ReceiptTheorems
  import CommandUnitOfWork
  import EffectLedger
  import CommitPreservation

  /** Everything the actors bring: the command, its evidence, one effect, and the provider's receipt. */
  datatype Scenario = Scenario(
    worker: nat,
    request: Request,
    evidence: Evidence,
    effectId: string,
    key: string,
    dispatcherId: string,
    providerId: string,
    receipt: Receipt,
    answers: RegistryAnswers,
    nowMs: int,
    maxAgeMs: int,
    recoveryWindowSeconds: int,
    at: Timestamp)
  {
    function EffectIntent(): Intent {
      Intent(request, AtomicControlOnly, effectId, key, evidence)
    }

    function FirstFence(): Fence {
      IssuedFence(EffectIntent(), 1)
    }

    function Review(): ReviewInput {
      ReviewInput(EffectIntent(), FirstFence(), providerId, Some(receipt), nowMs, maxAgeMs)
    }

    function Plan(): ConsumptionPlan {
      ConsumeReceipt(providerId, receipt.receiptId, effectId, key, request.commandId, request.runId, 1, request.ControlVersion())
    }

    function Finalization(): FinalizeInput {
      FinalizeInput(EffectIntent(), FirstFence(), providerId, Plan(), recoveryWindowSeconds, nowMs, maxAgeMs, at)
    }

    function Started(): Command {
      CommandUnitOfWork.NewCommand(request, AtomicControlOnly, true, at).(status := Executing, version := 2)
    }

    function StoredRow(): RemoteRow {
      RemoteRow(receipt.providerId, receipt.receiptId, key, receipt)
    }
  }

  /** The command, the effect and the receipt are new, authority is granted, and the receipt passes its review. */
  ghost predicate Fresh(t: Tables, s: Scenario) {
    && s.request.Identified() && ControlOnly(s.request.operation) && s.request.commandId !in t.commands
    && AuthorityHolds(t.acl, s.request, s.evidence)
    && ValidId(s.effectId) && ValidId(s.key) && ValidId(s.dispatcherId)
    && s.effectId !in t.effects && !EffectLedger.KeyTaken(t.effects, s.key)
    && (forall e | e in t.remoteReceipts :: !SameReceipt(t.remoteReceipts[e], s.StoredRow()) && !SameProviderKey(t.remoteReceipts[e], s.StoredRow()))
    && ReviewForPersistence(s.answers, s.Review(), UnknownEffect, 1).Ok?
    && SaneClocks(s.Finalization())
  }

  /** The run stands where the command expects it, and the operation is a legal move from there. */
  ghost predicate RunAllows(t: Tables, s: Scenario) {
    var runId := s.request.runId;
    && s.request.expectedControlVersion.Some?
    && runId in t.checkpoints && t.checkpoints[runId].version == s.request.expectedCheckpointVersion
    && !t.checkpoints[runId].payload.boundary.Completed?
    && CommandUnitOfWork.ControlVersionOf(t, runId) == s.request.ControlVersion()
    && exists after :: LegalMove(s.request.operation,
                                 CurrentControl(runId, CommandUnitOfWork.StoredControl(t, runId), s.at).status, after)
  }

  // ----- the tables after each of the first five steps -----

  function Prefix(t: Tables, s: Scenario, effect: Option<Effect>, stored: bool): Tables {
    t.(commands := t.commands[s.request.commandId := Row(2, s.Started())],
       effects := if effect.Some? then t.effects[s.effectId := effect.value] else t.effects,
       remoteReceipts := if stored then t.remoteReceipts[s.effectId := s.StoredRow()] else t.remoteReceipts)
  }

  function EffectAt(s: Scenario, status: EffectStatus, epoch: int, dispatcher: Option<string>): Option<Effect> {
    Some(Effect(s.key, s.EffectIntent(), status, epoch, dispatcher))
  }

  lemma Claims(t: Tables, s: Scenario)
    requires Fresh(t, s)
    ensures CommandUnitOfWork.Claim(t, s.request, AtomicControlOnly, Some(s.evidence), s.at)
         == Outcome(Prefix(t, s, None, false), Ok(CommandUnitOfWork.ClaimedExecuting(s.Started(), Some(s.evidence))))
  {
    hide AuthorityHolds, Blank, ValidId, ReviewForPersistence, ControlOnly;
  }

  /** Authority over the effect holds from the claim on. */
  lemma HoldsAuthority(t: Tables, s: Scenario, effect: Option<Effect>, stored: bool)
    requires Fresh(t, s)
    ensures EffectLedger.CurrentAuthority(Prefix(t, s, effect, stored), s.EffectIntent())
    ensures FenceBound(s.EffectIntent(), s.FirstFence())
  {
    hide Blank, ReviewForPersistence, ControlOnly, Granted, ValidId;
  }

  lemma StagesAndLeases(t: Tables, s: Scenario)
    requires Fresh(t, s)
    ensures EffectLedger.Stage(Prefix(t, s, None, false), s.EffectIntent())
         == Outcome(Prefix(t, s, EffectAt(s, PendingEffect, 0, None), false), Ok(PendingEffect))
    ensures EffectLedger.ClaimDispatch(Prefix(t, s, EffectAt(s, PendingEffect, 0, None), false), s.effectId, s.dispatcherId)
         == Outcome(Prefix(t, s, EffectAt(s, Leased, 1, Some(s.dispatcherId)), false), Ok(EffectLedger.Claimed(s.FirstFence())))
  {
    HoldsAuthority(t, s, None, false);
    HoldsAuthority(t, s, EffectAt(s, PendingEffect, 0, None), false);
    hide EffectLedger.CurrentAuthority, ReviewForPersistence, AuthorityHolds, Blank;
    assert t.effects[s.effectId := EffectAt(s, PendingEffect, 0, None).value][s.effectId := EffectAt(s, Leased, 1, Some(s.dispatcherId)).value]
        == t.effects[s.effectId := EffectAt(s, Leased, 1, Some(s.dispatcherId)).value];
  }

  lemma BecomesUnknown(t: Tables, s: Scenario)
    ensures EffectLedger.MarkUnknown(Prefix(t, s, EffectAt(s, Leased, 1, Some(s.dispatcherId)), false), s.effectId, 1)
         == Outcome(Prefix(t, s, EffectAt(s, UnknownEffect, 1, Some(s.dispatcherId)), false), Ok(()))
  {
    assert t.effects[s.effectId := EffectAt(s, Leased, 1, Some(s.dispatcherId)).value]
                    [s.effectId := EffectAt(s, UnknownEffect, 1, Some(s.dispatcherId)).value]
        == t.effects[s.effectId := EffectAt(s, UnknownEffect, 1, Some(s.dispatcherId)).value];
  }

  /** A fresh key has no local receipt and a fresh effect no remote one, by the ledger's invariant. */
  lemma NothingStored(t: Tables, s: Scenario)
    requires LedgerHolds(t) && Fresh(t, s)
    ensures s.key !in t.sinkReceipts && s.effectId !in t.remoteReceipts && s.effectId !in t.consumptions
  {
    hide ReviewForPersistence, AuthorityHolds, Blank, ValidId, SaneClocks;
  }

  function BeforeFinalize(t: Tables, s: Scenario): Tables {
    Prefix(t, s, EffectAt(s, UnknownEffect, 1, Some(s.dispatcherId)), true)
  }

  lemma StoresTheReceipt(t: Tables, s: Scenario)
    requires LedgerHolds(t) && Fresh(t, s)
    ensures EffectLedger.Persist(Prefix(t, s, EffectAt(s, UnknownEffect, 1, Some(s.dispatcherId)), false), s.answers, s.Review())
         == Outcome(BeforeFinalize(t, s), Ok(EffectLedger.StoredNow))
  {
    NothingStored(t, s);
    HoldsAuthority(t, s, EffectAt(s, UnknownEffect, 1, Some(s.dispatcherId)), false);
    assert !EffectLedger.ReceiptClash(t.remoteReceipts, s.effectId, s.StoredRow());
    hide LedgerHolds, EffectLedger.CurrentAuthority, ReviewForPersistence, AuthorityHolds, Blank, ValidId, FenceBound,
         EffectLedger.ReceiptClash, SameReceipt, SameProviderKey, SaneClocks;
  }

  // ----- the sixth step -----

  /** The run rows carry their own identity and version, as the invariants of a reachable state say. */
  ghost predicate RunRows(t: Tables, runId: string) {
    && (runId in t.checkpoints ==>
        t.checkpoints[runId].payload.runId == runId && t.checkpoints[runId].payload.version == t.checkpoints[runId].version)
    && (runId in t.controls ==>
        t.controls[runId].payload.runId == runId && t.controls[runId].payload.version == t.controls[runId].version)
  }

  lemma RunRowsHold(w: World, runId: string)
    requires CheckpointInv(w.t.checkpoints, w.history.checkpoints)
    requires ControlInv(w.t.controls, w.history.controls, w.t.commands)
    ensures RunRows(w.t, runId)
  {
    if runId in w.t.checkpoints {
      assert CheckpointLog(runId, w.history.checkpoints[runId]);
    }
    if runId in w.t.controls {
      var log := w.history.controls[runId];
      assert ControlLog(runId, log, w.t.commands);
      assert ControlEntry(runId, log, |log| - 1, w.t.commands);
    }
    hide ControlInv, ControlLog, CheckpointInv;
  }

  /** The operation is applied exactly when the run is not completed and the move is legal. */
  lemma PreparesIff(t: Tables, s: Scenario)
    requires Fresh(t, s) && RunRows(t, s.request.runId) && s.request.runId in t.checkpoints
    requires t.checkpoints[s.request.runId].version == s.request.expectedCheckpointVersion
    requires CommandUnitOfWork.ControlVersionOf(t, s.request.runId) == s.request.ControlVersion()
    ensures var prepared := PreparedFor(BeforeFinalize(t, s), s.Finalization());
            prepared.Ok? && (prepared.value.outcome == Applied <==>
                             && !t.checkpoints[s.request.runId].payload.boundary.Completed?
                             && exists after :: LegalMove(s.request.operation,
                                  CurrentControl(s.request.runId, CommandUnitOfWork.StoredControl(t, s.request.runId), s.at).status, after))
  {
    hide ReviewForPersistence, AuthorityHolds, ValidId, Judge, LegalMove, EffectLedger.KeyTaken, Blank;
    AppliedIff(s.request, t.checkpoints[s.request.runId].payload, CommandUnitOfWork.StoredControl(t, s.request.runId),
               SAME_SQLITE_AUTHORIZED, s.at);
  }

  /** What the scenario brings passes every check that does not look at the run. */
  lemma PassesCommonChecks(t: Tables, s: Scenario)
    requires Fresh(t, s)
    ensures CommonDenial(BeforeFinalize(t, s), s.Finalization()).None? <==> s.request.expectedControlVersion.Some?
  {
    HoldsAuthority(t, s, None, true);
    ReviewAcceptsIff(s.answers, s.Review(), UnknownEffect, 1);
    hide FenceBound, ReviewForPersistence, AuthorityHolds, Blank, ValidId, EffectLedger.CurrentAuthority, EffectLedger.KeyTaken;
  }

  lemma PassesCasIff(t: Tables, s: Scenario)
    requires LedgerHolds(t) && Fresh(t, s) && CommonDenial(BeforeFinalize(t, s), s.Finalization()).None?
    ensures CasDenial(BeforeFinalize(t, s), s.answers, s.Finalization()).None? <==>
            && s.request.runId in t.checkpoints && t.checkpoints[s.request.runId].version == s.request.expectedCheckpointVersion
            && CommandUnitOfWork.ControlVersionOf(t, s.request.runId) == s.request.ControlVersion()
  {
    NothingStored(t, s);
    ReviewAcceptsIff(s.answers, s.Review(), UnknownEffect, 1);
    hide LedgerHolds, FenceBound, ReviewForPersistence, AuthorityHolds, Blank, ValidId, CommonDenial, EffectLedger.KeyTaken;
  }

  lemma ReadyToFinalizeIff(t: Tables, s: Scenario)
    requires LedgerHolds(t) && Fresh(t, s) && RunRows(t, s.request.runId)
    ensures MayFinalize(BeforeFinalize(t, s), s.answers, s.Finalization())
       <==> RunAllows(t, s) && s.answers.StaysPut()
  {
    hide LedgerHolds, Fresh, RunRows, CommonDenial, CasDenial, PreparedFor, LegalMove, CurrentControl;
    PassesCommonChecks(t, s);
    if s.request.expectedControlVersion.Some? {
      PassesCasIff(t, s);
      if CasDenial(BeforeFinalize(t, s), s.answers, s.Finalization()).None? {
        PreparesIff(t, s);
      }
    }
  }

  // ----- the path as a run -----

  /** The claim of the command. */
  function Claimed(w: World, s: Scenario): World {
    Step(w, ClaimCommand(s.worker, s.request, AtomicControlOnly, Some(s.evidence), s.at))
  }

  /** Staging, lease, unknown and the stored receipt. */
  function LastFour(w: World, s: Scenario): World {
    var w2 := Step(w, Stage(s.EffectIntent()));
    var w3 := Step(w2, ClaimEffect(s.effectId, s.dispatcherId));
    var w4 := Step(w3, MarkUnknown(s.effectId, 1));
    Step(w4, Persist(s.answers, s.Review()))
  }

  function FirstFive(w: World, s: Scenario): World {
    LastFour(Claimed(w, s), s)
  }

  lemma FirstFiveLeads(w: World, s: Scenario)
    ensures Leads(w, FirstFive(w, s))
  {
    hide Step, Leads;
    var w1 := Claimed(w, s);
    var w2 := Step(w1, Stage(s.EffectIntent()));
    var w3 := Step(w2, ClaimEffect(s.effectId, s.dispatcherId));
    var w4 := Step(w3, MarkUnknown(s.effectId, 1));
    OneStepLeads(w, ClaimCommand(s.worker, s.request, AtomicControlOnly, Some(s.evidence), s.at));
    OneStepLeads(w1, Stage(s.EffectIntent()));
    OneStepLeads(w2, ClaimEffect(s.effectId, s.dispatcherId));
    OneStepLeads(w3, MarkUnknown(s.effectId, 1));
    OneStepLeads(w4, Persist(s.answers, s.Review()));
    LeadsTransitive(w, w1, w2);
    LeadsTransitive(w, w2, w3);
    LeadsTransitive(w, w3, w4);
    LeadsTransitive(w, w4, FirstFive(w, s));
  }

  lemma ClaimStepTables(w: World, s: Scenario)
    requires var claimed := CommandUnitOfWork.Claim(w.t, s.request, AtomicControlOnly, Some(s.evidence), s.at);
             claimed.result.Ok? && claimed.result.value.ClaimedExecuting?
    ensures Step(w, ClaimCommand(s.worker, s.request, AtomicControlOnly, Some(s.evidence), s.at)).t
         == CommandUnitOfWork.Claim(w.t, s.request, AtomicControlOnly, Some(s.evidence), s.at).tables
  {
    hide CommandUnitOfWork.Claim;
  }

  lemma LedgerStepTables(w: World, s: Scenario)
    ensures Step(w, Stage(s.EffectIntent())).t == EffectLedger.Stage(w.t, s.EffectIntent()).tables
    ensures var leased := EffectLedger.ClaimDispatch(w.t, s.effectId, s.dispatcherId);
            leased.result.Ok? && leased.result.value.Claimed? ==>
              Step(w, ClaimEffect(s.effectId, s.dispatcherId)).t == leased.tables
    ensures Step(w, MarkUnknown(s.effectId, 1)).t == EffectLedger.MarkUnknown(w.t, s.effectId, 1).tables
    ensures Step(w, Persist(s.answers, s.Review())).t == EffectLedger.Persist(w.t, s.answers, s.Review()).tables
  {
    hide EffectLedger.Stage, EffectLedger.ClaimDispatch, EffectLedger.MarkUnknown, EffectLedger.Persist;
  }

  lemma ClaimedTables(w: World, s: Scenario)
    requires Fresh(w.t, s)
    ensures Claimed(w, s).t == Prefix(w.t, s, None, false)
  {
    hide Step, Fresh, Prefix, CommandUnitOfWork.Claim;
    Claims(w.t, s);
    ClaimStepTables(w, s);
  }

  lemma LastFourTables(w: World, t: Tables, s: Scenario)
    requires LedgerHolds(t) && Fresh(t, s) && w.t == Prefix(t, s, None, false)
    ensures LastFour(w, s).t == BeforeFinalize(t, s)
  {
    hide Step, LedgerHolds, Fresh, Prefix, EffectAt, EffectLedger.Stage, EffectLedger.ClaimDispatch, EffectLedger.MarkUnknown,
         EffectLedger.Persist;
    StagesAndLeases(t, s);
    LedgerStepTables(w, s);
    var w2 := Step(w, Stage(s.EffectIntent()));
    LedgerStepTables(w2, s);
    var w3 := Step(w2, ClaimEffect(s.effectId, s.dispatcherId));
    BecomesUnknown(t, s);
    LedgerStepTables(w3, s);
    StoresTheReceipt(t, s);
    LedgerStepTables(Step(w3, MarkUnknown(s.effectId, 1)), s);
  }

  lemma FirstFiveTables(w: World, s: Scenario)
    requires LedgerHolds(w.t) && Fresh(w.t, s)
    ensures FirstFive(w, s).t == BeforeFinalize(w.t, s)
  {
    hide LastFour, Claimed, LedgerHolds, Fresh, Prefix, BeforeFinalize;
    ClaimedTables(w, s);
    LastFourTables(Claimed(w, s), w.t, s);
  }

  /** The six steps on the tables `t` end in the tables `n`. */
  ghost predicate FinishedFrom(t: Tables, s: Scenario, n: Tables) {
    && n.commands.Keys == t.commands.Keys + {s.request.commandId}
    && n.commands[s.request.commandId].payload.status == Succeeded
    && n.effects == t.effects[s.effectId := Effect(s.key, s.EffectIntent(), Committed, 1, Some(s.dispatcherId))]
    && n.remoteReceipts == t.remoteReceipts[s.effectId := s.StoredRow()]
    && s.request.runId in n.controls
    && n.controls[s.request.runId].version == s.request.ControlVersion() + 1
    && LegalMove(s.request.operation,
                 CurrentControl(s.request.runId, CommandUnitOfWork.StoredControl(t, s.request.runId), s.at).status,
                 n.controls[s.request.runId].payload.status)
    && n.checkpoints == t.checkpoints && n.acl == t.acl
  }

  /**
   * No protocol state is a dead end for a fresh command: from every reachable state the five steps from
   * claim to stored receipt all succeed, and the sixth, the finalization, succeeds if and only if the run
   * allowed it before the first, the registry does not drift and no fault is injected. It then leaves
   * the command succeeded, the effect committed and the control row one version on.
   */
  lemma FreshCommandsCanFinish(w: World, s: Scenario, fault: bool)
    requires Reachable(w) && Fresh(w.t, s)
    ensures var before := FirstFive(w, s);
            var finished := ReceiptFinalizer.Finalize(before.t, s.answers, s.Finalization(), fault);
            && Leads(w, before) && Reachable(before)
            && (finished.result.Ok? <==>
                RunAllows(w.t, s) && s.answers.StaysPut() && !fault)
            && (finished.result.Ok? ==>
                && finished.result == Ok(Finalized(s.request.ControlVersion() + 1, ReceiptEventId(s.request.commandId)))
                && FinishedFrom(w.t, s, finished.tables))
  {
    hide Reachable, Leads, LedgerInv, CheckpointInv, ControlInv, Fresh, RunAllows, FirstFive, BeforeFinalize, RunRows, MayFinalize,
         ReceiptFinalizer.Finalize;
    var before := FirstFive(w, s);
    ReachableFacts(w);
    RunRowsHold(w, s.request.runId);
    FirstFiveLeads(w, s);
    FirstFiveTables(w, s);
    LeadsStaysReachable(w, before);
    NothingStored(w.t, s);
    ReadyToFinalizeIff(w.t, s);
    NotConsumedBefore(w.t, s);
    FinalizesIff(before, s.answers, s.Finalization(), fault);
    if RunAllows(w.t, s) && s.answers.StaysPut() && !fault {
      FinishedTables(w.t, s);
    }
  }

  lemma LeadsStaysReachable(w: World, n: World)
    requires Reachable(w) && Leads(w, n)
    ensures Reachable(n)
  {
    hide Leads;
    LeadsTransitive(INITIAL, w, n);
  }

  lemma NotConsumedBefore(t: Tables, s: Scenario)
    ensures BeforeFinalize(t, s).consumptions == t.consumptions
  {
  }

  lemma FinishedTables(t: Tables, s: Scenario)
    requires RunAllows(t, s) && s.effectId !in t.consumptions
    requires ReceiptFinalizer.Finalize(BeforeFinalize(t, s), s.answers, s.Finalization(), false).result.Ok?
    ensures var finished := ReceiptFinalizer.Finalize(BeforeFinalize(t, s), s.answers, s.Finalization(), false);
            && finished.result == Ok(Finalized(s.request.ControlVersion() + 1, ReceiptEventId(s.request.commandId)))
            && FinishedFrom(t, s, finished.tables)
  {
    var before := BeforeFinalize(t, s);
    hide LegalMove, Prepare;
    FinalizeIsAllOrNothing(before, s.answers, s.Finalization(), false);
    assert CommandUnitOfWork.ControlVersionOf(before, s.request.runId) == s.request.ControlVersion();
    assert before.effects[s.effectId := before.effects[s.effectId].(status := Committed)]
        == t.effects[s.effectId := Effect(s.key, s.EffectIntent(), Committed, 1, Some(s.dispatcherId))];
    hide RunAllows;
    assert before.consumptions == t.consumptions;
    FinalizedNotReplayed(before, s.answers, s.Finalization());
    FinishedRows(t, s);
    hide ReceiptFinalizer.Finalize;
  }

  /** Which command row is written, and where the control row goes. */
  lemma FinishedRows(t: Tables, s: Scenario)
    requires s.effectId !in t.consumptions
    requires ReceiptFinalizer.Finalize(BeforeFinalize(t, s), s.answers, s.Finalization(), false).result.Ok?
    ensures var n := ReceiptFinalizer.Finalize(BeforeFinalize(t, s), s.answers, s.Finalization(), false).tables;
            && n.commands.Keys == t.commands.Keys + {s.request.commandId}
            && s.request.runId in n.controls
            && LegalMove(s.request.operation,
                         CurrentControl(s.request.runId, CommandUnitOfWork.StoredControl(t, s.request.runId), s.at).status,
                         n.controls[s.request.runId].payload.status)
  {
    hide LegalMove, Judge, ReceiptFinalizer.Finalize, Blank, ReceiptMatches, EffectMatches, PlanMatches, CommandMatches, CommonDenial,
         CasDenial;
    var before := BeforeFinalize(t, s);
    FinalizedNotReplayed(before, s.answers, s.Finalization());
    CommitPreservation.FinalizedFrom(before, s.answers, s.Finalization(), false);
    AppliedIff(s.request, t.checkpoints[s.request.runId].payload, CommandUnitOfWork.StoredControl(t, s.request.runId),
               SAME_SQLITE_AUTHORIZED, s.at);
    hide Prepare;
  }

  lemma FinalizedNotReplayed(t: Tables, answers: RegistryAnswers, input: FinalizeInput)
    requires input.intent.effectId !in t.consumptions
    ensures var finished := ReceiptFinalizer.Finalize(t, answers, input, false); finished.result.Ok? ==> finished.result.value.Finalized?
  {
    hide CommonDenial, CasDenial, PreparedFor, WriteDenial;
  }

  // ----- and such scenarios exist -----

  const EXAMPLE_AT: Timestamp := Instant(0)

  const EXAMPLE_REQUEST: Request := Request("c", "r", Quarantine, "u", "", 1, Some(0))

  /** One actor may quarantine and release one run; the grant to quarantine is at this revision. */
  function ExampleAcl(revision: int, allowed: bool): Acl {
    Acl(map["r" := RunAuthority("t", 1, 1)],
        map[GrantKey("u", "t", Quarantine) := Grant(revision, allowed), GrantKey("u", "t", ReleaseQuarantine) := Grant(1, true)],
        map[PermissionKey("r", "u", Quarantine) := true, PermissionKey("r", "u", ReleaseQuarantine) := true])
  }

  function ExampleEvidence(revision: int): Evidence {
    Evidence("u", "t", "r", Quarantine, true, Revisions(1, 1, revision))
  }

  const EXAMPLE_CHECKPOINT: Checkpoint := Checkpoint("r", 0, 0, ReadyForLlm, [], None, EXAMPLE_AT)

  /** The scenario under the evidence of that revision. */
  function Example(revision: int): Scenario {
    Scenario(0, EXAMPLE_REQUEST, ExampleEvidence(revision), "e", "k", "d", "p",
             Receipt(true, "p", 1, "x", "c", "r", Quarantine, "u", "t", AtomicControlOnly, "e", "k", 1, 1),
             RegistryAnswers(true, Some(1), true, Some(Profile("p", true, true)), Some(1), Read(Some(1))), 1, 1, 1, EXAMPLE_AT)
  }

  ghost predicate ExampleTables(t: Tables, revision: int) {
    t == EMPTY_TABLES.(acl := ExampleAcl(revision, true), checkpoints := map["r" := Row(1, EXAMPLE_CHECKPOINT.(version := 1))])
  }

  lemma OneLetter(id: string)
    requires |id| == 1 && !IsSpace(id[0])
    ensures ValidId(id) && !Blank(id)
  {
    assert !IsSpace(id[0]);
  }

  lemma ExampleIsReviewed(revision: int)
    requires 0 <= revision <= 2
    ensures ReviewForPersistence(Example(revision).answers, Example(revision).Review(), UnknownEffect, 1).Ok?
    ensures Example(revision).request.Identified()
    ensures ValidId(Example(revision).effectId) && ValidId(Example(revision).key) && ValidId(Example(revision).dispatcherId)
  {
    OneLetter("c"); OneLetter("r"); OneLetter("u"); OneLetter("e"); OneLetter("k"); OneLetter("d"); OneLetter("p"); OneLetter("x");
    hide Blank, ValidId;
    ReviewAcceptsIff(Example(revision).answers, Example(revision).Review(), UnknownEffect, 1);
  }

  lemma ExampleIsFresh(t: Tables, revision: int)
    requires ExampleTables(t, revision) && 0 <= revision <= 2
    ensures Fresh(t, Example(revision))
  {
    ExampleIsReviewed(revision);
    hide ReviewForPersistence, ValidId, Blank;
    assert Granted(t.acl, ExampleEvidence(revision));
  }

  lemma ExampleRunAllows(t: Tables, revision: int)
    requires ExampleTables(t, revision)
    ensures RunAllows(t, Example(revision))
  {
    assert LegalMove(Example(revision).request.operation,
                     CurrentControl("r", CommandUnitOfWork.StoredControl(t, "r"), Example(revision).at).status, Quarantined);
  }

  /** The world in which the example begins: the grant is given and the run has a checkpoint. */
  function ExampleWorld(): World {
    Step(Step(INITIAL, ChangeAcl(ExampleAcl(1, true))), SaveRun(EXAMPLE_CHECKPOINT, 0, EXAMPLE_AT))
  }

  lemma ExampleWorldIsReachable()
    ensures Reachable(ExampleWorld()) && ExampleTables(ExampleWorld().t, 1)
  {
    var w1 := Step(INITIAL, ChangeAcl(ExampleAcl(1, true)));
    ExampleRun();
    OneStepLeads(INITIAL, ChangeAcl(ExampleAcl(1, true)));
    OneStepLeads(w1, SaveRun(EXAMPLE_CHECKPOINT, 0, EXAMPLE_AT));
    hide Step, Leads;
    LeadsTransitive(INITIAL, w1, ExampleWorld());
  }

  lemma ExampleRun()
    ensures ExampleTables(ExampleWorld().t, 1)
  {
  }

  /** Some reachable state and scenario satisfy everything the path asks for, so a receipt can end a command. */
  lemma SomeCommandFinishes()
    ensures exists w: World, s: Scenario ::
              Reachable(w) && Fresh(w.t, s) && RunAllows(w.t, s) && s.answers.StaysPut()
  {
    var w := ExampleWorld();
    ExampleWorldIsReachable();
    hide ExampleWorld, Reachable, Fresh, RunAllows;
    ExampleIsFresh(w.t, 1);
    ExampleRunAllows(w.t, 1);
    assert Reachable(w) && Fresh(w.t, Example(1)) && RunAllows(w.t, Example(1));
  }
}
