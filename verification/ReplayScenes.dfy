/** A finalization that can no longer be replayed, because another command has moved the control row. */
module ReplayScenes {
  import opened Text
  import opened Records
  import opened Database
  import opened Authority
  import opened ControlPreparation
  import opened ReceiptReview
  import opened World
  import opened Invariants
  import opened Safety
  import opened ReceiptFinalizer
  import opened ReceiptTheorems
  import opened ReceiptPath
  import CommandUnitOfWork
  import EffectLedger

  /** All six steps of a scenario. */
  function Finished(w: World, s: Scenario): World {
    StepFinalize(FirstFive(w, s), s.answers, s.Finalization(), false)
  }

  ghost predicate CanFinish(w: World, s: Scenario) {
    Fresh(w.t, s) && RunAllows(w.t, s) && s.answers.StaysPut()
  }

  lemma Finishes(w: World, s: Scenario)
    requires Reachable(w) && CanFinish(w, s)
    ensures var before := FirstFive(w, s);
            && Reachable(before) && Reachable(Finished(w, s)) && Leads(w, Finished(w, s))
            && ReceiptFinalizer.Finalize(before.t, s.answers, s.Finalization(), false).result
               == Ok(Finalized(s.request.ControlVersion() + 1, ReceiptEventId(s.request.commandId)))
            && FinishedFrom(w.t, s, Finished(w, s).t)
  {
    hide Reachable, Leads, Fresh, RunAllows, FinishedFrom, FirstFive, ReceiptFinalizer.Finalize;
    FreshCommandsCanFinish(w, s, false);
    FinalizeStepReachable(FirstFive(w, s), s.answers, s.Finalization(), false);
    FinalizeStepLeads(w, FirstFive(w, s), s);
    FinalizeStepTables(FirstFive(w, s), s, w.t);
  }

  lemma FinalizeStepTables(w: World, s: Scenario, t: Tables)
    requires var finished := ReceiptFinalizer.Finalize(w.t, s.answers, s.Finalization(), false);
             finished.result.Ok? && finished.result.value.Finalized? && FinishedFrom(t, s, finished.tables)
    ensures StepFinalize(w, s.answers, s.Finalization(), false).t
         == ReceiptFinalizer.Finalize(w.t, s.answers, s.Finalization(), false).tables
  {
    hide ReceiptFinalizer.Finalize, LegalMove;
  }

  lemma FinalizeStepLeads(u: World, w: World, s: Scenario)
    requires Leads(u, w)
    ensures Leads(u, StepFinalize(w, s.answers, s.Finalization(), false))
  {
    hide Leads, StepFinalize;
    OneStepLeads(w, Action.Finalize(s.answers, s.Finalization(), false));
    LeadsTransitive(u, w, StepFinalize(w, s.answers, s.Finalization(), false));
  }

  /** The replay is answered only until the next command of the run has moved the control row. */
  lemma NextCommandEndsReplay(w: World, s: Scenario, next: Scenario)
    requires Reachable(w) && CanFinish(w, s) && CanFinish(Finished(w, s), next) && next.request.runId == s.request.runId
    ensures var later := Finished(Finished(w, s), next);
            && Leads(Finished(w, s), later)
            && AuthorityHolds(later.t.acl, s.request, s.evidence)
            && ReceiptFinalizer.Finalize(later.t, s.answers, s.Finalization(), false) == Outcome(later.t, Denied(ReplayInconsistent))
  {
    var before, n := FirstFive(w, s), Finished(w, s);
    var later := Finished(n, next);
    Finishes(w, s);
    Finishes(n, next);
    assert AuthorityHolds(later.t.acl, s.request, s.evidence);
    assert CommandUnitOfWork.ControlVersionOf(later.t, s.request.runId) == next.request.ControlVersion() + 1;
    assert CommandUnitOfWork.ControlVersionOf(n.t, s.request.runId) == s.request.ControlVersion() + 1;
    assert next.request.ControlVersion() == s.request.ControlVersion() + 1;
    hide Reachable, Leads, FirstFive, FinishedFrom, CanFinish, ReceiptFinalizer.Finalize, AuthorityHolds, StepFinalize;
    FinalizeReplays(before, s.answers, s.Finalization(), false, later, s.answers, false);
  }

  // ----- it happens -----

  const NEXT_REQUEST: Request := Request("n", "r", ReleaseQuarantine, "u", "", 1, Some(1))

  /** The release that follows the example's quarantine. */
  const NEXT: Scenario :=
    Scenario(0, NEXT_REQUEST, Evidence("u", "t", "r", ReleaseQuarantine, true, Revisions(1, 1, 1)), "f", "l", "d", "p",
             Receipt(true, "p", 1, "y", "n", "r", ReleaseQuarantine, "u", "t", AtomicControlOnly, "f", "l", 1, 1),
             RegistryAnswers(true, Some(1), true, Some(Profile("p", true, true)), Some(1), Read(Some(1))), 1, 1, 1, EXAMPLE_AT)

  lemma NextIsReviewed()
    ensures ReviewForPersistence(NEXT.answers, NEXT.Review(), UnknownEffect, 1).Ok?
    ensures NEXT.request.Identified() && ValidId(NEXT.effectId) && ValidId(NEXT.key) && ValidId(NEXT.dispatcherId)
  {
    OneLetter("n"); OneLetter("r"); OneLetter("u"); OneLetter("f"); OneLetter("l"); OneLetter("d"); OneLetter("p"); OneLetter("y");
    hide Blank, ValidId;
    ReviewAcceptsIff(NEXT.answers, NEXT.Review(), UnknownEffect, 1);
  }

  lemma NextIsFresh(t: Tables, n: Tables)
    requires ExampleTables(t, 1) && FinishedFrom(t, Example(1), n)
    ensures Fresh(n, NEXT)
  {
    NextIsReviewed();
    hide ReviewForPersistence, ValidId, Blank, LegalMove;
    assert Granted(n.acl, NEXT.evidence);
    assert n.effects["e"].idempotencyKey == "k";
    assert forall e | e in n.effects :: e == "e";
    assert forall e | e in n.remoteReceipts :: e == "e";
  }

  lemma NextRunAllows(t: Tables, n: Tables)
    requires ExampleTables(t, 1) && FinishedFrom(t, Example(1), n)
    ensures RunAllows(n, NEXT)
  {
    assert LegalMove(NEXT.request.operation,
                     CurrentControl("r", CommandUnitOfWork.StoredControl(n, "r"), NEXT.at).status, Active);
  }

  /** `input` was finalized in `w` and is refused in `later`, although its authority still holds there. */
  ghost predicate FinalizedThenDenied(w: World, answers: RegistryAnswers, input: FinalizeInput, later: World) {
    var first := ReceiptFinalizer.Finalize(w.t, answers, input, false).result;
    && first.Ok? && first.value.Finalized?
    && Leads(StepFinalize(w, answers, input, false), later)
    && AuthorityHolds(later.t.acl, input.intent.command, input.intent.evidence)
    && ReceiptFinalizer.Finalize(later.t, answers, input, false) == Outcome(later.t, Denied(ReplayInconsistent))
  }

  /** An unconditional replay is false: another command has moved the control row in the meantime. */
  lemma ReplayIsDeniedOnceControlMoved()
    ensures exists w: World, answers: RegistryAnswers, input: FinalizeInput, later: World ::
              Reachable(w) && FinalizedThenDenied(w, answers, input, later)
  {
    var w, s := ExampleWorld(), Example(1);
    ExampleWorldIsReachable();
    hide ExampleWorld, Reachable, Leads, Fresh, RunAllows, FinishedFrom, FirstFive, StepFinalize, ReceiptFinalizer.Finalize,
         AuthorityHolds;
    ExampleIsFresh(w.t, 1);
    ExampleRunAllows(w.t, 1);
    Finishes(w, s);
    NextIsFresh(w.t, Finished(w, s).t);
    NextRunAllows(w.t, Finished(w, s).t);
    NextCommandEndsReplay(w, s, NEXT);
    var before, later, input := FirstFive(w, s), Finished(Finished(w, s), NEXT), s.Finalization();
    assert input.intent.command == s.request && input.intent.evidence == s.evidence;
    assert FinalizedThenDenied(before, s.answers, input, later);
  }
}
