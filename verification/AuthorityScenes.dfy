/** Concrete disciplined runs in which authority is lost and something is still written. */
module AuthorityScenes {
  import opened Text
  import opened Records
  import opened Database
  import opened Authority
  import opened ReceiptReview
  import opened World
  import opened Invariants
  import opened Safety
  import opened AuthorityTheorems
  import opened ReceiptPath
  import CommandUnitOfWork
  import EffectLedger
  import ReceiptFinalizer
  import ReceiptTheorems

  // ----- disciplined runs, end to end -----

  ghost predicate DisciplinedLeads(u: World, w: World) {
    exists states, actions :: DisciplinedRun(states, actions) && states[0] == u && states[|actions|] == w
  }

  lemma DisciplinedJoin(s: seq<World>, a: seq<Action>, t: seq<World>, b: seq<Action>)
    requires DisciplinedRun(s, a) && DisciplinedRun(t, b) && s[|a|] == t[0]
    ensures DisciplinedRun(s + t[1..], a + b)
    ensures forall k: nat | k <= |b| :: (s + t[1..])[|a| + k] == t[k]
  {
    hide Step, Disciplined;
    RunsJoin(s, a, t, b);
    var states, actions := s + t[1..], a + b;
    forall i {:trigger actions[i]} | 0 <= i < |actions| ensures actions[i].ChangeAcl? ==> Disciplined(states[i].t.acl, actions[i].acl) {
      if i < |a| {
        assert actions[i] == a[i] && states[i] == s[i];
      } else {
        assert actions[i] == b[i - |a|] && states[i] == t[i - |a|];
      }
    }
  }

  lemma DisciplinedTransitive(u: World, v: World, w: World)
    requires DisciplinedLeads(u, v) && DisciplinedLeads(v, w)
    ensures DisciplinedLeads(u, w)
  {
    hide Step, Disciplined;
    var s, a :| DisciplinedRun(s, a) && s[0] == u && s[|a|] == v;
    var t, b :| DisciplinedRun(t, b) && t[0] == v && t[|b|] == w;
    DisciplinedJoin(s, a, t, b);
    assert (s + t[1..])[0] == u && (s + t[1..])[|a + b|] == w;
  }

  lemma DisciplinedStep(w: World, a: Action)
    requires a.ChangeAcl? ==> Disciplined(w.t.acl, a.acl)
    ensures DisciplinedLeads(w, Step(w, a))
  {
    hide Step, Disciplined;
    var states, actions := [w, Step(w, a)], [a];
    assert DisciplinedRun(states, actions);
    assert states[0] == w && states[|actions|] == Step(w, a);
  }

  lemma DisciplinedReachable(w: World)
    requires DisciplinedLeads(INITIAL, w)
    ensures Reachable(w)
  {
    hide Step, Disciplined;
    var states, actions :| DisciplinedRun(states, actions) && states[0] == INITIAL && states[|actions|] == w;
    assert IsRun(states, actions);
  }

  // ----- the ACL changes of the scenes follow the discipline -----

  lemma FirstGrantIsDisciplined()
    ensures Disciplined(INITIAL.t.acl, ExampleAcl(1, true))
  {
  }

  lemma NextGrantIsDisciplined(allowed: bool)
    ensures Disciplined(ExampleAcl(1, true), ExampleAcl(2, allowed))
  {
  }

  lemma GrantedExactlyAt(revision: int, stored: int, allowed: bool)
    requires 0 <= revision <= 2 && 0 <= stored <= 2
    ensures Granted(ExampleAcl(stored, allowed), ExampleEvidence(revision)) <==> allowed && revision == stored
  {
  }

  lemma ExampleWorldIsDisciplined()
    ensures DisciplinedLeads(INITIAL, ExampleWorld()) && ExampleTables(ExampleWorld().t, 1)
  {
    ExampleRun();
    hide Step, Disciplined, DisciplinedLeads;
    var w1 := Step(INITIAL, ChangeAcl(ExampleAcl(1, true)));
    FirstGrantIsDisciplined();
    DisciplinedStep(INITIAL, ChangeAcl(ExampleAcl(1, true)));
    DisciplinedStep(w1, SaveRun(EXAMPLE_CHECKPOINT, 0, EXAMPLE_AT));
    DisciplinedTransitive(INITIAL, w1, ExampleWorld());
  }

  // ----- an effect whose authority is revoked while it is leased -----

  /** Claimed, staged, leased and applied to the local sink. */
  function AppliedWorld(w: World, s: Scenario): World {
    var w1 := Claimed(w, s);
    var w2 := Step(w1, Stage(s.EffectIntent()));
    var w3 := Step(w2, ClaimEffect(s.effectId, s.dispatcherId));
    Step(w3, Dispatch(s.EffectIntent(), s.FirstFence()))
  }

  function AppliedTables(t: Tables, s: Scenario): Tables {
    Prefix(t, s, EffectAt(s, Leased, 1, Some(s.dispatcherId)), false)
      .(sinkReceipts := t.sinkReceipts[s.key := SinkReceipt(s.effectId, 1)])
  }

  lemma AppliedLeads(w: World, s: Scenario)
    ensures DisciplinedLeads(w, AppliedWorld(w, s))
  {
    hide Step, Disciplined, DisciplinedLeads;
    var w1 := Claimed(w, s);
    var w2 := Step(w1, Stage(s.EffectIntent()));
    var w3 := Step(w2, ClaimEffect(s.effectId, s.dispatcherId));
    DisciplinedStep(w, ClaimCommand(s.worker, s.request, AtomicControlOnly, Some(s.evidence), s.at));
    DisciplinedStep(w1, Stage(s.EffectIntent()));
    DisciplinedStep(w2, ClaimEffect(s.effectId, s.dispatcherId));
    DisciplinedStep(w3, Dispatch(s.EffectIntent(), s.FirstFence()));
    DisciplinedTransitive(w, w1, w2);
    DisciplinedTransitive(w, w2, w3);
    DisciplinedTransitive(w, w3, AppliedWorld(w, s));
  }

  lemma AppliesLocally(t: Tables, s: Scenario)
    requires ReceiptTheorems.LedgerHolds(t) && Fresh(t, s)
    ensures EffectLedger.Dispatch(Prefix(t, s, EffectAt(s, Leased, 1, Some(s.dispatcherId)), false), s.EffectIntent(), s.FirstFence())
         == Outcome(AppliedTables(t, s), Ok(EffectLedger.CommittedNow))
  {
    NothingStored(t, s);
    HoldsAuthority(t, s, EffectAt(s, Leased, 1, Some(s.dispatcherId)), false);
    assert forall k | k in t.sinkReceipts :: t.sinkReceipts[k].effectId in t.effects;
    hide ReceiptTheorems.LedgerHolds, EffectLedger.CurrentAuthority, ReviewForPersistence, AuthorityHolds, Blank, ValidId, FenceBound,
         ReceiptTheorems.SaneClocks;
  }

  lemma DispatchStepTables(w: World, intent: Intent, fence: Fence)
    ensures Step(w, Dispatch(intent, fence)).t == EffectLedger.Dispatch(w.t, intent, fence).tables
  {
    hide EffectLedger.Dispatch;
  }

  lemma AppliedWorldTables(w: World, s: Scenario)
    requires ReceiptTheorems.LedgerHolds(w.t) && Fresh(w.t, s)
    ensures AppliedWorld(w, s).t == AppliedTables(w.t, s)
  {
    hide Step, Claimed, ReceiptTheorems.LedgerHolds, Fresh, Prefix, EffectAt, EffectLedger.Stage,
         EffectLedger.ClaimDispatch, EffectLedger.Dispatch, AppliedTables;
    ClaimedTables(w, s);
    var w1 := Claimed(w, s);
    StagesAndLeases(w.t, s);
    LedgerStepTables(w1, s);
    var w2 := Step(w1, Stage(s.EffectIntent()));
    LedgerStepTables(w2, s);
    var w3 := Step(w2, ClaimEffect(s.effectId, s.dispatcherId));
    AppliesLocally(w.t, s);
    DispatchStepTables(w3, s.EffectIntent(), s.FirstFence());
  }

  /** Once applied and leased, the effect can be confirmed, marked unknown, and reconciled from there, whatever the ACL says. */
  lemma AppliedEffectCanMove(t: Tables, s: Scenario, acl: Acl)
    requires ReceiptTheorems.LedgerHolds(t) && Fresh(t, s)
    ensures var r := AppliedTables(t, s).(acl := acl);
            && UncheckedWrite(r, Confirm(s.EffectIntent(), s.FirstFence()))
            && UncheckedWrite(r, MarkUnknown(s.effectId, 1))
            && UncheckedWrite(EffectLedger.MarkUnknown(r, s.effectId, 1).tables, Reconcile(s.effectId))
  {
    NothingStored(t, s);
    HoldsAuthority(t, s, None, false);
    var r := AppliedTables(t, s).(acl := acl);
    assert s.effectId in r.effects && r.effects[s.effectId] == EffectAt(s, Leased, 1, Some(s.dispatcherId)).value;
    assert s.effectId !in r.remoteReceipts && EffectLedger.SinkApplied(r, s.key, s.effectId);
    hide ReceiptTheorems.LedgerHolds, Fresh, FenceBound, AppliedTables, Prefix, UncheckedWrite, EffectLedger.MarkUnknown;
    LeasedEffectCanMove(r, s.EffectIntent(), s.FirstFence());
  }

  lemma LeasedEffectCanMove(r: Tables, intent: Intent, fence: Fence)
    requires FenceBound(intent, fence) && intent.effectId in r.effects
    requires EffectLedger.SameIntent(r.effects[intent.effectId], intent)
    requires r.effects[intent.effectId].status == Leased && r.effects[intent.effectId].epoch == fence.epoch
    requires intent.effectId !in r.remoteReceipts && EffectLedger.SinkApplied(r, intent.idempotencyKey, intent.effectId)
    ensures UncheckedWrite(r, Confirm(intent, fence))
    ensures UncheckedWrite(r, MarkUnknown(intent.effectId, fence.epoch))
    ensures UncheckedWrite(EffectLedger.MarkUnknown(r, intent.effectId, fence.epoch).tables, Reconcile(intent.effectId))
  {
    hide FenceBound;
  }

  lemma MarkStepTables(w: World, effectId: string, epoch: int)
    ensures Step(w, MarkUnknown(effectId, epoch)).t == EffectLedger.MarkUnknown(w.t, effectId, epoch).tables
  {
    hide EffectLedger.MarkUnknown;
  }

  lemma AclStepTables(w: World, acl: Acl)
    ensures Step(w, ChangeAcl(acl)) == w.(t := w.t.(acl := acl))
  {
  }

  /** In `w` the evidence is not granted any more, and yet three steps that carry it each change a table. */
  ghost predicate WritesUnchecked(w: World, intent: Intent) {
    && !Granted(w.t.acl, intent.evidence)
    && intent.effectId in w.t.effects && w.t.effects[intent.effectId].intent == intent
    && Step(w, Confirm(intent, IssuedFence(intent, 1))).t != w.t
    && var u := Step(w, MarkUnknown(intent.effectId, 1));
       && u.t != w.t && u.t.acl == w.t.acl && Step(u, Reconcile(intent.effectId)).t != u.t
  }

  lemma RevokedWorldWrites(w: World, s: Scenario, acl: Acl)
    requires ReceiptTheorems.LedgerHolds(w.t) && Fresh(w.t, s) && !Granted(acl, s.evidence)
    ensures WritesUnchecked(Step(AppliedWorld(w, s), ChangeAcl(acl)), s.EffectIntent())
  {
    var r := Step(AppliedWorld(w, s), ChangeAcl(acl));
    AppliedWorldTables(w, s);
    AclStepTables(AppliedWorld(w, s), acl);
    AppliedEffectCanMove(w.t, s, acl);
    MarkStepTables(r, s.effectId, 1);
    assert s.effectId in r.t.effects && r.t.effects[s.effectId].intent == s.EffectIntent();
    UncheckedStep(r, Confirm(s.EffectIntent(), s.FirstFence()));
    UncheckedStep(r, MarkUnknown(s.effectId, 1));
    UncheckedStep(Step(r, MarkUnknown(s.effectId, 1)), Reconcile(s.effectId));
    hide Step, Fresh, ReceiptTheorems.LedgerHolds, UncheckedWrite, AppliedTables, AppliedWorld, Granted;
  }

  /**
   * "Once authority has changed nothing that uses it writes" is false: a disciplined run that grants,
   * claims, stages, leases, applies to the local sink and then revokes ends in a state in which
   * confirming, marking unknown and reconciling the effect all still write.
   */
  lemma RevokedAuthorityStillWrites()
    ensures exists u: World, w: World, intent: Intent ::
              && DisciplinedLeads(INITIAL, u) && Granted(u.t.acl, intent.evidence)
              && DisciplinedLeads(u, w) && WritesUnchecked(w, intent)
  {
    var w, s := ExampleWorld(), Example(1);
    ExampleWorldIsDisciplined();
    DisciplinedReachable(w);
    ReachableFacts(w);
    ExampleIsFresh(w.t, 1);
    var u := AppliedWorld(w, s);
    AppliedLeads(w, s);
    AppliedWorldTables(w, s);
    assert u.t.acl == ExampleAcl(1, true);
    var r := Step(u, ChangeAcl(ExampleAcl(2, false)));
    GrantedExactlyAt(1, 1, true);
    GrantedExactlyAt(1, 2, false);
    NextGrantIsDisciplined(false);
    hide Step, Fresh, AppliedWorld, AppliedTables, Granted, Disciplined, DisciplinedLeads, WritesUnchecked, ExampleWorld, LedgerInv,
         ExampleAcl;
    DisciplinedTransitive(INITIAL, w, u);
    DisciplinedStep(u, ChangeAcl(ExampleAcl(2, false)));
    RevokedWorldWrites(w, s, ExampleAcl(2, false));
    assert WritesUnchecked(r, s.EffectIntent());
  }

  // ----- an intent staged under a newer grant than the command was claimed with -----

  lemma LastFourLeads(w: World, s: Scenario)
    ensures DisciplinedLeads(w, LastFour(w, s))
  {
    hide Step, Disciplined, DisciplinedLeads;
    var w2 := Step(w, Stage(s.EffectIntent()));
    var w3 := Step(w2, ClaimEffect(s.effectId, s.dispatcherId));
    var w4 := Step(w3, MarkUnknown(s.effectId, 1));
    DisciplinedStep(w, Stage(s.EffectIntent()));
    DisciplinedStep(w2, ClaimEffect(s.effectId, s.dispatcherId));
    DisciplinedStep(w3, MarkUnknown(s.effectId, 1));
    DisciplinedStep(w4, Persist(s.answers, s.Review()));
    DisciplinedTransitive(w, w2, w3);
    DisciplinedTransitive(w, w3, w4);
    DisciplinedTransitive(w, w4, LastFour(w, s));
  }

  /** The example's command is claimed at grant revision 1; then the grant is renewed at revision 2. */
  function RegrantedWorld(): World {
    Step(Claimed(ExampleWorld(), Example(1)), ChangeAcl(ExampleAcl(2, true)))
  }

  function RegrantedTables(): Tables {
    ExampleWorld().t.(acl := ExampleAcl(2, true))
  }

  lemma RegrantedWorldTables()
    requires ExampleTables(ExampleWorld().t, 1)
    ensures ExampleTables(RegrantedTables(), 2)
    ensures RegrantedWorld().t == Prefix(RegrantedTables(), Example(2), None, false)
    ensures RegrantedWorld().t.acl == ExampleAcl(2, true) && Claimed(ExampleWorld(), Example(1)).t.acl == ExampleAcl(1, true)
    ensures "c" !in ExampleWorld().t.commands && "c" in Claimed(ExampleWorld(), Example(1)).t.commands
  {
    hide ExampleWorld, Claimed, Step;
    ExampleIsFresh(ExampleWorld().t, 1);
    ClaimedTables(ExampleWorld(), Example(1));
    AclStepTables(Claimed(ExampleWorld(), Example(1)), ExampleAcl(2, true));
    hide Fresh;
  }

  lemma RegrantedLeads()
    ensures var e, w := ExampleWorld(), LastFour(RegrantedWorld(), Example(2));
            DisciplinedLeads(INITIAL, e) && DisciplinedLeads(Claimed(e, Example(1)), w) && DisciplinedLeads(INITIAL, w)
  {
    var e, s := ExampleWorld(), Example(2);
    var c, r := Claimed(e, Example(1)), RegrantedWorld();
    ExampleWorldIsDisciplined();
    RegrantedWorldTables();
    hide Step, Disciplined, DisciplinedLeads, ExampleAcl, ExampleWorld, LastFour, Claimed, RegrantedWorld, RegrantedTables, Prefix,
         ExampleTables;
    LastFourLeads(r, s);
    ClaimedDisciplined(e, Example(1));
    RegrantStep(c);
    DisciplinedTransitive(c, r, LastFour(r, s));
    DisciplinedTransitive(INITIAL, e, c);
    DisciplinedTransitive(INITIAL, c, LastFour(r, s));
  }

  lemma RegrantedFinalizes()
    ensures var w, s := LastFour(RegrantedWorld(), Example(2)), Example(2);
            ReceiptFinalizer.Finalize(w.t, s.answers, s.Finalization(), false).result.Ok? && w.t.acl == ExampleAcl(2, true)
  {
    var s, t, w := Example(2), RegrantedTables(), LastFour(RegrantedWorld(), Example(2));
    RegrantedLeads();
    DisciplinedReachable(w);
    ExampleWorldIsDisciplined();
    RegrantedWorldTables();
    RegrantedLedger(t);
    hide Step, Reachable, DisciplinedLeads, ExampleAcl, ExampleWorld, LastFour, Fresh, RunAllows, ReceiptFinalizer.Finalize,
         ReceiptTheorems.MayFinalize, RegrantedWorld, BeforeFinalize, RegrantedTables, ReceiptTheorems.LedgerHolds, RunRows;
    ExampleIsFresh(t, 2);
    ExampleRunAllows(t, 2);
    LastFourTables(RegrantedWorld(), t, s);
    ReadyToFinalizeIff(t, s);
    NotConsumedBefore(t, s);
    ReceiptTheorems.FinalizesIff(w, s.answers, s.Finalization(), false);
  }

  lemma RegrantedLedger(t: Tables)
    requires ExampleTables(t, 2)
    ensures ReceiptTheorems.LedgerHolds(t) && RunRows(t, "r") && t.acl == ExampleAcl(2, true) && t.consumptions == map[]
    ensures BeforeFinalize(t, Example(2)).acl == t.acl
  {
  }

  lemma ClaimedDisciplined(w: World, s: Scenario)
    ensures DisciplinedLeads(w, Claimed(w, s))
  {
    DisciplinedStep(w, ClaimCommand(s.worker, s.request, AtomicControlOnly, Some(s.evidence), s.at));
    hide Step, DisciplinedLeads;
  }

  lemma RegrantStep(c: World)
    requires c == Claimed(ExampleWorld(), Example(1)) && c.t.acl == ExampleAcl(1, true)
    ensures DisciplinedLeads(c, RegrantedWorld())
  {
    NextGrantIsDisciplined(true);
    hide Step, Disciplined, DisciplinedLeads, Claimed;
    DisciplinedStep(c, ChangeAcl(ExampleAcl(2, true)));
  }

  /** Two steps of a disciplined run, with their states, when the stretches around them are disciplined. */
  ghost predicate TwoSteps(states: seq<World>, actions: seq<Action>, i: nat, j: nat, u: World, first: Action, w: World, second: Action) {
    && DisciplinedRun(states, actions) && states[0] == INITIAL && i < j < |actions|
    && states[i] == u && actions[i] == first && states[i + 1] == Step(u, first)
    && states[j] == w && actions[j] == second
  }

  lemma RunThroughTwoSteps(u: World, first: Action, w: World, second: Action)
    requires DisciplinedLeads(INITIAL, u) && DisciplinedLeads(Step(u, first), w) && !first.ChangeAcl? && !second.ChangeAcl?
    ensures exists states, actions, i: nat, j: nat :: TwoSteps(states, actions, i, j, u, first, w, second)
  {
    hide Step, Disciplined;
    var s, a :| DisciplinedRun(s, a) && s[0] == INITIAL && s[|a|] == u;
    var t, b :| DisciplinedRun(t, b) && t[0] == Step(u, first) && t[|b|] == w;
    hide TwoSteps;
    JoinTwoSteps(s, a, first, t, b, second);
  }

  lemma JoinTwoSteps(s: seq<World>, a: seq<Action>, first: Action, t: seq<World>, b: seq<Action>, second: Action)
    requires DisciplinedRun(s, a) && DisciplinedRun(t, b) && s[0] == INITIAL && t[0] == Step(s[|a|], first)
    requires !first.ChangeAcl? && !second.ChangeAcl?
    ensures exists states, actions, i: nat, j: nat :: TwoSteps(states, actions, i, j, s[|a|], first, t[|b|], second)
  {
    RunLengths(s, a);
    RunLengths(t, b);
    hide Step, Disciplined, DisciplinedRun;
    OneMoreStep(s, a, first);
    var s3, a3 := s + [Step(s[|a|], first)], a + [first];
    DisciplinedJoin(s3, a3, t, b);
    var s4, a4 := s3 + t[1..], a3 + b;
    assert s4[|a3| + |b|] == t[|b|];
    OneMoreStep(s4, a4, second);
    var states, actions := s4 + [Step(t[|b|], second)], a4 + [second];
    assert states[|a|] == s[|a|] && states[|a| + 1] == s3[|a| + 1] && actions[|a|] == first;
    assert states[|a4|] == t[|b|] && actions[|a4|] == second;
    assert TwoSteps(states, actions, |a|, |a4|, s[|a|], first, t[|b|], second);
  }

  lemma RunLengths(s: seq<World>, a: seq<Action>)
    requires DisciplinedRun(s, a)
    ensures |s| == |a| + 1
  {
    hide Step, Disciplined;
  }

  lemma OneMoreStep(s: seq<World>, a: seq<Action>, next: Action)
    requires DisciplinedRun(s, a) && |s| == |a| + 1 && !next.ChangeAcl?
    ensures DisciplinedRun(s + [Step(s[|a|], next)], a + [next])
  {
    hide Step, Disciplined;
    var states, actions := s + [Step(s[|a|], next)], a + [next];
    forall i {:trigger actions[i]} | 0 <= i < |actions|
      ensures states[i + 1] == Step(states[i], actions[i]) && (actions[i].ChangeAcl? ==> Disciplined(states[i].t.acl, actions[i].acl))
    {
      if i < |a| {
        assert actions[i] == a[i] && states[i] == s[i] && states[i + 1] == s[i + 1];
      }
    }
  }

  /**
   * "A finalization implies the authority of the claim throughout" is false: a disciplined run claims a
   * command, renews the grant, stages the effect under the renewed grant and finalizes it, while the
   * evidence of the claim no longer holds.
   */
  lemma FinalizedWithoutClaimedAuthority()
    ensures exists states: seq<World>, actions: seq<Action>, i: nat, j: nat, evidence: Evidence ::
              && ClaimedThenFinalized(states, actions, i, j, evidence)
              && !AuthorityHolds(states[j].t.acl, actions[j].input.intent.command, evidence)
  {
    var e, s1, s2 := ExampleWorld(), Example(1), Example(2);
    var claim := ClaimCommand(s1.worker, s1.request, AtomicControlOnly, Some(s1.evidence), s1.at);
    var finalize := Action.Finalize(s2.answers, s2.Finalization(), false);
    var w := LastFour(RegrantedWorld(), s2);
    RegrantedLeads();
    ExampleWorldIsDisciplined();
    RegrantedWorldTables();
    RegrantedFinalizes();
    GrantedExactlyAt(1, 2, true);
    assert Claimed(e, s1) == Step(e, claim);
    hide Step, DisciplinedRun, DisciplinedLeads, ExampleWorld, Claimed, LastFour, RegrantedWorld, Granted, ExampleAcl,
         ReceiptFinalizer.Finalize, RegrantedTables, Prefix, ExampleTables;
    RunThroughTwoSteps(e, claim, w, finalize);
    var states: seq<World>, actions: seq<Action>, i: nat, j: nat :| TwoSteps(states, actions, i, j, e, claim, w, finalize);
    ScenesClaimedThenFinalized(states, actions, i, j, e, claim, w, finalize, s1.evidence);
    assert !AuthorityHolds(states[j].t.acl, actions[j].input.intent.command, s1.evidence);
  }

  lemma ScenesClaimedThenFinalized(states: seq<World>, actions: seq<Action>, i: nat, j: nat, u: World, claim: Action,
                                   w: World, finalize: Action, evidence: Evidence)
    requires TwoSteps(states, actions, i, j, u, claim, w, finalize)
    requires claim.ClaimCommand? && claim.owner == AtomicControlOnly && claim.evidence == Some(evidence)
    requires finalize.Finalize? && finalize.input.intent.command == claim.request
    requires claim.request.commandId !in u.t.commands && claim.request.commandId in Step(u, claim).t.commands
    requires ReceiptFinalizer.Finalize(w.t, finalize.answers, finalize.input, finalize.fault).result.Ok?
    ensures ClaimedThenFinalized(states, actions, i, j, evidence)
    ensures states[j] == w && actions[j] == finalize
  {
    hide Step, Disciplined, ReceiptFinalizer.Finalize;
  }
}
