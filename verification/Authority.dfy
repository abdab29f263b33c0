/** Authorization evidence, and the check against the authority tables of the same file. */
module Authority {
  import opened Text
  import opened Records
  import opened Database

  predicate Revision(n: int) {
    0 <= n <= MAX_SAFE
  }

  predicate EvidenceBound(request: Request, actorId: string, tenantId: string, evidence: Evidence) {
    && evidence.allowed
    && evidence.actorId == actorId
    && evidence.tenantId == tenantId
    && evidence.actorId == request.requestedBy
    && evidence.runId == request.runId
    && evidence.operation == request.operation
    && Revision(evidence.revisions.runTenant)
    && Revision(evidence.revisions.runAcl)
    && Revision(evidence.revisions.actorGrant)
  }

  predicate RevisionsUnchanged(admitted: Revisions, current: Revisions) {
    && Revision(admitted.runTenant) && Revision(current.runTenant) && admitted.runTenant == current.runTenant
    && Revision(admitted.runAcl) && Revision(current.runAcl) && admitted.runAcl == current.runAcl
    && Revision(admitted.actorGrant) && Revision(current.actorGrant) && admitted.actorGrant == current.actorGrant
  }

  /** The rows that decide one (run, actor, tenant, operation), or None when one of them is missing. */
  datatype AuthorityFacts = AuthorityFacts(
    runTenantId: string,
    revisions: Revisions,
    grantAllowed: bool,
    permissionAllowed: bool)

  function Facts(acl: Acl, runId: string, actorId: string, tenantId: string, operation: Operation): Option<AuthorityFacts> {
    var grantKey := GrantKey(actorId, tenantId, operation);
    var permissionKey := PermissionKey(runId, actorId, operation);
    if runId in acl.runs && grantKey in acl.grants && permissionKey in acl.permissions then
      var run := acl.runs[runId];
      Some(AuthorityFacts(
             run.tenantId,
             Revisions(run.tenantRevision, run.aclRevision, acl.grants[grantKey].revision),
             acl.grants[grantKey].allowed,
             acl.permissions[permissionKey]))
    else
      None
  }

  function EvidenceFacts(acl: Acl, evidence: Evidence): Option<AuthorityFacts> {
    Facts(acl, evidence.runId, evidence.actorId, evidence.tenantId, evidence.operation)
  }

  /** The stored rows grant exactly what the evidence records, at the same three revisions. */
  predicate Granted(acl: Acl, evidence: Evidence) {
    var facts := EvidenceFacts(acl, evidence);
    && facts.Some?
    && facts.value.runTenantId == evidence.tenantId
    && facts.value.grantAllowed
    && facts.value.permissionAllowed
    && RevisionsUnchanged(evidence.revisions, facts.value.revisions)
  }

  /** The check repeated by the claim, the generic commit, the ledger and the receipt finalizer. */
  predicate AuthorityHolds(acl: Acl, request: Request, evidence: Evidence) {
    EvidenceBound(request, evidence.actorId, evidence.tenantId, evidence) && Granted(acl, evidence)
  }

  /** Spelled out on the three rows: the evidence is the caller's own, and the rows say exactly what it recorded. */
  lemma AuthorityHoldsIff(acl: Acl, request: Request, evidence: Evidence)
    ensures AuthorityHolds(acl, request, evidence) <==> RowsGrant(acl, request, evidence.tenantId, evidence)
  {
  }

  predicate RowsGrant(acl: Acl, request: Request, tenant: string, evidence: Evidence) {
    var run, actor, operation, revisions := request.runId, request.requestedBy, request.operation, evidence.revisions;
    && evidence == Evidence(actor, tenant, run, operation, true, revisions)
    && Revision(revisions.runTenant) && Revision(revisions.runAcl) && Revision(revisions.actorGrant)
    && run in acl.runs && acl.runs[run] == RunAuthority(tenant, revisions.runTenant, revisions.runAcl)
    && GrantKey(actor, tenant, operation) in acl.grants
    && acl.grants[GrantKey(actor, tenant, operation)] == Grant(revisions.actorGrant, true)
    && PermissionKey(run, actor, operation) in acl.permissions && acl.permissions[PermissionKey(run, actor, operation)]
  }

  // ----- fences -----

  predicate FenceBound(intent: Intent, fence: Fence) {
    && EvidenceBound(intent.command, intent.evidence.actorId, intent.evidence.tenantId, intent.evidence)
    && ValidId(intent.effectId) && ValidId(intent.idempotencyKey)
    && fence.commandId == intent.command.commandId
    && fence.runId == intent.command.runId
    && fence.actorId == intent.command.requestedBy
    && fence.tenantId == intent.evidence.tenantId
    && fence.owner == intent.owner
    && fence.effectId == intent.effectId
    && fence.idempotencyKey == intent.idempotencyKey
    && 1 <= fence.epoch <= MAX_SAFE
    && RevisionsUnchanged(intent.evidence.revisions, fence.revisions)
  }

  /** The fence a dispatch claim issues for an intent at an epoch. */
  function IssuedFence(intent: Intent, epoch: int): Fence {
    Fence(intent.command.commandId, intent.command.runId, intent.command.requestedBy, intent.evidence.tenantId,
          intent.owner, intent.effectId, intent.idempotencyKey, epoch, intent.evidence.revisions)
  }

  /** A bound fence is determined by its intent and epoch, and an issued fence is bound. */
  lemma BoundFenceIsIssued(intent: Intent, fence: Fence)
    ensures FenceBound(intent, fence) ==> fence == IssuedFence(intent, fence.epoch)
    ensures FenceBound(intent, fence)
       <==> && EvidenceBound(intent.command, intent.evidence.actorId, intent.evidence.tenantId, intent.evidence)
            && ValidId(intent.effectId) && ValidId(intent.idempotencyKey)
            && 1 <= fence.epoch <= MAX_SAFE
            && fence == IssuedFence(intent, fence.epoch)
  {
  }

  // ----- the discipline of the ACL writer -----

  predicate RevisionsLeq(a: Revisions, b: Revisions) {
    a.runTenant <= b.runTenant && a.runAcl <= b.runAcl && a.actorGrant <= b.actorGrant
  }

  /** Rows are never deleted, revisions never decrease, and a changed decision moves at least one revision. */
  predicate FactsAdvance(before: Option<AuthorityFacts>, after: Option<AuthorityFacts>) {
    before.Some? ==>
      && after.Some?
      && RevisionsLeq(before.value.revisions, after.value.revisions)
      && (before != after ==> before.value.revisions != after.value.revisions)
  }

  lemma FactsAdvanceTransitive(a: Option<AuthorityFacts>, b: Option<AuthorityFacts>, c: Option<AuthorityFacts>)
    requires FactsAdvance(a, b) && FactsAdvance(b, c)
    ensures FactsAdvance(a, c)
  {
  }
}
