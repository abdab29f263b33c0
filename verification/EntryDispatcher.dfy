/** Choosing the one route a command may take: by flag, never by falling back. */
module EntryDispatcher {
  import opened Text
  import opened Records
  import opened Database
  import opened Authority
  import opened CommandUnitOfWork
  import opened ControlPreparation

  datatype DispatchDenial =
    | AtomicUnsupported
    | RouteOwnershipConflict
    | ClaimDenied(reason: CommandDenial)
    | IdentityRefused

  /** The owner a dispatcher with this flag stands for. */
  function SelectedOwner(atomicEnabled: bool): Owner {
    if atomicEnabled then AtomicControlOnly else Legacy
  }

  /** What the dispatcher hands on: the route, and the claim it won or found. */
  datatype Dispatch = ToHandler(owner: Owner, claim: Option<ClaimAnswer>)

  /** With the shared claimer: the claim itself decides, in one transaction. */
  function DispatchClaimed(t: Tables, atomicEnabled: bool, request: Request, evidence: Option<Evidence>, at: Timestamp)
    : Outcome<Dispatch, DispatchDenial>
  {
    var owner := SelectedOwner(atomicEnabled);
    if atomicEnabled && !ControlOnly(request.operation) then Outcome(t, Denied(AtomicUnsupported))
    else
      var claimed := Claim(t, request, owner, evidence, at);
      if claimed.result.Denied? then Outcome(claimed.tables, Denied(ClaimDenied(claimed.result.reason)))
      else Outcome(claimed.tables, Ok(ToHandler(owner, Some(claimed.result.value))))
  }

  /** Without it: an optional look at the recorded owner, then the flag. */
  function DispatchGuarded(t: Tables, atomicEnabled: bool, guarded: bool, request: Request): Result<Dispatch, DispatchDenial> {
    var owner := SelectedOwner(atomicEnabled);
    var existing := LoadCommand(t, request.commandId);
    if guarded && existing.Some? && Decide(existing, request).Denied? then Denied(IdentityRefused)
    else if guarded && existing.Some? && existing.value.owner != Some(owner) then Denied(RouteOwnershipConflict)
    else if atomicEnabled && !ControlOnly(request.operation) then Denied(AtomicUnsupported)
    else Ok(ToHandler(owner, None))
  }

  class RecoveryEntryDispatcher {
    const file: SqliteFile
    const unitOfWork: SQLiteRecoveryFinalizationUnitOfWork
    const atomicEnabled: bool

    constructor (file: SqliteFile, unitOfWork: SQLiteRecoveryFinalizationUnitOfWork, atomicEnabled: bool)
      requires unitOfWork.file == file
      ensures this.file == file && this.unitOfWork == unitOfWork && this.atomicEnabled == atomicEnabled
    {
      this.file := file;
      this.unitOfWork := unitOfWork;
      this.atomicEnabled := atomicEnabled;
    }

    method ExecuteWithSharedClaim(request: Request, evidence: Option<Evidence>, at: Timestamp)
      returns (answer: Result<Dispatch, DispatchDenial>)
      requires unitOfWork.file == file && Schema(file.tables)
      modifies file
      ensures Outcome(file.tables, answer) == DispatchClaimed(old(file.tables), atomicEnabled, request, evidence, at)
      ensures Schema(file.tables)
    {
      if atomicEnabled {
        if !ControlOnly(request.operation) {
          return Denied(AtomicUnsupported);
        }
        var claim := unitOfWork.ClaimOwnership(request, AtomicControlOnly, evidence, at);
        return if claim.Denied? then Denied(ClaimDenied(claim.reason)) else Ok(ToHandler(AtomicControlOnly, Some(claim.value)));
      }
      var claim := unitOfWork.ClaimOwnership(request, Legacy, evidence, at);
      answer := if claim.Denied? then Denied(ClaimDenied(claim.reason)) else Ok(ToHandler(Legacy, Some(claim.value)));
    }
  }

  /**
   * A handler that is reached through the shared claim is the one that owns the stored command, which
   * is the one the flag stands for; of two dispatchers with different flags at most one ever reaches a
   * handler for a command, and a refusal leaves the tables alone instead of trying the other route.
   */
  lemma NoFallback(t: Tables, atomicEnabled: bool, request: Request, evidence: Option<Evidence>, at: Timestamp)
    ensures var outcome := DispatchClaimed(t, atomicEnabled, request, evidence, at);
            && (outcome.result.Ok? ==>
                && outcome.result.value.owner == SelectedOwner(atomicEnabled)
                && request.commandId in outcome.tables.commands
                && outcome.tables.commands[request.commandId].payload.owner == Some(SelectedOwner(atomicEnabled))
                && outcome.tables.commands[request.commandId].payload.request == request
                && (atomicEnabled ==> ControlOnly(request.operation)))
            && (outcome.result.Denied? ==> outcome.tables == t)
  {
    ClaimOwns(t, request, SelectedOwner(atomicEnabled), evidence, at);
    hide Claim;
  }

  /** A claim that is not denied leaves, or found, the command under the claimed owner. */
  lemma ClaimOwns(t: Tables, request: Request, owner: Owner, evidence: Option<Evidence>, at: Timestamp)
    ensures var claimed := Claim(t, request, owner, evidence, at);
            && (claimed.result.Denied? ==> claimed.tables == t)
            && (claimed.result.Ok? ==>
                request.commandId in claimed.tables.commands
                && claimed.tables.commands[request.commandId].payload.owner == Some(owner)
                && claimed.tables.commands[request.commandId].payload.request == request)
  {
    hide AuthorityHolds, Blank, ControlOnly, Terminal;
    if request.commandId in t.commands {
      var existing := t.commands[request.commandId].payload;
      assert Decide(Some(existing), request).Ok? ==> existing.request == request;
    } else {
      assert Decide(None, request) == Ok(AcceptNew);
    }
    hide Decide;
  }

  /** Once one flag's dispatcher has claimed a command, the other flag's is always refused and writes nothing. */
  lemma OneRoutePerCommand(t: Tables, atomicEnabled: bool, request: Request, evidence: Option<Evidence>, at: Timestamp,
                           later: Tables, otherEvidence: Option<Evidence>, otherAt: Timestamp)
    requires DispatchClaimed(t, atomicEnabled, request, evidence, at).result.Ok?
    requires var n := DispatchClaimed(t, atomicEnabled, request, evidence, at).tables;
             && request.commandId in n.commands && request.commandId in later.commands
             && later.commands[request.commandId].payload.owner == n.commands[request.commandId].payload.owner
             && later.commands[request.commandId].payload.request == n.commands[request.commandId].payload.request
    ensures var other := DispatchClaimed(later, !atomicEnabled, request, otherEvidence, otherAt);
            other.result.Denied? && other.tables == later
    ensures DispatchGuarded(later, !atomicEnabled, true, request) == Denied(RouteOwnershipConflict)
  {
    NoFallback(t, atomicEnabled, request, evidence, at);
    hide AuthorityHolds, Blank;
  }
}
