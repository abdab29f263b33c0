/** The optimistic recovery loop over one checkpoint store shared by any number of writers. */
module CheckpointCoordinator {
  import opened Text
  import opened Records
  import opened RecoveryPreparation

  // ----- the store -----

  type Store = map<string, Checkpoint>

  function StoredVersion(store: Store, runId: string): int {
    if runId in store then store[runId].version else 0
  }

  /** Insert when absent and the expected version is 0, update when the version is the expected one. */
  function Save(store: Store, checkpoint: Checkpoint, expectedVersion: int, at: Timestamp): Option<Checkpoint> {
    if (if expectedVersion == 0 then checkpoint.runId !in store
        else checkpoint.runId in store && store[checkpoint.runId].version == expectedVersion)
    then Some(checkpoint.(version := expectedVersion + 1, updatedAt := at))
    else None
  }

  class TransactionalCheckpointStore {
    var rows: Store

    constructor ()
      ensures rows == map[]
    {
      rows := map[];
    }

    method SaveCheckpoint(checkpoint: Checkpoint, expectedVersion: int, at: Timestamp) returns (saved: Option<Checkpoint>)
      modifies this
      ensures saved == Save(old(rows), checkpoint, expectedVersion, at)
      ensures rows == if saved.Some? then old(rows)[checkpoint.runId := saved.value] else old(rows)
    {
      var next := checkpoint.(version := expectedVersion + 1, updatedAt := at);
      if expectedVersion == 0 {
        if next.runId in rows {
          return None;
        }
      } else if next.runId !in rows || rows[next.runId].version != expectedVersion {
        return None;
      }
      rows := rows[next.runId := next];
      saved := Some(next);
    }

    /** Other writers ran between two of our statements and left the rows as `found`. */
    method OthersRan(found: Store)
      modifies this
      ensures rows == found
    {
      rows := found;
    }
  }

  // ----- the loop -----

  /** What one iteration meets: the rows at its load, what surrounds the record, the rows at its commit. */
  datatype Turn = Turn(atLoad: Store, around: Surroundings, preparedAt: Timestamp, atCommit: Store, at: Timestamp)

  datatype RecoverError = CheckpointMissing | TooManyConflicts

  datatype Recovered = Recovered(status: PreparedStatus, checkpoint: Checkpoint, conflicts: nat, saved: bool)

  datatype LoopResult = LoopResult(rows: Store, result: Result<Recovered, RecoverError>, turnsUsed: nat)

  /** The loop from iteration `i` on, with `conflicts` conflicts so far. */
  function Recover(turns: seq<Turn>, runId: string, maxConflicts: int, conflicts: nat, i: nat): LoopResult
    requires i + Left(maxConflicts, conflicts) < |turns|
    decreases Left(maxConflicts, conflicts)
  {
    var turn := turns[i];
    if runId !in turn.atLoad then LoopResult(turn.atLoad, Denied(CheckpointMissing), i + 1)
    else
      var t := PrepareTransition(turn.atLoad[runId], turn.around, turn.preparedAt);
      if !t.shouldPersist then LoopResult(turn.atLoad, Ok(Recovered(t.status, t.next, conflicts, false)), i + 1)
      else
        var saved := Save(turn.atCommit, t.next, t.expectedVersion, turn.at);
        if saved.Some? then
          LoopResult(turn.atCommit[t.next.runId := saved.value], Ok(Recovered(t.status, saved.value, conflicts, true)), i + 1)
        else if conflicts + 1 > maxConflicts then LoopResult(turn.atCommit, Denied(TooManyConflicts), i + 1)
        else Recover(turns, runId, maxConflicts, conflicts + 1, i + 1)
  }

  class CheckpointRecoveryCoordinator {
    const store: TransactionalCheckpointStore
    const maxConflicts: int

    constructor (store: TransactionalCheckpointStore, maxConflicts: int)
      ensures this.store == store && this.maxConflicts == maxConflicts
    {
      this.store := store;
      this.maxConflicts := maxConflicts;
    }

    /** `turns` fixes what every rival does; one turn more than the allowed conflicts is always enough. */
    method RecoverRun(runId: string, turns: seq<Turn>) returns (answer: Result<Recovered, RecoverError>)
      requires Left(maxConflicts, 0) < |turns|
      modifies store
      ensures var loop := Recover(turns, runId, maxConflicts, 0, 0);
              answer == loop.result && store.rows == loop.rows
    {
      var conflicts: nat := 0;
      var i: nat := 0;
      while true
        invariant i == conflicts && (conflicts == 0 || conflicts <= maxConflicts)
        invariant Recover(turns, runId, maxConflicts, 0, 0) == Recover(turns, runId, maxConflicts, conflicts, i)
        decreases Left(maxConflicts, conflicts)
      {
        var turn := turns[i];
        store.OthersRan(turn.atLoad);
        if runId !in store.rows {
          return Denied(CheckpointMissing);
        }
        var prepared := PrepareTransition(store.rows[runId], turn.around, turn.preparedAt);
        if !prepared.shouldPersist {
          return Ok(Recovered(prepared.status, prepared.next, conflicts, false));
        }
        store.OthersRan(turn.atCommit);
        var saved := store.SaveCheckpoint(prepared.next, prepared.expectedVersion, turn.at);
        if saved.Some? {
          return Ok(Recovered(prepared.status, saved.value, conflicts, true));
        }
        conflicts := conflicts + 1;
        if conflicts > maxConflicts {
          return Denied(TooManyConflicts);
        }
        i := i + 1;
      }
    }
  }

  /** Iteration `k` lost the race: it had something to save, and at its commit the store was not at the version it had loaded. */
  predicate LostAt(turns: seq<Turn>, runId: string, k: nat)
    requires k < |turns|
  {
    var turn := turns[k];
    && runId in turn.atLoad
    && var loaded := turn.atLoad[runId];
       && PrepareTransition(loaded, turn.around, turn.preparedAt).shouldPersist
       && (if loaded.version == 0 then loaded.runId in turn.atCommit
           else loaded.runId !in turn.atCommit || turn.atCommit[loaded.runId].version != loaded.version)
  }

  /** The answer of a loop that ended in iteration `k` without an error. */
  predicate AnsweredAt(turns: seq<Turn>, runId: string, k: nat, answer: Recovered)
    requires k < |turns|
  {
    var turn := turns[k];
    && runId in turn.atLoad
    && var t := PrepareTransition(turn.atLoad[runId], turn.around, turn.preparedAt);
       && answer.status == t.status && answer.saved == t.shouldPersist
       && answer.checkpoint
          == if t.shouldPersist then t.next.(version := t.expectedVersion + 1, updatedAt := turn.at) else t.next
  }

  /** How many conflicts are still allowed. */
  function Left(maxConflicts: int, conflicts: nat): nat {
    if maxConflicts < conflicts then 0 else maxConflicts - conflicts
  }

  /**
   * The loop runs at most maxConflicts + 1 iterations, every iteration but the last lost the race, and the last decides: it
   * finds the run gone, or loses too with no conflict left, or answers the preparation of the row it loaded, saved
   * one version on. It gives up after exactly maxConflicts + 1 lost commits, and never before.
   */
  lemma {:induction false} RecoverInBrief(turns: seq<Turn>, runId: string, maxConflicts: int, conflicts: nat, i: nat)
    requires i + Left(maxConflicts, conflicts) < |turns|
    ensures var loop := Recover(turns, runId, maxConflicts, conflicts, i);
            var last := loop.turnsUsed - 1;
            && i <= last <= i + Left(maxConflicts, conflicts)
            && (forall k: nat | i <= k < last :: LostAt(turns, runId, k))
            && (loop.result == Denied(CheckpointMissing) <==> runId !in turns[last].atLoad)
            && (loop.result == Denied(TooManyConflicts) <==> LostAt(turns, runId, last))
            && (LostAt(turns, runId, last) ==> last == i + Left(maxConflicts, conflicts))
            && (loop.result.Ok? ==>
                && loop.result.value.conflicts == conflicts + (last - i)
                && AnsweredAt(turns, runId, last, loop.result.value))
            && loop.rows == (if loop.result.Ok? && loop.result.value.saved then
                               turns[last].atCommit[loop.result.value.checkpoint.runId := loop.result.value.checkpoint]
                             else if LostAt(turns, runId, last) then turns[last].atCommit else turns[last].atLoad)
    decreases Left(maxConflicts, conflicts)
  {
    hide PrepareTransition, Save;
    var turn := turns[i];
    if runId in turn.atLoad {
      var t := PrepareTransition(turn.atLoad[runId], turn.around, turn.preparedAt);
      PreparationKeepsRun(turn.atLoad[runId], turn.around, turn.preparedAt);
      SavedIs(turn.atCommit, t.next, t.expectedVersion, turn.at);
      if LostAt(turns, runId, i) && conflicts + 1 <= maxConflicts {
        hide LostAt, AnsweredAt;
        RecoverInBrief(turns, runId, maxConflicts, conflicts + 1, i + 1);
      }
    }
  }

  lemma SavedIs(store: Store, checkpoint: Checkpoint, expectedVersion: int, at: Timestamp)
    ensures var saved := Save(store, checkpoint, expectedVersion, at);
            && (saved.Some? ==> saved.value == checkpoint.(version := expectedVersion + 1, updatedAt := at))
            && (saved.None? <==>
                if expectedVersion == 0 then checkpoint.runId in store
                else checkpoint.runId !in store || store[checkpoint.runId].version != expectedVersion)
  {
  }

  lemma PreparationKeepsRun(checkpoint: Checkpoint, around: Surroundings, at: Timestamp)
    ensures var t := PrepareTransition(checkpoint, around, at);
            t.expectedVersion == checkpoint.version && t.next.runId == checkpoint.runId && t.current == checkpoint
  {
  }
}
