/** Any number of coordinators and other writers on one checkpoint store, interleaved in any way. */
module CoordinatorRuns {
  import opened Text
  import opened Records
  import opened RecoveryPreparation
  import opened CheckpointCoordinator

  /** Who wrote a version. */
  datatype Author = OtherWriter | Coordinator(worker: nat, around: Surroundings, preparedAt: Timestamp)

  datatype Entry = Entry(checkpoint: Checkpoint, author: Author)

  /**
   * A coordinator between two of its statements. `first` is the version it saw at its first load.
   */
  datatype Position =
    | Resting
    | Waiting(runId: string, conflicts: nat, first: int)
    | Loaded(runId: string, conflicts: nat, first: int, checkpoint: Checkpoint)
    | Prepared(runId: string, conflicts: nat, first: int, checkpoint: Checkpoint, around: Surroundings, preparedAt: Timestamp)

  /** `log` lists every version ever written per run; `rows` holds the last one. */
  datatype State = State(rows: Store, log: map<string, seq<Entry>>, positions: map<nat, Position>)

  function TransitionOf(p: Position): Transition
    requires p.Prepared?
  {
    PrepareTransition(p.checkpoint, p.around, p.preparedAt)
  }

  const START: State := State(map[], map[], map[])

  datatype Move =
    | Load(worker: nat, runId: string)
    | Prepare(worker: nat, around: Surroundings, at: Timestamp)
    | Commit(worker: nat, at: Timestamp)
    | OtherSave(checkpoint: Checkpoint, expectedVersion: int, at: Timestamp)
    | Stop(worker: nat)

  function LogOf(s: State, runId: string): seq<Entry> {
    if runId in s.log then s.log[runId] else []
  }

  function At(s: State, worker: nat): Position {
    if worker in s.positions then s.positions[worker] else Resting
  }

  function Saved(s: State, checkpoint: Checkpoint, author: Author): State {
    s.(rows := s.rows[checkpoint.runId := checkpoint],
       log := s.log[checkpoint.runId := LogOf(s, checkpoint.runId) + [Entry(checkpoint, author)]])
  }

  /** `maxConflicts` is the same for all coordinators here; a coordinator that gives up rests. */
  function Next(s: State, m: Move, maxConflicts: int): State {
    match m
    case Load(worker, runId) =>
      var from := At(s, worker);
      if from.Resting? && runId in s.rows then
        s.(positions := s.positions[worker := Loaded(runId, 0, s.rows[runId].version, s.rows[runId])])
      else if from.Waiting? && from.runId in s.rows then
        s.(positions := s.positions[worker := Loaded(from.runId, from.conflicts, from.first, s.rows[from.runId])])
      else s
    case Prepare(worker, around, at) =>
      var from := At(s, worker);
      if !from.Loaded? then s
      else
        s.(positions := s.positions[worker :=
             if PrepareTransition(from.checkpoint, around, at).shouldPersist then
               Prepared(from.runId, from.conflicts, from.first, from.checkpoint, around, at)
             else Resting])
    case Commit(worker, at) =>
      var from := At(s, worker);
      if !from.Prepared? then s
      else
        var saved := Save(s.rows, TransitionOf(from).next, TransitionOf(from).expectedVersion, at);
        if saved.Some? then
          Saved(s, saved.value, Coordinator(worker, from.around, from.preparedAt)).(positions := s.positions[worker := Resting])
        else
          s.(positions := s.positions[worker :=
               if from.conflicts + 1 > maxConflicts then Resting else Waiting(from.runId, from.conflicts + 1, from.first)])
    case OtherSave(checkpoint, expectedVersion, at) =>
      var saved := Save(s.rows, checkpoint, expectedVersion, at);
      if saved.Some? then Saved(s, saved.value, OtherWriter) else s
    case Stop(worker) => s.(positions := s.positions[worker := Resting])
  }

  function Run(moves: seq<Move>, maxConflicts: int): State
    decreases |moves|
  {
    if moves == [] then START else Next(Run(moves[..|moves| - 1], maxConflicts), moves[|moves| - 1], maxConflicts)
  }

  // ----- the invariant -----

  /** What a coordinator saved at `i` is its preparation of the entry before, one version on. */
  predicate PreparedFromPrevious(log: seq<Entry>, i: nat)
    requires i < |log|
  {
    log[i].author.Coordinator? ==>
      && 0 < i
      && var t := PrepareTransition(log[i - 1].checkpoint, log[i].author.around, log[i].author.preparedAt);
         && t.shouldPersist
         && log[i].checkpoint == t.next.(version := i + 1, updatedAt := log[i].checkpoint.updatedAt)
  }

  /** The entry at index `i` has version i + 1; a coordinator's entry is the preparation of the entry before it. */
  ghost predicate EntryOk(runId: string, log: seq<Entry>, i: nat)
    requires i < |log|
  {
    && log[i].checkpoint.runId == runId && log[i].checkpoint.version == i + 1
    && PreparedFromPrevious(log, i)
  }

  ghost predicate LogOk(runId: string, log: seq<Entry>) {
    forall i: nat | i < |log| :: EntryOk(runId, log, i)
  }

  ghost predicate StoreOk(s: State) {
    && (forall r :: r in s.rows <==> r in s.log)
    && (forall r | r in s.log :: |s.log[r]| > 0 && s.rows[r] == s.log[r][|s.log[r]| - 1].checkpoint && LogOk(r, s.log[r]))
  }

  predicate WrittenBy(entry: Entry, worker: nat) {
    entry.author.Coordinator? && entry.author.worker == worker
  }

  /** None of the versions after `first` is this worker's own. */
  ghost predicate OthersSince(log: seq<Entry>, first: int, worker: nat) {
    forall i: nat | first <= i < |log| :: !WrittenBy(log[i], worker)
  }

  /** Something a worker read is a version of the log, and every conflict so far moved the store at least one version. */
  ghost predicate PositionOk(s: State, worker: nat, p: Position) {
    match p
    case Resting => true
    case Waiting(runId, conflicts, first) =>
      first + conflicts <= |LogOf(s, runId)| && 1 <= first && OthersSince(LogOf(s, runId), first, worker)
    case Loaded(runId, conflicts, first, checkpoint) => ReadOk(s, worker, runId, conflicts, first, checkpoint)
    case Prepared(runId, conflicts, first, checkpoint, around, at) =>
      ReadOk(s, worker, runId, conflicts, first, checkpoint) && PrepareTransition(checkpoint, around, at).shouldPersist
  }

  ghost predicate ReadOk(s: State, worker: nat, runId: string, conflicts: nat, first: int, checkpoint: Checkpoint) {
    && 1 <= first && first + conflicts <= checkpoint.version <= |LogOf(s, runId)|
    && checkpoint.runId == runId
    && LogOf(s, runId)[checkpoint.version - 1].checkpoint == checkpoint
    && OthersSince(LogOf(s, runId), first, worker)
  }

  ghost predicate Inv(s: State) {
    StoreOk(s) && forall w | w in s.positions :: PositionOk(s, w, s.positions[w])
  }

  lemma StoredIsLast(s: State, runId: string)
    requires StoreOk(s)
    ensures StoredVersion(s.rows, runId) == |LogOf(s, runId)|
    ensures runId in s.rows ==>
        && s.rows[runId].runId == runId && 1 <= s.rows[runId].version
        && LogOf(s, runId)[s.rows[runId].version - 1].checkpoint == s.rows[runId]
  {
    if runId in s.log {
      assert EntryOk(runId, s.log[runId], |s.log[runId]| - 1);
    }
  }

  lemma AppendEntry(runId: string, log: seq<Entry>, entry: Entry)
    requires LogOk(runId, log) && EntryOk(runId, log + [entry], |log|)
    ensures LogOk(runId, log + [entry])
  {
    forall i: nat | i < |log + [entry]| ensures EntryOk(runId, log + [entry], i) {
      if i < |log| {
        assert EntryOk(runId, log, i);
      }
    }
  }

  /** A save extends the log of its run by one version; its author is at rest, so nobody else's reads are its own work. */
  lemma SavedKeepsInv(s: State, checkpoint: Checkpoint, author: Author)
    requires Inv(s)
    requires EntryOk(checkpoint.runId, LogOf(s, checkpoint.runId) + [Entry(checkpoint, author)], |LogOf(s, checkpoint.runId)|)
    requires author.Coordinator? ==> At(s, author.worker).Resting?
    ensures Inv(Saved(s, checkpoint, author))
  {
    var n := Saved(s, checkpoint, author);
    assert LogOk(checkpoint.runId, LogOf(s, checkpoint.runId));
    AppendEntry(checkpoint.runId, LogOf(s, checkpoint.runId), Entry(checkpoint, author));
    hide LogOk, EntryOk;
    forall w | w in n.positions ensures PositionOk(n, w, n.positions[w]) {
      assert PositionOk(s, w, s.positions[w]);
    }
  }

  lemma MoveWorker(s: State, worker: nat, p: Position)
    requires Inv(s) && PositionOk(s, worker, p)
    ensures Inv(s.(positions := s.positions[worker := p]))
  {
    var n := s.(positions := s.positions[worker := p]);
    hide LogOk;
    forall w | w in n.positions ensures PositionOk(n, w, n.positions[w]) {
      assert w != worker ==> PositionOk(s, w, s.positions[w]);
    }
  }

  lemma PositionOf(s: State, worker: nat)
    requires Inv(s)
    ensures PositionOk(s, worker, At(s, worker))
  {
  }

  /** A save that wins found the stored version it expected. */
  lemma SaveWins(s: State, checkpoint: Checkpoint, expectedVersion: int, at: Timestamp)
    requires StoreOk(s)
    ensures var saved := Save(s.rows, checkpoint, expectedVersion, at);
            && (saved.Some? ==> expectedVersion == |LogOf(s, checkpoint.runId)|)
            && (saved.None? && expectedVersion >= 1 ==> expectedVersion != |LogOf(s, checkpoint.runId)|)
  {
    StoredIsLast(s, checkpoint.runId);
  }

  lemma CommitKeepsInv(s: State, worker: nat, at: Timestamp, maxConflicts: int)
    requires Inv(s)
    ensures Inv(Next(s, Commit(worker, at), maxConflicts))
  {
    var from := At(s, worker);
    PositionOf(s, worker);
    if from.Prepared? {
      var t, author := TransitionOf(from), Coordinator(worker, from.around, from.preparedAt);
      PreparationKeepsRun(from.checkpoint, from.around, from.preparedAt);
      hide PrepareTransition;
      var saved := Save(s.rows, t.next, t.expectedVersion, at);
      SaveWins(s, t.next, t.expectedVersion, at);
      if saved.Some? {
        MoveWorker(s, worker, Resting);
        SavedKeepsInv(s.(positions := s.positions[worker := Resting]), saved.value, author);
      } else if from.conflicts + 1 > maxConflicts {
        MoveWorker(s, worker, Resting);
      } else {
        MoveWorker(s, worker, Waiting(from.runId, from.conflicts + 1, from.first));
      }
    }
  }

  lemma OtherSaveKeepsInv(s: State, checkpoint: Checkpoint, expectedVersion: int, at: Timestamp, maxConflicts: int)
    requires Inv(s)
    ensures Inv(Next(s, OtherSave(checkpoint, expectedVersion, at), maxConflicts))
  {
    var saved := Save(s.rows, checkpoint, expectedVersion, at);
    SaveWins(s, checkpoint, expectedVersion, at);
    if saved.Some? {
      SavedKeepsInv(s, saved.value, OtherWriter);
    }
  }

  lemma LoadKeepsInv(s: State, worker: nat, runId: string, maxConflicts: int)
    requires Inv(s)
    ensures Inv(Next(s, Load(worker, runId), maxConflicts))
  {
    var from := At(s, worker);
    PositionOf(s, worker);
    if from.Resting? && runId in s.rows {
      StoredIsLast(s, runId);
      MoveWorker(s, worker, Loaded(runId, 0, s.rows[runId].version, s.rows[runId]));
    } else if from.Waiting? && from.runId in s.rows {
      StoredIsLast(s, from.runId);
      MoveWorker(s, worker, Loaded(from.runId, from.conflicts, from.first, s.rows[from.runId]));
    }
  }

  lemma PrepareKeepsInv(s: State, worker: nat, around: Surroundings, at: Timestamp, maxConflicts: int)
    requires Inv(s)
    ensures Inv(Next(s, Prepare(worker, around, at), maxConflicts))
  {
    var from := At(s, worker);
    PositionOf(s, worker);
    if from.Loaded? {
      hide PrepareTransition;
      MoveWorker(s, worker, At(Next(s, Prepare(worker, around, at), maxConflicts), worker));
    }
  }

  lemma NextKeepsInv(s: State, m: Move, maxConflicts: int)
    requires Inv(s)
    ensures Inv(Next(s, m, maxConflicts))
  {
    hide Inv;
    match m
    case Load(worker, runId) => LoadKeepsInv(s, worker, runId, maxConflicts);
    case Prepare(worker, around, at) => PrepareKeepsInv(s, worker, around, at, maxConflicts);
    case Commit(worker, at) => CommitKeepsInv(s, worker, at, maxConflicts);
    case OtherSave(checkpoint, expectedVersion, at) => OtherSaveKeepsInv(s, checkpoint, expectedVersion, at, maxConflicts);
    case Stop(worker) => MoveWorker(s, worker, Resting);
  }

  lemma {:induction false} RunKeepsInv(moves: seq<Move>, maxConflicts: int)
    ensures Inv(Run(moves, maxConflicts))
    decreases |moves|
  {
    hide Next;
    if moves == [] {
    } else {
      hide Inv;
      RunKeepsInv(moves[..|moves| - 1], maxConflicts);
      NextKeepsInv(Run(moves[..|moves| - 1], maxConflicts), moves[|moves| - 1], maxConflicts);
    }
  }

  // ----- the theorems -----

  /**
   * Under every interleaving each version of a run is written by one commit, and what a coordinator
   * saved is its preparation of the immediately preceding version.
   */
  lemma VersionsAreLinear(moves: seq<Move>, maxConflicts: int, runId: string)
    ensures var s := Run(moves, maxConflicts);
            var log := LogOf(s, runId);
            && StoredVersion(s.rows, runId) == |log|
            && (forall i: nat | i < |log| :: log[i].checkpoint.version == i + 1)
            && (forall i: nat | i < |log| :: PreparedFromPrevious(log, i))
  {
    RunKeepsInv(moves, maxConflicts);
    hide Run;
    var s := Run(moves, maxConflicts);
    StoredIsLast(s, runId);
    if runId in s.log {
      EntriesOf(runId, s.log[runId]);
    }
  }

  lemma EntriesOf(runId: string, log: seq<Entry>)
    requires LogOk(runId, log)
    ensures forall i: nat | i < |log| :: log[i].checkpoint.version == i + 1
    ensures forall i: nat | i < |log| :: PreparedFromPrevious(log, i)
  {
    forall i: nat | i < |log|
      ensures log[i].checkpoint.version == i + 1 && PreparedFromPrevious(log, i)
    {
      assert EntryOk(runId, log, i);
    }
  }

  /**
   * Every conflict witnesses a rival: a coordinator that has lost `conflicts` times has seen at least
   * that many versions since its first load, none of them its own, and never lost more often than allowed.
   */
  lemma ConflictsWitnessRivals(moves: seq<Move>, maxConflicts: int, worker: nat)
    ensures var s := Run(moves, maxConflicts);
            var p := At(s, worker);
            !p.Resting? ==>
              && 1 <= p.first && p.first + p.conflicts <= |LogOf(s, p.runId)|
              && OthersSince(LogOf(s, p.runId), p.first, worker)
              && (p.conflicts == 0 || p.conflicts <= maxConflicts)
  {
    RunKeepsInv(moves, maxConflicts);
    ConflictsBounded(moves, maxConflicts, worker);
    hide Run;
    PositionOf(Run(moves, maxConflicts), worker);
  }

  lemma {:induction false} ConflictsBounded(moves: seq<Move>, maxConflicts: int, worker: nat)
    ensures var p := At(Run(moves, maxConflicts), worker);
            !p.Resting? ==> p.conflicts == 0 || p.conflicts <= maxConflicts
    decreases |moves|
  {
    hide PrepareTransition, Save;
    if moves != [] {
      ConflictsBounded(moves[..|moves| - 1], maxConflicts, worker);
    }
  }

  /**
   * A commit is lost if and only if the store has moved past the version that was loaded, and then
   * every version after it was written by somebody else, from that version on.
   */
  lemma LostCommitHasWinner(moves: seq<Move>, maxConflicts: int, worker: nat, at: Timestamp)
    requires At(Run(moves, maxConflicts), worker).Prepared?
    ensures var s := Run(moves, maxConflicts);
            var p := At(s, worker);
            var log := LogOf(s, p.runId);
            && 1 <= p.checkpoint.version <= |log| && log[p.checkpoint.version - 1].checkpoint == p.checkpoint
            && OthersSince(log, p.checkpoint.version, worker)
            && (Save(s.rows, TransitionOf(p).next, p.checkpoint.version, at).None? <==> p.checkpoint.version < |log|)
  {
    RunKeepsInv(moves, maxConflicts);
    hide Run;
    var s := Run(moves, maxConflicts);
    PositionOf(s, worker);
    PreparationKeepsRun(At(s, worker).checkpoint, At(s, worker).around, At(s, worker).preparedAt);
    hide PrepareTransition;
    SaveWins(s, TransitionOf(At(s, worker)).next, At(s, worker).checkpoint.version, at);
  }

  /** One iteration of the coordinator's loop is a load, a preparation and a commit here, with any rivals before the commit. */
  lemma TurnIsThreeMoves(s: State, found: State, worker: nat, runId: string, conflicts: nat, turn: Turn, maxConflicts: int)
    requires s.rows == turn.atLoad && runId in turn.atLoad
    requires (conflicts == 0 && At(s, worker).Resting?)
          || (At(s, worker).Waiting? && At(s, worker).runId == runId && At(s, worker).conflicts == conflicts)
    requires found.rows == turn.atCommit
    requires At(found, worker)
          == At(Next(Next(s, Load(worker, runId), maxConflicts), Prepare(worker, turn.around, turn.preparedAt), maxConflicts), worker)
    ensures var lost := LostAt([turn], runId, 0);
            var t, n := PrepareTransition(turn.atLoad[runId], turn.around, turn.preparedAt), Next(found, Commit(worker, turn.at), maxConflicts);
            && (At(found, worker).Prepared? <==> t.shouldPersist)
            && (lost ==> n.rows == found.rows && n.log == found.log)
            && (lost ==> (At(n, worker).Resting? <==> conflicts + 1 > maxConflicts))
            && (lost && conflicts + 1 <= maxConflicts ==>
                At(n, worker).Waiting? && At(n, worker).runId == runId && At(n, worker).conflicts == conflicts + 1)
            && (!lost && t.shouldPersist ==>
                && At(n, worker).Resting?
                && n.rows == found.rows[t.next.runId := t.next.(version := t.expectedVersion + 1, updatedAt := turn.at)])
  {
    var t := PrepareTransition(turn.atLoad[runId], turn.around, turn.preparedAt);
    PreparationKeepsRun(turn.atLoad[runId], turn.around, turn.preparedAt);
    SavedIs(turn.atCommit, t.next, t.expectedVersion, turn.at);
    hide PrepareTransition, CheckpointCoordinator.Save;
  }
}
