/** The in-memory command store, and the executor that runs a handler at most once per command. */
module CommandStore {
  import opened Text
  import opened Records

  type Store = map<string, Command>

  function VersionOf(records: Store, id: string): int {
    if id in records then records[id].version else 0
  }

  class InMemoryRecoveryCommandStore {
    var records: Store

    constructor ()
      ensures records == map[]
    {
      records := map[];
    }

    method InsertIfAbsent(record: Command) returns (inserted: bool)
      modifies this
      ensures inserted == (record.request.commandId !in old(records))
      ensures records == if inserted then old(records)[record.request.commandId := record.(version := 1)] else old(records)
    {
      if record.request.commandId in records {
        return false;
      }
      records := records[record.request.commandId := record.(version := 1)];
      inserted := true;
    }

    method UpdateIfVersion(record: Command, expectedVersion: int) returns (saved: Option<Command>)
      modifies this
      ensures saved.Some? <==> VersionOf(old(records), record.request.commandId) == expectedVersion
      ensures saved.Some? ==> saved.value == record.(version := expectedVersion + 1)
      ensures records == if saved.Some? then old(records)[record.request.commandId := saved.value] else old(records)
    {
      var actual := 0;
      if record.request.commandId in records {
        actual := records[record.request.commandId].version;
      }
      if actual != expectedVersion {
        return None;
      }
      records := records[record.request.commandId := record.(version := actual + 1)];
      saved := Some(record.(version := actual + 1));
    }

    /** Other executors ran between two of our statements. */
    method OthersRan(found: Store)
      modifies this
      ensures records == found
    {
      records := found;
    }
  }

  datatype OnceAnswer =
    | ReturnedExisting(record: Command)
    | Ran(record: Command)
    | HandlerThrew
    | TerminalCasLost
    | RecordMissing

  /** How the handler ended: with a result, or by throwing an error with this message. */
  datatype HandlerEnd = Returned(reason: ResultReason) | Threw(reason: ResultReason)

  function StartDraft(record: Command, at: Timestamp): Command {
    record.(status := Executing, updatedAt := at)
  }

  function EndDraft(record: Command, end: HandlerEnd, at: Timestamp): Command {
    record.(status := if end.Returned? then Succeeded else Failed, resultReason := Some(end.reason), updatedAt := at)
  }

  /** A record stored by compare-and-set. */
  function Updated(records: Store, record: Command, expectedVersion: int): Store {
    if VersionOf(records, record.request.commandId) == expectedVersion then
      records[record.request.commandId := record.(version := expectedVersion + 1)]
    else records
  }

  datatype Once = Once(records: Store, answer: OnceAnswer, invoked: bool)

  /** What the rivals left before each statement after the insert. */
  datatype Rivals = Rivals(atLoad: Store, atStart: Store, atReload: Store, atEnd: Store)

  /** The record a call starts, if it gets so far; `inserted` says whether its own insert won. */
  predicate MayStart(id: string, inserted: bool, rivals: Rivals) {
    && id in rivals.atLoad
    && (inserted || rivals.atLoad[id].status == Accepted)
    && VersionOf(rivals.atStart, rivals.atLoad[id].request.commandId) == rivals.atLoad[id].version
  }

  function RunOnce(records: Store, record: Command, rivals: Rivals, end: HandlerEnd, at: Timestamp): Once {
    var id := record.request.commandId;
    var inserted := id !in records;
    if id !in rivals.atLoad then Once(rivals.atLoad, RecordMissing, false)
    else
      var current := rivals.atLoad[id];
      if !inserted && current.status != Accepted then Once(rivals.atLoad, ReturnedExisting(current), false)
      else if !MayStart(id, inserted, rivals) then
        Once(rivals.atReload, if id in rivals.atReload then ReturnedExisting(rivals.atReload[id]) else RecordMissing, false)
      else
        var started := StartDraft(current, at).(version := current.version + 1);
        Once(Updated(rivals.atEnd, EndDraft(started, end, at), started.version), EndAnswer(rivals.atEnd, started, end, at), true)
  }

  function EndAnswer(records: Store, started: Command, end: HandlerEnd, at: Timestamp): OnceAnswer {
    if VersionOf(records, started.request.commandId) != started.version then TerminalCasLost
    else if end.Returned? then Ran(EndDraft(started, end, at).(version := started.version + 1))
    else HandlerThrew
  }

  class DurableRecoveryCommandExecutor {
    const store: InMemoryRecoveryCommandStore

    constructor (store: InMemoryRecoveryCommandStore)
      ensures this.store == store
    {
      this.store := store;
    }

    /**
     * Insert, load, compare-and-set to executing, handler, compare-and-set to the end. `end` is what the
     * handler does if it is called, and `invoked` says whether it was.
     */
    method ExecuteOnce(record: Command, rivals: Rivals, end: HandlerEnd, at: Timestamp) returns (answer: OnceAnswer, invoked: bool)
      modifies store
      ensures Once(store.records, answer, invoked) == RunOnce(old(store.records), record, rivals, end, at)
      ensures invoked <==> MayStart(record.request.commandId, record.request.commandId !in old(store.records), rivals)
    {
      var id := record.request.commandId;
      var inserted := store.InsertIfAbsent(record);
      store.OthersRan(rivals.atLoad);
      if id !in store.records {
        return RecordMissing, false;
      }
      var current := store.records[id];
      if !inserted && current.status != Accepted {
        return ReturnedExisting(current), false;
      }
      store.OthersRan(rivals.atStart);
      var started := store.UpdateIfVersion(current.(status := Executing, updatedAt := at), current.version);
      if started.None? {
        store.OthersRan(rivals.atReload);
        if id !in store.records {
          return RecordMissing, false;
        }
        return ReturnedExisting(store.records[id]), false;
      }
      invoked := true;
      store.OthersRan(rivals.atEnd);
      answer := RecordEnd(started.value, end, at);
    }

    /** The last compare-and-set, after the handler. */
    method RecordEnd(started: Command, end: HandlerEnd, at: Timestamp) returns (answer: OnceAnswer)
      modifies store
      ensures store.records == Updated(old(store.records), EndDraft(started, end, at), started.version)
      ensures answer == EndAnswer(old(store.records), started, end, at)
    {
      if end.Threw? {
        var failed := store.UpdateIfVersion(started.(status := Failed, resultReason := Some(end.reason), updatedAt := at),
                                            started.version);
        return if failed.Some? then HandlerThrew else TerminalCasLost;
      }
      var saved := store.UpdateIfVersion(started.(status := Succeeded, resultReason := Some(end.reason), updatedAt := at),
                                         started.version);
      answer := if saved.Some? then Ran(saved.value) else TerminalCasLost;
    }
  }

  /**
   * What one call comes to. If it starts the command, the handler's end is recorded two versions on, as succeeded exactly when
   * the handler returned and with its reason, unless somebody else has changed the record since: then nothing is
   * recorded and the call says so. If it does not start it, it reports the record it finds and calls no handler.
   */
  lemma OnceDecides(records: Store, record: Command, rivals: Rivals, end: HandlerEnd, at: Timestamp)
    requires forall id | id in rivals.atLoad :: rivals.atLoad[id].request.commandId == id
    ensures var id, once := record.request.commandId, RunOnce(records, record, rivals, end, at);
            var found := id in rivals.atLoad && (id !in records || rivals.atLoad[id].status == Accepted);
            && (once.invoked <==> found && VersionOf(rivals.atStart, id) == rivals.atLoad[id].version)
            && (once.invoked ==>
                var version := rivals.atLoad[id].version;
                var ended := rivals.atLoad[id].(status := if end.Returned? then Succeeded else Failed, version := version + 2,
                                                updatedAt := at, resultReason := Some(end.reason));
                if VersionOf(rivals.atEnd, id) != version + 1 then once.records == rivals.atEnd && once.answer == TerminalCasLost
                else once.records == rivals.atEnd[id := ended] && once.answer == (if end.Returned? then Ran(ended) else HandlerThrew))
            && (!once.invoked ==>
                var seen := if found then rivals.atReload else rivals.atLoad;
                once.records == seen && once.answer == if id in seen then ReturnedExisting(seen[id]) else RecordMissing)
  {
  }

  // ----- any number of executors on one store -----

  /** Where one call stands; `mine` says whether its insert won. */
  datatype Position =
    | Outside
    | Loading(id: string, mine: bool)
    | Starting(record: Command)
    | Calling(record: Command)
    | Ending(record: Command, end: HandlerEnd)

  /**
   * `started` and `invoked` list the command ids of the successful starts and of the handler calls, and
   * `versions` the version of the record that each start found.
   */
  datatype State = State(records: Store, positions: map<nat, Position>, started: seq<string>, versions: seq<int>, invoked: seq<string>)

  const START: State := State(map[], map[], [], [], [])

  datatype Move =
    | Enter(caller: nat, record: Command)
    | Load(caller: nat)
    | Start(caller: nat, at: Timestamp)
    | Call(caller: nat, end: HandlerEnd)
    | End(caller: nat, at: Timestamp)
    | Leave(caller: nat)

  function At(s: State, caller: nat): Position {
    if caller in s.positions then s.positions[caller] else Outside
  }

  function Put(s: State, caller: nat, p: Position): State {
    s.(positions := s.positions[caller := p])
  }

  function Next(s: State, m: Move): State {
    match m
    case Enter(caller, record) =>
      var id := record.request.commandId;
      if !At(s, caller).Outside? then s
      else if id in s.records then Put(s, caller, Loading(id, false))
      else Put(s.(records := s.records[id := record.(version := 1)]), caller, Loading(id, true))
    case Load(caller) =>
      var p := At(s, caller);
      if !p.Loading? || p.id !in s.records then s
      else if !p.mine && s.records[p.id].status != Accepted then Put(s, caller, Outside)
      else Put(s, caller, Starting(s.records[p.id]))
    case Start(caller, at) =>
      var p := At(s, caller);
      if !p.Starting? then s
      else
        var next := StartDraft(p.record, at);
        if VersionOf(s.records, p.record.request.commandId) != p.record.version then Put(s, caller, Outside)
        else Put(s.(records := Updated(s.records, next, p.record.version), started := s.started + [p.record.request.commandId],
                   versions := s.versions + [p.record.version]),
                 caller, Calling(next.(version := p.record.version + 1)))
    case Call(caller, end) =>
      var p := At(s, caller);
      if !p.Calling? then s
      else Put(s.(invoked := s.invoked + [p.record.request.commandId]), caller, Ending(p.record, end))
    case End(caller, at) =>
      var p := At(s, caller);
      if !p.Ending? then s
      else
        Put(s.(records := Updated(s.records, EndDraft(p.record, p.end, at), p.record.version)), caller, Outside)
    case Leave(caller) => Put(s, caller, Outside)
  }

  function Run(moves: seq<Move>): State
    decreases |moves|
  {
    if moves == [] then START else Next(Run(moves[..|moves| - 1]), moves[|moves| - 1])
  }

  /** The caller whose insert won loads a record that a rival has already moved on. */
  predicate LoadsMovedRecord(s: State, m: Move) {
    m.Load? && var p := At(s, m.caller);
               p.Loading? && p.mine && p.id in s.records && s.records[p.id].version != 1
  }

  /** A run in which that never happens. */
  ghost predicate CarefulRun(moves: seq<Move>)
    decreases |moves|
  {
    moves == [] ||
    (CarefulRun(moves[..|moves| - 1]) && !LoadsMovedRecord(Run(moves[..|moves| - 1]), moves[|moves| - 1]))
  }

  // ----- the invariant of careful runs -----

  predicate RowOk(id: string, row: Command) {
    && row.request.commandId == id
    && 1 <= row.version
    && (2 <= row.version ==> row.status != Accepted)
  }

  /** A caller about to start holds version 1; one past its start holds version 2. */
  predicate PositionOk(s: State, p: Position) {
    match p
    case Outside => true
    case Loading(id, mine) => id in s.records
    case Starting(record) => record.request.commandId in s.records && record.version == 1
    case Calling(record) =>
      record.request.commandId in s.records && record.version == 2 && record.request.commandId in s.started
      && record.request.commandId !in s.invoked
    case Ending(record, _) => record.request.commandId in s.records && record.version == 2
  }

  predicate HoldsCall(p: Position, id: string) {
    p.Calling? && p.record.request.commandId == id
  }

  ghost predicate PositionsOk(s: State) {
    && (forall c | c in s.positions :: PositionOk(s, s.positions[c]))
    && (forall c, d | c in s.positions && d in s.positions && s.positions[c].Calling?
          && HoldsCall(s.positions[d], s.positions[c].record.request.commandId) :: c == d)
  }

  ghost predicate LogsOk(s: State) {
    && (forall i, j | 0 <= i < j < |s.started| :: s.started[i] != s.started[j])
    && (forall i, j | 0 <= i < j < |s.invoked| :: s.invoked[i] != s.invoked[j])
    && (forall id | id in s.invoked :: id in s.started)
    && (forall id :: id in s.started <==> id in s.records && 2 <= s.records[id].version)
  }

  ghost predicate Inv(s: State) {
    && (forall id | id in s.records :: RowOk(id, s.records[id]))
    && PositionsOk(s) && LogsOk(s)
  }

  lemma EnterKeepsInv(s: State, caller: nat, record: Command)
    requires Inv(s)
    ensures Inv(Next(s, Enter(caller, record)))
  {
    var n := Next(s, Enter(caller, record));
    forall c | c in n.positions ensures PositionOk(n, n.positions[c]) {
      assert c in s.positions ==> PositionOk(s, s.positions[c]);
    }
  }

  lemma LoadKeepsInv(s: State, caller: nat)
    requires Inv(s) && !LoadsMovedRecord(s, Load(caller))
    ensures Inv(Next(s, Load(caller)))
  {
    var n := Next(s, Load(caller));
    forall c | c in n.positions ensures PositionOk(n, n.positions[c]) {
      assert c in s.positions ==> PositionOk(s, s.positions[c]);
    }
  }

  lemma StartKeepsInv(s: State, caller: nat, at: Timestamp)
    requires Inv(s)
    ensures Inv(Next(s, Start(caller, at)))
  {
    var n := Next(s, Start(caller, at));
    if n.started != s.started {
      var id := At(s, caller).record.request.commandId;
      assert id !in s.started && id !in s.invoked;
      forall c | c in n.positions ensures PositionOk(n, n.positions[c]) {
        assert c in s.positions ==> PositionOk(s, s.positions[c]);
      }
    }
  }

  lemma CallKeepsInv(s: State, caller: nat, end: HandlerEnd)
    requires Inv(s)
    ensures Inv(Next(s, Call(caller, end)))
  {
    var n := Next(s, Call(caller, end));
    if n.invoked != s.invoked {
      var id := At(s, caller).record.request.commandId;
      assert id !in s.invoked;
      forall c | c in n.positions ensures PositionOk(n, n.positions[c]) {
        assert c in s.positions ==> PositionOk(s, s.positions[c]);
      }
    }
  }

  lemma EndKeepsInv(s: State, caller: nat, at: Timestamp)
    requires Inv(s)
    ensures Inv(Next(s, End(caller, at)))
  {
    var n := Next(s, End(caller, at));
    forall c | c in n.positions ensures PositionOk(n, n.positions[c]) {
      assert c in s.positions ==> PositionOk(s, s.positions[c]);
    }
  }

  lemma NextKeepsInv(s: State, m: Move)
    requires Inv(s) && !LoadsMovedRecord(s, m)
    ensures Inv(Next(s, m))
  {
    match m
    case Enter(caller, record) => EnterKeepsInv(s, caller, record);
    case Load(caller) => LoadKeepsInv(s, caller);
    case Start(caller, at) => StartKeepsInv(s, caller, at);
    case Call(caller, end) => CallKeepsInv(s, caller, end);
    case End(caller, at) => EndKeepsInv(s, caller, at);
    case Leave(caller) =>
  }

  lemma {:induction false} RunKeepsInv(moves: seq<Move>)
    requires CarefulRun(moves)
    ensures Inv(Run(moves))
    decreases |moves|
  {
    hide Next, LoadsMovedRecord;
    if moves == [] {
    } else {
      hide Inv;
      RunKeepsInv(moves[..|moves| - 1]);
      NextKeepsInv(Run(moves[..|moves| - 1]), moves[|moves| - 1]);
    }
  }

  /**
   * Any number of executors and crashes: as long as the caller whose insert won finds version 1 when it
   * loads, every command is started at most once and its handler is called at most once.
   */
  lemma CarefulRunsCallOnce(moves: seq<Move>)
    requires CarefulRun(moves)
    ensures var s := Run(moves);
            && (forall i, j | 0 <= i < j < |s.started| :: s.started[i] != s.started[j])
            && (forall i, j | 0 <= i < j < |s.invoked| :: s.invoked[i] != s.invoked[j])
  {
    RunKeepsInv(moves);
  }

  ghost predicate StartedTwice(s: State, id: string) {
    exists i, j :: 0 <= i < j < |s.started| && s.started[i] == id && s.started[j] == id
  }

  // ----- every run: when a command is started twice -----

  predicate SomeRow(id: string, row: Command) {
    row.request.commandId == id && 1 <= row.version
  }

  predicate SomePosition(p: Position) {
    match p
    case Starting(record) => 1 <= record.version
    case Calling(record) => 2 <= record.version
    case Ending(record, _) => 2 <= record.version
    case _ => true
  }

  /** The id of start `k` was started before. */
  predicate StartedBefore(started: seq<string>, k: nat)
    requires k < |started|
  {
    exists j :: 0 <= j < k && started[j] == started[k]
  }

  /** Each start found a lower version than the row has now. */
  ghost predicate VersionsBelow(s: State) {
    forall k | 0 <= k < |s.started| && k < |s.versions| ::
      s.started[k] in s.records && 1 <= s.versions[k] < s.records[s.started[k]].version
  }

  /** A start that found version 2 or later was not the first of its command. */
  ghost predicate LaterStartsFollow(started: seq<string>, versions: seq<int>) {
    forall k: nat | k < |started| && k < |versions| && 2 <= versions[k] :: StartedBefore(started, k)
  }

  ghost predicate VersionsIncrease(started: seq<string>, versions: seq<int>) {
    forall i, j | 0 <= i < j < |started| && j < |versions| && started[i] == started[j] :: versions[i] < versions[j]
  }

  ghost predicate MovedRowsStarted(s: State) {
    forall id | id in s.records && 2 <= s.records[id].version :: id in s.started
  }

  ghost predicate StartsOk(s: State) {
    && |s.versions| == |s.started| && VersionsBelow(s) && VersionsIncrease(s.started, s.versions)
    && LaterStartsFollow(s.started, s.versions) && MovedRowsStarted(s)
  }

  ghost predicate AnyInv(s: State) {
    && (forall id | id in s.records :: SomeRow(id, s.records[id]))
    && (forall c | c in s.positions :: SomePosition(s.positions[c]))
    && StartsOk(s)
  }

  /** A start found the row at the version it had loaded, above all versions found before. */
  lemma StartExtends(s: State, id: string, row: Command)
    requires AnyInv(s) && SomeRow(id, row) && id in s.records && row.version == s.records[id].version + 1
    ensures StartsOk(s.(records := s.records[id := row], started := s.started + [id], versions := s.versions + [s.records[id].version]))
  {
    var version := s.records[id].version;
    var n := s.(records := s.records[id := row], started := s.started + [id], versions := s.versions + [version]);
    assert n.started[|s.started|] == id;
    assert VersionsBelow(n);
    assert 1 <= version && (2 <= version ==> id in s.started);
    assert forall k | 0 <= k < |s.started| && s.started[k] == id :: s.versions[k] < version;
    assert MovedRowsStarted(n);
    hide VersionsBelow, MovedRowsStarted, VersionsIncrease, LaterStartsFollow;
    OneMoreStart(s.started, s.versions, id, version);
  }

  lemma OneMoreStart(started: seq<string>, versions: seq<int>, id: string, version: int)
    requires |versions| == |started| && VersionsIncrease(started, versions) && LaterStartsFollow(started, versions)
    requires forall k | 0 <= k < |started| && started[k] == id :: versions[k] < version
    requires 2 <= version ==> id in started
    ensures VersionsIncrease(started + [id], versions + [version]) && LaterStartsFollow(started + [id], versions + [version])
  {
    var longer := started + [id];
    forall k: nat | k < |longer| && 2 <= (versions + [version])[k] ensures StartedBefore(longer, k) {
      if k < |started| {
        assert StartedBefore(started, k);
        var j :| 0 <= j < k && started[j] == started[k];
        assert longer[j] == longer[k];
      } else {
        var j :| 0 <= j < |started| && started[j] == id;
        assert longer[j] == longer[k];
      }
    }
  }

  /** A row that moves on from version 2 or later was started already. */
  lemma RowMovesOn(s: State, id: string, row: Command)
    requires AnyInv(s) && SomeRow(id, row)
    requires if id in s.records then s.records[id].version <= row.version && (2 <= row.version ==> id in s.started) else row.version == 1
    ensures StartsOk(s.(records := s.records[id := row]))
  {
  }

  lemma NextKeepsAny(s: State, m: Move)
    requires AnyInv(s)
    ensures AnyInv(Next(s, m))
  {
    hide StartsOk;
    match m
    case Enter(caller, record) =>
      if record.request.commandId !in s.records {
        RowMovesOn(s, record.request.commandId, record.(version := 1));
      }
      PositionsDoNotMatter(s, Next(s, m));
    case Start(caller, at) =>
      var p := At(s, caller);
      if p.Starting? && VersionOf(s.records, p.record.request.commandId) == p.record.version {
        StartExtends(s, p.record.request.commandId, StartDraft(p.record, at).(version := p.record.version + 1));
      }
      PositionsDoNotMatter(s, Next(s, m));
    case End(caller, at) =>
      var p := At(s, caller);
      if p.Ending? && VersionOf(s.records, p.record.request.commandId) == p.record.version {
        StartedRow(s, p.record.request.commandId);
        RowMovesOn(s, p.record.request.commandId, EndDraft(p.record, p.end, at).(version := p.record.version + 1));
      }
      PositionsDoNotMatter(s, Next(s, m));
    case _ => PositionsDoNotMatter(s, Next(s, m));
  }

  lemma StartedRow(s: State, id: string)
    requires AnyInv(s) && id in s.records && 2 <= s.records[id].version
    ensures id in s.started
  {
  }

  lemma PositionsDoNotMatter(s: State, n: State)
    ensures forall q: State | q.records == n.records && q.started == n.started && q.versions == n.versions ::
              StartsOk(q) ==> StartsOk(n)
  {
  }

  lemma {:induction false} RunKeepsAny(moves: seq<Move>)
    ensures AnyInv(Run(moves))
    decreases |moves|
  {
    hide Next;
    if moves != [] {
      hide AnyInv;
      RunKeepsAny(moves[..|moves| - 1]);
      NextKeepsAny(Run(moves[..|moves| - 1]), moves[|moves| - 1]);
    }
  }

  /**
   * In every run, whatever the callers, crashes and interleavings: a command is started twice if and only
   * if some start found its record at version 2 or later.
   */
  lemma StartedTwiceIff(moves: seq<Move>, id: string)
    ensures var s := Run(moves);
            && |s.versions| == |s.started|
            && (StartedTwice(s, id) <==> exists k :: 0 <= k < |s.started| && s.started[k] == id && 2 <= s.versions[k])
  {
    RunKeepsAny(moves);
    hide Run;
    var s := Run(moves);
    if StartedTwice(s, id) {
      var i, j :| 0 <= i < j < |s.started| && s.started[i] == id && s.started[j] == id;
      assert 2 <= s.versions[j];
    }
    if k :| 0 <= k < |s.started| && s.started[k] == id && 2 <= s.versions[k] {
      assert StartedBefore(s.started, k);
    }
  }

  /**
   * The insert is not checked again: when the winner of the insert gets to load, its next two
   * statements start the command a second time if and only if a rival has already moved the record on.
   */
  lemma SecondStartIff(moves: seq<Move>, caller: nat, at: Timestamp)
    requires CarefulRun(moves)
    requires At(Run(moves), caller).Loading? && At(Run(moves), caller).mine
    ensures var s, id := Run(moves), At(Run(moves), caller).id;
            && id in s.records
            && (StartedTwice(Next(Next(s, Load(caller)), Start(caller, at)), id) <==> s.records[id].version != 1)
  {
    RunKeepsInv(moves);
    var s, id := Run(moves), At(Run(moves), caller).id;
    hide Run, CarefulRun;
    assert PositionOk(s, s.positions[caller]);
    assert RowOk(id, s.records[id]);
    var n := Next(Next(s, Load(caller)), Start(caller, at));
    assert n.started == s.started + [id];
    if s.records[id].version != 1 {
      assert id in s.started;
      var i :| 0 <= i < |s.started| && s.started[i] == id;
      assert n.started[i] == id && n.started[|s.started|] == id;
    }
  }

  lemma RunExtends(moves: seq<Move>, m: Move)
    ensures Run(moves + [m]) == Next(Run(moves), m)
  {
    hide Next;
    assert (moves + [m])[..|moves + [m]| - 1] == moves;
  }

  /** Caller 1 starts and calls while caller 0, whose insert won, has yet to load. */
  lemma RivalRuns(record: Command, at: Timestamp)
    requires record.status == Accepted
    ensures var id, started := record.request.commandId, record.(version := 2, status := Executing, updatedAt := at);
            Run([Enter(0, record)] + [Enter(1, record)] + [Load(1)] + [Start(1, at)])
            == State(map[id := started], map[0 := Loading(id, true), 1 := Calling(started)], [id], [1], [])
  {
    var id := record.request.commandId;
    assert [] + [Enter(0, record)] == [Enter(0, record)];
    RunExtends([], Enter(0, record));
    RunExtends([Enter(0, record)], Enter(1, record));
    RunExtends([Enter(0, record)] + [Enter(1, record)], Load(1));
    RunExtends([Enter(0, record)] + [Enter(1, record)] + [Load(1)], Start(1, at));
    assert Run([]) == START;
    hide Run;
    assert Run([Enter(0, record)] + [Enter(1, record)])
        == State(map[id := record.(version := 1)], map[0 := Loading(id, true), 1 := Loading(id, false)], [], [], []);
  }

  /** Caller 0 then loads the record in progress. */
  lemma InserterLoadsLate(record: Command, end: HandlerEnd, at: Timestamp)
    requires record.status == Accepted
    ensures var id, started := record.request.commandId, record.(version := 2, status := Executing, updatedAt := at);
            Run([Enter(0, record)] + [Enter(1, record)] + [Load(1)] + [Start(1, at)] + [Call(1, end)] + [Load(0)])
            == State(map[id := started], map[0 := Starting(started), 1 := Ending(started, end)], [id], [1], [id])
  {
    var m := [Enter(0, record)] + [Enter(1, record)] + [Load(1)] + [Start(1, at)];
    RivalRuns(record, at);
    RunExtends(m, Call(1, end));
    RunExtends(m + [Call(1, end)], Load(0));
    hide Run;
    assert [] + [record.request.commandId] == [record.request.commandId];
  }

  /** It does happen: caller 0 starts it again and calls the handler a second time. */
  lemma HandlerCalledTwice(record: Command, end: HandlerEnd, at: Timestamp)
    requires record.status == Accepted
    ensures exists moves :: Run(moves).invoked == [record.request.commandId, record.request.commandId]
  {
    var m := [Enter(0, record)] + [Enter(1, record)] + [Load(1)] + [Start(1, at)] + [Call(1, end)] + [Load(0)];
    InserterLoadsLate(record, end, at);
    RunExtends(m, Start(0, at));
    RunExtends(m + [Start(0, at)], Call(0, end));
    hide Run;
    assert Run(m + [Start(0, at)] + [Call(0, end)]).invoked == [record.request.commandId, record.request.commandId];
  }
}
