/** One device: its tables, the request its worker has open, and the steps both can take. The
    server is any server at all; only the shape of its replies is fixed. */
module SyncDevice {
  import opened Options
  import opened SyncTypes
  import opened SyncTables
  import opened SyncSteps
  import opened SyncViews
  import opened SyncTruth

  /** The worker handles one request at a time; edits may happen while it is open. */
  datatype Worker =
    | Idle
    | Pushing(entries: seq<Entry>, reply: Option<seq<MutationResult>>)
    | Pulled(rows: seq<RemoteGame>)
    | Fetched(game: GameId, remote: Option<RemoteGame>)

  datatype Device = Device(tables: Tables, worker: Worker)

  const NEW_DEVICE := Device(NO_TABLES, Idle)

  datatype Action =
    // the user interface
    | Insert(game: GameId, fields: Payload)
    | Update(game: GameId, fields: Payload)
    | Remove(game: GameId, at: string)
    | Retry
    // the worker
    | BeginPush(limit: nat, now: nat)
    | PushReply(results: seq<MutationResult>)
    | FinishPush
    | FailPush(retryable: bool, retryAt: nat)
    | PullReply(rows: seq<RemoteGame>)
    | FinishPull(completed: bool)
    | FetchReply(game: GameId, remote: Option<RemoteGame>)
    | FinishResolve(request: Resolution, at: string)
    | Abandon

  /** A push reply has one result per change, and a conflict carries the record it is about. */
  predicate WellFormedReply(entries: seq<Entry>, results: seq<MutationResult>) {
    && |results| == |entries|
    && forall r :: r in results && r.Conflicted? && r.remote.Some? ==> r.remote.value.id == r.game
  }

  function OrSame(t: Tables, changed: Option<Tables>): Tables {
    if changed.Some? then changed.value else t
  }

  /** One step; an action that is not possible now changes nothing. */
  function Next(d: Device, a: Action): Device {
    var t := d.tables;
    match a
    case Insert(g, fields) => d.(tables := OrSame(t, InsertGame(t, g, fields)))
    case Update(g, fields) => d.(tables := OrSame(t, UpdateGame(t, g, fields)))
    case Remove(g, at) => d.(tables := OrSame(t, DeleteGame(t, g, at)))
    case Retry => d.(tables := RetryFailed(t))
    case BeginPush(limit, now) =>
      if d.worker.Idle? then d.(worker := Pushing(FetchDue(t, limit, now), None)) else d
    case PushReply(results) =>
      if d.worker.Pushing? && d.worker.reply == None && WellFormedReply(d.worker.entries, results)
      then d.(worker := d.worker.(reply := Some(results))) else d
    case FinishPush =>
      if d.worker.Pushing? && d.worker.reply.Some?
      then Device(OrSame(t, ApplyPushResults(t, d.worker.entries, d.worker.reply.value)), Idle) else d
    case FailPush(retryable, retryAt) =>
      if d.worker.Pushing?
      then Device(RecordFailure(t, d.worker.entries, retryable, retryAt), Idle) else d
    case PullReply(rows) => if d.worker.Idle? then d.(worker := Pulled(rows)) else d
    case FinishPull(completed) =>
      if d.worker.Pulled? then Device(OrSame(t, ApplyPullBatch(t, d.worker.rows, completed)), Idle) else d
    case FetchReply(g, remote) =>
      if d.worker.Idle? && (remote.Some? ==> remote.value.id == g) then d.(worker := Fetched(g, remote)) else d
    case FinishResolve(q, at) =>
      if d.worker.Fetched? && q.conflictId < |t.conflicts| && t.conflicts[q.conflictId].game == d.worker.game
      then Device(ResolveConflict(t, q, d.worker.remote, at).0, Idle) else d
    case Abandon => d.(worker := Idle)
  }

  function Run(d: Device, actions: seq<Action>): Device {
    if actions == [] then d else Next(Run(d, actions[..|actions| - 1]), actions[|actions| - 1])
  }

  // ----- what is in flight -----

  /** The sent entry is still queued as it was sent, and its game is not in dispute. */
  ghost predicate Sent(v: GameView, e: Entry) {
    && v.row.Some?
    && v.conflict == None
    && exists x :: x in v.queue && x.id == e.id && x.row == e.row && x.operation == e.operation
  }

  ghost predicate OnePerGame(entries: seq<Entry>) {
    forall i, j :: 0 <= i < j < |entries| ==> entries[i].game != entries[j].game
  }

  ghost predicate InFlight(t: Tables, entries: seq<Entry>) {
    && OnePerGame(entries)
    && forall e :: e in entries ==> Sent(View(t, e.game), e)
  }

  ghost predicate DeviceOk(d: Device) {
    && TablesOk(d.tables)
    && (d.worker.Pushing? ==>
          && InFlight(d.tables, d.worker.entries)
          && (d.worker.reply.Some? ==> WellFormedReply(d.worker.entries, d.worker.reply.value)))
  }

  // ----- what a push picks -----

  lemma {:induction false} DueEntries(t: Tables, n: nat, now: nat)
    requires n <= |t.outbox| && Increasing(t.outbox)
    ensures forall e :: e in DueAmong(t, n, now) ==> e in t.outbox[..n] && IsDue(t, e, now)
    ensures Increasing(DueAmong(t, n, now))
  {
    if n > 0 {
      DueEntries(t, n - 1, now);
      var due := DueAmong(t, n - 1, now);
      assert t.outbox[..n] == t.outbox[..n - 1] + [t.outbox[n - 1]];
      forall i | 0 <= i < |due|
        ensures due[i].id < t.outbox[n - 1].id
      {
        assert due[i] in t.outbox[..n - 1];
      }
    }
  }

  lemma DueIsNewest(t: Tables, e: Entry, now: nat)
    requires TablesOk(t) && e in t.outbox && IsDue(t, e, now)
    ensures var queue := View(t, e.game).queue; queue != [] && queue[|queue| - 1] == e
    ensures Sent(View(t, e.game), e)
  {
    QueueMembers(t.outbox, e.game);
    var queue := QueueOf(t.outbox, e.game);
    var i :| 0 <= i < |queue| && queue[i] == e;
    assert Truthful(View(t, e.game));
    assert i == |queue| - 1;
  }

  /** A push sends the newest entry of each of its games, once, and none of a game in dispute. */
  lemma PushPicksNewest(t: Tables, limit: nat, now: nat)
    requires TablesOk(t)
    ensures var sent := FetchDue(t, limit, now);
            && |sent| <= limit
            && InFlight(t, sent)
            && forall e :: e in sent ==>
                 && IsDue(t, e, now)
                 && (var queue := View(t, e.game).queue; queue != [] && queue[|queue| - 1] == e)
  {
    DueEntries(t, |t.outbox|, now);
    assert t.outbox[..|t.outbox|] == t.outbox;
    var sent := FetchDue(t, limit, now);
    forall e | e in sent
      ensures IsDue(t, e, now) && Sent(View(t, e.game), e)
      ensures var queue := View(t, e.game).queue; queue != [] && queue[|queue| - 1] == e
    {
      DueIsNewest(t, e, now);
    }
    forall i, j | 0 <= i < j < |sent|
      ensures sent[i].game != sent[j].game
    {
      assert sent[i] in sent && sent[j] in sent && sent[i].id < sent[j].id;
    }
  }

  // ----- applying the reply -----

  /** As many answers as changes, and exactly their games: every game is answered once. */
  lemma {:induction false} AnswersOncePerGame(results: seq<MutationResult>, games: set<GameId>)
    requires games == set r | r in results :: r.game
    ensures |games| <= |results|
    ensures |games| == |results| ==> forall i, j :: 0 <= i < j < |results| ==> results[i].game != results[j].game
  {
    if results != [] {
      var n := |results| - 1;
      var front := results[..n];
      var frontGames := set r | r in front :: r.game;
      assert results == front + [results[n]];
      assert games == frontGames + {results[n].game};
      AnswersOncePerGame(front, frontGames);
      forall i | 0 <= i < n && |games| == |results|
        ensures results[i].game != results[n].game
      {
        assert front[i] in front;
        assert front[i].game in frontGames;
      }
    }
  }

  lemma {:induction false} BatchSize(entries: seq<Entry>)
    requires OnePerGame(entries)
    ensures |ByGame(entries)| == |entries|
    ensures forall e :: e in entries ==> e.game in ByGame(entries) && ByGame(entries)[e.game] == e
  {
    if entries != [] {
      var n := |entries| - 1;
      var front := entries[..n];
      assert entries == front + [entries[n]];
      BatchSize(front);
      assert entries[n].game !in ByGame(front);
    }
  }

  lemma ReplyAnswersOnce(entries: seq<Entry>, results: seq<MutationResult>)
    requires OnePerGame(entries) && WellFormedReply(entries, results) && Answers(entries, results)
    ensures forall i, j :: 0 <= i < j < |results| ==> results[i].game != results[j].game
  {
    BatchSize(entries);
    var games := set r | r in results :: r.game;
    assert |ByGame(entries).Keys| == |ByGame(entries)|;
    AnswersOncePerGame(results, games);
  }

  ghost predicate OncePerGame(results: seq<MutationResult>) {
    forall i, j :: 0 <= i < j < |results| ==> results[i].game != results[j].game
  }

  lemma ResultOnlyTouches(t: Tables, e: Entry, result: MutationResult)
    requires Increasing(t.outbox) && e.game in t.games && result.game == e.game
    requires result.Conflicted? && result.remote.Some? ==> result.remote.value.id == result.game
    ensures OnlyTouches(t, ApplyResult(t, e, result), e.game)
  {
    match result
    case Applied(_, version) => AcknowledgeView(t, e, version);
    case Conflicted(_, Some(remote)) => ReconcileView(t, remote, true);
    case Conflicted(_, None) => DisputeView(t, e.game, e.row.payload, Missing, e.row.remoteVersion);
  }

  lemma ResultKeepsTruth(t: Tables, e: Entry, result: MutationResult)
    requires TablesOk(t) && Sent(View(t, e.game), e) && result.game == e.game
    ensures TablesOk(ApplyResult(t, e, result))
  {
    match result
    case Applied(_, version) => AcknowledgeKeepsTruth(t, e, version);
    case Conflicted(_, Some(remote)) => ReconcileKeepsTruth(t, remote, true);
    case Conflicted(_, None) => DisputeKeepsTruth(t, e.game, e.row.payload, Missing, e.row.remoteVersion);
  }

  lemma {:induction false} ResultsKeepTruth(t: Tables, entries: map<GameId, Entry>, results: seq<MutationResult>)
    requires TablesOk(t) && OncePerGame(results)
    requires forall r :: r in results ==>
               && r.game in entries && entries[r.game].game == r.game
               && Sent(View(t, r.game), entries[r.game])
               && (r.Conflicted? && r.remote.Some? ==> r.remote.value.id == r.game)
    ensures TablesOk(ApplyResults(t, entries, results))
    ensures forall g :: (forall r :: r in results ==> r.game != g) ==>
                          View(ApplyResults(t, entries, results), g) == View(t, g)
  {
    if results != [] {
      var n := |results| - 1;
      var front, last := results[..n], results[n];
      assert results == front + [last];
      ResultsKeepTruth(t, entries, front);
      var t' := ApplyResults(t, entries, front);
      forall r | r in front
        ensures r.game != last.game
      {
      }
      assert View(t', last.game) == View(t, last.game);
      ResultKeepsTruth(t', entries[last.game], last);
      ResultOnlyTouches(t', entries[last.game], last);
    }
  }

  lemma FinishPushKeepsTruth(t: Tables, entries: seq<Entry>, results: seq<MutationResult>)
    requires TablesOk(t) && InFlight(t, entries) && WellFormedReply(entries, results)
    ensures ApplyPushResults(t, entries, results).Some? ==> TablesOk(ApplyPushResults(t, entries, results).value)
  {
    if Answers(entries, results) {
      ReplyAnswersOnce(entries, results);
      forall r | r in results
        ensures r.game in ByGame(entries) && Sent(View(t, r.game), ByGame(entries)[r.game])
      {
        assert r.game in set r' | r' in results :: r'.game;
      }
      ResultsKeepTruth(t, ByGame(entries), results);
    }
  }

  lemma {:induction false} PullKeepsTruth(t: Tables, rows: seq<RemoteGame>)
    requires TablesOk(t)
    ensures TablesOk(ReconcileAll(t, rows))
  {
    if rows != [] {
      PullKeepsTruth(t, rows[..|rows| - 1]);
      ReconcileKeepsTruth(ReconcileAll(t, rows[..|rows| - 1]), rows[|rows| - 1], false);
    }
  }

  /** A batch ascends row by row. */
  lemma AscendingByRow(cursor: nat, rows: seq<RemoteGame>, i: nat)
    requires i < |rows| && Ascending(cursor, rows[..i])
    ensures LastVersion(cursor, rows[..i + 1]) == rows[i].version
    ensures rows[i].version > LastVersion(cursor, rows[..i]) ==> Ascending(cursor, rows[..i + 1])
    ensures rows[i].version <= LastVersion(cursor, rows[..i]) ==> !Ascending(cursor, rows)
  {
    var shorter, longer := rows[..i], rows[..i + 1];
    assert longer == shorter + [rows[i]];
    assert i > 0 ==> shorter[i - 1] == rows[i - 1];
  }

  lemma {:induction false} CursorKeptByRows(t: Tables, rows: seq<RemoteGame>)
    ensures ReconcileAll(t, rows).cursor == t.cursor
    ensures ReconcileAll(t, rows).initialSyncCompleted == t.initialSyncCompleted
  {
    if rows != [] {
      CursorKeptByRows(t, rows[..|rows| - 1]);
    }
  }

  // ----- failures -----

  /** The same snapshots under the same ids; only the retry bookkeeping may differ. */
  ghost predicate SameSnapshots(q: seq<Entry>, q': seq<Entry>) {
    && |q| == |q'|
    && forall i :: 0 <= i < |q| ==> q'[i] == q[i].(failed := q'[i].failed, retryAt := q'[i].retryAt)
  }

  lemma {:induction false} QueueOfSameSnapshots(outbox: seq<Entry>, outbox': seq<Entry>, g: GameId)
    requires SameSnapshots(outbox, outbox')
    ensures SameSnapshots(QueueOf(outbox, g), QueueOf(outbox', g))
  {
    if outbox != [] {
      QueueOfSameSnapshots(outbox[..|outbox| - 1], outbox'[..|outbox| - 1], g);
    }
  }

  /** The rows may only move between pending and failed while something is queued. */
  ghost predicate OnlyMarks(t: Tables, t': Tables) {
    && SameSnapshots(t.outbox, t'.outbox)
    && t'.conflicts == t.conflicts
    && t'.cursor == t.cursor
    && t'.games.Keys == t.games.Keys
    && forall g :: g in t.games ==>
         || t'.games[g] == t.games[g]
         || (&& QueueOf(t.outbox, g) != []
             && t.games[g].status != InConflict
             && (t'.games[g].status == Pending || t'.games[g].status == Failed)
             && t'.games[g] == t.games[g].(status := t'.games[g].status))
  }

  lemma MarksKeepTruth(t: Tables, t': Tables)
    requires TablesOk(t) && OnlyMarks(t, t')
    ensures TablesOk(t')
    ensures forall g, e :: Sent(View(t, g), e) ==> Sent(View(t', g), e)
  {
    forall g
      ensures Truthful(View(t', g))
      ensures forall e :: Sent(View(t, g), e) ==> Sent(View(t', g), e)
    {
      QueueOfSameSnapshots(t.outbox, t'.outbox, g);
      assert Truthful(View(t, g));
      var q, q' := QueueOf(t.outbox, g), QueueOf(t'.outbox, g);
      forall e | e in q'
        ensures e.operation == Delete ==> Deleted(e.row.payload)
      {
        var i :| 0 <= i < |q'| && q'[i] == e;
        assert q[i] in q;
      }
      forall e | Sent(View(t, g), e)
        ensures Sent(View(t', g), e)
      {
        var x :| x in q && x.id == e.id && x.row == e.row && x.operation == e.operation;
        var i :| 0 <= i < |q| && q[i] == x;
        assert q'[i] in q';
      }
    }
  }

  lemma {:induction false} FailureKeepsTruth(t: Tables, entries: seq<Entry>, retryable: bool, retryAt: nat)
    requires TablesOk(t)
    ensures TablesOk(RecordFailure(t, entries, retryable, retryAt))
  {
    if entries != [] {
      var n := |entries| - 1;
      FailureKeepsTruth(t, entries[..n], retryable, retryAt);
      var t', e := RecordFailure(t, entries[..n], retryable, retryAt), entries[n];
      QueueMembers(t'.outbox, e.game);
      MarksKeepTruth(t', RecordEntryFailure(t', e, retryable, retryAt));
    }
  }

  lemma RetryOnlyMarks(t: Tables)
    requires TablesOk(t)
    ensures OnlyMarks(t, RetryFailed(t))
  {
    forall g | g in t.games && t.games[g].status == Failed
      ensures QueueOf(t.outbox, g) != []
    {
      assert Truthful(View(t, g));
    }
  }

  // ----- the invariant of a device -----

  lemma LocalEditsKeepFlight(t: Tables, g: GameId, fields: Payload, now: string, entries: seq<Entry>)
    requires TablesOk(t) && InFlight(t, entries)
    ensures InsertGame(t, g, fields).Some? ==> InFlight(InsertGame(t, g, fields).value, entries)
    ensures UpdateGame(t, g, fields).Some? ==> InFlight(UpdateGame(t, g, fields).value, entries)
    ensures DeleteGame(t, g, now).Some? ==> InFlight(DeleteGame(t, g, now).value, entries)
  {
    if g !in t.games {
      EditKeepsFlight(t, g, Upsert, Row(fields[DELETED_AT := Null], None, None, Pending), entries);
    } else {
      var row := t.games[g];
      EditKeepsFlight(t, g, Upsert, row.(payload := Edited(row.payload, fields), status := Pending), entries);
      EditKeepsFlight(t, g, Delete, row.(payload := row.payload[DELETED_AT := Text(now)], status := Pending), entries);
    }
  }

  lemma EditKeepsFlight(t: Tables, g: GameId, operation: Operation, row: Row, entries: seq<Entry>)
    requires TablesOk(t) && InFlight(t, entries)
    ensures InFlight(Enqueue(PutRow(t, g, row), g, operation), entries)
  {
    EditView(t, g, operation, row);
    forall e | e in entries
      ensures Sent(View(Enqueue(PutRow(t, g, row), g, operation), e.game), e)
    {
      assert Sent(View(t, e.game), e);
    }
  }

  lemma StepKeepsDevice(d: Device, a: Action)
    requires DeviceOk(d)
    ensures DeviceOk(Next(d, a))
  {
    var t := d.tables;
    match a
    case Insert(g, fields) =>
      LocalEditsKeepTruth(t, g, fields, "");
      if d.worker.Pushing? { LocalEditsKeepFlight(t, g, fields, "", d.worker.entries); }
    case Update(g, fields) =>
      LocalEditsKeepTruth(t, g, fields, "");
      if d.worker.Pushing? { LocalEditsKeepFlight(t, g, fields, "", d.worker.entries); }
    case Remove(g, at) =>
      LocalEditsKeepTruth(t, g, EMPTY_PAYLOAD, at);
      if d.worker.Pushing? { LocalEditsKeepFlight(t, g, EMPTY_PAYLOAD, at, d.worker.entries); }
    case Retry =>
      RetryOnlyMarks(t);
      MarksKeepTruth(t, RetryFailed(t));
    case BeginPush(limit, now) => PushPicksNewest(t, limit, now);
    case FinishPush =>
      if d.worker.Pushing? && d.worker.reply.Some? {
        FinishPushKeepsTruth(t, d.worker.entries, d.worker.reply.value);
      }
    case FailPush(retryable, retryAt) =>
      if d.worker.Pushing? { FailureKeepsTruth(t, d.worker.entries, retryable, retryAt); }
    case FinishPull(completed) =>
      if d.worker.Pulled? { PullKeepsTruth(t, d.worker.rows); }
      if d.worker.Pulled? && ApplyPullBatch(t, d.worker.rows, completed).Some? {
        var t' := ApplyPullBatch(t, d.worker.rows, completed).value;
        assert forall g :: View(t', g) == View(ReconcileAll(t, d.worker.rows), g);
      }
    case FinishResolve(q, at) =>
      if d.worker.Fetched? { ResolveKeepsTruth(t, q, d.worker.remote, at); }
    case _ =>
  }

  lemma {:induction false} ReachableDeviceOk(actions: seq<Action>)
    ensures DeviceOk(Run(NEW_DEVICE, actions))
  {
    if actions != [] {
      ReachableDeviceOk(actions[..|actions| - 1]);
      StepKeepsDevice(Run(NEW_DEVICE, actions[..|actions| - 1]), actions[|actions| - 1]);
    }
  }

  // ----- main results -----

  ghost predicate IsNewest(outbox: seq<Entry>, e: Entry) {
    e in outbox && forall x :: x in outbox && x.game == e.game ==> x.id <= e.id
  }

  /** Over every run against any server, a game is marked synced exactly when nothing of it waits
      to be sent and no conflict is open; a conflict mark has an open conflict behind it; and the
      newest queued snapshot is the row. */
  lemma {:induction false} SyncedIsTruthful(actions: seq<Action>, g: GameId)
    ensures var t := Run(NEW_DEVICE, actions).tables;
            g in t.games ==>
              && (t.games[g].status == Synced <==>
                    && (forall e :: e in t.outbox ==> e.game != g)
                    && (forall c :: c in t.conflicts ==> !(c.open && c.game == g)))
              && (t.games[g].status == InConflict ==> exists c :: c in t.conflicts && c.open && c.game == g)
              && (forall e :: IsNewest(t.outbox, e) && e.game == g ==> e.row.payload == t.games[g].payload)
  {
    ReachableDeviceOk(actions);
    var t := Run(NEW_DEVICE, actions).tables;
    assert Truthful(View(t, g));
    QueueMembers(t.outbox, g);
    var queue, i := QueueOf(t.outbox, g), OpenIndex(t.conflicts, g);
    assert queue != [] ==> queue[0] in queue && queue[|queue| - 1] in queue;
    assert i >= 0 ==> t.conflicts[i] in t.conflicts;
    forall e | IsNewest(t.outbox, e) && e.game == g
      ensures g in t.games ==> e.row.payload == t.games[g].payload
    {
      assert e in queue;
      var j :| 0 <= j < |queue| && queue[j] == e;
      assert queue[|queue| - 1].id <= e.id;
    }
  }

  lemma OpenConflictsAre(t: Tables)
    ensures OpenConflicts(t) == {} <==> forall c :: c in t.conflicts ==> !c.open
  {
    if c :| c in t.conflicts && c.open {
      var i: nat :| i < |t.conflicts| && t.conflicts[i] == c;
      assert i in OpenConflicts(t);
    }
    if i: nat :| i in OpenConflicts(t) {
      assert t.conflicts[i] in t.conflicts;
    }
  }

  lemma QueuedIsCounted(t: Tables, e: Entry)
    requires TablesOk(t) && e in t.outbox && OpenConflicts(t) == {}
    ensures e.game in PendingGames(t) && (e.failed ==> e.game in FailedGames(t))
  {
    QueueMembers(t.outbox, e.game);
    assert e in QueueOf(t.outbox, e.game);
    assert Truthful(View(t, e.game));
    OpenConflictsAre(t);
    NoneOpen(t.conflicts, e.game);
  }

  lemma {:induction false} NoneOpen(conflicts: seq<ConflictRow>, g: GameId)
    requires forall c :: c in conflicts ==> !c.open
    ensures OpenIndex(conflicts, g) == -1
  {
    if conflicts != [] {
      NoneOpen(conflicts[..|conflicts| - 1], g);
    }
  }

  /** The phase of tables whose rows are true: synced exactly when the outbox is empty, no conflict is
      open and, where required, the initial download has finished; failed exactly when a conflict is
      open or a queued change has failed. */
  lemma PhaseIsTruthful(t: Tables, requireInitialSync: bool)
    requires TablesOk(t)
    ensures CurrentPhase(t, requireInitialSync) == PhaseSynced <==>
              && t.outbox == []
              && (forall c :: c in t.conflicts ==> !c.open)
              && (requireInitialSync ==> t.initialSyncCompleted)
    ensures CurrentPhase(t, requireInitialSync) == PhaseFailed <==>
              (exists c :: c in t.conflicts && c.open) || (exists e :: e in t.outbox && e.failed)
  {
    OpenConflictsAre(t);
    if OpenConflicts(t) == {} {
      forall e | e in t.outbox ensures e.game in PendingGames(t) && (e.failed ==> e.game in FailedGames(t)) {
        QueuedIsCounted(t, e);
      }
      if t.outbox == [] {
        assert PendingGames(t) == {} && FailedGames(t) == {};
      } else {
        assert t.outbox[0] in t.outbox;
      }
    }
  }

  /** The same over every run against any server. */
  lemma {:induction false} IndicatorIsTruthful(actions: seq<Action>, requireInitialSync: bool)
    ensures var t := Run(NEW_DEVICE, actions).tables;
            && (CurrentPhase(t, requireInitialSync) == PhaseSynced <==>
                  && t.outbox == []
                  && (forall c :: c in t.conflicts ==> !c.open)
                  && (requireInitialSync ==> t.initialSyncCompleted))
            && (CurrentPhase(t, requireInitialSync) == PhaseFailed <==>
                  (exists c :: c in t.conflicts && c.open) || (exists e :: e in t.outbox && e.failed))
  {
    ReachableDeviceOk(actions);
    PhaseIsTruthful(Run(NEW_DEVICE, actions).tables, requireInitialSync);
  }

  // ----- rows stay -----

  lemma {:induction false} ResultsKeepRows(t: Tables, entries: map<GameId, Entry>, results: seq<MutationResult>)
    requires forall r :: r in results ==> r.game in entries
    ensures t.games.Keys <= ApplyResults(t, entries, results).games.Keys
  {
    if results != [] {
      ResultsKeepRows(t, entries, results[..|results| - 1]);
    }
  }

  lemma {:induction false} PullKeepsRows(t: Tables, rows: seq<RemoteGame>)
    ensures t.games.Keys <= ReconcileAll(t, rows).games.Keys
  {
    if rows != [] {
      PullKeepsRows(t, rows[..|rows| - 1]);
    }
  }

  lemma {:induction false} FailuresKeepRows(t: Tables, entries: seq<Entry>, retryable: bool, retryAt: nat)
    ensures t.games.Keys <= RecordFailure(t, entries, retryable, retryAt).games.Keys
  {
    if entries != [] {
      FailuresKeepRows(t, entries[..|entries| - 1], retryable, retryAt);
    }
  }

  /** No step removes the row of a game: deleted games stay as tombstones. */
  lemma StepKeepsRows(d: Device, a: Action)
    ensures d.tables.games.Keys <= Next(d, a).tables.games.Keys
  {
    match a
    case FinishPush =>
      if d.worker.Pushing? && d.worker.reply.Some? && Answers(d.worker.entries, d.worker.reply.value) {
        var results := d.worker.reply.value;
        assert forall r :: r in results ==> r.game in set r' | r' in results :: r'.game;
        ResultsKeepRows(d.tables, ByGame(d.worker.entries), results);
      }
    case FailPush(retryable, retryAt) =>
      if d.worker.Pushing? {
        FailuresKeepRows(d.tables, d.worker.entries, retryable, retryAt);
      }
    case FinishPull(completed) =>
      if d.worker.Pulled? {
        PullKeepsRows(d.tables, d.worker.rows);
      }
    case _ =>
  }
}
