/** Several devices, one server, any interleaving: what a settled device holds is what the server
    holds. */
module SyncSystem {
  import opened Options
  import opened SyncTypes
  import opened SyncTables
  import opened SyncSteps
  import opened SyncViews
  import opened SyncTruth
  import opened SyncDevice
  import opened SyncServer

  datatype System = System(server: Server, devices: seq<Device>)

  datatype SystemAction =
    | Local(device: nat, action: Action)               // a user edit, or a worker step on its own tables
    | ServePush(device: nat, now: string)              // the server answers the open push
    | ServePull(device: nat, limit: nat, rows: seq<RemoteGame>)
    | ServeFetch(device: nat, game: GameId)
    | OtherWriter(change: Change, now: string)         // the web client, or a request nobody waits for

  /** Replies come from the server alone. */
  predicate IsReply(a: Action) {
    a.PushReply? || a.PullReply? || a.FetchReply?
  }

  function Changes(entries: seq<Entry>): (changes: seq<Change>)
    ensures |changes| == |entries|
    ensures forall i :: 0 <= i < |entries| ==> changes[i] == BuildChange(entries[i])
  {
    seq(|entries|, (i: nat) requires i < |entries| => BuildChange(entries[i]))
  }

  ghost function SystemNext(y: System, a: SystemAction): System {
    match a
    case Local(d, action) =>
      if d < |y.devices| && !IsReply(action)
      then y.(devices := y.devices[d := Next(y.devices[d], action)]) else y
    case ServePush(d, now) =>
      if d < |y.devices| && y.devices[d].worker.Pushing? && y.devices[d].worker.reply == None then
        var (s, results) := ApplyBatch(y.server, Changes(y.devices[d].worker.entries), now);
        System(s, y.devices[d := Next(y.devices[d], PushReply(results))])
      else y
    case ServePull(d, limit, rows) =>
      if d < |y.devices| && IsPullReply(y.server, y.devices[d].tables.cursor, limit, rows)
      then y.(devices := y.devices[d := Next(y.devices[d], PullReply(rows))]) else y
    case ServeFetch(d, g) =>
      if d < |y.devices|
      then y.(devices := y.devices[d := Next(y.devices[d], FetchReply(g, Current(y.server, g)))]) else y
    case OtherWriter(change, now) => y.(server := Apply(y.server, change, now).0)
  }

  ghost function SystemRun(y: System, actions: seq<SystemAction>): System {
    if actions == [] then y
    else SystemNext(SystemRun(y, actions[..|actions| - 1]), actions[|actions| - 1])
  }

  /** Any number of new devices on a server in any proper state. */
  ghost predicate Initial(y: System) {
    ServerOk(y.server) && forall d :: d in y.devices ==> d == NEW_DEVICE
  }

  // ----- what a device knows of the server -----

  /** A record the server showed: still current, or replaced by a version above the cursor. */
  ghost predicate Snapshot(s: Server, cursor: nat, g: GameId, remote: Option<RemoteGame>) {
    match remote
    case Some(r) =>
      && r.id == g
      && g in s.records
      && r.version <= s.records[g].version
      && (s.records[g].version <= cursor || s.records[g].version == r.version ==> Current(s, g) == remote)
    case None => g in s.records ==> s.records[g].version > cursor
  }

  ghost predicate Newest(v: GameView, version: Option<nat>) {
    v.queue != [] && v.queue[|v.queue| - 1].row.remoteVersion == version
  }

  /** The base of a row is what the server stored with its version, unless the row was deleted and has
      nothing to send; queued snapshots are no newer than the row, and a deleted one is the last. */
  ghost predicate BaseOk(v: GameView, g: GameId, s: Server) {
    && (v.row.Some? && v.row.value.base.Some? && g in s.records
        && v.row.value.remoteVersion == Some(s.records[g].version) ==>
          || AllEquivalent(v.row.value.base.value, s.records[g].payload)
          || (Deleted(v.row.value.payload) && v.queue == []))
    && (v.row.Some? ==> forall e :: e in v.queue ==> VersionOf(e.row) <= VersionOf(v.row.value))
    && (forall i :: 0 <= i < |v.queue| - 1 ==> !Deleted(v.queue[i].row.payload))
  }

  /** What the tables of a device with the given cursor hold about one game. */
  ghost predicate GameOk(v: GameView, g: GameId, s: Server, cursor: nat) {
    CursorOk(v, g, s, cursor) && BaseOk(v, g, s)
  }

  ghost predicate CursorOk(v: GameView, g: GameId, s: Server, cursor: nat) {
    // versions come from the server
    && (v.row.Some? && v.row.value.remoteVersion.Some? ==>
          g in s.records && v.row.value.remoteVersion.value <= s.records[g].version)
    && (v.conflict.Some? && v.conflict.value.Present? ==>
          g in s.records && v.conflict.value.version <= s.records[g].version)
    // what the cursor has passed is reflected
    && (g in s.records && s.records[g].version <= cursor ==>
          && v.row.Some?
          && (v.conflict == None ==>
                && v.row.value.remoteVersion == Some(s.records[g].version)
                && (v.queue != [] ==> Newest(v, Some(s.records[g].version)))
                && (v.queue == [] ==> v.row.value.payload == s.records[g].payload)))
    // what the server does not have is waiting, in dispute or deleted
    && (g !in s.records && v.row.Some? && v.conflict == None && v.queue == [] ==> Deleted(v.row.value.payload))
  }

  ghost predicate ResultOk(e: Entry, result: MutationResult, s: Server, cursor: nat) {
    && result.game == e.game
    && match result
       case Applied(_, Some(version)) =>
         && e.game in s.records && cursor < version <= s.records[e.game].version
         && (version == s.records[e.game].version && !Deleted(e.row.payload) ==>
               s.records[e.game].payload == e.row.payload)
       case Applied(_, None) => e.operation == Delete && e.row.remoteVersion == None
       case Conflicted(_, remote) => Snapshot(s, cursor, e.game, remote)
  }

  /** The rows of a pull, and that they leave no gap up to the last of them. */
  ghost predicate PullOk(rows: seq<RemoteGame>, s: Server, cursor: nat) {
    && Ascending(cursor, rows)
    && LastVersion(cursor, rows) <= s.head
    && (forall r :: r in rows ==> Snapshot(s, LastVersion(cursor, rows), r.id, Some(r)))
    && (forall g :: g in s.records && cursor < s.records[g].version <= LastVersion(cursor, rows) ==>
          Current(s, g).value in rows)
  }

  ghost predicate LinkOk(d: Device, s: Server) {
    var cursor := d.tables.cursor;
    && cursor <= s.head
    && (forall g :: GameOk(View(d.tables, g), g, s, cursor))
    && match d.worker
       case Idle => true
       case Pushing(entries, None) => true
       case Pushing(entries, Some(results)) =>
         && |results| == |entries|
         && forall i :: 0 <= i < |entries| ==> ResultOk(entries[i], results[i], s, cursor)
       case Pulled(rows) => PullOk(rows, s, cursor)
       case Fetched(g, remote) => Snapshot(s, cursor, g, remote)
  }

  ghost predicate SystemOk(y: System) {
    && ServerOk(y.server)
    && forall d :: d in y.devices ==> DeviceOk(d) && LinkOk(d, y.server)
  }

  // ----- the server moves on -----

  lemma EvolutionKeepsGame(v: GameView, g: GameId, s: Server, s': Server, cursor: nat)
    requires GameOk(v, g, s, cursor) && ServerOk(s) && EvolvesTo(s, s') && cursor <= s.head
    ensures GameOk(v, g, s', cursor)
  {
  }

  lemma EvolutionKeepsLink(d: Device, s: Server, s': Server)
    requires LinkOk(d, s) && ServerOk(s) && EvolvesTo(s, s')
    ensures LinkOk(d, s')
  {
    forall g
      ensures GameOk(View(d.tables, g), g, s', d.tables.cursor)
    {
      assert GameOk(View(d.tables, g), g, s, d.tables.cursor);
      EvolutionKeepsGame(View(d.tables, g), g, s, s', d.tables.cursor);
    }
    match d.worker
    case Pushing(entries, Some(results)) =>
      forall i | 0 <= i < |entries|
        ensures ResultOk(entries[i], results[i], s', d.tables.cursor)
      {
        assert ResultOk(entries[i], results[i], s, d.tables.cursor);
      }
    case _ =>
  }

  // ----- one game -----

  lemma EditKeepsGame(g: GameId, v: GameView, id: nat, operation: Operation, row: Row, s: Server, cursor: nat)
    requires GameOk(v, g, s, cursor) && Truthful(v)
    requires row.remoteVersion == if v.row.Some? then v.row.value.remoteVersion else None
    requires v.row.Some? ==> !Deleted(v.row.value.payload) && row.base == v.row.value.base
    ensures GameOk(Edit(g, v, id, operation, row), g, s, cursor)
  {
    var v' := Edit(g, v, id, operation, row);
    forall i | 0 <= i < |v'.queue| - 1 ensures !Deleted(v'.queue[i].row.payload) {
      assert v'.queue[i] == v.queue[i];
    }
  }

  lemma ReconciledKeepsBase(v: GameView, r: RemoteGame, pushed: bool, id: nat, s: Server)
    requires Truthful(v) && BaseOk(v, r.id, s)
    requires r.id in s.records && (s.records[r.id].version == r.version ==> s.records[r.id].payload == r.payload)
    ensures BaseOk(Reconciled(v, r, pushed, id), r.id, s)
  {
  }

  lemma ReconciledKeepsGame(v: GameView, r: RemoteGame, pushed: bool, id: nat, s: Server, cursor: nat, reached: nat)
    requires Truthful(v) && GameOk(v, r.id, s, cursor) && cursor <= reached
    requires Snapshot(s, reached, r.id, Some(r))
    ensures GameOk(Reconciled(v, r, pushed, id), r.id, s, reached)
  {
    ReconciledKeepsBase(v, r, pushed, id, s);
  }

  lemma AcknowledgedKeepsBase(v: GameView, e: Entry, version: Option<nat>, s: Server, i: nat)
    requires Truthful(v) && BaseOk(v, e.game, s) && v.row.Some?
    requires i < |v.queue| && v.queue[i].id == e.id && v.queue[i].row == e.row
    requires !Deleted(e.row.payload) && e.game in s.records && version == Some(s.records[e.game].version) ==>
               s.records[e.game].payload == e.row.payload
    requires version == None ==> Deleted(e.row.payload)
    ensures BaseOk(Acknowledged(v, e, version), e.game, s)
  {
    AfterIsSuffix(v.queue, i);
  }

  lemma AcknowledgedKeepsGame(v: GameView, e: Entry, version: Option<nat>, s: Server, cursor: nat)
    requires Truthful(v) && GameOk(v, e.game, s, cursor) && Sent(v, e)
    requires ResultOk(e, Applied(e.game, version), s, cursor)
    ensures GameOk(Acknowledged(v, e, version), e.game, s, cursor)
  {
    var x :| x in v.queue && x.id == e.id && x.row == e.row && x.operation == e.operation;
    var i :| 0 <= i < |v.queue| && v.queue[i] == x;
    AfterIsSuffix(v.queue, i);
    AcknowledgedKeepsBase(v, e, version, s, i);
  }

  lemma ChosenKeepsGame(g: GameId, v: GameView, choice: Choice, selected: Payload, fetched: Option<RemoteGame>,
                        now: string, id: nat, s: Server, cursor: nat)
    requires v.row.Some? && GameOk(v, g, s, cursor) && Snapshot(s, cursor, g, fetched)
    ensures GameOk(Chosen(g, v, choice, selected, fetched, now, id), g, s, cursor)
  {
  }

  lemma DisputeKeepsGame(g: GameId, v: GameView, fetched: Option<RemoteGame>, s: Server, cursor: nat)
    requires v.row.Some? && GameOk(v, g, s, cursor) && Snapshot(s, cursor, g, fetched)
    ensures GameOk(InDispute(v, AsView(fetched)), g, s, cursor)
  {
  }

  // ----- the tables of a device -----

  ghost predicate GamesOk(t: Tables, s: Server) {
    forall g :: GameOk(View(t, g), g, s, t.cursor)
  }

  lemma TouchKeepsGames(t: Tables, t': Tables, g: GameId, s: Server)
    requires GamesOk(t, s) && OnlyTouches(t, t', g) && t'.cursor == t.cursor
    requires GameOk(View(t', g), g, s, t.cursor)
    ensures GamesOk(t', s)
  {
    forall h
      ensures GameOk(View(t', h), h, s, t'.cursor)
    {
      if h != g {
        assert GameOk(View(t, h), h, s, t.cursor);
      }
    }
  }

  lemma EditKeepsGames(t: Tables, g: GameId, operation: Operation, row: Row, s: Server)
    requires TablesOk(t) && GamesOk(t, s)
    requires row.remoteVersion == if g in t.games then t.games[g].remoteVersion else None
    requires g in t.games ==> !Deleted(t.games[g].payload) && row.base == t.games[g].base
    ensures GamesOk(Enqueue(PutRow(t, g, row), g, operation), s)
  {
    EditView(t, g, operation, row);
    assert GameOk(View(t, g), g, s, t.cursor) && Truthful(View(t, g));
    EditKeepsGame(g, View(t, g), NextId(t.outbox), operation, row, s, t.cursor);
    TouchKeepsGames(t, Enqueue(PutRow(t, g, row), g, operation), g, s);
  }

  lemma LocalEditsKeepGames(t: Tables, g: GameId, fields: Payload, now: string, s: Server)
    requires TablesOk(t) && GamesOk(t, s)
    ensures InsertGame(t, g, fields).Some? ==> GamesOk(InsertGame(t, g, fields).value, s)
    ensures UpdateGame(t, g, fields).Some? ==> GamesOk(UpdateGame(t, g, fields).value, s)
    ensures DeleteGame(t, g, now).Some? ==> GamesOk(DeleteGame(t, g, now).value, s)
  {
    if g !in t.games {
      EditKeepsGames(t, g, Upsert, Row(fields[DELETED_AT := Null], None, None, Pending), s);
    } else if !Deleted(t.games[g].payload) {
      var row := t.games[g];
      EditKeepsGames(t, g, Upsert, row.(payload := Edited(row.payload, fields), status := Pending), s);
      EditKeepsGames(t, g, Delete, row.(payload := row.payload[DELETED_AT := Text(now)], status := Pending), s);
    }
  }

  lemma MarksKeepGames(t: Tables, t': Tables, s: Server)
    requires OnlyMarks(t, t') && GamesOk(t, s)
    ensures GamesOk(t', s)
  {
    forall g
      ensures GameOk(View(t', g), g, s, t'.cursor)
    {
      assert GameOk(View(t, g), g, s, t.cursor);
      QueueOfSameSnapshots(t.outbox, t'.outbox, g);
      MarksKeepGame(View(t, g), View(t', g), g, s, t.cursor);
    }
  }

  lemma MarksKeepGame(v: GameView, v': GameView, g: GameId, s: Server, cursor: nat)
    requires GameOk(v, g, s, cursor) && SameSnapshots(v.queue, v'.queue) && v'.conflict == v.conflict
    requires || v'.row == v.row
             || (v.row.Some? && v'.row.Some? && v'.row == Some(v.row.value.(status := v'.row.value.status)))
    ensures GameOk(v', g, s, cursor)
  {
    forall e | e in v'.queue && v.row.Some? ensures VersionOf(e.row) <= VersionOf(v.row.value) {
      var i :| 0 <= i < |v'.queue| && v'.queue[i] == e;
      assert v.queue[i] in v.queue;
    }
  }

  lemma {:induction false} FailureKeepsGames(t: Tables, entries: seq<Entry>, retryable: bool, retryAt: nat, s: Server)
    requires TablesOk(t) && GamesOk(t, s)
    ensures GamesOk(RecordFailure(t, entries, retryable, retryAt), s)
    ensures RecordFailure(t, entries, retryable, retryAt).cursor == t.cursor
  {
    if entries != [] {
      var n := |entries| - 1;
      FailureKeepsGames(t, entries[..n], retryable, retryAt, s);
      FailureKeepsTruth(t, entries[..n], retryable, retryAt);
      var t', e := RecordFailure(t, entries[..n], retryable, retryAt), entries[n];
      EntryFailureMarks(t', e, retryable, retryAt);
      MarksKeepGames(t', RecordEntryFailure(t', e, retryable, retryAt), s);
    }
  }

  lemma EntryFailureMarks(t: Tables, e: Entry, retryable: bool, retryAt: nat)
    requires TablesOk(t)
    ensures OnlyMarks(t, RecordEntryFailure(t, e, retryable, retryAt))
  {
    QueueMembers(t.outbox, e.game);
  }

  // ----- push -----

  lemma StepsKeepCursor(t: Tables, e: Entry, result: MutationResult, r: RemoteGame, pushed: bool)
    ensures ApplyResult(t, e, result).cursor == t.cursor
    ensures ReconcileRemote(t, r, pushed).cursor == t.cursor
  {
  }

  lemma ResultKeepsGames(t: Tables, e: Entry, result: MutationResult, s: Server)
    requires TablesOk(t) && GamesOk(t, s) && Sent(View(t, e.game), e) && ResultOk(e, result, s, t.cursor)
    ensures GamesOk(ApplyResult(t, e, result), s)
  {
    ResultOnlyTouches(t, e, result);
    StepsKeepCursor(t, e, result, RemoteGame(0, 0, EMPTY_PAYLOAD), false);
    assert GameOk(View(t, e.game), e.game, s, t.cursor) && Truthful(View(t, e.game));
    match result
    case Applied(_, version) =>
      AcknowledgeView(t, e, version);
      AcknowledgedKeepsGame(View(t, e.game), e, version, s, t.cursor);
      TouchKeepsGames(t, ApplyResult(t, e, result), e.game, s);
    case Conflicted(_, Some(remote)) =>
      ReconcileView(t, remote, true);
      ReconciledKeepsGame(View(t, e.game), remote, true, NextId(t.outbox), s, t.cursor, t.cursor);
      TouchKeepsGames(t, ApplyResult(t, e, result), e.game, s);
    case Conflicted(_, None) =>
      DisputeView(t, e.game, e.row.payload, Missing, e.row.remoteVersion);
      DisputeKeepsGame(e.game, View(t, e.game), None, s, t.cursor);
      TouchKeepsGames(t, ApplyResult(t, e, result), e.game, s);
  }

  lemma {:induction false} ResultsKeepGames(
      t: Tables, byGame: map<GameId, Entry>, results: seq<MutationResult>, s: Server)
    requires TablesOk(t) && GamesOk(t, s) && OncePerGame(results)
    requires forall r :: r in results ==>
               && r.game in byGame && byGame[r.game].game == r.game
               && Sent(View(t, r.game), byGame[r.game])
               && ResultOk(byGame[r.game], r, s, t.cursor)
    ensures GamesOk(ApplyResults(t, byGame, results), s)
    ensures ApplyResults(t, byGame, results).cursor == t.cursor
  {
    if results != [] {
      var n := |results| - 1;
      var front, last := results[..n], results[n];
      assert results == front + [last];
      ResultsKeepGames(t, byGame, front, s);
      ResultsKeepTruth(t, byGame, front);
      var t', e := ApplyResults(t, byGame, front), byGame[last.game];
      assert forall r :: r in front ==> r.game != last.game;
      assert View(t', last.game) == View(t, last.game);
      ResultKeepsGames(t', e, last, s);
      StepsKeepCursor(t', e, last, RemoteGame(0, 0, EMPTY_PAYLOAD), false);
    }
  }

  lemma FinishPushKeepsGames(t: Tables, entries: seq<Entry>, results: seq<MutationResult>, s: Server)
    requires TablesOk(t) && GamesOk(t, s) && InFlight(t, entries)
    requires |results| == |entries| && forall i :: 0 <= i < |entries| ==> ResultOk(entries[i], results[i], s, t.cursor)
    ensures ApplyPushResults(t, entries, results).Some? ==>
              && GamesOk(ApplyPushResults(t, entries, results).value, s)
              && ApplyPushResults(t, entries, results).value.cursor == t.cursor
  {
    if Answers(entries, results) {
      BatchSize(entries);
      forall r | r in results
        ensures r.game in ByGame(entries) && Sent(View(t, r.game), ByGame(entries)[r.game])
        ensures ResultOk(ByGame(entries)[r.game], r, s, t.cursor)
      {
        var i :| 0 <= i < |results| && results[i] == r;
        assert ResultOk(entries[i], results[i], s, t.cursor);
        assert entries[i] in entries;
      }
      assert OncePerGame(results) by {
        forall i, j | 0 <= i < j < |results|
          ensures results[i].game != results[j].game
        {
          assert ResultOk(entries[i], results[i], s, t.cursor) && ResultOk(entries[j], results[j], s, t.cursor);
        }
      }
      ResultsKeepGames(t, ByGame(entries), results, s);
    }
  }

  // ----- pull -----

  /** Rows bring their own games up to the version the batch reaches, and touch no other game. */
  lemma {:induction false} RowsReach(t: Tables, rows: seq<RemoteGame>, s: Server, reached: nat)
    requires TablesOk(t) && GamesOk(t, s) && t.cursor <= reached
    requires forall r :: r in rows ==> Snapshot(s, reached, r.id, Some(r))
    ensures forall r :: r in rows ==> GameOk(View(ReconcileAll(t, rows), r.id), r.id, s, reached)
    ensures forall g :: (forall r :: r in rows ==> r.id != g) ==> View(ReconcileAll(t, rows), g) == View(t, g)
    ensures ReconcileAll(t, rows).cursor == t.cursor
  {
    if rows != [] {
      var n := |rows| - 1;
      var front, last := rows[..n], rows[n];
      assert rows == front + [last];
      RowsReach(t, front, s, reached);
      PullKeepsTruth(t, front);
      var t' := ReconcileAll(t, front);
      var known := exists r :: r in front && r.id == last.id;
      assert GameOk(View(t, last.id), last.id, s, t.cursor);
      RowReaches(t', last, s, if known then reached else t.cursor, reached);
    }
  }

  lemma RowReaches(t: Tables, r: RemoteGame, s: Server, cursor: nat, reached: nat)
    requires TablesOk(t) && GameOk(View(t, r.id), r.id, s, cursor) && cursor <= reached
    requires Snapshot(s, reached, r.id, Some(r))
    ensures GameOk(View(ReconcileRemote(t, r, false), r.id), r.id, s, reached)
    ensures OnlyTouches(t, ReconcileRemote(t, r, false), r.id) && ReconcileRemote(t, r, false).cursor == t.cursor
  {
    ReconcileView(t, r, false);
    assert Truthful(View(t, r.id));
    ReconciledKeepsGame(View(t, r.id), r, false, NextId(t.outbox), s, cursor, reached);
  }

  lemma FinishPullKeepsGames(t: Tables, rows: seq<RemoteGame>, completed: bool, s: Server)
    requires TablesOk(t) && GamesOk(t, s) && PullOk(rows, s, t.cursor)
    ensures ApplyPullBatch(t, rows, completed).Some?
    ensures GamesOk(ApplyPullBatch(t, rows, completed).value, s)
  {
    var reached := LastVersion(t.cursor, rows);
    LastIsHighest(t.cursor, rows);
    RowsReach(t, rows, s, reached);
    var t' := ApplyPullBatch(t, rows, completed).value;
    forall g
      ensures GameOk(View(t', g), g, s, reached)
    {
      assert View(t', g) == View(ReconcileAll(t, rows), g);
      if r :| r in rows && r.id == g {
        assert GameOk(View(ReconcileAll(t, rows), r.id), r.id, s, reached);
      } else {
        assert GameOk(View(t, g), g, s, t.cursor);
        assert g in s.records && s.records[g].version <= reached ==> s.records[g].version <= t.cursor;
      }
    }
  }

  lemma LastIsHighest(cursor: nat, rows: seq<RemoteGame>)
    requires Ascending(cursor, rows)
    ensures cursor <= LastVersion(cursor, rows)
    ensures forall r :: r in rows ==> cursor < r.version <= LastVersion(cursor, rows)
  {
    if rows != [] {
      var n := |rows| - 1;
      LastIsHighest(cursor, rows[..n]);
      assert rows == rows[..n] + [rows[n]];
    }
  }

  // ----- resolution -----

  lemma ResolveKeepsGames(t: Tables, q: Resolution, fetched: Option<RemoteGame>, now: string, s: Server)
    requires TablesOk(t) && GamesOk(t, s)
    requires q.conflictId < |t.conflicts| && Snapshot(s, t.cursor, t.conflicts[q.conflictId].game, fetched)
    ensures GamesOk(ResolveConflict(t, q, fetched, now).0, s)
    ensures ResolveConflict(t, q, fetched, now).0.cursor == t.cursor
  {
    if Submittable(t, q) {
      var g := t.conflicts[q.conflictId].game;
      var local, selected := t.games[g], Selected(t, q);
      assert GameOk(View(t, g), g, s, t.cursor);
      if fetched.Some? && fetched.value.version < KnownVersion(t, g) {
      } else if fetched.Some? && local.payload == fetched.value.payload == selected {
        SettleView(t, g, FromServer(fetched.value.version, fetched.value.payload));
        TouchKeepsGames(t, ResolveConflict(t, q, fetched, now).0, g, s);
      } else if AsView(fetched) != ComparedRemote(t, q) {
        DisputeView(t, g, local.payload, AsView(fetched), local.remoteVersion);
        DisputeKeepsGame(g, View(t, g), fetched, s, t.cursor);
        if t.conflicts[q.conflictId].open {
          TouchKeepsGames(t, ResolveConflict(t, q, fetched, now).0, g, s);
        }
      } else {
        ChoiceView(t, g, q.choice, selected, fetched, now);
        ChosenKeepsGame(g, View(t, g), q.choice, selected, fetched, now, NextId(t.outbox), s, t.cursor);
        TouchKeepsGames(t, ResolveConflict(t, q, fetched, now).0, g, s);
      }
    }
  }

  // ----- the replies of the server -----

  lemma ApplyGivesResult(s: Server, e: Entry, now: string, cursor: nat)
    requires ServerOk(s) && cursor <= s.head && (e.operation == Delete ==> Deleted(e.row.payload))
    ensures ResultOk(e, Apply(s, BuildChange(e), now).1, Apply(s, BuildChange(e), now).0, cursor)
  {
    if !Deleted(e.row.payload) {
      assert Live(e.row.payload) == e.row.payload;
    }
  }

  lemma EvolutionKeepsResult(e: Entry, result: MutationResult, s: Server, s': Server, cursor: nat)
    requires ResultOk(e, result, s, cursor) && ServerOk(s) && EvolvesTo(s, s') && cursor <= s.head
    ensures ResultOk(e, result, s', cursor)
  {
  }

  lemma {:induction false} BatchGivesResults(s: Server, entries: seq<Entry>, now: string, cursor: nat)
    requires ServerOk(s) && cursor <= s.head
    requires forall e :: e in entries && e.operation == Delete ==> Deleted(e.row.payload)
    ensures var (s', results) := ApplyBatch(s, Changes(entries), now);
            && |results| == |entries|
            && ServerOk(s') && EvolvesTo(s, s')
            && forall i :: 0 <= i < |entries| ==> ResultOk(entries[i], results[i], s', cursor)
  {
    ApplyBatchEvolves(s, Changes(entries), now);
    if entries != [] {
      var n := |entries| - 1;
      assert Changes(entries)[..n] == Changes(entries[..n]);
      BatchGivesResults(s, entries[..n], now, cursor);
      var (s1, results) := ApplyBatch(s, Changes(entries[..n]), now);
      var c := BuildChange(entries[n]);
      ApplyEvolves(s1, c, now);
      ApplyGivesResult(s1, entries[n], now, cursor);
      forall i | 0 <= i < n
        ensures ResultOk(entries[i], results[i], Apply(s1, c, now).0, cursor)
      {
        assert ResultOk(entries[..n][i], results[i], s1, cursor);
        EvolutionKeepsResult(entries[i], results[i], s1, Apply(s1, c, now).0, cursor);
      }
    }
  }

  lemma PullReplyIsOk(s: Server, cursor: nat, limit: nat, rows: seq<RemoteGame>)
    requires ServerOk(s) && cursor <= s.head && IsPullReply(s, cursor, limit, rows)
    ensures PullOk(rows, s, cursor)
  {
    if rows != [] {
      assert rows[|rows| - 1] in rows;
    }
  }

  // ----- every step -----

  lemma LocalKeepsLink(d: Device, a: Action, s: Server)
    requires DeviceOk(d) && LinkOk(d, s) && !IsReply(a)
    ensures LinkOk(Next(d, a), s)
  {
    var t := d.tables;
    match a
    case Insert(g, fields) => LocalEditsKeepGames(t, g, fields, "", s);
    case Update(g, fields) => LocalEditsKeepGames(t, g, fields, "", s);
    case Remove(g, at) => LocalEditsKeepGames(t, g, EMPTY_PAYLOAD, at, s);
    case Retry =>
      RetryOnlyMarks(t);
      MarksKeepGames(t, RetryFailed(t), s);
    case FinishPush =>
      if d.worker.Pushing? && d.worker.reply.Some? {
        FinishPushKeepsGames(t, d.worker.entries, d.worker.reply.value, s);
      }
    case FailPush(retryable, retryAt) =>
      if d.worker.Pushing? { FailureKeepsGames(t, d.worker.entries, retryable, retryAt, s); }
    case FinishPull(completed) =>
      if d.worker.Pulled? { FinishPullKeepsGames(t, d.worker.rows, completed, s); }
    case FinishResolve(q, at) =>
      if d.worker.Fetched? && q.conflictId < |t.conflicts| && t.conflicts[q.conflictId].game == d.worker.game {
        ResolveKeepsGames(t, q, d.worker.remote, at, s);
      }
    case _ =>
  }

  lemma ReplaceDevice(y: System, d: nat, device: Device, s: Server)
    requires SystemOk(y) && d < |y.devices| && ServerOk(s) && EvolvesTo(y.server, s)
    requires DeviceOk(device) && LinkOk(device, s)
    ensures SystemOk(System(s, y.devices[d := device]))
  {
    forall x | x in y.devices[d := device]
      ensures DeviceOk(x) && LinkOk(x, s)
    {
      if x != device {
        assert x in y.devices;
        EvolutionKeepsLink(x, y.server, s);
      }
    }
  }

  lemma LocalKeepsSystem(y: System, d: nat, action: Action)
    requires SystemOk(y)
    ensures SystemOk(SystemNext(y, Local(d, action)))
  {
    if d < |y.devices| && !IsReply(action) {
      var device := y.devices[d];
      assert device in y.devices;
      StepKeepsDevice(device, action);
      LocalKeepsLink(device, action, y.server);
      ReplaceDevice(y, d, Next(device, action), y.server);
    }
  }

  lemma SentDeletionsAreDeleted(d: Device)
    requires DeviceOk(d) && d.worker.Pushing?
    ensures forall e :: e in d.worker.entries && e.operation == Delete ==> Deleted(e.row.payload)
  {
    forall e | e in d.worker.entries && e.operation == Delete ensures Deleted(e.row.payload) {
      assert Sent(View(d.tables, e.game), e) && Truthful(View(d.tables, e.game));
    }
  }

  lemma ServePushKeepsSystem(y: System, d: nat, now: string)
    requires SystemOk(y)
    ensures SystemOk(SystemNext(y, ServePush(d, now)))
  {
    if d < |y.devices| && y.devices[d].worker.Pushing? && y.devices[d].worker.reply == None {
      var device := y.devices[d];
      assert device in y.devices;
      var (s, results) := ApplyBatch(y.server, Changes(device.worker.entries), now);
      PushIsAnswered(device, y.server, now);
      ReplaceDevice(y, d, Next(device, PushReply(results)), s);
    }
  }

  lemma PushIsAnswered(d: Device, server: Server, now: string)
    requires DeviceOk(d) && LinkOk(d, server) && ServerOk(server) && d.worker.Pushing? && d.worker.reply == None
    ensures var (s, results) := ApplyBatch(server, Changes(d.worker.entries), now);
            && ServerOk(s) && EvolvesTo(server, s)
            && DeviceOk(Next(d, PushReply(results))) && LinkOk(Next(d, PushReply(results)), s)
  {
    var (s, results) := ApplyBatch(server, Changes(d.worker.entries), now);
    SentDeletionsAreDeleted(d);
    BatchGivesResults(server, d.worker.entries, now, d.tables.cursor);
    StepKeepsDevice(d, PushReply(results));
    EvolutionKeepsLink(d, server, s);
  }

  lemma ServePullKeepsSystem(y: System, d: nat, limit: nat, rows: seq<RemoteGame>)
    requires SystemOk(y)
    ensures SystemOk(SystemNext(y, ServePull(d, limit, rows)))
  {
    if d < |y.devices| && IsPullReply(y.server, y.devices[d].tables.cursor, limit, rows) {
      var device := y.devices[d];
      assert device in y.devices;
      PullReplyIsOk(y.server, device.tables.cursor, limit, rows);
      StepKeepsDevice(device, PullReply(rows));
      ReplaceDevice(y, d, Next(device, PullReply(rows)), y.server);
    }
  }

  lemma ServeFetchKeepsSystem(y: System, d: nat, g: GameId)
    requires SystemOk(y)
    ensures SystemOk(SystemNext(y, ServeFetch(d, g)))
  {
    if d < |y.devices| {
      var device, reply := y.devices[d], FetchReply(g, Current(y.server, g));
      assert device in y.devices;
      StepKeepsDevice(device, reply);
      ReplaceDevice(y, d, Next(device, reply), y.server);
    }
  }

  lemma OtherWriterKeepsSystem(y: System, change: Change, now: string)
    requires SystemOk(y)
    ensures SystemOk(SystemNext(y, OtherWriter(change, now)))
  {
    var s := Apply(y.server, change, now).0;
    ApplyEvolves(y.server, change, now);
    forall x | x in y.devices
      ensures DeviceOk(x) && LinkOk(x, s)
    {
      EvolutionKeepsLink(x, y.server, s);
    }
  }

  lemma StepKeepsSystem(y: System, a: SystemAction)
    requires SystemOk(y)
    ensures SystemOk(SystemNext(y, a))
  {
    match a
    case Local(d, action) => LocalKeepsSystem(y, d, action);
    case ServePush(d, now) => ServePushKeepsSystem(y, d, now);
    case ServePull(d, limit, rows) => ServePullKeepsSystem(y, d, limit, rows);
    case ServeFetch(d, g) => ServeFetchKeepsSystem(y, d, g);
    case OtherWriter(change, now) => OtherWriterKeepsSystem(y, change, now);
  }

  lemma {:induction false} ReachableSystemOk(y: System, actions: seq<SystemAction>)
    requires Initial(y)
    ensures SystemOk(SystemRun(y, actions))
  {
    if actions == [] {
      ReachableDeviceOk([]);
    } else {
      ReachableSystemOk(y, actions[..|actions| - 1]);
      StepKeepsSystem(SystemRun(y, actions[..|actions| - 1]), actions[|actions| - 1]);
    }
  }

  // ----- main results -----

  /** Nothing waits to be sent, nothing is in dispute, and the pull has caught up. */
  ghost predicate SettledDevice(d: Device, s: Server) {
    && d.tables.outbox == []
    && (forall c :: c in d.tables.conflicts ==> !c.open)
    && d.tables.cursor == s.head
  }

  /** The device shows the record exactly as the server has it, and says so. */
  ghost predicate Holds(t: Tables, g: GameId, record: Record) {
    && g in t.games
    && t.games[g].payload == record.payload
    && t.games[g].remoteVersion == Some(record.version)
    && t.games[g].status == Synced
  }

  /** After any run of any number of devices, a settled device holds exactly the server's fields
      for every record of the server, and every other row it holds is a tombstone. */
  lemma {:induction false} SettledDeviceConverges(y: System, actions: seq<SystemAction>, i: nat)
    requires Initial(y)
    requires i < |SystemRun(y, actions).devices|
    requires SettledDevice(SystemRun(y, actions).devices[i], SystemRun(y, actions).server)
    ensures var s, t := SystemRun(y, actions).server, SystemRun(y, actions).devices[i].tables;
            && (forall g :: g in s.records ==> Holds(t, g, s.records[g]))
            && (forall g :: g in t.games && g !in s.records ==> Deleted(t.games[g].payload))
  {
    ReachableSystemOk(y, actions);
    var s, d := SystemRun(y, actions).server, SystemRun(y, actions).devices[i];
    assert d in SystemRun(y, actions).devices;
    var t := d.tables;
    forall g
      ensures g in s.records ==> Holds(t, g, s.records[g])
      ensures g in t.games && g !in s.records ==> Deleted(t.games[g].payload)
    {
      assert forall i :: 0 <= i < |t.conflicts| ==> !t.conflicts[i].open;
      assert View(t, g).queue == [] && View(t, g).conflict == None;
      assert GameOk(View(t, g), g, s, s.head) && Truthful(View(t, g));
    }
  }

  /** Two settled devices show the same records. */
  lemma {:induction false} SettledDevicesAgree(y: System, actions: seq<SystemAction>, i: nat, j: nat, g: GameId)
    requires Initial(y)
    requires i < |SystemRun(y, actions).devices| && j < |SystemRun(y, actions).devices|
    requires SettledDevice(SystemRun(y, actions).devices[i], SystemRun(y, actions).server)
    requires SettledDevice(SystemRun(y, actions).devices[j], SystemRun(y, actions).server)
    ensures var a, b := SystemRun(y, actions).devices[i].tables.games, SystemRun(y, actions).devices[j].tables.games;
            g in a && !Deleted(a[g].payload) ==> g in b && b[g].payload == a[g].payload
  {
    SettledDeviceConverges(y, actions, i);
    SettledDeviceConverges(y, actions, j);
  }
}
