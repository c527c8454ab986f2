/** The repository object: it owns the local tables and changes them in place. Each method is one
    transaction; its contract equates the new tables with a step of SyncSteps. */
module SyncRepositories {
  import opened Options
  import opened SyncTypes
  import opened SyncTables
  import opened SyncSteps
  import opened SyncTruth
  import opened SyncDevice

  class SyncRepository {
    var games: map<GameId, Row>
    var outbox: seq<Entry>
    var conflicts: seq<ConflictRow>
    var cursor: nat
    var initialSyncCompleted: bool

    function Model(): Tables
      reads this
    {
      Tables(games, outbox, conflicts, cursor, initialSyncCompleted)
    }

    constructor ()
      ensures Model() == NO_TABLES && TablesOk(Model())
    {
      games, outbox, conflicts, cursor, initialSyncCompleted := map[], [], [], 0, false;
      new;
      ReachableDeviceOk([]);
    }

    // ----- local edits -----

    /** Queues the current row of a game. */
    method EnqueueGameChange(g: GameId, operation: Operation)
      requires g in games
      modifies this`outbox
      ensures Model() == Enqueue(old(Model()), g, operation)
    {
      outbox := outbox + [Entry(NextId(outbox), g, operation, games[g], false, None)];
    }

    method Insert(g: GameId, fields: Payload) returns (ok: bool)
      requires TablesOk(Model())
      modifies this
      ensures ok <==> InsertGame(old(Model()), g, fields).Some?
      ensures Model() == OrSame(old(Model()), InsertGame(old(Model()), g, fields))
      ensures TablesOk(Model())
    {
      LocalEditsKeepTruth(Model(), g, fields, "");
      ok := g !in games;
      if ok {
        games := games[g := Row(fields[DELETED_AT := Null], None, None, Pending)];
        EnqueueGameChange(g, Upsert);
      }
    }

    method Update(g: GameId, fields: Payload) returns (ok: bool)
      requires TablesOk(Model())
      modifies this
      ensures ok <==> UpdateGame(old(Model()), g, fields).Some?
      ensures Model() == OrSame(old(Model()), UpdateGame(old(Model()), g, fields))
      ensures TablesOk(Model())
    {
      LocalEditsKeepTruth(Model(), g, fields, "");
      ok := g in games && !Deleted(games[g].payload);
      if ok {
        games := games[g := games[g].(payload := Edited(games[g].payload, fields), status := Pending)];
        EnqueueGameChange(g, Upsert);
      }
    }

    method Remove(g: GameId, now: string) returns (ok: bool)
      requires TablesOk(Model())
      modifies this
      ensures ok <==> DeleteGame(old(Model()), g, now).Some?
      ensures Model() == OrSame(old(Model()), DeleteGame(old(Model()), g, now))
      ensures TablesOk(Model())
    {
      LocalEditsKeepTruth(Model(), g, EMPTY_PAYLOAD, now);
      ok := g in games && !Deleted(games[g].payload);
      if ok {
        games := games[g := games[g].(payload := games[g].payload[DELETED_AT := Text(now)], status := Pending)];
        EnqueueGameChange(g, Delete);
      }
    }

    // ----- push -----

    /** The newest due change of every game not in dispute, at most `limit` of them. */
    method Due(limit: nat, now: nat) returns (entries: seq<Entry>)
      requires TablesOk(Model())
      ensures entries == FetchDue(Model(), limit, now)
      ensures InFlight(Model(), entries)
    {
      entries := [];
      for i := 0 to |outbox|
        invariant entries == DueAmong(Model(), i, now)
      {
        if IsDue(Model(), outbox[i], now) {
          entries := entries + [outbox[i]];
        }
      }
      if |entries| > limit {
        entries := entries[..limit];
      }
      PushPicksNewest(Model(), limit, now);
    }

    /** An entry that was sent is of a game not in dispute; acknowledging it keeps the rows true. */
    method Acknowledge(e: Entry, version: Option<nat>)
      modifies this
      ensures Model() == AcknowledgeEntry(old(Model()), e, version)
      ensures old(TablesOk(Model()) && e.game in games && View(Model(), e.game).conflict == None) ==> TablesOk(Model())
    {
      if TablesOk(Model()) && e.game in games && View(Model(), e.game).conflict == None {
        AcknowledgeKeepsTruth(Model(), e, version);
      }
      if !Intact(outbox, e) {
        return;
      }
      if version.Some? && e.game in games && VersionOf(games[e.game]) > version.value {
        return;
      }
      outbox := WithoutUpTo(outbox, e.game, e.id);
      if e.game in games {
        var status := if QueueOf(outbox, e.game) == [] then Synced else Pending;
        var row := games[e.game];
        games := games[e.game := Row(row.payload, if version.Some? then version else row.remoteVersion,
                                     Some(e.row.payload), status)];
      }
    }

    method AcknowledgeBatch(entries: seq<Entry>, versions: map<GameId, nat>)
      modifies this
      ensures Model() == AcknowledgeAll(old(Model()), entries, versions)
    {
      for i := 0 to |entries|
        invariant Model() == AcknowledgeAll(old(Model()), entries[..i], versions)
      {
        assert entries[..i + 1][..i] == entries[..i];
        var g := entries[i].game;
        Acknowledge(entries[i], if g in versions then Some(versions[g]) else None);
      }
      assert entries[..|entries|] == entries;
    }

    method Retire(g: GameId)
      modifies this`conflicts
      ensures Model() == RetireConflicts(old(Model()), g)
    {
      conflicts := Closed(conflicts, g);
    }

    method Dispute(g: GameId, local: Payload, remote: RemoteView, baseVersion: Option<nat>)
      modifies this`conflicts, this`games
      ensures Model() == StoreConflict(old(Model()), g, local, remote, baseVersion)
    {
      conflicts := RecordConflict(conflicts, ConflictRow(g, local, remote, baseVersion, true));
      if g in games {
        games := games[g := games[g].(status := InConflict)];
      }
    }

    method ApplyRemote(r: RemoteGame)
      modifies this`games
      ensures Model() == ApplyRemoteRow(old(Model()), r)
    {
      games := games[r.id := Row(r.payload, Some(r.version), Some(r.payload), Synced)];
    }

    /** Queues the current row first, so that no id in use is given out again, then drops the rest. */
    method Requeue(g: GameId, operation: Operation)
      requires g in games
      modifies this`outbox
      ensures Model() == ReplaceOutbox(old(Model()), g, operation)
    {
      var id := NextId(outbox);
      EnqueueGameChange(g, operation);
      outbox := WithoutUpTo(outbox, g, id - 1);
    }

    method Reconcile(r: RemoteGame, pushed: bool)
      modifies this
      ensures Model() == ReconcileRemote(old(Model()), r, pushed)
      ensures old(TablesOk(Model())) ==> TablesOk(Model())
    {
      if TablesOk(Model()) {
        ReconcileKeepsTruth(Model(), r, pushed);
      }
      var g := r.id;
      if g !in games {
        ApplyRemote(r);
        return;
      }
      var local := games[g];
      if r.version < VersionOf(local) {
        return;
      }
      var conflict := OpenRemote(conflicts, g);
      if conflict.Some? && r.version < ViewVersion(conflict.value) {
        return;
      }
      if !pushed && QueueOf(outbox, g) == [] {
        ApplyRemote(r);
        Retire(g);
        return;
      }
      match Decide(local.base, local.payload, r.payload)
      case Converged =>
        ApplyRemote(r);
        outbox := Without(outbox, g);
        Retire(g);
      case Conflicting =>
        Dispute(g, local.payload, Present(r.version, r.payload), local.remoteVersion);
      case Rebased(merged) =>
        games := games[g := Row(merged, Some(r.version), Some(r.payload), Pending)];
        Requeue(g, ResolutionOperation(local.payload, r.payload));
        Retire(g);
    }

    method ApplyAll(byGame: map<GameId, Entry>, results: seq<MutationResult>)
      requires forall r :: r in results ==> r.game in byGame
      modifies this
      ensures Model() == ApplyResults(old(Model()), byGame, results)
    {
      for i := 0 to |results|
        invariant Model() == ApplyResults(old(Model()), byGame, results[..i])
      {
        assert results[..i + 1][..i] == results[..i];
        var e := byGame[results[i].game];
        match results[i]
        case Applied(_, version) => Acknowledge(e, version);
        case Conflicted(_, Some(remote)) => Reconcile(remote, true);
        case Conflicted(_, None) => Dispute(e.game, e.row.payload, Missing, e.row.remoteVersion);
      }
      assert results[..|results|] == results;
    }

    /** Partial success and conflicts of one push, in one transaction; nothing on a mismatch. */
    method FinishPush(entries: seq<Entry>, results: seq<MutationResult>) returns (ok: bool)
      requires TablesOk(Model()) && InFlight(Model(), entries) && WellFormedReply(entries, results)
      modifies this
      ensures ok <==> Answers(entries, results)
      ensures Model() == OrSame(old(Model()), ApplyPushResults(old(Model()), entries, results))
      ensures TablesOk(Model())
    {
      FinishPushKeepsTruth(Model(), entries, results);
      var byGame := ByGame(entries);
      ok := byGame.Keys == set r | r in results :: r.game;
      if ok {
        assert forall r :: r in results ==> r.game in set r' | r' in results :: r'.game;
        ApplyAll(byGame, results);
      }
    }

    // ----- pull -----

    /** Reconciles the rows while their versions ascend; the first one out of order rolls back. */
    method ReconcileRows(rows: seq<RemoteGame>) returns (newCursor: Option<nat>)
      modifies this
      ensures newCursor == if Ascending(old(cursor), rows) then Some(LastVersion(old(cursor), rows)) else None
      ensures Model() == if newCursor.Some? then ReconcileAll(old(Model()), rows) else old(Model())
    {
      var gamesBefore, outboxBefore, conflictsBefore := games, outbox, conflicts;
      var cursorBefore, completedBefore := cursor, initialSyncCompleted;
      var previous := cursor;
      for i := 0 to |rows|
        invariant Model() == ReconcileAll(old(Model()), rows[..i])
        invariant Ascending(old(cursor), rows[..i])
        invariant previous == LastVersion(old(cursor), rows[..i])
      {
        AscendingByRow(old(cursor), rows, i);
        if rows[i].version <= previous {
          games, outbox, conflicts := gamesBefore, outboxBefore, conflictsBefore;
          cursor, initialSyncCompleted := cursorBefore, completedBefore;
          return None;
        }
        assert rows[..i + 1][..i] == rows[..i];
        Reconcile(rows[i], false);
        previous := rows[i].version;
      }
      assert rows[..|rows|] == rows;
      return Some(previous);
    }

    /** One batch of a pull: rows and cursor together, or nothing at all. */
    method FinishPull(rows: seq<RemoteGame>, completed: bool) returns (newCursor: Option<nat>)
      requires TablesOk(Model())
      modifies this
      ensures newCursor == if Ascending(old(cursor), rows) then Some(LastVersion(old(cursor), rows)) else None
      ensures Model() == OrSame(old(Model()), ApplyPullBatch(old(Model()), rows, completed))
      ensures TablesOk(Model())
    {
      PullKeepsTruth(Model(), rows);
      CursorKeptByRows(Model(), rows);
      newCursor := ReconcileRows(rows);
      if newCursor.Some? {
        ghost var t := Model();
        cursor, initialSyncCompleted := newCursor.value, initialSyncCompleted || completed;
        assert forall g :: View(Model(), g) == View(t, g);
      }
    }

    // ----- failures -----

    method RecordFailures(entries: seq<Entry>, retryable: bool, retryAt: nat)
      requires TablesOk(Model())
      modifies this
      ensures Model() == RecordFailure(old(Model()), entries, retryable, retryAt)
      ensures TablesOk(Model())
    {
      FailureKeepsTruth(Model(), entries, retryable, retryAt);
      for i := 0 to |entries|
        invariant Model() == RecordFailure(old(Model()), entries[..i], retryable, retryAt)
      {
        assert entries[..i + 1][..i] == entries[..i];
        var e := entries[i];
        var queued := exists x :: x in outbox && x.id == e.id && x.game == e.game;
        outbox := Marked(outbox, e.id, if retryable then retryAt else NEVER);
        if e.game in games && games[e.game].status != InConflict && queued {
          games := games[e.game := games[e.game].(status := if retryable then Pending else Failed)];
        }
      }
      assert entries[..|entries|] == entries;
    }

    method RetryAll()
      requires TablesOk(Model())
      modifies this
      ensures Model() == RetryFailed(old(Model()))
      ensures TablesOk(Model())
    {
      RetryOnlyMarks(Model());
      MarksKeepTruth(Model(), RetryFailed(Model()));
      outbox := Unmarked(outbox);
      games := map g | g in games :: if games[g].status == Failed then games[g].(status := Pending) else games[g];
    }

    // ----- conflict resolution -----

    /** Stores what the user chose over what the server has. */
    method Choose(g: GameId, choice: Choice, selected: Payload, fetched: Option<RemoteGame>, now: string)
      requires g in games
      modifies this
      ensures Model() == ApplyChoice(old(Model()), g, choice, selected, fetched, now)
    {
      var payload := games[g].payload;
      if fetched == None {
        if choice == UseRemote || Truthy(selected[DELETED_AT]) {
          var gone := if Deleted(payload) then payload else payload[DELETED_AT := Text(now)];
          games := games[g := Row(gone, None, None, Synced)];
          outbox := Without(outbox, g);
        } else {
          games := games[g := Row(selected, None, None, Pending)];
          Requeue(g, Upsert);
        }
      } else {
        var remote := fetched.value;
        if choice == UseRemote || selected == remote.payload {
          games := games[g := Row(remote.payload, Some(remote.version), Some(remote.payload), Synced)];
          outbox := Without(outbox, g);
        } else {
          games := games[g := Row(selected, Some(remote.version), Some(remote.payload), Pending)];
          Requeue(g, ResolutionOperation(selected, remote.payload));
        }
      }
    }

    method Resolve(q: Resolution, fetched: Option<RemoteGame>, now: string) returns (verdict: Verdict)
      requires TablesOk(Model())
      modifies this
      ensures (Model(), verdict) == ResolveConflict(old(Model()), q, fetched, now)
      ensures TablesOk(Model())
    {
      ResolveKeepsTruth(Model(), q, fetched, now);
      if !Submittable(Model(), q) {
        return Stale;
      }
      var g := conflicts[q.conflictId].game;
      var local := games[g];
      var compared, selected := ComparedRemote(Model(), q), Selected(Model(), q);
      if fetched.Some? && fetched.value.id != g {
        return Refused;
      }
      if fetched.Some? && fetched.value.version < KnownVersion(Model(), g) {
        return Stale;
      }
      if fetched.Some? && local.payload == fetched.value.payload == selected {
        ApplyRemote(fetched.value);
        outbox := Without(outbox, g);
        Retire(g);
        return Resolved;
      }
      if AsView(fetched) != compared {
        if conflicts[q.conflictId].open {
          Dispute(g, local.payload, AsView(fetched), local.remoteVersion);
        }
        return Stale;
      }
      Choose(g, q.choice, selected, fetched, now);
      Retire(g);
      return Resolved;
    }

    // ----- status -----

    /** Of tables whose rows are true: synced exactly when nothing is queued, no conflict is open and,
        where required, the initial download has finished; failed exactly when a conflict is open or a
        queued change has failed. */
    method Status(requireInitialSync: bool) returns (phase: Phase, pending: nat, failed: nat, disputed: nat)
      ensures phase == CurrentPhase(Model(), requireInitialSync)
      ensures pending == |PendingGames(Model())| && failed == |FailedGames(Model())|
      ensures disputed == |OpenConflicts(Model())|
      ensures failed <= pending
      ensures TablesOk(Model()) ==>
                (phase == PhaseSynced <==>
                  && outbox == [] && (forall c :: c in conflicts ==> !c.open)
                  && (requireInitialSync ==> initialSyncCompleted))
      ensures TablesOk(Model()) ==>
                (phase == PhaseFailed
                 <==> (exists c :: c in conflicts && c.open) || (exists e :: e in outbox && e.failed))
    {
      if TablesOk(Model()) {
        PhaseIsTruthful(Model(), requireInitialSync);
      }
      SmallerIsFewer(FailedGames(Model()), PendingGames(Model()));
      pending := |PendingGames(Model())|;
      failed := |FailedGames(Model())|;
      disputed := |OpenConflicts(Model())|;
      if failed > 0 || disputed > 0 {
        phase := PhaseFailed;
      } else if pending > 0 || (requireInitialSync && !initialSyncCompleted) {
        phase := PhasePending;
      } else {
        phase := PhaseSynced;
      }
    }
  }

  lemma {:induction false} SmallerIsFewer(a: set<GameId>, b: set<GameId>)
    requires a <= b
    ensures |a| <= |b|
  {
    if x :| x in a {
      SmallerIsFewer(a - {x}, b - {x});
    }
  }
}
