/** Repeated and outdated writes in every run of the whole system: what the rows know of the server is
    an invariant there, not an assumption. */
module SyncDelivery {
  import opened Options
  import opened SyncTypes
  import opened SyncTables
  import opened SyncSteps
  import opened SyncViews
  import opened SyncTruth
  import opened SyncServer
  import opened SyncSystem
  import opened SyncPromises

  /** Some run of the whole system ends in it. */
  ghost predicate Reachable(last: System) {
    exists y, actions :: Initial(y) && last == SystemRun(y, actions)
  }

  /** In a sound system the tables of a device hold of a game what the server had. */
  lemma ReachableGame(last: System, i: nat, g: GameId)
    requires Reachable(last) && i < |last.devices|
    ensures var t := last.devices[i].tables;
            && ServerOk(last.server) && TablesOk(t) && Truthful(View(t, g))
            && GameOk(View(t, g), g, last.server, t.cursor)
  {
    var y, actions :| Initial(y) && last == SystemRun(y, actions);
    ReachableSystemOk(y, actions);
    assert last.devices[i] in last.devices;
  }

  lemma KnownVersionIsOld(v: GameView, g: GameId, s: Server, cursor: nat)
    requires GameOk(v, g, s, cursor) && ServerOk(s) && v.row.Some?
    ensures VersionOf(v.row.value) <= s.head
    ensures v.queue != [] ==> VersionOf(v.queue[|v.queue| - 1].row) <= VersionOf(v.row.value)
  {
    if v.queue != [] {
      assert v.queue[|v.queue| - 1] in v.queue;
    }
  }

  /** A deletion of a known version was applied and its reply lost; `before` is the server the device ran
      against. Sending it again settles the game exactly when the deletion is the only unsent edit. */
  lemma {:induction false} RepeatedDeletion(last: System, i: nat, e: Entry, s: Server, written: string, now: string)
    requires Reachable(last) && i < |last.devices|
    requires Lost(last.devices[i].tables, e, last.server, s, written)
    requires e.operation == Delete && e.row.remoteVersion.Some?
    ensures var before, t := last.server, last.devices[i].tables;
            var v := View(t, e.game);
            && e == v.queue[|v.queue| - 1] && v.row.value.base.Some?
            && Apply(s, BuildChange(e), now) == (s, Conflicted(e.game, Current(s, e.game)))
            && View(ApplyResult(t, e, Conflicted(e.game, Current(s, e.game))), e.game)
               == if ChangedFields(v.row.value.base.value, e.row.payload) == {DELETED_AT}
                  then Settled(FromServer(before.head + 1, Current(s, e.game).value.payload))
                  else InDispute(v, Present(before.head + 1, Current(s, e.game).value.payload))
  {
    var before, d := last.server, last.devices[i];
    ReachableGame(last, i, e.game);
    DeletionIsNewest(View(d.tables, e.game), e, before, d.tables.cursor);
    KnownVersionIsOld(View(d.tables, e.game), e.game, before, d.tables.cursor);
    LostDeletionIsRefused(e, before, s, written, now);
    LostDeletionIsAbsorbedUnless(d.tables, e, before, s, written, now);
  }

  /** A queued deletion that the server accepts is the newest entry, on the version of its row. */
  lemma DeletionIsNewest(v: GameView, e: Entry, s: Server, cursor: nat)
    requires GameOk(v, e.game, s, cursor) && ServerOk(s) && Truthful(v)
    requires v.row.Some? && e in v.queue && e.operation == Delete
    requires e.game in s.records && e.row.remoteVersion == Some(s.records[e.game].version)
    ensures e == v.queue[|v.queue| - 1]
    ensures v.row.value.base.Some? && AllEquivalent(v.row.value.base.value, s.records[e.game].payload)
  {
    var i :| 0 <= i < |v.queue| && v.queue[i] == e;
    assert VersionOf(e.row) <= VersionOf(v.row.value);
  }

  /** Sending the newest entry is applied if it is a deletion without a known version; otherwise it is
      refused, and opens a conflict exactly when the edits clash with the lost write. */
  ghost predicate ConflictsOnClash(t: Tables, lost: Entry, before: Server, s: Server, now: string) {
    var v := View(t, lost.game);
    && v.queue != [] && v.row.Some?
    && var e := v.queue[|v.queue| - 1];
       var refused := Conflicted(lost.game, Some(RemoteGame(lost.game, before.head + 1, lost.row.payload)));
       if e.operation == Delete && e.row.remoteVersion == None
       then Apply(s, BuildChange(e), now).1 == Applied(lost.game, Some(s.head + 1))
       else
         && Apply(s, BuildChange(e), now) == (s, refused)
         && (View(ApplyResult(t, e, refused), lost.game).conflict.Some?
             <==> EditsClash(v.row.value.base, lost.row.payload, v.row.value.payload))
  }

  lemma EditsMeetLostWrite(t: Tables, lost: Entry, before: Server, s: Server, written: string, now: string)
    requires TablesOk(t) && GameOk(View(t, lost.game), lost.game, before, t.cursor)
    requires Lost(t, lost, before, s, written)
    requires lost.operation != Delete && !Deleted(lost.row.payload)
    ensures ConflictsOnClash(t, lost, before, s, now)
  {
    var v := View(t, lost.game);
    KnownVersionIsOld(v, lost.game, before, t.cursor);
    var e := v.queue[|v.queue| - 1];
    if e.operation == Delete && e.row.remoteVersion == None {
      NewestIsOfGame(t, lost.game);
      LostWriteIsRefused(lost, before, s, written, now);
      BlindDeletionIsTaken(e, s, RemoteGame(lost.game, before.head + 1, lost.row.payload), now);
    } else {
      LostWriteMeetsEdits(t, lost, before, s, written, now);
    }
  }

  lemma BlindDeletionIsTaken(e: Entry, s: Server, r: RemoteGame, now: string)
    requires e.game == r.id && e.operation == Delete && e.row.remoteVersion == None
    requires Current(s, r.id) == Some(r) && !Deleted(r.payload)
    ensures Apply(s, BuildChange(e), now).1 == Applied(r.id, Some(s.head + 1))
  {
  }

  /** A live write was applied and its reply lost, and the game may have been edited since. */
  lemma {:induction false} LostWriteThenEdits(
      last: System, i: nat, lost: Entry, s: Server, written: string, now: string)
    requires Reachable(last) && i < |last.devices|
    requires Lost(last.devices[i].tables, lost, last.server, s, written)
    requires lost.operation != Delete && !Deleted(lost.row.payload)
    ensures ConflictsOnClash(last.devices[i].tables, lost, last.server, s, now)
  {
    ReachableGame(last, i, lost.game);
    EditsMeetLostWrite(last.devices[i].tables, lost, last.server, s, written, now);
  }

  /** An entry that is queued on an older version than its row has, which is the server's: at most two
      pushes deliver it, and no conflict is opened. */
  lemma {:induction false} OutdatedWriteIsDelivered(last: System, i: nat, g: GameId, now: string)
    requires Reachable(last) && i < |last.devices|
    requires var s, v := last.server, View(last.devices[i].tables, g);
             && v.queue != [] && v.conflict == None && v.row.Some?
             && g in s.records && v.row.value.remoteVersion == Some(s.records[g].version)
             && !(Deleted(v.row.value.payload) && Deleted(s.records[g].payload))
             && var e := v.queue[|v.queue| - 1];
                e.row.remoteVersion != v.row.value.remoteVersion && (Deleted(e.row.payload) ==> e.operation == Delete)
    ensures DeliveredByTwoPushes(last.devices[i].tables, g, last.server, now)
  {
    var s, d := last.server, last.devices[i];
    ReachableGame(last, i, g);
    NewestIsOfGame(d.tables, g);
    assert View(d.tables, g).queue[|View(d.tables, g).queue| - 1] in View(d.tables, g).queue;
    StaleWriteIsAbsorbed(d.tables, g, s, now);
  }
}
