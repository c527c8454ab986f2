/** The status kept for a game is true, and every step keeps it so. */
module SyncTruth {
  import opened Options
  import opened SyncTypes
  import opened SyncTables
  import opened SyncSteps
  import opened SyncViews
  import SyncMerge

  /** The status of a game agrees with what is queued and with its open conflict, and the newest
      queued snapshot is the row itself. */
  ghost predicate Truthful(v: GameView) {
    match v.row
    case None => v.queue == [] && v.conflict == None
    case Some(row) =>
      && (row.status == Synced <==> v.queue == [] && v.conflict == None)
      && (row.status == InConflict ==> v.conflict.Some?)
      && (row.status == Pending || row.status == Failed ==> v.queue != [])
      && (v.queue != [] ==> v.queue[|v.queue| - 1].row.payload == row.payload)
      && (row.remoteVersion.Some? ==> row.base.Some?)
      && (forall e :: e in v.queue && e.operation == Delete ==> Deleted(e.row.payload))
      && Increasing(v.queue)
  }

  ghost predicate TablesOk(t: Tables) {
    && Increasing(t.outbox)
    && forall g :: Truthful(View(t, g))
  }

  // ----- one game -----

  lemma SuffixIsQueue(queue: seq<Entry>, i: nat)
    requires i <= |queue| && Increasing(queue)
    requires forall e :: e in queue && e.operation == Delete ==> Deleted(e.row.payload)
    ensures Increasing(queue[i..]) && forall e :: e in queue[i..] && e.operation == Delete ==> Deleted(e.row.payload)
  {
  }

  /** A row with an acknowledged base and what is queued after the acknowledged entry. */
  lemma RestIsTruthful(v: GameView, i: nat, version: Option<nat>, base: Payload)
    requires Truthful(v) && v.conflict == None && v.row.Some? && i < |v.queue|
    ensures var rest := v.queue[i + 1..];
            var row := Row(v.row.value.payload, version, Some(base), if rest == [] then Synced else Pending);
            Truthful(GameView(Some(row), rest, None))
  {
    SuffixIsQueue(v.queue, i + 1);
  }

  lemma AcknowledgedIsTruthful(v: GameView, e: Entry, version: Option<nat>)
    requires Truthful(v) && v.conflict == None
    ensures Truthful(Acknowledged(v, e, version))
  {
    if IntactIn(v.queue, e) && v.row.Some? {
      var i :| 0 <= i < |v.queue| && v.queue[i].id == e.id;
      AfterIsSuffix(v.queue, i);
      RestIsTruthful(v, i, if version.Some? then version else v.row.value.remoteVersion, e.row.payload);
    }
  }

  lemma ReconciledIsTruthful(v: GameView, r: RemoteGame, pushed: bool, id: nat)
    requires Truthful(v)
    ensures Truthful(Reconciled(v, r, pushed, id))
  {
    if v.row.Some? && Decide(v.row.value.base, v.row.value.payload, r.payload).Rebased? {
      SyncMerge.RebaseIsStable(v.row.value.base.value, v.row.value.payload, r.payload);
    }
  }

  lemma ChosenIsTruthful(g: GameId, v: GameView, choice: Choice, selected: Payload, fetched: Option<RemoteGame>,
                         now: string, id: nat)
    requires v.row.Some?
    ensures Truthful(Chosen(g, v, choice, selected, fetched, now, id))
  {
  }

  // ----- the tables -----

  lemma TouchKeepsTruth(t: Tables, t': Tables, g: GameId)
    requires TablesOk(t) && OnlyTouches(t, t', g) && Truthful(View(t', g))
    ensures TablesOk(t')
  {
    forall h
      ensures Truthful(View(t', h))
    {
      if h != g {
        assert Truthful(View(t, h));
      }
    }
  }

  lemma EditKeepsTruth(t: Tables, g: GameId, operation: Operation, row: Row)
    requires TablesOk(t)
    requires row.status == Pending && (row.remoteVersion.Some? ==> row.base.Some?)
    requires operation == Delete ==> Deleted(row.payload)
    ensures TablesOk(Enqueue(PutRow(t, g, row), g, operation))
  {
    EditView(t, g, operation, row);
    assert Truthful(View(t, g));
    QueueMembers(t.outbox, g);
    TouchKeepsTruth(t, Enqueue(PutRow(t, g, row), g, operation), g);
  }

  lemma LocalEditsKeepTruth(t: Tables, g: GameId, fields: Payload, now: string)
    requires TablesOk(t)
    ensures InsertGame(t, g, fields).Some? ==> TablesOk(InsertGame(t, g, fields).value)
    ensures UpdateGame(t, g, fields).Some? ==> TablesOk(UpdateGame(t, g, fields).value)
    ensures DeleteGame(t, g, now).Some? ==> TablesOk(DeleteGame(t, g, now).value)
  {
    if g !in t.games {
      EditKeepsTruth(t, g, Upsert, Row(fields[DELETED_AT := Null], None, None, Pending));
    } else {
      assert Truthful(View(t, g));
      var row := t.games[g];
      EditKeepsTruth(t, g, Upsert, row.(payload := Edited(row.payload, fields), status := Pending));
      EditKeepsTruth(t, g, Delete, row.(payload := row.payload[DELETED_AT := Text(now)], status := Pending));
    }
  }

  lemma AcknowledgeKeepsTruth(t: Tables, e: Entry, version: Option<nat>)
    requires TablesOk(t) && View(t, e.game).conflict == None && e.game in t.games
    ensures TablesOk(AcknowledgeEntry(t, e, version))
  {
    AcknowledgeView(t, e, version);
    assert Truthful(View(t, e.game));
    AcknowledgedIsTruthful(View(t, e.game), e, version);
    TouchKeepsTruth(t, AcknowledgeEntry(t, e, version), e.game);
  }

  lemma ReconcileKeepsTruth(t: Tables, r: RemoteGame, pushed: bool)
    requires TablesOk(t)
    ensures TablesOk(ReconcileRemote(t, r, pushed))
  {
    ReconcileView(t, r, pushed);
    assert Truthful(View(t, r.id));
    ReconciledIsTruthful(View(t, r.id), r, pushed, NextId(t.outbox));
    TouchKeepsTruth(t, ReconcileRemote(t, r, pushed), r.id);
  }

  lemma DisputeKeepsTruth(t: Tables, g: GameId, local: Payload, remote: RemoteView, baseVersion: Option<nat>)
    requires TablesOk(t) && g in t.games
    ensures TablesOk(StoreConflict(t, g, local, remote, baseVersion))
  {
    DisputeView(t, g, local, remote, baseVersion);
    assert Truthful(View(t, g));
    TouchKeepsTruth(t, StoreConflict(t, g, local, remote, baseVersion), g);
  }

  lemma SettleKeepsTruth(t: Tables, r: RemoteGame)
    requires TablesOk(t)
    ensures TablesOk(RetireConflicts(ClearQueue(ApplyRemoteRow(t, r), r.id), r.id))
  {
    var t' := RetireConflicts(ClearQueue(ApplyRemoteRow(t, r), r.id), r.id);
    SettleView(t, r.id, FromServer(r.version, r.payload));
    TouchKeepsTruth(t, t', r.id);
  }

  lemma ChoiceKeepsTruth(t: Tables, g: GameId, choice: Choice, selected: Payload, fetched: Option<RemoteGame>,
                         now: string)
    requires TablesOk(t) && g in t.games
    ensures TablesOk(RetireConflicts(ApplyChoice(t, g, choice, selected, fetched, now), g))
  {
    ChoiceView(t, g, choice, selected, fetched, now);
    ChosenIsTruthful(g, View(t, g), choice, selected, fetched, now, NextId(t.outbox));
    TouchKeepsTruth(t, RetireConflicts(ApplyChoice(t, g, choice, selected, fetched, now), g), g);
  }

  lemma ResolveKeepsTruth(t: Tables, q: Resolution, fetched: Option<RemoteGame>, now: string)
    requires TablesOk(t)
    ensures TablesOk(ResolveConflict(t, q, fetched, now).0)
  {
    if Submittable(t, q) && (fetched.Some? ==> fetched.value.id == t.conflicts[q.conflictId].game) {
      var g := t.conflicts[q.conflictId].game;
      var local, selected := t.games[g], Selected(t, q);
      if fetched.Some? && fetched.value.version < KnownVersion(t, g) {
      } else if fetched.Some? && local.payload == fetched.value.payload == selected {
        SettleKeepsTruth(t, fetched.value);
      } else if AsView(fetched) != ComparedRemote(t, q) {
        DisputeKeepsTruth(t, g, local.payload, AsView(fetched), local.remoteVersion);
      } else {
        ChoiceKeepsTruth(t, g, q.choice, selected, fetched, now);
      }
    }
  }
}
