/** What the repository promises about acknowledgements, repeated and lost replies, pulls and
    conflict resolution. */
module SyncPromises {
  import opened Options
  import opened SyncTypes
  import opened SyncTables
  import opened SyncSteps
  import opened SyncViews
  import opened SyncTruth
  import opened SyncDevice
  import opened SyncServer

  // ----- acknowledgement -----

  predicate IsEdit(a: Action) {
    a.Insert? || a.Update? || a.Remove? || a.Retry?
  }

  /** The server version the row is based on, if it has one. */
  function BasedOn(v: GameView): Option<nat> {
    if v.row.Some? then v.row.value.remoteVersion else None
  }

  /** A snapshot taken on the version; it is deleted exactly when a deletion was queued. */
  predicate TakenOn(e: Entry, version: Option<nat>) {
    e.row.remoteVersion == version && (e.operation == Delete <==> Deleted(e.row.payload))
  }

  /** The queue only grew, by snapshots on the version there was, and version and conflict are as
      before. */
  ghost predicate Extends(v: GameView, v': GameView) {
    && |v.queue| <= |v'.queue|
    && SameSnapshots(v.queue, v'.queue[..|v.queue|])
    && (forall i :: |v.queue| <= i < |v'.queue| ==> TakenOn(v'.queue[i], BasedOn(v)))
    && v'.conflict == v.conflict
    && BasedOn(v') == BasedOn(v)
    && (v.row.Some? ==> v'.row.Some?)
  }

  lemma EnqueueExtends(t: Tables, h: GameId, operation: Operation, row: Row, g: GameId)
    requires TablesOk(t)
    requires row.remoteVersion == BasedOn(View(t, h))
    requires operation == Delete <==> Deleted(row.payload)
    ensures Extends(View(t, g), View(Enqueue(PutRow(t, h, row), h, operation), g))
  {
    EditView(t, h, operation, row);
    if g == h {
      AppendExtends(View(t, g), Queued(h, NextId(t.outbox), operation, row), Some(row));
    } else {
      ExtendsItself(View(t, g));
    }
  }

  lemma AppendExtends(v: GameView, e: Entry, row: Option<Row>)
    requires TakenOn(e, BasedOn(v)) && row.Some? && row.value.remoteVersion == BasedOn(v)
    ensures Extends(v, GameView(row, v.queue + [e], v.conflict))
  {
    assert (v.queue + [e])[..|v.queue|] == v.queue;
  }

  lemma InsertExtends(t: Tables, h: GameId, fields: Payload, g: GameId)
    requires TablesOk(t)
    ensures InsertGame(t, h, fields).Some? ==> Extends(View(t, g), View(InsertGame(t, h, fields).value, g))
  {
    if h !in t.games {
      EnqueueExtends(t, h, Upsert, Row(fields[DELETED_AT := Null], None, None, Pending), g);
    }
  }

  lemma UpdateExtends(t: Tables, h: GameId, fields: Payload, g: GameId)
    requires TablesOk(t)
    ensures UpdateGame(t, h, fields).Some? ==> Extends(View(t, g), View(UpdateGame(t, h, fields).value, g))
  {
    if h in t.games && !Deleted(t.games[h].payload) {
      var row := t.games[h];
      EnqueueExtends(t, h, Upsert, row.(payload := Edited(row.payload, fields), status := Pending), g);
    }
  }

  lemma DeleteExtends(t: Tables, h: GameId, at: string, g: GameId)
    requires TablesOk(t)
    ensures DeleteGame(t, h, at).Some? ==> Extends(View(t, g), View(DeleteGame(t, h, at).value, g))
  {
    if h in t.games {
      var row := t.games[h];
      EnqueueExtends(t, h, Delete, row.(payload := row.payload[DELETED_AT := Text(at)], status := Pending), g);
    }
  }

  lemma RetryExtends(t: Tables, g: GameId)
    ensures Extends(View(t, g), View(RetryFailed(t), g))
  {
    QueueOfSameSnapshots(t.outbox, RetryFailed(t).outbox, g);
    assert View(RetryFailed(t), g).queue[..|View(t, g).queue|] == View(RetryFailed(t), g).queue;
  }

  lemma ExtendsItself(v: GameView)
    ensures Extends(v, v)
  {
    assert v.queue[..|v.queue|] == v.queue;
  }

  lemma EditExtends(d: Device, a: Action, g: GameId)
    requires TablesOk(d.tables) && IsEdit(a)
    ensures Extends(View(d.tables, g), View(Next(d, a).tables, g))
  {
    ExtendsItself(View(d.tables, g));
    match a
    case Insert(h, fields) => InsertExtends(d.tables, h, fields, g);
    case Update(h, fields) => UpdateExtends(d.tables, h, fields, g);
    case Remove(h, at) => DeleteExtends(d.tables, h, at, g);
    case Retry => RetryExtends(d.tables, g);
  }

  lemma ExtendsTrans(v: GameView, v1: GameView, v2: GameView)
    requires Extends(v, v1) && Extends(v1, v2)
    ensures Extends(v, v2)
  {
    assert forall i :: 0 <= i < |v.queue| ==>
             v1.queue[..|v.queue|][i] == v1.queue[i] && v2.queue[..|v1.queue|][i] == v2.queue[i];
    forall i | |v.queue| <= i < |v2.queue| ensures TakenOn(v2.queue[i], BasedOn(v)) {
      if i < |v1.queue| {
        assert v2.queue[..|v1.queue|][i] == v2.queue[i];
      }
    }
  }

  /** Edits only append to a queue and never touch versions or conflicts. */
  lemma {:induction false} EditsExtend(d: Device, edits: seq<Action>, g: GameId)
    requires DeviceOk(d) && (forall a :: a in edits ==> IsEdit(a))
    ensures DeviceOk(Run(d, edits))
    ensures Extends(View(d.tables, g), View(Run(d, edits).tables, g))
  {
    if edits == [] {
      ExtendsItself(View(d.tables, g));
    } else {
      var n := |edits| - 1;
      assert edits == edits[..n] + [edits[n]];
      var before := Run(d, edits[..n]);
      EditsExtend(d, edits[..n], g);
      EditExtends(before, edits[n], g);
      StepKeepsDevice(before, edits[n]);
      ExtendsTrans(View(d.tables, g), View(before.tables, g), View(Next(before, edits[n]).tables, g));
    }
  }

  /** What acknowledging the newest entry `t` has of a game makes of the later tables `t'`. */
  ghost predicate KeepsEdits(t: Tables, t': Tables, g: GameId, version: Option<nat>)
    requires View(t, g).queue != [] && |View(t, g).queue| <= |View(t', g).queue| && g in t'.games
  {
    var sent := View(t, g).queue[|View(t, g).queue| - 1];
    var since := View(t', g).queue[|View(t, g).queue|..];
    var after := AcknowledgeEntry(t', sent, version);
    var v := View(after, g);
    && v.queue == since
    && v.row.Some?
    && v.row.value.payload == t'.games[g].payload
    && v.row.value.status == (if since == [] then Synced else Pending)
    && v.row.value.base == Some(sent.row.payload)
    && (version.Some? ==> v.row.value.remoteVersion == version)
    && forall h :: h != g ==> View(after, h) == View(t', h)
  }

  lemma AcknowledgedAfterEdits(t: Tables, t': Tables, g: GameId, version: Option<nat>)
    requires TablesOk(t) && TablesOk(t') && Extends(View(t, g), View(t', g))
    requires View(t, g).queue != [] && g in t.games
    requires version.Some? ==> VersionOf(t.games[g]) <= version.value
    ensures KeepsEdits(t, t', g, version)
  {
    NewestIsOfGame(t, g);
    AcknowledgeView(t', View(t, g).queue[|View(t, g).queue| - 1], version);
    assert Truthful(View(t', g));
    AcknowledgedSince(View(t, g), View(t', g), version);
  }

  /** Whatever is edited while the newest entry of a game is being sent, its acknowledgement
      removes what was queued up to that entry and keeps everything queued since, in order; the
      game stays pending exactly while something is left, and no other game is touched. */
  lemma {:induction false} AcknowledgementPreservesEdits(d: Device, g: GameId, edits: seq<Action>, version: Option<nat>)
    requires DeviceOk(d) && (forall a :: a in edits ==> IsEdit(a))
    requires View(d.tables, g).queue != [] && View(d.tables, g).conflict == None
    requires version.Some? ==> VersionOf(d.tables.games[g]) <= version.value
    ensures var t' := Run(d, edits).tables;
            |View(d.tables, g).queue| <= |View(t', g).queue| && g in t'.games && KeepsEdits(d.tables, t', g, version)
  {
    assert Truthful(View(d.tables, g));
    EditsExtend(d, edits, g);
    AcknowledgedAfterEdits(d.tables, Run(d, edits).tables, g, version);
  }

  lemma NewestIsOfGame(t: Tables, g: GameId)
    requires View(t, g).queue != []
    ensures View(t, g).queue[|View(t, g).queue| - 1].game == g
  {
    QueueMembers(t.outbox, g);
    assert View(t, g).queue[|View(t, g).queue| - 1] in View(t, g).queue;
  }

  /** Acknowledging the newest entry a view had, after the view was extended. */
  lemma AcknowledgedSince(v: GameView, v': GameView, version: Option<nat>)
    requires v.queue != [] && v.row.Some? && Extends(v, v') && Increasing(v'.queue)
    requires version.Some? ==> VersionOf(v.row.value) <= version.value
    ensures var sent := v.queue[|v.queue| - 1];
            var after := Acknowledged(v', sent, version);
            && after.queue == v'.queue[|v.queue|..]
            && after.row.Some?
            && after.row.value.payload == v'.row.value.payload
            && after.row.value.status == (if after.queue == [] then Synced else Pending)
            && after.row.value.base == Some(sent.row.payload)
            && (version.Some? ==> after.row.value.remoteVersion == version)
  {
    var n := |v.queue| - 1;
    assert v'.queue[..|v.queue|][n] == v'.queue[n];
    assert v'.queue[n].id == v.queue[n].id && v'.queue[n].row == v.queue[n].row;
    AfterIsSuffix(v'.queue, n);
  }

  // ----- local edits -----

  /** The view has one entry more, holding the new row. */
  ghost predicate QueuedOnce(before: GameView, after: GameView, g: GameId, operation: Operation) {
    && after.row.Some? && after.conflict == before.conflict
    && |after.queue| == |before.queue| + 1
    && after.queue[..|before.queue|] == before.queue
    && var e := after.queue[|before.queue|];
       e.game == g && e.operation == operation && e.row == after.row.value && !e.failed && e.retryAt == None
  }

  /** Only a new identifier is inserted; the record starts live, unsent and without a version. */
  lemma InsertIsExact(t: Tables, g: GameId, fields: Payload)
    requires TablesOk(t)
    ensures InsertGame(t, g, fields).Some? <==> g !in t.games
    ensures g !in t.games ==>
              var v := View(InsertGame(t, g, fields).value, g);
              && QueuedOnce(View(t, g), v, g, Upsert)
              && v.row.value.status == Pending && v.row.value.remoteVersion == None && v.row.value.base == None
              && !Deleted(v.row.value.payload)
              && (forall f: Field :: f != DELETED_AT ==> v.row.value.payload[f] == fields[f])
  {
    if g !in t.games {
      EditView(t, g, Upsert, Row(fields[DELETED_AT := Null], None, None, Pending));
    }
  }

  /** Only a live record is edited; time zone, environment, version and base stay. */
  lemma UpdateIsExact(t: Tables, g: GameId, fields: Payload)
    requires TablesOk(t)
    ensures UpdateGame(t, g, fields).Some? <==> g in t.games && !Deleted(t.games[g].payload)
    ensures UpdateGame(t, g, fields).Some? ==>
              var v := View(UpdateGame(t, g, fields).value, g);
              && QueuedOnce(View(t, g), v, g, Upsert)
              && v.row.value.status == Pending
              && v.row.value.remoteVersion == t.games[g].remoteVersion && v.row.value.base == t.games[g].base
              && (forall f: Field ::
                    v.row.value.payload[f]
                    == if f in {TIMEZONE_OFFSET, ENVIRONMENT_VERSION, DELETED_AT} then t.games[g].payload[f]
                       else fields[f])
  {
    if g in t.games {
      var row := t.games[g];
      EditView(t, g, Upsert, row.(payload := Edited(row.payload, fields), status := Pending));
    }
  }

  /** Only a live record is deleted, and nothing but its deletion time changes. */
  lemma DeleteIsExact(t: Tables, g: GameId, at: string)
    requires TablesOk(t)
    ensures DeleteGame(t, g, at).Some? <==> g in t.games && !Deleted(t.games[g].payload)
    ensures DeleteGame(t, g, at).Some? ==>
              var v := View(DeleteGame(t, g, at).value, g);
              && QueuedOnce(View(t, g), v, g, Delete)
              && v.row.value.status == Pending
              && v.row.value.remoteVersion == t.games[g].remoteVersion && v.row.value.base == t.games[g].base
              && v.row.value.payload[DELETED_AT] == Text(at)
              && (forall f: Field :: f != DELETED_AT ==> v.row.value.payload[f] == t.games[g].payload[f])
  {
    if g in t.games {
      var row := t.games[g];
      EditView(t, g, Delete, row.(payload := row.payload[DELETED_AT := Text(at)], status := Pending));
    }
  }

  // ----- what is sent -----

  lemma {:induction false} DueIsAmong(t: Tables, n: nat, now: nat, e: Entry)
    requires n <= |t.outbox| && e in t.outbox[..n] && IsDue(t, e, now)
    ensures e in DueAmong(t, n, now)
  {
    if e != t.outbox[n - 1] {
      assert t.outbox[..n] == t.outbox[..n - 1] + [t.outbox[n - 1]];
      DueIsAmong(t, n - 1, now, e);
    }
  }

  /** Nothing that is due is passed over: it is sent unless the batch is full of older entries. */
  lemma DueIsSent(t: Tables, limit: nat, now: nat, e: Entry)
    requires TablesOk(t) && e in t.outbox && IsDue(t, e, now)
    ensures var sent := FetchDue(t, limit, now);
            e in sent || (|sent| == limit && forall x :: x in sent ==> x.id < e.id)
  {
    var due, sent := DueAmong(t, |t.outbox|, now), FetchDue(t, limit, now);
    assert t.outbox[..|t.outbox|] == t.outbox;
    DueIsAmong(t, |t.outbox|, now, e);
    DueEntries(t, |t.outbox|, now);
    var i :| 0 <= i < |due| && due[i] == e;
    assert forall j :: 0 <= j < |sent| ==> sent[j] == due[j];
    if e !in sent {
      forall x | x in sent ensures x.id < e.id {
        var j :| 0 <= j < |sent| && sent[j] == x;
      }
    }
  }

  /** A manual retry makes every failed entry and row ready at once and changes nothing else. */
  lemma RetryIsExact(t: Tables)
    ensures var t' := RetryFailed(t);
            && |t'.outbox| == |t.outbox|
            && (forall i :: 0 <= i < |t.outbox| ==>
                  && !t'.outbox[i].failed
                  && t'.outbox[i] == t.outbox[i].(failed := false, retryAt := t'.outbox[i].retryAt)
                  && (t.outbox[i].failed ==> t'.outbox[i].retryAt == None)
                  && (!t.outbox[i].failed ==> t'.outbox[i] == t.outbox[i]))
            && t'.games.Keys == t.games.Keys
            && (forall g :: g in t.games ==>
                  && t'.games[g].status != Failed
                  && t'.games[g] == t.games[g].(status := t'.games[g].status)
                  && (t.games[g].status != Failed ==> t'.games[g] == t.games[g]))
  {
  }

  // ----- repeated replies -----

  /** Equal up to the ids and retry marks of what is queued. */
  ghost predicate SameButIds(v: GameView, v': GameView) {
    && v'.row == v.row
    && v'.conflict == v.conflict
    && |v'.queue| == |v.queue|
    && forall i :: 0 <= i < |v.queue| ==>
         v'.queue[i] == v.queue[i].(id := v'.queue[i].id, failed := v'.queue[i].failed, retryAt := v'.queue[i].retryAt)
  }

  lemma ReconciledTwice(v: GameView, r: RemoteGame, pushed: bool, id: nat, id': nat)
    requires Truthful(v)
    ensures SameButIds(Reconciled(v, r, pushed, id), Reconciled(Reconciled(v, r, pushed, id), r, pushed, id'))
  {
    if v.row.Some? && Decide(v.row.value.base, v.row.value.payload, r.payload).Rebased? {
      SyncMerge.RebaseIsStable(v.row.value.base.value, v.row.value.payload, r.payload);
    }
    assert ChangedFields(r.payload, r.payload) == {};
    assert ChangedFields(r.payload, r.payload) - {DELETED_AT} == {};
  }

  /** Delivering the same record again changes nothing but the ids of what is queued. */
  lemma {:induction false} ReconcileIsStable(t: Tables, r: RemoteGame, pushed: bool)
    requires TablesOk(t)
    ensures var once := ReconcileRemote(t, r, pushed);
            var twice := ReconcileRemote(once, r, pushed);
            forall g :: SameButIds(View(once, g), View(twice, g))
  {
    var once := ReconcileRemote(t, r, pushed);
    ReconcileKeepsTruth(t, r, pushed);
    ReconcileView(t, r, pushed);
    ReconcileView(once, r, pushed);
    assert Truthful(View(t, r.id));
    ReconciledTwice(View(t, r.id), r, pushed, NextId(t.outbox), NextId(once.outbox));
  }

  // ----- lost and outdated writes -----

  /** The edit changed the deletion state together with another field. */
  predicate MixesDeletion(base: Payload, local: Payload) {
    DELETED_AT in ChangedFields(base, local) && ChangedFields(base, local) != {DELETED_AT}
  }

  /** When the server already has what the row holds, the two meet without a conflict, except
      exactly when the unsent edit changed the deletion state together with another field. */
  lemma SameContentConvergesUnless(base: Option<Payload>, local: Payload, remote: Payload)
    requires AllEquivalent(local, remote)
    ensures Decide(base, local, remote) ==
              if base.Some? && MixesDeletion(base.value, local) then Conflicting else Converged
  {
    if base.Some? {
      var changes := ChangedFields(base.value, local);
      assert changes == ChangedFields(base.value, remote);
      assert DELETED_AT in changes ==> (changes - {DELETED_AT} == {} <==> changes == {DELETED_AT});
      assert AllEquivalent(Overlay(remote, local, changes), remote);
    }
  }

  lemma LostWriteIsRefused(e: Entry, before: Server, s: Server, written: string, now: string)
    requires ServerOk(before) && ServerOk(s) && !Deleted(e.row.payload) && e.operation != Delete
    requires Apply(before, BuildChange(e), written).1 == Applied(e.game, Some(before.head + 1))
    requires Current(s, e.game) == Current(Apply(before, BuildChange(e), written).0, e.game)
    ensures Current(s, e.game) == Some(RemoteGame(e.game, before.head + 1, e.row.payload))
    ensures Apply(s, BuildChange(e), now) == (s, Conflicted(e.game, Current(s, e.game)))
  {
    assert Live(e.row.payload) == e.row.payload;
    assert e.game in s.records;
  }

  /** A queued entry of an undisputed game was applied as the server's next version, the reply was lost,
      and nobody else has written the game since. */
  ghost predicate Lost(t: Tables, e: Entry, before: Server, s: Server, written: string) {
    var v := View(t, e.game);
    && ServerOk(before) && ServerOk(s)
    && v.conflict == None && v.row.Some? && e in v.queue
    && Apply(before, BuildChange(e), written).1 == Applied(e.game, Some(before.head + 1))
    && Current(s, e.game) == Current(Apply(before, BuildChange(e), written).0, e.game)
  }

  /** It is the newest entry, and the row knows no version the server did not have. */
  ghost predicate ReplyLost(t: Tables, e: Entry, before: Server, s: Server, written: string) {
    var v := View(t, e.game);
    && Lost(t, e, before, s, written)
    && e == v.queue[|v.queue| - 1]
    && VersionOf(v.row.value) <= before.head
  }

  /** A write of a live record whose reply was lost: sending it again is refused by the server. The
      refusal settles the game, except exactly when the edit mixes a restoration with other fields:
      then it opens a conflict of the record with itself. */
  lemma LostWriteIsAbsorbed(t: Tables, e: Entry, before: Server, s: Server, written: string, now: string)
    requires TablesOk(t) && ReplyLost(t, e, before, s, written)
    requires e.operation != Delete && !Deleted(e.row.payload)
    ensures var v := View(t, e.game);
            var base := v.row.value.base;
            && Apply(s, BuildChange(e), now) == (s, Conflicted(e.game, Current(s, e.game)))
            && View(ApplyResult(t, e, Conflicted(e.game, Current(s, e.game))), e.game)
               == if base.Some? && MixesDeletion(base.value, e.row.payload)
                  then InDispute(v, Present(before.head + 1, e.row.payload))
                  else Settled(FromServer(before.head + 1, e.row.payload))
  {
    LostWriteIsRefused(e, before, s, written, now);
    RefusalMeetsRow(t, e, RemoteGame(e.game, before.head + 1, e.row.payload));
  }

  lemma RefusalMeetsRow(t: Tables, e: Entry, r: RemoteGame)
    requires TablesOk(t) && r.id == e.game && r.payload == e.row.payload
    requires var v := View(t, e.game);
             && v.row.Some? && v.conflict == None && v.queue != [] && e == v.queue[|v.queue| - 1]
             && VersionOf(v.row.value) <= r.version
    ensures var v := View(t, e.game);
            View(ApplyResult(t, e, Conflicted(e.game, Some(r))), e.game)
            == if v.row.value.base.Some? && MixesDeletion(v.row.value.base.value, r.payload)
               then InDispute(v, Present(r.version, r.payload)) else Settled(FromServer(r.version, r.payload))
  {
    assert Truthful(View(t, e.game));
    ReconcileView(t, r, true);
    SameContentMeetsView(View(t, e.game), r, NextId(t.outbox));
  }

  lemma SameContentMeetsView(v: GameView, r: RemoteGame, id: nat)
    requires v.row.Some? && v.conflict == None
    requires VersionOf(v.row.value) <= r.version && v.row.value.payload == r.payload
    ensures Reconciled(v, r, true, id)
         == if v.row.value.base.Some? && MixesDeletion(v.row.value.base.value, r.payload)
            then InDispute(v, Present(r.version, r.payload)) else Settled(FromServer(r.version, r.payload))
  {
    SameContentConvergesUnless(v.row.value.base, v.row.value.payload, r.payload);
  }

  /** What a deletion stored on a server does to a local record with the deletion and maybe more. */
  lemma DeletionMeetsDeletion(base: Payload, local: Payload, remote: Payload)
    requires !Deleted(base) && Deleted(local) && Deleted(remote)
    requires forall f: Field :: f != DELETED_AT ==> remote[f] == base[f]
    ensures Decide(Some(base), local, remote) == if MixesDeletion(base, local) then Conflicting else Converged
  {
    var changes := ChangedFields(base, local);
    assert ChangedFields(base, remote) == {DELETED_AT};
    assert changes - {DELETED_AT} == {} <==> changes == {DELETED_AT};
    assert ChangedFields(base, remote) - {DELETED_AT} == {};
    if changes == {DELETED_AT} {
      assert AllEquivalent(Overlay(remote, local, changes), remote);
    }
  }

  lemma LostDeletionIsRefused(e: Entry, before: Server, s: Server, written: string, now: string)
    requires e.operation == Delete && e.row.remoteVersion.Some?
    requires Apply(before, BuildChange(e), written).1 == Applied(e.game, Some(before.head + 1))
    requires Current(s, e.game) == Current(Apply(before, BuildChange(e), written).0, e.game)
    ensures e.game in before.records && !Deleted(before.records[e.game].payload)
    ensures Current(s, e.game)
         == Some(RemoteGame(e.game, before.head + 1, before.records[e.game].payload[DELETED_AT := Text(written)]))
    ensures Apply(s, BuildChange(e), now) == (s, Conflicted(e.game, Current(s, e.game)))
  {
  }

  /** A deletion of a known version, based on what the server had, whose reply was lost: sending it
      again is refused, and that opens a conflict unless the deletion is the only unsent edit. */
  lemma LostDeletionIsAbsorbedUnless(t: Tables, e: Entry, before: Server, s: Server, written: string, now: string)
    requires TablesOk(t) && ReplyLost(t, e, before, s, written)
    requires e.operation == Delete && e.row.remoteVersion.Some?
    requires var base := View(t, e.game).row.value.base;
             base.Some? && e.game in before.records && AllEquivalent(base.value, before.records[e.game].payload)
    ensures var v := View(t, e.game);
            && Apply(s, BuildChange(e), now) == (s, Conflicted(e.game, Current(s, e.game)))
            && View(ApplyResult(t, e, Conflicted(e.game, Current(s, e.game))), e.game)
               == if ChangedFields(v.row.value.base.value, e.row.payload) == {DELETED_AT}
                  then Settled(FromServer(before.head + 1, Current(s, e.game).value.payload))
                  else InDispute(v, Present(before.head + 1, Current(s, e.game).value.payload))
  {
    var v := View(t, e.game);
    assert Truthful(v) && e in v.queue;
    LostDeletionIsRefused(e, before, s, written, now);
    var base, remote := v.row.value.base.value, Current(s, e.game).value;
    assert Equivalent(DELETED_AT, base[DELETED_AT], before.records[e.game].payload[DELETED_AT]);
    assert forall f: Field :: f != DELETED_AT ==> Equivalent(f, base[f], before.records[e.game].payload[f]);
    assert DELETED_AT in ChangedFields(base, e.row.payload);
    ReconcileView(t, remote, true);
    DeletionMeetsDeletion(base, e.row.payload, remote.payload);
  }

  /** A deletion without a known version can always be sent again: it finds nothing left to delete
      and counts as done. */
  lemma LostBlindDeletionIsAbsorbed(t: Tables, e: Entry, before: Server, s: Server, written: string, now: string)
    requires TablesOk(t) && ReplyLost(t, e, before, s, written)
    requires e.operation == Delete && e.row.remoteVersion == None
    ensures var row := View(t, e.game).row.value;
            && Apply(s, BuildChange(e), now) == (s, Applied(e.game, None))
            && View(ApplyResult(t, e, Applied(e.game, None)), e.game)
               == Settled(Row(row.payload, row.remoteVersion, Some(row.payload), Synced))
  {
    var v := View(t, e.game);
    assert Truthful(v);
    AcknowledgeView(t, e, None);
    AfterIsSuffix(v.queue, |v.queue| - 1);
  }

  /** The lost write and the edits queued after it cannot be told apart from two writers: without a
      base they left different records; with one, a field the lost write changed was changed again to
      a third value, or a deletion met another field. */
  predicate EditsClash(base: Option<Payload>, lost: Payload, local: Payload) {
    match base
    case None => !AllEquivalent(local, lost)
    case Some(b) =>
      || (exists f: Field ::
            !Equivalent(f, b[f], lost[f]) && !Equivalent(f, b[f], local[f]) && !Equivalent(f, local[f], lost[f]))
      || (DELETED_AT in ChangedFields(b, lost) && ChangedFields(b, local) - {DELETED_AT} != {})
      || (DELETED_AT in ChangedFields(b, local) && ChangedFields(b, lost) - {DELETED_AT} != {})
  }

  lemma ClashIsConflict(base: Option<Payload>, lost: Payload, local: Payload)
    ensures Decide(base, local, lost).Conflicting? <==> EditsClash(base, lost, local)
  {
    if base.Some? {
      assert FieldConflict(base.value, local, lost)
             <==> exists f: Field ::
                    && !Equivalent(f, base.value[f], lost[f]) && !Equivalent(f, base.value[f], local[f])
                    && !Equivalent(f, local[f], lost[f]);
    }
  }

  /** A live write whose reply was lost, and more edits of the game queued since. Sending the newest is
      refused, unless it is a deletion without a known version, and the refusal opens a conflict exactly
      when the edits clash with the lost write. */
  lemma LostWriteMeetsEdits(t: Tables, lost: Entry, before: Server, s: Server, written: string, now: string)
    requires TablesOk(t) && Lost(t, lost, before, s, written)
    requires lost.operation != Delete && !Deleted(lost.row.payload)
    requires var v := View(t, lost.game);
             var e := v.queue[|v.queue| - 1];
             && VersionOf(e.row) <= VersionOf(v.row.value) <= before.head
             && !(e.operation == Delete && e.row.remoteVersion == None)
    ensures var v := View(t, lost.game);
            var e := v.queue[|v.queue| - 1];
            var refused := Conflicted(lost.game, Some(RemoteGame(lost.game, before.head + 1, lost.row.payload)));
            var after := View(ApplyResult(t, e, refused), lost.game);
            && Apply(s, BuildChange(e), now) == (s, refused)
            && (after.conflict.Some? <==> EditsClash(v.row.value.base, lost.row.payload, v.row.value.payload))
            && (after.conflict == None ==>
                  after.row.Some? && after.row.value.remoteVersion == Some(before.head + 1)
                  && after.row.value.base == Some(lost.row.payload))
  {
    var g, v := lost.game, View(t, lost.game);
    var remote := RemoteGame(g, before.head + 1, lost.row.payload);
    LostWriteIsRefused(lost, before, s, written, now);
    NewestIsOfGame(t, g);
    LaterEntryIsRefused(v.queue[|v.queue| - 1], s, remote, now);
    ReconcileView(t, remote, true);
    LostMeetsView(v, remote, NextId(t.outbox));
  }

  lemma LaterEntryIsRefused(e: Entry, s: Server, r: RemoteGame, now: string)
    requires e.game == r.id && Current(s, r.id) == Some(r) && VersionOf(e.row) < r.version
    requires !(e.operation == Delete && e.row.remoteVersion == None)
    ensures Apply(s, BuildChange(e), now) == (s, Conflicted(r.id, Some(r)))
  {
  }

  lemma LostMeetsView(v: GameView, r: RemoteGame, id: nat)
    requires v.row.Some? && v.conflict == None && VersionOf(v.row.value) <= r.version
    ensures var after := Reconciled(v, r, true, id);
            && (after.conflict.Some? <==> EditsClash(v.row.value.base, r.payload, v.row.value.payload))
            && (after.conflict == None ==>
                  after.row.Some? && after.row.value.remoteVersion == Some(r.version)
                  && after.row.value.base == Some(r.payload))
  {
    ClashIsConflict(v.row.value.base, r.payload, v.row.value.payload);
  }

  // ----- writes queued while another one was sent -----

  /** What the server keeps of a write to a record it has: a deletion carries no fields. */
  predicate Kept(local: Payload, s: Server, g: GameId) {
    && g in s.records
    && if Deleted(local) then Deleted(s.records[g].payload) else s.records[g].payload == local
  }

  /** The record is sent in full and the server has it. */
  predicate Delivered(v: GameView, local: Payload, s: Server, g: GameId) {
    && v.row.Some? && v == Settled(v.row.value)
    && v.row.value.status == Synced && v.row.value.payload == local && v.row.value.base == Some(local)
    && Kept(local, s, g)
  }

  /** The newest entry of a game was queued on a version from before the last acknowledgement,
      whose content is what the server still has. */
  ghost predicate QueuedOnOldVersion(v: GameView, g: GameId, s: Server) {
    && g in s.records
    && v.queue != [] && v.conflict == None && v.row.Some?
    && (var e, row := v.queue[|v.queue| - 1], v.row.value;
        && e.game == g
        && (e.operation == Delete <==> Deleted(e.row.payload))
        && e.row.remoteVersion != Some(s.records[g].version)
        && row.remoteVersion == Some(s.records[g].version)
        && row.base.Some? && AllEquivalent(row.base.value, s.records[g].payload)
        && !(Deleted(row.payload) && Deleted(s.records[g].payload)))
  }

  /** With no other writer, at most two pushes deliver the newest entry and no conflict is opened in
      between. The first push is refused, unless it is a deletion without a known version, and
      leaves the game settled or rebased; the second, if there is one, is applied. */
  ghost predicate DeliveredByTwoPushes(t: Tables, g: GameId, s: Server, now: string)
    requires View(t, g).queue != [] && View(t, g).row.Some? && g in s.records
  {
    var local := View(t, g).row.value.payload;
    var e := View(t, g).queue[|View(t, g).queue| - 1];
    var (s1, first) := Apply(s, BuildChange(e), now);
    var t1 := ApplyResult(t, e, first);
    if first.Applied? then e.operation == Delete && e.row.remoteVersion == None && Delivered(View(t1, g), local, s1, g)
    else
      && s1 == s
      && first == Conflicted(g, Current(s, g))
      && (|| (View(t1, g) == Settled(FromServer(s.records[g].version, s.records[g].payload))
              && AllEquivalent(local, s.records[g].payload))
          || (&& |View(t1, g).queue| == 1 && View(t1, g).conflict == None
              && (var (s2, second) := Apply(s, BuildChange(View(t1, g).queue[0]), now);
                  var t2 := ApplyResult(t1, View(t1, g).queue[0], second);
                  && second == Applied(g, Some(s.head + 1))
                  && Delivered(View(t2, g), local, s2, g))))
  }

  lemma NoRemoteChangeKeepsLocal(base: Payload, local: Payload, remote: Payload)
    requires AllEquivalent(base, remote) && !(Deleted(local) && Deleted(remote))
    ensures Decide(Some(base), local, remote) == (if AllEquivalent(local, remote) then Converged else Rebased(local))
  {
    var changes := ChangedFields(base, local);
    assert ChangedFields(base, remote) == {} && ChangedFields(base, remote) - {DELETED_AT} == {};
    assert !FieldConflict(base, local, remote);
    var merged := Overlay(remote, local, changes);
    assert forall f: Field :: merged[f] == local[f] by {
      forall f: Field | f !in changes ensures remote[f] == local[f] {
        assert Equivalent(f, base[f], local[f]) && Equivalent(f, base[f], remote[f]);
      }
    }
    assert merged == local;
    if changes == {} {
      forall f: Field ensures Equivalent(f, local[f], remote[f]) {
        assert f !in changes;
      }
    }
  }

  lemma StaleWriteIsRebased(v: GameView, g: GameId, s: Server, id: nat)
    requires Truthful(v) && QueuedOnOldVersion(v, g, s)
    ensures var local, remote := v.row.value.payload, s.records[g];
            Reconciled(v, RemoteGame(g, remote.version, remote.payload), true, id)
            == if AllEquivalent(local, remote.payload) then Settled(FromServer(remote.version, remote.payload))
               else Requeued(g, id, ResolutionOperation(local, remote.payload),
                             Row(local, Some(remote.version), Some(remote.payload), Pending))
  {
    NoRemoteChangeKeepsLocal(v.row.value.base.value, v.row.value.payload, s.records[g].payload);
  }

  lemma StaleWriteIsRefused(t: Tables, g: GameId, s: Server, now: string)
    requires TablesOk(t) && QueuedOnOldVersion(View(t, g), g, s)
    requires var e := View(t, g).queue[|View(t, g).queue| - 1]; !(e.operation == Delete && e.row.remoteVersion == None)
    ensures var v := View(t, g);
            var e, local, remote := v.queue[|v.queue| - 1], v.row.value.payload, s.records[g];
            var t1 := ApplyResult(t, e, Conflicted(g, Current(s, g)));
            && Apply(s, BuildChange(e), now) == (s, Conflicted(g, Current(s, g)))
            && TablesOk(t1)
            && View(t1, g)
               == if AllEquivalent(local, remote.payload) then Settled(FromServer(remote.version, remote.payload))
                  else Requeued(g, NextId(t.outbox), ResolutionOperation(local, remote.payload),
                                Row(local, Some(remote.version), Some(remote.payload), Pending))
  {
    assert Truthful(View(t, g));
    var remote := Current(s, g).value;
    ReconcileView(t, remote, true);
    ReconcileKeepsTruth(t, remote, true);
    StaleWriteIsRebased(View(t, g), g, s, NextId(t.outbox));
  }

  lemma BlindDeletionIsApplied(t: Tables, g: GameId, s: Server, now: string)
    requires TablesOk(t) && QueuedOnOldVersion(View(t, g), g, s) && ServerOk(s)
    requires var e := View(t, g).queue[|View(t, g).queue| - 1]; e.operation == Delete && e.row.remoteVersion == None
    ensures DeliveredByTwoPushes(t, g, s, now)
  {
    var v := View(t, g);
    assert Truthful(v);
    AcknowledgeView(t, v.queue[|v.queue| - 1], Some(s.head + 1));
    AfterIsSuffix(v.queue, |v.queue| - 1);
  }

  lemma RebasedWriteIsAccepted(e: Entry, s: Server, now: string)
    requires e.game in s.records && !(Deleted(e.row.payload) && Deleted(s.records[e.game].payload))
    requires e.operation == ResolutionOperation(e.row.payload, s.records[e.game].payload)
    requires e.row.remoteVersion == Some(s.records[e.game].version)
    ensures Apply(s, BuildChange(e), now).1 == Applied(e.game, Some(s.head + 1))
    ensures Kept(e.row.payload, Apply(s, BuildChange(e), now).0, e.game)
  {
    if !Deleted(e.row.payload) {
      assert Live(e.row.payload) == e.row.payload;
    }
  }

  lemma RebasedWriteIsApplied(t: Tables, g: GameId, s: Server, id: nat, local: Payload, now: string)
    requires TablesOk(t) && ServerOk(s) && g in s.records && !(Deleted(local) && Deleted(s.records[g].payload))
    requires View(t, g) == Requeued(g, id, ResolutionOperation(local, s.records[g].payload),
                                    Row(local, Some(s.records[g].version), Some(s.records[g].payload), Pending))
    ensures var e := View(t, g).queue[0];
            var (s2, second) := Apply(s, BuildChange(e), now);
            && second == Applied(g, Some(s.head + 1))
            && Delivered(View(ApplyResult(t, e, second), g), local, s2, g)
  {
    var v := View(t, g);
    var e := v.queue[0];
    RebasedWriteIsAccepted(e, s, now);
    AcknowledgeView(t, e, Some(s.head + 1));
    AfterIsSuffix(v.queue, 0);
  }

  lemma {:induction false} StaleWriteIsAbsorbed(t: Tables, g: GameId, s: Server, now: string)
    requires TablesOk(t) && ServerOk(s) && QueuedOnOldVersion(View(t, g), g, s)
    ensures DeliveredByTwoPushes(t, g, s, now)
  {
    var v := View(t, g);
    var e := v.queue[|v.queue| - 1];
    if e.operation == Delete && e.row.remoteVersion == None {
      BlindDeletionIsApplied(t, g, s, now);
    } else {
      StaleWriteIsRefused(t, g, s, now);
      if !AllEquivalent(v.row.value.payload, s.records[g].payload) {
        var t1 := ApplyResult(t, e, Conflicted(g, Current(s, g)));
        RebasedWriteIsApplied(t1, g, s, NextId(t.outbox), v.row.value.payload, now);
      }
    }
  }

  /** The view an acknowledgement as `version` leaves of one that was extended since the sending. */
  lemma AcknowledgedOnOldVersion(v0: GameView, v: GameView, g: GameId, version: nat, s: Server)
    requires v0.queue != [] && v0.row.Some? && Extends(v0, v) && Truthful(v) && VersionOf(v0.row.value) < version
    requires v.conflict == None && forall e :: e in v.queue ==> e.game == g
    requires var sent := v0.queue[|v0.queue| - 1];
             !Deleted(sent.row.payload) && Current(s, g) == Some(RemoteGame(g, version, sent.row.payload))
    ensures var sent := v0.queue[|v0.queue| - 1];
            var after := Acknowledged(v, sent, Some(version));
            if after.queue == [] then Delivered(after, sent.row.payload, s, g) else QueuedOnOldVersion(after, g, s)
  {
    AcknowledgedSince(v0, v, Some(version));
    var n := |v0.queue| - 1;
    assert v.queue[..|v0.queue|][n] == v.queue[n];
  }

  lemma AcknowledgedLeavesOld(t0: Tables, t': Tables, g: GameId, version: nat, s: Server)
    requires TablesOk(t0) && TablesOk(t') && Extends(View(t0, g), View(t', g))
    requires View(t0, g).queue != [] && View(t0, g).conflict == None && View(t0, g).row.Some?
    requires VersionOf(View(t0, g).row.value) < version
    requires var sent := View(t0, g).queue[|View(t0, g).queue| - 1];
             !Deleted(sent.row.payload) && Current(s, g) == Some(RemoteGame(g, version, sent.row.payload))
    ensures var sent := View(t0, g).queue[|View(t0, g).queue| - 1];
            var t := AcknowledgeEntry(t', sent, Some(version));
            && View(t, g).row.Some? && View(t, g).row.value.payload == View(t', g).row.value.payload
            && if View(t, g).queue == [] then Delivered(View(t, g), sent.row.payload, s, g)
               else QueuedOnOldVersion(View(t, g), g, s)
  {
    var v0, v := View(t0, g), View(t', g);
    NewestIsOfGame(t0, g);
    AcknowledgeView(t', v0.queue[|v0.queue| - 1], Some(version));
    QueueMembers(t'.outbox, g);
    assert Truthful(v);
    AcknowledgedOnOldVersion(v0, v, g, version, s);
    AcknowledgedSince(v0, v, Some(version));
  }

  /** Edits queued while a live write was sent and applied. The acknowledgement leaves the game
      delivered if there were none; otherwise it leaves the newest of them waiting on the version
      from before the write, and two more pushes deliver it, without a conflict. */
  lemma {:induction false} EditsDuringPushAreDelivered(
      d: Device, g: GameId, edits: seq<Action>, before: Server, s: Server, written: string, now: string)
    requires DeviceOk(d) && (forall a :: a in edits ==> IsEdit(a))
    requires View(d.tables, g).queue != []
    requires var sent := View(d.tables, g).queue[|View(d.tables, g).queue| - 1];
             ReplyLost(d.tables, sent, before, s, written) && sent.game == g && !Deleted(sent.row.payload)
    ensures var sent := View(d.tables, g).queue[|View(d.tables, g).queue| - 1];
            var t := AcknowledgeEntry(Run(d, edits).tables, sent, Some(before.head + 1));
            var v := View(t, g);
            && TablesOk(t)
            && v.row.Some? && v.row.value.payload == View(Run(d, edits).tables, g).row.value.payload
            && if v.queue == [] then Delivered(v, sent.row.payload, s, g)
               else QueuedOnOldVersion(v, g, s) && DeliveredByTwoPushes(t, g, s, now)
  {
    var sent := View(d.tables, g).queue[|View(d.tables, g).queue| - 1];
    SentIsCurrent(d.tables, sent, before, s, written);
    EditsExtend(d, edits, g);
    AcknowledgedLeavesOld(d.tables, Run(d, edits).tables, g, before.head + 1, s);
    AcknowledgeKeepsTruth(Run(d, edits).tables, sent, Some(before.head + 1));
    var t := AcknowledgeEntry(Run(d, edits).tables, sent, Some(before.head + 1));
    if View(t, g).queue != [] {
      StaleWriteIsAbsorbed(t, g, s, now);
    }
  }

  lemma SentIsCurrent(t: Tables, e: Entry, before: Server, s: Server, written: string)
    requires TablesOk(t) && ReplyLost(t, e, before, s, written) && !Deleted(e.row.payload)
    ensures Current(s, e.game) == Some(RemoteGame(e.game, before.head + 1, e.row.payload))
  {
    assert Truthful(View(t, e.game)) && e in View(t, e.game).queue;
    LostWriteIsRefused(e, before, s, written, "");
  }

  // ----- pull coverage -----

  /** The newest server version the tables reflect for a game, in the row or an open conflict. */
  function Reflected(v: GameView): nat {
    var row := if v.row.Some? then VersionOf(v.row.value) else 0;
    var conflict := if v.conflict.Some? then ViewVersion(v.conflict.value) else 0;
    if row < conflict then conflict else row
  }

  function RowVersion(v: GameView): nat {
    if v.row.Some? then VersionOf(v.row.value) else 0
  }

  /** Both measures are at least what they were. */
  predicate NotBelow(v: GameView, v': GameView) {
    Reflected(v) <= Reflected(v') && RowVersion(v) <= RowVersion(v')
  }

  /** The server told this device that it has no record of the game. */
  predicate ConfirmsAbsence(d: Device, a: Action, g: GameId) {
    || (a.FinishPush? && d.worker.Pushing? && d.worker.reply.Some? && Conflicted(g, None) in d.worker.reply.value)
    || (a.FinishResolve? && d.worker.Fetched? && d.worker.game == g && d.worker.remote == None)
  }

  lemma ReconciledReflects(v: GameView, r: RemoteGame, pushed: bool, id: nat)
    ensures NotBelow(v, Reconciled(v, r, pushed, id))
    ensures r.version <= Reflected(Reconciled(v, r, pushed, id))
  {
  }

  lemma {:induction false} RowsReflected(t: Tables, rows: seq<RemoteGame>)
    requires TablesOk(t)
    ensures forall r :: r in rows ==> r.version <= Reflected(View(ReconcileAll(t, rows), r.id))
    ensures forall g :: NotBelow(View(t, g), View(ReconcileAll(t, rows), g))
  {
    if rows != [] {
      var n := |rows| - 1;
      var front, last := rows[..n], rows[n];
      assert rows == front + [last];
      RowsReflected(t, front);
      PullKeepsTruth(t, front);
      var t' := ReconcileAll(t, front);
      ReconcileView(t', last, false);
      ReconciledReflects(View(t', last.id), last, false, NextId(t'.outbox));
      forall r | r in rows
        ensures r.version <= Reflected(View(ReconcileAll(t, rows), r.id))
      {
        if r in front {
          assert r.version <= Reflected(View(t', r.id));
        }
      }
      forall g
        ensures NotBelow(View(t, g), View(ReconcileAll(t, rows), g))
      {
        assert NotBelow(View(t, g), View(t', g));
      }
    }
  }

  lemma PullReflects(t: Tables, rows: seq<RemoteGame>, completed: bool)
    requires TablesOk(t) && Ascending(t.cursor, rows)
    ensures forall r :: r in rows ==> r.version <= Reflected(View(ApplyPullBatch(t, rows, completed).value, r.id))
  {
    RowsReflected(t, rows);
    forall r | r in rows
      ensures r.version <= Reflected(View(ApplyPullBatch(t, rows, completed).value, r.id))
    {
      assert View(ApplyPullBatch(t, rows, completed).value, r.id) == View(ReconcileAll(t, rows), r.id);
    }
  }

  /** A pull is all or nothing: out of order it changes nothing, otherwise it reflects every row
      and moves the cursor to the last of them. */
  lemma {:induction false} PullIsAllOrNothing(d: Device, rows: seq<RemoteGame>, completed: bool)
    requires DeviceOk(d) && d.worker == Pulled(rows)
    ensures var t, t' := d.tables, Next(d, FinishPull(completed)).tables;
            if Ascending(t.cursor, rows)
            then t'.cursor == LastVersion(t.cursor, rows)
                 && (rows != [] ==> t.cursor < t'.cursor)
                 && (forall r :: r in rows ==> r.version <= Reflected(View(t', r.id)))
                 && (t'.initialSyncCompleted <==> t.initialSyncCompleted || completed)
            else t' == t
  {
    var t := d.tables;
    if Ascending(t.cursor, rows) {
      PullReflects(t, rows, completed);
      assert Next(d, FinishPull(completed)).tables == ApplyPullBatch(t, rows, completed).value;
      if rows != [] { AscendingLast(t.cursor, rows); }
    }
  }

  lemma AscendingLast(cursor: nat, rows: seq<RemoteGame>)
    requires Ascending(cursor, rows) && rows != []
    ensures cursor < LastVersion(cursor, rows)
  {
    if |rows| > 1 {
      AscendingLast(cursor, rows[..|rows| - 1]);
    }
  }

  lemma AcknowledgedKeepsVersions(v: GameView, e: Entry, version: Option<nat>)
    ensures NotBelow(v, Acknowledged(v, e, version))
  {
  }

  lemma ResultReflects(t: Tables, e: Entry, result: MutationResult)
    requires TablesOk(t) && e.game in t.games && result.game == e.game && result != Conflicted(e.game, None)
    requires result.Conflicted? && result.remote.Some? ==> result.remote.value.id == result.game
    ensures NotBelow(View(t, e.game), View(ApplyResult(t, e, result), e.game))
  {
    match result
    case Applied(_, version) =>
      AcknowledgeView(t, e, version);
      AcknowledgedKeepsVersions(View(t, e.game), e, version);
    case Conflicted(_, Some(remote)) =>
      ReconcileView(t, remote, true);
      ReconciledReflects(View(t, e.game), remote, true, NextId(t.outbox));
  }

  lemma ResultKeepsState(t: Tables, e: Entry, result: MutationResult)
    ensures ApplyResult(t, e, result).cursor == t.cursor
    ensures ApplyResult(t, e, result).initialSyncCompleted == t.initialSyncCompleted
  {
  }

  lemma {:induction false} ResultsReflect(
      t: Tables, byGame: map<GameId, Entry>, results: seq<MutationResult>, g: GameId)
    requires TablesOk(t) && OncePerGame(results)
    requires forall r :: r in results ==>
               && r.game in byGame && byGame[r.game].game == r.game
               && Sent(View(t, r.game), byGame[r.game])
               && (r.Conflicted? && r.remote.Some? ==> r.remote.value.id == r.game)
    requires Conflicted(g, None) !in results
    ensures NotBelow(View(t, g), View(ApplyResults(t, byGame, results), g))
    ensures ApplyResults(t, byGame, results).cursor == t.cursor
    ensures ApplyResults(t, byGame, results).initialSyncCompleted == t.initialSyncCompleted
  {
    if results != [] {
      var n := |results| - 1;
      var front, last := results[..n], results[n];
      assert results == front + [last];
      ResultsReflect(t, byGame, front, g);
      ResultsKeepTruth(t, byGame, front);
      var t', e := ApplyResults(t, byGame, front), byGame[last.game];
      assert forall r :: r in front ==> r.game != last.game;
      assert View(t', last.game) == View(t, last.game);
      ResultKeepsState(t', e, last);
      if last.game == g {
        ResultReflects(t', e, last);
      } else {
        ResultOnlyTouches(t', e, last);
      }
    }
  }

  lemma PushKeepsVersions(t: Tables, entries: seq<Entry>, results: seq<MutationResult>, g: GameId)
    requires TablesOk(t) && InFlight(t, entries) && WellFormedReply(entries, results)
    requires Conflicted(g, None) !in results
    ensures var t' := OrSame(t, ApplyPushResults(t, entries, results));
            && NotBelow(View(t, g), View(t', g))
            && t'.cursor == t.cursor && t'.initialSyncCompleted == t.initialSyncCompleted
  {
    if Answers(entries, results) {
      ReplyAnswersOnce(entries, results);
      forall r | r in results
        ensures r.game in ByGame(entries) && Sent(View(t, r.game), ByGame(entries)[r.game])
      {
        assert r.game in set r' | r' in results :: r'.game;
      }
      ResultsReflect(t, ByGame(entries), results, g);
    }
  }

  /** What an accepted or outdated resolution makes of its game. */
  lemma ResolvedView(t: Tables, q: Resolution, r: RemoteGame, now: string)
    requires TablesOk(t) && Submittable(t, q)
    requires r.id == t.conflicts[q.conflictId].game && r.version >= KnownVersion(t, r.id)
    ensures var v, v' := View(t, r.id), View(ResolveConflict(t, q, Some(r), now).0, r.id);
            || v' == v
            || v' == Settled(FromServer(r.version, r.payload))
            || (v.row.Some? && v' == InDispute(v, Present(r.version, r.payload)))
            || (v.row.Some? && v' == Chosen(r.id, v, q.choice, Selected(t, q), Some(r), now, NextId(t.outbox)))
  {
    var local, selected := t.games[r.id], Selected(t, q);
    if local.payload == r.payload == selected {
      SettleView(t, r.id, FromServer(r.version, r.payload));
    } else if AsView(Some(r)) != ComparedRemote(t, q) {
      DisputeView(t, r.id, local.payload, AsView(Some(r)), local.remoteVersion);
    } else {
      ChoiceView(t, r.id, q.choice, selected, Some(r), now);
    }
  }

  lemma ChosenReflects(g: GameId, v: GameView, choice: Choice, selected: Payload, r: RemoteGame, now: string, id: nat)
    requires v.row.Some? && VersionOf(v.row.value) <= r.version
    requires v.conflict.Some? ==> ViewVersion(v.conflict.value) <= r.version
    ensures NotBelow(v, Chosen(g, v, choice, selected, Some(r), now, id))
    ensures NotBelow(v, Settled(FromServer(r.version, r.payload)))
    ensures NotBelow(v, InDispute(v, Present(r.version, r.payload)))
  {
  }

  lemma ResolveReflects(t: Tables, q: Resolution, r: RemoteGame, now: string)
    requires TablesOk(t)
    ensures NotBelow(View(t, r.id), View(ResolveConflict(t, q, Some(r), now).0, r.id))
  {
    if Submittable(t, q) && r.id == t.conflicts[q.conflictId].game && r.version >= KnownVersion(t, r.id) {
      ResolvedView(t, q, r, now);
      ChosenReflects(r.id, View(t, r.id), q.choice, Selected(t, q), r, now, NextId(t.outbox));
    }
  }

  lemma OtherGameUnresolved(t: Tables, q: Resolution, fetched: Option<RemoteGame>, now: string, g: GameId)
    requires TablesOk(t)
    requires q.conflictId < |t.conflicts| ==> t.conflicts[q.conflictId].game != g
    ensures View(ResolveConflict(t, q, fetched, now).0, g) == View(t, g)
  {
    if Submittable(t, q) {
      var h := t.conflicts[q.conflictId].game;
      var local, selected := t.games[h], Selected(t, q);
      if fetched.Some? && local.payload == fetched.value.payload == selected {
        SettleView(t, h, FromServer(fetched.value.version, fetched.value.payload));
      } else if AsView(fetched) != ComparedRemote(t, q) {
        DisputeView(t, h, local.payload, AsView(fetched), local.remoteVersion);
      } else {
        ChoiceView(t, h, q.choice, selected, fetched, now);
      }
    }
  }

  lemma ResolveKeepsState(t: Tables, q: Resolution, fetched: Option<RemoteGame>, now: string)
    ensures ResolveConflict(t, q, fetched, now).0.cursor == t.cursor
    ensures ResolveConflict(t, q, fetched, now).0.initialSyncCompleted == t.initialSyncCompleted
  {
  }

  lemma EditKeepsVersions(d: Device, a: Action, g: GameId)
    requires TablesOk(d.tables) && IsEdit(a)
    ensures NotBelow(View(d.tables, g), View(Next(d, a).tables, g))
    ensures Next(d, a).tables.cursor == d.tables.cursor
    ensures Next(d, a).tables.initialSyncCompleted == d.tables.initialSyncCompleted
  {
    EditExtends(d, a, g);
  }

  lemma {:induction false} FailureKeepsVersions(
      t: Tables, entries: seq<Entry>, retryable: bool, retryAt: nat, g: GameId)
    requires TablesOk(t)
    ensures NotBelow(View(t, g), View(RecordFailure(t, entries, retryable, retryAt), g))
    ensures RecordFailure(t, entries, retryable, retryAt).cursor == t.cursor
    ensures RecordFailure(t, entries, retryable, retryAt).initialSyncCompleted == t.initialSyncCompleted
  {
    if entries != [] {
      FailureKeepsVersions(t, entries[..|entries| - 1], retryable, retryAt, g);
    }
  }

  lemma NotBelowAfterPull(t: Tables, rows: seq<RemoteGame>, g: GameId)
    requires TablesOk(t)
    ensures NotBelow(View(t, g), View(ReconcileAll(t, rows), g))
  {
    RowsReflected(t, rows);
  }

  lemma PulledView(t: Tables, rows: seq<RemoteGame>, completed: bool, g: GameId)
    requires Ascending(t.cursor, rows)
    ensures View(ApplyPullBatch(t, rows, completed).value, g) == View(ReconcileAll(t, rows), g)
  {
  }

  lemma PullIsMonotone(d: Device, completed: bool, g: GameId)
    requires DeviceOk(d) && d.worker.Pulled?
    ensures NotBelow(View(d.tables, g), View(Next(d, FinishPull(completed)).tables, g))
    ensures d.tables.cursor <= Next(d, FinishPull(completed)).tables.cursor
    ensures d.tables.initialSyncCompleted ==> Next(d, FinishPull(completed)).tables.initialSyncCompleted
  {
    if Ascending(d.tables.cursor, d.worker.rows) {
      if d.worker.rows != [] { AscendingLast(d.tables.cursor, d.worker.rows); }
      NotBelowAfterPull(d.tables, d.worker.rows, g);
      PulledView(d.tables, d.worker.rows, completed, g);
    }
  }

  lemma ResolveIsMonotone(d: Device, q: Resolution, at: string, g: GameId)
    requires DeviceOk(d) && !ConfirmsAbsence(d, FinishResolve(q, at), g)
    requires d.worker.Fetched? && q.conflictId < |d.tables.conflicts|
    requires d.tables.conflicts[q.conflictId].game == d.worker.game
    ensures NotBelow(View(d.tables, g), View(Next(d, FinishResolve(q, at)).tables, g))
    ensures Next(d, FinishResolve(q, at)).tables.cursor == d.tables.cursor
    ensures Next(d, FinishResolve(q, at)).tables.initialSyncCompleted == d.tables.initialSyncCompleted
  {
    var t := d.tables;
    ResolveKeepsState(t, q, d.worker.remote, at);
    if d.worker.game != g {
      OtherGameUnresolved(t, q, d.worker.remote, at, g);
    } else if d.worker.remote.value.id == g {
      ResolveReflects(t, q, d.worker.remote.value, at);
    }
  }

  lemma StepIsMonotone(d: Device, a: Action, g: GameId)
    requires DeviceOk(d) && !ConfirmsAbsence(d, a, g)
    ensures NotBelow(View(d.tables, g), View(Next(d, a).tables, g))
    ensures d.tables.cursor <= Next(d, a).tables.cursor
    ensures d.tables.initialSyncCompleted ==> Next(d, a).tables.initialSyncCompleted
  {
    var t := d.tables;
    match a
    case FinishPush =>
      if d.worker.Pushing? && d.worker.reply.Some? {
        PushKeepsVersions(t, d.worker.entries, d.worker.reply.value, g);
      }
    case FailPush(retryable, retryAt) =>
      if d.worker.Pushing? { FailureKeepsVersions(t, d.worker.entries, retryable, retryAt, g); }
    case FinishPull(completed) =>
      if d.worker.Pulled? { PullIsMonotone(d, completed, g); }
    case FinishResolve(q, at) =>
      if d.worker.Fetched? && q.conflictId < |t.conflicts| && t.conflicts[q.conflictId].game == d.worker.game {
        ResolveIsMonotone(d, q, at, g);
      }
    case _ =>
      if IsEdit(a) { EditKeepsVersions(d, a, g); }
  }

  /** No step of the run tells the device that the server has no record of the game. */
  ghost predicate NeverAbsent(d: Device, actions: seq<Action>, g: GameId) {
    forall i :: 0 <= i < |actions| ==> !ConfirmsAbsence(Run(d, actions[..i]), actions[i], g)
  }

  /** Over any run, what the tables reflect of a game never goes back unless the server confirmed
      that the record does not exist; the cursor never goes back; a finished initial download stays
      finished. */
  lemma {:induction false} VersionsNeverGoBack(d: Device, actions: seq<Action>, g: GameId)
    requires DeviceOk(d) && NeverAbsent(d, actions, g)
    ensures DeviceOk(Run(d, actions))
    ensures NotBelow(View(d.tables, g), View(Run(d, actions).tables, g))
    ensures d.tables.cursor <= Run(d, actions).tables.cursor
    ensures d.tables.initialSyncCompleted ==> Run(d, actions).tables.initialSyncCompleted
  {
    if actions != [] {
      var n := |actions| - 1;
      var front := actions[..n];
      forall i | 0 <= i < n
        ensures !ConfirmsAbsence(Run(d, front[..i]), front[i], g)
      {
        assert front[..i] == actions[..i];
      }
      VersionsNeverGoBack(d, front, g);
      StepIsMonotone(Run(d, front), actions[n], g);
      StepKeepsDevice(Run(d, front), actions[n]);
    }
  }

  /** A version a pull delivered stays reflected, whatever happens afterwards. */
  lemma {:induction false} DeliveredStaysReflected(
      d: Device, rows: seq<RemoteGame>, completed: bool, r: RemoteGame, later: seq<Action>)
    requires DeviceOk(d) && d.worker == Pulled(rows) && Ascending(d.tables.cursor, rows) && r in rows
    requires NeverAbsent(Next(d, FinishPull(completed)), later, r.id)
    ensures r.version <= Reflected(View(Run(Next(d, FinishPull(completed)), later).tables, r.id))
    ensures r.version <= Run(Next(d, FinishPull(completed)), later).tables.cursor
  {
    PullIsAllOrNothing(d, rows, completed);
    StepKeepsDevice(d, FinishPull(completed));
    VersionsNeverGoBack(Next(d, FinishPull(completed)), later, r.id);
    RowsBelowLast(d.tables.cursor, rows);
  }

  lemma RowsBelowLast(cursor: nat, rows: seq<RemoteGame>)
    requires Ascending(cursor, rows)
    ensures forall r :: r in rows ==> r.version <= LastVersion(cursor, rows)
  {
    if rows != [] {
      RowsBelowLast(cursor, rows[..|rows| - 1]);
      assert rows == rows[..|rows| - 1] + [rows[|rows| - 1]];
    }
  }

  // ----- conflict resolution -----

  /** The choice accepts that the server has no such record. */
  predicate AcceptsAbsence(q: Resolution, selected: Payload, fetched: Option<RemoteGame>) {
    fetched == None && (q.choice == UseRemote || Truthy(selected[DELETED_AT]))
  }

  /** A resolution succeeds only on the local state and server record the user compared, or when
      all three agree. It closes every conflict of the game, leaves the outbox of the game empty
      exactly when nothing has to be sent, and otherwise leaves one entry on the confirmed version. */
  lemma ResolutionIsExact(t: Tables, q: Resolution, fetched: Option<RemoteGame>, now: string)
    requires TablesOk(t) && ResolveConflict(t, q, fetched, now).1 == Resolved
    ensures q.conflictId < |t.conflicts| && t.conflicts[q.conflictId].game in t.games
    ensures var g := t.conflicts[q.conflictId].game;
            var v := View(ResolveConflict(t, q, fetched, now).0, g);
            var selected := Selected(t, q);
            && CurrentRevision(t, g) == q.expectedRevision
            && (|| AsView(fetched) == ComparedRemote(t, q)
                || (fetched.Some? && t.games[g].payload == fetched.value.payload == selected))
            && (fetched.Some? ==> fetched.value.id == g && KnownVersion(t, g) <= fetched.value.version)
            && v.row.Some?
            && v.conflict == None
            && v.row.value.remoteVersion == ShownVersion(AsView(fetched))
            && (v.queue == [] <==>
                  (fetched.Some? && selected == fetched.value.payload) || AcceptsAbsence(q, selected, fetched))
            && (v.queue != [] ==>
                  && |v.queue| == 1
                  && v.queue[0].row == v.row.value
                  && v.row.value.payload == selected)
            && (forall h :: h != g ==> View(ResolveConflict(t, q, fetched, now).0, h) == View(t, h))
  {
    var g := t.conflicts[q.conflictId].game;
    var local, selected := t.games[g], Selected(t, q);
    if fetched.Some? && local.payload == fetched.value.payload == selected {
      SettleView(t, g, FromServer(fetched.value.version, fetched.value.payload));
    } else {
      ChoiceView(t, g, q.choice, selected, fetched, now);
    }
  }

  /** A resolution that does not succeed keeps the row, its versions and everything queued. */
  lemma FailedResolutionKeepsRow(t: Tables, q: Resolution, fetched: Option<RemoteGame>, now: string, g: GameId)
    requires TablesOk(t) && ResolveConflict(t, q, fetched, now).1 != Resolved
    ensures var v, v' := View(t, g), View(ResolveConflict(t, q, fetched, now).0, g);
            && v'.queue == v.queue
            && (v' == v || (v.row.Some? && v' == InDispute(v, AsView(fetched))))
  {
    if Submittable(t, q) {
      var h := t.conflicts[q.conflictId].game;
      DisputeView(t, h, t.games[h].payload, AsView(fetched), t.games[h].remoteVersion);
    }
  }

  /** The record with a deletion time, keeping the one it has. */
  function Tombstone(payload: Payload, now: string): Payload {
    if Deleted(payload) then payload else payload[DELETED_AT := Text(now)]
  }

  /** What a successful resolution leaves in the row. */
  lemma ResolvedRow(t: Tables, q: Resolution, fetched: Option<RemoteGame>, now: string)
    requires TablesOk(t) && ResolveConflict(t, q, fetched, now).1 == Resolved
    ensures var g := t.conflicts[q.conflictId].game;
            var row := View(ResolveConflict(t, q, fetched, now).0, g).row;
            row.Some? && row.value.payload == if AcceptsAbsence(q, Selected(t, q), fetched)
                                              then Tombstone(t.games[g].payload, now) else Selected(t, q)
  {
    var g := t.conflicts[q.conflictId].game;
    var local, selected := t.games[g].payload, Selected(t, q);
    if fetched.Some? && local == fetched.value.payload == selected {
      SettleView(t, g, FromServer(fetched.value.version, fetched.value.payload));
    } else {
      ChoiceView(t, g, q.choice, selected, fetched, now);
    }
  }

  /** When a merge with edits is the tombstone of the local record. */
  lemma MergedTombstone(local: Payload, merged: map<Field, Value>, now: string)
    requires Truthy(WithEdits(local, merged)[DELETED_AT])
    ensures Tombstone(local, now) == WithEdits(local, merged) <==>
              !(exists f: Field :: f in merged && merged[f] != Tombstone(local, now)[f])
  {
    var selected := WithEdits(local, merged);
    if f: Field :| f in merged && merged[f] != Tombstone(local, now)[f] {
      assert selected[f] != Tombstone(local, now)[f];
    } else {
      assert forall f: Field :: selected[f] == Tombstone(local, now)[f];
    }
  }

  /** The tombstone of the local record is not what the user chose. */
  predicate TombstoneIsNotChoice(q: Resolution, local: Payload, now: string) {
    || q.choice == UseRemote
    || (&& q.choice == UseMerged
        && Truthy(WithEdits(local, q.merged)[DELETED_AT])
        && exists f: Field :: f in q.merged && q.merged[f] != Tombstone(local, now)[f])
  }

  lemma ChosenPayload(q: Resolution, local: Payload, selected: Payload, now: string)
    requires q.choice == UseRemote ==> selected == EMPTY_PAYLOAD
    requires q.choice == UseLocal ==> selected == local
    requires q.choice == UseMerged ==> selected == WithEdits(local, q.merged)
    ensures (if q.choice == UseRemote || Truthy(selected[DELETED_AT]) then Tombstone(local, now) else selected)
            == selected
            <==> !TombstoneIsNotChoice(q, local, now)
  {
    match q.choice
    case UseRemote => assert Tombstone(local, now)[DELETED_AT] != selected[DELETED_AT];
    case UseLocal =>
    case UseMerged =>
      if Truthy(selected[DELETED_AT]) {
        MergedTombstone(local, q.merged, now);
      }
  }

  lemma ComparedMissing(t: Tables, q: Resolution, now: string)
    requires ResolveConflict(t, q, None, now).1 == Resolved
    ensures ComparedRemote(t, q) == Missing
    ensures q.choice == UseRemote ==> Selected(t, q) == EMPTY_PAYLOAD
  {
  }

  /** The row does not always become the record the user chose. It does not exactly when the
      server has no such record and the user either took the server's side or merged in a deletion
      together with values the tombstoned local row does not have. */
  lemma RowIsChoiceUnless(t: Tables, q: Resolution, fetched: Option<RemoteGame>, now: string)
    requires TablesOk(t) && ResolveConflict(t, q, fetched, now).1 == Resolved
    ensures var g := t.conflicts[q.conflictId].game;
            View(ResolveConflict(t, q, fetched, now).0, g).row.value.payload == Selected(t, q) <==>
              !(fetched == None && TombstoneIsNotChoice(q, t.games[g].payload, now))
  {
    ResolvedRow(t, q, fetched, now);
    if fetched == None {
      ComparedMissing(t, q, now);
      ChosenPayload(q, t.games[t.conflicts[q.conflictId].game].payload, Selected(t, q), now);
    }
  }

  // ----- inputs at which the promises above fail -----

  const LIVE: RemoteGame := RemoteGame(0, 1, EMPTY_PAYLOAD)
  const GONE: RemoteGame := RemoteGame(0, 2, EMPTY_PAYLOAD[DELETED_AT := Text("then")])
  const NOTED: Payload := EMPTY_PAYLOAD[7 := Text("note")]

  function Having(r: RemoteGame): Server {
    Server(map[r.id := Record(r.version, r.payload)], {}, r.version)
  }

  /** A device that has pulled the record, and has changed its note since. */
  function PulledLive(): Tables {
    OrSame(NO_TABLES, ApplyPullBatch(NO_TABLES, [LIVE], true))
  }

  function PulledAndNoted(): Tables {
    OrSame(PulledLive(), UpdateGame(PulledLive(), 0, NOTED))
  }

  lemma NothingIsOk()
    ensures TablesOk(NO_TABLES)
  {
    assert OpenIndex([], 0) == -1;
  }

  lemma AfterPull()
    ensures PulledLive() == Tables(map[0 := FromServer(1, EMPTY_PAYLOAD)], [], [], 1, true) && TablesOk(PulledLive())
  {
    NothingIsOk();
    assert [LIVE][..0] == [];
    assert ReconcileAll(NO_TABLES, []) == NO_TABLES;
    assert ReconcileAll(NO_TABLES, [LIVE]) == ReconcileRemote(NO_TABLES, LIVE, false);
    ReconcileKeepsTruth(NO_TABLES, LIVE, false);
    assert forall g :: View(PulledLive(), g) == View(ReconcileAll(NO_TABLES, [LIVE]), g);
  }

  lemma AfterNote()
    ensures TablesOk(PulledAndNoted())
    ensures PulledAndNoted().games == map[0 := Row(NOTED, Some(1), Some(EMPTY_PAYLOAD), Pending)]
    ensures |View(PulledAndNoted(), 0).queue| == 1 && View(PulledAndNoted(), 0).conflict == None
    ensures PulledAndNoted().conflicts == [] && PulledAndNoted().cursor == 1
  {
    AfterPull();
    assert Edited(EMPTY_PAYLOAD, NOTED) == NOTED;
    LocalEditsKeepTruth(PulledLive(), 0, NOTED, "");
    EditView(PulledLive(), 0, Upsert, Row(NOTED, Some(1), Some(EMPTY_PAYLOAD), Pending));
  }

  lemma AfterDeletion() returns (t: Tables, sent: Entry)
    ensures DeleteGame(PulledAndNoted(), 0, "then") == Some(t) && TablesOk(t)
    ensures View(t, 0).conflict == None && View(t, 0).queue != [] && sent == View(t, 0).queue[|View(t, 0).queue| - 1]
    ensures View(t, 0).row == Some(sent.row) && sent.game == 0 && sent.operation == Delete
    ensures sent.row == Row(NOTED[DELETED_AT := Text("then")], Some(1), Some(EMPTY_PAYLOAD), Pending)
  {
    AfterNote();
    t := DeleteGame(PulledAndNoted(), 0, "then").value;
    LocalEditsKeepTruth(PulledAndNoted(), 0, NOTED, "then");
    EditView(PulledAndNoted(), 0, Delete,
             Row(NOTED[DELETED_AT := Text("then")], Some(1), Some(EMPTY_PAYLOAD), Pending));
    sent := View(t, 0).queue[|View(t, 0).queue| - 1];
  }

  lemma DeletionIsApplied(e: Entry)
    requires e.game == 0 && e.operation == Delete && e.row.remoteVersion == Some(1)
    ensures Apply(Having(LIVE), BuildChange(e), "then") == (Having(GONE), Applied(0, Some(2)))
    ensures Current(Having(GONE), 0) == Some(GONE)
  {
    assert Having(LIVE).records[0 := Record(2, GONE.payload)] == map[0 := Record(2, GONE.payload)];
  }

  /** A record is pulled, its note is changed and it is deleted. The deletion is applied and the reply
      lost; sending the same entry again opens a conflict. */
  lemma RepeatedDeletionCanConflict() returns (t: Tables, sent: Entry)
    ensures DeleteGame(PulledAndNoted(), 0, "then") == Some(t)
    ensures View(t, 0).conflict == None && View(t, 0).queue != [] && sent == View(t, 0).queue[|View(t, 0).queue| - 1]
    ensures var (s, lost) := Apply(Having(LIVE), BuildChange(sent), "then");
            var (s', reply) := Apply(s, BuildChange(sent), "later");
            && lost == Applied(0, Some(2))
            && s' == s && reply == Conflicted(0, Some(GONE))
            && View(ApplyResult(t, sent, reply), 0).conflict.Some?
  {
    t, sent := AfterDeletion();
    DeletionIsRefused(t, sent);
  }

  lemma NotedDeletionMixes(p: Payload)
    requires p == NOTED[DELETED_AT := Text("then")]
    ensures ChangedFields(EMPTY_PAYLOAD, p) != {DELETED_AT}
  {
    assert 7 in ChangedFields(EMPTY_PAYLOAD, p);
  }

  lemma DeletionIsRefused(t: Tables, e: Entry)
    requires TablesOk(t) && View(t, 0).row == Some(e.row) && View(t, 0).conflict == None
    requires View(t, 0).queue != [] && e == View(t, 0).queue[|View(t, 0).queue| - 1]
    requires e.game == 0 && e.operation == Delete
    requires e.row == Row(NOTED[DELETED_AT := Text("then")], Some(1), Some(EMPTY_PAYLOAD), Pending)
    ensures var (s, lost) := Apply(Having(LIVE), BuildChange(e), "then");
            var (s', reply) := Apply(s, BuildChange(e), "later");
            && lost == Applied(0, Some(2))
            && s' == s && reply == Conflicted(0, Some(GONE))
            && View(ApplyResult(t, e, reply), 0).conflict.Some?
  {
    DeletionIsApplied(e);
    NotedDeletionMixes(e.row.payload);
    LostDeletionIsAbsorbedUnless(t, e, Having(LIVE), Having(GONE), "then", "later");
  }

  lemma DeletionMeetsNote()
    ensures Decide(Some(EMPTY_PAYLOAD), NOTED, GONE.payload) == Conflicting
    ensures DELETED_AT in ChangedFields(GONE.payload, NOTED) && ChangedFields(GONE.payload, NOTED) != {DELETED_AT}
  {
    assert 7 in ChangedFields(EMPTY_PAYLOAD, NOTED) - {DELETED_AT};
    assert DELETED_AT in ChangedFields(EMPTY_PAYLOAD, GONE.payload);
    assert 7 in ChangedFields(GONE.payload, NOTED);
  }

  lemma DisputedByDeletion(t: Tables)
    requires TablesOk(t) && t.conflicts == []
    requires t.games == map[0 := Row(NOTED, Some(1), Some(EMPTY_PAYLOAD), Pending)] && View(t, 0).queue != []
    ensures ReconcileRemote(t, GONE, false) == StoreConflict(t, 0, NOTED, Present(2, GONE.payload), Some(1))
    ensures ReconcileRemote(t, GONE, false).games == map[0 := Row(NOTED, Some(1), Some(EMPTY_PAYLOAD), InConflict)]
    ensures ReconcileRemote(t, GONE, false).conflicts
         == [ConflictRow(0, NOTED, Present(2, GONE.payload), Some(1), true)]
    ensures TablesOk(ReconcileRemote(t, GONE, false))
  {
    DeletionMeetsNote();
    ReconcileKeepsTruth(t, GONE, false);
  }

  /** The device above after a pull that tells that another device has deleted the record. */
  function PulledDeletion(): Tables {
    OrSame(PulledAndNoted(), ApplyPullBatch(PulledAndNoted(), [GONE], true))
  }

  lemma AfterForeignDeletion()
    ensures ApplyPullBatch(PulledAndNoted(), [GONE], true) == Some(PulledDeletion())
    ensures TablesOk(PulledDeletion())
    ensures PulledDeletion().games == map[0 := Row(NOTED, Some(1), Some(EMPTY_PAYLOAD), InConflict)]
    ensures PulledDeletion().conflicts == [ConflictRow(0, NOTED, Present(2, GONE.payload), Some(1), true)]
  {
    AfterNote();
    var t1 := PulledAndNoted();
    DisputedByDeletion(t1);
    assert [GONE][..0] == [];
    assert ReconcileAll(t1, []) == t1;
    assert ReconcileAll(t1, [GONE]) == ReconcileRemote(t1, GONE, false);
    assert forall g :: View(PulledDeletion(), g) == View(ReconcileAll(t1, [GONE]), g);
  }

  /** The user keeps the local side. */
  function KeepLocal(t: Tables): Resolution
    requires 0 in t.games
  {
    Resolution(0, UseLocal, map[], Some(2), CurrentRevision(t, 0), None)
  }

  lemma KeepLocalIsResolved(t: Tables)
    requires t.games == map[0 := Row(NOTED, Some(1), Some(EMPTY_PAYLOAD), InConflict)]
    requires t.conflicts == [ConflictRow(0, NOTED, Present(2, GONE.payload), Some(1), true)]
    ensures ResolveConflict(t, KeepLocal(t), Some(GONE), "then")
         == (RetireConflicts(ApplyChoice(t, 0, UseLocal, NOTED, Some(GONE), "then"), 0), Resolved)
  {
    assert GONE.payload[DELETED_AT] != NOTED[DELETED_AT];
    assert Submittable(t, KeepLocal(t)) && Selected(t, KeepLocal(t)) == NOTED && KnownVersion(t, 0) == 2;
  }

  lemma AfterRestoration(t: Tables)
    requires TablesOk(t) && 0 in t.games
    ensures var t' := RetireConflicts(ApplyChoice(t, 0, UseLocal, NOTED, Some(GONE), "then"), 0);
            View(t', 0) == Requeued(0, NextId(t.outbox), Restore, Row(NOTED, Some(2), Some(GONE.payload), Pending))
  {
    assert GONE.payload[DELETED_AT] != NOTED[DELETED_AT];
    ChoiceView(t, 0, UseLocal, NOTED, Some(GONE), "then");
  }

  lemma RestorationIsApplied(e: Entry)
    requires e.game == 0 && e.operation == Restore && e.row.payload == NOTED && e.row.remoteVersion == Some(2)
    ensures Apply(Having(GONE), BuildChange(e), "then") == (Having(RemoteGame(0, 3, NOTED)), Applied(0, Some(3)))
  {
    assert Live(NOTED) == NOTED;
    assert Having(GONE).records[0 := Record(3, NOTED)] == map[0 := Record(3, NOTED)];
  }

  /** A record is pulled and its note changed; meanwhile another device has deleted it. The user keeps
      the local side, which restores it. The restoration is applied and the reply lost; sending the
      same entry again opens a conflict. */
  lemma RepeatedRestorationCanConflict() returns (t: Tables, sent: Entry)
    ensures ApplyPullBatch(PulledAndNoted(), [GONE], true) == Some(PulledDeletion()) && 0 in PulledDeletion().games
    ensures ResolveConflict(PulledDeletion(), KeepLocal(PulledDeletion()), Some(GONE), "then") == (t, Resolved)
    ensures View(t, 0).conflict == None && View(t, 0).queue == [sent]
    ensures var (s, lost) := Apply(Having(GONE), BuildChange(sent), "then");
            var (s', reply) := Apply(s, BuildChange(sent), "later");
            && lost == Applied(0, Some(3))
            && s' == s && reply == Conflicted(0, Some(RemoteGame(0, 3, NOTED)))
            && View(ApplyResult(t, sent, reply), 0).conflict.Some?
  {
    AfterForeignDeletion();
    KeepLocalIsResolved(PulledDeletion());
    AfterRestoration(PulledDeletion());
    ResolveKeepsTruth(PulledDeletion(), KeepLocal(PulledDeletion()), Some(GONE), "then");
    t := RetireConflicts(ApplyChoice(PulledDeletion(), 0, UseLocal, NOTED, Some(GONE), "then"), 0);
    sent := View(t, 0).queue[0];
    RestorationIsRefused(t, sent);
  }

  lemma RestorationIsRefused(t: Tables, e: Entry)
    requires TablesOk(t) && View(t, 0) == Requeued(0, e.id, Restore, Row(NOTED, Some(2), Some(GONE.payload), Pending))
    requires View(t, 0).queue == [e]
    ensures var (s, lost) := Apply(Having(GONE), BuildChange(e), "then");
            var (s', reply) := Apply(s, BuildChange(e), "later");
            && lost == Applied(0, Some(3))
            && s' == s && reply == Conflicted(0, Some(RemoteGame(0, 3, NOTED)))
            && View(ApplyResult(t, e, reply), 0).conflict.Some?
  {
    RestorationIsApplied(e);
    DeletionMeetsNote();
    LostWriteIsAbsorbed(t, e, Having(GONE), Having(RemoteGame(0, 3, NOTED)), "then", "later");
  }

  /** The tables after an insertion, and after a push of it that was refused without a record. */
  function Inserted(): Tables {
    OrSame(NO_TABLES, InsertGame(NO_TABLES, 0, EMPTY_PAYLOAD))
  }

  function RefusedInsertion(): Tables
    requires Inserted().outbox != []
  {
    ApplyResult(Inserted(), Inserted().outbox[0], Conflicted(0, None))
  }

  lemma AfterInsertion()
    ensures InsertGame(NO_TABLES, 0, EMPTY_PAYLOAD) == Some(Inserted())
    ensures var row := Row(EMPTY_PAYLOAD, None, None, Pending);
            Inserted() == Tables(map[0 := row], [Entry(1, 0, Upsert, row, false, None)], [], 0, false)
    ensures TablesOk(Inserted())
  {
    NothingIsOk();
    assert EMPTY_PAYLOAD[DELETED_AT := Null] == EMPTY_PAYLOAD;
    LocalEditsKeepTruth(NO_TABLES, 0, EMPTY_PAYLOAD, "");
  }

  /** A record is inserted and the insertion applied, with its reply lost; then its note is changed.
      Sending the newest entry is refused, and opens a conflict of the record with itself. */
  lemma EditAfterLostInsertionCanConflict() returns (t: Tables, sent: Entry)
    ensures UpdateGame(Inserted(), 0, NOTED) == Some(t)
    ensures View(t, 0).conflict == None && View(t, 0).queue != [] && sent == View(t, 0).queue[|View(t, 0).queue| - 1]
    ensures |Inserted().outbox| == 1
    ensures var (s, lost) := Apply(Server(map[], {}, 0), BuildChange(Inserted().outbox[0]), "then");
            var (s', reply) := Apply(s, BuildChange(sent), "later");
            && lost == Applied(0, Some(1))
            && s' == s && reply == Conflicted(0, Some(LIVE))
            && View(ApplyResult(t, sent, reply), 0).conflict.Some?
  {
    AfterInsertion();
    t := UpdateGame(Inserted(), 0, NOTED).value;
    assert Edited(EMPTY_PAYLOAD, NOTED) == NOTED;
    LocalEditsKeepTruth(Inserted(), 0, NOTED, "");
    EditView(Inserted(), 0, Upsert, Row(NOTED, None, None, Pending));
    sent := View(t, 0).queue[|View(t, 0).queue| - 1];
    EditedInsertionIsRefused(t, Inserted().outbox[0], sent);
  }

  lemma EditedInsertionIsRefused(t: Tables, lost: Entry, e: Entry)
    requires TablesOk(t) && View(t, 0) == GameView(Some(Row(NOTED, None, None, Pending)), [lost, e], None)
    requires lost.game == e.game == 0 && lost.operation == e.operation == Upsert
    requires lost.row == Row(EMPTY_PAYLOAD, None, None, Pending) && e.row == Row(NOTED, None, None, Pending)
    ensures var (s, reply) := Apply(Server(map[], {}, 0), BuildChange(lost), "then");
            var (s', refused) := Apply(s, BuildChange(e), "later");
            && reply == Applied(0, Some(1))
            && s' == s && refused == Conflicted(0, Some(LIVE))
            && View(ApplyResult(t, e, refused), 0).conflict.Some?
  {
    InsertionIsApplied(lost);
    LaterEntryIsRefused(e, Having(LIVE), LIVE, "later");
    ReconcileView(t, LIVE, true);
    LostMeetsView(View(t, 0), LIVE, NextId(t.outbox));
    NoteClashes();
  }

  lemma NoteClashes()
    ensures EditsClash(None, EMPTY_PAYLOAD, NOTED)
  {
    assert !Equivalent(7, NOTED[7], EMPTY_PAYLOAD[7]);
  }

  lemma InsertionIsApplied(e: Entry)
    requires e.game == 0 && e.operation == Upsert && e.row == Row(EMPTY_PAYLOAD, None, None, Pending)
    ensures Apply(Server(map[], {}, 0), BuildChange(e), "then") == (Having(LIVE), Applied(0, Some(1)))
    ensures Current(Having(LIVE), 0) == Some(LIVE)
  {
    assert Live(EMPTY_PAYLOAD) == EMPTY_PAYLOAD;
  }

  lemma AfterRefusal()
    ensures Inserted().outbox != [] && TablesOk(RefusedInsertion())
    ensures RefusedInsertion().games == map[0 := Row(EMPTY_PAYLOAD, None, None, InConflict)]
    ensures RefusedInsertion().conflicts == [ConflictRow(0, EMPTY_PAYLOAD, Missing, None, true)]
  {
    AfterInsertion();
    DisputeKeepsTruth(Inserted(), 0, EMPTY_PAYLOAD, Missing, None);
  }

  lemma ForeignIsRefused(e: Entry)
    requires e.game == 0 && e.operation == Upsert && e.row.remoteVersion == None
    ensures Apply(Server(map[], {0}, 0), BuildChange(e), "now") == (Server(map[], {0}, 0), Conflicted(0, None))
  {
  }

  /** The user merges in a deletion and another note. */
  function DeleteWithNote(t: Tables): Resolution
    requires 0 in t.games
  {
    Resolution(0, UseMerged, map[7 := Text("chosen note"), DELETED_AT := Text("then")],
               None, CurrentRevision(t, 0), None)
  }

  lemma DeleteWithNoteIsResolved(t: Tables)
    requires t.games == map[0 := Row(EMPTY_PAYLOAD, None, None, InConflict)]
    requires t.conflicts == [ConflictRow(0, EMPTY_PAYLOAD, Missing, None, true)]
    ensures ResolveConflict(t, DeleteWithNote(t), None, "now").1 == Resolved
    ensures Selected(t, DeleteWithNote(t))[7] == Text("chosen note")
    ensures Truthy(Selected(t, DeleteWithNote(t))[DELETED_AT])
  {
  }

  lemma ChosenNoteIsDropped(t: Tables)
    requires TablesOk(t) && t.games == map[0 := Row(EMPTY_PAYLOAD, None, None, InConflict)]
    requires t.conflicts == [ConflictRow(0, EMPTY_PAYLOAD, Missing, None, true)]
    ensures var q := DeleteWithNote(t);
            var (t', verdict) := ResolveConflict(t, q, None, "now");
            && verdict == Resolved && View(t', 0).row.Some?
            && Selected(t, q)[7] == Text("chosen note") && View(t', 0).row.value.payload[7] == Null
  {
    DeleteWithNoteIsResolved(t);
    ResolvedRow(t, DeleteWithNote(t), None, "now");
  }

  /** A record is inserted and its push refused without a record, because another user owns its
      identifier. The user merges in a deletion and another note: the row is deleted, but the note is
      not the chosen one. */
  lemma RowIsNotAlwaysChoice()
    ensures InsertGame(NO_TABLES, 0, EMPTY_PAYLOAD) == Some(Inserted()) && |Inserted().outbox| == 1
    ensures Apply(Server(map[], {0}, 0), BuildChange(Inserted().outbox[0]), "now").1 == Conflicted(0, None)
    ensures 0 in RefusedInsertion().games && TablesOk(RefusedInsertion())
    ensures var q := DeleteWithNote(RefusedInsertion());
            var (t, verdict) := ResolveConflict(RefusedInsertion(), q, None, "now");
            && verdict == Resolved && View(t, 0).row.Some?
            && Selected(RefusedInsertion(), q)[7] == Text("chosen note") && View(t, 0).row.value.payload[7] == Null
  {
    AfterInsertion();
    ForeignIsRefused(Inserted().outbox[0]);
    AfterRefusal();
    ChosenNoteIsDropped(RefusedInsertion());
  }
}
