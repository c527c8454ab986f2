/** What each step does to one game, as a function of what the tables hold about that game alone.
    Every other game is left as it was; the lemmas of this module prove both. */
module SyncViews {
  import opened Options
  import opened SyncTypes
  import opened SyncTables
  import opened SyncSteps

  function Queued(g: GameId, id: nat, operation: Operation, row: Row): Entry {
    Entry(id, g, operation, row, false, None)
  }

  /** The row changes and the new row is queued behind what is there. */
  function Edit(g: GameId, v: GameView, id: nat, operation: Operation, row: Row): GameView {
    GameView(Some(row), v.queue + [Queued(g, id, operation, row)], v.conflict)
  }

  /** The row changes and becomes the only thing queued; open conflicts are closed. */
  function Requeued(g: GameId, id: nat, operation: Operation, row: Row): GameView {
    GameView(Some(row), [Queued(g, id, operation, row)], None)
  }

  function Settled(row: Row): GameView {
    GameView(Some(row), [], None)
  }

  function FromServer(version: nat, payload: Payload): Row {
    Row(payload, Some(version), Some(payload), Synced)
  }

  predicate IntactIn(queue: seq<Entry>, e: Entry) {
    exists i :: 0 <= i < |queue| && queue[i].id == e.id && queue[i].row == e.row
  }

  function Acknowledged(v: GameView, e: Entry, version: Option<nat>): GameView {
    if !IntactIn(v.queue, e) || v.row == None then v
    else if version.Some? && VersionOf(v.row.value) > version.value then v
    else
      var rest := After(v.queue, e.id);
      var row := v.row.value;
      GameView(Some(Row(row.payload, if version.Some? then version else row.remoteVersion, Some(e.row.payload),
                        if rest == [] then Synced else Pending)),
               rest, v.conflict)
  }

  function InDispute(v: GameView, remote: RemoteView): GameView
    requires v.row.Some?
  {
    GameView(Some(v.row.value.(status := InConflict)), v.queue, Some(remote))
  }

  function Reconciled(v: GameView, r: RemoteGame, pushed: bool, id: nat): GameView {
    if v.row == None then v.(row := Some(FromServer(r.version, r.payload)))
    else
      var local := v.row.value;
      if r.version < VersionOf(local) then v
      else if v.conflict.Some? && r.version < ViewVersion(v.conflict.value) then v
      else if !pushed && v.queue == [] then Settled(FromServer(r.version, r.payload))
      else
        match Decide(local.base, local.payload, r.payload)
        case Converged => Settled(FromServer(r.version, r.payload))
        case Conflicting => InDispute(v, Present(r.version, r.payload))
        case Rebased(merged) =>
          Requeued(r.id, id, ResolutionOperation(local.payload, r.payload),
                   Row(merged, Some(r.version), Some(r.payload), Pending))
  }

  /** The effect of a resolution that was accepted. */
  function Chosen(g: GameId, v: GameView, choice: Choice, selected: Payload, fetched: Option<RemoteGame>,
                  now: string, id: nat): GameView
    requires v.row.Some?
  {
    match fetched
    case None =>
      if choice == UseRemote || Truthy(selected[DELETED_AT]) then
        var payload := v.row.value.payload;
        Settled(Row(if Deleted(payload) then payload else payload[DELETED_AT := Text(now)], None, None, Synced))
      else Requeued(g, id, Upsert, Row(selected, None, None, Pending))
    case Some(remote) =>
      if choice == UseRemote || selected == remote.payload then Settled(FromServer(remote.version, remote.payload))
      else Requeued(g, id, ResolutionOperation(selected, remote.payload),
                    Row(selected, Some(remote.version), Some(remote.payload), Pending))
  }

  /** `t'` differs from `t` in one game at most, and its ids are still ascending. */
  ghost predicate OnlyTouches(t: Tables, t': Tables, g: GameId) {
    && Increasing(t'.outbox)
    && forall h :: h != g ==> View(t', h) == View(t, h)
  }

  lemma EditView(t: Tables, g: GameId, operation: Operation, row: Row)
    requires Increasing(t.outbox)
    ensures View(Enqueue(PutRow(t, g, row), g, operation), g) == Edit(g, View(t, g), NextId(t.outbox), operation, row)
    ensures OnlyTouches(t, Enqueue(PutRow(t, g, row), g, operation), g)
  {
  }

  lemma OnlyTheNewest(queue: seq<Entry>, e: Entry, id: nat)
    requires e.id > id && forall x :: x in queue ==> x.id <= id
    ensures After(queue + [e], id) == [e]
  {
    assert (queue + [e])[..|queue|] == queue;
    AfterAll(queue, id);
  }

  lemma ReplacedQueue(t: Tables, g: GameId, operation: Operation)
    requires Increasing(t.outbox) && g in t.games
    ensures After(QueueOf(t.outbox, g) + [NewEntry(t, g, operation)], NextId(t.outbox) - 1)
         == [NewEntry(t, g, operation)]
  {
    QueueMembers(t.outbox, g);
    OnlyTheNewest(QueueOf(t.outbox, g), NewEntry(t, g, operation), NextId(t.outbox) - 1);
  }

  lemma ReplacedSelf(t: Tables, g: GameId, operation: Operation)
    requires Increasing(t.outbox) && g in t.games
    ensures View(ReplaceOutbox(t, g, operation), g) == View(t, g).(queue := [NewEntry(t, g, operation)])
  {
    var queued, e, id := Enqueue(t, g, operation), NewEntry(t, g, operation), NextId(t.outbox) - 1;
    ReplacedQueue(t, g, operation);
    assert View(queued, g) == View(t, g).(queue := View(t, g).queue + [e]);
    assert View(DequeueUpTo(queued, g, id), g) == View(queued, g).(queue := After(View(queued, g).queue, id));
  }

  lemma ReplacedOther(t: Tables, g: GameId, operation: Operation, h: GameId)
    requires g in t.games && h != g
    ensures View(ReplaceOutbox(t, g, operation), h) == View(t, h)
  {
    assert View(Enqueue(t, g, operation), h) == View(t, h);
  }

  lemma ReplacedOrder(t: Tables, g: GameId, operation: Operation)
    requires Increasing(t.outbox) && g in t.games
    ensures Increasing(ReplaceOutbox(t, g, operation).outbox)
  {
    DeletionKeepsOrder(Enqueue(t, g, operation).outbox, g, NextId(t.outbox) - 1);
  }

  lemma ReplaceOutboxView(t: Tables, g: GameId, operation: Operation)
    requires Increasing(t.outbox) && g in t.games
    ensures View(ReplaceOutbox(t, g, operation), g) == View(t, g).(queue := [NewEntry(t, g, operation)])
    ensures OnlyTouches(t, ReplaceOutbox(t, g, operation), g)
  {
    ReplacedSelf(t, g, operation);
    ReplacedOrder(t, g, operation);
    forall h | h != g ensures View(ReplaceOutbox(t, g, operation), h) == View(t, h) {
      ReplacedOther(t, g, operation, h);
    }
  }

  lemma RequeueView(t: Tables, g: GameId, operation: Operation, row: Row)
    requires Increasing(t.outbox)
    ensures var t' := RetireConflicts(ReplaceOutbox(PutRow(t, g, row), g, operation), g);
            View(t', g) == Requeued(g, NextId(t.outbox), operation, row) && OnlyTouches(t, t', g)
  {
    ReplaceOutboxView(PutRow(t, g, row), g, operation);
  }

  lemma SettleView(t: Tables, g: GameId, row: Row)
    requires Increasing(t.outbox)
    ensures var t' := RetireConflicts(ClearQueue(PutRow(t, g, row), g), g);
            View(t', g) == Settled(row) && OnlyTouches(t, t', g)
  {
    DeletionKeepsOrder(t.outbox, g, 0);
  }

  lemma DisputeView(t: Tables, g: GameId, local: Payload, remote: RemoteView, baseVersion: Option<nat>)
    requires Increasing(t.outbox) && g in t.games
    ensures View(StoreConflict(t, g, local, remote, baseVersion), g) == InDispute(View(t, g), remote)
    ensures OnlyTouches(t, StoreConflict(t, g, local, remote, baseVersion), g)
  {
  }

  lemma IntactView(t: Tables, e: Entry)
    ensures Intact(t.outbox, e) <==> IntactIn(View(t, e.game).queue, e)
  {
    QueueMembers(t.outbox, e.game);
    if Intact(t.outbox, e) {
      var x: Entry :| x in t.outbox && x.id == e.id && x.game == e.game && x.row == e.row;
      assert x in QueueOf(t.outbox, e.game);
    }
    if IntactIn(QueueOf(t.outbox, e.game), e) {
      var x: Entry :| x in QueueOf(t.outbox, e.game) && x.id == e.id && x.row == e.row;
      assert x in t.outbox;
    }
  }

  lemma AcknowledgeView(t: Tables, e: Entry, version: Option<nat>)
    requires Increasing(t.outbox) && e.game in t.games
    ensures View(AcknowledgeEntry(t, e, version), e.game) == Acknowledged(View(t, e.game), e, version)
    ensures OnlyTouches(t, AcknowledgeEntry(t, e, version), e.game)
  {
    IntactView(t, e);
    DeletionKeepsOrder(t.outbox, e.game, e.id);
  }

  lemma MergeView(t: Tables, r: RemoteGame, pushed: bool)
    requires Increasing(t.outbox) && r.id in t.games
    requires r.version >= VersionOf(t.games[r.id])
    requires var conflict := OpenRemote(t.conflicts, r.id); conflict.Some? ==> r.version >= ViewVersion(conflict.value)
    requires pushed || QueueOf(t.outbox, r.id) != []
    ensures View(ReconcileRemote(t, r, pushed), r.id) == Reconciled(View(t, r.id), r, pushed, NextId(t.outbox))
    ensures OnlyTouches(t, ReconcileRemote(t, r, pushed), r.id)
  {
    var g := r.id;
    var local := t.games[g];
    match Decide(local.base, local.payload, r.payload)
    case Converged => SettleView(t, g, FromServer(r.version, r.payload));
    case Conflicting =>
      DisputeView(t, g, local.payload, Present(r.version, r.payload), local.remoteVersion);
    case Rebased(merged) =>
      RequeueView(t, g, ResolutionOperation(local.payload, r.payload),
                  Row(merged, Some(r.version), Some(r.payload), Pending));
  }

  lemma ReconcileView(t: Tables, r: RemoteGame, pushed: bool)
    requires Increasing(t.outbox)
    ensures View(ReconcileRemote(t, r, pushed), r.id) == Reconciled(View(t, r.id), r, pushed, NextId(t.outbox))
    ensures OnlyTouches(t, ReconcileRemote(t, r, pushed), r.id)
  {
    var g := r.id;
    if g in t.games {
      var conflict := OpenRemote(t.conflicts, g);
      if r.version < VersionOf(t.games[g]) || (conflict.Some? && r.version < ViewVersion(conflict.value)) {
      } else if !pushed && QueueOf(t.outbox, g) == [] {
        SettleView(t, g, FromServer(r.version, r.payload));
      } else {
        MergeView(t, r, pushed);
      }
    }
  }

  lemma ChoiceView(t: Tables, g: GameId, choice: Choice, selected: Payload, fetched: Option<RemoteGame>, now: string)
    requires Increasing(t.outbox) && g in t.games
    ensures var t' := RetireConflicts(ApplyChoice(t, g, choice, selected, fetched, now), g);
            && View(t', g) == Chosen(g, View(t, g), choice, selected, fetched, now, NextId(t.outbox))
            && OnlyTouches(t, t', g)
  {
    match fetched
    case None =>
      if choice == UseRemote || Truthy(selected[DELETED_AT]) {
        var payload := t.games[g].payload;
        var gone := if Deleted(payload) then payload else payload[DELETED_AT := Text(now)];
        SettleView(t, g, Row(gone, None, None, Synced));
      } else {
        RequeueView(t, g, Upsert, Row(selected, None, None, Pending));
      }
    case Some(remote) =>
      if choice == UseRemote || selected == remote.payload {
        SettleView(t, g, FromServer(remote.version, remote.payload));
      } else {
        RequeueView(t, g, ResolutionOperation(selected, remote.payload),
                    Row(selected, Some(remote.version), Some(remote.payload), Pending));
      }
  }
}
