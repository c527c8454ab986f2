/** What every step of the sync repository, and every local edit, does to the tables. */
module SyncSteps {
  import opened Options
  import opened SyncTypes
  import opened SyncTables

  // ----- edits made in the user interface -----

  /** A new record and its first outbox entry; None when the id is taken. */
  function InsertGame(t: Tables, g: GameId, fields: Payload): Option<Tables> {
    if g in t.games then None
    else Some(Enqueue(PutRow(t, g, Row(fields[DELETED_AT := Null], None, None, Pending)), g, Upsert))
  }

  /** An edit keeps the time zone and environment the record was made in. */
  function Edited(before: Payload, fields: Payload): Payload {
    seq(FIELD_COUNT, (f: Field) => if f < TIMEZONE_OFFSET then fields[f] else before[f])
  }

  /** None when there is no such record that is not deleted. */
  function UpdateGame(t: Tables, g: GameId, fields: Payload): Option<Tables> {
    if g !in t.games || Deleted(t.games[g].payload) then None
    else
      var row := t.games[g].(payload := Edited(t.games[g].payload, fields), status := Pending);
      Some(Enqueue(PutRow(t, g, row), g, Upsert))
  }

  function DeleteGame(t: Tables, g: GameId, now: string): Option<Tables> {
    if g !in t.games || Deleted(t.games[g].payload) then None
    else
      var row := t.games[g].(payload := t.games[g].payload[DELETED_AT := Text(now)], status := Pending);
      Some(Enqueue(PutRow(t, g, row), g, Delete))
  }

  // ----- choosing what to push -----

  predicate IsDue(t: Tables, e: Entry, now: nat) {
    && e.game in t.games
    && t.games[e.game].status != InConflict
    && OpenIndex(t.conflicts, e.game) == -1
    && (e.retryAt.Some? ==> e.retryAt.value <= now)
    && (var queue := QueueOf(t.outbox, e.game); queue != [] && queue[|queue| - 1].id == e.id)
  }

  /** The due entries among the first n of the outbox, in order. */
  function DueAmong(t: Tables, n: nat, now: nat): seq<Entry>
    requires n <= |t.outbox|
  {
    if n == 0 then []
    else
      var rest := DueAmong(t, n - 1, now);
      if IsDue(t, t.outbox[n - 1], now) then rest + [t.outbox[n - 1]] else rest
  }

  function FetchDue(t: Tables, limit: nat, now: nat): seq<Entry> {
    var due := DueAmong(t, |t.outbox|, now);
    if |due| <= limit then due else due[..limit]
  }

  // ----- the reply to a push -----

  datatype MutationResult =
    | Applied(game: GameId, version: Option<nat>)
    | Conflicted(game: GameId, remote: Option<RemoteGame>)

  /** The queued entry is still the one that was sent. */
  predicate Intact(outbox: seq<Entry>, e: Entry) {
    exists i :: 0 <= i < |outbox| && outbox[i].id == e.id && outbox[i].game == e.game && outbox[i].row == e.row
  }

  function AcknowledgeEntry(t: Tables, e: Entry, version: Option<nat>): Tables {
    if !Intact(t.outbox, e) then t
    else if version.Some? && e.game in t.games && VersionOf(t.games[e.game]) > version.value then t
    else
      var rest := DequeueUpTo(t, e.game, e.id);
      if e.game !in t.games then rest
      else
        var row := t.games[e.game];
        PutRow(rest, e.game,
               Row(row.payload,
                   if version.Some? then version else row.remoteVersion,
                   Some(e.row.payload),
                   if QueueOf(rest.outbox, e.game) == [] then Synced else Pending))
  }

  /** Acknowledges a batch; an entry without an announced version keeps the version it has. */
  function AcknowledgeAll(t: Tables, entries: seq<Entry>, versions: map<GameId, nat>): Tables {
    if entries == [] then t
    else
      var n := |entries| - 1;
      var g := entries[n].game;
      AcknowledgeEntry(AcknowledgeAll(t, entries[..n], versions), entries[n],
                       if g in versions then Some(versions[g]) else None)
  }

  /** Replaces everything queued for a game by one entry holding its current row. */
  function ReplaceOutbox(t: Tables, g: GameId, operation: Operation): Tables
    requires g in t.games
  {
    DequeueUpTo(Enqueue(t, g, operation), g, NextId(t.outbox) - 1)
  }

  function ApplyRemoteRow(t: Tables, r: RemoteGame): Tables {
    PutRow(t, r.id, Row(r.payload, Some(r.version), Some(r.payload), Synced))
  }

  /** Brings one server record into the tables. `pushed` marks the reply to a push of this game. */
  function ReconcileRemote(t: Tables, r: RemoteGame, pushed: bool): Tables {
    var g := r.id;
    if g !in t.games then ApplyRemoteRow(t, r)
    else
      var local := t.games[g];
      var conflict := OpenRemote(t.conflicts, g);
      if r.version < VersionOf(local) then t
      else if conflict.Some? && r.version < ViewVersion(conflict.value) then t
      else if !pushed && QueueOf(t.outbox, g) == [] then RetireConflicts(ApplyRemoteRow(t, r), g)
      else
        match Decide(local.base, local.payload, r.payload)
        case Converged =>
          RetireConflicts(ClearQueue(ApplyRemoteRow(t, r), g), g)
        case Conflicting =>
          StoreConflict(t, g, local.payload, Present(r.version, r.payload), local.remoteVersion)
        case Rebased(merged) =>
          var row := Row(merged, Some(r.version), Some(r.payload), Pending);
          RetireConflicts(ReplaceOutbox(PutRow(t, g, row), g, ResolutionOperation(local.payload, r.payload)), g)
  }

  function ApplyResult(t: Tables, e: Entry, result: MutationResult): Tables {
    match result
    case Applied(_, version) => AcknowledgeEntry(t, e, version)
    case Conflicted(_, Some(remote)) => ReconcileRemote(t, remote, true)
    case Conflicted(_, None) => StoreConflict(t, e.game, e.row.payload, Missing, e.row.remoteVersion)
  }

  /** The last entry of a batch for each game. */
  function ByGame(entries: seq<Entry>): (byGame: map<GameId, Entry>)
    ensures forall g :: g in byGame ==> byGame[g] in entries && byGame[g].game == g
    ensures forall e :: e in entries ==> e.game in byGame
  {
    if entries == [] then map[]
    else
      var last := entries[|entries| - 1];
      assert entries == entries[..|entries| - 1] + [last];
      ByGame(entries[..|entries| - 1])[last.game := last]
  }

  /** The results answer exactly the games that were sent. */
  predicate Answers(entries: seq<Entry>, results: seq<MutationResult>) {
    ByGame(entries).Keys == set r | r in results :: r.game
  }

  function ApplyResults(t: Tables, entries: map<GameId, Entry>, results: seq<MutationResult>): Tables
    requires forall r :: r in results ==> r.game in entries
  {
    if results == [] then t
    else
      var n := |results| - 1;
      ApplyResult(ApplyResults(t, entries, results[..n]), entries[results[n].game], results[n])
  }

  /** None when the results do not match the batch; nothing is changed then. */
  function ApplyPushResults(t: Tables, entries: seq<Entry>, results: seq<MutationResult>): Option<Tables> {
    if Answers(entries, results) then
      assert forall r :: r in results ==> r.game in set r' | r' in results :: r'.game;
      Some(ApplyResults(t, ByGame(entries), results))
    else None
  }

  // ----- pull -----

  /** Strictly ascending versions, all above the cursor. */
  predicate Ascending(cursor: nat, rows: seq<RemoteGame>) {
    && (rows != [] ==> rows[0].version > cursor)
    && forall i :: 0 < i < |rows| ==> rows[i - 1].version < rows[i].version
  }

  function LastVersion(cursor: nat, rows: seq<RemoteGame>): nat {
    if rows == [] then cursor else rows[|rows| - 1].version
  }

  function ReconcileAll(t: Tables, rows: seq<RemoteGame>): Tables {
    if rows == [] then t
    else ReconcileRemote(ReconcileAll(t, rows[..|rows| - 1]), rows[|rows| - 1], false)
  }

  /** None when the batch is out of order; nothing is changed then. */
  function ApplyPullBatch(t: Tables, rows: seq<RemoteGame>, completed: bool): Option<Tables> {
    if Ascending(t.cursor, rows) then
      Some(ReconcileAll(t, rows).(cursor := LastVersion(t.cursor, rows),
                                  initialSyncCompleted := t.initialSyncCompleted || completed))
    else None
  }

  // ----- failed pushes -----

  const NEVER: nat := 253402300799   // 9999-12-31T23:59:59

  function Marked(outbox: seq<Entry>, id: nat, retryAt: nat): (marked: seq<Entry>)
    ensures |marked| == |outbox|
    ensures forall i :: 0 <= i < |outbox| ==>
              marked[i]
              == if outbox[i].id == id then outbox[i].(failed := true, retryAt := Some(retryAt)) else outbox[i]
  {
    seq(|outbox|, (i: nat) requires i < |outbox| =>
      if outbox[i].id == id then outbox[i].(failed := true, retryAt := Some(retryAt)) else outbox[i])
  }

  function RecordEntryFailure(t: Tables, e: Entry, retryable: bool, retryAt: nat): Tables {
    var outbox := Marked(t.outbox, e.id, if retryable then retryAt else NEVER);
    if && e.game in t.games && t.games[e.game].status != InConflict
       && (exists x :: x in t.outbox && x.id == e.id && x.game == e.game)
    then t.(outbox := outbox,
            games := t.games[e.game := t.games[e.game].(status := if retryable then Pending else Failed)])
    else t.(outbox := outbox)
  }

  function RecordFailure(t: Tables, entries: seq<Entry>, retryable: bool, retryAt: nat): Tables {
    if entries == [] then t
    else
      var n := |entries| - 1;
      RecordEntryFailure(RecordFailure(t, entries[..n], retryable, retryAt), entries[n], retryable, retryAt)
  }

  function Unmarked(outbox: seq<Entry>): (unmarked: seq<Entry>)
    ensures |unmarked| == |outbox|
    ensures forall i :: 0 <= i < |outbox| ==>
              unmarked[i] == if outbox[i].failed then outbox[i].(failed := false, retryAt := None) else outbox[i]
  {
    seq(|outbox|, (i: nat) requires i < |outbox| =>
      if outbox[i].failed then outbox[i].(failed := false, retryAt := None) else outbox[i])
  }

  function RetryFailed(t: Tables): Tables {
    t.(outbox := Unmarked(t.outbox),
       games := map g | g in t.games ::
                  if t.games[g].status == Failed then t.games[g].(status := Pending) else t.games[g])
  }

  // ----- conflict resolution -----

  datatype Choice = UseRemote | UseLocal | UseMerged

  /** The digest that pins what the user looked at. SHA-256 is taken as injective, so the digest
      is represented by the hashed state itself. */
  datatype Revision = Revision(payload: Payload, remoteVersion: Option<nat>, latest: Option<nat>)

  function LatestId(outbox: seq<Entry>, g: GameId): Option<nat> {
    var queue := QueueOf(outbox, g);
    if queue == [] then None else Some(queue[|queue| - 1].id)
  }

  function CurrentRevision(t: Tables, g: GameId): Revision
    requires g in t.games
  {
    Revision(t.games[g].payload, t.games[g].remoteVersion, LatestId(t.outbox, g))
  }

  /** A draft the user may submit after the conflict itself was closed. */
  datatype Comparison = Comparison(conflictId: nat, game: GameId, remote: RemoteView, revision: Revision)

  datatype Resolution = Resolution(
    conflictId: nat,
    choice: Choice,
    merged: map<Field, Value>,
    expectedVersion: Option<nat>,
    expectedRevision: Revision,
    comparison: Option<Comparison>)

  datatype Verdict = Resolved | Stale | Refused

  function AsView(fetched: Option<RemoteGame>): RemoteView {
    if fetched.Some? then Present(fetched.value.version, fetched.value.payload) else Missing
  }

  function ShownVersion(remote: RemoteView): Option<nat> {
    if remote.Present? then Some(remote.version) else None
  }

  function WithEdits(local: Payload, merged: map<Field, Value>): Payload {
    seq(FIELD_COUNT, (f: Field) => if f in merged then merged[f] else local[f])
  }

  /** The server side the user compared with. */
  function ComparedRemote(t: Tables, q: Resolution): RemoteView
    requires q.conflictId < |t.conflicts|
  {
    if q.comparison.Some? then q.comparison.value.remote else t.conflicts[q.conflictId].remote
  }

  /** The record the user asked for. */
  function Selected(t: Tables, q: Resolution): Payload
    requires q.conflictId < |t.conflicts| && t.conflicts[q.conflictId].game in t.games
  {
    var local := t.games[t.conflicts[q.conflictId].game].payload;
    match q.choice
    case UseRemote => ViewPayload(ComparedRemote(t, q))
    case UseLocal => local
    case UseMerged => WithEdits(local, q.merged)
  }

  /** The request still speaks about an existing conflict and the local state the user saw. */
  predicate Submittable(t: Tables, q: Resolution) {
    && q.conflictId < |t.conflicts|
    && (t.conflicts[q.conflictId].open || q.comparison.Some?)
    && (var g := t.conflicts[q.conflictId].game;
        && (q.comparison.Some? ==>
              && q.comparison.value.conflictId == q.conflictId
              && q.comparison.value.game == g
              && q.comparison.value.revision == q.expectedRevision)
        && g in t.games
        && CurrentRevision(t, g) == q.expectedRevision)
    && ShownVersion(ComparedRemote(t, q)) == q.expectedVersion
  }

  /** The newest server version the tables know of for a game. */
  function KnownVersion(t: Tables, g: GameId): nat
    requires g in t.games
  {
    var conflict := OpenRemote(t.conflicts, g);
    var known := if conflict.Some? then ViewVersion(conflict.value) else 0;
    if VersionOf(t.games[g]) < known then known else VersionOf(t.games[g])
  }

  function ResolveConflict(t: Tables, q: Resolution, fetched: Option<RemoteGame>, now: string): (Tables, Verdict) {
    if !Submittable(t, q) then (t, Stale)
    else
      var g := t.conflicts[q.conflictId].game;
      var local := t.games[g];
      var remote := AsView(fetched);
      var selected := Selected(t, q);
      if fetched.Some? && fetched.value.id != g then (t, Refused)
      else if fetched.Some? && fetched.value.version < KnownVersion(t, g) then (t, Stale)
      else if fetched.Some? && local.payload == fetched.value.payload == selected then
        (RetireConflicts(ClearQueue(ApplyRemoteRow(t, fetched.value), g), g), Resolved)
      else if remote != ComparedRemote(t, q) then
        (if t.conflicts[q.conflictId].open
         then StoreConflict(t, g, local.payload, remote, local.remoteVersion) else t,
         Stale)
      else (RetireConflicts(ApplyChoice(t, g, q.choice, selected, fetched, now), g), Resolved)
  }

  function ApplyChoice(t: Tables, g: GameId, choice: Choice, selected: Payload, fetched: Option<RemoteGame>,
                       now: string): Tables
    requires g in t.games
  {
    match fetched
    case None =>
      if choice == UseRemote || Truthy(selected[DELETED_AT]) then
        var payload := t.games[g].payload;
        var gone := if Deleted(payload) then payload else payload[DELETED_AT := Text(now)];
        ClearQueue(PutRow(t, g, Row(gone, None, None, Synced)), g)
      else ReplaceOutbox(PutRow(t, g, Row(selected, None, None, Pending)), g, Upsert)
    case Some(remote) =>
      if choice == UseRemote || selected == remote.payload then
        ClearQueue(PutRow(t, g, Row(remote.payload, Some(remote.version), Some(remote.payload), Synced)), g)
      else
        var row := Row(selected, Some(remote.version), Some(remote.payload), Pending);
        ReplaceOutbox(PutRow(t, g, row), g, ResolutionOperation(selected, remote.payload))
  }

  // ----- the status shown to the user -----

  datatype Phase = PhaseSynced | PhasePending | PhaseFailed

  /** Games with something queued, not counting those in conflict. */
  function PendingGames(t: Tables): set<GameId> {
    set e | e in t.outbox && e.game in t.games && t.games[e.game].status != InConflict :: e.game
  }

  function FailedGames(t: Tables): set<GameId> {
    set e | e in t.outbox && e.game in t.games && t.games[e.game].status != InConflict && e.failed :: e.game
  }

  function OpenConflicts(t: Tables): set<nat> {
    set i: nat | i < |t.conflicts| && t.conflicts[i].open
  }

  function CurrentPhase(t: Tables, requireInitialSync: bool): Phase {
    if FailedGames(t) != {} || OpenConflicts(t) != {} then PhaseFailed
    else if PendingGames(t) != {} || (requireInitialSync && !t.initialSyncCompleted) then PhasePending
    else PhaseSynced
  }
}
