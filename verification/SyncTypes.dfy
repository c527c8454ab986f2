/** Values of the two-way game synchronisation: comparable payloads, local rows and the
    three-way merge that decides what a remote version does to a row with unsent edits. */
module SyncTypes {

  import opened Options

  /** The identifier of a game: its text, encoded as a number. */
  type GameId = nat

  /** One JSON scalar of a game record. */
  datatype Value = Null | Int(n: int) | Text(s: string)

  /** Python truth of a scalar: null, zero and the empty string are false. */
  predicate Truthy(v: Value) {
    match v
    case Null => false
    case Int(n) => n != 0
    case Text(s) => s != ""
  }

  // The compared columns: the private fields in the order of PRIVATE_GAME_FIELDS, then deleted_at.
  const TIMEZONE_OFFSET := 18
  const ENVIRONMENT_VERSION := 19
  const DELETED_AT := 20
  const FIELD_COUNT := 21

  type Field = f: nat | f < FIELD_COUNT

  type Payload = s: seq<Value> | |s| == FIELD_COUNT witness seq(FIELD_COUNT, _ => Null)

  /** What the comparable form of a record without fields looks like. */
  const EMPTY_PAYLOAD: Payload :=
    [Null, Null, Null, Null, Null, Null, Null, Null, Null, Null, Null,
     Null, Null, Null, Null, Null, Null, Null, Null, Null, Null]

  predicate Deleted(p: Payload) {
    p[DELETED_AT] != Null
  }

  /** Two deletion times count as equal when both or neither are set; other fields compare exactly. */
  predicate Equivalent(f: Field, left: Value, right: Value) {
    if f == DELETED_AT then left.Null? == right.Null? else left == right
  }

  predicate AllEquivalent(left: Payload, right: Payload) {
    forall f: Field :: Equivalent(f, left[f], right[f])
  }

  function ChangedFields(base: Payload, current: Payload): (changed: set<Field>)
    ensures forall f: Field :: f in changed <==> !Equivalent(f, base[f], current[f])
  {
    set f: Field | !Equivalent(f, base[f], current[f])
  }

  /** `over` on the given fields, `under` elsewhere. */
  function Overlay(under: Payload, over: Payload, fields: set<Field>): (merged: Payload)
    ensures forall f: Field :: merged[f] == if f in fields then over[f] else under[f]
  {
    seq(FIELD_COUNT, (f: Field) => if f in fields then over[f] else under[f])
  }

  /** What a remote version does to a row that has unsent edits. */
  datatype Decision =
    | Converged                  // take the remote record, nothing left to send
    | Conflicting                // keep both sides for the user
    | Rebased(merged: Payload)   // keep the merged record and send it on the remote version

  /** Whether one side changed the deletion state while the other changed another field. */
  predicate DeleteEditConflict(localChanges: set<Field>, remoteChanges: set<Field>) {
    || (DELETED_AT in remoteChanges && localChanges - {DELETED_AT} != {})
    || (DELETED_AT in localChanges && remoteChanges - {DELETED_AT} != {})
  }

  /** Whether some field was changed by both sides to different values. */
  predicate FieldConflict(base: Payload, local: Payload, remote: Payload) {
    exists f: Field ::
      && !Equivalent(f, base[f], local[f])
      && !Equivalent(f, base[f], remote[f])
      && !Equivalent(f, local[f], remote[f])
  }

  function Decide(base: Option<Payload>, local: Payload, remote: Payload): Decision {
    match base
    case None =>
      if AllEquivalent(local, remote) then Converged else Conflicting
    case Some(b) =>
      var localChanges := ChangedFields(b, local);
      var remoteChanges := ChangedFields(b, remote);
      if FieldConflict(b, local, remote) || DeleteEditConflict(localChanges, remoteChanges) then Conflicting
      else
        var merged := Overlay(remote, local, localChanges);
        if localChanges == {} || AllEquivalent(merged, remote) then Converged else Rebased(merged)
  }

  datatype Operation = Upsert | Delete | Restore

  function ResolutionOperation(selected: Payload, remote: Payload): Operation {
    if Deleted(selected) then Delete else if Deleted(remote) then Restore else Upsert
  }

  datatype Status = Pending | Synced | InConflict | Failed

  /** One row of `games`, without the columns that no synchronisation step reads. */
  datatype Row = Row(payload: Payload, remoteVersion: Option<nat>, base: Option<Payload>, status: Status)

  /** A missing remote version counts as version 0 in every comparison. */
  function VersionOf(row: Row): nat {
    if row.remoteVersion.Some? then row.remoteVersion.value else 0
  }

  /** One row of `sync_outbox`; `row` is the snapshot of the game the entry was queued with. */
  datatype Entry = Entry(id: nat, game: GameId, operation: Operation, row: Row,
                         failed: bool, retryAt: Option<nat>)

  /** A server record as a pull, a conflict reply or a fetch delivers it. */
  datatype RemoteGame = RemoteGame(id: GameId, version: nat, payload: Payload)

  /** The server side of a stored conflict. */
  datatype RemoteView = Missing | Present(version: nat, payload: Payload)

  function ViewPayload(remote: RemoteView): Payload {
    if remote.Present? then remote.payload else EMPTY_PAYLOAD
  }

  function ViewVersion(remote: RemoteView): nat {
    if remote.Present? then remote.version else 0
  }

  /** One row of `sync_conflicts`; its identifier is its position. */
  datatype ConflictRow = ConflictRow(game: GameId, local: Payload, remote: RemoteView,
                                     baseVersion: Option<nat>, open: bool)
}
