/** The server side of the contract: one record per game, a version that only grows, and writes
    that name the version they expect. */
module SyncServer {
  import opened Options
  import opened SyncTypes
  import opened SyncSteps

  datatype Record = Record(version: nat, payload: Payload)

  /** `foreign` are the record ids other users own: they cannot be created and are never shown. */
  datatype Server = Server(records: map<GameId, Record>, foreign: set<GameId>, head: nat)

  datatype ChangeKind = CreateRecord | UpdateRecord | DeleteRecord | RestoreRecord

  datatype Change = Change(kind: ChangeKind, game: GameId, expected: Option<nat>, fields: Payload)

  /** The write an outbox entry stands for. A deletion without a known version carries no
      expectation, and a deletion carries no fields. */
  function BuildChange(e: Entry): Change {
    var kind :=
      if e.operation == Delete then DeleteRecord
      else if e.row.remoteVersion == None then CreateRecord
      else if e.operation == Restore then RestoreRecord
      else UpdateRecord;
    Change(kind, e.game, e.row.remoteVersion, if kind == DeleteRecord then EMPTY_PAYLOAD else e.row.payload)
  }

  function Live(fields: Payload): Payload {
    fields[DELETED_AT := Null]
  }

  function Write(s: Server, g: GameId, payload: Payload): Server {
    s.(records := s.records[g := Record(s.head + 1, payload)], head := s.head + 1)
  }

  function Current(s: Server, g: GameId): Option<RemoteGame> {
    if g in s.records then Some(RemoteGame(g, s.records[g].version, s.records[g].payload)) else None
  }

  /** Whether the record is there, in the deletion state and at the version the write expects. */
  predicate Matches(s: Server, c: Change, deleted: bool) {
    && c.game in s.records
    && Deleted(s.records[c.game].payload) == deleted
    && c.expected == Some(s.records[c.game].version)
  }

  /** One write. */
  function Apply(s: Server, c: Change, now: string): (Server, MutationResult) {
    var g := c.game;
    var applied := Applied(g, Some(s.head + 1));
    var conflict := Conflicted(g, Current(s, g));
    match c.kind
    case CreateRecord =>
      if g in s.records || g in s.foreign then (s, conflict) else (Write(s, g, Live(c.fields)), applied)
    case UpdateRecord =>
      if Matches(s, c, false) then (Write(s, g, Live(c.fields)), applied) else (s, conflict)
    case RestoreRecord =>
      if Matches(s, c, true) then (Write(s, g, Live(c.fields)), applied) else (s, conflict)
    case DeleteRecord =>
      if c.expected == None then
        if g in s.records && !Deleted(s.records[g].payload)
        then (Write(s, g, s.records[g].payload[DELETED_AT := Text(now)]), applied)
        else (s, Applied(g, None))
      else if Matches(s, c, false)
      then (Write(s, g, s.records[g].payload[DELETED_AT := Text(now)]), applied)
      else (s, conflict)
  }

  /** The writes of a batch, in order. */
  function ApplyBatch(s: Server, changes: seq<Change>, now: string): (Server, seq<MutationResult>) {
    if changes == [] then (s, [])
    else
      var n := |changes| - 1;
      var (s', results) := ApplyBatch(s, changes[..n], now);
      var (s'', result) := Apply(s', changes[n], now);
      (s'', results + [result])
  }

  ghost predicate ServerOk(s: Server) {
    && (forall g :: g in s.records ==> 0 < s.records[g].version <= s.head && g !in s.foreign)
    && (forall g, h :: g in s.records && h in s.records && g != h ==> s.records[g].version != s.records[h].version)
  }

  /** Records are never removed, and every change of a record gets a version above the old head. */
  ghost predicate EvolvesTo(s: Server, s': Server) {
    && s.head <= s'.head
    && s'.foreign == s.foreign
    && (forall g :: g in s.records ==> g in s'.records)
    && (forall g :: g in s'.records ==>
          || (g in s.records && s'.records[g] == s.records[g])
          || s'.records[g].version > s.head)
  }

  lemma WriteEvolves(s: Server, g: GameId, payload: Payload)
    requires ServerOk(s) && g !in s.foreign
    ensures ServerOk(Write(s, g, payload)) && EvolvesTo(s, Write(s, g, payload))
  {
  }

  lemma ApplyWrites(s: Server, c: Change, now: string) returns (payload: Payload)
    requires ServerOk(s)
    ensures Apply(s, c, now).0 == s || (Apply(s, c, now).0 == Write(s, c.game, payload) && c.game !in s.foreign)
  {
    if c.kind == DeleteRecord && c.game in s.records {
      payload := s.records[c.game].payload[DELETED_AT := Text(now)];
    } else {
      payload := Live(c.fields);
    }
  }

  lemma ApplyEvolves(s: Server, c: Change, now: string)
    requires ServerOk(s)
    ensures ServerOk(Apply(s, c, now).0) && EvolvesTo(s, Apply(s, c, now).0)
  {
    var payload := ApplyWrites(s, c, now);
    if c.game !in s.foreign {
      WriteEvolves(s, c.game, payload);
    }
  }

  lemma {:induction false} ApplyBatchEvolves(s: Server, changes: seq<Change>, now: string)
    requires ServerOk(s)
    ensures ServerOk(ApplyBatch(s, changes, now).0) && EvolvesTo(s, ApplyBatch(s, changes, now).0)
  {
    if changes != [] {
      ApplyBatchEvolves(s, changes[..|changes| - 1], now);
      ApplyEvolves(ApplyBatch(s, changes[..|changes| - 1], now).0, changes[|changes| - 1], now);
    }
  }

  // ----- pull -----

  /** The reply to a pull: the records above `after` by version, the first `limit` of them. */
  ghost predicate IsPullReply(s: Server, after: nat, limit: nat, rows: seq<RemoteGame>) {
    && |rows| <= limit
    && Ascending(after, rows)
    && (forall r :: r in rows ==> Current(s, r.id) == Some(r))
    && (forall g ::
          g in s.records && after < s.records[g].version
          && (|rows| < limit || s.records[g].version <= LastVersion(after, rows))
          ==> Current(s, g).value in rows)
  }

  lemma ExtendPullReply(s: Server, after: nat, limit: nat, rows: seq<RemoteGame>, next: GameId)
    requires ServerOk(s) && IsPullReply(s, after, limit, rows)
    requires next in s.records && s.records[next].version > LastVersion(after, rows)
    requires forall g :: g in s.records && s.records[g].version > LastVersion(after, rows) ==>
               s.records[next].version <= s.records[g].version
    ensures IsPullReply(s, after, limit + 1, rows + [Current(s, next).value])
  {
    var rows' := rows + [Current(s, next).value];
    assert LastVersion(after, rows') == s.records[next].version;
    assert rows'[|rows|] in rows';
    forall g | g in s.records && after < s.records[g].version <= LastVersion(after, rows')
      ensures Current(s, g).value in rows'
    {
      if s.records[g].version <= LastVersion(after, rows) {
        assert Current(s, g).value in rows;
      } else {
        assert g == next;
      }
    }
  }

  /** Every pull has a reply. */
  lemma {:induction false} PullHasReply(s: Server, after: nat, limit: nat) returns (rows: seq<RemoteGame>)
    requires ServerOk(s)
    ensures IsPullReply(s, after, limit, rows)
    decreases limit
  {
    rows := [];
    if limit > 0 {
      rows := PullHasReply(s, after, limit - 1);
      var last := LastVersion(after, rows);
      var above := map h | h in s.records && s.records[h].version > last :: s.records[h].version;
      if above != map[] {
        var next := Lowest(above);
        assert forall g :: g in s.records && s.records[g].version > last ==> above[next] <= above[g];
        ExtendPullReply(s, after, limit - 1, rows, next);
        rows := rows + [Current(s, next).value];
      } else {
        assert forall g :: g in s.records ==> g !in above;
      }
    }
  }

  lemma {:induction false} Lowest(versions: map<GameId, nat>) returns (g: GameId)
    requires versions != map[]
    ensures g in versions && forall h :: h in versions ==> versions[g] <= versions[h]
    decreases |versions|
  {
    g :| g in versions;
    var rest := versions - {g};
    if rest != map[] {
      assert |rest| < |versions| by {
        assert rest.Keys == versions.Keys - {g};
      }
      var h := Lowest(rest);
      assert forall k :: k in versions ==> k == g || k in rest;
      if versions[h] < versions[g] {
        g := h;
      }
    } else {
      assert forall k :: k in versions && k != g ==> k in rest;
    }
  }
}
