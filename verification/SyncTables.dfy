/** The local tables of one profile, the SQL statements that change them, and the view of a
    single game that every invariant is stated on. */
module SyncTables {
  import opened Options
  import opened SyncTypes

  datatype Tables = Tables(
    games: map<GameId, Row>,
    outbox: seq<Entry>,            // in ascending order of id
    conflicts: seq<ConflictRow>,   // in ascending order of id
    cursor: nat,
    initialSyncCompleted: bool)

  const NO_TABLES := Tables(map[], [], [], 0, false)

  /** Everything the tables hold about one game. */
  datatype GameView = GameView(row: Option<Row>, queue: seq<Entry>, conflict: Option<RemoteView>)

  function View(t: Tables, g: GameId): GameView {
    GameView(if g in t.games then Some(t.games[g]) else None,
             QueueOf(t.outbox, g),
             OpenRemote(t.conflicts, g))
  }

  // ----- outbox -----

  /** The entries of one game, oldest first. */
  function QueueOf(outbox: seq<Entry>, g: GameId): seq<Entry> {
    if outbox == [] then []
    else
      var rest := QueueOf(outbox[..|outbox| - 1], g);
      var last := outbox[|outbox| - 1];
      if last.game == g then rest + [last] else rest
  }

  ghost predicate Increasing(outbox: seq<Entry>) {
    forall i, j :: 0 <= i < j < |outbox| ==> outbox[i].id < outbox[j].id
  }

  /** The row id SQLite gives the next entry: one more than the largest id in use. */
  function NextId(outbox: seq<Entry>): (id: nat)
    ensures id > 0
  {
    if outbox == [] then 1 else outbox[|outbox| - 1].id + 1
  }

  /** `DELETE ... WHERE game_sync_id=g AND id<=upTo`. */
  function WithoutUpTo(outbox: seq<Entry>, g: GameId, upTo: nat): seq<Entry> {
    if outbox == [] then []
    else
      var rest := WithoutUpTo(outbox[..|outbox| - 1], g, upTo);
      var last := outbox[|outbox| - 1];
      if last.game == g && last.id <= upTo then rest else rest + [last]
  }

  /** `DELETE ... WHERE game_sync_id=g`. */
  function Without(outbox: seq<Entry>, g: GameId): seq<Entry> {
    if outbox == [] then []
    else
      var rest := Without(outbox[..|outbox| - 1], g);
      var last := outbox[|outbox| - 1];
      if last.game == g then rest else rest + [last]
  }

  function After(queue: seq<Entry>, id: nat): seq<Entry> {
    if queue == [] then []
    else
      var rest := After(queue[..|queue| - 1], id);
      var last := queue[|queue| - 1];
      if last.id > id then rest + [last] else rest
  }

  lemma {:induction false} QueueMembers(outbox: seq<Entry>, g: GameId)
    ensures forall e :: e in QueueOf(outbox, g) <==> e in outbox && e.game == g
  {
    if outbox != [] {
      QueueMembers(outbox[..|outbox| - 1], g);
      assert outbox == outbox[..|outbox| - 1] + [outbox[|outbox| - 1]];
    }
  }

  /** Every entry the two deletions leave was there before. */
  lemma {:induction false} DeletionOnlyRemoves(outbox: seq<Entry>, g: GameId, upTo: nat)
    ensures forall e :: e in Without(outbox, g) || e in WithoutUpTo(outbox, g, upTo) ==> e in outbox
  {
    if outbox != [] {
      DeletionOnlyRemoves(outbox[..|outbox| - 1], g, upTo);
    }
  }

  lemma QueueOfAppend(outbox: seq<Entry>, e: Entry, g: GameId)
    ensures QueueOf(outbox + [e], g) == if e.game == g then QueueOf(outbox, g) + [e] else QueueOf(outbox, g)
  {
    assert (outbox + [e])[..|outbox|] == outbox;
  }

  lemma {:induction false} QueueOfWithoutUpTo(outbox: seq<Entry>, h: GameId, upTo: nat, g: GameId)
    ensures QueueOf(WithoutUpTo(outbox, h, upTo), g)
         == if g == h then After(QueueOf(outbox, g), upTo) else QueueOf(outbox, g)
  {
    if outbox != [] {
      var front, last := outbox[..|outbox| - 1], outbox[|outbox| - 1];
      QueueOfWithoutUpTo(front, h, upTo, g);
      QueueOfAppend(WithoutUpTo(front, h, upTo), last, g);
      if last.game == g {
        assert (QueueOf(front, g) + [last])[..|QueueOf(front, g)|] == QueueOf(front, g);
      }
    }
  }

  lemma {:induction false} QueueOfWithout(outbox: seq<Entry>, h: GameId, g: GameId)
    ensures QueueOf(Without(outbox, h), g) == if g == h then [] else QueueOf(outbox, g)
  {
    if outbox != [] {
      QueueOfWithout(outbox[..|outbox| - 1], h, g);
      QueueOfAppend(Without(outbox[..|outbox| - 1], h), outbox[|outbox| - 1], g);
    }
  }

  /** The ids stay in ascending order under every deletion. */
  lemma {:induction false} DeletionKeepsOrder(outbox: seq<Entry>, g: GameId, upTo: nat)
    requires Increasing(outbox)
    ensures Increasing(Without(outbox, g)) && Increasing(WithoutUpTo(outbox, g, upTo))
  {
    if outbox != [] {
      var front, last := outbox[..|outbox| - 1], outbox[|outbox| - 1];
      DeletionKeepsOrder(front, g, upTo);
      DeletionOnlyRemoves(front, g, upTo);
      assert forall e :: e in front ==> e.id < last.id;
      AppendKeepsOrder(Without(front, g), last);
      AppendKeepsOrder(WithoutUpTo(front, g, upTo), last);
    }
  }

  lemma AppendKeepsOrder(outbox: seq<Entry>, e: Entry)
    requires Increasing(outbox) && forall x :: x in outbox ==> x.id < e.id
    ensures Increasing(outbox + [e])
  {
    assert forall i :: 0 <= i < |outbox| ==> outbox[i] in outbox;
  }

  lemma {:induction false} QueueKeepsOrder(outbox: seq<Entry>, g: GameId)
    requires Increasing(outbox)
    ensures Increasing(QueueOf(outbox, g))
  {
    if outbox != [] {
      var front, last := outbox[..|outbox| - 1], outbox[|outbox| - 1];
      QueueKeepsOrder(front, g);
      QueueMembers(front, g);
      assert forall e :: e in front ==> e.id < last.id;
      assert forall i :: 0 <= i < |QueueOf(front, g)| ==> QueueOf(front, g)[i] in front;
    }
  }

  /** Deleting up to the i-th entry of an ordered queue leaves exactly the later ones. */
  lemma {:induction false} AfterIsSuffix(queue: seq<Entry>, i: nat)
    requires Increasing(queue) && i < |queue|
    ensures After(queue, queue[i].id) == queue[i + 1..]
  {
    var front, last := queue[..|queue| - 1], queue[|queue| - 1];
    if i == |queue| - 1 {
      assert forall e :: e in front ==> e.id <= last.id;
      AfterAll(front, last.id);
    } else {
      AfterIsSuffix(front, i);
      assert front[i + 1..] + [last] == queue[i + 1..];
    }
  }

  lemma {:induction false} AfterAll(queue: seq<Entry>, id: nat)
    requires forall e :: e in queue ==> e.id <= id
    ensures After(queue, id) == []
  {
    if queue != [] {
      AfterAll(queue[..|queue| - 1], id);
    }
  }

  // ----- conflicts -----

  /** The position of the newest unresolved conflict of a game, or -1. */
  function OpenIndex(conflicts: seq<ConflictRow>, g: GameId): (i: int)
    ensures -1 <= i < |conflicts|
    ensures i >= 0 ==> conflicts[i].open && conflicts[i].game == g
    ensures i == -1 ==> forall c :: c in conflicts ==> !(c.open && c.game == g)
  {
    if conflicts == [] then -1
    else
      var last := conflicts[|conflicts| - 1];
      if last.open && last.game == g then |conflicts| - 1
      else
        assert conflicts == conflicts[..|conflicts| - 1] + [last];
        OpenIndex(conflicts[..|conflicts| - 1], g)
  }

  function OpenRemote(conflicts: seq<ConflictRow>, g: GameId): Option<RemoteView> {
    var i := OpenIndex(conflicts, g);
    if i == -1 then None else Some(conflicts[i].remote)
  }

  function Closed(conflicts: seq<ConflictRow>, g: GameId): (closed: seq<ConflictRow>)
    ensures |closed| == |conflicts|
    ensures forall i :: 0 <= i < |conflicts| ==>
              closed[i] == if conflicts[i].game == g then conflicts[i].(open := false) else conflicts[i]
  {
    seq(|conflicts|, (i: nat) requires i < |conflicts| =>
      if conflicts[i].game == g then conflicts[i].(open := false) else conflicts[i])
  }

  lemma {:induction false} OpenIndexAfterClose(conflicts: seq<ConflictRow>, h: GameId, g: GameId)
    ensures OpenIndex(Closed(conflicts, h), g) == if g == h then -1 else OpenIndex(conflicts, g)
  {
    if conflicts != [] {
      var n := |conflicts| - 1;
      assert Closed(conflicts, h)[..n] == Closed(conflicts[..n], h);
      OpenIndexAfterClose(conflicts[..n], h, g);
    }
  }

  lemma {:induction false} OpenIndexAfterUpdate(conflicts: seq<ConflictRow>, i: nat, c: ConflictRow, g: GameId)
    requires i < |conflicts| && c.game == conflicts[i].game && c.open == conflicts[i].open
    ensures OpenIndex(conflicts[i := c], g) == OpenIndex(conflicts, g)
  {
    var n := |conflicts| - 1;
    if i == n {
      assert conflicts[i := c][..n] == conflicts[..n];
    } else {
      assert conflicts[i := c][..n] == conflicts[..n][i := c];
      OpenIndexAfterUpdate(conflicts[..n], i, c, g);
    }
  }

  lemma OpenIndexAfterAppend(conflicts: seq<ConflictRow>, c: ConflictRow, g: GameId)
    requires c.open
    ensures OpenIndex(conflicts + [c], g) == if c.game == g then |conflicts| else OpenIndex(conflicts, g)
  {
    assert (conflicts + [c])[..|conflicts|] == conflicts;
  }

  // ----- the statements the repository is made of -----

  function PutRow(t: Tables, g: GameId, row: Row): (t': Tables)
    ensures forall h :: View(t', h) == if h == g then View(t, g).(row := Some(row)) else View(t, h)
  {
    t.(games := t.games[g := row])
  }

  function ClearQueue(t: Tables, g: GameId): (t': Tables)
    ensures forall h :: View(t', h) == if h == g then View(t, g).(queue := []) else View(t, h)
  {
    assert forall h :: QueueOf(Without(t.outbox, g), h) == if h == g then [] else QueueOf(t.outbox, h) by {
      forall h { QueueOfWithout(t.outbox, g, h); }
    }
    t.(outbox := Without(t.outbox, g))
  }

  function DequeueUpTo(t: Tables, g: GameId, id: nat): (t': Tables)
    ensures forall h :: View(t', h) == if h == g then View(t, g).(queue := After(View(t, g).queue, id)) else View(t, h)
  {
    assert forall h :: QueueOf(WithoutUpTo(t.outbox, g, id), h)
                    == if h == g then After(QueueOf(t.outbox, h), id) else QueueOf(t.outbox, h) by {
      forall h { QueueOfWithoutUpTo(t.outbox, g, id, h); }
    }
    t.(outbox := WithoutUpTo(t.outbox, g, id))
  }

  function NewEntry(t: Tables, g: GameId, operation: Operation): Entry
    requires g in t.games
  {
    Entry(NextId(t.outbox), g, operation, t.games[g], false, None)
  }

  /** Queues the current row of a game. */
  function Enqueue(t: Tables, g: GameId, operation: Operation): (t': Tables)
    requires g in t.games
    ensures forall h ::
              View(t', h)
              == if h == g then View(t, g).(queue := View(t, g).queue + [NewEntry(t, g, operation)]) else View(t, h)
  {
    var e := NewEntry(t, g, operation);
    assert forall h :: QueueOf(t.outbox + [e], h)
                    == if e.game == h then QueueOf(t.outbox, h) + [e] else QueueOf(t.outbox, h) by {
      forall h { QueueOfAppend(t.outbox, e, h); }
    }
    t.(outbox := t.outbox + [e])
  }

  function RetireConflicts(t: Tables, g: GameId): (t': Tables)
    ensures forall h :: View(t', h) == if h == g then View(t, g).(conflict := None) else View(t, h)
  {
    assert forall h :: OpenRemote(Closed(t.conflicts, g), h) == if h == g then None else OpenRemote(t.conflicts, h) by {
      forall h
        ensures OpenRemote(Closed(t.conflicts, g), h) == if h == g then None else OpenRemote(t.conflicts, h)
      {
        OpenIndexAfterClose(t.conflicts, g, h);
      }
    }
    t.(conflicts := Closed(t.conflicts, g))
  }

  /** Inserts a conflict, or refreshes the one already open for the game. */
  function RecordConflict(conflicts: seq<ConflictRow>, c: ConflictRow): seq<ConflictRow> {
    var i := OpenIndex(conflicts, c.game);
    if i == -1 then conflicts + [c] else conflicts[i := c]
  }

  lemma OpenRemoteAfterRecord(conflicts: seq<ConflictRow>, c: ConflictRow, g: GameId)
    requires c.open
    ensures OpenRemote(RecordConflict(conflicts, c), g)
         == if g == c.game then Some(c.remote) else OpenRemote(conflicts, g)
  {
    var i := OpenIndex(conflicts, c.game);
    if i == -1 {
      OpenIndexAfterAppend(conflicts, c, g);
    } else {
      OpenIndexAfterUpdate(conflicts, i, c, g);
    }
  }

  function StoreConflict(t: Tables, g: GameId, local: Payload, remote: RemoteView, baseVersion: Option<nat>):
      (t': Tables)
    ensures forall h ::
              View(t', h)
              == if h == g
                 then GameView(if g in t.games then Some(t.games[g].(status := InConflict)) else None,
                               View(t, g).queue, Some(remote))
                 else View(t, h)
  {
    var c := ConflictRow(g, local, remote, baseVersion, true);
    assert forall h :: OpenRemote(RecordConflict(t.conflicts, c), h)
                    == if h == g then Some(remote) else OpenRemote(t.conflicts, h) by {
      forall h { OpenRemoteAfterRecord(t.conflicts, c, h); }
    }
    t.(conflicts := RecordConflict(t.conflicts, c),
       games := if g in t.games then t.games[g := t.games[g].(status := InConflict)] else t.games)
  }
}
