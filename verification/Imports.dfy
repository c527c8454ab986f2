/** Importing the records of a guest profile, or of a portable archive, into the tables of another
    profile: the loop, the batches that remember finished imports, and the shortcut they allow.
    SHA-256 is taken as injective, so a checksum is represented by the text it is taken of. */
module Imports {
  import opened Options
  import opened SyncTypes
  import opened SyncTables
  import opened SyncSteps
  import opened Json
  import opened Archive
  import SyncDevice

  // ----- source records -----

  /** A record to import: its identifier and its fields, in the order of the compared columns. */
  datatype Source = Source(syncId: string, fields: Payload)

  /** The identifier of a game as a number; different texts give different numbers. */
  function IdCode(s: string): nat {
    if s == "" then 0 else IdCode(s[..|s| - 1]) * 0x11_0001 + s[|s| - 1] as int + 1
  }

  lemma {:induction false} IdCodeIsInjective(a: string, b: string)
    requires IdCode(a) == IdCode(b)
    ensures a == b
  {
    if a != "" && b != "" {
      var x, y := a[|a| - 1] as int + 1, b[|b| - 1] as int + 1;
      assert IdCode(a) % 0x11_0001 == x && IdCode(b) % 0x11_0001 == y;
      IdCodeIsInjective(a[..|a| - 1], b[..|b| - 1]);
      assert a == a[..|a| - 1] + [a[|a| - 1]] && b == b[..|b| - 1] + [b[|b| - 1]];
    }
  }

  function Id(r: Source): GameId {
    IdCode(r.syncId)
  }

  // The first eight compared columns are the core fields of the guest signature.
  const CORE_FIELDS := 8

  /** Python's str() of a scalar. */
  function Str(v: Value): string {
    match v
    case Null => "None"
    case Int(n) => IntText(n)
    case Text(s) => s
  }

  const NUL: char := '\0'

  function TokensText(tokens: seq<string>): string {
    if tokens == [] then "" else tokens[0] + [NUL] + TokensText(tokens[1..])
  }

  function Tokens(r: Source): (tokens: seq<string>)
    ensures |tokens| == CORE_FIELDS + 1 && tokens[CORE_FIELDS] == r.syncId
  {
    seq(CORE_FIELDS, (i: nat) requires i < CORE_FIELDS => Str(r.fields[i])) + [r.syncId]
  }

  function AllTokens(rows: seq<Source>): (tokens: seq<string>)
    ensures |tokens| == (CORE_FIELDS + 1) * |rows|
  {
    if rows == [] then [] else Tokens(rows[0]) + AllTokens(rows[1..])
  }

  /** The text the guest signature hashes: every value, each ended by a NUL. */
  function Signature(rows: seq<Source>): string {
    TokensText(AllTokens(rows))
  }

  // ----- the import loop -----

  function ImportOne(t: Tables, r: Source): Tables {
    SyncDevice.OrSame(t, InsertGame(t, Id(r), r.fields))
  }

  /** The tables after importing the rows in order. */
  function ImportAll(t: Tables, rows: seq<Source>): Tables {
    if rows == [] then t else ImportOne(ImportAll(t, rows[..|rows| - 1]), rows[|rows| - 1])
  }

  /** How many of the rows were new. */
  function NewCount(t: Tables, rows: seq<Source>): (n: nat)
    ensures n <= |rows|
  {
    if rows == [] then 0
    else
      var before := rows[..|rows| - 1];
      NewCount(t, before) + if Id(rows[|rows| - 1]) in ImportAll(t, before).games then 0 else 1
  }

  // ----- finished imports -----

  datatype Kind = Guest | Registered

  datatype Origin = GuestRecords | ArchiveFile

  /** A row of import_batches. Imports are one transaction, so only completed ones are ever seen.
      The last two fields are history: what was imported, and from where. */
  datatype Batch = Batch(archive: string, checksum: string, kind: Kind, imported: nat, skipped: nat, failed: nat,
                         origin: Origin, rows: seq<Source>)

  datatype Profile = Profile(tables: Tables, batches: seq<Batch>)

  /** The newest finished import for which `matches` holds. */
  function Latest(batches: seq<Batch>, matches: Batch -> bool): Option<Batch> {
    if batches == [] then None
    else if matches(batches[|batches| - 1]) then Some(batches[|batches| - 1])
    else Latest(batches[..|batches| - 1], matches)
  }

  predicate Covers(b: Option<Batch>, count: nat) {
    b.Some? && b.value.failed == 0 && b.value.imported + b.value.skipped == count
  }

  function ForGuest(kind: Kind, checksum: string): Batch -> bool {
    (b: Batch) => b.kind == kind && b.checksum == checksum
  }

  function ForArchive(archive: string, kind: Kind, checksum: string): Batch -> bool {
    (b: Batch) => b.archive == archive && b.kind == kind && b.checksum == checksum
  }

  datatype ImportResult = ImportResult(imported: nat, skipped: nat, failed: nat, already: bool)

  /** The full import: the loop and its batch. */
  function FullImport(p: Profile, rows: seq<Source>, archive: string, checksum: string, kind: Kind,
                      origin: Origin): (Profile, ImportResult) {
    var n := NewCount(p.tables, rows);
    (Profile(ImportAll(p.tables, rows),
             p.batches + [Batch(archive, checksum, kind, n, |rows| - n, 0, origin, rows)]),
     ImportResult(n, |rows| - n, 0, false))
  }

  predicate GuestShortcut(p: Profile, rows: seq<Source>, kind: Kind) {
    Covers(Latest(p.batches, ForGuest(kind, Signature(rows))), |rows|)
  }

  function ImportGuest(p: Profile, rows: seq<Source>, kind: Kind, batchId: string): (Profile, ImportResult) {
    if GuestShortcut(p, rows, kind) then (p, ImportResult(0, |rows|, 0, true))
    else FullImport(p, rows, batchId, Signature(rows), kind, GuestRecords)
  }

  const PRIVATE_FIELDS: seq<string> :=
    ["played_at", "result", "turn_order", "my_deck", "opp_deck", "turns", "end_reason", "note",
     "play_context_id", "standing_kind", "rank_tier_before", "rank_tier_after", "rank_division_before",
     "rank_division_after", "rating_before", "rating_after", "event_points_before", "event_points_after",
     "timezone_offset_minutes", "environment_version_id"]

  function SourceOf(r: Record): Source {
    Source(if Get(r, "sync_id").Text? then Get(r, "sync_id").s else "",
           seq(FIELD_COUNT, (f: Field) => if f < |PRIVATE_FIELDS| then Get(r, PRIVATE_FIELDS[f]) else Null))
  }

  function Sources(records: seq<Record>): (rows: seq<Source>)
    ensures |rows| == |records|
    ensures forall i :: 0 <= i < |records| ==> rows[i] == SourceOf(records[i])
  {
    seq(|records|, (i: nat) requires i < |records| => SourceOf(records[i]))
  }

  predicate ArchiveShortcut(p: Profile, archive: string, kind: Kind, text: string, count: nat) {
    Covers(Latest(p.batches, ForArchive(archive, kind, text)), count)
  }

  /** Importing an archive whose records file is `text`; None when it is refused. */
  function ImportArchive(p: Profile, archive: string, kind: Kind, text: string, count: nat,
                         valid: Validator): Option<(Profile, ImportResult)> {
    match ReadRecords(text, count, valid)
    case None => None
    case Some(records) =>
      if ArchiveShortcut(p, archive, kind, text, |records|) then Some((p, ImportResult(0, |records|, 0, true)))
      else Some(FullImport(p, Sources(records), archive, text, kind, ArchiveFile))
  }

  // ----- what the loop does -----

  ghost predicate AllKnown(t: Tables, rows: seq<Source>) {
    forall r :: r in rows ==> Id(r) in t.games
  }

  /** The first of the rows with the identifier. */
  function First(rows: seq<Source>, g: GameId): Option<Source> {
    if rows == [] then None
    else if First(rows[..|rows| - 1], g).Some? then First(rows[..|rows| - 1], g)
    else if Id(rows[|rows| - 1]) == g then Some(rows[|rows| - 1]) else None
  }

  lemma {:induction false} FirstFinds(rows: seq<Source>, g: GameId)
    ensures First(rows, g).Some? <==> exists r :: r in rows && Id(r) == g
    ensures First(rows, g).Some? ==> First(rows, g).value in rows && Id(First(rows, g).value) == g
  {
    if rows != [] {
      FirstFinds(rows[..|rows| - 1], g);
      assert rows == rows[..|rows| - 1] + [rows[|rows| - 1]];
    }
  }

  /** The row the import stores for a new record. */
  function ImportedRow(r: Source): Row {
    Row(r.fields[DELETED_AT := Null], None, None, Pending)
  }

  /** What the import makes of one game: a game that exists, deleted or not, is left exactly as it
      is; a new one gets the row of its first record and one queued upsert with that row. */
  ghost predicate ImportedView(before: GameView, after: GameView, g: GameId, first: Option<Source>) {
    if before.row.Some? || first == None then after == before
    else
      && after.row == Some(ImportedRow(first.value))
      && after.conflict == before.conflict
      && |after.queue| == |before.queue| + 1
      && after.queue[..|before.queue|] == before.queue
      && var e := after.queue[|before.queue|];
         e.game == g && e.operation == Upsert && e.row == ImportedRow(first.value) && !e.failed && e.retryAt == None
  }

  lemma {:induction false} ImportTouches(t: Tables, rows: seq<Source>, g: GameId)
    ensures ImportedView(View(t, g), View(ImportAll(t, rows), g), g, First(rows, g))
    ensures g in ImportAll(t, rows).games <==> g in t.games || First(rows, g).Some?
  {
    if rows != [] {
      var before, last := rows[..|rows| - 1], rows[|rows| - 1];
      ImportTouches(t, before, g);
      var t' := ImportAll(t, before);
      if Id(last) !in t'.games {
        var put := PutRow(t', Id(last), ImportedRow(last));
        assert View(Enqueue(put, Id(last), Upsert), g)
            == if g == Id(last) then View(put, g).(queue := View(put, g).queue + [NewEntry(put, g, Upsert)])
               else View(put, g);
      }
    }
  }

  /** Rows and outbox entries grow by exactly the number of new records. */
  lemma {:induction false} ImportGrows(t: Tables, rows: seq<Source>)
    ensures |ImportAll(t, rows).games| == |t.games| + NewCount(t, rows)
    ensures |ImportAll(t, rows).outbox| == |t.outbox| + NewCount(t, rows)
    ensures ImportAll(t, rows).conflicts == t.conflicts && ImportAll(t, rows).cursor == t.cursor
    ensures ImportAll(t, rows).initialSyncCompleted == t.initialSyncCompleted
  {
    if rows != [] {
      ImportGrows(t, rows[..|rows| - 1]);
    }
  }

  /** Importing keeps every invariant of the device, a push in flight included: it is a sequence of
      the inserts the device model knows. */
  lemma {:induction false} ImportKeepsDevice(d: SyncDevice.Device, rows: seq<Source>)
    requires SyncDevice.DeviceOk(d)
    ensures SyncDevice.DeviceOk(d.(tables := ImportAll(d.tables, rows)))
  {
    if rows != [] {
      var before, last := rows[..|rows| - 1], rows[|rows| - 1];
      ImportKeepsDevice(d, before);
      var d' := d.(tables := ImportAll(d.tables, before));
      SyncDevice.StepKeepsDevice(d', SyncDevice.Insert(Id(last), last.fields));
    } else {
      assert d.(tables := d.tables) == d;
    }
  }

  lemma {:induction false} NothingNew(t: Tables, rows: seq<Source>)
    requires AllKnown(t, rows)
    ensures ImportAll(t, rows) == t && NewCount(t, rows) == 0
  {
    if rows != [] {
      NothingNew(t, rows[..|rows| - 1]);
    }
  }

  /** After an import all its records are known. */
  lemma {:induction false} ImportedAreKnown(t: Tables, rows: seq<Source>)
    ensures AllKnown(ImportAll(t, rows), rows)
    ensures t.games.Keys <= ImportAll(t, rows).games.Keys
  {
    forall r | r in rows ensures Id(r) in ImportAll(t, rows).games {
      FirstFinds(rows, Id(r));
      ImportTouches(t, rows, Id(r));
    }
    forall g | g in t.games ensures g in ImportAll(t, rows).games {
      ImportTouches(t, rows, g);
    }
  }

  /** Importing again changes nothing and counts everything as skipped. */
  lemma {:induction false} ImportIsIdempotent(t: Tables, rows: seq<Source>)
    ensures ImportAll(ImportAll(t, rows), rows) == ImportAll(t, rows)
    ensures NewCount(ImportAll(t, rows), rows) == 0
  {
    ImportedAreKnown(t, rows);
    NothingNew(ImportAll(t, rows), rows);
  }

  /** The shortcut, once taken, agrees with the full import exactly when every record is known. */
  lemma {:induction false} ShortcutAgreesExactly(t: Tables, rows: seq<Source>)
    ensures ImportAll(t, rows) == t <==> AllKnown(t, rows)
    ensures NewCount(t, rows) == 0 <==> AllKnown(t, rows)
  {
    if AllKnown(t, rows) {
      NothingNew(t, rows);
    } else {
      var r :| r in rows && Id(r) !in t.games;
      ImportedAreKnown(t, rows);
      ImportGrows(t, rows);
      LargerSet(t.games.Keys, ImportAll(t, rows).games.Keys, Id(r));
    }
  }

  lemma LargerSet(small: set<GameId>, large: set<GameId>, g: GameId)
    requires small <= large && g in large && g !in small
    ensures |small| < |large|
  {
    assert large == small + (large - small) && g in large - small;
  }

  // ----- what a signature tells -----

  predicate Clean(s: string) {
    NUL !in s
  }

  /** No text of the core fields or the identifier contains a NUL. */
  predicate CleanRow(r: Source) {
    Clean(r.syncId) && forall f: Field :: f < CORE_FIELDS && r.fields[f].Text? ==> Clean(r.fields[f].s)
  }

  ghost predicate CleanRows(rows: seq<Source>) {
    forall r :: r in rows ==> CleanRow(r)
  }

  ghost predicate CleanTokens(tokens: seq<string>) {
    forall i :: 0 <= i < |tokens| ==> Clean(tokens[i])
  }

  function Nuls(s: string): nat {
    if s == "" then 0 else Nuls(s[1..]) + if s[0] == NUL then 1 else 0
  }

  lemma {:induction false} NulsAppend(a: string, b: string)
    ensures Nuls(a + b) == Nuls(a) + Nuls(b)
  {
    if a == "" {
      assert a + b == b;
    } else {
      assert (a + b)[1..] == a[1..] + b;
      NulsAppend(a[1..], b);
    }
  }

  lemma {:induction false} NoNuls(s: string)
    ensures Nuls(s) == 0 <==> Clean(s)
  {
    if s != "" {
      NoNuls(s[1..]);
      assert s == [s[0]] + s[1..];
    }
  }

  /** There are as many NULs as tokens, and no more exactly when the tokens hold none. */
  lemma {:induction false} TokenNuls(tokens: seq<string>)
    ensures Nuls(TokensText(tokens)) >= |tokens|
    ensures Nuls(TokensText(tokens)) == |tokens| <==> CleanTokens(tokens)
  {
    if tokens != [] {
      var rest := TokensText(tokens[1..]);
      TokenNuls(tokens[1..]);
      NulsAppend(tokens[0] + [NUL], rest);
      NulsAppend(tokens[0], [NUL]);
      NoNuls(tokens[0]);
      assert CleanTokens(tokens) <==> Clean(tokens[0]) && CleanTokens(tokens[1..]) by {
        assert forall i :: 0 < i < |tokens| ==> tokens[i] == tokens[1..][i - 1];
      }
    }
  }

  lemma FirstToken(a: string, b: string, x: string, y: string)
    requires Clean(a) && Clean(b) && a + [NUL] + x == b + [NUL] + y
    ensures a == b && x == y
  {
    var s, t := a + [NUL] + x, b + [NUL] + y;
    assert s[|a|] == NUL && t[|b|] == NUL;
    assert s[..|a|] == a && t[..|b|] == b;
    assert s[|a| + 1..] == x && t[|b| + 1..] == y;
  }

  lemma {:induction false} TokensAreRead(a: seq<string>, b: seq<string>)
    requires CleanTokens(a) && CleanTokens(b) && TokensText(a) == TokensText(b)
    ensures a == b
  {
    if a != [] && b != [] {
      FirstToken(a[0], b[0], TokensText(a[1..]), TokensText(b[1..]));
      TokensAreRead(a[1..], b[1..]);
      assert a == [a[0]] + a[1..] && b == [b[0]] + b[1..];
    }
  }

  lemma {:induction false} CleanRowsTokens(rows: seq<Source>)
    requires CleanRows(rows)
    ensures CleanTokens(AllTokens(rows))
  {
    if rows != [] {
      CleanRowsTokens(rows[1..]);
      CleanNumbers(rows[0]);
    }
  }

  lemma CleanNumbers(r: Source)
    requires CleanRow(r)
    ensures CleanTokens(Tokens(r))
  {
    forall i | 0 <= i < CORE_FIELDS ensures Clean(Tokens(r)[i]) {
      if r.fields[i].Int? {
        var n := r.fields[i].n;
        var m: nat := if n < 0 then -n else n;
        assert forall c :: c in NatText(m) ==> IsDigit(c);
      }
    }
  }

  lemma {:induction false} TokensTellIds(a: seq<Source>, b: seq<Source>)
    requires |a| == |b| && AllTokens(a) == AllTokens(b)
    ensures forall i :: 0 <= i < |a| ==> a[i].syncId == b[i].syncId
  {
    if a != [] {
      var k := CORE_FIELDS + 1;
      assert AllTokens(a)[..k] == Tokens(a[0]) && AllTokens(b)[..k] == Tokens(b[0]);
      assert AllTokens(a)[k..] == AllTokens(a[1..]) && AllTokens(b)[k..] == AllTokens(b[1..]);
      TokensTellIds(a[1..], b[1..]);
      forall i | 0 <= i < |a| ensures a[i].syncId == b[i].syncId {
        if i > 0 {
          assert a[i] == a[1..][i - 1] && b[i] == b[1..][i - 1];
        }
      }
    }
  }

  /** As many records with the same signature have the same identifiers, in order, if one of the
      two lists holds no NUL. */
  lemma SignatureTellsIds(a: seq<Source>, b: seq<Source>)
    requires |a| == |b| && Signature(a) == Signature(b) && CleanRows(b)
    ensures forall i :: 0 <= i < |a| ==> a[i].syncId == b[i].syncId
  {
    CleanRowsTokens(b);
    TokenNuls(AllTokens(a));
    TokenNuls(AllTokens(b));
    TokensAreRead(AllTokens(a), AllTokens(b));
    TokensTellIds(a, b);
  }

  // ----- the shortcut -----

  /** What the finished imports have in common in every state: all went well, all counted, the
      checksum is of what was imported, and its records are still there. */
  ghost predicate BatchOk(t: Tables, b: Batch, valid: Validator) {
    && b.failed == 0
    && b.imported + b.skipped == |b.rows|
    && AllKnown(t, b.rows)
    && (b.origin == GuestRecords ==> b.checksum == Signature(b.rows))
    && (b.origin == ArchiveFile ==>
          && ReadRecords(b.checksum, |b.rows|, valid).Some?
          && b.rows == Sources(ReadRecords(b.checksum, |b.rows|, valid).value))
  }

  ghost predicate ProfileOk(p: Profile, valid: Validator) {
    forall b :: b in p.batches ==> BatchOk(p.tables, b, valid)
  }

  lemma {:induction false} LatestMatches(batches: seq<Batch>, matches: Batch -> bool)
    ensures var b := Latest(batches, matches); b.Some? ==> b.value in batches && matches(b.value)
  {
    if batches != [] {
      LatestMatches(batches[..|batches| - 1], matches);
    }
  }

  /** A readable records file is not a guest signature, unless both are empty. */
  lemma {:induction false} NulIsNotReadable(text: string, before: seq<Record>, expected: nat, valid: Validator)
    requires text != "" && text[|text| - 1] == NUL
    ensures ReadFrom(text, before, expected, valid) == None
    decreases |text|
  {
    var n := LineEnd(text);
    var line := Strip(text[..n]);
    if n == |text| {
      assert text[..n] == text;
      LastOfStripped(text);
      if ParseObject(line).Some? {
        ObjectEnd(line);
      }
    } else {
      assert n < |text| - 1;
      if line == "" {
        NulIsNotReadable(AfterLine(text), before, expected, valid);
      } else if ReadLine(line, before, expected, valid).Some? {
        NulIsNotReadable(AfterLine(text), before + [ReadLine(line, before, expected, valid).value], expected, valid);
      }
    }
  }

  /** White space is stripped from the front only down to a last character that is none. */
  lemma {:induction false} LastOfStripped(s: string)
    requires s != "" && !IsSpace(s[|s| - 1])
    ensures Strip(s) != "" && Strip(s)[|Strip(s)| - 1] == s[|s| - 1]
  {
    if IsSpace(s[0]) {
      LastOfStripped(s[1..]);
    }
  }

  lemma {:induction false} SignatureEnd(tokens: seq<string>)
    requires tokens != []
    ensures TokensText(tokens) != "" && TokensText(tokens)[|TokensText(tokens)| - 1] == NUL
  {
    if |tokens| > 1 {
      SignatureEnd(tokens[1..]);
    }
  }

  lemma SignatureIsNotReadable(rows: seq<Source>, expected: nat, valid: Validator)
    requires rows != []
    ensures ReadRecords(Signature(rows), expected, valid) == None
  {
    SignatureEnd(AllTokens(rows));
    NulIsNotReadable(Signature(rows), [], expected, valid);
  }

  lemma SameIdsAreKnown(t: Tables, a: seq<Source>, b: seq<Source>)
    requires |a| == |b| && AllKnown(t, a)
    requires forall i :: 0 <= i < |a| ==> a[i].syncId == b[i].syncId
    ensures AllKnown(t, b)
  {
    forall r | r in b ensures Id(r) in t.games {
      var i :| 0 <= i < |b| && b[i] == r;
      assert a[i] in a;
    }
  }

  lemma GuestBatchCovers(t: Tables, b: Batch, rows: seq<Source>, valid: Validator)
    requires BatchOk(t, b, valid) && b.checksum == Signature(rows) && |b.rows| == |rows|
    requires CleanRows(rows)
    ensures AllKnown(t, rows)
  {
    if b.origin == GuestRecords {
      SignatureTellsIds(b.rows, rows);
      SameIdsAreKnown(t, b.rows, rows);
    } else if rows != [] {
      SignatureIsNotReadable(rows, |b.rows|, valid);
    }
  }

  /** The guest shortcut refines the full import: for records without NUL characters, whenever it
      is taken, the full import would leave the tables as they are, add no row and no entry, and
      count everything as skipped, as the shortcut does. */
  lemma {:induction false} GuestShortcutRefines(
      p: Profile, rows: seq<Source>, kind: Kind, batchId: string, valid: Validator)
    requires ProfileOk(p, valid) && GuestShortcut(p, rows, kind) && CleanRows(rows)
    ensures var full := FullImport(p, rows, batchId, Signature(rows), kind, GuestRecords);
            var short := ImportGuest(p, rows, kind, batchId);
            && full.0.tables == p.tables == short.0.tables
            && full.1 == short.1.(already := false)
  {
    LatestMatches(p.batches, ForGuest(kind, Signature(rows)));
    GuestBatchCovers(p.tables, Latest(p.batches, ForGuest(kind, Signature(rows))).value, rows, valid);
    NothingNew(p.tables, rows);
  }

  /** The archive shortcut refines the full import, for every archive. */
  lemma {:induction false} ArchiveShortcutRefines(
      p: Profile, archive: string, kind: Kind, text: string, count: nat, valid: Validator)
    requires ProfileOk(p, valid) && ReadRecords(text, count, valid).Some?
    requires ArchiveShortcut(p, archive, kind, text, |ReadRecords(text, count, valid).value|)
    ensures var rows := Sources(ReadRecords(text, count, valid).value);
            var full := FullImport(p, rows, archive, text, kind, ArchiveFile);
            var short := ImportArchive(p, archive, kind, text, count, valid).value;
            && full.0.tables == p.tables == short.0.tables
            && full.1 == short.1.(already := false)
  {
    var records := ReadRecords(text, count, valid).value;
    var rows := Sources(records);
    ReadFromIsValid(text, [], count, valid);
    LatestMatches(p.batches, ForArchive(archive, kind, text));
    var b := Latest(p.batches, ForArchive(archive, kind, text)).value;
    assert BatchOk(p.tables, b, valid);
    if b.origin == GuestRecords && b.rows != [] {
      SignatureIsNotReadable(b.rows, count, valid);
    }
    assert b.rows == rows;
    NothingNew(p.tables, rows);
  }

  // ----- every run -----

  datatype Step =
    | Sync(worker: SyncDevice.Worker, action: SyncDevice.Action)
    | FromGuest(rows: seq<Source>, kind: Kind, batchId: string)
    | FromArchive(archive: string, kind: Kind, text: string, count: nat)

  /** Imports between any edits and synchronisation steps. */
  function Next(p: Profile, s: Step, valid: Validator): Profile {
    match s
    case Sync(worker, action) => p.(tables := SyncDevice.Next(SyncDevice.Device(p.tables, worker), action).tables)
    case FromGuest(rows, kind, batchId) => ImportGuest(p, rows, kind, batchId).0
    case FromArchive(archive, kind, text, count) =>
      match ImportArchive(p, archive, kind, text, count, valid)
      case Some(done) => done.0
      case None => p
  }

  function Run(steps: seq<Step>, valid: Validator): Profile {
    if steps == [] then Profile(NO_TABLES, []) else Next(Run(steps[..|steps| - 1], valid), steps[|steps| - 1], valid)
  }

  lemma MoreRowsKeepBatches(p: Profile, t: Tables, valid: Validator)
    requires ProfileOk(p, valid) && p.tables.games.Keys <= t.games.Keys
    ensures ProfileOk(p.(tables := t), valid)
  {
    forall b | b in p.batches ensures BatchOk(t, b, valid) {
      assert BatchOk(p.tables, b, valid);
      forall r | r in b.rows ensures Id(r) in t.games {
        assert Id(r) in p.tables.games.Keys;
      }
    }
  }

  lemma FullImportKeeps(p: Profile, rows: seq<Source>, archive: string, checksum: string, kind: Kind, origin: Origin,
                        valid: Validator)
    requires ProfileOk(p, valid)
    requires origin == GuestRecords ==> checksum == Signature(rows)
    requires origin == ArchiveFile ==>
               ReadRecords(checksum, |rows|, valid).Some? && rows == Sources(ReadRecords(checksum, |rows|, valid).value)
    ensures ProfileOk(FullImport(p, rows, archive, checksum, kind, origin).0, valid)
  {
    ImportedAreKnown(p.tables, rows);
    MoreRowsKeepBatches(p, ImportAll(p.tables, rows), valid);
  }

  /** In every run of edits, synchronisation and imports the finished imports stay accounted for. */
  lemma {:induction false} RunKeepsBatches(steps: seq<Step>, valid: Validator)
    ensures ProfileOk(Run(steps, valid), valid)
  {
    if steps != [] {
      var p, s := Run(steps[..|steps| - 1], valid), steps[|steps| - 1];
      RunKeepsBatches(steps[..|steps| - 1], valid);
      match s
      case Sync(worker, action) =>
        SyncDevice.StepKeepsRows(SyncDevice.Device(p.tables, worker), action);
        MoreRowsKeepBatches(p, Next(p, s, valid).tables, valid);
      case FromGuest(rows, kind, batchId) =>
        if !GuestShortcut(p, rows, kind) {
          FullImportKeeps(p, rows, batchId, Signature(rows), kind, GuestRecords, valid);
        }
      case FromArchive(archive, kind, text, count) =>
        var records := ReadRecords(text, count, valid);
        if records.Some? && !ArchiveShortcut(p, archive, kind, text, |records.value|) {
          ReadFromIsValid(text, [], count, valid);
          FullImportKeeps(p, Sources(records.value), archive, text, kind, ArchiveFile, valid);
        }
    }
  }

  /** What an import promises, whichever way it took. */
  ghost predicate Complete(t: Tables, rows: seq<Source>, after: Tables, result: ImportResult) {
    && after == ImportAll(t, rows)
    && AllKnown(after, rows)
    && result.imported == NewCount(t, rows)
    && result.imported + result.skipped == |rows| && result.failed == 0
  }

  lemma FullImportIsComplete(p: Profile, rows: seq<Source>, archive: string, checksum: string, kind: Kind,
                             origin: Origin)
    ensures var (after, result) := FullImport(p, rows, archive, checksum, kind, origin);
            Complete(p.tables, rows, after.tables, result)
  {
    ImportedAreKnown(p.tables, rows);
  }

  /** In every run, a guest import of records without NUL characters ends with all of them known,
      whether or not the shortcut is taken. */
  lemma {:induction false} GuestImportIsComplete(
      steps: seq<Step>, rows: seq<Source>, kind: Kind, batchId: string, valid: Validator)
    requires CleanRows(rows)
    ensures var p := Run(steps, valid);
            var (after, result) := ImportGuest(p, rows, kind, batchId);
            Complete(p.tables, rows, after.tables, result)
  {
    var p := Run(steps, valid);
    RunKeepsBatches(steps, valid);
    FullImportIsComplete(p, rows, batchId, Signature(rows), kind, GuestRecords);
    if GuestShortcut(p, rows, kind) {
      GuestShortcutRefines(p, rows, kind, batchId, valid);
    }
  }

  /** In every run, an import of an archive that can be read ends with all of its records known,
      whether or not the shortcut is taken. */
  lemma {:induction false} ArchiveImportIsComplete(
      steps: seq<Step>, archive: string, kind: Kind, text: string, count: nat, valid: Validator)
    requires ReadRecords(text, count, valid).Some?
    ensures var p := Run(steps, valid);
            var rows := Sources(ReadRecords(text, count, valid).value);
            var (after, result) := ImportArchive(p, archive, kind, text, count, valid).value;
            Complete(p.tables, rows, after.tables, result)
  {
    var p := Run(steps, valid);
    var rows := Sources(ReadRecords(text, count, valid).value);
    RunKeepsBatches(steps, valid);
    FullImportIsComplete(p, rows, archive, text, kind, ArchiveFile);
    if ArchiveShortcut(p, archive, kind, text, |rows|) {
      ArchiveShortcutRefines(p, archive, kind, text, count, valid);
    }
  }

  lemma {:induction false} TokensEnd(front: seq<string>, x: string, y: string)
    ensures TokensText(front + [x, y]) == TokensText(front) + (x + [NUL] + y + [NUL])
  {
    if front == [] {
      assert [] + [x, y] == [x, y] && [x, y][1..] == [y] && [y][1..] == [];
      assert TokensText([y]) == y + [NUL];
    } else {
      assert (front + [x, y])[1..] == front[1..] + [x, y];
      TokensEnd(front[1..], x, y);
    }
  }

  const PLAYED_AT := "2024-01-01T00:00:00"

  /** A small record of a portable archive. */
  function Played(syncId: string, note: string): Record {
    [Member("played_at", Text(PLAYED_AT)), Member("result", Text("win")), Member("turn_order", Text("first")),
     Member("my_deck", Null), Member("opp_deck", Null), Member("turns", Null), Member("end_reason", Null),
     Member("note", Text(note)), Member("sync_id", Text(syncId))]
  }

  lemma {:induction false} FieldIs(r: Record, i: nat)
    requires KeysUnique(r) && i < |r|
    ensures Get(r, r[i].key) == r[i].value && Has(r, r[i].key)
  {
    if i > 0 {
      assert r[0].key != r[i].key;
      assert r[1..][i - 1] == r[i];
      FieldIs(r[1..], i - 1);
    }
  }

  /** Every field of the record has a name of at most ten characters. */
  lemma {:induction false} LongFieldIsMissing(r: Record, key: string)
    requires |key| > 10 && forall i :: 0 <= i < |r| ==> |r[i].key| <= 10
    ensures Get(r, key) == Null
  {
    if r != [] {
      LongFieldIsMissing(r[1..], key);
    }
  }

  lemma PlayedLengths(syncId: string, note: string)
    ensures var r := Played(syncId, note);
            && |r| == 9
            && |r[0].key| == 9 && |r[1].key| == 6 && |r[2].key| == 10 && |r[3].key| == 7 && |r[4].key| == 8
            && |r[5].key| == 5 && |r[6].key| == 10 && |r[7].key| == 4 && |r[8].key| == 7
            && r[2].key[0] != r[6].key[0] && r[3].key[0] != r[8].key[0]
  {
  }

  lemma DistinctByLength(r: Record)
    requires |r| == 9
    requires |r[0].key| == 9 && |r[1].key| == 6 && |r[2].key| == 10 && |r[3].key| == 7 && |r[4].key| == 8
    requires |r[5].key| == 5 && |r[6].key| == 10 && |r[7].key| == 4 && |r[8].key| == 7
    requires r[2].key[0] != r[6].key[0] && r[3].key[0] != r[8].key[0]
    ensures KeysUnique(r) && forall i :: 0 <= i < |r| ==> |r[i].key| <= 10
  {
    assert DistinctKeys(r);
  }

  lemma PlayedKeys(syncId: string, note: string)
    ensures KeysUnique(Played(syncId, note))
    ensures forall i :: 0 <= i < |Played(syncId, note)| ==> |Played(syncId, note)[i].key| <= 10
  {
    PlayedLengths(syncId, note);
    DistinctByLength(Played(syncId, note));
  }

  lemma PlayedNames(syncId: string, note: string)
    ensures forall i :: 0 <= i < |Played(syncId, note)| ==> Played(syncId, note)[i].key in RECORD_FIELDS
  {
    var r, f := Played(syncId, note), RECORD_FIELDS;
    assert r[0].key == f[0] && r[1].key == f[1] && r[2].key == f[2] && r[3].key == f[3] && r[4].key == f[4];
    assert r[5].key == f[5] && r[6].key == f[6] && r[7].key == f[7] && r[8].key == f[8];
  }

  lemma FieldsOf(r: Record)
    requires KeysUnique(r)
    ensures forall i :: 0 <= i < |r| ==> Get(r, r[i].key) == r[i].value && Has(r, r[i].key)
  {
    forall i | 0 <= i < |r| ensures Get(r, r[i].key) == r[i].value && Has(r, r[i].key) {
      FieldIs(r, i);
    }
  }

  lemma RequiredAre(r: Record)
    requires Has(r, "played_at") && Has(r, "result") && Has(r, "turn_order") && Has(r, "opp_deck") && Has(r, "turns")
    requires Has(r, "end_reason") && Has(r, "sync_id")
    ensures forall f :: f in REQUIRED_FIELDS ==> Has(r, f)
  {
  }

  lemma PlayedFields(syncId: string, note: string)
    ensures var r := Played(syncId, note);
            && Get(r, "played_at") == Text(PLAYED_AT) && Get(r, "result") == Text("win")
            && Get(r, "turn_order") == Text("first")
            && Get(r, "my_deck") == Get(r, "opp_deck") == Get(r, "turns") == Get(r, "end_reason") == Null
            && Get(r, "note") == Text(note) && Get(r, "sync_id") == Text(syncId)
            && forall f :: f in REQUIRED_FIELDS ==> Has(r, f)
  {
    var r := Played(syncId, note);
    PlayedKeys(syncId, note);
    FieldsOf(r);
    assert r[0].key == "played_at" && r[1].key == "result" && r[2].key == "turn_order" && r[3].key == "my_deck";
    assert r[4].key == "opp_deck" && r[5].key == "turns" && r[6].key == "end_reason";
    assert r[7].key == "note" && r[8].key == "sync_id";
    RequiredAre(r);
  }

  lemma StandingFieldsAreLong()
    ensures forall f :: f in RANK_FIELDS || f in RATING_FIELDS || f in EVENT_POINT_FIELDS ==> |f| > 10
    ensures |"standing_kind"| > 10 && |"play_context_id"| > 10
  {
  }

  lemma NoStanding(r: Record)
    requires forall i :: 0 <= i < |r| ==> |r[i].key| <= 10
    ensures ValidStanding(r)
  {
    StandingFieldsAreLong();
    LongFieldIsMissing(r, "standing_kind");
    LongFieldIsMissing(r, "play_context_id");
    forall f | f in RANK_FIELDS || f in RATING_FIELDS || f in EVENT_POINT_FIELDS ensures Get(r, f) == Null {
      LongFieldIsMissing(r, f);
    }
  }

  lemma PlayedIsValid(syncId: string, note: string, calendar: Calendar)
    requires syncId != "" && |syncId| <= MAX_STRING_LENGTH && Utf8Size(note) <= MAX_RECORDS_BYTES
    requires calendar(PLAYED_AT) == Some(false)
    ensures ValidRecord(Played(syncId, note), calendar)
  {
    var r := Played(syncId, note);
    PlayedKeys(syncId, note);
    PlayedNames(syncId, note);
    PlayedFields(syncId, note);
    NoStanding(r);
    LongFieldIsMissing(r, "timezone_offset_minutes");
    LongFieldIsMissing(r, "local_updated_at");
    PlayedMembers(syncId, note);
  }

  lemma PlayedMembers(syncId: string, note: string)
    requires |syncId| <= MAX_STRING_LENGTH && Utf8Size(note) <= MAX_RECORDS_BYTES
    ensures forall i :: 0 <= i < |Played(syncId, note)| ==> ValidMember(Played(syncId, note)[i])
  {
    var r := Played(syncId, note);
    assert |PLAYED_AT| == 19;
  }

  const BEFORE_NOTE: seq<string> := [PLAYED_AT, "win", "first", "None", "None", "None", "None"]

  lemma PlayedSignature(syncId: string, note: string)
    ensures Signature([SourceOf(Played(syncId, note))])
         == TokensText(BEFORE_NOTE) + (note + [NUL] + syncId + [NUL])
  {
    PlayedFields(syncId, note);
    var r := SourceOf(Played(syncId, note));
    assert Tokens(r) == BEFORE_NOTE + [note, syncId];
    assert AllTokens([r]) == BEFORE_NOTE + [note, syncId];
    TokensEnd(BEFORE_NOTE, note, syncId);
  }

  const FIRST := Played("b\0c", "a")
  const SECOND := Played("c", "a\0b")

  lemma WitnessesAreValid(calendar: Calendar)
    requires calendar(PLAYED_AT) == Some(false)
    ensures ValidRecord(FIRST, calendar) && ValidRecord(SECOND, calendar)
  {
    var note := "a\0b";
    assert note[..2][..1] == "a" && note[..2][..1][..0] == "";
    assert Utf8Size(note) <= 12;
    PlayedIsValid("b\0c", "a", calendar);
    PlayedIsValid("c", note, calendar);
  }

  lemma EndsCollide()
    ensures "a" + [NUL] + "b\0c" + [NUL] == "a\0b" + [NUL] + "c" + [NUL]
  {
  }

  lemma WitnessesCollide()
    ensures Signature([SourceOf(FIRST)]) == Signature([SourceOf(SECOND)])
  {
    PlayedSignature("b\0c", "a");
    PlayedSignature("c", "a\0b");
    EndsCollide();
  }

  lemma WitnessesDiffer()
    ensures Id(SourceOf(FIRST)) != Id(SourceOf(SECOND))
  {
    PlayedFields("b\0c", "a");
    PlayedFields("c", "a\0b");
    if Id(SourceOf(FIRST)) == Id(SourceOf(SECOND)) {
      IdCodeIsInjective("b\0c", "c");
    }
  }

  /** With NUL characters the shortcut can lose a record: two different records, both valid in a
      portable archive, with one signature; the second is then not imported, as the full import would. */
  lemma ShortcutCanLoseARecord(valid: Validator, calendar: Calendar)
    requires calendar(PLAYED_AT) == Some(false)
    ensures ValidRecord(FIRST, calendar) && ValidRecord(SECOND, calendar)
    ensures var first, second := [SourceOf(FIRST)], [SourceOf(SECOND)];
            var p := Run([FromGuest(first, Guest, "1")], valid);
            && GuestShortcut(p, second, Guest)
            && !AllKnown(ImportGuest(p, second, Guest, "2").0.tables, second)
            && AllKnown(FullImport(p, second, "2", Signature(second), Guest, GuestRecords).0.tables, second)
  {
    WitnessesAreValid(calendar);
    WitnessesCollide();
    WitnessesDiffer();
    SameSignatureIsLost(SourceOf(FIRST), SourceOf(SECOND), valid);
  }

  lemma SameSignatureIsLost(r: Source, s: Source, valid: Validator)
    requires Signature([r]) == Signature([s]) && Id(r) != Id(s)
    ensures var p := Run([FromGuest([r], Guest, "1")], valid);
            && GuestShortcut(p, [s], Guest)
            && !AllKnown(ImportGuest(p, [s], Guest, "2").0.tables, [s])
            && AllKnown(FullImport(p, [s], "2", Signature([s]), Guest, GuestRecords).0.tables, [s])
  {
    var start := Profile(NO_TABLES, []);
    var p := ImportGuest(start, [r], Guest, "1").0;
    assert Run([FromGuest([r], Guest, "1")], valid) == p by {
      assert Run([], valid) == start;
      assert [FromGuest([r], Guest, "1")][..0] == [];
    }
    OneImport(r);
    assert p.batches == [Batch("1", Signature([r]), Guest, 1, 0, 0, GuestRecords, [r])];
    assert GuestShortcut(p, [s], Guest);
    assert s in [s];
    ImportedAreKnown(p.tables, [s]);
  }

  lemma OneImport(r: Source)
    ensures ImportAll(NO_TABLES, [r]).games.Keys == {Id(r)} && NewCount(NO_TABLES, [r]) == 1
  {
    assert [r][..0] == [];
    assert ImportAll(NO_TABLES, []) == NO_TABLES;
  }
}
