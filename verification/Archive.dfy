/** The records file of a portable archive: what a valid record is, the text the exporter writes and
    what the reader accepts. */
module Archive {
  import opened Options
  import opened SyncTypes
  import opened Json

  type Record = seq<Member>

  const MAX_RECORDS_BYTES := 64 * 1024 * 1024
  const MAX_RECORD_COUNT := 1_000_000
  const MAX_RECORD_FIELDS := 64
  const MAX_STRING_LENGTH := 10_000

  const RECORD_FIELDS: seq<string> :=
    ["played_at", "result", "turn_order", "my_deck", "opp_deck", "turns", "end_reason", "note", "sync_id",
     "play_context_id", "standing_kind", "rank_tier_before", "rank_tier_after", "rank_division_before",
     "rank_division_after", "rating_before", "rating_after", "event_points_before", "event_points_after",
     "local_updated_at", "timezone_offset_minutes", "environment_version_id"]

  const REQUIRED_FIELDS: seq<string> :=
    ["played_at", "result", "turn_order", "opp_deck", "turns", "end_reason", "sync_id"]

  const NULLABLE_FIELDS: seq<string> := ["opp_deck", "turns", "end_reason"]

  const INTEGER_FIELDS: seq<string> :=
    ["turns", "rank_division_before", "rank_division_after", "rating_before", "rating_after",
     "event_points_before", "event_points_after", "timezone_offset_minutes"]

  const RESULTS: seq<string> := ["win", "lose"]
  const TURN_ORDERS: seq<string> := ["first", "second"]
  const END_REASONS: seq<string> := ["regular", "surrender", "timeout", "disconnect"]
  const RANK_TIERS: seq<string> := ["rookie", "bronze", "silver", "gold", "platinum", "diamond", "master"]

  const RANK_FIELDS: seq<string> :=
    ["rank_tier_before", "rank_tier_after", "rank_division_before", "rank_division_after"]
  const RATING_FIELDS: seq<string> := ["rating_before", "rating_after"]
  const EVENT_POINT_FIELDS: seq<string> := ["event_points_before", "event_points_after"]

  /** How the date library reads a text: not at all, or with or without a time zone. */
  type Calendar = string -> Option<bool>

  // ----- valid records -----

  predicate Has(r: Record, key: string) {
    exists i :: 0 <= i < |r| && r[i].key == key
  }

  /** The value of a field; a missing one counts as null. */
  function Get(r: Record, key: string): Value {
    if r == [] then Null else if r[0].key == key then r[0].value else Get(r[1..], key)
  }

  function Utf8Width(c: char): nat {
    var code := c as int;
    if code < 0x80 then 1 else if code < 0x800 then 2 else if code < 0x1_0000 then 3 else 4
  }

  function Utf8Size(s: string): nat {
    if s == "" then 0 else Utf8Size(s[..|s| - 1]) + Utf8Width(s[|s| - 1])
  }

  predicate ValidMember(m: Member) {
    if m.value == Null && (m.key !in REQUIRED_FIELDS || m.key in NULLABLE_FIELDS) then true
    else if m.key in INTEGER_FIELDS then m.value.Int? && -0x8000_0000_0000_0000 <= m.value.n < 0x8000_0000_0000_0000
    else m.value.Text? && if m.key == "note" then Utf8Size(m.value.s) <= MAX_RECORDS_BYTES
                          else |m.value.s| <= MAX_STRING_LENGTH
  }

  predicate ValidDate(r: Record, key: string, calendar: Calendar) {
    match Get(r, key)
    case Text(s) => calendar(s).Some? && |s| >= 19 && (key == "played_at" ==> !calendar(s).value)
    case _ => true
  }

  predicate ValidChoice(v: Value, choices: seq<string>) {
    v.Text? ==> v.s in choices
  }

  predicate AllNull(r: Record, fields: seq<string>) {
    forall f :: f in fields ==> Get(r, f) == Null
  }

  /** A rank before or after the game: both parts are missing, or they are a known pair. */
  predicate ValidRank(tier: Value, division: Value) {
    (tier == Null && division == Null)
    || (tier.Text? && tier.s in RANK_TIERS && division.Int? && 1 <= division.n <= 5)
  }

  /** The standing fields belong to the mode of the game. */
  predicate ValidStanding(r: Record) {
    var kind := Get(r, "standing_kind");
    && (kind == Null || kind == Text("rank") || kind == Text("rating") || kind == Text("event_points"))
    && (kind != Text("rank") ==> AllNull(r, RANK_FIELDS))
    && (kind != Text("rating") ==> AllNull(r, RATING_FIELDS))
    && (kind != Text("event_points") ==> AllNull(r, EVENT_POINT_FIELDS))
    && (kind == Null ==> Get(r, "play_context_id") == Null)
    && (kind == Text("rank") ==>
          && ValidRank(Get(r, "rank_tier_before"), Get(r, "rank_division_before"))
          && ValidRank(Get(r, "rank_tier_after"), Get(r, "rank_division_after")))
  }

  predicate ValidRecord(r: Record, calendar: Calendar) {
    && |r| <= MAX_RECORD_FIELDS
    && KeysUnique(r)
    && (forall i :: 0 <= i < |r| ==> r[i].key in RECORD_FIELDS)
    && (forall f :: f in REQUIRED_FIELDS ==> Has(r, f))
    && Get(r, "sync_id").Text? && Get(r, "sync_id") != Text("")
    && (forall i :: 0 <= i < |r| ==> ValidMember(r[i]))
    && ValidChoice(Get(r, "result"), RESULTS)
    && ValidChoice(Get(r, "turn_order"), TURN_ORDERS)
    && ValidChoice(Get(r, "end_reason"), END_REASONS)
    && (Get(r, "turns").Int? ==> Get(r, "turns").n >= 0)
    && (Get(r, "timezone_offset_minutes").Int? ==> -1440 < Get(r, "timezone_offset_minutes").n < 1440)
    && ValidDate(r, "played_at", calendar)
    && ValidDate(r, "local_updated_at", calendar)
    && ValidStanding(r)
  }

  /** The check the records have to pass; the reader and the exporter use the same one. */
  type Validator = Record -> bool

  function RecordValidator(calendar: Calendar): Validator {
    r => ValidRecord(r, calendar)
  }

  function SyncId(r: Record): Value {
    Get(r, "sync_id")
  }

  predicate KnownId(records: seq<Record>, id: Value) {
    exists i :: 0 <= i < |records| && SyncId(records[i]) == id
  }

  /** Every record is valid and no identifier comes twice. */
  ghost predicate ValidRecords(records: seq<Record>, valid: Validator) {
    && (forall i :: 0 <= i < |records| ==> valid(records[i]))
    && (forall i, j :: 0 <= i < j < |records| ==> SyncId(records[i]) != SyncId(records[j]))
  }

  // ----- the exporter -----

  function RecordsText(records: seq<Record>): string {
    if records == [] then "" else ObjectText(records[0]) + "\n" + RecordsText(records[1..])
  }

  ghost predicate Exportable(records: seq<Record>, valid: Validator) {
    && |records| <= MAX_RECORD_COUNT
    && ValidRecords(records, valid)
    && Utf8Size(RecordsText(records)) <= MAX_RECORDS_BYTES
  }

  // ----- the reader -----

  /** The white space str.strip() removes. */
  predicate IsSpace(c: char) {
    var code := c as int;
    || 0x09 <= code <= 0x0D || 0x1C <= code <= 0x20 || code == 0x85 || code == 0xA0 || code == 0x1680
    || 0x2000 <= code <= 0x200A || code == 0x2028 || code == 0x2029 || code == 0x202F || code == 0x205F
    || code == 0x3000
  }

  function StripLeft(s: string): string {
    if s != "" && IsSpace(s[0]) then StripLeft(s[1..]) else s
  }

  function StripRight(s: string): string {
    if s != "" && IsSpace(s[|s| - 1]) then StripRight(s[..|s| - 1]) else s
  }

  function Strip(s: string): string {
    StripRight(StripLeft(s))
  }

  /** Where the first line ends: at its line feed or at the end of the text. */
  function LineEnd(s: string): (n: nat)
    ensures n <= |s| && '\n' !in s[..n] && (n < |s| ==> s[n] == '\n')
  {
    if s == "" || s[0] == '\n' then 0
    else
      assert s[..LineEnd(s[1..]) + 1] == [s[0]] + s[1..][..LineEnd(s[1..])];
      LineEnd(s[1..]) + 1
  }

  function AfterLine(s: string): (rest: string)
    requires s != ""
    ensures |rest| < |s|
  {
    var n := LineEnd(s);
    if n < |s| then s[n + 1..] else ""
  }

  /** The record of a line, if it may follow the records read before it. */
  function ReadLine(line: string, before: seq<Record>, expected: nat, valid: Validator): Option<Record> {
    match ParseObject(line)
    case None => None
    case Some(r) =>
      if valid(r) && !KnownId(before, SyncId(r)) && |before| + 1 <= expected then Some(r) else None
  }

  /** Reading the rest of the text after `before`; blank lines are skipped. */
  function ReadFrom(text: string, before: seq<Record>, expected: nat, valid: Validator): Option<seq<Record>>
    decreases |text|
  {
    if text == "" then (if |before| == expected then Some(before) else None)
    else
      var line := Strip(text[..LineEnd(text)]);
      if line == "" then ReadFrom(AfterLine(text), before, expected, valid)
      else match ReadLine(line, before, expected, valid)
        case None => None
        case Some(r) => ReadFrom(AfterLine(text), before + [r], expected, valid)
  }

  function ReadRecords(text: string, expected: nat, valid: Validator): Option<seq<Record>> {
    if Utf8Size(text) > MAX_RECORDS_BYTES then None else ReadFrom(text, [], expected, valid)
  }

  // ----- what was exported reads back -----

  lemma ObjectIsStripped(r: Record)
    ensures Strip(ObjectText(r)) == ObjectText(r) && ObjectText(r) != ""
  {
    MembersEnd(r);
    var s := ObjectText(r);
    assert s[0] == '{' && s[|s| - 1] == '}';
  }

  lemma {:induction false} MembersEnd(ms: seq<Member>)
    ensures MembersText(ms) != "" && MembersText(ms)[|MembersText(ms)| - 1] == '}'
  {
    if |ms| > 1 {
      MembersEnd(ms[1..]);
    }
  }

  lemma {:induction false} LineEndIs(line: string, rest: string)
    requires '\n' !in line
    ensures LineEnd(line + "\n" + rest) == |line|
  {
    if line == "" {
      assert line + "\n" + rest == "\n" + rest;
    } else {
      assert (line + "\n" + rest)[1..] == line[1..] + "\n" + rest;
      LineEndIs(line[1..], rest);
    }
  }

  lemma FirstLineIs(line: string, rest: string)
    requires '\n' !in line
    ensures var text := line + "\n" + rest;
            text[..LineEnd(text)] == line && AfterLine(text) == rest
  {
    LineEndIs(line, rest);
  }

  lemma {:induction false} LinesReadBack(before: seq<Record>, records: seq<Record>, all: seq<Record>,
                                         valid: Validator)
    requires all == before + records && ValidRecords(all, valid)
    requires forall r :: r in all ==> DistinctKeys(r)
    ensures ReadFrom(RecordsText(records), before, |all|, valid) == Some(all)
    decreases |records|
  {
    if records != [] {
      var r := records[0];
      assert all[|before|] == r;
      forall i | 0 <= i < |before| ensures SyncId(before[i]) != SyncId(r) {
        assert all[i] == before[i];
      }
      assert all == before + [r] + records[1..];
      LinesReadBack(before + [r], records[1..], all, valid);
      ObjectRoundTrip(r);
      ObjectIsStripped(r);
      FirstLineIs(ObjectText(r), RecordsText(records[1..]));
      assert ReadLine(ObjectText(r), before, |all|, valid) == Some(r);
    } else {
      assert all == before;
    }
  }

  /** The check refuses records with a repeated field. */
  ghost predicate ChecksKeys(valid: Validator) {
    forall r :: valid(r) ==> DistinctKeys(r)
  }

  lemma RecordValidatorChecksKeys(calendar: Calendar)
    ensures ChecksKeys(RecordValidator(calendar))
  {
  }

  /** Whatever the exporter's checks accept reads back as the very same records, in order. */
  lemma {:induction false} ExportReadsBack(records: seq<Record>, valid: Validator)
    requires ChecksKeys(valid) && Exportable(records, valid)
    ensures ReadRecords(RecordsText(records), |records|, valid) == Some(records)
  {
    assert records == [] + records;
    LinesReadBack([], records, records, valid);
  }

  /** The archive round trip, with the check of the repository and any date library. */
  lemma {:induction false} ArchiveRoundTrip(records: seq<Record>, calendar: Calendar)
    requires Exportable(records, RecordValidator(calendar))
    ensures ReadRecords(RecordsText(records), |records|, RecordValidator(calendar)) == Some(records)
  {
    RecordValidatorChecksKeys(calendar);
    ExportReadsBack(records, RecordValidator(calendar));
  }

  /** Two lists of records are exported alike only when they are the same list. */
  lemma {:induction false} ExportIsInjective(left: seq<Record>, right: seq<Record>, valid: Validator)
    requires ChecksKeys(valid) && Exportable(left, valid) && Exportable(right, valid)
    requires RecordsText(left) == RecordsText(right) && |left| == |right|
    ensures left == right
  {
    ExportReadsBack(left, valid);
    ExportReadsBack(right, valid);
  }

  /** What the reader accepts is valid, as many records as declared, without a repeated identifier. */
  lemma {:induction false} ReadFromIsValid(text: string, before: seq<Record>, expected: nat, valid: Validator)
    requires ValidRecords(before, valid)
    ensures var r := ReadFrom(text, before, expected, valid);
            r.Some? ==> |r.value| == expected && ValidRecords(r.value, valid) && before <= r.value
    decreases |text|
  {
    if text != "" {
      var line := Strip(text[..LineEnd(text)]);
      if line == "" {
        ReadFromIsValid(AfterLine(text), before, expected, valid);
      } else {
        var r := ReadLine(line, before, expected, valid);
        if r.Some? {
          ReadFromIsValid(AfterLine(text), before + [r.value], expected, valid);
        }
      }
    }
  }

  lemma {:induction false} ReadIsValid(text: string, expected: nat, valid: Validator)
    ensures var r := ReadRecords(text, expected, valid);
            r.Some? ==> |r.value| == expected && ValidRecords(r.value, valid)
  {
    ReadFromIsValid(text, [], expected, valid);
  }

  // ----- the loops -----

  ghost predicate SeenExactly(seen: set<Value>, records: seq<Record>) {
    forall id :: id in seen <==> KnownId(records, id)
  }

  lemma SeenOneMore(seen: set<Value>, records: seq<Record>, r: Record)
    requires SeenExactly(seen, records)
    ensures SeenExactly(seen + {SyncId(r)}, records + [r])
  {
    forall id ensures id in seen + {SyncId(r)} <==> KnownId(records + [r], id) {
      if KnownId(records, id) {
        var i :| 0 <= i < |records| && SyncId(records[i]) == id;
        assert SyncId((records + [r])[i]) == id;
      }
      if id == SyncId(r) {
        assert SyncId((records + [r])[|records|]) == id;
      }
    }
  }

  /** The reading loop: one line at a time, remembering the identifiers seen. */
  method Read(text: string, expected: nat, valid: Validator) returns (result: Option<seq<Record>>)
    ensures result == ReadRecords(text, expected, valid)
  {
    var size := SizeOf(text);
    if size > MAX_RECORDS_BYTES {
      return None;
    }
    var rest, records, seen := text, [], {};
    while rest != ""
      invariant SeenExactly(seen, records)
      invariant ReadFrom(rest, records, expected, valid) == ReadFrom(text, [], expected, valid)
      decreases |rest|
    {
      var line := Strip(rest[..LineEnd(rest)]);
      if line != "" {
        var parsed := ParseObject(line);
        if parsed == None {
          return None;
        }
        var record := parsed.value;
        if !valid(record) || SyncId(record) in seen {
          return None;
        }
        if |records| + 1 > expected {
          return None;
        }
        SeenOneMore(seen, records, record);
        seen := seen + {SyncId(record)};
        records := records + [record];
      }
      rest := AfterLine(rest);
    }
    result := if |records| == expected then Some(records) else None;
  }

  method SizeOf(s: string) returns (size: nat)
    ensures size == Utf8Size(s)
  {
    size := 0;
    for i := 0 to |s|
      invariant size == Utf8Size(s[..i])
    {
      assert s[..i + 1][..i] == s[..i];
      size := size + Utf8Width(s[i]);
    }
    assert s[..|s|] == s;
  }

  lemma {:induction false} SizeAppend(a: string, b: string)
    ensures Utf8Size(a + b) == Utf8Size(a) + Utf8Size(b)
  {
    if b == "" {
      assert a + b == a;
    } else {
      assert (a + b)[..|a + b| - 1] == a + b[..|b| - 1];
      SizeAppend(a, b[..|b| - 1]);
    }
  }

  lemma {:induction false} TextAppend(records: seq<Record>, r: Record)
    ensures RecordsText(records + [r]) == RecordsText(records) + (ObjectText(r) + "\n")
  {
    if records == [] {
      assert [] + [r] == [r];
    } else {
      assert (records + [r])[1..] == records[1..] + [r];
      TextAppend(records[1..], r);
    }
  }

  lemma {:induction false} TextOfPrefix(records: seq<Record>, n: nat)
    requires n <= |records|
    ensures Utf8Size(RecordsText(records[..n])) <= Utf8Size(RecordsText(records))
    decreases |records| - n
  {
    if n < |records| {
      TextOfPrefix(records, n + 1);
      assert records[..n + 1] == records[..n] + [records[n]];
      TextAppend(records[..n], records[n]);
      SizeAppend(RecordsText(records[..n]), ObjectText(records[n]) + "\n");
    } else {
      assert records[..n] == records;
    }
  }

  /** The exporter's checks before it writes anything. */
  method Validate(records: seq<Record>, valid: Validator) returns (ok: bool)
    ensures ok <==> ValidRecords(records, valid)
  {
    var seen := {};
    for i := 0 to |records|
      invariant ValidRecords(records[..i], valid)
      invariant SeenExactly(seen, records[..i])
    {
      var record := records[i];
      if !valid(record) {
        return false;
      }
      if SyncId(record) in seen {
        assert KnownId(records[..i], SyncId(record));
        return false;
      }
      SeenOneMore(seen, records[..i], record);
      assert records[..i + 1] == records[..i] + [record];
      seen := seen + {SyncId(record)};
    }
    assert records[..|records|] == records;
    return true;
  }

  /** The export: it succeeds exactly on what its checks allow, and reading the result back, which
      it does before publishing, never fails. */
  method Export(records: seq<Record>, valid: Validator) returns (text: Option<string>)
    requires ChecksKeys(valid)
    ensures text.Some? <==> Exportable(records, valid)
    ensures text.Some? ==> text.value == RecordsText(records)
    ensures text.Some? ==> ReadRecords(text.value, |records|, valid) == Some(records)
  {
    if |records| > MAX_RECORD_COUNT {
      return None;
    }
    var ok := Validate(records, valid);
    if !ok {
      return None;
    }
    var written, total := "", 0;
    for i := 0 to |records|
      invariant written == RecordsText(records[..i])
      invariant total == Utf8Size(written) <= MAX_RECORDS_BYTES
    {
      var line := ObjectText(records[i]) + "\n";
      var size := SizeOf(line);
      assert records[..i + 1] == records[..i] + [records[i]];
      TextAppend(records[..i], records[i]);
      SizeAppend(written, line);
      total := total + size;
      written := written + line;
      if total > MAX_RECORDS_BYTES {
        TextOfPrefix(records, i + 1);
        return None;
      }
    }
    assert records[..|records|] == records;
    ExportReadsBack(records, valid);
    var again := Read(written, |records|, valid);
    text := if again == Some(records) then Some(written) else None;
  }
}
