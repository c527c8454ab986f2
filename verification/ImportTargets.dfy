/** The database an import writes to: its tables and finished imports are updated in place, in one
    transaction. */
module ImportTargets {
  import opened Options
  import opened SyncTypes
  import opened SyncTables
  import opened Archive
  import opened Imports

  class ImportTarget {
    var tables: Tables
    var batches: seq<Batch>

    ghost function Model(): Profile
      reads this
    {
      Profile(tables, batches)
    }

    constructor (profile: Profile)
      ensures Model() == profile
    {
      tables, batches := profile.tables, profile.batches;
    }

    /** The newest finished import of the kind and checksum, and of the archive if one is given. */
    method Lookup(archive: Option<string>, kind: Kind, checksum: string, count: nat) returns (covered: bool)
      ensures covered ==
              Covers(Latest(batches, if archive.Some? then ForArchive(archive.value, kind, checksum)
                                     else ForGuest(kind, checksum)), count)
    {
      ghost var matches :=
        if archive.Some? then ForArchive(archive.value, kind, checksum) else ForGuest(kind, checksum);
      var i := |batches|;
      assert batches[..i] == batches;
      while i > 0
        invariant 0 <= i <= |batches|
        invariant Latest(batches, matches) == Latest(batches[..i], matches)
      {
        assert batches[..i][..i - 1] == batches[..i - 1];
        var b := batches[i - 1];
        if b.kind == kind && b.checksum == checksum && (archive.Some? ==> b.archive == archive.value) {
          return b.failed == 0 && b.imported + b.skipped == count;
        }
        i := i - 1;
      }
      covered := false;
    }

    /** The import loop over the identifiers known so far, new ones included. */
    method ImportRows(rows: seq<Source>) returns (imported: nat, skipped: nat)
      modifies this`tables
      ensures tables == ImportAll(old(tables), rows)
      ensures imported == NewCount(old(tables), rows) && imported + skipped == |rows|
    {
      var existing := tables.games.Keys;
      imported, skipped := 0, 0;
      for i := 0 to |rows|
        invariant tables == ImportAll(old(tables), rows[..i])
        invariant existing == tables.games.Keys
        invariant imported == NewCount(old(tables), rows[..i]) && imported + skipped == i
      {
        var row := rows[i];
        assert rows[..i + 1][..i] == rows[..i];
        if Id(row) in existing {
          skipped := skipped + 1;
        } else {
          tables := Enqueue(PutRow(tables, Id(row), ImportedRow(row)), Id(row), Upsert);
          existing := existing + {Id(row)};
          imported := imported + 1;
        }
      }
      assert rows[..|rows|] == rows;
    }

    /** The full import: the loop and its batch. */
    method ImportInFull(rows: seq<Source>, archive: string, checksum: string, kind: Kind, origin: Origin)
        returns (result: ImportResult)
      modifies this
      ensures (Model(), result) == FullImport(old(Model()), rows, archive, checksum, kind, origin)
    {
      var imported, skipped := ImportRows(rows);
      batches := batches + [Batch(archive, checksum, kind, imported, skipped, 0, origin, rows)];
      result := ImportResult(imported, skipped, 0, false);
    }

    method ImportGuestRecords(rows: seq<Source>, kind: Kind, batchId: string) returns (result: ImportResult)
      modifies this
      ensures (Model(), result) == ImportGuest(old(Model()), rows, kind, batchId)
    {
      var checksum := Signature(rows);
      var covered := Lookup(None, kind, checksum, |rows|);
      if covered {
        return ImportResult(0, |rows|, 0, true);
      }
      result := ImportInFull(rows, batchId, checksum, kind, GuestRecords);
    }

    /** None when the archive is refused; nothing is changed then. */
    method ImportPortableArchive(archive: string, kind: Kind, text: string, count: nat, valid: Validator)
        returns (result: Option<ImportResult>)
      modifies this
      ensures result.Some? <==> ImportArchive(old(Model()), archive, kind, text, count, valid).Some?
      ensures result.Some? ==>
                ImportArchive(old(Model()), archive, kind, text, count, valid) == Some((Model(), result.value))
      ensures result.None? ==> Model() == old(Model())
    {
      var read := Archive.Read(text, count, valid);
      if read == None {
        return None;
      }
      var records := read.value;
      var covered := Lookup(Some(archive), kind, text, |records|);
      if covered {
        return Some(ImportResult(0, |records|, 0, true));
      }
      var done := ImportInFull(Sources(records), archive, text, kind, ArchiveFile);
      result := Some(done);
    }
  }
}
