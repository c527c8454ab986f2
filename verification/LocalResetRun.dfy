/** Reset and recovery as they run on a data directory, one file system call at a time. */
module LocalResetRun {
  import opened Options
  import opened LocalReset

  /** What happens to one call: it works, it raises an error, or the process dies before it. */
  datatype Fate = Works | Fails | Crashes

  /** The folders of a reset directory: `old` for the originals, `new` for the prepared profile. */
  datatype Folder = SavedFolder | PreparedFolder

  /** The calls to the file system, as far as it matters which one fails. A failure of one of the last
      four kinds raises nothing: it reads as a no. */
  datatype Call =
    | Ordinary                  // writing, renaming, deleting or flushing something
    | Look                      // reading entries, identities or a journal
    | WriteJournalOf(phase: Phase)
    | RemoveStaging             // removing the empty reset directory
    | Scan                      // listing the reset directories
    | Exists                    // asking whether the reset directory is there
    | Vet(folder: Folder)       // asking whether the folder is there, to look at its names
    | Ask(folder: Folder)       // asking whether the folder is there, to delete it

  /** What happens to the n-th call, if it is that call. */
  type Oracle = (nat, Call) -> Fate

  /** Some call of the kinds ends so. */
  ghost predicate Ends(oracle: Oracle, calls: set<Call>, f: Fate) {
    exists n: nat, c: Call :: c in calls && oracle(n, c) == f
  }

  // The calls of completing and of preparing, the questions, and everything that can raise an error
  // before the reset directory is removed.
  const FORWARD: set<Call> := {Ordinary, Look, WriteJournalOf(PurgePending)}
  const PREPARING: set<Call> := {Ordinary, Look, WriteJournalOf(Precommit)}
  const VETS: set<Call> := {Vet(SavedFolder), Vet(PreparedFolder)}
  const ASKS: set<Call> := {Ask(SavedFolder), Ask(PreparedFolder)}
  const OTHERS: set<Call> :=
    {Ordinary, Look, Exists, WriteJournalOf(Precommit), WriteJournalOf(Committed), WriteJournalOf(PurgePending)}
  const ANY: set<Call> := OTHERS + {RemoveStaging, Scan} + VETS + ASKS

  datatype Outcome = Done | Dead | Failed(committed: bool)

  /** The data directory as a process works on it. `disk` holds the reset directories the last scan
      showed, `hidden` the ones it did not show. `strangers` are the names in the folders of a reset
      directory that its journal does not allow. */
  class DataDirectory {
    var disk: Disk
    var hidden: map<nat, Staging>
    var strangers: map<(nat, Folder), set<string>>
    const oracle: Oracle
    var calls: nat

    constructor (disk: Disk, oracle: Oracle)
      ensures this.disk == disk && this.oracle == oracle && hidden == map[] && strangers == map[]
      ensures Whole() == disk
    {
      this.disk, this.oracle, calls, hidden, strangers := disk, oracle, 0, map[], map[];
      new;
      assert disk.stagings + map[] == disk.stagings;
    }

    /** What is really there. */
    function Whole(): Disk
      reads this
    {
      disk.(stagings := disk.stagings + hidden)
    }

    lemma AllOrNoneShown()
      ensures hidden == map[] ==> Whole() == disk
      ensures disk.stagings == map[] ==> Whole().stagings == hidden
    {
      assert disk.stagings + map[] == disk.stagings && map[] + hidden == hidden;
    }

    function StrangersIn(id: nat, folder: Folder): set<string>
      reads this
    {
      if (id, folder) in strangers then strangers[(id, folder)] else {}
    }

    predicate Clean(id: nat)
      reads this
    {
      StrangersIn(id, SavedFolder) == StrangersIn(id, PreparedFolder) == {}
    }

    /** One call that would make the disk `next`. */
    method Try(call: Call, next: Disk) returns (f: Fate)
      modifies `disk, `calls
      ensures f == oracle(old(calls), call)
      ensures disk == if f == Works then next else old(disk)
    {
      f := oracle(calls, call);
      calls := calls + 1;
      if f == Works {
        disk := next;
      }
    }

    /** Listing the reset directories; if that fails, none is shown. */
    method LookForResets() returns (f: Fate)
      modifies `disk, `hidden, `calls
      ensures f == oracle(old(calls), Scan)
      ensures Whole() == old(Whole())
      ensures f == Works ==> hidden == map[] && disk == Whole()
      ensures f == Fails ==> disk.stagings == map[] && hidden == Whole().stagings
      ensures f == Crashes ==> disk == old(disk) && hidden == old(hidden)
    {
      f := oracle(calls, Scan);
      calls := calls + 1;
      ghost var all := Whole().stagings;
      match f
      case Works => disk, hidden := disk.(stagings := disk.stagings + hidden), map[];
      case Fails => disk, hidden := disk.(stagings := map[]), disk.stagings + hidden;
      case Crashes =>
      assert all + map[] == all && map[] + all == all;
    }

    /** A rename that makes the disk `next`, then the flush of both directories. */
    method Move(next: Disk) returns (f: Fate)
      modifies `disk, `calls
      ensures f == Works || Ends(oracle, {Ordinary}, f)
      ensures disk == next || (disk == old(disk) && f != Works)
    {
      f := Try(Ordinary, next);
      if f != Works { return; }
      f := Try(Ordinary, disk);
      if f != Works { return; }
      f := Try(Ordinary, disk);
    }

    /** Writes journal.tmp, replaces the journal by it and flushes the directory. */
    method WriteJournal(id: nat, journal: Journal) returns (f: Fate)
      requires id in disk.stagings
      modifies `disk, `calls
      ensures f == Works || Ends(oracle, {WriteJournalOf(journal.phase)}, f)
      ensures !Ends(oracle, {WriteJournalOf(journal.phase)}, Works) ==> f != Works && disk == old(disk)
      ensures id in disk.stagings
      ensures var s, s' := old(disk.stagings[id]), disk.stagings[id];
              && disk == Put(old(disk), id, s')
              && s'.saved == s.saved && s'.prepared == s.prepared
              && (|| (s'.journal == s.journal
                      && (s'.temporary == s.temporary
                          || s'.temporary == Some(if s.journal == None then FirstJournal else OtherContent)))
                  || (s'.journal == Some(journal) && s'.temporary == None))
              && (f == Works ==> s'.journal == Some(journal))
    {
      var call, s := WriteJournalOf(journal.phase), disk.stagings[id];
      var part := if s.journal == None then FirstJournal else OtherContent;
      f := Try(call, Put(disk, id, s.(temporary := Some(part))));
      if f != Works { return; }
      f := Try(call, disk);
      if f != Works { return; }
      f := Try(call, Put(disk, id, s.(journal := Some(journal), temporary := None)));
      if f != Works { return; }
      f := Try(call, disk);
    }

    /** Reads the journal and looks at the names in both folders. A folder that does not seem to be
        there is not looked at. */
    method ReadJournal(id: nat) returns (f: Fate)
      requires id in disk.stagings
      modifies `disk, `calls
      ensures disk == old(disk)
      ensures f == Works ==> Readable(disk.stagings[id])
      ensures f == Works && !Clean(id) ==> Ends(oracle, VETS, Fails)
      ensures f == Fails ==> Ends(oracle, {Look}, Fails) || !Readable(disk.stagings[id]) || !Clean(id)
      ensures f == Crashes ==> Ends(oracle, {Look} + VETS, Crashes)
    {
      f := Try(Look, disk);
      if f != Works { return; }
      if !Readable(disk.stagings[id]) {
        return Fails;
      }
      f := VetFolder(id, SavedFolder);
      if f != Works { return; }
      f := VetFolder(id, PreparedFolder);
    }

    method VetFolder(id: nat, folder: Folder) returns (f: Fate)
      modifies `disk, `calls
      ensures disk == old(disk)
      ensures f == Works && StrangersIn(id, folder) != {} ==> Ends(oracle, {Vet(folder)}, Fails)
      ensures f == Fails ==> StrangersIn(id, folder) != {}
      ensures f == Crashes ==> Ends(oracle, {Vet(folder)}, Crashes)
    {
      f := Try(Vet(folder), disk);
      if f == Crashes { return; }
      f := if f == Works && StrangersIn(id, folder) != {} then Fails else Works;
    }

    // ----- purging -----

    /** Deletes the reset directory, its journal last. `skipped` tells whether a folder was there
        although the question for it failed: exactly then, and only once the journal is gone too, the
        disk is left with an orphaned folder. */
    method DiscardStaging(id: nat) returns (f: Fate, ghost skipped: bool)
      requires DiskOk(disk) && id in disk.stagings && NothingToMove(disk.stagings[id])
      modifies `disk, `calls, `strangers
      ensures strangers.Keys <= old(strangers.Keys)
      ensures if Stranded(disk, id) then skipped else DiskOk(disk)
      ensures DiskOk(disk) <==> !(skipped && id in disk.stagings && disk.stagings[id].journal == None)
      ensures skipped ==> Ends(oracle, ASKS, Fails)
      ensures disk.root == old(disk.root) && Target(disk) == old(Target(disk))
      ensures f == Works ==> id !in disk.stagings && Ends(oracle, {RemoveStaging}, Works)
      ensures f == Works && old(disk.stagings[id].saved.Some?) ==> Ends(oracle, {Ask(SavedFolder)}, Works)
      ensures f == Fails ==> Ends(oracle, {Ordinary}, Fails) || Stranded(disk, id) || RemovalFailed(id)
      ensures f == Crashes ==> Ends(oracle, {Ordinary, RemoveStaging} + ASKS, Crashes)
      ensures disk.stagings.Keys <= old(disk.stagings.Keys)
      ensures disk.nextIdentity == old(disk.nextIdentity)
      ensures id in disk.stagings && disk.stagings[id].journal.Some? ==>
                disk.stagings[id].journal == old(disk.stagings[id].journal)
      ensures old(Clean(id)) ==> Clean(id)
    {
      var skips;
      f, skips := RemoveFolders(id);
      skipped := skips;
      if f == Works {
        f := RemoveJournal(id);
      }
    }

    /** Deletes everything but the journal, and the folders that do not seem to be there. */
    method RemoveFolders(id: nat) returns (f: Fate, skips: bool)
      requires DiskOk(disk) && id in disk.stagings && NothingToMove(disk.stagings[id])
      modifies `disk, `calls, `strangers
      ensures strangers.Keys <= old(strangers.Keys)
      ensures f == Fails ==> Ends(oracle, {Ordinary}, Fails)
      ensures f == Crashes ==> Ends(oracle, {Ordinary} + ASKS, Crashes)
      ensures skips ==> Ends(oracle, ASKS, Fails)
      ensures DiskOk(disk) && disk.root == old(disk.root) && Target(disk) == old(Target(disk)) == disk.root
      ensures disk.stagings.Keys == old(disk.stagings.Keys) && NothingToMove(disk.stagings[id])
      ensures disk.stagings[id].journal == old(disk.stagings[id].journal)
      ensures disk.nextIdentity == old(disk.nextIdentity)
      ensures f == Works ==> disk.stagings[id].temporary == None
      ensures f == Works ==> (skips <==> disk.stagings[id].saved.Some? || disk.stagings[id].prepared.Some?)
      ensures f == Works && old(disk.stagings[id].saved.Some?) ==>
                disk.stagings[id].saved.Some? || Ends(oracle, {Ask(SavedFolder)}, Works)
      ensures old(Clean(id)) ==> Clean(id)
    {
      SettledTarget(disk, id);
      var skipsNew;
      f, skips := RemoveSaved(id);
      if f != Works { return; }
      f, skipsNew := RemovePrepared(id);
      skips := skips || skipsNew;
      if f != Works { return; }
      f := RemoveTemporary(id);
    }

    method RemoveTemporary(id: nat) returns (f: Fate)
      requires DiskOk(disk) && id in disk.stagings && NothingToMove(disk.stagings[id])
      modifies `disk, `calls
      ensures f == Works || Ends(oracle, {Ordinary}, f)
      ensures DiskOk(disk) && disk.root == old(disk.root) && Target(disk) == old(Target(disk))
      ensures disk.stagings.Keys == old(disk.stagings.Keys)
      ensures disk.nextIdentity == old(disk.nextIdentity)
      ensures var s := old(disk.stagings[id]);
              disk.stagings[id] == s.(temporary := None) || (f != Works && disk.stagings[id] == s)
    {
      var s := disk.stagings[id];
      ShrinkKeeps(disk, id, s.(temporary := None));
      f := Try(Ordinary, Put(disk, id, s.(temporary := None)));
      if f != Works { return; }
      f := Try(Ordinary, disk);
    }

    /** The reset directory is there without a journal, and removing it failed. */
    ghost predicate RemovalFailed(id: nat)
      reads this
    {
      id in disk.stagings && disk.stagings[id].journal == None && Ends(oracle, {RemoveStaging}, Fails)
    }

    /** The last calls of a purge. A reset directory with a folder in it cannot be removed. */
    method RemoveJournal(id: nat) returns (f: Fate)
      requires DiskOk(disk) && id in disk.stagings && NothingToMove(disk.stagings[id])
      requires disk.stagings[id].temporary == None && Target(disk) == disk.root
      modifies `disk, `calls
      ensures var s := old(disk.stagings[id]);
              && (if Stranded(disk, id) then s.saved.Some? || s.prepared.Some? else DiskOk(disk))
              && (f == Works ==>
                    s.saved == s.prepared == None && id !in disk.stagings && Ends(oracle, {RemoveStaging}, Works))
              && (id in disk.stagings ==> disk.stagings[id] == s || disk.stagings[id] == s.(journal := None))
              && (s.saved.Some? || s.prepared.Some? ==> id in disk.stagings)
      ensures DiskOk(disk) <==> id !in disk.stagings || disk.stagings[id].journal.Some? || !Orphan(disk.stagings[id])
      ensures disk.root == old(disk.root) && Target(disk) == old(Target(disk))
      ensures f == Fails ==> Ends(oracle, {Ordinary}, Fails) || Stranded(disk, id) || RemovalFailed(id)
      ensures f == Crashes ==> Ends(oracle, {Ordinary, RemoveStaging}, Crashes)
      ensures disk.stagings.Keys <= old(disk.stagings.Keys) && disk.nextIdentity == old(disk.nextIdentity)
    {
      var left := disk.stagings[id].(journal := None);
      f := Try(Ordinary, Put(disk, id, left));
      if f != Works { return; }
      if left != EMPTY_STAGING {
        StrandedIsSettled(disk, id);
        f := Try(RemoveStaging, disk);
        return if f == Works then Fails else f;
      }
      f := RemoveEmpty(id);
    }

    method RemoveEmpty(id: nat) returns (f: Fate)
      requires disk.stagings.Keys == {id} && disk.stagings[id] == EMPTY_STAGING
      modifies `disk, `calls
      ensures DiskOk(disk) && disk.root == old(disk.root) && Target(disk) == disk.root
      ensures f == Works ==> id !in disk.stagings && Ends(oracle, {RemoveStaging}, Works)
      ensures f == Fails ==> Ends(oracle, {Ordinary}, Fails) || RemovalFailed(id)
      ensures f == Crashes ==> Ends(oracle, {Ordinary, RemoveStaging}, Crashes)
      ensures disk.stagings.Keys <= {id} && disk.nextIdentity == old(disk.nextIdentity)
      ensures id in disk.stagings ==> disk.stagings[id] == EMPTY_STAGING
    {
      TargetAt(disk, id);
      BlankKeeps(disk, id, EMPTY_STAGING);
      f := Try(RemoveStaging, disk.(stagings := disk.stagings - {id}));
      if f != Works { return; }
      f := Try(Ordinary, disk);
    }

    /** Deletes the names the journal does not know. */
    method RemoveStrangers(id: nat, folder: Folder) returns (f: Fate)
      modifies `disk, `calls, `strangers
      ensures strangers.Keys <= old(strangers.Keys)
      ensures disk == old(disk)
      ensures f == Works || Ends(oracle, {Ordinary}, f)
      ensures old(Clean(id)) ==> Clean(id)
    {
      f := Works;
      while StrangersIn(id, folder) != {}
        invariant f == Works && disk == old(disk) && strangers.Keys <= old(strangers.Keys)
        invariant old(Clean(id)) ==> Clean(id)
        decreases StrangersIn(id, folder)
      {
        var name :| name in StrangersIn(id, folder);
        f := Try(Ordinary, disk);
        if f != Works { return; }
        strangers := strangers[(id, folder) := StrangersIn(id, folder) - {name}];
      }
    }

    /** Deletes the originals set aside, if their folder seems to be there. */
    method RemoveSaved(id: nat) returns (f: Fate, skips: bool)
      requires DiskOk(disk) && id in disk.stagings && NothingToMove(disk.stagings[id])
      modifies `disk, `calls, `strangers
      ensures strangers.Keys <= old(strangers.Keys)
      ensures f == Fails ==> Ends(oracle, {Ordinary}, Fails)
      ensures f == Crashes ==> Ends(oracle, {Ordinary, Ask(SavedFolder)}, Crashes)
      ensures DiskOk(disk) && disk.root == old(disk.root) && Target(disk) == old(Target(disk))
      ensures disk.stagings.Keys == old(disk.stagings.Keys) && NothingToMove(disk.stagings[id])
      ensures skips ==> Ends(oracle, {Ask(SavedFolder)}, Fails) && disk.stagings[id].saved.Some?
      ensures disk.stagings[id].journal == old(disk.stagings[id].journal)
      ensures disk.nextIdentity == old(disk.nextIdentity)
      ensures f == Works ==> (disk.stagings[id].saved.Some? <==> skips)
      ensures f == Works && !skips && old(disk.stagings[id].saved.Some?) ==> Ends(oracle, {Ask(SavedFolder)}, Works)
      ensures old(Clean(id)) ==> Clean(id)
    {
      skips := false;
      f := Try(Ask(SavedFolder), disk);
      if f == Crashes { return; }
      if f == Fails || disk.stagings[id].saved == None {
        return Works, disk.stagings[id].saved.Some?;
      }
      f := EmptySaved(id);
      if f != Works { return; }
      f := RemoveStrangers(id, SavedFolder);
      if f != Works { return; }
      var s := disk.stagings[id];
      ShrinkKeeps(disk, id, s.(saved := None));
      f := Try(Ordinary, Put(disk, id, s.(saved := None)));
    }

    method EmptySaved(id: nat) returns (f: Fate)
      requires DiskOk(disk) && id in disk.stagings && NothingToMove(disk.stagings[id])
      requires disk.stagings[id].saved.Some?
      modifies `disk, `calls
      ensures f == Works || Ends(oracle, {Ordinary}, f)
      ensures DiskOk(disk) && disk.root == old(disk.root) && Target(disk) == old(Target(disk))
      ensures disk.stagings.Keys == old(disk.stagings.Keys) && NothingToMove(disk.stagings[id])
      ensures disk.stagings[id].journal == old(disk.stagings[id].journal) && disk.stagings[id].saved.Some?
      ensures disk.nextIdentity == old(disk.nextIdentity)
    {
      f := Works;
      var names := Saved(disk.stagings[id]).Keys;
      while names != {}
        invariant f == Works
        invariant DiskOk(disk) && disk.root == old(disk.root) && Target(disk) == old(Target(disk))
        invariant disk.stagings.Keys == old(disk.stagings.Keys) && NothingToMove(disk.stagings[id])
        invariant disk.stagings[id].journal == old(disk.stagings[id].journal) && disk.stagings[id].saved.Some?
        invariant disk.nextIdentity == old(disk.nextIdentity)
        invariant names == Saved(disk.stagings[id]).Keys
        decreases names
      {
        var s := disk.stagings[id];
        var n :| n in names;
        ShrinkKeeps(disk, id, s.(saved := Some(s.saved.value - {n})));
        f := Try(Ordinary, Put(disk, id, s.(saved := Some(s.saved.value - {n}))));
        if f != Works { return; }
        names := names - {n};
      }
    }

    /** Deletes what was prepared, if its folder seems to be there. */
    method RemovePrepared(id: nat) returns (f: Fate, skips: bool)
      requires DiskOk(disk) && id in disk.stagings && NothingToMove(disk.stagings[id])
      modifies `disk, `calls, `strangers
      ensures strangers.Keys <= old(strangers.Keys)
      ensures f == Fails ==> Ends(oracle, {Ordinary}, Fails)
      ensures f == Crashes ==> Ends(oracle, {Ordinary, Ask(PreparedFolder)}, Crashes)
      ensures DiskOk(disk) && disk.root == old(disk.root) && Target(disk) == old(Target(disk))
      ensures disk.stagings.Keys == old(disk.stagings.Keys) && NothingToMove(disk.stagings[id])
      ensures skips ==> Ends(oracle, {Ask(PreparedFolder)}, Fails) && disk.stagings[id].prepared.Some?
      ensures disk.stagings[id].journal == old(disk.stagings[id].journal)
      ensures disk.stagings[id].saved == old(disk.stagings[id].saved)
      ensures disk.nextIdentity == old(disk.nextIdentity)
      ensures f == Works ==> (disk.stagings[id].prepared.Some? <==> skips)
      ensures old(Clean(id)) ==> Clean(id)
    {
      skips := false;
      f := Try(Ask(PreparedFolder), disk);
      if f == Crashes { return; }
      if f == Fails || disk.stagings[id].prepared == None {
        return Works, disk.stagings[id].prepared.Some?;
      }
      f := EmptyPrepared(id);
      if f != Works { return; }
      f := RemoveStrangers(id, PreparedFolder);
      if f != Works { return; }
      var s := disk.stagings[id];
      ShrinkKeeps(disk, id, s.(prepared := None));
      f := Try(Ordinary, Put(disk, id, s.(prepared := None)));
    }

    method EmptyPrepared(id: nat) returns (f: Fate)
      requires DiskOk(disk) && id in disk.stagings && NothingToMove(disk.stagings[id])
      requires disk.stagings[id].prepared.Some?
      modifies `disk, `calls
      ensures f == Works || Ends(oracle, {Ordinary}, f)
      ensures DiskOk(disk) && disk.root == old(disk.root) && Target(disk) == old(Target(disk))
      ensures disk.stagings.Keys == old(disk.stagings.Keys) && NothingToMove(disk.stagings[id])
      ensures disk.stagings[id].journal == old(disk.stagings[id].journal) && disk.stagings[id].prepared.Some?
      ensures disk.stagings[id].saved == old(disk.stagings[id].saved)
      ensures disk.nextIdentity == old(disk.nextIdentity)
    {
      f := Works;
      var names := Prepared(disk.stagings[id]).Keys;
      while names != {}
        invariant f == Works
        invariant DiskOk(disk) && disk.root == old(disk.root) && Target(disk) == old(Target(disk))
        invariant disk.stagings.Keys == old(disk.stagings.Keys) && NothingToMove(disk.stagings[id])
        invariant disk.stagings[id].journal == old(disk.stagings[id].journal) && disk.stagings[id].prepared.Some?
        invariant disk.stagings[id].saved == old(disk.stagings[id].saved)
        invariant disk.nextIdentity == old(disk.nextIdentity)
        invariant names == Prepared(disk.stagings[id]).Keys
        decreases names
      {
        var s := disk.stagings[id];
        var n :| n in names;
        ShrinkKeeps(disk, id, s.(prepared := Some(s.prepared.value - {n})));
        f := Try(Ordinary, Put(disk, id, s.(prepared := Some(s.prepared.value - {n}))));
        if f != Works { return; }
        names := names - {n};
      }
    }

    // ----- recovery -----

    /** Removes a reset directory that never got a journal. */
    method DiscardUnpublished(id: nat) returns (f: Fate)
      requires DiskOk(disk) && id in disk.stagings && Unpublished(disk.stagings[id])
      modifies `disk, `calls
      ensures f == Works || Ends(oracle, {Ordinary, RemoveStaging}, f)
      ensures DiskOk(disk) && disk.root == old(disk.root) && Target(disk) == old(Target(disk))
      ensures f == Works ==> id !in disk.stagings
      ensures disk.stagings.Keys <= old(disk.stagings.Keys)
      ensures !HasCommitted(disk)
      ensures disk.nextIdentity == old(disk.nextIdentity)
    {
      TargetAt(disk, id);
      if disk.stagings[id].temporary.Some? {
        BlankKeeps(disk, id, EMPTY_STAGING);
        f := Try(Ordinary, Put(disk, id, EMPTY_STAGING));
        if f != Works { return; }
      }
      f := RemoveEmpty(id);
    }

    /** Moves the i-th original back, the ones after it being back. */
    method MoveBackOne(id: nat, journal: Journal, i: nat) returns (f: Fate)
      requires DiskOk(disk) && id in disk.stagings && disk.stagings[id].journal == Some(journal)
      requires journal.phase == Precommit && i < |journal.originals|
      requires NamesGone(journal.originals[i + 1..], |journal.originals| - i - 1, Saved(disk.stagings[id]))
      modifies `disk, `calls
      ensures f == Works || Ends(oracle, {Ordinary}, f)
      ensures DiskOk(disk) && Target(disk) == old(Target(disk)) && disk.stagings.Keys == old(disk.stagings.Keys)
      ensures disk.stagings[id].journal == Some(journal) && disk.nextIdentity == old(disk.nextIdentity)
      ensures f == Works ==> NamesGone(journal.originals[i..], |journal.originals| - i, Saved(disk.stagings[id]))
    {
      f := Works;
      var e := journal.originals[i];
      ghost var left := Saved(disk.stagings[id]);
      if e.name in Saved(disk.stagings[id]) {
        MoveBackKeeps(disk, id, e);
        f := Move(MoveBack(disk, id, e.name));
      }
      if f == Works {
        OneEarlierGone(journal.originals, i, left, Saved(disk.stagings[id]));
      }
    }

    /** Moves the originals back, last one first. */
    method RollBack(id: nat, journal: Journal) returns (f: Fate)
      requires DiskOk(disk) && id in disk.stagings && disk.stagings[id].journal == Some(journal)
      requires journal.phase == Precommit
      modifies `disk, `calls
      ensures f == Works || Ends(oracle, {Ordinary}, f)
      ensures DiskOk(disk) && Target(disk) == old(Target(disk)) && disk.stagings.Keys == old(disk.stagings.Keys)
      ensures disk.stagings[id].journal == Some(journal)
      ensures f == Works ==> NothingToMove(disk.stagings[id])
      ensures disk.nextIdentity == old(disk.nextIdentity)
    {
      f := Works;
      ghost var target, keys, next := Target(disk), disk.stagings.Keys, disk.nextIdentity;
      for i := |journal.originals| downto 0
        invariant DiskOk(disk) && disk.stagings.Keys == keys && disk.stagings[id].journal == Some(journal)
        invariant Target(disk) == target && disk.nextIdentity == next
        invariant NamesGone(journal.originals[i..], |journal.originals| - i, Saved(disk.stagings[id]))
      {
        var now := MoveBackOne(id, journal, i);
        if now != Works { return now; }
      }
      assert journal.originals[0..] == journal.originals;
      AllMovedBack(disk, id, journal);
    }

    /** Installs the i-th new directory, the ones before being in place. */
    method InstallOne(id: nat, journal: Journal, i: nat) returns (f: Fate)
      requires DiskOk(disk) && disk.stagings.Keys == {id} && disk.stagings[id].journal == Some(journal)
      requires journal.phase != Precommit && i < |journal.replacements|
      requires NamesGone(journal.replacements, i, Prepared(disk.stagings[id]))
      modifies `disk, `calls
      ensures f == Works || Ends(oracle, {Ordinary}, f)
      ensures DiskOk(disk) && Target(disk) == old(Target(disk)) && disk.stagings.Keys == {id}
      ensures disk.stagings[id].journal == Some(journal) && disk.nextIdentity == old(disk.nextIdentity)
      ensures disk.stagings[id].saved == old(disk.stagings[id].saved)
      ensures f == Works ==> NamesGone(journal.replacements, i + 1, Prepared(disk.stagings[id]))
    {
      f := Works;
      var e := journal.replacements[i];
      ghost var left := Prepared(disk.stagings[id]);
      if e.name in Prepared(disk.stagings[id]) {
        InstallKeeps(disk, id, e);
        f := Move(Install(disk, id, e.name));
      }
      if f == Works {
        OneMoreGone(journal.replacements, i, left, Prepared(disk.stagings[id]));
      }
    }

    /** Moves every prepared directory into the root. */
    method InstallAll(id: nat, journal: Journal) returns (f: Fate)
      requires DiskOk(disk) && disk.stagings.Keys == {id} && disk.stagings[id].journal == Some(journal)
      requires journal.phase != Precommit
      modifies `disk, `calls
      ensures f == Works || Ends(oracle, {Ordinary}, f)
      ensures DiskOk(disk) && Target(disk) == old(Target(disk)) && disk.stagings.Keys == {id}
      ensures disk.stagings[id].journal == Some(journal) && disk.stagings[id].saved == old(disk.stagings[id].saved)
      ensures f == Works ==> NothingToMove(disk.stagings[id])
      ensures disk.nextIdentity == old(disk.nextIdentity)
    {
      f := Works;
      ghost var target, next := Target(disk), disk.nextIdentity;
      for i := 0 to |journal.replacements|
        invariant disk.stagings.Keys == {id} && disk.stagings[id].saved == old(disk.stagings[id].saved)
        invariant DiskOk(disk) && disk.stagings.Keys == {id} && disk.stagings[id].journal == Some(journal)
        invariant Target(disk) == target && disk.nextIdentity == next
        invariant NamesGone(journal.replacements, i, Prepared(disk.stagings[id]))
      {
        var now := InstallOne(id, journal, i);
        if now != Works { return now; }
      }
      AllInstalled(disk, id, journal);
    }

    /** Moves the new profile in, writes the migration marker and notes that only deleting is left. */
    method RollForward(id: nat, journal: Journal) returns (f: Fate)
      requires DiskOk(disk) && disk.stagings.Keys == {id} && disk.stagings[id].journal == Some(journal)
      requires journal.phase != Precommit
      modifies `disk, `calls
      ensures f == Works || Ends(oracle, FORWARD, f)
      ensures DiskOk(disk) && Target(disk) == old(Target(disk)) && disk.stagings.Keys == {id}
      ensures disk.stagings[id].journal.Some? && disk.stagings[id].journal.value.phase != Precommit
      ensures disk.stagings[id].saved == old(disk.stagings[id].saved)
      ensures f == Works ==> NothingToMove(disk.stagings[id])
      ensures disk.nextIdentity == old(disk.nextIdentity)
    {
      f := InstallAll(id, journal);
      if f != Works { return; }
      MarkerKeeps(disk, id);
      f := Try(Ordinary, disk.(migrated := true));
      if f != Works { return; }
      f := Try(Ordinary, disk);
      if f != Works { return; }
      ghost var d := disk;
      f := WriteJournal(id, journal.(phase := PurgePending));
      RewriteKeeps(d, id, disk.stagings[id]);
    }

    method MoveEntries(id: nat, journal: Journal) returns (f: Fate)
      requires DiskOk(disk) && disk.stagings.Keys == {id} && disk.stagings[id].journal == Some(journal)
      modifies `disk, `calls
      ensures f == Works || Ends(oracle, FORWARD, f)
      ensures DiskOk(disk) && Target(disk) == old(Target(disk)) && disk.stagings.Keys == {id}
      ensures disk.stagings[id].journal.Some?
      ensures disk.stagings[id].journal.value.phase == Precommit <==> journal.phase == Precommit
      ensures journal.phase != Precommit ==> disk.stagings[id].saved == old(disk.stagings[id].saved)
      ensures f == Works ==> NothingToMove(disk.stagings[id])
      ensures disk.nextIdentity == old(disk.nextIdentity)
    {
      if journal.phase == Precommit {
        f := RollBack(id, journal);
      } else {
        f := RollForward(id, journal);
      }
    }

    /** Moves the entries to where the journal says, and purges the reset directory. */
    method FinishJournal(id: nat, journal: Journal) returns (f: Fate)
      requires DiskOk(disk) && disk.stagings.Keys == {id} && disk.stagings[id].journal == Some(journal)
      modifies `disk, `calls, `strangers
      ensures strangers.Keys <= old(strangers.Keys)
      ensures DiskOk(disk) <==> !Stranded(disk, id)
      ensures Target(disk) == old(Target(disk)) && disk.nextIdentity == old(disk.nextIdentity)
      ensures f == Fails ==> Ends(oracle, FORWARD, Fails) || Stranded(disk, id) || RemovalFailed(id)
      ensures f == Crashes ==> Ends(oracle, FORWARD + {RemoveStaging} + ASKS, Crashes)
      ensures Stranded(disk, id) ==> Ends(oracle, ASKS, Fails)
      ensures f == Works ==> disk.stagings == map[] && Ends(oracle, {RemoveStaging}, Works)
      ensures f == Works && journal.phase != Precommit && old(disk.stagings[id].saved.Some?) ==>
                Ends(oracle, {Ask(SavedFolder)}, Works)
      ensures disk.stagings.Keys <= {id}
      ensures id in disk.stagings && disk.stagings[id].journal.Some? ==>
                (disk.stagings[id].journal.value.phase == Precommit <==> journal.phase == Precommit)
      ensures old(Clean(id)) ==> Clean(id)
    {
      f := MoveEntries(id, journal);
      if f == Works {
        ghost var skipped;
        f, skipped := DiscardStaging(id);
      }
    }

    /** Completes what the persisted journal says, unless an entry is not where it can be. Where the
        disk leads stays the same, and so does the invariant, unless the purge skips a folder. */
    method Recover(id: nat, journal: Journal) returns (o: Outcome)
      requires disk.stagings.Keys == {id} && disk.stagings[id].journal == Some(journal) && Readable(disk.stagings[id])
      modifies `disk, `calls, `strangers
      ensures strangers.Keys <= old(strangers.Keys)
      ensures !old(Unambiguous(disk.root, disk.stagings[id])) ==>
                disk == old(disk) && strangers == old(strangers) && o != Done
      ensures old(Unambiguous(disk.root, disk.stagings[id])) ==>
                && (DiskOk(disk) <==> !Stranded(disk, id))
                && Target(disk) == old(Target(disk))
                && (o.Failed? ==> Ends(oracle, FORWARD, Fails) || Stranded(disk, id) || RemovalFailed(id))
                && (Stranded(disk, id) ==> Ends(oracle, ASKS, Fails))
      ensures o == Dead ==> Ends(oracle, FORWARD + {RemoveStaging} + ASKS, Crashes)
      ensures o == Done ==> disk.stagings == map[] && Ends(oracle, {RemoveStaging}, Works)
      ensures o == Done && journal.phase != Precommit && old(disk.stagings[id].saved.Some?) ==>
                Ends(oracle, {Ask(SavedFolder)}, Works)
      ensures o.Failed? ==> o.committed == (journal.phase != Precommit)
      ensures disk.nextIdentity == old(disk.nextIdentity)
      ensures disk.stagings.Keys <= {id}
      ensures if journal.phase == Precommit then !HasCommitted(disk) else !InPrecommit(disk)
      ensures old(Clean(id)) ==> Clean(id)
    {
      var f := Try(Look, disk);
      if f == Crashes {
        return Dead;
      }
      if f == Fails || !Unambiguous(disk.root, disk.stagings[id]) {
        return Failed(journal.phase != Precommit);
      }
      assert DiskOk(disk);
      f := FinishJournal(id, journal);
      match f
      case Works => return Done;
      case Fails => return Failed(journal.phase != Precommit);
      case Crashes => return Dead;
    }

    /** A reset directory with a journal has a name in a folder that the journal does not allow. */
    ghost predicate Strange(d: Disk)
      reads this
    {
      exists id :: id in d.stagings && d.stagings[id].journal.Some? && !Clean(id)
    }

    /** Recovery of the one reset directory that is shown. */
    method RecoverOne(id: nat) returns (o: Outcome)
      requires disk.stagings.Keys == {id}
      modifies `disk, `calls, `strangers
      ensures strangers.Keys <= old(strangers.Keys)
      ensures !old(DiskOk(disk)) ==> o != Done && disk == old(disk) && strangers == old(strangers)
      ensures old(DiskOk(disk)) ==>
                && (DiskOk(disk) <==> !Stranded(disk, id))
                && Target(disk) == old(Target(disk))
                && (o.Failed? ==> Ends(oracle, ANY, Fails) || old(disk.stagings[id].journal.Some? && !Clean(id)))
                && (Stranded(disk, id) ==> Ends(oracle, ASKS, Fails))
      ensures old(disk.stagings[id].journal.Some? && !Clean(id)) && !Ends(oracle, VETS, Fails) ==>
                o != Done && disk == old(disk) && strangers == old(strangers)
      ensures o == Dead ==> Ends(oracle, ANY, Crashes)
      ensures o == Done ==> disk.stagings == map[] && disk.root == old(Target(disk))
      ensures disk.nextIdentity == old(disk.nextIdentity)
      ensures disk.stagings.Keys <= {id}
    {
      var f := Try(Look, disk);
      if f != Works {
        return if f == Fails then Failed(false) else Dead;
      }
      if Unpublished(disk.stagings[id]) {
        f := DiscardUnpublished(id);
        return if f == Works then Done else if f == Fails then Failed(false) else Dead;
      }
      f := ReadJournal(id);
      if f != Works {
        return if f == Fails then Failed(false) else Dead;
      }
      assert DiskOk(disk) <==> Unambiguous(disk.root, disk.stagings[id]);
      o := Recover(id, disk.stagings[id].journal.value);
    }

    /** Recovery of what the scan has shown. */
    method RecoverShown() returns (o: Outcome)
      modifies `disk, `calls, `strangers
      ensures strangers.Keys <= old(strangers.Keys)
      ensures Sounder(old(disk), disk, oracle)
      ensures !old(DiskOk(disk)) ==> o != Done && disk == old(disk) && strangers == old(strangers)
      ensures old(Strange(disk)) && !Ends(oracle, VETS, Fails) ==>
                o != Done && disk == old(disk) && strangers == old(strangers)
      ensures old(DiskOk(disk)) && o.Failed? ==> Ends(oracle, ANY, Fails) || old(Strange(disk))
      ensures o == Done ==> disk.stagings == map[] && disk.root == old(Target(disk))
      ensures o == Dead ==> Ends(oracle, ANY, Crashes)
      ensures old(disk.stagings) == map[] ==> o == Done && disk == old(disk) && strangers == old(strangers)
      ensures disk.nextIdentity == old(disk.nextIdentity) && disk.stagings.Keys <= old(disk.stagings.Keys)
    {
      if disk.stagings == map[] {
        return Done;
      }
      var id :| id in disk.stagings;
      if disk.stagings.Keys != {id} {
        assert exists other :: other in disk.stagings && other != id;
        return Failed(false);
      }
      ghost var d := disk;
      o := RecoverOne(id);
      if Stranded(disk, id) && DiskOk(d) {
        StrandedIsSettled(disk, id);
      }
    }

    /** Recovery at start. When the scan works it touches the disk only when the disk is one a reset can
        have left, or a question for a folder of unknown names failed; and then, however often it is
        interrupted, what the disk leads to stays the same. It fails only if a call fails or a name is
        unknown. When the scan fails it completes and nothing has changed: it has completed the recovery
        exactly if the scan worked or nothing was pending. */
    method RecoverPending() returns (o: Outcome, ghost scanned: bool)
      modifies this
      ensures strangers.Keys <= old(strangers.Keys)
      ensures Sounder(old(Whole()), Whole(), oracle)
      ensures !scanned ==> Whole() == old(Whole()) && strangers == old(strangers)
      ensures !scanned ==> if o == Done then Ends(oracle, {Scan}, Fails) && disk.stagings == map[] else o == Dead
      ensures scanned ==> hidden == map[] && Ends(oracle, {Scan}, Works)
      ensures scanned && !old(DiskOk(Whole())) ==> o != Done && Whole() == old(Whole())
      ensures scanned && old(Strange(Whole())) && !Ends(oracle, VETS, Fails) ==> o != Done && Whole() == old(Whole())
      ensures scanned && o == Done ==> Whole().root == old(Target(Whole()))
      ensures o == Done ==> disk.stagings == map[]
      ensures o == Done ==> (Whole().stagings == map[] <==> scanned || old(Whole().stagings) == map[])
      ensures old(DiskOk(Whole())) && o.Failed? ==> Ends(oracle, ANY, Fails) || old(Strange(Whole()))
      ensures o == Dead ==> Ends(oracle, ANY, Crashes)
      ensures old(Whole().stagings) == map[] ==> !o.Failed? && Whole() == old(Whole())
      ensures Whole().nextIdentity == old(Whole().nextIdentity)
      ensures Whole().stagings.Keys <= old(Whole().stagings.Keys)
    {
      var f := LookForResets();
      scanned := f == Works;
      if f == Crashes {
        return Dead, scanned;
      }
      AllOrNoneShown();
      o := RecoverShown();
      AllOrNoneShown();
    }

    // ----- reset -----

    /** Publishes the journal, moves the originals aside and prepares the new profile. */
    method Stage(id: nat, originals: Dictionary) returns (f: Fate)
      requires disk.stagings == map[]
      requires forall e :: e in originals ==>
                 IsManaged(e.name) && e.name in disk.root && disk.root[e.name] == e.identity
      modifies `disk, `calls
      ensures f == Works || Ends(oracle, PREPARING, f)
      ensures DiskOk(disk) && Target(disk) == old(disk.root)
      ensures disk.stagings.Keys <= {id} && !HasCommitted(disk)
      ensures f == Works ==> id in disk.stagings && Staged(old(disk), disk, disk.stagings[id], originals)
    {
      ghost var before := disk.root;
      f := Try(Ordinary, Put(disk, id, EMPTY_STAGING));
      if f != Works { return; }
      f := WriteJournal(id, Journal(Precommit, originals, []));
      PublishKeeps(old(disk), id, disk.stagings[id], originals);
      if f != Works { return; }
      f := Try(Ordinary, disk);
      if f != Works { return; }
      f := MakeFolders(id, originals);
      if f != Works { return; }
      f := MoveOriginals(id, originals);
      if f != Works { return; }
      f := PrepareProfile(id, originals);
    }

    /** Sets the i-th original aside, the ones before being aside. */
    method MoveAsideOne(id: nat, originals: Dictionary, i: nat) returns (f: Fate)
      requires DiskOk(disk) && disk.stagings.Keys == {id} && i < |originals|
      requires disk.stagings[id].journal == Some(Journal(Precommit, originals, []))
      requires Halfway(originals, i, disk.root)
      modifies `disk, `calls
      ensures f == Works || Ends(oracle, {Ordinary, Look}, f)
      ensures DiskOk(disk) && Target(disk) == old(Target(disk)) && disk.stagings.Keys == {id}
      ensures disk.stagings[id].journal == Some(Journal(Precommit, originals, []))
      ensures Prepared(disk.stagings[id]) == old(Prepared(disk.stagings[id]))
      ensures disk.nextIdentity == old(disk.nextIdentity)
      ensures old(disk.stagings[id].saved.Some?) ==> disk.stagings[id].saved.Some?
      ensures f == Works ==> disk.root.Keys == old(disk.root.Keys) - {originals[i].name}
      ensures f == Works ==> Halfway(originals, i + 1, disk.root)
    {
      var e := originals[i];
      f := Try(Look, disk);
      if f != Works { return; }
      assert OnePlace(disk.root, Saved(disk.stagings[id]), e);
      if disk.root[e.name] != e.identity {
        return Fails;
      }
      ghost var root := disk.root;
      MoveAsideKeeps(disk, id, e);
      f := Move(MoveAside(disk, id, e.name));
      if f == Works {
        OneFurther(originals, i, root, disk.root);
      }
    }

    /** Sets every original aside, in the order of the journal. */
    method MoveOriginals(id: nat, originals: Dictionary) returns (f: Fate)
      requires DiskOk(disk) && disk.stagings.Keys == {id}
      requires disk.stagings[id].journal == Some(Journal(Precommit, originals, []))
      requires Saved(disk.stagings[id]) == Prepared(disk.stagings[id]) == map[] && disk.stagings[id].saved.Some?
      modifies `disk, `calls
      ensures f == Works || Ends(oracle, {Ordinary, Look}, f)
      ensures DiskOk(disk) && Target(disk) == old(Target(disk)) && disk.stagings.Keys == {id}
      ensures disk.stagings[id].journal == Some(Journal(Precommit, originals, []))
      ensures Prepared(disk.stagings[id]) == map[] && disk.nextIdentity == old(disk.nextIdentity)
      ensures f == Works ==> disk.root.Keys == old(disk.root.Keys) - Names(originals) && disk.stagings[id].saved.Some?
    {
      f := Works;
      ghost var target, next, keys := Target(disk), disk.nextIdentity, disk.root.Keys;
      forall e | e in originals ensures e.name in disk.root {
        assert OnePlace(disk.root, Saved(disk.stagings[id]), e);
      }
      for i := 0 to |originals|
        invariant DiskOk(disk) && disk.stagings.Keys == {id}
        invariant disk.stagings[id].journal == Some(Journal(Precommit, originals, []))
        invariant Prepared(disk.stagings[id]) == map[] && Target(disk) == target && disk.nextIdentity == next
        invariant disk.stagings[id].saved.Some?
        invariant Halfway(originals, i, disk.root)
        invariant disk.root.Keys <= keys <= disk.root.Keys + Names(originals)
      {
        assert originals[i].name in Names(originals);
        var now := MoveAsideOne(id, originals, i);
        if now != Works { return now; }
      }
      AllAside(originals, disk.root, keys);
    }

    method MakeFolders(id: nat, originals: Dictionary) returns (f: Fate)
      requires DiskOk(disk) && disk.stagings.Keys == {id}
      requires disk.stagings[id].journal == Some(Journal(Precommit, originals, []))
      requires Saved(disk.stagings[id]) == Prepared(disk.stagings[id]) == map[]
      modifies `disk, `calls
      ensures f == Works || Ends(oracle, {Ordinary}, f)
      ensures DiskOk(disk) && Target(disk) == old(Target(disk)) && disk.stagings.Keys == {id}
      ensures disk.stagings[id].journal == Some(Journal(Precommit, originals, []))
      ensures Saved(disk.stagings[id]) == Prepared(disk.stagings[id]) == map[]
      ensures f == Works ==> disk.stagings[id].saved.Some?
      ensures disk.root == old(disk.root) && disk.nextIdentity == old(disk.nextIdentity)
    {
      var s := disk.stagings[id];
      ShrinkKeeps(disk, id, s.(saved := Some(map[])));
      f := Try(Ordinary, Put(disk, id, s.(saved := Some(map[]))));
      if f != Works { return; }
      s := disk.stagings[id];
      ShrinkKeeps(disk, id, s.(prepared := Some(map[])));
      f := Try(Ordinary, Put(disk, id, s.(prepared := Some(map[]))));
      if f != Works { return; }
      f := Try(Ordinary, disk);
    }

    /** Creates the directories of the new profile next to the ones set aside. */
    method PrepareProfile(id: nat, originals: Dictionary) returns (f: Fate)
      requires DiskOk(disk) && disk.stagings.Keys == {id}
      requires disk.stagings[id].journal == Some(Journal(Precommit, originals, []))
      requires Prepared(disk.stagings[id]) == map[]
      modifies `disk, `calls
      ensures f == Works || Ends(oracle, {Ordinary}, f)
      ensures DiskOk(disk) && Target(disk) == old(Target(disk)) && disk.stagings.Keys == {id}
      ensures disk.stagings[id].journal == Some(Journal(Precommit, originals, []))
      ensures disk.root == old(disk.root) && disk.stagings[id].saved == old(disk.stagings[id].saved)
      ensures forall n :: n in Prepared(disk.stagings[id]) ==>
                old(disk.nextIdentity) <= Prepared(disk.stagings[id])[n] < disk.nextIdentity
      ensures f == Works ==> Prepared(disk.stagings[id]).Keys == PROFILE_NAMES
    {
      f := Works;
      for i := 0 to |PROFILE_DIRECTORIES|
        invariant DiskOk(disk) && Target(disk) == old(Target(disk)) && disk.stagings.Keys == {id}
        invariant disk.stagings[id].journal == Some(Journal(Precommit, originals, []))
        invariant disk.root == old(disk.root) && old(disk.nextIdentity) <= disk.nextIdentity
        invariant disk.stagings[id].saved == old(disk.stagings[id].saved)
        invariant Prepared(disk.stagings[id]).Keys == set k | 0 <= k < i :: PROFILE_DIRECTORIES[k]
        invariant forall n :: n in Prepared(disk.stagings[id]) ==>
                    old(disk.nextIdentity) <= Prepared(disk.stagings[id])[n] < disk.nextIdentity
        invariant f == Works
      {
        CreateKeeps(disk, id, PROFILE_DIRECTORIES[i]);
        f := Try(Ordinary, Create(disk, id, PROFILE_DIRECTORIES[i]));
        if f != Works { return; }
      }
      assert Prepared(disk.stagings[id]).Keys == PROFILE_NAMES by {
        assert PROFILE_DIRECTORIES[0] == Global && PROFILE_DIRECTORIES[1] == Guest;
        assert PROFILE_DIRECTORIES[2] == Accounts;
      }
    }

    /** The own reset directory after a recovery: sound, or stranded by a failed question. */
    ghost predicate Kept(id: nat)
      reads this
    {
      && disk.stagings.Keys <= {id}
      && (DiskOk(disk) <==> !Stranded(disk, id))
      && (Stranded(disk, id) ==> Ends(oracle, ASKS, Fails))
    }

    /** After an error before the commit: back to the originals. */
    method Abort(id: nat) returns (o: Outcome)
      requires DiskOk(disk) && disk.stagings.Keys <= {id} && !HasCommitted(disk)
      modifies `disk, `calls, `strangers
      ensures Kept(id) && Target(disk) == old(Target(disk))
      ensures !HasCommitted(disk)
      ensures o == Failed(false) || (o == Dead && Ends(oracle, ANY, Crashes))
    {
      var f := Try(Look, disk);
      if f == Crashes {
        return Dead;
      }
      if f == Fails || id !in disk.stagings {
        return Failed(false);
      }
      if Unpublished(disk.stagings[id]) {
        f := DiscardUnpublished(id);
        return if f == Crashes then Dead else Failed(false);
      }
      f := ReadJournal(id);
      if f != Works {
        return if f == Fails then Failed(false) else Dead;
      }
      assert disk.stagings.Keys == {id};
      o := Recover(id, disk.stagings[id].journal.value);
      if o == Done { o := Failed(false); }
    }

    /** The error handler of the commit: it reports what the disk says, as far as it can read it.
        `looked` and `read` tell whether its two looks at the disk worked. */
    method Report(id: nat) returns (o: Outcome, ghost looked: bool, ghost read: bool)
      requires disk.stagings.Keys <= {id} && (DiskOk(disk) || Stranded(disk, id)) && Clean(id)
      modifies `disk, `calls, `strangers
      ensures Target(disk) == old(Target(disk)) && disk.stagings.Keys <= {id}
      ensures old(DiskOk(disk)) ==> Kept(id)
      ensures o != Done && (o == Dead ==> Ends(oracle, ANY, Crashes))
      ensures o.Failed? ==>
                (o.committed <==> !looked || id !in old(disk.stagings) || (read && old(PastCommit(disk.stagings[id]))))
      ensures !(id in old(disk.stagings) && old(BeforeCommit(disk.stagings[id]))) ==> disk == old(disk)
      ensures o.Failed? ==> Ends(oracle, {Exists}, if looked then Works else Fails)
      ensures o.Failed? && !read ==> Ends(oracle, {Look}, Fails)
      ensures old(InPrecommit(disk)) ==> !HasCommitted(disk)
    {
      looked, read := true, true;
      var f := Try(Exists, disk);
      if f == Crashes {
        return Dead, looked, read;
      }
      if f == Fails {
        return Failed(true), false, read;
      }
      if id !in disk.stagings {
        return Failed(true), looked, read;
      }
      f := ReadJournal(id);
      if f == Crashes {
        return Dead, looked, read;
      }
      if f == Fails {
        return Failed(false), looked, !Readable(disk.stagings[id]);
      }
      var persisted := disk.stagings[id].journal.value;
      if persisted.phase != Precommit {
        return Failed(true), looked, read;
      }
      o := Recover(id, persisted);
      if o == Done { o := Failed(false); }
    }

    /** Writes the committed journal; `switched` tells whether it got to the disk. */
    method Switch(id: nat, committed: Journal) returns (f: Fate, ghost switched: bool)
      requires DiskOk(disk) && disk.stagings.Keys == {id} && committed.phase == Committed
      requires disk.stagings[id].journal == Some(Journal(Precommit, committed.originals, []))
      requires Names(committed.replacements) == PROFILE_NAMES && disk.root.Keys !! PROFILE_NAMES
      requires forall e :: e in committed.replacements ==>
                 e.name in Prepared(disk.stagings[id]) && Prepared(disk.stagings[id])[e.name] == e.identity
      modifies `disk, `calls
      ensures f == Works || Ends(oracle, {WriteJournalOf(Committed)}, f)
      ensures f == Works ==> switched
      ensures !Ends(oracle, {WriteJournalOf(Committed)}, Works) ==> !switched
      ensures DiskOk(disk) && disk.stagings.Keys == {id}
      ensures disk.stagings[id].journal == if switched then Some(committed) else old(disk.stagings[id].journal)
      ensures disk.stagings[id].saved == old(disk.stagings[id].saved)
      ensures Target(disk) == if switched then old(disk.root + Prepared(disk.stagings[id])) else old(Target(disk))
    {
      ghost var d := disk;
      f := WriteJournal(id, committed);
      ghost var s := disk.stagings[id];
      switched := s.journal == Some(committed);
      if switched {
        CommitSwitches(d, id, s);
      } else {
        RewriteKeeps(d, id, s);
      }
    }

    /** Completes the reset under the committed journal, and reports if that fails. */
    method Complete(id: nat, committed: Journal) returns (o: Outcome, ghost looked: bool, ghost read: bool)
      requires DiskOk(disk) && disk.stagings.Keys == {id} && committed.phase == Committed
      requires disk.stagings[id].journal == Some(committed) && Readable(disk.stagings[id])
      requires Clean(id) && disk.stagings[id].saved.Some?
      modifies `disk, `calls, `strangers
      ensures Kept(id) && Target(disk) == old(Target(disk))
      ensures !InPrecommit(disk)
      ensures o == Done ==> disk.stagings == map[]
      ensures o == Done ==> Ends(oracle, {RemoveStaging}, Works) && Ends(oracle, {Ask(SavedFolder)}, Works)
      ensures o == Dead ==> Ends(oracle, ANY, Crashes)
      ensures o.Failed? ==> Truthful(o, true, looked, read, disk)
      ensures o.Failed? ==> Ends(oracle, {Exists}, if looked then Works else Fails)
      ensures o.Failed? && !read ==> Ends(oracle, {Look}, Fails)
      ensures o.Failed? ==> Ends(oracle, OTHERS, Fails) || Stranded(disk, id) || RemovalFailed(id)
    {
      looked, read := true, true;
      o := Recover(id, committed);
      if o.Failed? {
        ghost var d := disk;
        o, looked, read := Report(id);
        assert disk == d;
      }
    }

    /** Switches the journal to committed and completes the reset. The error then tells the truth
        about whether the committed journal got to the disk exactly when `TellsTruth`. */
    method Commit(id: nat, originals: Dictionary, replacements: Dictionary)
        returns (o: Outcome, ghost switched: bool, ghost looked: bool, ghost read: bool)
      requires DiskOk(disk) && disk.stagings.Keys == {id}
      requires disk.stagings[id].journal == Some(Journal(Precommit, originals, []))
      requires Names(replacements) == PROFILE_NAMES && disk.root.Keys !! PROFILE_NAMES
      requires forall e :: e in replacements ==>
                 e.name in Prepared(disk.stagings[id]) && Prepared(disk.stagings[id])[e.name] == e.identity
      requires Clean(id) && disk.stagings[id].saved.Some?
      modifies `disk, `calls, `strangers
      ensures Kept(id)
      ensures Target(disk) == if switched then old(disk.root + Prepared(disk.stagings[id])) else old(Target(disk))
      ensures if switched then !InPrecommit(disk) else !HasCommitted(disk)
      ensures o == Done ==> switched && disk.stagings == map[]
      ensures o == Done ==> Ends(oracle, {RemoveStaging}, Works) && Ends(oracle, {Ask(SavedFolder)}, Works)
      ensures o == Dead ==> Ends(oracle, ANY, Crashes)
      ensures o.Failed? ==> Truthful(o, switched, looked, read, disk)
      ensures o.Failed? ==> Ends(oracle, {Exists}, if looked then Works else Fails)
      ensures o.Failed? && !read ==> Ends(oracle, {Look}, Fails)
      ensures o.Failed? && !switched ==> Ends(oracle, {WriteJournalOf(Committed)}, Fails)
      ensures o.Failed? && switched ==> Ends(oracle, OTHERS, Fails) || Stranded(disk, id) || RemovalFailed(id)
      ensures !Ends(oracle, {WriteJournalOf(Committed)}, Works) ==> !switched
    {
      var f;
      looked, read := true, true;
      f, switched := Switch(id, Journal(Committed, originals, replacements));
      match f
      case Crashes => o := Dead;
      case Works => o, looked, read := Complete(id, Journal(Committed, originals, replacements));
      case Fails => o, looked, read := Report(id);
    }

    // ----- the whole reset -----

    /** The entries of the requested paths that exist, each once, in the order given; None when a
        path is not the application's own. */
    method CollectOriginals(paths: seq<Name>) returns (f: Fate, originals: Option<Dictionary>)
      modifies `disk, `calls
      ensures disk == old(disk) && (f == Works || Ends(oracle, {Look}, f))
      ensures f == Works ==> (originals.Some? <==> forall n :: n in paths ==> IsManaged(n))
      ensures f == Works && originals.Some? ==>
                && (forall e :: e in originals.value ==>
                      IsManaged(e.name) && e.name in disk.root && disk.root[e.name] == e.identity)
                && Names(originals.value) == set n | n in paths && n in disk.root
    {
      f := Works;
      var found: seq<Named> := [];
      for i := 0 to |paths|
        invariant disk == old(disk) && f == Works
        invariant Distinct(found)
        invariant forall n :: n in paths[..i] ==> IsManaged(n)
        invariant forall e :: e in found ==> IsManaged(e.name) && e.name in disk.root && disk.root[e.name] == e.identity
        invariant Names(found) == set n | n in paths[..i] && n in disk.root
      {
        var n := paths[i];
        assert paths[..i + 1] == paths[..i] + [n];
        if !IsManaged(n) {
          assert paths[i] in paths;
          return f, None;
        }
        f := Try(Look, disk);
        if f != Works {
          return f, None;
        }
        if n in disk.root && n !in Names(found) {
          DistinctAppend(found, Named(n, disk.root[n]));
          found := found + [Named(n, disk.root[n])];
        }
      }
      assert paths[..|paths|] == paths;
      originals := Some(found);
    }

    /** The identities of the prepared directories, for the committed journal. */
    method ReadReplacements(id: nat) returns (replacements: Dictionary)
      requires id in disk.stagings && Prepared(disk.stagings[id]).Keys == PROFILE_NAMES
      ensures Names(replacements) == PROFILE_NAMES
      ensures forall e :: e in replacements ==>
                e.name in PROFILE_NAMES && Prepared(disk.stagings[id])[e.name] == e.identity
    {
      var prepared := Prepared(disk.stagings[id]);
      replacements :=
        [Named(Global, prepared[Global]), Named(Guest, prepared[Guest]), Named(Accounts, prepared[Accounts])];
      assert forall n :: n in PROFILE_NAMES ==> n in Names(replacements) by {
        assert replacements[0] in replacements && replacements[1] in replacements && replacements[2] in replacements;
      }
    }

    /** What is known of a failure: the error is truthful or not, and some call that raises has failed. */
    ghost predicate FailureExplained(o: Outcome, paths: seq<Name>, id: nat, switched: bool, looked: bool, read: bool)
      requires o.Failed?
      reads this
    {
      && Truthful(o, switched, looked, read, disk)
      && (!looked ==> Ends(oracle, {Exists}, Fails))
      && (!read ==> Ends(oracle, {Look}, Fails))
      && (switched ==> Ends(oracle, OTHERS, Fails) || Stranded(disk, id) || RemovalFailed(id))
      && ((forall n :: n in paths ==> IsManaged(n)) ==>
            && (!switched ==> Ends(oracle, OTHERS, Fails))
            && (looked ==> Ends(oracle, PREPARING, Fails) || Ends(oracle, {Exists}, Works)))
    }

    /** The commit of what was staged on the disk `before`. */
    method CommitStaged(paths: seq<Name>, id: nat, originals: Dictionary, ghost before: Disk)
        returns (o: Outcome, ghost switched: bool, ghost looked: bool, ghost read: bool)
      requires DiskOk(disk) && disk.stagings.Keys == {id} && Clean(id)
      requires Staged(before, disk, disk.stagings[id], originals) && Target(disk) == before.root
      requires Names(originals) == set n | n in paths && n in before.root
      requires forall n :: n in PROFILE_NAMES && n in before.root ==> n in paths
      requires forall n :: n in before.root ==> before.root[n] < before.nextIdentity
      modifies `disk, `calls, `strangers
      ensures Kept(id)
      ensures if switched then Replaced(before.root, Target(disk), set n | n in paths) else Target(disk) == before.root
      ensures if switched then !InPrecommit(disk) else !HasCommitted(disk)
      ensures o == Done ==> switched && disk.stagings == map[]
      ensures o == Done ==> Ends(oracle, {RemoveStaging}, Works) && Ends(oracle, {Ask(SavedFolder)}, Works)
      ensures o == Dead ==> Ends(oracle, ANY, Crashes)
      ensures o.Failed? ==> FailureExplained(o, paths, id, switched, looked, read)
      ensures !Ends(oracle, {WriteJournalOf(Committed)}, Works) ==> !switched
    {
      var replacements := ReadReplacements(id);
      StagedReplaces(before, disk, id, paths, originals);
      o, switched, looked, read := Commit(id, originals, replacements);
    }

    /** The reset of the entries that were found. */
    method ReplaceFound(paths: seq<Name>, id: nat, originals: Dictionary)
        returns (o: Outcome, ghost switched: bool, ghost looked: bool, ghost read: bool)
      requires disk.stagings == map[] && Clean(id)
      requires forall e :: e in originals ==>
                 IsManaged(e.name) && e.name in disk.root && disk.root[e.name] == e.identity
      requires Names(originals) == set n | n in paths && n in disk.root
      requires forall n :: n in PROFILE_NAMES && n in disk.root ==> n in paths
      requires forall n :: n in disk.root ==> disk.root[n] < disk.nextIdentity
      modifies `disk, `calls, `strangers
      ensures Kept(id)
      ensures if switched then Replaced(old(disk.root), Target(disk), set n | n in paths)
              else Target(disk) == old(disk.root)
      ensures if switched then !InPrecommit(disk) else !HasCommitted(disk)
      ensures o == Done ==> switched && disk.stagings == map[] && disk.root == Target(disk)
      ensures o == Done ==> Ends(oracle, {RemoveStaging}, Works) && Ends(oracle, {Ask(SavedFolder)}, Works)
      ensures o == Dead ==> Ends(oracle, ANY, Crashes)
      ensures o.Failed? ==> FailureExplained(o, paths, id, switched, looked, read)
      ensures !Ends(oracle, {WriteJournalOf(Committed)}, Works) ==> !switched
    {
      switched, looked, read := false, true, true;
      ghost var d := disk;
      var f := Stage(id, originals);
      if f == Works {
        f := Try(Look, disk);
      }
      if f == Crashes {
        return Dead, switched, looked, read;
      }
      if f == Fails {
        o := Abort(id);
        return;
      }
      o, switched, looked, read := CommitStaged(paths, id, originals, d);
    }

    /** The reset itself, on a disk with no reset directory as far as the scan has shown. */
    method Replace(paths: seq<Name>, id: nat)
        returns (o: Outcome, ghost switched: bool, ghost looked: bool, ghost read: bool)
      requires disk.stagings == map[] && Clean(id)
      requires forall n :: n in PROFILE_NAMES && n in disk.root ==> n in paths
      requires forall n :: n in disk.root ==> disk.root[n] < disk.nextIdentity
      modifies `disk, `calls, `strangers
      ensures Kept(id)
      ensures if switched then Replaced(old(disk.root), Target(disk), set n | n in paths)
              else Target(disk) == old(disk.root)
      ensures if switched then !InPrecommit(disk) else !HasCommitted(disk)
      ensures o == Done ==> switched && disk.stagings == map[] && disk.root == Target(disk)
      ensures o == Done ==> Ends(oracle, {RemoveStaging}, Works) && Ends(oracle, {Ask(SavedFolder)}, Works)
      ensures o == Dead ==> Ends(oracle, ANY, Crashes)
      ensures o.Failed? ==> FailureExplained(o, paths, id, switched, looked, read)
      ensures !Ends(oracle, {WriteJournalOf(Committed)}, Works) ==> !switched
    {
      switched, looked, read := false, true, true;
      var f, collected := CollectOriginals(paths);
      if f != Works {
        return if f == Fails then Failed(false) else Dead, switched, looked, read;
      }
      if collected == None {
        return Failed(false), switched, looked, read;
      }
      o, switched, looked, read := ReplaceFound(paths, id, collected.value);
    }

    /** Of the disk before only the root has changed, apart from the own reset directory. */
    ghost predicate Untouched(before: Disk)
      reads this
    {
      disk.stagings.Keys !! before.stagings.Keys && Whole().stagings == disk.stagings + before.stagings
    }

    /** The reset, seen from the disk `before` the recovery, which has completed. */
    method ReplaceBeside(paths: seq<Name>, id: nat, ghost before: Disk, ghost missed: bool)
        returns (o: Outcome, ghost switched: bool, ghost looked: bool, ghost read: bool)
      requires disk.stagings == map[] && Clean(id) && id !in hidden
      requires hidden == if missed then before.stagings else map[]
      requires missed ==> hidden != map[]
      requires disk.root == if missed then before.root else Target(before)
      requires forall n :: n in PROFILE_NAMES && n in disk.root ==> n in paths
      requires forall n :: n in disk.root ==> disk.root[n] < disk.nextIdentity
      modifies `disk, `calls, `strangers
      ensures !missed ==>
                && Sound(Whole()) && (!DiskOk(Whole()) ==> Ends(oracle, ASKS, Fails))
                && if switched then Replaced(Target(before), Target(Whole()), set n | n in paths)
                   else Target(Whole()) == Target(before)
      ensures missed ==>
                && Untouched(before)
                && (if switched then Replaced(before.root, Target(disk), set n | n in paths)
                    else Target(disk) == before.root)
                && (DiskOk(Whole()) ==> disk.stagings == map[])
      ensures o == Done ==> switched && (Whole().stagings == map[] <==> !missed)
      ensures o == Done && !missed ==> Whole().root == Target(Whole())
      ensures o == Dead ==> Ends(oracle, ANY, Crashes)
      ensures Kept(id) && (if switched then !InPrecommit(disk) else !HasCommitted(disk))
      ensures o.Failed? ==> FailureExplained(o, paths, id, switched, looked, read)
      ensures o == Done ==> Ends(oracle, {RemoveStaging}, Works) && Ends(oracle, {Ask(SavedFolder)}, Works)
      ensures !Ends(oracle, {WriteJournalOf(Committed)}, Works) ==> !switched
    {
      o, switched, looked, read := Replace(paths, id);
      if missed {
        BesideHidden(disk, hidden, id);
      } else {
        assert Whole() == disk;
        assert Stranded(disk, id) ==> Sound(disk);
      }
    }

    /** The whole reset. The caller names every profile directory that exists, and the file system
        gives new directories identities no existing entry has. `missed` tells whether a pending reset was
        not shown by the scan. If not, everything is as before, or replaced, according to `switched`. If
        so, the reset runs beside the pending one, which stays as it was, and what is replaced is the root.
        An error after the recovery (`began`) says whether the reset switched, exactly when it is truthful;
        an error of the recovery is about the earlier reset. */
    method ResetData(paths: seq<Name>, id: nat)
        returns (o: Outcome, ghost began: bool, ghost missed: bool,
                 ghost switched: bool, ghost looked: bool, ghost read: bool)
      requires id !in Whole().stagings && forall folder :: (id, folder) !in strangers
      requires forall n :: n in PROFILE_NAMES && (n in disk.root || n in Target(Whole())) ==> n in paths
      requires forall n :: n in disk.root ==> disk.root[n] < disk.nextIdentity
      requires forall n :: n in Target(Whole()) ==> Target(Whole())[n] < disk.nextIdentity
      modifies this
      ensures missed ==> began && Ends(oracle, {Scan}, Fails) && old(Whole().stagings) != map[]
      ensures !missed && !old(DiskOk(Whole())) ==> !began && Whole() == old(Whole())
      ensures !missed && old(Sound(Whole())) ==>
                && Sound(Whole())
                && if switched then Replaced(old(Target(Whole())), Target(Whole()), set n | n in paths)
                   else Target(Whole()) == old(Target(Whole()))
      ensures !missed && old(DiskOk(Whole())) && !DiskOk(Whole()) ==> Ends(oracle, ASKS, Fails)
      ensures missed ==>
                && Untouched(old(Whole()))
                && (if switched then Replaced(old(disk.root), Target(disk), set n | n in paths)
                    else Target(disk) == old(disk.root))
                && (DiskOk(Whole()) ==> disk.stagings == map[])
      ensures o == Done ==> switched && (Whole().stagings == map[] <==> !missed)
      ensures o == Done && !missed ==> Whole().root == Target(Whole())
      ensures o == Dead ==> Ends(oracle, ANY, Crashes)
      ensures old(Whole().stagings) == map[] ==> !missed && (began || o == Dead)
      ensures !began ==> !switched && o != Done
      ensures began ==> Kept(id) && (if switched then !InPrecommit(disk) else !HasCommitted(disk))
      ensures began && o.Failed? ==> FailureExplained(o, paths, id, switched, looked, read)
      ensures o == Done ==> Ends(oracle, {RemoveStaging}, Works) && Ends(oracle, {Ask(SavedFolder)}, Works)
      ensures !Ends(oracle, {WriteJournalOf(Committed)}, Works) ==> !switched
    {
      switched, looked, read := false, true, true;
      missed := false;
      ghost var before, scanned := Whole(), true;
      o, scanned := RecoverPending();
      began := o == Done;
      if o != Done { return; }
      missed := !scanned && before.stagings != map[];
      assert disk.root == Whole().root;
      ResetMayStart(before, disk, paths, missed);
      o, switched, looked, read := ReplaceBeside(paths, id, before, missed);
    }

    /** A reset, then any number of restarts, each of which may die or fail at any call. Whatever they
        do, the disk leads to all or nothing replaced, as decided by whether the reset got the committed
        journal to the disk. A restart that completes has got there exactly if its scan worked or nothing
        was pending (`seen`). */
    method ResetThenRestart(paths: seq<Name>, id: nat, restarts: nat)
        returns (o: Outcome, ghost switched: bool, ghost seen: bool)
      requires Whole().stagings == map[] && forall folder :: (id, folder) !in strangers
      requires forall n :: n in PROFILE_NAMES && n in disk.root ==> n in paths
      requires forall n :: n in disk.root ==> disk.root[n] < disk.nextIdentity
      modifies this
      ensures Sound(Whole()) && (!DiskOk(Whole()) ==> Ends(oracle, ASKS, Fails))
      ensures if switched then Replaced(old(disk.root), Target(Whole()), set n | n in paths)
              else Target(Whole()) == old(disk.root)
      ensures o == Done ==> (Whole().stagings == map[] <==> seen)
      ensures o == Done && seen ==> disk.root == Target(Whole())
      ensures o == Done && !seen ==> Ends(oracle, {Scan}, Fails)
    {
      ghost var began, missed, looked, read;
      o, began, missed, switched, looked, read := ResetData(paths, id);
      seen := true;
      ghost var reached := Target(Whole());
      for i := 0 to restarts
        invariant Sound(Whole()) && Target(Whole()) == reached
        invariant !DiskOk(Whole()) ==> Ends(oracle, ASKS, Fails)
        invariant o == Done ==> (Whole().stagings == map[] <==> seen)
        invariant o == Done && seen ==> disk.root == Target(Whole())
        invariant o == Done && !seen ==> Ends(oracle, {Scan}, Fails)
      {
        ghost var pending := Whole().stagings != map[];
        ghost var scanned;
        o, scanned := RecoverPending();
        seen := scanned || !pending;
      }
    }
  }

  /** What a recovery leads to is kept; a sound disk stays sound, and is only stranded by a failed
      question. */
  ghost predicate Sounder(d: Disk, d': Disk, oracle: Oracle) {
    Sound(d) ==>
      && Sound(d') && Target(d') == Target(d)
      && (DiskOk(d) && !DiskOk(d') ==> Ends(oracle, ASKS, Fails))
  }

  /** The root a reset starts on, after a recovery that completed. */
  lemma ResetMayStart(before: Disk, d: Disk, paths: seq<Name>, missed: bool)
    requires d.nextIdentity == before.nextIdentity
    requires d.root == if missed then before.root else Target(before)
    requires forall n :: n in PROFILE_NAMES && (n in before.root || n in Target(before)) ==> n in paths
    requires forall n :: n in before.root ==> before.root[n] < before.nextIdentity
    requires forall n :: n in Target(before) ==> Target(before)[n] < before.nextIdentity
    ensures forall n :: n in PROFILE_NAMES && n in d.root ==> n in paths
    ensures forall n :: n in d.root ==> d.root[n] < d.nextIdentity
  {
  }

  /** A reset directory beside one that was not shown breaks the invariant. */
  lemma BesideHidden(d: Disk, hidden: map<nat, Staging>, id: nat)
    requires d.stagings.Keys <= {id} && id !in hidden && hidden != map[]
    ensures DiskOk(d.(stagings := d.stagings + hidden)) ==> d.stagings == map[]
  {
    var other :| other in hidden;
    var all := d.(stagings := d.stagings + hidden);
    if id in d.stagings {
      assert id in all.stagings && other in all.stagings;
    }
  }

  /** The error says whether the new profile is in force: the handler could ask whether the reset
      directory is there, and if the committed journal got to the disk then no reset directory is
      left, or its journal is still there and could be read. */
  ghost predicate TellsTruth(switched: bool, looked: bool, read: bool, d: Disk) {
    if switched
    then !looked || d.stagings == map[] || (read && forall id :: id in d.stagings ==> d.stagings[id].journal.Some?)
    else looked
  }

  ghost predicate Truthful(o: Outcome, switched: bool, looked: bool, read: bool, d: Disk)
    requires o.Failed?
  {
    (o.committed <==> switched) <==> TellsTruth(switched, looked, read, d)
  }

  const EMPTY_DIRECTORY := Disk(map[], map[], false, 0)

  /** Every call works but the ones of the kinds, which fail. */
  function Only(failing: set<Call>): Oracle {
    (n: nat, c: Call) => if c in failing then Fails else Works
  }

  lemma OnlyThese(failing: set<Call>, calls: set<Call>)
    ensures Ends(Only(failing), calls, Fails) ==> calls * failing != {}
    ensures Ends(Only(failing), calls, Works) ==> calls - failing != {}
    ensures !Ends(Only(failing), calls, Crashes)
  {
    if n: nat, c: Call :| c in calls && Only(failing)(n, c) == Fails {
      assert c in calls * failing;
    }
    if n: nat, c: Call :| c in calls && Only(failing)(n, c) == Works {
      assert c in calls - failing;
    }
  }

  /** When every call works, the reset completes. */
  method WorkingResetCompletes(d: DataDirectory, paths: seq<Name>, id: nat) returns (o: Outcome)
    requires forall n: nat, c: Call :: d.oracle(n, c) == Works
    requires d.Whole().stagings == map[] && forall n :: n in paths ==> IsManaged(n)
    requires forall folder :: (id, folder) !in d.strangers
    requires forall n :: n in PROFILE_NAMES && n in d.disk.root ==> n in paths
    requires forall n :: n in d.disk.root ==> d.disk.root[n] < d.disk.nextIdentity
    modifies d
    ensures o == Done && d.Whole().stagings == map[] && Replaced(old(d.disk.root), d.disk.root, set n | n in paths)
  {
    ghost var began, missed, switched, looked, read;
    o, began, missed, switched, looked, read := d.ResetData(paths, id);
  }

  lemma EndsOnly(failing: set<Call>)
    requires Scan !in failing
    ensures var o := Only(failing);
            && !Ends(o, ANY, Crashes) && !Ends(o, {Scan}, Fails)
            && (Ends(o, {RemoveStaging}, Works) ==> RemoveStaging !in failing)
            && (Ends(o, {Ask(SavedFolder)}, Works) ==> Ask(SavedFolder) !in failing)
            && (WriteJournalOf(Committed) in failing ==> !Ends(o, {WriteJournalOf(Committed)}, Works))
  {
    OnlyThese(failing, ANY);
    OnlyThese(failing, {RemoveStaging});
    OnlyThese(failing, {Ask(SavedFolder)});
    OnlyThese(failing, {WriteJournalOf(Committed)});
    OnlyThese(failing, {Scan});
  }

  /** A reset of an empty directory in which only the calls of the kinds fail. */
  method ResetEmpty(failing: set<Call>)
      returns (d: DataDirectory, o: Outcome, ghost switched: bool, ghost looked: bool, ghost read: bool)
    requires Scan !in failing
    ensures fresh(d) && d.oracle == Only(failing) && d.Whole() == d.disk && d.Kept(0)
    ensures if switched then Replaced(map[], Target(d.disk), {}) else Target(d.disk) == map[]
    ensures o == Done ==> switched && RemoveStaging !in failing && Ask(SavedFolder) !in failing
    ensures o != Done ==> o.Failed? && d.FailureExplained(o, [], 0, switched, looked, read)
    ensures WriteJournalOf(Committed) in failing ==> !switched
  {
    EndsOnly(failing);
    d := new DataDirectory(EMPTY_DIRECTORY, Only(failing));
    ghost var scanned;
    o, scanned := d.RecoverPending();
    assert d.Whole().stagings == d.disk.stagings;
    o, switched, looked, read := d.Replace([], 0);
    assert d.Whole() == d.disk;
  }

  /** The error can deny a reset that is in force: when only the removal of the reset directory fails,
      after its journal is gone, everything is replaced and the error says it is not. */
  method ErrorCanDenyReset() returns (d: DataDirectory, o: Outcome)
    ensures d.oracle == Only({RemoveStaging})
    ensures o == Failed(false) && Replaced(map[], Target(d.Whole()), {})
  {
    NoneOf({RemoveStaging});
    ghost var switched, looked, read;
    d, o, switched, looked, read := ResetEmpty({RemoveStaging});
  }

  /** It can also claim a reset that is not: when the committed journal cannot be written and asking
      for the reset directory fails, which reads as its absence. */
  method ErrorCanClaimReset() returns (d: DataDirectory, o: Outcome)
    ensures d.oracle == Only({Exists, WriteJournalOf(Committed)})
    ensures o == Failed(true) && Target(d.Whole()) == map[]
  {
    NoneOf({Exists, WriteJournalOf(Committed)});
    ghost var switched, looked, read;
    d, o, switched, looked, read := ResetEmpty({Exists, WriteJournalOf(Committed)});
  }

  lemma NoneOf(failing: set<Call>)
    ensures Ends(Only(failing), OTHERS, Fails) ==> OTHERS * failing != {}
    ensures Ends(Only(failing), PREPARING, Fails) ==> PREPARING * failing != {}
    ensures Ends(Only(failing), ASKS, Fails) ==> ASKS * failing != {}
    ensures Ends(Only(failing), {Exists}, Fails) ==> Exists in failing
    ensures Ends(Only(failing), {Exists}, Works) ==> Exists !in failing
    ensures Ends(Only(failing), {Look}, Fails) ==> Look in failing
    ensures Ends(Only(failing), {RemoveStaging}, Fails) ==> RemoveStaging in failing
  {
    OnlyThese(failing, OTHERS);
    OnlyThese(failing, PREPARING);
    OnlyThese(failing, ASKS);
    OnlyThese(failing, {Exists});
    OnlyThese(failing, {Look});
    OnlyThese(failing, {RemoveStaging});
  }

  /** A purge that skips a folder can strand the data directory: when only the question for `old` fails,
      everything is replaced, the error says it is not, and an orphaned folder is left. */
  method PurgeCanStrandReset() returns (d: DataDirectory, o: Outcome)
    ensures d.oracle == Only({Ask(SavedFolder)})
    ensures o == Failed(false) && Replaced(map[], d.Whole().root, {}) && Stranded(d.Whole(), 0)
  {
    NoneOf({Ask(SavedFolder)});
    ghost var switched, looked, read;
    d, o, switched, looked, read := ResetEmpty({Ask(SavedFolder)});
    StrandedIsSettled(d.disk, 0);
  }

  /** On a disk that is not one a reset can leave no recovery that sees it completes, even if every call
      works. */
  method UnsoundStays(d: DataDirectory) returns (o: Outcome)
    requires !DiskOk(d.Whole()) && forall n: nat, c: Call :: d.oracle(n, c) == Works
    modifies d
    ensures o.Failed? && d.Whole() == old(d.Whole())
  {
    ghost var scanned;
    o, scanned := d.RecoverPending();
  }

  /** A disk as a reset leaves it that dies after the first original is set aside. */
  const HALFWAY :=
    Disk(map[],
         map[0 := Staging(Some(Journal(Precommit, [Named(Global, 0)], [])), None,
                          Some(map[Global := 0]), Some(map[]))],
         false, 1)

  lemma HalfwayIsOk()
    ensures DiskOk(HALFWAY) && Target(HALFWAY) == map[Global := 0]
  {
    var s := HALFWAY.stagings[0];
    assert Names(s.journal.value.originals) == {Global} by {
      assert Named(Global, 0) in s.journal.value.originals;
    }
    assert Names(s.journal.value.replacements) == {};
    TargetAt(HALFWAY, 0);
  }

  /** A failing scan can hide a pending reset: the restart completes, and the original is still aside. */
  method ScanCanHideReset() returns (d: DataDirectory, o: Outcome)
    ensures d.oracle == Only({Scan})
    ensures o == Done && d.Whole() == HALFWAY && Global !in d.Whole().root && Global in Target(d.Whole())
  {
    HalfwayIsOk();
    d := new DataDirectory(HALFWAY, Only({Scan}));
    ghost var scanned;
    o, scanned := d.RecoverPending();
  }

  /** A reset beside the one that is hidden from it. */
  method ResetBesideHalfway(failing: set<Call>)
      returns (d: DataDirectory, o: Outcome, ghost switched: bool, ghost looked: bool, ghost read: bool)
    requires Scan in failing
    ensures fresh(d) && d.oracle == Only(failing) && d.Kept(1)
    ensures d.Whole().root == d.disk.root && d.Whole().stagings == d.disk.stagings + HALFWAY.stagings
    ensures switched ==> Replaced(map[], Target(d.disk), PROFILE_NAMES)
    ensures o == Done ==> switched && d.disk.stagings == map[] && d.disk.root == Target(d.disk)
    ensures o == Done ==> RemoveStaging !in failing
    ensures o != Done ==> o.Failed? && d.FailureExplained(o, PROFILE_DIRECTORIES, 1, switched, looked, read)
  {
    OnlyThese(failing, ANY);
    OnlyThese(failing, {RemoveStaging});
    OnlyThese(failing, {Scan});
    d := new DataDirectory(HALFWAY, Only(failing));
    ghost var scanned;
    o, scanned := d.RecoverPending();
    assert d.hidden == d.Whole().stagings == HALFWAY.stagings;
    assert (set n | n in PROFILE_DIRECTORIES) == PROFILE_NAMES;
    o, switched, looked, read := d.Replace(PROFILE_DIRECTORIES, 1);
  }

  /** A reset whose scan fails can spoil the pending one: even when every other call works, it completes
      and leaves a disk on which the pending reset is ambiguous. */
  method ScanCanSpoilReset() returns (d: DataDirectory, o: Outcome)
    ensures d.oracle == Only({Scan})
    ensures o == Done && d.Whole().stagings == HALFWAY.stagings && !DiskOk(d.Whole())
  {
    NoneOf({Scan});
    ghost var switched, looked, read;
    d, o, switched, looked, read := ResetBesideHalfway({Scan});
    HalfwayIsSpoilt(d.Whole());
  }

  lemma HalfwayIsSpoilt(d: Disk)
    requires d.stagings == HALFWAY.stagings && Global in d.root
    ensures !DiskOk(d)
  {
    var s := d.stagings[0];
    assert Named(Global, 0) in s.journal.value.originals;
    assert !Unambiguous(d.root, s);
  }

  /** If the removal of its own directory fails too, it leaves two. */
  method ScanCanDoubleReset() returns (d: DataDirectory, o: Outcome)
    ensures d.oracle == Only({Scan, RemoveStaging})
    ensures o.Failed? && d.Whole().stagings.Keys == {0, 1} && !DiskOk(d.Whole())
  {
    NoneOf({Scan, RemoveStaging});
    ghost var switched, looked, read;
    d, o, switched, looked, read := ResetBesideHalfway({Scan, RemoveStaging});
    assert 0 in HALFWAY.stagings;
    BesideHidden(d.disk, HALFWAY.stagings, 1);
  }

  lemma DistinctAppend(entries: Dictionary, e: Named)
    requires e.name !in Names(entries)
    ensures Distinct(entries + [e]) && Names(entries + [e]) == Names(entries) + {e.name}
  {
    forall i | 0 <= i < |entries|
      ensures entries[i].name != e.name
    {
      assert entries[i] in entries;
    }
  }

  /** The entries set aside replaced by the prepared profile. */
  lemma StagedReplaces(before: Disk, d: Disk, id: nat, paths: seq<Name>, originals: Dictionary)
    requires DiskOk(d) && id in d.stagings && Staged(before, d, d.stagings[id], originals)
    requires Target(d) == before.root
    requires Names(originals) == set n | n in paths && n in before.root
    requires forall n :: n in PROFILE_NAMES && n in before.root ==> n in paths
    requires forall n :: n in before.root ==> before.root[n] < before.nextIdentity
    ensures d.root.Keys !! PROFILE_NAMES
    ensures Replaced(before.root, d.root + Prepared(d.stagings[id]), set n | n in paths)
  {
    TargetAt(d, id);
    var s := d.stagings[id];
    forall n | n in d.root
      ensures n in before.root && d.root[n] == before.root[n]
    {
      assert n !in Names(originals);
      assert n !in Saved(s);
      assert (d.root + Saved(s))[n] == d.root[n];
    }
    forall n | n in PROFILE_NAMES
      ensures Prepared(s)[n] !in before.root.Values
    {
      assert before.nextIdentity <= Prepared(s)[n];
    }
  }

  /** The committed journal makes the new profile the target. */
  lemma CommitSwitches(d: Disk, id: nat, s: Staging)
    requires DiskOk(d) && d.stagings.Keys == {id} && d.stagings[id].journal.Some?
    requires s.journal.Some? && s.journal.value.phase == Committed
    requires s.journal.value.originals == d.stagings[id].journal.value.originals
    requires s.saved == d.stagings[id].saved && s.prepared == d.stagings[id].prepared
    requires Names(s.journal.value.replacements) == PROFILE_NAMES && d.root.Keys !! PROFILE_NAMES
    requires forall e :: e in s.journal.value.replacements ==>
               e.name in Prepared(s) && Prepared(s)[e.name] == e.identity
    ensures DiskOk(Put(d, id, s)) && Target(Put(d, id, s)) == d.root + Prepared(s)
  {
    forall e | e in s.journal.value.replacements
      ensures OnePlace(d.root, Prepared(s), e)
    {
      assert e.name in PROFILE_NAMES;
    }
    TargetAt(Put(d, id, s), id);
  }

  /** The originals are out of the root, and a full new profile waits beside it. */
  ghost predicate Staged(before: Disk, d: Disk, s: Staging, originals: Dictionary) {
    && s.journal == Some(Journal(Precommit, originals, []))
    && d.root.Keys == before.root.Keys - Names(originals)
    && Prepared(s).Keys == PROFILE_NAMES && s.saved.Some?
    && forall n :: n in Prepared(s) ==> before.nextIdentity <= Prepared(s)[n]
  }

  /** Rewriting the journal within the same side of the commit keeps the target. */
  lemma RewriteKeeps(d: Disk, id: nat, s': Staging)
    requires DiskOk(d) && id in d.stagings && Readable(d.stagings[id])
    requires s'.saved == d.stagings[id].saved && s'.prepared == d.stagings[id].prepared && s'.journal.Some?
    requires var j, j' := d.stagings[id].journal.value, s'.journal.value;
             j' == j || (j'.originals == j.originals && j'.replacements == j.replacements
                         && j.phase != Precommit && j'.phase != Precommit)
    ensures DiskOk(Put(d, id, s')) && Target(Put(d, id, s')) == Target(d)
  {
    TargetAt(d, id);
    TargetAt(Put(d, id, s'), id);
  }

  /** The first journal, written or not, leaves the root as where recovery leads. */
  lemma PublishKeeps(d: Disk, id: nat, s: Staging, originals: Dictionary)
    requires d.stagings == map[]
    requires forall e :: e in originals ==> IsManaged(e.name) && e.name in d.root && d.root[e.name] == e.identity
    requires s.saved == s.prepared == None
    requires || (s.journal == None && s.temporary != Some(OtherContent))
             || s.journal == Some(Journal(Precommit, originals, []))
    ensures DiskOk(Put(d, id, s)) && Target(Put(d, id, s)) == d.root && !HasCommitted(Put(d, id, s))
  {
    TargetAt(Put(d, id, s), id);
    assert d.root + map[] == d.root;
  }

  lemma CreateKeeps(d: Disk, id: nat, n: Name)
    requires DiskOk(d) && id in d.stagings && d.stagings[id].journal.Some? && n in PROFILE_NAMES
    requires d.stagings[id].journal.value.phase == Precommit
    ensures DiskOk(Create(d, id, n)) && Target(Create(d, id, n)) == Target(d)
  {
    TargetAt(d, id);
    TargetAt(Create(d, id, n), id);
  }

  /** The first i originals have left the root, the others are in it. */
  predicate Halfway(originals: seq<Named>, i: nat, root: Entries)
    requires i <= |originals|
  {
    && (forall k :: 0 <= k < i ==> originals[k].name !in root)
    && (forall k :: i <= k < |originals| ==> originals[k].name in root)
  }

  lemma OneFurther(originals: Dictionary, i: nat, root: Entries, root': Entries)
    requires i < |originals| && Halfway(originals, i, root) && root'.Keys == root.Keys - {originals[i].name}
    ensures Halfway(originals, i + 1, root')
  {
  }

  lemma AllAside(originals: seq<Named>, root: Entries, keys: set<Name>)
    requires Halfway(originals, |originals|, root) && root.Keys <= keys <= root.Keys + Names(originals)
    ensures root.Keys == keys - Names(originals)
  {
    forall n | n in Names(originals) ensures n !in root {
      var e :| e in originals && e.name == n;
      var k :| 0 <= k < |originals| && originals[k] == e;
    }
  }

  lemma OneMoreGone(entries: seq<Named>, i: nat, left: Entries, left': Entries)
    requires i < |entries| && NamesGone(entries, i, left)
    requires left'.Keys <= left.Keys && entries[i].name !in left'
    ensures NamesGone(entries, i + 1, left')
  {
  }

  lemma OneEarlierGone(entries: seq<Named>, i: nat, left: Entries, left': Entries)
    requires i < |entries| && NamesGone(entries[i + 1..], |entries| - i - 1, left)
    requires left'.Keys <= left.Keys && entries[i].name !in left'
    ensures NamesGone(entries[i..], |entries| - i, left')
  {
    forall k | 0 <= k < |entries| - i ensures entries[i..][k].name !in left' {
      if k > 0 {
        assert entries[i..][k] == entries[i + 1..][k - 1];
      }
    }
  }

  lemma AllInstalled(d: Disk, id: nat, journal: Journal)
    requires DiskOk(d) && id in d.stagings && d.stagings[id].journal == Some(journal) && journal.phase != Precommit
    requires NamesGone(journal.replacements, |journal.replacements|, Prepared(d.stagings[id]))
    ensures NothingToMove(d.stagings[id])
  {
    NothingLeft(journal.replacements, Prepared(d.stagings[id]));
  }

  lemma AllMovedBack(d: Disk, id: nat, journal: Journal)
    requires DiskOk(d) && id in d.stagings && d.stagings[id].journal == Some(journal) && journal.phase == Precommit
    requires NamesGone(journal.originals, |journal.originals|, Saved(d.stagings[id]))
    ensures NothingToMove(d.stagings[id])
  {
    NothingLeft(journal.originals, Saved(d.stagings[id]));
  }

  /** None of the first n names is in the map. */
  predicate NamesGone(entries: seq<Named>, n: nat, left: Entries)
    requires n <= |entries|
  {
    forall k :: 0 <= k < n ==> entries[k].name !in left
  }

  lemma NothingLeft(entries: seq<Named>, left: Entries)
    requires left.Keys <= Names(entries)
    requires forall k :: 0 <= k < |entries| ==> entries[k].name !in left
    ensures left == map[]
  {
    forall n
      ensures n !in left
    {
      if n in Names(entries) {
        var e :| e in entries && e.name == n;
        var k :| 0 <= k < |entries| && entries[k] == e;
      }
    }
  }

  lemma MarkerKeeps(d: Disk, id: nat)
    requires DiskOk(d) && id in d.stagings
    ensures DiskOk(d.(migrated := true)) && Target(d.(migrated := true)) == Target(d)
  {
    TargetAt(d, id);
    TargetAt(d.(migrated := true), id);
  }
}
