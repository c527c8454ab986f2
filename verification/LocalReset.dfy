/** The journalled local reset: originals are moved aside, a new profile is prepared, the journal is
    switched to committed, the new profile is installed and the originals are deleted. Every file
    system call can work, fail, or be the one the process dies before. */
module LocalReset {

  import opened Options

  /** Device and inode of a directory entry. */
  type Identity = nat

  /** Names in the data directory. `Managed` are the other application files, `Unmanaged` the rest. */
  datatype Name = Global | Guest | Accounts | Managed(file: string) | Unmanaged(file: string)

  const PROFILE_DIRECTORIES: seq<Name> := [Global, Guest, Accounts]

  predicate IsManaged(n: Name) {
    !n.Unmanaged?
  }

  type Entries = map<Name, Identity>

  datatype Phase = Precommit | Committed | PurgePending

  datatype Named = Named(name: Name, identity: Identity)

  ghost predicate Distinct(entries: seq<Named>) {
    forall i, j :: 0 <= i < j < |entries| ==> entries[i].name != entries[j].name
  }

  /** A dictionary of names and identities, in insertion order. */
  type Dictionary = d: seq<Named> | Distinct(d) witness []

  datatype Journal = Journal(phase: Phase, originals: Dictionary, replacements: Dictionary)

  /** What journal.tmp holds: a beginning of a first journal, or anything else. */
  datatype Temporary = FirstJournal | OtherContent

  datatype Staging = Staging(journal: Option<Journal>, temporary: Option<Temporary>,
                             saved: Option<Entries>, prepared: Option<Entries>)

  const EMPTY_STAGING := Staging(None, None, None, None)

  /** One data directory: its managed and unmanaged entries, its reset directories, the marker of
      the finished legacy migration, and the next identity the file system will hand out. */
  datatype Disk = Disk(root: Entries, stagings: map<nat, Staging>, migrated: bool, nextIdentity: nat)

  function Saved(s: Staging): Entries {
    if s.saved.Some? then s.saved.value else map[]
  }

  function Prepared(s: Staging): Entries {
    if s.prepared.Some? then s.prepared.value else map[]
  }

  function Put(d: Disk, id: nat, s: Staging): Disk {
    d.(stagings := d.stagings[id := s])
  }

  // ----- single file system calls -----

  /** Moves an entry of the root aside. */
  function MoveAside(d: Disk, id: nat, n: Name): Disk
    requires id in d.stagings && n in d.root
  {
    var s := d.stagings[id];
    Put(d.(root := d.root - {n}), id, s.(saved := Some(Saved(s)[n := d.root[n]])))
  }

  /** Moves a saved entry back into the root. */
  function MoveBack(d: Disk, id: nat, n: Name): Disk
    requires id in d.stagings && n in Saved(d.stagings[id])
  {
    var s := d.stagings[id];
    Put(d.(root := d.root[n := Saved(s)[n]]), id, s.(saved := Some(Saved(s) - {n})))
  }

  /** Moves a prepared directory into the root. */
  function Install(d: Disk, id: nat, n: Name): Disk
    requires id in d.stagings && n in Prepared(d.stagings[id])
  {
    var s := d.stagings[id];
    Put(d.(root := d.root[n := Prepared(s)[n]]), id, s.(prepared := Some(Prepared(s) - {n})))
  }

  /** Creates a prepared directory. */
  function Create(d: Disk, id: nat, n: Name): Disk
    requires id in d.stagings
  {
    var s := d.stagings[id];
    Put(d.(nextIdentity := d.nextIdentity + 1), id, s.(prepared := Some(Prepared(s)[n := d.nextIdentity])))
  }

  // ----- well-formed disks and where recovery leads -----

  /** The entry is at exactly one of two places, and it is the recorded one. */
  predicate OnePlace(here: Entries, there: Entries, e: Named) {
    || (e.name in here && here[e.name] == e.identity && e.name !in there)
    || (e.name !in here && e.name in there && there[e.name] == e.identity)
  }

  function Names(entries: seq<Named>): (names: set<Name>)
    ensures forall n :: n in names <==> exists e :: e in entries && e.name == n
  {
    set e | e in entries :: e.name
  }

  const PROFILE_NAMES: set<Name> := {Global, Guest, Accounts}

  /** What reading the journal accepts: known names only, and a full new profile once committed. */
  predicate Readable(s: Staging) {
    && s.journal.Some?
    && (forall e :: e in s.journal.value.originals ==> IsManaged(e.name))
    && Names(s.journal.value.replacements) <= PROFILE_NAMES
    && (s.journal.value.phase != Precommit ==> Names(s.journal.value.replacements) == PROFILE_NAMES)
    && Saved(s).Keys <= Names(s.journal.value.originals)
    && Prepared(s).Keys <= PROFILE_NAMES
  }

  /** Every entry the journal speaks of is where only an interrupted run can have left it. */
  predicate Unambiguous(root: Entries, s: Staging)
    requires s.journal.Some?
  {
    if s.journal.value.phase == Precommit
    then forall e :: e in s.journal.value.originals ==> OnePlace(root, Saved(s), e)
    else forall e :: e in s.journal.value.replacements ==> OnePlace(root, Prepared(s), e)
  }

  /** An empty directory, or one with the beginning of a first journal only. */
  predicate Unpublished(s: Staging) {
    s.journal == None && s.saved == None && s.prepared == None && s.temporary != Some(OtherContent)
  }

  ghost predicate StagingOk(root: Entries, s: Staging) {
    Unpublished(s) || (Readable(s) && Unambiguous(root, s))
  }

  /** At most one reset directory; an original outside the root has a journal that knows it. */
  ghost predicate DiskOk(d: Disk) {
    && (forall a, b :: a in d.stagings && b in d.stagings ==> a == b)
    && (forall id :: id in d.stagings ==> StagingOk(d.root, d.stagings[id]))
  }

  /** A folder that no journal speaks of any more. */
  predicate Orphan(s: Staging) {
    s.journal == None && s.temporary == None && (s.saved.Some? || s.prepared.Some?)
  }

  /** All that is left of the reset is an orphaned folder. No recovery completes on such a disk. */
  predicate Stranded(d: Disk, id: nat) {
    d.stagings.Keys == {id} && Orphan(d.stagings[id])
  }

  ghost predicate Sound(d: Disk) {
    DiskOk(d) || exists id :: Stranded(d, id)
  }

  /** Where the entries of the root are meant to end: the originals back before the commit, the new
      profile in place after it. */
  function TargetOf(root: Entries, s: Staging): Entries {
    match s.journal
    case None => root
    case Some(j) => if j.phase == Precommit then root + Saved(s) else root + Prepared(s)
  }

  ghost function Target(d: Disk): Entries {
    if id :| id in d.stagings then TargetOf(d.root, d.stagings[id]) else d.root
  }

  lemma TargetAt(d: Disk, id: nat)
    requires DiskOk(d) && id in d.stagings
    ensures Target(d) == TargetOf(d.root, d.stagings[id])
  {
  }

  lemma StrandedIsSettled(d: Disk, id: nat)
    requires Stranded(d, id)
    ensures !DiskOk(d) && Target(d) == d.root && !HasCommitted(d) && !InPrecommit(d)
  {
    assert id in d.stagings;
  }

  lemma AtOnePlace(here: Entries, there: Entries, entries: seq<Named>)
    requires (forall e :: e in entries ==> OnePlace(here, there, e)) && there.Keys <= Names(entries)
    ensures here.Keys !! there.Keys
  {
  }

  /** Nothing of the root is lost on the way to the target. */
  lemma RootInTarget(d: Disk)
    requires DiskOk(d)
    ensures forall n :: n in d.root ==> n in Target(d) && Target(d)[n] == d.root[n]
  {
    if id :| id in d.stagings {
      TargetAt(d, id);
      var s := d.stagings[id];
      if BeforeCommit(s) {
        AtOnePlace(d.root, Saved(s), s.journal.value.originals);
      } else if PastCommit(s) {
        AtOnePlace(d.root, Prepared(s), s.journal.value.replacements);
      }
    }
  }

  predicate BeforeCommit(s: Staging) {
    s.journal.Some? && s.journal.value.phase == Precommit
  }

  predicate PastCommit(s: Staging) {
    s.journal.Some? && s.journal.value.phase != Precommit
  }

  /** Some persisted journal has left the first phase. */
  ghost predicate HasCommitted(d: Disk) {
    exists id :: id in d.stagings && PastCommit(d.stagings[id])
  }

  /** Some persisted journal is still in the first phase. */
  ghost predicate InPrecommit(d: Disk) {
    exists id :: id in d.stagings && BeforeCommit(d.stagings[id])
  }

  /** `after` is `before` with the named entries gone and a new profile in place. */
  ghost predicate Replaced(before: Entries, after: Entries, names: set<Name>) {
    && after.Keys == before.Keys - names + PROFILE_NAMES
    && (forall n :: n in before && n !in names && n !in PROFILE_NAMES ==> after[n] == before[n])
    && (forall n :: n in PROFILE_NAMES ==> after[n] !in before.Values)
  }

  // ----- every call keeps the target -----

  lemma MoveAsideKeeps(d: Disk, id: nat, e: Named)
    requires DiskOk(d) && id in d.stagings && d.stagings[id].journal.Some?
    requires d.stagings[id].journal.value.phase == Precommit && e in d.stagings[id].journal.value.originals
    requires e.name in d.root && d.root[e.name] == e.identity
    ensures DiskOk(MoveAside(d, id, e.name)) && Target(MoveAside(d, id, e.name)) == Target(d)
  {
    var d' := MoveAside(d, id, e.name);
    var s, s' := d.stagings[id], d'.stagings[id];
    var j := s.journal.value;
    forall x | x in j.originals
      ensures OnePlace(d'.root, Saved(s'), x)
    {
      assert OnePlace(d.root, Saved(s), x);
      if x.name == e.name { DistinctIdentities(j.originals, x, e); }
    }
    TargetAt(d, id);
    TargetAt(d', id);
    assert d'.root + Saved(s') == d.root + Saved(s);
  }

  lemma DistinctIdentities(entries: seq<Named>, x: Named, y: Named)
    requires Distinct(entries) && x in entries && y in entries && x.name == y.name
    ensures x == y
  {
    var i :| 0 <= i < |entries| && entries[i] == x;
    var j :| 0 <= j < |entries| && entries[j] == y;
  }

  lemma MoveBackKeeps(d: Disk, id: nat, e: Named)
    requires DiskOk(d) && id in d.stagings && d.stagings[id].journal.Some?
    requires d.stagings[id].journal.value.phase == Precommit && e in d.stagings[id].journal.value.originals
    requires e.name in Saved(d.stagings[id])
    ensures DiskOk(MoveBack(d, id, e.name)) && Target(MoveBack(d, id, e.name)) == Target(d)
  {
    var d' := MoveBack(d, id, e.name);
    var s, s' := d.stagings[id], d'.stagings[id];
    var j := s.journal.value;
    forall x | x in j.originals
      ensures OnePlace(d'.root, Saved(s'), x)
    {
      assert OnePlace(d.root, Saved(s), x);
    }
    TargetAt(d, id);
    TargetAt(d', id);
    assert d'.root + Saved(s') == d.root + Saved(s);
  }

  lemma InstallKeeps(d: Disk, id: nat, e: Named)
    requires DiskOk(d) && id in d.stagings && d.stagings[id].journal.Some?
    requires d.stagings[id].journal.value.phase != Precommit && e in d.stagings[id].journal.value.replacements
    requires e.name in Prepared(d.stagings[id])
    ensures DiskOk(Install(d, id, e.name)) && Target(Install(d, id, e.name)) == Target(d)
  {
    var d' := Install(d, id, e.name);
    var s, s' := d.stagings[id], d'.stagings[id];
    var j := s.journal.value;
    forall x | x in j.replacements
      ensures OnePlace(d'.root, Prepared(s'), x)
    {
      assert OnePlace(d.root, Prepared(s), x);
    }
    TargetAt(d, id);
    TargetAt(d', id);
    assert d'.root + Prepared(s') == d.root + Prepared(s);
  }

  /** Nothing that recovery still has to move is left in the reset directory. */
  ghost predicate NothingToMove(s: Staging) {
    s.journal.Some? && if s.journal.value.phase == Precommit then Saved(s) == map[] else Prepared(s) == map[]
  }

  /** Same journal, and every entry left was there before. */
  ghost predicate Shrinks(s: Staging, s': Staging) {
    && s'.journal == s.journal
    && Saved(s').Keys <= Saved(s).Keys && Prepared(s').Keys <= Prepared(s).Keys
    && (forall n :: n in Saved(s') ==> Saved(s')[n] == Saved(s)[n])
    && (forall n :: n in Prepared(s') ==> Prepared(s')[n] == Prepared(s)[n])
  }

  /** Deleting from a reset directory with nothing left to move keeps the target. */
  lemma ShrinkKeeps(d: Disk, id: nat, s': Staging)
    requires DiskOk(d) && id in d.stagings && NothingToMove(d.stagings[id]) && Shrinks(d.stagings[id], s')
    ensures DiskOk(Put(d, id, s')) && Target(Put(d, id, s')) == Target(d) && NothingToMove(s')
  {
    var s := d.stagings[id];
    var d' := Put(d, id, s');
    if s.journal.value.phase == Precommit {
      assert Saved(s') == map[];
      forall e | e in s.journal.value.originals
        ensures OnePlace(d.root, Saved(s'), e)
      {
        assert OnePlace(d.root, Saved(s), e);
      }
    } else {
      assert Prepared(s') == map[];
      forall e | e in s.journal.value.replacements
        ensures OnePlace(d.root, Prepared(s'), e)
      {
        assert OnePlace(d.root, Prepared(s), e);
      }
    }
    TargetAt(d, id);
    TargetAt(d', id);
  }

  /** A reset directory without journal, saved or prepared entries decides nothing. */
  lemma BlankKeeps(d: Disk, id: nat, s': Staging)
    requires DiskOk(d) && id in d.stagings && Target(d) == d.root
    requires Unpublished(s')
    ensures DiskOk(Put(d, id, s')) && Target(Put(d, id, s')) == Target(d)
    ensures DiskOk(d.(stagings := d.stagings - {id})) && Target(d.(stagings := d.stagings - {id})) == Target(d)
  {
    TargetAt(Put(d, id, s'), id);
  }

  lemma SettledTarget(d: Disk, id: nat)
    requires DiskOk(d) && id in d.stagings && NothingToMove(d.stagings[id])
    ensures Target(d) == d.root
  {
    TargetAt(d, id);
    assert d.root + map[] == d.root;
  }

  /** Until the commit, every original is in the root or set aside under a journal that lists it. */
  lemma UncommittedOriginalsAreKept(d: Disk, n: Name)
    requires DiskOk(d) && !HasCommitted(d) && n in Target(d)
    ensures || (n in d.root && d.root[n] == Target(d)[n])
            || (exists id :: && id in d.stagings && d.stagings[id].journal.Some?
                             && d.stagings[id].journal.value.phase == Precommit
                             && Named(n, Target(d)[n]) in d.stagings[id].journal.value.originals
                             && n in Saved(d.stagings[id]) && Saved(d.stagings[id])[n] == Target(d)[n])
  {
    if id :| id in d.stagings {
      TargetAt(d, id);
      var s := d.stagings[id];
      if n in Saved(s) {
        var e :| e in s.journal.value.originals && e.name == n;
        assert OnePlace(d.root, Saved(s), e);
      }
    }
  }
}
