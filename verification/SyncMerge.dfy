/** What the three-way merge promises. */
module SyncMerge {
  import opened Options
  import opened SyncTypes

  /** `m` keeps every edit of both sides: each side's changed fields, and the base elsewhere. */
  ghost predicate KeepsEdits(base: Payload, local: Payload, remote: Payload, m: Payload) {
    forall f: Field ::
      && (f in ChangedFields(base, local) ==> Equivalent(f, m[f], local[f]))
      && (f in ChangedFields(base, remote) ==> Equivalent(f, m[f], remote[f]))
      && (f !in ChangedFields(base, local) && f !in ChangedFields(base, remote) ==> Equivalent(f, m[f], base[f]))
  }

  /** The record a row holds after a decision that is not a conflict. */
  function Outcome(d: Decision, remote: Payload): Payload
    requires !d.Conflicting?
  {
    if d.Rebased? then d.merged else remote
  }

  /** A merge without conflict keeps every edit of both sides, and never puts a deletion next
      to the other side's field edit. */
  lemma MergeLosesNoEdit(base: Payload, local: Payload, remote: Payload)
    requires !Decide(Some(base), local, remote).Conflicting?
    ensures KeepsEdits(base, local, remote, Outcome(Decide(Some(base), local, remote), remote))
    ensures DELETED_AT in ChangedFields(base, remote) ==> ChangedFields(base, local) <= {DELETED_AT}
    ensures DELETED_AT in ChangedFields(base, local) ==> ChangedFields(base, remote) <= {DELETED_AT}
  {
    var d := Decide(Some(base), local, remote);
    var localChanges := ChangedFields(base, local);
    var remoteChanges := ChangedFields(base, remote);
    assert localChanges - {DELETED_AT} == {} ==> localChanges <= {DELETED_AT};
    assert remoteChanges - {DELETED_AT} == {} ==> remoteChanges <= {DELETED_AT};
    var merged := Overlay(remote, local, localChanges);
    assert KeepsEdits(base, local, remote, merged);
  }

  /** The merge reports a conflict exactly when no record keeps both sides' edits, or a deletion
      (or restoration) met an edit of another field. */
  lemma ConflictExactlyWhenUnmergeable(base: Payload, local: Payload, remote: Payload)
    ensures Decide(Some(base), local, remote).Conflicting? <==>
            || (forall m: Payload :: !KeepsEdits(base, local, remote, m))
            || DeleteEditConflict(ChangedFields(base, local), ChangedFields(base, remote))
  {
    var localChanges := ChangedFields(base, local);
    var remoteChanges := ChangedFields(base, remote);
    if !Decide(Some(base), local, remote).Conflicting? {
      MergeLosesNoEdit(base, local, remote);
    } else if !DeleteEditConflict(localChanges, remoteChanges) {
      var f: Field :| && !Equivalent(f, base[f], local[f]) && !Equivalent(f, base[f], remote[f])
                      && !Equivalent(f, local[f], remote[f]);
      forall m: Payload
        ensures !KeepsEdits(base, local, remote, m)
      {
        assert !(Equivalent(f, m[f], local[f]) && Equivalent(f, m[f], remote[f]));
      }
    }
  }

  /** Both sides' edits determine the merged record up to the time of a deletion. */
  lemma MergeIsUnique(base: Payload, local: Payload, remote: Payload, m: Payload, m': Payload)
    requires KeepsEdits(base, local, remote, m) && KeepsEdits(base, local, remote, m')
    ensures AllEquivalent(m, m')
  {
    forall f: Field
      ensures Equivalent(f, m[f], m'[f])
    {
      if f in ChangedFields(base, local) {
      } else if f in ChangedFields(base, remote) {
      }
    }
  }

  /** Swapping the two sides never turns a merge into a conflict, and both devices end with
      equivalent records. */
  lemma MergeIsSymmetric(base: Payload, local: Payload, remote: Payload)
    ensures Decide(Some(base), local, remote).Conflicting? == Decide(Some(base), remote, local).Conflicting?
    ensures !Decide(Some(base), local, remote).Conflicting? ==>
              AllEquivalent(Outcome(Decide(Some(base), local, remote), remote),
                            Outcome(Decide(Some(base), remote, local), local))
  {
    var localChanges := ChangedFields(base, local);
    var remoteChanges := ChangedFields(base, remote);
    assert forall f: Field :: Equivalent(f, local[f], remote[f]) == Equivalent(f, remote[f], local[f]);
    if !Decide(Some(base), local, remote).Conflicting? {
      MergeLosesNoEdit(base, local, remote);
      MergeLosesNoEdit(base, remote, local);
      var m := Outcome(Decide(Some(base), local, remote), remote);
      var m' := Outcome(Decide(Some(base), remote, local), local);
      assert KeepsEdits(base, local, remote, m');
      MergeIsUnique(base, local, remote, m, m');
    }
  }

  /** Rebasing on the same remote record again changes nothing. */
  lemma RebaseIsStable(base: Payload, local: Payload, remote: Payload)
    requires Decide(Some(base), local, remote).Rebased?
    ensures var merged := Decide(Some(base), local, remote).merged;
            && Decide(Some(remote), merged, remote) == Rebased(merged)
            && Deleted(merged) == Deleted(local)
            && ResolutionOperation(merged, remote) == ResolutionOperation(local, remote)
  {
    MergeLosesNoEdit(base, local, remote);
    var merged := Decide(Some(base), local, remote).merged;
    var localChanges := ChangedFields(base, local);
    var kept := ChangedFields(remote, merged);
    assert ChangedFields(remote, remote) == {};
    assert ChangedFields(remote, remote) - {DELETED_AT} == {};
    assert kept != {} by {
      var f: Field :| !Equivalent(f, merged[f], remote[f]);
      assert f in kept;
    }
    var again := Overlay(remote, merged, kept);
    assert !(DELETED_AT in localChanges && DELETED_AT in ChangedFields(base, remote));
    assert forall f: Field :: again[f] == merged[f];
    assert again == merged;
    assert exists f: Field :: !Equivalent(f, merged[f], remote[f]);
    assert !AllEquivalent(merged, remote);
  }
}
