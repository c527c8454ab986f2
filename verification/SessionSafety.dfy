/** What every step of every thread keeps: who may be authenticated, who is inside which lock. */
module SessionSafety {
  import opened Options
  import opened Sessions
  import opened SessionSystem

  // ----- invariants -----

  ghost predicate ManagerOk(m: Manager) {
    && (m.snapshot.state == Authenticated ==>
          && m.snapshot.session.Some?
          && m.account == Some(m.snapshot.session.value.account)
          && m.snapshot.session.value.account !in m.blocked
          && m.snapshot.session.value.account !in m.revoked)
    && (m.account.Some? && m.account.value in m.revoked ==>
          m.snapshot.state == SignedOut || m.snapshot.state == ReauthRequired)
    && (m.pending.Some? ==>
          && m.account == Some(m.pending.value.account)
          && m.pending.value.account !in m.blocked
          && m.pending.value.account !in m.revoked)
  }

  /** Work that began for the account's login `generation`. */
  predicate TiedTo(m: Manager, a: AccountId, generation: nat) {
    && generation <= m.logoutGeneration
    && (generation == m.logoutGeneration ==> m.account == Some(a) && a !in m.blocked)
  }

  predicate InLogin(act: Activity) {
    act.Stamped? || act.Entered? || act.Checked? || act.Stored?
  }

  predicate InTransaction(act: Activity) {
    act.Entered? || act.Checked? || act.Stored?
  }

  /** A refresh attempt whose outcome is still open. */
  predicate Attempting(act: Activity) {
    act.Locking? || act.Loading? || act.Checking? || act.Calling? || act.Finishing? || act.Failing?
  }

  predicate InRefresh(act: Activity) {
    Attempting(act) || act.Leaving? || act.Releasing?
  }

  /** Inside the refresh lock of its account. */
  predicate Inside(act: Activity) {
    || act.Loading? || act.Checking? || act.Calling? || act.Finishing?
    || (act.Failing? && act.inside)
    || (act.Leaving? && act.inside)
  }

  predicate ActivityOk(m: Manager, act: Activity) {
    && (InLogin(act) ==> act.activation <= m.activationGeneration && act.generation <= m.logoutGeneration)
    && (Attempting(act) || act.Waiting? ==> TiedTo(m, act.account, act.generation))
    && (act.Requesting? ==> act.permission.generation <= m.logoutGeneration)
  }

  /** What holds of every thread: it is in the transaction, in the refresh and in a refresh lock
      exactly when the state says so. */
  ghost predicate ThreadOk(y: System, t: nat) {
    var act := At(y, t);
    && ActivityOk(y.manager, act)
    && (InTransaction(act) <==> (y.transaction.Some? && y.transaction.value.thread == t))
    && (InTransaction(act) ==> y.transaction == Some(Owner(t, act.login.account)))
    && (InRefresh(act) <==> y.refresher == Some(t))
    && (forall a :: a in y.locks && y.locks[a] == Thread(t) <==> Inside(act) && act.account == a)
  }

  /** Only the thread that claimed the refresh is inside it, for the account the manager shows.
      While the attempt belongs to the current login, its account is not revoked. */
  predicate FlightOk(y: System) {
    && (y.manager.refreshing.Some? <==> y.refresher.Some?)
    && (y.refresher.Some? ==>
          var act := At(y, y.refresher.value);
          && InRefresh(act)
          && y.manager.refreshing == Some(act.account)
          && (y.manager.pending.Some? ==> act.Releasing?)
          && (Attempting(act) && act.generation == y.manager.logoutGeneration ==> act.account !in y.manager.revoked))
  }

  ghost predicate PendingHoldsLock(y: System) {
    forall a :: a in y.locks && y.locks[a] == PendingRotation <==>
                y.manager.pending.Some? && y.manager.pending.value.account == a
  }

  predicate RefresherInside(y: System) {
    y.refresher.Some? && Inside(At(y, y.refresher.value))
  }

  /** Every refresh lock entered has been left, or is held now. */
  predicate LocksCounted(y: System) {
    y.entered == y.exited + (if RefresherInside(y) then 1 else 0) + (if y.manager.pending.Some? then 1 else 0)
  }

  ghost predicate SystemOk(y: System) {
    && ManagerOk(y.manager)
    && (forall t: nat :: ThreadOk(y, t))
    && (forall p :: p in y.issued ==> p.generation <= y.manager.logoutGeneration)
    && FlightOk(y)
    && PendingHoldsLock(y)
    && LocksCounted(y)
  }

  // ----- the manager's part of a step -----

  /** A login, logout or account change: the generation moves on, or the account stays as it was. */
  predicate MovesOn(m: Manager, m': Manager) {
    && m.activationGeneration <= m'.activationGeneration
    && m.logoutGeneration <= m'.logoutGeneration
    && (m'.logoutGeneration == m.logoutGeneration ==>
          && m'.account == m.account
          && m'.revoked == m.revoked
          && (m.account.Some? && m.account.value !in m.blocked ==> m.account.value !in m'.blocked))
    && m'.refreshing == m.refreshing
    && m'.pending == m.pending
  }

  lemma ManagerMoves(y: System, m': Manager)
    requires SystemOk(y)
    requires MovesOn(y.manager, m') && ManagerOk(m')
    ensures SystemOk(y.(manager := m'))
  {
    var y' := y.(manager := m');
    forall u: nat ensures ThreadOk(y', u) { assert ThreadOk(y, u); }
    assert y.refresher.Some? ==> ThreadOk(y, y.refresher.value);
  }

  // ----- a thread's part of a step -----

  lemma PlainGoes(y: System, t: nat, act: Activity)
    requires SystemOk(y)
    requires !InTransaction(At(y, t)) && !InRefresh(At(y, t))
    requires !InTransaction(act) && !InRefresh(act) && ActivityOk(y.manager, act)
    ensures SystemOk(Go(y, t, act))
  {
    assert ThreadOk(y, t);
    forall u: nat ensures ThreadOk(Go(y, t, act), u) { assert ThreadOk(y, u); }
  }

  lemma LeaveTransaction(y: System, t: nat)
    requires SystemOk(y)
    requires InTransaction(At(y, t))
    ensures SystemOk(Go(y.(transaction := None), t, Idle))
  {
    assert ThreadOk(y, t);
    forall u: nat ensures ThreadOk(Go(y.(transaction := None), t, Idle), u) { assert ThreadOk(y, u); }
  }

  /** The refreshing thread goes on without entering or leaving its lock. */
  lemma RefreshGoes(y: System, t: nat, act: Activity)
    requires SystemOk(y)
    requires InRefresh(At(y, t)) && InRefresh(act)
    requires Inside(act) == Inside(At(y, t)) && act.account == At(y, t).account
    requires ActivityOk(y.manager, act)
    requires Attempting(act) ==> Attempting(At(y, t)) && act.generation == At(y, t).generation
    requires At(y, t).Releasing? ==> act.Releasing?
    ensures SystemOk(Go(y, t, act))
  {
    assert ThreadOk(y, t);
    forall u: nat ensures ThreadOk(Go(y, t, act), u) { assert ThreadOk(y, u); }
  }

  /** The rotation takes over the refresh lock of its thread. */
  lemma KeepRotation(y: System, t: nat, kept: Rotation)
    requires SystemOk(y)
    requires At(y, t).Failing? && At(y, t).inside && At(y, t).account == kept.account
    requires IsCurrent(y.manager, kept.account, At(y, t).generation)
    ensures SystemOk(Go(y.(manager := y.manager.(pending := Some(kept)),
                           locks := y.locks[kept.account := PendingRotation]), t, Releasing(kept.account)))
  {
    assert ThreadOk(y, t);
    var y' := Go(y.(manager := y.manager.(pending := Some(kept)),
                    locks := y.locks[kept.account := PendingRotation]), t, Releasing(kept.account));
    assert kept.account in y.locks && y.locks[kept.account] == Thread(t);
    forall u: nat ensures ThreadOk(y', u) { assert ThreadOk(y, u); }
  }

  function Discarded(y: System): System {
    Discard(y).(manager := y.manager.(pending := None))
  }

  lemma DiscardKeeps(y: System)
    requires SystemOk(y)
    ensures SystemOk(Discarded(y))
  {
    if y.manager.pending.Some? {
      var a := y.manager.pending.value.account;
      assert a in y.locks && y.locks[a] == PendingRotation;
      forall u: nat ensures ThreadOk(Discarded(y), u) { assert ThreadOk(y, u); }
    }
  }

  /** The claim fits the state it was decided in. */
  predicate Sensible(m: Manager, a: AccountId, c: Claim) {
    match c
    case Answer(_) => true
    case WaitFor(generation, _) => TiedTo(m, a, generation)
    case Claimed(generation, pending) =>
      && m.refreshing == None
      && pending == m.pending
      && generation == m.logoutGeneration
      && IsCurrent(m, a, generation)
      && m.snapshot.state != SignedOut && m.snapshot.state != ReauthRequired
  }

  lemma AnsweredKeeps(y: System, t: nat, c: Claim, a: AccountId)
    requires SystemOk(y)
    requires At(y, t).Syncing? || At(y, t).Waiting?
    requires Sensible(y.manager, a, c)
    ensures SystemOk(Answered(y, t, c, a))
  {
    assert ThreadOk(y, t);
    var y' := Answered(y, t, c, a);
    if c.Claimed? && c.pending.Some? {
      TakePendingKeeps(y, t, c, a);
    } else {
      forall u: nat ensures ThreadOk(y', u) { assert ThreadOk(y, u); }
    }
  }

  lemma TakePendingKeeps(y: System, t: nat, c: Claim, a: AccountId)
    requires SystemOk(y)
    requires At(y, t).Syncing? || At(y, t).Waiting?
    requires Sensible(y.manager, a, c) && c.Claimed? && c.pending.Some?
    ensures SystemOk(Answered(y, t, c, a))
  {
    assert ThreadOk(y, t);
    var y' := Answered(y, t, c, a);
    assert c.pending.value.account == a;
    assert a in y.locks && y.locks[a] == PendingRotation;
    forall u: nat ensures ThreadOk(y', u) {
      assert ThreadOk(y, u);
    }
  }

  lemma BeginActivateKeeps(y: System, t: nat, login: Session)
    requires SystemOk(y)
    ensures SystemOk(BeginActivate(y, t, login))
  {
    assert ThreadOk(y, t);
    forall u: nat ensures ThreadOk(BeginActivate(y, t, login), u) { assert ThreadOk(y, u); }
  }

  lemma EnterStoreKeeps(y: System, t: nat, works: bool)
    requires SystemOk(y)
    ensures SystemOk(EnterStore(y, t, works))
  {
    assert ThreadOk(y, t);
    forall u: nat ensures ThreadOk(EnterStore(y, t, works), u) { assert ThreadOk(y, u); }
  }

  lemma CheckActivationKeeps(y: System, t: nat)
    requires SystemOk(y)
    ensures SystemOk(CheckActivation(y, t))
  {
    assert ThreadOk(y, t);
    forall u: nat ensures ThreadOk(CheckActivation(y, t), u) { assert ThreadOk(y, u); }
  }

  lemma StoreTokenKeeps(y: System, t: nat, works: bool)
    requires SystemOk(y)
    ensures SystemOk(StoreToken(y, t, works))
  {
    assert ThreadOk(y, t);
    forall u: nat ensures ThreadOk(StoreToken(y, t, works), u) { assert ThreadOk(y, u); }
  }

  lemma CommitLoginKeeps(y: System, t: nat)
    requires SystemOk(y)
    ensures SystemOk(CommitLogin(y, t))
  {
    if At(y, t).Stored? {
      var left := Go(y.(transaction := None), t, Idle);
      LeaveTransaction(y, t);
      if ActivationCurrent(y.manager, At(y, t).activation, At(y, t).generation) {
        DiscardKeeps(left);
        ManagerMoves(Discarded(left), CommitActivation(y.manager, At(y, t).login));
        assert CommitLogin(y, t) == Discarded(left).(manager := CommitActivation(y.manager, At(y, t).login));
      }
    }
  }

  lemma SelectKeeps(y: System, a: AccountId)
    requires SystemOk(y) && y.manager.account != Some(a) && a !in y.manager.blocked && a !in y.manager.revoked
    ensures SystemOk(Discarded(y).(manager := SelectAccount(y.manager, a)))
  {
    DiscardKeeps(y);
    ManagerMoves(Discarded(y), SelectAccount(y.manager, a));
  }

  lemma BeginSyncKeeps(y: System, t: nat, a: AccountId, rejected: Option<Token>, expected: Option<nat>)
    requires SystemOk(y)
    ensures SystemOk(BeginSync(y, t, a, rejected, expected))
  {
    assert ThreadOk(y, t);
    forall u: nat ensures ThreadOk(BeginSync(y, t, a, rejected, expected), u) { assert ThreadOk(y, u); }
  }

  lemma RestoreKeeps(y: System, t: nat, a: AccountId)
    requires SystemOk(y)
    ensures SystemOk(Restore(y, t, a))
  {
    if At(y, t) == Idle && a !in y.manager.blocked && a !in y.manager.revoked {
      if y.manager.account == Some(a) {
        BeginSyncKeeps(y, t, a, None, None);
      } else {
        SelectKeeps(y, a);
        BeginSyncKeeps(Discarded(y).(manager := SelectAccount(y.manager, a)), t, a, None, None);
      }
    }
  }

  lemma AskKeeps(y: System, t: nat, now: nat)
    requires SystemOk(y)
    ensures SystemOk(Ask(y, t, now))
  {
    assert ThreadOk(y, t);
    match At(y, t)
    case Syncing(a, rejected, expected) =>
      AnsweredKeeps(y, t, RequestRefresh(y.manager, a, rejected, expected, now), a);
    case _ =>
  }

  lemma WakeKeeps(y: System, t: nat, now: nat)
    requires SystemOk(y)
    ensures SystemOk(Wake(y, t, now))
  {
    assert ThreadOk(y, t);
    match At(y, t)
    case Waiting(a, generation, same) =>
      if y.manager.refreshing == None || y.manager.logoutGeneration != generation {
        AnsweredKeeps(y, t, AfterWait(y.manager, generation, same, now), a);
      }
    case _ =>
  }

  lemma EnterRefreshLockKeeps(y: System, t: nat, works: bool)
    requires SystemOk(y)
    ensures SystemOk(EnterRefreshLock(y, t, works))
  {
    assert ThreadOk(y, t);
    forall u: nat ensures ThreadOk(EnterRefreshLock(y, t, works), u) { assert ThreadOk(y, u); }
  }

  lemma LoadKeeps(y: System, t: nat, works: bool)
    requires SystemOk(y)
    ensures SystemOk(Load(y, t, works))
  {
    assert ThreadOk(y, t);
    forall u: nat ensures ThreadOk(Load(y, t, works), u) { assert ThreadOk(y, u); }
  }

  lemma CheckKeeps(y: System, t: nat)
    requires SystemOk(y)
    ensures SystemOk(Check(y, t))
  {
    assert ThreadOk(y, t);
    match At(y, t)
    case Checking(a, generation, token, kept) =>
      var m := CheckToken(y.manager, a, generation, token).0;
      ManagerMoves(y, m);
      RefreshGoes(y.(manager := m), t, At(Check(y, t), t));
    case _ =>
  }

  lemma CallKeeps(y: System, t: nat, reply: Option<Reply>)
    requires SystemOk(y)
    ensures SystemOk(Call(y, t, reply))
  {
    assert ThreadOk(y, t);
    forall u: nat ensures ThreadOk(Call(y, t, reply), u) { assert ThreadOk(y, u); }
  }

  lemma FinalizeKeeps(y: System, t: nat, works: bool, deleteWorks: bool, retryAt: nat)
    requires SystemOk(y)
    ensures SystemOk(Finalize(y, t, works, deleteWorks, retryAt))
  {
    assert ThreadOk(y, t);
    forall u: nat ensures ThreadOk(Finalize(y, t, works, deleteWorks, retryAt), u) { assert ThreadOk(y, u); }
  }

  lemma FailKeeps(y: System, t: nat, retryAt: nat)
    requires SystemOk(y)
    ensures SystemOk(Fail(y, t, retryAt))
  {
    assert ThreadOk(y, t);
    match At(y, t)
    case Failing(a, generation, token, kept, inside) =>
      if IsCurrent(y.manager, a, generation) {
        ManagerMoves(y, GoOffline(y.manager, retryAt));
      }
      var (m, keeps) := FailRefresh(y.manager, a, generation, token, if inside then kept else None, retryAt);
      if keeps {
        KeepRotation(y.(manager := GoOffline(y.manager, retryAt)), t, m.pending.value);
      } else {
        RefreshGoes(y.(manager := m), t, Leaving(a, inside));
      }
    case _ =>
  }

  lemma LeaveKeeps(y: System, t: nat)
    requires SystemOk(y)
    ensures SystemOk(Leave(y, t))
  {
    assert ThreadOk(y, t);
    forall u: nat ensures ThreadOk(Leave(y, t), u) { assert ThreadOk(y, u); }
  }

  lemma ReleaseKeeps(y: System, t: nat)
    requires SystemOk(y)
    ensures SystemOk(Release(y, t))
  {
    assert ThreadOk(y, t);
    forall u: nat ensures ThreadOk(Release(y, t), u) { assert ThreadOk(y, u); }
  }

  lemma LogoutKeeps(y: System, t: nat, a: AccountId)
    requires SystemOk(y)
    ensures SystemOk(Logout(y, t, a))
  {
    if At(y, t) == Idle {
      var left := if y.manager.account == Some(a) then Discarded(y) else y;
      DiscardKeeps(y);
      ManagerMoves(left, EndSession(y.manager, a));
      PlainGoes(left.(manager := EndSession(y.manager, a)), t, Deleting(a));
    }
  }

  lemma DeleteTokenKeeps(y: System, t: nat, works: bool)
    requires SystemOk(y)
    ensures SystemOk(DeleteToken(y, t, works))
  {
    assert ThreadOk(y, t);
    forall u: nat ensures ThreadOk(DeleteToken(y, t, works), u) { assert ThreadOk(y, u); }
  }

  lemma IssueKeeps(y: System, a: AccountId, generation: nat, shown: Snapshot)
    requires SystemOk(y)
    ensures SystemOk(Issue(y, a, generation, shown))
  {
    forall u: nat ensures ThreadOk(Issue(y, a, generation, shown), u) { assert ThreadOk(y, u); }
  }

  lemma StartRequestKeeps(y: System, t: nat, p: Permission)
    requires SystemOk(y)
    ensures SystemOk(StartRequest(y, t, p))
  {
    assert ThreadOk(y, t);
    forall u: nat ensures ThreadOk(StartRequest(y, t, p), u) { assert ThreadOk(y, u); }
  }

  lemma EndRequestKeeps(y: System, t: nat)
    requires SystemOk(y)
    ensures SystemOk(EndRequest(y, t))
  {
    assert ThreadOk(y, t);
    forall u: nat ensures ThreadOk(EndRequest(y, t), u) { assert ThreadOk(y, u); }
  }

  lemma OthersKeep(y: System, a: AccountId, token: Option<Token>, enters: bool)
    requires SystemOk(y)
    ensures SystemOk(OtherStores(y, a, token))
    ensures SystemOk(OtherLocks(y, a, enters))
  {
    OtherStoresKeeps(y, a, token);
    OtherLocksKeeps(y, a, enters);
  }

  lemma OtherStoresKeeps(y: System, a: AccountId, token: Option<Token>)
    requires SystemOk(y)
    ensures SystemOk(OtherStores(y, a, token))
  {
    forall u: nat ensures ThreadOk(OtherStores(y, a, token), u) { assert ThreadOk(y, u); }
  }

  lemma OtherLocksKeeps(y: System, a: AccountId, enters: bool)
    requires SystemOk(y)
    ensures SystemOk(OtherLocks(y, a, enters))
  {
    forall u: nat ensures ThreadOk(OtherLocks(y, a, enters), u) { assert ThreadOk(y, u); }
  }
}
