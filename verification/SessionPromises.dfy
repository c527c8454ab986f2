/** What the session manager promises in every run. */
module SessionPromises {
  import opened Options
  import opened Sessions
  import opened SessionSystem
  import opened SessionSafety

  // ----- runs -----

  lemma StepKeeps(y: System, s: Step)
    requires SystemOk(y)
    ensures SystemOk(Next(y, s))
  {
    match s
    case Login(l) => LoginStepKeeps(y, l);
    case Asking(k) => AskingStepKeeps(y, k);
    case Refresh(r) => RefreshStepKeeps(y, r);
    case Other(o) => OtherStepKeeps(y, o);
  }

  lemma LoginStepKeeps(y: System, s: LoginStep)
    requires SystemOk(y)
    ensures SystemOk(NextLogin(y, s))
  {
    match s
    case BeginActivateStep(t, login) => BeginActivateKeeps(y, t, login);
    case EnterStoreStep(t, works) => EnterStoreKeeps(y, t, works);
    case CheckActivationStep(t) => CheckActivationKeeps(y, t);
    case StoreTokenStep(t, works) => StoreTokenKeeps(y, t, works);
    case CommitLoginStep(t) => CommitLoginKeeps(y, t);
  }

  lemma AskingStepKeeps(y: System, s: AskingStep)
    requires SystemOk(y)
    ensures SystemOk(NextAsking(y, s))
  {
    match s
    case RestoreStep(t, a) => RestoreKeeps(y, t, a);
    case BeginSyncStep(t, a, rejected, expected) => BeginSyncKeeps(y, t, a, rejected, expected);
    case AskStep(t, now) => AskKeeps(y, t, now);
    case WakeStep(t, now) => WakeKeeps(y, t, now);
  }

  lemma RefreshStepKeeps(y: System, s: RefreshStep)
    requires SystemOk(y)
    ensures SystemOk(NextRefresh(y, s))
  {
    match s
    case EnterRefreshLockStep(t, works) => EnterRefreshLockKeeps(y, t, works);
    case LoadStep(t, works) => LoadKeeps(y, t, works);
    case CheckStep(t) => CheckKeeps(y, t);
    case CallStep(t, reply) => CallKeeps(y, t, reply);
    case FinalizeStep(t, works, deleteWorks, retryAt) => FinalizeKeeps(y, t, works, deleteWorks, retryAt);
    case FailStep(t, retryAt) => FailKeeps(y, t, retryAt);
    case LeaveStep(t) => LeaveKeeps(y, t);
    case ReleaseStep(t) => ReleaseKeeps(y, t);
  }

  lemma OtherStepKeeps(y: System, s: OtherStep)
    requires SystemOk(y)
    ensures SystemOk(NextOther(y, s))
  {
    match s
    case LogoutStep(t, a) => LogoutKeeps(y, t, a);
    case DeleteTokenStep(t, works) => DeleteTokenKeeps(y, t, works);
    case IssueStep(a, generation, shown) => IssueKeeps(y, a, generation, shown);
    case StartRequestStep(t, p) => StartRequestKeeps(y, t, p);
    case EndRequestStep(t) => EndRequestKeeps(y, t);
    case OtherStoresStep(a, token) => OthersKeep(y, a, token, false);
    case OtherLocksStep(a, enters) => OthersKeep(y, a, None, enters);
  }

  lemma {:induction false} RunKeeps(y: System, steps: seq<Step>)
    requires SystemOk(y)
    ensures SystemOk(Run(y, steps))
  {
    if steps != [] {
      RunKeeps(y, steps[..|steps| - 1]);
      StepKeeps(Run(y, steps[..|steps| - 1]), steps[|steps| - 1]);
    }
  }

  lemma {:induction false} ReachableOk(steps: seq<Step>)
    ensures SystemOk(Run(START, steps))
  {
    forall t: nat ensures ThreadOk(START, t) { assert At(START, t) == Idle; }
    RunKeeps(START, steps);
  }

  // ----- who is authenticated, and who refreshes -----

  /** In every run: the authenticated session is of the current account, which is neither logged
      out nor revoked. */
  lemma {:induction false} AuthenticatedIsEntitled(steps: seq<Step>)
    ensures var m := Run(START, steps).manager;
            m.snapshot.state == Authenticated ==>
              && m.snapshot.session.Some?
              && IsCurrent(m, m.snapshot.session.value.account, m.logoutGeneration)
              && m.snapshot.session.value.account !in m.revoked
  {
    ReachableOk(steps);
  }

  /** In every run: one thread at most is inside a refresh, the refresh locks this process holds
      are those of a running attempt or of a kept rotation, and all others have been left. */
  lemma {:induction false} RefreshIsSingle(steps: seq<Step>, t: nat, u: nat, a: AccountId)
    ensures var y := Run(START, steps);
            && (InRefresh(At(y, t)) && InRefresh(At(y, u)) ==> t == u)
            && (a in y.locks && y.locks[a] == Thread(t) <==> Inside(At(y, t)) && At(y, t).account == a)
            && (a in y.locks && y.locks[a] == PendingRotation <==>
                  y.manager.pending.Some? && y.manager.pending.value.account == a)
            && y.entered - y.exited ==
               (if RefresherInside(y) then 1 else 0) + (if y.manager.pending.Some? then 1 else 0)
            && y.entered - y.exited <= 1
  {
    ReachableOk(steps);
    var y := Run(START, steps);
    assert ThreadOk(y, t) && ThreadOk(y, u);
  }

  // ----- generations -----

  /** The manager only moves on: a new generation, or the same account and no fewer logged out. */
  predicate Advances(m: Manager, m': Manager) {
    && m.activationGeneration <= m'.activationGeneration
    && m.logoutGeneration <= m'.logoutGeneration
    && (m.logoutGeneration == m'.logoutGeneration ==> m.account == m'.account && m.blocked <= m'.blocked)
  }

  lemma LoginAdvances(y: System, s: LoginStep)
    ensures Advances(y.manager, NextLogin(y, s).manager)
  {
  }

  lemma AnsweredAdvances(y: System, t: nat, c: Claim, a: AccountId)
    ensures Advances(y.manager, Answered(y, t, c, a).manager)
  {
  }

  lemma AskingAdvances(y: System, s: AskingStep)
    ensures Advances(y.manager, NextAsking(y, s).manager)
  {
    match s
    case RestoreStep(_, _) =>
    case BeginSyncStep(_, _, _, _) =>
    case AskStep(t, now) => AskAnswers(y, t, now);
    case WakeStep(t, now) => WakeAnswers(y, t, now);
  }

  /** A caller that asks, or wakes from waiting, gets an answer, or nothing happens. */
  lemma AskAnswers(y: System, t: nat, now: nat)
    ensures Ask(y, t, now) == y || exists c, a :: Ask(y, t, now) == Answered(y, t, c, a)
    ensures Advances(y.manager, Ask(y, t, now).manager)
  {
    match At(y, t)
    case Syncing(a, rejected, expected) =>
      AnsweredAdvances(y, t, RequestRefresh(y.manager, a, rejected, expected, now), a);
    case _ =>
  }

  lemma WakeAnswers(y: System, t: nat, now: nat)
    ensures Wake(y, t, now) == y || exists c, a :: Wake(y, t, now) == Answered(y, t, c, a)
    ensures Advances(y.manager, Wake(y, t, now).manager)
  {
    match At(y, t)
    case Waiting(a, generation, same) =>
      AnsweredAdvances(y, t, AfterWait(y.manager, generation, same, now), a);
    case _ =>
  }

  lemma RefreshAdvances(y: System, s: RefreshStep)
    ensures Advances(y.manager, NextRefresh(y, s).manager)
  {
    match s
    case FinalizeStep(t, works, deleteWorks, retryAt) => FinalizeAdvances(y, t, works, deleteWorks, retryAt);
    case FailStep(t, retryAt) => FailAdvances(y, t, retryAt);
    case _ =>
  }

  lemma FinalizeAdvances(y: System, t: nat, works: bool, deleteWorks: bool, retryAt: nat)
    ensures Advances(y.manager, Finalize(y, t, works, deleteWorks, retryAt).manager)
  {
  }

  lemma FailAdvances(y: System, t: nat, retryAt: nat)
    ensures Advances(y.manager, Fail(y, t, retryAt).manager)
  {
  }

  lemma OtherAdvances(y: System, s: OtherStep)
    ensures Advances(y.manager, NextOther(y, s).manager)
  {
  }

  lemma StepAdvances(y: System, s: Step)
    ensures Advances(y.manager, Next(y, s).manager)
  {
    match s
    case Login(l) => LoginAdvances(y, l);
    case Asking(k) => AskingAdvances(y, k);
    case Refresh(r) => RefreshAdvances(y, r);
    case Other(o) => OtherAdvances(y, o);
  }

  lemma {:induction false} RunAdvances(y: System, steps: seq<Step>)
    ensures Advances(y.manager, Run(y, steps).manager)
  {
    if steps != [] {
      RunAdvances(y, steps[..|steps| - 1]);
      StepAdvances(Run(y, steps[..|steps| - 1]), steps[|steps| - 1]);
    }
  }

  // ----- permissions -----

  /** A permission is issued for the current login only, with the token of the session shown. */
  lemma IssuedIsCurrent(y: System, a: AccountId, generation: nat, shown: Snapshot, p: Permission)
    requires SystemOk(y)
    requires p in Issue(y, a, generation, shown).issued && p !in y.issued
    ensures Admits(y.manager, p)
    ensures y.manager.snapshot.session.value == Session(p.account, p.access, y.manager.snapshot.session.value.refresh)
  {
  }

  function Uses(results: seq<Permission>, p: Permission): nat {
    multiset(results)[p]
  }

  lemma LoginReturns(y: System, s: LoginStep)
    ensures NextLogin(y, s).results == y.results
  {
  }

  lemma AskingReturns(y: System, s: AskingStep)
    ensures NextAsking(y, s).results == y.results
  {
  }

  lemma RefreshReturns(y: System, s: RefreshStep)
    ensures NextRefresh(y, s).results == y.results
  {
  }

  lemma OtherReturns(y: System, s: OtherStep, p: Permission)
    requires !IsCurrent(y.manager, p.account, p.generation)
    ensures Uses(NextOther(y, s).results, p) == Uses(y.results, p)
  {
  }

  lemma NoNewResult(y: System, s: Step, p: Permission)
    requires !IsCurrent(y.manager, p.account, p.generation)
    ensures Uses(Next(y, s).results, p) == Uses(y.results, p)
  {
    match s
    case Login(l) => LoginReturns(y, l);
    case Asking(k) => AskingReturns(y, k);
    case Refresh(r) => RefreshReturns(y, r);
    case Other(o) => OtherReturns(y, o, p);
  }

  /** Once the login of an issued permission is over, it never admits anything again, and no
      request result is returned under it. */
  lemma {:induction false} PermissionsDie(y: System, p: Permission, steps: seq<Step>)
    requires SystemOk(y) && p in y.issued
    requires !IsCurrent(y.manager, p.account, p.generation)
    ensures !IsCurrent(Run(y, steps).manager, p.account, p.generation)
    ensures !Admits(Run(y, steps).manager, p)
    ensures Uses(Run(y, steps).results, p) == Uses(y.results, p)
  {
    RunAdvances(y, steps);
    if steps != [] {
      PermissionsDie(y, p, steps[..|steps| - 1]);
      NoNewResult(Run(y, steps[..|steps| - 1]), steps[|steps| - 1], p);
    }
  }

  // ----- logout -----

  /** Logged out, and every login of the account that is still on its way came before. */
  ghost predicate Ended(y: System, a: AccountId) {
    && a in y.manager.blocked
    && (forall t: nat :: InLogin(At(y, t)) && At(y, t).login.account == a ==>
          At(y, t).activation < y.manager.activationGeneration)
  }

  /** Besides, no token is stored, nor will one be by a login past its check. */
  ghost predicate Gone(y: System, a: AccountId) {
    && Ended(y, a)
    && a !in y.tokens
    && (forall t: nat :: PastCheck(At(y, t)) ==> At(y, t).login.account != a)
  }

  predicate LogsIn(s: Step, a: AccountId) {
    s.Login? && s.login.BeginActivateStep? && s.login.session.account == a
  }

  predicate OtherWindowSaves(s: Step, a: AccountId) {
    s.Other? && s.other.OtherStoresStep? && s.other.account == a && s.other.token.Some?
  }

  predicate SameLogin(act: Activity, act': Activity) {
    InLogin(act) && InLogin(act') && act.login == act'.login && act.activation == act'.activation
  }

  predicate PastCheck(act: Activity) {
    act.Checked? || act.Stored?
  }

  /** A login under way was under way before, unless it begins now; it passes its check only when
      it is the newest. */
  predicate Traced(m: Manager, act: Activity, act': Activity) {
    && (InLogin(act') ==> SameLogin(act, act'))
    && (PastCheck(act') ==> PastCheck(act) || act'.activation == m.activationGeneration)
  }

  lemma LoginTraced(y: System, s: LoginStep, t: nat, a: AccountId)
    requires !LogsIn(Login(s), a)
    ensures InLogin(At(NextLogin(y, s), t)) && At(NextLogin(y, s), t).login.account == a ==>
              Traced(y.manager, At(y, t), At(NextLogin(y, s), t))
  {
  }

  lemma RestoreTraced(y: System, u: nat, a: AccountId, t: nat)
    ensures Traced(y.manager, At(y, t), At(Restore(y, u, a), t))
    ensures Restore(y, u, a).tokens == y.tokens
  {
  }

  lemma AnsweredTraced(y: System, u: nat, c: Claim, a: AccountId, t: nat)
    ensures Traced(y.manager, At(y, t), At(Answered(y, u, c, a), t))
    ensures Answered(y, u, c, a).tokens == y.tokens
  {
  }

  lemma AskTraced(y: System, u: nat, now: nat, t: nat)
    ensures Traced(y.manager, At(y, t), At(Ask(y, u, now), t))
    ensures Ask(y, u, now).tokens == y.tokens
  {
    match At(y, u)
    case Syncing(a, rejected, expected) =>
      AnsweredTraced(y, u, RequestRefresh(y.manager, a, rejected, expected, now), a, t);
    case _ =>
  }

  lemma WakeTraced(y: System, u: nat, now: nat, t: nat)
    ensures Traced(y.manager, At(y, t), At(Wake(y, u, now), t))
    ensures Wake(y, u, now).tokens == y.tokens
  {
    match At(y, u)
    case Waiting(a, generation, same) => AnsweredTraced(y, u, AfterWait(y.manager, generation, same, now), a, t);
    case _ =>
  }

  lemma AskingTraced(y: System, s: AskingStep, t: nat)
    ensures Traced(y.manager, At(y, t), At(NextAsking(y, s), t))
    ensures NextAsking(y, s).tokens == y.tokens
  {
    match s
    case RestoreStep(u, a) => RestoreTraced(y, u, a, t);
    case BeginSyncStep(_, _, _, _) =>
    case AskStep(u, now) => AskTraced(y, u, now, t);
    case WakeStep(u, now) => WakeTraced(y, u, now, t);
  }

  lemma RefreshTraced(y: System, s: RefreshStep, t: nat)
    ensures Traced(y.manager, At(y, t), At(NextRefresh(y, s), t))
  {
  }

  lemma OtherTraced(y: System, s: OtherStep, t: nat)
    ensures Traced(y.manager, At(y, t), At(NextOther(y, s), t))
  {
  }

  lemma StepTraced(y: System, s: Step, t: nat, a: AccountId)
    requires !LogsIn(s, a)
    ensures InLogin(At(Next(y, s), t)) && At(Next(y, s), t).login.account == a ==>
              Traced(y.manager, At(y, t), At(Next(y, s), t))
  {
    match s
    case Login(l) => LoginTraced(y, l, t, a);
    case Asking(k) => AskingTraced(y, k, t);
    case Refresh(r) => RefreshTraced(y, r, t);
    case Other(o) => OtherTraced(y, o, t);
  }

  /** A refresh only replaces a token that is stored; only a login past its check stores one where
      there is none. */
  lemma RefreshStores(y: System, s: RefreshStep)
    ensures NextRefresh(y, s).tokens.Keys <= y.tokens.Keys
  {
  }

  lemma LoginStores(y: System, s: LoginStep, a: AccountId)
    requires a in NextLogin(y, s).tokens && a !in y.tokens
    ensures PastCheck(At(y, s.t)) && At(y, s.t).login.account == a
  {
  }

  lemma BlockedStays(y: System, s: Step, a: AccountId)
    requires a in y.manager.blocked && a !in Next(y, s).manager.blocked
    ensures s.Login? && PastCheck(At(y, s.login.t)) && At(y, s.login.t).login.account == a
    ensures At(y, s.login.t).activation == y.manager.activationGeneration
  {
    match s
    case Login(l) =>
    case Asking(k) => AskingBlocks(y, k);
    case Refresh(r) => RefreshBlocks(y, r);
    case Other(o) =>
  }

  lemma AskingBlocks(y: System, s: AskingStep)
    ensures NextAsking(y, s).manager.blocked == y.manager.blocked
  {
  }

  lemma RefreshBlocks(y: System, s: RefreshStep)
    ensures NextRefresh(y, s).manager.blocked == y.manager.blocked
  {
  }

  lemma StepStaysEnded(y: System, s: Step, a: AccountId)
    requires SystemOk(y) && Ended(y, a) && !LogsIn(s, a)
    ensures Ended(Next(y, s), a)
  {
    var y' := Next(y, s);
    StepAdvances(y, s);
    if a !in y'.manager.blocked {
      BlockedStays(y, s, a);
    }
    forall t: nat | InLogin(At(y', t)) && At(y', t).login.account == a
      ensures At(y', t).activation < y'.manager.activationGeneration
    {
      StepTraced(y, s, t, a);
    }
  }

  lemma StoresNothing(y: System, s: Step, a: AccountId)
    requires Gone(y, a) && !OtherWindowSaves(s, a)
    ensures a !in Next(y, s).tokens
  {
    if a in Next(y, s).tokens {
      match s
      case Login(l) => LoginStores(y, l, a);
      case Asking(k) => AskingTraced(y, k, k.t);
      case Refresh(r) => RefreshStores(y, r);
      case Other(o) =>
    }
  }

  lemma StepStaysGone(y: System, s: Step, a: AccountId)
    requires SystemOk(y) && Gone(y, a) && !LogsIn(s, a) && !OtherWindowSaves(s, a)
    ensures Gone(Next(y, s), a)
  {
    var y' := Next(y, s);
    StepStaysEnded(y, s, a);
    StoresNothing(y, s, a);
    forall t: nat | PastCheck(At(y', t)) ensures At(y', t).login.account != a {
      StepTraced(y, s, t, a);
    }
  }

  lemma {:induction false} RunStaysEnded(y: System, steps: seq<Step>, a: AccountId)
    requires SystemOk(y) && Ended(y, a)
    requires forall s :: s in steps ==> !LogsIn(s, a)
    ensures SystemOk(Run(y, steps)) && Ended(Run(y, steps), a)
  {
    if steps != [] {
      RunStaysEnded(y, steps[..|steps| - 1], a);
      StepKeeps(Run(y, steps[..|steps| - 1]), steps[|steps| - 1]);
      StepStaysEnded(Run(y, steps[..|steps| - 1]), steps[|steps| - 1], a);
    }
  }

  lemma {:induction false} RunStaysGone(y: System, steps: seq<Step>, a: AccountId)
    requires SystemOk(y) && Gone(y, a)
    requires forall s :: s in steps ==> !LogsIn(s, a) && !OtherWindowSaves(s, a)
    ensures SystemOk(Run(y, steps)) && Gone(Run(y, steps), a)
  {
    if steps != [] {
      RunStaysGone(y, steps[..|steps| - 1], a);
      StepKeeps(Run(y, steps[..|steps| - 1]), steps[|steps| - 1]);
      StepStaysGone(Run(y, steps[..|steps| - 1]), steps[|steps| - 1], a);
    }
  }

  predicate AuthenticatedAs(m: Manager, a: AccountId) {
    m.snapshot.state == Authenticated && m.snapshot.session.Some? && m.snapshot.session.value.account == a
  }

  /** A logout in any run: first its change under the lock, then, after any steps of other threads,
      the deletion of the token. Nothing that began before the change brings the account back: it
      is not authenticated from the change on, and has no stored token from the deletion on. */
  lemma {:induction false} LogoutIsFinal(before: seq<Step>, t: nat, a: AccountId, between: seq<Step>, after: seq<Step>)
    requires At(Run(START, before), t) == Idle
    requires var ended := Run(Logout(Run(START, before), t, a), between);
             At(ended, t) == Deleting(a) && ended.transaction == None
    requires forall s :: s in between ==> !LogsIn(s, a)
    requires forall s :: s in after ==> !LogsIn(s, a) && !OtherWindowSaves(s, a)
    ensures var ended := Run(Logout(Run(START, before), t, a), between);
            var last := Run(DeleteToken(ended, t, true), after);
            && !AuthenticatedAs(ended.manager, a)
            && !AuthenticatedAs(last.manager, a)
            && a !in last.tokens
  {
    ReachableOk(before);
    var y0 := Run(START, before);
    var y1 := Logout(y0, t, a);
    LogoutKeeps(y0, t, a);
    forall u: nat | InLogin(At(y1, u)) && At(y1, u).login.account == a
      ensures At(y1, u).activation < y1.manager.activationGeneration
    {
      assert ThreadOk(y0, u);
    }
    RunStaysEnded(y1, between, a);
    var y2 := Run(y1, between);
    DeleteTokenKeeps(y2, t, true);
    StepStaysEnded(y2, Other(DeleteTokenStep(t, true)), a);
    var y3 := DeleteToken(y2, t, true);
    forall u: nat ensures !InTransaction(At(y3, u)) { assert ThreadOk(y3, u); }
    RunStaysGone(y3, after, a);
  }

  // ----- what a login and a refresh achieve -----

  /** A login that is still the newest when it commits takes effect in full: its account is the
      authenticated one, whatever was known against it before, and every older work is superseded. */
  lemma LoginTakesEffect(y: System, t: nat)
    requires SystemOk(y) && At(y, t).Stored?
    requires ActivationCurrent(y.manager, At(y, t).activation, At(y, t).generation)
    ensures var login, m := At(y, t).login, CommitLogin(y, t).manager;
            && AuthenticatedAs(m, login.account) && m.snapshot.session == Some(login)
            && IsCurrent(m, login.account, m.logoutGeneration) && login.account !in m.revoked
            && m.pending == None
            && (forall a: AccountId, generation: nat ::
                  IsCurrent(y.manager, a, generation) ==> !IsCurrent(m, a, generation))
            && (forall a: AccountId :: a != login.account ==> (a in m.blocked <==> a in y.manager.blocked))
  {
  }

  /** The stored token is one the attempt may replace. */
  predicate Replaceable(stored: Option<Token>, original: Token, reply: Reply) {
    stored == Some(original) || (reply.Rotated? && stored == Some(reply.session.refresh))
  }

  /** How a refresh of the current login ends: authenticated with the new session exactly when the
      server rotated a token that is still there for this account; revoked, and the token deleted,
      exactly when the server refused it or answered for another account; else signed out when the
      token is gone, and offline with a later retry otherwise. The login itself never changes. */
  lemma RefreshDecides(m: Manager, a: AccountId, generation: nat, original: Token, reply: Reply,
                       stored: Option<Token>, retryAt: nat)
    requires IsCurrent(m, a, generation) && a !in m.revoked
    ensures var f := FinishRefresh(m, a, generation, original, reply, stored, retryAt);
            var good := Replaceable(stored, original, reply) && reply.Rotated? && reply.session.account == a;
            var bad := Replaceable(stored, original, reply)
                       && (reply.Denied? || (reply.Rotated? && reply.session.account != a));
            && (f.save.Some? <==> good)
            && (good ==> f.save == Some(reply.session.refresh)
                         && f.manager.snapshot == Snapshot(Authenticated, Some(reply.session)))
            && (f.delete <==> bad)
            && (a in f.manager.revoked <==> bad)
            && (bad ==> f.manager.snapshot == Snapshot(ReauthRequired, None))
            && (!good && !bad ==> f.manager.snapshot == if stored == None then SIGNED_OUT else Snapshot(Offline, None))
            && (f.manager.snapshot.state == Offline ==> f.manager.retryAt == retryAt)
            && f.manager.logoutGeneration == m.logoutGeneration && f.manager.account == m.account
            && f.manager.blocked == m.blocked
  {
  }

  /** An attempt of a login that is over changes nothing at its end. */
  lemma LateRefreshChangesNothing(m: Manager, a: AccountId, generation: nat, original: Token, reply: Reply,
                                  stored: Option<Token>, retryAt: nat)
    requires !IsCurrent(m, a, generation)
    ensures FinishRefresh(m, a, generation, original, reply, stored, retryAt) == Finish(m, None, false)
    ensures FailRefresh(m, a, generation, stored, None, retryAt) == (m, false)
    ensures CheckToken(m, a, generation, stored) == (m, false)
  {
  }

  // ----- a rotated session is not lost -----

  /** Somebody still has the rotation: the refreshing thread, or the manager. */
  predicate Holds(y: System, generation: nat, r: Rotation) {
    || y.manager.pending == Some(r)
    || (&& y.refresher.Some?
        && var act := At(y, y.refresher.value);
           && Attempting(act) && act.account == r.account && act.generation == generation
           && (|| (act.Finishing? && act.token == r.original && act.reply == Rotated(r.session))
               || (act.Failing? && act.inside && act.read == Some(r.original) && act.kept == Some(r.session))
               || (act.Checking? && act.read == Some(r.original) && act.kept == Some(r.session))))
  }

  /** The login the rotation is for is over. */
  predicate Superseded(y: System, generation: nat, r: Rotation) {
    !IsCurrent(y.manager, r.account, generation)
  }

  /** The rotated token is stored and its session is the one shown. */
  predicate Delivered(y: System, r: Rotation) {
    && Read(y.tokens, r.account) == Some(r.session.refresh)
    && y.manager.snapshot == Snapshot(Authenticated, Some(r.session))
  }

  /** The stored token is neither the one replaced nor the new one: somebody else changed it. */
  predicate ChangedElsewhere(y: System, r: Rotation) {
    Read(y.tokens, r.account) != Some(r.original) && Read(y.tokens, r.account) != Some(r.session.refresh)
  }

  /** A server answer is held by the thread that asked. */
  lemma AnswerIsHeld(y: System, t: nat, session: Session)
    requires SystemOk(y) && At(y, t).Calling?
    ensures Holds(Call(y, t, Some(Rotated(session))), At(y, t).generation,
                  Rotation(At(y, t).account, session, At(y, t).token))
  {
    assert ThreadOk(y, t);
  }

  /** What may become of a rotation: still held, stored and shown, its login over, the stored token
      changed elsewhere, or refused because it is for another account. */
  predicate Accounted(y: System, generation: nat, r: Rotation) {
    || Holds(y, generation, r)
    || Delivered(y, r)
    || Superseded(y, generation, r)
    || ChangedElsewhere(y, r)
    || (r.session.account != r.account && r.account in y.manager.revoked)
  }

  lemma LoginHolds(y: System, s: LoginStep, generation: nat, r: Rotation)
    requires SystemOk(y) && Holds(y, generation, r) && !Superseded(y, generation, r)
    ensures NextLogin(y, s).serverCalls == y.serverCalls
    ensures Accounted(NextLogin(y, s), generation, r)
  {
    assert ThreadOk(y, s.t);
  }

  lemma AskingHolds(y: System, s: AskingStep, generation: nat, r: Rotation)
    requires SystemOk(y) && Holds(y, generation, r) && !Superseded(y, generation, r)
    ensures NextAsking(y, s).serverCalls == y.serverCalls
    ensures Accounted(NextAsking(y, s), generation, r)
  {
    assert ThreadOk(y, s.t);
  }

  lemma RefreshHolds(y: System, s: RefreshStep, generation: nat, r: Rotation)
    requires SystemOk(y) && Holds(y, generation, r) && !Superseded(y, generation, r)
    ensures NextRefresh(y, s).serverCalls == y.serverCalls
    ensures Accounted(NextRefresh(y, s), generation, r)
  {
    assert ThreadOk(y, s.t);
  }

  lemma OtherHolds(y: System, s: OtherStep, generation: nat, r: Rotation)
    requires SystemOk(y) && Holds(y, generation, r) && !Superseded(y, generation, r)
    ensures NextOther(y, s).serverCalls == y.serverCalls
    ensures Accounted(NextOther(y, s), generation, r)
  {
    assert s.LogoutStep? || s.DeleteTokenStep? || s.StartRequestStep? || s.EndRequestStep? ==> ThreadOk(y, s.t);
  }

  lemma StepHolds(y: System, s: Step, generation: nat, r: Rotation)
    requires SystemOk(y) && Holds(y, generation, r) && !Superseded(y, generation, r)
    ensures Next(y, s).serverCalls == y.serverCalls
    ensures Accounted(Next(y, s), generation, r)
  {
    match s
    case Login(l) => LoginHolds(y, l, generation, r);
    case Asking(k) => AskingHolds(y, k, generation, r);
    case Refresh(q) => RefreshHolds(y, q, generation, r);
    case Other(o) => OtherHolds(y, o, generation, r);
  }

  /** A rotation of the current login is never lost and never asked for again: in every run from
      where it is held, either it is held to the end and no refresh request was sent, or there is a
      first point, before which none was sent, where it was delivered or its end accounted for. */
  lemma {:induction false} RotationIsReused(y: System, steps: seq<Step>, generation: nat, r: Rotation)
      returns (k: nat)
    requires SystemOk(y) && Holds(y, generation, r) && !Superseded(y, generation, r)
    ensures k <= |steps|
    ensures Run(y, steps[..k]).serverCalls == y.serverCalls
    ensures Accounted(Run(y, steps[..k]), generation, r)
    ensures k < |steps| ==>
              !Holds(Run(y, steps[..k]), generation, r) || Superseded(Run(y, steps[..k]), generation, r)
  {
    if steps == [] {
      k := 0;
    } else {
      var n := |steps| - 1;
      k := RotationIsReused(y, steps[..n], generation, r);
      assert steps[..n][..k] == steps[..k];
      if k == n {
        var before := Run(y, steps[..n]);
        RunKeeps(y, steps[..n]);
        if Holds(before, generation, r) && !Superseded(before, generation, r) {
          StepHolds(before, steps[n], generation, r);
          k := |steps|;
          assert steps[..k] == steps;
        }
      }
    }
  }
}
