/** Threads of the user interface and of the sync worker using one session manager and one token
    store. Every region under a lock is one step; anything can happen between two steps. */
module SessionSystem {
  import opened Options
  import opened Sessions

  /** Who is inside the refresh lock of an account. */
  datatype Holder = Thread(id: nat) | PendingRotation | OtherWindow

  /** The token store transaction of this process, and the account whose file lock it holds. */
  datatype Owner = Owner(thread: nat, account: AccountId)

  /** Where a thread is. The comment names the step it takes next. */
  datatype Activity =
    | Idle
    | Stamped(login: Session, activation: nat, generation: nat)        // enter the store transaction
    | Entered(login: Session, activation: nat, generation: nat)        // check that the login is current
    | Checked(login: Session, activation: nat, generation: nat)        // store the token
    | Stored(login: Session, activation: nat, generation: nat)         // commit under the lock
    | Syncing(account: AccountId, rejected: Option<Token>, expected: Option<nat>)   // ask for a session
    | Waiting(account: AccountId, generation: nat, same: bool)         // until the refresh ends
    | Locking(account: AccountId, generation: nat)                     // enter the refresh lock
    | Loading(account: AccountId, generation: nat)                     // read the stored token
    | Checking(account: AccountId, generation: nat, read: Option<Token>, kept: Option<Session>)
    | Calling(account: AccountId, generation: nat, token: Token)       // ask the server
    | Finishing(account: AccountId, generation: nat, token: Token, reply: Reply)
    | Failing(account: AccountId, generation: nat, read: Option<Token>, kept: Option<Session>, inside: bool)
    | Leaving(account: AccountId, inside: bool)                        // leave the refresh lock, if still inside
    | Releasing(account: AccountId)                                    // let waiting threads go on
    | Deleting(account: AccountId)                                     // delete the stored token
    | Requesting(permission: Permission)                               // a request under a permission is out

  /** The fields from `refresher` on are history: they record what happened and decide nothing,
      except that a request needs an issued permission. */
  datatype System = System(
    manager: Manager,
    tokens: map<AccountId, Token>,
    locks: map<AccountId, Holder>,
    transaction: Option<Owner>,
    threads: map<nat, Activity>,
    refresher: Option<nat>,           // the thread between claiming and releasing a refresh
    entered: nat,                     // refresh locks entered by this process
    exited: nat,                      // and left
    serverCalls: nat,                 // refresh requests sent
    issued: set<Permission>,
    results: seq<Permission>)         // the permissions under which request results were returned

  const START := System(NEW_MANAGER, map[], map[], None, map[], None, 0, 0, 0, {}, [])

  function At(y: System, t: nat): Activity {
    if t in y.threads then y.threads[t] else Idle
  }

  function Go(y: System, t: nat, activity: Activity): System {
    y.(threads := y.threads[t := activity])
  }

  function Read(tokens: map<AccountId, Token>, a: AccountId): Option<Token> {
    if a in tokens then Some(tokens[a]) else None
  }

  // ----- login -----

  function BeginActivate(y: System, t: nat, login: Session): System {
    if At(y, t) != Idle then y
    else
      var m := StampActivation(y.manager);
      Go(y.(manager := m), t, Stamped(login, m.activationGeneration, m.logoutGeneration))
  }

  function EnterStore(y: System, t: nat, works: bool): System {
    match At(y, t)
    case Stamped(login, activation, generation) =>
      if !works then Go(y, t, Idle)
      else if y.transaction.Some? then y
      else Go(y.(transaction := Some(Owner(t, login.account))), t, Entered(login, activation, generation))
    case _ => y
  }

  function CheckActivation(y: System, t: nat): System {
    match At(y, t)
    case Entered(login, activation, generation) =>
      if ActivationCurrent(y.manager, activation, generation)
      then Go(y, t, Checked(login, activation, generation))
      else Go(y.(transaction := None), t, Idle)
    case _ => y
  }

  function StoreToken(y: System, t: nat, works: bool): System {
    match At(y, t)
    case Checked(login, activation, generation) =>
      if works
      then Go(y.(tokens := y.tokens[login.account := login.refresh]), t, Stored(login, activation, generation))
      else Go(y.(transaction := None), t, Idle)
    case _ => y
  }

  /** Leaving the refresh lock that a discarded rotation kept. */
  function Discard(y: System): System {
    if y.manager.pending.Some?
    then y.(locks := y.locks - {y.manager.pending.value.account}, exited := y.exited + 1)
    else y
  }

  function CommitLogin(y: System, t: nat): System {
    match At(y, t)
    case Stored(login, activation, generation) =>
      var left := y.(transaction := None);
      if ActivationCurrent(y.manager, activation, generation)
      then Go(Discard(left).(manager := CommitActivation(y.manager, login)), t, Idle)
      else Go(left, t, Idle)
    case _ => y
  }

  // ----- asking for a session -----

  function Restore(y: System, t: nat, a: AccountId): System {
    if At(y, t) != Idle || a in y.manager.blocked || a in y.manager.revoked then y
    else if y.manager.account == Some(a) then Go(y, t, Syncing(a, None, None))
    else Go(Discard(y).(manager := SelectAccount(y.manager, a)), t, Syncing(a, None, None))
  }

  function BeginSync(y: System, t: nat, a: AccountId, rejected: Option<Token>, expected: Option<nat>): System {
    if At(y, t) != Idle then y else Go(y, t, Syncing(a, rejected, expected))
  }

  function Answered(y: System, t: nat, c: Claim, a: AccountId): System {
    match c
    case Answer(_) => Go(y, t, Idle)
    case WaitFor(generation, same) => Go(y, t, Waiting(a, generation, same))
    case Claimed(generation, pending) =>
      var taken := y.(manager := TakeRefresh(y.manager, a), refresher := Some(t));
      if pending.Some?
      then Go(taken.(locks := y.locks[pending.value.account := Thread(t)]), t,
              Checking(a, generation, Some(pending.value.original), Some(pending.value.session)))
      else Go(taken, t, Locking(a, generation))
  }

  function Ask(y: System, t: nat, now: nat): System {
    match At(y, t)
    case Syncing(a, rejected, expected) => Answered(y, t, RequestRefresh(y.manager, a, rejected, expected, now), a)
    case _ => y
  }

  function Wake(y: System, t: nat, now: nat): System {
    match At(y, t)
    case Waiting(a, generation, same) =>
      if y.manager.refreshing == None || y.manager.logoutGeneration != generation
      then Answered(y, t, AfterWait(y.manager, generation, same, now), a) else y
    case _ => y
  }

  // ----- refresh -----

  function EnterRefreshLock(y: System, t: nat, works: bool): System {
    match At(y, t)
    case Locking(a, generation) =>
      if works && a !in y.locks
      then Go(y.(locks := y.locks[a := Thread(t)], entered := y.entered + 1), t, Loading(a, generation))
      else Go(y, t, Failing(a, generation, None, None, false))
    case _ => y
  }

  function Load(y: System, t: nat, works: bool): System {
    match At(y, t)
    case Loading(a, generation) =>
      if !works then Go(y, t, Failing(a, generation, None, None, true))
      else if y.transaction.Some? then y
      else Go(y, t, Checking(a, generation, Read(y.tokens, a), None))
    case _ => y
  }

  function Check(y: System, t: nat): System {
    match At(y, t)
    case Checking(a, generation, token, kept) =>
      var (m, goesOn) := CheckToken(y.manager, a, generation, token);
      var checked := y.(manager := m);
      if !goesOn || token == None then Go(checked, t, Leaving(a, true))
      else if kept.Some? then Go(checked, t, Finishing(a, generation, token.value, Rotated(kept.value)))
      else Go(checked, t, Calling(a, generation, token.value))
    case _ => y
  }

  /** No reply stands for an error the manager does not know; it passes through. */
  function Call(y: System, t: nat, reply: Option<Reply>): System {
    match At(y, t)
    case Calling(a, generation, token) =>
      var called := y.(serverCalls := y.serverCalls + 1);
      if reply == None then Go(called, t, Leaving(a, true))
      else Go(called, t, Finishing(a, generation, token, reply.value))
    case _ => y
  }

  function SessionOf(reply: Reply): Option<Session> {
    if reply.Rotated? then Some(reply.session) else None
  }

  /** Under the transaction and the lock. The store can fail when the login is still current. */
  function Finalize(y: System, t: nat, works: bool, deleteWorks: bool, retryAt: nat): System {
    match At(y, t)
    case Finishing(a, generation, token, reply) =>
      if !works then Go(y, t, Failing(a, generation, Some(token), SessionOf(reply), true))
      else if y.transaction.Some? then y
      else
        var finish := FinishRefresh(y.manager, a, generation, token, reply, Read(y.tokens, a), retryAt);
        var tokens :=
          if finish.save.Some? then y.tokens[a := finish.save.value]
          else if finish.delete && deleteWorks then y.tokens - {a}
          else y.tokens;
        Go(y.(manager := finish.manager, tokens := tokens), t, Leaving(a, true))
    case _ => y
  }

  function Fail(y: System, t: nat, retryAt: nat): System {
    match At(y, t)
    case Failing(a, generation, token, kept, inside) =>
      var (m, keeps) := FailRefresh(y.manager, a, generation, token, if inside then kept else None, retryAt);
      if keeps then Go(y.(manager := m, locks := y.locks[a := PendingRotation]), t, Releasing(a))
      else Go(y.(manager := m), t, Leaving(a, inside))
    case _ => y
  }

  function Leave(y: System, t: nat): System {
    match At(y, t)
    case Leaving(a, inside) =>
      if inside then Go(y.(locks := y.locks - {a}, exited := y.exited + 1), t, Releasing(a))
      else Go(y, t, Releasing(a))
    case _ => y
  }

  function Release(y: System, t: nat): System {
    match At(y, t)
    case Releasing(_) => Go(y.(manager := ReleaseRefresh(y.manager), refresher := None), t, Idle)
    case _ => y
  }

  // ----- logout -----

  function Logout(y: System, t: nat, a: AccountId): System {
    if At(y, t) != Idle then y
    else
      var left := if y.manager.account == Some(a) then Discard(y) else y;
      Go(left.(manager := EndSession(y.manager, a)), t, Deleting(a))
  }

  function DeleteToken(y: System, t: nat, works: bool): System {
    match At(y, t)
    case Deleting(a) =>
      if !works then Go(y, t, Idle)
      else if y.transaction.Some? then y
      else Go(y.(tokens := y.tokens - {a}), t, Idle)
    case _ => y
  }

  // ----- requests under a permission -----

  /** The last region of a permission request, with the generation the first one saw. */
  function Issue(y: System, a: AccountId, generation: nat, shown: Snapshot): System {
    match IssuePermission(y.manager, a, generation, shown)
    case Some(p) => y.(issued := y.issued + {p})
    case None => y
  }

  function StartRequest(y: System, t: nat, p: Permission): System {
    if At(y, t) == Idle && p in y.issued && Admits(y.manager, p) then Go(y, t, Requesting(p)) else y
  }

  function EndRequest(y: System, t: nat): System {
    match At(y, t)
    case Requesting(p) => Go(if Admits(y.manager, p) then y.(results := y.results + [p]) else y, t, Idle)
    case _ => y
  }

  // ----- other windows share the token store and the refresh locks -----

  function OtherStores(y: System, a: AccountId, token: Option<Token>): System {
    if y.transaction.Some? && y.transaction.value.account == a then y
    else y.(tokens := if token.Some? then y.tokens[a := token.value] else y.tokens - {a})
  }

  function OtherLocks(y: System, a: AccountId, enters: bool): System {
    if enters && a !in y.locks then y.(locks := y.locks[a := OtherWindow])
    else if !enters && a in y.locks && y.locks[a] == OtherWindow then y.(locks := y.locks - {a})
    else y
  }

  // ----- runs -----

  datatype LoginStep =
    | BeginActivateStep(t: nat, session: Session)
    | EnterStoreStep(t: nat, works: bool)
    | CheckActivationStep(t: nat)
    | StoreTokenStep(t: nat, works: bool)
    | CommitLoginStep(t: nat)

  datatype AskingStep =
    | RestoreStep(t: nat, account: AccountId)
    | BeginSyncStep(t: nat, account: AccountId, rejected: Option<Token>, expected: Option<nat>)
    | AskStep(t: nat, now: nat)
    | WakeStep(t: nat, now: nat)

  datatype RefreshStep =
    | EnterRefreshLockStep(t: nat, works: bool)
    | LoadStep(t: nat, works: bool)
    | CheckStep(t: nat)
    | CallStep(t: nat, reply: Option<Reply>)
    | FinalizeStep(t: nat, works: bool, deleteWorks: bool, retryAt: nat)
    | FailStep(t: nat, retryAt: nat)
    | LeaveStep(t: nat)
    | ReleaseStep(t: nat)

  datatype OtherStep =
    | LogoutStep(t: nat, account: AccountId)
    | DeleteTokenStep(t: nat, works: bool)
    | IssueStep(account: AccountId, generation: nat, shown: Snapshot)
    | StartRequestStep(t: nat, permission: Permission)
    | EndRequestStep(t: nat)
    | OtherStoresStep(account: AccountId, token: Option<Token>)
    | OtherLocksStep(account: AccountId, enters: bool)

  datatype Step =
    | Login(login: LoginStep)
    | Asking(asking: AskingStep)
    | Refresh(refresh: RefreshStep)
    | Other(other: OtherStep)

  function NextLogin(y: System, s: LoginStep): System {
    match s
    case BeginActivateStep(t, session) => BeginActivate(y, t, session)
    case EnterStoreStep(t, works) => EnterStore(y, t, works)
    case CheckActivationStep(t) => CheckActivation(y, t)
    case StoreTokenStep(t, works) => StoreToken(y, t, works)
    case CommitLoginStep(t) => CommitLogin(y, t)
  }

  function NextAsking(y: System, s: AskingStep): System {
    match s
    case RestoreStep(t, a) => Restore(y, t, a)
    case BeginSyncStep(t, a, rejected, expected) => BeginSync(y, t, a, rejected, expected)
    case AskStep(t, now) => Ask(y, t, now)
    case WakeStep(t, now) => Wake(y, t, now)
  }

  function NextRefresh(y: System, s: RefreshStep): System {
    match s
    case EnterRefreshLockStep(t, works) => EnterRefreshLock(y, t, works)
    case LoadStep(t, works) => Load(y, t, works)
    case CheckStep(t) => Check(y, t)
    case CallStep(t, reply) => Call(y, t, reply)
    case FinalizeStep(t, works, deleteWorks, retryAt) => Finalize(y, t, works, deleteWorks, retryAt)
    case FailStep(t, retryAt) => Fail(y, t, retryAt)
    case LeaveStep(t) => Leave(y, t)
    case ReleaseStep(t) => Release(y, t)
  }

  function NextOther(y: System, s: OtherStep): System {
    match s
    case LogoutStep(t, a) => Logout(y, t, a)
    case DeleteTokenStep(t, works) => DeleteToken(y, t, works)
    case IssueStep(a, generation, shown) => Issue(y, a, generation, shown)
    case StartRequestStep(t, p) => StartRequest(y, t, p)
    case EndRequestStep(t) => EndRequest(y, t)
    case OtherStoresStep(a, token) => OtherStores(y, a, token)
    case OtherLocksStep(a, enters) => OtherLocks(y, a, enters)
  }

  /** One step; a step that is not possible now changes nothing. */
  function Next(y: System, s: Step): System {
    match s
    case Login(l) => NextLogin(y, l)
    case Asking(k) => NextAsking(y, k)
    case Refresh(r) => NextRefresh(y, r)
    case Other(o) => NextOther(y, o)
  }

  function Run(y: System, steps: seq<Step>): System {
    if steps == [] then y else Next(Run(y, steps[..|steps| - 1]), steps[|steps| - 1])
  }
}
