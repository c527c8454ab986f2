/** The session manager: the state its lock protects, and what each region under the lock does. */
module Sessions {
  import opened Options

  type AccountId = nat
  type Token = nat

  datatype Session = Session(account: AccountId, access: Token, refresh: Token)

  datatype AuthState = SignedOut | Authenticated | Offline | ReauthRequired

  datatype Snapshot = Snapshot(state: AuthState, session: Option<Session>)

  const SIGNED_OUT := Snapshot(SignedOut, None)

  /** A session the server rotated whose token could not be stored; it keeps the refresh lock. */
  datatype Rotation = Rotation(account: AccountId, session: Session, original: Token)

  datatype Manager = Manager(
    snapshot: Snapshot,
    logoutGeneration: nat,
    activationGeneration: nat,
    account: Option<AccountId>,
    blocked: set<AccountId>,
    revoked: set<AccountId>,
    refreshing: Option<AccountId>,
    pending: Option<Rotation>,
    retryAt: nat)

  const NEW_MANAGER := Manager(SIGNED_OUT, 0, 0, None, {}, {}, None, None, 0)

  /** The account is still the selected one of the same login, and not logged out. */
  predicate IsCurrent(m: Manager, a: AccountId, generation: nat) {
    m.logoutGeneration == generation && m.account == Some(a) && a !in m.blocked
  }

  // ----- login -----

  function StampActivation(m: Manager): Manager {
    m.(activationGeneration := m.activationGeneration + 1)
  }

  predicate ActivationCurrent(m: Manager, activation: nat, generation: nat) {
    activation == m.activationGeneration && generation == m.logoutGeneration
  }

  function CommitActivation(m: Manager, session: Session): Manager {
    var a := session.account;
    m.(logoutGeneration := m.logoutGeneration + 1,
       pending := None,
       account := Some(a),
       blocked := m.blocked - {a},
       revoked := m.revoked - {a},
       retryAt := 0,
       snapshot := Snapshot(Authenticated, Some(session)))
  }

  // ----- selecting an account, and logout -----

  /** Selecting an account that is neither logged out nor revoked; another one is left behind. */
  function SelectAccount(m: Manager, a: AccountId): Manager {
    if a in m.blocked || a in m.revoked || m.account == Some(a) then m
    else m.(logoutGeneration := m.logoutGeneration + 1,
            pending := None,
            account := Some(a),
            snapshot := Snapshot(Offline, None),
            retryAt := 0)
  }

  function EndSession(m: Manager, a: AccountId): Manager {
    var ended := m.(activationGeneration := m.activationGeneration + 1, blocked := m.blocked + {a});
    if m.account == Some(a)
    then ended.(logoutGeneration := m.logoutGeneration + 1, snapshot := SIGNED_OUT, pending := None, retryAt := 0)
    else ended
  }

  // ----- refresh -----

  datatype Claim =
    | Answer(snapshot: Snapshot)                     // nothing to refresh now
    | WaitFor(generation: nat, sameAccount: bool)    // somebody else refreshes
    | Claimed(generation: nat, pending: Option<Rotation>)

  /** Whether the state calls for a refresh: a known account whose retry time has come. */
  function ClaimUnlessSettled(m: Manager, now: nat): Claim {
    if m.snapshot.state == SignedOut || m.snapshot.state == ReauthRequired || now < m.retryAt
    then Answer(m.snapshot)
    else Claimed(m.logoutGeneration, m.pending)
  }

  function RequestRefresh(m: Manager, a: AccountId, rejected: Option<Token>, expected: Option<nat>, now: nat): Claim {
    if expected.Some? && expected.value != m.logoutGeneration then Answer(SIGNED_OUT)
    else if m.account != Some(a) || a in m.blocked then Answer(SIGNED_OUT)
    else if && m.snapshot.state == Authenticated && m.snapshot.session.Some?
            && (rejected.None? || m.snapshot.session.value.access != rejected.value)
    then Answer(m.snapshot)
    else if m.refreshing.Some? then WaitFor(m.logoutGeneration, m.refreshing == Some(a))
    else ClaimUnlessSettled(m, now)
  }

  /** What a waiting caller does once the other refresh ended or the login changed. */
  function AfterWait(m: Manager, generation: nat, sameAccount: bool, now: nat): Claim {
    if m.logoutGeneration != generation then Answer(SIGNED_OUT)
    else if sameAccount then Answer(m.snapshot)
    else ClaimUnlessSettled(m, now)
  }

  function TakeRefresh(m: Manager, a: AccountId): Manager {
    m.(refreshing := Some(a), pending := None)
  }

  function ReleaseRefresh(m: Manager): Manager {
    m.(refreshing := None)
  }

  function GoOffline(m: Manager, retryAt: nat): Manager {
    m.(snapshot := Snapshot(Offline, None), retryAt := retryAt)
  }

  /** After reading the stored token; false when the attempt is over. */
  function CheckToken(m: Manager, a: AccountId, generation: nat, token: Option<Token>): (Manager, bool) {
    if !IsCurrent(m, a, generation) then (m, false)
    else if token == None then (m.(snapshot := SIGNED_OUT), false)
    else (m, true)
  }

  datatype Reply =
    | Rotated(session: Session)   // the server accepted the token and replaced it
    | Denied                      // the token is expired, revoked or wrong
    | Unavailable                 // no answer that says anything about the token

  /** The end of a refresh, under the store transaction and the lock: the new state, the token to
      store, whether the stored token is to be deleted. */
  datatype Finish = Finish(manager: Manager, save: Option<Token>, delete: bool)

  function FinishRefresh(m: Manager, a: AccountId, generation: nat, original: Token, reply: Reply,
                         stored: Option<Token>, retryAt: nat): Finish {
    if !IsCurrent(m, a, generation) then Finish(m, None, false)
    else if stored != Some(original) && !(reply.Rotated? && stored == Some(reply.session.refresh)) then
      if stored == None then Finish(m.(snapshot := SIGNED_OUT), None, false)
      else Finish(GoOffline(m, retryAt), None, false)
    else match reply
      case Denied =>
        Finish(m.(revoked := m.revoked + {a}, snapshot := Snapshot(ReauthRequired, None)), None, true)
      case Unavailable => Finish(GoOffline(m, retryAt), None, false)
      case Rotated(session) =>
        if session.account != a then
          Finish(m.(revoked := m.revoked + {a}, snapshot := Snapshot(ReauthRequired, None)), None, true)
        else
          Finish(m.(retryAt := 0, snapshot := Snapshot(Authenticated, Some(session))), Some(session.refresh), false)
  }

  /** After an error of the token store; true when the rotated session and the lock are kept. */
  function FailRefresh(m: Manager, a: AccountId, generation: nat, token: Option<Token>, session: Option<Session>,
                       retryAt: nat): (Manager, bool) {
    if !IsCurrent(m, a, generation) then (m, false)
    else if session.Some? && token.Some? then
      (GoOffline(m, retryAt).(pending := Some(Rotation(a, session.value, token.value))), true)
    else (GoOffline(m, retryAt), false)
  }

  // ----- permissions -----

  datatype Permission = Permission(account: AccountId, generation: nat, access: Token)

  /** A request under the permission may start, and its result may be used. */
  predicate Admits(m: Manager, p: Permission) {
    IsCurrent(m, p.account, p.generation) && m.snapshot.state == Authenticated
  }

  /** The generation a permission may be asked for; a retry only within the same login. */
  function PermissionGeneration(m: Manager, a: AccountId, previous: Option<Permission>): Option<nat> {
    if IsCurrent(m, a, m.logoutGeneration)
       && (previous.Some? ==> previous.value.account == a && previous.value.generation == m.logoutGeneration)
    then Some(m.logoutGeneration) else None
  }

  function IssuePermission(m: Manager, a: AccountId, generation: nat, shown: Snapshot): Option<Permission> {
    if IsCurrent(m, a, generation) && shown == m.snapshot && shown.state == Authenticated && shown.session.Some?
    then Some(Permission(a, generation, shown.session.value.access)) else None
  }
}
