/** The session manager as the object it is: each method is one region under its lock, updating the
    fields in place, and is tied to the function that says what the region does. */
module SessionManagers {
  import opened Options
  import opened Sessions

  class SessionManager {
    var snapshot: Snapshot
    var logoutGeneration: nat
    var activationGeneration: nat
    var account: Option<AccountId>
    var blocked: set<AccountId>
    var revoked: set<AccountId>
    var refreshing: Option<AccountId>
    var pending: Option<Rotation>
    var retryAt: nat

    ghost function Model(): Manager
      reads this
    {
      Manager(snapshot, logoutGeneration, activationGeneration, account, blocked, revoked, refreshing, pending, retryAt)
    }

    constructor ()
      ensures Model() == NEW_MANAGER
    {
      snapshot := SIGNED_OUT;
      logoutGeneration, activationGeneration := 0, 0;
      account := None;
      blocked, revoked := {}, {};
      refreshing := None;
      pending := None;
      retryAt := 0;
    }

    /** The rotation whose refresh lock the caller has to leave. */
    method DiscardPendingRotation() returns (discarded: Option<Rotation>)
      modifies this
      ensures discarded == old(pending)
      ensures Model() == old(Model()).(pending := None)
    {
      discarded := pending;
      pending := None;
    }

    method RememberSession(session: Session)
      modifies this
      ensures Model() == old(Model()).(retryAt := 0, snapshot := Snapshot(Authenticated, Some(session)))
    {
      retryAt := 0;
      snapshot := Snapshot(Authenticated, Some(session));
    }

    method BeginActivation() returns (activation: nat, generation: nat)
      modifies this
      ensures Model() == StampActivation(old(Model()))
      ensures ActivationCurrent(Model(), activation, generation)
      ensures !ActivationCurrent(old(Model()), activation, generation)
    {
      activationGeneration := activationGeneration + 1;
      activation, generation := activationGeneration, logoutGeneration;
    }

    /** The end of a login, after its token was stored; superseded logins change nothing. */
    method FinishActivation(session: Session, activation: nat, generation: nat)
        returns (committed: bool, discarded: Option<Rotation>)
      modifies this
      ensures committed == ActivationCurrent(old(Model()), activation, generation)
      ensures Model() == if committed then CommitActivation(old(Model()), session) else old(Model())
      ensures discarded == if committed then old(pending) else None
      ensures committed ==> !ActivationCurrent(Model(), activation, generation)
    {
      committed, discarded := false, None;
      if activation != activationGeneration || generation != logoutGeneration {
        return;
      }
      logoutGeneration := logoutGeneration + 1;
      discarded := DiscardPendingRotation();
      account := Some(session.account);
      blocked := blocked - {session.account};
      revoked := revoked - {session.account};
      RememberSession(session);
      committed := true;
    }

    /** The first region of a restore. The account is current afterwards, or the answer is known. */
    method Select(a: AccountId) returns (answer: Option<AuthState>, discarded: Option<Rotation>)
      modifies this
      ensures Model() == SelectAccount(old(Model()), a)
      ensures answer == if a in old(blocked) then Some(SignedOut)
                        else if a in old(revoked) then Some(ReauthRequired) else None
      ensures answer == None ==> IsCurrent(Model(), a, logoutGeneration)
      ensures discarded == if answer == None && old(account) != Some(a) then old(pending) else None
    {
      answer, discarded := None, None;
      if a in blocked {
        return Some(SignedOut), None;
      }
      if a in revoked {
        return Some(ReauthRequired), None;
      }
      if account != Some(a) {
        logoutGeneration := logoutGeneration + 1;
        discarded := DiscardPendingRotation();
        account := Some(a);
        snapshot := Snapshot(Offline, None);
        retryAt := 0;
      }
    }

    /** Asking for a session: the claim, which is taken at once when it is a refresh. */
    method Ask(a: AccountId, rejected: Option<Token>, expected: Option<nat>, now: nat) returns (claim: Claim)
      modifies this
      ensures claim == RequestRefresh(old(Model()), a, rejected, expected, now)
      ensures Model() == if claim.Claimed? then TakeRefresh(old(Model()), a) else old(Model())
    {
      if expected.Some? && expected.value != logoutGeneration {
        return Answer(SIGNED_OUT);
      }
      if account != Some(a) || a in blocked {
        return Answer(SIGNED_OUT);
      }
      if snapshot.state == Authenticated && snapshot.session.Some? {
        if rejected.None? || snapshot.session.value.access != rejected.value {
          return Answer(snapshot);
        }
      }
      if refreshing.Some? {
        return WaitFor(logoutGeneration, refreshing == Some(a));
      }
      claim := TakeUnlessSettled(a, now);
    }

    method TakeUnlessSettled(a: AccountId, now: nat) returns (claim: Claim)
      modifies this
      ensures claim == ClaimUnlessSettled(old(Model()), now)
      ensures Model() == if claim.Claimed? then TakeRefresh(old(Model()), a) else old(Model())
    {
      if snapshot.state == SignedOut || snapshot.state == ReauthRequired {
        return Answer(snapshot);
      }
      if now < retryAt {
        return Answer(snapshot);
      }
      refreshing := Some(a);
      claim := Claimed(logoutGeneration, pending);
      pending := None;
    }

    /** A waiting caller goes on. */
    method Wake(a: AccountId, generation: nat, sameAccount: bool, now: nat) returns (claim: Claim)
      modifies this
      ensures claim == AfterWait(old(Model()), generation, sameAccount, now)
      ensures Model() == if claim.Claimed? then TakeRefresh(old(Model()), a) else old(Model())
    {
      if logoutGeneration != generation {
        return Answer(SIGNED_OUT);
      }
      if sameAccount {
        return Answer(snapshot);
      }
      claim := TakeUnlessSettled(a, now);
    }

    method Check(a: AccountId, generation: nat, token: Option<Token>) returns (goesOn: bool)
      modifies this
      ensures (Model(), goesOn) == CheckToken(old(Model()), a, generation, token)
      ensures goesOn ==> token.Some? && IsCurrent(Model(), a, generation)
    {
      if logoutGeneration != generation || account != Some(a) || a in blocked {
        return false;
      }
      if token == None {
        snapshot := SIGNED_OUT;
        return false;
      }
      goesOn := true;
    }

    method Revoke(a: AccountId)
      modifies this
      ensures Model() == old(Model()).(revoked := old(revoked) + {a}, snapshot := Snapshot(ReauthRequired, None))
    {
      revoked := revoked + {a};
      snapshot := Snapshot(ReauthRequired, None);
    }

    /** The end of a refresh attempt: the token to store and whether the stored one goes. */
    method FinishAttempt(a: AccountId, generation: nat, original: Token, reply: Reply,
                         stored: Option<Token>, later: nat)
        returns (save: Option<Token>, delete: bool)
      modifies this
      ensures Finish(Model(), save, delete)
              == FinishRefresh(old(Model()), a, generation, original, reply, stored, later)
      ensures save.Some? ==>
                Model().snapshot.state == Authenticated && reply.Rotated? && save == Some(reply.session.refresh)
      ensures delete ==> a in revoked
    {
      save, delete := None, false;
      if logoutGeneration != generation || account != Some(a) || a in blocked {
        return;
      }
      if stored != Some(original) && !(reply.Rotated? && stored == Some(reply.session.refresh)) {
        if stored == None {
          snapshot := SIGNED_OUT;
        } else {
          snapshot, retryAt := Snapshot(Offline, None), later;
        }
        return;
      }
      match reply
      case Denied =>
        Revoke(a);
        delete := true;
      case Unavailable =>
        snapshot, retryAt := Snapshot(Offline, None), later;
      case Rotated(session) =>
        if session.account != a {
          Revoke(a);
          delete := true;
        } else {
          RememberSession(session);
          save := Some(session.refresh);
        }
    }

    method Fail(a: AccountId, generation: nat, token: Option<Token>, session: Option<Session>, later: nat)
        returns (keepGuard: bool)
      modifies this
      ensures (Model(), keepGuard) == FailRefresh(old(Model()), a, generation, token, session, later)
      ensures keepGuard ==> pending == Some(Rotation(a, session.value, token.value))
    {
      keepGuard := false;
      if logoutGeneration != generation || account != Some(a) || a in blocked {
        return;
      }
      if session.Some? && token.Some? {
        pending := Some(Rotation(a, session.value, token.value));
        keepGuard := true;
      }
      snapshot, retryAt := Snapshot(Offline, None), later;
    }

    method Release()
      modifies this
      ensures Model() == ReleaseRefresh(old(Model()))
    {
      refreshing := None;
    }

    /** The change of a logout: no login or refresh of the account begun before can succeed. */
    method End(a: AccountId) returns (discarded: Option<Rotation>)
      modifies this
      ensures Model() == EndSession(old(Model()), a)
      ensures forall generation: nat :: !IsCurrent(Model(), a, generation)
      ensures forall activation: nat, generation: nat :: activation <= old(activationGeneration) ==>
                !ActivationCurrent(Model(), activation, generation)
      ensures discarded == if old(account) == Some(a) then old(pending) else None
    {
      discarded := None;
      activationGeneration := activationGeneration + 1;
      blocked := blocked + {a};
      if account == Some(a) {
        logoutGeneration := logoutGeneration + 1;
        snapshot := SIGNED_OUT;
        discarded := DiscardPendingRotation();
        retryAt := 0;
      }
    }

    /** The first region of a permission request. */
    method PermissionFor(a: AccountId, previous: Option<Permission>) returns (generation: Option<nat>)
      ensures generation == PermissionGeneration(Model(), a, previous)
    {
      if account != Some(a) || a in blocked {
        return None;
      }
      if previous.Some? && (previous.value.account != a || previous.value.generation != logoutGeneration) {
        return None;
      }
      generation := Some(logoutGeneration);
    }

    /** The last region of a permission request. */
    method Issue(a: AccountId, generation: nat, shown: Snapshot) returns (permission: Option<Permission>)
      ensures permission == IssuePermission(Model(), a, generation, shown)
      ensures permission.Some? ==> Admits(Model(), permission.value)
    {
      if || logoutGeneration != generation || account != Some(a) || a in blocked
         || shown != snapshot || shown.state != Authenticated || shown.session == None {
        return None;
      }
      permission := Some(Permission(a, generation, shown.session.value.access));
    }
  }
}
