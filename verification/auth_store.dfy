/**
  The authentication use cases as they run: statement by statement over mutable tables inside a
  unit of work that is rolled back when a use case raises. Each is proved to have exactly the
  effect of its atomic step.
 */
module AuthStore {
  import opened Outcomes
  import opened AuthModel
  import opened AuthFamilies

  class Store {
    var users: map<Id, User>
    var credentials: map<Id, Credential>
    var emailIndex: map<string, Id>
    var sessions: map<Id, Session>
    var audit: seq<Event>

    ghost function Snapshot(): Db
      reads this
    {
      Db(users, credentials, emailIndex, sessions, audit)
    }

    /** The unique column of the session table. */
    ghost predicate Valid()
      reads this
    {
      UniqueHashes(sessions)
    }

    constructor ()
      ensures Valid() && Initial(Snapshot())
    {
      users, credentials, emailIndex, sessions, audit := map[], map[], map[], map[], [];
    }

    // ----- Repository operations -----

    method Record(e: Event)
      modifies this`audit
      ensures audit == old(audit) + [e]
    {
      audit := audit + [e];
    }

    method Rollback(saved: Db)
      modifies this
      ensures Snapshot() == saved
    {
      users, credentials, emailIndex, sessions, audit :=
        saved.users, saved.credentials, saved.emailIndex, saved.sessions, saved.audit;
    }

    method GetSessionByTokenHash(h: Hash) returns (found: Option<Id>)
      requires Valid()
      ensures found == FindByHash(sessions, h)
    {
      if s :| s in sessions && sessions[s].tokenHash == h {
        FindByHashUnique(sessions, s);
        found := Some(s);
      } else {
        found := None;
      }
    }

    /** Insert a row, or report the constraint that refuses it. */
    method AddSession(id: Id, row: Session) returns (inserted: bool)
      requires Valid()
      modifies this`sessions
      ensures Valid()
      ensures inserted <==> !InsertConflicts(old(sessions), id, row.tokenHash)
      ensures sessions == if inserted then old(sessions)[id := row] else old(sessions)
    {
      var clash := GetSessionByTokenHash(row.tokenHash);
      FindByHashFinds(sessions, row.tokenHash);
      inserted := id !in sessions && clash == None;
      if inserted {
        sessions := sessions[id := row];
      }
    }

    method RevokeActiveFamily(family: Id, at: Time, reason: Reason) returns (count: nat)
      modifies this`sessions
      ensures sessions == RevokeAll(old(sessions), ActiveFamily(old(sessions), family), at, reason)
      ensures count == |ActiveFamily(old(sessions), family)|
    {
      var rows := set s | s in sessions && sessions[s].familyId == family && sessions[s].revokedAt.None?;
      assert rows == ActiveFamily(sessions, family);
      sessions := map s | s in sessions :: if s in rows then Revoked(sessions[s], at, reason) else sessions[s];
      count := |rows|;
    }

    method RevokeAllForUser(user: Id, at: Time, reason: Reason) returns (count: nat)
      modifies this`sessions
      ensures sessions == RevokeAll(old(sessions), ActiveUser(old(sessions), user), at, reason)
      ensures count == |ActiveUser(old(sessions), user)|
    {
      var rows := set s | s in sessions && sessions[s].userId == user && sessions[s].revokedAt.None?;
      assert rows == ActiveUser(sessions, user);
      sessions := map s | s in sessions :: if s in rows then Revoked(sessions[s], at, reason) else sessions[s];
      count := |rows|;
    }

    // ----- Login -----

    method Login(cfg: Config, email: string, password: string, supply: Supply, now: Time) returns (out: Outcome)
      requires Valid()
      modifies this
      ensures Valid()
      ensures StepResult(Snapshot(), out) == LoginStep(cfg, old(Snapshot()), email, password, supply, now)
      ensures KeepsFamilies(cfg, old(Snapshot()), AuthModel.Login(email, password, supply), Snapshot())
    {
      StepKeepsFamilies(cfg, Snapshot(), AuthModel.Login(email, password, supply), now);
      if email !in emailIndex || emailIndex[email] !in credentials {
        Record(LoginFailed(None, UnknownEmail, None, None, now));
        return Failed(BadCredentials(UnknownEmail));
      }
      var user := emailIndex[email];
      if user !in users {
        return Failed(PersistenceFailure);
      }
      var matches := cfg.verifies(password, credentials[user].passwordHash);
      var locked := credentials[user].lockedUntil.Some? && credentials[user].lockedUntil.value > now;
      var active := users[user].status == Active;
      if locked {
        Record(LoginFailed(Some(user), Locked, Some(credentials[user].failedAttempts), credentials[user].lockedUntil,
            now));
        assert credentials == credentials[user := credentials[user]];
        return Failed(BadCredentials(Locked));
      } else if !active {
        Record(LoginFailed(Some(user), Inactive, Some(credentials[user].failedAttempts), None, now));
        assert credentials == credentials[user := credentials[user]];
        return Failed(BadCredentials(Inactive));
      } else if !matches {
        var why := CountFailedAttempt(cfg, user, now);
        Record(LoginFailed(Some(user), why, Some(credentials[user].failedAttempts), credentials[user].lockedUntil,
            now));
        return Failed(BadCredentials(why));
      }
      out := CompleteLogin(cfg, user, supply, now);
    }

    /** Drop an expired lock, count the attempt, and lock once the maximum is reached. */
    method CountFailedAttempt(cfg: Config, user: Id, now: Time) returns (why: LoginFailure)
      requires user in credentials
      modifies this`credentials
      ensures credentials == old(credentials)[user := ApplyFailedAttempt(cfg, old(credentials[user]), now)]
      ensures why == FailureAfter(cfg, credentials[user])
    {
      var c := credentials[user];
      if c.lockedUntil.Some? && c.lockedUntil.value <= now {
        c := c.(failedAttempts := 0, lockedUntil := None);
      }
      c := c.(failedAttempts := c.failedAttempts + 1);
      why := WrongPassword;
      if c.failedAttempts >= cfg.maxAttempts {
        c := c.(lockedUntil := Some(now + cfg.lockout));
        why := LockedNow;
      }
      credentials := credentials[user := c];
    }

    method CompleteLogin(cfg: Config, user: Id, supply: Supply, now: Time) returns (out: Outcome)
      requires Valid() && user in users && user in credentials
      modifies this
      ensures Valid()
      ensures StepResult(Snapshot(), out)
                == LoginAccepted(cfg, old(Snapshot()), user, old(credentials[user]), supply, now)
    {
      var saved := Db(users, credentials, emailIndex, sessions, audit);
      credentials := credentials[user := credentials[user].(failedAttempts := 0, lockedUntil := None)];
      if cfg.needsRehash(credentials[user].passwordHash) {
        if supply.passwordHash.None? {
          Rollback(saved);
          return Failed(HashingFailure);
        }
        credentials := credentials[user := credentials[user].(passwordHash := supply.passwordHash.value)];
      }
      var expires := now + cfg.refreshTtl;
      var access := IssueAccessToken(cfg, user, supply.sessionId, users[user].role, now);
      if expires <= access.expiresAt {
        Rollback(saved);
        return Failed(ConfigurationFailure);
      }
      var inserted := AddSession(supply.sessionId,
          NewSession(cfg, user, supply.familyId, supply.refreshToken, now, expires));
      if !inserted {
        Rollback(saved);
        return Failed(PersistenceFailure);
      }
      if users[user].role == System {
        Rollback(saved);
        return Failed(ConfigurationFailure);
      }
      Record(LoginSucceeded(supply.sessionId, user, supply.familyId, now));
      out := Issued(TokenPair(access, supply.refreshToken, expires));
    }

    // ----- Registration -----

    method Register(cfg: Config, email: string, password: string, name: Option<string>, supply: Supply, now: Time)
      returns (out: Outcome)
      requires Valid()
      modifies this
      ensures Valid()
      ensures StepResult(Snapshot(), out) == RegisterStep(cfg, old(Snapshot()), email, password, name, supply, now)
      ensures KeepsFamilies(cfg, old(Snapshot()), AuthModel.Register(email, password, name, supply), Snapshot())
    {
      StepKeepsFamilies(cfg, Snapshot(), AuthModel.Register(email, password, name, supply), now);
      if !cfg.acceptable(password, email, name) {
        return Failed(WeakPassword);
      }
      if supply.passwordHash.None? {
        return Failed(HashingFailure);
      }
      var expires := now + cfg.refreshTtl;
      var access := IssueAccessToken(cfg, supply.userId, supply.sessionId, Customer, now);
      if expires <= access.expiresAt {
        return Failed(ConfigurationFailure);
      }
      if email in emailIndex {
        return Failed(EmailTaken);
      }
      var saved := Db(users, credentials, emailIndex, sessions, audit);
      if supply.userId in users || supply.userId in credentials {
        return Failed(PersistenceFailure);
      }
      users := users[supply.userId := User(Customer, Active)];
      credentials := credentials[supply.userId := Credential(email, supply.passwordHash.value, 0, None)];
      emailIndex := emailIndex[email := supply.userId];
      var row := NewSession(cfg, supply.userId, supply.familyId, supply.refreshToken, now, expires);
      var inserted := AddSession(supply.sessionId, row);
      if !inserted {
        Rollback(saved);
        return Failed(PersistenceFailure);
      }
      Record(UserRegistered(supply.sessionId, supply.userId, supply.familyId, now));
      out := Issued(TokenPair(access, supply.refreshToken, expires));
    }

    // ----- Refresh -----

    method Refresh(cfg: Config, token: string, supply: Supply, now: Time) returns (out: Outcome)
      requires Valid()
      modifies this
      ensures Valid()
      ensures StepResult(Snapshot(), out) == RefreshStep(cfg, old(Snapshot()), token, supply, now)
      ensures KeepsFamilies(cfg, old(Snapshot()), AuthModel.Refresh(token, supply), Snapshot())
    {
      StepKeepsFamilies(cfg, Snapshot(), AuthModel.Refresh(token, supply), now);
      var found := GetSessionByTokenHash(cfg.hashToken(token));
      FindByHashFinds(sessions, cfg.hashToken(token));
      if found == None {
        Record(RefreshFailed(None, UnknownToken, None, now));
        return Failed(BadRefreshToken(UnknownToken));
      }
      var id := found.value;
      if sessions[id].revokedAt != None {
        var count := RevokeActiveFamily(sessions[id].familyId, now, TokenReuse);
        Record(ReuseDetected(id, sessions[id].userId, sessions[id].familyId, count, now));
        out := Failed(BadRefreshToken(ReusedToken));
      } else if sessions[id].expiresAt <= now {
        out := RejectSession(id, TokenExpired, ExpiredToken, now);
      } else {
        var user := sessions[id].userId;
        if user !in users || user !in credentials || users[user].status != Active || users[user].role == System {
          var count := RevokeActiveFamily(sessions[id].familyId, now, AccountUnavailable);
          Record(RefreshFailed(Some(id), UnavailableAccount, Some(count), now));
          out := Failed(BadRefreshToken(UnavailableAccount));
        } else {
          out := RotateSession(cfg, id, supply, now);
        }
      }
    }

    method RejectSession(id: Id, reason: Reason, why: RefreshFailure, now: Time) returns (out: Outcome)
      requires Valid() && id in sessions
      modifies this`sessions, this`audit
      ensures Valid()
      ensures StepResult(Snapshot(), out) == Retired(old(Snapshot()), id, reason, why, now)
    {
      var row := sessions[id];
      row := row.(revokedAt := Some(now));
      row := row.(reason := Some(reason));
      row := row.(lastUsedAt := Some(now));
      sessions := sessions[id := row];
      Record(RefreshFailed(Some(id), why, None, now));
      out := Failed(BadRefreshToken(why));
    }

    /** The replacement is inserted first so that the self-reference can point to an existing row. */
    method RotateSession(cfg: Config, id: Id, supply: Supply, now: Time) returns (out: Outcome)
      requires Valid() && id in sessions && sessions[id].userId in users
      modifies this`sessions, this`audit
      ensures Valid()
      ensures StepResult(Snapshot(), out) == RotateStep(cfg, old(Snapshot()), id, supply, now)
    {
      var user, family, expires := sessions[id].userId, sessions[id].familyId, sessions[id].expiresAt;
      var access := IssueAccessToken(cfg, user, supply.sessionId, users[user].role, now);
      if expires <= access.expiresAt {
        out := RejectSession(id, InsufficientLifetime, ShortLifetime, now);
        return;
      }
      var inserted := AddSession(supply.sessionId, NewSession(cfg, user, family, supply.refreshToken, now, expires));
      if !inserted {
        return Failed(PersistenceFailure);
      }
      var row := sessions[id];
      row := row.(lastUsedAt := Some(now));
      row := row.(revokedAt := Some(now));
      row := row.(reason := Some(TokenRotated));
      row := row.(replacedBy := Some(supply.sessionId));
      sessions := sessions[id := row];
      Record(SessionRefreshed(supply.sessionId, id, user, family, now));
      out := Issued(TokenPair(access, supply.refreshToken, expires));
    }

    // ----- Logout, authentication and access changes -----

    method Logout(ghost cfg: Config, user: Id, session: Id, now: Time) returns (out: Outcome)
      requires Valid()
      modifies this`sessions, this`audit
      ensures Valid()
      ensures StepResult(Snapshot(), out) == LogoutStep(old(Snapshot()), user, session, now)
      ensures KeepsFamilies(cfg, old(Snapshot()), AuthModel.Logout(user, session), Snapshot())
    {
      StepKeepsFamilies(cfg, Snapshot(), AuthModel.Logout(user, session), now);
      if session !in sessions {
        return LoggedOut(false);
      }
      if sessions[session].userId != user {
        return Failed(NotOwner);
      }
      if sessions[session].revokedAt != None {
        return LoggedOut(false);
      }
      var row := sessions[session];
      row := row.(lastUsedAt := Some(now));
      row := row.(revokedAt := Some(now));
      row := row.(reason := Some(UserLogout));
      sessions := sessions[session := row];
      Record(SessionRevoked(session, user, sessions[session].familyId, now));
      out := LoggedOut(true);
    }

    /** Reads only: the tables and the log are left alone. */
    method Authenticate(cfg: Config, t: AccessToken, wallClock: Time, now: Time) returns (out: Outcome)
      ensures out == AuthenticateStep(cfg, Snapshot(), t, wallClock, now)
      ensures out.Principal? <==>
              && Decodes(cfg, t, wallClock) && Interactive(t.role)
              && t.sessionId in sessions && sessions[t.sessionId].userId == t.userId
              && sessions[t.sessionId].revokedAt == None && now < sessions[t.sessionId].expiresAt
              && t.userId in users && users[t.userId] == User(t.role, Active)
      ensures out.Principal? ==> out == Principal(t.userId, t.sessionId, t.role)
    {
      if !Decodes(cfg, t, wallClock) {
        return Failed(AccessDenied(TokenExpiredOrImmature));
      }
      if !Interactive(t.role) {
        return Failed(AccessDenied(RoleNotInteractive));
      }
      if t.sessionId !in sessions {
        return Failed(AccessDenied(SessionNotFound));
      }
      var row := sessions[t.sessionId];
      if row.userId != t.userId {
        return Failed(AccessDenied(SessionUserMismatch));
      }
      if row.revokedAt != None {
        return Failed(AccessDenied(SessionIsRevoked));
      }
      if row.expiresAt <= now {
        return Failed(AccessDenied(SessionIsExpired));
      }
      if t.userId !in users {
        return Failed(AccessDenied(UserNotFound));
      }
      var user := users[t.userId];
      if user.status != Active {
        return Failed(AccessDenied(UserInactive));
      }
      if user.role != t.role {
        return Failed(AccessDenied(RoleChanged));
      }
      return Principal(t.userId, t.sessionId, t.role);
    }

    method CountActiveAdmins() returns (count: nat)
      ensures count == |ActiveAdmins(Snapshot())|
    {
      var admins := set u | u in users && users[u] == User(Admin, Active);
      assert admins == ActiveAdmins(Snapshot());
      count := |admins|;
    }

    /**
      Accepts exactly an administrator by token who is an active one in the database; a refusal names the
      first check that fails.
     */
    method ValidateManager(manager: Manager) returns (refused: Option<AccessRefusal>)
      ensures refused == None <==> manager.role == Admin && ActiveAdmin(Snapshot(), manager.userId)
      ensures refused == Some(ManagerMissing) <==> manager.userId !in users
      ensures refused == Some(ManagerInactive) <==> manager.userId in users && users[manager.userId].status != Active
      ensures refused == Some(ManagerRoleMismatch) <==>
                manager.userId in users && users[manager.userId].status == Active
                    && users[manager.userId].role != manager.role
      ensures refused == Some(NotAdministrator) <==>
                manager.userId in users && users[manager.userId] == User(manager.role, Active) && manager.role != Admin
    {
      if manager.userId !in users {
        return Some(ManagerMissing);
      }
      if users[manager.userId].status != Active {
        return Some(ManagerInactive);
      }
      if users[manager.userId].role != manager.role {
        return Some(ManagerRoleMismatch);
      }
      return if manager.role != Admin then Some(NotAdministrator) else None;
    }

    /** Every reason to refuse an access change, in order. */
    method CheckAccessChange(manager: Manager, target: Id, role: Option<Role>, status: Option<UserStatus>)
      returns (refused: Option<AccessRefusal>)
      ensures refused == AccessRefused(Snapshot(), manager, target, role, status)
    {
      if manager.role != Admin {
        return Some(NotAdministrator);
      }
      if role == Some(System) || status == Some(Deleted) || (role == None && status == None) {
        return Some(InvalidChange);
      }
      refused := ValidateManager(manager);
      if refused != None {
        return;
      }
      if target !in users {
        return Some(UnknownTarget);
      }
      if users[target].role == System {
        return Some(SystemIdentity);
      }
      if users[target].status == Deleted {
        return Some(DeletedTarget);
      }
      var removes := Changed(users[target], role, status) != User(Admin, Active);
      if target == manager.userId && removes {
        return Some(SelfMutation);
      }
      if users[target] == User(Admin, Active) && removes {
        var admins := CountActiveAdmins();
        if admins <= 1 {
          return Some(FinalAdministrator);
        }
      }
      return None;
    }

    method SetAccess(ghost cfg: Config, manager: Manager, target: Id, role: Option<Role>, status: Option<UserStatus>,
        now: Time)
      returns (out: Outcome)
      requires Valid()
      modifies this
      ensures Valid()
      ensures StepResult(Snapshot(), out) == SetAccessStep(old(Snapshot()), manager, target, role, status, now)
      ensures KeepsFamilies(cfg, old(Snapshot()), AuthModel.SetAccess(manager, target, role, status), Snapshot())
    {
      StepKeepsFamilies(cfg, Snapshot(), AuthModel.SetAccess(manager, target, role, status), now);
      var refused := CheckAccessChange(manager, target, role, status);
      if refused != None {
        return Failed(AccessChangeRefused(refused.value));
      }
      var changed := Changed(users[target], role, status);
      if users[target] == changed {
        return AccessSet(false, 0);
      }
      users := users[target := changed];
      var count := RevokeAllForUser(target, now, AccessChanged);
      Record(AccessUpdated(target, count, now));
      out := AccessSet(true, count);
    }
  }
}
