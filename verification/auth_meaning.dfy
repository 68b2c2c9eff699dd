/**
  What each authentication use case does, read off the database and the command: exactly when it
  succeeds, exactly when it is refused and how, and what it writes in each case.
 */
module AuthMeaning {
  import opened AuthFamilies
  import opened AuthLockout
  import opened AuthModel
  import opened AuthSafety
  import opened Outcomes

  // ----- Conditions -----

  /** The email belongs to this account, which has a credential and a user row. */
  predicate Known(db: Db, email: string, u: Id) {
    email in db.emailIndex && db.emailIndex[email] == u && u in db.credentials && u in db.users
  }

  predicate LockLasts(c: Credential, now: Time) {
    c.lockedUntil.Some? && now < c.lockedUntil.value
  }

  /** The login gets as far as comparing the password. */
  predicate Comparable(db: Db, email: string, u: Id, now: Time) {
    Known(db, email, u) && !LockLasts(db.credentials[u], now) && db.users[u].status == Active
  }

  predicate RightPassword(cfg: Config, db: Db, u: Id, password: string)
    requires u in db.credentials
  {
    cfg.verifies(password, db.credentials[u].passwordHash)
  }

  /** A rehash, if one is due, has its digest. */
  predicate Rehashable(cfg: Config, db: Db, u: Id, supply: Supply)
    requires u in db.credentials
  {
    cfg.needsRehash(db.credentials[u].passwordHash) ==> supply.passwordHash.Some?
  }

  /** Neither the session id nor the digest of the refresh token has been used. */
  predicate Insertable(cfg: Config, db: Db, supply: Supply) {
    && supply.sessionId !in db.sessions
    && forall s :: s in db.sessions ==> db.sessions[s].tokenHash != cfg.hashToken(supply.refreshToken)
  }

  /** The attempts on record once this wrong password has been counted; an expired lock starts over. */
  function AttemptsAfter(c: Credential, now: Time): nat {
    if c.lockedUntil.Some? && !LockLasts(c, now) then 1 else c.failedAttempts + 1
  }

  // ----- Login -----

  /** Exactly when a login succeeds. */
  lemma LoginSucceedsIff(cfg: Config, db: Db, email: string, password: string, supply: Supply, now: Time)
    ensures LoginStep(cfg, db, email, password, supply, now).outcome.Issued? <==>
              && email in db.emailIndex
              && var u := db.emailIndex[email];
              && u in db.credentials && u in db.users
              && db.users[u].status == Active && db.users[u].role != System
              && !LockLasts(db.credentials[u], now)
              && cfg.verifies(password, db.credentials[u].passwordHash)
              && (cfg.needsRehash(db.credentials[u].passwordHash) ==> supply.passwordHash.Some?)
              && cfg.accessTtl < cfg.refreshTtl
              && Insertable(cfg, db, supply)
  {
  }

  /** Exactly why a login is refused for its credentials. */
  lemma LoginRefusedIff(cfg: Config, db: Db, email: string, password: string, supply: Supply, now: Time, u: Id)
    requires email in db.emailIndex ==> db.emailIndex[email] == u
    ensures var o := LoginStep(cfg, db, email, password, supply, now).outcome;
            && (o == Failed(BadCredentials(UnknownEmail)) <==> email !in db.emailIndex || u !in db.credentials)
            && (o == Failed(BadCredentials(Locked)) <==>
                 Known(db, email, u) && LockLasts(db.credentials[u], now))
            && (o == Failed(BadCredentials(Inactive)) <==>
                 Known(db, email, u) && !LockLasts(db.credentials[u], now) && db.users[u].status != Active)
            && (o == Failed(BadCredentials(WrongPassword)) <==>
                 Comparable(db, email, u, now) && !RightPassword(cfg, db, u, password)
                 && AttemptsAfter(db.credentials[u], now) < cfg.maxAttempts)
            && (o == Failed(BadCredentials(LockedNow)) <==>
                 Comparable(db, email, u, now) && !RightPassword(cfg, db, u, password)
                 && AttemptsAfter(db.credentials[u], now) >= cfg.maxAttempts)
  {
  }

  /** Exactly when a login with the right password, or for a broken account, raises instead. */
  lemma LoginRaisesIff(cfg: Config, db: Db, email: string, password: string, supply: Supply, now: Time, u: Id)
    requires email in db.emailIndex ==> db.emailIndex[email] == u
    ensures var o := LoginStep(cfg, db, email, password, supply, now).outcome;
            var right := Comparable(db, email, u, now) && RightPassword(cfg, db, u, password);
            && (o == Failed(HashingFailure) <==> right && !Rehashable(cfg, db, u, supply))
            && (o == Failed(PersistenceFailure) <==>
                 || (email in db.emailIndex && u in db.credentials && u !in db.users)
                 || (right && Rehashable(cfg, db, u, supply) && cfg.accessTtl < cfg.refreshTtl
                     && !Insertable(cfg, db, supply)))
            && (o == Failed(ConfigurationFailure) <==>
                 right && Rehashable(cfg, db, u, supply)
                 && (cfg.refreshTtl <= cfg.accessTtl || (Insertable(cfg, db, supply) && db.users[u].role == System)))
  {
  }

  /** A step counts a wrong password exactly when the password was compared and does not match. */
  lemma CountsIff(cfg: Config, db: Db, cmd: Command, now: Time, u: Id)
    ensures Counts(cfg, db, cmd, now, u) <==>
              cmd.Login? && Comparable(db, cmd.email, u, now) && !RightPassword(cfg, db, u, cmd.password)
  {
    if cmd.Login? {
      LoginRefusedIff(cfg, db, cmd.email, cmd.password, cmd.supply, now,
          if cmd.email in db.emailIndex then db.emailIndex[cmd.email] else u);
    }
  }

  /** What a refused login writes: an event always, and the credential only when a wrong password counts. */
  lemma RefusedLoginWrites(cfg: Config, db: Db, email: string, password: string, supply: Supply, now: Time, u: Id)
    requires email in db.emailIndex ==> db.emailIndex[email] == u
    requires LoginStep(cfg, db, email, password, supply, now).outcome.Failed?
    requires LoginStep(cfg, db, email, password, supply, now).outcome.failure.BadCredentials?
    ensures var r := LoginStep(cfg, db, email, password, supply, now);
            var why := r.outcome.failure.loginFailure;
            && r.db.users == db.users && r.db.emailIndex == db.emailIndex && r.db.sessions == db.sessions
            && r.db.credentials.Keys == db.credentials.Keys
            && (forall v :: v in db.credentials && (v != u || why !in {WrongPassword, LockedNow}) ==>
                  r.db.credentials[v] == db.credentials[v])
            && |r.db.audit| == |db.audit| + 1 && db.audit <= r.db.audit
            && r.db.audit[|db.audit|] ==
               if why == UnknownEmail then LoginFailed(None, UnknownEmail, None, None, now)
               else LoginFailed(Some(u), why, Some(r.db.credentials[u].failedAttempts),
                                if why == Inactive then None else r.db.credentials[u].lockedUntil, now)
  {
  }

  /** What counting a wrong password makes of the credential. */
  lemma CountedAttemptWrites(cfg: Config, db: Db, email: string, password: string, supply: Supply, now: Time, u: Id)
    requires Comparable(db, email, u, now) && !RightPassword(cfg, db, u, password)
    ensures var (c, c') := (db.credentials[u], LoginStep(cfg, db, email, password, supply, now).db.credentials[u]);
            && c'.email == c.email && c'.passwordHash == c.passwordHash
            && c'.failedAttempts == AttemptsAfter(c, now)
            && (AttemptsAfter(c, now) >= cfg.maxAttempts ==> c'.lockedUntil == Some(now + cfg.lockout))
            && (AttemptsAfter(c, now) < cfg.maxAttempts ==> c'.lockedUntil == None)
  {
  }

  /** What a successful login writes and hands out. */
  lemma SuccessfulLoginWrites(cfg: Config, db: Db, email: string, password: string, supply: Supply, now: Time)
    requires LoginStep(cfg, db, email, password, supply, now).outcome.Issued?
    ensures email in db.emailIndex && db.emailIndex[email] in db.users && db.emailIndex[email] in db.credentials
    ensures var (u, r) := (db.emailIndex[email], LoginStep(cfg, db, email, password, supply, now));
            var (c, t) := (db.credentials[u], r.outcome.tokens);
            && r.db.users == db.users && r.db.emailIndex == db.emailIndex
            && (forall v :: v in db.credentials && v != u
                 ==> v in r.db.credentials && r.db.credentials[v] == db.credentials[v])
            && u in r.db.credentials && r.db.credentials[u].email == c.email
            && r.db.credentials[u].failedAttempts == 0 && r.db.credentials[u].lockedUntil == None
            && (!cfg.needsRehash(c.passwordHash) ==> r.db.credentials[u].passwordHash == c.passwordHash)
            && (cfg.needsRehash(c.passwordHash) ==> Some(r.db.credentials[u].passwordHash) == supply.passwordHash)
            && OpensSession(cfg, db, r.db, supply, u, now)
            && HandsOut(cfg, t, u, db.users[u].role, supply, now, now + cfg.refreshTtl)
            && r.db.audit == db.audit + [LoginSucceeded(supply.sessionId, u, supply.familyId, now)]
  {
  }

  /** One new session of this user and family, open from now for the refresh lifetime; all others as before. */
  predicate OpensSession(cfg: Config, db: Db, after: Db, supply: Supply, u: Id, now: Time) {
    && after.sessions.Keys == db.sessions.Keys + {supply.sessionId} && supply.sessionId !in db.sessions
    && (forall s :: s in db.sessions ==> after.sessions[s] == db.sessions[s])
    && var row := after.sessions[supply.sessionId];
    && row.userId == u && row.familyId == supply.familyId && row.tokenHash == cfg.hashToken(supply.refreshToken)
    && row.createdAt == now && row.expiresAt == now + cfg.refreshTtl
    && row.replacedBy == None && row.lastUsedAt == None && row.revokedAt == None && row.reason == None
  }

  /** The pair: an access token for this user, session and role, valid for its lifetime, and the refresh token. */
  predicate HandsOut(cfg: Config, t: TokenPair, u: Id, role: Role, supply: Supply, now: Time, expires: Time) {
    && t.access.userId == u && t.access.sessionId == supply.sessionId && t.access.role == role
    && t.access.issuedAt == now && t.access.expiresAt == now + cfg.accessTtl
    && t.refreshToken == supply.refreshToken && t.refreshExpiresAt == expires
  }

  // ----- Registration -----

  /** Exactly when a registration succeeds, and how it is refused, in the order of the checks. */
  lemma RegistrationSucceedsIff(cfg: Config, db: Db, email: string, password: string, name: Option<string>,
      supply: Supply, now: Time)
    ensures var o := RegisterStep(cfg, db, email, password, name, supply, now).outcome;
            var hashed := cfg.acceptable(password, email, name) && supply.passwordHash.Some?;
            var free := supply.userId !in db.users && supply.userId !in db.credentials && Insertable(cfg, db, supply);
            && (o.Issued? <==> hashed && cfg.accessTtl < cfg.refreshTtl && email !in db.emailIndex && free)
            && (o == Failed(WeakPassword) <==> !cfg.acceptable(password, email, name))
            && (o == Failed(HashingFailure) <==> cfg.acceptable(password, email, name) && supply.passwordHash.None?)
            && (o == Failed(ConfigurationFailure) <==> hashed && cfg.refreshTtl <= cfg.accessTtl)
            && (o == Failed(EmailTaken) <==> hashed && cfg.accessTtl < cfg.refreshTtl && email in db.emailIndex)
            && (o == Failed(PersistenceFailure) <==>
                 hashed && cfg.accessTtl < cfg.refreshTtl && email !in db.emailIndex && !free)
            && (!o.Issued? ==> RegisterStep(cfg, db, email, password, name, supply, now).db == db)
  {
  }

  /** What a successful registration writes and hands out: an active customer with that password and a session. */
  lemma RegistrationWrites(cfg: Config, db: Db, email: string, password: string, name: Option<string>,
      supply: Supply, now: Time)
    requires RegisterStep(cfg, db, email, password, name, supply, now).outcome.Issued?
    ensures supply.passwordHash.Some?
    ensures var (u, r) := (supply.userId, RegisterStep(cfg, db, email, password, name, supply, now));
            && r.db.users == db.users[u := User(Customer, Active)] && u !in db.users
            && r.db.credentials == db.credentials[u := Credential(email, supply.passwordHash.value, 0, None)]
            && r.db.emailIndex == db.emailIndex[email := u] && email !in db.emailIndex
            && OpensSession(cfg, db, r.db, supply, u, now)
            && HandsOut(cfg, r.outcome.tokens, u, Customer, supply, now, now + cfg.refreshTtl)
            && r.db.audit == db.audit + [UserRegistered(supply.sessionId, u, supply.familyId, now)]
  {
  }

  /** Whoever registered can log in with any password the stored digest verifies, and with no other. */
  lemma RegisteredUsersLogIn(cfg: Config, db: Db, email: string, password: string, name: Option<string>,
      supply: Supply, now: Time, attempt: string, next: Supply, later: Time)
    requires RegisterStep(cfg, db, email, password, name, supply, now).outcome.Issued?
    requires Insertable(cfg, RegisterStep(cfg, db, email, password, name, supply, now).db, next)
              && next.passwordHash.Some?
    ensures var after := RegisterStep(cfg, db, email, password, name, supply, now).db;
            LoginStep(cfg, after, email, attempt, next, later).outcome.Issued?
            <==> cfg.verifies(attempt, supply.passwordHash.value)
  {
    var after := RegisterStep(cfg, db, email, password, name, supply, now).db;
    RegistrationSucceedsIff(cfg, db, email, password, name, supply, now);
    RegistrationWrites(cfg, db, email, password, name, supply, now);
    LoginSucceedsIff(cfg, after, email, attempt, next, later);
  }

  // ----- Refresh -----

  /** The token's digest is that of this session, and of no other. */
  ghost predicate Presents(cfg: Config, db: Db, token: string, id: Id) {
    UniqueHashes(db.sessions) && id in db.sessions && db.sessions[id].tokenHash == cfg.hashToken(token)
  }

  predicate Usable(db: Db, u: Id) {
    u in db.users && u in db.credentials && db.users[u].status == Active && db.users[u].role != System
  }

  /** The presented session is unrevoked and unexpired. */
  predicate Open(row: Session, now: Time) {
    row.revokedAt == None && now < row.expiresAt
  }

  lemma PresentedIsFound(cfg: Config, db: Db, token: string, id: Id)
    requires Presents(cfg, db, token, id)
    ensures FindByHash(db.sessions, cfg.hashToken(token)) == Some(id)
  {
    FindByHashUnique(db.sessions, id);
  }

  /** A token nobody holds is refused; only the refusal is recorded. */
  lemma UnknownTokensAreRefused(cfg: Config, db: Db, token: string, supply: Supply, now: Time)
    requires forall s :: s in db.sessions ==> db.sessions[s].tokenHash != cfg.hashToken(token)
    ensures var r := RefreshStep(cfg, db, token, supply, now);
            && r.outcome == Failed(BadRefreshToken(UnknownToken))
            && r.db == db.(audit := db.audit + [RefreshFailed(None, UnknownToken, None, now)])
  {
    FindByHashFinds(db.sessions, cfg.hashToken(token));
  }

  /** Exactly when a presented token rotates, and exactly how it is refused otherwise. */
  lemma RefreshSucceedsIff(cfg: Config, db: Db, token: string, supply: Supply, now: Time, id: Id)
    requires Presents(cfg, db, token, id)
    ensures var (row, o) := (db.sessions[id], RefreshStep(cfg, db, token, supply, now).outcome);
            var spendable := Open(row, now) && Usable(db, row.userId);
            var lasting := now + cfg.accessTtl < row.expiresAt;
            && (o.Issued? <==> spendable && lasting && Insertable(cfg, db, supply))
            && (o == Failed(BadRefreshToken(ReusedToken)) <==> row.revokedAt.Some?)
            && (o == Failed(BadRefreshToken(ExpiredToken)) <==> row.revokedAt.None? && row.expiresAt <= now)
            && (o == Failed(BadRefreshToken(UnavailableAccount)) <==> Open(row, now) && !Usable(db, row.userId))
            && (o == Failed(BadRefreshToken(ShortLifetime)) <==> spendable && !lasting)
            && (o == Failed(PersistenceFailure) <==> spendable && lasting && !Insertable(cfg, db, supply))
  {
    PresentedIsFound(cfg, db, token, id);
  }

  /** Every row of these is revoked now for this reason, and every other row is as it was. */
  ghost predicate RevokesExactly(before: map<Id, Session>, after: map<Id, Session>, rows: set<Id>, now: Time,
      reason: Reason)
  {
    && after.Keys == before.Keys
    && forall s :: s in before ==>
         && (s !in rows ==> after[s] == before[s])
         && (s in rows ==> after[s] == before[s].(revokedAt := Some(now), reason := Some(reason)))
  }

  ghost function UnrevokedOf(db: Db, f: Id): set<Id> {
    set s | s in db.sessions && db.sessions[s].familyId == f && db.sessions[s].revokedAt == None
  }

  /** What the presentation of a spent token, or of one of an unusable account, does to the whole family. */
  lemma FamilyRevocationWrites(cfg: Config, db: Db, token: string, supply: Supply, now: Time, id: Id)
    requires Presents(cfg, db, token, id)
    requires var row := db.sessions[id]; row.revokedAt.Some? || (Open(row, now) && !Usable(db, row.userId))
    ensures var (row, r) := (db.sessions[id], RefreshStep(cfg, db, token, supply, now));
            var (rows, reused) := (UnrevokedOf(db, row.familyId), row.revokedAt.Some?);
            && r.db.users == db.users && r.db.credentials == db.credentials && r.db.emailIndex == db.emailIndex
            && RevokesExactly(db.sessions, r.db.sessions, rows, now, if reused then TokenReuse else AccountUnavailable)
            && FamilyDead(r.db.sessions, row.familyId)
            && r.db.audit == db.audit + [if reused then ReuseDetected(id, row.userId, row.familyId, |rows|, now)
                                         else RefreshFailed(Some(id), UnavailableAccount, Some(|rows|), now)]
  {
    PresentedIsFound(cfg, db, token, id);
    var (f, after) := (db.sessions[id].familyId, RefreshStep(cfg, db, token, supply, now).db);
    assert UnrevokedOf(db, f) == ActiveFamily(db.sessions, f);
    assert id in after.sessions && after.sessions[id].familyId == f;
  }

  /** A token refused as expired or too short leaves its row revoked for that reason, and no other row changed. */
  lemma RetirementWrites(cfg: Config, db: Db, token: string, supply: Supply, now: Time, id: Id)
    requires Presents(cfg, db, token, id) && db.sessions[id].revokedAt == None
    requires var row := db.sessions[id];
             row.expiresAt <= now || (Usable(db, row.userId) && row.expiresAt <= now + cfg.accessTtl)
    ensures var (row, r) := (db.sessions[id], RefreshStep(cfg, db, token, supply, now));
            var expired := row.expiresAt <= now;
            && r.db.users == db.users && r.db.credentials == db.credentials && r.db.emailIndex == db.emailIndex
            && r.db.sessions.Keys == db.sessions.Keys
            && (forall s :: s in db.sessions && s != id ==> r.db.sessions[s] == db.sessions[s])
            && r.db.sessions[id] == row.(revokedAt := Some(now), lastUsedAt := Some(now),
                                         reason := Some(if expired then TokenExpired else InsufficientLifetime))
            && r.db.audit == db.audit
                 + [RefreshFailed(Some(id), if expired then ExpiredToken else ShortLifetime, None, now)]
  {
    PresentedIsFound(cfg, db, token, id);
  }

  /** What a rotation writes and hands out. */
  lemma RotationWrites(cfg: Config, db: Db, token: string, supply: Supply, now: Time, id: Id)
    requires Presents(cfg, db, token, id) && RefreshStep(cfg, db, token, supply, now).outcome.Issued?
    ensures db.sessions[id].userId in db.users
    ensures var (row, r) := (db.sessions[id], RefreshStep(cfg, db, token, supply, now));
            && r.db.users == db.users && r.db.credentials == db.credentials && r.db.emailIndex == db.emailIndex
            && supply.sessionId !in db.sessions && r.db.sessions.Keys == db.sessions.Keys + {supply.sessionId}
            && (forall s :: s in db.sessions && s != id ==> r.db.sessions[s] == db.sessions[s])
            && r.db.sessions[id] == row.(revokedAt := Some(now), reason := Some(TokenRotated), lastUsedAt := Some(now),
                                         replacedBy := Some(supply.sessionId))
            && r.db.sessions[supply.sessionId]
               == Session(row.userId, row.familyId, cfg.hashToken(supply.refreshToken), now, row.expiresAt, None,
                   None, None, None)
            && HandsOut(cfg, r.outcome.tokens, row.userId, db.users[row.userId].role, supply, now, row.expiresAt)
            && r.db.audit == db.audit + [SessionRefreshed(supply.sessionId, id, row.userId, row.familyId, now)]
  {
    PresentedIsFound(cfg, db, token, id);
    RefreshSucceedsIff(cfg, db, token, supply, now, id);
  }

  // ----- Refresh over whole runs -----

  lemma {:induction false} ReachableHashes(cfg: Config, db: Db, run: seq<Timed>, n: nat)
    requires Initial(db) && Admissible(cfg, db, run) && n <= |run|
    ensures UniqueHashes(StateAt(cfg, db, run, n).sessions)
  {
    ReachableSessionsLinked(cfg, db, run, n);
  }

  /**
    Presenting a live token of an unusable account ends the family for good, even if the account becomes
    usable again: no session of the family is active at any later step, and its tokens fail.
   */
  lemma UnusableAccountEndsTheFamily(cfg: Config, db: Db, run: seq<Timed>, i: nat, j: nat, id: Id)
    requires Initial(db) && Admissible(cfg, db, run) && i < j <= |run| && run[i].cmd.Refresh?
    requires var before := StateAt(cfg, db, run, i);
             && Presents(cfg, before, run[i].cmd.token, id)
             && Open(before.sessions[id], run[i].at) && !Usable(before, before.sessions[id].userId)
    ensures var f := StateAt(cfg, db, run, i).sessions[id].familyId;
            && ResultAt(cfg, db, run, i).outcome == Failed(BadRefreshToken(UnavailableAccount))
            && FamilyDead(StateAt(cfg, db, run, j).sessions, f)
            && (j < |run| && UsesFamily(cfg, StateAt(cfg, db, run, j), run[j].cmd, f) ==>
                 ResultAt(cfg, db, run, j).outcome.Failed?)
  {
    var (before, cmd, now) := (StateAt(cfg, db, run, i), run[i].cmd, run[i].at);
    var f := before.sessions[id].familyId;
    FamilyRevocationWrites(cfg, before, cmd.token, cmd.supply, now, id);
    RefreshSucceedsIff(cfg, before, cmd.token, cmd.supply, now, id);
    assert StateAt(cfg, db, run, i + 1) == ResultAt(cfg, db, run, i).db;
    DeadFamiliesStayDead(cfg, db, run, i + 1, j, f);
    if j < |run| && UsesFamily(cfg, StateAt(cfg, db, run, j), run[j].cmd, f) {
      DeadFamilyIsRefused(cfg, StateAt(cfg, db, run, j), run[j].cmd, run[j].at, f);
    }
  }

  /** Once its session is revoked, for whatever reason, a refresh token is only ever detected as reuse. */
  lemma RevokedTokensAreReuse(cfg: Config, db: Db, run: seq<Timed>, i: nat, j: nat, id: Id)
    requires Initial(db) && Admissible(cfg, db, run) && i <= j < |run| && run[j].cmd.Refresh?
    requires id in StateAt(cfg, db, run, i).sessions && StateAt(cfg, db, run, i).sessions[id].revokedAt.Some?
    requires cfg.hashToken(run[j].cmd.token) == StateAt(cfg, db, run, i).sessions[id].tokenHash
    ensures ResultAt(cfg, db, run, j).outcome == Failed(BadRefreshToken(ReusedToken))
  {
    RunEvolves(cfg, db, run, i, j);
    ReachableHashes(cfg, db, run, j);
    var now := StateAt(cfg, db, run, j);
    RefreshSucceedsIff(cfg, now, run[j].cmd.token, run[j].cmd.supply, run[j].at, id);
  }

  // ----- Logout -----

  /** Exactly what a logout answers, and what it writes. */
  lemma LogoutMeaning(db: Db, user: Id, session: Id, now: Time)
    ensures var r := LogoutStep(db, user, session, now);
            var owned := session in db.sessions && db.sessions[session].userId == user;
            && (r.outcome == LoggedOut(true) <==> owned && db.sessions[session].revokedAt == None)
            && (r.outcome == LoggedOut(false) <==>
                 session !in db.sessions || (owned && db.sessions[session].revokedAt.Some?))
            && (r.outcome == Failed(NotOwner) <==> session in db.sessions && !owned)
            && (r.outcome != LoggedOut(true) ==> r.db == db)
            && (r.outcome == LoggedOut(true) ==>
                 var row := db.sessions[session];
                 && r.db.users == db.users && r.db.credentials == db.credentials && r.db.emailIndex == db.emailIndex
                 && r.db.sessions == db.sessions[session := row.(revokedAt := Some(now), reason := Some(UserLogout),
                                                                 lastUsedAt := Some(now))]
                 && r.db.audit == db.audit + [SessionRevoked(session, user, row.familyId, now)])
  {
  }

  lemma RevocationKeepsTheDigest(cfg: Config, db: Db, run: seq<Timed>, i: nat, id: Id)
    requires Admissible(cfg, db, run) && i < |run| && id in StateAt(cfg, db, run, i).sessions
    ensures StateAt(cfg, db, run, i + 1) == ResultAt(cfg, db, run, i).db
    ensures id in StateAt(cfg, db, run, i + 1).sessions
    ensures StateAt(cfg, db, run, i + 1).sessions[id].tokenHash == StateAt(cfg, db, run, i).sessions[id].tokenHash
  {
    RunEvolves(cfg, db, run, i, i + 1);
  }

  /** Whatever step revoked it, a session authenticates nobody afterwards. */
  lemma RevokedSessionDenies(cfg: Config, db: Db, run: seq<Timed>, i: nat, j: nat, id: Id)
    requires Admissible(cfg, db, run) && i < j < |run| && run[j].cmd.Authenticate? && run[j].cmd.access.sessionId == id
    requires var after := ResultAt(cfg, db, run, i).db.sessions; id in after && after[id].revokedAt.Some?
    ensures ResultAt(cfg, db, run, j).outcome.Failed?
  {
    assert StateAt(cfg, db, run, i + 1) == ResultAt(cfg, db, run, i).db;
    RevokedSessionsNeverAuthenticate(cfg, db, run, i + 1, j);
  }

  /** Whatever step revoked it, a session's refresh token is detected as reuse afterwards. */
  lemma RevokedSessionIsReuse(cfg: Config, db: Db, run: seq<Timed>, i: nat, j: nat, id: Id)
    requires Initial(db) && Admissible(cfg, db, run) && i < j < |run| && run[j].cmd.Refresh?
    requires id in StateAt(cfg, db, run, i).sessions
    requires cfg.hashToken(run[j].cmd.token) == StateAt(cfg, db, run, i).sessions[id].tokenHash
    requires var after := ResultAt(cfg, db, run, i).db.sessions; id in after && after[id].revokedAt.Some?
    ensures ResultAt(cfg, db, run, j).outcome == Failed(BadRefreshToken(ReusedToken))
  {
    RevocationKeepsTheDigest(cfg, db, run, i, id);
    RevokedTokensAreReuse(cfg, db, run, i + 1, j, id);
  }

  /** At every later step of the run no token bound to this session works. */
  ghost predicate OverFrom(cfg: Config, db: Db, run: seq<Timed>, i: nat, id: Id)
    requires i < |run| && id in StateAt(cfg, db, run, i).sessions
  {
    var h := StateAt(cfg, db, run, i).sessions[id].tokenHash;
    forall j: nat :: i < j < |run| ==>
      && (run[j].cmd.Authenticate? && run[j].cmd.access.sessionId == id ==> ResultAt(cfg, db, run, j).outcome.Failed?)
      && (run[j].cmd.Refresh? && cfg.hashToken(run[j].cmd.token) == h ==>
            ResultAt(cfg, db, run, j).outcome == Failed(BadRefreshToken(ReusedToken)))
  }

  lemma RevokedSessionIsOver(cfg: Config, db: Db, run: seq<Timed>, i: nat, id: Id)
    requires Initial(db) && Admissible(cfg, db, run) && i < |run| && id in StateAt(cfg, db, run, i).sessions
    requires var after := ResultAt(cfg, db, run, i).db.sessions; id in after && after[id].revokedAt.Some?
    ensures OverFrom(cfg, db, run, i, id)
  {
    forall j: nat | i < j < |run| && run[j].cmd.Authenticate? && run[j].cmd.access.sessionId == id
      ensures ResultAt(cfg, db, run, j).outcome.Failed?
    {
      RevokedSessionDenies(cfg, db, run, i, j, id);
    }
    forall j: nat | i < j < |run| && run[j].cmd.Refresh?
        && cfg.hashToken(run[j].cmd.token) == StateAt(cfg, db, run, i).sessions[id].tokenHash
      ensures ResultAt(cfg, db, run, j).outcome == Failed(BadRefreshToken(ReusedToken))
    {
      RevokedSessionIsReuse(cfg, db, run, i, j, id);
    }
  }

  /** After a logout neither the session's refresh token nor its access tokens ever work again. */
  lemma LogoutEndsTheSession(cfg: Config, db: Db, run: seq<Timed>, i: nat)
    requires Initial(db) && Admissible(cfg, db, run) && i < |run|
    requires run[i].cmd.Logout? && ResultAt(cfg, db, run, i).outcome == LoggedOut(true)
    ensures run[i].cmd.sessionId in StateAt(cfg, db, run, i).sessions
    ensures OverFrom(cfg, db, run, i, run[i].cmd.sessionId)
  {
    LogoutMeaning(StateAt(cfg, db, run, i), run[i].cmd.userId, run[i].cmd.sessionId, run[i].at);
    RevokedSessionIsOver(cfg, db, run, i, run[i].cmd.sessionId);
  }

  // ----- Authentication -----

  /** Exactly why an access token is refused, in the order of the checks. */
  lemma AccessDeniedIff(cfg: Config, db: Db, t: AccessToken, wallClock: Time, now: Time)
    ensures var o := AuthenticateStep(cfg, db, t, wallClock, now);
            var inWindow := t.issuedAt <= wallClock + cfg.leeway && wallClock < t.expiresAt + cfg.leeway;
            var read := inWindow && t.role != System;
            var bound := read && t.sessionId in db.sessions && db.sessions[t.sessionId].userId == t.userId;
            var live := bound && db.sessions[t.sessionId].revokedAt == None && now < db.sessions[t.sessionId].expiresAt;
            var active := live && t.userId in db.users && db.users[t.userId].status == Active;
            && (o == Principal(t.userId, t.sessionId, t.role) <==> active && db.users[t.userId].role == t.role)
            && (o == Failed(AccessDenied(TokenExpiredOrImmature)) <==> !inWindow)
            && (o == Failed(AccessDenied(RoleNotInteractive)) <==> inWindow && t.role == System)
            && (o == Failed(AccessDenied(SessionNotFound)) <==> read && t.sessionId !in db.sessions)
            && (o == Failed(AccessDenied(SessionUserMismatch)) <==> read && t.sessionId in db.sessions && !bound)
            && (o == Failed(AccessDenied(SessionIsRevoked)) <==> bound && db.sessions[t.sessionId].revokedAt.Some?)
            && (o == Failed(AccessDenied(SessionIsExpired)) <==>
                 bound && db.sessions[t.sessionId].revokedAt == None && db.sessions[t.sessionId].expiresAt <= now)
            && (o == Failed(AccessDenied(UserNotFound)) <==> live && t.userId !in db.users)
            && (o == Failed(AccessDenied(UserInactive)) <==>
                 live && t.userId in db.users && db.users[t.userId].status != Active)
            && (o == Failed(AccessDenied(RoleChanged)) <==> active && db.users[t.userId].role != t.role)
  {
  }

  // ----- Access changes -----

  /** The requested change, with what it does not mention kept. */
  predicate Requests(before: User, after: User, role: Option<Role>, status: Option<UserStatus>) {
    && (role.Some? ==> after.role == role.value) && (role.None? ==> after.role == before.role)
    && (status.Some? ==> after.status == status.value) && (status.None? ==> after.status == before.status)
  }

  /** The change would take an active administrator's place away. */
  predicate Demotes(before: User, role: Option<Role>, status: Option<UserStatus>) {
    (if role.Some? then role.value else before.role) != Admin
        || (if status.Some? then status.value else before.status) != Active
  }

  /** Exactly when an access change is permitted, and exactly why it is refused. */
  lemma AccessChangePermittedIff(db: Db, manager: Manager, target: Id, role: Option<Role>, status: Option<UserStatus>,
      now: Time)
    ensures var o := SetAccessStep(db, manager, target, role, status, now).outcome;
            var asked := manager.role == Admin && role != Some(System) && status != Some(Deleted)
                && (role.Some? || status.Some?);
            var m := manager.userId;
            var managed := asked && m in db.users && db.users[m] == User(Admin, Active);
            var touchable := managed && target in db.users && db.users[target].role != System
                && db.users[target].status != Deleted;
            && (o.AccessSet? <==> touchable && !(target == m && Demotes(db.users[target], role, status)))
            && (o == Failed(AccessChangeRefused(NotAdministrator)) <==> manager.role != Admin)
            && (o == Failed(AccessChangeRefused(InvalidChange)) <==> manager.role == Admin && !asked)
            && (o == Failed(AccessChangeRefused(ManagerMissing)) <==> asked && m !in db.users)
            && (o == Failed(AccessChangeRefused(ManagerInactive)) <==>
                 asked && m in db.users && db.users[m].status != Active)
            && (o == Failed(AccessChangeRefused(ManagerRoleMismatch)) <==>
                 asked && m in db.users && db.users[m].status == Active && db.users[m].role != Admin)
            && (o == Failed(AccessChangeRefused(UnknownTarget)) <==> managed && target !in db.users)
            && (o == Failed(AccessChangeRefused(SystemIdentity)) <==>
                 managed && target in db.users && db.users[target].role == System)
            && (o == Failed(AccessChangeRefused(DeletedTarget)) <==>
                 managed && target in db.users && db.users[target].role != System && db.users[target].status == Deleted)
            && (o == Failed(AccessChangeRefused(SelfMutation)) <==>
                 touchable && target == m && Demotes(db.users[target], role, status))
            && (!o.AccessSet? ==> SetAccessStep(db, manager, target, role, status, now).db == db)
  {
    FinalAdministratorIsNeverReported(db, manager, target, role, status);
  }

  ghost function UnrevokedBy(db: Db, user: Id): set<Id> {
    set s | s in db.sessions && db.sessions[s].userId == user && db.sessions[s].revokedAt == None
  }

  /** What a permitted change writes: the requested record, and the end of every open session of the account. */
  lemma AccessChangeWrites(db: Db, manager: Manager, target: Id, role: Option<Role>, status: Option<UserStatus>,
      now: Time)
    requires SetAccessStep(db, manager, target, role, status, now).outcome.AccessSet?
    ensures target in db.users
    ensures var r := SetAccessStep(db, manager, target, role, status, now);
            && r.db.users.Keys == db.users.Keys && Requests(db.users[target], r.db.users[target], role, status)
            && (forall u :: u in db.users && u != target ==> r.db.users[u] == db.users[u])
            && r.db.credentials == db.credentials && r.db.emailIndex == db.emailIndex
            && (r.outcome.changed <==> !Requests(db.users[target], db.users[target], role, status))
            && (!r.outcome.changed ==> r.outcome.revokedSessions == 0 && r.db == db)
            && (r.outcome.changed ==>
                 && r.outcome.revokedSessions == |UnrevokedBy(db, target)|
                 && RevokesExactly(db.sessions, r.db.sessions, UnrevokedBy(db, target), now, AccessChanged)
                 && UnrevokedBy(r.db, target) == {}
                 && r.db.audit == db.audit + [AccessUpdated(target, r.outcome.revokedSessions, now)])
  {
    assert UnrevokedBy(db, target) == ActiveUser(db.sessions, target);
  }

  /**
    An effective access change logs the account out for good: no token bound to a session it had before
    ever works again, whatever is changed back later.
   */
  lemma AccessChangeEndsSessions(cfg: Config, db: Db, run: seq<Timed>, i: nat, id: Id)
    requires Initial(db) && Admissible(cfg, db, run) && i < |run| && run[i].cmd.SetAccess?
    requires ResultAt(cfg, db, run, i).outcome.AccessSet? && ResultAt(cfg, db, run, i).outcome.changed
    requires var before := StateAt(cfg, db, run, i).sessions; id in before && before[id].userId == run[i].cmd.target
    ensures OverFrom(cfg, db, run, i, id)
  {
    var (before, c) := (StateAt(cfg, db, run, i), run[i].cmd);
    AccessChangeWrites(before, c.manager, c.target, c.role, c.status, run[i].at);
    assert before.sessions[id].revokedAt == None ==> id in UnrevokedBy(before, c.target);
    RevokedSessionIsOver(cfg, db, run, i, id);
  }
}
