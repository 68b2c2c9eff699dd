/**
  The persisted security state of the authentication subsystem and the effect that one
  committed (or rolled-back) use case has on it.

  Every use case runs in one unit of work, so it is one atomic step: it either commits all of
  its writes or leaves the database as it was. Times are microseconds. Identifiers are opaque.
 */
module AuthModel {
  import opened Outcomes

  type Id = nat
  type Time = int
  type Hash = string

  datatype Role = Customer | SupportAgent | Admin | System

  datatype UserStatus = Active | Disabled | Deleted

  datatype User = User(role: Role, status: UserStatus)

  datatype Credential = Credential(
    email: string, passwordHash: Hash, failedAttempts: nat, lockedUntil: Option<Time>)

  datatype Reason =
    | TokenRotated
    | TokenReuse
    | TokenExpired
    | AccountUnavailable
    | InsufficientLifetime
    | UserLogout
    | AccessChanged

  /** A row of the refresh-session table. Only the hash of the refresh token is stored. */
  datatype Session = Session(
    userId: Id, familyId: Id, tokenHash: Hash, createdAt: Time, expiresAt: Time,
    replacedBy: Option<Id>, lastUsedAt: Option<Time>, revokedAt: Option<Time>, reason: Option<Reason>)

  datatype LoginFailure = UnknownEmail | WrongPassword | Locked | LockedNow | Inactive

  datatype RefreshFailure = UnknownToken | ReusedToken | ExpiredToken | UnavailableAccount | ShortLifetime

  datatype Event =
    | UserRegistered(sessionId: Id, userId: Id, familyId: Id, at: Time)
    | LoginSucceeded(sessionId: Id, userId: Id, familyId: Id, at: Time)
    | LoginFailed(user: Option<Id>, loginFailure: LoginFailure, attempts: Option<nat>, lockedUntil: Option<Time>,
        at: Time)
    | SessionRefreshed(sessionId: Id, previousId: Id, userId: Id, familyId: Id, at: Time)
    | ReuseDetected(sessionId: Id, userId: Id, familyId: Id, revoked: nat, at: Time)
    | RefreshFailed(session: Option<Id>, refreshFailure: RefreshFailure, familyRevoked: Option<nat>, at: Time)
    | SessionRevoked(sessionId: Id, userId: Id, familyId: Id, at: Time)
    | AccessUpdated(userId: Id, revoked: nat, at: Time)

  /** emailIndex is the unique index on the normalized email column. */
  datatype Db = Db(
    users: map<Id, User>, credentials: map<Id, Credential>, emailIndex: map<string, Id>,
    sessions: map<Id, Session>, audit: seq<Event>)

  /**
    Deployment settings together with the foreign functions the use cases call: the refresh-token
    digest, password verification, the rehash test and the registration password policy (password, email,
    display name) are arbitrary.
   */
  datatype Config = Config(
    accessTtl: Time, leeway: Time, refreshTtl: Time, maxAttempts: nat, lockout: Time,
    hashToken: string -> Hash, verifies: (string, Hash) -> bool, needsRehash: Hash -> bool,
    acceptable: (string, string, Option<string>) -> bool)
  {
    /** What the constructors of the token service and of the login use case insist on. */
    predicate Valid() {
      accessTtl > 0 && leeway >= 0 && refreshTtl > 0 && maxAttempts > 0 && lockout > 0
    }
  }

  /**
    The values drawn from outside during one use case: generated identifiers, the generated
    refresh token, and the digest of the supplied password (None when hashing fails).
   */
  datatype Supply = Supply(
    sessionId: Id, familyId: Id, userId: Id, refreshToken: string, passwordHash: Option<Hash>)

  /** The claims of a signed access token. */
  datatype AccessToken = AccessToken(userId: Id, sessionId: Id, role: Role, issuedAt: Time, expiresAt: Time)

  datatype TokenPair = TokenPair(access: AccessToken, refreshToken: string, refreshExpiresAt: Time)

  datatype Failure =
    | BadCredentials(loginFailure: LoginFailure)
    | BadRefreshToken(refreshFailure: RefreshFailure)
    | PersistenceFailure
    | ConfigurationFailure
    | HashingFailure
    | EmailTaken
    | NotOwner
    | AccessDenied(rejection: Rejection)
    | WeakPassword
    | AccessChangeRefused(refusal: AccessRefusal)

  /** Why an access change is refused; the first two by its command, the others by its use case. */
  datatype AccessRefusal =
    | NotAdministrator | InvalidChange
    | ManagerMissing | ManagerInactive | ManagerRoleMismatch
    | UnknownTarget | SystemIdentity | DeletedTarget
    | SelfMutation | FinalAdministrator

  datatype Rejection =
    | TokenExpiredOrImmature | RoleNotInteractive | SessionNotFound | SessionUserMismatch
    | SessionIsRevoked | SessionIsExpired | UserNotFound | UserInactive | RoleChanged

  datatype Outcome =
    | Issued(tokens: TokenPair)
    | LoggedOut(revoked: bool)
    | Principal(userId: Id, sessionId: Id, role: Role)
    | AccessSet(changed: bool, revokedSessions: nat)
    | Failed(failure: Failure)

  datatype StepResult = StepResult(db: Db, outcome: Outcome)

  datatype Command =
    | Register(email: string, password: string, name: Option<string>, supply: Supply)
    | Login(email: string, password: string, supply: Supply)
    | Refresh(token: string, supply: Supply)
    | Logout(userId: Id, sessionId: Id)
    | Authenticate(access: AccessToken, wallClock: Time)
    | SetAccess(manager: Manager, target: Id, role: Option<Role>, status: Option<UserStatus>)

  /** The authenticated principal who changes access. */
  datatype Manager = Manager(userId: Id, role: Role)

  // ----- Table operations -----

  function Append(db: Db, e: Event): Db {
    db.(audit := db.audit + [e])
  }

  /** The unrevoked rows of one family. */
  ghost function ActiveFamily(sessions: map<Id, Session>, family: Id): set<Id> {
    set s | s in sessions && sessions[s].familyId == family && sessions[s].revokedAt.None?
  }

  ghost function ActiveUser(sessions: map<Id, Session>, user: Id): set<Id> {
    set s | s in sessions && sessions[s].userId == user && sessions[s].revokedAt.None?
  }

  function Revoked(row: Session, at: Time, reason: Reason): Session {
    row.(revokedAt := Some(at), reason := Some(reason))
  }

  ghost function RevokeAll(sessions: map<Id, Session>, rows: set<Id>, at: Time, reason: Reason): map<Id, Session> {
    map s | s in sessions :: if s in rows then Revoked(sessions[s], at, reason) else sessions[s]
  }

  ghost function FindByHash(sessions: map<Id, Session>, h: Hash): Option<Id> {
    if exists s :: s in sessions && sessions[s].tokenHash == h
    then var s :| s in sessions && sessions[s].tokenHash == h; Some(s)
    else None
  }

  /** The primary key and the unique token-hash column refuse the insert. */
  ghost predicate InsertConflicts(sessions: map<Id, Session>, id: Id, h: Hash) {
    id in sessions || exists s :: s in sessions && sessions[s].tokenHash == h
  }

  function NewSession(cfg: Config, user: Id, family: Id, token: string, now: Time, expires: Time): Session {
    Session(user, family, cfg.hashToken(token), now, expires, None, None, None, None)
  }

  function IssueAccessToken(cfg: Config, user: Id, session: Id, role: Role, now: Time): AccessToken {
    AccessToken(user, session, role, now, now + cfg.accessTtl)
  }

  predicate Interactive(role: Role) {
    role != System
  }

  predicate AccountUsable(db: Db, user: Id) {
    user in db.users && user in db.credentials && db.users[user].status == Active && Interactive(db.users[user].role)
  }

  // ----- Login and registration -----

  predicate LockActive(c: Credential, now: Time) {
    c.lockedUntil.Some? && c.lockedUntil.value > now
  }

  function ApplyFailedAttempt(cfg: Config, c: Credential, now: Time): Credential {
    var base := if c.lockedUntil.Some? && c.lockedUntil.value <= now then 0 else c.failedAttempts;
    var lock := if c.lockedUntil.Some? && c.lockedUntil.value <= now then None else c.lockedUntil;
    c.(failedAttempts := base + 1, lockedUntil := if base + 1 >= cfg.maxAttempts then Some(now + cfg.lockout) else lock)
  }

  function FailureAfter(cfg: Config, c: Credential): LoginFailure {
    if c.failedAttempts >= cfg.maxAttempts then LockedNow else WrongPassword
  }

  ghost function LoginStep(cfg: Config, db: Db, email: string, password: string, supply: Supply,
      now: Time): StepResult
  {
    if email !in db.emailIndex || db.emailIndex[email] !in db.credentials then
      StepResult(Append(db, LoginFailed(None, UnknownEmail, None, None, now)), Failed(BadCredentials(UnknownEmail)))
    else
      var user := db.emailIndex[email];
      var c := db.credentials[user];
      if user !in db.users then
        StepResult(db, Failed(PersistenceFailure))
      else if LockActive(c, now) then
        LoginRejected(db, user, c, Locked, c.lockedUntil, now)
      else if db.users[user].status != Active then
        LoginRejected(db, user, c, Inactive, None, now)
      else if !cfg.verifies(password, c.passwordHash) then
        var counted := ApplyFailedAttempt(cfg, c, now);
        LoginRejected(db, user, counted, FailureAfter(cfg, counted), counted.lockedUntil, now)
      else
        LoginAccepted(cfg, db, user, c, supply, now)
  }

  function LoginRejected(db: Db, user: Id, c: Credential, why: LoginFailure, locked: Option<Time>,
      now: Time): StepResult
  {
    StepResult(
      Append(db.(credentials := db.credentials[user := c]),
          LoginFailed(Some(user), why, Some(c.failedAttempts), locked, now)),
      Failed(BadCredentials(why)))
  }

  ghost function LoginAccepted(cfg: Config, db: Db, user: Id, c: Credential, supply: Supply, now: Time): StepResult
    requires user in db.users
  {
    var role := db.users[user].role;
    var access := IssueAccessToken(cfg, user, supply.sessionId, role, now);
    var expires := now + cfg.refreshTtl;
    var rehash := cfg.needsRehash(c.passwordHash);
    if rehash && supply.passwordHash.None? then StepResult(db, Failed(HashingFailure))
    else if expires <= access.expiresAt then StepResult(db, Failed(ConfigurationFailure))
    else if InsertConflicts(db.sessions, supply.sessionId, cfg.hashToken(supply.refreshToken)) then
      StepResult(db, Failed(PersistenceFailure))
    else if !Interactive(role) then StepResult(db, Failed(ConfigurationFailure))
    else
      var stored := if rehash then supply.passwordHash.value else c.passwordHash;
      var row := NewSession(cfg, user, supply.familyId, supply.refreshToken, now, expires);
      StepResult(
        Append(
          db.(credentials := db.credentials[user := c.(passwordHash := stored, failedAttempts := 0,
              lockedUntil := None)],
              sessions := db.sessions[supply.sessionId := row]),
          LoginSucceeded(supply.sessionId, user, supply.familyId, now)),
        Issued(TokenPair(access, supply.refreshToken, expires)))
  }

  ghost function RegisterStep(cfg: Config, db: Db, email: string, password: string, name: Option<string>,
      supply: Supply, now: Time):
    StepResult
  {
    var access := IssueAccessToken(cfg, supply.userId, supply.sessionId, Customer, now);
    var expires := now + cfg.refreshTtl;
    if !cfg.acceptable(password, email, name) then StepResult(db, Failed(WeakPassword))
    else if supply.passwordHash.None? then StepResult(db, Failed(HashingFailure))
    else if expires <= access.expiresAt then StepResult(db, Failed(ConfigurationFailure))
    else if email in db.emailIndex then StepResult(db, Failed(EmailTaken))
    else if supply.userId in db.users || supply.userId in db.credentials
            || InsertConflicts(db.sessions, supply.sessionId, cfg.hashToken(supply.refreshToken)) then
      StepResult(db, Failed(PersistenceFailure))
    else
      var row := NewSession(cfg, supply.userId, supply.familyId, supply.refreshToken, now, expires);
      StepResult(
        Append(
          db.(users := db.users[supply.userId := User(Customer, Active)],
              credentials := db.credentials[supply.userId := Credential(email, supply.passwordHash.value, 0, None)],
              emailIndex := db.emailIndex[email := supply.userId],
              sessions := db.sessions[supply.sessionId := row]),
          UserRegistered(supply.sessionId, supply.userId, supply.familyId, now)),
        Issued(TokenPair(access, supply.refreshToken, expires)))
  }

  // ----- Refresh -----

  ghost function RefreshStep(cfg: Config, db: Db, token: string, supply: Supply, now: Time): StepResult {
    match FindByHash(db.sessions, cfg.hashToken(token))
    case None =>
      StepResult(Append(db, RefreshFailed(None, UnknownToken, None, now)), Failed(BadRefreshToken(UnknownToken)))
    case Some(id) =>
      var row := db.sessions[id];
      var active := ActiveFamily(db.sessions, row.familyId);
      if row.revokedAt.Some? then
        StepResult(
          Append(db.(sessions := RevokeAll(db.sessions, active, now, TokenReuse)),
                 ReuseDetected(id, row.userId, row.familyId, |active|, now)),
          Failed(BadRefreshToken(ReusedToken)))
      else if row.expiresAt <= now then
        Retired(db, id, TokenExpired, ExpiredToken, now)
      else if !AccountUsable(db, row.userId) then
        StepResult(
          Append(db.(sessions := RevokeAll(db.sessions, active, now, AccountUnavailable)),
                 RefreshFailed(Some(id), UnavailableAccount, Some(|active|), now)),
          Failed(BadRefreshToken(UnavailableAccount)))
      else
        RotateStep(cfg, db, id, supply, now)
  }

  /** The expiry is inherited, so a session too short for another access token is retired instead. */
  ghost function RotateStep(cfg: Config, db: Db, id: Id, supply: Supply, now: Time): StepResult
    requires id in db.sessions && db.sessions[id].userId in db.users
  {
    if db.sessions[id].expiresAt <= now + cfg.accessTtl then
      Retired(db, id, InsufficientLifetime, ShortLifetime, now)
    else if InsertConflicts(db.sessions, supply.sessionId, cfg.hashToken(supply.refreshToken)) then
      StepResult(db, Failed(PersistenceFailure))
    else
      Rotated(cfg, db, id, supply, now)
  }

  /** The presented session itself is revoked and the refusal is recorded. */
  function Retired(db: Db, id: Id, reason: Reason, why: RefreshFailure, now: Time): StepResult
    requires id in db.sessions
  {
    StepResult(
      Append(db.(sessions := db.sessions[id := Revoked(db.sessions[id], now, reason).(lastUsedAt := Some(now))]),
             RefreshFailed(Some(id), why, None, now)),
      Failed(BadRefreshToken(why)))
  }

  /** The replacement inherits user, family and expiry; the presented row is revoked and linked to it. */
  function Rotated(cfg: Config, db: Db, id: Id, supply: Supply, now: Time): StepResult
    requires id in db.sessions && db.sessions[id].userId in db.users
  {
    var row := db.sessions[id];
    var spent := Revoked(row, now, TokenRotated).(lastUsedAt := Some(now), replacedBy := Some(supply.sessionId));
    var replacement := NewSession(cfg, row.userId, row.familyId, supply.refreshToken, now, row.expiresAt);
    var access := IssueAccessToken(cfg, row.userId, supply.sessionId, db.users[row.userId].role, now);
    StepResult(
      Append(db.(sessions := db.sessions[supply.sessionId := replacement][id := spent]),
             SessionRefreshed(supply.sessionId, id, row.userId, row.familyId, now)),
      Issued(TokenPair(access, supply.refreshToken, row.expiresAt)))
  }

  // ----- Logout, authentication, access changes -----

  function LogoutStep(db: Db, user: Id, session: Id, now: Time): StepResult {
    if session !in db.sessions then StepResult(db, LoggedOut(false))
    else if db.sessions[session].userId != user then StepResult(db, Failed(NotOwner))
    else if db.sessions[session].revokedAt.Some? then StepResult(db, LoggedOut(false))
    else
      var row := db.sessions[session];
      StepResult(
        Append(db.(sessions := db.sessions[session := Revoked(row, now, UserLogout).(lastUsedAt := Some(now))]),
               SessionRevoked(session, user, row.familyId, now)),
        LoggedOut(true))
  }

  /** Signature checking is foreign; what remains of decoding is the time window with its leeway. */
  predicate Decodes(cfg: Config, t: AccessToken, wallClock: Time) {
    t.issuedAt <= wallClock + cfg.leeway && wallClock - cfg.leeway < t.expiresAt
  }

  function AuthenticateStep(cfg: Config, db: Db, t: AccessToken, wallClock: Time, now: Time): (r: Outcome) {
    if !Decodes(cfg, t, wallClock) then Failed(AccessDenied(TokenExpiredOrImmature))
    else if !Interactive(t.role) then Failed(AccessDenied(RoleNotInteractive))
    else if t.sessionId !in db.sessions then Failed(AccessDenied(SessionNotFound))
    else if db.sessions[t.sessionId].userId != t.userId then Failed(AccessDenied(SessionUserMismatch))
    else if db.sessions[t.sessionId].revokedAt.Some? then Failed(AccessDenied(SessionIsRevoked))
    else if db.sessions[t.sessionId].expiresAt <= now then Failed(AccessDenied(SessionIsExpired))
    else if t.userId !in db.users then Failed(AccessDenied(UserNotFound))
    else if db.users[t.userId].status != Active then Failed(AccessDenied(UserInactive))
    else if db.users[t.userId].role != t.role then Failed(AccessDenied(RoleChanged))
    else Principal(t.userId, t.sessionId, t.role)
  }

  predicate ActiveAdmin(db: Db, user: Id) {
    user in db.users && db.users[user] == User(Admin, Active)
  }

  ghost function ActiveAdmins(db: Db): set<Id> {
    set u | u in db.users && ActiveAdmin(db, u)
  }

  /** The target's record once the change is applied; what is not mentioned stays. */
  function Changed(u: User, role: Option<Role>, status: Option<UserStatus>): User {
    User(if role.Some? then role.value else u.role, if status.Some? then status.value else u.status)
  }

  /** The checks in the source's order. */
  ghost function AccessRefused(db: Db, manager: Manager, target: Id, role: Option<Role>, status: Option<UserStatus>):
    Option<AccessRefusal>
  {
    if manager.role != Admin then Some(NotAdministrator)
    else if role == Some(System) || status == Some(Deleted) || (role.None? && status.None?) then Some(InvalidChange)
    else if manager.userId !in db.users then Some(ManagerMissing)
    else if db.users[manager.userId].status != Active then Some(ManagerInactive)
    else if db.users[manager.userId].role != manager.role then Some(ManagerRoleMismatch)
    else if target !in db.users then Some(UnknownTarget)
    else if db.users[target].role == System then Some(SystemIdentity)
    else if db.users[target].status == Deleted then Some(DeletedTarget)
    else if target == manager.userId && Changed(db.users[target], role, status) != User(Admin, Active) then
        Some(SelfMutation)
    else if ActiveAdmin(db, target) && Changed(db.users[target], role, status) != User(Admin, Active)
        && |ActiveAdmins(db)| <= 1
    then Some(FinalAdministrator)
    else None
  }

  ghost function SetAccessStep(db: Db, manager: Manager, target: Id, role: Option<Role>, status: Option<UserStatus>,
      now: Time):
    StepResult
  {
    var refused := AccessRefused(db, manager, target, role, status);
    if refused.Some? then StepResult(db, Failed(AccessChangeRefused(refused.value)))
    else if db.users[target] == Changed(db.users[target], role, status) then StepResult(db, AccessSet(false, 0))
    else
      var active := ActiveUser(db.sessions, target);
      StepResult(
        Append(db.(users := db.users[target := Changed(db.users[target], role, status)],
                   sessions := RevokeAll(db.sessions, active, now, AccessChanged)),
               AccessUpdated(target, |active|, now)),
        AccessSet(true, |active|))
  }

  // ----- One committed step of any use case -----

  ghost function Step(cfg: Config, db: Db, cmd: Command, now: Time): StepResult {
    match cmd
    case Register(email, password, name, supply) => RegisterStep(cfg, db, email, password, name, supply, now)
    case Login(email, password, supply) => LoginStep(cfg, db, email, password, supply, now)
    case Refresh(token, supply) => RefreshStep(cfg, db, token, supply, now)
    case Logout(user, session) => LogoutStep(db, user, session, now)
    case Authenticate(access, wallClock) => StepResult(db, AuthenticateStep(cfg, db, access, wallClock, now))
    case SetAccess(manager, target, role, status) => SetAccessStep(db, manager, target, role, status, now)
  }

  // ----- Runs -----

  datatype Timed = Timed(cmd: Command, at: Time)

  /** The database after the first n commands. */
  ghost function StateAt(cfg: Config, db: Db, run: seq<Timed>, n: nat): Db
    requires n <= |run|
    decreases n, 0
  {
    if n == 0 then db else ResultAt(cfg, db, run, n - 1).db
  }

  /** What command n does. */
  ghost function ResultAt(cfg: Config, db: Db, run: seq<Timed>, n: nat): StepResult
    requires n < |run|
    decreases n, 1
  {
    Step(cfg, StateAt(cfg, db, run, n), run[n].cmd, run[n].at)
  }

  /** A generated family identifier has not been used before. Everything else may collide. */
  ghost predicate FreshFamily(db: Db, cmd: Command) {
    (cmd.Register? || cmd.Login?) ==>
      forall s :: s in db.sessions ==> db.sessions[s].familyId != cmd.supply.familyId
  }

  ghost predicate Admissible(cfg: Config, db: Db, run: seq<Timed>) {
    forall n: nat :: n < |run| ==> FreshFamily(StateAt(cfg, db, run, n), run[n].cmd)
  }

  /** No session and no audit event yet; users and credentials are arbitrary. */
  predicate Initial(db: Db) {
    db.sessions == map[] && db.audit == []
  }
}
