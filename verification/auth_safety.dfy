/**
  Safety of refresh-token rotation over whole runs: what a revoked row, a reused token, a spent
  token and the expiry of the opening session imply for every later step.
 */
module AuthSafety {
  import opened Collections
  import opened Outcomes
  import opened AuthModel
  import opened AuthFamilies

  // ----- Following the replaced-by links -----

  /** The session reached from s after n links. */
  ghost function Follow(sessions: map<Id, Session>, s: Id, n: nat): Option<Id>
    decreases n
  {
    if s !in sessions then None
    else if n == 0 then Some(s)
    else if sessions[s].replacedBy.None? then None
    else Follow(sessions, sessions[s].replacedBy.value, n - 1)
  }

  /** Links walk the chain of the family: from position i, n links lead to position i + n or nowhere. */
  lemma {:induction false} LinksWalkTheChain(cfg: Config, db: Db, f: Id, i: nat, n: nat)
    requires FamilyLinked(cfg, db, f) && i < |ChainOf(db.audit, f)|
    ensures var c := ChainOf(db.audit, f);
            Follow(db.sessions, c[i], n) == if i + n < |c| then Some(c[i + n]) else None
    decreases n
  {
    var c, o := ChainOf(db.audit, f), Origins(db.audit, f);
    assert LinkAt(cfg, db.sessions, c, i, o[0]);
    if n > 0 && i + 1 < |c| {
      LinksWalkTheChain(cfg, db, f, i + 1, n - 1);
    }
  }

  /** Every session is some number of links away from the session that opened its family. */
  lemma EverySessionHasARoot(cfg: Config, db: Db, s: Id) returns (n: nat)
    requires SessionsLinked(cfg, db) && s in db.sessions
    ensures var o := Origins(db.audit, db.sessions[s].familyId);
            |o| == 1 && Opens(o[0]) && Follow(db.sessions, o[0].sessionId, n) == Some(s)
  {
    var f := db.sessions[s].familyId;
    assert FamilyLinked(cfg, db, f);
    var c := ChainOf(db.audit, f);
    n :| n < |c| && c[n] == s;
    LinksWalkTheChain(cfg, db, f, 0, n);
  }

  /** No session reaches itself. */
  lemma LinksAreAcyclic(cfg: Config, db: Db, s: Id, n: nat)
    requires SessionsLinked(cfg, db) && s in db.sessions && n > 0
    ensures Follow(db.sessions, s, n) != Some(s)
  {
    var f := db.sessions[s].familyId;
    assert FamilyLinked(cfg, db, f);
    var c := ChainOf(db.audit, f);
    var i: nat :| i < |c| && c[i] == s;
    LinksWalkTheChain(cfg, db, f, i, n);
  }

  /** Successors exist, stay in the family with its user and expiry, and are not shared. */
  lemma SuccessorsAreInjective(cfg: Config, db: Db, s: Id, t: Id)
    requires SessionsLinked(cfg, db) && s in db.sessions && t in db.sessions
    ensures var row := db.sessions[s];
            && (row.replacedBy.Some? <==> row.reason == Some(TokenRotated))
            && (row.replacedBy.Some? ==>
                  && row.replacedBy.value in db.sessions
                  && var next := db.sessions[row.replacedBy.value];
                  next.familyId == row.familyId && next.userId == row.userId && next.expiresAt == row.expiresAt)
            && (row.replacedBy.Some? && row.replacedBy == db.sessions[t].replacedBy ==> s == t)
  {
    var (f, g) := (db.sessions[s].familyId, db.sessions[t].familyId);
    assert FamilyLinked(cfg, db, f) && FamilyLinked(cfg, db, g);
    var c, o := ChainOf(db.audit, f), Origins(db.audit, f);
    var d, p := ChainOf(db.audit, g), Origins(db.audit, g);
    var i: nat :| i < |c| && c[i] == s;
    var j: nat :| j < |d| && d[j] == t;
    assert LinkAt(cfg, db.sessions, c, i, o[0]) && LinkAt(cfg, db.sessions, d, j, p[0]);
    if i + 1 < |c| {
      assert LinkAt(cfg, db.sessions, c, i + 1, o[0]);
      assert c[i + 1] in c;
    }
    if j + 1 < |d| {
      assert d[j + 1] in d;
    }
  }

  /** At most one session of a family is unrevoked. */
  lemma AtMostOneActive(cfg: Config, db: Db, s: Id, t: Id)
    requires SessionsLinked(cfg, db) && s in db.sessions && t in db.sessions
    requires db.sessions[s].familyId == db.sessions[t].familyId
    requires db.sessions[s].revokedAt.None? && db.sessions[t].revokedAt.None?
    ensures s == t
  {
    assert FamilyLinked(cfg, db, db.sessions[s].familyId);
    UnrevokedIsLast(cfg, db, s);
    UnrevokedIsLast(cfg, db, t);
  }

  // ----- Counting -----

  ghost function MembersOf(sessions: map<Id, Session>, f: Id): set<Id> {
    set s | s in sessions && sessions[s].familyId == f
  }

  lemma {:induction false} DistinctCount(c: seq<Id>, members: set<Id>)
    requires NoDuplicates(c) && forall s :: s in members <==> s in c
    ensures |members| == |c|
  {
    if c == [] {
      assert members == {};
    } else {
      var last := c[|c| - 1];
      assert c == c[..|c| - 1] + [last];
      DistinctCount(c[..|c| - 1], members - {last});
    }
  }

  /** A family that was ever opened has one session more than it has refresh events. */
  lemma FamilySizeIsRefreshCount(cfg: Config, db: Db, f: Id)
    requires SessionsLinked(cfg, db)
    ensures |MembersOf(db.sessions, f)| == |Origins(db.audit, f)| + Refreshes(db.audit, f) <= 1 + Refreshes(db.audit, f)
  {
    assert FamilyLinked(cfg, db, f);
    DistinctCount(ChainOf(db.audit, f), MembersOf(db.sessions, f));
  }

  /** A committed refresh attempt adds exactly one event; a refused insert adds none and changes nothing. */
  lemma RefreshAuditsOnce(cfg: Config, db: Db, token: string, supply: Supply, now: Time)
    ensures var r := RefreshStep(cfg, db, token, supply, now);
            if r.outcome == Failed(PersistenceFailure) then r.db == db
            else |r.db.audit| == |db.audit| + 1 && db.audit <= r.db.audit
  {
    FindByHashFinds(db.sessions, cfg.hashToken(token));
  }

  // ----- Rows over time -----

  /** Rows are never deleted, keep their identity, and a revoked row never changes again. */
  ghost predicate Evolves(before: map<Id, Session>, after: map<Id, Session>) {
    forall s :: s in before ==>
      && s in after
      && SameIdentity(before[s], after[s])
      && (before[s].revokedAt.Some? ==> after[s] == before[s])
  }

  predicate SameIdentity(a: Session, b: Session) {
    && a.userId == b.userId && a.familyId == b.familyId && a.tokenHash == b.tokenHash
    && a.createdAt == b.createdAt && a.expiresAt == b.expiresAt
  }

  lemma StepEvolves(cfg: Config, db: Db, cmd: Command, now: Time)
    requires FreshFamily(db, cmd)
    ensures Evolves(db.sessions, Step(cfg, db, cmd, now).db.sessions)
  {
    var after := Step(cfg, db, cmd, now).db;
    StepHasEffect(cfg, db, cmd, now);
    if Quiet(db, after) {
      forall s | s in db.sessions
        ensures RowKeptOrRevoked(db.sessions[s], after.sessions[s])
      {
      }
    }
  }

  lemma {:induction false} RunEvolves(cfg: Config, db: Db, run: seq<Timed>, i: nat, j: nat)
    requires Admissible(cfg, db, run) && i <= j <= |run|
    ensures Evolves(StateAt(cfg, db, run, i).sessions, StateAt(cfg, db, run, j).sessions)
    decreases j
  {
    if i < j {
      RunEvolves(cfg, db, run, i, j - 1);
      StepEvolves(cfg, StateAt(cfg, db, run, j - 1), run[j - 1].cmd, run[j - 1].at);
    }
  }

  // ----- Reuse detection -----

  /** The family exists and none of its sessions is active. */
  ghost predicate FamilyDead(sessions: map<Id, Session>, f: Id) {
    && (exists s :: s in sessions && sessions[s].familyId == f)
    && (forall s :: s in sessions && sessions[s].familyId == f ==> sessions[s].revokedAt.Some?)
  }

  lemma StepKeepsDead(cfg: Config, db: Db, cmd: Command, now: Time, f: Id)
    requires FreshFamily(db, cmd) && FamilyDead(db.sessions, f)
    ensures FamilyDead(Step(cfg, db, cmd, now).db.sessions, f)
  {
    var after := Step(cfg, db, cmd, now).db;
    StepHasEffect(cfg, db, cmd, now);
    StepEvolves(cfg, db, cmd, now);
    var s :| s in db.sessions && db.sessions[s].familyId == f;
    assert s in after.sessions && after.sessions[s].familyId == f;
    forall t | t in after.sessions && after.sessions[t].familyId == f
      ensures after.sessions[t].revokedAt.Some?
    {
      if t in db.sessions {
        assert SameIdentity(db.sessions[t], after.sessions[t]);
      }
    }
  }

  lemma {:induction false} DeadFamiliesStayDead(cfg: Config, db: Db, run: seq<Timed>, i: nat, j: nat, f: Id)
    requires Admissible(cfg, db, run) && i <= j <= |run|
    requires FamilyDead(StateAt(cfg, db, run, i).sessions, f)
    ensures FamilyDead(StateAt(cfg, db, run, j).sessions, f)
    decreases j
  {
    if i < j {
      DeadFamiliesStayDead(cfg, db, run, i, j - 1, f);
      StepKeepsDead(cfg, StateAt(cfg, db, run, j - 1), run[j - 1].cmd, run[j - 1].at, f);
      assert StateAt(cfg, db, run, j) == ResultAt(cfg, db, run, j - 1).db;
    }
  }

  /** The session a refresh command presents. */
  ghost function Presented(cfg: Config, db: Db, cmd: Command): Option<Id> {
    if cmd.Refresh? then FindByHash(db.sessions, cfg.hashToken(cmd.token)) else None
  }

  /** The command presents a refresh token, or an access token, bound to a session of the family. */
  ghost predicate UsesFamily(cfg: Config, db: Db, cmd: Command, f: Id) {
    || (var p := Presented(cfg, db, cmd); p.Some? && p.value in db.sessions && db.sessions[p.value].familyId == f)
    || (cmd.Authenticate? && cmd.access.sessionId in db.sessions && db.sessions[cmd.access.sessionId].familyId == f)
  }

  lemma DeadFamilyIsRefused(cfg: Config, db: Db, cmd: Command, now: Time, f: Id)
    requires FamilyDead(db.sessions, f) && UsesFamily(cfg, db, cmd, f)
    ensures var r := Step(cfg, db, cmd, now);
            r.outcome.Failed? && (cmd.Refresh? ==> r.outcome == Failed(BadRefreshToken(ReusedToken)))
  {
  }

  /**
    Presenting an already revoked refresh token ends its family for good: afterwards no session of
    the family is active, none of its refresh tokens rotates and none of its access tokens authenticates.
   */
  lemma ReuseEndsTheFamily(cfg: Config, db: Db, run: seq<Timed>, i: nat, j: nat, id: Id)
    requires Admissible(cfg, db, run) && i < j <= |run|
    requires var before := StateAt(cfg, db, run, i);
             Presented(cfg, before, run[i].cmd) == Some(id) && id in before.sessions
                 && before.sessions[id].revokedAt.Some?
    ensures var f := StateAt(cfg, db, run, i).sessions[id].familyId;
            && ResultAt(cfg, db, run, i).outcome == Failed(BadRefreshToken(ReusedToken))
            && FamilyDead(StateAt(cfg, db, run, j).sessions, f)
            && (j < |run| && UsesFamily(cfg, StateAt(cfg, db, run, j), run[j].cmd, f) ==>
                 ResultAt(cfg, db, run, j).outcome.Failed?)
  {
    var before := StateAt(cfg, db, run, i);
    var f := before.sessions[id].familyId;
    var after := StateAt(cfg, db, run, i + 1);
    assert after == ResultAt(cfg, db, run, i).db;
    assert FamilyDead(after.sessions, f) by {
      assert id in after.sessions && after.sessions[id].familyId == f;
    }
    DeadFamiliesStayDead(cfg, db, run, i + 1, j, f);
    if j < |run| && UsesFamily(cfg, StateAt(cfg, db, run, j), run[j].cmd, f) {
      DeadFamilyIsRefused(cfg, StateAt(cfg, db, run, j), run[j].cmd, run[j].at, f);
    }
  }

  lemma RotatedTokenIsRetired(cfg: Config, db: Db, cmd: Command, now: Time)
    requires cmd.Refresh? && Step(cfg, db, cmd, now).outcome.Issued?
    ensures var (p, after) := (Presented(cfg, db, cmd), Step(cfg, db, cmd, now).db.sessions);
            && p.Some? && p.value in db.sessions && p.value in after
            && after[p.value].revokedAt.Some? && after[p.value].familyId == db.sessions[p.value].familyId
            && after[p.value].tokenHash == cfg.hashToken(cmd.token)
  {
    FindByHashFinds(db.sessions, cfg.hashToken(cmd.token));
  }

  /**
    A refresh token rotates at most once: once it has, every later presentation of a token with the
    same digest is detected as reuse and its family has no active session afterwards.
   */
  lemma TokensRotateOnce(cfg: Config, db: Db, run: seq<Timed>, i: nat, j: nat)
    requires Initial(db) && Admissible(cfg, db, run) && i < j < |run|
    requires run[i].cmd.Refresh? && run[j].cmd.Refresh?
    requires cfg.hashToken(run[i].cmd.token) == cfg.hashToken(run[j].cmd.token)
    requires ResultAt(cfg, db, run, i).outcome.Issued?
    ensures ResultAt(cfg, db, run, j).outcome == Failed(BadRefreshToken(ReusedToken))
    ensures var p := Presented(cfg, StateAt(cfg, db, run, i), run[i].cmd);
            && p.Some? && p.value in StateAt(cfg, db, run, i).sessions
            && FamilyDead(StateAt(cfg, db, run, j + 1).sessions, StateAt(cfg, db, run, i).sessions[p.value].familyId)
  {
    var before := StateAt(cfg, db, run, i);
    var h := cfg.hashToken(run[i].cmd.token);
    RotatedTokenIsRetired(cfg, before, run[i].cmd, run[i].at);
    var id := Presented(cfg, before, run[i].cmd).value;
    var after := StateAt(cfg, db, run, i + 1);
    assert after == ResultAt(cfg, db, run, i).db;
    RunEvolves(cfg, db, run, i + 1, j);
    var later := StateAt(cfg, db, run, j);
    assert later.sessions[id] == after.sessions[id];
    ReachableSessionsLinked(cfg, db, run, j);
    FindByHashUnique(later.sessions, id);
    ReuseEndsTheFamily(cfg, db, run, j, j + 1, id);
  }

  /** An access token bound to a revoked session, in particular to a superseded one, never authenticates again. */
  lemma RevokedSessionsNeverAuthenticate(cfg: Config, db: Db, run: seq<Timed>, i: nat, j: nat)
    requires Admissible(cfg, db, run) && i <= j < |run| && run[j].cmd.Authenticate?
    requires var s := run[j].cmd.access.sessionId;
             var sessions := StateAt(cfg, db, run, i).sessions;
             s in sessions && sessions[s].revokedAt.Some?
    ensures ResultAt(cfg, db, run, j).outcome.Failed?
  {
    RunEvolves(cfg, db, run, i, j);
  }

  // ----- Absolute expiry -----

  /** The instant at which the family of a session ends: the opening time plus the refresh lifetime. */
  ghost function FamilyDeadline(cfg: Config, db: Db, f: Id): Time
    requires |Origins(db.audit, f)| == 1 && Opens(Origins(db.audit, f)[0])
  {
    Origins(db.audit, f)[0].at + cfg.refreshTtl
  }

  lemma SessionsExpireAtTheDeadline(cfg: Config, db: Db, s: Id)
    requires SessionsLinked(cfg, db) && s in db.sessions
    ensures var f := db.sessions[s].familyId;
            |Origins(db.audit, f)| == 1 && Opens(Origins(db.audit, f)[0])
                && db.sessions[s].expiresAt == FamilyDeadline(cfg, db, f)
  {
    var f := db.sessions[s].familyId;
    assert FamilyLinked(cfg, db, f);
    var c, o := ChainOf(db.audit, f), Origins(db.audit, f);
    var i: nat :| i < |c| && c[i] == s;
    assert LinkAt(cfg, db.sessions, c, i, o[0]);
  }

  /** Tokens issued at any step are bound to an active session and expire before its family does. */
  lemma IssuedTokensExpireBeforeTheFamily(cfg: Config, db: Db, run: seq<Timed>, i: nat)
    requires Initial(db) && Admissible(cfg, db, run) && i < |run|
    requires ResultAt(cfg, db, run, i).outcome.Issued?
    ensures var (after, t) := (StateAt(cfg, db, run, i + 1), ResultAt(cfg, db, run, i).outcome.tokens);
            var s := t.access.sessionId;
            && s in after.sessions && after.sessions[s].revokedAt.None? && after.sessions[s].userId == t.access.userId
            && after.sessions[s].tokenHash == cfg.hashToken(t.refreshToken)
            && var f := after.sessions[s].familyId;
            && |Origins(after.audit, f)| == 1 && Opens(Origins(after.audit, f)[0])
            && t.access.expiresAt < t.refreshExpiresAt == after.sessions[s].expiresAt == FamilyDeadline(cfg, after, f)
  {
    var before := StateAt(cfg, db, run, i);
    var after := StateAt(cfg, db, run, i + 1);
    var s := ResultAt(cfg, db, run, i).outcome.tokens.access.sessionId;
    if run[i].cmd.Refresh? {
      FindByHashFinds(before.sessions, cfg.hashToken(run[i].cmd.token));
    }
    assert s in after.sessions;
    ReachableSessionsLinked(cfg, db, run, i + 1);
    SessionsExpireAtTheDeadline(cfg, after, s);
  }

  /** No access token authenticates at or after the deadline of its family, whatever the leeway and the wall clock. */
  lemma NobodyAuthenticatesAfterTheDeadline(cfg: Config, db: Db, run: seq<Timed>, i: nat)
    requires Initial(db) && Admissible(cfg, db, run) && i < |run|
    requires ResultAt(cfg, db, run, i).outcome.Principal?
    ensures var (now, s) := (StateAt(cfg, db, run, i), ResultAt(cfg, db, run, i).outcome.sessionId);
            && s in now.sessions && now.sessions[s].revokedAt.None?
            && now.sessions[s].userId == ResultAt(cfg, db, run, i).outcome.userId
            && var f := now.sessions[s].familyId;
            && |Origins(now.audit, f)| == 1 && Opens(Origins(now.audit, f)[0])
            && run[i].at < FamilyDeadline(cfg, now, f)
  {
    var now := StateAt(cfg, db, run, i);
    var s := ResultAt(cfg, db, run, i).outcome.sessionId;
    ReachableSessionsLinked(cfg, db, run, i);
    SessionsExpireAtTheDeadline(cfg, now, s);
  }

  // ----- What issued tokens are good for -----

  /** The pair is bound to an active session of a usable account, under the digest of its refresh token. */
  ghost predicate TokensLive(cfg: Config, db: Db, t: TokenPair) {
    var s := t.access.sessionId;
    && UniqueHashes(db.sessions)
    && s in db.sessions && db.sessions[s].revokedAt.None? && db.sessions[s].tokenHash == cfg.hashToken(t.refreshToken)
    && db.sessions[s].userId == t.access.userId && db.sessions[s].expiresAt == t.refreshExpiresAt
    && AccountUsable(db, t.access.userId) && db.users[t.access.userId].role == t.access.role
  }

  lemma IssuedTokensAreLive(cfg: Config, db: Db, cmd: Command, now: Time)
    requires UniqueHashes(db.sessions) && FreshFamily(db, cmd)
    requires Step(cfg, db, cmd, now).outcome.Issued?
    ensures TokensLive(cfg, Step(cfg, db, cmd, now).db, Step(cfg, db, cmd, now).outcome.tokens)
  {
    if cmd.Refresh? {
      FindByHashFinds(db.sessions, cfg.hashToken(cmd.token));
    }
    StepKeepsHashes(cfg, db, cmd, now);
  }

  lemma StepKeepsHashes(cfg: Config, db: Db, cmd: Command, now: Time)
    requires UniqueHashes(db.sessions) && FreshFamily(db, cmd)
    ensures UniqueHashes(Step(cfg, db, cmd, now).db.sessions)
  {
    StepHasEffect(cfg, db, cmd, now);
    EffectKeepsHashes(cfg, db, Step(cfg, db, cmd, now).db);
  }

  /** A live access token authenticates its bearer inside its window. */
  lemma LiveAccessTokenAuthenticates(cfg: Config, db: Db, t: TokenPair, wallClock: Time, now: Time)
    requires TokensLive(cfg, db, t) && Decodes(cfg, t.access, wallClock) && now < t.refreshExpiresAt
    ensures AuthenticateStep(cfg, db, t.access, wallClock, now)
              == Principal(t.access.userId, t.access.sessionId, t.access.role)
  {
  }

  /**
    A live refresh token rotates, keeping its deadline, while the family can still carry another access
    token; what it yields is live again and the session it replaces is superseded.
   */
  lemma LiveRefreshTokenRotates(cfg: Config, db: Db, t: TokenPair, supply: Supply, now: Time)
    requires TokensLive(cfg, db, t) && cfg.Valid() && now + cfg.accessTtl < t.refreshExpiresAt
    requires !InsertConflicts(db.sessions, supply.sessionId, cfg.hashToken(supply.refreshToken))
    ensures var r := RefreshStep(cfg, db, t.refreshToken, supply, now);
            && r.outcome.Issued? && r.outcome.tokens.refreshExpiresAt == t.refreshExpiresAt
            && r.outcome.tokens.access.userId == t.access.userId
            && TokensLive(cfg, r.db, r.outcome.tokens)
            && r.db.sessions[t.access.sessionId].replacedBy == Some(r.outcome.tokens.access.sessionId)
  {
    FindByHashUnique(db.sessions, t.access.sessionId);
    IssuedTokensAreLive(cfg, db, Refresh(t.refreshToken, supply), now);
  }

  // ----- Logout and access changes -----

  /** Logging out again changes nothing and revokes nothing, whatever happened in between to the clock. */
  lemma LogoutTwice(db: Db, user: Id, session: Id, first: Time, second: Time)
    requires LogoutStep(db, user, session, first).outcome.LoggedOut?
    ensures var after := LogoutStep(db, user, session, first).db;
            && LogoutStep(after, user, session, second) == StepResult(after, LoggedOut(false))
            && (session in after.sessions ==> after.sessions[session].revokedAt.Some?)
  {
  }

  /** What a step does to an existing account: only an access change touches it. */
  lemma AccountsChangeByAccessOnly(cfg: Config, db: Db, cmd: Command, now: Time, u: Id)
    requires u in db.users && !cmd.SetAccess?
    ensures var after := Step(cfg, db, cmd, now).db; u in after.users && after.users[u] == db.users[u]
  {
  }

  /**
    The check for the final active administrator is never what refuses a change: the manager is an
    active administrator too, and cannot be the account that loses the role.
   */
  lemma FinalAdministratorIsNeverReported(db: Db, manager: Manager, target: Id, role: Option<Role>,
      status: Option<UserStatus>)
    ensures AccessRefused(db, manager, target, role, status) != Some(FinalAdministrator)
  {
    if AccessRefused(db, manager, target, role, status) == Some(FinalAdministrator) {
      var admins := ActiveAdmins(db);
      assert {manager.userId, target} <= admins;
      SubsetSize({manager.userId, target}, admins);
      assert false;
    }
  }

  /** The manager of an applied change is an active administrator before and after it. */
  lemma ManagerStaysAdministrator(db: Db, manager: Manager, target: Id, role: Option<Role>,
      status: Option<UserStatus>, now: Time)
    requires SetAccessStep(db, manager, target, role, status, now).outcome.AccessSet?
    ensures ActiveAdmin(db, manager.userId)
    ensures ActiveAdmin(SetAccessStep(db, manager, target, role, status, now).db, manager.userId)
  {
  }

  /** Over any run, once there is an active administrator there always is one. */
  lemma {:induction false} AdministratorsNeverRunOut(cfg: Config, db: Db, run: seq<Timed>, i: nat, j: nat, admin: Id)
    returns (still: Id)
    requires i <= j <= |run| && ActiveAdmin(StateAt(cfg, db, run, i), admin)
    ensures ActiveAdmin(StateAt(cfg, db, run, j), still)
    decreases j
  {
    if i == j {
      still := admin;
    } else {
      var before := AdministratorsNeverRunOut(cfg, db, run, i, j - 1, admin);
      var (now, cmd) := (StateAt(cfg, db, run, j - 1), run[j - 1].cmd);
      assert StateAt(cfg, db, run, j) == Step(cfg, now, cmd, run[j - 1].at).db;
      if cmd.SetAccess? && Step(cfg, now, cmd, run[j - 1].at).outcome.AccessSet? {
        ManagerStaysAdministrator(now, cmd.manager, cmd.target, cmd.role, cmd.status, run[j - 1].at);
        still := cmd.manager.userId;
      } else {
        if !cmd.SetAccess? {
          AccountsChangeByAccessOnly(cfg, now, cmd, run[j - 1].at, before);
        }
        still := before;
      }
    }
  }
}
