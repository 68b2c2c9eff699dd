/**
  Refresh-token families: the audit log alone determines, for every family, a linked chain of
  sessions, and the session table always agrees with it.
 */
module AuthFamilies {
  import opened Outcomes
  import opened AuthModel

  // ----- What the audit log says about a family -----

  predicate Opens(e: Event) {
    e.UserRegistered? || e.LoginSucceeded?
  }

  predicate Joins(e: Event) {
    Opens(e) || e.SessionRefreshed?
  }

  /** The sessions that joined the family, in the order of their events. */
  function ChainOf(audit: seq<Event>, f: Id): seq<Id> {
    if audit == [] then []
    else
      var before := ChainOf(audit[..|audit| - 1], f);
      var e := audit[|audit| - 1];
      if Joins(e) && e.familyId == f then before + [e.sessionId] else before
  }

  /** The events that opened the family. */
  function Origins(audit: seq<Event>, f: Id): seq<Event> {
    if audit == [] then []
    else
      var before := Origins(audit[..|audit| - 1], f);
      var e := audit[|audit| - 1];
      if Opens(e) && e.familyId == f then before + [e] else before
  }

  function Refreshes(audit: seq<Event>, f: Id): nat {
    if audit == [] then 0
    else
      var e := audit[|audit| - 1];
      Refreshes(audit[..|audit| - 1], f) + if e.SessionRefreshed? && e.familyId == f then 1 else 0
  }

  // ----- Agreement between the table and the log -----

  predicate NoDuplicates(c: seq<Id>) {
    forall i, j :: 0 <= i < j < |c| ==> c[i] != c[j]
  }

  ghost predicate UniqueHashes(sessions: map<Id, Session>) {
    forall s, t :: s in sessions && t in sessions && sessions[s].tokenHash == sessions[t].tokenHash ==> s == t
  }

  /**
    Position i of the chain: same user and expiry as every other member; linked to its successor
    and revoked as rotated unless it is the last; the last has no successor.
   */
  ghost predicate LinkAt(cfg: Config, sessions: map<Id, Session>, c: seq<Id>, i: nat, origin: Event)
    requires i < |c|
  {
    && Opens(origin)
    && c[i] in sessions
    && var row := sessions[c[i]];
    && row.userId == origin.userId
    && row.expiresAt == origin.at + cfg.refreshTtl
    && (row.revokedAt.Some? <==> row.reason.Some?)
    && (if i + 1 < |c|
        then row.replacedBy == Some(c[i + 1]) && row.reason == Some(TokenRotated)
        else row.replacedBy == None && row.reason != Some(TokenRotated))
  }

  ghost predicate FamilyLinked(cfg: Config, db: Db, f: Id) {
    var c, o := ChainOf(db.audit, f), Origins(db.audit, f);
    && NoDuplicates(c)
    && (forall s :: s in c ==> s in db.sessions && db.sessions[s].familyId == f)
    && (forall s :: s in db.sessions && db.sessions[s].familyId == f ==> s in c)
    && (c == [] ==> o == [] && Refreshes(db.audit, f) == 0)
    && (c != [] ==>
          && |o| == 1 && Opens(o[0])
          && o[0].sessionId == c[0]
          && |c| == 1 + Refreshes(db.audit, f)
          && forall i: nat :: i < |c| ==> LinkAt(cfg, db.sessions, c, i, o[0]))
  }

  ghost predicate SessionsLinked(cfg: Config, db: Db) {
    UniqueHashes(db.sessions) && forall f: Id :: FamilyLinked(cfg, db, f)
  }

  // ----- The three things a use case can do to the session table -----

  /** Some unrevoked rows become revoked, for a reason other than rotation; nothing else changes. */
  ghost predicate OnlyRevokes(before: map<Id, Session>, after: map<Id, Session>) {
    && before.Keys == after.Keys
    && forall s :: s in before ==> RowKeptOrRevoked(before[s], after[s])
  }

  ghost predicate RowKeptOrRevoked(a: Session, b: Session) {
    a == b
    || (&& a.revokedAt.None? && b.revokedAt.Some? && b.reason.Some? && b.reason != Some(TokenRotated)
        && b == a.(revokedAt := b.revokedAt, reason := b.reason, lastUsedAt := b.lastUsedAt))
  }

  ghost predicate LogGrows(db: Db, after: Db, e: Event) {
    after.audit == db.audit + [e]
  }

  ghost predicate Quiet(db: Db, after: Db) {
    && OnlyRevokes(db.sessions, after.sessions)
    && (after.audit == db.audit
        || (after.audit != [] && LogGrows(db, after, after.audit[|after.audit| - 1])
             && !Joins(after.audit[|after.audit| - 1])))
  }

  ghost predicate OpensFamily(cfg: Config, db: Db, after: Db, e: Event, row: Session) {
    && Opens(e)
    && LogGrows(db, after, e)
    && after.sessions == db.sessions[e.sessionId := row]
    && e.sessionId !in db.sessions
    && (forall s :: s in db.sessions
         ==> db.sessions[s].familyId != e.familyId && db.sessions[s].tokenHash != row.tokenHash)
    && row.userId == e.userId && row.familyId == e.familyId && row.expiresAt == e.at + cfg.refreshTtl
    && row.revokedAt == None && row.reason == None && row.replacedBy == None
  }

  ghost predicate RotatesSession(db: Db, after: Db, e: Event, row: Session) {
    && e.SessionRefreshed?
    && LogGrows(db, after, e)
    && e.previousId in db.sessions && e.sessionId !in db.sessions
    && var old' := db.sessions[e.previousId];
    && after.sessions == db.sessions[e.sessionId := row][e.previousId := old'.(
         revokedAt := Some(e.at), reason := Some(TokenRotated), lastUsedAt := Some(e.at),
         replacedBy := Some(e.sessionId))]
    && old'.revokedAt == None
    && (forall s :: s in db.sessions ==> db.sessions[s].tokenHash != row.tokenHash)
    && e.familyId == old'.familyId && e.userId == old'.userId
    && row.userId == old'.userId && row.familyId == old'.familyId && row.expiresAt == old'.expiresAt
    && row.revokedAt == None && row.reason == None && row.replacedBy == None
  }

  /** The effect of one step, as seen from the session table and the log. */
  ghost predicate Effect(cfg: Config, db: Db, after: Db) {
    || Quiet(db, after)
    || (exists e, row :: OpensFamily(cfg, db, after, e, row))
    || (exists e, row :: RotatesSession(db, after, e, row))
  }

  lemma FindByHashFinds(sessions: map<Id, Session>, h: Hash)
    ensures match FindByHash(sessions, h)
            case Some(id) => id in sessions && sessions[id].tokenHash == h
            case None => forall s :: s in sessions ==> sessions[s].tokenHash != h
  {
  }

  /** With the unique column, the lookup is determined. */
  lemma FindByHashUnique(sessions: map<Id, Session>, id: Id)
    requires UniqueHashes(sessions) && id in sessions
    ensures FindByHash(sessions, sessions[id].tokenHash) == Some(id)
  {
    FindByHashFinds(sessions, sessions[id].tokenHash);
  }

  lemma StepHasEffect(cfg: Config, db: Db, cmd: Command, now: Time)
    requires FreshFamily(db, cmd)
    ensures Effect(cfg, db, Step(cfg, db, cmd, now).db)
  {
    var after := Step(cfg, db, cmd, now).db;
    match cmd
    case Register(_, _, _, supply) =>
      if after.sessions.Keys != db.sessions.Keys {
        assert OpensFamily(cfg, db, after, after.audit[|db.audit|], after.sessions[supply.sessionId]);
      }
    case Login(email, password, supply) =>
      LoginHasEffect(cfg, db, email, password, supply, now);
    case Refresh(token, supply) =>
      RefreshHasEffect(cfg, db, token, supply, now);
    case Logout(_, _) =>
    case Authenticate(_, _) =>
    case SetAccess(_, _, _, _) =>
  }

  lemma LoginHasEffect(cfg: Config, db: Db, email: string, password: string, supply: Supply, now: Time)
    requires FreshFamily(db, Login(email, password, supply))
    ensures Effect(cfg, db, LoginStep(cfg, db, email, password, supply, now).db)
  {
    var r := LoginStep(cfg, db, email, password, supply, now);
    if r.outcome.Issued? {
      var e := LoginSucceeded(supply.sessionId, db.emailIndex[email], supply.familyId, now);
      assert OpensFamily(cfg, db, r.db, e, r.db.sessions[supply.sessionId]);
    } else {
      assert Quiet(db, r.db);
    }
  }

  lemma RefreshHasEffect(cfg: Config, db: Db, token: string, supply: Supply, now: Time)
    ensures Effect(cfg, db, RefreshStep(cfg, db, token, supply, now).db)
  {
    FindByHashFinds(db.sessions, cfg.hashToken(token));
    match FindByHash(db.sessions, cfg.hashToken(token))
    case None =>
    case Some(id) =>
      var row := db.sessions[id];
      var active := ActiveFamily(db.sessions, row.familyId);
      if row.revokedAt.Some? {
        LoggedRevocation(cfg, db, active, now, TokenReuse, ReuseDetected(id, row.userId, row.familyId, |active|, now));
      } else if row.expiresAt <= now {
        RetiringHasEffect(cfg, db, id, TokenExpired, ExpiredToken, now);
      } else if !AccountUsable(db, row.userId) {
        LoggedRevocation(cfg, db, active, now, AccountUnavailable,
            RefreshFailed(Some(id), UnavailableAccount, Some(|active|), now));
      } else if row.expiresAt <= now + cfg.accessTtl {
        RetiringHasEffect(cfg, db, id, InsufficientLifetime, ShortLifetime, now);
      } else if !InsertConflicts(db.sessions, supply.sessionId, cfg.hashToken(supply.refreshToken)) {
        RotationHasEffect(cfg, db, id, supply, now);
      }
  }

  lemma RetiringHasEffect(cfg: Config, db: Db, id: Id, reason: Reason, why: RefreshFailure, now: Time)
    requires id in db.sessions && db.sessions[id].revokedAt.None? && reason != TokenRotated
    ensures Effect(cfg, db, Retired(db, id, reason, why, now).db)
  {
    assert Quiet(db, Retired(db, id, reason, why, now).db);
  }

  lemma LoggedRevocation(cfg: Config, db: Db, rows: set<Id>, at: Time, reason: Reason, e: Event)
    requires forall s :: s in rows ==> s in db.sessions && db.sessions[s].revokedAt.None?
    requires reason != TokenRotated && !Joins(e)
    ensures Effect(cfg, db, Append(db.(sessions := RevokeAll(db.sessions, rows, at, reason)), e))
  {
    var after := Append(db.(sessions := RevokeAll(db.sessions, rows, at, reason)), e);
    RevokeAllOnlyRevokes(db.sessions, rows, at, reason);
    assert Quiet(db, after);
  }

  lemma RevokeAllOnlyRevokes(sessions: map<Id, Session>, rows: set<Id>, at: Time, reason: Reason)
    requires forall s :: s in rows ==> s in sessions && sessions[s].revokedAt.None?
    requires reason != TokenRotated
    ensures OnlyRevokes(sessions, RevokeAll(sessions, rows, at, reason))
  {
  }

  lemma RotationHasEffect(cfg: Config, db: Db, id: Id, supply: Supply, now: Time)
    requires id in db.sessions && db.sessions[id].userId in db.users && db.sessions[id].revokedAt.None?
    requires !InsertConflicts(db.sessions, supply.sessionId, cfg.hashToken(supply.refreshToken))
    ensures Effect(cfg, db, Rotated(cfg, db, id, supply, now).db)
  {
    var row := db.sessions[id];
    var after := Rotated(cfg, db, id, supply, now).db;
    var e := SessionRefreshed(supply.sessionId, id, row.userId, row.familyId, now);
    assert RotatesSession(db, after, e, after.sessions[supply.sessionId]);
  }

  // ----- Every effect keeps the table and the log in agreement -----

  lemma LogAppend(audit: seq<Event>, e: Event, f: Id)
    ensures ChainOf(audit + [e], f) == ChainOf(audit, f) + if Joins(e) && e.familyId == f then [e.sessionId] else []
    ensures Origins(audit + [e], f) == Origins(audit, f) + if Opens(e) && e.familyId == f then [e] else []
    ensures Refreshes(audit + [e], f) == Refreshes(audit, f) + if e.SessionRefreshed? && e.familyId == f then 1 else 0
  {
    assert (audit + [e])[..|audit|] == audit;
  }

  lemma QuietKeepsFamily(cfg: Config, db: Db, after: Db, f: Id)
    requires Quiet(db, after) && FamilyLinked(cfg, db, f)
    ensures FamilyLinked(cfg, after, f)
  {
    if after.audit != db.audit {
      LogAppend(db.audit, after.audit[|after.audit| - 1], f);
    }
    var c, o := ChainOf(db.audit, f), Origins(db.audit, f);
    assert ChainOf(after.audit, f) == c && Origins(after.audit, f) == o;
    forall s | s in after.sessions && after.sessions[s].familyId == f
      ensures s in c
    {
      assert RowKeptOrRevoked(db.sessions[s], after.sessions[s]);
    }
    forall s | s in c
      ensures s in after.sessions && after.sessions[s].familyId == f
    {
      assert RowKeptOrRevoked(db.sessions[s], after.sessions[s]);
    }
    if c != [] {
      forall i: nat | i < |c|
        ensures LinkAt(cfg, after.sessions, c, i, o[0])
      {
        assert LinkAt(cfg, db.sessions, c, i, o[0]);
        assert RowKeptOrRevoked(db.sessions[c[i]], after.sessions[c[i]]);
      }
    }
  }

  lemma SomeMember(c: seq<Id>)
    ensures c != [] ==> exists s :: s in c
  {
    if c != [] {
      assert c[0] in c;
    }
  }

  lemma UnusedFamilyIsUnlogged(cfg: Config, db: Db, f: Id)
    requires FamilyLinked(cfg, db, f) && forall s :: s in db.sessions ==> db.sessions[s].familyId != f
    ensures ChainOf(db.audit, f) == [] && Origins(db.audit, f) == [] && Refreshes(db.audit, f) == 0
  {
    SomeMember(ChainOf(db.audit, f));
  }

  lemma LogOfOpening(audit: seq<Event>, e: Event, f: Id)
    requires ChainOf(audit, f) == [] && Origins(audit, f) == [] && Refreshes(audit, f) == 0 && Opens(e)
              && e.familyId == f
    ensures ChainOf(audit + [e], f) == [e.sessionId] && Origins(audit + [e], f) == [e] && Refreshes(audit + [e], f) == 0
  {
    LogAppend(audit, e, f);
  }

  lemma OpeningLinksItsFamily(cfg: Config, db: Db, after: Db, e: Event, row: Session)
    requires OpensFamily(cfg, db, after, e, row) && FamilyLinked(cfg, db, e.familyId)
    ensures FamilyLinked(cfg, after, e.familyId)
  {
    var f := e.familyId;
    UnusedFamilyIsUnlogged(cfg, db, f);
    LogOfOpening(db.audit, e, f);
    var c := [e.sessionId];
    assert NoDuplicates(c);
    assert LinkAt(cfg, after.sessions, c, 0, e);
    assert after.sessions[e.sessionId] == row;
  }

  lemma OpeningKeepsFamily(cfg: Config, db: Db, after: Db, e: Event, row: Session, f: Id)
    requires OpensFamily(cfg, db, after, e, row) && FamilyLinked(cfg, db, f) && f != e.familyId
    ensures FamilyLinked(cfg, after, f)
  {
    LogAppend(db.audit, e, f);
    var c, o := ChainOf(db.audit, f), Origins(db.audit, f);
    assert ChainOf(after.audit, f) == c && Origins(after.audit, f) == o;
    if c != [] {
      forall i: nat | i < |c|
        ensures LinkAt(cfg, after.sessions, c, i, o[0])
      {
        assert LinkAt(cfg, db.sessions, c, i, o[0]);
      }
    }
  }

  /** An unrevoked session is the last of its family. */
  lemma UnrevokedIsLast(cfg: Config, db: Db, s: Id)
    requires s in db.sessions && db.sessions[s].revokedAt.None? && FamilyLinked(cfg, db, db.sessions[s].familyId)
    ensures var c := ChainOf(db.audit, db.sessions[s].familyId); c != [] && c[|c| - 1] == s
  {
    var f := db.sessions[s].familyId;
    var c, o := ChainOf(db.audit, f), Origins(db.audit, f);
    var i: nat :| i < |c| && c[i] == s;
    assert LinkAt(cfg, db.sessions, c, i, o[0]);
  }

  lemma RotationKeepsFamily(cfg: Config, db: Db, after: Db, e: Event, row: Session, f: Id)
    requires RotatesSession(db, after, e, row) && FamilyLinked(cfg, db, f)
    ensures FamilyLinked(cfg, after, f)
  {
    LogAppend(db.audit, e, f);
    var c, o := ChainOf(db.audit, f), Origins(db.audit, f);
    if f == e.familyId {
      UnrevokedIsLast(cfg, db, e.previousId);
      var c' := c + [e.sessionId];
      assert ChainOf(after.audit, f) == c' && Origins(after.audit, f) == o;
      assert e.sessionId !in c;
      assert LinkAt(cfg, db.sessions, c, |c| - 1, o[0]);
      forall i: nat | i < |c'|
        ensures LinkAt(cfg, after.sessions, c', i, o[0])
      {
        if i < |c| {
          assert LinkAt(cfg, db.sessions, c, i, o[0]);
          assert c[i] == e.previousId <==> i == |c| - 1;
        }
      }
      forall s | s in c'
        ensures s in after.sessions && after.sessions[s].familyId == f
      {
        assert s in c || s == e.sessionId;
      }
    } else if c != [] {
      assert e.previousId !in c && e.sessionId !in c;
      forall i: nat | i < |c|
        ensures LinkAt(cfg, after.sessions, c, i, o[0])
      {
        assert LinkAt(cfg, db.sessions, c, i, o[0]);
      }
    }
  }

  lemma EffectKeepsHashes(cfg: Config, db: Db, after: Db)
    requires Effect(cfg, db, after) && UniqueHashes(db.sessions)
    ensures UniqueHashes(after.sessions)
  {
    if Quiet(db, after) {
      forall s, t | s in after.sessions && t in after.sessions
          && after.sessions[s].tokenHash == after.sessions[t].tokenHash
        ensures s == t
      {
        assert RowKeptOrRevoked(db.sessions[s], after.sessions[s]);
        assert RowKeptOrRevoked(db.sessions[t], after.sessions[t]);
      }
    }
  }

  lemma StepKeepsSessionsLinked(cfg: Config, db: Db, cmd: Command, now: Time)
    requires SessionsLinked(cfg, db) && FreshFamily(db, cmd)
    ensures SessionsLinked(cfg, Step(cfg, db, cmd, now).db)
  {
    var after := Step(cfg, db, cmd, now).db;
    StepHasEffect(cfg, db, cmd, now);
    EffectKeepsHashes(cfg, db, after);
    forall f: Id
      ensures FamilyLinked(cfg, after, f)
    {
      assert FamilyLinked(cfg, db, f);
      if Quiet(db, after) {
        QuietKeepsFamily(cfg, db, after, f);
      } else if e, row :| OpensFamily(cfg, db, after, e, row) {
        if f == e.familyId {
          OpeningLinksItsFamily(cfg, db, after, e, row);
        } else {
          OpeningKeepsFamily(cfg, db, after, e, row, f);
        }
      } else {
        var e, row :| RotatesSession(db, after, e, row);
        RotationKeepsFamily(cfg, db, after, e, row, f);
      }
    }
  }

  /** The families are linked after the step if they were before and the family id was fresh. */
  ghost predicate KeepsFamilies(cfg: Config, db: Db, cmd: Command, after: Db) {
    SessionsLinked(cfg, db) && FreshFamily(db, cmd) ==> SessionsLinked(cfg, after)
  }

  lemma StepKeepsFamilies(cfg: Config, db: Db, cmd: Command, now: Time)
    ensures KeepsFamilies(cfg, db, cmd, Step(cfg, db, cmd, now).db)
  {
    if SessionsLinked(cfg, db) && FreshFamily(db, cmd) {
      StepKeepsSessionsLinked(cfg, db, cmd, now);
    }
  }

  /** Whatever the use cases do, in any order, the table stays the set of chains the log describes. */
  lemma {:induction false} ReachableSessionsLinked(cfg: Config, db: Db, run: seq<Timed>, n: nat)
    requires Initial(db) && Admissible(cfg, db, run) && n <= |run|
    ensures SessionsLinked(cfg, StateAt(cfg, db, run, n))
  {
    if n > 0 {
      ReachableSessionsLinked(cfg, db, run, n - 1);
      StepKeepsSessionsLinked(cfg, StateAt(cfg, db, run, n - 1), run[n - 1].cmd, run[n - 1].at);
    }
  }
}
