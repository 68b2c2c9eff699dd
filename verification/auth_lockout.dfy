/**
  Login lockout: how many wrong passwords can be counted against one credential in any window of
  time that contains no successful login.
 */
module AuthLockout {
  import opened Outcomes
  import opened AuthModel

  // ----- The credential of one user over a run -----

  function CredentialOf(db: Db, u: Id): Option<Credential> {
    if u in db.credentials then Some(db.credentials[u]) else None
  }

  /** No lock means the counter is below the maximum; a lock means it is exactly at the maximum. */
  predicate Sound(cfg: Config, c: Credential) {
    if c.lockedUntil.None? then c.failedAttempts < cfg.maxAttempts else c.failedAttempts == cfg.maxAttempts
  }

  predicate AllSound(cfg: Config, db: Db) {
    forall u :: u in db.credentials ==> Sound(cfg, db.credentials[u])
  }

  predicate LoginFor(db: Db, cmd: Command, u: Id) {
    cmd.Login? && cmd.email in db.emailIndex && db.emailIndex[cmd.email] == u
  }

  /** The step is a wrong password that was counted against u. */
  ghost predicate Counts(cfg: Config, db: Db, cmd: Command, now: Time, u: Id) {
    && LoginFor(db, cmd, u)
    && var o := Step(cfg, db, cmd, now).outcome;
    o == Failed(BadCredentials(WrongPassword)) || o == Failed(BadCredentials(LockedNow))
  }

  ghost predicate Succeeds(cfg: Config, db: Db, cmd: Command, now: Time, u: Id) {
    LoginFor(db, cmd, u) && Step(cfg, db, cmd, now).outcome.Issued?
  }

  /** The wrong password counts, the right one resets, and nobody else's credential changes. */
  ghost predicate CredentialStep(cfg: Config, db: Db, cmd: Command, now: Time, u: Id) {
    var c, c' := CredentialOf(db, u), CredentialOf(Step(cfg, db, cmd, now).db, u);
    if Counts(cfg, db, cmd, now, u) then
      c.Some? && !LockActive(c.value, now) && c' == Some(ApplyFailedAttempt(cfg, c.value, now))
    else if Succeeds(cfg, db, cmd, now, u) then
      c'.Some? && c'.value.failedAttempts == 0 && c'.value.lockedUntil == None
    else
      c' == c || (c.None? && c'.Some? && c'.value.failedAttempts == 0 && c'.value.lockedUntil == None)
  }

  lemma CredentialAfterLogin(cfg: Config, db: Db, cmd: Command, now: Time, u: Id)
    requires cmd.Login?
    ensures CredentialStep(cfg, db, cmd, now, u)
  {
  }

  /** What one step does to the credential of u. */
  lemma CredentialAfterStep(cfg: Config, db: Db, cmd: Command, now: Time, u: Id)
    ensures CredentialStep(cfg, db, cmd, now, u)
  {
    if cmd.Login? {
      CredentialAfterLogin(cfg, db, cmd, now, u);
    }
  }

  lemma StepKeepsSound(cfg: Config, db: Db, cmd: Command, now: Time)
    requires cfg.Valid() && AllSound(cfg, db)
    ensures AllSound(cfg, Step(cfg, db, cmd, now).db)
  {
    var after := Step(cfg, db, cmd, now).db;
    forall u | u in after.credentials
      ensures Sound(cfg, after.credentials[u])
    {
      CredentialAfterStep(cfg, db, cmd, now, u);
    }
  }

  lemma {:induction false} ReachableSound(cfg: Config, db: Db, run: seq<Timed>, n: nat)
    requires cfg.Valid() && AllSound(cfg, db) && n <= |run|
    ensures AllSound(cfg, StateAt(cfg, db, run, n))
  {
    if n > 0 {
      ReachableSound(cfg, db, run, n - 1);
      StepKeepsSound(cfg, StateAt(cfg, db, run, n - 1), run[n - 1].cmd, run[n - 1].at);
    }
  }

  /** While the lock lasts, the password makes no difference and nothing is counted. */
  lemma LockIgnoresThePassword(cfg: Config, db: Db, email: string, p: string, q: string, supply: Supply, now: Time)
    requires email in db.emailIndex
    requires var u := db.emailIndex[email]; u in db.users && u in db.credentials && LockActive(db.credentials[u], now)
    ensures LoginStep(cfg, db, email, p, supply, now) == LoginStep(cfg, db, email, q, supply, now)
    ensures LoginStep(cfg, db, email, p, supply, now).outcome == Failed(BadCredentials(Locked))
    ensures LoginStep(cfg, db, email, p, supply, now).db.credentials == db.credentials
  {
  }

  // ----- Counting lockout periods -----

  /** The number of lockout periods needed to cover a span of time. */
  function Periods(span: int, period: int): nat
    requires period > 0
    decreases if span > 0 then span else 0
  {
    if span <= 0 then 0 else 1 + Periods(span - period, period)
  }

  /** Periods is the least number of lockout periods that cover the span. */
  lemma {:induction false} PeriodsIsLeast(span: int, period: int, k: nat)
    requires period > 0
    ensures Periods(span, period) <= k <==> span <= k * period
    decreases k
  {
    if span > 0 && k > 0 {
      PeriodsIsLeast(span - period, period, k - 1);
      assert (k - 1) * period == k * period - period;
    }
  }

  lemma {:induction false} PeriodsMonotone(a: int, b: int, period: int)
    requires period > 0 && a <= b
    ensures Periods(a, period) <= Periods(b, period)
    decreases if b > 0 then b else 0
  {
    if a > 0 {
      PeriodsMonotone(a - period, b - period, period);
    }
  }

  function Later(a: Time, b: Time): Time {
    if a < b then b else a
  }

  /** The most wrong passwords that can still be counted from time s until time e. */
  function Budget(cfg: Config, c: Option<Credential>, s: Time, e: Time): int
    requires cfg.Valid()
  {
    if e <= s then 0
    else match c
      case None => cfg.maxAttempts * Periods(e - s, cfg.lockout)
      case Some(cred) =>
        if cred.lockedUntil.Some? then cfg.maxAttempts * Periods(e - Later(s, cred.lockedUntil.value), cfg.lockout)
        else cfg.maxAttempts * Periods(e - s, cfg.lockout) - cred.failedAttempts
  }

  lemma Scale(m: nat, a: nat, b: nat)
    requires a <= b
    ensures m * a <= m * b
  {
  }

  lemma BudgetShrinks(cfg: Config, c: Option<Credential>, s: Time, s': Time, e: Time)
    requires cfg.Valid() && s <= s' && (c.Some? ==> Sound(cfg, c.value))
    ensures 0 <= Budget(cfg, c, s', e) <= Budget(cfg, c, s, e)
  {
    PeriodsMonotone(e - s', e - s, cfg.lockout);
    Scale(cfg.maxAttempts, Periods(e - s', cfg.lockout), Periods(e - s, cfg.lockout));
    if e > s {
      Scale(cfg.maxAttempts, 1, Periods(e - s, cfg.lockout));
    }
    if e > s' {
      Scale(cfg.maxAttempts, 1, Periods(e - s', cfg.lockout));
    }
    if c.Some? && c.value.lockedUntil.Some? {
      var l := c.value.lockedUntil.value;
      PeriodsMonotone(e - Later(s', l), e - Later(s, l), cfg.lockout);
      Scale(cfg.maxAttempts, Periods(e - Later(s', l), cfg.lockout), Periods(e - Later(s, l), cfg.lockout));
    }
  }

  lemma BudgetAtMostFull(cfg: Config, c: Option<Credential>, s: Time, e: Time)
    requires cfg.Valid()
    ensures Budget(cfg, c, s, e) <= cfg.maxAttempts * Periods(e - s, cfg.lockout)
  {
    if c.Some? && c.value.lockedUntil.Some? {
      var l := c.value.lockedUntil.value;
      PeriodsMonotone(e - Later(s, l), e - s, cfg.lockout);
      Scale(cfg.maxAttempts, Periods(e - Later(s, l), cfg.lockout), Periods(e - s, cfg.lockout));
    }
  }

  /** A counted wrong password at time s uses up one unit of the budget. */
  lemma CountingSpendsBudget(cfg: Config, c: Credential, s: Time, e: Time)
    requires cfg.Valid() && Sound(cfg, c) && !LockActive(c, s) && s < e
    ensures Budget(cfg, Some(ApplyFailedAttempt(cfg, c, s)), s, e) + 1 <= Budget(cfg, Some(c), s, e)
  {
    var p := Periods(e - s, cfg.lockout);
    var q := Periods(e - s - cfg.lockout, cfg.lockout);
    assert p == 1 + q;
    assert cfg.maxAttempts * p == cfg.maxAttempts + cfg.maxAttempts * q;
    assert Later(s, s + cfg.lockout) == s + cfg.lockout;
    assert e - (s + cfg.lockout) == e - s - cfg.lockout;
  }

  // ----- The bound over a run -----

  predicate ClockForward(run: seq<Timed>) {
    forall i, j :: 0 <= i < j < |run| ==> run[i].at <= run[j].at
  }

  predicate InWindow(run: seq<Timed>, k: nat, t: Time, span: Time) {
    k < |run| && t <= run[k].at < t + span
  }

  /** How many of the first n steps are wrong passwords counted against u inside the window. */
  ghost function CountedIn(cfg: Config, db: Db, run: seq<Timed>, u: Id, t: Time, span: Time, n: nat): nat
    requires n <= |run|
  {
    if n == 0 then 0
    else CountedIn(cfg, db, run, u, t, span, n - 1)
         + if InWindow(run, n - 1, t, span)
             && Counts(cfg, StateAt(cfg, db, run, n - 1), run[n - 1].cmd, run[n - 1].at, u) then 1 else 0
  }

  ghost predicate NoSuccessIn(cfg: Config, db: Db, run: seq<Timed>, u: Id, t: Time, span: Time) {
    forall k: nat :: InWindow(run, k, t, span) ==> !Succeeds(cfg, StateAt(cfg, db, run, k), run[k].cmd, run[k].at, u)
  }

  lemma {:induction false} NothingCountedBefore(cfg: Config, db: Db, run: seq<Timed>, u: Id, t: Time, span: Time,
      n: nat)
    requires n <= |run| && ClockForward(run) && (n > 0 ==> run[n - 1].at < t)
    ensures CountedIn(cfg, db, run, u, t, span, n) == 0
  {
    if n > 0 {
      NothingCountedBefore(cfg, db, run, u, t, span, n - 1);
    }
  }

  /** The last instant already accounted for after n steps. */
  function Reached(run: seq<Timed>, t: Time, n: nat): Time
    requires n <= |run|
  {
    if n == 0 then t else Later(t, run[n - 1].at)
  }

  /** From an instant s already accounted for: one step, counted or not, is paid for by the budget. */
  lemma StepSpendsBudget(cfg: Config, db: Db, cmd: Command, now: Time, u: Id, s: Time, e: Time)
    requires cfg.Valid() && AllSound(cfg, db) && s <= now && (now < e ==> !Succeeds(cfg, db, cmd, now, u))
    ensures Budget(cfg, CredentialOf(Step(cfg, db, cmd, now).db, u), now, e)
            + (if now < e && Counts(cfg, db, cmd, now, u) then 1 else 0)
            <= Budget(cfg, CredentialOf(db, u), s, e)
  {
    BudgetShrinks(cfg, CredentialOf(db, u), s, now, e);
    if now < e {
      CredentialAfterStep(cfg, db, cmd, now, u);
      if Counts(cfg, db, cmd, now, u) {
        CountingSpendsBudget(cfg, CredentialOf(db, u).value, now, e);
      }
    }
  }

  /** Before the window nothing is counted and the whole budget is left. */
  lemma BudgetBefore(cfg: Config, db: Db, run: seq<Timed>, u: Id, t: Time, span: Time, n: nat)
    requires cfg.Valid() && ClockForward(run) && n <= |run| && (n > 0 ==> run[n - 1].at < t)
    ensures CountedIn(cfg, db, run, u, t, span, n)
            + Budget(cfg, CredentialOf(StateAt(cfg, db, run, n), u), Reached(run, t, n), t + span)
            <= cfg.maxAttempts * Periods(span, cfg.lockout)
  {
    NothingCountedBefore(cfg, db, run, u, t, span, n);
    BudgetAtMostFull(cfg, CredentialOf(StateAt(cfg, db, run, n), u), t, t + span);
  }

  lemma {:induction false} CountPlusBudget(cfg: Config, db: Db, run: seq<Timed>, u: Id, t: Time, span: Time, n: nat)
    requires cfg.Valid() && AllSound(cfg, db) && ClockForward(run) && n <= |run|
    requires NoSuccessIn(cfg, db, run, u, t, span)
    ensures CountedIn(cfg, db, run, u, t, span, n)
            + Budget(cfg, CredentialOf(StateAt(cfg, db, run, n), u), Reached(run, t, n), t + span)
            <= cfg.maxAttempts * Periods(span, cfg.lockout)
  {
    if n == 0 || run[n - 1].at < t {
      BudgetBefore(cfg, db, run, u, t, span, n);
    } else {
      CountPlusBudget(cfg, db, run, u, t, span, n - 1);
      OneStepOfTheCount(cfg, db, run, u, t, span, n);
    }
  }

  lemma OneStepOfTheCount(cfg: Config, db: Db, run: seq<Timed>, u: Id, t: Time, span: Time, n: nat)
    requires cfg.Valid() && AllSound(cfg, db) && ClockForward(run) && 0 < n <= |run| && t <= run[n - 1].at
    requires NoSuccessIn(cfg, db, run, u, t, span)
    ensures CountedIn(cfg, db, run, u, t, span, n)
            + Budget(cfg, CredentialOf(StateAt(cfg, db, run, n), u), Reached(run, t, n), t + span)
            <= CountedIn(cfg, db, run, u, t, span, n - 1)
               + Budget(cfg, CredentialOf(StateAt(cfg, db, run, n - 1), u), Reached(run, t, n - 1), t + span)
  {
    var k := n - 1;
    ReachableSound(cfg, db, run, k);
    assert run[k].at < t + span ==> InWindow(run, k, t, span);
    StepSpendsBudget(cfg, StateAt(cfg, db, run, k), run[k].cmd, run[k].at, u, Reached(run, t, k), t + span);
  }

  /**
    In any window of the given span without a successful login, at most maxAttempts times
    ceiling(span / lockout) wrong passwords are counted against one credential.
   */
  lemma LockoutBoundsWrongPasswords(cfg: Config, db: Db, run: seq<Timed>, u: Id, t: Time, span: Time)
    requires cfg.Valid() && AllSound(cfg, db) && ClockForward(run) && span > 0
    requires NoSuccessIn(cfg, db, run, u, t, span)
    ensures CountedIn(cfg, db, run, u, t, span, |run|) <= cfg.maxAttempts * ((span + cfg.lockout - 1) / cfg.lockout)
  {
    var n, ceiling := |run|, (span + cfg.lockout - 1) / cfg.lockout;
    CountPlusBudget(cfg, db, run, u, t, span, n);
    ReachableSound(cfg, db, run, n);
    BudgetShrinks(cfg, CredentialOf(StateAt(cfg, db, run, n), u), Reached(run, t, n), Reached(run, t, n), t + span);
    assert span <= ceiling * cfg.lockout;
    PeriodsIsLeast(span, cfg.lockout, ceiling);
    Scale(cfg.maxAttempts, Periods(span, cfg.lockout), ceiling);
  }
}
