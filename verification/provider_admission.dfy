/**
  Process-local admission control with the retry layer around it: any number of callers, each a
  sequence of atomic steps, interleaved in any order over one bounded semaphore, one start lock and
  one monotonic clock.
 */
module ProviderAdmission {
  import opened Collections
  import opened Outcomes
  import opened RetryPolicy

  datatype Limits = Limits(maxConcurrency: nat, interval: real, retry: Config)
  {
    predicate Valid() {
      maxConcurrency > 0 && interval >= 0.0 && retry.Valid()
    }
  }

  type Caller = nat

  /** Where a caller is inside its logical call. Permits are held exactly in the three middle phases. */
  datatype Phase =
    | Queued                      // waiting for a permit
    | Admitted                    // holds a permit, wants a start slot
    | InSlot(wakeAt: real)        // holds the permit and the start lock, asleep until wakeAt
    | Running                     // the provider call itself
    | Caught(a: Attempt)          // the attempt is over, its permit is back
    | BackingOff(wakeAt: real)    // asleep between attempts
    | Finished(a: Attempt)

  /** attempts and slept are totals of the current logical call. */
  datatype Call = Call(phase: Phase, attempts: nat, retries: nat, slept: real)

  datatype Machine = Machine(
    free: nat, lock: Option<Caller>, nextStart: real, clock: real, starts: seq<real>, calls: map<Caller, Call>)

  datatype Action =
    | Tick(d: real)
    | Begin(c: Caller)
    | Acquire(c: Caller)
    | QueueTimeout(c: Caller)
    | SkipSlot(c: Caller)
    | EnterSlot(c: Caller)
    | LeaveSlot(c: Caller)
    | AbortSlot(c: Caller)
    | ProviderEnds(c: Caller, a: Attempt)
    | Decide(c: Caller, random: real)
    | WakeUp(c: Caller)

  predicate HoldsPermit(p: Phase) {
    p.Admitted? || p.InSlot? || p.Running?
  }

  function Goto(m: Machine, c: Caller, p: Phase): Machine
    requires c in m.calls
  {
    m.(calls := m.calls[c := m.calls[c].(phase := p)])
  }

  /** The local queue timeout is reported as a rate-limit failure without a server hint. */
  const LOCAL_TIMEOUT := Failure(RateLimited, Absent)

  predicate Enabled(l: Limits, m: Machine, a: Action) {
    match a
    case Tick(d) => d >= 0.0
    case Begin(c) => c !in m.calls || m.calls[c].phase.Finished?
    case Acquire(c) => c in m.calls && m.calls[c].phase.Queued? && m.free > 0
    case QueueTimeout(c) => c in m.calls && m.calls[c].phase.Queued?
    case SkipSlot(c) => c in m.calls && m.calls[c].phase.Admitted? && l.interval == 0.0
    case EnterSlot(c) => c in m.calls && m.calls[c].phase.Admitted? && l.interval != 0.0 && m.lock == None
    case LeaveSlot(c) => c in m.calls && m.calls[c].phase.InSlot? && m.clock >= m.calls[c].phase.wakeAt
    case AbortSlot(c) => c in m.calls && m.calls[c].phase.InSlot?
    case ProviderEnds(c, _) => c in m.calls && m.calls[c].phase.Running?
    case Decide(c, _) => c in m.calls && m.calls[c].phase.Caught?
    case WakeUp(c) => c in m.calls && m.calls[c].phase.BackingOff? && m.clock >= m.calls[c].phase.wakeAt
  }

  function Apply(l: Limits, m: Machine, a: Action): Machine
    requires l.Valid() && Enabled(l, m, a)
  {
    match a
    case Tick(d) => m.(clock := m.clock + d)
    case Begin(c) => m.(calls := m.calls[c := Call(Queued, 1, 0, 0.0)])
    case Acquire(c) => Goto(m, c, Admitted).(free := m.free - 1)
    case QueueTimeout(c) => Goto(m, c, Caught(LOCAL_TIMEOUT))
    case SkipSlot(c) => Goto(m, c, Running)
    case EnterSlot(c) =>
      var delay := Max(0.0, m.nextStart - m.clock);
      Goto(m, c, InSlot(m.clock + delay)).(lock := Some(c))
    case LeaveSlot(c) =>
      Goto(m, c, Running).(lock := None, nextStart := m.clock + l.interval, starts := m.starts + [m.clock])
    case AbortSlot(c) =>
      Goto(m, c, Caught(Failure(Permanent, Absent))).(lock := None, free := m.free + 1)
    case ProviderEnds(c, outcome) => Goto(m, c, Caught(outcome)).(free := m.free + 1)
    case Decide(c, random) =>
      var call := m.calls[c];
      if !Retryable(call.phase.a) || call.retries >= l.retry.maxRetries then Goto(m, c, Finished(call.phase.a))
      else
        var delay := RetryDelay(l.retry, call.retries, call.phase.a.hint, random);
        var backingOff := Call(BackingOff(m.clock + delay), call.attempts, call.retries + 1, call.slept + delay);
        m.(calls := m.calls[c := backingOff])
    case WakeUp(c) =>
      m.(calls := m.calls[c := m.calls[c].(phase := Queued, attempts := m.calls[c].attempts + 1)])
  }

  function Start(l: Limits, clock: real): Machine {
    Machine(l.maxConcurrency, None, 0.0, clock, [], map[])
  }

  // ----- The invariant -----

  ghost function Holders(m: Machine): set<Caller> {
    set c | c in m.calls && HoldsPermit(m.calls[c].phase)
  }

  /** Retries and attempts advance together, and every retry has paid at most one ceiling of sleep. */
  predicate CallSound(l: Limits, call: Call)
    requires l.Valid()
  {
    && call.retries <= l.retry.maxRetries
    && call.attempts == (if call.phase.BackingOff? then call.retries else call.retries + 1)
    && 0.0 <= call.slept <= Times(call.retries, l.retry.Ceiling())
  }

  predicate Spaced(starts: seq<real>, interval: real) {
    forall i :: 0 < i < |starts| ==> starts[i - 1] + interval <= starts[i]
  }

  ghost predicate PermitsSound(l: Limits, m: Machine) {
    m.free + |Holders(m)| == l.maxConcurrency
  }

  predicate CallsSound(l: Limits, m: Machine)
    requires l.Valid()
  {
    forall c :: c in m.calls ==> CallSound(l, m.calls[c])
  }

  /** The lock holder is the one caller inside a slot, due no earlier than the next allowed start. */
  predicate LockSound(m: Machine) {
    && (forall c :: c in m.calls && m.calls[c].phase.InSlot?
         ==> m.lock == Some(c) && m.calls[c].phase.wakeAt >= m.nextStart)
    && (m.lock.Some? ==> m.lock.value in m.calls && m.calls[m.lock.value].phase.InSlot?)
  }

  /** Starts are spaced, and the next allowed start is one interval after the last. */
  predicate StampsSound(l: Limits, m: Machine) {
    && Spaced(m.starts, l.interval)
    && (m.starts != [] ==> m.nextStart == m.starts[|m.starts| - 1] + l.interval)
  }

  ghost predicate Inv(l: Limits, m: Machine)
    requires l.Valid()
  {
    PermitsSound(l, m) && CallsSound(l, m) && LockSound(m) && StampsSound(l, m)
  }

  lemma StartEstablishes(l: Limits, clock: real)
    requires l.Valid()
    ensures Inv(l, Start(l, clock))
  {
    assert Holders(Start(l, clock)) == {};
  }

  /** The holder set changes by at most the acting caller. */
  lemma HoldersStep(l: Limits, m: Machine, a: Action)
    requires l.Valid() && Enabled(l, m, a)
    ensures var (before, after) := (Holders(m), Holders(Apply(l, m, a)));
            if a.Acquire? then a.c !in before && after == before + {a.c}
            else if a.AbortSlot? || a.ProviderEnds? then a.c in before && after == before - {a.c}
            else after == before
  {
  }

  lemma StepKeepsPermits(l: Limits, m: Machine, a: Action)
    requires l.Valid() && Enabled(l, m, a) && PermitsSound(l, m)
    ensures PermitsSound(l, Apply(l, m, a))
  {
    HoldersStep(l, m, a);
  }

  lemma StepKeepsCalls(l: Limits, m: Machine, a: Action)
    requires l.Valid() && Enabled(l, m, a) && CallsSound(l, m)
    ensures CallsSound(l, Apply(l, m, a))
  {
    if a.Decide? {
      var call := m.calls[a.c];
      if Retryable(call.phase.a) && call.retries < l.retry.maxRetries {
        DelayBelowCeiling(l.retry, call.retries, call.phase.a.hint, a.random);
      }
    }
  }

  lemma StepKeepsLock(l: Limits, m: Machine, a: Action)
    requires l.Valid() && Enabled(l, m, a) && LockSound(m)
    ensures LockSound(Apply(l, m, a))
  {
  }

  /** A caller that leaves its slot woke up no earlier than the next allowed start. */
  lemma StepKeepsStamps(l: Limits, m: Machine, a: Action)
    requires l.Valid() && Enabled(l, m, a) && LockSound(m) && StampsSound(l, m)
    ensures StampsSound(l, Apply(l, m, a))
  {
    if a.LeaveSlot? {
      assert m.clock >= m.nextStart;
      SpacedAppend(m.starts, l.interval, m.clock);
    }
  }

  lemma SpacedAppend(starts: seq<real>, interval: real, t: real)
    requires Spaced(starts, interval) && (starts != [] ==> starts[|starts| - 1] + interval <= t)
    ensures Spaced(starts + [t], interval)
  {
  }

  // ----- Runs -----

  /** The machine after a run, or None if some action was not enabled. */
  function After(l: Limits, m: Machine, run: seq<Action>): Option<Machine>
    requires l.Valid()
  {
    if run == [] then Some(m)
    else
      var before := After(l, m, run[..|run| - 1]);
      var a := run[|run| - 1];
      if before.Some? && Enabled(l, before.value, a) then Some(Apply(l, before.value, a)) else None
  }

  lemma {:induction false} ReachableInv(l: Limits, clock: real, run: seq<Action>)
    requires l.Valid() && After(l, Start(l, clock), run).Some?
    ensures Inv(l, After(l, Start(l, clock), run).value)
  {
    if run == [] {
      StartEstablishes(l, clock);
    } else {
      var before := After(l, Start(l, clock), run[..|run| - 1]).value;
      ReachableInv(l, clock, run[..|run| - 1]);
      StepKeepsPermits(l, before, run[|run| - 1]);
      StepKeepsCalls(l, before, run[|run| - 1]);
      StepKeepsLock(l, before, run[|run| - 1]);
      StepKeepsStamps(l, before, run[|run| - 1]);
    }
  }

  /** Callers inside the provider at this moment. */
  ghost function RunningCallers(m: Machine): set<Caller> {
    set c | c in m.calls && m.calls[c].phase.Running?
  }

  /**
    In every interleaving permits are conserved, at most maxConcurrency provider calls run at once, and
    a caller that queues, backs off or is done holds no permit.
   */
  lemma ConcurrencyIsBounded(l: Limits, clock: real, run: seq<Action>)
    requires l.Valid() && After(l, Start(l, clock), run).Some?
    ensures var m := After(l, Start(l, clock), run).value;
            && m.free + |Holders(m)| == l.maxConcurrency
            && |RunningCallers(m)| <= l.maxConcurrency
            && forall c :: c in m.calls
                 && (m.calls[c].phase.BackingOff? || m.calls[c].phase.Queued? || m.calls[c].phase.Finished?)
                 ==> c !in Holders(m)
  {
    ReachableInv(l, clock, run);
    var m := After(l, Start(l, clock), run).value;
    SubsetSize(RunningCallers(m), Holders(m));
  }

  /** In every interleaving no logical call exceeds its attempts or its total sleep. */
  lemma CallsAreBounded(l: Limits, clock: real, run: seq<Action>, c: Caller)
    requires l.Valid() && After(l, Start(l, clock), run).Some?
    requires c in After(l, Start(l, clock), run).value.calls
    ensures var call := After(l, Start(l, clock), run).value.calls[c];
            && call.attempts <= l.retry.maxRetries + 1
            && call.slept <= l.retry.maxRetries as real * l.retry.Ceiling()
  {
    ReachableInv(l, clock, run);
    CallWithinBounds(l, After(l, Start(l, clock), run).value.calls[c]);
  }

  lemma CallWithinBounds(l: Limits, call: Call)
    requires l.Valid() && CallSound(l, call)
    ensures call.attempts <= l.retry.maxRetries + 1
    ensures call.slept <= l.retry.maxRetries as real * l.retry.Ceiling()
  {
    DelayBelowCeiling(l.retry, 0, Absent, 0.0);
    TimesGrows(call.retries, l.retry.maxRetries, l.retry.Ceiling());
    TimesIsProduct(l.retry.maxRetries, l.retry.Ceiling());
  }

  lemma {:induction false} TimesGrows(a: nat, b: nat, x: real)
    requires a <= b && 0.0 <= x
    ensures Times(a, x) <= Times(b, x)
    decreases b
  {
    if a < b {
      TimesGrows(a, b - 1, x);
    }
  }

  // ----- Progress -----

  /** An action that takes a call on: no time-out, abort or new call. */
  predicate Advances(a: Action) {
    !a.Tick? && !a.Begin? && !a.QueueTimeout? && !a.AbortSlot?
  }

  /** A caller holding a permit can go on, at the latest when the one in the start slot wakes up. */
  lemma HolderCanMove(l: Limits, m: Machine, c: Caller) returns (wait: real, a: Action)
    requires l.Valid() && Inv(l, m) && c in m.calls && HoldsPermit(m.calls[c].phase)
    ensures wait >= 0.0 && Advances(a) && Enabled(l, Apply(l, m, Tick(wait)), a)
  {
    wait := 0.0;
    match m.calls[c].phase
    case Running => a := ProviderEnds(c, Success);
    case InSlot(wakeAt) =>
      wait := Max(0.0, wakeAt - m.clock);
      a := LeaveSlot(c);
    case Admitted =>
      if l.interval == 0.0 {
        a := SkipSlot(c);
      } else if m.lock == None {
        a := EnterSlot(c);
      } else {
        var d := m.lock.value;
        wait := Max(0.0, m.calls[d].phase.wakeAt - m.clock);
        a := LeaveSlot(d);
      }
  }

  /** No deadlock: while a call is unfinished some call can go on, now or at the time it is sleeping for. */
  lemma SomeCallCanMove(l: Limits, clock: real, run: seq<Action>, c: Caller) returns (wait: real, a: Action)
    requires l.Valid() && After(l, Start(l, clock), run).Some?
    requires var m := After(l, Start(l, clock), run).value; c in m.calls && !m.calls[c].phase.Finished?
    ensures wait >= 0.0 && Advances(a)
    ensures Enabled(l, Apply(l, After(l, Start(l, clock), run).value, Tick(wait)), a)
  {
    ReachableInv(l, clock, run);
    var m := After(l, Start(l, clock), run).value;
    wait := 0.0;
    match m.calls[c].phase
    case Queued =>
      if m.free > 0 {
        a := Acquire(c);
      } else {
        assert Holders(m) != {};
        var d :| d in Holders(m);
        wait, a := HolderCanMove(l, m, d);
      }
    case Caught(_) => a := Decide(c, 0.0);
    case BackingOff(wakeAt) =>
      wait := Max(0.0, wakeAt - m.clock);
      a := WakeUp(c);
    case _ => wait, a := HolderCanMove(l, m, c);
  }

  // ----- What a caller does with the result of an attempt -----

  /**
    After an attempt the caller backs off exactly when it failed as a rate limit, timeout or outage and
    retries are left, for the scheduled delay; otherwise it is finished with that very result.
   */
  lemma DecideMeaning(l: Limits, m: Machine, c: Caller, random: real)
    requires l.Valid() && Enabled(l, m, Decide(c, random))
    ensures var (before, done) := (m.calls[c], Apply(l, m, Decide(c, random)));
            var (a, after) := (before.phase.a, done.calls[c]);
            && done == m.(calls := m.calls[c := after]) && after.attempts == before.attempts
            && (after.phase.BackingOff? <==>
                 a.Failure? && a.kind in {RateLimited, TimedOut, Unavailable} && before.retries < l.retry.maxRetries)
            && (!after.phase.BackingOff? ==> after == before.(phase := Finished(a)))
            && (after.phase.BackingOff? ==>
                 var d := BackOff(l.retry, before.retries, a.hint, random);
                 && after.phase.wakeAt == m.clock + d && after.slept == before.slept + d
                 && after.retries == before.retries + 1)
  {
    var a := m.calls[c].phase.a;
    if a.Failure? {
      DelayMeaning(l.retry, m.calls[c].retries, a.hint, random);
    }
  }

  /** How this action ends an attempt of the caller, if it does. */
  function ResultOf(a: Action, c: Caller): Option<Attempt> {
    match a
    case ProviderEnds(d, outcome) => if d == c then Some(outcome) else None
    case QueueTimeout(d) => if d == c then Some(Failure(RateLimited, Absent)) else None
    case AbortSlot(d) => if d == c then Some(Failure(Permanent, Absent)) else None
    case _ => None
  }

  /** The results of the caller's attempts since its current call began. */
  function Results(run: seq<Action>, c: Caller): seq<Attempt> {
    if run == [] then []
    else
      var (before, a) := (Results(run[..|run| - 1], c), run[|run| - 1]);
      if a == Begin(c) then [] else if ResultOf(a, c).Some? then before + [ResultOf(a, c).value] else before
  }

  /**
    Where a call stands, given the results of its attempts: every one but the last was a transient failure,
    a back-off follows one more of them, and a finished call has the last result, which is transient only
    if the attempts are used up. The counted attempts are those results, and one more while one is under way.
   */
  predicate StandsAt(l: Limits, call: Call, results: seq<Attempt>) {
    && (forall i :: 0 <= i < |results| - 1 ==> Transient(results[i]))
    && match call.phase
       case Caught(a) => call.attempts == |results| && results != [] && results[|results| - 1] == a
       case Finished(a) =>
         && call.attempts == |results| && results != [] && results[|results| - 1] == a
         && (Transient(a) ==> |results| == l.retry.maxRetries + 1)
       case BackingOff(_) => call.attempts == |results| && results != [] && Transient(results[|results| - 1])
       case _ => call.attempts == |results| + 1 && (results != [] ==> Transient(results[|results| - 1]))
  }

  lemma StandingAfterStep(l: Limits, m: Machine, run: seq<Action>, a: Action, c: Caller)
    requires l.Valid() && Enabled(l, m, a) && CallsSound(l, m) && c in Apply(l, m, a).calls
    requires c in m.calls ==> StandsAt(l, m.calls[c], Results(run, c))
    ensures StandsAt(l, Apply(l, m, a).calls[c], Results(run + [a], c))
  {
    assert (run + [a])[..|run|] == run;
    if a.Decide? && a.c == c {
      DecideMeaning(l, m, c, a.random);
    }
  }

  /** In every interleaving each call stands where the results of its attempts put it. */
  lemma {:induction false} CallsFollowTheirResults(l: Limits, clock: real, run: seq<Action>, c: Caller)
    requires l.Valid() && After(l, Start(l, clock), run).Some?
    requires c in After(l, Start(l, clock), run).value.calls
    ensures StandsAt(l, After(l, Start(l, clock), run).value.calls[c], Results(run, c))
  {
    if run != [] {
      var most, a := run[..|run| - 1], run[|run| - 1];
      var before := After(l, Start(l, clock), most).value;
      if c in before.calls {
        CallsFollowTheirResults(l, clock, most, c);
      }
      ReachableInv(l, clock, most);
      StandingAfterStep(l, before, most, a, c);
      assert run == most + [a];
    }
  }

  // ----- Start rate -----

  /** How many of the first n starts fall in the closed window. */
  function StartsWithin(starts: seq<real>, n: nat, from: real, to: real): nat
    requires n <= |starts|
  {
    if n == 0 then 0
    else StartsWithin(starts, n - 1, from, to) + if from <= starts[n - 1] <= to then 1 else 0
  }

  lemma {:induction false} SpacedStarts(starts: seq<real>, interval: real, i: nat, j: nat)
    requires Spaced(starts, interval) && 0.0 <= interval && i <= j < |starts|
    ensures starts[i] + Times(j - i, interval) <= starts[j]
    decreases j
  {
    if i < j {
      SpacedStarts(starts, interval, i, j - 1);
    }
  }

  /** The latest start inside the window is as late as the number of starts inside requires. */
  lemma {:induction false} LatestStart(starts: seq<real>, interval: real, n: nat, from: real, to: real)
    returns (latest: nat)
    requires Spaced(starts, interval) && 0.0 <= interval && n <= |starts|
    ensures var k := StartsWithin(starts, n, from, to);
            k > 0 ==> latest < n && starts[latest] <= to && from + Times(k - 1, interval) <= starts[latest]
  {
    latest := 0;
    if n > 0 {
      latest := LatestStart(starts, interval, n - 1, from, to);
      if from <= starts[n - 1] <= to {
        if StartsWithin(starts, n - 1, from, to) > 0 {
          SpacedStarts(starts, interval, latest, n - 1);
          TimesGrows(1, n - 1 - latest, interval);
        }
        latest := n - 1;
      }
    }
  }

  /** In any closed window of length w there is room for one start and as many whole intervals as fit. */
  lemma WindowOfStarts(starts: seq<real>, interval: real, from: real, w: real)
    requires Spaced(starts, interval) && interval > 0.0 && w >= 0.0
    ensures StartsWithin(starts, |starts|, from, from + w) <= (w / interval).Floor + 1
  {
    var k := StartsWithin(starts, |starts|, from, from + w);
    var _ := LatestStart(starts, interval, |starts|, from, from + w);
    if k > 0 {
      TimesIsProduct(k - 1, interval);
      WholeIntervals(k - 1, interval, w);
    } else {
      WholeIntervals(0, interval, w);
    }
  }

  lemma WholeIntervals(n: nat, interval: real, w: real)
    requires interval > 0.0 && w >= 0.0 && n as real * interval <= w
    ensures n <= (w / interval).Floor
  {
    var q := w / interval;
    assert q * interval == w;
    assert (q - n as real) * interval >= 0.0;
    assert q >= n as real;
  }

  /**
    In every interleaving consecutive starts are at least the interval apart, and any closed window of
    length w holds at most floor(w / interval) + 1 starts.
   */
  lemma StartRateIsBounded(l: Limits, clock: real, run: seq<Action>, from: real, w: real)
    requires l.Valid() && l.interval > 0.0 && w >= 0.0 && After(l, Start(l, clock), run).Some?
    ensures var starts := After(l, Start(l, clock), run).value.starts;
            && Spaced(starts, l.interval)
            && StartsWithin(starts, |starts|, from, from + w) <= (w / l.interval).Floor + 1
  {
    ReachableInv(l, clock, run);
    WindowOfStarts(After(l, Start(l, clock), run).value.starts, l.interval, from, w);
  }

  // ----- The wrapper's own methods -----

  /** One admitted attempt of a queued caller, with nobody in between; late is how much longer the sleep lasts. */
  function AdmittedAttempt(l: Limits, m: Machine, c: Caller, late: real, a: Attempt): Machine
    requires l.Valid() && Enabled(l, m, Acquire(c)) && m.lock == None && late >= 0.0
  {
    var acquired := Apply(l, m, Acquire(c));
    var running :=
      if l.interval == 0.0 then Apply(l, acquired, SkipSlot(c))
      else
        var entered := Apply(l, acquired, EnterSlot(c));
        Apply(l, Apply(l, entered, Tick(Max(0.0, m.nextStart - m.clock) + late)), LeaveSlot(c));
    Apply(l, running, ProviderEnds(c, a))
  }

  /** Whatever the other callers are doing, such an attempt returns its permit and takes the next start slot. */
  lemma AdmittedAttemptIsLocal(l: Limits, m: Machine, c: Caller, late: real, a: Attempt)
    requires l.Valid() && Enabled(l, m, Acquire(c)) && m.lock == None && late >= 0.0
    ensures var done := AdmittedAttempt(l, m, c, late, a);
            && done.free == m.free && done.lock == None && done.calls == m.calls[c := m.calls[c].(phase := Caught(a))]
            && if l.interval == 0.0 then done.starts == m.starts && done.nextStart == m.nextStart
               else
                 && done.starts == m.starts + [done.nextStart - l.interval]
                 && done.nextStart >= m.nextStart + l.interval && done.nextStart - l.interval >= m.clock
  {
    var acquired := Apply(l, m, Acquire(c));
    if l.interval != 0.0 {
      var entered := Apply(l, acquired, EnterSlot(c));
      var slept := Apply(l, entered, Tick(Max(0.0, m.nextStart - m.clock) + late));
      assert slept.calls[c].phase == InSlot(m.clock + Max(0.0, m.nextStart - m.clock));
      assert Apply(l, slept, LeaveSlot(c)).calls[c].phase == Running;
    }
  }

  /** Time as the wrapper sees it: monotonic, and a sleep lasts at least as long as asked. */
  class Clock {
    var now: real

    constructor (now: real)
      ensures this.now == now
    {
      this.now := now;
    }

    method Monotonic() returns (t: real)
      modifies this
      ensures t == now >= old(now)
    {
      var passed :| passed >= 0.0;
      now := now + passed;
      t := now;
    }

    method Sleep(d: real)
      requires d >= 0.0
      modifies this
      ensures now >= old(now) + d
    {
      var late :| late >= 0.0;
      now := now + d + late;
    }
  }

  class CapacityLimitedProvider {
    const limits: Limits
    const time: Clock
    var free: nat
    var nextStart: real
    var starts: seq<real>

    ghost predicate Valid()
      reads this, time
    {
      && limits.Valid() && free <= limits.maxConcurrency
      && Spaced(starts, limits.interval)
      && (starts != [] ==> nextStart == starts[|starts| - 1] + limits.interval)
    }

    constructor (limits: Limits, time: Clock)
      requires limits.Valid()
      ensures Valid() && free == limits.maxConcurrency && starts == [] && this.limits == limits && this.time == time
    {
      this.limits := limits;
      this.time := time;
      free := limits.maxConcurrency;
      nextStart := 0.0;
      starts := [];
    }

    /** Runs under the start lock: sleep until the slot, then stamp the start and move the slot on. */
    method WaitForStartSlot()
      requires Valid()
      modifies this`nextStart, this`starts, time
      ensures Valid() && time.now >= old(time.now)
      ensures if limits.interval == 0.0 then starts == old(starts) && nextStart == old(nextStart)
              else starts == old(starts) + [nextStart - limits.interval]
                   && nextStart >= old(nextStart) + limits.interval
                   && old(time.now) <= nextStart - limits.interval <= time.now
    {
      if limits.interval == 0.0 {
        return;
      }
      var now := time.Monotonic();
      var delay := Max(0.0, nextStart - now);
      if delay > 0.0 {
        time.Sleep(delay);
      }
      var startedAt := time.Monotonic();
      nextStart := startedAt + limits.interval;
      starts := starts + [startedAt];
    }

    /** One admitted call: the permit comes back whatever the provider does. */
    method Generate(queueTimesOut: bool, provider: Attempt) returns (outcome: Attempt)
      requires Valid()
      modifies this`free, this`nextStart, this`starts, time
      ensures Valid() && free == old(free)
      ensures queueTimesOut || old(free) == 0 ==>
                outcome == LOCAL_TIMEOUT && starts == old(starts) && nextStart == old(nextStart)
      ensures !queueTimesOut && old(free) > 0 ==> outcome == provider
      ensures !queueTimesOut && old(free) > 0 && limits.interval == 0.0 ==> starts == old(starts)
      ensures !queueTimesOut && old(free) > 0 && limits.interval > 0.0 ==>
                starts == old(starts) + [nextStart - limits.interval] && nextStart >= old(nextStart) + limits.interval
    {
      if queueTimesOut || free == 0 {
        return LOCAL_TIMEOUT;
      }
      free := free - 1;
      WaitForStartSlot();
      outcome := provider;
      free := free + 1;
    }
  }
}
