/**
  Stage timers. One observer is shared by any number of runs whose reports interleave freely; what it
  holds and complains about for one run depends on that run's own reports alone.
 */
module StageTelemetry {
  import opened Outcomes
  import opened SupportState
  import opened Orchestrator

  type RunId = nat

  datatype Report = Report(run: RunId, event: Event, at: real)

  type Timers = map<(RunId, Stage), real>

  // ----- The observer -----

  function Key(r: Report): (RunId, Stage) {
    (r.run, r.event.stage)
  }

  function Observe(timers: Timers, r: Report): Timers {
    if r.event.Started? then timers[Key(r) := r.at] else timers - {Key(r)}
  }

  /** A second start of a running stage, or an end of one that is not running, is reported as an anomaly. */
  predicate Anomaly(timers: Timers, r: Report) {
    if r.event.Started? then Key(r) in timers else Key(r) !in timers
  }

  /** Elapsed time since the stage's start, never negative; none if there was no start. */
  function Duration(timers: Timers, r: Report): Option<real> {
    if r.event.Started? || Key(r) !in timers then None
    else
      var elapsed := r.at - timers[Key(r)];
      Some(if elapsed < 0.0 then 0.0 else elapsed)
  }

  class Observer {
    var timers: Timers
    var warnings: seq<Report>
    var durations: seq<Option<real>>

    constructor ()
      ensures timers == map[] && warnings == [] && durations == []
    {
      timers, warnings, durations := map[], [], [];
    }

    method StageStarted(run: RunId, stage: Stage, at: real)
      modifies this
      ensures var r := Report(run, Started(stage), at);
              && timers == Observe(old(timers), r)
              && warnings == old(warnings) + (if Anomaly(old(timers), r) then [r] else [])
              && durations == old(durations) + [Duration(old(timers), r)]
    {
      var duplicate := (run, stage) in timers;
      timers := timers[(run, stage) := at];
      if duplicate {
        warnings := warnings + [Report(run, Started(stage), at)];
      }
      durations := durations + [None];
    }

    method FinishStage(r: Report) returns (duration: Option<real>)
      requires !r.event.Started?
      modifies this`timers, this`warnings
      ensures timers == Observe(old(timers), r)
      ensures warnings == old(warnings) + (if Anomaly(old(timers), r) then [r] else [])
      ensures duration == Duration(old(timers), r)
    {
      if Key(r) !in timers {
        warnings := warnings + [r];
        assert timers - {Key(r)} == timers;
        return None;
      }
      var startedAt := timers[Key(r)];
      timers := timers - {Key(r)};
      var elapsed := r.at - startedAt;
      return Some(if elapsed < 0.0 then 0.0 else elapsed);
    }

    method StageEnded(r: Report)
      requires !r.event.Started?
      modifies this
      ensures timers == Observe(old(timers), r)
      ensures warnings == old(warnings) + (if Anomaly(old(timers), r) then [r] else [])
      ensures durations == old(durations) + [Duration(old(timers), r)]
    {
      var duration := FinishStage(r);
      durations := durations + [duration];
    }
  }

  // ----- Interleavings -----

  function TimersAfter(reports: seq<Report>): Timers {
    if reports == [] then map[] else Observe(TimersAfter(reports[..|reports| - 1]), reports[|reports| - 1])
  }

  /** When the stage was last started by this run, unless it has ended since. */
  function RunningSince(reports: seq<Report>, run: RunId, stage: Stage): Option<real> {
    if reports == [] then None
    else
      var last := reports[|reports| - 1];
      if last.run != run || last.event.stage != stage then RunningSince(reports[..|reports| - 1], run, stage)
      else if last.event.Started? then Some(last.at)
      else None
  }

  lemma {:induction false} TimersMeaning(reports: seq<Report>, run: RunId, stage: Stage)
    ensures (run, stage) in TimersAfter(reports) <==> RunningSince(reports, run, stage).Some?
    ensures (run, stage) in TimersAfter(reports) ==>
              Some(TimersAfter(reports)[(run, stage)]) == RunningSince(reports, run, stage)
  {
    if reports != [] {
      TimersMeaning(reports[..|reports| - 1], run, stage);
    }
  }

  /**
    In any interleaving a start draws a warning exactly when the run's stage is running, an end exactly
    when it is not; and an end is timed from the stage's latest start, never below zero.
   */
  lemma ReportsMeaning(reports: seq<Report>, r: Report)
    ensures var since := RunningSince(reports, r.run, r.event.stage);
            && (Anomaly(TimersAfter(reports), r) <==> (r.event.Started? <==> since.Some?))
            && (r.event.Started? || since == None ==> Duration(TimersAfter(reports), r) == None)
            && (!r.event.Started? && since.Some? && r.at >= since.value ==>
                  Duration(TimersAfter(reports), r) == Some(r.at - since.value))
            && (!r.event.Started? && since.Some? && r.at < since.value ==>
                  Duration(TimersAfter(reports), r) == Some(0.0))
  {
    TimersMeaning(reports, r.run, r.event.stage);
  }

  /** The reports of one run, in order. */
  function Project(reports: seq<Report>, run: RunId): seq<Report> {
    if reports == [] then []
    else
      var before, last := Project(reports[..|reports| - 1], run), reports[|reports| - 1];
      if last.run == run then before + [last] else before
  }

  /** Interference-freedom: a run's timers are those of its own reports observed alone, start times included. */
  lemma {:induction false} TimersAreThePerRunTimers(reports: seq<Report>, run: RunId, stage: Stage)
    ensures (run, stage) in TimersAfter(reports) <==> (run, stage) in TimersAfter(Project(reports, run))
    ensures (run, stage) in TimersAfter(reports) ==>
              TimersAfter(reports)[(run, stage)] == TimersAfter(Project(reports, run))[(run, stage)]
  {
    if reports != [] {
      var before, last := reports[..|reports| - 1], reports[|reports| - 1];
      TimersAreThePerRunTimers(before, run, stage);
      if last.run == run {
        var own := Project(reports, run);
        assert own[..|own| - 1] == Project(before, run);
      }
    }
  }

  /** Each report of a run is anomalous, and lasts, exactly as it would with no other run around. */
  lemma AnomaliesAreTheRunsOwn(reports: seq<Report>, r: Report)
    ensures Anomaly(TimersAfter(reports), r) <==> Anomaly(TimersAfter(Project(reports, r.run)), r)
    ensures Duration(TimersAfter(reports), r) == Duration(TimersAfter(Project(reports, r.run)), r)
  {
    TimersAreThePerRunTimers(reports, r.run, r.event.stage);
  }

  // ----- One run on its own -----

  /** Stages running and stages ever started; tidy while nothing was started twice, ended unstarted, or failed. */
  datatype Log = Log(open: set<Stage>, started: set<Stage>, tidy: bool)

  const EMPTY := Log({}, {}, true)

  function Note(l: Log, e: Event): Log {
    if e.Started? then Log(l.open + {e.stage}, l.started + {e.stage}, l.tidy && e.stage !in l.started)
    else Log(l.open - {e.stage}, l.started, l.tidy && e.Finished? && e.stage in l.open)
  }

  function Logged(l: Log, events: seq<Event>): Log {
    if events == [] then l else Note(Logged(l, events[..|events| - 1]), events[|events| - 1])
  }

  lemma {:induction false} LoggedThen(l: Log, a: seq<Event>, b: seq<Event>)
    ensures Logged(l, a + b) == Logged(Logged(l, a), b)
  {
    if b == [] {
      assert a + b == a;
    } else {
      var most, last := b[..|b| - 1], b[|b| - 1];
      LoggedThen(l, a, most);
      assert (a + b)[..|a + b| - 1] == a + most;
    }
  }

  lemma LoggedTwo(l: Log, a: Event, b: Event)
    ensures Logged(l, [a]) == Note(l, a)
    ensures Logged(l, [a, b]) == Note(Note(l, a), b)
  {
    assert [a][..0] == [] && [a, b][..1] == [a];
  }

  function EventsOf(reports: seq<Report>): seq<Event> {
    seq(|reports|, i requires 0 <= i < |reports| => reports[i].event)
  }

  predicate AllOf(reports: seq<Report>, run: RunId) {
    forall r :: r in reports ==> r.run == run
  }

  lemma {:induction false} ProjectIsTheRuns(reports: seq<Report>, run: RunId)
    ensures AllOf(Project(reports, run), run)
  {
    if reports != [] {
      ProjectIsTheRuns(reports[..|reports| - 1], run);
    }
  }

  /** The observer's timers of a run alone are the open stages of its log. */
  lemma {:induction false} TimersAreOpenStages(reports: seq<Report>, run: RunId, stage: Stage)
    requires AllOf(reports, run)
    ensures (run, stage) in TimersAfter(reports) <==> stage in Logged(EMPTY, EventsOf(reports)).open
  {
    if reports != [] {
      var before, last := reports[..|reports| - 1], reports[|reports| - 1];
      assert last in reports;
      TimersAreOpenStages(before, run, stage);
      assert EventsOf(reports)[..|reports| - 1] == EventsOf(before);
    }
  }

  lemma {:induction false} TidyPrefixes(l: Log, events: seq<Event>, n: nat)
    requires n <= |events| && Logged(l, events).tidy
    ensures Logged(l, events[..n]).tidy
    ensures n < |events| ==> if events[n].Started? then events[n].stage !in Logged(l, events[..n]).started
      else events[n].stage in Logged(l, events[..n]).open
    decreases |events|
  {
    if n == |events| {
      assert events[..n] == events;
    } else {
      var most := events[..|events| - 1];
      if n < |most| {
        TidyPrefixes(l, most, n);
        assert most[..n] == events[..n] && most[n] == events[n];
      } else {
        assert events[..n] == most;
      }
    }
  }

  /** A tidy run starts each stage at most once and completes it as often as it started and is no longer open. */
  lemma {:induction false} TidyCounts(events: seq<Event>, stage: Stage)
    requires Logged(EMPTY, events).tidy
    ensures var (l, m) := (Logged(EMPTY, events), multiset(events));
            && m[Started(stage)] == (if stage in l.started then 1 else 0)
            && m[Finished(stage)] == (if stage in l.started && stage !in l.open then 1 else 0)
            && m[Broke(stage)] == 0
            && l.open <= l.started
  {
    if events != [] {
      var most, last := events[..|events| - 1], events[|events| - 1];
      assert events == most + [last];
      TidyCounts(most, stage);
    }
  }

  lemma {:induction false} OpenWasStarted(l: Log, events: seq<Event>)
    requires l.open <= l.started
    ensures Logged(l, events).open <= Logged(l, events).started
  {
    if events != [] {
      OpenWasStarted(l, events[..|events| - 1]);
    }
  }

  /** A run that was tidy and left nothing open draws no warning and leaves no timer, whatever else is going on. */
  lemma TidyRunsAreInvisible(reports: seq<Report>, run: RunId)
    requires Logged(EMPTY, EventsOf(Project(reports, run))).tidy
    ensures forall k :: 0 <= k < |reports| && reports[k].run == run ==> !Anomaly(TimersAfter(reports[..k]), reports[k])
    ensures Logged(EMPTY, EventsOf(Project(reports, run))).open == {} ==>
              forall stage :: (run, stage) !in TimersAfter(reports)
  {
    forall k | 0 <= k < |reports| && reports[k].run == run
      ensures !Anomaly(TimersAfter(reports[..k]), reports[k])
    {
      var own, n := Project(reports, run), |Project(reports[..k], run)|;
      ProjectPrefix(reports, run, k);
      assert EventsOf(own)[..n] == EventsOf(own[..n]);
      TidyPrefixes(EMPTY, EventsOf(own), n);
      AnomaliesAreTheRunsOwn(reports[..k], reports[k]);
      ProjectIsTheRuns(reports[..k], run);
      TimersAreOpenStages(own[..n], run, reports[k].event.stage);
      OpenWasStarted(EMPTY, EventsOf(own[..n]));
    }
    forall stage
      ensures (run, stage) in TimersAfter(reports) <==> stage in Logged(EMPTY, EventsOf(Project(reports, run))).open
    {
      TimersAreThePerRunTimers(reports, run, stage);
      ProjectIsTheRuns(reports, run);
      TimersAreOpenStages(Project(reports, run), run, stage);
    }
  }

  lemma {:induction false} ProjectPrefix(reports: seq<Report>, run: RunId, k: nat)
    requires k < |reports| && reports[k].run == run
    ensures var own, n := Project(reports, run), |Project(reports[..k], run)|;
            n < |own| && own[..n] == Project(reports[..k], run) && own[n] == reports[k]
    decreases |reports|
  {
    var before := reports[..|reports| - 1];
    if k < |before| {
      ProjectPrefix(before, run, k);
      assert before[..k] == reports[..k];
    } else {
      assert reports[..k] == before;
    }
  }
}
