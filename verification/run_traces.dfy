/** What the pipeline's reports look like to the stage observer, for every run and every interleaving. */
module RunTraces {
  import opened Outcomes
  import opened Texts
  import opened SupportState
  import opened DecisionEngine
  import opened AnswerService
  import opened Orchestrator
  import opened OrchestratorEndings
  import opened OrchestratorSafety
  import opened StageTelemetry
  import Grounding
  import DirectResponses
  import Guardrails

  /** The timers a failed run leaves: a generation failure ends a stage other than the one it started. */
  function LeftBy(s: AIState): set<Stage> {
    if s.errors != [] && s.errors[|s.errors| - 1].code in GENERATION_CODES then {RetrievalCompleted} else {}
  }

  /** The timers an exception leaves: those of the stage it interrupts. */
  predicate Interrupts(e: Exn, open: set<Stage>) {
    match e
    case ClassifierDefect => open == {IntentClassified}
    case RetrievalDefect => open == {RetrievalCompleted}
    case ContextTooLong => open == {RetrievalCompleted}
    case PolicyDefect => open == {GuardrailsCompleted}
    case InvalidValue => open <= {GuardrailsCompleted}
    case BrokenInvariant => false
  }

  /** The part of a run that may still start the given stages, seen by an observer holding no timer of the run. */
  predicate Leaves(l: Log, r: Run, mayStart: set<Stage>) {
    var after := Logged(l, r.events);
    match r.outcome
    case Raised(e) => Interrupts(e, after.open)
    case Done(s) =>
      if s.stage == Failed then after.open == LeftBy(s)
      else after.open == {} && after.tidy && after.started <= l.started + mayStart
  }

  predicate Quiet(l: Log, mayStart: set<Stage>) {
    l.open == {} && l.tidy && l.started !! mayStart
  }

  lemma SteppedTrace(l: Log, step: Result<AIState, Exn>, stage: Stage)
    requires Quiet(l, {stage}) && step.Ok? && step.value.stage != Failed
    ensures Leaves(l, Stepped(step, stage), {stage})
    ensures Quiet(Logged(l, [Started(stage), Finished(stage)]), {})
    ensures Logged(l, [Started(stage), Finished(stage)]).started == l.started + {stage}
  {
    LoggedTwo(l, Started(stage), Finished(stage));
  }

  /** A finished part and then the rest. */
  lemma LeavesThen(l: Log, first: Run, next: Run, firstStages: set<Stage>, nextStages: set<Stage>)
    requires Logged(l, first.events).started <= l.started + firstStages
    requires Leaves(Logged(l, first.events), next, nextStages)
    ensures Leaves(l, first.Then(next), firstStages + nextStages)
  {
    LoggedThen(l, first.events, next.events);
  }

  lemma RejectionTrace(l: Log, setup: Setup, s: AIState, v: Guardrails.Verdict, now: Time)
    requires setup.Valid() && Underway(s) && s.stage == ResponseGenerated && Quiet(l, {GuardrailsCompleted, Escalated})
    ensures Leaves(l, GuardrailEscalation(setup, s, v, now), {GuardrailsCompleted, Escalated})
  {
    OwnedTextIsStable(setup, GuardrailNotice);
    var (one, two) := ([Started(GuardrailsCompleted), Finished(GuardrailsCompleted)],
        [Started(Escalated), Finished(Escalated)]);
    assert GuardrailEscalation(setup, s, v, now).events == one + two;
    LoggedTwo(l, one[0], one[1]);
    LoggedTwo(Logged(l, one), two[0], two[1]);
    LoggedThen(l, one, two);
  }

  lemma RefusalTrace(l: Log, setup: Setup, s: AIState, v: Guardrails.Verdict)
    requires setup.Valid() && Underway(s) && s.stage == ResponseGenerated && Quiet(l, {GuardrailsCompleted})
    ensures Leaves(l, SafeRefusal(setup, s, v), {GuardrailsCompleted})
  {
    OwnedTextIsStable(setup, RefusalText);
    var refusal := WithResponse(s, setup.texts(RefusalText)).value;
    SteppedTrace(l, WithGuardrails(refusal, Refuse, v.reason, v.policy), GuardrailsCompleted);
    assert SafeRefusal(setup, s, v).events == [Started(GuardrailsCompleted), Finished(GuardrailsCompleted)];
  }

  lemma GuardrailTrace(l: Log, setup: Setup, s: AIState, now: Time)
    requires setup.Valid() && Underway(s) && s.stage == ResponseGenerated && Quiet(l, {GuardrailsCompleted, Escalated})
    ensures Leaves(l, GuardrailStage(setup, s, now), {GuardrailsCompleted, Escalated})
  {
    if setup.policies.Some? {
      var judged := Guardrails.Judge(setup.policies.value, ContextOf(s));
      if judged.Err? {
        JudgeErrors(setup.policies.value, ContextOf(s));
        LoggedTwo(l, Started(GuardrailsCompleted), Finished(GuardrailsCompleted));
      } else {
        match judged.value.outcome
        case Pass => SteppedTrace(l, WithGuardrails(s, Pass, judged.value.reason, judged.value.policy),
            GuardrailsCompleted);
        case Refuse => RefusalTrace(l, setup, s, judged.value);
        case EscalateResponse => RejectionTrace(l, setup, s, judged.value, now);
      }
    }
  }

  const ANSWERING: set<Stage> := {ResponseGenerated, GuardrailsCompleted, Escalated}

  lemma GeneratedTrace(l: Log, s: AIState, answer: string)
    requires Underway(s) && s.decision.Some? && Strip(answer) != "" && Quiet(l, ANSWERING)
    ensures Generated(s, answer).Going()
    ensures var after := Logged(l, Generated(s, answer).events);
            Quiet(after, {GuardrailsCompleted, Escalated}) && after.started == l.started + {ResponseGenerated}
  {
    SteppedTrace(l, WithResponse(s, answer), ResponseGenerated);
  }

  lemma OwnedTrace(l: Log, setup: Setup, s: AIState, t: Template, now: Time)
    requires setup.Valid() && Underway(s) && s.decision.Some? && Quiet(l, ANSWERING)
    ensures Leaves(l, OwnedResponse(setup, s, t, now), ANSWERING)
  {
    OwnedTextIsStable(setup, t);
    var generated := Generated(s, setup.texts(t));
    GeneratedTrace(l, s, setup.texts(t));
    GuardrailTrace(Logged(l, generated.events), setup, generated.outcome.state, now);
    LeavesThen(l, generated, GuardrailStage(setup, generated.outcome.state, now), {ResponseGenerated},
        {GuardrailsCompleted, Escalated});
  }

  lemma NoticeTrace(l: Log, setup: Setup, s: AIState, source: EscalationSource, reason: EscalationReason, t: Template,
      now: Time)
    requires setup.Valid() && Underway(s) && s.decision.Some? && Quiet(l, {Escalated})
    ensures Leaves(l, Stepped(WithEscalation(s, source, reason, setup.texts(t), now), Escalated), {Escalated})
  {
    OwnedTextIsStable(setup, t);
    SteppedTrace(l, WithEscalation(s, source, reason, setup.texts(t), now), Escalated);
  }

  /** A failure reported under a stage that is not running closes nothing. */
  lemma FailTrace(l: Log, s: AIState, stage: Stage, code: FailureCode, retryable: bool, now: Time)
    requires l.open - {stage} == LeftBy(WithError(s, PipelineError(code, stage, retryable), now))
    ensures Leaves(l, Fail(s, stage, code, retryable, now), {})
  {
    LoggedTwo(l, Broke(stage), Broke(stage));
  }

  lemma ByGroundingTrace(l: Log, setup: Setup, s: AIState, status: Grounding.Status, now: Time)
    requires setup.Valid() && Underway(s) && s.stage == ResponseGenerated
              && s.decision.value.decision == RetrieveInformation
    requires Quiet(l, {GuardrailsCompleted, Escalated})
    ensures Leaves(l, ByGrounding(setup, s, status, now), {GuardrailsCompleted, Escalated})
  {
    match status
    case InsufficientEvidence =>
      NoticeTrace(l, setup, s, FromSystem, BecauseOf(KnowledgeUnavailable), KnowledgeGapNotice, now);
    case NotRequired => FailTrace(l, s, ResponseGenerated, GroundingStatusInvalid, false, now);
    case Grounded => GuardrailTrace(l, setup, s, now);
  }

  /** While retrieval is running: the answer closes it, then generates. */
  lemma AnswerRunTrace(l: Log, setup: Setup, s: AIState, a: Answered, now: Time)
    requires setup.Valid() && Routed(setup, s) && s.decision.value.decision == RetrieveInformation
              && a.generation.Valid()
    requires l.open == {RetrievalCompleted} && l.tidy && l.started !! ANSWERING
    ensures Leaves(l, AnswerRun(setup, s, a, now), ANSWERING)
  {
    var retrieved := WithEvidence(s, a.evidence).value;
    var closing, generated :=
        Reached(retrieved, [Finished(RetrievalCompleted)]), Generated(retrieved, a.generation.answer);
    LoggedTwo(l, Finished(RetrievalCompleted), Finished(RetrievalCompleted));
    var idle := Logged(l, closing.events);
    GeneratedTrace(idle, retrieved, a.generation.answer);
    var rest := ByGrounding(setup, generated.outcome.state, a.generation.status, now);
    ByGroundingTrace(Logged(idle, generated.events), setup, generated.outcome.state, a.generation.status, now);
    LoggedThen(l, closing.events, generated.events);
    LeavesThen(l, closing.Then(generated), rest, {ResponseGenerated}, {GuardrailsCompleted, Escalated});
  }

  lemma AnswerFailureTrace(l: Log, s: AIState, e: AnswerError, now: Time)
    requires l.open == {RetrievalCompleted} && s.errors == []
    requires e.Generation? || (e.Escapes? && e.exn in {RetrievalDefect, ContextTooLong})
    ensures Leaves(l, AnswerFailure(s, e, now), {})
  {
    match e
    case Generation(Timeout) => FailTrace(l, s, ResponseGenerated, GenerationProviderTimeout, true, now);
    case Generation(ProviderFailure) => FailTrace(l, s, ResponseGenerated, GenerationProviderFailure, true, now);
    case Generation(InvalidResponse) => FailTrace(l, s, ResponseGenerated, GenerationInvalidResponse, true, now);
    case Generation(OtherFailure) => FailTrace(l, s, ResponseGenerated, GenerationFailure, false, now);
    case Escapes(_) =>
  }

  const RETRIEVING: set<Stage> := {RetrievalCompleted} + ANSWERING

  lemma AnsweredTrace(l: Log, setup: Setup, w: World, s: AIState)
    requires setup.Valid() && w.Valid() && Routed(setup, s) && s.decision.value.decision == RetrieveInformation
    requires l.open == {RetrievalCompleted} && l.tidy && l.started !! ANSWERING
    ensures match AnswerFromKnowledge(s.context, w.retrieval, w.reply)
            case Err(e) => Leaves(l, AnswerFailure(s, e, w.now), ANSWERING)
            case Ok(a) => Leaves(l, AnswerRun(setup, s, a, w.now), ANSWERING)
  {
    match AnswerFromKnowledge(s.context, w.retrieval, w.reply)
    case Err(e) => AnswerFailureTrace(l, s, e, w.now);
    case Ok(a) =>
      AcceptedIsTheReply(w.retrieval.value, w.reply);
      AnswerRunTrace(l, setup, s, a, w.now);
  }

  lemma RetrievalTrace(l: Log, setup: Setup, w: World, s: AIState)
    requires setup.Valid() && w.Valid() && Routed(setup, s) && s.decision.value.decision == RetrieveInformation
              && Quiet(l, RETRIEVING)
    ensures Leaves(l, Retrieval(setup, w, s), RETRIEVING)
  {
    if !setup.answers {
      FailTrace(l, s, RetrievalCompleted, AnswerServiceUnavailable, false, w.now);
    } else {
      var started := Run(Done(s), [], [Started(RetrievalCompleted)]);
      LoggedTwo(l, Started(RetrievalCompleted), Started(RetrievalCompleted));
      RoutingErrorsAreUnreachable(setup.threshold, s.intent.value, s.message, s.context, w.retrieval, w.reply);
      AnsweredTrace(Logged(l, started.events), setup, w, s);
      match AnswerFromKnowledge(s.context, w.retrieval, w.reply)
      case Err(e) => LeavesThen(l, started, AnswerFailure(s, e, w.now), {RetrievalCompleted}, ANSWERING);
      case Ok(a) => LeavesThen(l, started, AnswerRun(setup, s, a, w.now), {RetrievalCompleted}, ANSWERING);
    }
  }

  lemma ExecutionTrace(l: Log, setup: Setup, w: World, s: AIState)
    requires setup.Valid() && w.Valid() && Routed(setup, s) && Quiet(l, RETRIEVING)
    ensures Leaves(l, Execution(setup, w, s), RETRIEVING)
  {
    DecisionMeaning(setup.threshold, s.intent.value);
    match s.decision.value.decision
    case AnswerDirectly =>
      match DirectResponses.Resolve(setup.patterns, s.message, s.intent.value, s.decision.value) {
        case None => FailTrace(l, s, ResponseGenerated, DirectResponseUnavailable, false, w.now);
        case Some(kind) => OwnedTrace(l, setup, s, DirectText(kind), w.now);
      }
    case RetrieveInformation => RetrievalTrace(l, setup, w, s);
    case AskClarification =>
      OwnedTrace(l, setup, s, ClarificationTemplate(Some(s.intent.value.intent), s.decision.value.required), w.now);
    case Escalate =>
      var reason := s.decision.value.reason;
      NoticeTrace(l, setup, s, FromDecision, BecauseOf(reason), NoticeTemplate(reason), w.now);
    case PerformAction => assert false;
  }

  const DECIDING: set<Stage> := {DecisionMade} + RETRIEVING

  lemma DecidedTrace(l: Log, setup: Setup, w: World, s: AIState)
    requires setup.Valid() && w.Valid() && Underway(s) && s.intent.Some? && s.intent.value.Valid() && Quiet(l, DECIDING)
    ensures Leaves(l, Decided(setup, w, s), DECIDING)
  {
    DecideNeverRaises(setup.threshold, s.intent.value);
    var decided := DecisionStage(setup, s, w.now);
    SteppedTrace(l, WithDecision(s, Decide(setup.threshold, s.intent.value).value), DecisionMade);
    assert decided.Going() && Routed(setup, decided.outcome.state);
    ExecutionTrace(Logged(l, decided.events), setup, w, decided.outcome.state);
    LeavesThen(l, decided, Execution(setup, w, decided.outcome.state), {DecisionMade}, RETRIEVING);
  }

  lemma IntentFailureTrace(l: Log, s: AIState, code: FailureCode, retryable: bool, now: Time)
    requires Quiet(l, {IntentClassified}) && code !in GENERATION_CODES
    ensures var started := Run(Done(s), [], [Started(IntentClassified)]);
            Leaves(l, started.Then(Fail(s, IntentClassified, code, retryable, now)), {})
  {
    LoggedTwo(l, Started(IntentClassified), Broke(IntentClassified));
    assert [Started(IntentClassified)] + [Broke(IntentClassified)]
        == [Started(IntentClassified), Broke(IntentClassified)];
  }

  lemma IntentTrace(l: Log, w: World, s: AIState)
    requires w.Valid() && Underway(s) && Quiet(l, {IntentClassified})
    ensures var r := IntentStage(w, s);
            if r.Going()
            then Quiet(Logged(l, r.events), {}) && Logged(l, r.events).started == l.started + {IntentClassified}
            else Leaves(l, r, {})
  {
    LoggedTwo(l, Started(IntentClassified), Finished(IntentClassified));
    if w.route.None? {
      match w.classifier
      case InvalidInput => IntentFailureTrace(l, s, IntentInvalidInput, false, w.now);
      case ClassifierTimeout => IntentFailureTrace(l, s, IntentProviderTimeout, true, w.now);
      case InvalidReply => IntentFailureTrace(l, s, IntentInvalidResponse, true, w.now);
      case ClassifierDown => IntentFailureTrace(l, s, IntentProviderFailure, true, w.now);
      case ClassifierError => IntentFailureTrace(l, s, IntentClassificationFailure, false, w.now);
      case _ =>
    }
  }

  lemma PipelineTrace(l: Log, setup: Setup, w: World, s: AIState)
    requires setup.Valid() && w.Valid() && Underway(s) && Quiet(l, {IntentClassified} + DECIDING)
    ensures Leaves(l, Pipeline(setup, w, s), {IntentClassified} + DECIDING)
  {
    var classified := IntentStage(w, s);
    IntentTrace(l, w, s);
    IntentStageIsFine(setup, w, s);
    if classified.Going() {
      DecidedTrace(Logged(l, classified.events), setup, w, classified.outcome.state);
      LeavesThen(l, classified, Decided(setup, w, classified.outcome.state), {IntentClassified}, DECIDING);
    }
  }

  // ----- The main results -----

  /** What every run leaves behind, by how it ended. */
  lemma TraceOfARun(setup: Setup, w: World, message: string, context: Option<string>)
    requires setup.Valid() && w.Valid()
    ensures Leaves(EMPTY, ProcessRun(setup, w, message, context), {IntentClassified} + DECIDING)
  {
    if Receive(message, context).Ok? {
      var s := Receive(message, context).value;
      ReceivedIsUnderway(message, context);
      PipelineTrace(EMPTY, setup, w, s);
      assert [] + Pipeline(setup, w, s).events == Pipeline(setup, w, s).events;
    }
  }

  /**
    Any number of runs interleaved: a run that returns without failing starts each stage at most once,
    completes exactly the stages it started, once each, reports no failed stage, draws no warning, and
    leaves no timer.
   */
  lemma UnfailedRunsAreInvisible(setup: Setup, w: World, message: string, context: Option<string>,
      reports: seq<Report>, run: RunId)
    requires setup.Valid() && w.Valid()
    ensures var r := ProcessRun(setup, w, message, context);
            EventsOf(Project(reports, run)) == r.events && r.Going() ==>
              && (forall stage :: multiset(r.events)[Finished(stage)] == multiset(r.events)[Started(stage)] <= 1
                    && multiset(r.events)[Broke(stage)] == 0)
              && (forall k :: 0 <= k < |reports| && reports[k].run == run
                   ==> !Anomaly(TimersAfter(reports[..k]), reports[k]))
              && (forall stage :: (run, stage) !in TimersAfter(reports))
  {
    var r := ProcessRun(setup, w, message, context);
    if EventsOf(Project(reports, run)) == r.events && r.Going() {
      TraceOfARun(setup, w, message, context);
      TidyRunsAreInvisible(reports, run);
      forall stage
        ensures multiset(r.events)[Finished(stage)] == multiset(r.events)[Started(stage)] <= 1
                  && multiset(r.events)[Broke(stage)] == 0
      {
        TidyCounts(r.events, stage);
      }
    }
  }

  lemma LeftoverByCode(setup: Setup, w: World, message: string, context: Option<string>, reports: seq<Report>,
      run: RunId, stage: Stage)
    requires setup.Valid() && w.Valid()
    ensures var r := ProcessRun(setup, w, message, context);
            EventsOf(Project(reports, run)) == r.events && r.outcome.Done? ==>
              ((run, stage) in TimersAfter(reports) <==>
                  r.outcome.state.stage == Failed && stage in LeftBy(r.outcome.state))
  {
    TraceOfARun(setup, w, message, context);
    TimersAreThePerRunTimers(reports, run, stage);
    ProjectIsTheRuns(reports, run);
    TimersAreOpenStages(Project(reports, run), run, stage);
  }

  lemma LeftByMeansGeneration(s: AIState)
    requires Inv(s)
    ensures FailsInGeneration(EndingOf(Done(s))) <==> s.stage == Failed && LeftBy(s) == {RetrievalCompleted}
    ensures LeftBy(s) == {RetrievalCompleted} || LeftBy(s) == {}
  {
  }

  /**
    In any interleaving a run that returns leaves a timer exactly when generation fails on its inputs,
    and then only the retrieval timer.
   */
  lemma LeftoverTimers(setup: Setup, w: World, message: string, context: Option<string>, reports: seq<Report>,
      run: RunId, stage: Stage)
    requires setup.Valid() && w.Valid()
    ensures var r := ProcessRun(setup, w, message, context);
            EventsOf(Project(reports, run)) == r.events && r.outcome.Done? ==>
              ((run, stage) in TimersAfter(reports) <==>
                  stage == RetrievalCompleted && GenerationFails(setup, w, message, context))
  {
    var o := ProcessRun(setup, w, message, context).outcome;
    LeftoverByCode(setup, w, message, context, reports, run, stage);
    GenerationFailureIff(setup, w, message, context);
    if o.Done? {
      EveryRunIsFine(setup, w, message, context);
      LeftByMeansGeneration(o.state);
    }
  }

  /** For instance when the provider times out on a refund request. */
  lemma LeftoverTimerExample(setup: Setup, now: Time, reports: seq<Report>, run: RunId)
    requires setup.Valid() && setup.answers
    ensures var w := World(Some(REFUND), ClassifierCrash, Some([]), Grounding.TimedOut, now);
            w.Valid() && (EventsOf(Project(reports, run)) == ProcessRun(setup, w, "m", None).events ==>
              (run, RetrievalCompleted) in TimersAfter(reports))
  {
    var w := World(Some(REFUND), ClassifierCrash, Some([]), Grounding.TimedOut, now);
    GenerationFailureExample(setup, now);
    GenerationFailureIff(setup, w, "m", None);
    LeftoverTimers(setup, w, "m", None, reports, run, RetrievalCompleted);
  }
}
