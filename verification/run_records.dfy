/** What the final state of a run has on record, and how a failure shows among its reports. */
module RunRecords {
  import opened AnswerService
  import opened DecisionEngine
  import opened Orchestrator
  import opened OrchestratorEndings
  import opened OrchestratorSafety
  import opened Outcomes
  import opened SupportState
  import opened Texts
  import DirectResponses
  import Grounding
  import Guardrails

  // ----- The verdict on record -----

  /** The guardrail fields are the verdict of the configured policies on some candidate text, or empty. */
  ghost predicate VerdictOnRecord(setup: Setup, s: AIState) {
    if s.disposition == None then s.guardrailReason == None && s.guardrailPolicy == None
    else
      && setup.policies.Some? && s.decision.Some?
      && exists text ::
           var judged := Guardrails.Judge(setup.policies.value,
                                          Guardrails.Context(s.message, s.decision.value, Some(text), s.evidence));
           && judged.Ok? && s.disposition == Some(judged.value.outcome)
           && s.guardrailReason == Some(judged.value.reason) && s.guardrailPolicy == judged.value.policy
  }

  /** What a run that began its workflow in state s0 has on record when it returns. */
  ghost predicate Records(setup: Setup, w: World, s0: AIState, s: AIState) {
    && s.message == s0.message && s.context == s0.context && s.intent == s0.intent && s.decision == s0.decision
    && (s.evidence == s0.evidence || Some(s.evidence) == w.retrieval)
    && s.completedAt == (if s.stage in {Escalated, Failed} then Some(w.now) else None)
    && VerdictOnRecord(setup, s)
    && (s.stage == Escalated && s.disposition == None ==> s.escalationSource in {Some(FromDecision), Some(FromSystem)})
    && (s.stage == Escalated && s.disposition.Some? ==> s.escalationSource == Some(FromGuardrail))
  }

  /** In the middle of the workflow: nothing completed, escalated or judged yet. */
  predicate Working(s: AIState) {
    Underway(s) && s.completedAt == None && s.guardrailReason == None && s.guardrailPolicy == None
  }

  lemma VerdictIsRecorded(setup: Setup, s0: AIState, s: AIState)
    requires setup.policies.Some? && s0.decision.Some? && s0.response.Some?
    requires s.message == s0.message && s.decision == s0.decision && s.evidence == s0.evidence
    requires var judged := Guardrails.Judge(setup.policies.value, ContextOf(s0));
             && judged.Ok? && s.disposition == Some(judged.value.outcome)
             && s.guardrailReason == Some(judged.value.reason) && s.guardrailPolicy == judged.value.policy
    ensures VerdictOnRecord(setup, s)
  {
    var text := s0.response.value;
    assert ContextOf(s0) == Guardrails.Context(s.message, s.decision.value, Some(text), s.evidence);
  }

  lemma GuardrailStageRecords(setup: Setup, w: World, s: AIState)
    requires setup.Valid() && Working(s) && s.stage == ResponseGenerated
    ensures var o := GuardrailStage(setup, s, w.now).outcome; o.Done? ==> Records(setup, w, s, o.state)
  {
    var o := GuardrailStage(setup, s, w.now).outcome;
    if setup.policies.Some? && o.Done? {
      OwnedTextIsStable(setup, RefusalText);
      OwnedTextIsStable(setup, GuardrailNotice);
      VerdictIsRecorded(setup, s, o.state);
    }
  }

  lemma OwnedResponseRecords(setup: Setup, w: World, s: AIState, t: Template)
    requires setup.Valid() && Working(s) && s.decision.Some?
    ensures var o := OwnedResponse(setup, s, t, w.now).outcome; o.Done? ==> Records(setup, w, s, o.state)
  {
    OwnedTextIsStable(setup, t);
    var next := WithResponse(s, setup.texts(t)).value;
    assert OwnedResponse(setup, s, t, w.now).outcome == GuardrailStage(setup, next, w.now).outcome;
    GuardrailStageRecords(setup, w, next);
  }

  lemma NoticeRecords(setup: Setup, w: World, s: AIState, source: EscalationSource, reason: EscalationReason,
      t: Template)
    requires setup.Valid() && Working(s) && s.decision.Some? && source != FromGuardrail
    ensures var o := Stepped(WithEscalation(s, source, reason, setup.texts(t), w.now), Escalated).outcome;
            o.Done? && Records(setup, w, s, o.state)
  {
    OwnedTextIsStable(setup, t);
  }

  lemma FailureRecords(setup: Setup, w: World, s: AIState, stage: Stage, code: FailureCode, retryable: bool)
    requires Working(s)
    ensures Records(setup, w, s, Fail(s, stage, code, retryable, w.now).outcome.state)
  {
  }

  lemma AnswerRunRecords(setup: Setup, w: World, s: AIState, a: Answered)
    requires setup.Valid() && w.Valid() && Working(s) && Routed(setup, s)
    requires s.decision.value.decision == RetrieveInformation && a.generation.Valid() && w.retrieval == Some(a.evidence)
    ensures var o := AnswerRun(setup, s, a, w.now).outcome; o.Done? ==> Records(setup, w, s, o.state)
  {
    var generated := WithResponse(WithEvidence(s, a.evidence).value, a.generation.answer).value;
    assert AnswerRun(setup, s, a, w.now).outcome == ByGrounding(setup, generated, a.generation.status, w.now).outcome;
    match a.generation.status
    case InsufficientEvidence =>
      NoticeRecords(setup, w, generated, FromSystem, BecauseOf(KnowledgeUnavailable), KnowledgeGapNotice);
    case NotRequired => FailureRecords(setup, w, generated, ResponseGenerated, GroundingStatusInvalid, false);
    case Grounded => GuardrailStageRecords(setup, w, generated);
  }

  lemma AnswerFailureRecords(setup: Setup, w: World, s: AIState, e: AnswerError)
    requires Working(s)
    ensures var o := AnswerFailure(s, e, w.now).outcome; o.Done? ==> Records(setup, w, s, o.state)
  {
  }

  lemma RetrievalRecords(setup: Setup, w: World, s: AIState)
    requires setup.Valid() && w.Valid() && Working(s) && Routed(setup, s)
    requires s.decision.value.decision == RetrieveInformation
    ensures var o := Retrieval(setup, w, s).outcome; o.Done? ==> Records(setup, w, s, o.state)
  {
    if !setup.answers {
      FailureRecords(setup, w, s, RetrievalCompleted, AnswerServiceUnavailable, false);
    } else {
      RetrievalOutcome(setup, w, s);
      match AnswerFromKnowledge(s.context, w.retrieval, w.reply)
      case Err(e) => AnswerFailureRecords(setup, w, s, e);
      case Ok(a) =>
        AcceptedIsTheReply(w.retrieval.value, w.reply);
        AnswerRunRecords(setup, w, s, a);
    }
  }

  lemma ExecutionRecords(setup: Setup, w: World, s: AIState)
    requires setup.Valid() && w.Valid() && Working(s) && Routed(setup, s)
    ensures var o := Execution(setup, w, s).outcome; o.Done? ==> Records(setup, w, s, o.state)
  {
    DecisionMeaning(setup.threshold, s.intent.value);
    match s.decision.value.decision
    case AnswerDirectly =>
      match DirectResponses.Resolve(setup.patterns, s.message, s.intent.value, s.decision.value) {
        case None => FailureRecords(setup, w, s, ResponseGenerated, DirectResponseUnavailable, false);
        case Some(kind) => OwnedResponseRecords(setup, w, s, DirectText(kind));
      }
    case RetrieveInformation => RetrievalRecords(setup, w, s);
    case AskClarification =>
      OwnedResponseRecords(setup, w, s, ClarificationTemplate(Some(s.intent.value.intent), s.decision.value.required));
    case Escalate =>
      var reason := s.decision.value.reason;
      NoticeRecords(setup, w, s, FromDecision, BecauseOf(reason), NoticeTemplate(reason));
    case PerformAction => assert false;
  }

  /**
    A run that returns has on record the trimmed message and context, the intent it understood, the
    engine's decision, the retrieved evidence or none, the policies' verdict or none, who called a person
    in, and the time of an escalation or failure.
   */
  lemma RunsRecordWhatHappened(setup: Setup, w: World, message: string, context: Option<string>)
    requires setup.Valid() && w.Valid() && Receive(message, context).Ok? && Understood(w).Ok?
    ensures Decide(setup.threshold, Understood(w).value).Ok?
    ensures var o := ProcessRun(setup, w, message, context).outcome;
            o.Done? ==>
              && o.state.message == Strip(message) && o.state.context == Normalized(context)
              && o.state.intent == Some(Understood(w).value)
              && o.state.decision == Some(Decide(setup.threshold, Understood(w).value).value)
              && (o.state.evidence == [] || Some(o.state.evidence) == w.retrieval)
              && o.state.completedAt == (if o.state.stage in {Escalated, Failed} then Some(w.now) else None)
              && VerdictOnRecord(setup, o.state)
              && (o.state.stage == Escalated ==>
                    (o.state.disposition.Some? <==> o.state.escalationSource == Some(FromGuardrail)))
  {
    ReachesItsDecision(setup, w, message, context);
    RoutingIsRouted(setup, w, message, context);
    var s := Routing(setup, w, message, context);
    assert Working(s);
    ExecutionRecords(setup, w, s);
  }

  // ----- How a failure is reported -----

  /** A run reports a failed stage exactly when it fails: once, as its last report, and the stage of its error. */
  predicate ReportsItsFailure(r: Run) {
    if r.outcome.Done? && r.outcome.state.stage == Failed then
      && r.events != [] && r.outcome.state.errors != []
      && r.events[|r.events| - 1] == Broke(r.outcome.state.errors[|r.outcome.state.errors| - 1].stage)
      && Unbroken(r.events[..|r.events| - 1])
    else Unbroken(r.events)
  }

  predicate Unbroken(events: seq<Event>) {
    forall e :: e in events ==> !e.Broke?
  }

  lemma FailureThen(first: Run, next: Run)
    requires Unbroken(first.events) && ReportsItsFailure(next)
    ensures ReportsItsFailure(first.Then(next))
  {
    var (a, b) := (first.events, next.events);
    if b != [] {
      assert (a + b)[..|a + b| - 1] == a + b[..|b| - 1];
    }
  }

  lemma StepReports(step: Result<AIState, Exn>, stage: Stage)
    requires step.Ok? ==> step.value.stage != Failed
    ensures ReportsItsFailure(Stepped(step, stage))
  {
  }

  lemma GuardrailStageReports(setup: Setup, s: AIState, now: Time)
    requires s.stage != Failed
    ensures ReportsItsFailure(GuardrailStage(setup, s, now))
  {
  }

  lemma OwnedResponseReports(setup: Setup, s: AIState, t: Template, now: Time)
    ensures ReportsItsFailure(OwnedResponse(setup, s, t, now))
  {
    var generated := Generated(s, setup.texts(t));
    if generated.Going() {
      GuardrailStageReports(setup, generated.outcome.state, now);
      FailureThen(generated, GuardrailStage(setup, generated.outcome.state, now));
    }
  }

  lemma FailReports(s: AIState, stage: Stage, code: FailureCode, retryable: bool, now: Time)
    ensures ReportsItsFailure(Fail(s, stage, code, retryable, now))
  {
  }

  lemma ByGroundingReports(setup: Setup, s: AIState, status: Grounding.Status, now: Time)
    requires s.stage != Failed
    ensures ReportsItsFailure(ByGrounding(setup, s, status, now))
  {
    match status
    case InsufficientEvidence =>
    case NotRequired => FailReports(s, ResponseGenerated, GroundingStatusInvalid, false, now);
    case Grounded => GuardrailStageReports(setup, s, now);
  }

  lemma AnswerRunReports(setup: Setup, s: AIState, a: Answered, now: Time)
    ensures ReportsItsFailure(AnswerRun(setup, s, a, now))
  {
    if WithEvidence(s, a.evidence).Ok? {
      var retrieved := WithEvidence(s, a.evidence).value;
      var closing := Reached(retrieved, [Finished(RetrievalCompleted)]);
      var answered := Generated(retrieved, a.generation.answer);
      StepReports(WithResponse(retrieved, a.generation.answer), ResponseGenerated);
      FailureThen(closing, answered);
      var generated := closing.Then(answered);
      if generated.Going() {
        ByGroundingReports(setup, generated.outcome.state, a.generation.status, now);
        assert Unbroken(generated.events);
        FailureThen(generated, ByGrounding(setup, generated.outcome.state, a.generation.status, now));
      }
    }
  }

  lemma RetrievalReports(setup: Setup, w: World, s: AIState)
    ensures ReportsItsFailure(Retrieval(setup, w, s))
  {
    if s.intent.Some? && s.decision.Some? {
      if setup.answers {
        var started := Run(Done(s), [], [Started(RetrievalCompleted)]);
        match Answer(s.message, s.context, s.decision.value, w.retrieval, w.reply)
        case Err(e) => FailureThen(started, AnswerFailure(s, e, w.now));
        case Ok(a) =>
          AnswerRunReports(setup, s, a, w.now);
          FailureThen(started, AnswerRun(setup, s, a, w.now));
      }
    }
  }

  lemma ExecutionReports(setup: Setup, w: World, s: AIState)
    ensures ReportsItsFailure(Execution(setup, w, s))
  {
    if s.decision.Some? {
      match s.decision.value.decision
      case AnswerDirectly =>
        if s.intent.Some? {
          var kind := DirectResponses.Resolve(setup.patterns, s.message, s.intent.value, s.decision.value);
          if kind.Some? {
            OwnedResponseReports(setup, s, DirectText(kind.value), w.now);
          }
        }
      case RetrieveInformation => RetrievalReports(setup, w, s);
      case AskClarification =>
        var intent := if s.intent.Some? then Some(s.intent.value.intent) else None;
        OwnedResponseReports(setup, s, ClarificationTemplate(intent, s.decision.value.required), w.now);
      case Escalate =>
      case PerformAction =>
    }
  }

  lemma DecidedReports(setup: Setup, w: World, s: AIState)
    ensures ReportsItsFailure(Decided(setup, w, s))
  {
    var decided := DecisionStage(setup, s, w.now);
    if decided.Going() {
      ExecutionReports(setup, w, decided.outcome.state);
      FailureThen(decided, Execution(setup, w, decided.outcome.state));
    }
  }

  lemma IntentStageReports(w: World, s: AIState)
    requires s.stage != Failed
    ensures ReportsItsFailure(IntentStage(w, s))
    ensures IntentStage(w, s).Going() ==> Unbroken(IntentStage(w, s).events)
  {
    if w.route == None {
      var started := Run(Done(s), [], [Started(IntentClassified)]);
      assert Unbroken(started.events);
    }
  }

  lemma PipelineReports(setup: Setup, w: World, s: AIState)
    requires s.stage != Failed
    ensures ReportsItsFailure(Pipeline(setup, w, s))
  {
    var classified := IntentStage(w, s);
    IntentStageReports(w, s);
    if classified.Going() {
      DecidedReports(setup, w, classified.outcome.state);
      FailureThen(classified, Decided(setup, w, classified.outcome.state));
    }
  }

  /** Every run reports a failed stage exactly when it fails: once, last, and under the stage of its error. */
  lemma FailuresAreReportedLast(setup: Setup, w: World, message: string, context: Option<string>)
    ensures ReportsItsFailure(ProcessRun(setup, w, message, context))
  {
    if Receive(message, context).Ok? {
      var s := Receive(message, context).value;
      PipelineReports(setup, w, s);
      FailureThen(Run(Done(s), [s], []), Pipeline(setup, w, s));
    }
  }
}
