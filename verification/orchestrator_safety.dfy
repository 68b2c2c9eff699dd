/** What every run of the pipeline guarantees: sound states, closed endings, and vouched-for customer text. */
module OrchestratorSafety {
  import opened Outcomes
  import opened Texts
  import opened SupportState
  import opened DecisionEngine
  import opened AnswerService
  import opened Orchestrator
  import Grounding
  import DirectResponses
  import Guardrails

  // ----- What the customer may see -----

  /** The text the application persists for the customer after a run, if any. */
  function Visible(s: AIState): Option<string> {
    if s.stage == GuardrailsCompleted && s.response.Some? then Some(Collapse(s.response.value))
    else if s.stage == Escalated && s.notice.Some? then Some(Collapse(s.notice.value))
    else None
  }

  /** The text is one of the application's own constants. */
  ghost predicate Owned(setup: Setup, text: string) {
    exists t :: setup.texts(t) == text
  }

  /** A generated answer that is grounded in this run's evidence. */
  ghost predicate GroundedReply(w: World, s: AIState) {
    && w.reply.Replied? && w.reply.g.Valid() && w.retrieval.Some?
    && w.reply.g.status == Grounding.Grounded && Grounding.WellGrounded(w.retrieval.value, w.reply.g)
    && s.evidence == w.retrieval.value && s.decision.Some? && s.decision.value.decision == RetrieveInformation
  }

  /** No configured policy objects to showing this run's answer. */
  ghost predicate Unopposed(setup: Setup, w: World, s: AIState)
    requires setup.policies.Some? && s.decision.Some? && w.reply.Replied?
  {
    var c := Guardrails.Context(s.message, s.decision.value, Some(w.reply.g.answer), s.evidence);
    forall i :: 0 <= i < |setup.policies.value| ==> setup.policies.value[i].check(c).Silent?
  }

  ghost predicate Approved(setup: Setup, w: World, s: AIState) {
    && s.stage == GuardrailsCompleted && s.disposition == Some(Pass) && setup.policies.Some?
    && GroundedReply(w, s) && Unopposed(setup, w, s)
    && Visible(s) == Some(Collapse(w.reply.g.answer))
  }

  /** The run passed the guardrails with an answer from the knowledge workflow. */
  predicate ShowsAnswer(s: AIState) {
    s.stage == GuardrailsCompleted && s.disposition == Some(Pass) && s.decision.Some?
        && s.decision.value.decision == RetrieveInformation
  }

  ghost predicate Vouched(setup: Setup, w: World, s: AIState) {
    if ShowsAnswer(s) then Approved(setup, w, s)
    else Visible(s).Some? ==> Owned(setup, Visible(s).value)
  }

  // ----- How a run may end -----

  const IMPOSSIBLE: set<FailureCode> :=
    {DecisionEngineFailure, DecisionWorkflowUnsupported, RetrievalDecisionInvalid, RetrievalKindUnsupported}

  const RETRYABLE: set<FailureCode> :=
    {IntentProviderTimeout, IntentInvalidResponse, IntentProviderFailure, GenerationProviderTimeout,
        GenerationProviderFailure,
     GenerationInvalidResponse}

  /** The stage under which each possible failure is reported. */
  function ReportedUnder(code: FailureCode): Stage {
    match code
    case IntentInvalidInput => IntentClassified
    case IntentProviderTimeout => IntentClassified
    case IntentInvalidResponse => IntentClassified
    case IntentProviderFailure => IntentClassified
    case IntentClassificationFailure => IntentClassified
    case DecisionEngineFailure => DecisionMade
    case DecisionWorkflowUnsupported => DecisionMade
    case AnswerServiceUnavailable => RetrievalCompleted
    case RetrievalKindUnsupported => RetrievalCompleted
    case RetrievalDecisionInvalid => RetrievalCompleted
    case _ => ResponseGenerated
  }

  /** Retryable exactly for timeouts, outages and malformed replies of a provider, under its own stage. */
  predicate WellReported(e: PipelineError) {
    e.code !in IMPOSSIBLE && (e.retryable <==> e.code in RETRYABLE) && e.stage == ReportedUnder(e.code)
  }

  /** Why a person is called in: the decision said so, knowledge ran out, or a guardrail objected. */
  predicate Explained(s: AIState) {
    s.stage == Escalated ==>
      s.decision.Some? && s.escalationReason.Some?
      && match s.escalationSource
         case Some(FromDecision) =>
           s.decision.value.decision == Escalate && s.escalationReason.value == BecauseOf(s.decision.value.reason)
         case Some(FromSystem) =>
           s.decision.value.decision == RetrieveInformation
               && s.escalationReason.value == BecauseOf(KnowledgeUnavailable)
         case Some(FromGuardrail) =>
           s.disposition == Some(EscalateResponse) && s.guardrailReason.Some?
           && s.escalationReason.value == BecauseOfGuardrail(s.guardrailReason.value)
         case None => false
  }

  predicate Closed(setup: Setup, s: AIState) {
    && s.stage in {GuardrailsCompleted, ResponseGenerated, Escalated, Failed}
    && (setup.policies.Some? ==> s.stage != ResponseGenerated)
    && (s.stage == Failed ==> |s.errors| == 1 && WellReported(s.errors[0]))
    && Explained(s)
  }

  /** A candidate rejected by the guardrails is replaced: only the refusal or the notice can be seen. */
  predicate RejectionHidden(setup: Setup, s: AIState) {
    && (s.disposition == Some(Refuse) ==> Visible(s) == Some(setup.texts(RefusalText)))
    && (s.disposition == Some(EscalateResponse) ==> Visible(s) == Some(setup.texts(GuardrailNotice)))
  }

  ghost predicate Fine(setup: Setup, w: World, r: Run) {
    && (forall s :: s in r.states ==> Inv(s))
    && (r.outcome.Raised? ==> r.outcome.exn != BrokenInvariant)
    && (r.outcome.Done? ==>
      var s := r.outcome.state;
      Inv(s) && Closed(setup, s) && Vouched(setup, w, s) && RejectionHidden(setup, s))
  }

  lemma FineThen(setup: Setup, w: World, first: Run, next: Run)
    requires (forall s :: s in first.states ==> Inv(s)) && Fine(setup, w, next)
    ensures Fine(setup, w, first.Then(next))
  {
  }

  /** A state in the middle of a run. */
  predicate Underway(s: AIState) {
    && Inv(s) && s.errors == [] && s.disposition.None? && s.stage !in {Escalated, Completed, Failed}
    && s.message != "" && Strip(s.message) == s.message
  }

  lemma FailIsFine(setup: Setup, w: World, s: AIState, stage: Stage, code: FailureCode, retryable: bool)
    requires Underway(s) && WellReported(PipelineError(code, stage, retryable))
    ensures Fine(setup, w, Fail(s, stage, code, retryable, w.now))
  {
  }

  /** The response now on record is one of the application's texts, or a grounded answer. */
  ghost predicate Candidate(setup: Setup, w: World, s: AIState) {
    && Underway(s) && s.stage == ResponseGenerated
    && (if s.decision.value.decision == RetrieveInformation then
         GroundedReply(w, s) && s.response.value == w.reply.g.answer
        else Owned(setup, s.response.value))
  }

  lemma OwnedTextIsStable(setup: Setup, t: Template)
    requires setup.Valid()
    ensures var text := setup.texts(t);
            0 < |text| <= MAX_NOTICE && Strip(text) == text && Collapse(text) == text && Owned(setup, text)
  {
  }

  lemma RefusalIsFine(setup: Setup, w: World, s: AIState, v: Guardrails.Verdict)
    requires setup.Valid() && Candidate(setup, w, s)
    ensures Fine(setup, w, SafeRefusal(setup, s, v))
  {
    OwnedTextIsStable(setup, RefusalText);
    var refusal := WithResponse(s, setup.texts(RefusalText)).value;
    var completed := WithGuardrails(refusal, Refuse, v.reason, v.policy).value;
    assert Inv(refusal) && Inv(completed);
    assert SafeRefusal(setup, s, v).states == [refusal, completed];
  }

  lemma RejectionIsFine(setup: Setup, w: World, s: AIState, v: Guardrails.Verdict)
    requires setup.Valid() && Candidate(setup, w, s)
    ensures Fine(setup, w, GuardrailEscalation(setup, s, v, w.now))
  {
    OwnedTextIsStable(setup, GuardrailNotice);
    var (rejected, r) := (Rejected(s, v.reason, v.policy), GuardrailEscalation(setup, s, v, w.now));
    assert Inv(rejected);
    assert r.outcome.Done? && r.states == [rejected, r.outcome.state];
  }

  lemma GuardrailStageIsFine(setup: Setup, w: World, s: AIState)
    requires setup.Valid() && Candidate(setup, w, s)
    ensures Fine(setup, w, GuardrailStage(setup, s, w.now))
  {
    if setup.policies.Some? {
      var judged := Guardrails.Judge(setup.policies.value, ContextOf(s));
      JudgeErrors(setup.policies.value, ContextOf(s));
      if judged.Ok? {
        match judged.value.outcome
        case Pass => ApprovalIsFine(setup, w, s, judged.value);
        case Refuse => RefusalIsFine(setup, w, s, judged.value);
        case EscalateResponse => RejectionIsFine(setup, w, s, judged.value);
      }
    }
  }

  lemma {:induction false} JudgeErrors(policies: seq<Guardrails.Policy>, c: Guardrails.Context)
    ensures Guardrails.Judge(policies, c).Err? ==> Guardrails.Judge(policies, c).error in {PolicyDefect, InvalidValue}
  {
    if policies != [] {
      JudgeErrors(policies[1..], c);
    }
  }

  lemma ApprovalIsFine(setup: Setup, w: World, s: AIState, v: Guardrails.Verdict)
    requires setup.Valid() && Candidate(setup, w, s) && setup.policies.Some?
    requires Guardrails.Judge(setup.policies.value, ContextOf(s)) == Ok(v) && v.outcome == Pass
    ensures Fine(setup, w, Approval(s, v))
  {
    Guardrails.FirstViolationWins(setup.policies.value, ContextOf(s));
    assert Guardrails.Passes(setup.policies.value, ContextOf(s));
    var r := Approval(s, v);
    assert r.outcome.Done? && Inv(r.outcome.state);
    if s.decision.value.decision == RetrieveInformation {
      assert Unopposed(setup, w, r.outcome.state);
    } else {
      var t :| setup.texts(t) == s.response.value;
      OwnedTextIsStable(setup, t);
    }
  }

  lemma OwnedResponseIsFine(setup: Setup, w: World, s: AIState, t: Template)
    requires setup.Valid() && Underway(s) && s.decision.Some? && s.decision.value.decision != RetrieveInformation
    ensures Fine(setup, w, OwnedResponse(setup, s, t, w.now))
  {
    OwnedTextIsStable(setup, t);
    var generated := Generated(s, setup.texts(t));
    assert generated.outcome.Done? && Underway(generated.outcome.state);
    GuardrailStageIsFine(setup, w, generated.outcome.state);
    FineThen(setup, w, generated, GuardrailStage(setup, generated.outcome.state, w.now));
  }

  /** The state right after routing: its decision is the engine's. */
  predicate Routed(setup: Setup, s: AIState) {
    && Underway(s) && s.intent.Some? && s.intent.value.Valid()
    && s.decision.Some? && Decide(setup.threshold, s.intent.value) == Ok(s.decision.value)
  }

  lemma EscalationIsFine(setup: Setup, w: World, s: AIState, source: EscalationSource, reason: EscalationReason,
      t: Template)
    requires setup.Valid() && Underway(s) && s.decision.Some? && source != FromGuardrail
    requires source == FromDecision ==>
              s.decision.value.decision == Escalate && reason == BecauseOf(s.decision.value.reason)
    requires source == FromSystem ==>
              s.decision.value.decision == RetrieveInformation && reason == BecauseOf(KnowledgeUnavailable)
    ensures Fine(setup, w, Stepped(WithEscalation(s, source, reason, setup.texts(t), w.now), Escalated))
  {
    OwnedTextIsStable(setup, t);
  }

  lemma ByGroundingIsFine(setup: Setup, w: World, s: AIState)
    requires setup.Valid() && Underway(s) && s.stage == ResponseGenerated && s.decision.Some? && w.reply.Replied?
    requires s.decision.value.decision == RetrieveInformation && s.response == Some(w.reply.g.answer)
    requires w.reply.g.status == Grounding.Grounded ==> GroundedReply(w, s)
    ensures Fine(setup, w, ByGrounding(setup, s, w.reply.g.status, w.now))
  {
    match w.reply.g.status
    case InsufficientEvidence =>
      EscalationIsFine(setup, w, s, FromSystem, BecauseOf(KnowledgeUnavailable), KnowledgeGapNotice);
    case NotRequired => FailIsFine(setup, w, s, ResponseGenerated, GroundingStatusInvalid, false);
    case Grounded => GuardrailStageIsFine(setup, w, s);
  }

  /** Retrieval succeeded and the generator accepted the reply. */
  predicate Accepts(w: World) {
    w.retrieval.Some? && w.reply.Replied? && Grounding.Grounds(w.retrieval.value, w.reply).Ok?
  }

  /** Taking over evidence and answer keeps the run going. */
  lemma AnswerIsTaken(setup: Setup, w: World, s: AIState)
    requires w.Valid() && Routed(setup, s) && s.decision.value.decision == RetrieveInformation
    requires Accepts(w)
    ensures WithEvidence(s, w.retrieval.value).Ok?
    ensures var retrieved := WithEvidence(s, w.retrieval.value).value;
            Underway(retrieved) && retrieved.decision == s.decision && WithResponse(retrieved, w.reply.g.answer).Ok?
    ensures var generated := WithResponse(WithEvidence(s, w.retrieval.value).value, w.reply.g.answer).value;
            && Underway(generated) && generated.stage == ResponseGenerated && generated.decision == s.decision
            && generated.response == Some(w.reply.g.answer)
            && (w.reply.g.status == Grounding.Grounded ==> GroundedReply(w, generated))
  {
    Grounding.AcceptedReplies(w.retrieval.value, w.reply);
  }

  lemma AnswerRunIsFine(setup: Setup, w: World, s: AIState)
    requires setup.Valid() && w.Valid() && Routed(setup, s) && s.decision.value.decision == RetrieveInformation
    requires Accepts(w)
    ensures Fine(setup, w, AnswerRun(setup, s, Answered(w.retrieval.value, w.reply.g), w.now))
  {
    AnswerIsTaken(setup, w, s);
    var retrieved := WithEvidence(s, w.retrieval.value).value;
    var generated := WithResponse(retrieved, w.reply.g.answer).value;
    ByGroundingIsFine(setup, w, generated);
    var before := Reached(retrieved, [Finished(RetrievalCompleted)]).Then(Generated(retrieved, w.reply.g.answer));
    assert before.states == [retrieved, generated];
    FineThen(setup, w, before, ByGrounding(setup, generated, w.reply.g.status, w.now));
  }

  lemma AnswerFailureIsFine(setup: Setup, w: World, s: AIState, e: AnswerError)
    requires Underway(s)
    requires e.Generation? || (e.Escapes? && e.exn != BrokenInvariant)
    ensures Fine(setup, w, AnswerFailure(s, e, w.now))
  {
    match e
    case Generation(Timeout) => FailIsFine(setup, w, s, ResponseGenerated, GenerationProviderTimeout, true);
    case Generation(ProviderFailure) => FailIsFine(setup, w, s, ResponseGenerated, GenerationProviderFailure, true);
    case Generation(InvalidResponse) => FailIsFine(setup, w, s, ResponseGenerated, GenerationInvalidResponse, true);
    case Generation(OtherFailure) => FailIsFine(setup, w, s, ResponseGenerated, GenerationFailure, false);
    case Escapes(_) =>
  }

  lemma AcceptedIsTheReply(evidence: seq<Evidence>, reply: Grounding.Reply)
    requires Grounding.Grounds(evidence, reply).Ok?
    ensures reply.Replied? && Grounding.Grounds(evidence, reply) == Ok(reply.g)
  {
  }

  lemma AnsweredIsFine(setup: Setup, w: World, s: AIState)
    requires setup.Valid() && w.Valid() && Routed(setup, s) && s.decision.value.decision == RetrieveInformation
    ensures match AnswerFromKnowledge(s.context, w.retrieval, w.reply)
            case Err(e) => Fine(setup, w, AnswerFailure(s, e, w.now))
            case Ok(a) => Fine(setup, w, AnswerRun(setup, s, a, w.now))
  {
    match AnswerFromKnowledge(s.context, w.retrieval, w.reply)
    case Err(e) => AnswerFailureIsFine(setup, w, s, e);
    case Ok(a) =>
      AcceptedIsTheReply(w.retrieval.value, w.reply);
      AnswerRunIsFine(setup, w, s);
  }

  lemma RetrievalIsFine(setup: Setup, w: World, s: AIState)
    requires setup.Valid() && w.Valid() && Routed(setup, s) && s.decision.value.decision == RetrieveInformation
    ensures Fine(setup, w, Retrieval(setup, w, s))
  {
    if !setup.answers {
      FailIsFine(setup, w, s, RetrievalCompleted, AnswerServiceUnavailable, false);
    } else {
      var started := Run(Done(s), [], [Started(RetrievalCompleted)]);
      RoutingErrorsAreUnreachable(setup.threshold, s.intent.value, s.message, s.context, w.retrieval, w.reply);
      AnsweredIsFine(setup, w, s);
      match AnswerFromKnowledge(s.context, w.retrieval, w.reply)
      case Err(e) => FineThen(setup, w, started, AnswerFailure(s, e, w.now));
      case Ok(a) => FineThen(setup, w, started, AnswerRun(setup, s, a, w.now));
    }
  }

  lemma ExecutionIsFine(setup: Setup, w: World, s: AIState)
    requires setup.Valid() && w.Valid() && Routed(setup, s)
    ensures Fine(setup, w, Execution(setup, w, s))
  {
    DecisionMeaning(setup.threshold, s.intent.value);
    match s.decision.value.decision
    case AnswerDirectly =>
      match DirectResponses.Resolve(setup.patterns, s.message, s.intent.value, s.decision.value) {
        case None => FailIsFine(setup, w, s, ResponseGenerated, DirectResponseUnavailable, false);
        case Some(kind) => OwnedResponseIsFine(setup, w, s, DirectText(kind));
      }
    case RetrieveInformation => RetrievalIsFine(setup, w, s);
    case AskClarification =>
      OwnedResponseIsFine(setup, w, s, ClarificationTemplate(Some(s.intent.value.intent), s.decision.value.required));
    case Escalate =>
      var reason := s.decision.value.reason;
      EscalationIsFine(setup, w, s, FromDecision, BecauseOf(reason), NoticeTemplate(reason));
    case PerformAction => assert false;
  }

  lemma DecidedIsFine(setup: Setup, w: World, s: AIState)
    requires setup.Valid() && w.Valid() && Underway(s) && s.intent.Some? && s.intent.value.Valid()
    ensures Fine(setup, w, Decided(setup, w, s))
  {
    DecideNeverRaises(setup.threshold, s.intent.value);
    var decided := DecisionStage(setup, s, w.now);
    assert decided.Going() && Routed(setup, decided.outcome.state);
    ExecutionIsFine(setup, w, decided.outcome.state);
    FineThen(setup, w, decided, Execution(setup, w, decided.outcome.state));
  }

  lemma IntentStageIsFine(setup: Setup, w: World, s: AIState)
    requires w.Valid() && Underway(s)
    ensures var r := IntentStage(w, s);
            if r.Going()
            then r.states == [r.outcome.state] && Underway(r.outcome.state) && r.outcome.state.intent.Some?
                 && r.outcome.state.intent.value.Valid()
            else Fine(setup, w, r)
  {
    if w.route.None? {
      var started := Run(Done(s), [], [Started(IntentClassified)]);
      match w.classifier
      case InvalidInput => FailIsFine(setup, w, s, IntentClassified, IntentInvalidInput, false);
      case ClassifierTimeout => FailIsFine(setup, w, s, IntentClassified, IntentProviderTimeout, true);
      case InvalidReply => FailIsFine(setup, w, s, IntentClassified, IntentInvalidResponse, true);
      case ClassifierDown => FailIsFine(setup, w, s, IntentClassified, IntentProviderFailure, true);
      case ClassifierError => FailIsFine(setup, w, s, IntentClassified, IntentClassificationFailure, false);
      case _ =>
    }
  }

  lemma PipelineIsFine(setup: Setup, w: World, s: AIState)
    requires setup.Valid() && w.Valid() && Underway(s)
    ensures Fine(setup, w, Pipeline(setup, w, s))
  {
    var classified := IntentStage(w, s);
    IntentStageIsFine(setup, w, s);
    if classified.Going() {
      DecidedIsFine(setup, w, classified.outcome.state);
      FineThen(setup, w, classified, Decided(setup, w, classified.outcome.state));
    }
  }

  lemma ReceivedIsUnderway(message: string, context: Option<string>)
    requires Receive(message, context).Ok?
    ensures Underway(Receive(message, context).value)
  {
    StripTwice(message);
  }

  // ----- The main results -----

  lemma EveryRunIsFine(setup: Setup, w: World, message: string, context: Option<string>)
    requires setup.Valid() && w.Valid()
    ensures Fine(setup, w, ProcessRun(setup, w, message, context))
  {
    if Receive(message, context).Ok? {
      var s := Receive(message, context).value;
      ReceivedIsUnderway(message, context);
      PipelineIsFine(setup, w, s);
      FineThen(setup, w, Run(Done(s), [s], []), Pipeline(setup, w, s));
    }
  }

  /**
    Copies are never re-validated, yet every state of every run would pass the stage check, and none of
    the pipeline's own invariant checks ever fires.
   */
  lemma EveryStateIsValid(setup: Setup, w: World, message: string, context: Option<string>)
    requires setup.Valid() && w.Valid()
    ensures var r := ProcessRun(setup, w, message, context);
            && (forall s :: s in r.states ==> ValidStage(s))
            && r.outcome != Raised(BrokenInvariant)
  {
    EveryRunIsFine(setup, w, message, context);
  }

  /**
    With guardrails a run that returns is approved, refused, escalated or failed. A failure is a single
    error, never one of the four impossible ones, flagged retryable and filed as its code demands; an
    escalation records who called for it and why.
   */
  lemma RunsEndClosed(setup: Setup, w: World, message: string, context: Option<string>)
    requires setup.Valid() && w.Valid()
    ensures ProcessRun(setup, w, message, context).outcome.Done? ==>
              var s := ProcessRun(setup, w, message, context).outcome.state;
              && (setup.policies.Some? ==> s.stage in {GuardrailsCompleted, Escalated, Failed})
              && (s.stage == Failed ==> |s.errors| == 1 && WellReported(s.errors[0]))
              && Explained(s)
  {
    EveryRunIsFine(setup, w, message, context);
  }

  /**
    Text shown to the customer is a constant of the application, or this run's generated answer: then
    every policy was silent on it, it claims to be grounded, and each of its citations, none repeated
    and at least one, identifies one item of this run's evidence.
   */
  lemma VisibleTextIsVouchedFor(setup: Setup, w: World, message: string, context: Option<string>)
    requires setup.Valid() && w.Valid()
    ensures var o := ProcessRun(setup, w, message, context).outcome;
            o.Done? && Visible(o.state).Some? ==>
              var s, text := o.state, Visible(o.state).value;
              if !ShowsAnswer(s) then exists t :: setup.texts(t) == text
              else
                && w.reply.Replied? && w.retrieval.Some? && s.evidence == w.retrieval.value
                && text == Collapse(w.reply.g.answer)
                && w.reply.g.status == Grounding.Grounded && Grounding.WellGrounded(s.evidence, w.reply.g)
                && setup.policies.Some? && Unopposed(setup, w, s)
  {
    EveryRunIsFine(setup, w, message, context);
  }

  /** After a rejection the customer sees the refusal or the guardrail notice, never the candidate. */
  lemma RejectionsShowConstants(setup: Setup, w: World, message: string, context: Option<string>)
    requires setup.Valid() && w.Valid()
    ensures ProcessRun(setup, w, message, context).outcome.Done? ==>
              var s := ProcessRun(setup, w, message, context).outcome.state;
              && (s.disposition == Some(Refuse) ==> Visible(s) == Some(setup.texts(RefusalText)))
              && (s.disposition == Some(EscalateResponse) ==> Visible(s) == Some(setup.texts(GuardrailNotice)))
  {
    EveryRunIsFine(setup, w, message, context);
  }

  /** What is persisted for the customer is never blank, so persistence never refuses it. */
  lemma VisibleTextIsNeverBlank(setup: Setup, w: World, message: string, context: Option<string>)
    requires setup.Valid() && w.Valid()
    ensures var o := ProcessRun(setup, w, message, context).outcome;
            o.Done? && Visible(o.state).Some? ==> Visible(o.state).value != ""
  {
    VisibleTextIsVouchedFor(setup, w, message, context);
    if w.reply.Replied? {
      BlankEitherWay(w.reply.g.answer);
    }
  }
}
