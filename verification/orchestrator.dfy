/**
  One run of the support pipeline: as a function giving the outcome, every state on the way and every
  lifecycle event, and as the orchestrator's own methods, proved to do exactly that.
 */
module Orchestrator {
  import opened Outcomes
  import opened Texts
  import opened SupportState
  import opened DecisionEngine
  import opened AnswerService
  import Grounding
  import DirectResponses
  import Guardrails

  // ----- Configuration and surroundings -----

  /** Every text the application owns. */
  datatype Template =
    | DirectText(kind: DirectResponses.Kind)
    | UnknownIntentPrompt | DefaultPrompt | OrderIdPrompt | OrderOrTransactionPrompt | SubscriptionPrompt
    | IntentPrompt(intent: Intent)
    | RefusalText
    | DefaultNotice | KnowledgeGapNotice | GuardrailNotice | ReasonNotice(reason: DecisionReason)

  datatype Setup = Setup(
    threshold: real, answers: bool, policies: Option<seq<Guardrails.Policy>>, texts: Template -> string,
    patterns: DirectResponses.Patterns)
  {
    /** The templates are constants written in normal form. */
    ghost predicate WellWritten() {
      forall t :: 0 < |texts(t)| <= MAX_NOTICE && Strip(texts(t)) == texts(t) && Collapse(texts(t)) == texts(t)
    }

    ghost predicate Valid() {
      && 0.0 <= threshold <= 1.0
      && (policies.Some? ==> Guardrails.Configured(policies.value))
      && WellWritten()
    }
  }

  datatype ClassifierReply =
    | Classified(r: IntentResult) | InvalidInput | ClassifierTimeout | InvalidReply | ClassifierDown | ClassifierError
    | ClassifierCrash

  /** What the components outside the pipeline do during one run. */
  datatype World = World(
    route: Option<IntentResult>, classifier: ClassifierReply, retrieval: Option<seq<Evidence>>,
    reply: Grounding.Reply, now: Time)
  {
    predicate Valid() {
      && (route.Some? ==> route.value.Valid())
      && (classifier.Classified? ==> classifier.r.Valid())
      && (reply.Replied? ==> reply.g.Valid())
    }
  }

  datatype Event = Started(stage: Stage) | Finished(stage: Stage) | Broke(stage: Stage)

  datatype Outcome = Done(state: AIState) | Raised(exn: Exn)

  datatype Run = Run(outcome: Outcome, states: seq<AIState>, events: seq<Event>)
  {
    predicate Going() {
      outcome.Done? && outcome.state.stage != Failed
    }

    /** What has happened so far, continued by next. */
    function Then(next: Run): Run {
      Run(next.outcome, states + next.states, events + next.events)
    }
  }

  function Reached(s: AIState, events: seq<Event>): Run {
    Run(Done(s), [s], events)
  }

  function Raise(e: Exn, events: seq<Event>): Run {
    Run(Raised(e), [], events)
  }

  /** The step's result, or its exception after the event that announced it. */
  function Stepped(step: Result<AIState, Exn>, stage: Stage): Run {
    match step
    case Err(e) => Raise(e, [Started(stage)])
    case Ok(s) => Reached(s, [Started(stage), Finished(stage)])
  }

  function Fail(s: AIState, stage: Stage, code: FailureCode, retryable: bool, now: Time): Run {
    Reached(WithError(s, PipelineError(code, stage, retryable), now), [Broke(stage)])
  }

  // ----- The stages -----

  function IntentStage(w: World, s: AIState): Run {
    if w.route.Some? then Stepped(Ok(WithIntent(s, w.route.value)), IntentClassified)
    else
      var started := Run(Done(s), [], [Started(IntentClassified)]);
      match w.classifier
      case Classified(r) => Stepped(Ok(WithIntent(s, r)), IntentClassified)
      case InvalidInput => started.Then(Fail(s, IntentClassified, IntentInvalidInput, false, w.now))
      case ClassifierTimeout => started.Then(Fail(s, IntentClassified, IntentProviderTimeout, true, w.now))
      case InvalidReply => started.Then(Fail(s, IntentClassified, IntentInvalidResponse, true, w.now))
      case ClassifierDown => started.Then(Fail(s, IntentClassified, IntentProviderFailure, true, w.now))
      case ClassifierError => started.Then(Fail(s, IntentClassified, IntentClassificationFailure, false, w.now))
      case ClassifierCrash => Raise(ClassifierDefect, [Started(IntentClassified)])
  }

  function DecisionStage(setup: Setup, s: AIState, now: Time): Run {
    if s.intent.None? then Raise(BrokenInvariant, [])
    else
      var started := Run(Done(s), [], [Started(DecisionMade)]);
      match Decide(setup.threshold, s.intent.value)
      case Err(_) => started.Then(Fail(s, DecisionMade, DecisionEngineFailure, false, now))
      case Ok(d) =>
        match WithDecision(s, d)
        case Err(_) => started.Then(Fail(s, DecisionMade, DecisionEngineFailure, false, now))
        case Ok(next) => Reached(next, [Started(DecisionMade), Finished(DecisionMade)])
  }

  function Generated(s: AIState, answer: string): Run {
    Stepped(WithResponse(s, answer), ResponseGenerated)
  }

  function ContextOf(s: AIState): Guardrails.Context
    requires s.decision.Some?
  {
    Guardrails.Context(s.message, s.decision.value, s.response, s.evidence)
  }

  function Approval(s: AIState, v: Guardrails.Verdict): Run {
    Stepped(WithGuardrails(s, Pass, v.reason, v.policy), GuardrailsCompleted)
  }

  /** The same run, announced by the report that its stage was started. */
  function Announced(stage: Stage, r: Run): Run {
    Run(r.outcome, r.states, [Started(stage)] + r.events)
  }

  /** The rejection of a candidate and its escalation, once the guardrail stage has been announced. */
  function Rejecting(setup: Setup, s: AIState, v: Guardrails.Verdict, now: Time): Run {
    match WithGuardrailEscalation(s, v.reason, setup.texts(GuardrailNotice), v.policy, now)
    case Err(e) => Raise(e, [])
    case Ok(next) =>
      Run(Done(next), [Rejected(s, v.reason, v.policy), next],
          [Finished(GuardrailsCompleted), Started(Escalated), Finished(Escalated)])
  }

  /** The replacement of a candidate by the refusal, once the guardrail stage has been announced. */
  function Refusing(setup: Setup, s: AIState, v: Guardrails.Verdict): Run {
    match WithResponse(s, setup.texts(RefusalText))
    case Err(e) => Raise(e, [])
    case Ok(refusal) =>
      match WithGuardrails(refusal, Refuse, v.reason, v.policy)
      case Err(e) => Run(Raised(e), [refusal], [])
      case Ok(next) => Run(Done(next), [refusal, next], [Finished(GuardrailsCompleted)])
  }

  function GuardrailEscalation(setup: Setup, s: AIState, v: Guardrails.Verdict, now: Time): Run {
    Announced(GuardrailsCompleted, Rejecting(setup, s, v, now))
  }

  function SafeRefusal(setup: Setup, s: AIState, v: Guardrails.Verdict): Run {
    Announced(GuardrailsCompleted, Refusing(setup, s, v))
  }

  function GuardrailStage(setup: Setup, s: AIState, now: Time): Run {
    if s.stage != ResponseGenerated || s.decision.None? || s.response.None? then Raise(BrokenInvariant, [])
    else if setup.policies.None? then Run(Done(s), [], [])
    else
      match Guardrails.Judge(setup.policies.value, ContextOf(s))
      case Err(e) => Raise(e, [Started(GuardrailsCompleted)])
      case Ok(v) =>
        match v.outcome
        case Pass => Approval(s, v)
        case EscalateResponse => GuardrailEscalation(setup, s, v, now)
        case Refuse => SafeRefusal(setup, s, v)
  }

  /** An application-owned text, recorded as the response and sent through the guardrails. */
  function OwnedResponse(setup: Setup, s: AIState, t: Template, now: Time): Run {
    var generated := Generated(s, setup.texts(t));
    if generated.Going() then generated.Then(GuardrailStage(setup, generated.outcome.state, now)) else generated
  }

  function DirectAnswer(setup: Setup, s: AIState, now: Time): Run {
    if s.intent.None? || s.decision.None? || s.decision.value.decision != AnswerDirectly then Raise(BrokenInvariant, [])
    else
      match DirectResponses.Resolve(setup.patterns, s.message, s.intent.value, s.decision.value)
      case None => Fail(s, ResponseGenerated, DirectResponseUnavailable, false, now)
      case Some(kind) => OwnedResponse(setup, s, DirectText(kind), now)
  }

  /** Explicit requirement keys take precedence over the intent, except that an unknown intent outranks both. */
  function ClarificationTemplate(intent: Option<Intent>, required: seq<string>): Template {
    if intent == Some(Unknown) then UnknownIntentPrompt
    else if |required| == 1 && required[0] == "customer_intent" then UnknownIntentPrompt
    else if |required| == 1 && required[0] == "order_id" then OrderIdPrompt
    else if |required| == 1 && required[0] == "order_id_or_transaction_id" then OrderOrTransactionPrompt
    else if |required| == 1 && required[0] == "subscription_id" then SubscriptionPrompt
    else if intent.Some? && intent.value !in {PrivacySecurity, Conversational, OutOfScope} then
        IntentPrompt(intent.value)
    else DefaultPrompt
  }

  function Clarification(setup: Setup, s: AIState, now: Time): Run {
    if s.decision.None? || s.decision.value.decision != AskClarification then Raise(BrokenInvariant, [])
    else
      var intent := if s.intent.Some? then Some(s.intent.value.intent) else None;
      OwnedResponse(setup, s, ClarificationTemplate(intent, s.decision.value.required), now)
  }

  function NoticeTemplate(reason: DecisionReason): Template {
    if reason in {CustomerRequestedHuman, SevereCustomerDissatisfaction, SecuritySensitiveRequest,
        OperationalLookupUnavailable,
                  HumanApprovalRequired, PolicyConflict} then ReasonNotice(reason)
    else if reason == KnowledgeUnavailable then KnowledgeGapNotice
    else DefaultNotice
  }

  function DecisionEscalation(setup: Setup, s: AIState, now: Time): Run {
    if s.decision.None? then Raise(BrokenInvariant, [])
    else
      var reason := s.decision.value.reason;
      Stepped(WithEscalation(s, FromDecision, BecauseOf(reason), setup.texts(NoticeTemplate(reason)), now), Escalated)
  }

  function KnowledgeGapEscalation(setup: Setup, s: AIState, now: Time): Run {
    if s.stage != ResponseGenerated || s.intent.None? || s.decision.None?
        || s.decision.value.decision != RetrieveInformation
    then Raise(BrokenInvariant, [])
    else Stepped(WithEscalation(s, FromSystem, BecauseOf(KnowledgeUnavailable), setup.texts(KnowledgeGapNotice), now),
        Escalated)
  }

  /** What becomes of an answer the generator accepted. */
  function ByGrounding(setup: Setup, s: AIState, status: Grounding.Status, now: Time): Run {
    match status
    case InsufficientEvidence => KnowledgeGapEscalation(setup, s, now)
    case NotRequired => Fail(s, ResponseGenerated, GroundingStatusInvalid, false, now)
    case Grounded => GuardrailStage(setup, s, now)
  }

  function AnswerRun(setup: Setup, s: AIState, a: Answered, now: Time): Run {
    match WithEvidence(s, a.evidence)
    case Err(e) => Raise(e, [])
    case Ok(retrieved) =>
      var generated := Reached(retrieved,
          [Finished(RetrievalCompleted)]).Then(Generated(retrieved, a.generation.answer));
      if generated.Going() then generated.Then(ByGrounding(setup, generated.outcome.state, a.generation.status, now))
        else generated
  }

  /** A generation failure is reported under the generation stage although only retrieval was announced. */
  function AnswerFailure(s: AIState, e: AnswerError, now: Time): Run {
    match e
    case UnsupportedKind => Fail(s, RetrievalCompleted, RetrievalKindUnsupported, false, now)
    case InvalidRetrievalDecision => Fail(s, RetrievalCompleted, RetrievalDecisionInvalid, false, now)
    case UnsupportedDecision => Fail(s, RetrievalCompleted, RetrievalDecisionInvalid, false, now)
    case Generation(Timeout) => Fail(s, ResponseGenerated, GenerationProviderTimeout, true, now)
    case Generation(ProviderFailure) => Fail(s, ResponseGenerated, GenerationProviderFailure, true, now)
    case Generation(InvalidResponse) => Fail(s, ResponseGenerated, GenerationInvalidResponse, true, now)
    case Generation(OtherFailure) => Fail(s, ResponseGenerated, GenerationFailure, false, now)
    case Escapes(exn) => Raise(exn, [])
  }

  function Retrieval(setup: Setup, w: World, s: AIState): Run {
    if s.intent.None? || s.decision.None? then Raise(BrokenInvariant, [])
    else if !setup.answers then Fail(s, RetrievalCompleted, AnswerServiceUnavailable, false, w.now)
    else
      var started := Run(Done(s), [], [Started(RetrievalCompleted)]);
      match Answer(s.message, s.context, s.decision.value, w.retrieval, w.reply)
      case Err(e) => started.Then(AnswerFailure(s, e, w.now))
      case Ok(a) => started.Then(AnswerRun(setup, s, a, w.now))
  }

  function Execution(setup: Setup, w: World, s: AIState): Run {
    if s.decision.None? then Raise(BrokenInvariant, [])
    else
      match s.decision.value.decision
      case AnswerDirectly => DirectAnswer(setup, s, w.now)
      case RetrieveInformation => Retrieval(setup, w, s)
      case AskClarification => Clarification(setup, s, w.now)
      case Escalate => DecisionEscalation(setup, s, w.now)
      case PerformAction => Fail(s, DecisionMade, DecisionWorkflowUnsupported, false, w.now)
  }

  function Decided(setup: Setup, w: World, s: AIState): Run {
    var decided := DecisionStage(setup, s, w.now);
    if decided.Going() then decided.Then(Execution(setup, w, decided.outcome.state)) else decided
  }

  function Pipeline(setup: Setup, w: World, s: AIState): Run {
    var classified := IntentStage(w, s);
    if classified.Going() then classified.Then(Decided(setup, w, classified.outcome.state)) else classified
  }

  function ProcessRun(setup: Setup, w: World, message: string, context: Option<string>): Run {
    match Receive(message, context)
    case Err(e) => Raise(e, [])
    case Ok(s) => Run(Done(s), [s], []).Then(Pipeline(setup, w, s))
  }
}
