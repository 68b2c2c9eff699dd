/** How each run ends, read off its inputs in one table, with the staged pipeline refining that table. */
module OrchestratorEndings {
  import opened Outcomes
  import opened Texts
  import opened SupportState
  import opened DecisionEngine
  import opened AnswerService
  import opened Orchestrator
  import opened OrchestratorSafety
  import Grounding
  import DirectResponses
  import Guardrails

  /** What the caller is left with: an exception, a failure code, a text to show, or an unguarded response. */
  datatype Ending = Throws(exn: Exn) | Fails(code: FailureCode) | Shows(text: string) | Unguarded(text: string)
      | Nothing

  function EndingOf(o: Outcome): Ending {
    match o
    case Raised(e) => Throws(e)
    case Done(s) =>
      if s.stage == Failed && s.errors != [] then Fails(s.errors[|s.errors| - 1].code)
      else if Visible(s).Some? then Shows(Visible(s).value)
      else if s.stage == ResponseGenerated && s.response.Some? then Unguarded(s.response.value)
      else Nothing
  }

  // ----- The table -----

  function Guarded(setup: Setup, message: string, d: DecisionResult, text: string, evidence: seq<Evidence>): Ending {
    if setup.policies.None? then Unguarded(text)
    else
      match Guardrails.Judge(setup.policies.value, Guardrails.Context(message, d, Some(text), evidence))
      case Err(e) => Throws(e)
      case Ok(v) =>
        match v.outcome
        case Pass => Shows(Collapse(text))
        case Refuse => Shows(setup.texts(RefusalText))
        case EscalateResponse => Shows(setup.texts(GuardrailNotice))
  }

  function GenerationCode(e: Grounding.GenerationError): FailureCode {
    match e
    case Timeout => GenerationProviderTimeout
    case ProviderFailure => GenerationProviderFailure
    case InvalidResponse => GenerationInvalidResponse
    case OtherFailure => GenerationFailure
  }

  function AcceptedEnding(setup: Setup, message: string, d: DecisionResult, a: Answered): Ending {
    match a.generation.status
    case InsufficientEvidence => Shows(setup.texts(KnowledgeGapNotice))
    case NotRequired => Fails(GroundingStatusInvalid)
    case Grounded => Guarded(setup, message, d, a.generation.answer, a.evidence)
  }

  function KnowledgeEnding(setup: Setup, w: World, message: string, context: Option<string>,
      d: DecisionResult): Ending
  {
    if !setup.answers then Fails(AnswerServiceUnavailable)
    else if w.retrieval.None? then Throws(RetrievalDefect)
    else if context.Some? && |Strip(context.value)| > MAX_GENERATION_CONTEXT then Throws(ContextTooLong)
    else
      match Grounding.Grounds(w.retrieval.value, w.reply)
      case Err(e) => Fails(GenerationCode(e))
      case Ok(g) => AcceptedEnding(setup, message, d, Answered(w.retrieval.value, g))
  }

  function DecidedEnding(setup: Setup, w: World, message: string, context: Option<string>, r: IntentResult,
      d: DecisionResult): Ending
  {
    match d.decision
    case AnswerDirectly =>
      if r.intent == OutOfScope then
          Guarded(setup, message, d, setup.texts(DirectText(DirectResponses.OutOfScopeReply)), [])
      else if setup.patterns.fold(message) == "" then Fails(DirectResponseUnavailable)
      else Guarded(setup, message, d,
          setup.texts(DirectText(DirectResponses.ConversationalKind(setup.patterns, setup.patterns.fold(message)))), [])
    case RetrieveInformation => KnowledgeEnding(setup, w, message, context, d)
    case AskClarification =>
      Guarded(setup, message, d, setup.texts(ClarificationTemplate(Some(r.intent), d.required)), [])
    case Escalate => Shows(setup.texts(NoticeTemplate(d.reason)))
    case PerformAction => Fails(DecisionWorkflowUnsupported)
  }

  /** The intent of the run, from the router if it has one, or why there is none. */
  function Understood(w: World): Result<IntentResult, Ending> {
    if w.route.Some? then Ok(w.route.value)
    else
      match w.classifier
      case Classified(r) => Ok(r)
      case InvalidInput => Err(Fails(IntentInvalidInput))
      case ClassifierTimeout => Err(Fails(IntentProviderTimeout))
      case InvalidReply => Err(Fails(IntentInvalidResponse))
      case ClassifierDown => Err(Fails(IntentProviderFailure))
      case ClassifierError => Err(Fails(IntentClassificationFailure))
      case ClassifierCrash => Err(Throws(ClassifierDefect))
  }

  function Table(setup: Setup, w: World, message: string, context: Option<string>): Ending
    requires w.Valid()
  {
    if Receive(message, context).Err? then Throws(InvalidValue)
    else
      match Understood(w)
      case Err(e) => e
      case Ok(r) =>
        DecideNeverRaises(setup.threshold, r);
        DecidedEnding(setup, w, Strip(message), Normalized(context), r, Decide(setup.threshold, r).value)
  }

  // ----- The pipeline refines the table -----

  lemma RefusalEnding(setup: Setup, s: AIState, v: Guardrails.Verdict)
    requires setup.Valid() && Underway(s) && s.stage == ResponseGenerated
    ensures EndingOf(SafeRefusal(setup, s, v).outcome) == Shows(setup.texts(RefusalText))
  {
    OwnedTextIsStable(setup, RefusalText);
    assert WithGuardrails(WithResponse(s, setup.texts(RefusalText)).value, Refuse, v.reason, v.policy).Ok?;
  }

  lemma RejectionEnding(setup: Setup, s: AIState, v: Guardrails.Verdict, now: Time)
    requires setup.Valid() && Underway(s) && s.stage == ResponseGenerated
    ensures EndingOf(GuardrailEscalation(setup, s, v, now).outcome) == Shows(setup.texts(GuardrailNotice))
  {
    OwnedTextIsStable(setup, GuardrailNotice);
  }

  lemma GuardrailEnding(setup: Setup, s: AIState, now: Time)
    requires setup.Valid() && Underway(s) && s.stage == ResponseGenerated
    ensures EndingOf(GuardrailStage(setup, s, now).outcome)
              == Guarded(setup, s.message, s.decision.value, s.response.value, s.evidence)
  {
    if setup.policies.Some? {
      var judged := Guardrails.Judge(setup.policies.value, ContextOf(s));
      if judged.Ok? {
        match judged.value.outcome
        case Pass =>
        case Refuse => RefusalEnding(setup, s, judged.value);
        case EscalateResponse => RejectionEnding(setup, s, judged.value, now);
      }
    }
  }

  lemma OwnedEnding(setup: Setup, s: AIState, t: Template, now: Time)
    requires setup.Valid() && Underway(s) && s.decision.Some?
    ensures EndingOf(OwnedResponse(setup, s, t, now).outcome)
              == Guarded(setup, s.message, s.decision.value, setup.texts(t), s.evidence)
  {
    OwnedTextIsStable(setup, t);
    var next := WithResponse(s, setup.texts(t)).value;
    assert OwnedResponse(setup, s, t, now).outcome == GuardrailStage(setup, next, now).outcome;
    GuardrailEnding(setup, next, now);
  }

  lemma NoticeEnding(setup: Setup, s: AIState, source: EscalationSource, reason: EscalationReason, t: Template,
      now: Time)
    requires setup.Valid() && Underway(s) && s.decision.Some?
    ensures EndingOf(Stepped(WithEscalation(s, source, reason, setup.texts(t), now), Escalated).outcome)
              == Shows(setup.texts(t))
  {
    OwnedTextIsStable(setup, t);
  }

  lemma ByGroundingEnding(setup: Setup, s: AIState, status: Grounding.Status, now: Time)
    requires setup.Valid() && Underway(s) && s.stage == ResponseGenerated
              && s.decision.value.decision == RetrieveInformation
    ensures EndingOf(ByGrounding(setup, s, status, now).outcome)
            == AcceptedEnding(setup, s.message, s.decision.value,
                Answered(s.evidence, Grounding.Generation(s.response.value, status, [])))
  {
    match status
    case InsufficientEvidence =>
      NoticeEnding(setup, s, FromSystem, BecauseOf(KnowledgeUnavailable), KnowledgeGapNotice, now);
    case NotRequired =>
    case Grounded => GuardrailEnding(setup, s, now);
  }

  lemma AnswerRunEnding(setup: Setup, s: AIState, a: Answered, now: Time)
    requires setup.Valid() && Routed(setup, s) && s.decision.value.decision == RetrieveInformation
              && a.generation.Valid()
    ensures EndingOf(AnswerRun(setup, s, a, now).outcome) == AcceptedEnding(setup, s.message, s.decision.value, a)
  {
    var generated := WithResponse(WithEvidence(s, a.evidence).value, a.generation.answer).value;
    assert AnswerRun(setup, s, a, now).outcome == ByGrounding(setup, generated, a.generation.status, now).outcome;
    ByGroundingEnding(setup, generated, a.generation.status, now);
  }

  lemma AnswerFailureEnding(s: AIState, e: AnswerError, now: Time)
    requires e.Generation? || e.Escapes?
    ensures EndingOf(AnswerFailure(s, e, now).outcome) == if e.Generation? then Fails(GenerationCode(e.e))
      else Throws(e.exn)
  {
  }

  lemma RetrievalOutcome(setup: Setup, w: World, s: AIState)
    requires Routed(setup, s) && s.decision.value.decision == RetrieveInformation && setup.answers
    ensures Retrieval(setup, w, s).outcome ==
            match AnswerFromKnowledge(s.context, w.retrieval, w.reply)
            case Err(e) => AnswerFailure(s, e, w.now).outcome
            case Ok(a) => AnswerRun(setup, s, a, w.now).outcome
  {
    RoutingErrorsAreUnreachable(setup.threshold, s.intent.value, s.message, s.context, w.retrieval, w.reply);
  }

  lemma KnowledgeRunEnding(setup: Setup, w: World, s: AIState)
    requires setup.Valid() && w.Valid() && Routed(setup, s) && s.decision.value.decision == RetrieveInformation
    ensures EndingOf(Retrieval(setup, w, s).outcome)
              == KnowledgeEnding(setup, w, s.message, s.context, s.decision.value)
  {
    if setup.answers {
      RetrievalOutcome(setup, w, s);
      match AnswerFromKnowledge(s.context, w.retrieval, w.reply)
      case Err(e) => AnswerFailureEnding(s, e, w.now);
      case Ok(a) =>
        AcceptedIsTheReply(w.retrieval.value, w.reply);
        AnswerRunEnding(setup, s, a, w.now);
    }
  }

  lemma ExecutionEnding(setup: Setup, w: World, s: AIState)
    requires setup.Valid() && w.Valid() && Routed(setup, s) && s.evidence == []
    ensures EndingOf(Execution(setup, w, s).outcome)
              == DecidedEnding(setup, w, s.message, s.context, s.intent.value, s.decision.value)
  {
    DecisionMeaning(setup.threshold, s.intent.value);
    match s.decision.value.decision
    case AnswerDirectly =>
      var kind := DirectResponses.Resolve(setup.patterns, s.message, s.intent.value, s.decision.value);
      if kind.Some? {
        OwnedEnding(setup, s, DirectText(kind.value), w.now);
      }
    case RetrieveInformation => KnowledgeRunEnding(setup, w, s);
    case AskClarification =>
      OwnedEnding(setup, s, ClarificationTemplate(Some(s.intent.value.intent), s.decision.value.required), w.now);
    case Escalate =>
      var reason := s.decision.value.reason;
      NoticeEnding(setup, s, FromDecision, BecauseOf(reason), NoticeTemplate(reason), w.now);
    case PerformAction => assert false;
  }

  /** The state in which a run that was understood reaches its decision. */
  function Routing(setup: Setup, w: World, message: string, context: Option<string>): AIState
    requires w.Valid() && Receive(message, context).Ok? && Understood(w).Ok?
  {
    DecideNeverRaises(setup.threshold, Understood(w).value);
    var classified := WithIntent(Receive(message, context).value, Understood(w).value);
    WithDecision(classified, Decide(setup.threshold, Understood(w).value).value).value
  }

  lemma RoutingIsRouted(setup: Setup, w: World, message: string, context: Option<string>)
    requires w.Valid() && Receive(message, context).Ok? && Understood(w).Ok?
    ensures Routed(setup, Routing(setup, w, message, context)) && Routing(setup, w, message, context).evidence == []
  {
    ReceivedIsUnderway(message, context);
    DecideNeverRaises(setup.threshold, Understood(w).value);
    DecisionKeepsUnderway(setup, WithIntent(Receive(message, context).value, Understood(w).value));
  }

  lemma DecisionKeepsUnderway(setup: Setup, s: AIState)
    requires Underway(s) && s.intent.Some? && s.intent.value.Valid() && Decide(setup.threshold, s.intent.value).Ok?
    ensures WithDecision(s, Decide(setup.threshold, s.intent.value).value).Ok?
    ensures Routed(setup, WithDecision(s, Decide(setup.threshold, s.intent.value).value).value)
  {
  }

  lemma DecidesAs(setup: Setup, w: World, s: AIState, d: DecisionResult)
    requires s.intent.Some? && Decide(setup.threshold, s.intent.value) == Ok(d)
    ensures Decided(setup, w, s).outcome == Execution(setup, w, WithDecision(s, d).value).outcome
  {
    assert DecisionStage(setup, s, w.now).outcome == Done(WithDecision(s, d).value);
  }

  lemma ReachesItsDecision(setup: Setup, w: World, message: string, context: Option<string>)
    requires w.Valid() && Receive(message, context).Ok? && Understood(w).Ok?
    ensures ProcessRun(setup, w, message, context).outcome
              == Execution(setup, w, Routing(setup, w, message, context)).outcome
  {
    var s := Receive(message, context).value;
    var classified := WithIntent(s, Understood(w).value);
    DecideNeverRaises(setup.threshold, Understood(w).value);
    assert IntentStage(w, s).outcome == Done(classified);
    DecidesAs(setup, w, classified, Decide(setup.threshold, Understood(w).value).value);
    assert Pipeline(setup, w, s).outcome == Decided(setup, w, classified).outcome;
  }

  lemma IntentStageEnding(w: World, s: AIState)
    requires Underway(s) && Understood(w).Err?
    ensures !IntentStage(w, s).Going() && EndingOf(IntentStage(w, s).outcome) == Understood(w).error
  {
  }

  lemma NotUnderstood(setup: Setup, w: World, message: string, context: Option<string>)
    requires Receive(message, context).Ok? && Understood(w).Err?
    ensures EndingOf(ProcessRun(setup, w, message, context).outcome) == Understood(w).error
  {
    var s := Receive(message, context).value;
    ReceivedIsUnderway(message, context);
    IntentStageEnding(w, s);
    assert Pipeline(setup, w, s) == IntentStage(w, s);
  }

  /** For every configuration, surroundings and input, the staged run ends exactly as the table says. */
  lemma RunFollowsTheTable(setup: Setup, w: World, message: string, context: Option<string>)
    requires setup.Valid() && w.Valid()
    ensures EndingOf(ProcessRun(setup, w, message, context).outcome) == Table(setup, w, message, context)
  {
    if Receive(message, context).Ok? {
      if Understood(w).Ok? {
        ReachesItsDecision(setup, w, message, context);
        RoutingIsRouted(setup, w, message, context);
        ExecutionEnding(setup, w, Routing(setup, w, message, context));
      } else {
        NotUnderstood(setup, w, message, context);
      }
    }
  }

  // ----- Consequences -----

  /**
    Which question the customer is asked, whatever the reason for asking: an unknown intent is never
    answered with a request for an identifier, a confident order request is asked for the order id, and
    the generic question is left for intents that have none of their own.
   */
  lemma ClarificationMeaning(threshold: real, r: IntentResult)
    requires r.Valid() && Decide(threshold, r).Ok? && Decide(threshold, r).value.decision == AskClarification
    ensures ClarificationTemplate(Some(r.intent), Decide(threshold, r).value.required) ==
            if r.intent == Unknown then UnknownIntentPrompt
            else if r.intent == OrderStatus && r.confidence >= threshold then OrderIdPrompt
            else if r.intent in {Conversational, OutOfScope} then DefaultPrompt
            else IntentPrompt(r.intent)
  {
    AnySignalCounts(r);
    DecisionMeaning(threshold, r);
    AskedFor(threshold, r);
  }

  lemma AskedFor(threshold: real, r: IntentResult)
    requires r.Valid() && Decide(threshold, r).Ok? && Decide(threshold, r).value.decision == AskClarification
    ensures Decide(threshold, r).value.required ==
            [if r.intent == Unknown then "customer_intent"
             else if r.intent == OrderStatus && r.confidence >= threshold then "order_id" else "clarification"]
  {
    AnySignalCounts(r);
    DecideCases(threshold, r);
    if r.intent == Unknown {
      AskSucceeds(r, UnknownIntent, "customer_intent");
    } else if r.confidence < threshold {
      AskSucceeds(r, LowIntentConfidence, "clarification");
    } else {
      AskedConfidently(threshold, r);
    }
  }

  lemma AskedConfidently(threshold: real, r: IntentResult)
    requires r.Valid() && Decide(threshold, r).Ok? && Decide(threshold, r).value.decision == AskClarification
    requires r.signals == [] && r.intent != Unknown && r.confidence >= threshold
    ensures Decide(threshold, r).value.required == [if r.intent == OrderStatus then "order_id" else "clarification"]
  {
    DecideCases(threshold, r);
    AskSucceeds(r, MissingRequiredInformation, if r.intent == OrderStatus then "order_id" else "clarification");
  }

  /** Every escalation the engine decides has a notice of its own, chosen by the clearest reason for it. */
  lemma EscalationMeaning(threshold: real, r: IntentResult)
    requires r.Valid() && Decide(threshold, r).Ok? && Decide(threshold, r).value.decision == Escalate
    ensures NoticeTemplate(Decide(threshold, r).value.reason) ==
            ReasonNotice(if ExplicitHumanRequest in r.signals then CustomerRequestedHuman
                         else if SevereDissatisfaction in r.signals then SevereCustomerDissatisfaction
                         else if r.intent == PrivacySecurity then SecuritySensitiveRequest
                         else OperationalLookupUnavailable)
  {
    DecisionMeaning(threshold, r);
    DecideCases(threshold, r);
  }

  /** The run consults knowledge and generation is attempted on admissible input. */
  predicate Consults(setup: Setup, w: World, message: string, context: Option<string>) {
    && Receive(message, context).Ok? && Understood(w).Ok? && setup.answers && w.retrieval.Some?
    && Routable(setup.threshold, Understood(w).value) && Understood(w).value.intent in KNOWLEDGE_INTENTS
  }

  lemma PoliciesDoNotMeasureContext(setup: Setup, message: string, d: DecisionResult, text: string,
      evidence: seq<Evidence>)
    ensures Guarded(setup, message, d, text, evidence) != Throws(ContextTooLong)
  {
    if setup.policies.Some? {
      JudgeErrors(setup.policies.value, Guardrails.Context(message, d, Some(text), evidence));
    }
  }

  lemma DecidedContextTooLong(setup: Setup, w: World, message: string, context: Option<string>, r: IntentResult,
      d: DecisionResult)
    ensures DecidedEnding(setup, w, message, context, r, d) == Throws(ContextTooLong)
            <==> d.decision == RetrieveInformation && setup.answers && w.retrieval.Some?
                 && context.Some? && |Strip(context.value)| > MAX_GENERATION_CONTEXT
  {
    forall text, evidence
      ensures Guarded(setup, message, d, text, evidence) != Throws(ContextTooLong)
    {
      PoliciesDoNotMeasureContext(setup, message, d, text, evidence);
    }
  }

  lemma TableContextTooLong(setup: Setup, w: World, message: string, context: Option<string>)
    requires w.Valid()
    ensures Table(setup, w, message, context) == Throws(ContextTooLong) <==>
              Consults(setup, w, message, context) && context.Some? && |Strip(context.value)| > MAX_GENERATION_CONTEXT
  {
    if Receive(message, context).Ok? && Understood(w).Ok? {
      var r := Understood(w).value;
      DecisionMeaning(setup.threshold, r);
      DecidedContextTooLong(setup, w, Strip(message), Normalized(context), r, Decide(setup.threshold, r).value);
      if context.Some? {
        StripTwice(context.value);
      }
    }
  }

  /**
    The state accepts conversation contexts of up to 50000 characters, the generation request only up
    to 30000: an exception leaves the pipeline exactly when a knowledge run carries one in between.
   */
  lemma OversizedContextEscapesIff(setup: Setup, w: World, message: string, context: Option<string>)
    requires setup.Valid() && w.Valid()
    ensures EndingOf(ProcessRun(setup, w, message, context).outcome) == Throws(ContextTooLong) <==>
              Consults(setup, w, message, context) && context.Some? && |Strip(context.value)| > MAX_GENERATION_CONTEXT
  {
    RunFollowsTheTable(setup, w, message, context);
    TableContextTooLong(setup, w, message, context);
  }

  lemma DecidedDirectResponseUnavailable(setup: Setup, w: World, message: string, context: Option<string>,
      r: IntentResult, d: DecisionResult)
    ensures DecidedEnding(setup, w, message, context, r, d) == Fails(DirectResponseUnavailable)
            <==> d.decision == AnswerDirectly && r.intent != OutOfScope && setup.patterns.fold(message) == ""
  {
  }

  lemma TableDirectResponseUnavailable(setup: Setup, w: World, message: string, context: Option<string>)
    requires w.Valid() && Receive(message, context).Ok? && Understood(w).Ok?
    ensures var r := Understood(w).value;
            Table(setup, w, message, context) == Fails(DirectResponseUnavailable)
            <==> Routable(setup.threshold, r) && r.intent == Conversational && !r.needsClarification
                 && setup.patterns.fold(Strip(message)) == ""
  {
    var r := Understood(w).value;
    DecisionMeaning(setup.threshold, r);
    DecidedDirectResponseUnavailable(setup, w, Strip(message), Normalized(context), r,
        Decide(setup.threshold, r).value);
  }

  /** A direct answer is unavailable exactly for small talk whose text has nothing left to match. */
  lemma DirectResponseUnavailableIff(setup: Setup, w: World, message: string, context: Option<string>)
    requires setup.Valid() && w.Valid() && Receive(message, context).Ok? && Understood(w).Ok?
    ensures var r := Understood(w).value;
            EndingOf(ProcessRun(setup, w, message, context).outcome) == Fails(DirectResponseUnavailable)
            <==> Routable(setup.threshold, r) && r.intent == Conversational && !r.needsClarification
                 && setup.patterns.fold(Strip(message)) == ""
  {
    RunFollowsTheTable(setup, w, message, context);
    TableDirectResponseUnavailable(setup, w, message, context);
  }

  /** What the policies make of a generated answer in this run. */
  function Judged(setup: Setup, w: World, message: string, answer: string): Result<Guardrails.Verdict, Exn>
    requires w.Valid() && Understood(w).Ok? && setup.policies.Some? && w.retrieval.Some?
  {
    DecideNeverRaises(setup.threshold, Understood(w).value);
    var d := Decide(setup.threshold, Understood(w).value).value;
    Guardrails.Judge(setup.policies.value, Guardrails.Context(Strip(message), d, Some(answer), w.retrieval.value))
  }

  /** This reply is a grounded answer the generator accepts. */
  predicate AcceptedAnswer(w: World, reply: Grounding.Reply)
    requires w.retrieval.Some?
  {
    reply.Replied? && reply.g.status == Grounding.Grounded && Grounding.Grounds(w.retrieval.value, reply).Ok?
  }

  /** An accepted answer is shown, replaced by the refusal, or withheld behind the notice, as the policies say. */
  lemma JudgedEnding(setup: Setup, w: World, message: string, context: Option<string>)
    requires setup.Valid() && w.Valid() && setup.policies.Some? && Consults(setup, w, message, context)
    requires context.Some? ==> |Strip(context.value)| <= MAX_GENERATION_CONTEXT
    requires AcceptedAnswer(w, w.reply)
    ensures Table(setup, w, message, context) ==
            match Judged(setup, w, message, w.reply.g.answer)
            case Err(e) => Throws(e)
            case Ok(v) =>
              match v.outcome
              case Pass => Shows(Collapse(w.reply.g.answer))
              case Refuse => Shows(setup.texts(RefusalText))
              case EscalateResponse => Shows(setup.texts(GuardrailNotice))
  {
    var r := Understood(w).value;
    DecisionMeaning(setup.threshold, r);
    AcceptedIsTheReply(w.retrieval.value, w.reply);
    if context.Some? {
      StripTwice(context.value);
    }
    var d := Decide(setup.threshold, r).value;
    assert KnowledgeEnding(setup, w, Strip(message), Normalized(context), d)
        == Guarded(setup, Strip(message), d, w.reply.g.answer, w.retrieval.value);
  }

  /**
    The converse of being vouched for: an accepted answer no policy objects to is what the customer sees.
   */
  lemma UnopposedAnswersAreShown(setup: Setup, w: World, message: string, context: Option<string>)
    requires setup.Valid() && w.Valid() && setup.policies.Some? && Consults(setup, w, message, context)
    requires context.Some? ==> |Strip(context.value)| <= MAX_GENERATION_CONTEXT
    requires AcceptedAnswer(w, w.reply)
    requires Judged(setup, w, message, w.reply.g.answer).Ok?
              && Judged(setup, w, message, w.reply.g.answer).value.outcome == Pass
    ensures EndingOf(ProcessRun(setup, w, message, context).outcome) == Shows(Collapse(w.reply.g.answer))
  {
    RunFollowsTheTable(setup, w, message, context);
    JudgedEnding(setup, w, message, context);
  }

  /** A rejected answer leaves no trace: the ending is a constant chosen by the verdict's outcome alone. */
  lemma RejectedAnswersDoNotLeak(setup: Setup, w: World, message: string, context: Option<string>)
    requires setup.Valid() && w.Valid() && setup.policies.Some? && Consults(setup, w, message, context)
    requires context.Some? ==> |Strip(context.value)| <= MAX_GENERATION_CONTEXT
    requires AcceptedAnswer(w, w.reply)
    requires Judged(setup, w, message, w.reply.g.answer).Ok?
              && Judged(setup, w, message, w.reply.g.answer).value.outcome != Pass
    ensures EndingOf(ProcessRun(setup, w, message, context).outcome)
            == Shows(setup.texts(if Judged(setup, w, message, w.reply.g.answer).value.outcome == Refuse then
                RefusalText else GuardrailNotice))
  {
    RunFollowsTheTable(setup, w, message, context);
    JudgedEnding(setup, w, message, context);
  }

  // ----- Generation failures -----

  const GENERATION_CODES: set<FailureCode> :=
    {GenerationProviderTimeout, GenerationProviderFailure, GenerationInvalidResponse, GenerationFailure}

  /** The run consults knowledge with an admissible context, and the generator accepts no reply. */
  predicate GenerationFails(setup: Setup, w: World, message: string, context: Option<string>) {
    && Consults(setup, w, message, context)
    && (context.Some? ==> |Strip(context.value)| <= MAX_GENERATION_CONTEXT)
    && Grounding.Grounds(w.retrieval.value, w.reply).Err?
  }

  predicate FailsInGeneration(e: Ending) {
    e.Fails? && e.code in GENERATION_CODES
  }

  lemma DecidedGenerationFailure(setup: Setup, w: World, message: string, context: Option<string>, r: IntentResult,
      d: DecisionResult)
    ensures FailsInGeneration(DecidedEnding(setup, w, message, context, r, d))
            <==> d.decision == RetrieveInformation && setup.answers && w.retrieval.Some?
                 && (context.Some? ==> |Strip(context.value)| <= MAX_GENERATION_CONTEXT)
                 && Grounding.Grounds(w.retrieval.value, w.reply).Err?
  {
  }

  lemma TableGenerationFailure(setup: Setup, w: World, message: string, context: Option<string>)
    requires w.Valid()
    ensures FailsInGeneration(Table(setup, w, message, context)) <==> GenerationFails(setup, w, message, context)
  {
    if Receive(message, context).Ok? && Understood(w).Ok? {
      var r := Understood(w).value;
      DecisionMeaning(setup.threshold, r);
      DecidedGenerationFailure(setup, w, Strip(message), Normalized(context), r, Decide(setup.threshold, r).value);
      if context.Some? {
        StripTwice(context.value);
      }
    }
  }

  /** On which inputs a run fails with a generation code. */
  lemma GenerationFailureIff(setup: Setup, w: World, message: string, context: Option<string>)
    requires setup.Valid() && w.Valid()
    ensures FailsInGeneration(EndingOf(ProcessRun(setup, w, message, context).outcome)) <==>
              GenerationFails(setup, w, message, context)
  {
    RunFollowsTheTable(setup, w, message, context);
    TableGenerationFailure(setup, w, message, context);
  }

  // ----- Concrete inputs -----

  /** A confident refund request, with evidence retrieval that finds nothing. */
  const REFUND: IntentResult := IntentResult(RefundRequest, 1.0, None, false, [])

  lemma OrdinaryText(s: string)
    requires s != "" && !IsSpace(s[0]) && !IsSpace(s[|s| - 1])
    ensures Strip(s) == s
  {
  }

  lemma RefundConsults(setup: Setup, w: World, context: Option<string>)
    requires setup.Valid() && setup.answers && w.route == Some(REFUND) && w.retrieval.Some?
    requires context.Some? ==> |Strip(context.value)| <= MAX_CONTEXT
    ensures REFUND.Valid() && Consults(setup, w, "m", context)
  {
    assert !IsSpace('m');
    OrdinaryText("m");
  }

  /** A context of 30001 letters: the state takes it, the generation request does not. */
  lemma OversizedContextExample(setup: Setup, now: Time)
    requires setup.Valid() && setup.answers
    ensures var w := World(Some(REFUND), ClassifierCrash, Some([]), Grounding.TimedOut, now);
            var context := seq(30_001, i => 'x');
            w.Valid() && EndingOf(ProcessRun(setup, w, "m", Some(context)).outcome) == Throws(ContextTooLong)
  {
    var w := World(Some(REFUND), ClassifierCrash, Some([]), Grounding.TimedOut, now);
    var context := seq(30_001, i => 'x');
    assert !IsSpace('x');
    OrdinaryText(context);
    RefundConsults(setup, w, Some(context));
    OversizedContextEscapesIff(setup, w, "m", Some(context));
  }

  /** A provider that times out. */
  lemma GenerationFailureExample(setup: Setup, now: Time)
    requires setup.Valid() && setup.answers
    ensures var w := World(Some(REFUND), ClassifierCrash, Some([]), Grounding.TimedOut, now);
            w.Valid() && GenerationFails(setup, w, "m", None)
  {
    RefundConsults(setup, World(Some(REFUND), ClassifierCrash, Some([]), Grounding.TimedOut, now), None);
  }
}
