/**
  What one run of the pipeline comes to, case by case: which failure each cause is reported as, which
  text the customer is left with, and what the engine's decisions carry.
 */
module RunMeaning {
  import opened AnswerService
  import opened DecisionEngine
  import opened Orchestrator
  import opened OrchestratorEndings
  import opened OrchestratorSafety
  import opened Outcomes
  import opened SupportState
  import opened Texts
  import DirectResponses
  import Grounding
  import Guardrails

  function Result(setup: Setup, w: World, message: string, context: Option<string>): Ending {
    EndingOf(ProcessRun(setup, w, message, context).outcome)
  }

  // ----- Accepted input -----

  /** Exactly which messages are taken up, and as what. */
  lemma MessagesAreTakenUpIff(message: string, context: Option<string>)
    ensures Receive(message, context).Ok? <==>
              0 < |Strip(message)| <= 20_000 && (context.Some? ==> |Strip(context.value)| <= 50_000)
    ensures Receive(message, context).Err? ==> Receive(message, context).error == InvalidValue
    ensures Receive(message, context).Ok? ==>
              var s := Receive(message, context).value;
              && s.message == Strip(message) && s.stage == Received && s.errors == []
              && s.context == (if context.Some? && Strip(context.value) != "" then Some(Strip(context.value)) else None)
  {
  }

  // ----- What the guardrails make of a text -----

  /** How a run ends that puts this text before the policies. */
  ghost predicate EndsAsJudged(setup: Setup, c: Guardrails.Context, text: string, e: Ending) {
    && (setup.policies.None? ==> e == Unguarded(text))
    && (setup.policies.Some? ==>
          var policies := setup.policies.value;
          && ((forall i :: 0 <= i < |policies| ==> policies[i].check(c).Silent?) ==> e == Shows(Collapse(text)))
          && (forall i: nat :: Guardrails.FirstToSpeak(policies, c, i) ==>
                match policies[i].check(c)
                case Raises => e == Throws(PolicyDefect)
                case Found(v) =>
                  && (v.outcome == Pass ==> e == Throws(InvalidValue))
                  && (v.outcome == Refuse ==> e == Shows(setup.texts(RefusalText)))
                  && (v.outcome == EscalateResponse ==> e == Shows(setup.texts(GuardrailNotice)))))
  }

  lemma GuardedMeaning(setup: Setup, message: string, d: DecisionResult, text: string, evidence: seq<Evidence>)
    ensures var c := Guardrails.Context(message, d, Some(text), evidence);
            EndsAsJudged(setup, c, text, Guarded(setup, message, d, text, evidence))
  {
    if setup.policies.Some? {
      Guardrails.FirstViolationWins(setup.policies.value, Guardrails.Context(message, d, Some(text), evidence));
      PassingVerdict(setup.policies.value, Guardrails.Context(message, d, Some(text), evidence));
    }
  }

  /** A verdict that passes is the evaluator's own, not a policy's. */
  lemma {:induction false} PassingVerdict(policies: seq<Guardrails.Policy>, c: Guardrails.Context)
    ensures Guardrails.Judge(policies, c).Ok? ==>
              (Guardrails.Judge(policies, c).value.outcome == Pass <==>
                 forall i :: 0 <= i < |policies| ==> policies[i].check(c).Silent?)
  {
    Guardrails.FirstViolationWins(policies, c);
  }

  // ----- Understanding the message -----

  /** The intent of the run: the router's, or else the classifier's. */
  predicate Understands(w: World, r: IntentResult) {
    w.route == Some(r) || (w.route == None && w.classifier == Classified(r))
  }

  /** The input is taken up and understood as r. */
  ghost predicate Reads(setup: Setup, w: World, message: string, context: Option<string>, r: IntentResult) {
    && setup.Valid() && w.Valid() && Understands(w, r)
    && 0 < |Strip(message)| <= 20_000 && (context.Some? ==> |Strip(context.value)| <= 50_000)
  }

  /** Without an intent the run ends with the classifier's own failure, each under its own code. */
  lemma ClassifierFailuresAreReported(setup: Setup, w: World, message: string, context: Option<string>)
    requires setup.Valid() && w.Valid() && Receive(message, context).Ok? && w.route == None
    ensures var e := Result(setup, w, message, context);
            match w.classifier
            case InvalidInput => e == Fails(IntentInvalidInput)
            case ClassifierTimeout => e == Fails(IntentProviderTimeout)
            case InvalidReply => e == Fails(IntentInvalidResponse)
            case ClassifierDown => e == Fails(IntentProviderFailure)
            case ClassifierError => e == Fails(IntentClassificationFailure)
            case ClassifierCrash => e == Throws(ClassifierDefect)
            case Classified(_) => true
  {
    RunFollowsTheTable(setup, w, message, context);
  }

  lemma ReadsThrough(setup: Setup, w: World, message: string, context: Option<string>, r: IntentResult)
    requires Reads(setup, w, message, context, r)
    ensures Receive(message, context).Ok? && Understood(w) == Ok(r) && r.Valid() && Decide(setup.threshold, r).Ok?
    ensures Result(setup, w, message, context)
            == DecidedEnding(setup, w, Strip(message), Normalized(context), r, Decide(setup.threshold, r).value)
  {
    RunFollowsTheTable(setup, w, message, context);
    DecideNeverRaises(setup.threshold, r);
  }

  // ----- Small talk -----

  /** Which reply small talk gets: the first of the groups that matches, with a prompt for support otherwise. */
  predicate Answers(p: DirectResponses.Patterns, f: string, k: DirectResponses.Kind) {
    && (k == DirectResponses.Capabilities <==> p.capability(f))
    && (k == DirectResponses.Goodbye <==> p.goodbye(f) && !p.capability(f))
    && (k == DirectResponses.Thanks <==> p.thanks(f) && !p.goodbye(f) && !p.capability(f))
    && (k == DirectResponses.Greeting <==>
          p.greeting(f) && !p.capability(f) && !p.goodbye(f) && !p.thanks(f) && !p.support(f))
    && k != DirectResponses.OutOfScopeReply
  }

  /** Small talk is answered with its own text, put before the policies; never with another one. */
  lemma SmallTalkIsAnswered(setup: Setup, w: World, message: string, context: Option<string>, r: IntentResult,
      k: DirectResponses.Kind)
    requires Reads(setup, w, message, context, r) && Routable(setup.threshold, r)
    requires r.intent == Conversational && !r.needsClarification
    requires var f := setup.patterns.fold(Strip(message)); f != "" && Answers(setup.patterns, f, k)
    ensures Decide(setup.threshold, r).Ok?
    ensures var text := setup.texts(DirectText(k));
            var c := Guardrails.Context(Strip(message), Decide(setup.threshold, r).value, Some(text), []);
            EndsAsJudged(setup, c, text, Result(setup, w, message, context))
  {
    ReadsThrough(setup, w, message, context, r);
    DecisionMeaning(setup.threshold, r);
    var d := Decide(setup.threshold, r).value;
    GuardedMeaning(setup, Strip(message), d, setup.texts(DirectText(k)), []);
    assert DirectResponses.ConversationalKind(setup.patterns, setup.patterns.fold(Strip(message))) == k;
  }

  /** Every text has exactly one such reply. */
  lemma SomeReplyAnswers(p: DirectResponses.Patterns, f: string) returns (k: DirectResponses.Kind)
    ensures Answers(p, f, k) && forall other :: Answers(p, f, other) ==> other == k
  {
    k := DirectResponses.ConversationalKind(p, f);
  }

  /** What is out of scope gets its own text; small talk with nothing left to match is unavailable. */
  lemma OutOfScopeIsAnswered(setup: Setup, w: World, message: string, context: Option<string>, r: IntentResult)
    requires Reads(setup, w, message, context, r) && Routable(setup.threshold, r)
    requires r.intent == OutOfScope && !r.needsClarification
    ensures Decide(setup.threshold, r).Ok?
    ensures var text := setup.texts(DirectText(DirectResponses.OutOfScopeReply));
            var c := Guardrails.Context(Strip(message), Decide(setup.threshold, r).value, Some(text), []);
            EndsAsJudged(setup, c, text, Result(setup, w, message, context))
  {
    ReadsThrough(setup, w, message, context, r);
    DecisionMeaning(setup.threshold, r);
    var d := Decide(setup.threshold, r).value;
    GuardedMeaning(setup, Strip(message), d, setup.texts(DirectText(DirectResponses.OutOfScopeReply)), []);
  }

  // ----- Escalations and questions -----

  /** A person is called in under the notice of the clearest reason, whatever the policies would say. */
  lemma EscalationsShowTheirNotice(setup: Setup, w: World, message: string, context: Option<string>, r: IntentResult)
    requires Reads(setup, w, message, context, r)
    ensures var e := Result(setup, w, message, context);
            && (ExplicitHumanRequest in r.signals ==> e == Shows(setup.texts(ReasonNotice(CustomerRequestedHuman))))
            && (ExplicitHumanRequest !in r.signals && SevereDissatisfaction in r.signals ==>
                  e == Shows(setup.texts(ReasonNotice(SevereCustomerDissatisfaction))))
            && (r.signals == [] && r.intent == PrivacySecurity ==>
                  e == Shows(setup.texts(ReasonNotice(SecuritySensitiveRequest))))
            && (Routable(setup.threshold, r) && r.intent == OrderStatus && r.orderId.Some? && !r.needsClarification ==>
                  e == Shows(setup.texts(ReasonNotice(OperationalLookupUnavailable))))
  {
    ReadsThrough(setup, w, message, context, r);
    DecisionMeaning(setup.threshold, r);
    AnySignalCounts(r);
    if Decide(setup.threshold, r).value.decision == Escalate {
      EscalationMeaning(setup.threshold, r);
    }
  }

  /** When the customer is asked back. */
  predicate AskedBack(threshold: real, r: IntentResult) {
    && r.signals == [] && r.intent != PrivacySecurity
    && (r.intent == Unknown || r.confidence < threshold
        || (r.intent == OrderStatus && (r.orderId == None || r.needsClarification))
        || (r.intent in {Conversational, OutOfScope} && r.needsClarification))
  }

  /** Which question: for the request itself, for the order id, or the intent's own. */
  function Question(threshold: real, r: IntentResult): Template {
    if r.intent == Unknown then UnknownIntentPrompt
    else if r.intent == OrderStatus && r.confidence >= threshold then OrderIdPrompt
    else if r.intent in {Conversational, OutOfScope} then DefaultPrompt
    else IntentPrompt(r.intent)
  }

  lemma AskedBackIff(threshold: real, r: IntentResult)
    requires r.Valid()
    ensures Decide(threshold, r).Ok?
    ensures Decide(threshold, r).value.decision == AskClarification <==> AskedBack(threshold, r)
  {
    DecisionMeaning(threshold, r);
    DecideCases(threshold, r);
    AnySignalCounts(r);
  }

  /** Whoever is asked back gets that question, put before the policies. */
  lemma QuestionsAreAsked(setup: Setup, w: World, message: string, context: Option<string>, r: IntentResult)
    requires Reads(setup, w, message, context, r) && AskedBack(setup.threshold, r)
    ensures Decide(setup.threshold, r).Ok?
    ensures var text := setup.texts(Question(setup.threshold, r));
            var c := Guardrails.Context(Strip(message), Decide(setup.threshold, r).value, Some(text), []);
            EndsAsJudged(setup, c, text, Result(setup, w, message, context))
  {
    ReadsThrough(setup, w, message, context, r);
    AskedBackIff(setup.threshold, r);
    ClarificationMeaning(setup.threshold, r);
    var d := Decide(setup.threshold, r).value;
    GuardedMeaning(setup, Strip(message), d, setup.texts(Question(setup.threshold, r)), []);
  }

  // ----- Knowledge -----

  ghost predicate AsksKnowledge(setup: Setup, w: World, message: string, context: Option<string>, r: IntentResult) {
    && Reads(setup, w, message, context, r) && Routable(setup.threshold, r)
    && r.intent in {RefundRequest, PaymentIssue, ShippingIssue, Cancellation, SubscriptionIssue, AccountIssue,
                    ReturnExchange, GeneralQuestion}
  }

  /** The reply contract: grounded with citations that each identify one supplied item, or citing nothing. */
  predicate Acceptable(evidence: seq<Evidence>, g: Grounding.Generation) {
    if g.status == Grounding.Grounded then Grounding.WellGrounded(evidence, g) else g.citations == []
  }

  lemma KnowledgeEnds(setup: Setup, w: World, message: string, context: Option<string>, r: IntentResult)
    requires AsksKnowledge(setup, w, message, context, r)
    ensures Decide(setup.threshold, r).Ok?
    ensures Result(setup, w, message, context)
            == KnowledgeEnding(setup, w, Strip(message), Normalized(context), Decide(setup.threshold, r).value)
    ensures Normalized(context).Some? && |Strip(Normalized(context).value)| > 30_000 <==>
              context.Some? && |Strip(context.value)| > 30_000
  {
    ReadsThrough(setup, w, message, context, r);
    DecisionMeaning(setup.threshold, r);
    if context.Some? {
      StripTwice(context.value);
    }
  }

  /** How a knowledge run fails, by its cause. */
  lemma KnowledgeFailuresAreReported(setup: Setup, w: World, message: string, context: Option<string>, r: IntentResult)
    requires AsksKnowledge(setup, w, message, context, r)
    ensures var e := Result(setup, w, message, context);
            && (!setup.answers ==> e == Fails(AnswerServiceUnavailable))
            && (setup.answers && w.retrieval == None ==> e == Throws(RetrievalDefect))
            && (setup.answers && w.retrieval.Some? && context.Some? && |Strip(context.value)| > 30_000 ==>
                  e == Throws(ContextTooLong))
  {
    KnowledgeEnds(setup, w, message, context, r);
  }

  /** Retrieval succeeded and the context is short enough for the generation request. */
  predicate Generates(setup: Setup, w: World, context: Option<string>) {
    setup.answers && w.retrieval.Some? && (context.Some? ==> |Strip(context.value)| <= 30_000)
  }

  /** Exactly which error each refused reply becomes. */
  lemma RefusedReplies(evidence: seq<Evidence>, reply: Grounding.Reply)
    ensures var r := Grounding.Grounds(evidence, reply);
            && (r == Err(Grounding.OtherFailure) <==> !Grounding.DistinctIds(evidence) || reply.Crashed?)
            && (r == Err(Grounding.Timeout) <==> Grounding.DistinctIds(evidence) && reply.TimedOut?)
            && (r == Err(Grounding.ProviderFailure) <==> Grounding.DistinctIds(evidence) && reply.ProviderDown?)
            && (r == Err(Grounding.InvalidResponse) <==>
                 Grounding.DistinctIds(evidence)
                 && (reply.Malformed? || (reply.Replied? && !Acceptable(evidence, reply.g))))
  {
    Grounding.AcceptedReplies(evidence, reply);
  }

  /** The code under which each way to get no answer is reported. */
  function RefusalCode(evidence: seq<Evidence>, reply: Grounding.Reply): FailureCode {
    if !Grounding.DistinctIds(evidence) then GenerationFailure
    else
      match reply
      case TimedOut => GenerationProviderTimeout
      case ProviderDown => GenerationProviderFailure
      case Malformed => GenerationInvalidResponse
      case Crashed => GenerationFailure
      case Replied(_) => GenerationInvalidResponse
  }

  predicate AnswerAccepted(evidence: seq<Evidence>, reply: Grounding.Reply) {
    Grounding.DistinctIds(evidence) && reply.Replied? && Acceptable(evidence, reply.g)
  }

  lemma RefusalsHaveTheirCode(evidence: seq<Evidence>, reply: Grounding.Reply)
    requires !AnswerAccepted(evidence, reply)
    ensures Grounding.Grounds(evidence, reply).Err?
    ensures GenerationCode(Grounding.Grounds(evidence, reply).error) == RefusalCode(evidence, reply)
  {
    RefusedReplies(evidence, reply);
  }

  /** A run without an accepted answer fails, by the evidence and the provider's reply. */
  lemma RefusedGenerationEndsTheRun(setup: Setup, w: World, message: string, context: Option<string>, r: IntentResult)
    requires AsksKnowledge(setup, w, message, context, r) && Generates(setup, w, context)
    requires !AnswerAccepted(w.retrieval.value, w.reply)
    ensures Result(setup, w, message, context) == Fails(RefusalCode(w.retrieval.value, w.reply))
  {
    KnowledgeEnds(setup, w, message, context, r);
    RefusalsHaveTheirCode(w.retrieval.value, w.reply);
  }

  /** How a run ends whose reply is accepted, by the status of the answer. */
  lemma AcceptedGenerationEndsTheRun(setup: Setup, w: World, message: string, context: Option<string>, r: IntentResult)
    requires AsksKnowledge(setup, w, message, context, r) && Generates(setup, w, context)
    requires AnswerAccepted(w.retrieval.value, w.reply)
    ensures Decide(setup.threshold, r).Ok?
    ensures var (e, g) := (Result(setup, w, message, context), w.reply.g);
            match g.status
            case InsufficientEvidence => e == Shows(setup.texts(KnowledgeGapNotice))
            case NotRequired => e == Fails(GroundingStatusInvalid)
            case Grounded =>
              var d := Decide(setup.threshold, r).value;
              var c := Guardrails.Context(Strip(message), d, Some(g.answer), w.retrieval.value);
              EndsAsJudged(setup, c, g.answer, e)
  {
    KnowledgeEnds(setup, w, message, context, r);
    Grounding.AcceptedReplies(w.retrieval.value, w.reply);
    GuardedMeaning(setup, Strip(message), Decide(setup.threshold, r).value, w.reply.g.answer, w.retrieval.value);
  }

  // ----- What a decision carries -----

  /** What the engine writes into a decision that follows a customer's signal. */
  lemma SignalDecisions(threshold: real, r: IntentResult)
    requires r.Valid() && r.signals != []
    ensures Decide(threshold, r) == Ok(
              if ExplicitHumanRequest in r.signals
              then DecisionResult(Escalate, CustomerRequestedHuman, r.confidence, [],
                                  map["escalation_signal" := Text("explicit_human_request"),
                                      "priority" := Text("normal")])
              else DecisionResult(Escalate, SevereCustomerDissatisfaction, r.confidence, [],
                                  map["escalation_signal" := Text("severe_customer_dissatisfaction"),
                                      "priority" := Text("high")]))
  {
    AnySignalCounts(r);
  }

  /** What it writes into a question: why it asks and for what, and nothing else. */
  lemma QuestionDecisions(threshold: real, r: IntentResult)
    requires r.Valid() && AskedBack(threshold, r)
    ensures var (reason, key) :=
              if r.intent == Unknown then (UnknownIntent, "customer_intent")
              else if r.confidence < threshold then (LowIntentConfidence, "clarification")
              else (MissingRequiredInformation, if r.intent == OrderStatus then "order_id" else "clarification");
            Decide(threshold, r) == Ok(DecisionResult(AskClarification, reason, r.confidence, [key], map[]))
  {
    AnySignalCounts(r);
    if r.intent == Unknown {
      AskSucceeds(r, UnknownIntent, "customer_intent");
    } else if r.confidence < threshold {
      AskSucceeds(r, LowIntentConfidence, "clarification");
    } else {
      AskSucceeds(r, MissingRequiredInformation, if r.intent == OrderStatus then "order_id" else "clarification");
    }
  }

  /** The reason with which each intent is routed. */
  function RoutingReason(intent: Intent): DecisionReason {
    match intent
    case OrderStatus => OperationalLookupUnavailable
    case PrivacySecurity => SecuritySensitiveRequest
    case Conversational => DirectInformationalResponse
    case OutOfScope => UnsupportedRequest
    case Unknown => UnknownIntent
    case _ => PolicyRetrievalRequired
  }

  /** What it writes into a routed decision: priority, whether action may follow, and the retrieval kind. */
  predicate RoutingMetadata(intent: Intent, m: map<string, Meta>) {
    && m.Keys == {"intent", "priority", "potentially_actionable"}
                 + (if intent in KNOWLEDGE_INTENTS then {"retrieval_kind"} else {})
    && m["intent"] == Text(IntentName(intent))
    && m["priority"] == Text(if intent == PrivacySecurity then "urgent" else if intent == AccountIssue then "high"
      else "normal")
    && m["potentially_actionable"]
         == Flag(intent !in {PrivacySecurity, GeneralQuestion, Conversational, OutOfScope, Unknown})
    && ("retrieval_kind" in m ==> m["retrieval_kind"] == Text("knowledge"))
  }

  lemma RegistryMeaning(intent: Intent)
    ensures PolicyOf(intent).reason == RoutingReason(intent)
    ensures PolicyOf(intent).priority ==
              if intent == PrivacySecurity then Urgent else if intent == AccountIssue then High else Normal
    ensures PolicyOf(intent).actionable <==>
              intent !in {PrivacySecurity, GeneralQuestion, Conversational, OutOfScope, Unknown}
    ensures PolicyOf(intent).kind == if intent in KNOWLEDGE_INTENTS then Some(KnowledgeKind) else None
  {
  }

  lemma RegistryIsWritten(intent: Intent)
    ensures RoutingMetadata(intent, PolicyMetadata(intent, PolicyOf(intent)))
  {
    RegistryMeaning(intent);
    var p := PolicyOf(intent);
    assert PriorityName(p.priority) ==
      if intent == PrivacySecurity then "urgent" else if intent == AccountIssue then "high" else "normal";
    assert p.kind.Some? ==> KindName(p.kind.value) == "knowledge";
  }

  lemma RoutedDecisions(threshold: real, r: IntentResult)
    requires r.Valid() && r.signals == [] && !AskedBack(threshold, r)
    ensures Decide(threshold, r).Ok?
    ensures var d := Decide(threshold, r).value;
            && d.reason == RoutingReason(r.intent) && d.confidence == r.confidence && d.required == []
            && RoutingMetadata(r.intent, d.metadata)
  {
    AnySignalCounts(r);
    DecideCases(threshold, r);
    RegistryMeaning(r.intent);
    RegistryIsWritten(r.intent);
  }

  /** The names under which intents are recorded. */
  lemma IntentNames()
    ensures IntentName(RefundRequest) == "refund_request" && IntentName(PaymentIssue) == "payment_issue"
    ensures IntentName(OrderStatus) == "order_status" && IntentName(ShippingIssue) == "shipping_issue"
    ensures IntentName(Cancellation) == "cancellation" && IntentName(SubscriptionIssue) == "subscription_issue"
    ensures IntentName(AccountIssue) == "account_issue" && IntentName(ReturnExchange) == "return_exchange"
    ensures IntentName(PrivacySecurity) == "privacy_security" && IntentName(GeneralQuestion) == "general_question"
    ensures IntentName(Conversational) == "conversational" && IntentName(OutOfScope) == "out_of_scope"
    ensures IntentName(Unknown) == "unknown"
  {
  }

  // ----- Cases the engine's decisions never reach -----

  /** The kind a decision's metadata names, whatever wrote it: trimmed, and one of the two, or an error. */
  lemma ResolveKindMeaning(d: DecisionResult)
    ensures var k := ResolveKind(d);
            var named := "retrieval_kind" in d.metadata && d.metadata["retrieval_kind"].Text?;
            && (k == Err(WrongDecision) <==> d.decision != RetrieveInformation)
            && (k == Ok(KnowledgeKind) <==>
                 d.decision == RetrieveInformation && named && Strip(d.metadata["retrieval_kind"].text) == "knowledge")
            && (k == Ok(OperationalKind) <==>
                 d.decision == RetrieveInformation && named
                     && Strip(d.metadata["retrieval_kind"].text) == "operational")
  {
  }

  /** How the answer service refuses what it cannot answer, for any decision and message. */
  lemma AnswerMeaning(message: string, context: Option<string>, d: DecisionResult, retrieval: Option<seq<Evidence>>,
      reply: Grounding.Reply)
    ensures var a := Answer(message, context, d, retrieval, reply);
            && (Strip(message) == "" ==> a == Err(Escapes(InvalidValue)))
            && (Strip(message) != "" && d.decision != RetrieveInformation ==> a == Err(UnsupportedDecision))
            && (Strip(message) != "" && ResolveKind(d) == Err(InvalidKind) ==> a == Err(InvalidRetrievalDecision))
            && (Strip(message) != "" && ResolveKind(d) == Ok(OperationalKind) ==> a == Err(UnsupportedKind))
            && (Strip(message) != "" && ResolveKind(d) == Ok(KnowledgeKind) ==>
                  && (retrieval == None ==> a == Err(Escapes(RetrievalDefect)))
                  && (retrieval.Some? && context.Some? && |Strip(context.value)| > 30_000 ==>
                        a == Err(Escapes(ContextTooLong)))
                  && (retrieval.Some? && (context.Some? ==> |Strip(context.value)| <= 30_000) ==>
                        var g := Grounding.Grounds(retrieval.value, reply);
                        if AnswerAccepted(retrieval.value, reply) then a == Ok(Answered(retrieval.value, reply.g))
                        else g.Err? && a == Err(Generation(g.error))))
  {
    ResolveKindMeaning(d);
    if retrieval.Some? {
      Grounding.AcceptedReplies(retrieval.value, reply);
      if !AnswerAccepted(retrieval.value, reply) {
        RefusalsHaveTheirCode(retrieval.value, reply);
      }
    }
  }

  /** The run ends failed, with exactly this one further error on record. */
  predicate ReportedAs(o: Outcome, s: AIState, e: PipelineError, now: Time) {
    && o.Done? && o.state.stage == Failed && o.state.errors == s.errors + [e] && o.state.completedAt == Some(now)
    && Visible(o.state) == None
  }

  /** A knowledge failure's report: provider trouble can be retried, a misrouted decision cannot. */
  lemma AnswerErrorsAreReported(s: AIState, e: AnswerError, now: Time)
    ensures var o := AnswerFailure(s, e, now).outcome;
            && (e == UnsupportedKind ==>
                  ReportedAs(o, s, PipelineError(RetrievalKindUnsupported, RetrievalCompleted, false), now))
            && (e in {InvalidRetrievalDecision, UnsupportedDecision} ==>
                  ReportedAs(o, s, PipelineError(RetrievalDecisionInvalid, RetrievalCompleted, false), now))
            && (e == Generation(Grounding.Timeout) ==>
                  ReportedAs(o, s, PipelineError(GenerationProviderTimeout, ResponseGenerated, true), now))
            && (e == Generation(Grounding.ProviderFailure) ==>
                  ReportedAs(o, s, PipelineError(GenerationProviderFailure, ResponseGenerated, true), now))
            && (e == Generation(Grounding.InvalidResponse) ==>
                  ReportedAs(o, s, PipelineError(GenerationInvalidResponse, ResponseGenerated, true), now))
            && (e == Generation(Grounding.OtherFailure) ==>
                  ReportedAs(o, s, PipelineError(GenerationFailure, ResponseGenerated, false), now))
            && (e.Escapes? ==> o == Raised(e.exn))
  {
  }

  /** A business action has no workflow, and a decision the engine refuses fails as the engine's. */
  lemma UnsupportedWorkIsReported(setup: Setup, w: World, s: AIState)
    ensures s.decision.Some? && s.decision.value.decision == PerformAction ==>
              ReportedAs(Execution(setup, w, s).outcome, s,
                         PipelineError(DecisionWorkflowUnsupported, DecisionMade, false), w.now)
    ensures s.intent.Some? && Decide(setup.threshold, s.intent.value).Err? ==>
              ReportedAs(DecisionStage(setup, s, w.now).outcome, s,
                         PipelineError(DecisionEngineFailure, DecisionMade, false), w.now)
    ensures s.decision == None ==> Execution(setup, w, s).outcome == Raised(BrokenInvariant)
  {
  }

  /** The question for any intent and requirements: by the one requirement key, or else by the intent. */
  lemma QuestionsByKey(intent: Option<Intent>, required: seq<string>)
    ensures var t := ClarificationTemplate(intent, required);
            && (intent == Some(Unknown) || required == ["customer_intent"] ==> t == UnknownIntentPrompt)
            && (intent != Some(Unknown) ==>
                  && (required == ["order_id"] ==> t == OrderIdPrompt)
                  && (required == ["order_id_or_transaction_id"] ==> t == OrderOrTransactionPrompt)
                  && (required == ["subscription_id"] ==> t == SubscriptionPrompt)
                  && (required !in {["customer_intent"], ["order_id"], ["order_id_or_transaction_id"],
                       ["subscription_id"]} ==>
                        t == if intent == None || intent.value in {PrivacySecurity, Conversational, OutOfScope}
                             then DefaultPrompt else IntentPrompt(intent.value)))
  {
    if |required| == 1 {
      assert required == [required[0]];
    }
  }

  /** The notice for any reason to escalate. */
  lemma NoticesByReason(reason: DecisionReason)
    ensures NoticeTemplate(reason) ==
            match reason
            case CustomerRequestedHuman => ReasonNotice(CustomerRequestedHuman)
            case SevereCustomerDissatisfaction => ReasonNotice(SevereCustomerDissatisfaction)
            case SecuritySensitiveRequest => ReasonNotice(SecuritySensitiveRequest)
            case OperationalLookupUnavailable => ReasonNotice(OperationalLookupUnavailable)
            case HumanApprovalRequired => ReasonNotice(HumanApprovalRequired)
            case PolicyConflict => ReasonNotice(PolicyConflict)
            case KnowledgeUnavailable => KnowledgeGapNotice
            case _ => DefaultNotice
  {
  }

  /** Why a direct response cannot be resolved, for any intent and decision. */
  lemma ResolutionMeaning(p: DirectResponses.Patterns, message: string, r: IntentResult, d: DecisionResult)
    ensures var k := DirectResponses.Resolve(p, message, r, d);
            var resolvable := Strip(message) != "" && d.decision == AnswerDirectly && !r.needsClarification;
            && (k == Some(DirectResponses.OutOfScopeReply) <==> resolvable && r.intent == OutOfScope)
            && (k == None <==>
                 !(resolvable && (r.intent == OutOfScope || (r.intent == Conversational && p.fold(message) != ""))))
            && (k.Some? && r.intent == Conversational ==> Answers(p, p.fold(message), k.value))
  {
  }
}
