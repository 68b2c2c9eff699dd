/** The execution state of one support workflow, its stage check, and the copying transitions. */
module SupportState {
  import opened Outcomes
  import opened Texts

  type Time = int

  // ----- Vocabulary -----

  datatype Intent =
    | RefundRequest | PaymentIssue | OrderStatus | ShippingIssue | Cancellation | SubscriptionIssue | AccountIssue
    | ReturnExchange | PrivacySecurity | GeneralQuestion | Conversational | OutOfScope | Unknown

  datatype Signal = ExplicitHumanRequest | SevereDissatisfaction

  datatype IntentResult = IntentResult(
    intent: Intent, confidence: real, orderId: Option<string>, needsClarification: bool, signals: seq<Signal>)
  {
    predicate Valid() {
      && 0.0 <= confidence <= 1.0
      && (intent == Unknown ==> needsClarification)
      && (forall i, j :: 0 <= i < j < |signals| ==> signals[i] != signals[j])
    }
  }

  datatype DecisionType = AnswerDirectly | RetrieveInformation | PerformAction | AskClarification | Escalate

  datatype DecisionReason =
    | DirectInformationalResponse | PolicyRetrievalRequired | OperationalLookupRequired | OperationalLookupUnavailable
    | MissingRequiredInformation | LowIntentConfidence | UnknownIntent | ActionRequestDetected | HumanApprovalRequired
    | CustomerRequestedHuman | SevereCustomerDissatisfaction | SecuritySensitiveRequest | UnsupportedRequest
    | PolicyConflict | KnowledgeUnavailable

  datatype Meta = Text(text: string) | Flag(flag: bool)

  datatype DecisionResult = DecisionResult(
    decision: DecisionType, reason: DecisionReason, confidence: real, required: seq<string>,
    metadata: map<string, Meta>)

  datatype SourceType = Knowledge | Operational | System

  datatype Evidence = Evidence(
    source: SourceType, content: string, sourceId: Option<string>, title: Option<string>, section: Option<string>)

  datatype Disposition = Pass | Refuse | EscalateResponse

  datatype GuardrailReason =
    | SafeResponse | MissingGeneratedResponse | DecisionResponseMismatch | UnsupportedKnowledgeClaim
    | UnsupportedOperationalClaim | InvalidCitationReference | SensitiveActionClaim | PromptManipulationAttempt
    | SafetyRestriction

  datatype EscalationSource = FromDecision | FromGuardrail | FromSystem

  datatype EscalationReason = BecauseOf(decision: DecisionReason) | BecauseOfGuardrail(guardrail: GuardrailReason)

  datatype Stage =
    | Received | ContextBuilt | IntentClassified | DecisionMade | RetrievalCompleted | ResponseGenerated
    | GuardrailsCompleted | ActionProposed | ActionCompleted | Escalated | Completed | Failed

  datatype FailureCode =
    | IntentInvalidInput | IntentProviderTimeout | IntentInvalidResponse | IntentProviderFailure
    | IntentClassificationFailure
    | DecisionEngineFailure | DecisionWorkflowUnsupported | DirectResponseUnavailable | AnswerServiceUnavailable
    | RetrievalKindUnsupported | RetrievalDecisionInvalid | GenerationProviderTimeout | GenerationProviderFailure
    | GenerationInvalidResponse | GenerationFailure | GroundingStatusInvalid

  datatype PipelineError = PipelineError(code: FailureCode, stage: Stage, retryable: bool)

  /** Exceptions that leave the pipeline, and the two kinds its own checks raise. */
  datatype Exn = BrokenInvariant | InvalidValue | ClassifierDefect | RetrievalDefect | ContextTooLong | PolicyDefect

  // ----- The state -----

  datatype AIState = AIState(
    message: string, context: Option<string>, stage: Stage, intent: Option<IntentResult>,
    decision: Option<DecisionResult>,
    evidence: seq<Evidence>, response: Option<string>, notice: Option<string>, disposition: Option<Disposition>,
    guardrailReason: Option<GuardrailReason>, guardrailPolicy: Option<string>,
    escalationSource: Option<EscalationSource>,
    escalationReason: Option<EscalationReason>, errors: seq<PipelineError>, completedAt: Option<Time>)

  const MAX_MESSAGE := 20_000
  const MAX_CONTEXT := 50_000
  const MAX_NOTICE := 2_000

  function Normalized(context: Option<string>): Option<string> {
    if context.None? || Strip(context.value) == "" then None else Some(Strip(context.value))
  }

  /** Building the initial state validates and trims the input. */
  function Receive(message: string, context: Option<string>): Result<AIState, Exn> {
    var m := Strip(message);
    if m == "" || |m| > MAX_MESSAGE || (context.Some? && |Strip(context.value)| > MAX_CONTEXT) then Err(InvalidValue)
    else Ok(AIState(m, Normalized(context), Received, None, None, [], None, None, None, None, None, None, None, [],
        None))
  }

  /** The stage check, which runs when a state is constructed and never when one is copied. */
  predicate ValidStage(s: AIState) {
    && (s.stage !in {Received, ContextBuilt, Failed} ==> s.intent.Some?)
    && (s.stage !in {Received, ContextBuilt, IntentClassified, Failed} ==> s.decision.Some?)
    && (s.stage in {ResponseGenerated, GuardrailsCompleted} ==> s.response.Some?)
    && (s.disposition.None? ==> s.guardrailReason.None? && s.guardrailPolicy.None?)
    && (s.disposition.Some? ==> s.guardrailReason.Some?)
    && (s.stage == GuardrailsCompleted ==> s.disposition in {Some(Pass), Some(Refuse)})
    && (s.stage == Escalated ==>
      && s.escalationSource.Some? && s.escalationReason.Some? && s.notice.Some?
      && (s.escalationSource.value == FromGuardrail ==>
           s.disposition == Some(EscalateResponse) && s.guardrailReason.Some?))
    && (s.stage == Completed ==> s.completedAt.Some?)
    && (s.stage == Failed ==> s.errors != [])
  }

  /** What copying needs on top of the stage check to keep it. */
  predicate Inv(s: AIState) {
    ValidStage(s) && (s.decision.Some? ==> s.intent.Some?)
  }

  // ----- Transitions -----

  function WithIntent(s: AIState, r: IntentResult): AIState {
    s.(intent := Some(r), stage := IntentClassified)
  }

  function WithDecision(s: AIState, d: DecisionResult): Result<AIState, Exn> {
    if s.intent.None? then Err(InvalidValue) else Ok(s.(decision := Some(d), stage := DecisionMade))
  }

  function WithEvidence(s: AIState, evidence: seq<Evidence>): Result<AIState, Exn> {
    if s.decision.None? then Err(InvalidValue) else Ok(s.(evidence := evidence, stage := RetrievalCompleted))
  }

  function WithResponse(s: AIState, response: string): Result<AIState, Exn> {
    if s.decision.None? || Strip(response) == "" then Err(InvalidValue)
    else Ok(s.(response := Some(Strip(response)), stage := ResponseGenerated))
  }

  function WithGuardrails(s: AIState, d: Disposition, reason: GuardrailReason,
      policy: Option<string>): Result<AIState, Exn>
  {
    if s.stage != ResponseGenerated || s.response.None? || d == EscalateResponse || BlankPolicy(policy)
    then Err(InvalidValue)
    else Ok(s.(stage := GuardrailsCompleted, disposition := Some(d), guardrailReason := Some(reason),
               guardrailPolicy := Trimmed(policy)))
  }

  function WithEscalation(s: AIState, source: EscalationSource, reason: EscalationReason, notice: string, now: Time):
    Result<AIState, Exn>
  {
    var text := Collapse(notice);
    if s.intent.None? || s.decision.None? || text == "" || |text| > MAX_NOTICE then Err(InvalidValue)
    else Ok(s.(stage := Escalated, escalationSource := Some(source), escalationReason := Some(reason),
               notice := Some(text), completedAt := Some(now)))
  }

  /** The copy that records the rejection, before the escalation itself. */
  function Rejected(s: AIState, reason: GuardrailReason, policy: Option<string>): AIState {
    s.(disposition := Some(EscalateResponse), guardrailReason := Some(reason), guardrailPolicy := Trimmed(policy))
  }

  function WithGuardrailEscalation(s: AIState, reason: GuardrailReason, notice: string, policy: Option<string>,
    now: Time):
    Result<AIState, Exn>
  {
    var text := Collapse(notice);
    if s.stage != ResponseGenerated || text == "" || |text| > MAX_NOTICE || BlankPolicy(policy) then Err(InvalidValue)
    else WithEscalation(Rejected(s, reason, policy), FromGuardrail, BecauseOfGuardrail(reason), text, now)
  }

  function WithError(s: AIState, e: PipelineError, now: Time): AIState {
    s.(errors := s.errors + [e], stage := Failed, completedAt := Some(now))
  }

  function Complete(s: AIState, now: Time): Result<AIState, Exn> {
    if s.intent.None? || s.decision.None? then Err(InvalidValue)
    else Ok(s.(stage := Completed, completedAt := Some(now)))
  }

  predicate BlankPolicy(policy: Option<string>) {
    policy.Some? && Strip(policy.value) == ""
  }

  function Trimmed(policy: Option<string>): Option<string> {
    if policy.None? then None else Some(Strip(policy.value))
  }

  // ----- Transitions in any order -----

  datatype Transition =
    | ToIntent(r: IntentResult)
    | ToDecision(d: DecisionResult)
    | ToEvidence(evidence: seq<Evidence>)
    | ToResponse(text: string)
    | ToGuardrails(disposition: Disposition, reason: GuardrailReason, policy: Option<string>)
    | ToEscalation(source: EscalationSource, why: EscalationReason, text: string, now: Time)
    | ToGuardrailEscalation(reason: GuardrailReason, text: string, policy: Option<string>, now: Time)
    | ToError(e: PipelineError, now: Time)
    | ToCompleted(now: Time)

  function Apply(s: AIState, t: Transition): Result<AIState, Exn> {
    match t
    case ToIntent(r) => Ok(WithIntent(s, r))
    case ToDecision(d) => WithDecision(s, d)
    case ToEvidence(evidence) => WithEvidence(s, evidence)
    case ToResponse(text) => WithResponse(s, text)
    case ToGuardrails(d, reason, policy) => WithGuardrails(s, d, reason, policy)
    case ToEscalation(source, why, text, now) => WithEscalation(s, source, why, text, now)
    case ToGuardrailEscalation(reason, text, policy, now) => WithGuardrailEscalation(s, reason, text, policy, now)
    case ToError(e, now) => Ok(WithError(s, e, now))
    case ToCompleted(now) => Complete(s, now)
  }

  /** A bare escalation that blames the guardrails although no guardrail asked for one. */
  predicate Unfounded(s: AIState, t: Transition) {
    t.ToEscalation? && t.source == FromGuardrail && s.disposition != Some(EscalateResponse)
  }

  /**
    From a sound state every transition that does not raise yields a sound state, except exactly the
    unfounded guardrail escalation, whose result the stage check would refuse.
   */
  lemma TransitionKeepsInvIff(s: AIState, t: Transition)
    requires Inv(s) && Apply(s, t).Ok?
    ensures Inv(Apply(s, t).value) <==> !Unfounded(s, t)
    ensures ValidStage(Apply(s, t).value) <==> !Unfounded(s, t)
  {
  }

  /** The stage check alone is not inductive: a copy of a state that passes it can fail it. */
  lemma StageCheckIsNotInductive(d: DecisionResult)
    ensures exists s, t :: ValidStage(s) && Apply(s, t).Ok? && !Unfounded(s, t) && !ValidStage(Apply(s, t).value)
  {
    var s := AIState("m", None, Received, None, Some(d), [], None, None, None, None, None, None, None, [], None);
    var t := ToEvidence([]);
    assert ValidStage(s) && Apply(s, t).Ok? && !Unfounded(s, t) && !ValidStage(Apply(s, t).value);
  }

  lemma SingleLetter(c: char)
    requires !IsSpace(c)
    ensures Strip([c]) == [c] && Collapse([c]) == [c]
  {
    assert WordLength([c]) == 1 && [c][..1] == [c] && [c][1..] == "";
    assert Words([c]) == [[c]];
  }

  /**
    The unfounded escalation happens to an ordinary routed state: the copy says escalated by guardrails
    nobody asked.
   */
  lemma UnfoundedEscalationExample(r: IntentResult, d: DecisionResult, why: EscalationReason, now: Time)
    ensures var s := Reach(Receive("m", None).value, [ToIntent(r), ToDecision(d)]);
            && Receive("m", None).Ok? && s.Some? && Inv(s.value)
            && var e := WithEscalation(s.value, FromGuardrail, why, "n", now);
               e.Ok? && e.value.stage == Escalated && !ValidStage(e.value)
  {
    SingleLetter('m');
    SingleLetter('n');
    var (s, run) := (Receive("m", None).value, [ToIntent(r), ToDecision(d)]);
    assert run[..1] == [ToIntent(r)] && run[..1][..0] == [];
    assert Reach(s, run[..1][..0]) == Some(s);
    assert Reach(s, run[..1]) == Some(WithIntent(s, r));
    ReachableStatesAreValid("m", None, run);
  }

  /** The state after a sequence of transitions, none of which raises or is unfounded. */
  function Reach(s: AIState, run: seq<Transition>): Option<AIState> {
    if run == [] then Some(s)
    else
      var before := Reach(s, run[..|run| - 1]);
      var t := run[|run| - 1];
      if before.None? || Unfounded(before.value, t) || Apply(before.value, t).Err? then None
      else Some(Apply(before.value, t).value)
  }

  lemma {:induction false} ReachableStatesAreValid(message: string, context: Option<string>, run: seq<Transition>)
    requires Receive(message, context).Ok?
    requires Reach(Receive(message, context).value, run).Some?
    ensures Inv(Reach(Receive(message, context).value, run).value)
  {
    if run != [] {
      ReachableStatesAreValid(message, context, run[..|run| - 1]);
      TransitionKeepsInvIff(Reach(Receive(message, context).value, run[..|run| - 1]).value, run[|run| - 1]);
    }
  }

  // ----- What a state remembers -----

  datatype Field = TheIntent | TheDecision | TheEvidence | TheResponse | TheVerdict | TheEscalation | TheEnd

  predicate Writes(t: Transition, f: Field) {
    match f
    case TheIntent => t.ToIntent?
    case TheDecision => t.ToDecision?
    case TheEvidence => t.ToEvidence?
    case TheResponse => t.ToResponse?
    case TheVerdict => t.ToGuardrails? || t.ToGuardrailEscalation?
    case TheEscalation => t.ToEscalation? || t.ToGuardrailEscalation?
    case TheEnd => t.ToEscalation? || t.ToGuardrailEscalation? || t.ToError? || t.ToCompleted?
  }

  function LastWriter(run: seq<Transition>, f: Field): Option<Transition> {
    if run == [] then None
    else if Writes(run[|run| - 1], f) then Some(run[|run| - 1])
    else LastWriter(run[..|run| - 1], f)
  }

  function ErrorsOf(run: seq<Transition>): seq<PipelineError> {
    if run == [] then []
    else ErrorsOf(run[..|run| - 1]) + if run[|run| - 1].ToError? then [run[|run| - 1].e] else []
  }

  function StageAfter(t: Transition): Stage {
    match t
    case ToIntent(_) => IntentClassified
    case ToDecision(_) => DecisionMade
    case ToEvidence(_) => RetrievalCompleted
    case ToResponse(_) => ResponseGenerated
    case ToGuardrails(_, _, _) => GuardrailsCompleted
    case ToEscalation(_, _, _, _) => Escalated
    case ToGuardrailEscalation(_, _, _, _) => Escalated
    case ToError(_, _) => Failed
    case ToCompleted(_) => Completed
  }

  /** The fields hold what this last writer wrote, or what a new state has. */
  predicate Holds(s: AIState, f: Field, last: Option<Transition>) {
    match f
    case TheIntent => s.intent == (match last case Some(ToIntent(r)) => Some(r) case _ => None)
    case TheDecision => s.decision == (match last case Some(ToDecision(d)) => Some(d) case _ => None)
    case TheEvidence => s.evidence == (match last case Some(ToEvidence(evidence)) => evidence case _ => [])
    case TheResponse => s.response == (match last case Some(ToResponse(text)) => Some(Strip(text)) case _ => None)
    case TheVerdict =>
      (match last
       case Some(ToGuardrails(d, reason, policy)) =>
         s.disposition == Some(d) && s.guardrailReason == Some(reason) && s.guardrailPolicy == Trimmed(policy)
       case Some(ToGuardrailEscalation(reason, _, policy, _)) =>
         && s.disposition == Some(EscalateResponse) && s.guardrailReason == Some(reason)
         && s.guardrailPolicy == Trimmed(policy)
       case _ => s.disposition == None && s.guardrailReason == None && s.guardrailPolicy == None)
    case TheEscalation =>
      (match last
       case Some(ToEscalation(source, why, text, _)) =>
         s.escalationSource == Some(source) && s.escalationReason == Some(why) && s.notice == Some(Collapse(text))
       case Some(ToGuardrailEscalation(reason, text, _, _)) =>
         && s.escalationSource == Some(FromGuardrail) && s.escalationReason == Some(BecauseOfGuardrail(reason))
         && s.notice == Some(Collapse(text))
       case _ => s.escalationSource == None && s.escalationReason == None && s.notice == None)
    case TheEnd =>
      s.completedAt == (match last
                        case Some(ToEscalation(_, _, _, now)) => Some(now)
                        case Some(ToGuardrailEscalation(_, _, _, now)) => Some(now)
                        case Some(ToError(_, now)) => Some(now)
                        case Some(ToCompleted(now)) => Some(now)
                        case _ => None)
  }

  lemma FieldStep(s: AIState, t: Transition, f: Field, last: Option<Transition>)
    requires Apply(s, t).Ok? && Holds(s, f, last)
    ensures Holds(Apply(s, t).value, f, if Writes(t, f) then Some(t) else last)
  {
    if t.ToGuardrailEscalation? {
      CollapseKeepsTheWords(t.text);
    }
  }

  /** The message stays the received one, the stage is the last transition's, the errors are all errors in order. */
  lemma StageStep(s: AIState, t: Transition)
    requires Apply(s, t).Ok?
    ensures var after := Apply(s, t).value;
            && after.message == s.message && after.context == s.context && after.stage == StageAfter(t)
            && after.errors == s.errors + if t.ToError? then [t.e] else []
  {
  }

  /**
    Every field of a state holds what the last transition that writes it wrote, the errors are all
    errors in order, the stage is that of the last transition, and the message is the received one.
   */
  lemma {:induction false} StatesRememberTheirRun(message: string, context: Option<string>, run: seq<Transition>)
    requires Receive(message, context).Ok?
    requires Reach(Receive(message, context).value, run).Some?
    ensures var s := Reach(Receive(message, context).value, run).value;
            && s.message == Strip(message) && s.context == Normalized(context) && s.errors == ErrorsOf(run)
            && s.stage == (if run == [] then Received else StageAfter(run[|run| - 1]))
            && forall f :: Holds(s, f, LastWriter(run, f))
  {
    if run != [] {
      var (before, t) := (run[..|run| - 1], run[|run| - 1]);
      StatesRememberTheirRun(message, context, before);
      var s := Reach(Receive(message, context).value, before).value;
      StageStep(s, t);
      forall f ensures Holds(Apply(s, t).value, f, LastWriter(run, f)) {
        FieldStep(s, t, f, LastWriter(before, f));
      }
    }
  }

  /** Which transitions a state takes: by what it has, its stage, and the texts handed in. */
  lemma TransitionsTakenIff(s: AIState, t: Transition)
    ensures Apply(s, t).Ok? <==>
              && (t.ToDecision? ==> s.intent.Some?)
              && (t.ToEvidence? ==> s.decision.Some?)
              && (t.ToResponse? ==> s.decision.Some? && Strip(t.text) != "")
              && (t.ToCompleted? || t.ToEscalation? || t.ToGuardrailEscalation? ==> s.intent.Some? && s.decision.Some?)
              && (t.ToGuardrails? ==> s.response.Some? && t.disposition in {Pass, Refuse})
              && (t.ToGuardrails? || t.ToGuardrailEscalation? ==>
                    s.stage == ResponseGenerated && (t.policy.Some? ==> Strip(t.policy.value) != ""))
              && (t.ToEscalation? || t.ToGuardrailEscalation? ==>
                    Strip(t.text) != "" && |Collapse(t.text)| <= MAX_NOTICE)
    ensures Apply(s, t).Err? ==> Apply(s, t).error == InvalidValue
  {
    if t.ToEscalation? || t.ToGuardrailEscalation? {
      BlankEitherWay(t.text);
      CollapseKeepsTheWords(t.text);
    }
  }
}
