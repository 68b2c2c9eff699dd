/**
  The orchestrator as it runs: methods that rebind the state stage by stage and report to an observer.
  Each does exactly what its stage of the run describes.
 */
module OrchestratorService {
  import opened Outcomes
  import opened Texts
  import opened SupportState
  import opened DecisionEngine
  import opened AnswerService
  import opened Orchestrator
  import opened OrchestratorSafety
  import DirectResponses
  import Guardrails

  /** events is what the observer has been told; trail is every state that existed. */
  class AIOrchestrator {
    const setup: Setup
    var events: seq<Event>
    ghost var trail: seq<AIState>

    constructor (setup: Setup)
      ensures this.setup == setup && events == [] && trail == []
    {
      this.setup := setup;
      events, trail := [], [];
    }

    /** Since the earlier log and trail, exactly this run has happened. */
    ghost predicate Did(events0: seq<Event>, trail0: seq<AIState>, r: Run, out: Outcome)
      reads this
    {
      out == r.outcome && events == events0 + r.events && trail == trail0 + r.states
    }

    method Emit(e: Event)
      modifies this`events
      ensures events == old(events) + [e]
    {
      events := events + [e];
    }

    ghost method Keep(s: AIState)
      modifies this`trail
      ensures trail == old(trail) + [s]
    {
      trail := trail + [s];
    }

    /** A finished prefix followed by the rest is the whole. */
    lemma Continued(events0: seq<Event>, trail0: seq<AIState>, first: Run, next: Run, out: Outcome)
      requires Did(events0 + first.events, trail0 + first.states, next, out)
      ensures Did(events0, trail0, first.Then(next), out)
    {
      assert events0 + first.events + next.events == events0 + (first.events + next.events);
      assert trail0 + first.states + next.states == trail0 + (first.states + next.states);
    }

    method ReportFailure(s: AIState, stage: Stage, code: FailureCode, retryable: bool, now: Time) returns (out: Outcome)
      modifies this
      ensures Did(old(events), old(trail), Fail(s, stage, code, retryable, now), out)
    {
      var failed := WithError(s, PipelineError(code, stage, retryable), now);
      Keep(failed);
      Emit(Broke(stage));
      out := Done(failed);
    }

    method ClassifyIntent(w: World, s: AIState) returns (out: Outcome)
      modifies this
      ensures Did(old(events), old(trail), IntentStage(w, s), out)
    {
      ghost var started := Run(Done(s), [], [Started(IntentClassified)]);
      ghost var events0, trail0 := events, trail;
      Emit(Started(IntentClassified));
      assert trail0 + [] == trail0;
      if w.route.Some? {
        var next := WithIntent(s, w.route.value);
        Keep(next);
        Emit(Finished(IntentClassified));
        return Done(next);
      }
      match w.classifier
      case Classified(r) =>
        var next := WithIntent(s, r);
        Keep(next);
        Emit(Finished(IntentClassified));
        return Done(next);
      case InvalidInput =>
        out := ReportFailure(s, IntentClassified, IntentInvalidInput, false, w.now);
        Continued(events0, trail0, started, Fail(s, IntentClassified, IntentInvalidInput, false, w.now), out);
      case ClassifierTimeout =>
        out := ReportFailure(s, IntentClassified, IntentProviderTimeout, true, w.now);
        Continued(events0, trail0, started, Fail(s, IntentClassified, IntentProviderTimeout, true, w.now), out);
      case InvalidReply =>
        out := ReportFailure(s, IntentClassified, IntentInvalidResponse, true, w.now);
        Continued(events0, trail0, started, Fail(s, IntentClassified, IntentInvalidResponse, true, w.now), out);
      case ClassifierDown =>
        out := ReportFailure(s, IntentClassified, IntentProviderFailure, true, w.now);
        Continued(events0, trail0, started, Fail(s, IntentClassified, IntentProviderFailure, true, w.now), out);
      case ClassifierError =>
        out := ReportFailure(s, IntentClassified, IntentClassificationFailure, false, w.now);
        Continued(events0, trail0, started, Fail(s, IntentClassified, IntentClassificationFailure, false, w.now), out);
      case ClassifierCrash => return Raised(ClassifierDefect);
    }

    method MakeDecision(s: AIState, now: Time) returns (out: Outcome)
      modifies this
      ensures Did(old(events), old(trail), DecisionStage(setup, s, now), out)
    {
      if s.intent.None? {
        return Raised(BrokenInvariant);
      }
      ghost var events0, trail0 := events, trail;
      Emit(Started(DecisionMade));
      assert trail0 + [] == trail0;
      var decided := Decide(setup.threshold, s.intent.value);
      if decided.Ok? {
        var next := WithDecision(s, decided.value);
        if next.Ok? {
          Keep(next.value);
          Emit(Finished(DecisionMade));
          return Done(next.value);
        }
      }
      out := ReportFailure(s, DecisionMade, DecisionEngineFailure, false, now);
      Continued(events0, trail0, Run(Done(s), [], [Started(DecisionMade)]),
          Fail(s, DecisionMade, DecisionEngineFailure, false, now), out);
    }

    method CompleteGeneration(s: AIState, answer: string) returns (out: Outcome)
      modifies this
      ensures Did(old(events), old(trail), Generated(s, answer), out)
    {
      Emit(Started(ResponseGenerated));
      var next := WithResponse(s, answer);
      if next.Err? {
        return Raised(next.error);
      }
      Keep(next.value);
      Emit(Finished(ResponseGenerated));
      return Done(next.value);
    }

    method EscalateFromGuardrail(s: AIState, v: Guardrails.Verdict, now: Time) returns (out: Outcome)
      modifies this
      ensures Did(old(events), old(trail), Rejecting(setup, s, v, now), out)
    {
      var next := WithGuardrailEscalation(s, v.reason, setup.texts(GuardrailNotice), v.policy, now);
      if next.Err? {
        return Raised(next.error);
      }
      Keep(Rejected(s, v.reason, v.policy));
      Keep(next.value);
      Emit(Finished(GuardrailsCompleted));
      Emit(Started(Escalated));
      Emit(Finished(Escalated));
      return Done(next.value);
    }

    method CompleteSafeRefusal(s: AIState, v: Guardrails.Verdict) returns (out: Outcome)
      modifies this
      ensures Did(old(events), old(trail), Refusing(setup, s, v), out)
    {
      var refusal := WithResponse(s, setup.texts(RefusalText));
      if refusal.Err? {
        return Raised(refusal.error);
      }
      Keep(refusal.value);
      var next := WithGuardrails(refusal.value, Refuse, v.reason, v.policy);
      Keep(next.value);
      Emit(Finished(GuardrailsCompleted));
      return Done(next.value);
    }

    method EvaluateGuardrails(s: AIState, now: Time) returns (out: Outcome)
      modifies this
      ensures Did(old(events), old(trail), GuardrailStage(setup, s, now), out)
    {
      if s.stage != ResponseGenerated || s.decision.None? || s.response.None? {
        return Raised(BrokenInvariant);
      }
      if setup.policies.None? {
        return Done(s);
      }
      Emit(Started(GuardrailsCompleted));
      var judged := Guardrails.Evaluate(setup.policies.value, ContextOf(s));
      if judged.Err? {
        return Raised(judged.error);
      }
      var v := judged.value;
      match v.outcome
      case Pass =>
        var next := WithGuardrails(s, Pass, v.reason, v.policy);
        if next.Err? {
          return Raised(next.error);
        }
        Keep(next.value);
        Emit(Finished(GuardrailsCompleted));
        return Done(next.value);
      case EscalateResponse => out := EscalateFromGuardrail(s, v, now);
      case Refuse => out := CompleteSafeRefusal(s, v);
    }

    method Respond(s: AIState, t: Template, now: Time) returns (out: Outcome)
      modifies this
      ensures Did(old(events), old(trail), OwnedResponse(setup, s, t, now), out)
    {
      ghost var events0, trail0 := events, trail;
      out := CompleteGeneration(s, setup.texts(t));
      if out.Done? && out.state.stage != Failed {
        ghost var first := Generated(s, setup.texts(t));
        var generated := out.state;
        out := EvaluateGuardrails(generated, now);
        Continued(events0, trail0, first, GuardrailStage(setup, generated, now), out);
      }
    }

    method AnswerDirectly(s: AIState, now: Time) returns (out: Outcome)
      modifies this
      ensures Did(old(events), old(trail), DirectAnswer(setup, s, now), out)
    {
      if s.intent.None? || s.decision.None? || s.decision.value.decision != DecisionType.AnswerDirectly {
        return Raised(BrokenInvariant);
      }
      var kind := DirectResponses.Resolve(setup.patterns, s.message, s.intent.value, s.decision.value);
      if kind.None? {
        out := ReportFailure(s, ResponseGenerated, DirectResponseUnavailable, false, now);
      } else {
        out := Respond(s, DirectText(kind.value), now);
      }
    }

    method RequestClarification(s: AIState, now: Time) returns (out: Outcome)
      modifies this
      ensures Did(old(events), old(trail), Clarification(setup, s, now), out)
    {
      if s.decision.None? || s.decision.value.decision != AskClarification {
        return Raised(BrokenInvariant);
      }
      var intent := if s.intent.Some? then Some(s.intent.value.intent) else None;
      out := Respond(s, ClarificationTemplate(intent, s.decision.value.required), now);
    }

    method RequestReview(s: AIState, source: EscalationSource, reason: EscalationReason, t: Template, now: Time)
      returns (out: Outcome)
      modifies this
      ensures Did(old(events), old(trail), Stepped(WithEscalation(s, source, reason, setup.texts(t), now), Escalated),
                out)
    {
      Emit(Started(Escalated));
      var next := WithEscalation(s, source, reason, setup.texts(t), now);
      if next.Err? {
        return Raised(next.error);
      }
      Keep(next.value);
      Emit(Finished(Escalated));
      return Done(next.value);
    }

    method EscalateFromDecision(s: AIState, now: Time) returns (out: Outcome)
      modifies this
      ensures Did(old(events), old(trail), DecisionEscalation(setup, s, now), out)
    {
      if s.decision.None? {
        return Raised(BrokenInvariant);
      }
      var reason := s.decision.value.reason;
      out := RequestReview(s, FromDecision, BecauseOf(reason), NoticeTemplate(reason), now);
    }

    method EscalateFromKnowledgeGap(s: AIState, now: Time) returns (out: Outcome)
      modifies this
      ensures Did(old(events), old(trail), KnowledgeGapEscalation(setup, s, now), out)
    {
      if s.stage != ResponseGenerated || s.intent.None? || s.decision.None?
          || s.decision.value.decision != RetrieveInformation {
        return Raised(BrokenInvariant);
      }
      out := RequestReview(s, FromSystem, BecauseOf(KnowledgeUnavailable), KnowledgeGapNotice, now);
    }

    method UseAnswer(s: AIState, a: Answered, now: Time) returns (out: Outcome)
      modifies this
      ensures Did(old(events), old(trail), AnswerRun(setup, s, a, now), out)
    {
      ghost var events0, trail0 := events, trail;
      var step := WithEvidence(s, a.evidence);
      if step.Err? {
        return Raised(step.error);
      }
      var retrieved := step.value;
      Keep(retrieved);
      Emit(Finished(RetrievalCompleted));
      ghost var first := Reached(retrieved, [Finished(RetrievalCompleted)]);
      out := CompleteGeneration(retrieved, a.generation.answer);
      Continued(events0, trail0, first, Generated(retrieved, a.generation.answer), out);
      if out.Done? && out.state.stage != Failed {
        var generated := out.state;
        match a.generation.status
        case InsufficientEvidence => out := EscalateFromKnowledgeGap(generated, now);
        case NotRequired => out := ReportFailure(generated, ResponseGenerated, GroundingStatusInvalid, false, now);
        case Grounded => out := EvaluateGuardrails(generated, now);
        Continued(events0, trail0, first.Then(Generated(retrieved, a.generation.answer)),
            ByGrounding(setup, generated, a.generation.status, now), out);
      }
    }

    method ReportAnswerFailure(s: AIState, e: AnswerError, now: Time) returns (out: Outcome)
      modifies this
      ensures Did(old(events), old(trail), AnswerFailure(s, e, now), out)
    {
      match e
      case UnsupportedKind => out := ReportFailure(s, RetrievalCompleted, RetrievalKindUnsupported, false, now);
      case InvalidRetrievalDecision =>
        out := ReportFailure(s, RetrievalCompleted, RetrievalDecisionInvalid, false, now);
      case UnsupportedDecision => out := ReportFailure(s, RetrievalCompleted, RetrievalDecisionInvalid, false, now);
      case Generation(Timeout) => out := ReportFailure(s, ResponseGenerated, GenerationProviderTimeout, true, now);
      case Generation(ProviderFailure) =>
        out := ReportFailure(s, ResponseGenerated, GenerationProviderFailure, true, now);
      case Generation(InvalidResponse) =>
        out := ReportFailure(s, ResponseGenerated, GenerationInvalidResponse, true, now);
      case Generation(OtherFailure) => out := ReportFailure(s, ResponseGenerated, GenerationFailure, false, now);
      case Escapes(exn) => return Raised(exn);
    }

    method RetrieveAndGenerate(w: World, s: AIState) returns (out: Outcome)
      modifies this
      ensures Did(old(events), old(trail), Retrieval(setup, w, s), out)
    {
      if s.intent.None? || s.decision.None? {
        return Raised(BrokenInvariant);
      }
      if !setup.answers {
        out := ReportFailure(s, RetrievalCompleted, AnswerServiceUnavailable, false, w.now);
        return;
      }
      ghost var events0, trail0 := events, trail;
      ghost var started := Run(Done(s), [], [Started(RetrievalCompleted)]);
      Emit(Started(RetrievalCompleted));
      assert trail0 + [] == trail0;
      match Answer(s.message, s.context, s.decision.value, w.retrieval, w.reply)
      case Err(e) =>
        out := ReportAnswerFailure(s, e, w.now);
        Continued(events0, trail0, started, AnswerFailure(s, e, w.now), out);
      case Ok(a) =>
        out := UseAnswer(s, a, w.now);
        Continued(events0, trail0, started, AnswerRun(setup, s, a, w.now), out);
    }

    method ExecuteDecision(w: World, s: AIState) returns (out: Outcome)
      modifies this
      ensures Did(old(events), old(trail), Execution(setup, w, s), out)
    {
      if s.decision.None? {
        return Raised(BrokenInvariant);
      }
      match s.decision.value.decision
      case AnswerDirectly => out := AnswerDirectly(s, w.now);
      case RetrieveInformation => out := RetrieveAndGenerate(w, s);
      case AskClarification => out := RequestClarification(s, w.now);
      case Escalate => out := EscalateFromDecision(s, w.now);
      case PerformAction => out := ReportFailure(s, DecisionMade, DecisionWorkflowUnsupported, false, w.now);
    }

    /** The stages after reception. */
    method RunStages(w: World, s: AIState) returns (out: Outcome)
      modifies this
      ensures Did(old(events), old(trail), Pipeline(setup, w, s), out)
    {
      ghost var (e1, t1) := (events, trail);
      out := ClassifyIntent(w, s);
      if out.Done? && out.state.stage != Failed {
        var classified := out.state;
        ghost var (e2, t2) := (events, trail);
        out := MakeDecision(classified, w.now);
        if out.Done? && out.state.stage != Failed {
          var decided := out.state;
          out := ExecuteDecision(w, decided);
          Continued(e2, t2, DecisionStage(setup, classified, w.now), Execution(setup, w, decided), out);
        }
        Continued(e1, t1, IntentStage(w, s), Decided(setup, w, classified), out);
      }
    }

    /** What the run adds to the trail and where it ends is as safe as the run it follows. */
    lemma AddedIsFine(w: World, events0: seq<Event>, trail0: seq<AIState>, r: Run, out: Outcome)
      requires Did(events0, trail0, r, out) && Fine(setup, w, r)
      ensures trail0 <= trail && Fine(setup, w, Run(out, trail[|trail0|..], []))
    {
      assert trail[|trail0|..] == r.states;
    }

    /** The run, and with a sound configuration its guarantees: sound states, a closed ending, vouched-for text. */
    method ProcessMessage(w: World, message: string, context: Option<string>) returns (out: Outcome)
      modifies this
      ensures Did(old(events), old(trail), ProcessRun(setup, w, message, context), out)
      ensures old(trail) <= trail
      ensures setup.Valid() && w.Valid() ==> Fine(setup, w, Run(out, trail[|old(trail)|..], []))
    {
      ghost var (e0, t0) := (events, trail);
      var received := Receive(message, context);
      if received.Err? {
        out := Raised(received.error);
        assert e0 + [] == e0 && t0 + [] == t0;
      } else {
        var s := received.value;
        Keep(s);
        assert e0 + [] == e0;
        out := RunStages(w, s);
        Continued(e0, t0, Run(Done(s), [s], []), Pipeline(setup, w, s), out);
      }
      if setup.Valid() && w.Valid() {
        EveryRunIsFine(setup, w, message, context);
        AddedIsFine(w, e0, t0, ProcessRun(setup, w, message, context), out);
      }
    }
  }
}
