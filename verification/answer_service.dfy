/** Retrieval followed by grounded generation, behind one call. */
module AnswerService {
  import opened Outcomes
  import opened Texts
  import opened SupportState
  import opened DecisionEngine
  import Grounding

  const MAX_GENERATION_CONTEXT := 30_000

  /** Generation failures keep their own type; Escapes are exceptions no caller handles. */
  datatype AnswerError =
    | UnsupportedDecision | InvalidRetrievalDecision | UnsupportedKind
    | Generation(e: Grounding.GenerationError)
    | Escapes(exn: Exn)

  datatype Answered = Answered(evidence: seq<Evidence>, generation: Grounding.Generation)

  /** retrieval is the mapped evidence, or None when a retrieval component raises. */
  function Answer(message: string, context: Option<string>, d: DecisionResult, retrieval: Option<seq<Evidence>>,
                  reply: Grounding.Reply): Result<Answered, AnswerError>
  {
    if Strip(message) == "" then Err(Escapes(InvalidValue))
    else
      match ResolveKind(d)
      case Err(WrongDecision) => Err(UnsupportedDecision)
      case Err(InvalidKind) => Err(InvalidRetrievalDecision)
      case Ok(OperationalKind) => Err(UnsupportedKind)
      case Ok(KnowledgeKind) => AnswerFromKnowledge(context, retrieval, reply)
  }

  function AnswerFromKnowledge(context: Option<string>, retrieval: Option<seq<Evidence>>, reply: Grounding.Reply):
    Result<Answered, AnswerError>
  {
    if retrieval.None? then Err(Escapes(RetrievalDefect))
    else if context.Some? && |Strip(context.value)| > MAX_GENERATION_CONTEXT then Err(Escapes(ContextTooLong))
    else
      match Grounding.Grounds(retrieval.value, reply)
      case Err(e) => Err(Generation(e))
      case Ok(g) => Ok(Answered(retrieval.value, g))
  }

  /**
    After a decision of the engine the service can only fail in retrieval, on an oversized context, or
    in generation: the three routing errors are unreachable.
   */
  lemma RoutingErrorsAreUnreachable(threshold: real, r: IntentResult, message: string, context: Option<string>,
                                    retrieval: Option<seq<Evidence>>, reply: Grounding.Reply)
    requires r.Valid() && Strip(message) == message != ""
    requires Decide(threshold, r).Ok? && Decide(threshold, r).value.decision == RetrieveInformation
    ensures Answer(message, context, Decide(threshold, r).value, retrieval, reply)
              == AnswerFromKnowledge(context, retrieval, reply)
  {
    RetrievalDecisionsResolve(threshold, r);
  }
}
