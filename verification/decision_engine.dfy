/** Deterministic routing: the intent registry, the decision record's own validation, and the engine. */
module DecisionEngine {
  import opened Outcomes
  import opened Texts
  import opened SupportState

  datatype RetrievalKind = KnowledgeKind | OperationalKind

  datatype Priority = Low | Normal | High | Urgent

  datatype Policy = Policy(
    decision: DecisionType, reason: DecisionReason, kind: Option<RetrievalKind>, actionable: bool, priority: Priority)
  {
    /** A policy names a retrieval source exactly when it retrieves. */
    predicate Valid() {
      kind.Some? <==> decision == RetrieveInformation
    }
  }

  function KnowledgePolicy(actionable: bool, priority: Priority): Policy {
    Policy(RetrieveInformation, PolicyRetrievalRequired, Some(KnowledgeKind), actionable, priority)
  }

  /** The registry, one entry per intent. */
  function PolicyOf(intent: Intent): (p: Policy)
    ensures p.Valid()
    ensures p.decision != PerformAction
    ensures p.kind != Some(OperationalKind)
  {
    match intent
    case RefundRequest => KnowledgePolicy(true, Normal)
    case PaymentIssue => KnowledgePolicy(true, Normal)
    case OrderStatus => Policy(Escalate, OperationalLookupUnavailable, None, true, Normal)
    case ShippingIssue => KnowledgePolicy(true, Normal)
    case Cancellation => KnowledgePolicy(true, Normal)
    case SubscriptionIssue => KnowledgePolicy(true, Normal)
    case AccountIssue => KnowledgePolicy(true, High)
    case ReturnExchange => KnowledgePolicy(true, Normal)
    case PrivacySecurity => Policy(Escalate, SecuritySensitiveRequest, None, false, Urgent)
    case GeneralQuestion => KnowledgePolicy(false, Normal)
    case Conversational => Policy(AnswerDirectly, DirectInformationalResponse, None, false, Normal)
    case OutOfScope => Policy(AnswerDirectly, UnsupportedRequest, None, false, Normal)
    case Unknown => Policy(AskClarification, UnknownIntent, None, false, Normal)
  }

  function IntentName(intent: Intent): string {
    match intent
    case RefundRequest => "refund_request"
    case PaymentIssue => "payment_issue"
    case OrderStatus => "order_status"
    case ShippingIssue => "shipping_issue"
    case Cancellation => "cancellation"
    case SubscriptionIssue => "subscription_issue"
    case AccountIssue => "account_issue"
    case ReturnExchange => "return_exchange"
    case PrivacySecurity => "privacy_security"
    case GeneralQuestion => "general_question"
    case Conversational => "conversational"
    case OutOfScope => "out_of_scope"
    case Unknown => "unknown"
  }

  function PriorityName(p: Priority): string {
    match p
    case Low => "low"
    case Normal => "normal"
    case High => "high"
    case Urgent => "urgent"
  }

  function KindName(k: RetrievalKind): string {
    match k
    case KnowledgeKind => "knowledge"
    case OperationalKind => "operational"
  }

  // ----- The decision record -----

  /** Trim every item, refuse blank ones, and keep the first of equal items. */
  function NormalizedItems(items: seq<string>): Result<seq<string>, Exn> {
    if items == [] then Ok([])
    else
      var before := NormalizedItems(items[..|items| - 1]);
      var clean := Strip(items[|items| - 1]);
      if before.Err? || clean == "" then Err(InvalidValue)
      else if clean in before.value then before
      else Ok(before.value + [clean])
  }

  /** Normalization succeeds unless an item is blank; it keeps exactly the trimmed items, once each. */
  lemma {:induction false} NormalizedItemsKeepsTheSet(items: seq<string>)
    ensures NormalizedItems(items).Ok? <==> forall s :: s in items ==> Strip(s) != ""
    ensures NormalizedItems(items).Ok? ==>
      var out := NormalizedItems(items).value;
      && (forall i, j :: 0 <= i < j < |out| ==> out[i] != out[j])
      && (forall x :: x in out <==> exists s :: s in items && Strip(s) == x)
  {
    if items != [] {
      var most, last := items[..|items| - 1], items[|items| - 1];
      NormalizedItemsKeepsTheSet(most);
      assert items == most + [last];
      if NormalizedItems(items).Ok? {
        var before, out := NormalizedItems(most).value, NormalizedItems(items).value;
        forall x
          ensures x in out <==> exists s :: s in items && Strip(s) == x
        {
          assert x in out <==> x in before || x == Strip(last);
        }
      }
    }
  }

  method NormalizeItems(items: seq<string>) returns (r: Result<seq<string>, Exn>)
    ensures r == NormalizedItems(items)
  {
    var normalized: seq<string> := [];
    for k := 0 to |items|
      invariant NormalizedItems(items[..k]) == Ok(normalized)
    {
      assert items[..k + 1][..k] == items[..k];
      var clean := Strip(items[k]);
      if clean == "" {
        BlankItemIsRefused(items, k);
        return Err(InvalidValue);
      }
      if clean !in normalized {
        normalized := normalized + [clean];
      }
    }
    assert items[..|items|] == items;
    return Ok(normalized);
  }

  lemma BlankItemIsRefused(items: seq<string>, k: nat)
    requires k < |items| && Strip(items[k]) == ""
    ensures NormalizedItems(items) == Err(InvalidValue)
  {
    NormalizedItemsKeepsTheSet(items);
    assert items[k] in items;
  }

  /** Clarifications name what they need; nothing else does. */
  predicate ValidDecision(d: DecisionResult) {
    && 0.0 <= d.confidence <= 1.0
    && (d.decision == AskClarification <==> d.required != [])
  }

  function BuildDecision(decision: DecisionType, reason: DecisionReason, confidence: real, required: seq<string>,
                         metadata: map<string, Meta>): Result<DecisionResult, Exn>
  {
    var items := NormalizedItems(required);
    if items.Err? then Err(InvalidValue)
    else
      var d := DecisionResult(decision, reason, confidence, items.value, metadata);
      if ValidDecision(d) then Ok(d) else Err(InvalidValue)
  }

  // ----- The engine -----

  function FromSignals(r: IntentResult): Option<Result<DecisionResult, Exn>> {
    if ExplicitHumanRequest in r.signals then
      Some(BuildDecision(Escalate, CustomerRequestedHuman, r.confidence, [],
                         map["escalation_signal" := Text("explicit_human_request"), "priority" := Text("normal")]))
    else if SevereDissatisfaction in r.signals then
      Some(BuildDecision(Escalate, SevereCustomerDissatisfaction, r.confidence, [],
                         map["escalation_signal" := Text("severe_customer_dissatisfaction"),
                             "priority" := Text("high")]))
    else None
  }

  function PolicyMetadata(intent: Intent, p: Policy): map<string, Meta> {
    var base := map["intent" := Text(IntentName(intent)), "priority" := Text(PriorityName(p.priority)),
                    "potentially_actionable" := Flag(p.actionable)];
    if p.kind.Some? then base["retrieval_kind" := Text(KindName(p.kind.value))] else base
  }

  function FromPolicy(r: IntentResult, p: Policy): Result<DecisionResult, Exn> {
    BuildDecision(p.decision, p.reason, r.confidence, [], PolicyMetadata(r.intent, p))
  }

  function Ask(r: IntentResult, reason: DecisionReason, required: seq<string>): Result<DecisionResult, Exn> {
    BuildDecision(AskClarification, reason, r.confidence, required, map[])
  }

  function MandatoryMissing(r: IntentResult): seq<string> {
    if r.intent == OrderStatus && r.orderId.None? then ["order_id"] else []
  }

  function InferMissing(r: IntentResult): seq<string> {
    if r.intent == OrderStatus then ["order_id"] else ["clarification"]
  }

  predicate KnowledgeGuided(p: Policy) {
    p.decision == RetrieveInformation && p.kind == Some(KnowledgeKind)
  }

  /** The source's order of precedence. */
  function Decide(threshold: real, r: IntentResult): Result<DecisionResult, Exn> {
    var signals := FromSignals(r);
    var policy := PolicyOf(r.intent);
    if signals.Some? then signals.value
    else if r.intent == PrivacySecurity then FromPolicy(r, policy)
    else if r.intent == Unknown then Ask(r, UnknownIntent, ["customer_intent"])
    else if r.confidence < threshold then Ask(r, LowIntentConfidence, ["clarification"])
    else if MandatoryMissing(r) != [] then Ask(r, MissingRequiredInformation, MandatoryMissing(r))
    else if KnowledgeGuided(policy) then FromPolicy(r, policy)
    else if r.needsClarification then Ask(r, MissingRequiredInformation, InferMissing(r))
    else FromPolicy(r, policy)
  }

  // ----- What the engine promises -----

  /** One of the three requirement keys the engine asks with. */
  predicate RequirementKey(key: string) {
    key == "customer_intent" || key == "clarification" || key == "order_id"
  }

  lemma AskSucceeds(r: IntentResult, reason: DecisionReason, key: string)
    requires r.Valid() && RequirementKey(key)
    ensures Ask(r, reason, [key]) == Ok(DecisionResult(AskClarification, reason, r.confidence, [key], map[]))
  {
    var items := [key];
    assert Strip(key) == key;
    assert items[..|items| - 1] == [] && items[|items| - 1] == key;
    assert NormalizedItems([]) == Ok([]);
    assert NormalizedItems(items) == Ok([] + [key]);
    assert [] + [key] == items;
  }

  lemma SilentDecisionSucceeds(decision: DecisionType, reason: DecisionReason, confidence: real,
      metadata: map<string, Meta>)
    requires 0.0 <= confidence <= 1.0 && decision != AskClarification
    ensures BuildDecision(decision, reason, confidence, [], metadata)
              == Ok(DecisionResult(decision, reason, confidence, [], metadata))
  {
  }

  lemma AnySignalCounts(r: IntentResult)
    ensures FromSignals(r).Some? <==> r.signals != []
  {
    if r.signals != [] {
      assert r.signals[0] in r.signals;
      assert r.signals[0] == ExplicitHumanRequest || r.signals[0] == SevereDissatisfaction;
    }
  }

  /** Every way the engine can end, without the record's validation in between. */
  lemma DecideCases(threshold: real, r: IntentResult)
    requires r.Valid()
    ensures Decide(threshold, r).Ok?
    ensures var d := Decide(threshold, r).value;
            var p := PolicyOf(r.intent);
            && d.confidence == r.confidence
            && if FromSignals(r).Some? then d.decision == Escalate && d.required == []
               else if r.intent != PrivacySecurity
                 && (r.intent == Unknown || r.confidence < threshold || MandatoryMissing(r) != []
                     || (!KnowledgeGuided(p) && r.needsClarification))
               then d.decision == AskClarification && |d.required| == 1 && RequirementKey(d.required[0])
               else d == DecisionResult(p.decision, p.reason, r.confidence, [], PolicyMetadata(r.intent, p))
  {
    var signals := FromSignals(r);
    var p := PolicyOf(r.intent);
    if signals.Some? {
    } else if r.intent == PrivacySecurity {
      SilentDecisionSucceeds(p.decision, p.reason, r.confidence, PolicyMetadata(r.intent, p));
    } else if r.intent == Unknown {
      AskSucceeds(r, UnknownIntent, "customer_intent");
    } else if r.confidence < threshold {
      AskSucceeds(r, LowIntentConfidence, "clarification");
    } else if MandatoryMissing(r) != [] {
      AskSucceeds(r, MissingRequiredInformation, "order_id");
    } else if KnowledgeGuided(p) || !r.needsClarification {
      SilentDecisionSucceeds(p.decision, p.reason, r.confidence, PolicyMetadata(r.intent, p));
    } else {
      AskSucceeds(r, MissingRequiredInformation, InferMissing(r)[0]);
    }
  }

  /** The engine accepts every validated intent, and never builds a decision its own record refuses. */
  lemma DecideNeverRaises(threshold: real, r: IntentResult)
    requires r.Valid()
    ensures Decide(threshold, r).Ok? && ValidDecision(Decide(threshold, r).value)
  {
    DecideCases(threshold, r);
  }

  const KNOWLEDGE_INTENTS: set<Intent> :=
    {RefundRequest, PaymentIssue, ShippingIssue, Cancellation, SubscriptionIssue, AccountIssue, ReturnExchange,
        GeneralQuestion}

  /** Confident enough for its workflow and not asking for a person. */
  predicate Routable(threshold: real, r: IntentResult) {
    r.signals == [] && r.confidence >= threshold
  }

  /**
    When each decision is taken, for every validated intent: people are called in by a signal, for
    security, or for an order whose id is known; knowledge is consulted even when the classifier would
    like more information; everything else is a clarification. No business action is ever chosen.
   */
  lemma DecisionMeaning(threshold: real, r: IntentResult)
    requires r.Valid()
    ensures Decide(threshold, r).Ok?
    ensures var d := Decide(threshold, r).value.decision;
            && (d == Escalate <==>
                 r.signals != [] || r.intent == PrivacySecurity
                 || (Routable(threshold, r) && r.intent == OrderStatus && r.orderId.Some? && !r.needsClarification))
            && (d == RetrieveInformation <==> Routable(threshold, r) && r.intent in KNOWLEDGE_INTENTS)
            && (d == AnswerDirectly <==>
                 Routable(threshold, r) && r.intent in {Conversational, OutOfScope} && !r.needsClarification)
            && d != PerformAction
  {
    DecideCases(threshold, r);
    AnySignalCounts(r);
  }

  // ----- Reading the retrieval kind back -----

  datatype KindError = WrongDecision | InvalidKind

  function ParseKind(name: string): Result<RetrievalKind, KindError> {
    var clean := Strip(name);
    if clean == KindName(KnowledgeKind) then Ok(KnowledgeKind)
    else if clean == KindName(OperationalKind) then Ok(OperationalKind)
    else Err(InvalidKind)
  }

  /** The answer service reads the kind from the decision's free-form metadata. */
  function ResolveKind(d: DecisionResult): Result<RetrievalKind, KindError> {
    if d.decision != RetrieveInformation then Err(WrongDecision)
    else if "retrieval_kind" !in d.metadata || !d.metadata["retrieval_kind"].Text? then Err(InvalidKind)
    else ParseKind(d.metadata["retrieval_kind"].text)
  }

  lemma KindRoundTrip(k: RetrievalKind)
    ensures ParseKind(KindName(k)) == Ok(k)
  {
    assert Strip("knowledge") == "knowledge" && Strip("operational") == "operational";
  }

  lemma PolicyKindIsWritten(intent: Intent, p: Policy)
    requires p.kind.Some?
    ensures var m := PolicyMetadata(intent, p);
            "retrieval_kind" in m && m["retrieval_kind"] == Text(KindName(p.kind.value))
  {
  }

  /** The kind the engine writes into the metadata is the kind the answer service reads: always knowledge. */
  lemma RetrievalDecisionsResolve(threshold: real, r: IntentResult)
    requires r.Valid()
    requires Decide(threshold, r).Ok? && Decide(threshold, r).value.decision == RetrieveInformation
    ensures ResolveKind(Decide(threshold, r).value) == Ok(KnowledgeKind)
  {
    DecideCases(threshold, r);
    KindRoundTrip(KnowledgeKind);
    PolicyKindIsWritten(r.intent, PolicyOf(r.intent));
  }
}
