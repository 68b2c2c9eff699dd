/** The guardrail evaluator over any sequence of policies. */
module Guardrails {
  import opened Outcomes
  import opened SupportState
  import opened Texts

  datatype Context = Context(message: string, decision: DecisionResult, response: Option<string>,
      evidence: seq<Evidence>)

  datatype GuardrailResult = GuardrailResult(outcome: Disposition, reason: GuardrailReason, policy: Option<string>)

  /** A result as its schema builds it: the policy id, if any, is trimmed and not blank. */
  type Verdict = g: GuardrailResult | g.policy.Some? ==> Strip(g.policy.value) == g.policy.value != ""
    witness GuardrailResult(Pass, SafeResponse, None)

  /** What one policy says about one response: nothing, a result, or an exception. */
  datatype Finding = Silent | Found(verdict: Verdict) | Raises

  datatype Policy = Policy(id: string, check: Context -> Finding)

  predicate Configured(policies: seq<Policy>) {
    policies != [] && forall i, j :: 0 <= i < j < |policies| ==> policies[i].id != policies[j].id
  }

  const PASSED: Verdict := GuardrailResult(Pass, SafeResponse, None)

  /** Policies in order; the first that is not silent decides, and may not itself report a pass. */
  function Judge(policies: seq<Policy>, c: Context): Result<Verdict, Exn> {
    if policies == [] then Ok(PASSED)
    else
      match policies[0].check(c)
      case Silent => Judge(policies[1..], c)
      case Raises => Err(PolicyDefect)
      case Found(v) => if v.outcome == Pass then Err(InvalidValue) else Ok(v)
  }

  method Evaluate(policies: seq<Policy>, c: Context) returns (r: Result<Verdict, Exn>)
    ensures r == Judge(policies, c)
  {
    for k := 0 to |policies|
      invariant Judge(policies, c) == Judge(policies[k..], c)
    {
      assert policies[k..][1..] == policies[k + 1..];
      match policies[k].check(c)
      case Silent =>
      case Raises => return Err(PolicyDefect);
      case Found(v) =>
        if v.outcome == Pass {
          return Err(InvalidValue);
        }
        return Ok(v);
    }
    return Ok(PASSED);
  }

  /** The first policy that is not silent. */
  predicate FirstToSpeak(policies: seq<Policy>, c: Context, i: nat) {
    i < |policies| && !policies[i].check(c).Silent? && forall j :: 0 <= j < i ==> policies[j].check(c).Silent?
  }

  predicate Passes(policies: seq<Policy>, c: Context) {
    Judge(policies, c).Ok? && Judge(policies, c).value.outcome == Pass
  }

  /** A response passes exactly when no policy speaks; otherwise the first to speak decides alone. */
  lemma {:induction false} FirstViolationWins(policies: seq<Policy>, c: Context)
    ensures Passes(policies, c) <==> forall i :: 0 <= i < |policies| ==> policies[i].check(c).Silent?
    ensures forall i: nat :: FirstToSpeak(policies, c, i) ==>
              Judge(policies, c) ==
                match policies[i].check(c)
                case Found(v) => (if v.outcome == Pass then Err(InvalidValue) else Ok(v))
                case _ => Err(PolicyDefect)
  {
    if policies != [] {
      var rest := policies[1..];
      FirstViolationWins(rest, c);
      assert forall i :: 0 < i < |policies| ==> policies[i] == rest[i - 1];
      forall i: nat | FirstToSpeak(policies, c, i) && i > 0
        ensures FirstToSpeak(rest, c, i - 1)
      {
        assert forall j :: 0 <= j < i - 1 ==> rest[j] == policies[j + 1];
      }
      if policies[0].check(c).Silent? {
        forall i | 0 <= i < |rest| ensures rest[i] == policies[i + 1] {}
      }
    }
  }
}
