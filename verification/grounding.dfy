/** Grounded generation: what the generator accepts from the provider, given the evidence it supplied. */
module Grounding {
  import opened Outcomes
  import opened Texts
  import opened SupportState

  datatype Status = Grounded | InsufficientEvidence | NotRequired

  datatype Citation = Citation(sourceId: string, title: Option<string>, section: Option<string>)

  datatype Generation = Generation(answer: string, status: Status, citations: seq<Citation>)
  {
    /** What the result's own schema guarantees. */
    predicate Valid() {
      0 < |answer| <= 30_000 && Strip(answer) == answer
    }
  }

  datatype Reply = Replied(g: Generation) | TimedOut | Malformed | ProviderDown | Crashed

  datatype GenerationError = Timeout | ProviderFailure | InvalidResponse | OtherFailure

  /** No two evidence items share a source id. */
  predicate DistinctIds(evidence: seq<Evidence>) {
    forall i, j :: 0 <= i < j < |evidence| && evidence[i].sourceId.Some?
        ==> evidence[i].sourceId != evidence[j].sourceId
  }

  method ValidateEvidenceIdentity(evidence: seq<Evidence>) returns (ok: bool)
    ensures ok <==> DistinctIds(evidence)
  {
    var seen: set<string>, duplicates: set<string> := {}, {};
    for k := 0 to |evidence|
      invariant forall id :: id in seen <==> exists i :: 0 <= i < k && evidence[i].sourceId == Some(id)
      invariant duplicates == {} <==> DistinctIds(evidence[..k])
    {
      assert evidence[..k + 1] == evidence[..k] + [evidence[k]];
      var id := evidence[k].sourceId;
      if id.Some? {
        if id.value in seen {
          duplicates := duplicates + {id.value};
          var i :| 0 <= i < k && evidence[i].sourceId == id;
          assert evidence[..k + 1][i].sourceId == evidence[..k + 1][k].sourceId;
        }
        seen := seen + {id.value};
      }
    }
    assert evidence[..|evidence|] == evidence;
    return duplicates == {};
  }

  /** The evidence a source id stands for: the last item that carries it. */
  function Lookup(evidence: seq<Evidence>, id: string): Option<Evidence> {
    if evidence == [] then None
    else
      var last := evidence[|evidence| - 1];
      if last.sourceId == Some(id) then Some(last) else Lookup(evidence[..|evidence| - 1], id)
  }

  lemma {:induction false} LookupFinds(evidence: seq<Evidence>, id: string)
    ensures Lookup(evidence, id).Some? <==> exists e :: e in evidence && e.sourceId == Some(id)
    ensures Lookup(evidence, id).Some? ==>
              Lookup(evidence, id).value in evidence && Lookup(evidence, id).value.sourceId == Some(id)
  {
    if evidence != [] {
      LookupFinds(evidence[..|evidence| - 1], id);
      assert evidence == evidence[..|evidence| - 1] + [evidence[|evidence| - 1]];
    }
  }

  /** A title or section may be left out, but not invented. */
  predicate SameIdentity(c: Citation, e: Evidence) {
    (c.title.Some? ==> c.title == e.title) && (c.section.Some? ==> c.section == e.section)
  }

  predicate Accepted(evidence: seq<Evidence>, c: Citation) {
    Lookup(evidence, c.sourceId).Some? && SameIdentity(c, Lookup(evidence, c.sourceId).value)
  }

  predicate DistinctCitations(citations: seq<Citation>) {
    forall i, j :: 0 <= i < j < |citations| ==> citations[i].sourceId != citations[j].sourceId
  }

  predicate CitationsAccepted(evidence: seq<Evidence>, citations: seq<Citation>) {
    DistinctCitations(citations) && forall c :: c in citations ==> Accepted(evidence, c)
  }

  method ValidateCitations(evidence: seq<Evidence>, citations: seq<Citation>) returns (ok: bool)
    ensures ok <==> CitationsAccepted(evidence, citations)
  {
    if |citations| == 0 {
      return true;
    }
    var byId: map<string, Evidence> := map[];
    for k := 0 to |evidence|
      invariant forall id :: id in byId <==> Lookup(evidence[..k], id).Some?
      invariant forall id :: id in byId ==> byId[id] == Lookup(evidence[..k], id).value
    {
      assert evidence[..k + 1][..k] == evidence[..k];
      if evidence[k].sourceId.Some? {
        byId := byId[evidence[k].sourceId.value := evidence[k]];
      }
    }
    assert evidence[..|evidence|] == evidence;
    var seen: set<string> := {};
    for k := 0 to |citations|
      invariant seen == set i | 0 <= i < k :: citations[i].sourceId
      invariant DistinctCitations(citations[..k])
      invariant forall i :: 0 <= i < k ==> Accepted(evidence, citations[i])
    {
      var c := citations[k];
      if c.sourceId in seen {
        return false;
      }
      seen := seen + {c.sourceId};
      if c.sourceId !in byId || !SameIdentity(c, byId[c.sourceId]) {
        assert !Accepted(evidence, c) && c in citations;
        return false;
      }
    }
    assert citations[..|citations|] == citations;
    return true;
  }

  /** Grounded answers cite, other answers do not. */
  predicate StatusContract(evidence: seq<Evidence>, g: Generation) {
    if g.status == Grounded then evidence != [] && g.citations != [] else g.citations == []
  }

  function Grounds(evidence: seq<Evidence>, reply: Reply): Result<Generation, GenerationError> {
    if !DistinctIds(evidence) then Err(OtherFailure)
    else
      match reply
      case TimedOut => Err(Timeout)
      case Malformed => Err(InvalidResponse)
      case ProviderDown => Err(ProviderFailure)
      case Crashed => Err(OtherFailure)
      case Replied(g) => if StatusContract(evidence, g) && CitationsAccepted(evidence, g.citations) then Ok(g)
        else Err(InvalidResponse)
  }

  method Generate(evidence: seq<Evidence>, reply: Reply) returns (r: Result<Generation, GenerationError>)
    ensures r == Grounds(evidence, reply)
  {
    var distinct := ValidateEvidenceIdentity(evidence);
    if !distinct {
      return Err(OtherFailure);
    }
    match reply
    case TimedOut => return Err(Timeout);
    case Malformed => return Err(InvalidResponse);
    case ProviderDown => return Err(ProviderFailure);
    case Crashed => return Err(OtherFailure);
    case Replied(g) =>
      if !StatusContract(evidence, g) {
        return Err(InvalidResponse);
      }
      var cited := ValidateCitations(evidence, g.citations);
      return if cited then Ok(g) else Err(InvalidResponse);
  }

  /** Each citation names exactly one supplied item, and repeats nothing about it that is not true. */
  predicate Cites(evidence: seq<Evidence>, c: Citation) {
    exists i :: 0 <= i < |evidence| && evidence[i].sourceId == Some(c.sourceId) && SameIdentity(c, evidence[i])
      && forall j :: 0 <= j < |evidence| && evidence[j].sourceId == Some(c.sourceId) ==> i == j
  }

  predicate WellGrounded(evidence: seq<Evidence>, g: Generation) {
    g.citations != [] && DistinctCitations(g.citations) && forall c :: c in g.citations ==> Cites(evidence, c)
  }

  lemma AcceptedMeansCited(evidence: seq<Evidence>, c: Citation)
    requires DistinctIds(evidence)
    ensures Accepted(evidence, c) <==> Cites(evidence, c)
  {
    LookupFinds(evidence, c.sourceId);
    if Accepted(evidence, c) {
      var i :| 0 <= i < |evidence| && evidence[i] == Lookup(evidence, c.sourceId).value;
      assert forall j :: 0 <= j < |evidence| && evidence[j].sourceId == Some(c.sourceId) ==> i == j;
    }
  }

  /**
    Exactly which replies get through: over unambiguous evidence, a grounded one whose citations each
    identify one supplied item, or one that claims no grounding and cites nothing.
   */
  lemma AcceptedReplies(evidence: seq<Evidence>, reply: Reply)
    ensures Grounds(evidence, reply).Ok? <==>
      && DistinctIds(evidence) && reply.Replied?
      && (if reply.g.status == Grounded then WellGrounded(evidence, reply.g) else reply.g.citations == [])
    ensures Grounds(evidence, reply).Ok? ==> Grounds(evidence, reply).value == reply.g
  {
    if DistinctIds(evidence) && reply.Replied? {
      forall c | c in reply.g.citations
        ensures Accepted(evidence, c) <==> Cites(evidence, c)
      {
        AcceptedMeansCited(evidence, c);
      }
      if reply.g.citations != [] && Cites(evidence, reply.g.citations[0]) {
        assert evidence != [];
      }
      assert reply.g.citations != [] ==> reply.g.citations[0] in reply.g.citations;
    }
  }
}
