/** Application-owned replies to small talk and out-of-scope requests. */
module DirectResponses {
  import opened Outcomes
  import opened Texts
  import opened SupportState

  datatype Kind = Greeting | Capabilities | SupportPrompt | Thanks | Goodbye | OutOfScopeReply

  /** The message normalized for matching, and the pattern groups, as arbitrary functions of text. */
  datatype Patterns = Patterns(
    fold: string -> string, capability: string -> bool, goodbye: string -> bool, thanks: string -> bool,
    support: string -> bool, greeting: string -> bool)

  function ConversationalKind(p: Patterns, text: string): Kind {
    if p.capability(text) then Capabilities
    else if p.goodbye(text) then Goodbye
    else if p.thanks(text) then Thanks
    else if p.support(text) then SupportPrompt
    else if p.greeting(text) then Greeting
    else SupportPrompt
  }

  /** None stands for the resolution error. */
  function Resolve(p: Patterns, message: string, r: IntentResult, d: DecisionResult): Option<Kind> {
    if Strip(message) == "" || d.decision != AnswerDirectly || r.intent !in {Conversational, OutOfScope}
        || r.needsClarification then None
    else if r.intent == OutOfScope then Some(OutOfScopeReply)
    else if p.fold(message) == "" then None
    else Some(ConversationalKind(p, p.fold(message)))
  }
}
