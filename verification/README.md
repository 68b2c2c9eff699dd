# Support agent: a verified model

A Dafny model of the parts of the customer-support agent whose correctness spans many calls: refresh-session
families and login lockout, the AI orchestration state machine with its decision engine, generator and
guardrails, provider admission control and retry, stage, call and retrieval telemetry, retrieval metrics and
topic matching, and the knowledge seeder. Code that updates state in place is modelled by classes and loops, each
proved equal to a specification function; what the code promises is proved about those functions, for all
inputs, all runs and all interleavings.

## How it is laid out

| files | component |
|---|---|
| `outcomes.dfy`, `collections.dfy`, `texts.dfy` | optional values and results; a fact about finite sets; the two text normalizations |
| `auth_model.dfy`, `auth_families.dfy`, `auth_safety.dfy`, `auth_lockout.dfy`, `auth_meaning.dfy`, `auth_store.dfy` | authentication: steps, the family invariant, safety over runs, lockout, exactly when each use case succeeds and what it writes, the use cases as methods |
| `support_state.dfy`, `decision_engine.dfy`, `grounding.dfy`, `answer_service.dfy`, `direct_responses.dfy`, `guardrails.dfy` | the parts of the pipeline |
| `orchestrator.dfy`, `orchestrator_safety.dfy`, `orchestrator_endings.dfy`, `run_meaning.dfy`, `run_records.dfy`, `orchestrator_service.dfy` | one run of the pipeline: as a function, its guarantees, its decision table, what each case comes to and leaves on record, and the orchestrator's methods |
| `stage_telemetry.dfy`, `run_traces.dfy`, `call_telemetry.dfy`, `retrieval_telemetry.dfy` | the stage observer and what runs look like to it; the LLM-call life cycle; the rank accumulator |
| `retry_policy.dfy`, `provider_admission.dfy` | back-off and the retry loop; permits, start slots and calls as interleaved steps |
| `retrieval_metrics.dfy`, `topic_splitting.dfy`, `delimiter_order.dfy`, `topic_order.dfy` | evaluation metrics, topic extraction, and when the order of delimiters matters to fragments and to topics |
| `knowledge_seeder.dfy`, `seeder_meaning.dfy`, `seeder_runs.dfy`, `overlapping_seeders.dfy` | the seeder's committed steps, interrupted runs and the directory loop; what each step and file does exactly; what whole runs publish and how they recover; several seeders at once |

## What turned out differently from what one would expect

- The stage check of the pipeline state is not inductive, and one transition can leave a state it would refuse:
  an escalation that blames the guardrails although no guardrail asked for one
  (`SupportState.TransitionKeepsInvIff`, `SupportState.StageCheckIsNotInductive`; an ordinary decided state is a
  witness, `SupportState.UnfoundedEscalationExample`). The orchestrator never does it.
- The pipeline state accepts a conversation context of 50000 characters, the generation request only 30000. A
  knowledge run with a context in between ends in an exception instead of a failed state
  (`OrchestratorEndings.OversizedContextEscapesIff`, `OrchestratorEndings.OversizedContextExample`). The shipped
  settings cap the context at 30000 (`packages/config/settings.py:294`), so only a caller that builds its own
  context reaches this.
- A generation failure is reported under the generation stage while only retrieval was started. So a run that
  returns leaves a timer behind exactly when it consults knowledge with an admissible context and the generator
  accepts no reply (`OrchestratorEndings.GenerationFailureIff`, `RunTraces.LeftoverTimers`, and the concrete
  `RunTraces.LeftoverTimerExample`).
- The insert of candidate rows is refused unless the recorded lists and scores meet a condition
  (`RetrievalTelemetry.StoredIff`).
- The seeder cannot publish new content by itself. Publication requires embeddings, processing replaces all chunks
  and with them their embeddings, and the seeder embeds nothing in between. So a file is published exactly when its
  content was ready and embedded before (`KnowledgeSeeder.SeededFileIsPublished`), every non-blank file fails on an
  empty database although all services work (`KnowledgeSeeder.NewContentIsNotPublished`), and a working run is free
  of failures exactly when all its files can be delivered (`SeederRuns.WorkingRunSucceedsIff`).
- Recovering an interrupted run therefore takes a working run, the embedding worker, and a second working run. Then
  everything is published and a further run is idle exactly when files of one document agree
  (`SeederRuns.InterruptedRunsRecoverIff`); files sharing a document make the seeder publish back and forth.
- Seeder processes that overlap can create two live versions of the same content
  (`KnowledgeSeeder.OverlappingRunsCanDuplicate`). Exactly two kinds of step do it: adding a version of content
  that another process is processing, and claiming a version that has a live twin or whose content another process
  works on, such as a failed one picked for a retry (`OverlappingSeeders.OverlapIsHarmlessIff`). All other overlaps
  are harmless.
- Topic extraction can depend on the order of delimiters. Two delimiters give the same fragments of every text in
  either order exactly when neither contains the other and no proper suffix of one is a proper prefix of the other
  (`DelimiterOrder.OrderIsIrrelevantIff`). They give the same topics also when one is the other repeated, such as two
  dashes and one, and no occurrence of the longer can begin inside one of the shorter; in no other case
  (`TopicOrder.TopicsIgnoreOrderIff`). Single characters never interfere.
- The check for the final active administrator never refuses anything: the manager is an active administrator too,
  and cannot demote or disable itself (`AuthSafety.FinalAdministratorIsNeverReported`).
- As written the seeder does not get that far: it constructs the publication service without two arguments that the
  service's constructor requires (`scripts/seed_knowledge.py:441`,
  `packages/knowledge/application/publish_version.py:48`), which ends the script before the first file
  (`KnowledgeSeeder.Seeder.Run`). The other results are about a script that passes them.

## Assumptions

- Each authentication use case is one atomic step: it runs in one unit of work with one commit. Session ids, token
  digests and family ids come from the supply of a step; only family ids are taken to be fresh. A colliding session
  id or digest is modelled as the refused insert it is.
- Password verification, rehash decisions, digests, regular expressions and text case folding are arbitrary
  functions. Time is an integer in authentication and a real number elsewhere; metrics and delays are exact reals.
- The embedding worker is another actor that may complete any ready, published or superseded version at any point.
- A document's path identity is the lower-cased path, so files that differ only in case share a document.
- Guardrail policies are arbitrary functions of their context; they may raise, but not one of the answer workflow's
  own exceptions, which the orchestrator would take for its own.

## Model

| member | source | states |
|---|---|---|
| `AuthFamilies.ReachableSessionsLinked` | packages/application/auth/refresh_session.py:148-223 | in every reachable database the sessions of each family are exactly the audit log's chain of that family: rooted at the opening session, one user, one deadline, each row linked to the next, linked exactly when revoked as rotated, digests unique |
| `AuthFamilies.StepHasEffect` | packages/application/auth/login_user.py:163-248 | every use case either only revokes unrevoked rows, or opens one new family, or replaces one unrevoked session by its successor, with the matching audit event |
| `AuthFamilies.StepKeepsSessionsLinked` | packages/application/auth/refresh_session.py:51-146 | one step of any use case keeps all families linked |
| `AuthFamilies.RotationKeepsFamily` | packages/application/auth/refresh_session.py:176-199 | a rotation extends its family's chain by one and leaves the others alone |
| `AuthFamilies.OpeningLinksItsFamily` | packages/application/auth/login_user.py:178-207 | a login starts a one-session chain |
| `AuthFamilies.UnrevokedIsLast` | packages/application/auth/refresh_session.py:176-199 | only the last session of a family can be unrevoked |
| `AuthFamilies.RevokeAllOnlyRevokes` | packages/database/repositories/support/auth_repository.py:60-123 | a bulk revocation keeps every row's identity and touches only unrevoked rows |
| `AuthSafety.LinksWalkTheChain` | packages/database/models/support/auth_session.py:22-104 | following `replaced_by_session_id` n times from a position of the chain gives the session n positions on, or nothing past the end |
| `AuthSafety.EverySessionHasARoot` | packages/application/auth/refresh_session.py:176-199 | every session is a number of links away from the session that opened its family |
| `AuthSafety.LinksAreAcyclic` | packages/application/auth/refresh_session.py:176-199 | no session reaches itself through successor links |
| `AuthSafety.SuccessorsAreInjective` | packages/application/auth/refresh_session.py:176-199 | a session has a successor exactly when it was revoked as rotated; the successor exists, shares family, user and deadline, and is nobody else's |
| `AuthSafety.AtMostOneActive` | packages/application/auth/refresh_session.py:176-199 | two unrevoked sessions of one family are the same session |
| `AuthSafety.FamilySizeIsRefreshCount` | packages/application/auth/refresh_session.py:195-223 | a family has as many sessions as opening plus refresh events in the log |
| `AuthSafety.RefreshAuditsOnce` | packages/application/auth/refresh_session.py:64-132 | every committed refresh attempt appends exactly one audit event; one refused by the database changes nothing |
| `AuthSafety.RunEvolves` | packages/database/repositories/support/auth_repository.py:60-123 | over any run rows are never deleted, keep their identity, and revoked rows never change again |
| `AuthSafety.DeadFamiliesStayDead` | packages/application/auth/refresh_session.py:69-85 | a family without an unrevoked session never regains one |
| `AuthSafety.ReuseEndsTheFamily` | packages/application/auth/refresh_session.py:69-85 | after an already revoked refresh token is presented no session of its family is active at any later step, and every later use of the family's refresh or access tokens fails |
| `AuthSafety.TokensRotateOnce` | packages/application/auth/refresh_session.py:64-85 | a refresh token rotates at most once in a run; presenting it again is detected as reuse and ends the family |
| `AuthSafety.RevokedSessionsNeverAuthenticate` | packages/application/auth/authenticate_access_token.py:91-102 | access tokens bound to a revoked session never authenticate again |
| `AuthSafety.SessionsExpireAtTheDeadline` | packages/application/auth/refresh_session.py:159-185 | however often a family rotated, each of its sessions expires at opening time plus refresh lifetime |
| `AuthSafety.IssuedTokensExpireBeforeTheFamily` | packages/application/auth/refresh_session.py:159-174 | every issued access token expires strictly before its family's deadline |
| `AuthSafety.NobodyAuthenticatesAfterTheDeadline` | packages/application/auth/authenticate_access_token.py:61-114 | no access token authenticates at or after its family's deadline, whatever the decoder's leeway |
| `AuthSafety.IssuedTokensAreLive` | packages/application/auth/login_user.py:178-248 | what login, registration and refresh hand out is bound to an unrevoked, unexpired session of a usable account, under the digest of the refresh token |
| `AuthSafety.LiveAccessTokenAuthenticates` | packages/application/auth/authenticate_access_token.py:61-114 | a live access token authenticates its bearer with its session and role |
| `AuthSafety.LiveRefreshTokenRotates` | packages/application/auth/refresh_session.py:148-223 | a live refresh token with enough lifetime left rotates, keeps the deadline and yields a live pair |
| `AuthSafety.LogoutTwice` | packages/application/auth/logout_user.py:48-106 | logging out a second time changes nothing and reports that nothing was revoked; the session is revoked after the first |
| `AuthSafety.AdministratorsNeverRunOut` | packages/application/users/update_user_access.py:136-230 | over any run of any use cases, once there is an active administrator there always is one |
| `AuthSafety.ManagerStaysAdministrator` | packages/application/users/update_user_access.py:211-230 | whoever applies an access change is an active administrator before and after it |
| `AuthSafety.FinalAdministratorIsNeverReported` | packages/application/users/update_user_access.py:157-169 | the final-administrator refusal is never the reason an access change is refused |
| `AuthLockout.CredentialAfterStep` | packages/application/auth/login_user.py:90-161 | a counted wrong password applies one failed attempt to an unlocked credential, a success resets it, and nothing else changes a credential |
| `AuthLockout.ReachableSound` | packages/application/auth/login_user.py:250-262 | in every reachable database no lock means the counter is below the maximum, and a lock means it equals it |
| `AuthLockout.LockIgnoresThePassword` | packages/application/auth/login_user.py:118-127 | while a lock lasts the password makes no difference and nothing is counted |
| `AuthLockout.LockoutBoundsWrongPasswords` | packages/application/auth/login_user.py:118-147 | in any window without a successful login at most max attempts times ceiling(window / lockout) wrong passwords are counted against one credential |
| `AuthMeaning.LoginSucceedsIff` | packages/application/auth/login_user.py:90-248 | a login succeeds exactly when the email is known, the account exists and is active and interactive, no lock lasts, the password verifies against the stored hash, a due rehash has its digest, the refresh lifetime exceeds the access lifetime and the session can be inserted |
| `AuthMeaning.LoginRefusedIff` | packages/application/auth/login_user.py:96-161 | each refusal is given exactly in its case: unknown email, lasting lock, inactive account, wrong password below and at the maximum of attempts |
| `AuthMeaning.LoginRaisesIff` | packages/application/auth/login_user.py:163-248 | exactly when a login with the right password raises: no digest for a due rehash, lifetimes or role misconfigured, insert refused |
| `AuthMeaning.CountsIff` | packages/application/auth/login_user.py:127-147 | a wrong password is counted exactly when the account is known, unlocked and active and the password does not verify |
| `AuthMeaning.RefusedLoginWrites` | packages/application/auth/login_user.py:96-161 | a refused login appends its event and touches no credential but one a wrong password is counted against |
| `AuthMeaning.CountedAttemptWrites` | packages/application/auth/login_user.py:250-262 | a counted attempt leaves one attempt more, or one after an expired lock, and a lock for the lockout time exactly at the maximum |
| `AuthMeaning.SuccessfulLoginWrites` | packages/application/auth/login_user.py:163-248 | a login resets attempts and lock, stores a due rehash, opens one session for the refresh lifetime, hands out the matching pair and audits it |
| `AuthMeaning.RegistrationSucceedsIff` | packages/application/auth/register_user.py:93-202 | exactly when a registration succeeds, and exactly how it is refused |
| `AuthMeaning.RegistrationWrites` | packages/application/auth/register_user.py:119-200 | a registration creates an active customer with that email and digest, one session, the matching pair and its event |
| `AuthMeaning.RegisteredUsersLogIn` | packages/application/auth/login_user.py:90-161 | after a registration a login with that email succeeds exactly with a password the stored digest verifies |
| `AuthMeaning.RefreshSucceedsIff` | packages/application/auth/refresh_session.py:64-223 | exactly when a presented token rotates, and exactly how it is refused: reused, expired, account unavailable, too short, insert refused |
| `AuthMeaning.UnknownTokensAreRefused` | packages/application/auth/refresh_session.py:51-66 | a token nobody holds is refused and only that is recorded |
| `AuthMeaning.FamilyRevocationWrites` | packages/application/auth/refresh_session.py:69-119 | a reused token, or one of an unusable account, revokes exactly the unrevoked sessions of its family, under the matching reason, and records their number |
| `AuthMeaning.RetirementWrites` | packages/application/auth/refresh_session.py:86-174 | a token refused as expired or too short leaves its own row revoked under the matching reason and no other row changed |
| `AuthMeaning.RotationWrites` | packages/application/auth/refresh_session.py:148-223 | a rotation revokes and links the presented row, adds its successor with the inherited user, family and expiry, and hands out the matching pair |
| `AuthMeaning.UnusableAccountEndsTheFamily` | packages/application/auth/refresh_session.py:105-119 | once a live token of an unusable account was presented, no session of its family is active at any later step and its tokens fail, even if the account becomes usable again |
| `AuthMeaning.RevokedTokensAreReuse` | packages/application/auth/refresh_session.py:69-85 | from the revocation of its session on, for whatever reason, a refresh token is only ever detected as reuse |
| `AuthMeaning.LogoutMeaning` | packages/application/auth/logout_user.py:48-106 | exactly what a logout answers and writes |
| `AuthMeaning.LogoutEndsTheSession` | packages/application/auth/logout_user.py:48-106 | after a logout no token bound to the session ever works again |
| `AuthMeaning.AccessDeniedIff` | packages/application/auth/authenticate_access_token.py:61-114 | exactly why an access token is refused, and when it is not |
| `AuthMeaning.AccessChangePermittedIff` | packages/application/users/update_user_access.py:66-170 | exactly when an access change is permitted, and exactly why it is refused |
| `AuthMeaning.AccessChangeWrites` | packages/application/users/update_user_access.py:157-208 | a permitted change gives the target the requested role and status, keeps what is not mentioned and every other account, and if it changes anything revokes exactly the target's unrevoked sessions and reports their number |
| `AuthMeaning.AccessChangeEndsSessions` | packages/application/users/update_user_access.py:172-180 | after an effective access change no token bound to a session the account had before ever works again |
| `AuthStore.Store.Login` | packages/application/auth/login_user.py:90-161 | the statement-by-statement use case has exactly the login step's effect and outcome |
| `AuthStore.Store.CountFailedAttempt` | packages/application/auth/login_user.py:250-262 | increments or restarts the counter and sets the lock in place |
| `AuthStore.Store.CompleteLogin` | packages/application/auth/login_user.py:163-248 | resets the credential, inserts the family's first session and audits it, or rolls back |
| `AuthStore.Store.Register` | packages/application/auth/register_user.py:93-210 | refuses a weak password first, then creates user, credential and first session, or rolls back; all families stay linked |
| `AuthStore.Store.Refresh` | packages/application/auth/refresh_session.py:51-146 | the use case in place has exactly the refresh step's effect |
| `AuthStore.Store.RotateSession` | packages/application/auth/refresh_session.py:148-223 | inserts the successor and retires the presented row in place, or rolls back |
| `AuthStore.Store.RejectSession` | packages/application/auth/refresh_session.py:86-131 | revokes the presented session and records why |
| `AuthStore.Store.Logout` | packages/application/auth/logout_user.py:48-106 | revokes the owner's unrevoked session and audits it once, leaves an already revoked or unknown session alone, refuses another user's; all families stay linked |
| `AuthStore.Store.Authenticate` | packages/application/auth/authenticate_access_token.py:61-114 | the chain of reads returns a principal exactly when the token decodes for an interactive role, its session is that user's, unrevoked and unexpired, and the user is active in that role; otherwise the first failing check |
| `AuthStore.Store.SetAccess` | packages/application/users/update_user_access.py:136-208 | refuses in the source's order, or changes role and status and, when that is a change, revokes all of the user's sessions and audits it; all families stay linked |
| `AuthStore.Store.CheckAccessChange` | packages/application/users/update_user_access.py:136-230 | the chain of reads finds the first reason to refuse an access change |
| `AuthStore.Store.ValidateManager` | packages/application/users/update_user_access.py:211-222 | accepts exactly an administrator by token who is an active administrator in the database; each refusal is returned exactly when its check is the first to fail |
| `AuthStore.Store.RevokeActiveFamily` | packages/database/repositories/support/auth_repository.py:60-123 | revokes exactly the unrevoked rows of the family and returns their number |
| `SupportState.TransitionKeepsInvIff` | packages/ai/orchestration/state.py:373-557 | from a sound state each copying transition yields a valid state except exactly the unfounded guardrail escalation |
| `SupportState.StageCheckIsNotInductive` | packages/ai/orchestration/state.py:289-371 | a state that passes the stage check can have a copy that does not |
| `SupportState.UnfoundedEscalationExample` | packages/ai/orchestration/state.py:494-529 | a received, classified and decided message is a sound state whose guardrail escalation the stage check would refuse |
| `SupportState.ReachableStatesAreValid` | packages/ai/orchestration/state.py:289-557 | any sequence of founded transitions from a new state stays valid |
| `SupportState.StatesRememberTheirRun` | packages/ai/orchestration/state.py:373-557 | after any transitions each field holds what the last transition that writes it wrote, the errors are all errors in order, and the stage is the last transition's |
| `SupportState.TransitionsTakenIff` | packages/ai/orchestration/state.py:373-557 | exactly which transitions a state takes; every other raises |
| `Texts.StripTwice` | packages/ai/orchestration/state.py:222-240 | trimming an already trimmed text changes nothing |
| `Texts.BlankEitherWay` | packages/application/conversations/process_customer_message.py:785-787 | a text is blank after joining its words exactly when it is blank after trimming |
| `Texts.StripMeaning` | packages/ai/orchestration/state.py:222-240 | trimming removes whitespace from both ends, all of it, and nothing else |
| `Texts.CollapseKeepsTheWords` | packages/application/conversations/process_customer_message.py:785-787 | word-joining keeps exactly the words and the visible characters, and joining again changes nothing |
| `DecisionEngine.PolicyOf` | packages/ai/decision/policies.py:83-200 | every intent has a policy; it names a retrieval source exactly when it retrieves, never an operational one, and never performs an action |
| `DecisionEngine.NormalizedItemsKeepsTheSet` | packages/ai/decision/schemas.py:85-101 | normalization fails exactly on a blank item and otherwise keeps each trimmed item once |
| `DecisionEngine.NormalizeItems` | packages/ai/decision/schemas.py:85-101 | the loop computes that normalization |
| `DecisionEngine.DecideNeverRaises` | packages/ai/decision/engine.py:48-135 | every validated intent gets a decision its own record accepts |
| `DecisionEngine.DecisionMeaning` | packages/ai/decision/engine.py:71-135 | exactly when the engine escalates, retrieves, answers directly or asks, and that it never chooses an action |
| `DecisionEngine.RetrievalDecisionsResolve` | packages/application/ai/answer_service.py:284-309 | the kind the engine writes into a retrieval decision's metadata is read back as knowledge |
| `AnswerService.RoutingErrorsAreUnreachable` | packages/application/ai/answer_service.py:228-280 | after an engine decision the service can fail only in retrieval, on an oversized context, or in generation |
| `Grounding.ValidateEvidenceIdentity` | packages/ai/generation/generator.py:153-166 | accepts exactly evidence in which no two items share a source id |
| `Grounding.ValidateCitations` | packages/ai/generation/generator.py:224-256 | accepts exactly citations that are not repeated, name supplied evidence and do not misstate its title or section |
| `Grounding.Generate` | packages/ai/generation/generator.py:98-136 | maps provider failures and semantic violations to the four generation errors |
| `Grounding.AcceptedReplies` | packages/ai/generation/generator.py:186-256 | a reply is accepted exactly when evidence is unambiguous and it either is grounded with citations each identifying one supplied item, or cites nothing |
| `Guardrails.Evaluate` | packages/guardrails/evaluator.py:64-92 | the loop computes the verdict of the policies in order |
| `Guardrails.FirstViolationWins` | packages/guardrails/evaluator.py:73-92 | a response passes exactly when every policy is silent; otherwise the first to speak decides, and a policy that reports a pass is refused |
| `OrchestratorSafety.EveryStateIsValid` | packages/ai/orchestration/orchestrator.py:346-381 | every state of every run passes the stage check although copies are not re-validated, and no internal invariant check ever fires |
| `OrchestratorSafety.RunsEndClosed` | packages/ai/orchestration/orchestrator.py:446-501 | with guardrails a returning run ends approved or refused, escalated, or failed; a failure is one error, never one of four impossible codes, retryable and filed under a stage as its code demands; an escalation records who called for it and why |
| `OrchestratorSafety.VisibleTextIsVouchedFor` | packages/ai/orchestration/orchestrator.py:735-772 | customer-visible text is an application constant, or this run's answer: passed by every policy, grounded, with at least one citation, none repeated, each identifying an item of this run's evidence |
| `OrchestratorSafety.RejectionsShowConstants` | packages/ai/orchestration/orchestrator.py:857-963 | after a rejection the customer sees the refusal or the guardrail notice |
| `OrchestratorSafety.VisibleTextIsNeverBlank` | packages/application/conversations/process_customer_message.py:785-787 | customer-visible text is never blank, so persisting it is never refused |
| `OrchestratorEndings.RunFollowsTheTable` | packages/ai/orchestration/orchestrator.py:346-978 | the staged run ends exactly as a flat table over its inputs says: which exception, which failure code, or which text |
| `OrchestratorEndings.OversizedContextEscapesIff` | packages/ai/generation/models.py:50 | an oversized-context exception leaves the pipeline exactly for knowledge runs whose context exceeds 30000 characters |
| `OrchestratorEndings.OversizedContextExample` | packages/ai/generation/models.py:50 | a refund request with a context of 30001 letters ends that way |
| `OrchestratorEndings.GenerationFailureIff` | packages/ai/orchestration/orchestrator.py:794-832 | a run fails with a generation code exactly when it consults knowledge, its trimmed context has at most 30000 characters, and the generator accepts no reply |
| `OrchestratorEndings.DirectResponseUnavailableIff` | packages/ai/orchestration/direct_response.py:151-198 | a direct response is unavailable exactly for confident small talk whose text has nothing left to match |
| `OrchestratorEndings.UnopposedAnswersAreShown` | packages/ai/orchestration/orchestrator.py:893-902 | an accepted grounded answer that passes the policies is what the customer sees |
| `OrchestratorEndings.RejectedAnswersDoNotLeak` | packages/ai/orchestration/orchestrator.py:904-963 | when an accepted answer is rejected the ending is a constant chosen by the verdict alone |
| `OrchestratorEndings.ClarificationMeaning` | packages/ai/orchestration/orchestrator.py:566-604 | which clarification question each undecidable intent is asked |
| `OrchestratorEndings.EscalationMeaning` | packages/ai/orchestration/orchestrator.py:606-617 | every escalation the engine decides has its own notice, by the clearest reason |
| `RunMeaning.MessagesAreTakenUpIff` | packages/ai/orchestration/state.py:222-288 | exactly which messages and contexts are taken up, and as what |
| `RunMeaning.ClassifierFailuresAreReported` | packages/ai/orchestration/orchestrator.py:384-443 | each classifier failure ends the run under its own code, a crash in the exception |
| `RunMeaning.SmallTalkIsAnswered` | packages/ai/orchestration/direct_response.py:205-232 | small talk is answered with the capabilities text exactly when that group matches, else the goodbye, thanks or greeting text for the first group that matches with support requests before greetings, else the support prompt; put before the policies |
| `RunMeaning.SomeReplyAnswers` | packages/ai/orchestration/direct_response.py:205-232 | every folded text has exactly one such reply |
| `RunMeaning.OutOfScopeIsAnswered` | packages/ai/orchestration/direct_response.py:151-198 | an out-of-scope request is answered with its own text, put before the policies |
| `RunMeaning.EscalationsShowTheirNotice` | packages/ai/orchestration/orchestrator.py:606-668 | which inputs end in which escalation notice |
| `RunMeaning.QuestionsAreAsked` | packages/ai/orchestration/orchestrator.py:546-604 | exactly who is asked back, and with which question, put before the policies |
| `RunMeaning.KnowledgeFailuresAreReported` | packages/ai/orchestration/orchestrator.py:710-790 | a knowledge run without service, evidence or admissible context ends in the failure or exception of that cause |
| `RunMeaning.RefusedGenerationEndsTheRun` | packages/ai/orchestration/orchestrator.py:794-832 | each way to get no accepted answer ends the run under its own code |
| `RunMeaning.AcceptedGenerationEndsTheRun` | packages/ai/orchestration/orchestrator.py:619-648 | an accepted answer ends in the knowledge-gap notice, in an invalid-status failure, or before the policies, by its status |
| `RunMeaning.GuardedMeaning` | packages/ai/orchestration/orchestrator.py:857-963 | a text put before the policies is shown when all are silent; otherwise the first to speak decides between refusal, notice and exception |
| `RunMeaning.RefusedReplies` | packages/ai/generation/generator.py:98-256 | exactly which generation error each evidence and reply gives |
| `RunMeaning.SignalDecisions` | packages/ai/decision/engine.py:71-135 | the decision that follows each customer signal, with its reason and metadata |
| `RunMeaning.QuestionDecisions` | packages/ai/decision/engine.py:71-135 | the decision behind each question: why it is asked and for what |
| `RunMeaning.RoutedDecisions` | packages/ai/decision/policies.py:83-200 | reason, priority, actionability and retrieval kind of every routed decision |
| `RunMeaning.QuestionsByKey` | packages/ai/orchestration/orchestrator.py:566-604 | the question for any intent and required information, also where the engine never asks |
| `RunMeaning.NoticesByReason` | packages/ai/orchestration/orchestrator.py:606-617 | the notice for every reason to escalate |
| `RunMeaning.ResolutionMeaning` | packages/ai/orchestration/direct_response.py:151-198 | when a direct response can be resolved, for any intent and decision |
| `RunMeaning.AnswerMeaning` | packages/application/ai/answer_service.py:228-309 | how the answer service answers or refuses any message and decision |
| `RunMeaning.AnswerErrorsAreReported` | packages/ai/orchestration/orchestrator.py:736-832 | the code and stage under which each error of the answer service is reported, and whether it may be retried |
| `RunMeaning.UnsupportedWorkIsReported` | packages/ai/orchestration/orchestrator.py:446-501 | a business action and a refused decision fail under their own codes, never to be retried |
| `RunRecords.RunsRecordWhatHappened` | packages/ai/orchestration/state.py:373-557 | a returning run has on record the trimmed input, the intent, the engine's decision, the retrieved evidence or none, the policies' verdict or none, who called a person in, and the time of an escalation or failure |
| `RunRecords.FailuresAreReportedLast` | packages/ai/orchestration/orchestrator.py:384-978 | a run reports a failed stage exactly when it fails: once, as its last report, under the stage of its error |
| `OrchestratorService.AIOrchestrator.ProcessMessage` | packages/ai/orchestration/orchestrator.py:346-381 | the method's result, reports and states are exactly those of the run, states are only appended, and each of them is valid, with a result that meets the safety guarantees |
| `OrchestratorService.AIOrchestrator.ClassifyIntent` | packages/ai/orchestration/orchestrator.py:384-443 | router before classifier; each classifier failure becomes its failed state |
| `OrchestratorService.AIOrchestrator.MakeDecision` | packages/ai/orchestration/orchestrator.py:446-466 | the decision stage of the run |
| `OrchestratorService.AIOrchestrator.ExecuteDecision` | packages/ai/orchestration/orchestrator.py:469-501 | dispatches each decision to its workflow |
| `OrchestratorService.AIOrchestrator.AnswerDirectly` | packages/ai/orchestration/orchestrator.py:503-544 | direct response through generation and guardrails |
| `OrchestratorService.AIOrchestrator.RequestClarification` | packages/ai/orchestration/orchestrator.py:546-564 | clarification through generation and guardrails |
| `OrchestratorService.AIOrchestrator.EscalateFromDecision` | packages/ai/orchestration/orchestrator.py:650-668 | escalation with the reason's notice |
| `OrchestratorService.AIOrchestrator.EscalateFromKnowledgeGap` | packages/ai/orchestration/orchestrator.py:619-648 | escalation with the knowledge-gap notice |
| `OrchestratorService.AIOrchestrator.EscalateFromGuardrail` | packages/ai/orchestration/orchestrator.py:670-707 | records the rejection, then escalates, reporting both stages |
| `OrchestratorService.AIOrchestrator.RetrieveAndGenerate` | packages/ai/orchestration/orchestrator.py:710-842 | retrieval, generation and the mapping of each typed failure |
| `OrchestratorService.AIOrchestrator.CompleteGeneration` | packages/ai/orchestration/orchestrator.py:844-855 | records the answer between its two reports |
| `OrchestratorService.AIOrchestrator.EvaluateGuardrails` | packages/ai/orchestration/orchestrator.py:857-921 | approval, refusal or escalation by the verdict |
| `OrchestratorService.AIOrchestrator.CompleteSafeRefusal` | packages/ai/orchestration/orchestrator.py:923-963 | replaces the candidate before completing the guardrails |
| `StageTelemetry.Observer.StageStarted` | packages/ai/telemetry/observer.py:188-230 | sets the stage's timer and warns exactly when it was already running |
| `StageTelemetry.Observer.FinishStage` | packages/ai/telemetry/observer.py:280-318 | removes the timer and returns the elapsed time, or warns and returns nothing |
| `StageTelemetry.Observer.StageEnded` | packages/ai/telemetry/observer.py:232-276 | ends a stage, completed or failed |
| `StageTelemetry.TimersAreThePerRunTimers` | packages/ai/telemetry/observer.py:173-204 | in any interleaving a run's timers and start times are those of its own reports alone |
| `StageTelemetry.AnomaliesAreTheRunsOwn` | packages/ai/telemetry/observer.py:280-318 | whether a report is anomalous, and its duration, do not depend on other runs |
| `StageTelemetry.ReportsMeaning` | packages/ai/telemetry/observer.py:188-318 | in any interleaving a start warns exactly when the run's stage is running and an end exactly when it is not, and an end is timed from the stage's latest start, never below zero |
| `StageTelemetry.TidyRunsAreInvisible` | packages/ai/telemetry/observer.py:188-318 | a run that starts each stage once and ends what it started draws no warning in any interleaving |
| `RunTraces.TraceOfARun` | packages/ai/orchestration/orchestrator.py:384-978 | what each run leaves open, by how it ended: nothing and no disorder if not failed, the interrupted stage if an exception escaped |
| `RunTraces.UnfailedRunsAreInvisible` | packages/ai/orchestration/orchestrator.py:640-707 | in any interleaving a run that returns unfailed starts each stage at most once, completes exactly what it started, reports no failed stage, draws no warning and leaves no timer |
| `RunTraces.LeftoverTimers` | packages/ai/orchestration/orchestrator.py:794-832 | a returning run leaves a timer exactly when generation fails on its inputs, and then only the retrieval timer |
| `RunTraces.LeftoverTimerExample` | packages/ai/orchestration/orchestrator.py:794-832 | a provider timeout on a refund request leaves the retrieval timer |
| `CallTelemetry.CallsAreAudited` | packages/ai/telemetry/llm_call_recorder.py:92-166 | in any interleaving and pattern of failing writes an invocation follows its committed row and happens once, and a row is finalized at most once, with the status it keeps |
| `CallTelemetry.OutcomesAreRecorded` | packages/ai/providers/instrumented.py:142-193 | a call that ends finds its row open, so a write that is not lost records success, timeout or failure as it was; the caller gets the id exactly when it returned and that write committed |
| `CallTelemetry.CallsBeginIff` | packages/ai/telemetry/llm_call_recorder.py:59-103 | a call is invoked exactly when its id is new and its insert is known to have committed |
| `CallTelemetry.LastCallIdMeansReturned` | packages/ai/providers/instrumented.py:137-193 | an idle provider remembers a call id exactly when its latest call returned, and that row is a success |
| `CallTelemetry.LifeIsLogged` | packages/ai/telemetry/llm_call_recorder.py:180-189 | a call's stage of life says exactly which of its log entries exist |
| `CallTelemetry.Recorder.StartLLMCall` | packages/ai/telemetry/llm_call_recorder.py:59-103 | inserts the started row in its own transaction |
| `CallTelemetry.Recorder.FinishLLMCall` | packages/ai/telemetry/llm_call_recorder.py:105-166 | finalizes a started row, refuses a missing or final one |
| `CallTelemetry.InstrumentedProvider.Generate` | packages/ai/providers/instrumented.py:137-164 | one call leaves the table, the remembered id and its result as the machine's insert, invoke and end steps do |
| `CallTelemetry.CalledIsLocal` | packages/ai/providers/instrumented.py:137-164 | in any situation of any number of providers a whole call has that same effect on the table and its own provider, and touches no other provider |
| `RetrievalTelemetry.PositionIsInverse` | packages/ai/telemetry/retrieval_recorder.py:169-211 | on a list of distinct chunks the rank is the inverse of the position |
| `RetrievalTelemetry.EntriesMatchTheLists` | packages/ai/telemetry/retrieval_recorder.py:169-225 | after lists for distinct channels in any order the entries are the union of their chunks and each rank is the position in that channel's list |
| `RetrievalTelemetry.OriginsIff` | migrations/versions/fc9f99c38a15_create_ai_telemetry_tables.py:230 | every row has a retrieval origin exactly when the later lists introduce no chunk that vector and lexical retrieval did not find |
| `RetrievalTelemetry.SelectionsIff` | migrations/versions/fc9f99c38a15_create_ai_telemetry_tables.py:229 | every selected row has a final rank exactly when the context takes recorded chunks only from the final list |
| `RetrievalTelemetry.StoredIff` | migrations/versions/fc9f99c38a15_create_ai_telemetry_tables.py:221-232 | the candidates can be stored exactly when the later lists introduce no chunk, the context takes recorded chunks only from the final list, and all scores are in range |
| `RetrievalTelemetry.RowsHavePositiveRanks` | migrations/versions/fc9f99c38a15_create_ai_telemetry_tables.py:219-232 | every rank written is positive |
| `RetrievalTelemetry.RowsMeaning` | packages/ai/telemetry/retrieval_recorder.py:298-345 | a row holds its entry, whether the context takes its chunk, and the score of the latest stage that has one, a negative similarity not counting |
| `RetrievalTelemetry.EntriesCarryTheLatest` | packages/ai/telemetry/retrieval_recorder.py:288-296 | an entry carries the scores under which its chunk was recorded last |
| `RetrievalTelemetry.StorableMeaning` | migrations/versions/fc9f99c38a15_create_ai_telemetry_tables.py:221-232 | the CHECK constraints written out |
| `RetrievalTelemetry.Recorder.Rank` | packages/ai/telemetry/retrieval_recorder.py:205-211 | the loop over a ranked list records exactly that list |
| `RetrievalTelemetry.Recorder.Touch` | packages/ai/telemetry/retrieval_recorder.py:288-296 | refreshes or creates one entry and no other |
| `RetrievalTelemetry.Recorder.Record` | packages/ai/telemetry/retrieval_recorder.py:169-203 | records list, count and latency, or nothing when the latency is negative |
| `RetrievalTelemetry.Recorder.Complete` | packages/ai/telemetry/retrieval_recorder.py:213-258 | stores the rows once, exactly when the run is started and open and every row meets the table's constraints; otherwise changes nothing |
| `RetryPolicy.RetryAfterSeconds` | packages/ai/providers/resilient.py:141-160 | a hint is used exactly when it is a number or numeric text, clamped at zero; flags, other text and anything else are not used |
| `RetryPolicy.DelayBelowCeiling` | packages/ai/providers/resilient.py:119-138 | every delay lies between zero and maximum delay times one plus the jitter ratio |
| `RetryPolicy.DelayMeaning` | packages/ai/providers/resilient.py:119-160 | a delay is the server's usable hint, or else the base delay times two to the number of retries, at most the maximum, shifted by its jitter |
| `RetryPolicy.FollowingSleepIsBounded` | packages/ai/providers/resilient.py:103-138 | the sleeps of one call total at most max retries times that ceiling |
| `RetryPolicy.Execute` | packages/ai/providers/resilient.py:103-117 | every attempt before the last failed as a rate limit, timeout or outage; the last is a success, a permanent failure, or attempt max retries plus one; each back-off lasts as scheduled |
| `ProviderAdmission.ReachableInv` | packages/ai/providers/capacity_limited.py:80-136 | permits, call totals, the start lock and start stamps stay sound in every interleaving |
| `ProviderAdmission.ConcurrencyIsBounded` | packages/ai/providers/capacity_limited.py:80-121 | free plus held permits equal the maximum, no more provider calls run than that, and a caller that queues, backs off or is done holds none |
| `ProviderAdmission.CallsAreBounded` | packages/ai/providers/resilient.py:103-138 | each logical call makes at most max retries plus one attempts and sleeps at most max retries times the ceiling |
| `ProviderAdmission.DecideMeaning` | packages/ai/providers/resilient.py:103-138 | a caller backs off exactly after a rate limit, timeout or outage with retries left, for the scheduled delay, and is otherwise finished with that result |
| `ProviderAdmission.CallsFollowTheirResults` | packages/ai/providers/resilient.py:103-117 | in every interleaving a call has made as many attempts as it has results, all but the last transient; it backs off only after a transient one and finishes with the last, which is transient only when the attempts are used up |
| `ProviderAdmission.SomeCallCanMove` | packages/ai/providers/capacity_limited.py:80-136 | no deadlock: while a call is unfinished some call can go on, now or at the time it sleeps for |
| `ProviderAdmission.StartRateIsBounded` | packages/ai/providers/capacity_limited.py:123-136 | consecutive starts are an interval apart, and a closed window of length w holds at most floor(w / interval) + 1 of them |
| `ProviderAdmission.SpacedStarts` | packages/ai/providers/capacity_limited.py:123-136 | starts i and j are at least j - i intervals apart |
| `ProviderAdmission.CapacityLimitedProvider.WaitForStartSlot` | packages/ai/providers/capacity_limited.py:123-136 | stamps the start no earlier than the slot allows and moves the slot one interval past it |
| `ProviderAdmission.CapacityLimitedProvider.Generate` | packages/ai/providers/capacity_limited.py:80-121 | without a permit the call fails as a rate limit and starts nothing; with one it returns the provider's outcome after taking the next start slot; the permit is back either way |
| `ProviderAdmission.AdmittedAttemptIsLocal` | packages/ai/providers/capacity_limited.py:80-136 | in any situation of any number of other callers an admitted attempt has that effect on permits, slot and its own call, and touches no other call |
| `RetrievalMetrics.Construct` | evaluation/retrieval/models.py:255-311 | accepts exactly results with targets, contiguous ranks from one, distinct chunks and matched subsets, and reports missing targets as such |
| `RetrievalMetrics.ComputeReciprocalRank` | evaluation/retrieval/metrics.py:62-77 | the loop returns the reciprocal of the first relevant rank, or zero |
| `RetrievalMetrics.ComputeRecall` | evaluation/retrieval/metrics.py:79-105 | the early-exit loop equals the union over all hits of rank at most k, over the number of targets |
| `RetrievalMetrics.ComputeHit` | evaluation/retrieval/metrics.py:51-60 | refuses a non-positive k; otherwise the early-exit loop returns one exactly when the hits of rank at most k match some target |
| `RetrievalMetrics.HitRecallRankAgree` | evaluation/retrieval/metrics.py:51-105 | hit at k, positive recall at k and reciprocal rank at least 1/k are equivalent |
| `RetrievalMetrics.RecallMonotone` | evaluation/retrieval/metrics.py:79-105 | recall does not fall as k grows |
| `RetrievalMetrics.HitRateMonotone` | evaluation/retrieval/metrics.py:119-130 | the hit rate does not fall as k grows |
| `RetrievalMetrics.MeanRecallMonotone` | evaluation/retrieval/metrics.py:132-143 | the mean recall does not fall as k grows |
| `RetrievalMetrics.MeanRecallAtMostHitRate` | evaluation/retrieval/metrics.py:119-143 | the mean recall at k is at most the hit rate at k |
| `RetrievalMetrics.MrrBetweenHitRates` | evaluation/retrieval/metrics.py:107-162 | the mean reciprocal rank lies between the two weighted sums of hit rates at one, three and five |
| `RetrievalMetrics.SummaryIsAccepted` | evaluation/retrieval/metrics.py:28-48 | the computed summary satisfies its own range and count checks |
| `TopicSplitting.SuccessiveIsSplitAt` | evaluation/retrieval/relevance.py:212-218 | splitting at single-character delimiters one after another is splitting once at all of them |
| `TopicSplitting.FragmentsAreClean` | evaluation/retrieval/relevance.py:212-218 | fragments contain no delimiter, lose and move nothing else, and there is one more of them than delimiters |
| `TopicSplitting.SplitRoundTrip` | evaluation/retrieval/relevance.py:212-218 | fragments with the delimiter put back between them are the text |
| `TopicOrder.FragmentsContainNone` | evaluation/retrieval/relevance.py:212-218 | no fragment contains the delimiter |
| `TopicSplitting.TopicsMeaning` | evaluation/retrieval/relevance.py:202-226 | exactly which labels are topics, split or unsplit |
| `TopicSplitting.SplitFragments` | evaluation/retrieval/relevance.py:212-218 | the nested loops compute the successive split |
| `TopicSplitting.ExtractTopics` | evaluation/retrieval/relevance.py:202-226 | the method computes the set of non-blank normalized labels |
| `DelimiterOrder.OrderIsIrrelevantIff` | evaluation/retrieval/relevance.py:212-218 | two delimiters give the same fragments of every text in either order exactly when neither contains the other and no proper suffix of one is a proper prefix of the other |
| `TopicOrder.TopicsIgnoreOrderIff` | evaluation/retrieval/relevance.py:202-226 | two delimiters extract the same topics from every text under every normalization in either order exactly when they meet that condition, or one is the other repeated and none of its occurrences can begin inside one of the shorter |
| `DelimiterOrder.TopicsIgnoreDelimiterOrder` | evaluation/retrieval/relevance.py:202-226 | the extracted topics do not depend on the order of delimiters that pairwise meet that condition |
| `DelimiterOrder.SingleCharacterTopics` | evaluation/retrieval/relevance.py:202-226 | in particular not on the order of single-character delimiters |
| `DelimiterOrder.ContainmentChangesTopics` | evaluation/retrieval/relevance.py:202-226 | where one delimiter contains the other and leaves a label beside it, the order decides whether that label is a topic |
| `DelimiterOrder.OrderMattersForLongerDelimiters` | evaluation/retrieval/relevance.py:202-226 | the text ab has topic a or none, depending on which of ab and b is the first delimiter |
| `KnowledgeSeeder.InterruptedRunsStaySound` | scripts/seed_knowledge.py:264-418 | whatever seeder runs follow each other, wherever each was interrupted and whatever is embedded in between, a document has no two versions of one content among draft, ready and published, and at most one published version |
| `KnowledgeSeeder.OverlappingRunsCanDuplicate` | scripts/seed_knowledge.py:304-380 | the concrete case: a second seeder prepares any file while the first one's version of it is processed, and completion leaves two live versions |
| `OverlappingSeeders.OverlapIsHarmlessIff` | scripts/seed_knowledge.py:264-418 | for any number of seeders in a sound situation a step is harmless, however the work in progress is completed, exactly when it neither adds a version of content another process is processing nor claims one with a live twin or a rival |
| `OverlappingSeeders.HazardFreeRunsStaySound` | scripts/seed_knowledge.py:264-418 | any interleaving of any number of seeders and embedding without such a step keeps the database sound |
| `OverlappingSeeders.FinishIsSoundIff` | packages/knowledge/application/process_version.py:263-327 | completing a version keeps a sound database sound exactly when no other live version has its content |
| `KnowledgeSeeder.PrepareKeepsSound` | scripts/seed_knowledge.py:280-380 | preparation keeps the database sound and hands on a version of exactly the file's content, draft to process or ready to publish |
| `KnowledgeSeeder.PublishKeepsSound` | packages/knowledge/application/publish_version.py:62-188 | publication of a ready, fully embedded version supersedes the published one and leaves exactly the target published; repeating it succeeds and keeps that |
| `SeederMeaning.PublishMeaning` | packages/knowledge/application/publish_version.py:62-188 | publication is permitted exactly for the published version, where it changes nothing, and for a ready, fully embedded one; then that is published, the one before superseded, and nothing else changes |
| `SeederMeaning.ClaimMeaning` | packages/knowledge/application/process_version.py:165-231 | a version can be claimed exactly while it is a draft or failed and its document active, and is then being processed |
| `SeederMeaning.FinishMeaning` | packages/knowledge/application/process_version.py:263-396 | processing ends exactly for a version being processed, ready without embeddings or failed |
| `SeederMeaning.EmbedMeaning` | packages/knowledge/application/embed_version.py:486-516 | embedding is permitted exactly for ready, published and superseded versions and completes their coverage |
| `SeederMeaning.PreparationMeaning` | scripts/seed_knowledge.py:264-380 | exactly when preparation skips, refuses, reuses the newest ready or draft version, or adds a draft, and what it creates |
| `KnowledgeSeeder.SkippedIff` | scripts/seed_knowledge.py:291-302 | a file is skipped exactly when its document is compatible and already publishes its content, or it is blank; then nothing changes |
| `KnowledgeSeeder.SeededFileIsPublished` | scripts/seed_knowledge.py:383-418 | a file is skipped exactly when up to date, published exactly when its content was ready and embedded beforehand and the service publishes, and fails otherwise; it is up to date afterwards exactly when it did not fail, a failure leaves what is published and what waits alone, and no other document changes |
| `KnowledgeSeeder.NewContentIsNotPublished` | packages/knowledge/application/publish_version.py:110-121 | in an empty database every non-blank file fails, whatever the services do |
| `KnowledgeSeeder.ProcessOutcome` | packages/knowledge/application/process_version.py:263-327 | processing publishes and stages nothing: the version it completes is ready without embeddings |
| `KnowledgeSeeder.PublicationEffect` | packages/knowledge/application/publish_version.py:62-188 | a publication takes exactly the published content off what waits, and leaves everything else waiting as it was |
| `KnowledgeSeeder.WorkingFileStands` | scripts/seed_knowledge.py:383-418 | with working services a usable file ends with its content published, or ready for a later run |
| `KnowledgeSeeder.EveryFileIsCounted` | scripts/seed_knowledge.py:471-479 | discovered files equal skipped plus published plus failed |
| `SeederMeaning.FileIsCounted` | scripts/seed_knowledge.py:383-418 | how one file changes each counter |
| `SeederMeaning.ProcessedFileLeaves` | scripts/seed_knowledge.py:383-418 | a file that has to be processed leaves its version draft, processing, failed or ready without embeddings, as far as the service got, and nothing else changed |
| `SeederMeaning.OtherFilesLeave` | scripts/seed_knowledge.py:383-418 | every other file is published from a waiting version or leaves the database as it was |
| `SeederMeaning.DirectoryIsARun` | scripts/seed_knowledge.py:450-500 | what a whole directory comes to when left alone is what some run of the committed steps comes to |
| `SeederRuns.WorkingRunSucceedsIff` | scripts/seed_knowledge.py:450-500 | a working run has no failures exactly when every file is blank, or belongs to a fitting existing document that shows its content by its turn, or in which that content waits since before the run and no earlier file took it |
| `SeederRuns.SeparateFilesDeliverIff` | scripts/seed_knowledge.py:383-418 | for files of separate documents that condition is: up to date, or ready and embedded, beforehand |
| `SeederRuns.RunsPublishOnlyStagedContent` | scripts/seed_knowledge.py:383-418 | whatever the services do, a run left alone publishes nothing that was not ready and embedded before it began |
| `SeederRuns.FirstRunsPublishNothing` | scripts/seed_knowledge.py:450-500 | a run over an empty database publishes nothing |
| `SeederRuns.WorkingRunPublishes` | scripts/seed_knowledge.py:144-164 | a working run over deliverable files leaves in each document the content of its last non-blank file published |
| `KnowledgeSeeder.LastFileWins` | scripts/seed_knowledge.py:144-164 | whatever the services did, a run that reported no failure published in each document its last non-blank file |
| `SeederRuns.RerunIsIdleIff` | scripts/seed_knowledge.py:291-302 | after a working run over deliverable files a second run skips every file exactly when no two files of one document differ, and then changes nothing |
| `SeederRuns.InterruptedRunsRecoverIff` | scripts/seed_knowledge.py:264-418 | whatever runs were interrupted before, and wherever: after a working run, embedding of all ready versions and a second working run, a third is idle exactly when files of one document agree; then the second failed on none and published every file |
| `SeederRuns.AgreeingDocumentsRecover` | scripts/seed_knowledge.py:304-347 | each document whose files agree recovers by those steps, whatever happens to the other documents |
| `SeederRuns.RecoveryCanComplete` | packages/knowledge/application/embed_version.py:486-516 | the embedding such a recovery needs can always be completed |
| `KnowledgeSeeder.Seeder.PrepareDocumentVersion` | scripts/seed_knowledge.py:264-380 | the step by step preparation has exactly the prepare step's effect and counts what it created |
| `KnowledgeSeeder.Seeder.SeedOne` | scripts/seed_knowledge.py:383-418 | one file, with its counters, raised or not |
| `KnowledgeSeeder.Seeder.Attempt` | scripts/seed_knowledge.py:472-481 | an exception is counted and the loop goes on with the database as it was left |
| `KnowledgeSeeder.Seeder.Run` | scripts/seed_knowledge.py:429-500 | raises before any file, changing nothing, exactly when there are files and the publisher cannot be constructed or Markdown is unsupported, as with the arguments as written; otherwise the loop yields the whole report, and exit code one exactly when something failed |

## Left out

- Interleavings inside one authentication use case (row locks, isolation levels): each use case is one atomic step.
- JWT encoding, password hashing and SHA-256, including the truncation of an expiry to whole seconds when a token is encoded.
- Client addresses, user agents, trace ids and the reason text of access changes.
- Registration's password rules themselves: which passwords are acceptable is a parameter.
- Model-generated prose, prompts, reason summaries, and the wording of templates; lower-casing of policy ids.
- Branches that type checks or closed enumerations make dead: an unsupported grounding status or guardrail outcome, and the answer-workflow failure for a request of the wrong type.
- Policies, observers and telemetry sinks that raise exceptions of the answer workflow itself.
- The default guardrail policies' regular expressions and the deterministic router's patterns.
- Rounding of durations to milliseconds, token usage, cost and request ids of LLM calls.
- Blank or duplicate input normalization in the evaluation models, floating-point rounding, infinities and NaN.
- Metadata key selection, documents and sections in relevance matching: equality tests only.
- Which chunks of a version are embedded, under which provider and input strategy: a version is fully embedded for the configured pair or not, and the worker's last transaction is its step.
- Chunks, audit events and timestamps of knowledge versions; actors other than seeders and the embedding worker changing versions meanwhile.
- Groq, Jina, SQLAlchemy, FastAPI, dashboards, ticketing and the web front end.
- KnowledgeSeeder.LastFileWins: says nothing about runs with failures, in which an earlier file's content may stay published.
- ProviderAdmission.CapacityLimitedProvider.Generate: one caller at a time; concurrent callers are covered by the interleaved machine.
