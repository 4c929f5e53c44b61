# Plaidify: a verified model of its core

Plaidify links accounts on behalf of users: a worker drives a browser through a blueprint,
reads the authenticated page and hands the data to an application. This project models the
parts of it where the correctness of the whole is decided, and proves what they promise.

| module | models | main results |
|---|---|---|
| `AccessJobs`, `JobSteps`, `JobFinality`, `AccessJobStore`, `LockScope` | jobs dispatched over a Redis stream, with reclaim, a lock per scope, time-outs and dying workers | exclusion, ownership of locks, no job lost, exactly which deaths lose one, and exactly when a settled status is final |
| `DomTree`, `DomCleaner`, `Markup`, `ElementTable` | the streaming DOM cleaner | it equals a recursive prune, on any stream it keeps a numbered forest, cleaning twice is cleaning once; a reader of the markup finds the element table in it |
| `StepExecutor`, `StepScripts`, `ReadOnlyPolicy`, `Interpolation` | the blueprint interpreter under the read-only policy | nested steps with handlers at every level run as a flat list without any; every request is one of a step of the tree, its texts filled in; the policy holds on every run |
| `EventDelivery` | the retry queue for lifecycle events | order, bounded attempts, a retry always coming, what back-off is, exactly when it is kept and when disposing drops an event |
| `Envelope` | data keys, master-key rotation, re-encryption, KMS migration | plaintexts survive every run, migrations included; exactly which tokens a batch renews |
| `AuditChain` | the hash-chained audit log | the last hash determines the log; what retention leaves; exactly which events share a payload |
| `CircuitBreaker`, `FallbackChain` | the breaker, retries and the provider chain | breaker laws under any interleaving, bounds on calls and sleep |
| `RefreshScheduler` | scheduled refreshes and their rows | when back-off is monotone, giving up, what a restart restores and when it stops the loop |
| `SelectorCache` | the selector cache and its file | it answers exactly by its history; save then load is the identity |
| `MfaRendezvous` | codes submitted on one worker for a waiter on another | only accepted codes of the session arrive, and they arrive in time |
| `BrowserPool` | permits of the browser pool | every permit accounted for, exactly when the pool can overflow |
| `ListExtraction` | paginated list extraction | the items are the rows of the longest chain of pages, up to the limit |

Each stateful component appears twice: as a pure state machine, over which the theorems
quantify (all runs, all interleavings), and as a class whose methods change fields as the
source does and are proved to take exactly the machine's steps. Playwright, Redis, the
database, the language models and the key providers are oracles or maps: whatever they
answer, the theorems hold. Times are integers on one clock.

What the machines' own functions compute is stated a second time without naming them: by
laws of single steps (`StatusWrites`, `OutcomeSettles`, `EditsJob`, `CreatedIs`), by scripts
of what each handler asks for (`StepPlaysItsScript`), by readers of what is written
(`MarkupTellsTable`, `PayloadReads`, `DecimalReads`), by exact conditions (`ReEncryptedIff`,
`AdmitsAndModes`) and by the doubling laws of every back-off (`DelaysDouble`,
`IntervalsDouble`).

Several properties that one might expect turn out to be false of the code. Each is stated
with the inputs that break it and with the exact condition under which it holds:

- A settled job status is not final: a redelivered job can be reported blocked and later
  completed (`BlockedThenCompleted`). It is final exactly when no attempt on the job can
  still write another status and its message cannot be claimed again before its payload
  expires (`SettledIsFinalIff`).
- A worker's death loses a job exactly when it is not `Harmless`; that includes a death
  while another worker has written its last status but not yet acked (`NoJobLost`,
  `HarmfulStepLosesJob`).
- Two executors of one scope can overlap, exactly once one has outlived its lock
  (`MutualExclusion`, `OverrunBreaksExclusion`).
- A retry does not always keep its back-off: an `enqueue` retries at once
  (`EnqueueSkipsBackoff`), and a timer left pending by an earlier failure is not set again
  (`PendingTimerSkipsBackoff`). `BackoffKeptIff` is the condition.
- `dispose` during a post can drop a newer event (`DisposeDropsNewerEvent`); exactly when,
  `DisposeDropsIff` says. Between posts it is harmless (`TidyDisposeIsHarmless`).
- A half-open breaker has a single trial call exactly when nobody else calls before it ends
  (`SequentialTrial`, `HalfOpenAdmitsAll`, `ConcurrentTrials`).
- A data key created between a rotation and the switch to the new master key makes the next
  rotation abort (`LateDekReached`, `LateDekBlocksNextRotation`); a rotation goes through exactly when every
  data key is under the key that is current (`RotateMasterKey`). The KMS migration skips
  such a data key and reports success, and it is lost with the switch of the provider
  (`SkippedDataKeyIsLost`, `SwitchProviderIff`).
- Audit payloads join unescaped fields. Different events can have one payload by a bar moved
  between fields (`PayloadHidesFieldBoundaries`) or, without any bar, by an optional text
  that spells "None" (`PayloadHidesAbsence`). `SamePayloadIff` says which events share one.
- A refresh can come sooner after a failure than without: exactly when the interval is above
  the cap, as the weekly one is (`BackoffNeverShrinksIff`).
- A restart restores the enabled jobs but not their schedule: the time of the last refresh
  comes back without its time zone, and the due check raises on it. One such job stops
  every job until it is disabled or unscheduled (`TickAfterRestart`, `RestoredJobStopsAll`,
  `RefreshedThenRestarted`).
- A refresh row keeps the user it was first written with. The scheduler does not exclude
  that a token is scheduled for another user after its job was disabled and dropped, though
  the callers in the repository do (`StaleOwner`, `OwnersAgreeUnless`).
- A session object left over on one worker can make it delete the payload of a newer session
  (`StaleObjectReached`), exactly when a submission is not accepted
  (`StaleObjectDropsSession`).
- A worker that resumes a session while it still has an object without a code overwrites a
  code that another worker accepted (`ResumeLosesCode`); `ResumeKeepsCodeIff` says exactly
  when the code stays.
- Idle cleanup makes the owner's own release unmatched, and the pool can exceed its size
  exactly when unmatched releases outnumber lost permits (`CleanupMakesReleaseUnmatched`,
  `PermitsAccountedFor`, `SurplusOverflows`).
- Two pages can share one cache key (`SlashConfusesKeys`), exactly when the domain of one
  runs on, past a slash, into the path of the other (`SameTextIff`, `OwnKeyIff`).

## Model

| member | source | states |
|---|---|---|
| `LockScope.SamePrincipalIff` | src/access_jobs.py:333-349 | who a request acts for: the same user, or without users hints equal up to letter case and edge spaces, or nobody |
| `LockScope.ScopeSharedIff` | src/access_jobs.py:333-349 | two requests share a lock scope exactly when they act for the same principal on sites that differ at most in letter case and edge spaces, if their two hash inputs do not collide |
| `AccessJobs.InvStep` | src/access_jobs.py:366-396 | every step of every worker keeps: an attempt in its critical section owns the key of its scope while that key lives |
| `AccessJobs.MutualExclusion` | src/access_jobs.py:551-627 | in every reachable state, of two attempts in the critical section of one scope one has outlived its 360 s lock |
| `AccessJobs.OnlyOwnerReleases` | src/access_jobs.py:33-83 | no step but the release by its own token removes or replaces a live key, however long anything takes |
| `AccessJobs.OverrunBreaksExclusion` | src/access_jobs.py:366-396 | once an executor has outlived its lock, a second one for the same scope can be started beside it |
| `AccessJobs.SafeStep` | src/access_jobs.py:551-640 | a harmless step leaves every dispatched job settled, or with an attempt obliged to settle it, or with its message and nobody about to ack it |
| `AccessJobs.NoJobLost` | src/access_jobs.py:719-778 | on every run of harmless steps a dispatched job has its message un-acked, or an attempt in flight, or a settled status |
| `AccessJobs.HarmfulStepLosesJob` | src/access_jobs.py:719-778 | after any other death or cancellation the remaining attempts can finish and leave the job lost: the condition is exact |
| `AccessJobs.LostForever` | src/access_jobs.py:211-251 | a lost job stays lost on every run |
| `AccessJobs.StatusChangedByOwnAttempt` | src/access_jobs.py:295-311 | only an attempt on the job itself changes its status, and marking failed never overwrites a settled one |
| `JobSteps.StatusWrites` | src/access_jobs.py:551-640 | over steps: exactly which step writes each status: failed by an executor that raised or by marking failed, mfa_required by an MFA request, cancelled by a cancellation, blocked and completed by their own writes, and no other step any |
| `JobSteps.PhasesFollow` | src/access_jobs.py:551-640 | the phase that each step of an attempt leads to, one by one |
| `AccessJobs.BlockedThenCompleted` | src/access_jobs.py:211-242 | a run in which one job is reported blocked and afterwards completed |
| `JobFinality.SettledIsFinalIff` | src/access_jobs.py:551-640 | in every reachable state, a settled status never changes again on any run exactly when no attempt on the job can write another one and its message cannot be claimed before its payload expires |
| `JobFinality.QuiescentStep` | src/access_jobs.py:719-778 | no step of anybody leaves that condition or changes the row under it |
| `AccessJobStore.Store.ClaimDispatchedMessage` | src/access_jobs.py:211-242 | an idle delivered message is reclaimed before a new one is read; nothing is claimed exactly when nothing is claimable |
| `AccessJobStore.Store.AcquireRedisLock` | src/access_jobs.py:366-396 | polling sets the key only when it is free, and gives up exactly when the key is held through the deadline |
| `AccessJobStore.Store.ReleaseScopeLock` | src/access_jobs.py:62-83 | is the release step: the key goes only if it still carries this token |
| `AccessJobStore.Store.MarkJobFailed` | src/access_jobs.py:295-311 | is the mark-failed step |
| `AccessJobStore.Store.RunExecutor` | src/access_jobs.py:566-627 | from the held lock to the released one: the row ends completed, blocked on an MFA code, cancelled or failed as the executor returned, asked for one, was cancelled or raised, by steps of the machine |
| `AccessJobStore.Store.ExecuteJob` | src/access_jobs.py:551-640 | the job ends blocked exactly when the key is held through the wait, and otherwise as its executor's outcome says; messages and payloads are untouched |
| `AccessJobStore.Store.ProcessDispatchedAccessJob` | src/access_jobs.py:719-778 | undisturbed, a claimable job ends failed without its payload, blocked if its lock stays held, and otherwise in the status its executor's outcome calls for, each named outright; its payload gone and its message acked; otherwise nothing changes |
| `DomTree.DrawConcat` | src/core/dom_simplifier.py:196-245 | numbering a list of trees in two parts: the second part goes on where the first stopped |
| `DomTree.CollapseIdempotent` | src/core/dom_simplifier.py:292-294 | collapsing whitespace twice is collapsing it once |
| `DomTree.EscapeIsPerChar` | src/core/dom_simplifier.py:297-299 | the sequential replacements amount to one substitution per character |
| `DomTree.EscapeRoundTrip` | src/core/dom_simplifier.py:297-299 | an attribute-value reader gets every escaped value back |
| `DomTree.PruneAllClean` | src/core/dom_simplifier.py:200-279 | what survives the prune carries only kept attributes, no stripped or skipped tag and no blank text |
| `DomTree.RecleanAll` | src/core/dom_simplifier.py:200-279 | pruning the read-back document changes neither markup, numbers nor table |
| `DomCleaner.AnyStreamForest` | src/core/dom_simplifier.py:196-279 | on any event stream the ids are p1 to pn, every child is younger than its parent and in one list only |
| `DomCleaner.CleaningIsPruning` | src/core/dom_simplifier.py:182-286 | on the events of any well-formed document, output and element map equal the numbered recursive prune, and skip depth and stack return to their start |
| `DomCleaner.CleaningTwice` | src/core/dom_simplifier.py:182-286 | cleaning the cleaned document gives the same state |
| `Markup.OpenTagReads` | src/core/dom_simplifier.py:225-245 | a reader of tags, defined without the writer, gets tag name and attributes back from every written tag, whatever the values contain |
| `Markup.DocumentScans` | src/core/dom_simplifier.py:182-286 | scanning the markup of a whole pruned document yields its tags in order, and text is never taken for a tag |
| `Markup.MarkupTellsTable` | src/core/dom_simplifier.py:225-245 | in the markup that the cleaner itself produced, the n-th opening tag has the tag name and the attributes of the n-th element of its table, and the number in the tag is the key in the table |
| `ElementTable.DrawAllDescribes` | src/core/dom_simplifier.py:200-279 | the table tells of each element its tag, its attributes, its children and its own text joined by blanks, as read off the tree alone |
| `ElementTable.KeptAttrsAre` | src/core/dom_simplifier.py:217-227 | a kept attribute has the last value given for its name in any letter case, and no other attribute is kept |
| `ElementTable.CollapseIsJoin` | src/core/dom_simplifier.py:292-294 | collapsing whitespace leaves the words of the text joined by single blanks |
| `DomCleaner.DOMCleaner.HandleStartTag` | src/core/dom_simplifier.py:200-245 | is the start-tag transition |
| `DomCleaner.DOMCleaner.HandleEndTag` | src/core/dom_simplifier.py:247-261 | is the end-tag transition |
| `DomCleaner.DOMCleaner.HandleData` | src/core/dom_simplifier.py:263-279 | is the text transition |
| `DomCleaner.DOMCleaner.FeedEvents` | src/core/dom_simplifier.py:182-286 | feeding a stream handler by handler is the run of the transducer |
| `Interpolation.HolesFilledOnce` | src/core/step_executor.py:59-68 | every placeholder of a value is replaced exactly once, unknown ones stay, and text brought in by a variable is not scanned again |
| `Interpolation.EveryValueHasParts` | src/core/step_executor.py:59-68 | every value whatever is made of such literals and placeholders |
| `Interpolation.FilledTextIs` | src/core/step_executor.py:59-68 | interpolation in general is filling the placeholders of whatever parts a value has |
| `ReadOnlyPolicy.WordsAre` | src/core/read_only_policy.py:128-150 | the words of a click descriptor: any character but letters and digits separates, and what stands between is one word in lower case |
| `ReadOnlyPolicy.DescriptorWords` | src/core/read_only_policy.py:128-150 | a descriptor has the words of the selector and then those of each text that the page gives for the element |
| `ReadOnlyPolicy.MetadataOnlyAddsReasons` | src/core/read_only_policy.py:128-150 | a click blocked on part of what the page says of the element is blocked on all of it |
| `ReadOnlyPolicy.ReadOnlyExecutionPolicy.RecordBlocked` | src/core/read_only_policy.py:73-81 | appends one entry with the current phase |
| `ReadOnlyPolicy.ReadOnlyExecutionPolicy.EvaluateClickTarget` | src/core/read_only_policy.py:128-144 | blocks exactly the clicks of the read phase whose descriptor contains a risky phrase, naming the first pattern that matches |
| `StepExecutor.Sanitised` | src/core/step_executor.py:257-264 | a screenshot name keeps its letters, digits, underscores and dashes, and has an underscore for every other character |
| `StepExecutor.OnlyDomainErrorsEscape` | src/core/step_executor.py:70-120 | for any steps and any page, only failed connections, unavailable sites, policy violations and cancellation leave `execute_steps` |
| `StepExecutor.ExecuteConcat` | src/core/step_executor.py:90-120 | executing a list is executing its first part and, if that finished, its second |
| `StepExecutor.ConditionalIsItsBranch` | src/core/step_executor.py:266-281 | a conditional step is the branch its condition selects: nothing the then-steps raise, a timeout included, starts the else-steps |
| `StepExecutor.TreesRunStraight` | src/core/step_executor.py:70-147 | every tree of steps makes the requests, the records and the outcome of a flat interpreter without nesting or handlers |
| `StepExecutor.PolicyHolds` | src/core/read_only_policy.py:91-144 | on every run: a violation comes with exactly one record and only in the read and cleanup phases, where nothing is filled, selected or evaluated; while reading, nothing is pressed whose own description is risky |
| `StepExecutor.FirstMutationStops` | src/core/step_executor.py:149-162 | the first mutating step a guarded run reaches is recorded once, asks the page nothing and ends the run |
| `StepScripts.StepPlaysItsScript` | src/core/step_executor.py:195-343 | a step that does not branch makes the requests of its script, written out for every kind of step with its selectors, defaults and filled texts, up to the first bad answer |
| `StepScripts.RequestsComeFromSteps` | src/core/step_executor.py:70-147 | over whole runs of any tree: every request comes from a step of the tree, so whatever is typed, selected or opened is the filled text of one |
| `StepScripts.FillTypesItsValue` | src/core/step_executor.py:211-221 | a fill step whose value has given parts waits for its field and types those parts with the placeholders filled |
| `StepExecutor.StepExecutor.Click` | src/core/step_executor.py:223-245 | the click handler asks, judges, records and presses as specified |
| `StepExecutor.StepExecutor.DescribeClickTarget` | src/core/step_executor.py:164-191 | any error but a cancellation counts as no metadata |
| `StepExecutor.StepExecutor.Goto` | src/core/step_executor.py:195-209 | navigation: no URL, a timeout and a server error map to their domain errors |
| `StepExecutor.StepExecutor.Fill` | src/core/step_executor.py:211-221 | the fill handler waits, then fills the interpolated value |
| `StepExecutor.StepExecutor.Simple` | src/core/step_executor.py:247-343 | the handlers that make at most one request |
| `StepExecutor.StepExecutor.EnforceStepPolicy` | src/core/step_executor.py:149-162 | records and raises exactly when the policy forbids the step |
| `StepExecutor.StepExecutor.Conditionally` | src/core/step_executor.py:266-281 | the `try` over wait and then-steps, as the source nests it |
| `StepExecutor.StepExecutor.RunStep` | src/core/step_executor.py:122-147 | policy first, then the handler |
| `StepExecutor.StepExecutor.Run` | src/core/step_executor.py:70-120 | the loop with its `except` clauses is the specified big step |
| `EventDelivery.Delivery` | frontend-next/src/events.ts:81-154 | without `dispose`: settled events followed by the queue are the enqueue history, a waiting event is in flight or has a retry coming, the post is for the head, others are untouched, and no event is posted more often than the limit |
| `EventDelivery.InvStep` | frontend-next/src/events.ts:81-154 | every uninterrupted stretch of script but `dispose` keeps that invariant |
| `EventDelivery.OutcomeUsesWork` | frontend-next/src/events.ts:106-154 | every post that ends, either way, uses up remaining attempts, and only new events add any |
| `EventDelivery.RetriesAreBounded` | frontend-next/src/events.ts:106-154 | once no events arrive, only as many posts can still end as there are attempts left |
| `EventDelivery.WhatStartsPosts` | frontend-next/src/events.ts:81-154 | apart from ends of posts: an idle queue starts a post exactly by an `enqueue`, or by its due timer if anything waits, for the head; a post in flight stays, and only `dispose` takes from the queue |
| `EventDelivery.OutcomeSettles` | frontend-next/src/events.ts:126-154 | an accepted event, and one that failed for the last time allowed, leaves the queue and the next is posted; any other failure leaves the queue alone with a retry pending |
| `EventDelivery.DelaysDouble` | frontend-next/src/events.ts:148-152 | the timer a failure arms: after a first failure the smaller of base and cap, and after each further one twice the delay before, up to the cap |
| `EventDelivery.NextPostIs` | frontend-next/src/events.ts:96-154 | the next post after a failure that is not the last is for the same event, by an `enqueue` or by the timer once due |
| `EventDelivery.BackoffKeptIff` | frontend-next/src/events.ts:96-154 | for every reachable failure that is not the last: on all continuations in which no `enqueue` starts it, the retry comes at least the back-off later exactly when no timer was pending or it was not due sooner; if an `enqueue` may start it, only when there is no back-off |
| `EventDelivery.EnqueueSkipsBackoff` | frontend-next/src/events.ts:81-84 | a run in which `enqueue` retries the failed head at once |
| `EventDelivery.PendingTimerSkipsBackoff` | frontend-next/src/events.ts:96-99 | a run in which the second failure of an event finds the first timer pending and is retried after the first back-off |
| `EventDelivery.TidyDisposeIsHarmless` | frontend-next/src/events.ts:157-164 | on runs that dispose between posts only, nothing is settled that was not posted |
| `EventDelivery.DisposeDropsIff` | frontend-next/src/events.ts:157-164 | after a `dispose` during a post, an event is settled unposted exactly when one arrives before that post ends and the post succeeds or was the last attempt |
| `EventDelivery.DisposeDropsNewerEvent` | frontend-next/src/events.ts:157-164 | a run in which `dispose` during a post makes a never-posted event disappear |
| `EventDelivery.EventDelivery.Enqueue` | frontend-next/src/events.ts:81-84 | is the enqueue step |
| `EventDelivery.EventDelivery.OnPosted` | frontend-next/src/events.ts:126-131 | is the step of an accepted post |
| `EventDelivery.EventDelivery.OnFailed` | frontend-next/src/events.ts:132-153 | is the step of a failed post, with a callback that may enqueue |
| `EventDelivery.EventDelivery.OnTimer` | frontend-next/src/events.ts:96-104 | is the step of the timer |
| `Envelope.ReadableIff` | src/database.py:171-188 | exactly when a credential reads back: its owner's data key unwraps, and it is sealed under that key or under the current master key |
| `Envelope.UserRoundTrip` | src/database.py:155-188 | what a user's key seals the same user reads back, and sealing works exactly when the data key unwraps |
| `Envelope.InvStep` | src/database.py:191-285 | key creation, storing, rotation, migration, switching and re-encryption keep every credential sealed for its own plaintext |
| `Envelope.PlaintextsSurvive` | src/database.py:56-285 | over every run, KMS migrations included: a credential reads back as stored exactly when its owner's data key unwraps and it is sealed under that or under the current master key, and never as something else |
| `Envelope.DataKeysUnwrap` | src/database.py:105-146 | if providers are switched after complete migrations only, every data key unwraps outside a rotation or migration |
| `Envelope.SwitchProviderIff` | scripts/migrate_to_kms.py:19-29 | configuring the new provider leaves every data key readable exactly when the migration was complete |
| `Envelope.SkippedDataKeyIsLost` | scripts/migrate_to_kms.py:69-97 | a data key readable under the previous master key is skipped without a failure and lost with the switch |
| `Envelope.LateDekBlocksNextRotation` | src/database.py:191-235 | a data key made between rotation and switch stays readable and makes the next rotation abort |
| `Envelope.LateDekReached` | src/database.py:191-235 | a run from the empty database to a data key that is readable under the previous master key only |
| `Envelope.RewrapKeepsDek` | src/database.py:199-235 | re-wrapping changes the wrapping key and not the data key |
| `Envelope.RotationRewraps` | src/database.py:199-235 | a rotation goes through exactly when every data key is under the current master key, and then every one is under the new key with its value kept |
| `Envelope.ReEncryptedSound` | src/database.py:243-285 | a re-encrypted token holds the same plaintexts under its owner's data key, at the current version |
| `Envelope.ReEncryptedIff` | src/database.py:262-276 | a token is re-encrypted exactly when its owner exists and has a data key that unwraps, and both credentials are under it or under the current master key |
| `Envelope.BatchRenews` | src/database.py:258-285 | a batch renews exactly those of its rows, leaves every other row as it was, and their number is what it reports |
| `Envelope.SwitchMakesStale` | src/database.py:238-259 | on every run, configuring a new master key makes every token stale |
| `Envelope.BatchLowersStale` | src/database.py:243-285 | a batch lowers the number of stale tokens by exactly what it renews and touches no other row |
| `Envelope.MigrationResumes` | scripts/migrate_to_kms.py:69-88 | migration keeps data keys, leaves migrated rows alone, and two passes come to one that fails only where both failed |
| `Envelope.Database.EnsureUserDek` | src/database.py:191-196 | a user without a data key gets one, others keep theirs |
| `Envelope.Database.RotateMasterKey` | src/database.py:199-235 | re-wraps every data key, or raises with nothing changed exactly when one does not open |
| `Envelope.Database.ReEncryptTokens` | src/database.py:243-285 | of the stale rows it fetches, exactly the recoverable ones are renewed, counted and stale no longer, and the others stay as they are |
| `Envelope.Database.ReEncryptAll` | sdk/plaidify/cli.py:669-676 | the loop ends for every batch size from one up, and if its last batch skipped nothing no token is stale |
| `Envelope.Database.MigrateToKms` | scripts/migrate_to_kms.py:69-88 | every row migrates on its own; each counter is the number of rows with that fate, and they add up to the users with data keys |
| `AuditChain.VerifiesIff` | src/audit.py:102-152 | verification finds nothing exactly when every entry names its predecessor's hash and carries the hash of its own payload |
| `AuditChain.AppendKeepsFindings` | src/audit.py:39-99 | appending adds no finding, whatever state the log is in |
| `AuditChain.AppendsKeepFindings` | src/audit.py:39-99 | so every serial run of appends verifies |
| `AuditChain.AppendsAdd` | src/audit.py:39-99 | and leaves the log as it was, with the events added in their order |
| `AuditChain.LastHashDetermines` | src/audit.py:21-36 | two verified logs with one last hash have equal length and equal payloads throughout, or exhibit a collision |
| `AuditChain.ChangedEventIsFound` | src/audit.py:102-152 | changing the event of one entry of a verified log gives exactly one finding, at that entry, unless the hashes collide |
| `AuditChain.RetentionFindings` | src/app.py:195-206 | deleting a non-empty proper prefix leaves exactly one finding, at the first kept entry |
| `AuditChain.RetentionThenAppends` | src/app.py:195-206 | and it stays the only one however many entries follow |
| `AuditChain.PayloadReads` | src/audit.py:21-36 | cutting a payload at its bars gives the pieces of its fields in order |
| `AuditChain.PlainPayloadReads` | src/audit.py:21-36 | without bars in them the nine fields read back, each in its place |
| `AuditChain.SamePayloadIff` | src/audit.py:21-36 | two events have one payload exactly when their shown fields, cut at every bar and laid end to end, are the same pieces |
| `AuditChain.PlainPayloadDeterminesEvent` | src/audit.py:21-36 | without bars: exactly when they are the same event up to optional texts (agent, resource, metadata, address) that spell "None" |
| `AuditChain.PayloadHidesFieldBoundaries` | src/audit.py:21-36 | two different events with one payload, by a bar |
| `AuditChain.PayloadHidesAbsence` | src/audit.py:21-36 | two different events with one payload and no bar |
| `AuditChain.AuditTrail.RecordAuditEvent` | src/audit.py:39-99 | appends the linked entry and changes no finding |
| `AuditChain.AuditTrail.VerifyAuditChain` | src/audit.py:102-152 | reports exactly the findings, and valid exactly when every entry is linked |
| `CircuitBreaker.BreakerLaws` | src/core/circuit_breaker.py:38-99 | under any interleaving: closed exactly below the threshold since the last success, open since the latest failure, trials at least the reset timeout apart |
| `CircuitBreaker.AdmitsAndModes` | src/core/circuit_breaker.py:65-99 | in every reachable state: a call is rejected exactly while the circuit is open and the timeout since the latest failure has not passed; and the mode that each step leads to |
| `CircuitBreaker.SequentialTrial` | src/core/circuit_breaker.py:65-73 | with sequential callers a half-open circuit has one call in flight |
| `CircuitBreaker.HalfOpenAdmitsAll` | src/core/circuit_breaker.py:65-73 | a half-open circuit admits exactly the calls made before the first one ends |
| `CircuitBreaker.ConcurrentTrials` | src/core/circuit_breaker.py:65-73 | with concurrent callers it admits any number |
| `CircuitBreaker.FailingCallsBounded` | src/core/circuit_breaker.py:65-99 | a failing dependency called sequentially is called at most threshold times plus once per reset timeout since first opening |
| `CircuitBreaker.CircuitBreaker.BeforeCall` | src/core/circuit_breaker.py:65-73 | admits or rejects as specified and says how long is left |
| `CircuitBreaker.CircuitBreaker.Call` | src/core/circuit_breaker.py:90-99 | a rejected call records nothing, a finished one its own outcome, a cancelled one only its entry |
| `FallbackChain.DelaysDouble` | src/core/circuit_breaker.py:125-132 | a hint is the delay, cut to the range from 0 to the cap; without hints the first delay is the base so cut, and each further one twice the one before, up to the cap |
| `FallbackChain.HalfAtLeast` | src/core/circuit_breaker.py:131-132 | jitter leaves at least half of the delay and adds nothing |
| `FallbackChain.SleepsAtLeast` | src/core/circuit_breaker.py:102-143 | retries asked to wait sleep for at least half of that each |
| `FallbackChain.SleepBounds` | src/core/circuit_breaker.py:102-143 | one provider's retries sleep at most retries times the cap, and without hints at most the geometric sum |
| `FallbackChain.RetryWithBackoff` | src/core/circuit_breaker.py:102-143 | calls until the first result that is not a rate limit or the last attempt, one more than the retries, and sleeps in between |
| `FallbackChain.FinalIs` | src/core/circuit_breaker.py:102-143 | retrying ends with the first result that is no rate limit, or with that of the last attempt allowed |
| `FallbackChain.DecidingIsFirst` | src/core/llm_provider.py:455-494 | the chain ends with the first provider whose result it does not move on from, and with none if there is none |
| `FallbackChain.ChainAnswers` | src/core/llm_provider.py:455-494 | its result is that of the first provider that ends with a response, a failed authentication or a foreign exception, and a provider error if all are rate-limited or fail otherwise |
| `FallbackChain.CallChain` | src/core/llm_provider.py:455-494 | asks providers in order up to that one; calls and sleep are the sums over them, with at most retries + 1 calls each |
| `FallbackChain.ChainSleepBounds` | src/core/llm_provider.py:455-494 | that sum is at most the number of providers asked times what one may sleep |
| `FallbackChain.Extract` | src/core/llm_provider.py:432-453 | nothing is called when the breaker rejects; otherwise exactly one outcome is recorded, a success just for a response |
| `RefreshScheduler.BackoffNeverShrinksIff` | src/scheduled_refresh.py:298-303 | the effective interval never shrinks with failures exactly when the interval is at most the cap; the weekly preset is outside |
| `RefreshScheduler.IntervalsDouble` | src/scheduled_refresh.py:298-303 | the effective interval is the plain one without failures, and doubles with every failure up to the cap |
| `RefreshScheduler.SchedulesAre` | src/scheduled_refresh.py:55-72 | which schedules resolve: presets by name in any letter case with their own interval, "interval" or no name with a given interval, and no others |
| `RefreshScheduler.EditsJob` | src/scheduled_refresh.py:127-207 | a schedule or update edits the one job, enabling and clearing failures exactly when asked to, keeps its user and history, and does nothing when what it asks for does not resolve |
| `RefreshScheduler.TickStarts` | src/scheduled_refresh.py:268-303 | a pass starts exactly the enabled jobs never refreshed or past their effective interval, and none if an enabled job has a refresh time without time zone |
| `RefreshScheduler.InvStep` | src/scheduled_refresh.py:127-224 | scheduling, updating, executing, persisting and restarting keep jobs and rows in step |
| `RefreshScheduler.JobsStaySound` | src/scheduled_refresh.py:55-72 | in every reachable state a preset carries its own interval and an enabled job has failed fewer than ten times in a row |
| `RefreshScheduler.RestartRestores` | src/scheduled_refresh.py:362-387 | with no result waiting to be persisted, a restart restores exactly the enabled jobs: schedules, failures and errors as they were, the row's user, and the last refresh without its time zone |
| `RefreshScheduler.TickAfterRestart` | src/scheduled_refresh.py:268-296 | after a restart in any reachable state, a pass starts every restored job if none was ever refreshed, and none at all otherwise |
| `RefreshScheduler.RestoredJobStopsAll` | src/scheduled_refresh.py:268-296 | one restored job that was ever refreshed stops every job on every run, until it is disabled or unscheduled |
| `RefreshScheduler.RestartSticks` | src/scheduled_refresh.py:362-387 | every restart that restores such a job leads there |
| `RefreshScheduler.RefreshedThenRestarted` | src/database.py:667-682 | a run to such a stop from an empty scheduler |
| `RefreshScheduler.OwnersAgreeUnless` | src/scheduled_refresh.py:389-423 | rows keep naming the users of their jobs, and a restart restores them, exactly as long as no token whose row outlived its job is scheduled for another user |
| `RefreshScheduler.StaleOwner` | src/scheduled_refresh.py:389-423 | a run of the scheduler to a row that restores the wrong user |
| `RefreshScheduler.FirstFailureStarts` | src/scheduled_refresh.py:327-343 | the first failure of an enabled job starts a series of failures in the sense of the next row |
| `RefreshScheduler.FailingJobIsGivenUp` | src/scheduled_refresh.py:290-358 | a failing job left alone counts every failure, is disabled by the tenth, and takes at least the sum of its effective intervals |
| `RefreshScheduler.RefreshScheduler.ScheduleJob` | src/scheduled_refresh.py:127-178 | is the schedule step, refused exactly for an unknown format |
| `RefreshScheduler.RefreshScheduler.UpdateJob` | src/scheduled_refresh.py:180-207 | is the update step, refused exactly for an unknown token or format |
| `RefreshScheduler.RefreshScheduler.UnscheduleJob` | src/scheduled_refresh.py:213-224 | is the unschedule step |
| `RefreshScheduler.RefreshScheduler.DueJobs` | src/scheduled_refresh.py:268-303 | starts exactly the enabled jobs that are due, or none if the due check raises, which it does exactly for an enabled job restored with a refresh time |
| `RefreshScheduler.RefreshScheduler.RecordSuccess` | src/scheduled_refresh.py:305-325 | is the step of a successful fetch: time taken, error and failures cleared |
| `RefreshScheduler.RefreshScheduler.RecordFailure` | src/scheduled_refresh.py:327-343 | is the step of a failed fetch: time and error taken, one failure more, and the tenth disables the job |
| `RefreshScheduler.RefreshScheduler.PersistJob` | src/scheduled_refresh.py:389-423 | updates the row, or adds it, leaves the user of an existing one, and drops the time zone |
| `RefreshScheduler.RefreshScheduler.LoadFromDb` | src/scheduled_refresh.py:362-387 | is the restart step, and counts what it loads; refresh times come back as the row holds them |
| `SelectorCache.SamePageIff` | src/core/selector_cache.py:112-115 | two requests are for one page exactly when their domains differ at most in letter case and edge spaces and their paths in slashes at the ends |
| `SelectorCache.TrimTakesSlashes` | src/core/selector_cache.py:112-115 | trimming a path takes all slashes from its ends and nothing else |
| `SelectorCache.SameTextIff` | src/core/selector_cache.py:112-115 | two pages have one key text exactly when they are the same page or the domain of one runs, past a slash, into the path of the other |
| `SelectorCache.OwnKeyIff` | src/core/selector_cache.py:112-115 | without digest collisions a page has its own key exactly when no operation is for a page so confused with it |
| `SelectorCache.KeysTellPagesApart` | src/core/selector_cache.py:112-115 | for domains without a slash, key texts coincide exactly when normalised domain and trimmed path do |
| `SelectorCache.SlashConfusesKeys` | src/core/selector_cache.py:112-115 | two pages with one key text |
| `SelectorCache.SlashFreeKeysAreOwn` | src/core/selector_cache.py:112-115 | without slashes in domains and without digest collisions every page has its own key |
| `SelectorCache.StoreTracksHistory` | src/core/selector_cache.py:141-262 | under a page's key the store holds what its latest surviving put put, with the failures and successes counted since and the times of the last ones |
| `SelectorCache.GetAnswersIff` | src/core/selector_cache.py:141-162 | for a page with its own key, over any history: `get` answers exactly when the latest put survives, is within its time to live and has fewer than three failures since it was put or succeeded, and answers with what was put and the count of its successes |
| `SelectorCache.SaveThenLoad` | src/core/selector_cache.py:283-306 | loading what was saved gives the store back |
| `SelectorCache.FromDictDefaults` | src/core/selector_cache.py:93-106 | a record is refused exactly when one of four keys is missing; the others have defaults |
| `SelectorCache.SelectorCache.LookUp` | src/core/selector_cache.py:141-162 | is `get` on the abstract store, and returns the stored object itself |
| `SelectorCache.SelectorCache.PutPage` | src/core/selector_cache.py:164-205 | is the put operation and leaves file and store in step |
| `SelectorCache.SelectorCache.RecordSuccess` | src/core/selector_cache.py:207-214 | is the success operation, on the entry object in place |
| `SelectorCache.SelectorCache.RecordFailure` | src/core/selector_cache.py:216-230 | is the failure operation, on the entry object in place |
| `SelectorCache.SelectorCache.InvalidatePage` | src/core/selector_cache.py:232-243 | removes the page and says whether it was there |
| `SelectorCache.SelectorCache.InvalidateWholeDomain` | src/core/selector_cache.py:245-256 | removes exactly the entries of the domain and counts them |
| `SelectorCache.SelectorCache.SaveToDisk` | src/core/selector_cache.py:283-290 | the file lists every entry once |
| `SelectorCache.SelectorCache.LoadFromDisk` | src/core/selector_cache.py:292-306 | loads entry by entry up to the first that lacks a required key |
| `MfaRendezvous.OnlySubmittedCodes` | src/core/mfa_manager.py:67-113 | on every run over any workers a waiter returns only a code accepted for its own session id |
| `MfaRendezvous.CodeArrives` | src/core/mfa_manager.py:301-359 | a code accepted on any worker has, once the waiter's current wait is over, at most one poll interval later and not after its deadline, been returned, it or a later one |
| `MfaRendezvous.StaleObjectDropsSession` | src/core/mfa_manager.py:337-345 | a submission removes a live session's payload exactly when it is not accepted, which is exactly when the worker still registers an expired object under the id |
| `MfaRendezvous.StaleObjectReached` | src/core/mfa_manager.py:337-345 | a run from the empty deployment to such a state, with a waiter that then finds nothing |
| `MfaRendezvous.SubmittedIs` | src/core/mfa_manager.py:301-359 | what a submission changes: nothing for an unknown session; both records of an expired one go; otherwise the code is put into the stored payload and the worker's own object, and other sessions stay |
| `MfaRendezvous.TimePasses` | src/core/mfa_manager.py:88-113 | time never gets stuck: in every reachable state it can pass or a wait is over |
| `MfaRendezvous.CreatedIs` | src/core/mfa_manager.py:224-299 | creating a session resumes the worker's own object with its code and times, else restores those of the stored payload, else starts without a code; the stored payload becomes the object's, and other sessions stay |
| `MfaRendezvous.ResumedAfterSubmit` | src/core/mfa_manager.py:224-299 | after a code was accepted anywhere, a worker without an object for the session resumes it and its wait returns that code at once |
| `MfaRendezvous.ResumeKeepsCodeIff` | src/core/mfa_manager.py:247-267 | resuming keeps a stored code for the fetches exactly when the worker has no object for the session, or one that carries the code itself |
| `MfaRendezvous.ResumeLosesCode` | src/core/mfa_manager.py:247-267 | a run in which an accepted code is lost that way |
| `MfaRendezvous.RemainingTtlIs` | src/core/mfa_manager.py:166-171 | the lifetime a submission leaves: the rest of it in whole seconds, one at least |
| `MfaRendezvous.WakeIsWoke` | src/core/mfa_manager.py:88-113 | a wake-up of the waiting loop is the machine's wake step on the session; its fetch deletes exactly an expired payload |
| `MfaRendezvous.WaitForCode` | src/core/mfa_manager.py:67-113 | takes the session through those wake-ups, polls every interval and once more at the deadline, and returns the first code that a fetch or a local submission brings, which the session then carries |
| `MfaRendezvous.Managers.SubmitCode` | src/core/mfa_manager.py:301-359 | is the submit step, and accepts exactly when it should |
| `MfaRendezvous.Managers.FetchSubmittedCode` | src/core/mfa_manager.py:176-192 | returns the stored code of a live session and deletes an expired payload |
| `MfaRendezvous.Managers.CreateSession` | src/core/mfa_manager.py:224-299 | resumes what is registered or stored, otherwise starts afresh |
| `MfaRendezvous.Managers.RemoveSession` | src/core/mfa_manager.py:397-404 | is the remove step |
| `BrowserPool.PermitsAccountedFor` | src/core/browser_pool.py:226-313 | over every interleaving: permits, acquirers, contexts and closings add up to the size plus unmatched releases less lost and cleared permits; so capacity holds while unmatched releases do not exceed the losses |
| `BrowserPool.SurplusOverflows` | src/core/browser_pool.py:226-286 | and whenever they do, callers that only acquire can exceed the size |
| `BrowserPool.CleanupMakesReleaseUnmatched` | src/core/browser_pool.py:496-510 | idle cleanup between an acquire and its release leaves a pool of one with two permits |
| `BrowserPool.BrowserPool.Acquire` | src/core/browser_pool.py:226-286 | takes the machine's two steps: a known session keeps its context and returns its permit; a failed creation loses it |
| `BrowserPool.BrowserPool.Release` | src/core/browser_pool.py:288-313 | always returns a permit, matched or not |
| `BrowserPool.BrowserPool.CleanupIdle` | src/core/browser_pool.py:496-510 | closes exactly the contexts idle for longer than the timeout |
| `BrowserPool.BrowserPool.StopPool` | src/core/browser_pool.py:184-217 | drops every context and returns no permit |
| `ListExtraction.RowHasItsColumns` | src/core/data_extractor.py:328-349 | a row has exactly the declared columns, each with its converted text or its default |
| `ListExtraction.CrawlIsChain` | src/core/data_extractor.py:318-367 | the rows are those of the longest chain of pages, read in order; exactly how many pages are read and buttons clicked |
| `ListExtraction.LimitedIs` | src/core/data_extractor.py:324-328 | the limit leaves the beginning of a list, as long as it says |
| `ListExtraction.DataExtractor.ExtractRow` | src/core/data_extractor.py:328-351 | builds that row column by column |
| `ListExtraction.DataExtractor.ExtractPage` | src/core/data_extractor.py:324-351 | adds the rows of a page up to the limit |
| `ListExtraction.DataExtractor.ExtractList` | src/core/data_extractor.py:303-374 | the items are the crawl's rows up to the limit; what is read and clicked does not depend on the limit |

## Left out

Assumptions of the models:

- Access jobs: database writes succeed and always write; one message per job; ack and delete
  are one step; only the Redis lock backend (the in-process fallback does not exclude other
  workers). Cancellation is modelled in the lock wait and in the executor.
- Access jobs: the Python-connector path has no time limit, so exclusion is stated by how
  long a lock has been held and not by an assumed bound on executors.
- Text is ASCII for trimming, lower-casing and word characters; regular expressions are
  modelled by what they match on such text. Risky click patterns are word phrases over the
  normalised descriptor.
- DOM cleaner: starts from tokeniser events. The cleaner writes text unescaped, so
  idempotence is about the element tree it stands for and not about re-tokenising its output.
- Envelope encryption is symbolic: a sealed value opens under its own key only; nonces and
  the key providers' own cryptography are not part of this model.
- Audit log: one writer at a time. Concurrent writers can both link to the same entry.
- Breaker and retries: integer ticks and real delays, jitter between one half and one.
- Blueprint steps: the policy's phase does not change within one `execute_steps`; pressing
  and awaiting a navigation are two requests in that order; details of error messages are
  dropped.
- Refresh scheduler: database writes succeed; unscheduling a job while it executes is left
  out (its run would write the row again).
- Selector cache: file values have the right types; a file that is not JSON at all is not
  part of this model.
- MFA: waits end on time (the event loop is not delayed), Redis drops a key exactly at its
  expiry, and at most one waiter waits on a session object at a time. An empty code
  submitted locally leaves the event set, after which the loop no longer pauses; that is not
  modelled. Deployments without Redis are not part of this model.
- Browser pool: permits lost to cancelled calls count as lost; an acquirer waiting for a
  permit holds nothing.

Parts of the repository that would add easy members or depend on code outside it:

- `shutdown_access_jobs`, the local lock fallback, worker supervision and result polling.
- `evaluate_request` and the browser-level guards: a finite decision table.
- LLM prompts, vision extraction, `estimate_tokens`, single-field extraction and the
  individual transforms.
- Routers, SDK wrappers, the React link flow, the organization catalog, migrations, logging,
  metrics and tracing.
- AccessJobStore.Store.ProcessDispatchedAccessJob: stated for a pass that no other worker
  disturbs; what holds under interference is stated over runs of `AccessJobs`.
- BrowserPool.BrowserPool.CleanupIdle: stated undisturbed; interleavings are covered by
  `PermitsAccountedFor`.
