# Waveform, modelled and proved in Dafny

Silicon Waveform is a speech service (text to speech and back) with a command line client, deployed on
one native host. This project models the parts of it that hold state other parties race for or that
an operator changes once and cannot take back, and proves what they promise over every input, every run
and every interleaving.

| module | models |
|---|---|
| `SavedSignIn`, `SavedSignInLaws`, `SavedSignInEffects`, `SessionFile` | the CLI's saved sign-in: many processes, one file, one lock, refresh tokens that work once; the file replacement under it |
| `DeviceFlow` | polling a device sign-in (section 3.5 of RFC 8628) and the form posts that are repeated |
| `IdempotencyStore`, `SpeechProtocol`, `SpeechMeaning`, `LeaseGuard` | one result per idempotency key: the store, the handlers, late and lost messages, and the guard that releases a lease on every way out |
| `Settings` | the ranges and budgets a configuration must meet before the service starts |
| `ProviderOrder`, `Synthesis` | the layered provider order, the fallback loop with its time budget, and the storing of generated audio |
| `RequestCalls`, `RequestMeaning`, `RequestTime` | everything a speech request waits for, in order, and which deadlines cover it |
| `ApiContracts` | active, deprecated and sunset API versions under requests, a worker and the operator |
| `LinkIdentities`, `LinkLaws`, `LinkMeaning`, `LinkDatabase` | `link-identities`: giving earlier storage keys to accounts, with merge, relink, consolidation and dry run |
| `AccountUuidMigration`, `AccountUuidMigrationLaws`, `AccountUuidMeaning` | the rename of every account uuid against an immutable ledger |
| `Cutover` | the host cutover: effectful steps, failure at any of them, rollback |
| `EnvText`, `NativeEnv`, `NativeEnvShape`, `NativeEnvLaws`, `NativeEnvReading`, `EnvMeaning` | the line-preserving rewrite of `native.env` and the reader that must agree with it |
| `NativeKeys`, `NativeSettings`, `NativeExamples` | the keys, defaults and operator's settings the cutover really runs with, and two files it takes that do not read back |
| `Wrappers` | `Option` and `Result` |

Code that changes things in place is a class or a loop, proved against a function of its inputs and its
old state; what the code promises is then proved about that function. Protocols are step systems: a run
is any sequence of steps, and a step that is not possible changes nothing. Foreign calls (Silicon
Accounts, Briefcase, providers, the operating system) are parameters that answer in any way, at any step.
The modules named for the meaning or the effects of another say what its functions come to on the tables,
files and answers themselves, field by field and without naming those functions.

`dafny verify dfyconfig.toml` checks the whole project.

## What the proofs found

Each of these is a lemma with a concrete input, beside the condition under which the promise holds.

- A refresh token is presented twice only after a fault, and the fault does end the sign-in
  (`SavedSignInLaws.PresentedAgainOnlyAfterFault`, `SavedSignInLaws.LostAnswerEndsTheSignIn`).
- A lease shorter than the request deadline lets two handlers work on one key
  (`SpeechProtocol.ShorterLeaseLetsTwoWork`), so the check at start-up is exactly what is needed.
- The checks of the deadlines at start-up count two statements, three calls to Silicon Accounts and one to
  Briefcase. A request waits for much more: connections, the statements of its authentication, its settings,
  its voice and its proofs, a second issue of each proof, a second upload bounded by the download timeout, and
  the holding of its audio. A deadline fits every request if and only if it covers the longest one
  (`RequestTime.SynthesisFitsIff`, `RequestTime.TranscriptionFitsIff`), and every deadline the check lets
  through does if and only if the calls left out fit the check's slack (`RequestTime.TtsBudgetSufficesIff`,
  `RequestTime.SttBudgetSufficesIff`). The built-in settings give a synthesis 300 seconds and it may need 699
  (`RequestTime.DefaultSynthesisIsTooShort`); even another app's plain call may succeed after 304
  (`RequestTime.OrdinaryRequestMayBeTooLate`); a transcription may need 932, more than any deadline the service
  accepts (`RequestTime.DefaultTranscriptionIsTooShort`). There are settings for which the checks suffice
  (`RequestTime.RoomyBudgetsSuffice`).
- A wanted setting reads back from the new `native.env` if and only if its value is not in quotes and no line
  of the old file that stays as it is hides a second setting of it behind a character only the reader breaks
  at (`NativeEnvReading.ReadBackIsWanted`, for the real keys `NativeSettings.ProgramReadsBack`). Both failures
  happen to files and settings the cutover takes: `NativeExamples.QuotedValueReadsBare` and
  `NativeExamples.HiddenSettingCannotBeRead`.
- Two `deprecate` commands that name each other's version and overlap leave no active version
  (`ApiContracts.DeprecatingEachOtherMayCycle`). An overlapping command keeps the links acyclic if and only if
  its successor does not lead back to the version when the row changes (`ApiContracts.AcyclicIffNoWayBack`).
- The last wait of a device sign-in is not checked against the code's expiry (`DeviceFlow.LatePoll`). Every
  poll but the last is in time, and a poll is if and only if its wait, as slept, fits what is left when it
  begins (`DeviceFlow.InTimeIffTheWaitFits`, for the first poll `DeviceFlow.FirstPollInTimeIff`). Even with
  sleeps and answers that take no extra time, a sign-in can succeed after the expiry if and only if there is any
  time left when it starts (`DeviceFlow.LateSignInIff`).
- A `.current-upgrade` entry, left by an interrupted upgrade or by the cutover's own switch when removing it
  fails, makes the cutover fail with the new environment and unit in place and the API stopped, because the
  rollback's first action fails too (`Cutover.Host.Run`). The database is restored as dumped, and the dump is
  taken while the API still runs: what was written after it is only in the database kept beside the live one.

## Model

| member | source | states |
|---|---|---|
| `SavedSignInLaws.PresentedAgainOnlyAfterFault` | cli/src/auth.rs:116-180 | in every interleaving of any number of processes, a refresh token is presented again only if an earlier presentation of it lost its answer, got an error that is not final, or was not followed by its save or removal |
| `SavedSignInLaws.NoReuseWithoutFault` | cli/src/auth.rs:129-176 | without such a fault Silicon Accounts never sees a used token, and the file holds the token it accepts next whenever the lock is free |
| `SavedSignInLaws.LostAnswerEndsTheSignIn` | cli/src/auth.rs:150-176 | the exception is real: after a lost answer the next refresh presents the used token and the sign-in ends |
| `SavedSignInLaws.WritesFollowTheirRead` | cli/src/auth.rs:580-608 | every change of the file is made by the lock holder, and writes the token the file holds, its next rotation, or the first token of a sign-in no file ever held (the other fields: `SavedSignInEffects`) |
| `SavedSignInLaws.RememberKeepsThePair` | cli/src/auth.rs:305-334 | updating the account details changes the id, name and custodian and nothing else the file holds, so it never puts back an older token pair |
| `SavedSignInLaws.GoneStaysGone` | cli/src/session.rs:207-222 | from any reachable state, a token that has left the file is in it after no sequence of steps |
| `SavedSignInLaws.NoTokenComesBack` | cli/src/auth.rs:116-176 | over whole runs from the start, a refresh token that left the file never returns to it |
| `SavedSignInLaws.LateRevokeSparesTheFile` | cli/src/auth.rs:588-608 | the revoke a login sends after releasing the lock never ends the sign-in the file holds by then |
| `SavedSignInLaws.StepKeepsInv` | cli/src/session.rs:225-269 | every step of every command keeps: the lock is held exactly inside a critical section, what was read under it is still what the file holds, and the counting of presentations |
| `SavedSignInLaws.RunKeepsInv` | cli/src/auth.rs:675-732 | the same over any run, logout included |
| `SavedSignInEffects.RefreshSavesTheGrant` | cli/src/session.rs:93-108 | in any reachable state a finished refresh leaves both tokens, the expiry and the account of the answer in the file, the end of the sign-in of the answer or else the former one, and an access token other than before |
| `SavedSignInEffects.SavedTogether` | cli/src/auth.rs:150-154 | over every run, tokens and expiry of a refreshed session in the file come from one answer of Silicon Accounts, whatever other processes wrote since |
| `SavedSignInEffects.RefreshBeginsIff` | cli/src/auth.rs:127-138 | a refresh begins if and only if the sign-in is not over and its access token was refused or has at most a minute left |
| `SavedSignInEffects.PresentsIff` | cli/src/auth.rs:139-169 | under the lock the token in the file is presented if and only if the same account is signed in and nobody refreshed meanwhile; otherwise nothing but the lock changes |
| `SavedSignInEffects.ReceivedMeans` | cli/src/auth.rs:149-176 | what each answer leads to: a save, an end, or an error that leaves the file |
| `SavedSignInEffects.EndedRemovesIff` | cli/src/auth.rs:155-174 | a final refusal deletes the file if and only if it still holds the refused token |
| `SavedSignInEffects.LoginBrings` | cli/src/session.rs:75-90 | a login brings both tokens, the expiry and the account it was given, under a sign-in of its own |
| `SavedSignInEffects.LoginMeans` | cli/src/auth.rs:580-608 | it saves exactly that, and revokes what it replaced, as read under the lock, if and only if that was another sign-in |
| `SavedSignInEffects.RememberMeans` | cli/src/auth.rs:305-334 | the account's details are written only for the same account with other details; a name that was not reported is kept |
| `SavedSignInEffects.LogoutMeans` | cli/src/auth.rs:675-709 | a logout ends the saved sign-in if it can and deletes the file either way |
| `SavedSignInEffects.LockingMeans` | cli/src/session.rs:225-269 | the lock is taken only when free; giving up or crashing never touches the file, and a crash frees the lock |
| `SessionFile.Directory.WritePrivate` | cli/src/home.rs:86-120 | wherever the write fails or the process stops, the target is wholly old or wholly new, no other file changes, and the temporary file stays exactly when the process died before the rename or the clean-up, whose error is ignored, failed as well |
| `DeviceFlow.WaitForDevice` | client/src/signin.rs:660-698 | terminates; tokens come only from the answer that approved; it polls on after a pending answer, a slow-down, a failed connection, a rate limit or a server error and after nothing else; each wait is the interval after the slow-downs so far, and begins before the code expires |
| `DeviceFlow.IntervalGrowsByFive` | client/src/signin.rs:665-690 | between any two polls the interval grows by exactly five seconds for every slow-down or rate limit answered in between, up to the largest number, so it never shrinks |
| `DeviceFlow.WaitsMean` | client/src/signin.rs:660-690 | each wait is the device's interval, or a second if it gives none, plus five seconds for every earlier slow-down or rate limit, capped at 32 bits |
| `DeviceFlow.WaitsFitTheLifetime` | client/src/signin.rs:667-673 | all waits but the last sum to less than the remaining lifetime of the code |
| `DeviceFlow.InTimeIffTheWaitFits` | client/src/signin.rs:667-675 | every poll but the last is sent before the code expires; any poll is if and only if its wait, as slept, fits what is left when the wait begins; and none is later than by that one wait |
| `DeviceFlow.FirstPollInTimeIff` | client/src/signin.rs:660-675 | for the first poll: if and only if the interval, as slept, fits the lifetime of the code |
| `DeviceFlow.LateSignInIff` | client/src/signin.rs:660-698 | with sleeps and answers that take no extra time, a sign-in can succeed by a poll sent after the code expired if and only if time is left when it starts |
| `DeviceFlow.LatePoll` | client/src/signin.rs:667-675 | the last wait can pass the expiry: a poll four seconds late that still signs in |
| `DeviceFlow.PostForm` | client/src/signin.rs:795-840 | at most three attempts, pausing 200 and 400 ms, repeated only when no connection was made, and the result is the last attempt's |
| `DeviceFlow.PostFormAppliesOnce` | client/src/signin.rs:812-830 | however the attempts go, at most one of them may have been applied |
| `IdempotencyStore.Store.Claim` | src/infrastructure/idempotency.rs:109-196 | inserts, replays, refuses a reused key, reports work in progress or reclaims an expired lease; a record that is not over keeps its request id, creation and retention, and whoever takes it up is told them; touches no other scope, and never hands out a lease over a result that is still retained |
| `IdempotencyStore.ClaimMeans` | src/infrastructure/idempotency.rs:109-196 | every decision if and only if its condition on the stored record, what a lease says, and that only taking a record up changes it, and only its lease |
| `IdempotencyStore.RetryAfterReachesTheLeaseEnd` | src/infrastructure/idempotency.rs:183-192 | waiting as told reaches the end of the lease in whole seconds, unless the configured hint cuts it short |
| `IdempotencyStore.RetryAfterIsShortest` | src/infrastructure/idempotency.rs:183-192 | no wait of whole seconds that reaches the end of the lease is shorter |
| `IdempotencyStore.Store.StartJob` | src/infrastructure/idempotency.rs:198-245 | starts a job exactly under the current, unexpired lease and over no history row that is finished or belongs to another operation; otherwise nothing changes |
| `IdempotencyStore.Store.Complete` | src/infrastructure/idempotency.rs:251-313 | completes the pending record of that lease and request id together with its job, or neither; every completed record has a finished job, and a retained result is never overwritten |
| `IdempotencyStore.CompletionMeans` | src/infrastructure/idempotency.rs:251-313 | a completion is taken if and only if the record is pending under its lease, for its request id and operation; it keeps what identifies the record and begins the retention |
| `IdempotencyStore.Store.Release` | src/infrastructure/idempotency.rs:315-362 | ends the lease of the pending record it names and fails its running job; the record stays, and a retained result and finished jobs are untouched |
| `IdempotencyStore.ReleaseMeans` | src/infrastructure/idempotency.rs:315-362 | a release is taken if and only if the record is pending under its lease, and ends that lease and changes nothing else |
| `IdempotencyStore.Store.DeleteExpired` | src/infrastructure/idempotency.rs:65-98 | deletes at most the batch, only records past retention and lease that no other transaction has locked, the oldest first, and all of those when it stops early |
| `IdempotencyStore.Store.RecoverAbandonedJobs` | src/infrastructure/idempotency.rs:414-418 | marks exactly the running jobs whose lease is over; active and finished ones never change, and which lease a job runs under stays |
| `SpeechProtocol.HandlersWorkAlone` | src/config.rs:980-992 | under any accepted configuration and over any run, two handlers never work on one scope at the same time |
| `SpeechProtocol.AcceptedSettingsAreSound` | src/config.rs:931-992 | the checks at start-up make the lease and the retention cover every request deadline |
| `SpeechProtocol.ShorterLeaseLetsTwoWork` | src/config.rs:980-992 | with any lease shorter than the deadline there is a run in which two handlers work side by side |
| `SpeechProtocol.AcquiredMeansNobodyWorks` | src/infrastructure/idempotency.rs:681-722 | a lease is handed out only while no handler works on the scope |
| `SpeechProtocol.WorkersMayStart` | src/infrastructure/idempotency.rs:198-206 | over any run, a handler at work holds the record's current lease and may start its job |
| `SpeechProtocol.OneResultPerRecord` | src/application/service.rs:401-508 | all successes of one record, fresh or replayed, carry one digest, one request id and one result, and each is what the store recorded before |
| `SpeechProtocol.StepKeepsRecorded` | src/application/ports.rs:303-333 | no step changes what was recorded, and a completed record stays until its retention is over |
| `SpeechProtocol.StepKeepsIdentity` | src/infrastructure/idempotency.rs:681-722 | no step changes the request id, the creation time or the digest of a record, and a record that is gone comes back only as another one |
| `SpeechProtocol.OneRequestIdPerRecord` | src/infrastructure/idempotency.rs:160-174 | over any run, all handlers that ever worked on one record did so under one request id, its first |
| `SpeechProtocol.CompletedRecordSurvives` | src/application/ports.rs:303-333 | a completed record survives any number of late or repeated releases, completions and claims while it is retained |
| `SpeechProtocol.LeasesAreReleased` | src/application/service.rs:1125-1176 | every handler that had a lease and ended without a success, other than by the death of its process, has asked for its release |
| `SpeechProtocol.RunKeepsInv` | src/application/service.rs:671-687 | the invariant behind these over any run with crashes, lost acknowledgements and late messages |
| `SpeechMeaning.PolicyMeans` | src/config.rs:925-992 | which setting bounds which operation |
| `SpeechMeaning.ClaimsMean` | src/application/service.rs:401-440 | what a claim makes of its handler: at work under the record's request id and its own lease, replaying the stored response, or failed; only an inserted record is a new one |
| `SpeechMeaning.CompletesMeans` | src/application/service.rs:455-508 | a caller gets a fresh result if and only if the store takes the completion, and then that very result, recorded for the retention from then on; otherwise the lease is given back |
| `SpeechMeaning.TickMeans` | src/application/service.rs:1125-1176 | exactly the handlers whose deadline has come are dropped, and exactly their leases are asked to be released |
| `SpeechMeaning.DeliversMeans` | src/application/ports.rs:303-333 | a late message changes the record only under the lease it names, and answers nobody |
| `LeaseGuard.Guard.Fail` | src/application/service.rs:1150-1161 | asks for the release once with the failure's code, and stays armed only when it is dropped meanwhile |
| `LeaseGuard.Guard.Drop` | src/application/service.rs:1163-1176 | an armed guard hands its release to the background, a disarmed one does nothing |
| `LeaseGuard.Guard.Run` | src/application/service.rs:435-508 | a success releases nothing; every other way out, cancellation at any await included, asks for the release of this lease once, and twice only when dropped while the first is under way |
| `Settings.DefaultsAreAccepted` | src/config.rs:1010-1052 | the built-in defaults meet every range and budget |
| `Settings.ValidateMeans` | src/config.rs:931-1052 | each refusal if and only if its check is the first that fails, with every range and sum written out; what is left of a deadline is not negative exactly when its check passes |
| `ProviderOrder.ResolveOrder` | src/domain/provider.rs:71-91 | fails exactly on a repeated or unknown provider; otherwise the request's providers, then the rest in base order |
| `ProviderOrder.ValidIsShort` | src/domain/provider.rs:75-77 | the length guard never decides on its own |
| `ProviderOrder.ResolvedIsAPermutation` | src/domain/provider.rs:64-91 | the result lists exactly the base order's providers, once each |
| `ProviderOrder.RestKeepsBaseOrder` | src/control/accounts.rs:37-57 | two providers the request leaves out keep their relative base order |
| `ProviderOrder.ResolvingAgainIsTheIdentity` | src/application/service.rs:807-811 | resolving a resolved order again against the chain gives the same order |
| `ProviderOrder.SavedOrder` | src/control/accounts.rs:358-391 | a saved order is used as it is when it lists the whole chain once each, and refused otherwise |
| `ProviderOrder.CompleteProviderOrder` | src/application/service.rs:313-335 | request over saved order over chain: fails exactly on an empty, repeated or unknown request, or an unusable saved order |
| `Synthesis.TryInOrder` | src/application/service.rs:815-901 | calls a prefix of the order up to the first decisive provider, each once, and answers with that provider's outcome |
| `Synthesis.DecidedMeans` | src/application/service.rs:815-901 | the first turn that is not passed on is the last one made and alone gives the answer, each kind its own; a provider that is not configured is not called |
| `Synthesis.ExhaustedMeans` | src/application/service.rs:845-907 | when every turn is passed on all are made, and the answer is the one provider's error or that all are exhausted |
| `Synthesis.ExecuteTts` | src/application/service.rs:799-907 | the same from the request, only the head without fallback, and an invalid order before any call; whatever happens the calls are a prefix of the order, each provider once |
| `Synthesis.TriedMeans` | src/application/service.rs:807-817 | the request's choices first, then the rest of the chain; without fallback the first of all; without choices Gemini, ElevenLabs, OpenAI |
| `Synthesis.FirstNormalisedWins` | src/application/service.rs:815-901 | the first provider that normalises decides exactly when nothing before it was final |
| `Synthesis.CalledFitsTheLoop` | src/application/service.rs:815-901 | whatever the order and the answers, the providers' turns take no longer than the part of the budget meant for them |
| `Synthesis.CountedCallsFitTheDeadline` | src/config.rs:1018-1033 | in an accepted configuration the loop, for any order, and the calls the budget names (three to Silicon Accounts, one to Briefcase, two statements) leave the 30-second headroom; it says nothing about the other calls of a request |
| `Synthesis.WithRenewal` | src/application/service.rs:721-752 | a second operation only after an unauthorized answer, with the renewed proof |
| `Synthesis.StoreAudio` | src/application/service.rs:916-1030 | fails only when Waveform's own store cannot hold the audio; answers with the url of the upload that was taken; a delegated call never asks for a proof or uploads; at most two uploads; held exactly when Briefcase did not take it |
| `Synthesis.HeldMeans` | src/application/service.rs:925-996 | what is asked before audio is held, in each case, and that it is held for the last thing that went wrong |
| `Synthesis.ReasonMeans` | src/application/service.rs:969-994 | each reason if and only if one of its causes |
| `RequestCalls.StoringIsStoreAudio` | src/application/service.rs:916-1030 | the timed calls that store the audio are the events of `StoreAudio`, in its order, for the same answers |
| `RequestMeaning.BriefcaseProofMeans` | src/infrastructure/storage_proofs.rs:227-436 | when no call fails, the exact calls of using, refreshing or replacing a stored proof in each of its standings, and when the request may go on |
| `RequestMeaning.ReplayReadMeans` | src/application/service.rs:721-752 | a replay reads its audio once, and once more under a renewed proof exactly when the first was refused |
| `RequestMeaning.SpeaksMeans` | src/application/service.rs:815-901 | there is audio to store if and only if the first turn that is not passed on gives some |
| `RequestMeaning.SynthesizeMeans` | src/application/service.rs:366-504 | what the claim comes to decides what a request to synthesize waits for |
| `RequestMeaning.TranscribeMeans` | src/application/service.rs:516-653 | the same for a request to transcribe, whose replay is checked once without a renewal |
| `RequestTime.AuthorizeSeconds` | src/infrastructure/directory.rs:300-441 | authentication waits for at most two key fetches of its own besides those of others, 7 connections and 23 statements; when it lets the request go on, for 6 and 16, which a Silicon seen the first time can need |
| `RequestTime.BriefcaseProofSeconds` | src/infrastructure/storage_proofs.rs:227-436 | a stored proof costs one connection, at most seven statements and two calls to Silicon Accounts, all of them when its refresh token was spent |
| `RequestTime.RenewSeconds` | src/infrastructure/storage_proofs.rs:439-577 | renewing a refused proof costs at most the same |
| `RequestTime.SynthesizeAtMost` | src/application/service.rs:344-504 | whatever its calls answer and wherever it fails, a request to synthesize, replay included, takes no longer than `LongestSynthesis` |
| `RequestTime.SlowestSynthesis` | src/application/service.rs:721-752 | one takes exactly that: both proofs spent, both uploads refused, the audio held, the result not recorded and the lease released |
| `RequestTime.SynthesisFitsIff` | src/api/mod.rs:209-218 | every request, however its calls are answered and however long they take within their timeouts, ends by the deadline if and only if the deadline covers the longest |
| `RequestTime.TtsBudgetSufficesIff` | src/config.rs:1018-1033 | every deadline the check lets through suffices if and only if the calls it leaves out fit its headroom, its Briefcase call and the two codec runs no request makes |
| `RequestTime.TranscribeAtMost` | src/application/service.rs:516-653 | the bound for a request to transcribe, with up to two readings of the recording and the measuring of its length |
| `RequestTime.SlowestTranscription` | src/application/service.rs:1032-1110 | one takes exactly that |
| `RequestTime.TranscriptionFitsIff` | src/api/mod.rs:255-264 | the same if and only if for transcriptions |
| `RequestTime.SttBudgetSufficesIff` | src/config.rs:1034-1050 | every deadline the check lets through suffices for transcriptions if and only if what it leaves out, the codec run included, fits its headroom and its Briefcase call |
| `RequestTime.DefaultSynthesisIsTooShort` | src/config.rs:722-722 | the built-in deadline is 300 seconds; with the built-in timeouts a deadline suffices if and only if it is at least 699 |
| `RequestTime.DefaultTranscriptionIsTooShort` | src/config.rs:723-723 | with the built-in timeouts no deadline the service accepts suffices for transcriptions |
| `RequestTime.RoomyBudgetsSuffice` | src/config.rs:1018-1050 | accepted settings for which both checks do suffice |
| `RequestTime.OrdinaryRequestMayBeTooLate` | src/application/service.rs:366-504 | under the built-in settings a delegated call in which nothing fails, is renewed or is retried may succeed only after 304 seconds |
| `ApiContracts.Contracts.SunsetContracts` | src/control/contracts.rs:33-35 | the worker retires exactly the due versions, judged before any row changes, and leaves the links acyclic |
| `ApiContracts.Contracts.ContractRequest` | src/control/contracts.rs:36-69 | a request retires a due version, records itself on any version not sunset, and is refused on a sunset one; the links stay acyclic |
| `ApiContracts.Contracts.DeprecateVersion` | src/control/contracts.rs:152-169 | needs an active successor other than the version, keeps the first deprecation time and the links acyclic |
| `ApiContracts.DueMeans` | src/control/contracts.rs:33-46 | a version is due if and only if it is deprecated, its successor is active, and 604800 seconds have passed since its deprecation and since its last request, as far as known |
| `ApiContracts.RequestMeans` | src/control/contracts.rs:36-69 | each answer if and only if its condition, and what it leaves in the row: its time, a retirement, or nothing |
| `ApiContracts.DeprecateMeans` | src/control/contracts.rs:152-169 | when a version is deprecated, also by a command whose look at the successor is old, and which fields change |
| `ApiContracts.SunsetAllMeans` | src/control/contracts.rs:33-35 | the worker sets state and time of the due rows and touches nothing else |
| `ApiContracts.WorkerFirstChangesNothing` | src/control/contracts.rs:41-51 | a worker pass just before a request at the same instant changes neither its answer nor its row |
| `ApiContracts.BatchIsRowByRow` | src/control/contracts.rs:33-34 | the one statement equals retiring row by row in any order |
| `ApiContracts.SuccessorsEndActive` | src/control/contracts.rs:152-168 | after every sequence of steps, successor links never come back on themselves and end at an active version, so one version is active |
| `ApiContracts.DeprecateKeepsAcyclic` | src/control/contracts.rs:156-160 | deprecating never closes a circle of successors |
| `ApiContracts.SunsetNeedsQuiet` | src/control/contracts.rs:44-50 | a version is retired only seven full days after its deprecation and its last served request, with its successor active |
| `ApiContracts.SunsetIsFinal` | src/control/contracts.rs:52-66 | a sunset row never changes again and serves no request |
| `ApiContracts.DeprecatingEachOtherMayCycle` | src/control/contracts.rs:156-160 | two overlapping commands naming each other's version leave a circle and no active version |
| `ApiContracts.AcyclicIffNoWayBack` | src/control/contracts.rs:156-160 | when an overlapping command goes through, the links stay acyclic if and only if no number of links leads from its successor back to the version |
| `ApiContracts.StillActiveIsEnough` | src/control/contracts.rs:156-160 | in particular they do as long as the successor is still active when the row changes |
| `LinkIdentities.ParseMapping` | src/operator.rs:79-131 | accepted exactly when no line is malformed and no principal is mapped to two accounts, and then all rows in order |
| `LinkMeaning.RowsStandInTheFile` | src/operator.rs:79-116 | each row is the mapping at its line number, and the rows are in order |
| `LinkMeaning.MappingsBecomeRows` | src/operator.rs:79-116 | no mapping of the file is passed over |
| `LinkMeaning.LegacyMeans` | src/operator.rs:282-330 | whose key a principal's data is under, and its kind: that of its public id or else of its rows; unknown or nothing exactly when the rows say so |
| `LinkMeaning.KeyHasDataMeans` | src/operator.rs:332-340 | a key has data if and only if it has activity, settings or a reported bug |
| `LinkIdentities.Walk` | src/operator.rs:190-260 | through any sequence of rows with merge and relink no two accounts share a storage key, without relying on the table's unique constraint |
| `LinkLaws.AcceptedRow` | src/operator.rs:344-446 | an accepted row gives its account the key, marks the link and leaves unrelated accounts alone |
| `LinkMeaning.LinkedMeans` | src/operator.rs:344-394 | what becomes of a row whose key another account or its own holds, each outcome if and only if |
| `LinkMeaning.ClaimMeans` | src/operator.rs:395-431 | each refusal for an account with a key of its own if and only if it is the first that applies |
| `LinkMeaning.ClaimWrites` | src/operator.rs:418-446 | what an accepted row writes: the key row, and the cached account when there is none, with its id only if that is of its kind |
| `LinkMeaning.MarkedMeans` | src/operator.rs:448-460 | the link names the account and keeps its key, public id, and its time while the account is the same |
| `LinkMeaning.UnlinkedMeans` | src/operator.rs:380-393 | what stays of an account whose key is taken back: a fence as strict as its row and an earlier fence together |
| `LinkMeaning.MatchedRowMeans` | src/operator.rs:222-251 | a row whose account or key an earlier row matched otherwise is refused, any other is linked and counted by its outcome |
| `LinkLaws.KeysChangeOnlyIf` | src/operator.rs:357-431 | a key row changes or disappears only by relink of an unused link this command made, or by merge of an unused key |
| `LinkLaws.UsedMeansAfterFirstLink` | src/operator.rs:372-379 | a link counts as used exactly when one of the times of its key or account is after its first link time |
| `LinkLaws.RelinkRefusedIff` | src/operator.rs:366-383 | a key this command gave to another account is refused to a relink, with no table changed, if and only if some activity, own or former preference or provider key of it, or the id or custodian of that account, changed after its first link time |
| `LinkLaws.UnlinkedIsUnused` | src/operator.rs:372-379 | without any link time nothing counts as use |
| `LinkLaws.OwnDataStays` | src/operator.rs:412-423 | an account that signed in by itself and has data keeps its key through every mapping |
| `LinkLaws.FencesOnlyRise` | src/operator.rs:380-387 | no sequence of rows lowers the revocation or undoes the deletion of any account as its readers see it |
| `LinkLaws.WalkKeepsLegacy` | src/operator.rs:282-329 | linking never changes who a principal was |
| `LinkLaws.WalkSettles` | src/operator.rs:205-251 | after rows without a conflict, every matched row's account holds its key and its link says so |
| `LinkLaws.CommittedRowsHold` | src/operator.rs:252-272 | and that still holds after consolidation |
| `LinkLaws.RerunChangesNothing` | src/operator.rs:190-272 | running a committed mapping again, with any options, changes no row of any table and reports every matched row as already linked and the same unmatched ones |
| `LinkLaws.DryRunForetells` | src/operator.rs:195-272 | a dry run reports exactly what the real run from the same tables reports |
| `LinkMeaning.EveryRowIsCounted` | src/operator.rs:195-251 | every row is reported once: as linked, already linked, unmatched or a conflict |
| `LinkMeaning.RunCountsItsChanges` | src/operator.rs:190-272 | without a conflict the counts of the report are exactly the settings rows that changed, key by key, no key twice and no other key touched; with one, nothing changed |
| `LinkLaws.NewestPreferencesWin` | src/operator.rs:470-477 | the newest former settings become the account's unless it has its own, and no earlier row changes |
| `LinkLaws.ResealingKeepsTheSecret` | src/operator.rs:478-514 | a re-sealed provider key opens to the newest former secret, and no earlier row changes |
| `LinkMeaning.ResealedMeans` | src/operator.rs:478-514 | a provider gets an account-wide key if and only if it has none and the newest former one opens and seals |
| `LinkMeaning.FoldedMeans` | src/operator.rs:464-522 | every open grant is withdrawn now, and no row is removed |
| `LinkDatabase.Database.MarkLink` | src/operator.rs:448-460 | keeps the link time when the account stays the same |
| `LinkDatabase.Database.Unlink` | src/operator.rs:380-393 | the statements that take a key back: fence, cached account, key row |
| `LinkDatabase.Database.ClaimKey` | src/operator.rs:395-446 | the statements that give the key: refusals, merge or insert, and the link |
| `LinkDatabase.Database.LinkOne` | src/operator.rs:344-446 | one row in the order of its statements, partial effects before a conflict included; even then storage keys stay with one account and no fence is lowered |
| `LinkDatabase.Database.Apply` | src/operator.rs:205-251 | the checks against earlier rows before a row links |
| `LinkDatabase.Database.Consolidate` | src/operator.rs:464-522 | folds one key's settings and counts what it did |
| `LinkDatabase.Database.LinkAll` | src/operator.rs:190-273 | the whole run: any conflict or a dry run leaves every table unchanged; otherwise all rows and all keys are applied, every matched row holds, keys stay one to one and no fence is lowered |
| `AccountUuidMigration.ParseMapping` | scripts/migrate_account_uuids.py:18-46 | accepted exactly when the header is exact, every line valid, and sources and targets are distinct and disjoint; then the k-th row says what the k-th non-empty line says, names and kind |
| `AccountUuidMigration.RowsReadLines` | scripts/migrate_account_uuids.py:18-46 | as many rows as non-empty lines, each with its line's names and kind |
| `AccountUuidMeaning.ValidFieldsMean` | scripts/migrate_account_uuids.py:26-40 | a line is taken if and only if it names an earlier account, a new canonical random uuid and a kind, with both forms spelled out |
| `AccountUuidMeaning.AcceptableMeans` | scripts/migrate_account_uuids.py:18-46 | a file is taken if and only if its header is the one, there is a line, every line is taken, and no name stands in two of their name fields |
| `AccountUuidMigration.Database.Migrate` | scripts/migrate_account_uuids.py:49-111 | a failed check or a dry run changes no table; a committed run moves every row under its new name, fences every old one and grows the ledger |
| `AccountUuidMeaning.CheckedMeans` | scripts/migrate_account_uuids.py:60-85 | each refusal if and only if its check is the first that fails, over the mappings and the tables |
| `AccountUuidMeaning.CommittedMeans` | scripts/migrate_account_uuids.py:95-97 | every account is found with all it had under its row's new name, or its own; its custodian follows; no other row exists |
| `AccountUuidMeaning.ReferencesFollow` | scripts/migrate_account_uuids.py:98-100 | links and events follow, and nothing else of them changes |
| `AccountUuidMeaning.NamesLeftAreFenced` | scripts/migrate_account_uuids.py:99-106 | exactly the names left behind are new in the ledger, as their rows say, and fenced and deleted from now on; other fences move with their accounts |
| `AccountUuidMeaning.ProofsOfTheMoved` | scripts/migrate_account_uuids.py:88-94 | exactly the valid proofs of accounts that moved stop working |
| `AccountUuidMigration.Database.RenameAccounts` | scripts/migrate_account_uuids.py:95-97 | keys and cached accounts move together, custody follows, and no update meets a uniqueness violation |
| `AccountUuidMigration.Database.RenameFences` | scripts/migrate_account_uuids.py:99-106 | fences move with their accounts and every old name is fenced for good |
| `AccountUuidMigration.Database.DiscardProofs` | scripts/migrate_account_uuids.py:88-94 | exactly the moved accounts' valid proofs stop working, keeping what identifies them |
| `AccountUuidMigration.NothingCollides` | scripts/migrate_account_uuids.py:78-84 | the checks leave no name on which two rows could meet |
| `AccountUuidMigrationLaws.StorageStaysPrivate` | scripts/migrate_account_uuids.py:95-97 | a storage key still belongs to one account after the run |
| `AccountUuidMigrationLaws.NothingPointsBack` | scripts/migrate_account_uuids.py:95-100 | afterwards only a fence mentions an old name |
| `AccountUuidMigrationLaws.EveryReferenceIsExplained` | scripts/migrate_account_uuids.py:66-75 | afterwards every reference has the form given out now or is explained by the ledger |
| `AccountUuidMigrationLaws.LedgerKindIsTheAccounts` | scripts/migrate_account_uuids.py:76-77 | each account keeps its storage key and kind, and the ledger records that kind |
| `AccountUuidMigrationLaws.LedgerStaysSound` | scripts/migrate_account_uuids.py:62-65 | the ledger stays injective and free of chains |
| `AccountUuidMigrationLaws.ReapplyingChangesNothing` | scripts/migrate_account_uuids.py:62-87 | the same export passes every check again and the second run changes no row |
| `AccountUuidMigrationLaws.RunScript` | scripts/migrate_account_uuids.py:114-134 | from the file to the tables: refused exactly when the file is not acceptable or a check fails, with that check's reason, and then or in a dry run nothing changes; otherwise the tables have moved by the file's rows, and every non-empty line stands in the ledger with its names and kind |
| `AccountUuidMigrationLaws.LinesAreInLedger` | scripts/migrate_account_uuids.py:101-101 | after a committed run the ledger holds every line of the file as it stands there, also those applied earlier |
| `AccountUuidMigrationLaws.ExportReapplies` | scripts/migrate_account_uuids.py:18-46 | an accepted file, once committed, passes every check on the new tables and changes nothing there, because its new names have the form given out now |
| `AccountUuidMigrationLaws.RunScriptTwice` | scripts/migrate_account_uuids.py:49-111 | using the script again on the file it committed succeeds, moves nothing and leaves every table as it is |
| `AccountUuidMigrationLaws.LedgerOnlyGrows` | scripts/migrate_account_uuids.py:101-101 | over any history of runs and service traffic the ledger keeps every mapping and stays sound |
| `AccountUuidMigrationLaws.NoAccountMovesTwice` | scripts/migrate_account_uuids.py:62-65 | once moved, an account is never moved again and its new name never moved away |
| `AccountUuidMigrationLaws.MigrationsAreOneHop` | scripts/migrate_account_uuids.py:95-106 | over any sequence of runs every account's data is one hop of the ledger away and every old name stays deleted |
| `Cutover.Host.SwitchCurrent` | deploy/native/upgrade.py:156-164 | succeeds exactly without faults and without a stale temporary link; the link is the old or the new target, and the temporary link stays exactly when it stood before or its removal fails |
| `Cutover.Host.RestoreDatabase` | deploy/native/accounts_cutover.py:136-149 | success means the live database is the dump and the former one is kept under its new name; no failure loses it |
| `Cutover.Host.SwitchRelease` | deploy/native/accounts_cutover.py:283-288 | the first half: succeeds if and only if each of its steps does, and what each failure leaves of the API, environment, unit and link |
| `Cutover.Host.MigrateAndStart` | deploy/native/accounts_cutover.py:289-297 | the second half: succeeds if and only if each of its steps does, the API runs exactly when it was started, and the live database holds what the last step reached wrote |
| `Cutover.Host.Forward` | deploy/native/accounts_cutover.py:282-297 | succeeds if and only if no stale link stands and every forward step succeeds, linking the earlier data among them exactly when there is a mapping; the database is touched if and only if every step before its migration succeeded, and then holds what the last writing step that was reached wrote |
| `Cutover.Host.RestoreFiles` | deploy/native/accounts_cutover.py:300-303 | completes exactly when its steps succeed and no stale link stands, and a stale link stops it before it changes anything |
| `Cutover.Host.RestoreService` | deploy/native/accounts_cutover.py:304-308 | completes exactly when its steps succeed and the name for the former database is free; the former database is never lost |
| `Cutover.Host.Rollback` | deploy/native/accounts_cutover.py:298-312 | completes exactly when its own steps succeed and no stale link stands, and then restores link, environment, unit and database |
| `Cutover.Host.Run` | deploy/native/accounts_cutover.py:238-312 | done if and only if no forward step fails, and then completely, with what the started API wrote in the live database; otherwise the rollback completes if and only if its own steps succeed and neither an earlier upgrade nor this switch left its temporary link; a completed one restores everything, and the migrated database is never lost |
| `EnvText.SplitLinesJoin` | deploy/native/accounts_cutover.py:99-99 | splitting into lines with their endings loses no byte |
| `EnvText.RunsOfJoin` | deploy/native/accounts_cutover.py:110-113 | joining lines and looking again finds the same non-blank bodies, even where two line breaks become one |
| `EnvText.ReadByLine` | deploy/native/upgrade.py:55-64 | every reader line lies within one rewriter line |
| `EnvMeaning.LinesMean` | deploy/native/accounts_cutover.py:99-99 | no line holds a break, each but the last is ended by CR LF, LF or CR, and CR LF is never taken apart; with `EnvText.SplitLinesJoin` that leaves one way to split a text |
| `EnvMeaning.CharactersMean` | deploy/native/upgrade.py:55-59 | which characters end a line for the rewriter, end one for the reader, and are stripped by the reader |
| `EnvMeaning.KeyOfMeans` | deploy/native/accounts_cutover.py:99-101 | a line is for a key if and only if it starts with that key, a capital letter and then capitals, digits and underscores, and an equals sign |
| `EnvMeaning.ValueMeans` | deploy/native/upgrade.py:58-62 | what a line sets: the text after the equals sign without white space around it, then without the quotes around that |
| `EnvMeaning.EnvValueMeans` | deploy/native/upgrade.py:55-64 | reading fails if and only if two lines set the key, finds nothing if and only if none does, and otherwise gives what its one line sets |
| `NativeEnv.RewriteLines` | deploy/native/accounts_cutover.py:98-110 | fails exactly when a wanted key is set twice; otherwise drops, rewrites or keeps each line in order |
| `NativeEnv.CutoverEnv` | deploy/native/accounts_cutover.py:93-117 | the whole rewrite with its final newline, additions, body limit and checks |
| `EnvMeaning.AcceptedMeans` | deploy/native/accounts_cutover.py:113-116 | the finished file is taken if and only if nothing retired reads, the app id is absent, empty or Waveform's, and each required key reads as something |
| `EnvMeaning.UpgradeMeans` | deploy/native/upgrade.py:67-72 | only a body limit that reads 65536 is raised |
| `NativeEnvShape.FinishedIsClean` | deploy/native/accounts_cutover.py:99-114 | the finished file sets nothing retired and each wanted key by exactly one line |
| `NativeEnvReading.ReadBack` | deploy/native/upgrade.py:55-64 | what reading a wanted key back gives, in every case, told from the old file |
| `NativeEnvReading.ReadBackIsWanted` | deploy/native/accounts_cutover.py:93-117 | it is the wanted value if and only if the value is not in quotes and no line of the old file that stays as it is hides the key |
| `NativeEnvReading.HiddenWasThere` | deploy/native/accounts_cutover.py:99-110 | a finished line that hides a wanted key is an old line that did and stays |
| `NativeEnvReading.HiddenStays` | deploy/native/accounts_cutover.py:99-112 | an old line that hides a wanted key and stays is a finished line that does; a body limit that is replaced loses what follows on its line |
| `NativeEnvReading.OtherKeysRead` | deploy/native/accounts_cutover.py:98-112 | a key that is not wanted reads, before the body limit is raised, exactly what the other lines of the old file set |
| `NativeEnvReading.PlainFileIsTaken` | deploy/native/accounts_cutover.py:113-117 | an old file whose staying lines set nothing retired, no limit and no app, and which leaves the required keys with values, is taken |
| `NativeSettings.ProgramFits` | deploy/native/accounts_cutover.py:53-90 | whatever the operator's file holds, what it lets through meets the assumptions of the rewrite |
| `NativeSettings.ProgramMeans` | deploy/native/accounts_cutover.py:93-97 | every setting of the operator is written, and a default exactly when the operator does not set its key |
| `NativeSettings.ProgramReadsBack` | deploy/native/accounts_cutover.py:93-117 | with the real keys and defaults and any operator's settings: the exact condition for reading back, and rewriting again changes nothing |
| `NativeExamples.QuotedValueReadsBare` | deploy/native/upgrade.py:59-62 | settings and a file the cutover takes whose quoted proof issuers are read back bare |
| `NativeExamples.HiddenSettingCannotBeRead` | deploy/native/upgrade.py:55-64 | a file the cutover takes after which Briefcase's app id cannot be read, as a second one stands behind a vertical tab |
| `NativeExamples.ExampleIsEarlier` | deploy/native/accounts_cutover.py:120-124 | both files are configurations of the earlier sign-in, which the cutover asks for |
| `NativeEnvLaws.OtherLinesAreKept` | deploy/native/accounts_cutover.py:99-112 | every line that is neither retired nor wanted is kept byte for byte in order, but for a final line ending |
| `NativeEnvShape.RaisedTextOfJoin` | deploy/native/upgrade.py:67-72 | replacing the limit in the text is replacing it in the lines that begin the text or follow a line feed |
| `NativeEnvLaws.OnlyTheLimitChanges` | deploy/native/upgrade.py:67-72 | after that only the former body limit's line changes |
| `NativeEnvLaws.RaisedOnce` | deploy/native/upgrade.py:67-72 | raising the limit either changes nothing or makes the new limit the one that is read |
| `NativeEnvLaws.RewritingAgainChangesNothing` | deploy/native/accounts_cutover.py:93-117 | rewriting the finished file again gives the same bytes |

## Left out

- HTTP routing, headers, JSON bodies, error texts and command line output: boundary translation.
- Providers, FFmpeg, Briefcase, Silicon Accounts, encryption and the database engine: parameters that answer in any way; a vault is a pair of functions, and its nonces are left out.
- `SpeechProtocol.HandlersWorkAlone`: service and database read one monotone clock; skew between them is left out.
- `SavedSignInLaws.PresentedAgainOnlyAfterFault`: what a user edits into the session file by hand, file permissions and the 30-second bound on waiting for the lock are left out (giving up is a step that can come at any time); access and refresh token of a pair are one name; the scope, the method and the times of signing in that the file also keeps are left out.
- `IdempotencyStore.Store.Claim`: the plane lock and statement timeouts are left out.
- `IdempotencyStore.Store.StartJob`: of a job row only its operation, digest, status and lease are modelled; running rows without a lease, which earlier releases left, are not.
- `LeaseGuard.Guard.Run`: one process with a running executor, so a dropped guard can always hand over its release.
- `Synthesis.ExecuteTts`: admission limits and traces are left out.
- `RequestTime.SynthesisFitsIff`: what the database driver does for a statement (preparing it, the network between) counts as part of the statement, and a statement ends by its timeout; processing without waiting takes no time; how many other requests' key fetches are waited for is a parameter.
- `RequestCalls.StoringIsStoreAudio`: the stored proof's row is told by its standing (missing, usable, refreshable, ended), not by its ciphertexts and times; a refusal by checks that make no call ends a request where the call before it ends it.
- `LinkLaws.NewestPreferencesWin`: of equally new rows the database may return any; here the one of the lowest organisation number wins.
- `LinkIdentities.Walk`: the separate check that every target account exists with the right kind (src/operator.rs:139-180) and rows of environments other than the account one are left out; a merge keeps the kind of the account's own key row.
- `LinkIdentities.ParseMapping`: splitting a line at commas, trimming and the uuid pattern are left out; a line arrives as skipped, malformed or a pair.
- `AccountUuidMigration.ParseMapping`: CSV quoting is left out; a line arrives as its fields, and error texts with line numbers are one error.
- `AccountUuidMigrationLaws.MigrationsAreOneHop`: between the runs nothing else writes; the service prunes old fences after their tokens have expired.
- `ApiContracts.SuccessorsEndActive`: each operation is one atomic step; `AcyclicIffNoWayBack` says exactly when a command that overlaps another keeps the links acyclic.
- `Cutover.Host.Run`: the checks and backups before the API stops, the webhook check and the receipt after it, and what the restarted service writes once the rollback has started it are left out.
- `NativeEnvReading.ReadBackIsWanted`: bytes that are not UTF-8, where the reader stops with an error, are left out; a file is a sequence of characters.
- `NativeEnv.CutoverEnv`: splitting the operator's file of new settings into keys and values, its owner and mode are left out; what its checks guarantee of the settings is `NativeSettings.FromOperator`.
- `DeviceFlow.WaitForDevice`: the program reads whole seconds of a clock that never goes back.
- `upgrade.py`'s own upgrade of later releases: the same switch, write and rollback without a database.
- `verify_mapping_accounts`, packaging, the website and the AWS installers: not part of this model.
