# A verified model of the e-sign service

This project models the parts of the e-sign packages whose behaviour is more
than one branch long, and proves what they promise: the envelope service over
its store, the audit trail and the webhook state machine; the rate limiter; the
access-token cache and the retry loop; the signing machine with its restarts and
SDK mounts; the word wrap and escaper behind the documentation tables; the
pipeline that makes the host's terms authoritative; and the template list.

`dafny verify dfyconfig.toml` checks everything (Dafny 4.11).

## How it is laid out

- `JsCollections`, `Text`, `Common`: the insertion-ordered map, the growable
  array, and trim, split and join. Pure functions are the specification, the
  classes update one field in place.
- `Store`: `MemoryStore` works on two mutable collections and is proved equal to
  `Run`, the meaning of a callback script. A script may read, branch on what it
  read, write, throw, catch, and open transactions inside transactions.
- `Overlap`: schedules in which transactions of different calls overlap on the
  memory store, against the database it stands for.
- `Envelopes`: the service calls. `EnvelopeService` does them step by step on a
  `MemoryStore`; the `Do...` functions say what they do to the tables. The
  provider's answer, the generated ids, the clock and the write at which the
  store fails (if any) are parameters.
- `EnvelopeAnswers`: what each call answers and leaves, from the request and the
  stored records alone.
- `EnvelopeRuns`, `Ownership`: whole runs of calls that do not interleave.
- `Interleaving`: runs in which each call's read and its atomic commit are
  separate steps.
- `RateLimiter`, `RateLimiterRuns`: the limiter on a mutable map, and its runs
  against a limiter that never forgets.
- `TokenCache`, `Retry`, `SdkMount`: imperative pieces with their step models.
- `SigningMachine`, `SigningFlow`: the pure machine, and the hook that drives it
  over the proxy source, as `SigningHook` on its mutable refs.
- `Render`, `Prefill`, `EnvelopeMint`, `TemplateList`: pure functions.

Runs start from ids that are new to the tables (`Fresh`): the store overwrites
on a repeated id. In the limiter's runs the clock does not go back where a lemma
says so.

## Results that differ from the documentation

- `packages/esign-service/src/server.ts:93-96` says the oldest entries are the
  ones closest to expiring. They need not be: a key that returns after its
  window elapsed keeps its place (`ReturningKeyKeepsItsPlace`). At the cap the
  sweep evicts the soonest to expire exactly when some window has elapsed or the
  map's first window is the soonest (`EvictsSoonestIffFirstIsSoonest`); 10000
  clients that break this, from the empty map, are in `SweepEvictsTheLaterWindow`.
- `packages/esign-node/src/envelopes.ts:95-97` says there is no transition out
  of a terminal status. The check reads outside the transaction. It holds in
  every run of calls that do not interleave; when they do, an envelope leaves a
  terminal status exactly at a webhook commit that writes and brings another
  status than the terminal one stored by then (`MoveLeavesTerminalIff`, for whole
  runs `TerminalIsKeptIffNeverOverwritten`), as when two webhooks both read
  `sent` (`BothWebhooksCommit`). What such calls also break is that a trail
  replays to its status: from the empty store one create and two webhooks leave
  two terminal entries (`TwoTerminalEntriesFromEmpty`). The tables stay valid
  throughout exactly when every commit writes nothing or finds its envelope
  `sent` (`CommitReplaysIffStillSent`, `AlwaysValidIffInTime`). What every
  interleaving keeps is `InterleavedSafety`, `NeverBackToSent` and ownership
  (`OwnershipAfterInterleaving`).
- `packages/esign-node/src/store.ts:61-63` promises what a database transaction
  promises. For a callback run on its own, and for nested callbacks, it does
  (`RunTransaction`, `RunIsItsSurvivingWrites`). When transactions of different
  calls overlap, it does exactly if every transaction that throws is isolated at
  that moment: each write another call made since it began belongs to a
  transaction that has thrown by then, and no transaction that had written
  before it began has thrown since (`LikeADatabaseIffIsolated`). This counts
  writes, and one that changes nothing counts too; of the audit table's contents
  it is exact as well (`AuditTableIffIsolated`). It is enough that nobody else
  writes or rolls back in between (`QuietIsIsolated`), but not necessary: another
  transaction may write and throw (`RolledBackOverlapIsHarmless`). Otherwise a
  transaction that returned loses its writes (`OverlapLosesACommit`) or a write
  that was rolled back comes back (`OverlapRevivesARollback`).
- `packages/esign-node/src/envelopes.ts:288-299` refuses a webhook that brings
  `sent`. It never answers so: such a webhook is `unchanged` or
  `rejected_terminal` before that (`WebhookAnswers`).
- `packages/esign-react/src/useESignature.ts:63-65` says unmounting cancels the
  success timeout. It cancels the last one started: signing again before the
  first timer fires leaves the first one live (`EarlierTimerOutlivesUnmount`).
  Nothing more is reported exactly when every completion but the last had been
  reported by then (`UnmountSilencesTheLastTimer`).

## Model

| member | source | states |
|---|---|---|
| `EnvelopeStore.MemoryStore.RunTransaction` | packages/esign-node/src/store.ts:71-83 | On the mutable tables, a callback that throws leaves both exactly as they were at the transaction's start; one that returns leaves what running it directly leaves |
| `EnvelopeStore.MemoryStore.Execute` | packages/esign-node/src/store.ts:70-135 | Any callback over the mutable tables, nested transactions included, does what the script means, and leaves the old collections or fresh ones |
| `EnvelopeStore.RunIsItsSurvivingWrites` | packages/esign-node/src/store.ts:61-83 | However transactions nest, throw and are caught, the final tables are those of plainly performing the writes that no thrown transaction covers |
| `EnvelopeStore.CommittedRunIsDirect` | packages/esign-node/src/store.ts:71-83 | If no transaction of a run throws, the run is that of the same program with all transactions taken out |
| `Overlap.LikeADatabaseIffIsolated` | packages/esign-node/src/store.ts:61-83 | For every schedule of overlapping calls and every kind of write: at all times exactly the writes of transactions that have not thrown stand, if and only if every transaction is isolated when it throws; if so for all writes, the tables are those of these writes |
| `Overlap.AuditTableIffIsolated` | packages/esign-node/src/store.ts:61-83 | If each entry has an id of its own, the audit table holds at all times exactly the entries of transactions that have not thrown, if and only if every throw is isolated with respect to appends |
| `Overlap.ThrowUndoesItsOwnIffIsolated` | packages/esign-node/src/store.ts:79-83 | From such a moment, a throw takes back its own transaction's writes and no others exactly when the transaction is isolated |
| `Overlap.TablesAreStandingWrites` | packages/esign-node/src/store.ts:71-83 | In every schedule the tables, and every open transaction's copies, are those of performing the standing writes directly |
| `Overlap.EventsReachTheTables` | packages/esign-node/src/store.ts:71-83 | What begins, writes, returns and throws do to the tables, and that an ended transaction does nothing more |
| `Overlap.QuietIsIsolated` | packages/esign-node/src/store.ts:71-83 | A transaction is isolated, and its throw restores the tables it began with, if nobody else wrote or rolled back in between |
| `Overlap.RolledBackOverlapIsHarmless` | packages/esign-node/src/store.ts:71-83 | Another transaction that writes and throws in between does no harm |
| `Overlap.OverlapLosesACommit` | packages/esign-node/src/store.ts:71-83 | A transaction that returned is undone by one that was already open and throws |
| `Overlap.OverlapRevivesARollback` | packages/esign-node/src/store.ts:71-83 | Two transactions that both throw leave the first one's write in the tables |
| `EnvelopeStore.RecordsSeeWrites` | packages/esign-node/src/store.ts:85-123 | What a lookup finds after each write, for the written id and every other; only moving a missing envelope throws |
| `EnvelopeStore.ListsSeeWrites` | packages/esign-node/src/store.ts:125-134 | An appended entry is the newest of its own envelope's list and in no other |
| `Envelopes.EnvelopeService.CreateEnvelope` | packages/esign-node/src/envelopes.ts:142-194 | Step by step on the mutable store, equal to `DoCreateEnvelope` in tables and answer, for every guard, provider error and store failure |
| `Envelopes.EnvelopeService.GetSigningUrl` | packages/esign-node/src/envelopes.ts:196-215 | Likewise equal to `DoGetSigningUrl`, whose answers `RestartAnswers` pins |
| `Envelopes.EnvelopeService.HandleWebhookEvent` | packages/esign-node/src/envelopes.ts:239-309 | Likewise equal to `DoWebhook`, whose outcomes `WebhookAnswers` pins |
| `EnvelopeAnswers.CreateAnswers` | packages/esign-node/src/envelopes.ts:142-194 | createEnvelope answers the generated id and the provider's url, with exactly one record and one `initiated` entry written, exactly when user, input, provider and store all allow it; else the code of the first that does not, and nothing written |
| `EnvelopeAnswers.RestartAnswers` | packages/esign-node/src/envelopes.ts:196-215 | getSigningUrl answers the provider's url, with one `session_restart` as the newest entry, exactly for a signed-in owner of a `sent` envelope with acceptable input, a provider answer and a successful append; else which code |
| `EnvelopeAnswers.WebhookAnswers` | packages/esign-node/src/envelopes.ts:239-309 | The outcome from the event and the stored status alone, and what an update writes; `rejected_no_transition` never occurs |
| `EnvelopeAnswers.ReadAnswers` | packages/esign-node/src/envelopes.ts:217-235 | getEnvelope and getAuditLogs answer the owner the stored fields and the list, everyone else as if there were no envelope |
| `EnvelopeAnswers.LogsAreNewestFirst` | packages/esign-node/src/store.ts:125-134 | The list is the audit table walked from its end, all entries of the envelope and no other |
| `EnvelopeAnswers.OnlyKnownKeysAreLogged` | packages/esign-node/src/audit.ts:21-42 | Sanitising keeps exactly the four known keys, with their values |
| `Envelopes.ValidEmailShape` | packages/esign-node/src/validation.ts:12-20 | The positional email check accepts exactly: local part, one `@`, a domain with an inner dot, no white space |
| `EnvelopeRuns.ReplayShape` | packages/esign-node/src/envelopes.ts:79-103 | A trail replays to a status exactly when it is `initiated`, some `session_restart`, then that status's action if it is terminal |
| `EnvelopeRuns.RunKeepsValid` | packages/esign-node/src/envelopes.ts:142-309 | Every non-interleaved run keeps: trails replay to the stored status, no entry lacks its envelope, metadata stays in the allow-list, ids stay distinct |
| `EnvelopeRuns.AuditReplaysToStatus` | packages/esign-node/src/envelopes.ts:142-309 | From the empty store, every envelope's trail has exactly that shape for its stored status |
| `EnvelopeRuns.CreatedIsReadableByItsOwner` | packages/esign-node/src/envelopes.ts:167-235 | A created envelope is at once readable under the answered id, `sent`, with only `initiated`, by its owner and by no one else |
| `EnvelopeRuns.FirstTerminalWins` | packages/esign-node/src/envelopes.ts:237-309 | After any deliveries (repeated, reordered, unknown, unverified, failing) the status is the first terminal one that committed, else `sent`, and nothing else of the record but its timestamp changed |
| `EnvelopeRuns.TerminalIsFinal` | packages/esign-node/src/envelopes.ts:273-286 | Any number of deliveries for a terminal envelope change neither table |
| `EnvelopeRuns.FailedCallLeavesTables` | packages/esign-node/src/envelopes.ts:142-309 | A failing call leaves both tables as they were, but for a restart whose store fails after its one append |
| `EnvelopeRuns.FailedReopen` | packages/esign-node/src/envelopes.ts:202-214 | That exception occurs exactly when the envelope is `sent`, the provider answered and the store fails after the append |
| `EnvelopeRuns.HttpErrorLeavesStore` | packages/esign-node/src/handlers.ts:479-501 | Which of 401, 400, 500 and 200 a delivery is answered with, in every case; the tables change exactly when the transaction commits, so never on an error answer |
| `Ownership.OwnershipIsAProjection` | packages/esign-node/src/envelopes.ts:120-126 | A user's answers are the same in any two stores, replaying trails or not, that agree on that user's envelopes and their entries, so missing and foreign look alike |
| `Ownership.OwnershipAfterInterleaving` | packages/esign-node/src/envelopes.ts:120-126 | The same for any two stores that interleaved calls leave |
| `Ownership.OtherUsersDoNotInterfere` | packages/esign-node/src/envelopes.ts:196-235 | Over whole runs a user is told the same, and ends with the same view, when every other user's calls are removed |
| `Interleaving.InterleavedSafety` | packages/esign-node/src/envelopes.ts:261-306 | In every interleaving: one `initiated`, first; as many terminal entries as `updated` outcomes; terminal status exactly when there is one, and that of the last |
| `Interleaving.NeverBackToSent` | packages/esign-node/src/envelopes.ts:79-97 | No interleaving takes a terminal envelope back to `sent` or loses an envelope |
| `Interleaving.CommitReplaysIffStillSent` | packages/esign-node/src/envelopes.ts:280-302 | A commit keeps trails and statuses in step exactly when the envelope is still `sent` or it is known to write nothing (provider failure, a store failure before the writes are in); exactly then it leaves the tables unchanged |
| `Interleaving.AlwaysValidIffInTime` | packages/esign-node/src/envelopes.ts:261-306 | Over whole interleavings the tables satisfy the sequential invariant at every point exactly when every commit writes nothing or finds its envelope `sent` |
| `Interleaving.MoveLeavesTerminalIff` | packages/esign-node/src/envelopes.ts:79-97 | An envelope leaves a terminal status exactly at a webhook commit that writes and brings another status than the one stored by then |
| `Interleaving.TerminalIsKeptIffNeverOverwritten` | packages/esign-node/src/envelopes.ts:79-97 | Over whole interleavings no envelope leaves a terminal status exactly when no such commit is made for it |
| `Interleaving.BothWebhooksCommit` | packages/esign-node/src/envelopes.ts:261-306 | Two webhooks that both read `sent` both commit, the second overwrites the first, and the trail gains two terminal entries |
| `Interleaving.TwoTerminalEntriesFromEmpty` | packages/esign-node/src/envelopes.ts:142-306 | One create and two such webhooks from the empty store end in a trail with two terminal entries that replays to no status |
| `Interleaving.UninterruptedWebhook` | packages/esign-node/src/envelopes.ts:239-309 | Read and commit back to back are the uninterrupted call, and an update is counted exactly when it answers `updated` |
| `Interleaving.UninterruptedRestart` | packages/esign-node/src/envelopes.ts:196-215 | Likewise for a restart |
| `Interleaving.SummaryCounts` | packages/esign-node/src/envelopes.ts:84-100 | What the counted facts mean on the trail itself: counts of entries, first entry, last terminal entry |
| `RateLimiter.SweepWindows` | packages/esign-service/src/server.ts:97-113 | Both deleting loops leave exactly the last min(n, max - 1) of the n unexpired entries, in insertion order |
| `RateLimiter.Limiter.Decide` | packages/esign-service/src/server.ts:127-163 | The mutable limiter is the step function, and never holds more than its cap |
| `RateLimiterRuns.MapStaysWithinCap` | packages/esign-service/src/server.ts:141-146 | In every run, whatever the clock does, the map stays within 10000 windows |
| `RateLimiterRuns.BoundedRefinesUnbounded` | packages/esign-service/src/server.ts:97-163 | While fewer than the cap are unexpired at each call, the decisions are those of a limiter that never deletes a window |
| `RateLimiterRuns.BurstBound` | packages/esign-service/src/server.ts:138-161 | If the live window is never evicted, no closed interval of one window length holds more than twice the limit of allowed requests |
| `RateLimiterRuns.WindowAdmitsItsLimit` | packages/esign-service/src/server.ts:144-161 | In any run of the limiter that does not evict the key while it is live: of a client's k requests from one that opens a window to that window's end, exactly the first min(k, limit) are allowed, whatever other requests come between |
| `RateLimiterRuns.DecisionIsHonest` | packages/esign-service/src/server.ts:115-161 | After any run: of the client's further requests in its window exactly the first `remaining` are allowed, whatever comes between, and `resetSeconds` is the time left rounded up, between 1 and 60 |
| `RateLimiterRuns.KeysAreDistinct` | packages/esign-service/src/server.ts:71-82 | Different routes or clients never share a window |
| `RateLimiterRuns.EachPathHasItsLimit` | packages/esign-service/src/server.ts:56-163 | Each of the four paths is counted against its own setting, which the decision names; 0 switches it off and other paths are free |
| `RateLimiterRuns.EvictsSoonestIffFirstIsSoonest` | packages/esign-service/src/server.ts:93-143 | At the cap, the only size at which it runs, the sweep evicts a live window exactly when all are live, then the first alone; so it evicts the soonest to expire exactly when that is the first or some window has elapsed |
| `RateLimiterRuns.ReturningKeyKeepsItsPlace` | packages/esign-service/src/server.ts:93-146 | A client that returns leaves a live map whose first window is not the soonest, and a sweep of it evicts the later one |
| `RateLimiterRuns.SweepEvictsTheLaterWindow` | packages/esign-service/src/server.ts:93-146 | The same at the cap: a run of 10001 requests after which the sweep evicts the window elapsing at 120000 and keeps the one elapsing at 60001 |
| `TokenCache.TokenProvider.Get` | packages/esign-node/src/providers/docusign/auth.ts:88-99 | The closure variables after a call are those of the step function: served, joined, or a new request |
| `TokenCache.TokenProvider.OnResponse` | packages/esign-node/src/providers/docusign/auth.ts:64-85 | A success caches the token with its expiry, a failure caches nothing |
| `TokenCache.SingleFlightSafety` | packages/esign-node/src/providers/docusign/auth.ts:61-99 | In every interleaving: one outstanding request at most, cached tokens served with more than five minutes left, the cache holds the last success's token, answered callers got their flight's outcome |
| `TokenCache.JoinerGetsItsFlight` | packages/esign-node/src/providers/docusign/auth.ts:92-98 | Whatever follows, a caller that joined a flight is waiting for it or got the outcome it finished with |
| `TokenCache.CallJoinsTheLiveFlight` | packages/esign-node/src/providers/docusign/auth.ts:88-99 | A call gets the last success's token from the cache, or a place in the one unfinished flight, or in a new one exactly if there is none |
| `TokenCache.AnswersAreNeverStale` | packages/esign-node/src/providers/docusign/auth.ts:88-99 | In every run an answered caller got the outcome of a flight that had not finished when it called |
| `TokenCache.EveryJoinerCanSettle` | packages/esign-node/src/providers/docusign/auth.ts:92-98 | Once the request settles and its finally runs no caller is stuck, and after a failure the next call starts a new request |
| `TokenCache.ServedUntilMargin` | packages/esign-node/src/providers/docusign/auth.ts:54-91 | A fresh token is served until exactly five minutes before it expires; from then on a call starts a new request |
| `Retry.WithRetry` | packages/esign-node/src/http.ts:37-69 | For every outcome sequence: min(maxAttempts, 1 + first success or non-retryable error) attempts, that attempt's outcome, and baseDelay * (2^(n-1) - 1) of sleep |
| `SdkMount.MountEffect.OnResolved` | packages/esign-react/src/useESignature.ts:169-175 | The effect's variables after its mount resolves: kept for later, or cleaned up at once |
| `SdkMount.NoLeakedOrDoubledMounts` | packages/esign-react/src/useESignature.ts:157-184 | In every run each mount's cleanup was called once if it resolved and its effect was torn down, else not at all; one live effect at most |
| `SdkMount.RejectionDropsTheHeldSession` | packages/esign-react/src/useESignature.ts:169-179 | A mount's rejection drops whatever session is held exactly when the mount was still under way, its effect torn down or not |
| `SdkMount.MountsOnlyWhileSigning` | packages/esign-react/src/useESignature.ts:157-184 | A re-run tears down every live effect and mounts one more exactly when it may while signing |
| `SdkMount.EachMountReportsOnce` | packages/esign-react/src/useESignature.ts:157-184 | In every run of machine and mounts together no mount reports twice or after it resolved, and cleanups stay exact |
| `SdkMount.LateRejectionDropsTheNextSession` | packages/esign-react/src/useESignature.ts:157-184 | After a cancel and a new start, the first mount's rejection drops the second session while its own mount is live |
| `SigningMachine.UrlBelongsToLastSession` | packages/esign-core/src/signing/machine.ts:105-200 | For every action order, a shown url is the held session's and the held session is the last acquired |
| `SigningMachine.StateIsItsHistory` | packages/esign-core/src/signing/machine.ts:44-200 | For every action order, status, url, session and error are what the last action concerning each says: an expiry and a failed acquisition keep the session, cancel, decline, error and retry drop it, and only retry and restart clear an error |
| `SigningMachine.EffectsTellTheOutcome` | packages/esign-core/src/signing/machine.ts:94-200 | The host is told of an error exactly when an action ends in one, and of the one shown; of completions with the right id; of cancels and declines |
| `SigningFlow.SigningHook.Perform` | packages/esign-react/src/useESignature.ts:76-101 | On the mutable refs: the machine's next state, and a new success timer in the ref on a completion |
| `SigningFlow.SigningHook.OnRestart` | packages/esign-react/src/useESignature.ts:211-221 | On the mutable refs: a kept session is restarted, without one it is a retry |
| `SigningFlow.SigningHook.OnSettled` | packages/esign-react/src/useESignature.ts:106-115 | On the mutable refs: a start or restart that settles late is applied only while mounted |
| `SigningFlow.EveryIdComesFromAStart` | packages/esign-core/src/signing/proxySource.ts:60-118 | In every run of the hook, every session ever held and every completion carries an id some start() returned |
| `SigningFlow.CompletionReportsHeldSession` | packages/esign-core/src/signing/machine.ts:109-123 | A success timer is started exactly on an allowed completion message, and will report the held session's id |
| `SigningFlow.NoSessionCompletesTwice` | packages/esign-react/src/useESignature.ts:76-151 | In every run there are at most as many completions as sessions were acquired, fewer while one is being signed |
| `SigningFlow.ForeignMessagesAreIgnored` | packages/esign-core/src/signing/origin.ts:13-19 | A message from another origin than the pinned one, or one that comes while unmounted or not signing, changes nothing |
| `SigningFlow.PageMessagesAreTaken` | packages/esign-core/src/signing/bridge.ts:27-50 | Without a pin, or from the pinned origin, each of the five messages has its effect, and no other message has any |
| `SigningFlow.ButtonsLead` | packages/esign-react/src/useESignature.ts:186-221 | What sign, retry, restart and the connection check do, online and offline, with and without a session |
| `SigningFlow.AcquisitionsLead` | packages/esign-core/src/signing/proxySource.ts:60-118 | What each answer of the backend to a start or a restart leads to: url, id, pinned origin, or which error with the session kept |
| `SigningFlow.LateResultsAreDropped` | packages/esign-react/src/useESignature.ts:60-115 | A result that settles while unmounted is dropped; mounting again re-arms the hook |
| `SigningFlow.FiringReports` | packages/esign-react/src/useESignature.ts:85-90 | A timer that fires reports its id and hides the url, once and unless cleared |
| `SigningFlow.EachCompletionReportsOnce` | packages/esign-react/src/useESignature.ts:85-90 | In every run each call of onComplete belongs to a completion of its own and reports the id held when that completion arrived |
| `SigningFlow.UnmountSilencesTheLastTimer` | packages/esign-react/src/useESignature.ts:63-74 | After every run: once the host unmounts no timer reports, exactly when each completion but the last was reported by then or cleared by an earlier unmount |
| `SigningFlow.EarlierTimerOutlivesUnmount` | packages/esign-react/src/useESignature.ts:63-150 | Signing twice from the start, then unmounting, lets the first timer call onComplete with the first id |
| `SigningFlow.RestartKeepsItsEnvelope` | packages/esign-core/src/signing/proxySource.ts:90-118 | A restart's session has the id of the session that was kept, whatever the backend answers |
| `SigningFlow.ExpiredSessionResumes` | packages/esign-react/src/useESignature.ts:211-221 | Expiry, restart and a url from the backend end in signing at that url for the same envelope, with no error |
| `Render.WrapIsAWrapping` | packages/esign-service/src/env/render.ts:18-27 | The lines joined by a space are the text, and every line of two or more words fits |
| `Render.WrapIsOptimal` | packages/esign-service/src/env/render.ts:18-27 | No other such wrapping of the text has fewer lines |
| `Render.FlattenKeepsWords` | packages/esign-service/src/env/render.ts:38 | Flattening newlines changes no word, and nothing in a text without newlines |
| `Render.EscapedCellDecodes` | packages/esign-service/src/env/render.ts:29-40 | Unescaping a cell's text gives back the flattened, trimmed text |
| `Render.EscapeIsSafe` | packages/esign-service/src/env/render.ts:29-40 | Every pipe is preceded by an odd-length run of backslashes, and no backslash is left over at the end |
| `Render.WrapKeepsEscapes` | packages/esign-service/src/env/render.ts:42-43 | Every wrapped line is a whole escaped text with no raw pipe, and the unescaped lines join to the plain text |
| `Render.CellStaysOneCell` | packages/esign-service/src/env/render.ts:42-43 | A finished cell, breaks included, has no newline and no raw pipe |
| `Render.CellIsItsWrappedText` | packages/esign-service/src/env/render.ts:42-43 | A finished cell is the escaped text in the fewest lines that fit 72 characters, joined by breaks, and unescapes line by line to the text |
| `Prefill.ParsedPrefillIsStable` | packages/esign-node/src/providers/docusign/prefill.ts:41-136 | Exactly which prefills are accepted, that what is accepted is within the contract, and that it survives being written and parsed again |
| `Prefill.ReadableIffWritten` | packages/esign-node/src/providers/docusign/prefill.ts:107-118 | A value is accepted as v exactly when it is v's written form in some key order: no other key or type, no lock on a blank |
| `Prefill.RefusedPrefillsAreExplained` | packages/esign-node/src/providers/docusign/prefill.ts:41-74 | Which refusal: not an object, more than 200 entries, or what is wrong with the first bad entry |
| `Prefill.FieldNamesAreShort` | packages/esign-node/src/providers/docusign/prefill.ts:24-60 | Field names are 1 to 100 letters, digits, underscores and hyphens |
| `Prefill.TabsDecode` | packages/esign-node/src/providers/docusign/client.ts:75-85 | The text tabs decode to the same labels, values and three-way locks |
| `Prefill.SameTabsIffSameMeaning` | packages/esign-node/src/providers/docusign/client.ts:65-85 | Two prefills are sent alike exactly when they differ at most in bare strings for unlocked values |
| `Prefill.EveryDocumentCarriesTheSigner` | packages/esign-node/src/providers/docusign/client.ts:115-134 | One template or several: the listed documents in order, each with the same signer and values |
| `EnvelopeMint.OnlyTheHostsTermsAreMinted` | packages/esign-node/src/handlers.ts:150-201 | The provider is called exactly when the host names a valid signer and an acceptable prefill, with that signer and tabs that decode to exactly those values; else nothing is minted |
| `EnvelopeMint.HostTermsAreAuthoritative` | packages/esign-service/src/prefill.ts:182-201 | The corollary for two requests: if the host replies alike to both, they get the same answer and the same provider call |
| `EnvelopeMint.RequestIsWhatTheBodySays` | packages/esign-node/src/handlers.ts:389-432 | A body is read as the one signer and prefill its properties give, and refused when there is no such reading |
| `EnvelopeMint.HostIsAskedAboutTheCaller` | packages/esign-service/src/prefill.ts:182-201 | Only the host's answers to questions about the authenticated user, with the signer and prefill the body gives, matter |
| `EnvelopeMint.CallsAreAnswered` | packages/esign-node/src/handlers.ts:119-201 | A provider call is answered with its url and id, or 400, 401 or 502 by its error |
| `EnvelopeMint.RefusalsAreAnswered` | packages/esign-node/src/handlers.ts:119-201 | Without a call: 401 for no user, 502 for unusable host terms, else 400 |
| `EnvelopeMint.ClientTermsWithoutAHost` | packages/esign-node/src/handlers.ts:369-432 | With no terms callback, exactly a body with a valid signer is minted, with its own signer and prefill |
| `EnvelopeMint.HostWinsKeyByKey` | packages/esign-service/src/prefill.ts:90-95 | On a Web Form the host's value wins for every key it names and the client's stays for the others |
| `TemplateList.ParseUndoesPrint` | packages/esign-node/src/providers/docusign/config.ts:182-191 | Any list of trimmed, non-blank, comma-free ids comes back from its comma-separated form |
| `TemplateList.NormaliseIsIdempotent` | packages/esign-node/src/providers/docusign/config.ts:173-191 | Normalising keeps the ids a setting names and is idempotent |
| `TemplateList.UnsetIffReportedMissing` | packages/esign-node/src/providers/docusign/config.ts:173-203 | The stored setting is unset, and reported missing where required, exactly when the raw value is only commas and white space or absent |
| `TemplateList.MissingIsExact` | packages/esign-node/src/providers/docusign/config.ts:195-203 | Reported missing are exactly the required settings that are absent, empty or name no template |

## Left out

- DocuSign HTTP calls, Express and Apollo wiring, the Knex store, tracing and
  logging: I/O. A provider is its answer, a failing store a write at which it throws.
- Signatures, tokens and sessions: the JWT assertion, HMAC comparison and user
  authentication are booleans or opaque results.
- JSON text, URLs and the regular-expression engine: bodies are parsed values, and
  the newline replacement is modelled by what it matches (maximal runs of white
  space with a newline in them). Characters are whole code points, so lengths
  count those rather than UTF-16 units.
- Error message texts and the codes' wording: an error is its code.
- Interleaving: commits are atomic, as a database makes them; what the memory
  store does when transactions overlap is in `Overlap`, which does not replay the
  service calls over it.
- Overlap: transactions a callback opens inside itself are in `EnvelopeStore` only;
  reads change nothing and are not events.
- RateLimiter: a window is a value written back to its place, not an object whose
  count is incremented in place; fractional limits and parsing of the environment
  are not modelled.
- TokenCache: no `clearTokenCache`; after it an old refresh's finally can drop a
  newer flight.
- SigningFlow: timers fire, acquisitions settle and messages arrive as inputs at any
  time; React's scheduling of listeners and rendering are not modelled, nor are the calls of
  onError and onCancel logged (`EffectsTellTheOutcome` says which effects ask for them). The test
  seeds of the machine are left out.
- EnvelopeService: getEnvelope and getAuditLogs only read, so they are functions
  (`DoGetEnvelope`, `DoGetAuditLogs`) and have no method form.
- EnvelopeMint: the Web Forms mint is modelled only in its merge of the two prefills;
  its value shapes and the display formatting are not.
- Retry: the error classes the provider adapter maps (`isClientError`,
  `isNotFoundError`) only pick a message.
- Environment registry contents, posture and preflight checks, port and
  configuration checks other than the template list, themes, pages and the demo
  applications.
