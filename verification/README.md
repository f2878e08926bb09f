# Durable protocols of the integration service

The integration service keeps its state in database rows and survives crashes, retries,
concurrent workers and the erasure of a person's data. This project models the protocols that
make that work and proves what they promise.

How the models are built:

- A table is a map. One SQL statement, or one transaction, is one atomic step. A commit can
  land, land and still report an error, or be lost (`Basics.Fate`).
- A protocol is a machine: a `World` of tables, callers or workers with program counters, and a
  history of external effects; `Apply` takes one step and `Run` any list of them. Callers stop
  between any two steps, clocks and providers answer anything, and erasure and the other writers
  of the same rows interleave. Theorems quantify over every list of steps from the empty world.
- Beside each machine stands the code: classes whose fields are the tables and whose methods
  change them statement by statement, with the service's loops. Every method is tied to the step
  function it implements; for account writes and OAuth callbacks one uninterrupted execution is
  shown to be a run of the machine.
- Text is valid UTF-8: the host's JSON encoder replaces invalid bytes before they are hashed, so
  request ids that differ only in those share a row.
- SHA-256 is a function of the hashed text, injective where a result needs it; row ids keep half of
  the digest and are taken to be as distinct. AES is sealing
  under an identity, opened only under the same one. JSON decoding is a parameter.

Modules by protocol:

- Ledger of account writes and sensitive calls: `Identity`, `InvocationLedger`, `AccountWrites`,
  `AccountWriteSafety`, `AccountWriteTheorems`, `AccountWriteService`; `AccountWriteAuthority` and
  `AccountWriteRows` put the changing accounts, connections and grants beside it, `AccountWriteReturn` a run of them.
- Provider tasks and their outbox: `ProviderTasks`, `ProviderTaskSafety`, `ProviderOutbox`, `Deadlines`.
- Credential ownership: `Credentials`, `CredentialTheorems`, `CredentialStore`.
- Subject erasure: `Fences`, `SubjectErasure`, `SubjectWrites`, `SubjectErasureSafety`, `SubjectErasureTheorems`,
  `SubjectErasureRuns`, `SubjectLifecycle`; `CredentialErasure` ties it to credential ownership.
- OAuth sessions: `OAuthSessions`, `OAuthSafety`, `OAuthTheorems`, `OAuthStore`.
- Access scopes: `AccessScopes`, `Authorization`, `DataAccess`.
- Secret rotation: `SecretRotation`, `SecretResolution`, `SecretStore`; `SecretRefinement` shows its writers to be
  runs of the credential machine.
- Catalog startup and projection batches: `Catalog`, `CatalogStore`, `Batching`.
- Shared: `Basics`, `Text`, `Sorting`.

Properties that turned out to hold only under a condition, each with its exact condition and an
input that breaks it:

- An operation call id determines its trimmed workspace and request id exactly when the hashed text
  cannot be cut at another NUL into two trimmed parts (`CallIdIsUniqueIff`, `CallIdSharedThroughNul`).
- The due-time scan misses rows in the last second of the year 9999, where the five-digit year of
  the scan end sorts first (`FilterMissesNothingIff`).
- A row planned for erasure is left alone, and an erased one stays erased, exactly as long as no
  insert writes it again (`PlannedRowIsHeld`, `ErasedForGood`). Inserts that can are those that read no
  fence on the key of their row: manifest connections, webhooks, web push subscriptions, external
  identities and API keys, and connections, bare secrets and reservations whose fence is read before
  the key is trimmed (`ReinsertionsSlipPast`). For each, any erased row
  with the stated lookups comes back (`ManifestRevives`, `WebhookRevives`, `WebPushRevives`, `IdentityRevives`,
  `ApiKeyRevives`, `ConnectionRevives`, `SecretRevives`, `ReservationRevives`), and a run from the empty state gets
  there (the lemmas of `SubjectErasureRuns`); in ten of the seventeen tables none can (`SealedTablesStayErased`).
- A reservation can come back only when its secret was not erased with it: another connection referenced the
  secret when the request was prepared, or the secret was not stored (`ReservedSecretIsPlannedIff`), or a NUL in a
  key lets another pair of keys have its row. Otherwise it stays erased (`ReservationStaysErased`).
- A task result commits exactly when its claim holds, its contracts match, every event payload wraps and no new
  external id differs only by surrounding spaces from a stored or another listed one (`CommitDecision`,
  `EventsInsertable`): known events are looked up by the external id as it is, row ids are made from the
  trimmed one (`SpacedEventFails`).
- Credentials stay exclusive exactly when no upsert gets past the fence of an erased account with other
  references than its row is left with: the row is protected, its reservations are synchronised all the
  same (`RunKeepsIff`). It takes an untrimmed key or an untrimmed workspace, under which the fence is read
  (`UpsertSpelledKeepsIff`, `TrimmedKeysNeverSlip`), and either does (`SpelledKeySlips`, `SpelledWorkspaceSlips`).
- A resolved secret and its version agree exactly when no other fingerprint was stored between the
  two reads of the resolver (`ValueMatchesVersionIff`, `TornRead`); a torn version is refused by the
  next batch unless fingerprint and stamp were put back (`TornReadRotatesNothing`).
- A connection stood still between the reads of an account write exactly when no write in between set it
  active again under the frozen revision, connector and provider (`ConnectionStoodStillIff`); a run in which
  one does makes the call all the same (`RestoredConnectionIsCalled`).
- The stamp of a rotation batch can repeat a stored one when the clock is behind and the stored
  stamps are not in slice order (`StampIsNewIff`, `StampMayRepeat`). Two fields naming one secret
  are refused unless the first stores exactly what is already there (`BatchCommitsIff`); with just
  two fields they are always refused (`AliasPairNeverCommits`).
- The built-in catalog step is quiet at the second startup only for definitions with `key` and
  `name`; the stored row is the same either way (`BuiltinIsCurrentIff`, `StartupIsFixpoint`). Without a
  definition a new connector's second startup renames it exactly when trimming turns its key into another name
  (`ProviderStartupIsFixpointIff`, `SpacedKeyIsRenamed`).
- The user reader of an access scope does not see organization denials (`ReadersAgree`).

`dafny verify dfyconfig.toml` checks the whole project.

## Model

| member | source | states |
|---|---|---|
| `Fences.GuardSubjectWrite` | internal/infrastructure/persistence/database/integration/subject_write_fence.go:13-33 | a guarded write is refused exactly when one of its named references is fenced; an empty id names nothing |
| `Identity.NamespacesDisjoint` | internal/infrastructure/persistence/database/integration/operations_store.go:229-232 | account-write, call and delivery invocation ids never coincide, whatever is hashed |
| `Identity.AccountWriteIdInjective` | internal/application/integration/connection_account_writes.go:77-79 | two account writes share an id only for the same workspace, actor and request id |
| `Identity.CallIdIsUniqueIff` | internal/infrastructure/persistence/database/integration/operations_store.go:229-232 | a call id serves no other trimmed workspace and request id exactly when its hashed text cannot be cut at another NUL into two trimmed parts |
| `Identity.CallIdWithoutNul` | internal/infrastructure/persistence/database/integration/operations_store.go:229-232 | when neither trimmed part holds a NUL, two calls share an id exactly when their trimmed parts agree |
| `Identity.CallIdSharedThroughNul` | internal/infrastructure/persistence/database/integration/operations_store.go:229-232 | a NUL inside a workspace or request id makes two different calls share one id |
| `Identity.ProviderCommitIdInjective` | internal/infrastructure/persistence/database/integration/provider_worker_store.go:299-300 | an outbox id determines task row, fencing token and index |
| `InvocationLedger.ContentInjective` | internal/application/integration/connection_account_writes.go:80-85 | the fingerprinted content determines source and payload |
| `InvocationLedger.InvocationStore.InsertInvocation` | internal/infrastructure/persistence/database/integration/delivery_store.go:248-269 | the claim is insert-only: it is won exactly when the guards pass, the id is free and the insert is reported as landed; an existing row is never touched |
| `InvocationLedger.InvocationStore.ReadAccountWrite` | internal/infrastructure/persistence/database/integration/connection_account_write_receipts.go:61-91 | what a caller may learn of a stored write: absent, conflict, invalid receipt, or its recorded outcome with running and unknown statuses read as uncertain |
| `InvocationLedger.InvocationStore.FinishAccountWrite` | internal/infrastructure/persistence/database/integration/connection_account_write_receipts.go:14-46 | the terminal update lands only on the running row with exactly the claim's evidence and off every fence; nothing else in the table moves |
| `AccountWriteService.Classified` | internal/application/integration/connection_account_writes.go:109-126 | the outcome stored for a provider answer, including a success whose receipt does not validate |
| `AccountWriteService.AccountWriteService.WriteConnectionAccount` | internal/application/integration/connection_account_writes.go:100-140 | one uninterrupted write is a run of the concurrent machine by this caller's own steps, ending with an answer or a refusal |
| `AccountWriteService.AccountWriteService.ClaimAccountWrite` | internal/infrastructure/persistence/database/integration/connection_account_write_receipts.go:93-122 | guard, read, insert and second read are machine steps; only a reported insert proceeds to the provider |
| `AccountWriteService.AccountWriteService.ExecuteAccountWrite` | internal/infrastructure/persistence/database/integration/connection_account_write_executor.go:17-63 | the recheck and the call are machine steps and the outcome is the classified one |
| `AccountWriteService.AccountWriteService.FinishAccountWrite` | internal/infrastructure/persistence/database/integration/connection_account_write_receipts.go:14-46 | the terminal update and the read that follows are machine steps |
| `AccountWriteSafety.RunKeeps` | internal/infrastructure/persistence/database/integration/connection_account_write_receipts.go:93-122 | the ledger invariant holds after every run of callers, crashes, lost and misreported inserts, other ledger writers and erasure |
| `AccountWriteTheorems.RequestCalledAtMostOnce` | internal/application/integration/connection_account_writes.go:100-140 | over every run the provider is called at most once for one workspace, actor and request id |
| `AccountWriteTheorems.SensitiveCalledAtMostOnce` | internal/infrastructure/persistence/database/integration/operations_store.go:124-137 | over every run a sensitive call id reaches the provider at most once among sensitive callers, deliveries and retries of other ids included |
| `AccountWriteAuthority.RunProjects` | internal/infrastructure/persistence/database/integration/connection_account_write_executor.go:17-63 | a run beside changing accounts, connections and grants is a run of the ledger machine, so its promises carry over |
| `AccountWriteRows.CallsAreAuthorized` | internal/infrastructure/persistence/database/integration/connection_account_write_executor.go:17-44 | every provider call was preceded by six reads in order, at six moments of the run: the account allowed the actor, the connection was active at the frozen revision and provider, and the grant covered the operation, each in the rows as they stood at that moment |
| `AccountWriteRows.StillCalledAtMostOnce` | internal/application/integration/connection_account_writes.go:100-140 | beside changing rows too, a request is called at most once |
| `AccountWriteRows.OnlyLaterWritesAreMissed` | internal/infrastructure/persistence/database/integration/connection_account_write_executor.go:36-44 | at the call the connection is still current unless a writer of it came after its second read, and the grant still covers unless one came after the grant read |
| `AccountWriteRows.ConnectionStoodStillIff` | internal/infrastructure/persistence/database/integration/connection_account_write_executor.go:14-38 | the connection was current at every moment from the authorization through the second read, so no revocation, reconfiguration or erasure fell in between, exactly when no upsert or status change in between wrote it active under the frozen revision, connector and provider over something else |
| `AccountWriteRows.OnlyRestoringMakesCurrent` | internal/infrastructure/persistence/database/integration/connection_account_write_executor.go:14-38 | of all writers of the authorizing rows exactly those make a connection current that was not |
| `AccountWriteRows.NewStampsKeepStill` | internal/infrastructure/persistence/database/integration/connection_account_write_executor.go:14-38 | in particular it stood still when no write of it stamped the frozen revision again |
| `AccountWriteReturn.RestoredConnectionIsCalled` | internal/infrastructure/persistence/database/integration/connection_account_write_executor.go:17-55 | for every claim a run from the empty state in which the connection is revoked after the first read of the call and restored under the same revision before the second, all six reads allow the call, and the provider is called |
| `AccountWriteTheorems.StoredStatusIsTruthful` | internal/infrastructure/persistence/database/integration/connection_account_write_executor.go:45-62 | succeeded is stored only after a provider success with a validated receipt, and a provider success is never stored as failed |
| `AccountWriteTheorems.OwnerFinishMatches` | internal/infrastructure/persistence/database/integration/connection_account_write_receipts.go:31-46 | the owner of a claim always finds the row as it inserted it, so its terminal update is never refused |
| `AccountWriteTheorems.StepEvolves` | internal/infrastructure/persistence/database/integration/connection_account_write_receipts.go:14-46 | one step takes an account-write row only from absent to running, to one terminal status, and otherwise through erasure |
| `AccountWriteTheorems.TerminalRowIsFinal` | internal/infrastructure/persistence/database/integration/connection_account_write_receipts.go:31-46 | a terminal row and its receipt never change over any later run except by erasure |
| `AccountWriteTheorems.FingerprintDetects` | internal/application/integration/connection_account_writes.go:80-85 | equal fingerprints mean equal source and payload |
| `AccountWriteTheorems.ChangedContentConflicts` | internal/infrastructure/persistence/database/integration/connection_account_write_receipts.go:75-78 | a request under a used id is refused as a conflict exactly when its source or payload differs from the stored one |
| `AccountWriteTheorems.ChangedContentNeverSent` | internal/application/integration/connection_account_writes.go:105-113 | content other than the first stored one never reaches the provider under the same request id |
| `AccountWriteTheorems.AnsweredSuccessHappened` | internal/application/integration/connection_account_writes.go:130-139 | a caller that is answered succeeded is shown a receipt the provider really returned for its content |
| `ProviderTasks.EventsMeaning` | internal/infrastructure/persistence/database/integration/provider_worker_store.go:267-293 | after the event loop every listed external id is present, earlier events are untouched and every new event was asked for |
| `ProviderTasks.CommitsMeaning` | internal/infrastructure/persistence/database/integration/provider_worker_store.go:294-308 | exactly the listed outbox rows are new, one per index, and earlier rows are untouched |
| `ProviderTasks.CommittedMeansLanded` | internal/infrastructure/persistence/database/integration/provider_worker_store.go:246-319 | a committed transaction landed state advance, events, outbox rows and wakes together and nothing else |
| `ProviderTasks.CommitsInsertable` | internal/infrastructure/persistence/database/integration/provider_worker_store.go:294-308 | with free ids the outbox inserts succeed exactly when every operation contract matches |
| `ProviderTasks.EventsInsertable` | internal/infrastructure/persistence/database/integration/provider_worker_store.go:267-293 | the event inserts succeed exactly when every payload wraps and no new external id differs only by surrounding spaces from a stored or another listed one of its workspace and provider |
| `ProviderTasks.SpacedEventFails` | internal/infrastructure/persistence/database/integration/provider_worker_store.go:272-274 | two listed external ids that differ by a space fail the transaction: the lookup takes them as they are, the row id trims them |
| `ProviderTasks.ProviderTaskStore.ClaimProviderTask` | internal/infrastructure/persistence/database/integration/provider_worker_store.go:193-204 | the lease is taken exactly when status, token, due time and lease are as scanned and the row is not fenced |
| `ProviderTasks.ProviderTaskStore.FailProviderTask` | internal/infrastructure/persistence/database/integration/provider_worker_store.go:329-343 | a failure is recorded only under the claim's own token and worker id; the fifth attempt is a dead letter |
| `ProviderTasks.ProviderTaskStore.CommitProviderTaskResult` | internal/infrastructure/persistence/database/integration/provider_worker_store.go:246-319 | the transaction publishes all four effects or none, also when its commit is misreported |
| `ProviderTasks.ProviderTaskStore.UpsertProviderTask` | internal/infrastructure/persistence/database/integration/provider_worker_store.go:95-125 | a task row is looked up by workspace, connection and task key; a missing one is created under its id, unless that is taken, and a found one is reset only when its state version changes and no erasure fences it, without touching its token |
| `ProviderTaskSafety.RunKeeps` | internal/infrastructure/persistence/database/integration/provider_worker_store.go:193-204 | the lease invariant holds over every interleaving of workers, resets, wakes, crashes and erasure |
| `ProviderTaskSafety.OneEffectPerToken` | internal/infrastructure/persistence/database/integration/provider_worker_store.go:246-266 | for each task row and fencing token at most one result or failure ever lands, even when workers share an id |
| `ProviderTaskSafety.StepIsQuiet` | internal/infrastructure/persistence/database/integration/provider_worker_store.go:193-204 | whatever the step, a row keeps its lease owner or drops it unless its token grows, and tokens never decrease |
| `ProviderTaskSafety.RunGrowsTokens` | internal/infrastructure/persistence/database/integration/provider_worker_store.go:193-204 | task rows and their tokens never go back over any run |
| `ProviderTaskSafety.StaleWorkerIsPowerless` | internal/infrastructure/persistence/database/integration/provider_worker_store.go:329-343 | a worker whose claim is over changes no table now or after any further run |
| `ProviderTaskSafety.ClaimsEnd` | internal/infrastructure/persistence/database/integration/provider_worker_store.go:95-125 | any change of token or owner of a held row ends the claim for good |
| `ProviderTaskSafety.OutboxIdsAreFree` | internal/infrastructure/persistence/database/integration/provider_worker_store.go:299-301 | a held claim never meets an existing outbox id in any reachable state |
| `ProviderTaskSafety.RunKeepsEventsKeyed` | internal/infrastructure/persistence/database/integration/inbound_store.go:95-106 | over every run of results, inbound webhooks and later writers an event has the id its workspace, provider and trimmed external id make |
| `ProviderTaskSafety.CommitDecision` | internal/infrastructure/persistence/database/integration/provider_worker_store.go:246-319 | in every reachable state a result commits exactly when its claim holds, every event payload wraps and no new external id differs only by surrounding spaces from a stored or another listed one, and its contracts match |
| `ProviderTaskSafety.ResultIsAllOrNothing` | internal/infrastructure/persistence/database/integration/provider_worker_store.go:246-319 | a commit step lands the complete result under that condition and changes no table otherwise |
| `ProviderTaskSafety.DeadLetterAtFive` | internal/infrastructure/persistence/database/integration/provider_worker_store.go:329-343 | in every reachable state a task that can still run stands at four attempts at most and a dead letter at five, and the counter never exceeds the failures that landed in the history, so a dead letter has at least five of them |
| `ProviderOutbox.ProviderOutboxStore.Claim` | internal/infrastructure/persistence/database/integration/provider_worker_store.go:388-400 | an outbox row is leased exactly when it is unchanged since the scan and not fenced |
| `ProviderOutbox.ProviderOutboxStore.Finish` | internal/infrastructure/persistence/database/integration/provider_worker_store.go:401-418 | the delivery outcome is recorded only under the claim's own token and worker id |
| `ProviderOutbox.RunKeeps` | internal/infrastructure/persistence/database/integration/provider_worker_store.go:352-421 | the outbox invariant, hand-overs against attempts, holds over every run |
| `ProviderOutbox.HandoversAreBounded` | internal/infrastructure/persistence/database/integration/provider_worker_store.go:352-421 | an outbox row is handed to delivery at most five times in any run, and while it lives at most attempts plus one |
| `ProviderOutbox.DeadLetterAtFive` | internal/infrastructure/persistence/database/integration/provider_worker_store.go:401-412 | a live row is a dead letter exactly at five failures |
| `Deadlines.TextFilterIsBeforeSecond` | internal/infrastructure/persistence/database/integration/provider_worker_deadline.go:11-13 | an RFC3339Nano text sorts below the scan end exactly when its second is earlier |
| `Deadlines.NextSecondIsNext` | internal/infrastructure/persistence/database/integration/provider_worker_deadline.go:11-13 | the scan end is the very next second, over month, leap-year and year ends |
| `Deadlines.FilterMissesNothingIff` | internal/infrastructure/persistence/database/integration/provider_worker_deadline.go:11-13 | the text filter passes every instant at or before now, for every now except the last second of the year 9999 |
| `Deadlines.FormatRoundTrip` | internal/infrastructure/persistence/database/integration/provider_worker_deadline.go:15-31 | parsing a formatted instant returns it |
| `Deadlines.RecheckedScanIsDue` | internal/infrastructure/persistence/database/integration/provider_worker_store.go:139-166 | text scan plus exact recheck selects exactly the due rows, when LIMIT does not cut |
| `Deadlines.KeepReady` | internal/infrastructure/persistence/database/integration/provider_worker_store.go:151-171 | the recheck loop keeps exactly the ready rows in order and fails exactly on an unparsable time |
| `Deadlines.SelectCandidates` | internal/infrastructure/persistence/database/integration/provider_worker_store.go:135-171 | the candidates are the due rows among the first of the scan in due order, ties in any order, up to the limit (25 outside 1 to 500); an uncut scan misses no due row |
| `Deadlines.EqualFractionsOrder` | internal/infrastructure/persistence/database/integration/provider_worker_deadline.go:11-13 | text order is time order for equal fraction lengths, the condition of section 5.1 of RFC 3339 |
| `Deadlines.NaiveOrderMissesDueRow` | internal/infrastructure/persistence/database/integration/provider_worker_deadline.go:11-13 | without equal fraction lengths plain text order misses a due row |
| `Credentials.UpsertKeeps` | internal/infrastructure/persistence/database/integration/management_store.go:174-278 | saving a connection under a trimmed key keeps credentials exclusive |
| `Credentials.UpsertSpelledKeepsIff` | internal/infrastructure/persistence/database/integration/management_store.go:187-278 | saving a connection under any spelling of its workspace and key keeps credentials exclusive exactly when it does not change the references of an account whose row is fenced, and only an untrimmed key or an untrimmed workspace gets that far: the fence is read before trimming, the row write is stopped by the row fence and the reservations are synchronised all the same |
| `Credentials.TrimmedUpsertIsSpelled` | internal/infrastructure/persistence/database/integration/management_store.go:187-278 | with key and workspace trimmed the row fence never stops the row, as a fenced row has a fenced key |
| `Credentials.RegisterKeeps` | internal/infrastructure/persistence/database/integration/connection_account_store.go:209-272 | registering an account keeps credentials exclusive |
| `Credentials.DeleteKeeps` | internal/infrastructure/persistence/database/integration/management_store.go:280-316 | deleting a connection keeps credentials exclusive |
| `Credentials.CollectCovers` | internal/infrastructure/persistence/database/integration/subject_erasure.go:170-257 | a subject's plan holds exactly the credentials its own connections reference, which are exactly its reservations, and none that another connection references |
| `Credentials.PrepareKeeps` | internal/infrastructure/persistence/database/integration/subject_erasure.go:361-447 | preparing an erasure keeps credentials exclusive |
| `Credentials.EraseKeeps` | internal/infrastructure/persistence/database/integration/subject_erasure.go:449-527 | carrying an erasure out keeps credentials exclusive |
| `CredentialTheorems.RunKeepsIff` | internal/infrastructure/persistence/database/integration/connection_account_store.go:292-346 | credentials stay exclusive over a run of register, upsert, delete, status, manifest, revoke, secret and erasure steps exactly when no upsert gets past the fence of an erased account with other references |
| `CredentialTheorems.TrimmedKeysNeverSlip` | internal/infrastructure/persistence/database/integration/management_store.go:187-196 | upserts whose workspace and key are spelled as stored never do, in any run |
| `CredentialTheorems.SpelledKeySlips` | internal/infrastructure/persistence/database/integration/management_store.go:187-278 | a run that does: erased account c, upserted under a key with a space, ends without references and with a reserved secret |
| `CredentialTheorems.SpelledWorkspaceSlips` | internal/infrastructure/persistence/database/integration/management_store.go:187-278 | and one under a workspace with a space, the key trimmed |
| `CredentialTheorems.TrimmedUpsertIsRefused` | internal/infrastructure/persistence/database/integration/management_store.go:187-278 | the same upsert with both trimmed leaves nothing reserved beside the row |
| `CredentialTheorems.CredentialsStayExclusive` | internal/infrastructure/persistence/database/integration/connection_account_store.go:292-346 | in every state reached without such a slip an account reserves exactly the keys it references and nobody else references them |
| `CredentialTheorems.RevokeIsolates` | internal/infrastructure/persistence/database/integration/connection_account_store.go:348-428 | revocation leaves every other connection resolving as before, leaves none of the account's credentials active, and does nothing on a stale revision |
| `CredentialTheorems.PrepareIsolates` | internal/infrastructure/persistence/database/integration/subject_erasure.go:361-447 | preparing an erasure changes no connection outside the subject's own and what none of them resolves to |
| `CredentialTheorems.EraseIsolates` | internal/infrastructure/persistence/database/integration/subject_erasure.go:449-527 | carrying an erasure out changes planned rows only and no other connection's resolution |
| `CredentialTheorems.FencedSecretStaysGone` | internal/infrastructure/persistence/database/integration/management_secret_store.go:91-163 | a fenced secret resolves to nothing after any later run, whatever the spelling of its key and workspace: it is absent, inactive or without material |
| `CredentialStore.CredentialStore.MaterialSecretKeys` | internal/infrastructure/persistence/database/integration/connection_account_store.go:274-290 | the distinct managed keys of an account, refused when any reference is not managed material |
| `CredentialStore.CredentialStore.RejectReservedAccountSecrets` | internal/infrastructure/persistence/database/integration/connection_account_store.go:436-459 | passes exactly when every managed key is free or reserved by this connection |
| `CredentialStore.CredentialStore.RejectExistingCredentialAliases` | internal/infrastructure/persistence/database/integration/connection_account_store.go:461-500 | passes exactly when no other connection references one of the keys |
| `CredentialStore.CredentialStore.SyncConnectionAccountSecrets` | internal/infrastructure/persistence/database/integration/connection_account_store.go:292-346 | afterwards the account's reservations are exactly its keys, or nothing changed |
| `CredentialStore.CredentialStore.UpsertConnection` | internal/infrastructure/persistence/database/integration/management_store.go:174-278 | row and reservations are written together or restored, for a trimmed workspace and key |
| `CredentialStore.CredentialStore.UpsertSpelledConnection` | internal/infrastructure/persistence/database/integration/management_store.go:174-278 | the same for workspace and key as spelled: fences before trimming, row write under the row fence, reservations in either case |
| `CredentialStore.CredentialStore.RegisterConnectionAccount` | internal/infrastructure/persistence/database/integration/connection_account_store.go:209-272 | ownership is immutable; a new account and its reservations are written together or restored |
| `CredentialStore.CredentialStore.DeleteConnection` | internal/infrastructure/persistence/database/integration/management_store.go:280-316 | connection, account and reservations go together |
| `CredentialStore.CredentialStore.RevokeConnectionAccount` | internal/infrastructure/persistence/database/integration/connection_account_store.go:348-428 | status and the reserved active secrets are revoked, or the table is as it was |
| `CredentialStore.CredentialStore.CollectCredentials` | internal/infrastructure/persistence/database/integration/subject_erasure.go:170-257 | the loops over accounts, connections and reservations gather the plan |
| `CredentialStore.CredentialStore.UpsertSecret` | internal/infrastructure/persistence/database/integration/management_secret_store.go:78-163 | refused on a fenced key or subject; an empty value keeps the stored material |
| `CredentialStore.CredentialStore.UpsertSpelledSecret` | internal/infrastructure/persistence/database/integration/management_secret_store.go:91-193 | the same for workspace and key as spelled: only a value makes the trimmed key's fence be read under the trimmed workspace |
| `SubjectErasure.NormalizedEqualIff` | internal/infrastructure/persistence/database/integration/subject_erasure.go:86-103 | two requests are stored alike exactly when they are equal up to order, duplicates and legal holds |
| `SubjectErasure.SubjectSpecsAreCoherent` | internal/infrastructure/persistence/database/integration/subject_erasure.go:49-67 | the table of erased tables redacts leases the way prepare clears them, anonymizes connections, ends the use of connections and webhooks, deletes secrets, subscriptions, identities and API keys, deletes from no table that is otherwise only added to, and sets no identifying column |
| `SubjectLifecycle.SubjectLifecycleStore.PersonalConnections` | internal/infrastructure/persistence/database/integration/subject_erasure.go:172-193 | the connection keys of the subject's personal accounts |
| `SubjectLifecycle.SubjectLifecycleStore.ReadReferences` | internal/infrastructure/persistence/database/integration/subject_erasure.go:195-230 | the secrets that the subject's connections reference and those that others do, or a refusal at references that cannot be read |
| `SubjectLifecycle.SubjectLifecycleStore.Collect` | internal/infrastructure/persistence/database/integration/subject_erasure.go:129-328 | a plan exists exactly when all references can be read, no covered row is in flight and there are at most 10000 of them; it holds exactly the covered rows |
| `SubjectLifecycle.SubjectLifecycleStore.PrepareSubjectErasure` | internal/infrastructure/persistence/database/integration/subject_erasure.go:361-447 | the saved plan is replayed, or fences, marks and receipt are written together, or nothing changes |
| `SubjectLifecycle.SubjectLifecycleStore.ErasePreparedSubject` | internal/infrastructure/persistence/database/integration/subject_erasure.go:449-527 | only the stored plan is carried out, once; a stored result is returned unchanged |
| `SubjectErasureSafety.RepeatedPrepareReplays` | internal/infrastructure/persistence/database/integration/subject_erasure.go:117-128 | at any later time prepare returns the saved plan exactly when the request is equal up to order and duplicates, and changes nothing |
| `SubjectErasureSafety.RepeatedEraseReplays` | internal/infrastructure/persistence/database/integration/subject_erasure.go:468-477 | at any later time erase returns the stored result and changes nothing |
| `SubjectErasureSafety.ProtectedWritesAreRefused` | internal/infrastructure/persistence/database/integration/subject_erasure.go:385-416 | after prepare every guarded write naming the subject, a planned connection, credential, external identity or row, or a named message or resource is refused for good |
| `SubjectErasureSafety.PrepareFrame` | internal/infrastructure/persistence/database/integration/subject_erasure.go:413-436 | prepare marks the covered rows, one token more and no lease where the table has them, and touches no other row |
| `SubjectErasureSafety.EraseFrame` | internal/infrastructure/persistence/database/integration/subject_erasure.go:478-511 | erase deletes or redacts the rows of its plan, column by column as listed, and touches no other row |
| `SubjectErasureSafety.RunKeeps` | internal/infrastructure/persistence/database/integration/subject_erasure.go:385-416 | over every run of erasures, guarded updates, deletions by key and inserts, planned rows stay fenced, ids stay made from keys, and what a key names in a plan is fenced under that key |
| `SubjectWrites.InsertedIsKeyed` | internal/infrastructure/persistence/database/integration/management_store.go:74-77 | an inserted row carries the trimmed key its id is made from |
| `SubjectWrites.FencedKeyRefuses` | internal/infrastructure/persistence/database/integration/subject_write_fence.go:13-33 | an insert of a row named by a fenced key is refused by its own guards, except a manifest insert, a connection or bare secret under an untrimmed spelling, and a reservation under one or through a NUL in its keys |
| `SubjectErasureTheorems.ReinsertionsSlipPast` | internal/infrastructure/persistence/database/integration/subject_write_fence.go:13-33 | in reachable states a planned row is inserted again only by those, by a webhook, a web push subscription, an external identity or an API key; accounts, grants, secret materials, sessions and the tables nothing deletes from never get one back |
| `SubjectErasureTheorems.StepHoldsIff` | internal/infrastructure/persistence/database/integration/subject_write_fence.go:37-43 | a step leaves a planned row alone, until an erasure covers it, exactly when it does not insert it again |
| `SubjectErasureTheorems.PlannedRowIsHeld` | internal/infrastructure/persistence/database/integration/subject_write_fence.go:37-43 | from prepare until an erasure covers it a planned row is left alone by every step of a run exactly when no step inserts it again after a deletion |
| `SubjectErasureTheorems.StepSettledIff` | internal/infrastructure/persistence/database/integration/subject_erasure.go:478-511 | a step undoes the erasure of a row exactly when it inserts the row again other than in redacted form |
| `SubjectErasureTheorems.ErasedForGood` | internal/infrastructure/persistence/database/integration/subject_erasure.go:478-511 | after erase a planned row stays absent or redacted throughout a run exactly when no step revives it so; it is exactly redacted unless a further request has it marked |
| `SubjectErasureTheorems.SealedTablesStayErased` | internal/infrastructure/persistence/database/integration/subject_erasure.go:478-511 | accounts, grants, secret materials, sessions, leases, tasks, outbox, invocations, events and intents stay erased over every run whatsoever |
| `SubjectErasureTheorems.WebhookRevives` | internal/infrastructure/persistence/database/integration/management_webhook_store.go:77-178 | deletion and upsert of a webhook key, neither consulting a fence, bring an erased subscription back |
| `SubjectErasureTheorems.WebPushRevives` | internal/infrastructure/persistence/database/integration/web_push_subscription_store.go:137-196 | a web push subscription comes back under its id for any owner without a fence |
| `SubjectErasureTheorems.IdentityRevives` | internal/infrastructure/persistence/database/integration/management_identity_store.go:87-141 | an external identity comes back under its key for another actor and external subject |
| `SubjectErasureTheorems.ApiKeyRevives` | internal/infrastructure/persistence/database/integration/management_api_key_store.go:96-145 | an API key comes back under its key for another actor |
| `SubjectErasureTheorems.ManifestRevives` | internal/infrastructure/persistence/database/integration/requirements_store.go:121-131 | a connection with a manifest id comes back through deletion and the next manifest synchronisation |
| `SubjectErasureTheorems.ConnectionRevives` | internal/infrastructure/persistence/database/integration/management_store.go:188-261 | any other connection comes back through deletion and an upsert under a spelling of its key that no fence names |
| `SubjectErasureTheorems.SecretRevives` | internal/infrastructure/persistence/database/integration/management_secret_store.go:91-150 | a secret's metadata comes back, without material, under a spelling of its key that no fence names |
| `SubjectErasureTheorems.ReservationRevives` | internal/infrastructure/persistence/database/integration/connection_account_store.go:292-346 | a deleted reservation whose account is there and whose secret is still active, so was not planned with it, comes back under a spelling of its connection key that no fence names |
| `SubjectErasureTheorems.ReservedSecretIsPlannedIff` | internal/infrastructure/persistence/database/integration/subject_erasure.go:195-250 | a reservation's secret is planned with it exactly when it is stored and no connection of somebody else references it |
| `SubjectErasureTheorems.StepKeepsSecretsInactive` | internal/infrastructure/persistence/database/integration/subject_write_fence.go:37-43 | a planned secret is never usable again: it is marked, gone, or back without a value |
| `SubjectErasureTheorems.ReservationStaysErased` | internal/infrastructure/persistence/database/integration/connection_account_store.go:292-346 | a reservation erased together with its secret, both keys without NUL, stays erased over every run whatsoever |
| `SubjectErasureRuns.SubjectTablesAreQuiet` | internal/infrastructure/persistence/database/integration/subject_erasure.go:49-67 | the real table covers the tables of these runs and lists no in-flight status for them, so they are runs of the real erasure |
| `SubjectErasureRuns.WebPushComesBack` | internal/infrastructure/persistence/database/integration/web_push_subscription_store.go:137-196 | a run from the empty state in which an erased subscription returns for another owner |
| `SubjectErasureRuns.IdentityComesBack` | internal/infrastructure/persistence/database/integration/management_identity_store.go:87-141 | a run from the empty state in which an erased external identity returns |
| `SubjectErasureRuns.ApiKeyComesBack` | internal/infrastructure/persistence/database/integration/management_api_key_store.go:96-145 | a run from the empty state in which an erased API key returns |
| `SubjectErasureRuns.ConnectionComesBack` | internal/infrastructure/persistence/database/integration/management_store.go:188-261 | a run from the empty state in which an erased connection returns under an untrimmed key |
| `SubjectErasureRuns.ManifestComesBack` | internal/infrastructure/persistence/database/integration/requirements_store.go:121-131 | a run from the empty state in which an erased manifest connection returns |
| `SubjectErasureRuns.WebhookComesBack` | internal/infrastructure/persistence/database/integration/management_webhook_store.go:77-178 | a run from the empty state in which an erased webhook subscription returns |
| `SubjectErasureRuns.SecretComesBack` | internal/infrastructure/persistence/database/integration/management_secret_store.go:91-150 | a run from the empty state in which an erased secret returns bare under an untrimmed key |
| `SubjectErasureRuns.ReservationComesBack` | internal/infrastructure/persistence/database/integration/connection_account_store.go:292-346 | a run from the empty state in which an erased reservation, its secret referenced by another connection too, returns under an untrimmed key |
| `CredentialErasure.GatherIsCollect` | internal/infrastructure/persistence/database/integration/subject_erasure.go:170-256 | the connection and secret keys of the erasure plan are those the credential model collects from the same rows |
| `CredentialErasure.IdTextIsOwnerId` | internal/infrastructure/persistence/database/integration/management_store.go:74-77 | a row id of the credential model stands for the id an upsert writes |
| `CredentialErasure.PrepareAgrees` | internal/infrastructure/persistence/database/integration/subject_erasure.go:361-447 | one prepare: the rows and fences it leaves stand in the credential model exactly where that model's prepare puts them |
| `CredentialErasure.EraseAgrees` | internal/infrastructure/persistence/database/integration/subject_erasure.go:449-527 | one erasure: whenever the two plans name the same rows, the rows that carrying it out leaves stand where the credential model's erasure puts them |
| `CredentialErasure.SubjectErasureAgrees` | internal/infrastructure/persistence/database/integration/subject_erasure.go:361-527 | for the real table of erased tables, prepare and erase together are the prepare and erase of the credential model |
| `OAuthSafety.RunKeeps` | internal/infrastructure/persistence/database/integration/oauth_session_store.go:126-140 | the session invariant holds over every run of callbacks, polls, timeouts, crashes, application changes and erasure |
| `OAuthTheorems.CodeIsExchangedAtMostOnce` | internal/infrastructure/persistence/database/integration/oauth_session_store.go:231-240 | a code is exchanged at most once per session over every run, with the verifier made for that session (section 4.1.2 of RFC 6749, section 4.1 of RFC 7636) |
| `OAuthTheorems.VerifierIsStoredWhilePending` | internal/infrastructure/persistence/database/integration/oauth_session_store.go:126-140 | outside erasure the verifier is stored exactly while the session is pending |
| `OAuthTheorems.TerminalIsFinal` | internal/infrastructure/persistence/database/integration/oauth_session_store.go:141-183 | connected, rejected, expired and needs-reauthorization sessions never change over any later run except by erasure |
| `OAuthTheorems.CommitIsAllOrNothing` | internal/infrastructure/persistence/database/integration/oauth_session_store.go:258-308 | the provisioning transaction changes nothing, or connection, account, four secrets, reservations, grant and status together |
| `OAuthTheorems.ConnectedMeansProvisioned` | internal/infrastructure/persistence/database/integration/oauth_session_store.go:258-308 | connected is entered by that transaction only, by the caller whose one exchange succeeded |
| `OAuthTheorems.GrantMeansConnected` | internal/infrastructure/persistence/database/integration/oauth_session_store.go:298-307 | in every reachable state a connected session names its account and its exchange succeeded, and a grant belongs to a session that is connected or under erasure |
| `OAuthTheorems.RunKeepsExclusiveIff` | internal/infrastructure/persistence/database/integration/oauth_session_store.go:268-297 | with sessions provisioning accounts among all other credential transactions, credentials stay exclusive throughout a run exactly when no upsert gets past the fence of an erased account |
| `OAuthTheorems.ProvisionUpsertIsSpelled` | internal/infrastructure/persistence/database/integration/oauth_session_store.go:268-285 | provisioning upserts its connection as any caller that spells workspace and key as stored |
| `OAuthStore.OAuthSessionStore.StartOAuthAuthorization` | internal/infrastructure/persistence/database/integration/oauth_session_store.go:53-125 | for a subject whose ids arrive trimmed, a pending session is inserted exactly when the subject is not fenced, the scope is allowed, the application is enabled at this revision and the remaining inputs are ready |
| `OAuthStore.OAuthSessionStore.UpdateOAuthSession` | internal/infrastructure/persistence/database/integration/oauth_session_store.go:126-140 | the update lands exactly on the expected previous status off every fence, and always clears the verifier |
| `OAuthStore.OAuthSessionStore.GetOAuthAuthorization` | internal/infrastructure/persistence/database/integration/oauth_session_store.go:141-183 | a poll is a run of the machine and never answers a status that its clock has ended |
| `OAuthStore.OAuthSessionStore.CompleteOAuthAuthorization` | internal/infrastructure/persistence/database/integration/oauth_session_store.go:184-313 | one uninterrupted callback is a run of the machine that sends at most one exchange |
| `OAuthStore.OAuthSessionStore.Provision` | internal/infrastructure/persistence/database/integration/oauth_session_store.go:256-312 | statement by statement with rollback, the transaction is the atomic step |
| `AccessScopes.ScopeDataPredicate` | internal/infrastructure/persistence/database/integration/access_scope.go:31-75 | the built row predicate holds of a row exactly when the scope's filter admits its owners |
| `AccessScopes.ScopedWhere` | internal/infrastructure/persistence/database/integration/access_scope.go:12-29 | the clause is workspace, filter and additions; an invalid scope or a foreign workspace is refused |
| `AccessScopes.FilterIsExact` | internal/infrastructure/persistence/database/integration/access_scope.go:31-75 | with both owner columns the filter is the policy |
| `AccessScopes.MissingUserColumn` | internal/infrastructure/persistence/database/integration/access_scope.go:35-49 | without the user column a row is admitted exactly when the policy admits it for every user |
| `AccessScopes.MissingOrgColumn` | internal/infrastructure/persistence/database/integration/access_scope.go:35-49 | without the organization column a row is admitted exactly when the policy admits it for every organization |
| `AccessScopes.MissingBothColumns` | internal/infrastructure/persistence/database/integration/access_scope.go:35-49 | without both columns a row is admitted exactly when the policy admits every row |
| `AccessScopes.RequireAllDataScope` | internal/infrastructure/persistence/database/integration/access_scope.go:84-100 | management passes exactly under an unrestricted scope without denials in its own workspace |
| `AccessScopes.AllDataScopeIff` | internal/infrastructure/persistence/database/integration/access_scope.go:84-100 | that is exactly a valid scope admitting every row |
| `AccessScopes.ConnectionAccountAccess` | internal/domain/integration/model/integration_access.go:48-62 | personal access holds exactly when the scope is valid and the user-column filter admits the actor |
| `AccessScopes.ScopeAllowsUser` | internal/infrastructure/persistence/database/integration/web_push_subscription_store.go:307-325 | the user reader's two searches |
| `AccessScopes.ReadersAgree` | internal/infrastructure/persistence/database/integration/web_push_subscription_store.go:307-325 | the user-column filter is the user reader, except under organization denials where it admits nothing |
| `AccessScopes.UserReaderIgnoresOrganizationDenial` | internal/infrastructure/persistence/database/integration/web_push_subscription_store.go:307-325 | an organization denial that the user reader does not see |
| `Authorization.DescribesIffCanonical` | internal/application/integration/authorization.go:117-137 | a predicate describes a scope exactly when it is that scope's one canonical predicate |
| `Authorization.PredicateMatchesDataScopes` | internal/application/integration/authorization.go:91-115 | accepts exactly the closed contract: zero predicate, canonical predicate, or a permutation of the canonical predicates |
| `Authorization.MatchAll` | internal/application/integration/authorization.go:101-114 | greedy in-place matching is complete: it accepts exactly the permutations |
| `Authorization.ApplyPoliciesHits` | internal/application/integration/authorization.go:50-68 | the collected lists allow and deny a row exactly as the matching policies cover it |
| `DataAccess.UniqueSortedList` | internal/application/integration/authorization.go:191-204 | trimmed, non-empty, once each, in text order |
| `DataAccess.AuthorizeDataAccess` | internal/application/integration/authorization.go:16-89 | the loops decide as the specification does, error by error |
| `DataAccess.GrantedScopeIsExact` | internal/application/integration/authorization.go:46-88 | a granted scope is valid, belongs to the principal, and admits a row exactly when some allow scope covers it and no deny scope or guardrail does |
| `DataAccess.CompiledFilterIsExact` | internal/infrastructure/persistence/database/integration/access_scope.go:31-75 | from bundle to row: the filter admits a row exactly when the policy admits it for every value of the columns the table lacks |
| `DataAccess.GrantsFailClosed` | internal/application/integration/authorization.go:33-45 | nothing is granted without the exact function grant, against a denying one, or without a data policy |
| `SecretRotation.BatchIsAtomic` | internal/infrastructure/persistence/database/integration/secret_resolver.go:105-166 | a batch commits only if every target still has the version seen at resolve; then metadata and material of all targets carry the new values under one stamp and nothing else moved |
| `SecretRotation.BatchCommitsIff` | internal/infrastructure/persistence/database/integration/secret_resolver.go:140-164 | a batch commits exactly when all targets are current and unfenced and every aliased earlier field stores the fingerprint and stamp already there |
| `SecretRotation.AliasPairNeverCommits` | internal/infrastructure/persistence/database/integration/secret_resolver.go:133-152 | a batch of just two fields naming one secret never commits |
| `SecretRotation.SecondWriterIsRefused` | internal/infrastructure/persistence/database/integration/secret_resolver.go:120-122 | of two batches from one snapshot the second is refused once the first moved the version |
| `SecretRotation.StampIsNewIff` | internal/infrastructure/persistence/database/integration/secret_resolver.go:133-138 | the one-pass stamp is new to every target exactly when every unbroken run of stored stamps from the clock on is listed in slice order |
| `SecretRotation.StampMayRepeat` | internal/infrastructure/persistence/database/integration/secret_resolver.go:133-138 | a clock behind the stored stamps can hand a target the stamp it has |
| `SecretRotation.RunFaithful` | internal/infrastructure/persistence/database/integration/management_secret_store.go:102-163 | every managed secret's fingerprint is the hash of its material over every run of all writers |
| `SecretResolution.ValueMatchesVersionIff` | internal/infrastructure/persistence/database/integration/secret_resolver.go:200-247 | a resolution reads metadata and material one after the other; over every run of writers and readers its value hashes to the fingerprint of its version exactly when the stored fingerprint is the same at both reads |
| `SecretResolution.UndisturbedVersionIsTruthful` | internal/infrastructure/persistence/database/integration/secret_resolver.go:209-239 | which holds when no upsert, rotation or batch between the reads gives the key another content |
| `SecretResolution.TornRead` | internal/infrastructure/persistence/database/integration/secret_resolver.go:209-246 | an upsert between the reads hands out the new value under the old version |
| `SecretResolution.TornVersionIsRefused` | internal/infrastructure/persistence/database/integration/secret_resolver.go:119-123 | a batch that names a version the tables no longer carry is refused after any later run that does not put back both its fingerprint and its stamp |
| `SecretResolution.TornReadRotatesNothing` | internal/infrastructure/persistence/database/integration/secret_resolver.go:105-123 | so a torn resolution of any run rotates nothing, unless a later write puts both back |
| `SecretStore.SecretTables.ApplySecretUpdates` | internal/infrastructure/persistence/database/integration/secret_resolver.go:45-98 | fields in text order, refused as a whole by the first unusable one, then the batch |
| `SecretStore.SecretTables.ApplyPreparedSecretUpdates` | internal/infrastructure/persistence/database/integration/secret_resolver.go:105-166 | the loop over targets is the batch, with rollback at the first changed target |
| `SecretStore.SecretTables.ReadMetadata` | internal/infrastructure/persistence/database/integration/secret_resolver.go:200-233 | the first read: an environment reference is answered, an unusable secret refused, otherwise key and version are remembered |
| `SecretStore.SecretTables.ReadMaterial` | internal/infrastructure/persistence/database/integration/secret_resolver.go:234-247 | the second read: what the material under the key decrypts to, with the remembered version |
| `SecretStore.SecretTables.ResolveReferenceSnapshot` | internal/infrastructure/persistence/database/integration/secret_resolver.go:200-247 | both reads with nobody in between are the two steps of the reader |
| `SecretStore.SecretTables.UpsertSecret` | internal/infrastructure/persistence/database/integration/management_secret_store.go:78-163 | metadata and material are written together; without a value both stay |
| `SecretStore.SecretTables.TransitionSecret` | internal/infrastructure/persistence/database/integration/management_secret_store.go:194-240 | only status, expiry and revision of an unfenced secret change |
| `SecretStore.SecretTables.RotateSecret` | internal/infrastructure/persistence/database/integration/management_secret_store.go:246-261 | replacement and transition together or neither |
| `SecretRefinement.WriterIsCredentialRun` | internal/infrastructure/persistence/database/integration/management_secret_store.go:78-261 | every writer of the two secret tables keeps fenced secrets as they are and removes none: seen as status, material and revision it is a run of the credential machine |
| `SecretRefinement.WriterEffectIsExact` | internal/infrastructure/persistence/database/integration/management_secret_store.go:78-261 | and each writer's own effect there is exactly its own: upsert, replacement, transition, revocation, expiry, and a committed batch that stores every target under one stamp |
| `SecretRefinement.WriterKeepsExclusive` | internal/infrastructure/persistence/database/integration/secret_resolver.go:105-166 | rotations, transitions and upserts keep credentials exclusive |
| `SecretRefinement.UpsertsAgree` | internal/infrastructure/persistence/database/integration/management_secret_store.go:78-163 | the upsert of metadata and material, seen that way, is the credential machine's upsert |
| `Catalog.StartupsKeep` | internal/infrastructure/persistence/database/integration/provider_catalog_sync.go:40-115 | after any startups the stored hash is of the stored payload and an overlaid document has all defaulted fields |
| `Catalog.OverlayPreservesDefinition` | internal/infrastructure/persistence/database/integration/provider_catalog_sync.go:73-80 | every field of the definition other than the two projections survives the overlay |
| `Catalog.BuiltinIsCurrentIff` | internal/infrastructure/persistence/database/integration/builtin_catalog_sync.go:147-172 | the next startup leaves the built-in step nothing to write exactly when the definition has key and name |
| `Catalog.StartupIsFixpoint` | internal/infrastructure/persistence/database/integration/provider_catalog_sync.go:73-107 | repeating a startup stores the same payload, hash, kind, name and source |
| `Catalog.NamelessDefinitionIsRewritten` | internal/infrastructure/persistence/database/integration/builtin_catalog_sync.go:147-172 | a definition without name is rewritten at every startup and ends the same |
| `Catalog.ProviderStartupIsFixpointIff` | internal/infrastructure/persistence/database/integration/provider_catalog_sync.go:73-107 | without a definition repeating a startup stores the same row exactly when the row was there before or trimming the key leaves it, or no name |
| `Catalog.SecondProviderStartupIsFixpoint` | internal/infrastructure/persistence/database/integration/provider_catalog_sync.go:73-107 | and from the second startup on always |
| `Catalog.SpacedKeyIsRenamed` | internal/infrastructure/persistence/database/integration/provider_catalog_sync.go:85-107 | a new connector whose key has a space is renamed by the second startup |
| `CatalogStore.DefinitionTable.SyncBuiltinCatalog` | internal/infrastructure/persistence/database/integration/builtin_catalog_sync.go:21-50 | the row of each key comes from its last definition that differs from the row at the start; the loop fails exactly at the second insert of a definition listed twice, keeping what was written; nothing is written when all are current |
| `CatalogStore.SingleDefinition` | internal/infrastructure/persistence/database/integration/builtin_catalog_sync.go:21-50 | a definition listed once ends as the built-in step makes it, and is left alone when it was current |
| `CatalogStore.DefinitionTable.SyncProviderCatalog` | internal/infrastructure/persistence/database/integration/provider_catalog_sync.go:27-38 | every overlaid connector is provided or, after an unreadable document, untouched |
| `Batching.BatchProjections` | capability/contract.go:311-327 | content and order are kept, both limits respected, and each batch could not take the next projection |
| `Batching.FewestBatches` | capability/contract.go:311-327 | no legal contiguous split has fewer batches |

## Left out

- HTTP handlers, routing, OpenAPI, SDK conversion, assembly and connector transports: plumbing over the modelled stores.
- SQL rendering and NULL: predicates are functions on rows with text columns; a missing owner value is not modelled.
- JSON syntax, field validators and size limits other than those named: payloads are abstract values, references are already trimmed.
- Schema and migrations: only the uniqueness constraints, as map keys.
- Timestamps that no condition reads (`created_at`, `rotated_at`, `recorded_at`), descriptions and other columns without a part in a protocol.
- Event mapping, runtime triggers and event retries: their status writes carry no fencing token, so what holds of task rows does not hold there.
- Reconciliation: only that it never takes an account-write row; its last write is not conditional.
- Progress: a task or outbox row left in `processing` by a crash is never selected again, so the worker results are about safety.
- API keys, external identities, webhook and web push subscriptions apart from their inserts, deletion and erasure and the user reader of a scope: easy members.
- OAuth application management and scope readiness: applications change arbitrarily between steps; connection configuration is not part of the provisioned row.
- Provider descriptors behind the catalog overlay: providers, operations and revisions of a connector are one given value, so sorting and merging of operations is not modelled.
- The order in which Go iterates over maps and SQL returns unordered rows: the loops take any order.
- The builder of workspace-scoped statements is not part of this repository: a fence is found under the workspace exactly as it is passed.
- SubjectErasureRuns.ReservationComesBack: how the secret came to be shared is left open; among upserts and registrations it takes a key or workspace that was not trimmed (`CredentialTheorems.TrimmedKeysNeverSlip`).
- Lookups of aliases before a reservation is inserted, in the erasure machine: the insert is a step once they passed; they are part of `CredentialStore`.
- OAuthStore.OAuthSessionStore.StartOAuthAuthorization: the subject's ids arrive trimmed; the subject fence is read before they are trimmed, so it is not found under another spelling.
- OAuthSessions, SecretRotation: their keys arrive trimmed; what an untrimmed key does to the fences is in `Credentials`, `SubjectWrites` and `SubjectErasureTheorems`.
- Credentials.UpsertSecretSpelled: a row under a fenced key is left as it is; a bare row inserted after the plan has no row fence and its revision may move.
- The first authorization of an account write, before its claim, and the one before its answer: any source may be answered there; the one before the call is modelled read by read.
- Secrets, readiness and provider descriptors that authorization consults besides account, connection and grant: each is one answer of the surroundings.
- Serializable isolation of prepare and erase, and the receipt read before the transaction: prepare is one step that reads the receipt again.
- Subject events and external identities traced for a plan: given to `SubjectErasure` as they were found.
- Two workspaces at once in the credential, OAuth and rotation models: every statement there is scoped to one workspace; the ledger, tasks and erasure carry the workspace.
- Deadlines.FormatRoundTrip: other spellings that the parser of the host accepts (zones, missing leading zeros) are not parsed, because no stored time has them.
- SubjectErasureTheorems.ErasedForGood: a further request of the same subject marks the row's status again until it is carried out, so the status is exact only without one.
- AccountWriteTheorems.SensitiveCalledAtMostOnce: retriable calls under the same id are not counted, because the delivery path may reset a finished row to running by design.
