# qURL integrations: verified models

This project models eight cores of the qURL integrations repository in Dafny and
proves what their code, tests and comments promise. Nothing of the original program
is executed here; the proofs are about the model, and the table below says which
lines each proved member models.

`dafny verify dfyconfig.toml` checks the whole project.

## What is modelled

**The keyed TTL cache and the API-key provider** (`internal/ttlcache/cache.go`,
`shared/auth/ddb_provider.go`). `TtlCache.dfy` gives each critical section of the
cache as a pure function and as a method of a class that changes its maps in place.
`CacheRuns.dfy` is a transition system of any number of callers, fills,
invalidations and seeds, with a log of fills and the origin of every value.
`ApiKeyProvider.dfy` and `ApiKeyObject.dfy` add the two maps the provider keeps under
the same mutex, and show that a workspace only ever sees its own slice.
`ApiKeyLoop.dfy` is the retry loop with its three budgets. `ApiKeyRuns.dfy` to
`ApiKeyHistory.dfy` are the system of one workspace: callers with program counters,
local setups and deletes, other processes, sweeps, contexts that end and clock
readings, over a row that is a history of versions. `ApiKeyClaims.dfy` derives what
the provider promises, and `ApiKeyAnswers.dfy` says what every answer rests on;
`ApiKeyWitness.dfy` shows that the conditions are needed.

**Where `qurl get` gets its link** (`apps/cli/cmd/get_crid_link.go`,
`apps/cli/internal/consume/crid_link.go`). `GetLink.dfy` models every answer as an
oracle and every question as an entry of a trace, proves the two tables of the first
link row by row, with what is told and what is sent for each row ("nothing is sent"
included), and the third, about refreshes, over runs of any length.

**The CI credential controller** (`scripts/qurl-cli-ci-credentials.py`).
`CiRemote.dfy` is the service over a network that loses answers: an object that keeps
the trace of every request it was sent, and the five bounded retry loops over it.
`CiCredentials.dfy` is the creation of a pair of keys over that service, with files
that can be left half written, and `CiPairLaws.dfy` says when each of its outcomes
happens. `CiNames.dfy`, `CiReconcile.dfy`, `CiReconcileLaws.dfy` and `CiInventory.dfy`
are the names of a run, its cleanup, what the cleanup makes of status codes, and the
bounded inventory.

**Log redaction** (`shared/observability/log_redaction.go`): `LogRedaction.dfy`.

**Three smaller cores**: the insertion tracker of the Gmail compose script
(`ComposeTracker.dfy`), the cancellation filter of `publish` (`PublishFilter.dfy`) and
the accounting of the browser cleanup helper (`NativeCleanup.dfy`).

## What was found

- A workspace ID of white space only is never invalidated or seeded
  (`shared/auth/ddb_provider.go:795-848`), so its deleted key can still be returned
  from the cache: `ApiKeyWitness.ABlankWorkspaceKeepsItsDeletedKey`. For every other
  workspace a delete is final until its marker runs out, and no longer:
  `ApiKeyWitness.AfterTheMarkerADeletedKeyReturns`.
- Redacting twice is not always redacting once. A value under a qURL-link key that
  marshals to a container, but that reflection does not see as one, is walked by the
  first pass and replaced whole by the second. `LogRedaction.SecondPass` gives the
  exact condition and `LogRedaction.SecondPassCanDiffer` an instance.
- The comments at `shared/observability/log_redaction.go:147-148` and beside its test
  say that groups allow one more level than maps. In the code they allow the same:
  `LogAttributes.GroupsCountLikeMaps`.
- `reconcile_run` catches only `CredentialError`. A fault while a response body is
  read is an `OSError` (`scripts/qurl-cli-ci-credentials.py:216-228`), and ends the
  run's cleanup at that target. `CiReconcile.AnUnreadBodyEndsTheCleanup` is a run in
  which the second of two agents is never requested for that reason;
  `CiReconcile.ReconcileRun` with `CiReconcile.EveryTargetIsRequested` says exactly what
  the service receives in either case.
- In the cancellation filter an annotation that claims the cancellation by itself, and
  not through its cause, survives: `PublishFilter.LeftIsNotCanceled` gives the exact
  condition.

## Model

| member | source | states |
|---|---|---|
| TtlCacheObject.Cache.GetOrStart | internal/ttlcache/cache.go:95-131 | a lookup sweeps when due, drops an expired entry, and hits, joins the running fill or owns a new one with the key's generation |
| TtlCacheObject.Cache.Finish | internal/ttlcache/cache.go:133-148 | a result is cached only for a positive time and the present generation; the call is published, and detached only if it is still the running one |
| TtlCacheObject.Cache.Invalidate | internal/ttlcache/cache.go:152-172 | entry and running fill go and the generation advances; the eviction hook runs exactly for a key that was cached |
| TtlCacheObject.Cache.InvalidateIf | internal/ttlcache/cache.go:174-193 | the same exactly when the cached result is accepted, also when it has expired; nothing otherwise |
| TtlCacheObject.Cache.CachedResultMatches | internal/ttlcache/cache.go:195-203 | whether a result is cached that the predicate accepts; nothing changes |
| TtlCacheObject.Cache.Seed | internal/ttlcache/cache.go:205-228 | an invalidation, and then an entry when the time is positive |
| TtlCacheObject.Cache.SweepExpired | internal/ttlcache/cache.go:252-265 | the loop deletes exactly the expired entries, at most once in an interval |
| TtlCacheObject.Cache.StoreLocked | internal/ttlcache/cache.go:267-275 | one entry replaced, with the eviction hook for an old one |
| TtlCacheObject.Cache.EvictKey | internal/ttlcache/cache.go:277-282 | one entry removed |
| CacheRuns.TicketInvariant | internal/ttlcache/cache.go:103-148 | over every history: an unfinished owner's call is the running one exactly when its ticket is the key's generation; entries and running fills share no key; every running call is unpublished; stores minus evictions is the number of entries; every entry comes from a fill that began at the present generation or from the seed that made it |
| CacheRuns.StoreNeverOverwrites | internal/ttlcache/cache.go:267-275 | under that invariant a fill never finds an entry to overwrite |
| CacheRuns.HitAfterInvalidationIsNewer | internal/ttlcache/cache.go:66-71 | a hit after an invalidation or seed never carries a value from a fill begun before it |
| CacheRuns.HitIsFresh | internal/ttlcache/cache.go:95-148 | over every history: a hit's value was stored at an earlier step for a positive time that is not over at the hit |
| CacheRuns.HitUntilExpiry | internal/ttlcache/cache.go:95-131 | until then it is found by every lookup, after any lookups of any keys |
| CacheRuns.SweepingIsInvisible | internal/ttlcache/cache.go:252-265 | for lookups in clock order any two sweep intervals give the same answer to the next lookup after every history |
| CacheRuns.SweepingMovesGenerations | internal/ttlcache/cache.go:174-190 | although the generations themselves can come to differ |
| CacheRuns.SweepingShowsOutOfOrder | internal/ttlcache/cache.go:252-265 | and out of clock order the answers can differ too |
| ApiKeyStore.LookUpOwn | shared/auth/ddb_provider.go:584-611 | a lookup acts on its own workspace as the one-workspace cell does, hooks included |
| ApiKeyStore.LookUpElsewhere | shared/auth/ddb_provider.go:310-333 | another workspace is left alone or swept |
| ApiKeyStore.FinishActs | shared/auth/ddb_provider.go:613-635 | the end of a fill acts on its own workspace only, as on the cell |
| ApiKeyStore.RevokeActs | shared/auth/ddb_provider.go:795-809 | so does an invalidation with its strong-read marker |
| ApiKeyStore.RevokeIfActs | shared/auth/ddb_provider.go:811-825 | so does an eviction by token, which happens exactly when that token is cached |
| ApiKeyStore.SeedActs | shared/auth/ddb_provider.go:833-848 | so does a seed, which also drops the marker |
| ApiKeyStore.CheckActs | shared/auth/ddb_provider.go:763-793 | so do the start and the end of a validation |
| ApiKeyObject.DDBProvider.OnSweep | shared/auth/ddb_provider.go:314-322 | the loop drops exactly the markers that have run out |
| ApiKeyObject.DDBProvider.OnEvict | shared/auth/ddb_provider.go:323-327 | an evicted key forgets its running validation |
| ApiKeyObject.DDBProvider.GetOrStartLookup | shared/auth/ddb_provider.go:584-611 | lookup, both hooks and the marker in one critical section; an owner gets a fresh call |
| ApiKeyObject.DDBProvider.FinishLookup | shared/auth/ddb_provider.go:613-635 | only found keys are cached, for five minutes |
| ApiKeyObject.DDBProvider.Invalidate | shared/auth/ddb_provider.go:795-809 | for a workspace ID with a character that is not white space, entry and running fill go, the generation advances and the marker is set; for any other nothing changes |
| ApiKeyObject.DDBProvider.EvictIfToken | shared/auth/ddb_provider.go:811-825 | the same exactly when the token is the cached one |
| ApiKeyObject.DDBProvider.CachedKeyStillLocal | shared/auth/ddb_provider.go:827-831 | whether the token is the cached one |
| ApiKeyObject.DDBProvider.Seed | shared/auth/ddb_provider.go:833-848 | for a workspace ID with a character that is not white space, the new key is cached for 300 seconds, a running fill is detached and the marker dropped; for any other nothing changes |
| ApiKeyObject.BlankMeans | shared/auth/ddb_provider.go:796-796 | a workspace ID is skipped exactly when all its characters have the Unicode property White_Space; any visible ASCII character is enough |
| ApiKeyObject.DDBProvider.GetOrStartValidation | shared/auth/ddb_provider.go:763-782 | a validation is shared exactly when it is about the same token |
| ApiKeyObject.DDBProvider.FinishValidation | shared/auth/ddb_provider.go:784-793 | it is published, and forgotten only if it is still the running one |
| ApiKeyLoop.TurnSpends | shared/auth/ddb_provider.go:497-521 | going round again spends one unit of exactly one of three budgets |
| ApiKeyLoop.AtMostSixLookups | shared/auth/ddb_provider.go:130-133 | whatever the others do, a call looks at most six times |
| ApiKeyLoop.SixLookupsHappen | shared/auth/ddb_provider.go:571-582 | for the loop as a function of its turns, six is the best bound |
| ApiKeyWitness.SixLookupsAreReached | shared/auth/ddb_provider.go:130-133 | a history of the provider in which one caller looks six times: its owner's context ends, a validation ends with a context error, and four setups replace the key during four validations |
| ApiKeyLoop.APIKey | shared/auth/ddb_provider.go:420-457 | the loop with its counters gives the answer of the recursive reading of its turns, and refuses an empty workspace and an ended context without a lookup |
| ApiKeyClaims.TurnsAreTheLoops | shared/auth/ddb_provider.go:420-521 | the turns are the system's: every step that ends a caller's turn does what the loop does with what that turn met and what the caller had spent |
| ApiKeyHistory.InvariantHolds | shared/auth/ddb_provider.go:420-495 | the provider's invariant after every history of one workspace: who owns each fill and validation, what each caller may rely on, and what the delete in force guarantees |
| ApiKeyHistory.StepKeeps | shared/auth/ddb_provider.go:584-848 | every single step keeps it |
| ApiKeyMoves.StaleRevokedKeeps | shared/auth/ddb_provider.go:480-487 | evicting a stale token never weakens the delete in force |
| ApiKeyMoves.SearchedKeeps | shared/auth/ddb_provider.go:584-611 | neither does a lookup, with or without a sweep |
| ApiKeyMoves.FillClosedKeeps | shared/auth/ddb_provider.go:613-635 | nor the end of a fill, on return and on panic |
| ApiKeyMoves.ValClosedKeeps | shared/auth/ddb_provider.go:737-761 | nor the end of a validation, on return and on panic |
| ApiKeyHistory.SetSeedKeeps | shared/auth/ddb_provider.go:985-990 | nor the cache step of a setup |
| ApiKeyHistory.InvalidateLocalKeeps | shared/auth/ddb_provider.go:1178-1188 | the cache step of a delete establishes its guarantee |
| ApiKeyClaims.DeletedKeyIsNotReturned | shared/auth/ddb_provider.go:1145-1189 | after a delete's cache step no call begun later, whose lookup came before the marker ran out, returns a key older than the row then was, in every interleaving and also when validation reads fail |
| ApiKeyClaims.RemovedVersionsStayGone | shared/auth/ddb_provider.go:1145-1189 | in terms of the write: every version the delete put an end to is gone |
| ApiKeyWitness.AfterTheMarkerADeletedKeyReturns | shared/auth/ddb_provider.go:584-611 | a history in which a lookup at the very end of the marker returns the deleted key |
| ApiKeyWitness.ABlankWorkspaceKeepsItsDeletedKey | shared/auth/ddb_provider.go:795-809 | a history in which a blank workspace returns its deleted key |
| ApiKeyClaims.ValidatedKeyWasCurrent | shared/auth/ddb_provider.go:707-793 | a key returned after a validation is what the row held at that validation's strong read, and the validation was unfinished when this caller started or joined it |
| ApiKeyClaims.FallbackMeansAFailedRead | shared/auth/ddb_provider.go:462-495 | a hit is answered without such a verdict only when the strong read of that very validation failed, or panicked, at an earlier step of the history |
| ApiKeyClaims.KeyFromAHitWasCurrent | shared/auth/ddb_provider.go:462-495 | so when validation reads do not fail, every key returned from a hit is the row's last version at the strong read of a validation this caller started or joined |
| ApiKeyClaims.CachedKeyOpensItsToken | shared/auth/ddb_provider.go:637-664 | every cached key is the opening of its own token |
| ApiKeyClaims.CallsEnd | shared/auth/ddb_provider.go:420-457 | every call ends within 54 steps of its own and six lookups, whatever else happens |
| ApiKeyClaims.NobodyIsStuck | shared/auth/ddb_provider.go:613-635 | a call that has not ended can step, or waits for an owner that can |
| ApiKeyClaims.PublishedOnce | shared/auth/ddb_provider.go:737-793 | what a fill or a validation published never changes |
| ApiKeyClaims.EndedOwnsNothing | shared/auth/ddb_provider.go:613-635 | a call that has ended, also by a panic, leaves nothing it owns unpublished |
| ApiKeyAnswers.PublishedTellsTheRow | shared/auth/ddb_provider.go:613-690 | over every history: what a fill published is the failure of its fetch, or what the row version says that it read: the key with its token, "not configured" exactly when there is no key, and another failure for a damaged row or an empty key |
| ApiKeyAnswers.NotConfiguredMeansNoKey | shared/auth/ddb_provider.go:643-690 | an answer "not configured" means that its fill read a version without a key at an earlier step, and that read did not fail |
| ApiKeyAnswers.AnswersAreGrounded | shared/auth/ddb_provider.go:420-521 | what every answer rests on: the publication of its fill, the end of the caller's context, or three validations that did not settle; a waiter passes on a context error only when its own has ended or it has retried; a fallback comes after one failed read, or two that ended with a context |
| ApiKeyAnswers.ReturnedWasCached | shared/auth/ddb_provider.go:480-495 | a key returned from a hit was still the cached one at the step that returned it |
| ApiKeyAnswers.EndedContextsEndTheWait | shared/auth/ddb_provider.go:441-452 | a caller that waits for another one is answered with the end of its own context as soon as that ends |
| ApiKeyWitness.FiveMinutes | shared/auth/ddb_provider.go:130-131 | for any key and any time: a call whose lookup comes within 300 seconds of the fill is answered with the validated key, and a later one fills again |
| ApiKeyWitness.DeleteReachesTheCache | shared/auth/ddb_provider.go:1145-1189 | a delete that was answered, also one that found nothing to remove, empties the cache and sets a marker of 300 seconds from before its write |
| ApiKeyWitness.WipeReachesTheCache | shared/auth/ddb_provider.go:1235-1283 | so does wiping the whole row, with a marker from after its write |
| GetLink.SecondTableHolds | apps/cli/cmd/get_crid_link.go:124-143 | for every answer to every request, what is told and what is sent is the row of the table of a device that asks for a link first |
| GetLink.FirstTableHolds | apps/cli/cmd/get_crid_link.go:102-122 | the same for all eleven rows of the first table, with the column of whether this client can ask for the CRID, and nothing sent where it cannot |
| GetLink.NothingInternalLeaves | apps/cli/cmd/get_crid_link.go:259-278 | no internal error comes out of `next`, whatever the answers |
| GetLink.LinksNameTheCrid | apps/cli/cmd/get_crid_link.go:711-717 | every link names the CRID that was asked for |
| GetLink.OriginMeans | apps/cli/cmd/get_crid_link.go:242-253 | what each origin says, in both directions |
| GetLink.OptionKept | apps/cli/cmd/get_crid_link.go:381-399 | a share option is asked for first and lost only to "not found" |
| GetLink.NothingIsAskedTwice | apps/cli/cmd/get_crid_link.go:444-490 | no question twice, and after the share request only the long one, after "not found" |
| GetLink.FirstStageFollowsTheRule | apps/cli/cmd/get_crid_link.go:28-38 | the SDK's documented rule gives the assumption of the next row |
| GetLink.OrderCostsNoLink | apps/cli/cmd/get_crid_link.go:66-74 | asking for the link first costs no link |
| GetLink.WhenOrderCostsALink | apps/cli/cmd/get_crid_link.go:401-490 | without any assumption, exactly when it would |
| GetLink.OrderChangesNoFailure | apps/cli/cmd/get_crid_link.go:145-146 | and it changes no failure, when the service answers alike both times |
| GetLink.NoAnswerIsNotNotFound | apps/cli/cmd/get_crid_link.go:146-149 | a link request without an answer is never reported as "not found" |
| GetLink.KeyReadCutOff | apps/cli/cmd/get_crid_link.go:807-818 | a key read that the short limit cut off counts as the limit running out |
| GetLink.NoKeyIsTheFirstAnswer | apps/cli/cmd/get_crid_link.go:819-826 | a device without a key gets the first request's answer |
| GetLink.RequestOnlyIsForEver | apps/cli/cmd/get_crid_link.go:345-364 | once a link came from the link request alone, every later question of the run is that request |
| GetLink.NoIdentityIsNeverNamed | apps/cli/cmd/get_crid_link.go:692-706 | a machine with no identity is never named to the service while the request stays offered or wrongly set up |
| GetLink.MemoryIsTheLinkInUse | apps/cli/cmd/get.go:149-162 | the memory is the origin of the last link that passed its check |
| GetLink.ClassifyIsPublic | apps/cli/internal/consume/crid_link.go:554-611 | no classified error is internal |
| GetLink.ClassifyMeans | apps/cli/internal/consume/crid_link.go:554-611 | the documented order and meaning of the errors: the first that an answer matches decides, whatever it matches besides, and an answer that matches none is not trusted |
| GetLink.AloneIsTold | apps/cli/cmd/get_crid_link.go:692-717 | what `next` tells of a machine with nothing else to ask: the link exactly when there is an address and no error, a refusal before anything was sent, or the documented meaning |
| GetLink.RequestIsTold | apps/cli/cmd/get_crid_link.go:401-490 | the same for a device that asks for a link first, with the share request's answer and the one repetition after the short limit |
| GetLink.ShareIsTold | apps/cli/cmd/get_crid_link.go:381-399 | the same for a device that asks for its share first |
| GetLink.KeyReadIsTold | apps/cli/cmd/get_crid_link.go:807-818 | and for one whose reading of the key was cut off or interrupted |
| GetLinkObject.LinkSource.NextLink | apps/cli/cmd/get_crid_link.go:345-358 | the method gives what the decision says for the link in use |
| GetLinkObject.LinkSource.Verified | apps/cli/cmd/get_crid_link.go:360-364 | only this sets the memory |
| GetLinkObject.LinkSource.Mint | apps/cli/cmd/get.go:149-162 | a link that fails its check is not handed out and leaves the memory alone |
| CiRemote.Remote.RetryRevoke | scripts/qurl-cli-ci-credentials.py:285-307 | the service receives exactly the requests of the bounded retry; 200, 204 and 404 finish it, 429, 5xx and lost answers cause another attempt up to three, and any other status fails it at once; only keys of that ID change, exactly when some DELETE took effect, and success means none is active |
| CiRemote.Remote.RetryAssignmentRetire | scripts/qurl-cli-ci-credentials.py:310-342 | the same for the retirement of an agent: 204 alone finishes it, and 429, 502, 503 and 504 cause another attempt, but not 500 |
| CiRemote.Remote.RetryResourceDelete | scripts/qurl-cli-ci-credentials.py:345-371 | the same for a resource: 204 and 404 finish it, 429 and 5xx cause another attempt; nothing is sent when its ID is malformed |
| CiRemote.Remote.RetryConnectorResourceDelete | scripts/qurl-cli-ci-credentials.py:374-437 | lookups by slug, and then the deletion of the resource exactly when a 200 shows the one active tunnel of that slug; a 200 with no row is nothing to delete, and any other 200 fails at once |
| CiRemote.RetryMeans | scripts/qurl-cli-ci-credentials.py:285-307 | a bounded retry sends one to three requests, every answer but the last asks for another, and the last one decides; it fails exactly on a refusal, or on the third answer that asks for another |
| CiRemote.LookupMeans | scripts/qurl-cli-ci-credentials.py:374-430 | a lookup is settled by the first answer that settles it, and otherwise fails after three |
| CiRemote.EraseInCodes | scripts/qurl-cli-ci-credentials.py:345-371 | what a deletion makes of the status codes |
| CiRemote.RetireInCodes | scripts/qurl-cli-ci-credentials.py:310-342 | what a retirement makes of them |
| CiRemote.RevokeInCodes | scripts/qurl-cli-ci-credentials.py:285-307 | what a revoke makes of them |
| CiRemote.ConnectorInCodes | scripts/qurl-cli-ci-credentials.py:374-437 | what the lookups and the deletion of a Connector make of the answers |
| CiRemote.MintMeans | scripts/qurl-cli-ci-credentials.py:891-938 | a bounded creation leaves the key there was, or that of the first POST that took effect; every attempt but the last missed, and the last succeeds with that key, raises its fault, or is the third miss |
| CiRemote.Remote.MintOrdinaryKey | scripts/qurl-cli-ci-credentials.py:891-938 | only requests for this name are sent, at most three; success gives the one well-formed key of that name; a bounded failure used all three, and any failure may or may not have made the key |
| CiFiles.Directory.Prepare | scripts/qurl-cli-ci-credentials.py:941-959 | only an empty directory is ready |
| CiFiles.Directory.Write | scripts/qurl-cli-ci-credentials.py:172-180 | a file is written once; a failed write may leave nothing, a part or the whole |
| CiFiles.Directory.Read | scripts/qurl-cli-ci-credentials.py:144-169 | exactly one value on one line is read, also when it is a part of what was written |
| CiShapes.PartsAreNotIds | scripts/qurl-cli-ci-credentials.py:972-974 | a part of a key ID is not a key ID, so the callers' check turns a half-written ID away |
| CiShapes.KeyIdIs | scripts/qurl-cli-ci-credentials.py:54-54 | a key ID is its prefix and twelve letters or digits |
| CiShapes.ApiKeyIs | scripts/qurl-cli-ci-credentials.py:49-49 | a key is one of two prefixes and 43 letters, digits, underscores or hyphens |
| CiShapes.ValuesAre | scripts/qurl-cli-ci-credentials.py:144-169 | one exact value, and a resource ID, in terms of the characters that Python strips |
| CiPairLaws.ReadTells | scripts/qurl-cli-ci-credentials.py:144-169 | what is read of a file: one exact value of at most 64 KiB, a local fault when it is missing, and a refusal of anything else |
| CiCreatePair.RevokeNamed | scripts/qurl-cli-ci-credentials.py:962-979 | success means the name has no active key, with or without a record of it |
| CiCreatePair.RevokeRecorded | scripts/qurl-cli-ci-credentials.py:982-994 | the same for a completed sibling, which is never created again |
| CiCreatePair.Attempt | scripts/qurl-cli-ci-credentials.py:1016-1043 | success keeps ID and secret of the name's own key |
| CiCreatePair.CreateWithAuth | scripts/qurl-cli-ci-credentials.py:1008-1056 | a plain failure leaves no active key of the name, and the other kind of failure says that one may be left |
| CiCreatePair.Isolated | scripts/qurl-cli-ci-credentials.py:1099-1112 | both files were read back and differ |
| CiCreatePair.CreateBoth | scripts/qurl-cli-ci-credentials.py:1094-1112 | what the guarded part of the command leaves in each case |
| CiCreatePair.Undo | scripts/qurl-cli-ci-credentials.py:1113-1132 | every completed key is revoked or the outcome says that it may not be |
| CiCreatePair.CreatePair | scripts/qurl-cli-ci-credentials.py:1059-1133 | the outcome, the keys, the requests and the files are exactly those of the steps in their order; success means two distinct kept keys; "every created key was revoked" means the run left none active, under any pattern of lost answers and commits; an invalid run or a failed check touches nothing; at most 17 requests; no other key changes |
| CiPairLaws.ACalmRunCreatesBoth | scripts/qurl-cli-ci-credentials.py:1094-1133 | when nothing fails and the service makes two different well-formed keys, both are created, kept and active, with one POST and one check for each, and nothing else happens |
| CiPairLaws.FailureMeans | scripts/qurl-cli-ci-credentials.py:1113-1132 | a run that neither created the pair nor was stopped met a directory that was not ready, a failed request or write of an attempt, or a comparison that failed |
| CiPairLaws.NotConvergedMeans | scripts/qurl-cli-ci-credentials.py:1113-1132 | "did not converge" means that the last request of some undoing was not a DELETE that was answered well, and that this request, or a write or read, really failed |
| CiPairLaws.StoppedMeans | scripts/qurl-cli-ci-credentials.py:1059-1133 | a run that has begun is stopped only by another kind of fault, which something raised |
| CiPairLaws.KeyCreatedTells | scripts/qurl-cli-ci-credentials.py:1008-1056 | one creation fails exactly when something of it failed, and tells that no key is left exactly when its undoing ended with a DELETE that was answered well |
| CiNames.CredentialNameTells | scripts/qurl-cli-ci-credentials.py:593-594 | a credential name tells run, attempt, lane and purpose |
| CiNames.AgentIdTells | scripts/qurl-cli-ci-credentials.py:597-609 | an agent ID tells run, attempt, runtime and label |
| CiNames.DescriptionTells | scripts/qurl-cli-ci-credentials.py:571-582 | a description tells run, attempt and runtime |
| CiNames.NamesDisjoint | scripts/qurl-cli-ci-credentials.py:585-613 | no credential name is a device-key name |
| CiNames.RunsShareNothing | scripts/qurl-cli-ci-credentials.py:585-629 | runs with another ID or attempt share no credential, device key, agent, description or Connector |
| CiNames.CredentialsAsPublished | scripts/qurl-cli-ci-credentials.py:585-594 | the credential names of a run, as text |
| CiNames.DescriptionAsPublished | scripts/qurl-cli-ci-credentials.py:571-582 | the description of its resources, as text |
| CiNames.AgentAsPublished | scripts/qurl-cli-ci-credentials.py:597-609 | an agent ID, as text |
| CiNames.LabelsAsPublished | scripts/qurl-cli-ci-credentials.py:632-650 | the labels of each kind of run and their codes |
| CiNames.LabelsAreCovered | scripts/qurl-cli-ci-credentials.py:597-629 | every label has its agent, its device key and its Connector, and there are no others |
| CiNames.RunIdentities | scripts/qurl-cli-ci-credentials.py:55-55 | which run identities are canonical |
| CiSorting.SortedSetIs | scripts/qurl-cli-ci-credentials.py:770-770 | sorted, without repeats, with the same members |
| CiSorting.UniqueIs | scripts/qurl-cli-ci-credentials.py:811-811 | first occurrences only, with the same members |
| CiReconcile.JudgeIsExact | scripts/qurl-cli-ci-credentials.py:739-768 | a row becomes a target exactly when it is an active, well-shaped key under one of the run's names, and is reported as out of shape exactly when it cannot be judged |
| CiReconcile.TargetIdsAre | scripts/qurl-cli-ci-credentials.py:735-768 | the collected IDs are exactly those of such rows |
| CiReconcile.ResourceIdsAre | scripts/qurl-cli-ci-credentials.py:799-810 | the collected resources are exactly the described ones |
| CiReconcile.CollectKeys | scripts/qurl-cli-ci-credentials.py:735-768 | the loop collects them and counts the rows out of shape |
| CiReconcile.CollectResources | scripts/qurl-cli-ci-credentials.py:799-810 | the loop collects them and counts the rows out of shape |
| CiReconcile.PlanIsExact | scripts/qurl-cli-ci-credentials.py:715-831 | what a run deletes: exactly its own keys, agents, Connectors and resources |
| CiReconcile.PlanInOrder | scripts/qurl-cli-ci-credentials.py:770-816 | revokes before retirements before Connectors before resources, nothing twice |
| CiReconcile.AttemptEach | scripts/qurl-cli-ci-credentials.py:770-816 | the loop over one kind of target: each is requested whatever became of the one before, and each failure is recorded |
| CiReconcile.AttemptOne | scripts/qurl-cli-ci-credentials.py:770-816 | one target: the service receives exactly the requests of its own bounded retries |
| CiReconcile.ReconcileRun | scripts/qurl-cli-ci-credentials.py:715-831 | the service receives exactly the requests of the plan's attempts, and the report is exactly what they met; only the plan's keys change, and success leaves none of them active |
| CiReconcile.EveryTargetIsRequested | scripts/qurl-cli-ci-credentials.py:777-831 | in what the service received: every target that can be sent is requested, in the plan's order, up to the one whose fault escapes; everything sent is for a target; each fate is what that target's requests met |
| CiReconcile.AnUnreadBodyEndsTheCleanup | scripts/qurl-cli-ci-credentials.py:216-228 | a run with two agents where the first answer's body cannot be read: the second agent is never requested |
| CiReconcileLaws.TargetsEndInCodes | scripts/qurl-cli-ci-credentials.py:770-816 | every target ends as the status codes it was answered with say |
| CiReconcileLaws.AllWellIsReconciled | scripts/qurl-cli-ci-credentials.py:715-831 | whole inventories and good answers about every target are a success, with every key and every resource counted |
| CiReconcileLaws.ReconciledMeans | scripts/qurl-cli-ci-credentials.py:818-831 | a success means that, and that the last answer about every target said that it is done |
| CiReconcileLaws.ConvergedMeans | scripts/qurl-cli-ci-credentials.py:285-437 | a target is done exactly when the last answer about it said so |
| CiReconcileLaws.FailuresAreNamed | scripts/qurl-cli-ci-credentials.py:770-822 | a failure is reported under the name of its kind of target, and only when such a target failed |
| CiReconcile.SuccessMeans | scripts/qurl-cli-ci-credentials.py:818-822 | no failure recorded exactly when both inventories were whole, no row was out of shape and no target failed |
| CiReconcile.CleanupFinishesTheJob | scripts/qurl-cli-ci-credentials.py:777-780 | a successful cleanup with a complete inventory leaves no active key under the run's names, whatever a creation left behind |
| CiReconcile.OtherRunsKeepTheirKeys | scripts/qurl-cli-ci-credentials.py:585-613 | and leaves every other run's keys as they were |
| CiInventory.PagedRows | scripts/qurl-cli-ci-credentials.py:440-503 | at most 20 pages, no cursor twice; a normal return is all pages in order and at most 2,000 rows; a bound error carries the pages before; an inventory within the limits is always returned; any other end has the reason its kind names: the page, row or time limit, a malformed answer, or a fault |
| CiInventory.RowAt | scripts/qurl-cli-ci-credentials.py:440-503 | row i of the k-th page is its i-th object, after the rows of the pages before |
| LogRedaction.ScanAgrees | shared/observability/log_redaction.go:325-403 | the scan is true exactly when the rewrite reports a change, and an unreported value is untouched |
| LogRedaction.KeysThatMatch | shared/observability/log_redaction.go:580-591 | the keys that match, in any case: those that hold one of eight words, and ten whole keys; and of these the keys of access links |
| LogRedaction.SomeSecrets | shared/observability/log_redaction.go:580-591 | keys in mixed case, and keys that hold a word, match |
| LogRedaction.OrdinaryKeys | shared/observability/log_redaction.go:580-591 | ordinary keys do not match |
| LogRedaction.FormsReplaced | shared/observability/log_redaction.go:494-547 | under a matched key text and bytes, also marshaled, are replaced, and empty ones, numbers and null stay |
| LogRedaction.ContainersReplaced | shared/observability/log_redaction.go:494-547 | containers that are not empty are replaced under the key of an access link, and walked under any other |
| LogRedaction.EmptyContainersStay | shared/observability/log_redaction.go:506-547 | an empty container stays under any key |
| LogRedaction.FiveLevels | shared/observability/log_redaction.go:194-262 | a matched field is replaced down to the fifth level, and nothing below it |
| LogRedaction.EveryPosition | shared/observability/log_redaction.go:194-262 | every position of the result: the marker where a path enters a replaced field, and otherwise what was there |
| LogRedaction.ChildOfRedacted | shared/observability/log_redaction.go:424-438 | within the limit a node's rewrite is the rewrite of its children |
| LogRedaction.NoSecretsLeft | shared/observability/log_redaction.go:494-547 | within the limit no matched field still holds a string, bytes or a marshaled string |
| LogRedaction.SecondPass | shared/observability/log_redaction.go:494-522 | a second pass changes nothing exactly when no link key hides a container behind a marshaler |
| LogRedaction.SecondPassCanDiffer | shared/observability/log_redaction.go:494-522 | such a value exists |
| LogRedactionLoops.AnyNeedsRedaction | shared/observability/log_redaction.go:337-367 | the scan as written |
| LogRedactionLoops.FieldNeedsRedaction | shared/observability/log_redaction.go:325-335 | one field's scan |
| LogRedactionLoops.MapNeedsRedaction | shared/observability/log_redaction.go:369-382 | stops at the first field that needs it, in any order |
| LogRedactionLoops.SliceNeedsRedaction | shared/observability/log_redaction.go:384-391 | stops at the first element that needs it |
| LogRedactionLoops.RedactAny | shared/observability/log_redaction.go:194-241 | the rewrite as written |
| LogRedactionLoops.RedactAnyField | shared/observability/log_redaction.go:494-504 | one field's rewrite |
| LogRedactionLoops.RedactMap | shared/observability/log_redaction.go:243-262 | fills the output and the flag in any order |
| LogRedactionLoops.RedactSlice | shared/observability/log_redaction.go:424-438 | fills the output and the flag |
| LogAttributes.GroupsCountLikeMaps | shared/observability/log_redaction.go:127-182 | an attribute is redacted as the same field of a map at the same depth, groups included |
| ComposeTracker.TrackerInvariant | apps/chrome-extension/content/gmail-compose.js:59-243 | over every order of events: each tracked caller answered once or waiting once; each entry has exactly its timer and each timer its entry; at most 64 entries |
| ComposeTracker.InsertionsStarted | apps/chrome-extension/content/gmail-compose.js:79-111 | an ID's insertions are its removals, and one more while it is tracked |
| ComposeTracker.AnswersOnlyGrow | apps/chrome-extension/content/gmail-compose.js:184-213 | no answer is taken back |
| ComposeTracker.VictimIs | apps/chrome-extension/content/gmail-compose.js:118-138 | the oldest completed entry makes room, or the oldest of all when nothing is done |
| ComposeTracker.NewRequestSurvives | apps/chrome-extension/content/gmail-compose.js:113-171 | a new request never makes room for itself, and a pending one only when nothing is done |
| ComposeTracker.RetryStartsNothing | apps/chrome-extension/content/gmail-compose.js:79-88 | a repeated request is told the cached response, or waits |
| ComposeTracker.SuccessIsTold | apps/chrome-extension/content/gmail-compose.js:184-243 | a success reaches everybody who waits or is announced late |
| ComposeTracker.EventsTell | apps/chrome-extension/content/gmail-compose.js:184-243 | what each event tells: a pending timer tells everybody who waits that the time is over, a completed insertion whether it worked, and a cleanup timer nobody; the same is what later callers are told |
| ComposeTracker.FinishTells | apps/chrome-extension/content/gmail-compose.js:184-243 | whoever waits for a request is told its response, in order and nobody else; the entry keeps it, with one cleanup timer |
| ComposeTracker.EvictTells | apps/chrome-extension/content/gmail-compose.js:140-171 | whoever waits in an evicted entry is told so, and no timer of it is left |
| ComposeTracker.RepeatedTells | apps/chrome-extension/content/gmail-compose.js:79-88 | a repeated request is told the cached response at once, or waits with the others |
| ComposeTracker.NewTells | apps/chrome-extension/content/gmail-compose.js:79-138 | a new request waits with its time running; when there were 64, one other entry makes room and its waiters are told so |
| ComposeTrackerObject.Tracker.HandleInsertLinks | apps/chrome-extension/content/gmail-compose.js:79-111 | the handler on the map in place |
| ComposeTrackerObject.Tracker.ChooseVictim | apps/chrome-extension/content/gmail-compose.js:118-138 | the oldest completed entry, or else the oldest |
| ComposeTrackerObject.Tracker.Prune | apps/chrome-extension/content/gmail-compose.js:113-171 | the loop evicts one entry when there is one too many |
| ComposeTrackerObject.Tracker.FinishTracked | apps/chrome-extension/content/gmail-compose.js:184-243 | everybody who waits is told once, and the timers change |
| ComposeTrackerObject.Tracker.OnPendingTimer | apps/chrome-extension/content/gmail-compose.js:93-101 | a pending timer finishes its request |
| ComposeTrackerObject.Tracker.OnCleanupTimer | apps/chrome-extension/content/gmail-compose.js:238-240 | a cleanup timer removes its entry and tells nobody |
| PublishFilter.WithoutExpectedDaemonCancellation | apps/cli/cmd/publish.go:735-766 | the recursion with its loop |
| PublishFilter.FilterKeepsFailures | apps/cli/cmd/publish.go:735-766 | the same failures in the same order, no cancellation, and nothing exactly when there was no failure |
| PublishFilter.FilterTwice | apps/cli/cmd/publish.go:735-766 | filtering twice is filtering once |
| PublishFilter.LeftIsNotCanceled | apps/cli/cmd/publish.go:748-757 | what is left matches the cancellation exactly when an annotation that stays claims it by itself |
| PublishFilter.AClaimSurvives | apps/cli/cmd/publish.go:748-757 | such an annotation survives |
| NativeCleanup.BrowserCleanup.Started | e2e/helpers/nativeBrowserCleanup.ts:135-139 | a fifth exchange is given up at once |
| NativeCleanup.BrowserCleanup.Finished | e2e/helpers/nativeBrowserCleanup.ts:140-142 | a pending exchange is observed once |
| NativeCleanup.BrowserCleanup.Failed | e2e/helpers/nativeBrowserCleanup.ts:162-164 | a failed one is given up once |
| NativeCleanup.BrowserCleanup.Observed | e2e/helpers/nativeBrowserCleanup.ts:142-160 | an observation ends in a handle, a denial or nothing |
| NativeCleanup.BrowserCleanup.Cleanup | e2e/helpers/nativeBrowserCleanup.ts:168-196 | the SDK sees exactly the tries of every round, and closed, denied and unresolved are exact and add up to the exchanges seen |
| NativeCleanup.BrowserCleanup.Settle | e2e/helpers/nativeBrowserCleanup.ts:168-178 | what is still pending is given up and the last observations are counted, each once |
| NativeCleanup.BrowserCleanup.Round | e2e/helpers/nativeBrowserCleanup.ts:184-189 | every open handle is tried once, and those that answered closed are dropped |
| NativeCleanup.BrowserCleanup.CloseAll | e2e/helpers/nativeBrowserCleanup.ts:182-194 | rounds follow while a handle is open and the budget lasts |
| NativeCleanup.ClosedIsNeverTriedAgain | e2e/helpers/nativeBrowserCleanup.ts:184-189 | in every such sequence of tries a handle that answered closed does not appear again |
| NativeCleanup.OpenMeansNeverClosed | e2e/helpers/nativeBrowserCleanup.ts:188-195 | what counts as unresolved is exactly what no try closed |
| NativeCleanup.ClosedMeansAll | e2e/helpers/nativeBrowserCleanup.ts:199-207 | `closed` exactly when there were one to four exchanges and all ended closed; `no admission` exactly when that was expected, the content failed and the one exchange was denied; otherwise `unresolved` |

## Left out

- Generations are unbounded numbers: the wrap-around of the 64-bit counter is not modelled.
- Encryption: a seal gives fresh material and opening it under the same workspace gives back what was sealed; KMS and AES-GCM are not part of this model.
- DynamoDB, HTTP, the relay and the SDKs are oracles with the answers the code tells apart; times are integers and clocks do not run backwards.
- At most one local setup or delete of a workspace is between its write and its cache step.
- ApiKeyLoop.APIKey: takes what each turn of the loop meets as an input; the interleaving that produces it is the transition system in ApiKeyRuns, and ApiKeyClaims.TurnsAreTheLoops ties the two.
- Lazily made maps and absent hooks of the cache, and the provider's other columns and Slack state, are not modelled.
- Verbose lines, message texts, exit codes and the session-duration note of `qurl get` are not modelled.
- The device key itself, its wiping and the goroutine that reads it: only whether the SDK got a key it can use.
- GetLink.OrderCostsNoLink: assumes that the first stage of the request as a device gets the answer of the request with the CRID alone unless the short limit ran out, as the SDK documents; GetLink.WhenOrderCostsALink needs no assumption.
- The child key's lifetime and owner checks are one local check that can fail; the regular expressions that names built by the program itself meet are not modelled; those for key IDs, keys and resource IDs are.
- CiRemote.Remote.MintOrdinaryKey: rests on the service's promises listed at the top of its file, among them that a request takes effect before its answer or never.
- CiNames.RunsShareNothing: treats the shortened hash of a Connector ID as injective.
- Rows of the inventory whose status is not a string, and reconciling several runs in one batch, are not modelled.
- Struct reflection, indirection through references, and upper case outside ASCII in log redaction are not modelled.
- Requests without results or without an ID are answered without tracking and are not part of the tracker's runs; nor are the search for a draft and the insertion itself.
- NativeCleanup.BrowserCleanup.Cleanup: takes the number of closing rounds that fit the five-minute budget as an input.
- The daemon, grants, the API client and the release scripts are left out: their claims are single branches or short arithmetic.
