# A verified model of Attestra's auth protocols

This Dafny project models the record-based protocols of the Attestra e-mail authentication backend and its
deployment tools, and proves what they keep over every run. All of them have one shape: a record lives in a
store whose writes commit only if the revision (or version) that was read is still there; several actors read
it, cause outside effects and try to write it back; any of them can die, overlap with others, or have its
answer lost after the write committed.

Each protocol has up to four layers.

- A *rules* or *model* module says what each operation makes of the record it read.
- A *world* module holds everything shared (the record, the bucket, URLs in circulation, the provider, files,
  requests and workers in flight, the clock) and a total function `Step` from events to worlds. A run is any
  sequence of events, so it is any interleaving, with any crash and any lost answer.
- *Invariant* and *safety* modules prove what every run keeps, and the promises that follow from it.
- A *service* module has the code itself, as methods that update fields and local records step by step while
  other actors move in between. A ghost `history` lists what happened, and every method keeps the fields equal
  to the run of that history (`Valid()`), so each theorem about runs is a theorem about the methods. A method
  that set a field wrongly, left out a write or went on after its Lambda was ended would not be a run.

The protocols:

- **Captures** (`CaptureModel`, `CaptureRules`, `CaptureWorld`, `CaptureInvariant`, `CaptureSafety`,
  `CaptureService`, `CaptureWorker`, `CapturePending`): the life of an identity capture from upload to
  clean-up, with API requests (25 s), workers (90 s), holders of upload URLs (300 s) and leases (120 s).
- **Accounts** (`CaptureAccount`, `CaptureAccountSafety`, `AccountService`): an owner's captures, the daily
  budget, operation keys, the permanent captured flag and the onboarding status.
- **Environment reset** (`ResetModel`, `ResetWorld`, `ResetInvariant`, `ResetSafety`, `ResetService`).
- **E-mail proofs** (`EmailModel`, `EmailWorld`, `EmailInvariant`, `EmailSafety`, `EmailService`).
- **Deployment lock** (`Registry`, `RegistryService`, `IndexWorld`, `IndexSafety`, `IndexReceipts`, `IndexPromise`,
  `IndexClient`): the registry's record, and the clients' receipt and lock files.
- **Runtime configuration** (`Onboarding`, `ConfigWorld`, `ConfigSafety`, `ConfigService`).
- **Recovery deletion** (`NukeModel`, `NukeRun`, `NukeSafety`, `NukeExceptions`, `NukeRecovery`): the order in
  which the last recovery data may go. `NukeRun` is the clean-up as a function of the providers' answers, the
  methods of `NukeRecovery` are proved to compute it, and the theorems are about that function.

Fields that only record history (how often a capture became ready, which day a capture was charged to, which
confirmation created a user) are marked as such where they are declared; no step reads them to decide anything.

## Where the code does not do what is said of it

The model follows the code. Each of these has the exact condition under which the claim holds and, where the
condition alone does not show it, a run in which the claim fails.

- *Ready evidence is due for deletion before creation plus 24 hours plus 7 days.* `Work` checks one clock
  reading against the session's end and computes the deadline from a later one (capture/worker.go:164-182), so
  the bound can be reached. Whether a delivery keeps it is decided by when the delivery starts: all that can
  follow keeps the bound exactly when its worker is gone within 24 hours of creation, or when it starts too
  late to promote anything (`CaptureSafety.DeadlineWithinEightDaysIff`); for every other start
  `DeadlineCanReachEightDays` gives the run. The bound that always holds, and lies inside the bucket's ten
  days, is `DeadlineInsideLifecycle`.
- *At most five captures are created a day.* The day is read before the creation time (capture/service.go:181,
  192). Five is the bound on captures charged to a day, and by creation times too where no create straddles
  midnight (`CaptureAccountSafety.FiveUnlessStraddling`). Six have creation times on one UTC day exactly when a
  create that straddles midnight precedes five charged to the day (`FivePerDay`); `SixCreatedInOneDay` is such a run.
- *A held deployment lock always has its token in a saved receipt.* Setup looks for a receipt before it takes
  the .lock file (index_client.go:274, 281), and a release removes the receipt without that file (306-321). The
  promise holds all through a run exactly when the run takes none of three steps (`IndexPromise.PromiseHoldsIff`,
  and `PromiseBreaksIff` for the next step of any run in which it holds so far): a setup that has taken the .lock file saves a fresh token
  over the receipt of the held lock, a release removes the receipt of a lock that another process holds by then,
  or the registry grants the lock to a token whose receipt is gone. `IndexReceipts.StaleLookLosesReceipt`,
  `IndexPromise.ReleaseLosesReceipt` and `GrantLacksReceipt` are the three runs. When every setup still finds no
  receipt as it saves its own, the promise holds (`IndexReceipts.HeldLockHasReceipt`).
- *History starts at revision 0.* `Seed` stores the configuration under version 0 but does not insist that its
  revision is 0 (runtimeconfig/store.go:178-191). A run's history is gap-free exactly when the seed it committed,
  if any, has revision 0 (`ConfigSafety.SeedIsGapFreeIff`).
- *Every deleted state bucket passed its scope check.* A bucket that the provider answers as missing in the
  preflight and as present at its deletion is purged unchecked (`NukeExceptions.PurgeUnchecked`). With distinct
  buckets, a bucket is touched unchecked exactly when the preflight's answer was that it is missing
  (`NukeModel.UncheckedIff`).
- *A failed report write blocks recovery clean-up.* A save that fails during the key preflight sets the flag, but
  the next flag check comes after the first bucket's step (nuke_recovery.go:136-164). So something is deleted
  after a failed save exactly when the flag is set as the deletions begin, which needs the explicit save before
  them to have succeeded, and the first listed bucket is found; then no other bucket is touched
  (`NukeExceptions.DeletionAfterFailedSaveIff`). `PurgeAfterFailedSave` is such a run.
- *At most ten code comparisons an hour.* A comparison is charged to the hour that is read before the charge is
  made (email/service.go:434-440), so by the clock an hour can see more than ten (`EmailSafety.ElevenInAnHour`). Ten
  is the bound on an hour's charges (`ComparisonsPerHour`), and by the clock too where no comparison straddles the
  beginning of the hour (`TenUnlessStraddling`). An hour's comparisons are its charges, plus the late ones of the hour
  before, less its own late ones (`ComparisonsByTheClock`).

## Model

A row that begins with "one step:" is a fact about a single step. These facts support the theorems about runs,
and are no results of their own.

| member | source | states |
|---|---|---|
| CaptureSafety.SwapReadTheStoredRecord | awscapture/store.go:129-177 | in every run, a write that changes the record came from an actor whose copy was exactly the stored record, is that actor's operation applied to it, and raises the revision by one |
| CaptureSafety.OvertakenWorkerNeverLands | capture/worker.go:46-204 | once anything has replaced the record a worker read, nothing it computes reaches the table, whatever happens in between |
| CaptureRules.ExpiredViewIsNotWritten | capture/service.go:74-108 | the expired copy that `Get` makes is never the basis of a write |
| CaptureSafety.StoredRecordsAreWellFormed | awscapture/store.go:75-88 | in every reachable record: validate work exactly when finalizing, extract work exactly when ready and pending, clean-up of a ready record due at its deadline, no work only when expired and emptied, no card data when expired or cancelled, a time-to-live exactly without pending work |
| CaptureSafety.PinnedAssetsStay | capture/service.go:305-317 | only finalizing an upload and the end of clean-up change the pinned assets |
| CaptureSafety.CleanupIsFinal | capture/worker.go:57-85 | when a record's work is empty, no object is under either prefix and none appears in any continuation, and the record never changes again |
| CaptureSafety.DeletionStartsInQuiet | awscapture/transport.go:147-190 | when a worker deletes, every upload URL is dead, no live request can sign one and no live worker can write processed objects |
| CaptureSafety.FourDeliveriesSettle | capture/worker.go:103-118 | between client actions at most four effective deliveries touch a finalizing record and four a pending extraction, and the fourth settles it, whatever workers crash |
| CaptureSafety.PromotionIsInTime | capture/worker.go:161-189 | a capture becomes ready at most once, in the write that stores its ready event, by a worker that had checked the session's end |
| CaptureSafety.DeadlineInsideLifecycle | capture/worker.go:173-182 | every delete deadline lies inside the ten-day lifecycle counted from creation |
| CaptureSafety.DeadlineWithinEightDaysIff | capture/worker.go:164-182 | every promotion by a worker that started at a given time, in every continuation, keeps its deadline below creation plus eight days exactly when that start plus the worker limit is within 24 hours of creation, or the session has expired for it by then |
| CaptureSafety.DeadlineCanReachEightDays | capture/worker.go:164-182 | for every other start, a run whose promotion has its deadline at creation plus eight days or later |
| CaptureSafety.UncancelledEvidenceIsKept | capture/worker.go:57-85 | ready evidence that nobody cancels keeps every object, and stays ready, until its deadline |
| CaptureInvariant.StepKeeps | capture/worker.go:32-204 | every event keeps leases exclusive, copies faithful, and clean-up due after the last upload URL on every route |
| CaptureService.Host.Get | capture/service.go:74-108 | hands out the view of exactly the record it read, or of the recovery it committed, without card data once expired or cancelled |
| CaptureService.Host.GiveUpExtraction | capture/service.go:89-102 | the recovery swap of a stuck extraction |
| CaptureService.Host.Upload | capture/service.go:200-250 | a signed URL belongs to an upload with this operation key, side, digest and size that is part of the stored record |
| CaptureService.Host.Finalize | capture/service.go:258-317 | a finalized answer carries this operation's key and the selected uploads |
| CaptureService.Host.Pin | capture/service.go:305-317 | the pinned assets are the versions that matched the selected uploads |
| CaptureService.Host.Cancel | capture/service.go:318-339 | a written cancellation is stored without card data or lease, with clean-up due six minutes or more after the call |
| CaptureService.Host.Retry | capture/service.go:340-383 | the answer carries the retry key; a write reopens a failed validation or extraction with its attempts counted from zero |
| CaptureService.Host.Review | capture/extraction.go:59-87 | the answer holds exactly the submitted card and origin |
| CaptureService.Host.Swap | awscapture/store.go:153-177 | commits exactly when the revision is the one read, and for a promotion only while there is no ready event |
| CaptureWorker.Work | capture/worker.go:32-204 | one delivery, with other actors in between, is a run of the model; a reported write is the stored record and leaves no lease, and a skipped delivery had nothing it may do |
| CaptureWorker.DeletePrefix | awscapture/transport.go:153-190 | succeeds only on an empty listing |
| CaptureWorker.CleanUp | capture/worker.go:57-85 | a completed clean-up leaves no pending work |
| CaptureWorker.PromoteOrExpire | capture/worker.go:161-189 | a promoted record holds the written images and is the ready event |
| CaptureWorker.NormalizeImages | capture/worker.go:119-160 | a fit verdict means that both pinned images were written, in order |
| CaptureWorker.ExtractCard | capture/extraction.go:89-154 | claim, extraction and result as one run of the model; a reported result leaves no lease |
| CaptureWorker.SettleExtraction | capture/extraction.go:155-184 | expiry, completion, exhaustion or another attempt after an extraction |
| CapturePending.SweepKind | awscapture/store.go:181-205 | of one kind it sends the first due items in order, and all of up to ten pages unless a query or a send fails |
| CapturePending.Sweep | awscapture/store.go:181-205 | the three kinds in order, a later one only after the earlier were swept completely, and all of them on success |
| CapturePending.DueWorkIsSent | awscapture/store.go:181-205 | a complete sweep sends a job for every capture with due work, and a worker accepts it |
| CaptureAccountSafety.OneLiveUpload | capture/service.go:161-172 | an owner has at most one unexpired uploading capture, under any interleaving |
| CaptureAccountSafety.OneCapturePerOperation | awscapture/store.go:104-127 | one operation key names one capture, and evidence versions tell captures apart |
| CaptureAccountSafety.VersionsRise | capture/service.go:174-180 | a new capture's evidence version is above every earlier one |
| CaptureAccountSafety.FivePerDay | capture/service.go:181-190 | at most five captures are charged to a day and at most six have creation times on it; six exactly when a committed create that straddled midnight came before five that did not |
| CaptureAccountSafety.FiveUnlessStraddling | capture/service.go:181-192 | where no committed create straddles midnight, at most five captures have creation times on a day |
| CaptureAccountSafety.SixCreatedInOneDay | capture/service.go:181-192 | a concrete run with six creation times on one day |
| CaptureAccountSafety.FlagIsPermanent | awscapture/store.go:129-152 | the captured flag and the enrollment fact survive every later step, a stale concurrent create included |
| CaptureAccountSafety.FlagIsTruthful | awscapture/store.go:129-152 | the flag is set exactly when some capture has its ready event, and the fact says no more |
| AccountService.Accounts.Create | capture/service.go:123-199 | the answer is the one capture of this operation key |
| AccountService.Accounts.Transact | awscapture/store.go:104-127 | account, record and key mapping are written together or not at all |
| AccountService.Accounts.GetStatus | signin/enrollment.go:135-182 | a successful status reports the ID as captured whenever it was before the call and never without a ready capture, with the fact stored; it reports a password as stored, and completion as the policy has it |
| AccountService.Accounts.SetPassword | signin/enrollment.go:108-134 | a password is set only if the policy allows and accepts it, and success means that the fact is stored |
| AccountService.Accounts.Mark | signin/enrollment_store.go:32-53 | sets the facts it names and leaves the others |
| ResetSafety.CompleteMeansRestored | envreset/service.go:113-181 | whenever no reset is under way every function has its configured concurrency, whatever mix of crashes, partial pauses, failed restores and resumes happened |
| ResetSafety.CompletionRestoresSnapshot | envreset/aws.go:95-111 | the step that completes an operation leaves each listed function at its snapshot's value |
| ResetSafety.SnapshotBeforePause | envreset/service.go:137-146 | nothing is paused or restored before the stored snapshot is what the deployment configured |
| ResetSafety.SnapshotIsNeverOverwritten | envreset/service.go:113-181 | from the pause to the end of the operation no sequence of steps changes the snapshot or starts another operation |
| ResetSafety.PauseNeedsDistinctNames | envreset/aws.go:73-94 | a manifest that lists a function twice never gets past the pause |
| ResetModel.SnapshotValidIff | envreset/aws.go:73-83 | a full snapshot is valid exactly when no name is listed twice and no value is below -1 |
| ResetSafety.ClearsOnlyInSilence | envreset/service.go:138-162 | a live worker that clears finds every listed function paused, every earlier invocation ended and every upload URL dead, and is alone |
| ResetSafety.OnlyClearingRemoves | envreset/aws.go:125-194 | one step: data disappears only through a clearing worker |
| ResetSafety.RestoreBeginsEmpty | envreset/service.go:151-158 | at the step that enters the restore phase users, tables and objects are all empty together |
| ResetSafety.OneWorkerActs | envreset/service.go:120-131 | at most one live worker is past its claim |
| ResetSafety.FailureWaitsForResume | envreset/service.go:92-112 | a failed reset changes only through a resume |
| ResetSafety.CutoffNeverMovesBack | envreset/service.go:154-158 | the cutoff never falls, and a token refused as too old stays refused |
| ResetSafety.AcceptedTokensAreNewer | envreset/store.go:61-67 | an accepted token comes while no reset is under way and is newer than the start of the last final clear step |
| ResetService.Environment.Work | envreset/service.go:115-182 | one invocation, with others in between, is a run of the model and saves exactly the state its answer calls for |
| ResetService.Environment.Start | envreset/service.go:69-91 | refusals exactly as coded, a conflict only with another operation in progress or after a lost race, otherwise the stored operation |
| ResetService.Environment.Resume | envreset/service.go:92-112 | a resumed operation is stored without its error |
| ResetService.Environment.TakeSnapshot | envreset/aws.go:50-72 | a snapshot has exactly the listed functions |
| ResetService.Environment.Pause | envreset/aws.go:84-94 | success means that a valid snapshot's functions were all set to zero |
| ResetService.Environment.Restore | envreset/aws.go:95-111 | success means that a valid snapshot's functions were all set back |
| ResetService.Environment.ValidateSnapshot | envreset/aws.go:73-83 | decides validity exactly |
| ResetService.Environment.ClearTables | envreset/aws.go:140-161 | done exactly when one pass found every table empty |
| ResetService.Environment.ClearOne | envreset/aws.go:125-194 | done exactly on an empty, complete listing |
| ResetService.Environment.Save | envreset/store.go:27-58 | commits exactly when the stored revision is the one read |
| EmailSafety.OneSession | email/service.go:370-510 | at most one confirmation gets a session for an address, and at most one for a request id |
| EmailSafety.NoSecondIssue | email/service.go:495-510 | and that confirmation gets no second session |
| EmailSafety.SessionShowedNewestLink | email/service.go:370-510 | it had shown the link of the newest generation, of a proof that is confirmed |
| EmailSafety.ConfirmedIsFinal | email/service.go:383-386 | a confirmed proof never changes again |
| EmailSafety.AccountsNeedTheProof | awsidentity/identity.go:50-64 | an account is created only while its creator's claim stands, by one that showed the newest link and the second half |
| EmailSafety.RotatedLinkNeverConfirms | email/service.go:302-347 | once a link is rotated away, no confirmation with it claims, creates, confirms or gets a session, in any continuation |
| EmailSafety.WrongCodeVerdicts | email/service.go:430-452 | at most five wrong-code verdicts per generation and twenty in all; generation is resends plus one and at most four |
| EmailSafety.ComparisonsPerHour | awsstore/store.go:64-72 | at most ten comparisons for an address and a charged hour |
| EmailSafety.ComparisonsByTheClock | email/service.go:434-440 | by the clock an hour's comparisons are those charged to it plus the late ones of the hour before less its own late ones, so at most ten more than the late ones, of which there are at most ten |
| EmailSafety.TenUnlessStraddling | email/service.go:434-440 | where no comparison for the address was charged before the hour in which it takes place, the hour sees at most ten |
| EmailSafety.ElevenInAnHour | email/service.go:434-440 | a concrete run with eleven comparisons for one address in one hour |
| EmailSafety.BudgetsHold | awsstore/store.go:64-72 | no hourly budget is overdrawn |
| EmailSafety.RotationsAreSpaced | email/service.go:302-305 | proofs of one request are stamped at least a minute apart |
| EmailInvariant.StepKeeps | email/service.go:216-510 | every event keeps copies faithful, claims exclusive and the counters in bounds |
| EmailService.Service.Signup | email/service.go:216-281 | a stored proof is a first generation with this link |
| EmailService.Service.Resend | email/service.go:282-369 | a rotation leaves a pending proof with the new link and no attempts |
| EmailService.Service.Confirm | email/service.go:370-510 | a session is this confirmation's for this request and link; an incorrect code was counted; a used proof is confirmed |
| EmailService.Service.TakeOver | email/service.go:387-411 | a claim is taken over only by its link and once it is a minute old |
| EmailService.Service.CheckCode | email/service.go:426-453 | the reported remainder is what the stored proof has left |
| EmailService.Service.Complete | email/service.go:455-510 | a reported session is recorded for this address, request, link and generation |
| EmailService.Service.Swap | awsstore/store.go:53-63 | commits exactly when version and state are those read |
| EmailService.Service.Charge | awsstore/store.go:64-72 | counts up by one unless the limit is reached |
| Registry.OnlyTheHolderWrites | registry/registry.go:105-200 | one step: apart from an acquisition, only the lock's holder with its revision changes the record |
| Registry.SupersededNeverCommits | registry/registry.go:105-200 | an old receipt's change is never applied after a later acquisition |
| Registry.RetryIsHarmless | registry/registry.go:147-158 | one step: a change sent again after a lost answer has no second effect and is answered favourably again |
| Registry.OthersAreShutOut | registry/registry.go:105-200 | while the lock is taken, changes by others leave the record as it is |
| RegistryService.Server.Acquire | registry/registry.go:109-143 | reads, conditional update and re-read come out as one atomic acquisition |
| RegistryService.Server.Apply | registry/registry.go:151-200 | read and conditional update come out as one atomic change |
| RegistryService.Server.Update | registry/registry.go:159-199 | the update's condition and its new record |
| RegistryService.Send | tools/deploy/internal/registry/client.go:29-95 | at most three attempts; an accepted answer is that of the last processed one |
| IndexSafety.OneDeploymentAtATime | tools/deploy/internal/workflow/index_client.go:138-265 | no two processes, of any checkouts, begin or run deployment work or keep a setup lease at the same time |
| IndexSafety.WorkerHoldsTheLock | tools/deploy/internal/workflow/index_client.go:229-265 | whoever works or keeps a setup lease holds the registry's lock with its revision |
| IndexSafety.RefusedMeansNotHeld | tools/deploy/internal/workflow/index_client.go:212-219 | a refused acquisition's token is not the lock, so its receipt may go |
| IndexSafety.StepKeeps | tools/deploy/internal/workflow/index_client.go:138-321 | every file, registry or crash step keeps tokens exclusive |
| IndexReceipts.HeldLockHasReceipt | tools/deploy/internal/workflow/index_client.go:138-321 | when setups still find no receipt as they save theirs, a held lock's token is always in a saved receipt |
| IndexPromise.PromiseBreaksIff | tools/deploy/internal/workflow/index_client.go:138-321 | in whatever run it holds so far, the next step breaks that exactly when a setup saves a fresh token over the held lock's receipt, a release removes the held lock's receipt, or the lock is granted to a token whose receipt is gone |
| IndexPromise.PromiseHoldsIff | tools/deploy/internal/workflow/index_client.go:138-321 | it holds all through a run exactly when the run takes none of these three steps |
| IndexPromise.ReleaseLosesReceipt | tools/deploy/internal/workflow/index_client.go:306-321 | a concrete run in which a release removes the receipt of the next holder |
| IndexPromise.GrantLacksReceipt | tools/deploy/internal/workflow/index_client.go:266-321 | a concrete run in which the lock is granted after a release has removed the receipt |
| IndexReceipts.StaleLookLosesReceipt | tools/deploy/internal/workflow/index_client.go:266-305 | a concrete run that ends with a held lock and no receipt |
| IndexClient.Deployer.WithIndexClient | tools/deploy/internal/workflow/index_client.go:138-228 | with others in between it is a run of the model; synchronized only after a publication was answered, and with work only after that succeeded, and the receipt is gone |
| IndexClient.Deployer.PerformWork | tools/deploy/internal/workflow/index_client.go:229-265 | synchronized only after successful work and an answered publication, with the receipt removed |
| IndexClient.Deployer.SyncDefaults | tools/deploy/internal/workflow/index_client.go:187-191 | the defaults are sent before the publication, which goes ahead only when they were accepted |
| IndexClient.Deployer.AcquireSetup | tools/deploy/internal/workflow/index_client.go:266-305 | an acquired setup keeps a lease |
| IndexClient.Deployer.ReleaseSetup | tools/deploy/internal/workflow/index_client.go:306-321 | no lease afterwards |
| ConfigSafety.HistoryIsGapFree | runtimeconfig/store.go:129-141 | after any interleaving versions 0 to the current revision each exist and the current configuration is its version, normalized |
| ConfigSafety.VersionsNeverChange | runtimeconfig/store.go:129-141 | no step changes a version |
| ConfigSafety.EqualRevisionsEqualContent | runtimeconfig/store.go:216-270 | the same revision always shows the same normalized content |
| ConfigSafety.ReadsSucceed | runtimeconfig/store.go:47-57 | every read of an existing configuration is valid and is the newest version |
| ConfigSafety.SeedIsGapFreeIff | runtimeconfig/store.go:178-191 | a run's history is gap-free exactly when the seed it committed, if any, has revision 0 |
| ConfigSafety.OverrideSticks | runtimeconfig/store.go:227-230 | an override is permanent and only publications change it |
| ConfigSafety.DefaultsAreFenced | runtimeconfig/store.go:216-270 | one step: defaults commit only for the lock's holder, above every earlier generation |
| ConfigSafety.GenerationsNeverFall | runtimeconfig/store.go:216-270 | default generations never fall until an override |
| ConfigSafety.CommittedGenerationsRise | runtimeconfig/store.go:216-270 | in every run each committed default synchronization has a generation above all earlier ones, and none commits after an override |
| ConfigSafety.RetriedDefaultsAreSkipped | runtimeconfig/store.go:231-236 | one step: sending committed defaults again writes nothing |
| ConfigSafety.SupersededDefaultsNeverCommit | runtimeconfig/store.go:216-270 | a superseded deployment's defaults never commit |
| ConfigSafety.LastManagerStays | runtimeconfig/store.go:149-203 | no sequence or race of grant changes removes the last active manager |
| ConfigSafety.MutualRevocation | runtimeconfig/store.go:110-117 | one step: of two managers revoking each other the first wins and the second is refused |
| ConfigSafety.BootstrapHappensOnce | runtimeconfig/store.go:194-203 | the bootstrap never restores a grant |
| ConfigSafety.PublicationsAreGranted | runtimeconfig/store.go:129-141 | one step: a publication commits only under a standing grant, on the revision its author saw, and raises it by one |
| ConfigWorld.NormalizingKeepsMeaning | runtimeconfig/onboarding.go:39-54 | normalizing is done once and keeps policy and validity |
| ConfigService.Store.Publish | runtimeconfig/model.go:115-146 | what is stored is the completed configuration and its version, together |
| ConfigService.Store.SyncDefaults | runtimeconfig/store.go:216-270 | success means that there was nothing to do or the submitted defaults are stored for the lock's holder |
| ConfigService.Store.Seed | runtimeconfig/store.go:178-191 | inserts configuration and version 0 exactly once |
| ConfigService.Store.SetGrant | runtimeconfig/store.go:149-175 | stores the next revision of the target's grant while the actor is an active manager |
| ConfigService.Store.BootstrapGrant | runtimeconfig/store.go:194-203 | the first grant of an environment |
| Onboarding.Check | runtimeconfig/onboarding.go:90-119 | accepts exactly the printable passwords of allowed length and classes that have every needed class |
| Onboarding.Validate | runtimeconfig/onboarding.go:72-87 | decides validity of a password policy |
| Onboarding.SomePasswordFits | runtimeconfig/onboarding.go:72-119 | every valid policy accepts some password |
| Onboarding.CompleteIsMonotone | runtimeconfig/onboarding.go:120-122 | what is complete stays complete as facts are added |
| NukeRecovery.Workflow.CleanupRecovery | tools/deploy/internal/workflow/nuke_recovery.go:17-183 | it computes the clean-up of `NukeRun.Cleanup`; for every sequence of provider answers the log keeps the order of checks, saves, deletions and schedulings, and when all is well at the end every bucket reads back as absent |
| NukeRecovery.Workflow.PreflightBucket | tools/deploy/internal/workflow/nuke_recovery.go:21-84 | the scope check of a bucket and the inventory of its keys, as `NukeRun.Preflighted` says |
| NukeRecovery.Workflow.Step | tools/deploy/internal/workflow/nuke_report.go:48-72 | a success means that the bucket reads back as absent |
| NukeRecovery.Workflow.AllSuccess | tools/deploy/internal/workflow/nuke_report.go:29-38 | decides the allowlist of statuses |
| NukeRecovery.Workflow.RecordResult | tools/deploy/internal/workflow/nuke.go:92-99 | appends the result and saves; the flag is set afterwards exactly when it was before or this save did not succeed |
| NukeRecovery.Workflow.ScheduleKeys | tools/deploy/internal/workflow/nuke_recovery.go:165-183 | schedules the confirmed customer keys one by one, as `NukeRun.AllScheduled` says |
| NukeSafety.CleanupIsOrdered | tools/deploy/internal/workflow/nuke_recovery.go:17-183 | for every sequence of provider answers: before anything is deleted all results succeeded, every bucket passed its check or was answered as missing, and all key identities with their regions were saved; keys are scheduled only once every bucket reads back as absent and only if confirmed |
| NukeSafety.PreflightGood | tools/deploy/internal/workflow/nuke_recovery.go:17-141 | when the deletions begin, every bucket has passed, the keys to be scheduled are confirmed, and nothing has been touched |
| NukeExceptions.DeletionAfterFailedSaveIff | tools/deploy/internal/workflow/nuke_recovery.go:136-164 | something is deleted after a failed save exactly when the flag is set as the deletions begin and the first bucket is found, and then only that bucket is touched |
| NukeExceptions.PurgeAfterFailedSave | tools/deploy/internal/workflow/nuke.go:92-99 | a concrete run with a purge after a failed save |
| NukeModel.UncheckedIff | tools/deploy/internal/workflow/nuke_recovery.go:21-84 | a bucket is touched unchecked exactly when the preflight answered that it is missing |
| NukeExceptions.PurgeUnchecked | tools/deploy/internal/workflow/nuke_recovery.go:21-84 | a concrete run with a purge of an unchecked bucket |
| NukeModel.ObjectScope | tools/deploy/internal/workflow/nuke_recovery.go:261-273 | accepts exactly the lists of our own files and directories |
| NukeModel.ScopeIsByDirectory | tools/deploy/internal/workflow/nuke_recovery.go:261-273 | the check on name parts is a check on directory prefixes |

## Left out

- Deletions by DynamoDB time-to-live, and outside changes to function concurrency, users or buckets during a reset: excluded by assumption.
- Effects that a provider applies after the call was answered, and registry calls processed after their client has moved on: excluded by assumption.
- HTTP handlers, JSON, routing, signing, mail sending, JPEG decoding and the card extractor: their outcomes are arguments, any value allowed.
- Hashes and random secrets: digests are constructors, so different inputs differ, and a fresh secret or token differs from every earlier one.
- Text syntax (environment names, times, document types, control characters, URL and region checks, e-mail parsing): arguments or not modelled.
- Queue contents and the purge itself: only the waiting time after the purge is modelled.
- DeletePage: each bucket or table page is a set's first items; the order that the provider chooses is not modelled.
- The order of evidence objects, tracing, diagnostics and logging: they change no state.
- Sign-in, passkeys and the identity pool behind them: only their outcome reaches the onboarding status.
- ResetService.Environment.Save: the audit copy that `envreset` writes in the same transaction is left out; nothing reads it.
- The registry's listing of environments and its validation of public configuration: easy members.
- WithIndexClient: the operator's explicit release of a lock is not part of the run, as the safety claims exclude it.
- CleanupRecovery: purging a bucket page by page is one call here, since arbitrary answers could keep its loop going forever.
- RecordResult: the text of each result is left out.
- The wording of the default messages in the configuration: stand-ins, since no rule reads it.
- SignUp budgets for sources and addresses: the counters are proved never overdrawn; how many mails one charge leads to is not counted.
- Loops over image bytes, the extraction's choice of processed sides and its 60 s limit: part of the outcome argument.
