# neo-line: verified models of the certificate, configuration and notification logic

This project models the stateful core of neo-line in Dafny and proves what it keeps over whole runs.
`dafny verify dfyconfig.toml` checks everything.

## What is modelled

**The operation lease protocol** (`Operations`, `Retry`, `LeaseProtocol`, `LeaseInvariant`, `LeaseTheorems`,
`LeaseExclusion`, `ClaimSpacing`, `StoreSteps`). Replicas trigger, claim, heartbeat, take over, retry, fail and
complete certificate operations through guarded updates of single documents. The state holds the operation documents,
the certificates, and the local attempts with their claim-time copies. Attempts have names of their own: that a
replica never runs two at one operation follows from its in-flight table and is not built into the state. A step that
is not possible changes nothing, so the theorems hold for every sequence of steps. A captured clock reading may be
older than the moment its update lands, and a heartbeat that was sent may land after its attempt has ended; a crash
removes a replica's attempts; the methods that read, then write the certificate, then write the operation take one
step for each part. `StoreSteps` proves that these steps are the store's methods.

**Version slots, revocation and the desired configuration** (`Certs`, `CertificateStore`, `CertificateManager`,
`CertificateRuns`, `Revocation`, `OrphanedMarks`, `PendingForever`, `MarkRaces`, `DesiredActive`).
`CertificateStore.MongoStore` and `CertificateManager.Manager` are the objects whose methods change fields;
`CertificateRuns` interleaves any number of manager calls, each store method being one atomic step, and the calls
themselves (submit, edit, revoke) several.

**Configuration import and export** (`ConfigModel`, `ConfigStore`, `ConfigImport`, `ImportFidelity`, `ImportMerge`,
`ImportLands`, `ConfigRoundTrip`, `ConfigReimport`, `ConfigBuilt`, `ConfigCleanExport`, and the objects in
`ConfigMongoStore`, `ConfigImporter`, `ConfigExporter`). `ConfigImport` is the import as a fold over the file; the
importer's loops are proved to compute that fold, and the theorems are about it.

**Loops and throttles** (`Archive`, `Notifications`, `Alerts`, `Paging`, `Validity`).

Times are integers, in nanoseconds. Clock readings, random ids, jitter, the outcome of an upload and of an insert
are parameters.

## Where the code does not do what is promised

Each of these is a proved run or a proved condition, not a suspicion.

- `docs/certificate-management-operation-lease.md:38-39` says that only the lease holder activates a version.
  The check and the certificate write are separate updates: a version is installed after a takeover
  (`LeaseTheorems.StaleInstallHappens`) and after the deadline sweep has failed the operation
  (`LeaseTheorems.InstallAfterFailureHappens`). `LeaseTheorems.InstallIsFencedExactly` says for every write that lands
  when its replica still owns the operation.
- A heartbeat that lands after its attempt has ended can shorten a later lease of the same replica. In
  `ClaimSpacing.LateHeartbeatHappens` another replica then takes the operation over 60 seconds after its last claim,
  while the first replica's lease still runs. So two properties fail, each with its exact condition:
  two replicas hold one lease (`LeaseExclusion.HarmlessExactly`), and claims are less than a lease apart
  (`ClaimSpacing.TimelyExactly`).
- The field lock does not keep desired and active configuration together when an edit is checked before, and
  written after, an Issue is created: `DesiredActive.EditOvertakenByIssue`; `DesiredActive.UndisturbedExactly` is
  the exact condition on the write.
- A version can stay marked for good, never served and never revoked. `PendingForever.PendingForeverExactly` says
  exactly when: no request for it is between its mark and its insert or clear, and no Revoke of it is in flight. That
  happens when its Revoke fails (`PendingForever.LeftByFailedRevoke`), and without a Revoke operation of its own when
  the request is answered with the Revoke in flight of the certificate's other version
  (`OrphanedMarks.OrphanHappens`), or when its process ends, or its clear fails, before it has created a Revoke or
  taken the mark back (`OrphanedMarks.OrphanedByCrash`). `OrphanedMarks.OrphanedExactly` and
  `OrphanedMarks.OrphanedInRunExactly` say which steps leave a version without a Revoke of its own.
- The update that marks a version does not ask that it is unmarked. Two requests can both mark it, and the one whose
  insert fails then takes the mark away from under the other's Revoke, so that the version is served again
  (`MarkRaces.MarkTakenAway`). `MarkRaces.HarmlessExactly` is the exact condition on the clear; in all other runs
  revocation sticks (`MarkRaces.RevocationSticksSplit`).
- `renew_before_days` from 106752 on wraps around in the 64-bit duration, so that for part of the range no renewal
  ever falls due: `Validity.EverDueExactly`.
- `docs/features.md:860` says that a recovery resets the throttle. It does only if the policy announces
  recoveries: `Alerts.UnannouncedRecovery` is a run in which it does not, `Alerts.NextIncidentExactly` says exactly
  which next incident is suppressed.
- Throttle keys of different groups can coincide if ids contain the separator, so that one group's alert suppresses
  another's, and its recovery re-arms it: `Alerts.CollisionHappens`, and exactly when in `Alerts.KeysCollideExactly`.
- The archive's buffer capacity does not bound the batch between two ticks: `Archive.BatchOutgrowsAnyBound`. It does
  if and only if no result is received into a full buffer after a failed flush, or with a batch size above the
  capacity: `Archive.CapacityExactly`, `Archive.CapacityHoldsExactly`.
- `docs/certificate-management-managed-certificates.md:131-132` says that each version is announced once as expiring
  and once as expired. After a rollback there and back it is announced again: `Notifications.RollbackRepeatsNotice`,
  and exactly when in `Notifications.NoticeRepeatsExactly`.
- A monitor that does not have its defaults is changed by the round trip of its own export
  (`ConfigBuilt.OldStoreChanges`); no store built by creates, replaces, deletes, probe results, the start-up backfill
  and imports has one (`ConfigBuilt.BuiltAtDefaults`).

## Model

| member | source | states |
|---|---|---|
| Retry.ComputeRetryDelay | internal/certmanager/operation_lease.go:42-61 | the doubling loop computes min(15min·2^(n-1), 12h) plus jitter for every failure count |
| Retry.AtMostTenWaitsFit | internal/certmanager/operation_lease.go:42-61 | the back-offs of n consecutive failures fit in 72 hours if and only if n is at most ten |
| Operations.ConflictCountIsZero | internal/store/certificate_operation_lease.go:39-48 | under the unique in-flight index the conflict count never turns away an operation in flight |
| LeaseInvariant.StepKeeps | internal/store/certificate_operation_lease.go:34-204 | every step of every replica keeps the protocol's invariant |
| LeaseTheorems.Fencing | internal/store/certificate_operation_lease.go:101-171 | an outcome write that lands comes from the attempt of the latest claim, though the guard names only the replica, and touches no other document |
| LeaseTheorems.SuccessMeansWritten | internal/store/managed_certificates.go:256-383 | an operation is Succeeded only after its latest claim wrote the certificate, with the operation's own snapshot or target |
| LeaseTheorems.OneWritePerClaim | internal/store/managed_certificates.go:256-383 | no claim writes the certificate twice |
| LeaseTheorems.AttemptBookkeeping | internal/certmanager/operation_lease.go:462-485 | attempt count = retries + takeovers while Pending, one more while Running; the failure counter equals the retries although it is written from a copy |
| LeaseTheorems.AtMostTenRetries | internal/certmanager/operation_lease.go:462-485 | with the 72-hour deadline no operation is ever scheduled for an eleventh retry, whatever the jitter |
| LeaseTheorems.FailureOutcome | internal/certmanager/operation_lease.go:426-502 | a failure that lands makes the operation wait for a retry if and only if it is not permanent and neither now nor the next attempt is past the 72 hours; otherwise it has failed, with the timeout text unless it was permanent and in time |
| LeaseTheorems.AtMostOneInFlight | internal/store/certificate_operations.go:134-142 | a certificate never has two operations Pending or Running |
| LeaseTheorems.VerdictsAreFinal | internal/store/certificate_operation_lease.go:121-204 | Succeeded and Failed are never left, in any continuation; a deleted document does not come back |
| LeaseTheorems.ConflictGuardIsRedundant | internal/store/certificate_operation_lease.go:39-76 | whenever the conflict count turns an attempt away, the operation is not claimable in any later state of any run |
| LeaseTheorems.InstallIsFencedExactly | internal/store/managed_certificates.go:256-300 | a certificate write that lands comes from the operation's owner if and only if the operation is still running and has not been claimed again |
| LeaseTheorems.StaleInstallHappens | internal/store/managed_certificates.go:256-300 | a run in which a replica installs its version after losing the lease |
| LeaseTheorems.InstallAfterFailureHappens | internal/store/managed_certificates.go:256-300 | a run in which a replica installs its version after the sweep has failed the operation |
| LeaseTheorems.LaterIssueMovesActive | internal/store/managed_certificates.go:317-383 | a later issue that lands in a run takes the place of the version it expects, which moves to the previous slot as it was read |
| LeaseExclusion.LeaseExclusion | internal/store/certificate_operation_lease.go:34-98 | exclusion, and that stored leases cover granted ones, hold in every run whose late heartbeats are harmless |
| LeaseExclusion.OneHolderPerOperation | internal/store/certificate_operation_lease.go:34-98 | two attempts that hold an unexpired lease on one operation are the same |
| LeaseExclusion.HarmlessExactly | internal/certmanager/operation_lease.go:333-364 | a late heartbeat keeps exclusion in all continuations if and only if it does not shorten a lease its replica holds |
| LeaseExclusion.ShortenedLeaseIsTakenOver | internal/store/certificate_operation_lease.go:79-98 | from any state with a shortened lease, a run without late heartbeats to two holders |
| ClaimSpacing.StepExact | internal/store/certificate_operation_lease.go:34-204 | a step keeps the claims spaced if and only if it is no late heartbeat that lands out of time |
| ClaimSpacing.SpacedExactly | internal/store/certificate_operations.go:52-73 | the claims stay a full lease apart in every state of a run if and only if each late heartbeat that lands is timely |
| ClaimSpacing.TimelyMeansCurrent | internal/certmanager/operation_lease.go:333-364 | while a full lease from the latest claim runs, a heartbeat is timely if and only if it was sent in that claim |
| ClaimSpacing.TimelyExactly | internal/certmanager/operation_lease.go:333-364 | a landing late heartbeat keeps claims a lease apart in all continuations if and only if it is timely |
| ClaimSpacing.LateHeartbeatHappens | internal/certmanager/operation_lease.go:333-364 | a run from the start with a late heartbeat, claims at 0, 90 and 150 seconds, and two lease holders |
| ClaimSpacing.ClaimsBeforeDeadline | internal/store/certificate_operations.go:52-73 | with timely late heartbeats, successive claims are at least 90 seconds apart and at most 2880 precede the deadline |
| StoreSteps.CreateIsStep | internal/store/certificate_operations.go:158-173 | the protocol's create is the store's insert |
| StoreSteps.ClaimIsSteps | internal/store/certificate_operation_lease.go:34-76 | the conflict count and the claim in a row are the store's claim, with the same outcome |
| StoreSteps.HeartbeatIsStep | internal/store/certificate_operation_lease.go:79-98 | a heartbeat that lands is the store's renewal |
| StoreSteps.RecordTxtIsStep | internal/store/certificate_operation_lease.go:101-117 | recording a challenge is the store's update |
| StoreSteps.DeleteIsSteps | internal/store/managed_certificates.go:568-594 | deleting the operations and then the certificate is the store's delete |
| StoreSteps.ClearTxtIsStep | internal/store/certificate_operation_lease.go:174-182 | clearing empties the list of the operation, if it exists |
| StoreSteps.FailureIsStep | internal/certmanager/operation_lease.go:426-502 | the failure step is what the failure handler asks of the store |
| StoreSteps.SweepIsSteps | internal/store/certificate_operation_lease.go:186-204 | sweeping the documents one after the other is the store's sweep |
| StoreSteps.IssuanceIsSteps | internal/store/managed_certificates.go:256-383 | without interleaving, the steps of an issuance are the store's activation |
| StoreSteps.RevocationIsSteps | internal/store/managed_certificates.go:505-565 | without interleaving, the steps of a revocation are the store's completion |
| Certs.MarkUndone | internal/store/managed_certificates.go:443-502 | clearing the mark that was just set gives the certificate back |
| Certs.RollbackUndone | internal/store/managed_certificates.go:387-430 | a rollback can be rolled back if and only if the version taken out of service is not revoked |
| Certs.IssueUndone | internal/store/managed_certificates.go:317-430 | a rollback after an issue restores the old version if and only if it is not revoked, and keeps the new one |
| CertificateStore.MongoStore.CreateCertificateOperation | internal/store/certificate_operations.go:158-173 | inserts the document with its id, creation time and deadline filled in, unless the id exists or the certificate has an operation in flight; returns what it inserted |
| CertificateStore.MongoStore.TryClaimCertificateOperation | internal/store/certificate_operation_lease.go:34-76 | succeeds if and only if the document is claimable; the new document in full |
| CertificateStore.MongoStore.RenewCertificateOperationLease | internal/store/certificate_operation_lease.go:79-98 | moves the lease end exactly for a running, owned, unexpired lease |
| CertificateStore.MongoStore.RecordCertificateOperationPendingTXT | internal/store/certificate_operation_lease.go:101-117 | adds the record exactly for a running, owned operation |
| CertificateStore.MongoStore.ClearCertificateOperationPendingTXT | internal/store/certificate_operation_lease.go:174-182 | empties the list whoever asks |
| CertificateStore.MongoStore.ScheduleCertificateOperationRetry | internal/store/certificate_operation_lease.go:121-145 | releases exactly a running, owned operation for its retry |
| CertificateStore.MongoStore.MarkCertificateOperationFailed | internal/store/certificate_operation_lease.go:148-171 | fails exactly a running, owned operation |
| CertificateStore.MongoStore.FailExpiredCertificateOperations | internal/store/certificate_operation_lease.go:186-204 | afterwards nothing in flight is past its deadline; counts the documents changed |
| CertificateStore.MongoStore.ActivateFirstIssueVersion | internal/store/managed_certificates.go:256-313 | installs into an empty active slot and succeeds the operation, or changes nothing |
| CertificateStore.MongoStore.ActivateSubsequentIssueVersion | internal/store/managed_certificates.go:317-383 | moves the expected active version to the previous slot, or changes nothing |
| CertificateStore.MongoStore.CompleteRevokeVersion | internal/store/managed_certificates.go:505-565 | sets the revocation time and drops the mark in whichever slot holds the version |
| CertificateStore.MongoStore.ActivatePreviousVersion | internal/store/managed_certificates.go:387-430 | swaps the slots unless the previous version is revoked |
| CertificateStore.MongoStore.MarkVersionRevokePending | internal/store/managed_certificates.go:443-480 | marks a version that is neither marked nor revoked, in its slot |
| CertificateStore.MongoStore.ClearVersionRevokePending | internal/store/managed_certificates.go:483-502 | clears the mark of the version in its slot |
| CertificateStore.MongoStore.CreateManagedCertificate | internal/store/managed_certificates.go:152-166 | inserts a certificate with empty slots unless its id or its name is in use; keeps names distinct |
| CertificateStore.MongoStore.UpdateManagedCertificate | internal/store/managed_certificates.go:237-252 | writes the editable fields unless another certificate has the name; leaves the slots alone and keeps names distinct |
| CertificateStore.MongoStore.DeleteManagedCertificate | internal/store/managed_certificates.go:568-594 | removes the certificate with all its operations, unless assigned or in flight |
| CertificateManager.Manager.TriggerOperation | internal/certmanager/operation_lease.go:164-190 | starts an attempt if and only if claiming is on, the runner lives, tasks are taken and the replica has none for the operation |
| CertificateManager.Manager.FinishAttempt | internal/certmanager/operation_lease.go:178-187 | an attempt that ends frees its operation for the next one |
| CertificateManager.Manager.HandleOperationFailure | internal/certmanager/operation_lease.go:426-502 | an owned operation is rescheduled, with every field, if and only if the error is not permanent and the deadline lies after now and the next attempt; else it is failed with its text; an operation not owned stays |
| CertificateManager.Manager.ConflictingIssuance | internal/certmanager/renew.go:36-55 | conflicts if and only if an operation of another kind is in flight |
| CertificateManager.Manager.SubmitIssueOperation | internal/certmanager/managed_certificate.go:264-283 | keeps an Issue in flight, or creates one from the desired fields only when nothing is in flight |
| CertificateManager.Manager.SubmitRenewOperation | internal/certmanager/renew.go:12-84 | keeps a Renew in flight, or creates one from the active version's snapshot |
| CertificateManager.Manager.SubmitRevokeVersion | internal/certmanager/revoke.go:16-53 | succeeds if and only if the reason is valid and a Revoke is in flight, or the version is served, nothing is in flight and the insert succeeds; a refused or failed request changes nothing |
| CertificateRuns.RevokeCallResult | internal/certmanager/revoke.go:16-93 | the request's steps in a row mark the version and create its Revoke, or take the mark back |
| CertificateManager.Manager.UpdateManagedCertificate | internal/certmanager/managed_certificate.go:207-260 | an edit passes if and only if the name is free and nothing is in flight or no issue field changes; it then is the steps of an edit in a row |
| CertificateManager.Manager.ActivateIssued | internal/certmanager/issue.go:157-184 | succeeds if and only if the lease is held; the issued version becomes active, the old one previous |
| CertificateManager.Manager.GetCertificateBundle | internal/certmanager/issue.go:194-223 | serves a version if and only if it is in the slot and distributable |
| Revocation.StepKeeps | internal/certmanager/revoke.go:16-93 | every step keeps all targets of Revoke operations out of distribution, and marks exclusive to one call |
| Revocation.RevocationSticks | internal/certmanager/revoke.go:16-93 | once a Revoke for a version exists, no bundle of either slot ever serves that version again, each store method being one step |
| OrphanedMarks.OrphanedExactly | internal/certmanager/revoke.go:16-93 | a step leaves a version in a slot orphaned if and only if it already was, or the call that marked it ends without a Revoke of its own and without a clear |
| OrphanedMarks.OrphanedInRunExactly | internal/certmanager/revoke.go:16-93 | over whole runs, a version in a slot is orphaned if and only if some step deserted it |
| OrphanedMarks.OrphanedForGood | internal/certmanager/revoke.go:16-93 | while it is in a slot, an orphaned version stays so in every continuation |
| OrphanedMarks.OrphanHappens | internal/certmanager/revoke.go:16-93 | two requests at the same time orphan the active version |
| OrphanedMarks.OrphanedByCrash | internal/certmanager/revoke.go:42-51 | a process that ends after its mark orphans the active version without any Revoke |
| PendingForever.PendingForeverExactly | internal/certmanager/revoke.go:16-93 | after any run, a version pending in a slot stays pending in every continuation if and only if no request attends to it and no Revoke of it is in flight |
| PendingForever.PendingIsClaimable | internal/certmanager/operation_lease.go:463-485 | in every run, a Pending operation can be claimed at some time before its deadline |
| PendingForever.LeftByFailedRevoke | internal/certmanager/revoke.go:16-93 | a run in which the active version's Revoke is swept and the version stays pending for good |
| MarkRaces.MarkIsReadAndLand | internal/store/managed_certificates.go:443-480 | the mark's read and update in a row are the store's method |
| MarkRaces.RevocationSticksSplit | internal/store/managed_certificates.go:443-502 | with the mark's read and update apart, a version with a Revoke is never served in any run whose clears are harmless |
| MarkRaces.HarmlessExactly | internal/store/managed_certificates.go:443-502 | a clear keeps that in all continuations if and only if no Revoke of the version exists and no other request relies on its mark |
| MarkRaces.MarkTakenAway | internal/store/managed_certificates.go:443-502 | a run in which a clear makes a version served while its Revoke is in flight |
| DesiredActive.UndisturbedExactly | internal/certmanager/managed_certificate.go:207-283 | no Issue leaves unpublished changes in any continuation if and only if the write landed undisturbed |
| CertificateRuns.LockLetsThrough | internal/certmanager/managed_certificate.go:219-238 | the three look-ups together pass an edit exactly if nothing is in flight or no issue field changes |
| CertificateRuns.CallsAreSteps | internal/store/managed_certificates.go:387-594 | the steps that are one store call change the store as the call does |
| DesiredActive.AdjacentCallsAreUndisturbed | internal/certmanager/managed_certificate.go:207-283 | calls whose write directly follows their reads are undisturbed |
| DesiredActive.IssuePublishesDesired | internal/certmanager/issue.go:157-184 | in every run whose writes land undisturbed, an Issue that succeeds leaves no unpublished changes |
| DesiredActive.EditOvertakenByIssue | internal/certmanager/managed_certificate.go:207-283 | a run in which a successful Issue leaves unpublished changes |
| DesiredActive.NoIssueNoNewSnapshot | internal/certmanager/renew.go:57-84 | without an Issue no step brings a new snapshot near a slot of any certificate |
| DesiredActive.OnlyOldSnapshots | internal/certmanager/renew.go:57-84 | from a quiet store on, slots hold only snapshots that the same certificate's slots held at the start |
| Validity.PhasesMonotone | internal/certstate/validity.go:40-58 | a distributable version moves only from valid to renewal due to expired, whatever is configured |
| Validity.DueExactly | internal/certstate/validity.go:16-58 | a renewal is due if and only if the time is in the configured days before the end, as a 64-bit duration, and in the last third of a positive lifetime |
| Validity.DueInLastThird | internal/certstate/validity.go:16-58 | the same without wrap-around, and the phases before and after |
| Validity.NextRenewalIsFirstDue | internal/certmanager/version.go:24-31 | the announced next renewal is the first instant at which a renewal is due |
| Validity.DueExactlyFromNextRenewal | internal/certstate/validity.go:39-58 | with a positive lifetime a renewal is due exactly from the announced instant to the end |
| Validity.NotServed | internal/certstate/validity.go:39-44 | a version has no phase of its own exactly if there is none or it is not served |
| Validity.FreshVersionIsValid | internal/certstate/validity.go:16-58 | never due in the first two thirds of the lifetime, so a renewal does not trigger another |
| Validity.EverDueExactly | internal/certstate/validity.go:17 | renewal falls due at some time if and only if the configured window does not wrap negative |
| Validity.DaysThatFit | internal/certstate/validity.go:17 | up to 106751 days nothing wraps; at 106752 the version expires unrenewed |
| Validity.NegationDoesNotWrap | internal/certmanager/version.go:29 | no number of days gives the duration whose negation overflows |
| Validity.DisplayedDays | internal/certstate/validity.go:30-37 | the displayed days never exceed the configured ones and are zero only for an empty window |
| ConfigModel.ApplyMonitorDefaults | internal/store/store.go:650-683 | the field-by-field code computes the defaulting function |
| ConfigModel.DefaultsOnlyFill | internal/store/store.go:650-683 | the default of each field that is not set and the kind needs; a field that is set is kept |
| ConfigModel.DefaultsIdempotent | internal/store/store.go:650-683 | defaulting twice is defaulting once |
| ConfigModel.CopyRoundTrips | internal/configio/file.go:178-263 | no configuration field is lost or swapped on the way into the store and back |
| ConfigModel.CopyByField | internal/configio/file.go:170-263 | each field goes into the field of its name |
| ConfigStore.SettingsShown | internal/store/settings.go:30-49 | settings that are missing or empty read as the defaults |
| ConfigStore.GroupWriteKeeps | internal/store/groups.go:60-103 | a successful group write keeps names unique and references valid and touches one document |
| ConfigMongoStore.MongoStore.ValidateIds | internal/store/groups.go:149-172 | counting the distinct ids that exist decides whether every id is non-empty and exists |
| ConfigMongoStore.MongoStore.CreateNotifyGroup | internal/store/notify_groups.go:43-57 | inserts under a free name, or changes nothing |
| ConfigMongoStore.MongoStore.UpdateNotifyGroup | internal/store/notify_groups.go:65-80 | replaces keeping the creation time, or changes nothing |
| ConfigMongoStore.MongoStore.CreateMonitorGroup | internal/store/groups.go:60-77 | checks the policy's references, then the name |
| ConfigMongoStore.MongoStore.UpdateMonitorGroup | internal/store/groups.go:85-103 | checks references, existence, then the name |
| ConfigMongoStore.MongoStore.AddServer | internal/store/store.go:420-433 | inserts with unknown health |
| ConfigMongoStore.MongoStore.ReplaceServer | internal/store/store.go:441-460 | keeps health, check and creation times |
| ConfigMongoStore.MongoStore.AddMonitor | internal/store/store.go:489-507 | requires server and groups, applies defaults |
| ConfigMongoStore.MongoStore.ReplaceMonitor | internal/store/store.go:515-540 | keeps status, times and certificate, applies defaults |
| ConfigMongoStore.MongoStore.WriteSettings | internal/store/settings.go:51-69 | writes the settings with defaults for empty fields |
| ConfigMongoStore.ListGroups | internal/configio/backend.go:36-50 | yields every document of the collection exactly once |
| ConfigImporter.SeenSet.Check | internal/configio/import.go:95-111 | the required-field and duplicate verdict, recording only what passes |
| ConfigImporter.FindMissingRef | internal/configio/import.go:113-120 | the first reference that is not available |
| ConfigImporter.Importer.ImportGroup | internal/configio/import.go:244-274 | one entry's whole effect on store, sets, counts and errors |
| ConfigImporter.Importer.WriteOne | internal/configio/import.go:298-306 | dispatches an entry to the create or update of its collection |
| ConfigImporter.Importer.ImportGroups | internal/configio/import.go:231-277 | the loops compute the fold of the group phase for the listing taken |
| ConfigImporter.Importer.ImportSettings | internal/configio/import.go:197-229 | skips on merge, writes or counts on upsert |
| ConfigImporter.Importer.RejectServer | internal/configio/import.go:344-348 | fails a server and all its monitors, each with its issue |
| ConfigImporter.Importer.ImportServer | internal/configio/import.go:363-393 | one server with its monitors |
| ConfigImporter.Importer.ImportServers | internal/configio/import.go:350-395 | the loop computes the fold of the server phase |
| ConfigImporter.Importer.ImportMonitor | internal/configio/import.go:414-443 | one monitor's whole effect |
| ConfigImporter.Importer.ImportServerMonitors | internal/configio/import.go:397-446 | the loop over a server's monitors computes their fold |
| ConfigImporter.Importer.Run | internal/configio/import.go:153-175 | for any store and file, the importer leaves the store and the report of the fold |
| ConfigExporter.ExportStore | internal/configio/export.go:16-60 | the file holds exactly the store's configuration, each document once, in the order of the listings taken |
| ConfigExporter.ListServers | internal/configio/export.go:43-48 | yields every server exactly once |
| ConfigExporter.ListMonitors | internal/configio/export.go:50-55 | yields every monitor of the server exactly once |
| ConfigExporter.GroupsFromStore | internal/configio/export.go:29-31 | the append loop converts every listed group in order |
| ConfigExporter.MonitorsFromStore | internal/configio/file.go:226-228 | the append loop converts every listed monitor in order |
| ConfigExporter.ServersFromStore | internal/configio/export.go:49-57 | each listed server with exactly its own monitors |
| ImportFidelity.GroupFidelity | internal/configio/import.go:231-277 | dry and real group phases agree on everything but the collection, entry by entry |
| ImportFidelity.MonitorFidelity | internal/configio/import.go:397-446 | the same for the monitors of a server |
| ImportFidelity.ServerFidelity | internal/configio/import.go:350-395 | the same for servers with their monitors |
| ImportFidelity.DryRunPredicts | internal/configio/import.go:153-175 | a dry run leaves the store unchanged and reports exactly the counts and ordered errors of the real run, in which no write fails and after which names are unique and references valid; both modes, every file |
| ImportMerge.EveryEntryCounted | internal/configio/import.go:177-195 | every entry is counted once, monitors of rejected servers included; collections grow by what is created; failures are reported |
| ImportMerge.MergeOnlyAdds | internal/configio/import.go:70-83 | every document present before a merge is unchanged after it |
| ImportMerge.MergeTwice | internal/configio/import.go:70-83 | merging a file again creates and updates nothing and leaves the store equal |
| ImportLands.EntriesLand | internal/configio/import.go:231-446 | after a real import of any file, every entry counted created or updated reads back as itself; an updated document keeps its creation time and what checks found, a monitor has its defaults |
| ImportLands.OthersStay | internal/configio/import.go:197-446 | documents the file does not name stay as they are; the settings are written by an upsert only |
| ImportLands.RefusalsExactly | internal/configio/import.go:95-120 | the reasons to refuse an entry, and their order |
| ImportLands.GroupEntryLacksRef | internal/configio/import.go:231-277 | a group entry fails for its first missing reference |
| ImportLands.GroupEntryExists | internal/configio/import.go:231-277 | a merge skips a group the store had, without a note |
| ImportLands.GroupEntryConflicts | internal/configio/import.go:231-277 | a name that another document has is skipped by a merge and failed by an upsert, naming the owner |
| ImportLands.GroupEntryCounted | internal/configio/import.go:231-277 | in all other cases the entry is counted updated or created, by whether the store had it |
| ImportLands.MonitorEntryFate | internal/configio/import.go:397-446 | a monitor entry fails for an unknown kind or its first missing group, is skipped by a merge if it exists, and else counted |
| ImportLands.ServerEntryRefused | internal/configio/import.go:350-395 | a refused server fails with each of its monitors, and nothing is written |
| ImportLands.ServerEntryCounted | internal/configio/import.go:350-395 | any other server is skipped by a merge if it exists, and else counted |
| ConfigRoundTrip.WriteBackMonitor | internal/store/store.go:515-540 | writing a monitor's own entry keeps its runtime fields and only applies the defaults |
| ConfigReimport.Reimport | internal/configio/import.go:153-175 | importing an export into the same or an empty store writes back every document without an error |
| ConfigReimport.UpsertOwnExport | internal/configio/export.go:16-60 | upserting a store's own export changes only update times if and only if every monitor has its defaults |
| ConfigReimport.ExportIsStoreConfig | internal/configio/export.go:16-60 | an export holds exactly the store's configuration, in whatever order it is listed |
| ConfigReimport.EmptyStoreRoundTrip | internal/configio/export.go:16-60 | a store imported from an export exports the same configuration, as a set, if and only if every monitor has its defaults |
| ConfigBuilt.ImportKeepsDefaults | internal/configio/import.go:70-120 | an import of any file stores monitors at their defaults only |
| ConfigBuilt.BuiltAtDefaults | internal/store/store.go:441-540 | every store built by writes and imports has its monitors at their defaults |
| ConfigBuilt.BuiltRoundTrips | internal/configio/export.go:16-60 | for such a store both round trips hold without further conditions |
| ConfigBuilt.OldStoreChanges | internal/configio/export.go:16-60 | a store with a monitor without its defaults is changed by its own export |
| ConfigCleanExport.CleanExactly | internal/configio/import.go:95-111 | a store's own export upserts without an error if and only if no id or name is blank and every kind is known |
| Paging.TokenRoundTrip | internal/store/store.go:733-742 | a page token is read back as the skip count it was made from |
| Paging.TokensExactly | internal/store/store.go:733-742 | a printed number is a valid token if and only if it is not negative and fits in 64 bits |
| Paging.NormalizeLimit | internal/store/store.go:723-731 | a page size from 1 to 200 is kept; any other becomes one |
| Paging.FindPage | internal/store/store.go:619-648 | a page is the slice at the token's offset; a next token exists exactly if documents remain |
| Paging.ListAll | internal/configio/backend.go:36-50 | following the tokens yields the whole collection in order for any page size, with no needless fetch |
| Archive.RunConserves | internal/archive/s3.go:102-173 | uploaded, lost, batched and queued results are the accepted ones, in order and once each; the batch is short of a full one unless a flush failed |
| Archive.RunLosesNothing | internal/archive/s3.go:119-141 | without failing uploads nothing is lost and no object exceeds the batch size |
| Archive.FlagExactly | internal/archive/s3.go:119-150 | in every run, flushing on size is held back if and only if the latest attempt that did not fail for good was worth retrying |
| Archive.FlushesAfterStored | internal/archive/s3.go:119-150 | after a stored upload, the result that fills the batch is flushed with it at once |
| Archive.FlushDoes | internal/archive/s3.go:119-141 | what a flush leaves in each case, with the capacity of 10000 |
| Archive.TickAndFinal | internal/archive/s3.go:151-172 | a tick tries again whatever is batched; the loop ends with an empty channel and one last flush |
| Archive.KeepsNewest | internal/archive/s3.go:119-141 | after a failure worth retrying the batch holds exactly the newest of all results received, up to the capacity |
| Archive.CapacityExactly | internal/archive/s3.go:102-173 | a step takes the batch beyond the capacity if and only if a full buffer receives a result and the last flush failed or batches are configured larger |
| Archive.CapacityHoldsExactly | internal/archive/s3.go:102-173 | over whole runs the capacity bounds the batch if and only if no step overflows it |
| Archive.NoRetryNoOverflow | internal/archive/s3.go:102-173 | without failures worth retrying no run overflows |
| Archive.BatchOutgrowsAnyBound | internal/archive/s3.go:146-150 | while uploads fail the batch can grow beyond any bound |
| Archive.S3Archiver.Enqueue | internal/archive/s3.go:91-97 | never blocks; a full channel refuses the result |
| Archive.S3Archiver.Flush | internal/archive/s3.go:119-141 | the flush closure computes the flush step |
| Archive.S3Archiver.FlushOnSize | internal/archive/s3.go:146-150 | flushes a full batch unless the last flush failed |
| Archive.S3Archiver.ReceiveOne | internal/archive/s3.go:166-168 | moves the oldest queued result to the batch, then flushes on size |
| Archive.S3Archiver.Drain | internal/archive/s3.go:154-165 | empties the channel and makes one final attempt, after which nothing is batched |
| Archive.S3Archiver.Run | internal/archive/s3.go:102-173 | the loop and its drain are a run of the steps; at the end every accepted result is uploaded or reported lost, in order |
| Notifications.FailuresADayApart | internal/store/certificate_notifications.go:46-104 | under any interleaving, of two failure events without a recovery between them the later is a reminder at least 24 hours on |
| Notifications.RecoveryAnswersAFailure | internal/store/certificate_notifications.go:89-104 | every recovery answers a failure that no other recovery answered |
| Notifications.NoticesAlternate | internal/store/certificate_notifications.go:108-150 | successive seven-day or expired notices are never for the same version |
| Notifications.RollbackRepeatsNotice | internal/store/certificate_notifications.go:108-127 | a rollback there and back repeats a version's notice |
| Notifications.NoticeRepeatsExactly | internal/store/certificate_notifications.go:108-150 | after any run, a version's notice goes out again if and only if it is active and another version's came in between |
| Notifications.ScanAnnounces | internal/certnotify/dispatcher.go:157-219 | a scan announces a served version past its end as expired, and one that ends within seven days as expiring unless its replacement is in flight |
| Notifications.Dispatcher.TryRecordOperationFailureNotification | internal/store/certificate_notifications.go:46-65 | records exactly when no failure is on record |
| Notifications.Dispatcher.TryRecordOperationFailureReminder | internal/store/certificate_notifications.go:69-85 | records exactly when the last failure event is 24 hours old; a missing time does not match |
| Notifications.Dispatcher.TryRecordOperationRecovery | internal/store/certificate_notifications.go:89-104 | records exactly when a failure is on record, and clears it |
| Notifications.Dispatcher.TryRecordSevenDayReminder | internal/store/certificate_notifications.go:108-127 | records exactly for the active version, if not the one recorded last |
| Notifications.Dispatcher.TryRecordExpiredNotification | internal/store/certificate_notifications.go:131-150 | records exactly for the active version, if not the one recorded last |
| Notifications.Dispatcher.OnOperationFailure | internal/certnotify/dispatcher.go:89-124 | announces exactly a first failure or one whose last announcement is 24 hours old |
| Notifications.Dispatcher.OnOperationSuccess | internal/certnotify/dispatcher.go:128-153 | announces a recovery exactly after an announced failure |
| Notifications.Dispatcher.ScanValidityNotifications | internal/certnotify/dispatcher.go:157-219 | the scan takes exactly the marker updates its listing calls for, in order |
| Alerts.AlertsAreThrottled | internal/alert/dispatcher.go:180-193 | with policies changing and events out of order, alerts of a key are an interval apart until a recovery, and are suppressed only if sooner |
| Alerts.FiresExactly | internal/alert/dispatcher.go:154-172 | a change is announced if and only if it falls to a bad state under that state's flag, or rises from one to healthy under the recovery flag |
| Alerts.EvaluationDoes | internal/alert/dispatcher.go:75-137 | a change that fires is suppressed if and only if it comes within the interval of its key's last alert; a recovery never is |
| Alerts.StatusSpellings | internal/alert/dispatcher.go:247-262 | the four spellings of each status |
| Alerts.NextIncidentExactly | internal/alert/dispatcher.go:75-137 | the first incident after a recovery is suppressed if and only if the recovery was not announced and the last alert is within the interval |
| Alerts.UnannouncedRecovery | internal/alert/dispatcher.go:154-172 | a run in which the incident after a recovery is suppressed |
| Alerts.KeysCollideExactly | internal/alert/dispatcher.go:184 | keys of two different groups can be equal if and only if one id with the separator is a prefix of the other |
| Alerts.CollisionHappens | internal/alert/dispatcher.go:154-193 | a run in which one group's alert suppresses another's, and its recovery re-arms the other |
| Alerts.KeysAreDistinct | internal/alert/dispatcher.go:184 | group ids without the separator never share a key |
| Alerts.Dispatcher.AllowThrottle | internal/alert/dispatcher.go:180-193 | allows exactly without an interval, without an earlier alert, or after the interval; remembers only throttled keys |
| Alerts.Dispatcher.ResetThrottle | internal/alert/dispatcher.go:174-178 | forgets the key and no other |
| Alerts.Dispatcher.OnMonitorStatusChange | internal/alert/dispatcher.go:75-137 | the loop over a monitor's groups takes exactly their evaluations, in order |

## Left out

- ACME, DNS providers, PEM and x509: an issuance or revocation attempt succeeds with a fresh version id and given times, or fails.
- DNS TXT cleanup: the pending records are a field that anyone may clear; no guarantee about DNS is modelled.
- Certificates' `updated_at`, warnings, revoke reasons and operation statistics; the order and limit in which claimable operations are found.
- A database write that is reported as failed but took effect.
- Several clocks: readings may be old, but come from one clock that does not run backwards.
- LeaseExclusion: late heartbeats that land must be harmless; for others exclusion is false, as HarmlessExactly shows.
- ClaimsBeforeDeadline: late heartbeats that land must be timely; for others the bound is false, as TimelyExactly shows.
- The direct run functions that bypass the in-flight table, and the attempts' grace period at shutdown.
- Interleavings inside one version-slot method in `CertificateRuns`; `LeaseProtocol` has them for the methods that complete an operation, `MarkRaces` for the mark.
- JSON and BSON encoding, nil versus empty lists, and the size limit of an import file; a file is its decoded value.
- The group collections have no unique index on id; a second insert under one id is a refused write here. The importer is proved to make no write that fails.
- MergeTwice: idempotence is claimed for merges only; an upsert that reports a name conflict may do more the second time.
- A listing is any order of the collection; sort keys, and pages over a collection that changes meanwhile, are not modelled.
- Encoding of archive objects and object keys: an upload attempt stores, fails for now or fails for good, and the memory reuse of the batch slice is not captured.
- Channel resolution and delivery of alerts and notifications; an alert counts as sent once it passes the throttle.
- Deleting groups, servers and monitors, probes, health aggregation, the scheduler, authentication and the front end: sound but simple, or input and output.
