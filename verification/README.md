# BossTransfer: a verified model

A Dafny 4.11 model of the parts of BossTransfer that keep state or search, with proofs about all their runs.
`dafny verify dfyconfig.toml` checks everything.

## What is modelled

**Remote downloads** (`Transfer*.dfy`, `HistoryTrim.dfy`). The service is a class whose methods are the sections
under its mutex, updating its fields in place; `TransferModel` gives their specification as functions. On top of
them `TransferMachine` interleaves any number of starters, workers, cancellers, submissions and a shutdown, one
critical section or one outside event per step, with a file system of destinations and temporary files and an
arbitrary response body. `TransferInvariant`, `TransferSteps` and `TransferRuns` prove the invariant;
`TransferGuarantees` states what follows for every run, `TransferLiveness` that a shutdown can always end,
`TransferOutcomes` when cancellations and downloads succeed, and `TransferHistory` what is forgotten.

**The licensing store** (`Licensing*.dfy`). `LicensingModel` says what each operation intends; `LicensingEffects`
says of the records alone when it succeeds and what it leaves. `LicensingCells` and
`LicensingStore` are the store object itself: maps of references to records, a deep clone, changes in place on the
clone, and a commit that writes a file before the state is replaced. `LicensingDisk` models the renames of that
file, with a crash possible after each. `LicensingInvariant`, `LicensingRuns` and `LicensingGuarantees` carry the
invariant through all runs of operations, any of which may fail to be stored; `LicensingHistory` derives terms,
leases and authorization from the calls of a run. `LicensingRecovery` puts it together:
runs of operations, crashes at any moment of a commit, and restarts that check what they load.

**The lease protocol** (`LicenseClient.dfy`, `LeaseProtocol.dfy`, `LeaseCredentials.dfy`). The client's store as an
object that takes back a change it cannot save, and server and client together under a shared clock that never goes
back. Replies may be lost, delayed, repeated and reordered; the client may crash before or after its file is replaced.

**The fallback search** (`RemotePath.dfy`, `RemoteGraph.dfy`, `RemoteEntries.dfy`, `DirectoryWalk.dfy`). Lexical
path cleaning on segments, containment, which listed entries are accepted, and the bounded breadth-first walk against
the declared set of reachable directories of an arbitrary, possibly cyclic listing graph.

**The local account** (`LocalAuth.dfy`, `AuthProtocol.dfy`, `AuthSessions.dfy`). Sessions and credential generations,
with logins and updates in two halves that interleave.

**Search-result groups** (`StableSort.dfy`, `SearchGroups.dfy`, `SearchFolders.dfy`): grouping with a stable sort, and
which group a result belongs to.

`Prelude.dfy` and `Text.dfy` hold shared datatypes and the string operations the code relies on.

## Where the code does less than one might expect

- *Replacing the licensing file* (`internal/licensing/store.go:722-737`) removes the backup before the store file is
  in place. It is atomic exactly when the store file exists, or there is no backup, or the backup holds an empty store
  (`LicensingDisk.AtomicIffSound`).
  A rollback rename that fails leaves a disk outside that condition, and the next failing replacement then loses the
  contents (`LicensingDisk.TwoFailuresLoseTheStore`). The run theorems are about runs in which that rename succeeds.
- *Progress* (`internal/transfer/service.go:1211-1226`) multiplies in int64. It is the true percentage exactly for
  totals up to MaxInt64/100 (`TransferStream.ProgressExactIff`). It never falls exactly for those totals and for the
  three largest ones, under which it is always 0 (`TransferStream.ProgressMonotoneIff`).
- *Path normalization* (`internal/adapters/clouddrive2/client.go:512-525`) trims before it cleans, so it is not
  idempotent (`RemotePath.NotIdempotent`); exactly when it is, `RemotePath.NormalizeTwice` says.
- *Credential generations* (`internal/localauth/auth.go:267`) wrap after 2^64 updates
  (`AuthProtocol.AcceptedIff`, `AuthProtocol.StaleLoginAfterWrap`).
- *Group totals* (`apps/client/download_handlers.go:187`) wrap in int64; they are the true sum exactly when it
  fits (`SearchGroups.TotalIsTrueIff`); `SearchGroups.TotalCanWrap` is a pair of files for which it does not.

## Assumptions

- Random ids and tokens are fresh; digests are injective; sealed tokens open to what was sealed; password hashing
  accepts exactly the password it was made from. Random and cryptographic failures are inputs of the operations.
- A download id is its counter value. Temporary names never collide with destinations, and only remote downloads
  write to the target directory. A reservation key is the destination itself. No file exceeds 2^63-1 bytes.
- A context that was seen cancelled stays cancelled; what a check reads outside the lock may be out of date.
- Generated device ids carry no white space at their ends where a theorem says so.
- Times are nanoseconds since Go's zero time.
- One listing graph stays fixed during a walk; the prefetched entries of the root, when there are any, stand for its
  listing. Case conversion, title cleaning, key extraction and quality labels are arbitrary functions.
- `normalizeFileLimit` (`internal/adapters/clouddrive2/client.go:295-300`) gives every caller a limit of 1 to 500; the
  walk is modelled for every limit from 0 up, and with 0, as in the code, results are not limited.

## Model

| member | source | states |
|---|---|---|
| `HistoryTrim.DroppedCount` | internal/transfer/service.go:1089-1110 | A trim that has to shed k entries drops exactly min(k, number of entries that are neither active nor preserved). |
| `HistoryTrim.DroppedAreOldest` | internal/transfer/service.go:1089-1110 | Of an unprotected entry that stays and one that goes, the one that stays is newer. |
| `HistoryTrim.WithoutFacts` | internal/transfer/service.go:1101-1102 | Deleting entries keeps the history free of duplicates. |
| `HistoryTrim.DropOne` | internal/transfer/service.go:1090-1105 | One round of the outer loop removes the last unprotected entry, and the remaining rounds drop what is still to go. |
| `HistoryTrim.DropNone` | internal/transfer/service.go:1106-1108 | With no unprotected entry left the early return is right: nothing is to be dropped. |
| `HistoryTrim.TrimmedLength` | internal/transfer/service.go:1089-1110 | The exact length of the history after a trim. |
| `TransferModel.TrimFacts` | internal/transfer/service.go:1089-1110 | A trim keeps history and table in step, forgets finished records only, never the preserved one, and changes no record. |
| `TransferHistory.TrimForgets` | internal/transfer/service.go:1089-1110 | Told without its loops: a trim keeps the order, forgets finished tasks only, older ones first, none while a hundred or fewer would remain without it, and stops above a hundred only when nothing else may go. |
| `TransferService.Service.TrimTerminalTasks` | internal/transfer/service.go:1089-1110 | The two nested loops compute exactly that trim, and end. |
| `TransferStream.Progress` | internal/transfer/service.go:1211-1226 | Always between 0 and 100, and the true share, capped at 100, for every amount whose hundredfold fits in an int64. |
| `TransferStream.ProgressExactIff` | internal/transfer/service.go:1211-1226 | For a positive total the percentage is the true one for every amount if and only if the total is at most MaxInt64/100. |
| `TransferStream.ProgressMonotone` | internal/transfer/service.go:1183-1188 | For totals up to MaxInt64/100 and for the three largest ones progress never falls while the copied amount grows. |
| `TransferStream.ProgressFalls` | internal/transfer/service.go:1211-1226 | For every other total it falls: from at least one percent to 0, between two successive amounts that are named. |
| `TransferStream.ProgressMonotoneIff` | internal/transfer/service.go:1211-1226 | For every positive int64 total progress never falls if and only if the total is at most MaxInt64/100 or at least MaxInt64-2. |
| `TransferStream.Judge` | internal/transfer/service.go:875-892 | What one read adds never takes the file past a known size or past 2^63-1. |
| `TransferStream.LoopIsExact` | internal/transfer/service.go:871-904 | For every sequence of read and write results the file is a prefix of what was delivered, within a known size, and all of it when the loop ends at the end of the body. |
| `TransferStream.LoopFinishesIff` | internal/transfer/service.go:871-904 | The loop ends normally if and only if the body ends without a broken read, every write takes all it is given, and the body exceeds neither a known size nor 2^63-1 bytes. |
| `TransferStream.CopyBody` | internal/transfer/service.go:871-904 | The loop itself with its int64 counter: no operation overflows, the reported amounts add up to the file length, a known size is never exceeded. |
| `TransferDestination.DecimalInjective` | internal/transfer/service.go:1376-1378 | Different suffix numbers are written differently. |
| `TransferDestination.DecimalReads` | internal/transfer/service.go:1379 | A suffix number is written in decimal digits without a leading zero. |
| `TransferDestination.CandidateForm` | internal/transfer/service.go:1374-1379 | The number goes in parentheses between the stem and the extension, which starts at the last dot. |
| `TransferDestination.CandidatesDistinct` | internal/transfer/service.go:1369-1386 | All the names that are tried are different. |
| `TransferDestination.UniqueDestination` | internal/transfer/service.go:1356-1387 | The first candidate that is not taken decides: it is chosen if it is free, else its stat failed; the limit error if all are taken. A chosen path is neither reserved nor on disk. |
| `TransferDestination.ChoiceIsUnique` | internal/transfer/service.go:1356-1387 | That leaves exactly one possible answer. |
| `TransferService.Service.constructor` | internal/transfer/service.go:239-251 | A new service is empty and open. |
| `TransferService.Service.TryAcquireSlot` | internal/transfer/service.go:632-636 | A slot is taken if and only if fewer than three are in use. |
| `TransferService.Service.StartRemoteDownload` | internal/transfer/service.go:632-674 | Busy exactly without a slot; refused with the slot given back, exactly once closed or when the search for a destination fails; else one new queued download under the chosen destination, the slot kept. |
| `TransferService.Service.RegisterDownload` | internal/transfer/service.go:639-674 | The locked section: refused without a change exactly once closed or when the search for a destination fails; else one new queued download under the chosen, free and unreserved destination. |
| `TransferService.Service.ReturnSlot` | internal/transfer/service.go:642-648 | One slot is given back. |
| `TransferService.Service.RecordSubmittedTask` | internal/transfer/service.go:744-763 | A submitted download is recorded as the newest entry, and the history trimmed. |
| `TransferService.Service.CancelRemoteDownload` | internal/transfer/service.go:693-710 | Succeeds exactly for a remembered, active download that still has its cancel function, returns the cancelled record, and then cancels its context. |
| `TransferService.Service.FailRemoteTask` | internal/transfer/service.go:1002-1017 | Only an active download fails; its record gets the error and its progress; the history is trimmed. |
| `TransferService.Service.CancelRemoteTask` | internal/transfer/service.go:1019-1026 | Only an active download is cancelled. |
| `TransferService.Service.BeginRemoteTask` | internal/transfer/service.go:1028-1037 | A worker begins exactly if its download is still queued. |
| `TransferService.Service.ShouldStopRemoteTask` | internal/transfer/service.go:1039-1048 | Tells whether to stop, and cancels the download if the context was seen cancelled. |
| `TransferService.Service.UpdateTask` | internal/transfer/service.go:1190-1199 | Stores a record and trims the history if it is finished. |
| `TransferService.Service.SetBytesTotal` | internal/transfer/service.go:851-853 | Records the known size. |
| `TransferService.Service.AddCopiedBytes` | internal/transfer/service.go:1183-1188 | Adds to the copied amount and recomputes the progress. |
| `TransferService.Service.PublishRemoteTask` | internal/transfer/service.go:1054-1081 | The rename happens inside the locked section and only from the running state; the temporary file is moved to the destination and the record completed if and only if it succeeds. |
| `TransferService.Service.CleanUp` | internal/transfer/service.go:678-682 | Cancels the context of one worker and removes its cancel function and reservation. |
| `TransferRuns.NextKeepsInv` | internal/transfer/service.go:611-1110 | Every step of every party keeps the protocol invariant. |
| `TransferRuns.RunKeepsInv` | internal/transfer/service.go:611-1110 | The invariant holds in every state of every run. |
| `TransferRuns.RunForward` | internal/transfer/service.go:1002-1081 | What can only grow grows: counters, the log, published files; statuses only advance. |
| `TransferGuarantees.CancelOrPublish` | internal/transfer/service.go:693-710 | No download is ever both successfully cancelled and published, in either order. |
| `TransferGuarantees.CancelThenNoRename` | internal/transfer/service.go:1054-1081 | After a successful cancel the rename of that download never happens, even when its record is forgotten while its worker unwinds. |
| `TransferGuarantees.RenameThenNoCancel` | internal/transfer/service.go:693-700 | After a publication every cancel of that download is refused. |
| `TransferGuarantees.FinishedIsFinal` | internal/transfer/service.go:1002-1048 | Finished statuses never change, a forgotten record never returns, and progress stays in 0..100 and (below the int64 bound) never falls. |
| `TransferGuarantees.ReceivedIsRead` | internal/transfer/service.go:871-904 | What a worker has taken in is the concatenation of the reads made for its download. |
| `TransferGuarantees.PublicationIsExact` | internal/transfer/service.go:1070 | At every rename the destination is absent; afterwards it holds exactly the bytes read, as many as declared, and never changes again. |
| `TransferGuarantees.PublishedTaskIsExact` | internal/transfer/service.go:1071-1080 | The record of a publication is completed at 100 percent, with both byte counts equal to the length of the file. |
| `TransferGuarantees.PublicationsAreDistinct` | internal/transfer/service.go:645-670 | Different publications belong to different downloads and different files. |
| `TransferGuarantees.ResourcesAreAccountedFor` | internal/transfer/service.go:632-688 | In every reachable state: slots, cancel functions, reservations, wait group and history bound exactly as the live workers require; every active download has a worker. |
| `TransferGuarantees.ShutdownIsComplete` | internal/transfer/service.go:715-733 | Once shutdown can report success, and for ever after: no worker, reservation, cancel function, active download or unremoved temporary file, and no registration or rename. |
| `TransferGuarantees.NoRegistrationAfterClose` | internal/transfer/service.go:640-644 | After closing nothing is registered and the wait group never grows. |
| `TransferLiveness.WorkersNeverStick` | internal/transfer/service.go:776-947 | A live worker always has a step to take that is not a failure of something outside it. |
| `TransferLiveness.Drains` | internal/transfer/service.go:676-687 | A worker whose context is cancelled always has a step of its own that takes it nearer to its end and moves nobody else. |
| `TransferLiveness.ShutdownCanFinish` | internal/transfer/service.go:715-733 | From every reachable closed state the run goes on, with nothing but shutdown steps, to a state in which shutdown returns without an error. |
| `TransferLiveness.CancelledWorkerCanFinish` | internal/transfer/service.go:676-709 | After a successful cancellation the run goes on, with the call of the cancel function and steps of that worker alone, to a state in which the worker has returned everything and is gone. |
| `TransferOutcomes.CancelTakesEffect` | internal/transfer/service.go:693-710 | In every reachable state a cancellation succeeds if and only if the task is queued or running, and is then recorded at once; at any other time it changes nothing. |
| `TransferOutcomes.EveryStatusHasAReason` | internal/transfer/service.go:1002-1081 | A task enters the records queued with a new worker, or submitted; it becomes running only by its worker beginning, cancelled only by a request or under a cancelled context, failed only with the recorded error, completed only by its rename. |
| `TransferOutcomes.WorkerGoesOnIff` | internal/transfer/service.go:1028-1081 | A worker begins, passes a stop check and puts its file in place if and only if its task is still queued or running and its context was not seen cancelled. |
| `TransferOutcomes.PublishedAsAnnounced` | internal/transfer/service.go:842-853 | A published file is as long as the response announced, if it did. |
| `TransferOutcomes.DownloadSucceeds` | internal/transfer/service.go:632-947 | From every reachable state of an open service with a free slot and a free destination, a download that nothing disturbs ends with a completed task at 100 percent and a file with exactly the bytes of the body; the steps are given. |
| `TransferHistory.HistoryIsNewestFirst` | internal/transfer/service.go:669-671 | In every reachable state the history is in order, the newest task first. |
| `TransferHistory.ForgottenIsOldest` | internal/transfer/service.go:1089-1110 | A step forgets only finished tasks, with a hundred left, and none while an older finished one stays, but for the one it has just dealt with. |
| `LicensingModel.LeaseExpiry` | internal/licensing/store.go:938-944 | A lease is the smaller of a day from now and the expiry of the license. |
| `LicensingInvariant.FirstUnusedDecides` | internal/licensing/store.go:486-527 | The first attempt that does not meet a used digest decides: it issues its code, or its random source failed; if all eight meet one, the operation is refused. |
| `LicensingInvariant.CreateKeeps` | internal/licensing/store.go:111-146 | Creating a license keeps the store invariant. |
| `LicensingInvariant.UpdateKeeps` | internal/licensing/store.go:150-192 | Changing limits and expiry keeps it: active devices within the new limit, leases within the new expiry. |
| `LicensingInvariant.IssueKeeps` | internal/licensing/store.go:196-218 | Issuing a code keeps it. |
| `LicensingInvariant.ActivateKeeps` | internal/licensing/store.go:223-308 | An activation keeps it: limit, identity, leases, tokens, and a code for every device. |
| `LicensingInvariant.HeartbeatKeeps` | internal/licensing/store.go:335-359 | A renewal keeps it. |
| `LicensingInvariant.RevokeKeeps` | internal/licensing/store.go:398-426 | A revocation keeps it. |
| `LicensingInvariant.ReleaseKeeps` | internal/licensing/store.go:430-456 | A release keeps it. |
| `LicensingRuns.ActivationFinds` | internal/licensing/store.go:910-917 | The lookups of an activation that is not refused find the only code and the only device they can mean. |
| `LicensingRuns.PlanKeeps` | internal/licensing/store.go:111-456 | Every operation keeps the invariant. |
| `LicensingRuns.RunKeepsStoreOk` | internal/licensing/store.go:785-816 | Every state of every run passes the check made on loading and the stronger facts: device limits, identities, leases, revocations, tokens, paid devices. |
| `LicensingEffects.CreateEffect` | internal/licensing/store.go:111-146 | A license is created exactly for an acceptable request with working random sources, with the customer, limit and expiry of the request, in force, with one new unused code; nothing else changes. |
| `LicensingEffects.UpdateEffect` | internal/licensing/store.go:150-192 | An update succeeds exactly for a license that is not revoked, with a limit of 1 to 10000 that is not below its active devices and a future expiry or none; then limit and expiry are the requested ones, every active device has the lease of 24 hours or to the expiry, and nothing else changes. |
| `LicensingEffects.IssueEffect` | internal/licensing/store.go:196-218 | A code is issued exactly for a license in force, if one of eight draws is unused; exactly that code is added. |
| `LicensingEffects.ActivateIff` | internal/licensing/store.go:223-281 | An activation succeeds exactly with an unused code of a license in force, an installation not known with another key, and room under the limit, which a device that is active already does not need. |
| `LicensingEffects.ActivateEffect` | internal/licensing/store.go:263-307 | It redeems the code that was asked for, for the device with the requested identity, known or new, which is then active with the new token and lease; nothing else changes. |
| `LicensingEffects.HeartbeatEffect` | internal/licensing/store.go:335-359 | A heartbeat succeeds exactly for an active device with its token and a license in force, whether or not its lease has run out, and renews the lease. |
| `LicensingEffects.AuthorizeEffect` | internal/licensing/store.go:313-330 | Authorization needs what a heartbeat needs, and a lease that has not run out. |
| `LicensingEffects.RevokeEffect` | internal/licensing/store.go:398-426 | Every known license can be revoked; then it and exactly its active devices are revoked as of now. |
| `LicensingEffects.ReleaseEffect` | internal/licensing/store.go:430-456 | Every known device can be released; then exactly it has neither its status nor a token. |
| `LicensingEffects.RefusedIff` | internal/licensing/store.go:785-816 | What the check on loading refuses: wrong ids, missing fields, references to nothing, shared digests. |
| `LicensingHistory.TermsFollowHistory` | internal/licensing/store.go:180-182 | In every run the limit and the expiry of a license are those of its latest successful update, or else of its creation. |
| `LicensingHistory.LeasesFollowHistory` | internal/licensing/store.go:938-944 | In every run the lease of an active device ends 24 hours after the latest of its activation, its heartbeats and the updates of its license, or when its license expires, whichever is earlier. |
| `LicensingHistory.AuthorizedByHistory` | internal/licensing/store.go:313-330 | Authorization by what was called alone: latest activation, release, revocation, latest terms, latest lease. |
| `LicensingGuarantees.TokensFollowHistory` | internal/licensing/store.go:291-297 | The stored token digest of a device is that of its latest activation, or none since its release. |
| `LicensingGuarantees.RevocationsFollowHistory` | internal/licensing/store.go:413-414 | A license is revoked if and only if some earlier call revoked it. |
| `LicensingGuarantees.AuthorizedIff` | internal/licensing/store.go:313-330 | A token is accepted if and only if it is the one of the latest activation, the device has not been released since, the license is neither revoked nor expired, and the lease runs. |
| `LicensingGuarantees.CodeStep` | internal/licensing/store.go:299-302 | A call consumes one more code of a license exactly if it is a successful activation under it. |
| `LicensingGuarantees.CodesNeverReturn` | internal/licensing/store.go:255-302 | No code disappears; a consumed one never changes again. |
| `LicensingGuarantees.CodesAreConserved` | internal/licensing/store.go:223-308 | A license has as many consumed codes as successful activations, and never more devices than that. |
| `LicensingGuarantees.DevicesWithinCodes` | internal/licensing/store.go:277-302 | A license never has more devices than consumed codes: every device was paid for with one of its own. |
| `LicensingGuarantees.NothingForRevoked` | internal/licensing/store.go:836-844 | A code, an activation or a renewal is never for a revoked license. |
| `LicensingGuarantees.RevokedForEver` | internal/licensing/store.go:398-426 | A revoked license stays revoked, has no active device again, gets no further code, and no call grants it anything. |
| `LicensingDisk.ReplaceIsAtomic` | internal/licensing/store.go:722-737 | From a disk whose store file exists or that has no backup, every crash during a replacement leaves the old or the new contents, and the result tells which remain. |
| `LicensingDisk.AtomicIffSound` | internal/licensing/store.go:722-737 | That starting condition, or a backup that holds an empty store, is exactly what atomicity needs. |
| `LicensingDisk.TwoFailuresLoseTheStore` | internal/licensing/store.go:727-734 | Without it the contents can be lost: a rollback that fails, then another failing replacement. |
| `LicensingDisk.FileSystem.ReplaceFile` | internal/licensing/store.go:722-737 | The sequence of renames and removals passes through exactly the listed disks. |
| `LicensingDisk.FileSystem.Load` | internal/licensing/store.go:641-660 | Loading finds the store file, or restores the backup, or starts empty; it fails exactly if the file that is needed cannot be read or the backup cannot be renamed; what is recoverable never changes. |
| `LicensingDisk.StepsAreAtomic` | internal/licensing/store.go:633-660 | Every commit, crash and restart acts like one step of a store whose commits happen at once or not at all. |
| `LicensingDisk.RunsRefineAtomicStore` | internal/licensing/store.go:633-660 | All runs of commits, crashes and restarts refine the atomic store, and memory is what a crash would bring back. |
| `LicensingDisk.CommittedStays` | internal/licensing/store.go:633-639 | What a commit reported as stored is what later restarts find. |
| `LicensingCells.CloneDiskState` | internal/licensing/store.go:760-783 | The clone has equal contents, and every one of its records is a new object. |
| `LicensingCells.ActiveDeviceCount` | internal/licensing/store.go:928-936 | The loop counts exactly the active devices of the license. |
| `LicensingCells.FindCodeByDigest` | internal/licensing/store.go:901-908 | Finds a code if and only if one has the digest; with unique digests, the one. |
| `LicensingCells.FindLicenseDevice` | internal/licensing/store.go:910-917 | Finds the device with the identity, if there is one. |
| `LicensingCells.FindInstallationConflict` | internal/licensing/store.go:919-926 | True if and only if some device has the installation id and another key. |
| `LicensingCells.RenewLeases` | internal/licensing/store.go:183-187 | Rewrites the leases of exactly the active devices of the license, in place. |
| `LicensingCells.RevokeDevices` | internal/licensing/store.go:416-421 | Revokes exactly the active devices of the license, in place. |
| `LicensingCells.IssueCodeInState` | internal/licensing/store.go:486-527 | The eight attempts as a loop. |
| `LicensingCells.BindDevice` | internal/licensing/store.go:259-303 | From the clone on: limit check, token, new or known device, consumed code. |
| `LicensingStore.ValidateDiskState` | internal/licensing/store.go:785-816 | Accepts exactly the valid records. |
| `LicensingStore.ValidateCodes` | internal/licensing/store.go:792-806 | Accepts exactly well-formed codes without a repeated digest. |
| `LicensingStore.RecoverTokens` | internal/licensing/store.go:672-680 | Accepts exactly if every active device's token opens to its digest. |
| `LicensingStore.DoesKeepsAgreement` | internal/licensing/store.go:633-639 | Whatever an operation does, memory still holds what a crash would bring back (the rollback rename succeeding). |
| `LicensingStore.DoesWraps` | internal/licensing/store.go:111-456 | What a method does is independent of the kind of reply it gives, which links every method to the run model. |
| `LicensingStore.DoesIsCall` | internal/licensing/store.go:111-456 | A method of the object is a call of the run model, so every run guarantee holds of it; a failed one changes nothing. |
| `LicensingStore.Store.Commit` | internal/licensing/store.go:633-639 | The state is replaced if and only if the file was; otherwise nothing in memory changes. |
| `LicensingStore.Store.Load` | internal/licensing/store.go:641-683 | Loads exactly the recoverable records, if the files can be read and the records pass the checks; otherwise memory is as before. |
| `LicensingStore.Store.CreateLicense` | internal/licensing/store.go:111-146 | Refuses, fails to store, or stores exactly the planned records; succeeds exactly if the request is acceptable and can be written, and then the license is as requested; on any failure memory is unchanged. |
| `LicensingStore.Store.UpdateLicense` | internal/licensing/store.go:150-192 | Refuses, fails to store, or stores exactly the planned update; succeeds exactly if it is acceptable and can be written, and then limit, expiry and leases are the requested ones and nothing else has changed. |
| `LicensingStore.Store.IssueCode` | internal/licensing/store.go:196-218 | The same for a new code: exactly one unused code with an unused secret is added. |
| `LicensingStore.Store.FindUsableCode` | internal/licensing/store.go:230-257 | The checks of an activation, in order. |
| `LicensingStore.Store.Activate` | internal/licensing/store.go:223-308 | The same for an activation: when it succeeds, and that the code asked for is redeemed for the device asked for. |
| `LicensingStore.Store.ValidateDeviceCredential` | internal/licensing/store.go:364-394 | The credential checks, in order. |
| `LicensingStore.Store.AuthorizeDevice` | internal/licensing/store.go:313-330 | Read-only; the verdict of the run theorem. |
| `LicensingStore.Store.Heartbeat` | internal/licensing/store.go:335-359 | The same for a renewal. |
| `LicensingStore.HeartbeatDone` | internal/licensing/store.go:335-359 | When a heartbeat of the object succeeds, and that the device then has a new lease and nothing else has changed. |
| `LicensingStore.Store.RevokeLicense` | internal/licensing/store.go:398-426 | The same for a revocation, with the records afterwards; repeating it changes nothing. |
| `LicensingStore.Store.ReleaseDevice` | internal/licensing/store.go:430-456 | The same for a release, with the records afterwards; repeating it changes nothing. |
| `LicensingRecovery.StepIsCall` | internal/licensing/store.go:633-683 | An operation, a crash after any rename of its commit, and a restart each act on what survives like one whole operation or not at all. |
| `LicensingRecovery.RunKeepsServerOk` | internal/licensing/store.go:633-683 | In every run of operations, crashes and restarts what survives satisfies the full store invariant, and memory agrees with it. |
| `LicensingRecovery.ReloadIsNeverRefused` | internal/licensing/store.go:661-683 | What survives always passes the checks made on loading; a restart that can read its files, and any restart without file errors, comes up with exactly that. |
| `LicensingRecovery.SurvivesAsRun` | internal/licensing/store.go:111-683 | Whatever crashes there were, what survives is the result of a run of the operations that took effect, so every run guarantee holds of it. |
| `LicenseClient.RefusalEndsActivation` | internal/licenseclient/client.go:83-88 | A saved refusal with a status ends the activation; without one it leaves it as it was. |
| `LicenseClient.ClientStore.constructor` | internal/licenseclient/store.go:61-84 | An opened store holds the saved state, with the default address if none was saved. |
| `LicenseClient.ClientStore.SaveActivation` | internal/licenseclient/store.go:137-161 | Every field of a complete reply in its place, or nothing: an incomplete reply, a failed encryption or a failed save leaves state and file as they were. |
| `LicenseClient.ClientStore.SaveHeartbeat` | internal/licenseclient/store.go:163-176 | License and lease of one reply together, or neither. |
| `LicenseClient.ClientStore.MarkRemoteStatus` | internal/licenseclient/store.go:178-192 | An empty status is not stored; a failed save is taken back. |
| `LicenseClient.ClientStore.Status` | internal/licenseclient/store.go:104-119 | Activated exactly with an id, a token, an active status, a running lease and no passed expiry; everything else it reports is the state. |
| `LeaseProtocol.GrantIsSound` | internal/licensing/store.go:276 | Every reply is for a license in force, with a lease of at most a day that ends with the license. |
| `LeaseProtocol.RevokedAtStep` | internal/licensing/store.go:413-414 | A revocation is dated by the call that made it and keeps its date. |
| `LeaseProtocol.NextKeeps` | internal/licenseclient/client.go:43-96 | Serving, delivering, failing saves, crashes and clock ticks all keep the protocol invariant. |
| `LeaseProtocol.RunKeepsWorldOk` | internal/licenseclient/client.go:43-96 | The invariant holds in every state of every run with lost, delayed, repeated and reordered replies. |
| `LeaseProtocol.ActivatedUnderReply` | internal/licenseclient/store.go:104-119 | A client counts as activated only under a reply the server sent: before its lease, at most a day after it, and before the delivered expiry. |
| `LeaseProtocol.MemoryIsFile` | internal/licenseclient/store.go:137-192 | The client's memory is always what it would read back, also after changes it took back and after crashes. |
| `LeaseProtocol.RevokedBy` | internal/licensing/store.go:398-426 | A revoked license stays revoked, dated no later than any call that revoked it. |
| `LeaseProtocol.StalenessIsBounded` | internal/licensing/store.go:938-944 | A client holding a license revoked at t counts as activated only before t plus 24 hours. |
| `LeaseProtocol.StalenessIsReached` | internal/licensing/store.go:938-944 | Any run whose client has just been given a full lease extends to one that is still activated one tick before the bound. |
| `LeaseProtocol.FullLeaseRun` | internal/licenseclient/client.go:43-67 | There is such a run: a license is created, a code activated, the reply delivered. |
| `LeaseProtocol.BoundIsTight` | internal/licensing/store.go:938-944 | So the bound is tight: a run in which the client counts as activated one tick before revocation plus 24 hours. |
| `LeaseCredentials.HonoredSince` | internal/licensing/store.go:223-307 | An activation that no other activation, release, revocation or update has superseded is still honored: active device, its token, the same terms, a lease no shorter. |
| `LeaseCredentials.CredentialWorks` | internal/licensing/store.go:313-330 | Until it is superseded the server accepts the device and the token of an activation for as long as the lease in the reply runs. |
| `LeaseCredentials.DeliveredCredentialWorks` | internal/licenseclient/client.go:43-67 | From end to end: right after the reply of the latest activation is delivered and saved, the client counts as activated and the server accepts the device id and the token it kept. |
| `LeaseCredentials.KeptCredentialWorks` | internal/licenseclient/store.go:127-157 | Whatever was lost, repeated, refused or interrupted, the device id and the token that a client keeps are those of one activation, and the server accepts them until that is superseded. |
| `RemotePath.CleanIsClean` | internal/adapters/clouddrive2/client.go:520 | Cleaning an absolute path gives a clean path with the same segments; cleaning twice is cleaning once. |
| `RemotePath.CleanIffPlain` | internal/adapters/clouddrive2/client.go:520 | A path is clean if and only if it is written with plain segments only. |
| `RemotePath.WithinIffPrefix` | internal/adapters/clouddrive2/client.go:556-561 | On clean absolute paths the string test holds if and only if the segments of the root are a prefix. |
| `RemotePath.NormalizedIsClean` | internal/adapters/clouddrive2/client.go:512-525 | A normalized path is clean and absolute. |
| `RemotePath.NormalizedIsNormal` | internal/adapters/clouddrive2/client.go:512-525 | It also contains no backslash and no NUL. |
| `RemotePath.NormalizeTwice` | internal/adapters/clouddrive2/client.go:512-525 | Normalizing again changes nothing if and only if cleaning left no white space at the end. |
| `RemotePath.NotIdempotent` | internal/adapters/clouddrive2/client.go:512-525 | A path that does change when it is normalized again. |
| `RemotePath.CleanShrinks` | internal/adapters/clouddrive2/client.go:517-520 | Cleaning never lengthens a path, so the length limit also holds of the result. |
| `RemotePath.AcceptedIsContained` | internal/adapters/clouddrive2/client.go:527-554 | Every accepted entry has a clean path within the root that is not the current directory, and a good name. |
| `RemotePath.NamedEntryIsOneBelow` | internal/adapters/clouddrive2/client.go:528-539 | An entry given by name is accepted if and only if segment, name and length are good, and lies exactly one segment below the current directory. |
| `RemoteEntries.SegmentLaws` | internal/adapters/clouddrive2/client.go:520 | The segments of a path: none for the root, one more for a name, one less for "..", the same for "." and the empty one. |
| `RemoteEntries.NormalizeIff` | internal/adapters/clouddrive2/client.go:512-525 | A path is accepted if and only if, trimmed, it is absolute, at most 4096 bytes long and free of NUL; its normal form is the path of its segments. |
| `RemoteEntries.AbsoluteEntryIff` | internal/adapters/clouddrive2/client.go:528-554 | An entry with an absolute path is accepted if and only if the path has no NUL and at most 4096 bytes, its segments extend those of the root, it is not the current directory, and its name is good; its path is then that of its segments. |
| `RemoteEntries.ListedIff` | internal/adapters/clouddrive2/client.go:527-554 | Exactly the entries that may be are accepted, absolute or by name, each with its path and its name. |
| `RemoteEntries.AnswerIff` | internal/adapters/clouddrive2/client.go:474-488 | The answers are exactly the entries of the reachable directories that may be listed, are not forbidden, and whose lower-cased name includes the lower-cased text. |
| `RemoteEntries.ChildIff` | internal/adapters/clouddrive2/client.go:489-499 | One directory leads to another exactly if one of its entries that may be listed is a directory under that path. |
| `RemoteGraph.EntryHasPath` | internal/adapters/clouddrive2/client.go:563-566 | Accepted entries are told apart by their path. |
| `DirectoryWalk.ListDirectoryRaw` | internal/adapters/clouddrive2/client.go:330-367 | All items of the stream unless there are too many, in which case exactly the allowed number has been scanned; the error cases exactly. |
| `DirectoryWalk.ReachedEarly` | internal/adapters/clouddrive2/client.go:457-500 | A directory no further away than the head of the queue is already queued, at no more than its distance. |
| `DirectoryWalk.DepthsAreDistances` | internal/adapters/clouddrive2/client.go:499 | Every queued depth is the length of a shortest chain of listings. |
| `DirectoryWalk.NewIsOneFurther` | internal/adapters/clouddrive2/client.go:492-499 | A directory first seen from the head is exactly one step further away. |
| `DirectoryWalk.QueueIsReachable` | internal/adapters/clouddrive2/client.go:457-502 | When the queue is used up it holds exactly the reachable directories. |
| `DirectoryWalk.NoteMatch` | internal/adapters/clouddrive2/client.go:479-488 | A match becomes a result if and only if its key is new; the limit ends the search exactly when it is reached. |
| `DirectoryWalk.VisitDirectory` | internal/adapters/clouddrive2/client.go:489-499 | A directory is queued once; refused only at distance 33 or as the 2,001st reachable one. |
| `DirectoryWalk.ProcessEntries` | internal/adapters/clouddrive2/client.go:474-501 | The loop over one listing keeps everything the walk relies on. |
| `DirectoryWalk.MatchingStep` | internal/adapters/clouddrive2/client.go:474-488 | One more entry of a listing adds itself to the results if and only if it matches and its path is new. |
| `DirectoryWalk.SearchFilesByWalking` | internal/adapters/clouddrive2/client.go:438-503 | Results are the first matches for each path over the listings in queue order, cut off only at the limit; every result is an entry that the reachable directories list under an acceptable path and a matching name, and unless the limit is reached every such entry is found; every error is justified and carries no results; directories, depths and entries stay within the budgets; the walk ends. |
| `DirectoryWalk.CompleteMeansWithin` | internal/adapters/clouddrive2/client.go:495-497 | A complete answer means that every reachable directory was read, none is at distance 33, and there are at most 2,000. |
| `DirectoryWalk.AnswersAreContained` | internal/adapters/clouddrive2/client.go:475-478 | No result lies outside the root, whatever the server lists. |
| `LocalAuth.Store.constructor` | internal/localauth/auth.go:101-141 | A new store has the credential, generation 1 and no session. |
| `LocalAuth.Store.PruneExpired` | internal/localauth/auth.go:299-305 | Exactly the expired sessions are removed. |
| `LocalAuth.Store.Oldest` | internal/localauth/auth.go:309-318 | A session that none expires before. |
| `LocalAuth.Store.EvictSessions` | internal/localauth/auth.go:307-321 | Sessions that expire first go first, until there is exactly room for one more. |
| `LocalAuth.Store.Admit` | internal/localauth/auth.go:179-195 | The second half of a login: let in if and only if the generation is still that of the snapshot; then pruned, evicted and added. |
| `LocalAuth.Store.Login` | internal/localauth/auth.go:166-195 | Without interference a login succeeds exactly with the stored name and password and a random token, and returns the name, flag and expiry of the new session; a refusal changes nothing. |
| `LocalAuth.Store.ValidateSession` | internal/localauth/auth.go:199-232 | Valid exactly if stored, unexpired and under the current name, and then with the current name and flag and the expiry of the session; only an expired session is removed. |
| `LocalAuth.Store.Replace` | internal/localauth/auth.go:253-269 | The second half of an update: it succeeds exactly under a live session and if it can be saved, and then exactly the new name and password are accepted and no session is left; otherwise the account is unchanged and at most the expired session gone. |
| `LocalAuth.Store.RevokeSession` | internal/localauth/auth.go:274-284 | Exactly the one session goes. |
| `LocalAuth.Store.RevokeAllSessions` | internal/localauth/auth.go:287-291 | Every session goes. |
| `AuthProtocol.NextKeeps` | internal/localauth/auth.go:166-321 | Every step of interleaved logins, updates and logouts keeps the invariant. |
| `AuthProtocol.RunKeepsWorldOk` | internal/localauth/auth.go:166-321 | The invariant holds in every state of every run. |
| `AuthProtocol.AcceptedIff` | internal/localauth/auth.go:181-183 | A login is let in if and only if the number of updates since its snapshot is a multiple of 2^64. |
| `AuthProtocol.NoStaleLogin` | internal/localauth/auth.go:181-183 | Below 2^64 updates no login with a snapshot older than an update gets a session. |
| `AuthProtocol.StaleLoginAfterWrap` | internal/localauth/auth.go:267 | With 2^64 updates one does: the run is constructed. |
| `AuthProtocol.SessionsAreCurrent` | internal/localauth/auth.go:188-189 | Every session was issued after the latest update and (below 2^64 updates) carries the current name; never more than the maximum. |
| `AuthProtocol.OneUpdatePerToken` | internal/localauth/auth.go:255-268 | No token supports two successful updates. |
| `AuthProtocol.DeadTokensStayDead` | internal/localauth/auth.go:274-291 | A token that was issued and stopped working never works again. |
| `AuthSessions.LoginAfterUpdate` | internal/localauth/auth.go:237-269 | After a successful update, and until the next one, a login passes its check if and only if it gives the new name and the new password. |
| `AuthSessions.LoginLeadsToSession` | internal/localauth/auth.go:166-195 | A login that passed its check, with no update meanwhile, ends with a session that is accepted exactly until its time is up. |
| `AuthSessions.SessionLasts` | internal/localauth/auth.go:199-321 | A session is accepted until its time is up unless an update, a logout, its removal after expiry or an eviction for want of room ends it. |
| `StableSort.SortIsStable` | apps/client/download_handlers.go:198 | Sorting keeps the elements, orders them, and keeps alike ones in their order. |
| `StableSort.BeforeIff` | apps/client/download_handlers.go:198 | Names are ordered by their first difference, a proper prefix coming first. |
| `SearchGroups.ClientMediaFolderCandidates` | apps/client/download_handlers.go:212-236 | The first real folder for every key, sorted by key length. |
| `SearchGroups.CandidateKeys` | apps/client/download_handlers.go:212-236 | Keys are distinct and not empty, longer ones first, and none is lost. |
| `SearchGroups.VirtualFileGoesToLongest` | apps/client/download_handlers.go:246-252 | A file in a virtual folder goes to the one folder with the longest key its own key starts with; if there is none, no key is a prefix. |
| `SearchGroups.AddItem` | apps/client/download_handlers.go:173-195 | One round of the loop: the groups of one more item. |
| `SearchGroups.GroupGrows` | apps/client/download_handlers.go:182-194 | A media file changes the group it belongs to, by joining it, and no other group. |
| `SearchGroups.SortFiles` | apps/client/download_handlers.go:196-202 | The files of every group are sorted in place. |
| `SearchGroups.Compact` | apps/client/download_handlers.go:203-209 | The groups with files move to the front of the same array, in order. |
| `SearchGroups.BuildClientSearchGroups` | apps/client/download_handlers.go:165-210 | The loops compute exactly the declared groups. |
| `SearchGroups.MediaIsConserved` | apps/client/download_handlers.go:165-210 | The visible groups hold exactly the multiset of media files of the input. |
| `SearchGroups.GroupsAreSound` | apps/client/download_handlers.go:182-202 | A visible group is not empty; its files are sorted stably; count, total and title are its own; its primary file is the first of the largest. |
| `SearchGroups.TotalIsTrueIff` | apps/client/download_handlers.go:187 | The total of a visible group is the sum of its file sizes if and only if that sum fits in an int64. |
| `SearchGroups.TotalCanWrap` | apps/client/download_handlers.go:187 | Two files whose group reports a negative total. |
| `SearchGroups.IdsAreInOrder` | apps/client/download_handlers.go:173-180 | The visible ids are distinct and in the order of first mention. |
| `SearchFolders.LookupIsFirst` | apps/client/download_handlers.go:212-236 | A key is known if and only if a real folder has it, and looking it up gives the id and the title of the first such folder. |
| `SearchFolders.OwnTitleDecides` | apps/client/download_handlers.go:239-245 | A folder, or a file outside the virtual folders, whose title has the key of a real folder belongs to the first such folder. |
| `SearchFolders.PrefixDecides` | apps/client/download_handlers.go:246-252 | A result in a virtual folder goes to the real folder with the longest key that starts the key of its file name. |
| `SearchFolders.CountingTitleDecides` | apps/client/download_handlers.go:253-259 | Without such a key its inferred title decides in the same way. |
| `SearchFolders.NoFolderDecides` | apps/client/download_handlers.go:260-272 | Without a folder a result stays in its own group, or in one inferred from its title if that has no id or is virtual; without any title it stands under its path, or else its name. |
| `SearchFolders.ExactlyTheMedia` | apps/client/download_handlers.go:182-184 | Every file that counts as media is in the visible groups as often as in the results, and nothing else is. |
| `SearchFolders.MediaFileIsInItsGroup` | apps/client/download_handlers.go:173-195 | Every media file is in the visible group that is decided for it, and in no other. |
| `SearchFolders.GroupReads` | apps/client/download_handlers.go:174-194 | A visible group has the title given to the first of its results, and the first quality label its files give under it. |

## Left out

- LicenseClient.ClientStore.constructor: takes a saved state that could be decoded and decrypted; Open refuses others.
- LicensingStore.Store.Load: takes records that could be decoded; load refuses other file contents and versions.
- The local-copy path (`StartDownload`, `runDownload`, `copyDir`): it bypasses slots and reservations, so runs that
  contain it are outside the no-overwrite and history-bound claims.
- `taskSnapshot`, `Tasks`, `Task`, `ListLicenses`, `GetLicense` and other read-only listings: copies of the state.
- Descriptive fields that no decision depends on (names, paths and times of a download record, code prefixes and
  suffixes, the customer name in replies, size texts).
- Parsing of Authorization headers, URLs, addresses, JSON and configuration; redirects, timeouts and header filters.
- AES-GCM, HMAC, PBKDF2 and base64 themselves.
- `searchFilesNative`, `searchableCloudRoots` and `mergeCloudRootResults`: collecting a stream up to a limit and
  removing repeated paths, which the walk does as well.
- `VerifyCredentials`: the two halves of a login without the session.
- Concurrency inside `ValidateSession`: removing an expired session is a step of its own in `AuthProtocol`, and one
  section in `LocalAuth.Store`.
- Nil records in a decoded licensing file, and file versions: every key has a record.
- File permissions, symbolic links, case-insensitive file systems and users deleting files.
- The settings stores, the login-failure limiter, HTTP handlers and the other service clients.
