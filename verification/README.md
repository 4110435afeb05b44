# config-sync

A model of config-sync, which keeps configuration files of several devices in step through one
object store that need not be trusted and offers nothing but listing, reading and conditional puts.

Each device scans its managed files into a manifest with one vector clock per path, seals and
uploads what is new, fetches the store's manifest, classifies every path by its clocks, pulls,
deletes or resolves, and pushes a merged manifest by compare-and-swap, at most three times.

The project has these layers, each in its own modules:

- Values: `Clocks` and `VectorClocks`, `Manifests`, `Conflicts` (the comparison of clocks and the
  choice of a winner), `Diffs`, `Sealing` (the envelope with ideal cryptography).
- What one sync does to one path (`Paths`), whose version that keeps (`Settlements`), what it does to a whole
  device (`Replicas`, `SyncModel`), and how far a running sync has come (`Progress`). These functions are the specification the next two share.
- `Engine`: the sync as the source runs it, loops updating manifest, disk and store in place, against a
  store (`Stores`) that other clients write to between any two operations. The schedule of those
  writes is arbitrary, so what is proved holds under every interleaving.
- `Protocol`, `ProtocolInvariant`, `ProtocolSteps`, `ProtocolTheorems`: any number of devices as a step
  system, an inductive invariant over it, and what follows for every run. `Convergence`: devices
  that sync in turn; `QuietSyncs` and `QuietSteps`: an undisturbed sync of the step system exists, and by whatever
  steps it goes it is the specified one; `EngineAndProtocol`: so is the engine's; `ConvergenceOfRuns`: convergence
  by steps, from every state a run reaches; `UnseenUpdates`: runs that show what clocks do not promise.
- `StoreNames`, `LocalFs`, `LocalFsRace`: the store on a local directory, as a refinement of the atomic
  one, and as a race between unlocked readers and locked writers that may crash.
- `Varints`, `Envelope`, `AadCodec`, `LittleEndian`, `Frames`, `WebDavKeys`, `Utf8`, `PathExpansion`: the
  handwritten codecs. UTF-8 is section 3 of RFC 3629, LEB128 section 7.6 of DWARF 5, percent
  encoding section 2.1 of RFC 3986.

## Assumptions

- SHA-256 is injective: a content digest is the content, and a header digest is a number. Each seal
  draws a header id not drawn before.
- Opening undoes sealing, the AEAD accepts only what was sealed with the same header and associated
  data, a signature verifies what was signed. Where codecs are concerned (`Envelope`, `Frames`) these are
  laws of a record of functions, not axioms.
- The state of a device that outlives a sync is its disk and its cached manifest. After an error the cache is
  not saved and disk writes stay; after an abort it is saved.
- Logical paths and disk paths are distinct, nobody edits the managed files during a sync, removing a
  file succeeds, and the steps of `Protocol` keep counters below the largest 64-bit value.

## Where the code is weaker than its comments

The model follows the code. The lemmas named here state each point.

- `crates/cs-sync/src/conflict.rs:6` promises a total order. The mass of a clock is cut to 128 bits, and three
  ordinary device names make a cycle (`CompareIsNotATotalOrder`). `CompareIsTransitiveIff` says exactly on which
  sets of clocks it is an order; `CompareAgreesWithMassIff` exactly when it is the order of the cut masses.
- Sealing has no size cap, opening has one: a file of more than 256 MiB less 40 bytes is pushed and
  then refused by every pull (`EveryEntryOpensIff`, `SealedOpensIff`).
- On a retry a conflict keeps the local version unmerged, so a push is strictly monotone only on its
  first attempt (`RetryAdvancesIff`, `FirstAttemptsAreStrict`). The aggregate clock is not merged again on
  a retry either.
- The aggregate clock need not cover a version that a conflict produced: `AggregateCoversIff` is the exact condition,
  `ConflictOutrunsAggregate` a run.
- A new file may be pushed over a remote version its device never held: `NewFileHidesRemoteIff` is the exact
  condition, `UnseenUpdateIsReplaced` a run. `NoLostUpdates` speaks of manifests and clocks only.
- The merge of an unmanaged path compares blob and deletion only, so of two tombstones of one blob it pushes the
  remote one even where it is the older (`MergeUnmanagedKeepsTheWinner` has the exact condition, `OlderTombstoneIsKept` the case).
- "Keep both" writes the `.remote` copy only under the Manual policy (`RemoteCopyIff`).
- The refusal of a manifest without a listed etag fires in an honest race on the very first push
  (`NoEtagRefusalIff`).
- `crates/cs-sync/src/engine.rs:648` is unreachable: the third refusal returns the storage error (`PushLoop`).
- The header parser and the URL decoder accept more than the encoders produce (`ParsedIsPostcardIff`,
  `SignedEscapeIsAccepted`, `DecodingIsUndoneIff`).
- A crash between the two writes of a put can wedge an object of the local store or lose an update
  (`CrashCanWedge`, `CrashCanLoseAnUpdate`). `SomeGuardPassesIff` and `LosesAnUpdateIff` say exactly when.

## Model

| member | source | states |
|---|---|---|
| ProtocolTheorems.RunInvariant | crates/cs-sync/src/engine.rs:263-649 | In every state of every run of any number of devices (scan, upload of each blob, list, get, apply of each path, put, save, crash anywhere, edits between syncs) the whole invariant of store, caches and running syncs holds. |
| ProtocolTheorems.StepKeeps | crates/cs-sync/src/engine.rs:263-649 | Every one of the thirteen kinds of step keeps that invariant. |
| ProtocolTheorems.NoLostUpdates | crates/cs-sync/src/engine.rs:538-646 | The successful manifest puts form one chain from the empty manifest: each replaced exactly the manifest its attempt had fetched and merged, kept every path and resolution record, moved no entry back in causal order and raised the version; the stored object is the last of them. |
| ProtocolTheorems.NothingIsForgotten | crates/cs-sync/src/engine.rs:150-202 | Between any two pushes, however far apart, every path stays, no resolution record gets older, and versions strictly rise. |
| ProtocolTheorems.FirstAttemptsAreStrict | crates/cs-sync/src/engine.rs:378-536 | A push made on the first attempt leaves each managed path unchanged or strictly later than the manifest it replaced, and its aggregate clock covers the replaced one. |
| ProtocolTheorems.EveryEntryOpensIff | crates/cs-sync/src/engine.rs:208-251 | In every reachable state every entry of the store manifest, tombstones included, fetches, authenticates and opens to content of the recorded size and hash, exactly when the content is at most 256 MiB less 40 bytes. |
| ProtocolTheorems.HonestPullSucceedsIff | crates/cs-sync/src/engine.rs:334-373 | The same for every entry of a manifest a running sync has fetched, whatever other devices did since: the pull yields content of the recorded hash and size exactly within that bound, and fails exactly beyond it. |
| ProtocolTheorems.OneBlobOneEntry | crates/cs-sync/src/engine.rs:679-730 | Across all pushes, caches and running syncs two live entries with one blob id are the same entry of the same path; a tombstone with that blob id is strictly later. |
| ProtocolTheorems.NoFalseAlarm | crates/cs-sync/src/engine.rs:107-134 | A fetch in an honest run is never refused as a rollback, a lost manifest or a foreign object; only size, a missing etag or the two time windows can refuse it. |
| ProtocolTheorems.NoEtagMeansFirstPushRace | crates/cs-sync/src/engine.rs:107-112 | In a run, the refusal of a listing without an etag occurs exactly when the listing preceded the first push; it is no proof of a hostile store. |
| ProtocolTheorems.CachesAreBehind | crates/cs-sync/src/engine.rs:274-326 | Every cached version is at most the version of the store, and a cache with entries implies a pushed manifest. |
| ProtocolTheorems.RefusedPutMeansAnotherSucceeded | crates/cs-sync/src/engine.rs:538-647 | A refused manifest put implies that the history has grown beyond the pushes this attempt listed, by pushes of other devices only; a sync that runs out of attempts has lost to three. |
| ProtocolTheorems.SavedCacheAgreesWithDisk | crates/cs-cli/src/commands.rs:171-202 | Whenever the cache is saved, after a completed or an aborted sync, each managed path agrees: a live entry's file has its content, otherwise there is no file. |
| ProtocolTheorems.RunningSyncAgreesWithDisk | crates/cs-sync/src/engine.rs:327-607 | The manifest in memory and the disk agree on every managed path at every moment of a running sync. |
| Engine.Engine.Sync | crates/cs-sync/src/engine.rs:263-649 | The imperative sync against a store that other clients write to between any two operations. A completed sync is the specified one over the manifests its attempts fetched, none of them older than the cached one; its last put replaced exactly the last of them; its report lists exactly what was pulled, pushed and resolved; every blob it names was named before or uploaded by it; an error or an abort puts no manifest; each refused put is a foreign push, and it is tried again up to three times unless fetching fails. Without other clients none is refused, and, where no id on the tape is one the stored manifest names, the sync succeeds exactly when `AttemptGoes`: an id for every file to seal, an accepted manifest, content for every pull, and for every conflict up to the first stop an answer, its content and an id if it seals. |
| Engine.Engine.PushLoop | crates/cs-sync/src/engine.rs:538-647 | At most three attempts; each later one fetches anew, never below the cached version, and takes over what is newer; the put that succeeds replaced the manifest of its own attempt. It fails only after three refusals or when what a retry lists and reads is not accepted or names content that cannot be read. The statement after the loop is unreachable. |
| Engine.Engine.TryPush | crates/cs-sync/src/engine.rs:608-646 | One attempt: success replaces exactly the fetched manifest, failure leaves device and store writes unchanged and implies a foreign push since the listing. |
| Engine.Engine.Rebase | crates/cs-sync/src/engine.rs:541-607 | A retry fetches a manifest under the same rollback floor, pins it with its listed etag and re-applies it. |
| Engine.Engine.FirstAttempt | crates/cs-sync/src/engine.rs:263-536 | Everything before the first put: scan, upload, fetch, apply, aggregate clock. Without other clients it succeeds exactly when `AttemptGoes`. After a completion the state is the specified one and the report lists everything; after an abort the resolver stopped at the first conflict that stops, and all pulls and everything before that conflict, and nothing else, are done and reported. |
| Engine.Engine.ScanFile | crates/cs-sync/src/engine.rs:658-732 | One managed file: unchanged, sealed with its content, size and time under the next version, a bumped clock and the next id of the tape, or turned into a tombstone; it fails exactly when it is to be sealed and no id is left. What the entry says is in `Settlements.ScanAllDescribes`. |
| Engine.Engine.ScanLocal | crates/cs-sync/src/engine.rs:654-734 | The scan of all managed files changes exactly what the per-path specification says and stages exactly the new and changed files, one id each; it fails exactly when there are more of them than ids. |
| Engine.Engine.Upload | crates/cs-sync/src/engine.rs:279-299 | Every staged blob pair is put, sealed for its path; the manifest is unchanged by recording the entries again. |
| Engine.Engine.FetchRemoteManifest | crates/cs-sync/src/engine.rs:79-140 | Lists, then reads: the answer is the specified one for the etag of the listing and the bytes of the later read; `Stores.AcceptedIff` says exactly which are accepted and which refused as a rollback. |
| Engine.Engine.FetchContent | crates/cs-sync/src/engine.rs:208-234 | Whatever the store serves, content that is accepted is the content the entry names. |
| Engine.Engine.VerifyAndWrite | crates/cs-sync/src/engine.rs:238-251 | File and entry change together, and only if the blobs authenticate; otherwise nothing changes. |
| Engine.Engine.FetchPulls | crates/cs-sync/src/engine.rs:334-356 | All blobs of the pulls of managed paths are fetched, in order, before any is applied. |
| Engine.Engine.ApplyPulls | crates/cs-sync/src/engine.rs:361-373 | The fetched pulls are applied, and nothing else. |
| Engine.Engine.SettleConflict | crates/cs-sync/src/engine.rs:392-517 | A conflict ends as its resolution says: stop, deletion, remote content, or local content sealed again; the new state of the path is the specified one (whose, is in `Settlements`) and no other path changes. Without other clients it succeeds exactly when the conflict is answered, the content it reads opens and what it seals has a file and an id. |
| Engine.Engine.Reseal | crates/cs-sync/src/engine.rs:458-508 | A kept local version is sealed from the file on disk under a higher version and the clock of `Settlements.SettledClockCoversBoth`, under every policy; under Manual the remote content is written beside it. |
| Engine.Engine.ApplyRest | crates/cs-sync/src/engine.rs:378-521 | Deletions and conflicts in the order of the diff until a resolver aborts: done paths are in their final state, the others untouched; without other clients it succeeds exactly when every conflict up to the first stop can be settled. |
| Engine.Engine.Apply | crates/cs-sync/src/engine.rs:327-528 | The whole first diff: the replica is the one the per-path specification gives, and no path failed; or it stopped at the first conflict whose resolver aborts, with exactly the pulls and the operations before it done and listed. |
| Engine.Engine.Retry | crates/cs-sync/src/engine.rs:565-604 | A retry applies pulls and deletions and leaves every other path as it is. |
| Engine.Engine.PushManifest | crates/cs-sync/src/engine.rs:610-646 | The outgoing manifest is the local one merged with unmanaged remote entries, numbered above both; the guard is the listed etag or "absent"; on success the local version follows. |
| Engine.LocalManifest.MergeUnmanagedEntries | crates/cs-sync/src/engine.rs:150-202 | The in-place merge equals the per-path merge of unmanaged entries and of records; which side that keeps is in `Replicas.OutgoingIsTheWinner`. |
| Engine.LocalManifest.MergeRecords | crates/cs-sync/src/engine.rs:157-168 | Of two resolution records of a path the newer one is kept, whole; of two equally old ones the local one. |
| Engine.Engine.CompletedIsSound | crates/cs-sync/src/engine.rs:523-646 | After a completed sync, given pedigreed inputs, disk and manifest agree and the push is monotone over what it replaced. |
| Engine.Engine.AbortedStillAgrees | crates/cs-sync/src/engine.rs:416-421 | Wherever a resolver aborts, disk and manifest agree on every managed path. |
| Engine.Engine.ReportIsTrue | crates/cs-sync/src/engine.rs:303-528 | The lists of a completed sync's report, told from the entries before and after: pulled are exactly the paths that ended with the remote's live entry and did not have it, resolved those on which neither side was later, pushed those sealed by the scan and those whose conflict ended with something new. |
| Stores.AcceptedIff | crates/cs-sync/src/engine.rs:79-140 | A fetch is accepted exactly when it brings a listed, fresh frame of at most 64 MiB that is not older than the last version seen, or when there is none and neither an earlier attempt nor the cache says there was. The refusals as a rollback, as vanished and as forgotten history fire exactly in their cases. |
| Progress.AppliedAll | crates/cs-sync/src/engine.rs:378-521 | When every path has been handled the replica is the specified one, in whatever order they were handled. |
| Progress.PartWayAgrees | crates/cs-sync/src/engine.rs:403-525 | At every point of the first diff disk and manifest agree. |
| Progress.GuardPinsTheManifest | crates/cs-sync/src/engine.rs:87-140 | Because the etag is listed before the bytes are read, a put that passes its guard replaces the manifest that was read. |
| Progress.RefusalMeansAPush | crates/cs-sync/src/engine.rs:633-645 | A guard that fails means the manifest counter has grown since the listing. |
| Progress.NoEtagRefusalIff | crates/cs-sync/src/engine.rs:107-112 | The missing-etag refusal fires exactly when the first push falls between listing and read. |
| Progress.UnreadableAlone | crates/cs-sync/src/engine.rs:208-234 | On a store that others leave alone, an entry is unreadable at two instants exactly when it cannot be fetched. |
| SyncModel.SyncOverIsSound | crates/cs-sync/src/engine.rs:263-649 | A sync with any number of retries leaves disk and manifest in agreement and pushes monotonically over the last manifest it fetched. |
| SyncModel.QuietSyncAdvances | crates/cs-sync/src/engine.rs:327-521 | An uncontended sync leaves a path agreeing with its disk, in the store as on the device, and unchanged or strictly later than before. |
| SyncModel.QuietSyncCatchesUp | crates/cs-sync/src/engine.rs:327-397 | A device whose version is the store's or older ends with exactly the store's entry and leaves it as it was. |
| SyncModel.RebasedKeeps | crates/cs-sync/src/engine.rs:565-604 | Any number of retries keeps agreement and absorbs each manifest fetched. |
| Convergence.TwoRoundsConverge | crates/cs-sync/src/engine.rs:263-649 | Any number of devices that manage a path, with any caches, disks, policies and resolvers that answer, sync one after another; after a second round all hold the identical entry, it is the store's, and their disks have identical content. |
| Convergence.FirstRound | crates/cs-sync/src/engine.rs:327-521 | After the first round each device agrees with its disk and the store has its version or a later one; every version still has a pedigree. |
| Convergence.SecondRound | crates/cs-sync/src/engine.rs:327-397 | In the second round the store's entry stays and every device takes it over. |
| Convergence.SecondSyncIsIdle | crates/cs-sync/src/engine.rs:654-734 | A sync right after a completed one stages nothing, finds every managed path in sync, changes no entry, record or file, and pushes the same content under the next version. |
| Convergence.OutgoingTwice | crates/cs-sync/src/engine.rs:150-202 | Merging unmanaged entries and records again over what was just pushed changes nothing. |
| QuietSyncs.QuietSyncRuns | crates/cs-sync/src/engine.rs:263-649 | A device at rest that nobody disturbs can carry out its sync step by step, from the scan to the saved cache, and ends exactly where the specification says: cache, disk, copies, the push and its base; every file on the way is as before or as after, and the other devices stand still. |
| QuietSteps.UndisturbedSyncIsSpecified | crates/cs-sync/src/engine.rs:263-649 | The universal half: whatever steps an undisturbed sync takes, its uploads and paths in any order, whatever ids it draws on the way and whatever the size of its put, if it is at rest again after a push it has left cache, disk, copies, history and stored manifest exactly as the specification says for those ids, which were fresh. |
| EngineAndProtocol.StepsEndLikeTheEngine | crates/cs-sync/src/engine.rs:263-649 | If such steps draw the ids a completed sync of the imperative engine drew over the same stored manifest, and the engine was refused no put, both end with the same cache, disk, copies and stored manifest. |
| EngineAndProtocol.EngineSyncIsARun | crates/cs-sync/src/engine.rs:263-649 | And wherever the device is ready there are such steps: the engine's sync is a run of the step system. |
| EngineAndProtocol.ReadyDeviceSucceeds | crates/cs-sync/src/engine.rs:263-649 | Wherever the step system's device is ready, the engine's first attempt goes through, with ids enough for what it scans and seals: the manifest is accepted, everything it reads opens, and no resolver stops it. |
| ConvergenceOfRuns.NextSyncRuns | crates/cs-sync/src/engine.rs:263-649 | Wherever the next device is ready, the run can be continued by an undisturbed sync to a push: the rounds below exist. |
| ConvergenceOfRuns.RoundIsRound | crates/cs-sync/src/engine.rs:263-649 | Devices that sync in turn in a run, each undisturbed and to a push, by whatever steps in whatever order, go through exactly the states of the specified round, for the ids those steps drew. |
| ConvergenceOfRuns.ReachedStatesConverge | crates/cs-sync/src/engine.rs:263-649 | From any state of any run, however contended its past: whenever devices that manage a path sync in turn, each undisturbed and to a push, by whatever steps, and then once more, every cache holds the store's entry for the path and the disks the same content. Nothing is assumed of the reached state, of the ids drawn or of the end of a sync: room in the counters, fresh ids and answers of the resolver follow from the steps. |
| UnseenUpdates.UnseenUpdateIsReplaced | crates/cs-sync/src/engine.rs:704-706 | For any two devices, path and contents there is a run, without contention, in which a first-attempt push of a managed path replaces content its device never held, under a later clock and without a conflict record. |
| UnseenUpdates.ConflictOutrunsAggregate | crates/cs-sync/src/engine.rs:532-535 | For any two devices, path and contents there is a run in which a push carries an entry ahead of its own aggregate clock. |
| ConvergenceOfRuns.ReachedStatesHavePedigrees | crates/cs-sync/src/local_io.rs:23-56 | In every reachable state every version of a path, in a cache or in the store, is the one its blob was sealed with or a later tombstone of it. |
| Paths.ScanMakesAgree | crates/cs-sync/src/engine.rs:679-731 | After a scan entry and file agree; where they agreed already nothing changes and nothing is sealed. |
| Paths.ScanMovesOn | crates/cs-sync/src/engine.rs:680-730 | A scan that changes an entry gives it a strictly later clock and either the file's content under a higher version or the same blob marked deleted. |
| Paths.ScanDescribesTheFile | crates/cs-sync/src/engine.rs:679-730 | A sealed scan entry has the file's content, size and time and the drawn id; it starts at version 1 from the aggregate clock or goes on from its entry, with exactly this device's counter moved. |
| Paths.ScanIsKnown | crates/cs-sync/src/engine.rs:679-731 | Scanning keeps the pedigree of entries, tombstones included. |
| Paths.BlobIdentity | crates/cs-sync/src/local_io.rs:23-56 | Entries with a pedigree and one blob id: same path; equal if both live; the tombstone strictly later otherwise. |
| Paths.BlobTestIsRight | crates/cs-sync/src/engine.rs:444-458 | For a live winner of a conflict the comparison of blob ids holds exactly when the remote side was chosen. |
| Paths.BlobTestCanBeWrong | crates/cs-sync/src/engine.rs:444-458 | Without a pedigree the comparison can mistake the local side for the remote one. |
| Paths.ApplyIsKnown | crates/cs-sync/src/engine.rs:378-517 | Applying an operation keeps pedigrees. |
| Paths.ApplyKeepsAgreement | crates/cs-sync/src/engine.rs:358-517 | Applying an operation keeps disk and manifest in agreement, and only the resolver can make it stop or fail. |
| Paths.ApplyAdvances | crates/cs-sync/src/engine.rs:426-515 | On the first attempt the new entry is never behind the remote one, and strictly after it unless the device's counter is saturated. |
| Paths.RetryKeepsAgreement | crates/cs-sync/src/engine.rs:566-604 | So does re-applying on a retry. |
| Paths.RetryAbsorbs | crates/cs-sync/src/engine.rs:566-604 | On a retry the kept entry is never causally behind the remote one. |
| Paths.RetryAdvancesIff | crates/cs-sync/src/engine.rs:593-602 | On a retry the entry is unchanged or strictly later exactly where there is no conflict: conflicts keep the local version unmerged. |
| Paths.RemoteCopyIff | crates/cs-sync/src/engine.rs:459-490 | The `.remote` copy is written exactly under the Manual policy with a live local version of another blob; the answer "keep both" under Prompt does not write it. |
| Paths.ConflictIsRecorded | crates/cs-sync/src/engine.rs:432-440 | A settled conflict leaves a record of winner and loser at the device's version. |
| Settlements.LatestWinsKeepsTheWinner | crates/cs-sync/src/conflict.rs:97-143 | Under LatestWins a conflict ends, on disk and in the manifest, with the content or deletion of the side the other loses to, by clocks, then time, then blob; the record names that side's blob, the other's as superseded, and that side's clock. |
| Settlements.BothSidesKeepTheSame | crates/cs-sync/src/conflict.rs:97-121 | The device that holds the other side and meets the same conflict ends with the same content or deletion and records the same blob. |
| Settlements.AnswerIsObeyed | crates/cs-sync/src/conflict.rs:122-143 | Under Prompt the answer is obeyed: keep local or both leaves a live local file untouched and seals it again, keep remote takes over the remote's entry and content, abort stops, an error or a missing resolver fails; the copy is left alone. |
| Settlements.ManualKeepsBoth | crates/cs-sync/src/engine.rs:459-510 | Under Manual the local version stays and a live one gets the remote's content beside it; the record carries the merged clock. |
| Settlements.SettledClockCoversBoth | crates/cs-sync/src/engine.rs:426-508 | Under every policy a conflict ends with the remote's live entry as it is, or with a tombstone or sealed entry whose every counter is the larger of the two sides', this device's own one more; strictly after both sides while that counter has room. |
| Settlements.SyncEndsWell | crates/cs-sync/src/engine.rs:263-649 | In every uncontended sync that runs through each managed path ends, on the device and in the pushed manifest, with the remote's version if the device has none or an older one, its own if the store has none, the same or an older one, and otherwise with what the policy promises, noted at the version the device had and under a covering clock. |
| Settlements.SyncLeavesOthers | crates/cs-sync/src/engine.rs:150-202 | A path the device does not manage stays as it was on the device, and is pushed as the winner of the two sides. |
| Settlements.ScanAllDescribes | crates/cs-sync/src/engine.rs:654-734 | What a scan writes down of each managed path: nothing where entry and file agreed; the file's content, size and time under the drawn id where it is new or changed, at version 1 from the aggregate clock or one up from its entry; a deletion where it is gone; exactly this device's counter moves, by one. |
| Settlements.RetryTakesOrKeeps | crates/cs-sync/src/engine.rs:565-604 | On a retry the remote's version is taken over exactly where it is newer, and everywhere else, conflicts included, the own one stays. |
| Paths.NewFileHidesRemoteIff | crates/cs-sync/src/engine.rs:704-706 | A new file is pushed over a remote version without a conflict exactly when the remote clock is causally before the bumped aggregate. |
| Paths.CatchUp | crates/cs-sync/src/diff.rs:57-68 | A device that is not ahead takes over exactly the remote entry. |
| Paths.MergeUnmanagedAbsorbs | crates/cs-sync/src/engine.rs:169-201 | Merging an unmanaged path never moves it back in causal order. |
| Paths.MergeUnmanagedKeepsTheWinner | crates/cs-sync/src/engine.rs:173-198 | Of two versions of an unmanaged path the merge keeps the winner's blob and state, the same blob in either order; the entry itself loses to neither side exactly when the remote one is not an older twin of the local one. |
| Paths.OnlyTombstonesHaveOlderTwins | crates/cs-sync/src/engine.rs:192-195 | With pedigrees only two tombstones of one blob are such twins. |
| Paths.OlderTombstoneIsKept | crates/cs-sync/src/engine.rs:192-195 | Then the older tombstone is the one pushed. |
| Paths.MergeRecordKeepsTheNewer | crates/cs-sync/src/engine.rs:157-168 | The merged record is one of the two, the newer one, and the local one of two equally old. |
| Replicas.OutgoingIsMonotone | crates/cs-sync/src/engine.rs:610-621 | The outgoing manifest keeps every path and record of its base, moves nothing back and rises in version. |
| Replicas.OutgoingIsTheWinner | crates/cs-sync/src/engine.rs:610-621 | The outgoing manifest has the device's own entry of a managed path, the winner of the two sides of an unmanaged one, the newer record, the device's name and clock, and the number one above the larger of the two. |
| Replicas.ScanAllAgrees | crates/cs-sync/src/engine.rs:654-734 | After scanning all files every managed path agrees; a second scan is the identity. |
| Replicas.AggregateCoversIff | crates/cs-sync/src/engine.rs:532-535 | The new aggregate clock covers the version a conflict produced exactly when the two aggregates cover both sides on the other devices' counters and both sides are behind it on this device's own. |
| Sealing.AcceptedContentIsTheEntrys | crates/cs-sync/src/engine.rs:208-234 | Accepted blobs are exactly the ones sealed for the path and version, with the content the entry names. |
| Sealing.SealedOpensIff | crates/cs-sync/src/local_io.rs:23-104 | What was sealed opens again exactly when it leaves room for nonce and tag under the blob cap: sealing has no cap. |
| Diffs.Diff | crates/cs-sync/src/diff.rs:27-93 | The loop lists every path of either side once, in path order, each with its operation. |
| Diffs.ClassifyExactly | crates/cs-sync/src/diff.rs:34-90 | Each operation in causal terms, both ways; a conflict is concurrent clocks or equal clocks on different entries. |
| Diffs.ClassifyMirrors | crates/cs-sync/src/diff.rs:34-90 | What one side pulls the other pushes; agreement and conflict are symmetric. |
| Conflicts.ComputeHashDevice | crates/cs-sync/src/conflict.rs:34-40 | The wrapping loop computes the base-131 number of the name modulo 2^128. |
| Conflicts.ComputeMass | crates/cs-sync/src/conflict.rs:24-28 | The wrapping sum computes the mass modulo 2^128. |
| Conflicts.CompareReverses | crates/cs-sync/src/conflict.rs:13-31 | Swapping the clocks reverses the answer; a causally earlier clock ranks lower. |
| Conflicts.LaterIsHeavier | crates/cs-sync/src/conflict.rs:24-28 | A causally later clock has the larger uncut mass. |
| Conflicts.CompareIsMassOrder | crates/cs-sync/src/conflict.rs:13-31 | While masses fit 128 bits the comparison is the comparison of masses. |
| Conflicts.CompareAgreesWithMassIff | crates/cs-sync/src/conflict.rs:13-31 | For all clocks without zeros: it is the comparison of the 128-bit masses exactly when no carry occurs between causally ordered ones. |
| Conflicts.CompareIsTransitiveIff | crates/cs-sync/src/conflict.rs:6-31 | On any set of clocks the comparison is transitive exactly when no clock lies, concurrent with both, between the masses of two causally ordered ones that are the wrong way round. |
| Conflicts.CycleIff | crates/cs-sync/src/conflict.rs:6-31 | A causally ordered pair and a clock concurrent with both go round exactly when the masses say so. |
| Conflicts.CompareIsTransitive | crates/cs-sync/src/conflict.rs:6-31 | Without a carry it is transitive, ties included. |
| Conflicts.NoCarryNoTwist | crates/cs-sync/src/conflict.rs:24-28 | Without a carry between two causally ordered clocks no third one makes them go round. |
| Conflicts.OverflowMakesACycle | crates/cs-sync/src/conflict.rs:6-31 | With a carry it is not a total order: a family of three-clock cycles. |
| Conflicts.CompareIsNotATotalOrder | crates/cs-sync/src/conflict.rs:6-31 | Three ordinary device names that form such a cycle. |
| Conflicts.WinnerIgnoresSides | crates/cs-sync/src/conflict.rs:97-121 | Both devices pick the same blob whichever side is local; the causally later entry wins. |
| Conflicts.FoldWinnerIsGreatest | crates/cs-sync/src/conflict.rs:97-121 | Pairwise resolution of any list yields its greatest element by mass, time and blob id. |
| Conflicts.FoldWinnerIsUnbeaten | crates/cs-sync/src/conflict.rs:97-121 | Where the comparison orders the clocks, pairwise resolution of any list yields an element that no other beats. |
| Conflicts.FoldIgnoresOrder | crates/cs-sync/src/conflict.rs:97-121 | There the winning blob of a set of versions does not depend on order or repetition. |
| Conflicts.FoldIgnoresOrderOfFitting | crates/cs-sync/src/conflict.rs:97-121 | In particular while the masses of all versions fit 128 bits. |
| Conflicts.ThreeVersionsIff | crates/cs-sync/src/conflict.rs:97-121 | For three versions it is independent of the order exactly when they do not go round. |
| Clocks.StrictPartialOrder | crates/cs-manifest/src/clock.rs:38-53 | Happens-before is irreflexive, asymmetric and transitive. |
| Clocks.ExactlyOneRelation | crates/cs-manifest/src/clock.rs:38-57 | On clocks without zeros exactly one of before, after, equal and concurrent holds, and equality is equality of maps. |
| Clocks.MergeIsLeastUpperBound | crates/cs-manifest/src/clock.rs:29-34 | Merge is the least upper bound. |
| Clocks.MergeCommutes | crates/cs-manifest/src/clock.rs:29-34 | Merge is commutative and idempotent. |
| Clocks.MergeAssociates | crates/cs-manifest/src/clock.rs:29-34 | Merge is associative. |
| Clocks.BumpAdvances | crates/cs-manifest/src/clock.rs:22-26 | A bump is strictly later exactly when the counter is not saturated. |
| Clocks.MergeThenBumpDominates | crates/cs-manifest/src/clock.rs:22-34 | Merge then bump is at or after both clocks, and strictly after both exactly when the counter has room or the clocks were concurrent. |
| Clocks.NoZeroIsKept | crates/cs-manifest/src/clock.rs:22-34 | Bump and merge create no zero component. |
| VectorClocks.VectorClock.Bump | crates/cs-manifest/src/clock.rs:22-26 | The in-place bump. |
| VectorClocks.VectorClock.MergeWith | crates/cs-manifest/src/clock.rs:29-34 | The loop over the other clock computes the merge. |
| VectorClocks.VectorClock.HappensBefore | crates/cs-manifest/src/clock.rs:38-53 | The loop with its flag decides happens-before. |
| Stores.MemoryStore.Put | crates/cs-storage/src/memory.rs:72-96 | Succeeds exactly when the guard holds; then one object is replaced and its counter advanced, otherwise nothing changes. |
| Stores.MemoryStore.Delete | crates/cs-storage/src/memory.rs:98-104 | Removes the object or reports "not found". |
| Stores.SharedStore.Put | crates/cs-storage/src/memory.rs:72-96 | A put among arbitrary puts of other clients, decided on the content at its own instant. |
| LocalFs.LocalFs.Put | crates/cs-storage/src/local_fs.rs:299-331 | On the names of objects without empty segments that have their place in the directory tree (neither the object nor its sidecar is a directory, and nothing above them is a file), a put of the two-file store does and answers what the atomic store's put does. |
| LocalFs.LocalFs.Get | crates/cs-storage/src/local_fs.rs:275-285 | On such names the atomic store's answer, up to the 512 MiB read cap. |
| LocalFs.LocalFs.Delete | crates/cs-storage/src/local_fs.rs:333-352 | On such names the atomic store's delete, with its answer. |
| LocalFs.LocalFs.List | crates/cs-storage/src/local_fs.rs:216-273 | The listing of the whole store shows every object with its counter, and nothing else. |
| LocalFs.EngineNamesArePlaceable | crates/cs-sync/src/engine.rs:71-77 | In a store in which only the engine has put, every key of the engine has its place. |
| LocalFs.EngineStoreStays | crates/cs-sync/src/engine.rs:71-77 | A put under a key of the engine leaves such a store. |
| LocalFs.PutKeeps | crates/cs-storage/src/local_fs.rs:299-331 | Object then sidecar keep the two together and are one step of the abstract store. |
| LocalFs.TextGuardIsGuard | crates/cs-storage/src/memory.rs:79-92 | Comparing etags as text decides the same as comparing counters. |
| StoreNames.VerPathAppends | crates/cs-storage/src/local_fs.rs:95-111 | The extension handling appends ".version" to every name. |
| StoreNames.SidecarsAreSkipped | crates/cs-storage/src/local_fs.rs:248-254 | The listing skips every sidecar. |
| StoreNames.EngineNamesAreObjectNames | crates/cs-sync/src/engine.rs:71-77 | Every key the engine uses is accepted, free of empty segments, listed, and no sidecar of another. |
| StoreNames.NameOfIsInjective | crates/cs-sync/src/engine.rs:71-77 | Different keys have different names. |
| LocalFsRace.PutOverwritesWhatWasRead | crates/cs-storage/src/local_fs.rs:299-331 | Unlocked readers, locked writers, any number of clients and crashes outside the two writes: a conditional put that succeeds overwrites exactly what its caller read. |
| LocalFsRace.LosesAnUpdateIff | crates/cs-storage/src/local_fs.rs:299-331 | In any run, torn or not: a conditional put past its check has listed and then read, and no put was completed since the listing. It is about to overwrite what its caller did not read exactly when, since that read, another client wrote, crashed before counting its write, and its write was the last and of other content. |
| LocalFsRace.StepKeeps | crates/cs-storage/src/local_fs.rs:216-331 | Every step of find, read sidecar, read object, lock, check, write object, write sidecar and crash keeps the invariant. |
| LocalFsRace.FilesExistTogether | crates/cs-storage/src/local_fs.rs:299-331 | Outside a put's two writes object and sidecar exist together. |
| LocalFsRace.SomeGuardPassesIff | crates/cs-storage/src/local_fs.rs:314-327 | Some etag passes the check exactly when there is not an object without its sidecar. |
| LocalFsRace.WedgedStays | crates/cs-storage/src/local_fs.rs:311-331 | An object without a sidecar refuses every conditional put until an unconditional one. |
| LocalFsRace.CrashCanWedge | crates/cs-storage/src/local_fs.rs:327-330 | A crash inside the first put leads there. |
| LocalFsRace.CrashCanLoseAnUpdate | crates/cs-storage/src/local_fs.rs:327-330 | A crash inside a later put lets a conditional put overwrite what its caller never read. |
| Varints.ReadVarint | crates/cs-crypto/src/envelope.rs:48-70 | The loop reads the specified number in at most ten bytes, or refuses. |
| Varints.VarintInvertsLeb | crates/cs-crypto/src/envelope.rs:46-70 | It inverts the shortest encoding of every 64-bit length, up to the bound, whatever follows. |
| Varints.CanonicalIff | crates/cs-crypto/src/envelope.rs:46-70 | What is read is what would be printed exactly when the last group is not empty and no bit was shifted out. |
| Varints.OverlongIsAccepted | crates/cs-crypto/src/envelope.rs:46-70 | Two texts of one number are both accepted. |
| Envelope.ParseHeaderBody | crates/cs-crypto/src/envelope.rs:77-106 | All slices are in range, and the result is the specified parse. |
| Envelope.ParseInvertsPostcard | crates/cs-crypto/src/envelope.rs:72-106 | The parser inverts the serializer on exactly the headers within the two length bounds. |
| Envelope.ParsedIsTheWholeBuffer | crates/cs-crypto/src/envelope.rs:72-106 | Whatever parses is bounded by the input and uses it up exactly: the buffer is a length prefix, the ciphertext, a length prefix, the wrapped key and the nonce, with nothing left, and each prefix is a text of its length. |
| Envelope.ParsedIsPostcardIff | crates/cs-crypto/src/envelope.rs:72-106 | A buffer that parses is the serializer's own text exactly when its two prefixes are shortest. |
| Envelope.OpenInvertsSeal | crates/cs-crypto/src/envelope.rs:114-206 | Opening undoes sealing, with the header and body sizes the engine reckons with. |
| AadCodec.EncodingIsPrefixFree | crates/cs-crypto/src/aad.rs:12-21 | Associated data with anything appended can be told apart from any other, which makes it injective with and without the header digest. |
| Frames.FieldsAt | crates/cs-sync/src/local_io.rs:261-309 | The offsets recover every framed part. |
| Frames.FreshnessIff | crates/cs-sync/src/local_io.rs:291-304 | The saturating guards are the plain inequalities over the integers. |
| Frames.OpenInvertsSealIff | crates/cs-sync/src/local_io.rs:215-320 | A sealed manifest opens to itself exactly when its schema is 1, its seal time at most a day ahead, and there is an anchor or it is at most a week old. |
| Frames.AcceptedIsFramed | crates/cs-sync/src/local_io.rs:244-320 | An accepted frame is the framing of its own fields and a valid signature, with no slack. |
| WebDavKeys.Url | crates/cs-storage/src/webdav.rs:57-69 | Splitting, encoding and joining keeps the slashes and encodes every other byte. |
| WebDavKeys.ByteInPath | crates/cs-storage/src/webdav.rs:83-101 | What each byte of a key becomes: a slash and the unreserved characters of RFC 3986 stay, any other is a percent sign and its two capital hex digits. |
| WebDavKeys.PathOfSum | crates/cs-storage/src/webdav.rs:57-69 | And a key's path is that of its parts, in turn, so these bytes are all of it. |
| WebDavKeys.UrlDecode | crates/cs-storage/src/webdav.rs:288-306 | The loop computes the recursive decoding. |
| WebDavKeys.KeysRoundTrip | crates/cs-storage/src/webdav.rs:57-306 | Decoding the path of a key gives the key back, for every key. |
| WebDavKeys.UrlsAreDistinct | crates/cs-storage/src/webdav.rs:57-69 | Different keys have different URLs. |
| WebDavKeys.DecodingIsUndoneIff | crates/cs-storage/src/webdav.rs:83-306 | Encoding what was decoded gives a path back exactly when every escape in it is in capitals and of a byte that needs one. |
| WebDavKeys.SignedEscapeIsAccepted | crates/cs-storage/src/webdav.rs:288-306 | Decoding accepts a plus sign inside an escape. |
| PathExpansion.ExpandUnixVars | crates/cs-config/src/path.rs:41-82 | The scan over bytes equals the token-level expansion and always sits on a character boundary; what that expansion means is in the two rows below. |
| PathExpansion.ExpandedExpands | crates/cs-config/src/path.rs:41-82 | The laws of the expansion over texts alone: `${n}` and `$n` become the variable's value or nothing, the name ending at the first brace or at the first character that is no letter, digit or underscore; an unclosed brace, a lone dollar sign and every other character stay. |
| PathExpansion.ExpansionIsTheOnlyOne | crates/cs-config/src/path.rs:41-82 | No other function keeps these laws: they say what every text expands to. |
| PathExpansion.TildeIsHome | crates/cs-config/src/path.rs:29-35 | A leading tilde is the home directory, once; the rest expands as without it. |
| PathExpansion.TokensSpellTheText | crates/cs-config/src/path.rs:41-82 | The tokens spell the text: no character is dropped or read twice. |
| PathExpansion.NothingToExpand | crates/cs-config/src/path.rs:74-80 | A text without a dollar sign is left alone. |

## Left out

- The cryptographic primitives, key management, key chains, recovery, mnemonics and secret sharing: library code or wrappers around it.
- S3, Google Drive, OneDrive, Proton and the network side of WebDAV: clients of remote services. Network errors and lost answers are a crash of the device in `Protocol`, and do not occur in `Engine`.
- Command line, terminal, TOML configuration and the resolver's user interface: a resolver is an arbitrary function that answers or fails.
- The postcard serialization of manifests: a record of two functions that invert each other. Only the handwritten header parser is modelled byte by byte.
- File permissions, symbolic links, temporary names and fsync: a write of a file is one step, and names are relative to the store's root. The lock only excludes other writers.
- Windows path expansion: only Unix expansion is modelled.
- Listings with a prefix and range reads: the engine lists the whole store and reads whole objects.
- Overflow checks of debug builds: the mass of a clock and the counter of a sidecar wrap as in release builds.
- How the `.remote` copy is named, and a copy or a disk path that is itself a managed path: the model keeps copies apart from files, by logical path.
- Outside edits of managed files while a sync runs, and files that cannot be read or removed.
- Blob upload and fetch in parallel: `Engine` does them one after another, `Protocol` in any order; blobs never change once put.
- Fetching the two blobs of an entry is one step in `Protocol`; in `Engine` other clients may write between the two reads.
- Pulls before deletions and conflicts: `Protocol` applies paths in any order; `Engine` keeps the source's order.
- Deletion of objects: the engine never deletes. A delete restarts the counter at one, so a guard could then match a later object.
- Engine and `Protocol` under contention: `EngineAndProtocol` compares an engine run that was refused no put with an undisturbed sync; for refused puts the two share their per-path functions and each has its own theorems.
- The directory store inside `Protocol`: its steps use the atomic store, and `LocalFsRace` follows one object, whose put it shows atomic short of a crash.
- Engine.Engine.Sync: while other clients write, says of a retry why it failed, but not of the first attempt which of its reads did; without them the condition for success is exact.
- Contention inside the two convergence rounds: `ReachedStatesConverge` starts from any contended past, but its own syncs run one after another; what holds under contention is in `ProtocolTheorems`.
- LocalFs.LocalFs.Put: says nothing about a name that is not an object's name by `ObjectName`, because such a name can be another object's sidecar or another spelling of its path; nothing about a name whose path is a directory or lies below a file; and nothing about the new counter once it has reached the largest 64-bit value.
- Stores.MemoryStore.List: answers for one name; the source lists all names with a prefix, of which the engine looks for one.
- Frames.OpenInvertsSealIff: the round trip is about honest frames; forging is excluded by the laws of the signature only as far as `AcceptedIsFramed` says.
