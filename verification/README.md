# marbor: verified models of its crash-safe and concurrent cores

marbor is a router for local inference engines with an admin server, API keys, agents on the
GPU hosts, and a spill-over to paid cloud providers. In many places it keeps a fast or live
state beside a durable or simple one: a restore that ends the process beside the markers the
next start reads, the live key table beside the key rows, pins beside agents, a pruned
roll-up beside the event history. This project models those places in Dafny and proves that
every interleaving, failure and kill keeps the two consistent, or exactly when it does not.

`dafny verify dfyconfig.toml` checks the whole project.

## Layout

| files | subject |
|---|---|
| `RestoreModel`, `RestoreTruth`, `RestoreRecord`, `RestoreServer`, `RestoreLoss`, `RestoreSwap`, `StagedNames` | restore hand-off, database swap, markers, kills and restarts; how a record is lost; what the swap and giving up leave; names of staged files |
| `ApiKeys`, `KeyServer` | key rows against live authentication |
| `FleetPins`, `FleetServer` | agent TLS pins across nodes that share hosts |
| `PullJobs`, `PullProgress` | model pulls: the job machine and the byte counts |
| `LoginLimiter`, `CloudBudget`, `CounterFlush` | rate limiter, spend caps, persisted counters |
| `Recency`, `BlockHash`, `KvCache`, `SlotAccounting` | the simulated engine: LRU prefix cache, block ids, slots and counters |
| `HourlyRollup` | hourly and per-model analytics |
| `Options`, `Sums` | the optional value and sums over maps, used throughout |

Where the source runs concurrently, the model is a step relation (`Enabled`, `Next`, `IsRun`)
whose steps are the critical sections, atomic operations and file operations, and the theorems
speak about every run. Beside it, a class with the source's fields has the source's methods,
each proved to leave the state where the model's steps lead.

## What turned out to be conditional

The proofs found places where the code does less than its comments say. The code is modelled
as it is; each place has the exact condition or a concrete run.

- A restore that was accepted can vanish: an outcome marker left behind by an earlier restore
  (its status save failed at start) is read first at the next start and the newer pending
  marker is removed with it (`AcceptedRestoreNeverVanishes`, `StaleOutcomeIsReachable`).
- Acceptance of a later restore is not what ends the promise: a restore that was never
  accepted, killed between its marker and the channel send, replaces the saved result of an
  earlier one (`AcceptanceNeverProtects`, `UnacceptedRestoreSupersedes`, with the exact
  condition in `NamesUnacceptedIff`). Its result is made by `synthesizePendingOutcome`, all
  three texts of which call the restore accepted.
- An acknowledgement that reads the old result while the next start is still folding in a new
  one removes the new result from disk (`EarlyAckLosesResult`); one read after the start does
  not, exactly when the start's save worked (`LateAckRemovesItsOwnIff`).
- A failed status save is retried at the next start, but the sweep in between can take the
  evidence: previous database in place turns into undecided (`RetryKeepsAnswerIff`).
- Probe keys are written without the key lock, so a reload can bring one back to life after
  its record is gone (`ProbeKeyOutlivesItsRecord`, with the exact condition in
  `ProbeKeepsDurableIff`); operator keys are not affected.
- A key created with a token another key already holds takes that token over
  (`AddKeepsTokensIff`).
- Revoking a name that has no record reports success and blocks nothing (`RevocationIsFinal`).
- Re-adding a node under its old name carries its pin to the new host unchecked
  (`AddNodeKeepsInvIff`, `AddNodeCanStrandAPin`).
- The bytes of a pull never go back, but the bar can (`BarGoesBackIff`, `BarCanGoBack`),
  although the comment says progress only climbs.
- The counter flush goes on to the token count after a failed counters row, and a start that
  cannot read the row begins at zero (`FlushKeepsOrderIff`, `UnreadRowBreaksOrderIff`).
- The spend cap does not hold for checks that cannot read the store: each can add one cost, and
  no more (`OvershootIsBounded`, `UnreadChecksAllPass`); that they pass is documented.
- A prefix hit need not mean shared words: nothing marks where the previous id ends in what is
  hashed, so a first block can pass for a later one (`SameTextIff`, `HitWithoutSharedPrefix`).
- With `k` attempts of one address in flight at once the limiter's bound grows by `k - 1`, and
  is reached (`FailuresAreBounded`, `BoundIsReached`).

## Model

| member | source | states |
|---|---|---|
| `RestoreTruth.ReportsAreTruthful` | internal/admin/backup_restorestate.go:311-437 | in every reachable state, with kills anywhere, a saved, pending or shown result that names a restore says success only if that restore's rename happened, and previous database in place only if it did not |
| `RestoreTruth.MainSwapsTheAcceptedRestore` | cmd/marbor/main.go:917-939 | for every interleaving of handlers, signal, receive and closing: main holds exactly the restore whose hand-off succeeded, renames only that one, no hand-off succeeds after closing, and the full-channel branch is unreachable |
| `RestoreTruth.VerdictAfterKill` | internal/admin/backup_restorestate.go:365-437 | for an accepted restore and a kill at any point, which of the three verdicts the next start gives, in terms of the outcome marker, the staged file and the note of giving up |
| `RestoreTruth.StepKeepsInv` | internal/admin/backup_restorestate.go:175-485 | every step of handlers, main, start-up, acknowledgement, kill and restart keeps the invariant that ties files, slot, channel and main together |
| `RestoreTruth.RunKeepsInv` | internal/admin/backup_restorestate.go:175-485 | the same over whole runs |
| `RestoreRecord.AcceptedRestoreNeverVanishes` | internal/admin/backup_restorestate.go:198-241 | at the moment a hand-off succeeds: every continuation keeps a marker or saved result for the restore until it is acknowledged, another restore writes its marker, or an acknowledgement read during a start removes the file after the save, if and only if no outcome marker is on disk |
| `RestoreLoss.AcceptanceNeverProtects` | internal/admin/backup_restorestate.go:198-241 | the promise cannot be stretched to the next acceptance: whatever state a hand-off succeeds in, some continuation with no acknowledgement and no further acceptance loses the record |
| `RestoreRecord.StaleOutcomeLosesRestore` | internal/admin/backup_restorestate.go:372-406 | a kill and a start in which every file operation works lose the restore when an older outcome marker is there |
| `RestoreLoss.StaleOutcomeIsReachable` | internal/admin/backup_restorestate.go:395-401 | a run from a first start that reaches that state, through one failed status save |
| `RestoreLoss.WorkingStartProtects` | internal/admin/backup_restorestate.go:365-407 | in a process whose own start neither fails to save nor to remove the outcome marker, every restore accepted, after any run, keeps its record, whatever earlier processes left |
| `RestoreLoss.EarlyAckLosesResult` | internal/admin/backup_restorestate.go:464-485 | in every state about to save a result while an acknowledgement has not yet removed the file, a run of five steps leaves nothing on disk that answers for any restore |
| `RestoreLoss.EarlyAckIsReachable` | internal/admin/backup_restorestate.go:464-485 | such a state, reached from a first start, where acknowledging restore 1 loses accepted restore 2 |
| `RestoreLoss.LateAckRemovesItsOwn` | internal/admin/backup_restorestate.go:464-485 | in a process whose start does not fail to save, an acknowledgement read after the start never removes a result other than the one it read |
| `RestoreLoss.LateAckRemovesItsOwnIff` | internal/admin/backup_restorestate.go:395-404 | with another result saved before, that safety holds if and only if the save of the new one works |
| `RestoreLoss.NewerResultStaysShown` | internal/admin/backup_restorestate.go:479-483 | a result a start has put on screen stays there through every run until an acknowledgement reads it: one that had read an older object, even with the same text, does not clear it |
| `RestoreLoss.NamesUnacceptedIff` | internal/admin/backup_restorestate.go:372-389 | after a kill at any point of any run, the next start reports on a restore never accepted if and only if no outcome is on disk and the pending marker is of a restore killed in mid hand-off or whose marker could not be taken back |
| `RestoreLoss.UnacceptedRestoreSupersedes` | internal/admin/backup_restorestate.go:219-241 | for every restore killed between its marker and the send, the next start saves a result made from that marker, and no other restore has a record left |
| `RestoreLoss.RetryKeepsAnswerIff` | internal/admin/backup_restorestate.go:359-364 | after a failed save the next start gives the same answer if and only if it came from the outcome marker or the note of giving up, or the sweep spared the staged file; otherwise previous database in place turns into undecided |
| `RestoreServer.AdminServer.BeginRestore` | internal/admin/backup_restorestate.go:175-187 | claims an idle slot, otherwise tells shutting down from busy and changes nothing |
| `RestoreServer.AdminServer.AbortRestore` | internal/admin/backup_restorestate.go:190-196 | gives back only a slot still claimed for staging |
| `RestoreServer.AdminServer.HandOffRestore` | internal/admin/backup_restorestate.go:207-241 | succeeds exactly when the slot is claimed, the marker is written and the channel is free; on success the marker, the channel and the handed path all name the restore |
| `RestoreServer.AdminServer.SendToMain` | internal/admin/backup_restorestate.go:226-241 | the part under the lock: sent to main with the marker kept, or refused with the marker taken back and nothing handed over |
| `RestoreServer.HandOffIsRun` | internal/admin/backup_restorestate.go:207-241 | the hand-off is the run check, marker, second check, send of the step relation, or its error prefixes |
| `RestoreServer.AdminServer.CloseForShutdown` | cmd/marbor/main.go:934-939 | closes the slot; the path main goes on with is the received one, else the handed-off one |
| `RestoreServer.AdminServer.SwapAllowed` | cmd/marbor/main.go:1132-1153 | the checks in order pass exactly for a staged file that is there, regular and valid, an old write-ahead log with no bytes left, both sidecars inspected, and a rename that works |
| `RestoreServer.AdminServer.SwapStagedRestore` | cmd/marbor/main.go:1062-1081 | the database changes exactly when the store closed and all checks passed; otherwise the marker says the restore was given up, and a staged file that could be removed is gone |
| `RestoreServer.AdminServer.GiveUp` | cmd/marbor/main.go:1071-1081 | the staged file is gone where it could be removed, the marker carries the note where it could be written, and no other file changes |
| `RestoreSwap.GivenUpIsNeverUndecided` | cmd/marbor/main.go:1077-1081 | once main gave a restore up and wrote its note, in every state of every later run, with any kills and failures, whatever names the restore says the previous database is in place |
| `RestoreSwap.NextStartSaysGivenUp` | internal/admin/backup_restorestate.go:420-432 | wherever the process is killed after that, with or without an outcome written, the next start reads exactly that verdict for it, if no older outcome was there |
| `RestoreSwap.DatabaseChangesCleanly` | cmd/marbor/main.go:1140-1153 | the database changes in one step only, and never while the log has bytes left or a sidecar is unclear |
| `RestoreSwap.LogBelongsToDatabase` | cmd/marbor/main.go:1108-1113 | in every reachable state unflushed log data is beside the database it belongs to |
| `RestoreSwap.StagedFilesAreAccountedFor` | internal/admin/backup_restore.go:353-393 | every staged file is still needed by a handler or by main, or was left by a kill or a removal that failed |
| `RestoreServer.SwapIsRun` | cmd/marbor/main.go:1062-1164 | closing, renaming or giving up is a run of main's steps |
| `RestoreServer.SwapHappensOrNot` | cmd/marbor/main.go:1118-1164 | from any state that meets the invariant, the database in place changes exactly when main will report success |
| `RestoreServer.AdminServer.WriteRestoreOutcome` | internal/admin/backup_restorestate.go:311-337 | the outcome names the restore of the pending marker, which goes once the outcome is on disk and not before |
| `RestoreServer.ReportIsRun` | internal/admin/backup_restorestate.go:311-337 | writing the outcome is a run of main's steps |
| `RestoreServer.ReportNamesTheRestore` | internal/admin/backup_restorestate.go:311-337 | the outcome names the restore main swapped and its verdict is whether the rename happened; an unwritten outcome leaves the marker naming it |
| `RestoreServer.AdminServer.PerformRestore` | cmd/marbor/main.go:1062-1099 | the restore is in place afterwards exactly when the store closed, the staged file was there, regular and valid, the log had no bytes left, nothing was unclear and the rename worked; the outcome, or else the marker, names it truthfully |
| `RestoreServer.AdminServer.ReadMarkersBack` | internal/admin/backup_restorestate.go:372-389 | the outcome as written, else the verdict of the pending marker, else nothing |
| `RestoreServer.AdminServer.AbsorbRestoreOutcome` | internal/admin/backup_restorestate.go:365-407 | what is shown and saved, and which markers are gone, for every choice of failures: a marker goes only after exactly its result is saved |
| `RestoreServer.AbsorbIsRun` | internal/admin/backup_restorestate.go:365-407 | absorbing is a run of the start-up steps in the order save, show, drop outcome, drop marker |
| `RestoreServer.AdminServer.AcknowledgeRestoreResult` | internal/admin/backup_restorestate.go:464-485 | clears exactly the result the client named, and only when its saved copy could be removed; a failed removal leaves both |
| `RestoreServer.AckIsRun` | internal/admin/backup_restorestate.go:464-485 | an acknowledgement is the run read, remove, clear, stopping at a failed removal |
| `RestoreServer.AdminServer.CleanupStagedRestores` | internal/admin/backup_restorestate.go:490-515 | exactly the files that could not be removed stay, and they are counted; an unreadable directory is left alone |
| `StagedNames.IsStagedRestoreName` | internal/admin/backup_restorestate.go:125-142 | the cutting loop accepts exactly the staged names |
| `StagedNames.StagedNameSpelledOut` | internal/admin/backup_restorestate.go:110-142 | a staged name is the base, the fixed middle, sixteen lower-case hexadecimal digits and nothing, -journal, -wal or -shm |
| `StagedNames.OneReading` | internal/admin/backup_restorestate.go:114-142 | a name has one base, reference and suffix at most, so the sweep of one database never takes a file of another |
| `StagedNames.SweepStaged` | internal/admin/backup_restorestate.go:490-515 | the loop removes exactly the staged files and sidecars of this database that can be removed, never a directory, and counts those that cannot |
| `StagedNames.SweepTakesItsOwn` | internal/admin/backup_restorestate.go:114-142 | of all names any restore of any database stages under, a sweep takes exactly those of its own database |
| `RestoreServer.SweepIsRun` | internal/admin/backup_run.go:237-266 | sweeping any set of staged files is a run of start-up steps |
| `RestoreServer.RemoveEach` | internal/admin/backup_restorestate.go:502-514 | the loop leaves what cannot be deleted and counts it |
| `KvCache.CacheIsMostRecent` | cmd/mocknode/kvsim.go:102-128 | after any request sequence the cache is the capacity-many most recently touched distinct blocks of the whole history, most recent first, although eviction waits for the end of each request |
| `KvCache.CachedIffReuseDistance` | cmd/mocknode/kvsim.go:102-128 | a block is cached if and only if it was touched and fewer than capacity other blocks were touched since |
| `KvCache.StackProperty` | cmd/mocknode/kvsim.go:102-128 | a smaller cache is a prefix of a larger one on the same requests, so no request's cached count falls as capacity grows |
| `BlockHash.SameTextIff` | cmd/mocknode/kvsim.go:90-96 | two texts the code hashes are equal if and only if previous ids and words are, or one is a first block that begins with the other's previous id and continues with its words |
| `BlockHash.SameIdIff` | cmd/mocknode/kvsim.go:86-98 | with a hash that keeps the texts of the run apart, two ids are equal if and only if the chains agree block by block down to the first block of the shorter one, which is the other's first block or such an impostor |
| `BlockHash.JoinInjective` | cmd/mocknode/kvsim.go:93 | joined words determine the words of a block |
| `KvCache.HitMeansSharedPrefix` | cmd/mocknode/kvsim.go:86-111 | without impostors among the prompts, a request reported with k cached blocks has an earlier prompt with the same first k full blocks |
| `KvCache.HitsIff` | cmd/mocknode/kvsim.go:86-111 | with room for every block seen, the first k blocks are reported if and only if each agrees with a chain of an earlier prompt, impostors included |
| `KvCache.ImpostorIsHit` | cmd/mocknode/kvsim.go:90-96 | whatever the hash, a one-block prompt that begins with an id of the prompt before it and continues with its last block is reported as cached |
| `KvCache.HitWithoutSharedPrefix` | cmd/mocknode/kvsim.go:90-96 | the concrete pair of prompts: a hit although no earlier prompt begins with the same word |
| `KvCache.SharedPrefixMeansHit` | cmd/mocknode/kvsim.go:86-111 | with room for every block seen, at least the blocks shared with any earlier prompt are reported |
| `KvCache.SameIdSamePrefix` | cmd/mocknode/kvsim.go:86-98 | without impostors, equal ids mean equal depth and equal words up to that block |
| `KvCache.KvSim.BlockIDs` | cmd/mocknode/kvsim.go:86-98 | the loop yields for each full block the hash of the previous id followed directly by the joined words |
| `KvCache.KvSim.HoldsMostRecent` | cmd/mocknode/kvsim.go:102-128 | at all times the object's list is the most recent distinct blocks of all its requests, and its index holds exactly the blocks within the reuse distance |
| `KvCache.KvSim.LookupAndStore` | cmd/mocknode/kvsim.go:102-128 | list and index stay in agreement with the whole request history; the count is the leading blocks the earlier requests left cached |
| `KvCache.KvSim.CountLeading` | cmd/mocknode/kvsim.go:105-111 | counts the leading blocks present, by the index |
| `KvCache.KvSim.StoreAll` | cmd/mocknode/kvsim.go:115-121 | touches every block in order, keeping list and index in agreement |
| `KvCache.EvictBack` | cmd/mocknode/kvsim.go:122-126 | removing from the back until capacity leaves the front of the list and an index of exactly those elements |
| `KvCache.TokensOf` | cmd/mocknode/kvsim.go:162-165 | cached tokens are blocks times block size and never exceed the prompt: the clamp never fires |
| `KvCache.KvSim.CountTokens` | cmd/mocknode/kvsim.go:162-167 | cached tokens are at most the prompt and, without impostors, words some earlier prompt of this object began with; both token counters follow |
| `Recency.TakeTouchAll` | cmd/mocknode/kvsim.go:115-126 | cutting once after many touches keeps the same front as cutting before them |
| `Recency.FrontIsTouchedSince` | cmd/mocknode/kvsim.go:115-121 | the entries in front of a block are exactly those touched since its last touch |
| `Recency.InTakeIff` | cmd/mocknode/kvsim.go:122-126 | membership in the front is reuse distance below the cut |
| `SlotAccounting.SlotsAreConserved` | cmd/mocknode/kvsim.go:143-209 | in every interleaving the counters account for every request up to those between two counters, running never exceeds used slots nor those the slot count, and used slots are exactly the requests that hold one |
| `SlotAccounting.SlotTakenIsFreedOnce` | cmd/mocknode/kvsim.go:179-209 | over any run, a request's slot takes equal its releases plus the one it still holds, and it takes at most one, however often finish is called |
| `SlotAccounting.PeakIsTrueMaximum` | cmd/mocknode/kvsim.go:146-152 | the peak never overstates the maximum of waiting and equals it once no request is inside the compare-and-swap loop |
| `SlotAccounting.HighWaterIsMaximum` | cmd/mocknode/kvsim.go:146-152 | the maximum it is compared with bounds the waiting counter along the run and is reached in it |
| `SlotAccounting.FinishCountsOnce` | cmd/mocknode/kvsim.go:199-209 | leaving out every later call of finish from any run gives a run to the same state in which each request is finished at most once |
| `SlotAccounting.AbortedIffClientLeft` | cmd/mocknode/kvsim.go:153-209 | over any run a finished request counts as aborted if and only if its client was gone in the queue, during prefill or at its finish |
| `SlotAccounting.AbortedAreThoseWhoLeft` | cmd/mocknode/kvsim.go:153-209 | once all requests are over, the aborted counter is the number of clients that left, and nothing waits, runs or holds a slot |
| `ApiKeys.LiveKeysAreDurable` | internal/admin/admin.go:5667-5691 | in every reachable state, whatever store calls failed, a live operator key has a record that is not revoked with the same token and limits, and no other token authenticates as it |
| `ApiKeys.RestartLosesNoKey` | cmd/marbor/main.go:1195-1226 | a restart that reads the store keeps every live operator key, unchanged |
| `ApiKeys.RevocationIsFinal` | internal/admin/admin.go:5746-5768 | after a revoke that reported success no later run with any failures makes the name live again, if and only if the name had a record |
| `ApiKeys.UnsavedRevokeReturns` | internal/admin/admin.go:5742-5764 | a revoke whose write failed is undone by the next reload, as its message warns |
| `ApiKeys.AddKeepsTokensIff` | internal/auth/auth.go:410-439 | adding a key leaves every live key reachable by its own token if and only if no live key already holds that token |
| `ApiKeys.FreshTokensReach` | internal/auth/auth.go:446-521 | as long as no step brings in a token another key holds, every live key stays reachable by its token through all runs |
| `ApiKeys.ProbeKeyOutlivesItsRecord` | internal/admin/admin.go:7635-7645 | a probe key that ends between the two halves of a reload is live afterwards with no record |
| `ApiKeys.ProbeKeepsDurableIff` | internal/admin/admin.go:7635-7645 | a probe step keeps every live key durable if and only if it stores nothing that differs from what is live, goes live only with its record stored, and is deleted only once neither the live keys nor a reload under way hold it |
| `ApiKeys.CarefulProbesStayDurable` | internal/admin/admin.go:5667-5691 | over every run with such probe steps, every live key, probe keys included, is durable |
| `ApiKeys.UndisturbedProbeIsCareful` | internal/admin/benchmark.go:531-539 | a probe that lives and ends with no reload in between meets that condition at each step |
| `ApiKeys.KillInsideHandlerIsARun` | internal/admin/admin.go:5059-5097 | a kill between any two writes of a handler, or before its live change, starts again as after a handler that ended with some calls failing, so every result about runs covers it |
| `ApiKeys.StepKeepsInv` | internal/admin/admin.go:5557-5875 | add, approve with rollback, rotate, revoke, patch, reload, probe and restart steps keep live keys durable under every choice of failing calls |
| `KeyServer.Server.AddKey` | internal/auth/auth.go:410-439 | the new token works as this key and a different old token of the same name stops working |
| `KeyServer.Server.RevokeKey` | internal/auth/auth.go:511-521 | name and token leave the live maps, an unknown name changes nothing |
| `KeyServer.Server.SwapKeys` | internal/auth/auth.go:453-509 | the loop installs exactly the listed keys, a later entry winning |
| `KeyServer.Server.FindKeyRecord` | internal/admin/admin.go:5654-5665 | the scan finds the record if and only if it is stored |
| `KeyServer.Server.PersistKey` | internal/admin/admin.go:5670-5691 | the live state changes only after the store write worked |
| `KeyServer.Server.HandleAddKey` | internal/admin/admin.go:5600-5650 | created exactly for an acceptable new name with working calls, and then durable and live; any other answer changes nothing |
| `KeyServer.Server.HandleRotateKey` | internal/admin/admin.go:5699-5740 | a new token with the old limits, never for a revoked or unknown key; any other answer changes nothing |
| `KeyServer.Server.RevokeKeyLiveFirst` | internal/admin/admin.go:5746-5751 | not live afterwards, whether or not the write worked |
| `KeyServer.Server.HandleRevokeKey` | internal/admin/admin.go:5753-5768 | not live afterwards; success on a stored key leaves it gone for good |
| `KeyServer.PatchPolicy` | internal/admin/admin.go:5826-5852 | each of the nine fields has the patch's value where the patch names it, and its old value otherwise |
| `KeyServer.Server.HandlePatchKey` | internal/admin/admin.go:5782-5875 | live key and record take the patch field by field, together or not at all; token, revocation and all other keys stay; a negative limit is refused |
| `KeyServer.Server.HandleApprove` | internal/admin/admin.go:5059-5097 | an approval leaves a durable live key; a failed one leaves no live key |
| `KeyServer.Server.KeysToLoad` | internal/admin/admin.go:1942-1948 | the loop lists exactly the rows that are not revoked |
| `KeyServer.Server.ReloadFromStore` | internal/admin/admin.go:1936-1985 | live are exactly the rows that are not revoked, with their tokens and limits; a failed read changes nothing |
| `KeyServer.Server.LoadStoredKeys` | cmd/marbor/main.go:1195-1220 | live afterwards are exactly the stored keys that are neither revoked nor shaped like a probe, as stored; probe rows are gone where they could be deleted; the live keys are counted |
| `KeyServer.LoadRowsIsRestart` | cmd/marbor/main.go:1203-1220 | row by row registering is the filtered listing applied to empty maps |
| `FleetPins.TlsPatchAllowedIff` | internal/admin/admin.go:4075-4164 | the validation accepts a patch, URL-only moves included, if and only if the fleet it leads to still has agreeing, enforced pins |
| `FleetPins.MoveFollowsUrlOrStays` | internal/router/router.go:50-55 | a node on the host its URL names follows a new URL, one with a declared host stays there |
| `FleetPins.DeclaredHostMovesFreely` | internal/admin/admin.go:4102-4108 | a node with a declared host, pinned or not, is never refused a move to a free URL and keeps host and pin |
| `FleetPins.TakenUrlIsRefused` | internal/router/router.go:1576-1586 | a URL another node has is never taken a second time, by a patch or by adding a node |
| `FleetPins.AddNodeEffect` | internal/router/router.go:1588-1616 | an added node has its URL, its declared host or else the URL's, and the pin it had; no other node changes |
| `FleetPins.SyncEffect` | internal/router/router.go:1836-1871 | a reload keeps nodes whose URL is still wanted as they are, drops the unwanted, and gives no other node a pin |
| `FleetPins.EnableAllowedIff` | internal/admin/admin.go:2277-2303 | an enable is refused for the pins' sake if and only if it would leave a pinned node on an http agent |
| `FleetPins.DisableKeepsInv` | internal/admin/admin.go:2360-2382 | disabling keeps both invariants even when the delete fails |
| `FleetPins.RunKeepsPins` | internal/admin/admin.go:3979-4037 | every run of patch, enable, disable, remove, reload and guarded add keeps both invariants, so no host has two pins and every pin is enforced by https |
| `FleetPins.AddNodeKeepsInvIff` | internal/router/router.go:1588-1616 | re-adding a node keeps the invariants if and only if its pin fits the new host |
| `FleetPins.AddNodeCanStrandAPin` | internal/router/router.go:1588-1616 | a concrete fleet where it does not |
| `FleetServer.Router.ValidateTLSPatch` | internal/admin/admin.go:4075-4164 | each of its refusals exactly for its own reason, by the host and pin the patch leads to |
| `FleetServer.Router.HandlePatchNode` | internal/admin/admin.go:3979-4037 | the node gets the patch's URL and pin, and the host that goes with it, or nothing changes; no other node changes; the invariants are kept |
| `FleetServer.Router.HandleEnableAgent` | internal/admin/admin.go:2269-2319 | the host's agent gets the port, the token and the scheme asked for, else the one it had, else http, exactly when no pin forbids it and the write works |
| `FleetServer.Router.HandleDisableAgent` | internal/admin/admin.go:2360-2382 | every node of the host loses its pin and nothing else, the agent goes where it could be deleted, and the invariants are kept |
| `FleetServer.ClearPins` | internal/admin/admin.go:2363-2374 | the loop clears the pins of one host and nothing else |
| `FleetServer.Router.PinnedFingerprintFor` | internal/router/tls_dial.go:206-234 | under the invariants a dial is never ambiguous and verifies the one pin of that host, if there is one |
| `FleetServer.AgreeingPinsAreOne` | internal/router/tls_dial.go:217-229 | agreeing siblings give at most one pin |
| `PullJobs.OneActiveJobPerKey` | internal/admin/admin.go:7427-7450 | under every interleaving at most one job per node and model is active, and it is the one in the table |
| `PullJobs.StartRefusedIffActive` | internal/admin/admin.go:7427-7433 | a pull is refused if and only if a job for that node and model is downloading or being checked |
| `PullJobs.OutcomeMeaning` | internal/admin/admin.go:7584-7617 | every outcome is earned in the run: success by a check that passed, or a download where none was asked for; load failure by a check that failed; failure by a download that did; a cancel by a request |
| `PullJobs.TerminalIsFinal` | internal/admin/admin.go:7207-7216 | a terminal status never changes in any run |
| `PullJobs.AcceptedCancelIsFinal` | internal/admin/admin.go:7233-7253 | an accepted cancel is the outcome for good, and a check that had not begun never begins |
| `PullJobs.CheckBeginsOnce` | internal/admin/admin.go:7223-7231 | every load check that began in a run did so at exactly one step, for a job whose client asked for it and which was downloading right before |
| `PullJobs.VerifiedSuccessHadACheck` | internal/admin/admin.go:7599-7617 | a job that asked for the check reports success only after one, and no second check begins |
| `PullJobs.StepKeepsInv` | internal/admin/admin.go:7197-7271 | download, check, cancel, report, start and each part of a sweep keep the job invariant |
| `PullJobs.PullJob.SetFinished` | internal/admin/admin.go:7207-7216 | the first terminal status wins, with its error, as the model's report step |
| `PullJobs.PullJob.SetVerifying` | internal/admin/admin.go:7223-7231 | only from downloading, as the model's check step |
| `PullJobs.PullJob.RequestCancel` | internal/admin/admin.go:7238-7253 | accepted exactly while active, as the model's cancel step |
| `PullJobs.PullJob.CompletePull` | internal/admin/admin.go:7599-7617 | when the check runs and which status it ends in |
| `PullJobs.SweepOldPullJobs` | internal/admin/admin.go:7259-7271 | removes exactly the finished jobs that are too old, never an active one |
| `PullProgress.RunDirectPull` | internal/admin/admin.go:7552-7589 | the job shows the sums over layers of each layer's latest report; the last error fails it, otherwise it is completed, with the check if asked for |
| `PullProgress.ReportLines` | internal/admin/admin.go:7557-7583 | after any lines the job's byte counts are those sums and the last error is kept |
| `PullProgress.Adjust` | internal/admin/admin.go:7577-7580 | moving the running sum by the difference keeps it the sum of the map |
| `PullProgress.LatestIsLast` | internal/admin/admin.go:7576-7582 | what a layer is counted with is its last line with a size and no error |
| `PullProgress.LastErrorIsLast` | internal/admin/admin.go:7572-7575 | the error reported is that of the last line that carried one |
| `PullProgress.CompletedWithinTotal` | internal/admin/admin.go:7576-7582 | completed never exceeds total if no line does |
| `PullProgress.CompletedNeverGoesBack` | internal/admin/admin.go:7545-7551 | completed bytes never fall when no layer's own count does |
| `PullProgress.BarGoesBackIff` | ui/src/components/PullProgressWidget.tsx:111-112 | any further line, of a new layer, a known one or a resized one, moves the drawn, clamped bar back if and only if the sums are incomplete after it and it adds proportionally less to completed than to total |
| `PullProgress.BoundedBarGoesBackIff` | ui/src/components/PullProgressWidget.tsx:111-112 | when no line exceeds its own size the proportion alone decides |
| `PullProgress.FullBarFalls` | internal/admin/admin.go:7545-7551 | after one complete layer every line that leaves its layer incomplete moves the bar back |
| `PullProgress.BarCanGoBack` | internal/admin/admin.go:7545-7551 | concrete pulls whose layers only climb and whose bar falls, by a second layer and by a larger size |
| `LoginLimiter.FailuresAreBounded` | internal/admin/admin.go:4387-4453 | from any state, an interval shorter than the window with no success and at most k attempts in flight records at most 2*maxAttempts + k - 2 failures of an address, whatever others and pruning do |
| `LoginLimiter.BoundIsReached` | internal/admin/admin.go:4387-4428 | for every limit and every k at least 1, a run from a limiter that has seen nobody reaches an interval of one time unit with 2*maxAttempts + k - 2 failures, so the bound is exact |
| `LoginLimiter.SuccessForgives` | internal/admin/admin.go:4449-4453 | after a success nothing is held against the address, and over any run with fewer than maxAttempts further failures it is let through |
| `LoginLimiter.LockLasts` | internal/admin/admin.go:4424-4428 | the failure that reaches the limit locks for exactly the lock duration |
| `LoginLimiter.LockHolds` | internal/admin/admin.go:4436-4446 | until it ends, a lock survives everything but a success or a further failure, pruning included |
| `LoginLimiter.Limiter.AllowAttempt` | internal/admin/admin.go:4387-4407 | refuses exactly before the lock ends and names the time left to the instant; otherwise the model's step |
| `LoginLimiter.Limiter.RecordFailure` | internal/admin/admin.go:4411-4429 | counts, restarts and locks as the model's step, pruning first |
| `LoginLimiter.Limiter.RecordSuccess` | internal/admin/admin.go:4449-4453 | forgets the address, as the model's step |
| `LoginLimiter.Limiter.PruneLocked` | internal/admin/admin.go:4436-4446 | when due, and not before, keeps exactly the entries that are locked or in an open window, unchanged |
| `LoginLimiter.DropStale` | internal/admin/admin.go:4441-4445 | the loop keeps exactly the entries that are not stale |
| `CloudBudget.OvershootIsBounded` | internal/admin/admin.go:6563-6603 | with at most k requests in flight of cost at most c and u checks that could not read the store, recorded plus in-flight spend of the day and of the month stay below cap + (k + u)*c in every interleaving, over changes of day and month |
| `CloudBudget.CheckPassesIff` | internal/admin/admin.go:6590-6603 | a check that can read the spend lets a request through if and only if both spends are below the caps that are set |
| `CloudBudget.BucketsMatchLog` | internal/admin/admin.go:6531-6561 | the bucket sum of any period equals the request-by-request sum; local traffic adds nothing |
| `CloudBudget.UnreadChecksAllPass` | internal/admin/admin.go:6563-6577 | each unread check does cost that much: n of them add n costs to both periods, whatever the caps |
| `CloudBudget.SpentAfterUpsert` | internal/store/sqlite.go:1073-1092 | an upsert adds its cost to every period that includes its hour |
| `CloudBudget.Ledger.UpsertHourlyBucket` | internal/store/sqlite.go:1073-1092 | the row accumulates, for every period at once |
| `CloudBudget.Ledger.CloudSpendSince` | internal/admin/admin.go:6567-6577 | the loop over rows is the sum of the period, or zero when the read fails |
| `CloudBudget.Ledger.GlobalBudgetExceeded` | internal/admin/admin.go:6590-6603 | decides the model's check for both global caps |
| `CloudBudget.Ledger.CloudBudgetExceeded` | internal/admin/admin.go:6584-6623 | exceeded exactly when a global cap is, or a cap of the key is by the spend the store answers; an unanswered cap does not count |
| `CloudBudget.KeyBudgetExceeded` | internal/admin/admin.go:6608-6622 | the caps of one key, each only where it is set and its spend could be read |
| `CounterFlush.StoredTokensAreCounted` | internal/admin/admin.go:489-521 | for every interleaving of requests and flushes, killed anywhere, with a counters row that works: every request in the stored token count is in the stored request count, and both numbers are exact for the requests they cover |
| `CounterFlush.StoredTokensNeverFall` | internal/admin/admin.go:489-521 | over any run with kills, restarts that read the token count, and failing token writes, the stored count never falls and loses no request |
| `CounterFlush.FlushKeepsOrderIff` | internal/admin/admin.go:504-520 | with a failing row or setting, a flush keeps that order if and only if the row was written, or the tokens were not, or the old row already covered them |
| `CounterFlush.LostRowBreaksOrder` | internal/admin/admin.go:504-520 | a concrete flush that breaks it |
| `CounterFlush.UnreadRowBreaksOrderIff` | internal/admin/admin.go:489-521 | after a start and a flush the order holds if and only if the start read the row, or the flush does not write it, or no tokens were stored, whether or not the tokens could be read |
| `CounterFlush.Counters.FlushCounters` | internal/admin/admin.go:489-521 | memory and store end where the model's undisturbed flush ends |
| `CounterFlush.Counters.TrackCloud` | internal/admin/admin.go:6531-6533 | the two additions are the model's count step followed by its token step |
| `HourlyRollup.FreshHoursAreExact` | internal/admin/analytics.go:56-124 | an hour within the retention equals the replay of exactly its events, whatever was pruned |
| `HourlyRollup.KeptHoursAreExact` | internal/admin/analytics.go:60-73 | every hour still held is exact, so a pruned hour never returns half empty |
| `HourlyRollup.Last24HoursAreExact` | internal/admin/analytics.go:166-184 | each of the 24 hours shown at any later time is the replay of its events |
| `HourlyRollup.AtMost49Hours` | internal/admin/analytics.go:60-73 | the map never holds more than 49 hours |
| `HourlyRollup.HourFigures` | internal/admin/analytics.go:79-124 | the replay of an hour, figure by figure: numbers of local and cloud events between its first and last nanosecond, sums of local tokens and generation time, savings and cloud spend |
| `HourlyRollup.ModelFigures` | internal/admin/analytics.go:96-124 | the same for a model |
| `HourlyRollup.SavingsAreTokens` | internal/admin/analytics.go:82-92 | savings are the reference rate times the local tokens over a thousand |
| `HourlyRollup.ListedIffSeen` | internal/admin/analytics.go:96-98 | a model is listed if and only if the log has an event of it |
| `HourlyRollup.ModelsAreExact` | internal/admin/analytics.go:96-124 | each model's totals equal the replay of its events |
| `HourlyRollup.ModelCountsSumToLog` | internal/admin/analytics.go:96-124 | the per-model counts sum to all requests recorded |
| `HourlyRollup.Store.PruneHourly` | internal/admin/analytics.go:60-73 | nothing changes up to 48 hours held; beyond that exactly the hours that began more than 48 hours ago go |
| `HourlyRollup.DropExpired` | internal/admin/analytics.go:64-72 | the loop keeps exactly the hours that have not expired |
| `HourlyRollup.Store.RecordLocal` | internal/admin/analytics.go:79-101 | the maps remain what the event history gives |
| `HourlyRollup.Store.RecordCloud` | internal/admin/analytics.go:105-124 | the same for a cloud request |
| `HourlyRollup.Store.Last24hBuckets` | internal/admin/analytics.go:166-184 | row i is the hour 23 - i hours ago, with the figures of exactly the log's events of that hour and the rate of their tokens over their generation time |
| `HourlyRollup.Store.TopModels` | internal/admin/analytics.go:187-205 | every model of the log once, with the figures of its events, most requests first |
| `HourlyRollup.SortByRequests` | internal/admin/analytics.go:195-203 | the exchange sort orders by requests and is a permutation |

## Left out

- Power loss with unflushed directory entries: only a killed process is modelled, and every file operation is whole or fails and changes nothing.
- RestoreRecord.AcceptedRestoreNeverVanishes: the promise ends at another restore's marker, not at its acceptance, because with acceptance it is false in every state (`RestoreLoss.AcceptanceNeverProtects`).
- Unreadable or edited marker files: a marker that exists can be read and names a restore.
- Staging itself, free space, deadlines and the lock against other heavy backup work: a restore handler is begin, stage, hand-off, or clean up and abort.
- RestoreServer.AdminServer.SwapStagedRestore: what validating the staged database looks at is one answer of the environment, and a sidecar that can be inspected is seen as it is.
- RestoreServer.AdminServer.CleanupStagedRestores: a staged file and its sidecars are one entry; the sweep over names is `StagedNames.SweepStaged`.
- Result wording beyond the three verdicts, notes, times and log text.
- SHA-256 itself: the hash is any function to 16 characters, and results about ids assume that it keeps apart the texts hashed in the run. The block size is positive, as a size of zero makes the source divide by zero.
- Splitting a prompt at white space (a word is any text without a space), prefill and decode delays, and the generated-token counters of the simulated engine.
- Expiry validation, usage counters, rate-limit buckets, encryption and rows that cannot be decrypted, running without a store or without authentication, and users and sessions: keys are name, token, limits and the revoked flag. Suspending or deleting a user is the revoke step.
- The check that a patched key is still live after its store write: it can only fail for a probe key dropped meanwhile.
- Persisted copies of pins and agents, agent token regeneration, URL normalisation, and a node added between the checks and the changes of a patch: patch, enable, disable, add, remove and reload are one step each.
- Host names are taken from a parsed URL, so the fallback to the raw text of an unparsable URL is not modelled.
- The pull through an agent, decode errors of the progress stream, timeouts, and unloading after a check.
- LoginLimiter.Limiter.AllowAttempt: the two separate lock sections of `allow` are one step, because the entry it holds between them can be dropped or renewed meanwhile. Clocks are read once per operation and do not go back.
- CloudBudget.Ledger.CloudBudgetExceeded: the spend of one key is what the store answers; how the request log that it sums is filled is not followed.
- Failed bucket writes, which the source ignores. The asynchronous queue for local statistics, which may drop a row that costs nothing, is immediate.
- The local counters and spent dollars in the counters row; only cloud requests and cloud tokens are followed.
- Hourly buckets read back from the store at start; recorded times do not go back, though two requests that read the clock before the lock may swap in the source.
- Dollars and rates are real numbers, without floating-point rounding; counters are unbounded integers.
- Routing, proxying, HTTP and JSON plumbing, backup listing and download, benchmarks, discovery and the command-line tools.
