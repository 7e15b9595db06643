# Models of ClawLite's reliability layer

This project models the parts of ClawLite that decide what happens to a message: how Telegram updates are
acknowledged, how outgoing messages are sent at most once and replayed, how dispatch permits are handed out, and how
the journals on disk follow the queues in memory. Each part is a set of values and step functions, or a class with the
fields and loops of the original, and each class method is proved against the function that says what it means. The
main results are about every input, every run or every reachable state.

- `TelegramOffsets`, `TelegramOffsetRuns`, `TelegramOffsetHistory`: the safe watermark over Telegram updates, its state
  file, runs with restarts, and the same told by the calls alone.
- `TelegramDedupe`: the bounded first-in-first-out set of update keys.
- `WebhookProtocol`, `WebhookRestarts`, `WebhookAcknowledgement`: concurrent webhook deliveries, the poll loop and operator
  commands over the two: safety, restarts, and what is handled and acknowledged.
- `DispatchSlots`, `DispatchFairness`: the global semaphore and the pruned per-session semaphores of the dispatcher, and
  the order in which they serve.
- `IdempotencyCache`, `IdempotencyHistory`, `IdempotencyRuns`, `IdempotencyTies`, `IdempotencyTimes`: the cache of
  confirmed delivery keys, when it agrees with the plain sequence of confirmations, and how long it remembers.
- `AtMostOnce`: what the cache guarantees about sends.
- `Events`, `BusLanes`, `BusQueue`: events and their keys, the queues with their journal rows, the dead-letter queue.
- `Delivery`, `DeliveryManager`, `DeadLetterReplay`, `DeliveryProvenance`, `DeliveryRuns`: the retry loop, dead-lettering,
  the replay of dead letters, the delivery policy, and where everything that is sent comes from.
- `StableSort`, `KeyedJournal`, `InboundDurability`, `InboundFlow`, `InboundJournal`: the journal of inbound messages, its
  runs with crashes, and the way of every message.
- `CallbackSigning`: signed callback payloads over base64url.
- `MessageSplit`: splitting a text into messages.
- `TelegramTargets`, `DiscordTargets`: session ids, targets and parsed targets.
- `PairingStore`, `PairingGuarantees`: the Telegram pairing store, and what its users can rely on.
- `ConfigLayers`, `ConfigMigration`: the merge of configuration layers, and the migration of old settings path by path.
- `ContextWindow`: trimming a message history to a budget.
- `PyStrings`, `Sequences`, `Sets`, `Wrappers`: the Python string operations used, ordered and filtered lists, sizes of
  sets, absent values and raised exceptions.

Concurrency is a state machine whose steps are the stretches of code between two suspension points. Time is a number
that is passed in; hashes, HMAC, UTF-8, random codes, the answers of the channels and the printed form of JSON are
parameters. A file write is one step that succeeds.

## What the code does differently from what one might expect

Each of these is proved, with the exact condition under which the expected property holds or with a concrete run.

- The first watermark is the largest completed id, so it can pass updates that are still pending
  (`FirstBaselineKeepsPendingIff`, `FirstBaselineCanSkip`). All later statements are therefore relative to the last
  explicit baseline.
- The poll loop does not look at the in-flight set of the webhook, nor a webhook at the update being polled
  (`NeverBothIff`, `CollisionStartsIff`, `PollingIgnoresInflight`).
- A task cancelled while it waits for its session permit keeps its global permit and its lease; with enough of them
  dispatch stops (`AllPermitsCanBeAbandoned`, `StuckIffAllCancelled`).
- A key confirmed twice at one clock reading can be forgotten in the wrong order (`EqualTimesDisagree`), and so can keys
  with one expiry after a restart, whose file lists them as the dictionary does (`RestartReordersTies`). The cache is
  right exactly as long as no confirmation drops a key out of turn (`RunAgreesIff`).
- A process killed between a send and the save of its key forgets the send (`KilledSendIsForgotten`).
- Attempts of one delivery share a correlation id, which leaves journal rows open for good (`ReusedIdLeavesRowOpen`).
- An explicit delivery key that is null, false or zero is a key for the sender and none for the bus (`KeysAgreeIff`);
  such a dead letter, and one whose address is padded, is never found again by the replay (`FindsItselfIff`).
- A bus replay gives a derived key a new value, unless the creation time is the same (`BusReplayKeepsKeyIff`); the
  manager's replay does not.
- A malformed inbound message with the key of a journaled one evicts its record (`AcceptKeepsRecordIff`, `JournaledIffLastIsWellFormed`).
- A callback whose signature is not ASCII raises instead of being refused (`RaisesIff`).
- A dead letter of a channel without retries carries the full number of attempts although one call was made (`LostIsKept`).
- A bus replay with a padded key finds nothing, where a drain finds the events of the stripped key (`PaddedKeyFindsNothing`).
- The search for paragraph breaks never decides where a long text is cut (`DoubleNewlineNeverWins`).
- A slash command from a guild without a channel gets a session that leads to the user (`IsolationKeepsRecipientIff`).
- The deep merge is associative only under a condition (`AssociativeIff`).

## Model

| member | source | states |
|---|---|---|
| `TelegramOffsets.RunEndIsUnique` | clawlite/channels/telegram_offset_store.py:188-205 | the end of the longest contiguous run of completed ids above a floor is fixed by three clauses: everything up to it is completed and the next id is not |
| `TelegramOffsets.ReadUndoesWrite` | clawlite/channels/telegram_offset_store.py:259-400 | reading back a written state file gives the state exactly when every completed and pending id lies above the watermark and the highest id is not below it |
| `TelegramOffsets.OffsetStore.AdvanceSafeWatermark` | clawlite/channels/telegram_offset_store.py:188-205 | the loop stops at the end of the contiguous run from the watermark, or from the largest completed id when a first baseline is allowed; the flag tells exactly whether the watermark moved |
| `TelegramOffsets.OffsetStore.PruneSets` | clawlite/channels/telegram_offset_store.py:166-186 | exactly the ids above the watermark stay, the highest id is raised to it, and the flag tells exactly whether anything changed |
| `TelegramOffsets.OffsetStore.Begin` | clawlite/channels/telegram_offset_store.py:155-164 | a non-negative id above the watermark becomes pending, and the file follows; a negative one raises and changes nothing |
| `TelegramOffsets.OffsetStore.RecordCompletion` | clawlite/channels/telegram_offset_store.py:206-235 | the id is noted as completed and the pending mark dropped when tracked; the flag misses no change |
| `TelegramOffsets.OffsetStore.MarkCompleted` | clawlite/channels/telegram_offset_store.py:206-235 | the new state is the settled state after the completion; the file is rewritten exactly when the state changed, so a restart would read the memory back |
| `TelegramOffsets.OffsetStore.ForceCommit` | clawlite/channels/telegram_offset_store.py:237-247 | the watermark and the highest id become the forced id unless it is already committed, and only ids above it stay |
| `TelegramOffsets.OffsetStore.SyncNextOffset` | clawlite/channels/telegram_offset_store.py:142-153 | offset 0 resets everything, a positive one forces its predecessor, a negative one raises |
| `TelegramOffsets.OffsetStore.WriteState` | clawlite/channels/telegram_offset_store.py:358-400 | the file becomes an image of the memory, and for every valid state that image reads back as the memory |
| `TelegramOffsets.OffsetStore.RefreshFromDisk` | clawlite/channels/telegram_offset_store.py:133-140 | a readable file replaces the memory, an unreadable one leaves it alone |
| `TelegramOffsets.AfterCompletionIsValid` | clawlite/channels/telegram_offset_store.py:206-235 | a completion keeps all ids above the watermark and the highest id at or above it |
| `TelegramOffsets.AfterCompletionChanges` | clawlite/channels/telegram_offset_store.py:206-235 | the state after a completion is unchanged exactly when neither the noting nor the settling changed it: no combination of the flags misses a change |
| `TelegramOffsets.OffsetRuntime.ApplySnapshot` | clawlite/channels/telegram_offset_runtime.py:16-20 | the mirrored next offset follows the snapshot, and the flag tells whether it grew |
| `TelegramOffsets.OffsetRuntime.Load` | clawlite/channels/telegram_offset_runtime.py:22-25 | after a successful load the mirror and the store agree and the file is as it was |
| `TelegramOffsets.OffsetRuntime.Begin` | clawlite/channels/telegram_offset_runtime.py:37-38 | beginning keeps the mirror equal to the store's next offset |
| `TelegramOffsets.OffsetRuntime.Complete` | clawlite/channels/telegram_offset_runtime.py:40-51 | completing keeps the mirror equal to the store, and reports an advance exactly when the watermark moved |
| `TelegramOffsets.OffsetRuntime.ForceCommit` | clawlite/channels/telegram_offset_runtime.py:53-54 | a forced commit never lowers the mirrored next offset |
| `TelegramOffsets.OffsetRuntime.SyncNextOffset` | clawlite/channels/telegram_offset_runtime.py:27-30 | a positive sync leaves the mirror at the larger of the old and the new offset |
| `TelegramOffsetRuns.CompletionsRefineBatch` | clawlite/channels/telegram_offset_store.py:166-235 | from a watermark, any non-empty sequence of completions, in any order and with repeats, ends in the state named by the set of ids alone: watermark at the end of the contiguous run, completed and pending cut there |
| `TelegramOffsetRuns.CompletionOrderIsIrrelevant` | clawlite/channels/telegram_offset_store.py:206-235 | two sequences with the same ids and the same tracked ids end in the same state |
| `TelegramOffsetRuns.StepKeepsInv` | clawlite/channels/telegram_offset_store.py:142-247 | every operation and every restart keeps: valid store, file equal to memory, mirror equal to next offset, everything between the last explicit baseline and the watermark done, every begun id done, pending or below that baseline |
| `TelegramOffsetRuns.NoUncompletedUpdateIsSkipped` | clawlite/channels/telegram.py:2372-2400 | in every reachable state an update begun above the last explicit baseline and not done is pending and not below the next offset the poll loop asks for |
| `TelegramOffsetRuns.WatermarkPassesOnlyDoneIds` | clawlite/channels/telegram_offset_store.py:188-247 | every id between the last explicit baseline and the next offset was marked completed |
| `TelegramOffsetRuns.RestartChangesNothing` | clawlite/channels/telegram_offset_runtime.py:22-25 | in every reachable state reading the file back changes nothing |
| `TelegramOffsetRuns.FirstBaselineKeepsPendingIff` | clawlite/channels/telegram_offset_store.py:188-198 | the first tracked completion keeps a pending id exactly when it exceeds every completed id |
| `TelegramOffsetRuns.FirstBaselineCanSkip` | clawlite/channels/telegram_offset_store.py:188-198 | an example: 5 and 7 begun, 7 completed first, 5 forgotten and the next offset 8 |
| `TelegramOffsetHistory.NothingElseIsForgotten` | clawlite/channels/telegram_offset_store.py:142-247 | in every reachable state the completed ids are exactly those marked since the last reset, and the pending ids exactly those begun since then and not completed as tracked, that are not below the next offset: no forced commit, sync or restart loses another one |
| `TelegramOffsetHistory.NextOffsetMoves` | clawlite/channels/telegram_offset_store.py:142-247 | where each call of a run leaves the next offset: a completion moves it over marked ids and stops at the first unmarked one, the first tracked one jumps behind the largest marked id, a forced commit or sync raises it, offset 0 resets it, and no other call moves it |
| `TelegramOffsetHistory.HighestIs` | clawlite/channels/telegram_offset_store.py:206-247 | the highest id is the watermark or the largest id completed since the last reset or forced commit, whichever is larger |
| `TelegramOffsetHistory.LegacyFileKeepsOffset` | clawlite/channels/telegram_offset_store.py:259-356 | a file of one of the two oldest forms gives back its next offset and nothing else; a negative one counts as 0 or raises |
| `TelegramOffsetHistory.ForeignFileIsIgnoredIff` | clawlite/channels/telegram_offset_store.py:249-257 | what one bot wrote another reads in full or not at all: in full exactly if their ids agree, or for a reader without an id their tokens, a blank one agreeing with all |
| `TelegramDedupe.DedupeState.Commit` | clawlite/channels/telegram_dedupe.py:92-99 | a new stripped key goes to the end and at most the oldest key leaves; keys and order stay the same set without repeats and within the limit |
| `TelegramDedupe.DedupeState.Contains` | clawlite/channels/telegram_dedupe.py:88-90 | a key is known exactly when its stripped form is not blank and in the queue |
| `TelegramDedupe.DedupeState.Refresh` | clawlite/channels/telegram_dedupe.py:65-86 | the keys another instance saved are merged after the own ones and the limit is applied once; the flag tells exactly whether a key was new |
| `TelegramDedupe.DedupeState.Load` | clawlite/channels/telegram_dedupe.py:39-63 | a load takes the last keys of the merged file, although its bounded queue and its seen-set forget differently |
| `TelegramDedupe.DedupeState.Trim` | clawlite/channels/telegram_dedupe.py:34-37 | the newest keys up to the limit stay, in order |
| `TelegramDedupe.SaveThenLoad` | clawlite/channels/telegram_dedupe.py:39-63 | what one instance saves the next one loads unchanged exactly when no key carries a legacy prefix or padding |
| `TelegramDedupe.SourceMarkIsDropped` | clawlite/channels/telegram_dedupe.py:19-25 | a saved key that carries the mark of its source, polling or webhook, is loaded without it; any other prefix stays |
| `TelegramDedupe.OpKeepsHistory` | clawlite/channels/telegram_dedupe.py:34-99 | commits and merges keep the queue equal to the last keys of the full history, in which a key never recurs within the limit |
| `TelegramDedupe.ForgottenOnlyAfterLimitKeys` | clawlite/channels/telegram_dedupe.py:34-99 | a key leaves the queue only after `limit` further keys, all distinct and none of them this one |
| `WebhookProtocol.StepKeepsInv` | clawlite/channels/telegram.py:3471-3546 | every step of every webhook worker, of the poll loop, of the operator and every restart keeps: in-flight keys are exactly those of live workers, one worker per key, and only handled updates are remembered or completed |
| `WebhookProtocol.RunsKeepInv` | clawlite/channels/telegram.py:3471-3546 | that holds in every state of every interleaving |
| `WebhookProtocol.OneHandlerPerKey` | clawlite/channels/telegram.py:3500-3546 | at most one webhook worker is busy with a key, and that key is in the in-flight set |
| `WebhookProtocol.HandledAgainOnlyAfterLimitKeys` | clawlite/channels/telegram.py:3488-3507 | between two restarts, a webhook handles a key that entered the filter before only after `limit` other distinct keys have entered it since; the log of the filter starts over at a restart |
| `WebhookRestarts.CommitSurvivesRestarts` | clawlite/channels/telegram.py:3488-3538 | a key that a webhook committed stays known, through any number of restarts, until `limit` other keys have come into the filter, because the commit and its save are one step |
| `WebhookRestarts.HandledAgainAcrossRestarts` | clawlite/channels/telegram.py:3488-3538 | so neither a webhook nor the poll loop handles that key again before that, restarts or not |
| `WebhookRestarts.SavedSurvivesRestarts` | clawlite/channels/telegram.py:735-758 | once the filter is saved, every key in it stays known, through any number of restarts, until together with the keys behind it `limit` others have come in |
| `WebhookAcknowledgement.AcknowledgedIsDone` | clawlite/channels/telegram.py:3488-3546 | over every interleaving, an update is completed by exactly the steps that end its successful handling, by webhook or poll loop, or meet it again as a known one: it is then done, not pending, and below the next offset or kept as completed |
| `WebhookAcknowledgement.WebhookSetsBaselineIff` | clawlite/channels/telegram.py:3529-3538 | while there is no offset yet, a webhook completion sets one exactly if its update is pending or number 0 |
| `WebhookAcknowledgement.DeliveredIsHandledIff` | clawlite/channels/telegram.py:3471-3527 | a webhook delivery is handled if and only if it parses, is not below the next offset, and its key is neither known nor in flight |
| `WebhookAcknowledgement.PolledIsHandledIff` | clawlite/channels/telegram.py:2372-2393 | a polled update is handled if and only if it is not below the next offset and its key is not known |
| `WebhookAcknowledgement.StartedIsPendingIff` | clawlite/channels/telegram.py:2391-2393 | an update that starts to be handled is pending, except one that came by webhook, was not pending and is not next in line |
| `WebhookAcknowledgement.UnacknowledgedIsAskedAgain` | clawlite/channels/telegram.py:2360-2366 | until it is acknowledged, an update once begun above the last explicit baseline is pending, and the poll loop asks for it again |
| `WebhookAcknowledgement.EndFreesHandler` | clawlite/channels/telegram.py:3540-3546 | however a handling ends, its worker or the poll loop is free again and its key no longer in flight; a failed one changes neither offsets nor filter |
| `WebhookAcknowledgement.HandledIsKnown` | clawlite/channels/telegram.py:2396-2400 | a successful handling leaves its key in the filter, and a webhook's in the saved file at once |
| `WebhookRestarts.UpdateKeysAreCanonical` | clawlite/channels/telegram.py:1086-1090 | the key of an update with an id carries no legacy prefix and no padding, so a saved filter of such keys is loaded unchanged |
| `WebhookProtocol.FailureAllowsRetry` | clawlite/channels/telegram.py:3540-3546 | after a failed or cancelled handling a redelivery is handled if and only if it is neither stale nor a committed duplicate by then |
| `WebhookProtocol.WatermarkPassesOnlyHandled` | clawlite/channels/telegram.py:3529-3538 | every update between the last explicit baseline and the next offset was handled successfully somewhere |
| `WebhookProtocol.NeverBothIff` | clawlite/channels/telegram.py:2372-2396 | over whole runs, a webhook worker and the poll loop are never busy with one key if and only if no step starts the poll loop on a key in flight or a webhook worker on the key being polled |
| `WebhookProtocol.CollisionStartsIff` | clawlite/channels/telegram.py:2372-2396 | in any reachable state without such a collision, a step causes one exactly when it starts one side on a key the other is busy with |
| `WebhookProtocol.PollingCollidesIff` | clawlite/channels/telegram.py:2372-2396 | an update the poll loop starts to handle is handled twice exactly when its key is in the in-flight set |
| `WebhookProtocol.DeliveryCollidesIff` | clawlite/channels/telegram.py:3500-3527 | an update a webhook worker starts to handle collides exactly when it is the one the poll loop is handling |
| `WebhookProtocol.PollingIgnoresInflight` | clawlite/channels/telegram.py:2372-2396 | the poll loop does not look at the in-flight set: a run of two steps, on an update with an id, in which it handles the key a webhook worker is handling |
| `WebhookProtocol.UpdateKey` | clawlite/channels/telegram.py:1086-1090 | the key of an update with an id is never blank and never padded, so the filter keeps it as it is |
| `DispatchSlots.StepKeepsInv` | clawlite/channels/manager.py:1253-1302 | each acquire, resumption, cancellation, wake-up and release with pruning keeps the books of every session: leases are its tasks, its permits add up, its queue lists its waiters once, and nobody waits in a session without a holder |
| `DispatchSlots.RunKeepsInv` | clawlite/channels/manager.py:2079-2091 | that holds in every state of every interleaving of dispatch workers |
| `DispatchSlots.PermitsAreConserved` | clawlite/channels/manager.py:1280-1302 | free, running, granted, waiting and abandoned permits always add up to the maximum, and no session holds more than its share |
| `DispatchSlots.WaitersHaveARunner` | clawlite/channels/manager.py:1280-1292 | a task waiting for a session permit waits for a task of the same session that runs or is about to |
| `DispatchSlots.SlotTableIsBounded` | clawlite/channels/manager.py:1253-1267 | the slot table never exceeds its limit plus the maximum concurrency, and no task ever loses its slot |
| `DispatchSlots.StuckIffAllAbandoned` | clawlite/channels/manager.py:1280-1302 | no step can free a permit if and only if every permit has been abandoned: there is no hold-and-wait deadlock |
| `DispatchSlots.AbandonedAreCancelled` | clawlite/channels/manager.py:1280-1292 | in every run as many permits are abandoned as tasks were cancelled while they waited for or had just been granted their session permit |
| `DispatchSlots.StuckIffAllCancelled` | clawlite/channels/manager.py:1280-1302 | dispatch stops if and only if that many cancellations have happened as there are permits, which can be read from outside |
| `DispatchSlots.AllPermitsCanBeAbandoned` | clawlite/channels/manager.py:1285-1292 | a run of six steps with two permits after which both are abandoned, since the handler around the inner acquire does not catch cancellation |
| `DispatchSlots.PrunedKeepsLeased` | clawlite/channels/manager.py:1253-1267 | pruning drops no leased slot and changes none it keeps |
| `DispatchSlots.PrunedKeepsTable` | clawlite/channels/manager.py:1253-1267 | after pruning at most the limit plus the leased slots remain |
| `DispatchSlots.WakeAllKeepsInv` | clawlite/channels/manager.py:1280-1292 | waking waiters while permits remain keeps the books |
| `DispatchFairness.StartsAtOnceIff` | clawlite/channels/manager.py:1280-1292 | in every run a task that enters starts at once if and only if its session has a permit to spare and none of its tasks waits or has been woken and not resumed; otherwise it waits |
| `DispatchFairness.PermitsGoInOrder` | clawlite/channels/manager.py:1280-1302 | in every reachable state, of two tasks of one session the later one holds a permit only if the earlier one does not wait |
| `DispatchFairness.NoWakeUpIsLost` | clawlite/channels/manager.py:1280-1302 | while a task waits, all permits of its session are held, or one of its tasks has been woken and is about to resume |
| `DispatchFairness.ResumeServesAll` | clawlite/channels/manager.py:1285-1286 | when a woken task resumes, all permits of its session are held afterwards, or nobody waits |
| `DispatchFairness.ReleaseHandsOn` | clawlite/channels/manager.py:1294-1302 | a release hands the permit to the task of its session that has waited longest and wakes nobody else |
| `DispatchFairness.ReleaseKeepsSlots` | clawlite/channels/manager.py:1253-1267 | a release forgets exactly as many slots as the table is over its limit, or as many as are unused |
| `DispatchFairness.OldestUnusedIsForgotten` | clawlite/channels/manager.py:1253-1302 | a slot that a release forgets has no tasks, and no slot kept without tasks was entered or left longer ago |
| `DispatchSlots.DispatchControls.PruneSessionSlots` | clawlite/channels/manager.py:1253-1267 | the loop drops as many unleased slots as the table is over its limit, the least recently used first |
| `DispatchSlots.DispatchControls.Enter` | clawlite/channels/manager.py:1269-1292 | acquiring takes a global permit, creates the slot if needed, leases it, and runs or queues the task |
| `DispatchSlots.DispatchControls.Release` | clawlite/channels/manager.py:1294-1302 | releasing gives both permits back, hands the session permit to the first waiter, and prunes |
| `IdempotencyCache.DeliveryIdempotency.Prune` | clawlite/channels/manager.py:341-361 | both loops together compute the pruned cache: expired pairs go first, then the oldest while there are too many keys, and a stale pair takes no key with it |
| `IdempotencyCache.DeliveryIdempotency.IsSuppressed` | clawlite/channels/manager.py:363-372 | a check prunes and answers whether the key is live |
| `IdempotencyCache.DeliveryIdempotency.Remember` | clawlite/channels/manager.py:374-380 | a confirmation replaces the key's expiry, appends a pair, prunes, and saves what is live |
| `IdempotencyCache.DeliveryIdempotency.Restore` | clawlite/channels/manager.py:448-473 | a restart merges the unexpired saved keys, keeps the larger expiry, and rebuilds the queue by expiry |
| `IdempotencyCache.MergedHasLatest` | clawlite/channels/manager.py:448-473 | a merge keeps of every key the latest expiry that the cache or the file has for it |
| `IdempotencyTimes.RememberedForTtl` | clawlite/channels/manager.py:363-380 | in numbers: a key confirmed in an empty cache is suppressed until `at + ttl` and no longer, if the cache may hold any key at all |
| `IdempotencyTimes.SuppressedForTtl` | clawlite/channels/manager.py:341-380 | over every run that drops no key out of turn, a key is suppressed exactly while less than `ttl` has passed since its last confirmation and at most `maxEntries` keys were confirmed since |
| `IdempotencyTimes.UnconfirmedIsNotSuppressed` | clawlite/channels/manager.py:363-372 | a key that was never confirmed is never suppressed |
| `IdempotencyHistory.PruneSettles` | clawlite/channels/manager.py:341-361 | after a prune that drops no key out of turn the live keys are an upper part of the history, all unexpired and not too many, and every other key can never be suppressed again |
| `IdempotencyHistory.SettledIsExact` | clawlite/channels/manager.py:363-372 | right after such a prune a key is live exactly when the history suppresses it |
| `IdempotencyHistory.OutOfTurnDisagrees` | clawlite/channels/manager.py:351-361 | a prune that drops a key although another one was confirmed longer ago loses a key the history still suppresses |
| `IdempotencyHistory.OvertakenIff` | clawlite/channels/manager.py:351-361 | while pairs stand in turn, the queue alone shows whether that happens: exactly when a copy of the oldest pair stands behind the last pair of another live key |
| `IdempotencyRuns.RunAgreesIff` | clawlite/channels/manager.py:341-473 | over every run of confirmations, checks and restarts on a clock that never goes back, the cache gives the answers of the history at all times if and only if no confirmation finds it full and drops a key out of turn |
| `IdempotencyRuns.ConfirmAgreesIff` | clawlite/channels/manager.py:374-380 | one confirmation keeps all later answers right exactly when it drops no key out of turn |
| `IdempotencyRuns.RestartKeepsTurnIff` | clawlite/channels/manager.py:382-473 | saving and restoring loses no answer, and leaves the queue in turn exactly when the file lists the keys in the order of their last confirmations |
| `IdempotencyRuns.ReloadKeepsInv` | clawlite/channels/manager.py:448-473 | restoring the file into the running cache, as an operator's replay does, loses no answer either, and queues the live keys as they are listed |
| `IdempotencyTies.CacheAgreesWithHistory` | clawlite/channels/manager.py:341-473 | in particular, different keys may share a reading: if no key is confirmed while it is remembered from the same reading and no restart reads a file out of order, a check suppresses a key exactly when it was confirmed less than a time to live ago and is among the most recently confirmed distinct keys |
| `IdempotencyTies.NewPairIsFair` | clawlite/channels/manager.py:374-380 | a confirmation meets that condition if its key was never confirmed at that reading before |
| `IdempotencyTies.StepKeepsSteady` | clawlite/channels/manager.py:363-473 | while keys are confirmed only when new to the cache or at a later reading than all others, as a checked send does, every file is in order, however many keys tie |
| `IdempotencyTies.RestartReordersTies` | clawlite/channels/manager.py:382-473 | why the file has to be in order: no key confirmed twice at one reading, but the dictionary keeps the place of a key confirmed again, so the file lists ties in the wrong order, and after the restart a third key drops the wrong one |
| `IdempotencyTies.EqualTimesDisagree` | clawlite/channels/manager.py:341-380 | why no key may be confirmed twice at one reading: with room for two keys, confirming a, b, a and c at once leaves a unsuppressed, although the history suppresses it |
| `AtMostOnce.KilledSendIsForgotten` | clawlite/channels/manager.py:1393-1460 | in any run, a send whose process was killed before the save of its key is not suppressed by any check after the restart, so the next delivery of the key sends it again |
| `AtMostOnce.WorkKeepsInv` | clawlite/channels/manager.py:1393-1460 | each delivery, each restart and each kill between a send and the save of its key keeps the saved sends equal to the cache's history, with no early repeat among them |
| `AtMostOnce.NoKeyIsSentTwiceWhileRemembered` | clawlite/channels/manager.py:1393-1460 | in any run of deliveries that do not overlap, restarts and kills included, the check before the later of two sends under one key comes at least `ttl` after the earlier one, or more than `maxEntries` distinct keys were sent in between, unless the process was killed between the earlier one and the save of its key |
| `Events.KeysAgreeIff` | clawlite/bus/queue.py:58-72 | the sender's key and the bus's key of an event agree exactly unless its explicit key is a falsy value other than a text |
| `Events.EnsuredKeyIsStable` | clawlite/channels/manager.py:331-339 | once ensured, the key survives every rewriting that keeps the key field, for the sender and for the bus |
| `Events.RowRoundTripIff` | clawlite/bus/journal.py:135-165 | an outbound event comes back from its journal row exactly when its attempt counters are not zero and its envelope is version 1 |
| `Events.DerivedKey` | clawlite/channels/manager.py:319-329 | a derived key is never blank or padded and starts with its prefix, so it can be told from the printed form of an odd explicit key |
| `Events.SameDerivedKeyIff` | clawlite/channels/manager.py:319-329 | under a digest without collisions, events whose ids and times are single lines share a derived key if and only if channel, session, target, text and creation time all agree |
| `Events.DerivedKeysDiffer` | clawlite/channels/manager.py:319-329 | events that differ in exactly one of the five have different derived keys, whatever line breaks they hold |
| `Events.ExplicitKeyWins` | clawlite/channels/manager.py:331-339 | a key given as a text that is not blank is the event's key, stripped, for sender and bus; a blank one is none |
| `BusLanes.AckRemovesOne` | clawlite/bus/journal.py:107-117 | acknowledging an open row takes exactly its event out of the unacknowledged ones, and leaves the others in order |
| `BusLanes.RunKeepsInv` | clawlite/bus/queue.py:121-173 | over all publishes, consumptions and restarts: remembered rows are open and carry their id, and the open rows are the remembered ones plus the orphans |
| `BusLanes.JournalCoversQueue` | clawlite/bus/queue.py:121-173 | for each correlation id at least as many rows are unacknowledged as events are queued, also when attempts reuse an id |
| `BusLanes.JournalMirrorsQueue` | clawlite/bus/journal.py:179-194 | while no id is published that is still queued, the unacknowledged rows in id order are exactly the queue in order |
| `BusLanes.FirstInFirstOut` | clawlite/bus/queue.py:121-173 | since the last restart, what was published is what was taken, in that order, followed by what is queued |
| `BusLanes.DrainedQueueLeavesOrphans` | clawlite/bus/queue.py:157-173 | when the queue is empty, exactly the orphaned rows are still open |
| `BusLanes.ReusedIdLeavesRowOpen` | clawlite/bus/queue.py:143-173 | two attempts under one id, both consumed, leave one row open for good |
| `BusQueue.SelectedIsPrefix` | clawlite/bus/queue.py:232-271 | what a drain selects is the first `limit` matches in queue order |
| `BusQueue.KeptKeepsOrder` | clawlite/bus/queue.py:232-271 | up to a cut the misses stay and after it everything stays, each in the old order; before the end of the queue the limit was reached |
| `BusQueue.NothingIsLost` | clawlite/bus/queue.py:232-271 | selected and kept events together are the queue, with multiplicity |
| `BusQueue.ReplayIsBoundedDrain` | clawlite/bus/queue.py:273-363 | a replay moves at most the limit, and a prefix of what a drain with that limit would select |
| `BusQueue.BusReplayKeepsKeyIff` | clawlite/bus/queue.py:58-72 | under a digest without collisions, a bus replay keeps an event's key if and only if the key is explicit or the new creation time is the old one |
| `BusQueue.ReplayKeepsContent` | clawlite/bus/queue.py:322-336 | what a bus replay sends is the dead letter with its texts and other metadata, marked as replayed, as a first attempt, under a new time and id |
| `BusQueue.PaddedKeyFindsNothing` | clawlite/bus/queue.py:232-310 | a replay compares the wanted key unstripped, so a padded one finds nothing; a drain finds the events of the stripped key |
| `BusQueue.FilterFinds` | clawlite/bus/queue.py:212-230 | a filter asks for channel, reason, session and key, each only if it is not blank |
| `BusQueue.MessageQueue.PublishInbound` | clawlite/bus/queue.py:121-141 | a publish appends the event and its row; on a full queue it raises when it may not wait and is left waiting when it may, in both cases without a change |
| `BusQueue.MessageQueue.NextInbound` | clawlite/bus/queue.py:157-163 | the oldest event is taken and its row acknowledged |
| `BusQueue.MessageQueue.PublishOutbound` | clawlite/bus/queue.py:143-155 | an event is appended with its row and its mirror entry, or dropped and counted when the queue is full; the mirrors stay equal to their queues |
| `BusQueue.MessageQueue.NextOutbound` | clawlite/bus/queue.py:165-173 | the oldest event is taken from queue and mirror and its row acknowledged |
| `BusQueue.MessageQueue.RestoreDeadLetters` | clawlite/bus/queue.py:194-200 | all events are appended in order to the queue and its mirror |
| `BusQueue.MessageQueue.DrainDeadLetters` | clawlite/bus/queue.py:232-271 | the drain returns exactly the first `limit` matches and leaves the rest in order, in queue and mirror |
| `BusQueue.MessageQueue.ReplayDeadLetters` | clawlite/bus/queue.py:273-363 | scanned is replayed plus kept; exactly the first matches, as many as limit and room allow, in numbers, move to the outbound tail, and everything else stays in order, the dropped ones included |
| `BusQueue.MessageQueue.NextDeadLetter` | clawlite/bus/queue.py:365-369 | the oldest dead letter leaves queue and mirror together |
| `StableSort.SortedIsInOrder` | clawlite/channels/manager.py:789-798 | the sort by creation time orders the records |
| `StableSort.SortedKeepsTies` | clawlite/channels/manager.py:789-798 | records of one creation time keep their order |
| `KeyedJournal.PutKeeps` | clawlite/channels/manager.py:789-798 | writing a record puts the journal in order, leaves one record under its key and no second one under any other, and changes no record with another key |
| `KeyedJournal.PutPlaces` | clawlite/channels/manager.py:789-798 | a written record stands behind all records that are not younger, those of the same time included, and the others keep their order around it |
| `KeyedJournal.LoadedIsIdentityIff` | clawlite/channels/manager.py:733-765 | a journal in order is read back as it was written exactly when no record needs cleaning |
| `InboundDurability.AcceptKeepsRecordIff` | clawlite/channels/manager.py:789-798 | after a message is accepted a key is journaled exactly when that message is loaded under it, or has another key and the key was journaled before: a malformed message evicts the record with its key |
| `InboundDurability.StepKeepsSafe` | clawlite/channels/manager.py:1211-1234 | every step keeps a key done or journaled, unless it accepts a malformed message under that very key |
| `InboundDurability.AcceptedIsDoneOrJournaled` | clawlite/channels/manager.py:2070-2091 | after any run of accepts, publishes, takes, completions, failures, lost clears, replays and crashes, an accepted message is done under its key or still journaled under it, if no message accepted under that key is malformed; messages under other keys may be anything |
| `InboundDurability.KeptIsDoneOrJournaled` | clawlite/channels/manager.py:2070-2091 | the same for a key whose last messages, from one accepted at any step on, are well-formed |
| `InboundDurability.JournaledIffLastIsWellFormed` | clawlite/channels/manager.py:733-807 | a key that is not done, and that no message under another key is cleaned into, is journaled if and only if the last message accepted under it is well-formed |
| `InboundFlow.JournaledIff` | clawlite/channels/manager.py:789-807 | in every run, a key that nothing is cleaned into is journaled if and only if the last step that accepted a message under it or cleared one accepted a well-formed one: what was cleared comes back with no restart |
| `InboundFlow.EveryMessageIsSomewhere` | clawlite/channels/manager.py:2070-2091 | in every run, since the last crash: what was accepted waits to be queued or was queued; what entered the queue was taken out, oldest first, or is still there; what was taken out runs, was completed or failed; what was completed waits to be cleared, was cleared, or lost its clearing |
| `InboundFlow.FirstWantedIs` | clawlite/channels/manager.py:868-930 | an operator replays the first matching records in journal order |
| `InboundDurability.AcceptedItselfIsDoneOrJournaled` | clawlite/channels/manager.py:733-807 | a well-formed message whose key is its own among the accepted ones is itself done or journaled, whatever else was accepted |
| `InboundDurability.JournalIsOrderedAndKeyed` | clawlite/channels/manager.py:733-807 | the journal is always sorted by creation time, holds only accepted messages, and at most one under a key that nothing is cleaned into |
| `InboundDurability.RestartQueuesFirstRows` | clawlite/channels/manager.py:809-835 | after any run a restart queues the first `limit` cleaned records in journal order and leaves the journal alone |
| `InboundDurability.RestartRequeuesAll` | clawlite/channels/manager.py:809-835 | with room for all records a restart queues every accepted message that is not done: under its key if no message under that key is malformed, and itself if the key is its own |
| `InboundJournal.WellFormedIff` | clawlite/channels/manager.py:514-529 | a message is loaded under its own key exactly when channel, session and user are not blank and its key is explicit or none of the three needs stripping |
| `InboundJournal.RecordsAreLawful` | clawlite/channels/manager.py:733-765 | what a load accepts the next load leaves alone |
| `InboundJournal.LoadedMessageIs` | clawlite/channels/manager.py:733-765 | a load drops exactly the records with a blank channel, session or user, and changes nothing but the padding of these three |
| `InboundJournal.RestoredMessageIs` | clawlite/channels/manager.py:502-512 | a message that went through the journal comes back as it was, but for its correlation id and envelope version |
| `InboundJournal.SameRecordKeyIff` | clawlite/channels/manager.py:514-529 | messages without explicit keys whose ids, printed metadata and times are single lines share a record key if and only if they agree in all six parts |
| `InboundJournal.ExplicitKeyWins` | clawlite/channels/manager.py:514-529 | an explicit key, stripped, is the record key; without one, or with a blank or false one, it is derived |
| `InboundJournal.JournalFile.Load` | clawlite/channels/manager.py:733-765 | the loop and the sort give the cleaned records in order |
| `InboundJournal.JournalFile.Persist` | clawlite/channels/manager.py:789-798 | the file afterwards is the loaded one with the record put in place of the one with its key |
| `InboundJournal.JournalFile.Clear` | clawlite/channels/manager.py:800-807 | the file afterwards is the loaded one without the record's key |
| `InboundJournal.JournalFile.Restore` | clawlite/channels/manager.py:809-835 | if nothing is queued, the first `limit` records are published in order until the queue is full; the rest wait, and the result tells how many were published and whether it waits |
| `Delivery.Failures` | clawlite/channels/manager.py:1421-1476 | the number of failed calls before the first success within the permitted tries |
| `Delivery.RevivalKeepsKeys` | clawlite/channels/manager.py:1717-1726 | preparing a dead letter for replay changes neither the sender's nor the bus's key |
| `Delivery.EnsuringKeepsKeys` | clawlite/channels/manager.py:331-339 | ensuring a key changes neither key, odd explicit keys included |
| `Delivery.PublishKeepsKeys` | clawlite/channels/manager.py:1506-1540 | a delivery puts at most one event at the end of the dead letters, under the keys of the one it was given, and exactly when it is lost |
| `Delivery.DeliveryIsWork` | clawlite/channels/manager.py:1393-1460 | a delivery with its attempts is one step of the checked-send history |
| `Delivery.PublishKeepsOrder` | clawlite/channels/manager.py:1506-1540 | after any delivery the log of sends still shows no key sent twice while it was remembered |
| `DeliveryProvenance.DeliveryTells` | clawlite/channels/manager.py:1393-1540 | every delivery ends in one of four ways: dropped, exactly if its channel is there and the policy forbids it, and then nothing at all changes; suppressed, without a call; confirmed by the last of at most the permitted calls, all earlier ones having failed; or lost, after exactly the permitted number of failed calls or for want of a channel |
| `DeliveryProvenance.LostIsKept` | clawlite/channels/manager.py:1479-1522 | a lost event is the last dead letter, its content unaltered, with the reason and the error of the last call |
| `DeliveryProvenance.DeliveryOffers` | clawlite/channels/manager.py:1421-1440 | a delivery offers one event for each call, the event itself under its number and with the error of the call before, and only if the policy allows it and its channel is there |
| `DeliveryRuns.PolicyIsObeyed` | clawlite/channels/manager.py:1533-1539 | in every run of deliveries, replays, reloads, restarts and kills: one call for each offered event, each offered event for one that the policy allowed as it stood when it was sent or revived, on a channel that was there, and no send that was not offered |
| `DeliveryRuns.DroppedIff` | clawlite/channels/manager.py:1304-1317 | a delivery is dropped if and only if its channel is there and it is a progress message where progress is off, or a tool hint where hints are off |
| `DeliveryRuns.NothingIsMadeUp` | clawlite/channels/manager.py:1393-1762 | whatever holds of the contents that a run brings in holds of all it offers and all it keeps as dead letters, however often they are retried, revived, set aside or restored |
| `DeliveryRuns.ReplayMarks` | clawlite/channels/manager.py:1712-1721 | whatever a replay sends is marked as replayed |
| `DeliveryRuns.ReportIsTrue` | clawlite/channels/manager.py:1722-1743 | a replay's report counts as replayed exactly what was sent and what the policy dropped, and as suppressed exactly what was suppressed |
| `DeliveryManager.ChannelManager.TryUntilConfirmed` | clawlite/channels/manager.py:1421-1476 | the attempts stop at the first success or after the last permitted failure; every attempt is offered to the outbound queue with its number and the last error |
| `DeliveryManager.ChannelManager.SendKeyed` | clawlite/channels/manager.py:1393-1504 | with a known key: suppressed and counted, or tried and then remembered or dead-lettered, with the whole new state in each case |
| `DeliveryManager.ChannelManager.RetrySend` | clawlite/channels/manager.py:1393-1504 | suppressed, confirmed at the first success, or dead-lettered after the last permitted failure, with the whole new state in each case |
| `DeliveryManager.ChannelManager.PublishAndSend` | clawlite/channels/manager.py:1506-1540 | an unknown channel dead-letters, the policy drops, everything else is the retry loop |
| `DeliveryManager.ChannelManager.ReplayOne` | clawlite/channels/manager.py:1700-1740 | one letter with the matched one's address is drained, set aside if its channel is gone, and otherwise published again; the suppression counter tells a suppressed one |
| `DeliveryManager.ChannelManager.ReplayDeadLetters` | clawlite/channels/manager.py:1641-1762 | the loop over the first `limit` matches, the return of those set aside, and the report, in which remaining is scanned minus replayed minus suppressed; for every key the queue holds what it held but for those; a dry run changes nothing |
| `DeadLetterReplay.ReplayConserves` | clawlite/channels/manager.py:1700-1743 | whatever a publisher leaves as it was is conserved: every letter is queued, set aside, or gone for good, counted one by one |
| `DeadLetterReplay.ReplayAccounts` | clawlite/channels/manager.py:1641-1762 | remaining is scanned minus replayed minus suppressed, and for every key the queue holds what it held but for those: failed and skipped letters are back |
| `DeadLetterReplay.EveryMatchHasItsTurn` | clawlite/channels/manager.py:1700-1711 | if matched letters are found by their addresses, none of them is found missing, duplicates and failures in between notwithstanding |
| `DeadLetterReplay.EveryLetterIsAccountedFor` | clawlite/channels/manager.py:1641-1762 | if no matched letter has a blank or padded address field or an odd key, replayed, failed, skipped and suppressed add up to the number asked for |
| `DeadLetterReplay.FindsItselfIff` | clawlite/channels/manager.py:1700-1711 | a letter is found by the drain made for it exactly when no address field is padded and its key is not odd |
| `DeadLetterReplay.ReplayKeepsOrder` | clawlite/channels/manager.py:1641-1762 | however many copies of a letter a replay finds, it sends none while its key is remembered |
| `DeadLetterReplay.JobsSendOnceWhileRemembered` | clawlite/channels/manager.py:1393-1762 | after any sequence of deliveries, replays, reloads, restarts and kills on a clock that never goes back, the check before the later of two sends under one key comes at least `ttl` after the earlier one, or more than `maxEntries` distinct keys were sent in between, unless the earlier one was cut off before its key was saved |
| `DeadLetterReplay.ManagerKeepsKeys` | clawlite/channels/manager.py:1506-1540 | the manager puts a lost letter back under the key it had, and changes nothing else in the queue |
| `CallbackSigning.DecodeUndoesEncode` | clawlite/channels/telegram.py:760-779 | the decoder undoes URL-safe base64 for every byte string |
| `CallbackSigning.PaddingIsRestored` | clawlite/channels/telegram.py:776-779 | stripping the padding and putting it back gives the encoding again; the stripped text has no dot and no equals sign |
| `CallbackSigning.JunkIsSkipped` | clawlite/channels/telegram.py:776-779 | a letter outside the alphabet, anywhere in a text, does not change what it decodes to |
| `CallbackSigning.StandardLettersAreTaken` | clawlite/channels/telegram.py:776-779 | plus and slash decode as minus and underscore, anywhere in a text |
| `CallbackSigning.SplitFields` | clawlite/channels/telegram.py:781-788 | the split at three dots gives the mark and the three fields back when the first two have no dot |
| `CallbackSigning.VerifyUndoesSign` | clawlite/channels/telegram.py:760-810 | for every non-empty secret, nonce and data, verification gives back what was signed; empty data alone is refused |
| `CallbackSigning.AcceptedIff` | clawlite/channels/telegram.py:781-810 | a payload is accepted exactly when a secret is set and it is three undotted fields, the last the first twelve bytes of the MAC over the first two, the second decoding to the data |
| `CallbackSigning.SameSignatureSameMac` | clawlite/channels/telegram.py:799-808 | two accepted payloads with one signature have one MAC over their own nonces and data |
| `CallbackSigning.AlteredPayloadIsRefused` | clawlite/channels/telegram.py:760-810 | a signed payload whose nonce or data was changed and whose signature was kept is accepted only if the changed text has the same MAC; unchanged fields give back the signed data |
| `CallbackSigning.RaisesIff` | clawlite/channels/telegram.py:781-810 | of all payloads, the check raises instead of refusing on exactly those with a secret set, three undotted non-empty fields, data that decode, and a signature outside ASCII |
| `MessageSplit.SanitizedIsClean` | clawlite/channels/telegram.py:141-153 | sanitizing twice is sanitizing once |
| `MessageSplit.SanitizedKeepsPlain` | clawlite/channels/telegram.py:141-153 | sanitizing loses nothing but control and replacement characters and changes nothing but line breaks |
| `MessageSplit.CutIsLastBlank` | clawlite/channels/telegram.py:156-172 | a cut is before the last newline or space that leaves at least half a message, else at the full length |
| `MessageSplit.DoubleNewlineNeverWins` | clawlite/channels/telegram.py:156-163 | the search for a double newline never decides a cut: the single newline lies further right |
| `MessageSplit.LongPartsAreTheText` | clawlite/channels/telegram.py:156-172 | the parts of a long line put together are the line |
| `MessageSplit.SplitLongSegment` | clawlite/channels/telegram.py:156-172 | the loop ends for every positive length and gives parts of at most that length, none of them empty |
| `MessageSplit.LinesAreTheText` | clawlite/channels/telegram.py:179-180 | the lines put together are the text |
| `MessageSplit.LinesAreLines` | clawlite/channels/telegram.py:179-180 | no line is empty, none breaks before its end, and all but the last break there |
| `MessageSplit.PartsAreTheLines` | clawlite/channels/telegram.py:175-194 | however lines are grouped into messages, the messages put together are the lines, and each fits |
| `MessageSplit.SplitMessage` | clawlite/channels/telegram.py:175-194 | the parts put together are the sanitized text; when it had to be split none is empty or too long, lines that fit are never broken, and each message holds as many lines as fit |
| `TelegramTargets.IntUndoesDecimal` | clawlite/channels/telegram_delivery.py:225-232 | a number is read back from its decimal text |
| `TelegramTargets.SessionRoundTrip` | clawlite/channels/telegram.py:698-708 | for every chat id without colon or padding that does not look like a session id, the session id parses to chat and thread, and so does the target made from it; the thread is kept when positive, in supergroups and private chats |
| `TelegramTargets.NumericIsChat` | clawlite/channels/telegram_delivery.py:235-260 | every numeric chat id, negative ones included, is such an id |
| `TelegramTargets.ThreadedTarget` | clawlite/channels/manager.py:1320-1349 | with either thread mark the session id gives chat and thread, as a target and when parsed itself |
| `TelegramTargets.NoTopic` | clawlite/channels/manager.py:1328-1335 | a chat with a thread mark is never taken for one with a topic mark |
| `DiscordTargets.SessionRoundTrip` | clawlite/channels/discord.py:1433-1445 | from channel, guild and user to the session id, to the target and back: the channel in a guild, else the user, or the channel if there is none |
| `DiscordTargets.GuildSlash` | clawlite/channels/discord.py:1447-1468 | a slash command's own guild session leads back to its channel |
| `DiscordTargets.DmSlash` | clawlite/channels/discord.py:1469-1470 | a slash command's own direct session leads back to its user |
| `DiscordTargets.IsolationKeepsRecipientIff` | clawlite/channels/discord.py:1447-1471 | a command's own session leads to the same recipient as the shared one, except for a guild command without a channel |
| `DiscordTargets.ParseTagged` | clawlite/channels/discord.py:1080-1120 | a tagged target is parsed to its id |
| `PairingStore.StepKeepsPending` | clawlite/channels/telegram_pairing.py:202-312 | every call keeps at most 256 pending requests with distinct codes and distinct pairs |
| `PairingStore.RunKeepsInv` | clawlite/channels/telegram_pairing.py:186-331 | after any calls from an empty store with a clock that never goes back: that, and no entry is approved twice |
| `PairingStore.NewRequestSurvives` | clawlite/channels/telegram_pairing.py:155-169 | the pruning after an issue never drops the new request, and drops nothing while there is room |
| `PairingStore.NewRequestIsPending` | clawlite/channels/telegram_pairing.py:202-246 | in every reachable state a newly issued request is pending when the call returns |
| `PairingStore.OnlyApproveAdds` | clawlite/channels/telegram_pairing.py:248-331 | only an approval that found its request adds entries, and only those it grants; only a revocation removes one |
| `PairingStore.EntriesComeFromApprovals` | clawlite/channels/telegram_pairing.py:248-284 | every approved entry goes back to an approval of a pending request |
| `PairingStore.ApproveGrants` | clawlite/channels/telegram_pairing.py:248-284 | while a request is pending, its code finds it: approving grants exactly its entries and uses the code up |
| `PairingStore.RejectForgets` | clawlite/channels/telegram_pairing.py:286-315 | rejecting a pending request's code takes exactly that request away and approves nobody |
| `PairingStore.RevokeTakesAway` | clawlite/channels/telegram_pairing.py:317-331 | revoking an approved entry takes exactly that entry away |
| `PairingStore.IssueTwiceKeepsCode` | clawlite/channels/telegram_pairing.py:218-228 | issuing again for a pending pair refreshes the request and keeps its code |
| `PairingStore.CodeIsRecognised` | clawlite/channels/telegram_pairing.py:249-250 | a code is recognised in upper or lower case and with padding |
| `PairingGuarantees.CodeWorksIff` | clawlite/channels/telegram_pairing.py:248-315 | a code is accepted, for approval or rejection, if and only if a request issued at most 3600 seconds ago and still pending has it |
| `PairingGuarantees.ListedIffApprovable` | clawlite/channels/telegram_pairing.py:186-200 | a request is listed if and only if approving its code finds it |
| `PairingGuarantees.ApprovalAdds` | clawlite/channels/telegram_pairing.py:262-278 | an approval adds the user id, and the user name with and without its sign if there is one, and nothing else |
| `PairingGuarantees.IssueAnswers` | clawlite/channels/telegram_pairing.py:202-246 | an issue answers with the pending request of the pair under the names given and the present second, or with a new one under the drawn code, or raises without a change, each exactly when it should |
| `PairingGuarantees.RevokeFailsIff` | clawlite/channels/telegram_pairing.py:317-331 | a revocation fails, without a change, exactly if the entry is not approved |
| `PairingGuarantees.LeastRecentlySeenGoes` | clawlite/channels/telegram_pairing.py:155-169 | with 256 requests pending a new one costs exactly one its place, one that was seen no later than any other |
| `PairingGuarantees.RequestStays` | clawlite/channels/telegram_pairing.py:155-315 | otherwise a request that is not an hour old stays under its code until that is used |
| `PairingGuarantees.RequestsComeFromIssues` | clawlite/channels/telegram_pairing.py:202-246 | every pending request was issued by some call, for its pair, under its code, at its time |
| `PairingGuarantees.ApprovalsFollowIssues` | clawlite/channels/telegram_pairing.py:202-284 | every approved entry goes back to an approval, and that to the issue of a request for the same pair under the approved code at most an hour before |
| `PairingGuarantees.AtMost256Pending` | clawlite/channels/telegram_pairing.py:155-169 | in numbers: after any calls at most 256 requests are pending, with distinct codes |
| `PairingGuarantees.NormalizedKeepsFirsts` | clawlite/channels/telegram_pairing.py:136-145 | of repeated entries the first stays, and those that stay keep the order of their first places |
| `PairingStore.TelegramPairingStore.NormalizeApproved` | clawlite/channels/telegram_pairing.py:136-145 | blanks and repeats go, the first of each stays |
| `PairingStore.TelegramPairingStore.PrunePending` | clawlite/channels/telegram_pairing.py:155-169 | expired requests go, then the least recently seen beyond 256; the flag tells exactly whether any went |
| `PairingStore.TelegramPairingStore.GenerateUniqueCode` | clawlite/channels/telegram_pairing.py:179-184 | the code differs from all taken ones and is one of the 500 drawn; failure means all 500 were taken |
| `PairingStore.TelegramPairingStore.IssueRequest` | clawlite/channels/telegram_pairing.py:202-246 | refreshes the pending request of the pair or adds one with a new code; blank ids and exhausted draws raise and change nothing |
| `PairingStore.TelegramPairingStore.ApproveCode` | clawlite/channels/telegram_pairing.py:248-284 | takes the first request with the code out and approves its user and user name |
| `PairingStore.TelegramPairingStore.RejectCode` | clawlite/channels/telegram_pairing.py:286-315 | takes the first request with the code out and approves nobody |
| `PairingStore.TelegramPairingStore.RevokeApproved` | clawlite/channels/telegram_pairing.py:317-331 | removes exactly the entry, if it is there |
| `ConfigLayers.DeepMerge` | clawlite/config/loader.py:19-26 | the loop over the overlay's keys computes the merge of the two layers, whatever the order of the keys |
| `ConfigLayers.OverlayTwice` | clawlite/config/loader.py:19-26 | merging the same overlay again changes nothing |
| `ConfigLayers.LeafWins` | clawlite/config/loader.py:19-26 | every value of the overlay that is not a mapping is found at its path in the result |
| `ConfigLayers.UntouchedSurvives` | clawlite/config/loader.py:19-26 | where the overlay says nothing, the lower layer is found as it was |
| `ConfigLayers.CoversIff` | clawlite/config/loader.py:19-26 | merging over a layer gives the overlay itself exactly when the overlay covers that layer |
| `ConfigLayers.AssociativeIff` | clawlite/config/loader.py:19-26 | three layers can be merged in either grouping exactly when, wherever the middle one replaces a mapping and the upper one has a mapping again, that one covers the first |
| `ConfigLayers.MigrateTwice` | clawlite/config/loader.py:81-127 | a migrated configuration is left as it is, for every configuration the migration accepts |
| `ConfigLayers.MigrateKeepsOthers` | clawlite/config/loader.py:81-127 | only the sections for tools, gateway and agents change |
| `ConfigLayers.LegacyTokenMoves` | clawlite/config/loader.py:92-103 | the legacy token leaves the gateway section for its auth section, where an explicit token wins, and the mode is a known one |
| `ConfigLayers.MigrateRaisesIff` | clawlite/config/loader.py:97-118 | the migration raises exactly when something that is neither a mapping nor false stands where it opens a section: the auth section when a legacy token has to move, the gateway or its heartbeat when there is a scheduler section, or the agents section or its defaults |
| `ConfigLayers.MigrateConfig` | clawlite/config/loader.py:81-127 | the code with its copies and updates computes that migration |
| `ConfigMigration.MigrateTouchesOnly` | clawlite/config/loader.py:81-127 | at every path that neither leads to nor through one of the six settings that move, at any depth, the migrated configuration reads as before |
| `ConfigMigration.LoopDetectionMoves` | clawlite/config/loader.py:84-90 | the legacy loop detection is copied where there is no new one, and one that is no mapping becomes an empty one |
| `ConfigMigration.TokenMoves` | clawlite/config/loader.py:92-103 | the legacy token is gone; if it is not blank it is the auth token unless there was one, and the mode stays if it is a known one and else is `required`; without one, auth is as it was |
| `ConfigMigration.IntervalMoves` | clawlite/config/loader.py:105-114 | the scheduler's interval becomes the heartbeat's exactly where that has none under either name |
| `ConfigMigration.ModelMoves` | clawlite/config/loader.py:116-125 | the provider's model becomes the default one exactly where there is none |
| `ContextWindow.TrimKeeps` | clawlite/core/context_window.py:24-77 | every system message and the last other one stay, and the other ones that stay keep their order |
| `ContextWindow.TrimFits` | clawlite/core/context_window.py:59-77 | the result costs at most the larger of the budget and what the system messages and the last one cost |
| `ContextWindow.TrimIsNewestFirst` | clawlite/core/context_window.py:69-77 | a message between is kept exactly when it fits beside the system messages, the last one and the kept newer ones |
| `ContextWindow.TrimTwice` | clawlite/core/context_window.py:24-77 | trimming the result again changes nothing |
| `ContextWindow.GreedyKeepsAll` | clawlite/core/context_window.py:69-75 | what fits as a whole is kept as a whole |
| `ContextWindow.Fitting` | clawlite/core/context_window.py:69-75 | the backward walk computes the greedy selection |
| `ContextWindow.ContextWindowManager.Trim` | clawlite/core/context_window.py:24-77 | the code computes that trim; without a budget or without other messages it returns the list as it is |

## Left out

- Network calls, payload extraction, authorization policies, typing indicators, media, rendering, the command line and status payloads: foreign calls or tables without a property of their own.
- The `updated_at` stamps, file locks, temporary files and failing or corrupted writes: a write is one step that succeeds; only an unreadable offset file is modelled.
- A filter file overwritten by a second instance between a save and a restart: the statements across restarts are about one instance that merges what others saved.
- WebhookRestarts.CommitSurvivesRestarts: keys with a legacy prefix or padding are excluded, since a load rewrites them (`SaveThenLoad`); the channel builds none for updates with an id.
- Update keys other than the update id: a delivery without an id carries its other key as one text, so its origin (inline query, callback, message) is not modelled.
- The order in which tasks waiting for the global semaphore get it: any waiting task may be next.
- asyncio semaphores of other Python versions than 3.12, whose order of waking differs.
- Dispatch exceptions other than cancellation inside the inner acquire: asyncio's acquire raises no others.
- Topic subscriptions and stop events of the bus, and the Redis bus.
- The capacity of the dead-letter queue: appending to a full one waits in the original and always succeeds here.
- What happens to a publisher that waits for room after it is resumed: the wait itself is an outcome.
- Overlapping sends of one delivery key: a check and the send after it are not atomic in the original, so two overlapping deliveries of one key can both send; the statements are about deliveries that do not overlap.
- IdempotencyCache.DeliveryIdempotency.Remember: the save right after a confirmation reads the clock a second time in the original; here it is the same moment.
- The journal file of dead letters: the same list of records as the inbound one, and its restart order is not modelled.
- Delivery statistics, back-off delays and streaming to Discord.
- Metadata values are texts, numbers, flags or null; nested metadata and lists are not modelled, and JSON encoding of such flat metadata is taken as faithful.
- Lower and upper case, digits and number parsing cover ASCII only.
- PairingStore.TelegramPairingStore.IssueRequest: all clock readings within one call are the same moment, and a hand-edited state file with padded or incomplete entries is not modelled.
- ConfigLayers.MigrateRaisesIff: lists as values are not modelled, so a section given as a list of pairs, which Python turns into a mapping, is not covered.
- ConfigLayers.MigrateConfig: lists as values are not modelled, so a section given as a list of pairs is not covered; the order of keys is not modelled.
- Environment overlays, profiles and file formats of the configuration.
- MessageSplit.SplitMessage: which characters count as control characters is a parameter; a length of 0 is excluded, since the original loop would not end.
- ContextWindow.ContextWindowManager.Trim: the cost of tool calls is the length of a given JSON text, and content parts are given as their texts.
- The circuit breaker for failed Telegram authorization, and retry delays.
- Email and WhatsApp seen-sets, which are simpler copies of the duplicate filter.
