# AnalyticsKit event batching, modelled in Dafny

AnalyticsKit is an iOS analytics client. It queues the events an app logs and
hands them to a transport (`Service`) in batches. This project models the parts
of it that decide what is sent, when, and what happens when a send fails:

- `events.dfy` (module `Events`): the queued value `SendingDelayedAnalyticsEvent`
  (an event reference and the time it was logged) and the outcome of one `send`.
- `event_batching.dfy` (module `EventBatching`): the array helpers. `oldestFirst`
  sorts by capture time. `shouldSendQueuedEvents` is the flush policy: ten events,
  or an oldest event at least 300 s old. `popEvents(batchSize:)` removes the front
  of the array with the source's descending `remove(at:)` loop.
- `analytics_manager.dfy` (module `Manager`): the `EventQueue` actor, the
  `Service` transport and the `AnalyticsManager` actor with `logCustomEvent`,
  `sendQueuedEventsWhenNecessary`, `forceSendingAllEvents` and `sendBatchOfEvents`.
  They are modelled as classes whose methods are proved equal to pure functions
  over a `Snapshot` of the queue, the transport and the acknowledged events.
  The properties are proved about those functions.
- `batch_sending_service.dfy` (module `LegacyBatching`): the older `CoreAnalytics`
  base class `BatchSendingAnalyticsService`. It has a tracking switch, a user id,
  a count-only policy and `sendingFailed(for:)`. Its batch step is the same
  `SendBatch` as the newer manager, and its force loop is the same `DrainAll`.
- `platform.dfy` (module `Platform`): the `Model` enumeration and its display
  strings, the `modelMap` table from Apple machine identifiers to models, and
  the fold that builds the identifier from the `utsname.machine` bytes.

The transport is an oracle: a finite list of the outcomes its next `send` calls
will have. A loop that needs another send when the list is exhausted stops and
returns `finished == false`. That means the run was cut off, not that the loop
ended. This is how the model states that a loop does not terminate:
for every finite oracle it is still running when the oracle runs out.

Time is whole seconds, and each operation takes the current time `now` as a
parameter.

Three behaviours of the code are easy to miss:

- A batch is the front of the queue in array order, not the oldest events by
  timestamp. `PopTakesFront` shows the two agree when the queue is already
  in time order.
- After a failed send, the batch is appended to the queue and the loop checks
  its condition again instead of stopping. With a transport that always fails,
  neither loop finishes (`DrainAllWithFailingServiceNeverFinishes`,
  `DrainWhileNecessaryWithFailingServiceNeverFinishes`).
- An empty popped batch is still passed to `send`. The loops never pop one when
  the batch size is positive (`DrainAllSendsNoEmptyBatch`,
  `DrainWhileNecessarySendsNoEmptyBatch`). With a batch size of 0, the force
  loop sends empty batches forever (`DrainAllWithZeroBatchSizeNeverFinishes`).

## Model

| member | source | states |
|---|---|---|
| EventBatching.Insert | Sources/AnalyticsKit/Internal/Array+SendingDelayedAnalyticsEvent.swift:4-8 | inserting into a time-ordered sequence keeps it ordered and adds exactly that one element; the new first element is the inserted one or the old first one |
| EventBatching.OldestFirst | Sources/AnalyticsKit/Internal/Array+SendingDelayedAnalyticsEvent.swift:4-8 | the result is ordered by non-decreasing `timeEventOccurred` and is a permutation (same multiset) of the input |
| EventBatching.ShouldSendQueuedEvents | Sources/AnalyticsKit/Internal/Array+SendingDelayedAnalyticsEvent.swift:9-15 | ten or more queued events always trigger sending, and an empty array never does |
| EventBatching.OldestFirstHeadIsOldest | Sources/AnalyticsKit/Internal/Array+SendingDelayedAnalyticsEvent.swift:13 | the first sorted element is one of the events and is no later than any of them |
| EventBatching.ShouldSendQueuedEventsCharacterized | Sources/AnalyticsKit/Internal/Array+SendingDelayedAnalyticsEvent.swift:9-15 | the policy holds iff there are at least 10 events or some event was logged at least 300 s before `now` |
| EventBatching.EmptyNeverSends | Sources/AnalyticsKit/Internal/Array+SendingDelayedAnalyticsEvent.swift:13 | the policy is false on an empty array at any time (the `?? 0` fallback) |
| EventBatching.ShouldSendIgnoresOrder | Sources/AnalyticsKit/Internal/Array+SendingDelayedAnalyticsEvent.swift:9-15 | two arrays with the same events in any order get the same decision |
| EventBatching.PopEvents | Sources/AnalyticsKit/Internal/Array+SendingDelayedAnalyticsEvent.swift:17-27 | returns `min(count, batchSize)` events, and popped ++ remaining is the original array; requires a non-negative batch size |
| EventBatching.PopTakesFront | Sources/AnalyticsKit/Internal/Array+SendingDelayedAnalyticsEvent.swift:17-27 | on a time-ordered array every popped event is no later than every remaining one |
| Manager.NextBatch | Sources/AnalyticsKit/Internal/Array+SendingDelayedAnalyticsEvent.swift:18-22 | the batch is a prefix of the queue, of length `min(count, batchSize)` and so at most `batchSize` |
| Manager.SendBatch | Sources/AnalyticsKit/Managers/AnalyticsManager.swift:80-95 | one outcome is consumed and the popped batch is recorded as sent; on success the queue shrinks by the batch and keeps the rest in order; on failure the queue has the same events and length and nothing is acknowledged; no event is lost or duplicated |
| Manager.FailedFirstBatch | Sources/AnalyticsKit/Managers/AnalyticsManager.swift:90-93 | after a failed send the queue is the rest followed by the failed batch, unchanged; nothing is acknowledged and the force loop carries on from there |
| Manager.SendBatchKeepsOnlyQueued | Sources/AnalyticsKit/Managers/AnalyticsManager.swift:80-95 | a send never adds events to the queue, whatever its outcome |
| Manager.SendBatchPopsFromQueue | Sources/AnalyticsKit/Managers/AnalyticsManager.swift:80-95 | a send records exactly one more batch; the queue afterwards plus that batch is at least as long as the queue before, and after a successful send that batch followed by the queue afterwards is exactly the queue before |
| Manager.FailedSendKeepsDecision | Sources/AnalyticsKit/Managers/AnalyticsManager.swift:90-93 | after a failed send re-enqueues its batch, the sending policy decides on the queue exactly as it did before the send |
| Manager.ShouldSendNeedsEvents | Sources/AnalyticsKit/Internal/Array+SendingDelayedAnalyticsEvent.swift:13 | the policy never holds on an empty queue |
| Manager.DrainWhileNecessary | Sources/AnalyticsKit/Managers/AnalyticsManager.swift:72-78 | conserves events; only appends sent batches, one per outcome used; when it finishes the policy is false, otherwise the oracle ran out while the policy still held |
| Manager.DrainWhileNecessaryStopsAtFirstDrop | Sources/AnalyticsKit/Managers/AnalyticsManager.swift:72-78 | for any outcomes and any event times, a queue on which the policy is false is left alone; from a queue on which it holds, a finished loop sent at least one batch, the outcome of its last send was a success, and that batch was popped from a queue on which the policy still held, so no batch is sent once the policy has turned false |
| Manager.DrainWhileNecessarySendsNoEmptyBatch | Sources/AnalyticsKit/Managers/AnalyticsManager.swift:74 | with a positive batch size, every batch the policy loop sends is non-empty |
| Manager.DrainAll | Sources/AnalyticsKit/Managers/AnalyticsManager.swift:62-70 | conserves events; when it finishes the queue is empty, otherwise the oracle ran out with events still queued |
| Manager.DrainAllSendsNoEmptyBatch | Sources/AnalyticsKit/Managers/AnalyticsManager.swift:65 | with a positive batch size, every batch the force loop sends is non-empty |
| Manager.DrainAllFinishes | Sources/AnalyticsKit/Managers/AnalyticsManager.swift:65-67 | if every send succeeds and there are enough of them, the force loop finishes with an empty queue |
| Manager.DrainAllDeliversEverything | Sources/AnalyticsKit/Managers/AnalyticsManager.swift:65-67 | under the same conditions the acknowledged events grow by exactly the queued events, once each, in queue order |
| Manager.SuccessfulStep | Sources/AnalyticsKit/Managers/AnalyticsManager.swift:80-88 | a successful send takes the batch off the front of the queue, acknowledges it, and leaves the rest drainable by the remaining outcomes |
| Manager.SuccessfulStepSendsFront | Sources/AnalyticsKit/Managers/AnalyticsManager.swift:65-67 | the first batch the force loop sends is the front of the queue |
| Manager.DrainAllSendsQueueInOrder | Sources/AnalyticsKit/Managers/AnalyticsManager.swift:65-67 | under the same conditions the batches sent, concatenated, are exactly the queue |
| Manager.DrainAllWithFailingServiceNeverFinishes | Sources/AnalyticsKit/Managers/AnalyticsManager.swift:90-93 | with a transport that always fails, the force loop never finishes, keeps the same events queued and acknowledges none |
| Manager.DrainWhileNecessaryWithFailingServiceNeverFinishes | Sources/AnalyticsKit/Managers/AnalyticsManager.swift:74-76 | the same for the policy loop once the policy holds |
| Manager.DrainAllWithZeroBatchSizeNeverFinishes | Sources/AnalyticsKit/Managers/AnalyticsManager.swift:65-67 | with batch size 0, the force loop never finishes and the queue never changes |
| Manager.RetriedBatchIsResentUnchanged | Sources/AnalyticsKit/Managers/AnalyticsManager.swift:90-93 | a batch that fails once and then succeeds reaches `send` twice unchanged and is acknowledged once |
| Manager.LastBatchEmptiesQueue | Sources/AnalyticsKit/Managers/AnalyticsManager.swift:65-67 | a queue that fits in one batch is sent whole and the loop ends |
| Manager.TwoSuccessfulBatches | Sources/AnalyticsKit/Managers/AnalyticsManager.swift:65-67 | a full batch then a last batch are sent and acknowledged in queue order |
| Manager.FailedBatchIsSentLast | Sources/AnalyticsKit/Managers/AnalyticsManager.swift:90-93 | a failed first batch goes behind the rest, so `send` receives p, q, then p again |
| Manager.Service.constructor | Sources/AnalyticsKit/Services/Service.swift:3-11 | a transport with a batch size and the outcomes of its next sends |
| Manager.Service.Send | Sources/AnalyticsKit/Services/Service.swift:3-11 | consumes one outcome and records the batch it was given |
| Manager.EventQueue.constructor | Sources/AnalyticsKit/Managers/AnalyticsManager.swift:100-103 | a new queue is empty |
| Manager.EventQueue.Add | Sources/AnalyticsKit/Managers/AnalyticsManager.swift:105-107 | appends exactly the one event and leaves the earlier events unchanged |
| Manager.EventQueue.Pop | Sources/AnalyticsKit/Managers/AnalyticsManager.swift:109-111 | returns the first `min(count, batchSize)` events, and the queue keeps the rest |
| Manager.EventQueue.Reenqueue | Sources/AnalyticsKit/Managers/AnalyticsManager.swift:113-115 | appends the given events at the end, in their order |
| Manager.AnalyticsManager.constructor | Sources/AnalyticsKit/Managers/AnalyticsManager.swift:10-16 | holds the given transport and queue, and nothing has been acknowledged yet |
| Manager.AnalyticsManager.SendBatchOfEvents | Sources/AnalyticsKit/Managers/AnalyticsManager.swift:80-95 | the new state is `SendBatch` of the old one; `wasSent` is called once per event of a successful batch; every logged event stays queued or acknowledged |
| Manager.AnalyticsManager.SendQueuedEventsWhenNecessary | Sources/AnalyticsKit/Managers/AnalyticsManager.swift:72-78 | the new state and the result are `DrainWhileNecessary` of the old state, and the invariant is kept |
| Manager.AnalyticsManager.ForceSendingAllEvents | Sources/AnalyticsKit/Managers/AnalyticsManager.swift:62-70 | the new state and the result are `DrainAll` of the old state, and the invariant is kept |
| Manager.AnalyticsManager.LogCustomEvent | Sources/AnalyticsKit/Managers/AnalyticsManager.swift:49-58 | enqueues exactly one event stamped `now`, then runs the policy loop |
| Manager.Log | Sources/AnalyticsKit/Managers/AnalyticsManager.swift:49-58 | the logged event is added to the events queued or acknowledged, and nothing else is; when the policy loop finishes the policy no longer holds |
| Manager.RecentEventsDoNotTriggerSending | Sources/AnalyticsKit/Internal/Array+SendingDelayedAnalyticsEvent.swift:9-15 | fewer than 10 events, none 300 s old, do not trigger sending |
| Manager.LogQueuesOnly | Sources/AnalyticsKit/Managers/AnalyticsManager.swift:49-58 | below both triggers, logging only appends the event and sends nothing |
| Manager.TenthEventSendsAll | Sources/AnalyticsKit/Managers/AnalyticsManager.swift:72-78 | ten queued events and a batch size of at least ten give one send of all ten, then the loop stops |
| Manager.LogOneEventScenario | Tests/AnalyticsKitTests/AnalyticsManagerTests.swift:6-22 | one logged event is queued and nothing reaches the transport |
| Manager.LogTenEventsScenario | Tests/AnalyticsKitTests/AnalyticsManagerTests.swift:24-46 | ten identical events with batch size 20 give exactly one send of all ten and an empty queue |
| LegacyBatching.DrainWhileAtThreshold | Sources/CoreAnalytics/Services/BatchSendingAnalyticsService.swift:70-74 | conserves events; when it finishes fewer than `threshold` events remain, otherwise the oracle ran out at or above the threshold |
| LegacyBatching.DrainWhileAtThresholdStopsAtFirstDrop | Sources/CoreAnalytics/Services/BatchSendingAnalyticsService.swift:70-74 | for any outcomes, a queue below the threshold is left alone; from the threshold up, a finished loop sent at least one batch, the outcome of its last send was a success, and that batch was popped from a queue at or above the threshold, so no batch is sent once the queue is below it |
| LegacyBatching.LogIfEnabled | Sources/CoreAnalytics/Services/BatchSendingAnalyticsService.swift:95-101 | while tracking is disabled nothing changes; otherwise it is the policy loop after appending the event (the extra `if` makes no difference) |
| LegacyBatching.DrainWhileAtThresholdKeepsTail | Sources/CoreAnalytics/Services/BatchSendingAnalyticsService.swift:70-74 | with successful sends the loop finishes; the delivered events followed by the remaining ones are the old delivered events followed by the old queue |
| LegacyBatching.NonPositiveThresholdNeverFinishes | Sources/CoreAnalytics/Services/BatchSendingAnalyticsService.swift:70-74 | a policy that holds on an empty queue makes the loop send forever |
| LegacyBatching.BatchSendingAnalyticsService.constructor | Sources/CoreAnalytics/Services/BatchSendingAnalyticsService.swift:9-36 | empty queue, tracking disabled, no user id, default policy of 10 events |
| LegacyBatching.BatchSendingAnalyticsService.WithThreshold | Tests/AnalyticsKitTests/BatchSendingAnalyticsServiceTests.swift:71-89 | the same with a subclass's own count threshold |
| LegacyBatching.BatchSendingAnalyticsService.ShouldSendQueuedEvents | Sources/CoreAnalytics/Services/BatchSendingAnalyticsService.swift:38-43 | holds once `threshold` events are queued (10 in the base class); with a positive threshold never on an empty queue |
| LegacyBatching.BatchSendingAnalyticsService.SendingFailed | Sources/CoreAnalytics/Services/BatchSendingAnalyticsService.swift:53-55 | appends the failed events unchanged at the end and changes nothing else |
| LegacyBatching.BatchSendingAnalyticsService.Send | Sources/CoreAnalytics/Services/BatchSendingAnalyticsService.swift:45-48 | records the batch; on success delivers it, on failure appends it to the queue again |
| LegacyBatching.BatchSendingAnalyticsService.SendBatchOfEvents | Sources/CoreAnalytics/Services/BatchSendingAnalyticsService.swift:57-68 | the new state is `SendBatch` of the old one: the first `min(count, sendBatchSize)` events are passed to `send` in order |
| LegacyBatching.BatchSendingAnalyticsService.SendQueuedEvents | Sources/CoreAnalytics/Services/BatchSendingAnalyticsService.swift:70-74 | the new state and the result are `DrainWhileAtThreshold` of the old state |
| LegacyBatching.BatchSendingAnalyticsService.ForceSendingAllEvents | Sources/CoreAnalytics/Services/BatchSendingAnalyticsService.swift:76-81 | the new state and the result are `DrainAll` of the old state |
| LegacyBatching.BatchSendingAnalyticsService.SetEnabled | Sources/CoreAnalytics/Services/BatchSendingAnalyticsService.swift:87-89 | writes `trackingEnabled` and nothing else |
| LegacyBatching.BatchSendingAnalyticsService.Configure | Sources/CoreAnalytics/Services/BatchSendingAnalyticsService.swift:91-93 | writes `userID` and nothing else |
| LegacyBatching.BatchSendingAnalyticsService.LogCustomEvent | Sources/CoreAnalytics/Services/BatchSendingAnalyticsService.swift:95-101 | the new state and the result are `LogIfEnabled` of the old state; the switch and the user id are unchanged |
| LegacyBatching.LoggingBelowThresholdOnlyQueues | Sources/CoreAnalytics/Services/BatchSendingAnalyticsService.swift:95-101 | below the threshold, logging only appends |
| LegacyBatching.OneBatchBringsBelowThreshold | Sources/CoreAnalytics/Services/BatchSendingAnalyticsService.swift:70-74 | when one full batch brings the queue below the threshold, the loop sends exactly that batch and keeps the rest |
| LegacyBatching.LogAtThresholdSendsOneBatch | Sources/CoreAnalytics/Services/BatchSendingAnalyticsService.swift:95-101 | logging the event that reaches the threshold sends the first full batch and keeps the rest, when that is enough to drop below the threshold |
| LegacyBatching.DisabledScenario | Sources/CoreAnalytics/Services/BatchSendingAnalyticsService.swift:95-97 | on a new service (tracking off) logging queues nothing and sends nothing |
| LegacyBatching.BelowThresholdScenario | Tests/AnalyticsKitTests/BatchSendingAnalyticsServiceTests.swift:12-19 | two events under a threshold of 3 stay queued and nothing is sent |
| LegacyBatching.ThresholdHitScenario | Tests/AnalyticsKitTests/BatchSendingAnalyticsServiceTests.swift:21-32 | at threshold 4 with batch size 2, one batch of 2 is sent and 2 events remain |
| LegacyBatching.ForceSendingAllScenario | Tests/AnalyticsKitTests/BatchSendingAnalyticsServiceTests.swift:34-46 | force-sending 4 events sends two batches of 2 in order and empties the queue |
| LegacyBatching.SendingFailureScenario | Tests/AnalyticsKitTests/BatchSendingAnalyticsServiceTests.swift:48-68 | a first failing batch is re-queued behind the rest and sent last; the queue ends empty |
| Platform.ModelCode | Sources/AnalyticsKit/UserAndDeviceInfo/Platform.swift:116-119 | the identifier is no longer than the byte field and contains no NUL character |
| Platform.RawValue | Sources/AnalyticsKit/UserAndDeviceInfo/Platform.swift:40-110 | the raw value of each model; only `unrecognized` is displayed as "Unrecognized" |
| Platform.ModelCodeAppend | Sources/AnalyticsKit/UserAndDeviceInfo/Platform.swift:116-119 | the fold over two byte runs is the concatenation of their folds |
| Platform.ModelCodeIsNonZeroChars | Sources/AnalyticsKit/UserAndDeviceInfo/Platform.swift:116-119 | the identifier is the non-zero bytes as characters, in order |
| Platform.ZeroByteIsSkipped | Sources/AnalyticsKit/UserAndDeviceInfo/Platform.swift:117 | a zero byte does not end the identifier: the bytes after it still count |
| Platform.UnrecognizedRawValue | Sources/AnalyticsKit/UserAndDeviceInfo/Platform.swift:40-110 | the raw values of `unrecognized` and `simulator` |
| Platform.SimulatorCodes | Sources/AnalyticsKit/UserAndDeviceInfo/Platform.swift:130-131 | `i386` and `x86_64` both map to the simulator |
| Platform.IPhone4Variants | Sources/AnalyticsKit/UserAndDeviceInfo/Platform.swift:146-148 | `iPhone3,1`, `iPhone3,2` and `iPhone3,3` all map to the iPhone 4 |
| Platform.IPhone12Code | Sources/AnalyticsKit/UserAndDeviceInfo/Platform.swift:228 | `iPhone13,2` gives the iPhone 12 and keeps the code |
| Platform.IPadPro1TbCode | Sources/AnalyticsKit/UserAndDeviceInfo/Platform.swift:193 | `iPad8,6` gives the 1 TB iPad Pro / M1 Mac model and keeps the code |
| Platform.UnlistedCode | Sources/AnalyticsKit/UserAndDeviceInfo/Platform.swift:233-236 | an identifier the table does not list gives `unrecognized` and keeps the code |
| Platform.ModelMapLookup | Sources/AnalyticsKit/UserAndDeviceInfo/Platform.swift:129-231 | the `modelMap` dictionary, one pattern per key; no entry maps to `unrecognized` |
| Platform.DeviceFor | Sources/AnalyticsKit/UserAndDeviceInfo/Platform.swift:233-236 | the device always carries the raw code; its model is `unrecognized` iff the code is not in the table, and otherwise it is the mapped model |

The `modelMap` keys are the literal patterns of `Platform.ModelMapLookup`, and
the raw values are the strings of `Platform.RawValue`. Both are copied entry by
entry from `Platform.swift`, in its order. Dafny reports a repeated literal as a
redundant branch, so the verified model has no repeated key. The lemmas about
single identifiers are spot checks; the table is right because it is a copy.

## Left out

- Mixpanel transports (HTTP, JSON and base64 encoding): replaced by the outcome oracle of `Manager.Service` and `BatchSendingAnalyticsService.outcomes`.
- Concurrency: the actors, `Task` spawning, actor re-entrancy and the `@Atomic` lock are modelled as sequential execution. Interleavings of `logCustomEvent` with a running force-send are not covered.
- `forceSendingAllEvents` in the newer manager starts an unstructured `Task { }`. The model runs it to completion as a method call.
- Lifecycle plumbing (`NotificationCenter` observers in both initialisers): force-send is a method any caller can invoke.
- `UserIdentifier.identifierForVendor()` and the user id passed to `send`: the transport's result is the oracle's, so the id is not modelled. The legacy `userID` field is kept; the base class's `send` does not read it, the Mixpanel subclass does (it puts it in each encoded event), and the model drops that use with the transport.
- The clock: `Date()` is re-read on every policy check in the source. `Manager.AnalyticsManager.SendQueuedEventsWhenNecessary` uses one `now` for the whole loop, so an event ageing past 300 s during a loop is not covered.
- Floating-point time: `timeIntervalSinceNow` is a `Double`. The model uses whole seconds.
- Logging (`Logger`, `NSLog`) and the event names and attributes, which only feed log lines and the transport.
- The legacy `send(events:)` of a subclass may call `sendingFailed(for:)` with any events. The model assumes it reports back exactly the batch it was given, as the tests' subclass does.
- Asynchronous failure reports in the legacy service: the Mixpanel subclass encodes and sends on `DispatchQueue.global()` and calls `sendingFailed(for:)` from the URLSession completion, so in production `send` returns at once, and `forceSendingAllEvents` or `sendQueuedEvents` can finish before a failed batch is put back. The model applies `sendingFailed` before `send` returns, as the tests' synchronous subclass does.
- Overridden policies in the legacy service: a subclass may override `shouldSendQueuedEvents()` with any rule. The model's `threshold` covers only count rules (the base class's 10, or a subclass's other count).
- Platform.RawValue: the contract proves only that "Unrecognized" belongs to `unrecognized` alone. That all 66 raw values are pairwise distinct (a guarantee of Swift's `String` raw-value enums) is not proved, because evaluating the inverse lookup for every case exceeds the proof budget.
- Platform.ModelMapLookup: each of the 101 entries is written directly from the dictionary literal; beyond its contract only the spot checks above are stated as lemmas.
- Platform queries (Metal support, test detection, RAM, memory statistics, disk space), app info, MetricKit and `Bytes` (floating point): foreign system calls.
- UserDefaults persistence (`UniqueAnalyticsEvent`, consent flag) and the `CoreAnalytics` manager that fans out to several services.
- Negative batch sizes: the Swift initialisers accept any `Int`, and a negative size only traps at the first pop, when `0..<min(count, n)` is formed. The constructors of `Manager.AnalyticsManager` and `LegacyBatching.BatchSendingAnalyticsService` require a batch size of 0 or more, so the model does not cover logging below the threshold with a negative batch size.
- Manager.DrainWhileNecessarySendsNoEmptyBatch: stated for a positive batch size only, because a batch size of 0 pops nothing.
- Manager.DrainAllSendsNoEmptyBatch: stated for a positive batch size only, because with batch size 0 the force loop does send empty batches (`Manager.DrainAllWithZeroBatchSizeNeverFinishes`).
