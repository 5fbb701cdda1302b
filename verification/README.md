# DexCost Go SDK: a verified model

The DexCost SDK records what an agent's work costs: LLM calls, external services, compute, GPU and network.
Events are stored in a local buffer, priced, attributed and delivered to a control plane. This project models the
parts of the Go SDK that carry state, loops or exact arithmetic, and proves properties over all inputs and all runs.

* **Delivery** (`Delivery*.dfy`, `Pusher.dfy`): the buffer's pending, synced and quarantined rows, the scan with
  quarantine, the recursive split under the payload limit, acknowledgement, retention and back-off. `Delivery` gives
  the protocol as functions on a world that also logs every body sent; the server's answers and the success of each
  storage call are arbitrary. `Pusher` holds the buffer and the pusher as classes whose methods compute exactly these
  functions; the other files prove safety, ordering, partition, drain, retention and the reaction to every answer over
  whole runs.
* **Attribution** (`Attribution.dfy`, `Contract.dfy`, `RecordForm.dfy`, `AttributionContract.dfy`, `Converter.dfy`,
  `ConvertedLines.dfy`, `Observation.dfy`, `ObservedLines.dfy` with `Wire.dfy`, `Names.dfy`, `Decimals.dfy`,
  `Timestamps.dfy`, `Json.dfy`): conversion of an event to an attribution v2 record, the contract as a set of broken
  rules and as the imperative pass that reports them, the records it accepts as a data type, the exact condition under
  which a conversion is accepted, and what the parts of a converted record say about its event; the same for the
  cross-field rules of v3, down to the lineage that recording stored.
* **Lineage and totals** (`Lineage.dfy`, `TaskEnd.dfy`, `TaskObject.dfy`): stamping of retry chains, and the totals of
  an ended task against its stored events when some updates fail.
* **Accumulators** (`Network.dfy`, `Heuristics.dfy`, `RecordedWindow.dfy`, `ResponseBody.dfy`, `Gpu.dfy`,
  `GpuObject.dfy`, `Sessions.dfy`): bounded or incremental state against the full history.
* **Streams, tokens and shares** (`Streaming.dfy`, `StreamMeaning.dfy`, `Tokens.dfy`, `TokenFields.dfy`, `TokenLines.dfy`,
  `Shares.dfy`): the server-sent event reader under every cutting of the bytes and what its objects say, token buckets,
  the fields they come from and their price, and shares of rented machines.

`dafny verify dfyconfig.toml` checks everything. Several proofs start with a `hide` statement, which keeps function
bodies that a step does not need out of the solver's way.

## What turned out not to hold

* **Retention without an acknowledgement.** `maintainBuffer` runs after every push that reports success, and a batch of
  oversized singletons succeeds without any request. `RetentionAckIff` says when retention runs and when such a push was
  acknowledged; `RetentionWithoutAck` is a run in which an old event that was never sent disappears.
* **Refilling a batch.** The scan asks for `batchSize - len(batch)` rows, but the rows already taken are still pending
  and come back first. `RefillIff` says when a page brings anything new, `FullBatchIff` when a batch gets full, and
  `GapNotRefilled` is the smallest window that is not refilled; the comment at the loop says gaps are filled. What is
  left is half a batch per push (`ScanIsPrefix`, `RunDrains`).
* **Order of events in the retry window.** An event with an earlier time prunes newer ones. `PrunedAgreesIff` is the
  exact condition, `OutOfOrderLosesMatch` and `OutOfOrderCreatesMatch` the two ways it fails.
* **`canonicalName` is not idempotent**: it cuts to 128 characters after trimming (`IdempotentIff`, `CutLeavesDash`).
* **Long durations wrap** in 64-bit nanoseconds: `PeriodExactIff`, `LongDurationRefused`.
* **Token counts can wrap**: two cache counts of 2^62 pass the check and leave a negative bucket (`OverflowAccepted`);
  `BucketsConserve` gives the exact condition.
* **Network back-fill.** The byte counts are read as 64-bit integers. Details that went through JSON hold floating
  point numbers and are read as zero: `FilledTrulyIff`, `UndecodedBytesCostNothing`.
* **Lost counts of attempts.** After `MarkNotRetry`, or when the history cannot be read, attempts keep a number that does
  not count their links. `StepExactIff` and `LineageExactIff` say exactly when, `ClearingBreaksCount` and
  `BlindRetryBreaksCount` are two runs; all of them stay acceptable (`LineageAccepted`, `StoredConvertsIff`).
* **Session identities** determine their caller exactly when no part contains a NUL (`IdentityDeterminedIff`,
  `NulCollides`), and context sessions are not capped (`RunsBounded`, `ContextExceedsCap`).
* **Stale GPU samples** from before a task are integrated past its duration (`StaleSampleExceeds`, `WithinDurationIff`).
* **Nothing measured** reaches v2 as one request and is refused by v3 when the operation succeeded (`NothingMeasured`).

## Model

| member | source | states |
|---|---|---|
| DeliverySplit.SplitProgress | go/transport/pusher.go:461-546 | On success the bodies and drops, in order, are exactly the input records, tasks first; on failure they are a prefix, every completed body was within 120,000 bytes and acknowledged, and the last one is the refused one |
| DeliverySplit.SplitMarksExactly | go/transport/pusher.go:461-546 | With working storage the tables afterwards are the replay of the completed entries and nothing else |
| DeliverySplit.SplitSucceeds | go/transport/pusher.go:461-546 | With working storage and an accepting server every split succeeds |
| DeliverySplit.ReplaySyncs | go/transport/pusher.go:480-504 | Replaying completed entries marks exactly the events and tasks they carry |
| DeliveryDrain.MarksInput | go/transport/pusher.go:461-546 | A successful split leaves both tables with every input event and task marked and every other row as it was |
| DeliveryDrain.MarksCompletedPrefix | go/transport/pusher.go:461-546 | After a refused request the marked events and tasks are exactly those of the completed leaves before it, a prefix of the input with tasks first |
| DeliveryDrain.SettledOnce | go/transport/pusher.go:461-546 | A successful split settles every input event and every input task by an entry, and by no second one |
| DeliveryScan.ScanIsPrefix | go/transport/pusher.go:204-274 | The scanned rows are a prefix of the pending window within the limits, the batch its convertible part, the failed rows the rest; unless the window or the scan limit is exhausted the batch is at least half full |
| DeliveryScan.NoStarvation | go/transport/pusher.go:212-274 | The first convertible event with fewer than scanLimit unconvertible ones before it is in the batch |
| DeliveryScan.RefillIff | go/transport/pusher.go:219-274 | The scan reads on exactly when rows are left and the next page is longer than the batch, which comes back at the head of every page |
| DeliveryScan.FullBatchIff | go/transport/pusher.go:212-274 | A batch is full exactly when some page aligned to the batch size converts whole and every page before it fails whole |
| DeliveryScan.GapNotRefilled | go/transport/pusher.go:219-274 | A failing row ahead of two good ones: a batch of two takes one and leaves the other |
| DeliveryScan.ScanLoopInv | go/transport/pusher.go:219-274 | Every page keeps the scan invariant and the limits; the loop ends only at the end of the window or when the next page would be no longer than the batch |
| DeliverySafety.SplitSafe | go/transport/pusher.go:461-546 | Splitting keeps the delivery invariant: rows are synced or quarantined only for a logged reason, and events follow their tasks |
| DeliveryRuns.PushBatchSafe | go/transport/pusher.go:204-323 | One whole push keeps the delivery invariant |
| DeliveryRuns.RunSafe | go/transport/pusher.go:204-382 | Every run of inserts, updates, restarts and pushes keeps the delivery invariant, whatever server and storage do |
| DeliveryRuns.DeliverySafe | go/transport/pusher.go:549-625 | In every reachable state a synced event was in an acknowledged body or was an oversized singleton, and a quarantined one failed to convert |
| DeliveryRuns.DependencyOrder | go/transport/pusher.go:276-316 | Every posted event's task is in the same body, in an earlier acknowledged one, or was dropped as oversized |
| DeliveryRuns.OnlyRetentionDeletes | go/transport/pusher.go:361-382 | An event leaves the table only in a push that runs retention, and only when older than seven days |
| DeliveryDrain.PushDrains | go/transport/pusher.go:204-323 | With an accepting server a push takes at least half a batch off the pending window, or all of it |
| DeliveryDrain.RunDrains | go/transport/pusher.go:204-323 | n pushes without inserts leave at most the pending events minus n half batches, so the window empties |
| DeliveryDrain.StoppedSendsNothing | go/transport/pusher.go:204-210 | Until a new key is set a stopped pusher sends nothing, and a run ends in the same world as with its pushes left out |
| DeliveryDrain.AckIffSomethingFits | go/transport/pusher.go:461-546 | A successful push contains an acknowledged body exactly when some record fits the limit alone |
| DeliveryDrain.RetentionAckIff | go/transport/pusher.go:361-382 | Retention runs exactly in a due push whose whole non-empty batch was completed, and such a push holds an acknowledged body exactly when some offered record fits the limit alone |
| DeliveryDrain.RetentionWithoutAck | go/transport/pusher.go:361-382 | A run with a dead server: behind an oversized event an old pending one, never sent, is deleted |
| DeliveryAnswers.StoppedIffRefused | go/transport/pusher.go:549-625 | In every run without a new key or a restart the pusher is stopped exactly when some posted body was answered with 401 or 403, and that is the last body posted |
| DeliveryAnswers.BackoffFollowsAnswers | go/transport/pusher.go:549-674 | After any run without a restart the back-off is the one the answers so far lead to, one after the other: zero after a 2xx without rejects, the wait clamped to 0..300000 ms after a 429 that names one, as before after 401, 403, 413 or a request that was not sent, otherwise a second at first and doubled up to 300000 ms |
| DeliverySelection.OfferedIff | go/transport/pusher.go:276-309 | Whatever the order, a push offers a task once exactly when it is pending and on the first page or needed by an event of the batch |
| DeliverySelection.SurfacedIff | go/transport/pusher.go:310-323 | A push asked to surface failures ends without an error only when every scanned row converted; a conversion error names exactly the rows that did not, in order |
| Pusher.SQLiteBuffer.InsertEvent | go/transport/buffer.go:339-388 | A new event becomes pending in index order; a known id or unknown task fails |
| Pusher.SQLiteBuffer.InsertTask | go/transport/buffer.go:173-218 | A new task becomes pending in index order; a known id fails |
| Pusher.SQLiteBuffer.UpdateEvent | go/transport/buffer.go:390-437 | The row takes its new columns and keeps its status; the other rows, the order and who is pending stay; an unknown id changes nothing, an unknown task fails |
| Pusher.SQLiteBuffer.UpdateTask | go/transport/buffer.go:220-252 | The named task takes the new content and is in the pending window again; every other row is as it was |
| Pusher.SQLiteBuffer.QueryPendingEvents | go/transport/buffer.go:457-472 | The first pending events in index order |
| Pusher.SQLiteBuffer.QueryPendingTasks | go/transport/buffer.go:683-698 | The first pending tasks in index order |
| Pusher.SQLiteBuffer.QueryTasksByIDs | go/transport/buffer.go:653-681 | Exactly the pending tasks among the ids, in order; no ids, no query |
| Pusher.SQLiteBuffer.MarkSynced | go/transport/buffer.go:474-493 | The named events become synced and leave the pending window, which keeps its order; every other row is as it was |
| Pusher.SQLiteBuffer.MarkQuarantined | go/transport/buffer.go:495-513 | Of the named events the pending ones are quarantined and leave the window; synced ones and every other row are as they were |
| Pusher.SQLiteBuffer.MarkTasksSynced | go/transport/buffer.go:700-718 | The named tasks become synced and leave the pending window, which keeps its order; every other row is as it was |
| Pusher.SQLiteBuffer.PurgeSyncedEvents | go/transport/buffer.go:720-732 | Exactly the synced events before the time are gone; the pending window is untouched |
| Pusher.SQLiteBuffer.PurgeOldPendingEvents | go/transport/buffer.go:734-744 | Exactly the unsynced events before the time are gone; the synced ones stay in order, and the window keeps its recent part |
| Pusher.EventPusher.constructor | go/transport/pusher.go:91-126 | A batch size of zero becomes 100; nothing was sent |
| Pusher.EventPusher.SetAPIKey | go/transport/pusher.go:180-185 | A new key lets a stopped pusher continue |
| Pusher.EventPusher.IncreaseBackoff | go/transport/pusher.go:639-648 | Back-off starts at a second and doubles up to five minutes |
| Pusher.EventPusher.SetRateLimitBackoff | go/transport/pusher.go:662-674 | A server wait is clamped to 0..300 s |
| Pusher.EventPusher.PostRaw | go/transport/pusher.go:549-625 | Success exactly for a 2xx without rejects, stopped exactly by 401 and 403, and the back-off that this answer calls for, besides the log of the body and its answer |
| Pusher.EventPusher.PushWithSplit | go/transport/pusher.go:461-546 | The recursive split computes the specified world and error |
| Pusher.EventPusher.PushLeaf | go/transport/pusher.go:480-504 | One body: sent, then its events and tasks marked |
| Pusher.EventPusher.DropSingleton | go/transport/pusher.go:530-545 | A record over the limit alone is marked without sending |
| Pusher.EventPusher.MaintainBuffer | go/transport/pusher.go:361-382 | Retention runs at most hourly and deletes as specified |
| Pusher.EventPusher.ScanPending | go/transport/pusher.go:212-274 | The scan loop computes the specified batch, failures and state |
| Pusher.EventPusher.ScanOnePage | go/transport/pusher.go:223-273 | One page of the scan, including the decision to go on |
| Pusher.EventPusher.ReadPage | go/transport/pusher.go:237-257 | Rows not read before, split by whether they convert |
| Pusher.EventPusher.QuarantinePage | go/transport/pusher.go:259-268 | The unconvertible rows of a page are quarantined and logged |
| Pusher.EventPusher.PushBatch | go/transport/pusher.go:204-323 | One push of the loop computes the specified world and error |
| Pusher.EventPusher.PushSelected | go/transport/pusher.go:310-323 | Sending, then retention, then surfaced conversion failures |
| Pusher.EventPusher.SelectTasks | go/transport/pusher.go:276-309 | The first pending tasks and the pending tasks the batch depends on, in any order |
| Contract.ValidateEventV2 | go/attribution/validate.go:44-278 | The pass reports every broken rule and no other; success means none |
| Contract.CheckUsage | go/attribution/validate.go:149-189 | One pass with seen metrics finds exactly the repeated metrics, wrong units and quantities of every line |
| Contract.CheckLine | go/attribution/validate.go:158-188 | The issues of one line, given the metrics before it |
| Contract.ScanKeys | go/attribution/validate.go:280-290 | Unknown fields in any order of iteration |
| RecordForm.AcceptedForm | go/attribution/validate.go:44-278 | A value is accepted exactly when it is the JSON form of a well-formed record, the one read back from it |
| RecordForm.WrittenReadsBack | go/attribution/types.go:79-129 | Reading the JSON form of any record gives the record back |
| RecordForm.WrittenAcceptedIff | go/attribution/validate.go:44-278 | A record is accepted exactly when it is well-formed: names, times, distinct metrics in canonical units, consistent cost, and what its lifecycle state may assert |
| RecordForm.IdentityForm | go/attribution/validate.go:58-72 | The identity members are accepted exactly when they are the texts of a well-formed identity and no other member is present |
| RecordForm.ProviderForm | go/attribution/validate.go:74-90 | A provider is accepted exactly when it is the JSON form of a well-formed one |
| RecordForm.ResourceForm | go/attribution/validate.go:92-107 | A resource is accepted exactly when it is absent or the JSON form of a well-formed one |
| RecordForm.LifecycleForm | go/attribution/validate.go:109-128 | A lifecycle is accepted exactly when it is the JSON form of a known state and a revision from 1 to 2^31 - 1 |
| RecordForm.PeriodForm | go/attribution/validate.go:130-147 | A period is accepted exactly when it is absent or the JSON form of a readable start and an open or later end |
| RecordForm.UsageForm | go/attribution/validate.go:149-189 | A usage array is accepted exactly when it is the JSON form of at most 32 well-formed lines of distinct metrics |
| RecordForm.CostForm | go/attribution/validate.go:191-234 | Cost evidence is accepted exactly when it is absent or the JSON form of consistent evidence |
| RecordForm.SummaryForm | go/attribution/validate.go:236-277 | Once the sections are in order, the cross-field rules hold exactly when the record asserts what its state may assert |
| AttributionContract.ConvertsIff | go/attribution/convert.go:361-399 | An event is converted exactly when something is measured, its quantities and cost are below 10^26, its evidence can be written and its times lie in years 0 to 9999 in order; the result is the draft |
| AttributionContract.DraftAcceptedIff | go/attribution/validate.go:44-278 | A drafted record breaks no rule exactly under these conditions |
| AttributionContract.PartsSendable | go/attribution/convert.go:242-357 | Whatever is measured: known component, one to 32 lines, distinct metrics, positive quantities of at most twelve places |
| AttributionContract.ProviderForOk | go/attribution/convert.go:100-168 | Every event's provider identity satisfies the contract |
| AttributionContract.ResourceForOk | go/attribution/convert.go:170-201 | Every event's resource satisfies the contract |
| AttributionContract.EvidenceForOk | go/attribution/convert.go:203-240 | Cost evidence satisfies the contract exactly when amount, confidence and version fit |
| AttributionContract.UsageOk | go/attribution/validate.go:149-189 | Written lines satisfy the contract exactly when every quantity is below 10^26 |
| AttributionContract.PeriodExactIff | go/attribution/convert.go:381-388 | The period covers the measured duration exactly when that is at most 2^63 nanoseconds, and is then in order |
| AttributionContract.LongDurationRefused | go/attribution/convert.go:381-397 | An external call of 9223372036 seconds is converted while its years can be written; one second more wraps, and it is refused |
| AttributionContract.LinesReadBack | go/attribution/convert.go:72-91 | Every written line below the limit matches the grammar and denotes the measured quantity |
| AttributionContract.UuidTextMatches | go/attribution/validate.go:23 | Every identifier's text matches the contract's pattern |
| AttributionContract.UuidTextInjective | go/attribution/convert.go:370 | Distinct identifiers have distinct texts |
| ConvertedLines.ConvertedAmounts | go/attribution/convert.go:242-399 | A record has one line, in its metric's unit and denoting the amount, for each amount its event's kind measures that is positive once rounded, and no other line; one request when there is none. Network: bytes_out is request_bytes, bytes_in response_bytes. Compute: seconds, vCPU seconds, memory over the time, invocations. GPU: measured or elapsed seconds. External: the quantity in the named or implied metric. LLM: the five token counts |
| ConvertedLines.EventMeasures | go/attribution/convert.go:242-357 | The amounts by kind, before they are written |
| ConvertedLines.MeasuredIff | go/attribution/convert.go:242-357 | An event is measured exactly when it is of a billable kind and, for a model call, has no usage error, cached tokens within the input and reasoning within the output |
| ConvertedLines.FirstNumber | go/attribution/convert.go:21-47 | A number is read from the first of its keys that holds one; there is none exactly when no key does |
| ConvertedLines.RecordSays | go/attribution/convert.go:361-373 | A record names its event, task and retried event, its time reads back as the event's, and its component is that of the event's kind |
| ConvertedLines.PeriodSays | go/attribution/convert.go:374-388 | A record has a period exactly when it measures time or a duration; it ends at the event and, up to 2^63 nanoseconds, starts that duration earlier |
| ConvertedLines.PriceSays | go/attribution/convert.go:203-240 | Evidence is present exactly for a positive cost that a person, the provider or a versioned SDK price vouches for; it denotes the cost, and an SDK price is never exact |
| ConvertedLines.ModelProvider | go/attribution/convert.go:100-124 | A model provider is named by the first known word in its recorded name, or keeps its own name |
| Converter.ToEventV2 | go/attribution/convert.go:361-399 | Building the record piece by piece, validating and keeping it computes the conversion |
| Converter.WriteLines | go/attribution/convert.go:374-380 | The lines as written, and whether any measures time |
| Decimals.QuantityText | go/attribution/convert.go:72-83 | The text of a positive quantity satisfies the contract's grammar exactly below 10^26, and then denotes it |
| Decimals.WireQuantity | go/attribution/convert.go:72-83 | Quantities of at most twelve places go out unchanged; longer ones are rounded to the nearest, ties up, and left out exactly when that is zero |
| Decimals.DivisionsExact | go/attribution/convert.go:284-297 | Milliseconds as seconds and bytes as GiB times their divisor give the number back |
| Decimals.DigitsShape | go/attribution/validate.go:25 | Digits without leading zeros that denote the number |
| Names.CanonicalNameMatches | go/attribution/convert.go:58-70 | Whatever the input, a canonical name matches the contract's pattern |
| Names.IdempotentIff | go/attribution/convert.go:58-70 | A canonical name is its own canonical name exactly when cleaning leaves at most 128 characters or a letter or digit at the cut; for the fallback, when nothing of it is a name or it is clean already |
| Names.CutLeavesDash | go/attribution/convert.go:58-70 | 127 letters, a dash and a letter: a second pass shortens the name |
| Timestamps.FormatReads | go/attribution/convert.go:19 | A canonical time is accepted exactly in years 0 to 9999 and reads back as the same instant |
| Timestamps.DateRoundTrip | go/attribution/validate.go:301-313 | Counting back from the date of a day gives the day |
| Observation.ToObservationIff | go/attribution/v3_convert.go:296-373 | An event becomes an observation exactly when its measured parts fit and its own lineage details are complete |
| Observation.StoredConvertsIff | go/attribution/v3_convert.go:252-373 | An event whose lineage was stored in any run of recording, failing and clearing is converted exactly when its measured parts fit |
| Observation.StampReadsBack | go/core/tracker.go:327-335 | Conversion reads back the operation and the number that stamping wrote |
| Observation.MappedFits | go/attribution/v3_convert.go:148-201 | Whatever is measured: positive lines, canonical units, distinct metrics |
| Observation.ExplicitV3Dimensions | go/attribution/v3_convert.go:91-146 | The parsing loop: all dimensions, or nothing if any is malformed |
| Observation.DimensionsForm | go/attribution/v3_convert.go:91-146 | A list is read as given dimensions exactly when it holds their JSON forms in order, at most 24, each with a canonical key and a value of its declared type |
| ObservedLines.ObservedAmounts | go/attribution/v3_convert.go:148-201 | An observation's lines are the amounts of the event's kind in their units, a metric of the caller's own, or a signal's six readings |
| ObservedLines.StatusSays | go/attribution/v3_convert.go:237-250 | A stated final status is kept; otherwise a signal's is unknown, and a retry marker or a recorded error makes the operation failed |
| Observation.NothingMeasured | go/attribution/v3_convert.go:302-308 | A succeeded call that measured nothing becomes one request in v2 and no observation in v3, whatever the schema says |
| Lineage.WalkBounds | go/core/tracker.go:299-327 | On any stored links the walk ends, with a well-formed operation and an attempt of at least two |
| Lineage.StepKeeps | go/core/tracker.go:530-608 | Recording, failing and clearing keep every stored lineage in order |
| Lineage.LineageAccepted | go/attribution/v3_convert.go:252-292 | In every reachable state below 2^31 - 1 events, v3 accepts each lineage: retries have a number of at least two and their operation, others number one |
| Lineage.GoodAccepted | go/attribution/v3_validate.go:170-184 | A stored lineage is accepted exactly when its attempt fits 31 bits |
| Lineage.StepExactIff | go/core/tracker.go:285-336 | A step keeps every attempt number equal to one plus the links to its root exactly when it neither stores a retry of a retry without its history nor clears a retry that is retried itself |
| Lineage.LineageExactIff | go/core/tracker.go:285-336 | Over whole runs the numbers and operations are exact in every state exactly when every step is of that kind |
| Lineage.ClearingBreaksCount | go/core/tracker.go:563-608 | Three recorded calls and one clearing: the last number no longer counts its links, yet everything is still accepted |
| Lineage.BlindRetryBreaksCount | go/core/tracker.go:292-297 | A retry of a retry stored while the history cannot be read is counted as a second attempt |
| Lineage.TrackedTask.StampRetryLineage | go/core/tracker.go:285-336 | The walk with its visited set computes the specified stamp |
| Lineage.TrackedTask.Record | go/core/tracker.go:530-557 | A retry is stamped and stored |
| Lineage.TrackedTask.MarkNotRetry | go/core/tracker.go:563-608 | The named or the last retry event gets a lineage of its own |
| Lineage.TrackedTask.FindTarget | go/core/tracker.go:579-596 | First event with the identifier, or else the last retry event |
| Lineage.TargetSays | go/core/tracker.go:579-596 | The target is the first retry event of the given name, or the last retry event; none exactly when there is none |
| TaskEnd.EndTotals | go/core/tracker.go:611-730 | After the call LLM, external and compute totals are the sums of the stored events, GPU the gain of its events, and the total is their sum plus network cost plus back-filled network events, whichever writes failed |
| TaskEnd.EndAdvances | go/core/tracker.go:745-922 | Every stored event is as before, or carries its price and is no longer pending |
| TaskEnd.EndPrices | go/core/tracker.go:745-922 | A back-filled event carries the price of its own kind's engine; a network event that of its decoded bytes in both directions, nothing if internal |
| TaskEnd.EndRetries | go/core/tracker.go:639-691 | Retry cost and count are the summed costs, when it ended, and the number of the events that are retry markers or flagged as retries, whatever their kind |
| TaskEnd.TotalsAreSums | go/core/tracker.go:639-691 | After the call LLM, external and compute totals are the summed costs of the stored events of that kind, and the GPU total grew by what the stored GPU events gained |
| TaskEnd.EgressByTheGigabyte | go/core/tracker.go:838-844 | Network cost is the external bytes in units of 10^9 at the rate |
| TaskEnd.NothingPending | go/core/tracker.go:745-922 | When every write succeeds nothing the finalizers handle is pending |
| TaskEnd.FillSums | go/core/tracker.go:779-807 | A back-fill walk moves its kind's stored cost by exactly its delta, and no other kind's |
| TaskEnd.FillPending | go/core/tracker.go:779-807 | Exactly the updated events stop being pending |
| TaskEnd.NetworkTotalAsStored | go/core/tracker.go:860-916 | The back-filled part of the total is what the stored network events gained |
| TaskEnd.FilledTrulyIff | go/core/tracker.go:860-916 | The back-filled network cost is at most what the updated events' bytes cost, and equals it exactly when each is internal, free, or has counts that decode or are zero |
| TaskEnd.UndecodedBytesCostNothing | go/core/tracker.go:871-888 | A task with one event whose counts do not decode ends with it settled at zero, below its true cost |
| TaskObject.TrackedTask.End | go/core/tracker.go:611-636 | Ends once; computes the specified state and result |
| TaskObject.TrackedTask.AggregateCosts | go/core/tracker.go:639-691 | One pass over the events yields the first totals |
| TaskObject.TrackedTask.FinalizeNetwork | go/core/tracker.go:816-922 | Network cost, back-filled events and their part of the total |
| TaskObject.TrackedTask.FinalizeCompute | go/core/tracker.go:745-807 | Snapshot event, back-fill by delta |
| TaskObject.TrackedTask.FinalizeGpu | go/core/gpu_finalize.go:32-111 | Snapshot when no GPU event exists, signals, back-fill by delta |
| TaskObject.TrackedTask.BackFillWalk | go/core/gpu_finalize.go:84-110 | A failed update leaves its event and the totals alone |
| Network.LedgerAgrees | go/core/network_accountant.go:54-96 | After any calls each live host holds its exact sums and the overflow row everything else |
| Network.ColumnSums | go/core/network_accountant.go:54-96 | Each column of a host is the sum of its own count over the calls to it, negative counts as zero; external bytes are those sent to destinations not known to be internal |
| Network.ReportConserves | go/core/network_accountant.go:130-196 | All rows of the report sum to the history's totals, column by column |
| Network.ReportExact | go/core/network_accountant.go:149-187 | Named rows are exact and unique, at most 21 rows |
| Network.ReportRanks | go/core/network_accountant.go:143-167 | No host folded by rank outweighs a listed one |
| Network.EgressAddsUp | go/core/tracker.go:841-858 | Per-host egress costs sum exactly to the network cost |
| Network.NetworkAccountant.Record | go/core/network_accountant.go:54-96 | One call enters the totals and one row; nothing after freezing |
| Network.NetworkAccountant.Finalize | go/core/network_accountant.go:130-196 | Freezes and reports a ranking of the recorded hosts |
| Network.NetworkAccountant.Rank | go/core/network_accountant.go:135-147 | A descending listing of the map |
| Heuristics.WindowRefines | go/core/heuristics.go:77-181 | For events in time order the pruned list answers as the whole history |
| Heuristics.VerdictSays | go/core/heuristics.go:111-181 | A call is a retry exactly when the last earlier other call of its model failed with a transient error within the window and the error's weight, falling linearly with time, reaches the threshold; confidence, event and reason are those |
| Heuristics.RetainedIsSuffix | go/core/heuristics.go:77-107 | The retained events are those within the window of the last one |
| Heuristics.RetainedIff | go/core/heuristics.go:77-107 | In any order of times an event is retained exactly when it is within the window of every later one |
| Heuristics.PrunedAgreesIff | go/core/heuristics.go:77-181 | For any history the pruned list answers as the whole one exactly when no match was lost with the last call and none created by dropping it |
| Heuristics.OutOfOrderLosesMatch | go/core/heuristics.go:77-107 | A late event prunes a failed call and its retry is not seen |
| Heuristics.OutOfOrderCreatesMatch | go/core/heuristics.go:77-107 | A late event prunes a successful call and an earlier failure looks like it is retried |
| Heuristics.RetryHeuristicEngine.Record | go/core/heuristics.go:77-107 | Appends to the task's history after pruning |
| Heuristics.RetryHeuristicEngine.Check | go/core/heuristics.go:111-181 | The backward walk gives the verdict on the retained list, and on the whole history when in order |
| RecordedWindow.WindowDistinct | go/adapters/http.go:577-593 | Identifiers in the window are always distinct |
| RecordedWindow.Recorder.StoreRecordedEvent | go/adapters/http.go:577-593 | Refused exactly when the id is among the last 10,000 accepted since the last clear |
| RecordedWindow.Recorder.ClearRecordedEvents | go/adapters/http.go:164-169 | Buffer and id set are empty |
| ResponseBody.ReportedOnce | go/adapters/http.go:857-880 | Any mix of reads and closes reports once, with the bytes read by then |
| ResponseBody.ReportSays | go/adapters/http.go:871-914 | The report has headers plus the bytes read by the first end of file or close as response, and the request bytes as request; an event follows exactly for large, failed or slow calls of unknown services |
| ResponseBody.RecordingReadCloser.Read | go/adapters/http.go:857-864 | Counts, and reports at end of file |
| ResponseBody.RecordingReadCloser.Close | go/adapters/http.go:866-869 | Reports unless already done |
| ResponseBody.RecordingReadCloser.MaybeFinalize | go/adapters/http.go:871-914 | One report, and an event when the call is notable |
| Gpu.ScheduleIndependent | go/core/gpu_accountant.go:263-296 | Any gap-free polling of an ordered stream keeps the same samples and cursor |
| Gpu.WholeStreamKept | go/core/gpu_accountant.go:263-296 | With distinct timestamps the stream after the baseline is kept whole, each sample once |
| Gpu.CursorIsLastAccepted | go/core/nvml_reader.go:257-264 | Whatever a batch holds, the cursor is the last accepted timestamp |
| Gpu.AcceptIncreases | go/core/gpu_accountant.go:279-291 | Kept samples are strictly increasing and newer than the cursor |
| Gpu.ElapsedTelescopes | go/core/gpu_accountant.go:432-453 | The intervals sum to last sample minus the earlier of baseline and first sample |
| Gpu.BusyIsIntegral | go/core/gpu_accountant.go:432-453 | Busy time is the sum over every microsecond from the origin, or the first sample if earlier, of the utilization of the sample that covers it |
| Gpu.ProcessTime | go/core/gpu_accountant.go:432-453 | Integrated time per process runs from its baseline, its first sample or the derived start, whichever applies, and is bounded by that interval |
| Gpu.WithinDurationIff | go/core/gpu_accountant.go:415-453 | With nothing running at the start, within the duration exactly when the derived start precedes the first sample |
| Gpu.OthersWithinDuration | go/core/gpu_accountant.go:415-453 | The other processes stay within it under the same condition |
| Gpu.StaleSampleExceeds | go/core/gpu_accountant.go:415-453 | A sample from before the task exceeds its duration |
| GpuObject.GpuAccountant.constructor | go/core/gpu_accountant.go:174-206 | The baseline poll sets the cursors and keeps no samples |
| GpuObject.GpuAccountant.GetNVMLProcessUtilization | go/core/nvml_reader.go:244-266 | The cursor of each process becomes its largest timestamp |
| GpuObject.GpuAccountant.CaptureSample | go/core/gpu_accountant.go:263-296 | Each process keeps what is newer than its previous cursor; nothing once frozen |
| GpuObject.GpuAccountant.SnapshotEnd | go/core/gpu_accountant.go:313-326 | Polls a last time and freezes, once |
| GpuObject.GpuAccountant.Integrate | go/core/gpu_accountant.go:432-453 | The loop computes elapsed and busy time from the right origin |
| Sessions.UniqueLookup | go/session.go:145-153 | In every reachable state a lookup by identity has at most one answer |
| Sessions.SameTask | go/session.go:148-153 | An identity gets the same task as long as its session is tracked |
| Sessions.FoundSays | go/session.go:145-153 | A call that finds its session gets its task and sets that session's time, nothing else |
| Sessions.NewSays | go/session.go:155-193 | Otherwise one session is added under a new number; only a full table loses its victim |
| Sessions.IdleSays | go/session.go:199-224 | Exactly the sessions not heard of for the idle time are closed, the others stay as they are |
| Sessions.EvictsOldest | go/session.go:171-184 | An identity call evicts only from a full table, and a least recently active session |
| Sessions.RunsBounded | go/session.go:171-184 | A run never holds more sessions than 10,000 and its context calls together, so identity calls alone stay within 10,000 |
| Sessions.ContextExceedsCap | go/session.go:95-102 | n context calls in a row hold n sessions, whatever n |
| Sessions.IdentityDeterminedIff | go/session.go:122-126 | A customer, project and agent are determined by their identity exactly when none of the three contains a NUL |
| Sessions.NulCollides | go/session.go:122-126 | A NUL in an agent makes it share its session with a caller of another customer |
| Sessions.SessionManager.GetOrCreateSessionForIdentity | go/session.go:116-193 | Find, touch, evict and create as specified |
| Sessions.SessionManager.GetOrCreateSession | go/session.go:53-106 | Context sessions: touch or create |
| Sessions.SessionManager.FinalizeIdleSessions | go/session.go:199-224 | Exactly the sessions idle for the timeout are closed and reported |
| Sessions.SessionManager.FindOldest | go/session.go:172-184 | A least recently active session |
| Streaming.CutIndependent | go/clients/streaming.go:138-193 | For every cutting into reads the result is the fold over the whole stream's blocks, the incomplete tail ignored |
| Streaming.SameBytesSameResult | go/clients/streaming.go:138-193 | Two cuttings of the same bytes agree |
| Streaming.BlocksConcat | go/clients/streaming.go:179-193 | Blocks found now and later are the blocks found at once |
| StreamMeaning.BlocksCover | go/clients/streaming.go:179-193 | Blocks and rest joined by blank lines are the bytes received, and none of them holds a blank line |
| StreamMeaning.LinesCover | go/clients/streaming.go:197-200 | The lines of a block joined by line breaks are the block, but for what follows from a line over the scanner's limit |
| StreamMeaning.NoiseIgnored | go/clients/streaming.go:197-221 | Streams of the same objects say the same: lines that are not data, end marks and undecodable payloads change nothing |
| StreamMeaning.StreamSays | go/clients/streaming.go:225-287 | Anthropic: model and cached tokens are the last ones of a start, output the last of a delta, input the last of a start or else the first of a delta. OpenAI and Groq: model and id are the last ones, the counts those of the last accepted usage object, the error that of the last usage object if it was refused |
| StreamMeaning.StartThenDeltas | go/clients/streaming.go:256-287 | A start and cumulative deltas: input, cached tokens and model of the start, output of the last delta |
| StreamMeaning.FinalObjectCounts | go/clients/streaming.go:225-250 | A last object with consistent usage sets every count from its own field and clears the error |
| StreamMeaning.EventSays | go/clients/streaming.go:290-356 | The one event has the stream's model, or the requested one, its counts and its price; a usage error or no tokens leave it uncounted at no cost |
| Streaming.RecordedOnce | go/clients/streaming.go:290-356 | Any mix of terminal reads and closes inserts exactly one event |
| Streaming.StreamRecorder.Read | go/clients/streaming.go:138-148 | Bytes are consumed before a terminal error records |
| Streaming.StreamRecorder.Close | go/clients/streaming.go:152-155 | Records unless already done |
| Streaming.StreamRecorder.ConsumeBuffered | go/clients/streaming.go:179-193 | Complete blocks are read, the tail kept |
| Streaming.StreamRecorder.ProcessSSEEvent | go/clients/streaming.go:197-221 | The lines of a block, in order |
| Streaming.StreamRecorder.Finalize | go/clients/streaming.go:290-356 | Inserts the event the first time only |
| Tokens.BucketsConserve | go/clients/openai_usage.go:51-121 | Accepted usage splits its totals into non-negative buckets exactly when the cache counts together stay below 2^63 |
| TokenFields.NormalizesByField | go/clients/openai_usage.go:51-121 | Usage in either form, its counts below 2^63, is accepted exactly when cached plus written tokens stay within the input and reasoning within the output, and every bucket is then its own field's count; absent and null counters are zero, and the cached count may stand beside the totals |
| Tokens.OverflowAccepted | go/clients/openai_usage.go:104-121 | A usage object that is accepted and leaves a negative bucket |
| Tokens.ChargedBucketsConserve | go/pricing/engine.go:258-274 | The charged input buckets are non-negative and sum to the clamped input |
| Tokens.CostExact | go/pricing/engine.go:223-287 | With normalized usage and both cache rates the cost is the sum of rate times bucket |
| Tokens.MissingRateChargesPlain | go/pricing/engine.go:258-274 | A missing cache rate charges its tokens as plain input |
| Tokens.DisjointCostsTheSame | go/pricing/engine.go:242-287 | Tokens cost the same whether cached ones are counted beside the input or inside it; beside it, the confidence is lost exactly when a used cache rate is missing |
| Tokens.FindModel | go/pricing/engine.go:191-221 | The first known name among exact, prefix-stripped and date-stripped; none exactly when none is known |
| TokenLines.LinesConserve | go/attribution/convert.go:250-281 | Input and output lines of a converted call sum to the event's totals |
| TokenLines.SplitConserves | go/attribution/convert.go:255-272 | The five quantities are non-negative and sum to the totals |
| TokenLines.SplitIsBuckets | go/attribution/convert.go:255-272 | For normalized usage they are the billing buckets |
| Shares.InstanceNeverOverBilled | go/pricing/compute_pricing.go:544-565 | Shares of one instance never exceed its price for the time |
| Shares.ReservedNeverOverBilled | go/pricing/gpu_pricing.go:362-379 | The same for reserved GPUs |
| Shares.VgpuNeverOverBilled | go/pricing/gpu_pricing.go:427-447 | The same for a virtual GPU |
| Shares.FullyBilledIff | go/pricing/compute_pricing.go:544-565 | A machine is billed its whole price exactly when it was never idle and every busy task has a window |
| Shares.CostIsUnitPrice | go/pricing/gpu_pricing.go:316-337 | The price of a share does not depend on the task's own window |

## Left out

- HTTP, TLS, SQLite statements, goroutines and tickers: a request is an arbitrary outcome, the tables are sequences, one push is atomic with respect to inserts and updates.
- JSON, YAML and regular expression libraries, SHA-256 and random identifiers: sizes, decoders, number readers and derived identifiers are arbitrary functions; new identifiers are fresh.
- `Retry-After` parsing: the wait is an input; only its clamp is modelled.
- Redaction of details and metadata before sending: a column transformation that delivery does not look at.
- Stored times: the buffer compares timestamp texts; here they are integers in the same order.
- Floating point and the 16 digits of decimal division: money, rates and quotients are exact.
- Texts are ASCII; byte-wise cutting of identifiers and Unicode white space are not modelled.
- Contract.ValidateEventV2: the order in which issues are reported, and a repeated report of the same issue, are not modelled.
- Converter.ToEventV2: number texts are read by an arbitrary function; the log line of a refused record is not modelled.
- Observation.ToObservationIff: works on the record instead of its JSON form, leaves the published schema and the positivity of the amount's text to the schema's verdict, and does not model the order of dimensions, trace identifiers, operation names or explicit attempt identifiers.
- Lineage.LineageAccepted: assumes the caller supplies no lineage details of its own; the stamping function itself handles them.
- TaskEnd.EndTotals: panics inside a pricing engine, and updates that alias an in-memory buffer's details, are not modelled; token totals and failure counts of the task are plain sums and left out.
- TaskEnd.FilledTrulyIff: the 64-bit sum of two byte counts is not modelled as wrapping.
- Network.LedgerAgrees: 64-bit overflow of the byte counters is not modelled.
- Gpu.ProcessTime: one process at a time; the device-level percentages and averages derived from it, cgroup membership and MIG labels are left out.
- Tokens.CostExact: custom per-thousand prices and catalogue refresh are not modelled.
- Shares.InstanceNeverOverBilled: the fallback ladders that choose a rate are lookups and left out; the rate is an input.
- Streaming.CutIndependent: token numbers are exact; conversion of numbers beyond 64 bits is not modelled.
- Cloud detection, cgroup and driver readers, provider wrappers, middleware, the developer console and the scanner: plumbing or tables.
- ToTaskIngestV1: a field-by-field copy.
- ConvertedLines.ModelProvider: how other kinds' providers and resources are named is a table, modelled and accepted by the contract but not restated.
