# s3rm-rs deletion pipeline: a verified model

This project models the deletion pipeline of s3rm-rs as a concurrent protocol, together with the algorithms that run
inside its tasks, and proves what the pipeline promises over every schedule. Verify with `dafny verify dfyconfig.toml`.

## The layers

**The running network** (`Objects`, `Filters`, `Network`). A lister feeds a chain of filter stages; the last stage
feeds a queue that all delete workers share; the workers send what they have dealt with to a terminator; the task that
runs the pipeline waits for the terminator and then closes the run. Channels are bounded and close when one side is
gone. The cancellation token, the admission counter of `--max-delete`, the warning and error flags, the counters and
the event log are shared. An action is one stretch of one task between two points at which another task may run: looking
at the token and dispatching a batch are different actions, and a task that waits for its input or the cancellation may
notice either. A run is a list of actions that are enabled one after the other, so a statement about runs is a statement
about every interleaving, and one about the last state of a run is about every reachable state. Anybody may cancel at any
moment, back ends may fail, callbacks may remember what they have seen and may fail.

- `StageSafety`, `WorkerSafety`, `TallySafety`, `RunSafety`: the invariant that every action keeps.
- `Liveness`: no deadlock, and a bound on the length of every run.
- `Guarantees`, `QuotaUse`, `OneWorker`, `Announcements`: selection, quota, batches, conservation, independence of the
  schedule.
- `CleanRuns`: exactly when a finished run is clean.
- `Completion`, `LateEvents`, `Races`: the order of the last events, what can follow the end event, final totals,
  promoted warnings, work after a cancellation, and what an error on record means.
- `DryRun`: a dry run is the preview of a real run.

**The tasks as they are written** (`Surroundings`, `Stages`, `WorkerTrail`, `Reports`, `Deleter`, `Store`, `Backend`,
`Events`, `Pipeline`). Classes with the fields and loops of the program. `Surroundings.Outside` stands for all other
tasks: at every await it may change the channels and the shared state in any way that other tasks can. The loops of the
filter stages and of the delete worker are proved to take only steps that the network gives to their task, so what is
proved of one task in the network holds of its loop. `Interference` proves the other direction: in every run, what the
other tasks do between two actions of a task is what `Outside` may do, and the actions of a task form such a path.
For the worker the same contract accounts for its store and its report: the requests made during its life are those of
its dispatched batches and no others, what it announces and counts is what the store replied, and a dry run leaves the
store as it was. `Shares` adds the reports of all workers up. The store itself is a map from entries to ETags that other
clients change before any request; the back ends are proved against what they ask of it and what is left in it.

**Configuration and data** (`AttributeRules`, `Selection`, `Attributes`). What the configured filters select, and the
strings that tag and metadata expressions are matched against.

**The bucket** (`Bucket`). A versioned bucket maps each key to a history of object versions and delete markers. What a
run in any state, in any order, with writers in between, does to what a reader sees.

## Where the code and its descriptions differ

- `force_retry_count` counts the retries after the first single delete, so the fallback makes one attempt more than the
  count and a count of 0 still makes one (src/deleter/batch.rs:70). The model follows the code.
- A comment at src/pipeline.rs:498-508 lists the first stages twice; the model uses the order in which they are chained.
- The supervisor of a task is not waited for, so a run can end with a failed task and no error event. No setting changes
  that: `Races.FailureCanGoUnreported` gives such a run for every configuration. What does hold is that a recorded error
  is never a false alarm (`Races.RecordedErrorsAreReal`) and that promoted warnings are always recorded
  (`Completion.WarningsArePromoted`).
- The tag string does not depend on the order of the tags if and only if no key has two values. The parser that undoes
  the metadata string recovers the sorted entries if and only if no key contains a comma; some strings with commas in
  keys have only one preimage, but two maps can share a string (`Attributes.CommaCollision`).

## Model

| member | source | states |
|---|---|---|
| RunSafety.RunKeepsInv | src/pipeline.rs:295-321 | The conjunction of all stage, worker, counter and log invariants holds in every state of every run. |
| StageSafety.StageStepOk | src/filters/mod.rs:75-141 | A stage has always sent exactly what its decision lets through of the input it has finished with, in order, and never overfills its queue. |
| StageSafety.ChannelsArePrefixes | src/pipeline.rs:511-623 | What has entered a channel is a prefix of what the stages before it let through of the whole listing; no schedule, queue size or cancellation reorders, adds or skips an entry. |
| WorkerSafety.WorkerStepOk | src/deleter/mod.rs:151-185 | Every step of a worker keeps: drawn tickets are the selected received entries, admitted = dispatched + held, at most one refusal, the buffer bound, every dispatched entry answered or lost with its worker, at most one receipt and one request after cancellation. |
| Liveness.NeverStuck | src/pipeline.rs:295-321 | A state that satisfies the invariant is final or some task of the pipeline, without help from outside, can step. |
| Liveness.DeadlockFreedom | src/stage.rs:60-78 | In every reachable state the pipeline can step if and only if the run is not over; cancelled runs included. |
| Liveness.EveryRunEnds | src/terminator.rs:26-30 | No run has more actions than an explicit bound in the sizes of listing, chain and pool. |
| Guarantees.OnlySelectedIsDeleted | src/pipeline.rs:511-692 | In every state, what was handed to deletion is listed, passes every stage predicate and the attribute filters, and was handed over no more often than it was listed. |
| Guarantees.QuotaSafety | src/deleter/mod.rs:208-242 | With a limit M all workers together hand at most M entries to deletion; the shared counter never exceeds M plus the number of workers; at most one trip per worker. |
| QuotaUse.QuotaIsUsed | src/deleter/mod.rs:208-242 | If only the quota stops a finished run and more is selected than it allows, what was handed over falls short of it by at most one batch for every worker but one; a single worker uses it exactly. |
| CleanRuns.TicketsAreSelected | src/deleter/mod.rs:187-242 | In every state the shared counter is at most the number of selected entries: rejected entries draw no ticket. |
| CleanRuns.CleanIff | src/pipeline.rs:295-321 | A finished run is clean if and only if its schedule has no interruption, no failing lister or back end and no promoted failure, no callback fails on what reaches it, no entry that reaches a worker is fatal, and the selection fits into the quota. |
| Guarantees.FailureTalliesAgree | src/deleter/mod.rs:577-590 | Failures counted from events = failures in the report + quota trips = error messages sent, in every state between reports on batches; completions likewise; trips only above the limit. |
| Guarantees.BatchesFit | src/deleter/mod.rs:446-452 | The buffer never exceeds the effective batch size and every request names between one entry and one batch. |
| Guarantees.CleanRunDeletesTheSelection | src/deleter/mod.rs:187-201 | A clean run hands over the selected entries with their multiplicities and forwards each of them exactly once, and the terminator takes them all. |
| Guarantees.ResultIgnoresTheSchedule | src/pipeline.rs:629-692 | Two clean runs over the same entries hand over the same entries whatever the order of the listing, the schedule, the queue size, the number of workers and the batch size. |
| Guarantees.CleanRunAccountsForEveryEntry | src/deleter/mod.rs:460-615 | Entries received by workers = deleted + failed + skipped, and selected = deleted + failed, at the end of a clean run. |
| Announcements.CleanRunAnnouncesTheSelection | src/deleter/mod.rs:514-590 | In a clean run every selected entry is announced exactly once as deleted or failed, and the reported bytes are the sizes of the deleted ones. |
| OneWorker.ExactQuota | src/deleter/mod.rs:208-242 | With one worker and no other fault or cancellation, the dispatched sequence is the first min(M, n) selected entries in listing order, and the run is cancelled if and only if M < n. |
| Completion.TotalsAreFinal | src/pipeline.rs:305-313 | Once the terminator has ended, the deleted, failed, trip, error and warning totals never change again. |
| Completion.CompletionOrder | src/pipeline.rs:338-362 | The end event is fired only after every worker has finished; no deletion or failure event follows it; the statistics that come with it are the final totals. |
| Completion.CleanEndIsLast | src/pipeline.rs:305-313 | In a clean run with a worker, every stage has stopped when the end event is fired, and nothing but the statistics follows it. |
| Completion.EndIsLast | src/filters/mod.rs:98-123 | In any run, cancelled or failed, nothing but the statistics follows the end event, and all totals of the event statistics are final, if there is no event callback or no stage rejects anything that reaches it. |
| LateEvents.RejectionCanBeLate | src/filters/mod.rs:98-123 | Otherwise whatever a stage holds and rejects in some run, it announces after the end event in a run that goes on from there; without a cancellation if no worker is left. |
| LateEvents.LateIffRejects | src/pipeline.rs:338-362 | If no entry kills its worker and the selection fits into the quota, some run has a late event if and only if there is an event callback and a stage rejects something. |
| LateEvents.EarlyRejectionsCanBeLate | src/filters/mod.rs:98-123 | Whatever the quota and the workers do, the same holds of a rejection among the first entries, one more than a queue holds. |
| LateEvents.FailedRunEndsEarly | src/deleter/mod.rs:151-201 | With one worker that dies of the first entry and a filter that rejects the second, some run has a late event although nobody cancels it. |
| Completion.WarningsArePromoted | src/pipeline.rs:315-320 | With warnings promoted, any run with a failed key or a quota trip ends with an error on record, and an error event precedes the end event, in every interleaving. |
| Completion.WorkerAfterCancel | src/deleter/mod.rs:151-185 | After a cancellation a worker receives at most one further entry and makes at most one further request, of at most one batch. |
| Completion.BoundedWorkAfterCancel | src/deleter/mod.rs:460-470 | All workers together hand over at most workers times batch size entries after a cancellation. |
| Races.FailureCanGoUnreported | src/pipeline.rs:463-488 | For every configuration there is a finished run in which the lister failed and no error, cancellation or error event is recorded. |
| Races.RecordedErrorsAreReal | src/pipeline.rs:629-692 | In every state an error on record means that a task has failed, or that warnings are promoted and there was one. |
| Races.SupervisionStays | src/pipeline.rs:463-488 | Once the supervisor of a failed task has acted, the error is on record and the run is cancelled, from then on in every state. |
| Races.ErrorIsRecordedIff | src/pipeline.rs:315-331 | A finished run in which no task failed has an error on record if and only if warnings are promoted and some key was not deleted or the quota was exceeded. |
| Races.ErrorEventIff | src/pipeline.rs:338-351 | Exactly then such a run has fired an error event. |
| DryRun.RealRunIsPreviewed | src/deleter/mod.rs:485-510 | A real run whose store deletes everything is, once its requests are forgotten, a dry run with the same schedule. |
| DryRun.DryRunIsFaithful | src/deleter/mod.rs:485-510 | Every dry run agrees in counters, events and forwarded entries, state by state, with the real run of the same schedule against a store that deletes everything, and dispatches what that run asks the store for. |
| Filters.PassedMonotone | src/filters/user_defined.rs:34-107 | A stage, even one with a memory, never takes back an output when more input arrives. |
| Filters.ChainIsConjunction | src/filters/mod.rs:7-9 | A chain without a callback is one filter: the conjunction of its predicates, in the order of the listing. |
| Filters.ChainMember | src/pipeline.rs:511-623 | Whatever leaves a chain was in its input and satisfies the predicate of every simple stage. |
| Stages.FilterStage.Send | src/stage.rs:60-78 | Sending waits for room and appends the entry, or reports that the receivers are gone and sends nothing. |
| Stages.FilterStage.ReceiveAndFilter | src/filters/mod.rs:75-141 | Under arbitrary interference the loop takes only network steps; its output is a prefix of the passing entries, and all of them unless it was cancelled or its reader is gone. |
| Stages.FilterStage.ReceiveAndAsk | src/filters/user_defined.rs:34-107 | The same for the callback stage and its memory; after a callback error the run is cancelled and the entry goes nowhere. |
| Stages.FilterStage.Reject | src/filters/mod.rs:98-123 | A rejected entry is announced exactly if a callback is registered, and never sent. |
| Stages.FilterStage.Abort | src/filters/user_defined.rs:45-57 | A failing callback is announced if someone listens, cancels the run, marks the stage failed and stops it. |
| Stages.Terminator.Terminate | src/terminator.rs:26-30 | Ends only when the channel is closed and has received everything ever sent into it. |
| Interference.BetweenWorkerActions | src/pipeline.rs:629-692 | In every run, between two actions of a worker its queue grows by listed entries only, its output stays open while it lives, channels stay closed and the run stays cancelled: what the surroundings of its loop may do. |
| Interference.BetweenStageActions | src/pipeline.rs:511-623 | The same for a stage, whose input nobody else reads and whose output nobody else writes. |
| Interference.TerminatorSeesLater | src/terminator.rs:26-30 | The same for the terminator. |
| Interference.RunIsTrail | src/deleter/mod.rs:151-185 | In every run the actions of a worker, in order, are a trail on which its output never closes. |
| Interference.RunIsWalk | src/filters/mod.rs:75-141 | In every run the actions of a stage are a walk as its loop takes it. |
| WorkerTrail.TrailIsSafe | src/deleter/mod.rs:151-185 | Every path of a worker through network steps on which its output stays open, as it does while the terminator waits for the workers, keeps everything the network proves of a worker. |
| WorkerTrail.TrailCalled | src/deleter/mod.rs:460-511 | The entries named in requests along such a path are the dispatched batches, one order of requests for each, in the order of dispatch. |
| WorkerTrail.CalledIsWanted | src/deleter/mod.rs:187-201 | Only entries that the worker received and that the filters want are ever named in a request. |
| WorkerTrail.ReportedIsReplied | src/deleter/mod.rs:514-547 | What a worker counts as deleted is, in order, what the replies to its requests call deleted. |
| WorkerTrail.ReportedWasDispatched | src/deleter/mod.rs:514-547 | Only dispatched entries are counted as deleted, and none more often than dispatched. |
| Shares.SharesAddUp | src/types/mod.rs:214-217 | In every state the entries in the reports of all workers are as many as deletions were announced, and their bytes are those of the event statistics. |
| Shares.WorkerReportsItsShare | src/deleter/mod.rs:514-547 | The share of a worker in a run is what its loop enters in the report along its trail. |
| Deleter.ObjectDeleter.constructor | src/deleter/mod.rs:113-143 | The worker starts idle with an empty buffer; its batch size is the configured one, at least 1 and at most 1000; the single back end serves sizes up to 1, the batch back end larger ones. |
| Deleter.ObjectDeleter.ReceiveAndDelete | src/deleter/mod.rs:151-185 | Under arbitrary interference the worker goes from idle to done by network steps alone; the store has received exactly the requests of its dispatched batches, all wanted entries, and lost nothing but what these permit; announcements match the replies; its report holds exactly what its steps count as deleted, which is what the store called deleted, with count and bytes; a dry run leaves the store as it was; and while the terminator lives, the whole worker invariant holds at the end. |
| Deleter.ObjectDeleter.ProcessObject | src/deleter/mod.rs:187-201 | One entry goes through head filters, tag filters, quota and buffer by network steps, ends in continuing or in an error, and every request made on the way belongs to a dispatched batch; none in a dry run; the report grows only by buffered entries that were deleted. |
| Deleter.ObjectDeleter.CheckMaxDelete | src/deleter/mod.rs:208-242 | Every entry draws the next number of the shared counter; exactly a number above the limit stops the worker: what is buffered is dealt with first, and only that enters the report; then the entry is reported as failed with a warning and the run is cancelled. |
| Deleter.ObjectDeleter.ApplyHeadObjectFilters | src/deleter/mod.rs:247-342 | Case by case, from the configured expressions and the reply: which are asked, in which order, and what it does. Markers and rejected texts are skipped and announced, missing objects are skipped silently, a failed request cancels the run and ends the worker, a failing expression ends it without cancelling, and only an accepted entry goes on. |
| Deleter.ObjectDeleter.ApplyTagFilters | src/deleter/mod.rs:347-409 | The same for tags. |
| Deleter.ObjectDeleter.Settle | src/deleter/mod.rs:413-443 | The shared state changes as stated and in nothing else: rejected entries count as skipped and are announced, missing ones only count, failed requests cancel the run, failed expressions end the worker without cancelling. |
| Deleter.ObjectDeleter.BufferAndDelete | src/deleter/mod.rs:446-452 | The admitted entry is appended to the buffer and the store is left alone unless the buffer is full; a full buffer is deleted at once, or left because the run is cancelled. |
| Deleter.ObjectDeleter.DeleteBufferedObjects | src/deleter/mod.rs:460-615 | In a cancelled run nothing is done. Afterwards the buffer is empty, or the run is cancelled and buffer and requests are untouched; the store has changed only as requests for entries of the buffer permit, and the report has grown by entries of the buffer, none twice; a failed back end cancels and fails the run; a dry run leaves the store as it was. |
| Deleter.ObjectDeleter.Request | src/deleter/mod.rs:497-511 | A batch is one chunk of the back end; the result partitions it and comes with one error message per failure; after an error there is no result. |
| Deleter.ObjectDeleter.DeleteBatch | src/deleter/mod.rs:471-615 | The deleted entries, and no others, enter the report; the requests form one order for the batch; an error of the back end cancels and fails the run and reports nothing; a dry run takes every entry for deleted. |
| Deleter.ObjectDeleter.ReportAll | src/deleter/mod.rs:514-605 | The loops over deleted and failed keys add up to one change of counters, flags and log, with the size of each deleted entry. |
| Deleter.StatsReport.IncrementDeleted | src/types/mod.rs:214-217 | The byte count is the total size of the entries counted; `Valid` of the worker ties these to its steps. |
| Deleter.OneChunkResult | src/deleter/batch.rs:134-137 | A batch of a worker leads to at most one batch request and its fallbacks. |
| Reports.ResolvePartition | src/deleter/mod.rs:476-483 | With distinct identities, a partition of the identities resolves to a partition of the listed entries. |
| Reports.TotalSizeIsSum | src/deleter/mod.rs:517-520 | For non-negative sizes the unsigned total is the sum of the sizes. |
| Store.Storage.DeleteObjects | src/storage/s3/mod.rs:267-303 | The response contract: a reply decides every target once, and what it calls deleted is gone; whatever the reply, only targets have left the store, each under the ETag it had and a condition that held. A request that fails as a whole may have had any part of its effect. |
| Store.Storage.DeleteObject | src/storage/s3/mod.rs:233-265 | The same for a single target. |
| Store.Storage.Attempt | src/storage/s3/mod.rs:233-265 | Success means that the entry is gone and, if there was a condition, that it held; a failure may be reported after the removal, never after one whose condition did not hold. |
| Store.RequestEvolves | src/storage/s3/mod.rs:267-303 | After one request every entry is as the other clients alone would have left it, or gone under a condition that held. |
| Store.EvolvesThen | src/deleter/batch.rs:127-259 | The same holds of any number of requests in a row, with other clients storing and deleting in between. |
| Backend.BatchDeleter.RetryFailedKeyWithSingleDelete | src/deleter/batch.rs:58-122 | Between 1 and count + 1 requests for the same target, of which exactly the last succeeds if one does; all of them used up on failure. |
| Backend.BatchDeleter.HandleErrors | src/deleter/batch.rs:188-249 | Each error of a reply is handled once: InternalError, SlowDown, ServiceUnavailable, RequestTimeout and an unknown code lead to between 1 and count + 1 single deletes, every other code to none; a key that is won counts as deleted, every other as failed, with an error message. |
| Backend.BatchDeleter.Delete | src/deleter/batch.rs:127-259 | The requests are those of the chunks in order, as many batch requests as the smaller of batch size and 1000 demands, none larger; every request, fallbacks included, names a listed key and version and, with if-match, the listed ETag; the result is what the chunks add up to; a failed request ends everything; the store has changed only as these requests permit. |
| Backend.ChunkCountIsCeiling | src/deleter/batch.rs:134-137 | The number of batch requests is the number of entries divided by the chunk size, rounded up. |
| Backend.ChunkFits | src/deleter/batch.rs:134-137 | Chunks are not empty, not larger than the smaller of batch size and 1000, all but the last full, and made of entries of the list. |
| Backend.BatchPartition | src/deleter/batch.rs:179-249 | Every identity is reported as deleted or as failed as often as it was given, and nothing else is. |
| Backend.EachExactlyOnce | src/deleter/batch.rs:179-249 | With distinct identities none is reported both ways or twice. |
| Backend.FallbacksCarryTheETag | src/deleter/batch.rs:202-225 | Every fallback request names an entry of the chunk by key and version, with the ETag under which it was listed, if conditions are on. |
| Backend.OverwrittenObjectsSurvive | src/deleter/batch.rs:161-165 | With if-match, unless the other clients alone would have left an entry under the ETag it was listed with, it is exactly as they would have left it, whenever and however often they overwrite or delete it. |
| Backend.OthersSurvive | src/deleter/batch.rs:153-168 | An entry that is not among those to be deleted is as the other clients alone would have left it. |
| Backend.EvolvedIsAuthorised | src/deleter/single.rs:42-58 | Everything removed was listed under that key and version, and with if-match had the ETag it was listed with. |
| Backend.LookupOfDistinct | src/deleter/batch.rs:140-151 | The lookup by key and version finds each entry. |
| Backend.SingleDeleter.Delete | src/deleter/single.rs:35-93 | One entry, one request that names its key and version and, with if-match, its listed ETag; one outcome, one error message if it failed; the store has changed only as that request permits. |
| AttributeRules.EligibleMeansDescribed | src/deleter/mod.rs:658-698 | A worker lets an entry through exactly if it is no marker, is found, and its texts satisfy the include and exclude expressions. |
| AttributeRules.HeadVerdict | src/deleter/mod.rs:247-342 | The verdict on content type and metadata from the expressions and the reply, in the order of the questions: absent texts fail include and pass exclude expressions, absent and empty metadata are no text. |
| AttributeRules.TagVerdict | src/deleter/mod.rs:347-409 | The same for tags, whose text is always there. |
| AttributeRules.VerdictIgnoresOrder | src/deleter/mod.rs:708-741 | The verdict does not depend on the order in which metadata or tags are returned. |
| Attributes.DecodeEncode | src/deleter/mod.rs:708-741 | Percent-encoding (sections 2.1 and 2.3 of RFC 3986) is inverted by decoding. |
| Attributes.EncodeIsSafe | src/deleter/mod.rs:708-741 | An encoded text contains no separator. |
| Attributes.EncodeMeans | src/deleter/mod.rs:708-741 | Letters, digits and the marks - . _ ~ stay as they are; every other byte becomes a percent sign and two upper-case hexadecimal digits. |
| Attributes.LeIsLexicographic | src/deleter/mod.rs:731 | Keys are compared byte by byte: a beginning comes first, and the first byte that differs decides. |
| Attributes.SortSorts | src/deleter/mod.rs:731 | The sort by key yields a sorted, stable permutation. |
| Attributes.TagsSpelledOut | src/deleter/mod.rs:725-741 | The tag string byte for byte: encoded key, equals sign, encoded value, ampersands in between, in the order of the keys. |
| Attributes.MetadataSpelledOut | src/deleter/mod.rs:708-720 | The metadata string byte for byte: key as it is, equals sign, encoded value, commas in between, in the order of the keys. |
| Attributes.TagsRoundTrip | src/deleter/mod.rs:725-741 | A parser recovers the sorted tag list from the tag string, for every tag list. |
| Attributes.TagsAreCanonical | src/deleter/mod.rs:725-741 | The tag string is the same for every order of the tags if and only if no key has two values. |
| Attributes.MetadataIsCanonical | src/deleter/mod.rs:708-720 | With distinct keys the metadata string does not depend on their order. |
| Attributes.MetadataRoundTrip | src/deleter/mod.rs:708-720 | The parser recovers the sorted entries from the metadata string if and only if no key contains a comma. |
| Attributes.CommaCollision | src/deleter/mod.rs:708-720 | Two concrete different metadata maps with the same string. |
| Selection.FilterObjects | src/pipeline.rs:511-623 | The chain is built in the configured order: the lister, then marker, before, after, smaller, larger, include, exclude and latest filter as far as they are set, then the callback. |
| Selection.ConfiguredIsWellFormed | src/pipeline.rs:511-623 | A configured chain is one that the network model covers if and only if queue and batch size are at least one. |
| Selection.ChainSelectsMatches | src/pipeline.rs:511-623 | Without a callback the chain selects exactly the entries that the configuration describes, in listing order. |
| Selection.CallbackSeesMatches | src/pipeline.rs:578-620 | A callback comes last and sees exactly the matching entries. |
| Selection.StagesMatch | src/filters/smaller_size.rs:41-88 | The stage predicates together demand of kind, time, size, key and latest flag exactly what is set; markers and negative sizes fail size filters, undecided keys fail expressions. |
| Selection.HandedIsMatched | src/pipeline.rs:511-692 | In every state of every run, what was handed to deletion was listed, has the kind, time, size, key and latest flag that the settings demand, and satisfies the attribute expressions. |
| Selection.NoMarkerIsHanded | src/deleter/mod.rs:268-272 | With a size, content-type, metadata or tag filter no delete marker is ever handed to deletion. |
| Selection.MarkersByAttributeAreNone | src/filters/delete_marker_only.rs:40-53 | Together with the marker filter such a filter selects nothing. |
| Bucket.TopIsUnchanged | src/filters/keep_latest_only.rs:3-6 | If every removed entry was below the top at some earlier moment, then at every moment and under every key the last entry is the one that the writers alone would have left. |
| Bucket.KeepLatestKeepsTheView | src/filters/keep_latest_only.rs:41-55 | In every state of a run with keep-latest-only, complete, cancelled or partly failed, with each entry listed at its own moment and writers adding throughout, readers always see what the writers alone would have left; without writers, nothing changes. |
| Bucket.NoResurrection | src/filters/larger_size.rs:41-48 | With an attribute or size filter, a key hidden by a marker stays hidden by that marker at every moment until a writer adds to it, whenever its entries are listed. |
| Bucket.HiddenKeysAreSafe | src/deleter/mod.rs:365-369 | With such a filter, under a key whose entries were listed while a marker hid it, readers always see what the writers alone would have left, even after they add to it. |
| Bucket.NeverOnTop | src/filters/keep_latest_only.rs:3-6 | An entry that was below the top once is never on top again, as long as only such entries are removed. |
| Bucket.RemovalsCommute | src/filters/keep_latest_only.rs:3-6 | What is left after removals are the entries that none of them names. |
| Bucket.AddedIsVisible | src/filters/keep_latest_only.rs:3-6 | What a writer adds is on top and is what readers see under its key; other keys are not concerned. |
| Bucket.ListedCanBeRemoved | src/filters/keep_latest_only.rs:3-6 | Every entry of a bucket can be listed, with its version id, its kind and its latest flag, and its removal once it is handed over is covered by the statements about runs. |
| Bucket.TopStaysUnlessRemoved | src/filters/keep_latest_only.rs:3-6 | Without writers the last entry stays if and only if it is not removed. |
| Bucket.RemovedMarkerUncovers | src/filters/smaller_size.rs:42-48 | Removing a latest marker makes the entry below it visible. |
| Events.EventManager.TriggerEvent | src/callback/event_manager.rs:88-107 | One more event: each counter moves as its kind says, and the callback receives the event if it is subscribed or undefined, marked with the dry-run flag, and after the end of the pipeline the report with the counters as they are, if it is subscribed; so after any events the counters are the tally and the callback has received exactly what it is due. |
| Events.TallyStep | src/callback/event_manager.rs:109-144 | Counting one more event turns the tally of all events so far into the tally that includes it. |
| Events.EverySubscribedEvent | src/callback/event_manager.rs:88-107 | Apart from reports the callback receives exactly the subscribed events, once each, in order. |
| Events.OnlySubscribed | src/callback/event_manager.rs:88-107 | The callback receives only kinds it subscribed to. |
| Events.ReportsAreTallies | src/callback/event_manager.rs:97-105 | A report holds, up to an end of the pipeline, the numbers of completed, failed and filtered deletions and of errors, and the sum of the sizes that came with completed deletions. |
| Events.OneReportPerEnd | src/callback/event_manager.rs:97-105 | A callback that has subscribed to reports receives exactly one for every end of the pipeline, any other none. |
| Events.EventsAreTranslated | src/deleter/mod.rs:549-572 | The kind of every event of a run, with the key of the entry it is about and, for completed and filtered entries, the unsigned size. |
| Events.StatsAgree | src/callback/event_manager.rs:124-135 | The counts in the statistics of the network model are those of the event manager. |
| Pipeline.DeletionPipeline.CheckPrerequisites | src/pipeline.rs:230-292 | Without confirmation the checks fail; keep-latest and marker-only demand all versions; if-match excludes all versions; all versions demand an answer of the bucket, and on an unversioned one exclude keep-latest and marker-only; everything else passes; passing clears all-versions on an unversioned bucket; refusing changes nothing. |
| Pipeline.CheckedOnceIsEnough | src/pipeline.rs:230-292 | Checked settings pass again unchanged; keep-latest and marker runs list versions that exist; no deletion by version is conditional. |
| Pipeline.DeletionPipeline.Run | src/pipeline.rs:119-148 | A pipeline runs once, and only if it was checked before or the checks pass now, the confirmation included; a refused run starts no stage and logs start, error, perhaps cancellation, and end; otherwise it ends as the network run that drained its output ends when its main task alone goes on. |
| Pipeline.ClosingIsMain | src/pipeline.rs:338-362 | Closing a run is what the network model says of its main task when nobody interferes. |
| Pipeline.FinishedRunDrains | src/pipeline.rs:295-313 | Every finished run of the network comes through a moment at which the output is drained and the main task still waits, which is where the pipeline takes over. |
| Pipeline.EndingIsMain | src/pipeline.rs:305-320 | From the end of the terminator on, promotion and closing are six steps of the main task. |
| Pipeline.MainAlone | src/pipeline.rs:295-321 | These steps extend the network run to another run, so everything proved of runs holds of their end. |

## Left out

- The listing: AWS pagination, parallel listing and `max_keys` are not modelled; the lister is a stage that copies a
  finite, already known listing in any order and may stop with an error at any point.
- Storage: the SDK, retries inside it, rate limits and versioning queries are not modelled. Replies are assumed to
  decide every target of a batch once; foreign or missing keys in a reply are not.
- A worker's store is its own session: what other workers and other clients store and delete appears in it as what
  happened before the next request; entry by entry within one batch request they do not interleave.
- Callbacks and expressions: the Lua VM, its limits and the regular-expression engine. A callback is any function of
  the entries it has seen that may fail; an expression is any function that may give up.
- Within one run the verdict of the attribute filters on an entry is one function of the entry: an object whose tags
  change between two looks of the same run is not modelled.
- Guarantees.FailureTalliesAgree: holds between reports; while a worker is inside the report on one batch, its messages
  precede its events, and that moment is inside one action of the model.
- Network.AnswerStep: the report on one batch is one action, because the loops in it only add to counters and the log;
  the same holds for the bookkeeping of one trip and of one callback failure.
- Network.Apply: one action stands for all supervisors; panics are not modelled, and neither are the error texts.
- Deleter.ObjectDeleter.ReceiveAndDelete: covers every interference in which each wait ends; that waits do end is the
  matter of `Liveness`. The worker invariant at its end needs the output to stay open, which the terminator sees to.
- Deleter.StatsReport.IncrementDeleted: holds the share of one worker, and `Shares.SharesAddUp` adds the shares up;
  atomic orderings and the wrap-around of 64-bit counters are not modelled.
- Bucket.KeepLatestKeepsTheView: other clients that delete by version id are excluded, and so is a writer that reuses a
  version id.
- Bucket.NoResurrection: if a writer adds to a hidden key while the run is listing, the entry it adds may itself be listed
  as the latest, match the filters, and be deleted.
- Completion.EndIsLast: without its condition a stage may announce a rejected entry after the end event of a cancelled
  or failed run; `LateEvents` says when. Between its two constructions, a rejection beyond the first queue that only
  comes up after workers have exceeded the quota or died, it is left open which late events can happen.
- Pipeline.DeletionPipeline.Run: takes what the stages leave behind from a run of the network that its caller supplies;
  starting the tasks and waiting for the terminator is not a step of the class.
- Modification times are integers; conversions between time types that can fail are not modelled.
- The confirmation prompt, command line, tracing, progress display, sleep intervals, durations and the objects-per-second
  figure of the statistics.
