# Verified model of the avatar service

The service accepts avatar uploads, renders thumbnails in a worker, and serves and deletes images.
Three systems without a common transaction take part: a table of avatars, an object store and a
message broker. This project models the behaviour that keeps them consistent, and proves it for
every interleaving, every failure and every input.

`dafny verify dfyconfig.toml` checks all of it (Dafny 4.11).

## How it is organised

| files | content |
|---|---|
| `Domain`, `Repository`, `Retry`, `Content` | statuses and keys, the guarded statements of the table, attempt counting, the choice of the object that answers a request |
| `Lifecycle` | the protocol as a step relation: table, store, broker copies, and a program counter for every upload, delete, delivery attempt and reconciler pass |
| `LifecycleInvariant`, `LifecycleEffects`, `LifecycleSteps` | the inductive invariant, and the proof that every step keeps it |
| `LifecycleTheorems`, `LifecycleLocality`, `LifecycleConfluence`, `LifecycleWaiting` | what follows for all reachable states and all runs |
| `LifecycleCleanup`, `LifecycleOrphans` | when removed files stay removed, exactly |
| `LifecycleLadder`, `LifecycleLosses` | how often a message can be handled, and when work is lost, exactly |
| `LifecycleConvergence`, `LifecyclePasses` | passes of the reconciler bring the table to rest, and can always be carried through |
| `Programs` | requests, event handlers and reconciler passes as imperative programs that take one step of the protocol per call |
| `Consumer`, `Publisher`, `DelayName`, `Topology`, `Routing` | one delivery's settlement and the worker pool, publishing with confirmations, the declared exchanges and queues and where they route |
| `Queries`, `Reconciler` | ordered and limited queries, and what they find to do |
| `RateLimit`, `TokenClock`, `RateLimitTheorems`, `RateLimitExactness` | the per-key rate limiter, token buckets on a clock that counts tokens, what callers may rely on, and for which limits exactly |
| `ETag` | the validator header and the If-None-Match list |

A step of `Lifecycle` is one call to the table, the store or the broker. Each call has one of three
outcomes: it succeeds, it fails without effect, or it takes effect and is reported as failed
(`Ok`, `Fail`, `Lost`); a failed deletion may have removed any part of its keys. A status change is
two calls, the UPDATE and the read that explains a refusal. Every activity may die between two
calls, unsettled deliveries may be requeued while their handler is still at work, and any number of
copies of one message may be handled at once. A turn of an activity is an effect on the shared
systems and the next point of the activity, so that the effects are proved correct once and the
activities only have to justify them.

The invariant is local. Each row, object, message, copy and activity has its own condition, stated
in facts that no other step can undo (`Evolves`); a step answers for what it touches and nothing else.

`Programs.World` has the server's upload and delete, the worker's two handlers and the reconciler's
pass in the form they are written in: sequences of calls with their branches. Each method keeps `World.Valid`, which says
that the current state is the result of a run of the protocol, whatever other activities do between
any two calls and whatever the calls return; so every theorem about runs holds for the programs.

## Where the code and its comments differ

- The comment on `failure` (internal/worker/handler/errors.go:25-27) says that a refused write of
  the failed status makes the error retryable. On the last attempt it does not
  (internal/worker/handler/errors.go:43-47), and a non-retryable error is then acknowledged
  (internal/broker/consumer.go:205-212) with the row left in processing. `GivesUpExactly` says
  exactly when, `WorkCanBeLost` gives a run in which it happens to every upload that cannot be
  rendered, and `LostWorkIsNeverRepaired` shows that nothing repairs it. The model records these
  avatars in `dropped`, and `NoLostWork` names them as its one exception.
- The comment on reroute (internal/broker/consumer.go:273-275) speaks of one more retry. A rejection
  leaves the counter header as it is, so a message whose reroute keeps failing is not bounded by the
  ladder: `HandlingsAreUnbounded` handles one copy any number of times. The exact law is
  `HandlingsAreBounded`: at least as many handlings as rejections and requeues, and at most five more.
- Files of a deleted avatar can come back after they were marked as removed. The exact condition is
  `CleanupHoldsExactlyWithoutWriters`.
- A limiter that forgets idle keys can differ from one that does not. The exact condition is
  `ForgettingIsInvisibleExactly`; the default burst meets it exactly for rates of at least one
  request per three minutes.
- The comment on the cancelled reservation (internal/server/http/ratelimit.go:79-80) says that a
  refusal spends no tokens to come. The bucket keeps them, but the refused call also marks its key
  as seen (internal/server/http/ratelimit.go:73), so that the key is not forgotten and the caller
  misses the full bucket that silence would have brought. `RefusalCanSpend` gives the calls, for
  every burst that takes longer to refill than the idle time, and `RefusalsSpendNothingExactly`
  says that for all other bursts the comment is right. Whether burst and rate bound every window of
  time depends on the same condition (`WindowsAreBoundedExactly`).

## Model

| member | source | states |
|---|---|---|
| LifecycleSteps.StepKeepsInv | internal/worker/handler/uploaded.go:28-177 | every step of every activity, with every outcome, keeps the invariant and evolves rows, objects, messages and copies only in the permitted direction |
| LifecycleTheorems.RunKeepsInv | internal/worker/handler/uploaded.go:23-27 | the same for runs of any length |
| LifecycleTheorems.LiveFilesExist | internal/worker/handler/uploaded.go:132-177 | in every reachable state a live uploaded row's original is stored as uploaded, and a completed row names exactly the thumbnails rendered from it, each of them stored |
| LifecycleTheorems.NoLostWork | internal/worker/handler/errors.go:28-52 | a live uploaded row is finished, or pending and found by the stuck query once old enough, or in processing with a copy of its upload event, or in processing and one of the recorded exceptions |
| LifecycleTheorems.NoLostCleanup | internal/worker/handler/deleted.go:24-59 | an acknowledged delete event implies that the files have been marked as removed |
| LifecycleWaiting.ClosedRowsAreFound | internal/repository/postgres/avatars.go:68-76 | from a closed row on, in every continuation, it is marked as cleaned or found by every pass with a cutoff after it was closed; nothing moves that moment but the deletion of a failed upload |
| LifecycleWaiting.YoungRowsAreLeftAlone | internal/worker/reconciler/reconciler.go:99-106 | a pass may touch exactly the rows in question that have stood still for longer than the configured time |
| LifecycleWaiting.ClosedRowsStandStill | internal/repository/postgres/avatars.go:78-120 | a closed row stays closed, and its moment of change moves at most once, to that of its deletion |
| LifecycleLosses.GivesUpExactly | internal/worker/handler/errors.go:35-51 | an attempt that cannot succeed returns a non-retryable error with the row unfinished if and only if it is the last and the write of the failed status fails without effect |
| LifecycleLosses.DroppedExactly | internal/broker/consumer.go:205-213 | over every step the recorded exceptions grow by exactly the avatars given up in that way |
| LifecycleLosses.WorkCanBeLost | internal/worker/handler/errors.go:43-47 | for every configuration and every upload that cannot be rendered, some run from the empty system ends at rest with the live avatar in processing and nothing in the broker |
| LifecycleLosses.LostWorkIsNeverRepaired | internal/worker/reconciler/reconciler.go:131-148 | from such a state on, in every continuation, the avatar stays in processing, no query finds it and no message asks for it |
| LifecycleLadder.HandlingsAreBounded | internal/broker/consumer.go:202-310 | in every reachable state the lineage of a copy was handled at least as often as it was rejected and requeued, and at most five times more, so handlings are bounded exactly when rejections and requeues are; without rejections the header counts the handlings, the fifth and no other leads to the dead queue, and failure n to rung min(n, length) |
| LifecycleLadder.RejectionsAreUnbounded | internal/broker/consumer.go:265-284 | any waiting copy can be handled n times more, for every n, each time rejected because rerouting failed, with its header unchanged |
| LifecycleLadder.RejectionDoesNotCount | internal/broker/retry.go:23-28 | a copy with a counter of its own comes back from a rejection as the same attempt |
| LifecycleLosses.HandlingsAreUnbounded | internal/broker/consumer.go:265-284 | for every n a run from the empty system handles one copy n times, without a forwarding or a requeue |
| LifecycleTheorems.MessagesAreConserved | internal/broker/consumer.go:202-310 | an event that has reached the broker stays there as some copy, through failures, crashes and duplicates, until it is acknowledged after nil or a non-retryable error; a settled upload event leaves its row finished, up to the recorded exceptions |
| LifecycleTheorems.ReturnIsTruthful | internal/worker/handler/errors.go:21-52 | a handler of an upload event returns nil only when the row is finished, without exception, and a non-retryable error only when it is finished or recorded as given up; a handler of a delete event returns either only when the row is marked as cleaned |
| LifecycleTheorems.DeletionIsForever | internal/repository/postgres/avatars.go:104-106 | a deleted row stays deleted in every continuation |
| LifecycleTheorems.ClassificationIsSound | internal/repository/postgres/postgres.go:126-155 | after an UPDATE of the processing status that matched nothing, the second read finds a live row only if it is finished, finds none only if it is deleted for good, and thumbnails are removed for deleted rows only |
| LifecycleTheorems.UploadClassificationIsSound | internal/repository/postgres/postgres.go:126-155 | the same for the upload status: a live row is found only if its upload status is final, and none only if it is deleted for good |
| LifecycleTheorems.OnlyClosedAvatarsLoseFiles | internal/server/service/delete.go:67-104 | an object disappears only if its avatar is deleted or its upload failed |
| LifecycleTheorems.StoredNamesAreIsolated | internal/domain/keys.go:13-20 | every stored object belongs to an existing row, and two objects share a printed name only if they are the same |
| LifecycleTheorems.StoredBytesNeverChange | internal/server/service/content.go:103-126 | the bytes of a key may vanish but never change, over all runs |
| LifecycleTheorems.DayLongAnswersStayTrue | internal/server/service/content.go:103-126 | if a request for an image is answered with a day of caching, every later successful answer to the same request has the same key and the same bytes, however the reads interleave with the rest |
| LifecycleLocality.OthersAreUnchanged | internal/domain/avatar.go:45-55 | a step for one avatar changes no object of another, and no row of another except that stale uploads are failed |
| LifecycleLocality.HeadersNeverDecrease | internal/broker/consumer.go:292-310 | a copy keeps its counter header for life; a new copy is a new message or counts more than the copy it was forwarded from; it is dead exactly when its attempts are used up |
| LifecycleConfluence.DeliveriesConverge | internal/worker/handler/uploaded.go:28-177 | when the calls of deliveries succeed, status, recorded keys and stored objects of a handled live avatar are a function of the uploaded bytes |
| LifecycleConfluence.DuplicatesMakeNoDifference | internal/worker/handler/uploaded.go:157-171 | two runs that handled the same upload agree on its outcome, whatever the numbers of deliveries and crashes |
| LifecycleCleanup.StepEarnsMark | internal/worker/handler/deleted.go:41-51 | the mark of removed files is set only by an activity that has just removed every key of a closed avatar |
| LifecycleCleanup.CleanupIsFinal | internal/server/service/delete.go:67-104 | if no upload and no attempt that may store was under way when the avatar was closed, then whenever its files are marked as removed none exists, for the rest of every run |
| LifecycleOrphans.WriterCanLeaveOrphan | internal/worker/handler/uploaded.go:180-196 | from every state in which a writer of a closed avatar is under way, some run ends with the mark set and an object stored |
| LifecycleOrphans.CleanupHoldsExactlyWithoutWriters | internal/worker/handler/deleted.go:41-51 | for a closed avatar not marked yet, the mark tells the truth in all runs if and only if no writer is under way |
| Domain.TerminalStatusesHaveNoExit | internal/domain/domain.go:19-58 | the finished statuses are exactly those no transition leads out of, and none leads back to the first |
| Domain.StorageKeysAreAllKeysOfTheId | internal/domain/avatar.go:45-55 | the storage keys are all keys that can ever belong to the avatar |
| Domain.CollectStorageKeys | internal/domain/avatar.go:45-55 | the loop yields each key of the avatar once and nothing else |
| Domain.KeyNamesAreDistinct | internal/domain/keys.go:13-20 | the two printers are jointly injective over fixed-length slash-free identifiers |
| Content.UserImage | internal/server/service/content.go:72-100 | for every row and every store: the thumbnail of a completed row that has it, else the original, for five minutes, or for one while a thumbnail that was asked for may still come; the placeholder, for five minutes, exactly when there is no row or no such object |
| LifecycleTheorems.AnswersAreAsAsked | internal/server/service/content.go:103-126 | in every reachable state a live avatar answers with its original for a day where no size is asked for, with the rendered thumbnail for a day where it is completed and has that size, and else with the original, for a day exactly if processing has failed and else for a minute |
| LifecycleTheorems.UserAnswersAreAsAsked | internal/server/service/content.go:72-100 | the same for a user, through the query for the current avatar, for five minutes at most; the placeholder answers exactly as long as the user has no live uploaded avatar |
| Content.DayLongChoiceIsStable | internal/server/service/content.go:103-126 | a choice with a day of caching is the choice in every later state of the row |
| Programs.World.HandleUploaded | internal/worker/handler/uploaded.go:28-75 | in every environment the handler ends with its attempt returned, by steps of the protocol only; nil means that its avatar is finished, a non-retryable error that it is finished or has been recorded as given up |
| Programs.World.Put | internal/worker/handler/uploaded.go:147-154 | a thumbnail is stored, with the rendered bytes, before its key is noted |
| Programs.World.StoreThumbnails | internal/worker/handler/uploaded.go:138-155 | the loop ends with the keys of exactly the rendered thumbnails, or with a retryable failure |
| Programs.World.Process | internal/worker/handler/uploaded.go:132-177 | success means that the avatar is finished; anything else leads to the recording of the failure it returns |
| Programs.World.SetFailed | internal/worker/handler/errors.go:35-51 | a write of the failed status that is not an error leaves the row finished, and the error returned to the consumer follows from whether it could be made and whether the attempt is the last |
| Programs.World.Failure | internal/worker/handler/errors.go:28-52 | a retry is counted unless that call fails without effect, or the row is finished unless a call fails; an error is never made non-retryable, and is made retryable only short of the last attempt |
| Programs.World.Complete | internal/repository/postgres/avatars.go:247-262 | success leaves the row completed with exactly these keys; a refusal as an invalid transition means that the row is live and finished, one as not found that it is deleted |
| Programs.World.HandleDeleted | internal/worker/handler/deleted.go:24-59 | the keys go first, then the mark; the attempt ends with the result the protocol returns, and nil means marked |
| Programs.World.Upload | internal/server/service/upload.go:42-109 | success means that the caller has an uploaded avatar of these bytes under a fresh identifier, created during the call, also after others have acted, and stored as long as it is not deleted; the event has reached the broker unless the publication failed without effect. It succeeds whenever its calls do and nobody closes the row meanwhile; a row it has to give up does not stay under way |
| Programs.World.Delete | internal/server/service/delete.go:67-104 | each refusal says why: no live row, another owner, a failed call; success means the owner's row is deleted, and the removal of its files is announced, or done and marked, or one of those calls failed |
| Programs.World.RepublishStuck | internal/worker/reconciler/reconciler.go:131-148 | the rows its query finds in the state it is made in are the rows it publishes, up to the first error; the state it leaves is that after exactly these calls |
| Programs.World.RepublishUncleaned | internal/worker/reconciler/reconciler.go:153-170 | the same for the rows with files to remove |
| Programs.World.SelectStuck | internal/repository/postgres/avatars.go:54-64 | the query selects the longest waiting of the stuck rows of that moment, as many as the batch allows, and a query that breaks off has yielded the first of them |
| Programs.World.SelectUncleaned | internal/repository/postgres/avatars.go:66-72 | the same for the rows with files to remove, selected after the uploads have been published |
| Programs.World.RepublishUploads | internal/worker/reconciler/reconciler.go:131-148 | the loop publishes up to the first error, and the events it counts have reached the broker |
| Programs.World.RepublishCleanups | internal/worker/reconciler/reconciler.go:153-170 | the same for the delete events, after which the pass is over |
| Programs.World.Reconcile | internal/worker/reconciler/reconciler.go:95-128 | each part of a pass publishes what its query finds in the state it is made in: the longest waiting due rows, as many as the batch allows, up to where the query breaks off or a publication fails, which ends that part only. Every event counted has reached the broker, and success means that nothing broke off. With nobody else at work both parts find min(batch, number) of the due rows of the table whose stale uploads have just been failed |
| Retry.CountDeaths | internal/broker/retry.go:56-80 | the accumulation over the death history is its total count, for entries of any shape |
| Retry.TotalsAddUp | internal/broker/retry.go:56-80 | the total of a history is the sum of the totals of its parts, wherever it is cut |
| Retry.EntryAddsItsCount | internal/broker/retry.go:56-106 | a table with a positive counter of any of the four widths, up to the bound, adds exactly that counter, and no other entry adds anything |
| Retry.AttemptNumberIsRead | internal/broker/retry.go:23-30 | the attempt is one more than the own counter, whatever the broker recorded; without a valid one, one more than the total of the recorded history |
| Retry.AttemptsCountUp | internal/broker/retry.go:23-28 | delivery n of a message that fails every time and is rerouted with confirmation is attempt n, whatever the broker records |
| Retry.LadderIsBounded | internal/broker/retry.go:23-51 | header arithmetic of the ladder: whatever the broker records in between, only the fifth attempt is final, before it there is always a next, and failure n takes rung min(n, length) |
| Consumer.Consumer.Process | internal/broker/consumer.go:160-235 | a delivery to be handled again is published over again, persistent, with its own properties, body and every header but the counter; exactly one settlement per delivery: a rejection if it is to be handled again and its successor was not confirmed, else an acknowledgement; confirmed means that some queue has the successor, and is determined by the state of the channel and what happens on it |
| Consumer.LadderEndsInDeadQueue | internal/broker/consumer.go:202-234 | the forwarded copies repeat the message with the count of its attempts, take their rungs, and the fifth and no other goes to the dead queue |
| Consumer.ForwardAgreesWithProtocol | internal/broker/consumer.go:292-310 | the consumer forwards to the place and with the count that the protocol model assumes |
| Consumer.ProcessIsProtocol | internal/broker/consumer.go:202-310 | from any state in which the broker holds the delivery for its attempt, the settling steps of the protocol do to the copies, the messages and the attempt exactly what the consumer publishes and settles, and nothing else |
| Consumer.DeliveryIsTakenAndSettled | internal/broker/consumer.go:96-156 | a running pool that holds nothing receives a new delivery, an idle worker takes it, and it ends settled, the rest of the pool being as before |
| Consumer.PoolDrains | internal/broker/consumer.go:96-156 | at every moment there are as many workers as the prefetch count and no delivery is settled twice; when Consume has returned, each received delivery is settled exactly once, except for at most one never handed to a worker |
| Consumer.StoppedPoolComesToAnEnd | internal/broker/consumer.go:106-124 | a stopped pool cannot get stuck and every step brings its end nearer |
| Publisher.Publisher.Publish | internal/broker/publisher.go:113-192 | nil means that some queue has the message, and no answer but an acknowledgement gives it; it is returned exactly when the message was sent, acknowledged and routed and no stale return was waiting. The return that is reported is the oldest one waiting, of a message no queue has taken; the channel is given up exactly when sending fails |
| DelayName.NameReadsBack | internal/broker/topology.go:99-109 | reading the printed name of a delay yields the delay, for all durations |
| DelayName.OnlyZeroSecondsAreDropped | internal/broker/topology.go:99-109 | for all durations: the name of whole minutes lacks the zero seconds of the printed form, and nothing else is ever missing |
| DelayName.DefaultDelaysAreNamed | internal/broker/topology.go:73-80 | the delays of the ladder as it comes are named 5s, 30s and 5m |
| DelayName.NamesAreDistinct | internal/broker/topology.go:99-109 | the names of delays are equal exactly when the delays are |
| Topology.NewRetryLevels | internal/broker/topology.go:82-97 | one rung per delay, in order, named after it |
| Topology.LevelsFormLadder | internal/broker/topology.go:82-97 | queues and keys tell the rungs apart exactly as their delays do |
| Topology.RungsKeepTheirDelays | internal/broker/topology.go:153-183 | the queue declared for every rung keeps a message for the delay of that rung, to the millisecond |
| Topology.Broker.DeclareTopology | internal/broker/topology.go:113-148 | declaring succeeds exactly when nothing is declared differently, and then adds the intended exchanges, queues and bindings |
| Topology.Broker.DeclareRetryLevels | internal/broker/topology.go:153-183 | the same for the queues of the rungs, with the first one bound to the event keys too |
| Routing.EventsRoute | internal/broker/topology.go:45-47 | every event key, and the key of returned messages, leads into the main queue alone |
| Routing.RejectedRoute | internal/broker/topology.go:165-173 | what the main queue rejects with one of those keys leads to the first rung alone |
| Routing.RoutingIsClosed | internal/broker/topology.go:113-183 | for every non-empty ladder, from wherever a message can be every hop lands in exactly one queue of the system, expiries in the main queue; only the dead queue is an end |
| Queries.Table.GetCurrent | internal/repository/postgres/avatars.go:38-43 | a latest shown avatar of the user, or nothing if there is none |
| Queries.Table.ListByUser | internal/repository/postgres/avatars.go:45-49 | all shown avatars of the user once each, from new to old |
| Queries.CurrentIsHead | internal/repository/postgres/avatars.go:37-49 | with distinct creation times the current avatar is the head of the list, in every table |
| Queries.Table.DeleteCurrent | internal/server/service/delete.go:42-89 | the error for each case; on success every list of the user loses its head and nothing else, and all other users' lists are unchanged |
| Reconciler.SelectOldest | internal/repository/postgres/avatars.go:54-76 | the longest waiting of the matching rows, as many as the limit allows |
| LifecycleConvergence.PassLowersCounts | internal/worker/reconciler/reconciler.go:95-170 | in the protocol, a pass without faults, with deliveries without faults at any moment of it, from rest to rest: it takes its selection off the stuck and the uncleaned rows before its cutoff, and lowers both numbers by min(batch, number) |
| LifecycleConvergence.PassLowersRank | internal/worker/reconciler/reconciler.go:95-170 | the rank of unfinished work never grows over such a pass, and drops if everything left has waited long enough |
| LifecycleConvergence.PassesConverge | internal/worker/reconciler/reconciler.go:74-93 | as many such passes as the rank leave no upload under way, none unprocessed and no files to remove, for every sequence of runs of the protocol |
| LifecyclePasses.PassCanComplete | internal/worker/reconciler/reconciler.go:95-170 | from every state at rest such a pass exists |
| LifecyclePasses.TableCanComeToRest | internal/worker/reconciler/reconciler.go:74-93 | from every state at rest some run of waiting and passes leads to a table with nothing left to do |
| RateLimit.BurstFor | internal/server/http/ratelimit.go:42-48 | a configured burst is kept; a derived one is the least whole number of requests in two seconds, and at least one |
| RateLimit.Limiters.SweepIdle | internal/server/http/ratelimit.go:90-102 | the loop leaves exactly the keys seen within the idle time, at most once per interval |
| RateLimit.Limiters.Allow | internal/server/http/ratelimit.go:60-86 | reserving and cancelling on the library's buckets comes to taking one token or none from a level that refills |
| RateLimit.ReservationIsTakenBack | internal/server/http/ratelimit.go:79-85 | a reservation that is cancelled at once names the wait and leaves the level as it was |
| RateLimitTheorems.Replay | internal/server/http/ratelimit.go:44-102 | the limiter object gives the answers of the model to every ordered sequence of calls |
| RateLimitTheorems.SweepingAdmitsNoLess | internal/server/http/ratelimit.go:90-102 | forgetting idle keys admits every key at least as often, after every sequence of calls |
| RateLimitTheorems.ForgettingIsInvisibleExactly | internal/server/http/ratelimit.go:17-22 | no sequence of calls tells the sweeping limiter from one that never forgets if and only if the burst is at most rate times idle time |
| RateLimitTheorems.DefaultBurstRefillsWhileIdle | internal/server/http/ratelimit.go:45-48 | the derived burst meets that condition exactly for rates of at least one per idle time |
| RateLimitTheorems.WindowIsBounded | internal/server/http/ratelimit.go:60-86 | a key that no sweep removes passes at most burst + rate * T times in any window of length T |
| RateLimitTheorems.WindowIsBoundedAnyway | internal/server/http/ratelimit.go:60-102 | the same for every key, whatever the sweeps remove, if the burst refills within the idle time |
| RateLimitExactness.WindowsAreBoundedExactly | internal/server/http/ratelimit.go:60-102 | every window of every length T passes at most burst + rate * T calls of every key if and only if the burst is at most rate times idle time |
| RateLimitExactness.WindowIsBoundedByEvictions | internal/server/http/ratelimit.go:60-102 | for every limiter, key and window: burst + rate * T, and one burst more for each time a sweep removes the key |
| RateLimitTheorems.RefusalSpendsNothing | internal/server/http/ratelimit.go:79-85 | in a limiter that never forgets, leaving a refused call out changes no later answer to anyone |
| RateLimitExactness.RefusalsSpendNothingExactly | internal/server/http/ratelimit.go:60-102 | in the limiter that forgets, for all calls, leaving a refused one out changes no later answer to anyone if and only if the burst is at most rate times idle time |
| RateLimitExactness.RefusalCanSpend | internal/server/http/ratelimit.go:73-85 | for every other burst: a burst of calls, one refused soon after, and a burst soon after the idle time, the last of which passes without the refused call and is refused with it |
| RateLimitTheorems.RetryAfterIsTight | internal/server/http/ratelimit.go:85-85 | the announced number of seconds yields a token, and one second less does not |
| RateLimitTheorems.SilentCallerPasses | internal/server/http/ratelimit.go:60-86 | a caller silent for the announced seconds passes then, whatever other keys do and whether or not it was forgotten |
| RateLimitTheorems.RememberedKeysAreRecent | internal/server/http/ratelimit.go:88-102 | after every call each remembered key has called within the idle time and one sweep interval |
| TokenClock.ForgettingAdmitsNoLess | internal/server/http/ratelimit.go:90-102 | requests admitted, and requests admitted plus tokens left, are never fewer with forgetting |
| TokenClock.AdmissionsArePaidFor | internal/server/http/ratelimit.go:60-86 | what a key is admitted is paid for by the tokens there were and those that came |
| ETag.MatchETag | internal/server/http/content.go:68-85 | true exactly when both values are present and some listed candidate is accepted |
| ETag.PrintedListMatches | internal/server/http/content.go:57-85 | for every list of comma-free entity-tags printed with any blanks, a match means a star or a tag that weakly equals the validator (sections 8.8.3.2 and 13.1.2 of RFC 9110) |
| ETag.HeaderListMatches | internal/server/http/content.go:57-85 | for every list with the blanks a header may have, and validators stored with or without quotes: a match means a star or a tag of the same text, weak or not |
| ETag.CommaNeverMatches | internal/server/http/content.go:73-81 | a validator with a comma in it can be matched by a star only |

## Left out

- The decode slots of the renderer: they delay a handler, and a wait that times out is a failed call.
- A call that times out and takes effect later than its handler's next step: in the model an effect happens within the call or not at all.
- Malformed event bodies: they are acknowledged as non-retryable before any call, so the events of the model are well formed.
- An original cut short while it is read: a failed read is retryable, a complete one is rendered.
- Image decoding and scaling: a fixed partial function from bytes to thumbnails.
- The object key stored in a row: the model derives it from the identifier, as creation does.
- ORDER BY and LIMIT as a constraint on every pass of the protocol: there a pass may pick any matching rows up to its batch, as it also does when its query breaks off; `Programs.World` selects in order, and so do the passes of the convergence theorems.
- Reading the current avatar inside the protocol: a delete request names an identifier there; the query is in `Queries`, on a table at rest.
- PassesConverge: stated for passes from rest to rest; a pass that overlaps with requests, faults or another pass is covered by the safety theorems only.
- Floating-point rounding and the nanosecond grain of time in the rate limiter; `rate.Limiter` is modelled from its documented behaviour, its source is not part of this model.
- A message that a queue has kept although the broker refused it (an internal error of the broker): in the model no queue has a refused message.
- The limit of one buffered return per publishing channel, and the client library's behaviour when it is exceeded.
- Refused declarations other than conflicting ones, connection loss during declaration.
- The rate limit switched off (a rate of zero), and the choice of the key from a request.
- Unicode normalisation of header values; blanks are those of the standard library's trimming.
- HTTP routing, middleware, error-to-status mapping, pages, circuit breakers, configuration, logging, metrics, tracing, migrations and deployment: a single branch settles their claims.
- Storage accounting and avatar metadata (file name, dimensions, content type): written once and never read by the modelled code.
