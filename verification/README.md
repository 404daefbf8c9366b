# Avatar service: a verified model

This project models the parts of the avatar service that carry state across calls, and proves what
they promise over every run. It has five independent parts.

* **Token buckets with lazy eviction.** `RateLimiter` is the limiter as a mutable class proved
  against pure functions; `RateLimiterProofs` compares it with a limiter that never forgets a bucket;
  `RateLimiterAdmission` bounds what it admits, and how long it keeps a bucket; `RateLimiterDenials` is
  the converse, that it denies no more than that bound requires. A timestamp is read before the lock is
  taken, so timestamps may run backwards in lock order: eviction and admission are treated for a skew of
  at most `d`, of which `d == 0` is a monotone clock.
* **The avatar lifecycle.** `Protocol` is a transition system with one program counter for each
  running upload, delete, upload handler and delete handler. Each call of the repository, the storage
  or the broker is one atomic step and may succeed, fail without effect, or fail after taking effect.
  Any number of processes interleave, the broker delivers at least once, acknowledgements may be
  lost, processes may crash. `ProtocolSafety` and `ProtocolTheorems` hold the invariants of all runs;
  `ProtocolRequests` traces every record and every deletion back to the request that asked for it;
  `ProtocolPublished`, `ProtocolCompleted`, `ProtocolUploads` and `ProtocolOrphans` hold the stronger
  results that need conditions on the run. `Runs` and `Witness` build runs in which one such condition
  is broken and the result fails, and `Needed` concludes that none of the conditions can be dropped.
  `Store` has the two stores and the broker. `Service` and `Worker` are the methods themselves, as classes over the mutable
  stores, each proved equal to the uninterrupted run of its protocol process (`Sequential`);
  `RunnerProofs` ties the answers of the worker's loop to the queues. `ReadSide`, `Cards`, `Drain` and
  `Newest` prove what the read methods and repeated deletions add up to.
* **The circuit breaker.** `CircuitBreaker` is the class with its two locked sections,
  `BreakerHistory` proves statements about every interleaving of calls through it, stragglers
  included; `Guards` and `GuardedStores` prove when a guarded dependency cannot be told from the
  dependency.
* **The in-flight gauge.** `Inflight` and `InflightProofs`: the reference count is changed under a
  lock, the gauge outside it, and the lookup and the update of a gauge child are two steps.
* **Resampling.** `Resample`: the nearest-neighbour loop and how evenly it samples.

Where a property does not hold without conditions, a theorem says which. The conditions of
`EvictionUnobservable`, `UnnoticedUnlessTooEarly`, `GuardTransparent` and `DeletionLostExactly` are
necessary and sufficient. `CompletedNeedsBoth`, `NoUploadLostNeedsHonest`, `NoOrphansNeedsAll` and
`FailedPublishNeedsAll` say of a fixed list of conditions on runs that all of them together suffice, and
that the result fails as soon as any one of them is dropped.

## Code and documentation

Three promises of the documentation that the code keeps only under conditions. The model follows the
code.

* "The worker deletes files physically and idempotently after a soft delete"
  (docs/specs/01-avatar-service-v1.md:84 and 248, in our words). The delete handler acknowledges *any*
  failure of its lookup as a duplicate (internal/worker/worker.go:154-158).
  `Sequential.DeletionLostExactly`: it reports success and leaves an object behind iff its lookup failed
  and there was one. `Needed.NoOrphansNeedsAll`: over all runs, with any number of runners, nothing is
  left behind if a delete event is taken only when no upload handler of that avatar is past its check,
  the lookup fails only when there is nothing to delete, soft deletes are followed by their event, and an
  upload handler that gives up or crashes leaves every stored thumbnail listed in the record. Every other
  call may fail, and everything else may crash; drop any one condition, and something can be left behind.
* "A failed publish leaves the avatar `failed`" (docs/specs/01-avatar-service-v1.md:245, in our words).
  The error of MarkPublishFailed is ignored, and a publish may report an error although the event was
  queued (internal/service/service.go:175-182). `ProtocolPublished.StatusAfterMark`: if the event was not
  queued, then from the mark on the record is `failed` for good iff the mark reached the repository, in
  every run. `Witness.UntruePublishIsCompleted`: if it was queued, the record may end up as `completed`
  although the mark reached the repository and the returned card said `failed`.
  `Needed.FailedPublishNeedsAll`: over all runs, the record is `failed` once the upload is over, if
  publish errors are honest, the mark reaches the repository and the process does not crash before it;
  drop any one condition, and it can stay `processing` or become `completed`.
* "Duplicates are harmless through state checks" (docs/specs/01-avatar-service-v1.md:1299, in our
  words). `Needed.CompletedNeedsBoth`: with any number of runners, a completed avatar stays completed in
  all runs if no two handlers of the same upload event run at a time and a publish that reports an error
  has not queued the event; drop either, and it can become failed again.

## Modelling decisions

* `float64` is `real`, times are integers or reals; rounding is not modelled.
* Avatar identifiers are fresh and contain no slash. `Domain.RenderInjective` shows that keys of such
  identifiers never collide as strings, so stores indexed by structured keys behave like the
  string-keyed ones; `ProtocolTheorems.StoredKeysAreDistinct` says so of every reachable store.
* Generating a thumbnail is an unknown deterministic partial function of bytes and size.
* The clock, fresh identifiers, how each call ends (`Outcome`), the order of a listing among equal
  creation times, and context cancellation are parameters.
* The broker has one queue for each of the two routing keys the service publishes under.
* The variable `history` in the protocol state records what happened; no step reads it.

## Model

| member | source | states |
|---|---|---|
| RateLimiter.RateLimiter.constructor | internal/http/rate_limit.go:44-75 | each non-positive setting falls back to its own default, the others are kept; no buckets, last cleanup now |
| RateLimiter.RateLimiter.Allow | internal/http/rate_limit.go:88-117 | answer and whole new state are those of the specification step: cleanup if due, refill capped at burst, take one token or deny |
| RateLimiter.RateLimiter.Cleanup | internal/http/rate_limit.go:119-126 | in whatever order the map is visited, exactly the buckets idle for the TTL are gone and the rest are untouched |
| RateLimiterProofs.SameAnswers | internal/http/rate_limit.go:88-126 | from any pair of states where the evicting limiter simulates the other, all later answers agree, provided rate*(TTL-2d) >= burst |
| RateLimiterProofs.EvictionObserved | internal/http/rate_limit.go:88-126 | if rate*(TTL-2d) < burst, one explicit call sequence within the skew gets different answers |
| RateLimiterProofs.EvictionUnobservable | internal/http/rate_limit.go:88-126 | for every skew d: forgetting idle buckets never changes an answer on any call sequence over any keys iff rate*(TTL-2d) >= burst |
| RateLimiterAdmission.RefillWithinCredit | internal/http/rate_limit.go:104-112 | the potential of a bucket (tokens plus what may still flow in, capped) bounds what a refill makes available |
| RateLimiterAdmission.ServeSpendsCredit | internal/http/rate_limit.go:88-117 | a granted call spends one unit of that potential; calls for other keys spend none; a cleanup that forgets the bucket is paid for by the time since the cleanup before |
| RateLimiterAdmission.AdmissionBound | internal/http/rate_limit.go:88-126 | any TTL above 2d, any window after any history: one key is allowed at most burst + r*d + r*(last - first) calls, r = max(rate, burst/(TTL-2d)) |
| RateLimiterAdmission.AdmissionBoundAnyTtl | internal/http/rate_limit.go:88-126 | any TTL and any skew d, any window after any history: a key is forgotten at most once per cleanup interval, so it is allowed at most 2*full + (full/interval)*(last - first) + rate*(last - first) calls, full = burst + rate*d |
| RateLimiterAdmission.AdmissionBoundMonotone | internal/http/rate_limit.go:97-126 | monotone clock, any TTL: at most burst + max(rate, burst/TTL)*(last time - first time) |
| RateLimiterAdmission.BucketRetention | internal/http/rate_limit.go:93-126 | monotone clock: every resident bucket was used less than TTL + interval ago, so there are no more buckets than keys called in that window |
| RateLimiterAdmission.RecentKept | internal/http/rate_limit.go:93-126 | monotone clock: every key called less than TTL ago has its bucket still, whether that call was allowed or denied |
| RateLimiterDenials.DeniedOnlyIfSpent | internal/http/rate_limit.go:88-126 | any TTL and any timestamps: a call is denied only if it and the calls of its key admitted since some earlier one are more than burst + rate*(time since then) |
| RateLimiterDenials.DeniedExactly | internal/http/rate_limit.go:97-126 | monotone clock, rate*TTL >= burst: a call is denied iff that is so for some earlier call |
| RateLimiterDenials.RestedNeverDenied | internal/http/rate_limit.go:88-126 | any settings and any history: a call at least 1/rate after every earlier call of its key is allowed |
| Domain.ExtensionIsSafe | internal/service/service.go:426-441 | for every MIME string: the extension is never empty, starts with a dot and contains no slash; it is the string's own if it has one, else it tells the three accepted types from each other and from the rest |
| Domain.ParseSize | internal/domain/domain.go:74-85 | accepts the names of the three sizes and the empty one, each for its size, and nothing else |
| Domain.RenderInjective | internal/worker/worker.go:111-112 | storage keys of slash-free identifiers, the original's (internal/service/service.go:152) included, are equal as strings only if they are the same variant of the same avatar |
| Store.Repository.Create | internal/service/service.go:455-460 | stores the record under its identifier, subject to the outcome of the call |
| Store.Repository.GetByID | internal/service/service.go:475-483 | the record, deleted or not, or NotFound |
| Store.Repository.GetActiveByID | internal/service/service.go:463-472 | the record if it is not soft-deleted, else NotFound |
| Store.Repository.ListActiveByUser | internal/service/service.go:486-499 | exactly the user's live records, each once, newest first, whatever order the map is visited in |
| Store.Repository.SoftDeleteByID | internal/service/service.go:502-513 | sets the deletion time of a live record only; otherwise NotFound and no change |
| Store.Repository.MarkPublishFailed | internal/service/service.go:516-527 | sets the status, or NotFound and no change |
| Store.Repository.UpdateProcessingResult | internal/service/service.go:530-549 | sets keys, flags and status together: completed iff both keys are given |
| Store.InsertNewestFirst | internal/service/service.go:497 | inserting keeps a list newest first and adds just that record |
| Store.Storage.Put | internal/service/service.go:568-574 | stores bytes and type under the key and nothing else |
| Store.Storage.Get | internal/service/service.go:577-585 | what is stored, or ObjectNotFound |
| Store.Storage.Delete | internal/service/service.go:588-593 | removes the key; deleting a missing key succeeds |
| Store.Storage.Exists | internal/service/service.go:596-601 | whether the key is stored |
| Protocol.KeysInOrder | internal/worker/worker.go:159-165 | the delete handler visits the original, the small and the large thumbnail, in this order, each once and only if its key is set |
| ProtocolSafety.MicroKeeps | internal/service/service.go:133-184 | every call of every process, however it ends, keeps the stores' invariant, what the process relies on and its guarantee to the others |
| ProtocolSafety.Stable | internal/worker/worker.go:63-169 | what one process relies on survives any call of any other that keeps that guarantee |
| ProtocolSafety.RunKeeps | internal/worker/worker.go:63-169 | the global invariant over records, objects, queues and running processes holds in every reachable state |
| ProtocolTheorems.LiveDataIsFresh | internal/worker/worker.go:63-125 | in every run each live record has its uploaded original stored, and each flagged thumbnail is stored and is the thumbnail of that original |
| ProtocolTheorems.TasksAreExclusive | internal/service/service.go:320-338 | in every run no two processes ever hold the same upload, or the announcement of the same deletion |
| ProtocolTheorems.StoredKeysAreDistinct | internal/service/service.go:133-184 | in every run no two stored keys collide as strings |
| ProtocolTheorems.PhysicalDeleteAfterSoftDelete | docs/specs/01-avatar-service-v1.md:83-84 | in every run a delete event names a record that is soft-deleted and stays so, and an object that disappears belonged to the avatar of the handler that removed it |
| ProtocolTheorems.RecordsPersist | internal/service/service.go:502-549 | records never vanish; identity, owner, original and creation time never change |
| ProtocolTheorems.SoftDeleteOnce | internal/service/service.go:307-340 | however deletes interleave, at most one succeeds per avatar and at most one event is announced for it |
| ProtocolTheorems.DeletionTimeIsFixed | internal/service/service.go:502-513 | once set, the deletion time never changes |
| ProtocolTheorems.OnlyOwnerDeletes | internal/service/service.go:315-326 | a successful delete is made on a live record by its owner, who is the uploader, although check and update are separate calls |
| ProtocolRequests.MadeOnRequest | internal/service/service.go:150-170 | in every run each record was made by an earlier upload request, and carries its identifier, user, original key and time |
| ProtocolRequests.DeletedOnRequest | internal/service/service.go:307-379 | in every run each deleted record was asked for by its uploader, by name or as the current avatar, at the time it bears |
| ProtocolRequests.CreatedWhenUploaded | internal/service/service.go:150-166 | in every run, at every time after an upload request, the record of that identifier bears the request's time |
| ProtocolPublished.MicroPublished | internal/service/service.go:170-183 | every call, however it ends, keeps that events exist and are handled only of published uploads, that an unpublished upload about to be published or marked is processing, and that only the mark and the last call of a handler change a status |
| ProtocolPublished.StatusAfterMark | internal/service/service.go:175-182 | in every run, with any number of runners: when the upload event was not queued, the record is failed at every later time if the mark reached the repository, and processing at every later time if it did not |
| ProtocolPublished.FailedPublishShows | docs/specs/01-avatar-service-v1.md:245 | in every run with honest publish errors, marks that reach the repository and no crash before them: once an upload whose publish reported an error is over, its record is failed at every later time |
| Needed.FailedPublishNeedsAll | internal/service/service.go:175-183 | for each of the eight ways to ask for these three conditions: a failed publish shows in all runs iff all three are asked for |
| Witness.UntruePublishIsCompleted | internal/service/service.go:175-183 | for every upload that can be thumbnailed there is a run whose only fault is a publish that reports an error after queueing the event, in which the mark reaches the repository and the record ends up as completed |
| Witness.LostMarkStaysProcessing | internal/service/service.go:180 | for every upload there is a run in which publish and mark are lost, nothing else goes wrong, and the record ends up as processing |
| Witness.CrashStaysProcessing | internal/service/service.go:175-182 | the same for a crash between the lost publish and the mark |
| ProtocolCompleted.AdvanceKeepsCompleted | internal/worker/worker.go:72-123 | a call keeps that only published avatars are completed and that a handler past its check works on one that is not, and takes nothing out of completed |
| ProtocolCompleted.CompletedIsAbsorbing | internal/worker/worker.go:72-75 | any number of runners, an upload event taken only when no other handler of it runs, honest publish errors: no step of any run takes an avatar out of completed, under redelivery, crashes and failing stores |
| Needed.CompletedNeedsBoth | internal/worker/worker.go:72-81 | for each of the four ways to ask for these two conditions: completed is final in all runs iff both are asked for |
| ProtocolUploads.NoUploadLost | internal/worker/worker.go:63-125 | any number of runners, redelivery, failing stores, crashes; honest publish errors: when nothing runs and no upload event is queued, every live avatar whose event was published is completed, and both its thumbnails are stored and are of what was uploaded |
| Needed.NoUploadLostNeedsHonest | internal/service/service.go:175-182 | without honest publish errors that fails, with them it holds in all runs |
| Witness.UntruePublishLosesUpload | internal/service/service.go:175-182 | for every upload that can be thumbnailed there is a run whose only fault is a publish that reports an error after queueing the event, and that ends with the avatar failed and no event left |
| ProtocolOrphans.ReadsAllKeys | internal/worker/worker.go:153-169 | the keys a delete handler reads cover every object its avatar has left |
| ProtocolOrphans.CallIsTurn | internal/worker/worker.go:63-169 | every call that may fail as it likes, short of the four conditions, keeps deletions due and stored thumbnails listed |
| ProtocolOrphans.CleaningGoesOn | internal/worker/worker.go:153-169 | after every call and every crash, whatever is left of a deleted avatar is still going to be removed |
| ProtocolOrphans.NoOrphansAtQuiescence | internal/worker/runner.go:75-101 | any number of runners, a delete event taken only when no upload handler of that avatar is past its check, delete lookups failing only when there is nothing to delete, soft deletes followed by their event, upload handlers that give up or crash leaving the stored thumbnails listed; all else may fail, be repeated or crash: when nothing runs and no delete event is queued, no soft-deleted avatar has an object left, in whatever order events came |
| Needed.NoOrphansNeedsAll | internal/worker/runner.go:75-101 | for each of the sixteen ways to ask for these four conditions: all drained runs are without orphans iff all four are asked for |
| Witness.LostLookupLeavesOrphan | internal/worker/worker.go:154-158 | for every upload there is a run with a single failing lookup after which the deleted avatar keeps its original for good |
| Witness.LostPublishLeavesOrphan | internal/service/service.go:333-338 | the same for a single lost delete event |
| Witness.HalfStoredLeavesOrphan | internal/worker/worker.go:118-122 | the same for an upload handler whose second Put fails, as it then reports: the small thumbnail stays for good |
| Witness.SecondRunnerLeavesOrphan | internal/worker/worker.go:113-125 | the same for a delete event handled while an upload handler of the avatar is past its check: it stores thumbnails after the delete handler is done |
| Witness.SecondRunnerUndoesCompleted | internal/worker/worker.go:72-80 | for every upload that can be thumbnailed there is a run with a second handler of its event and one failing read that takes it from completed to failed |
| Witness.UntruePublishUndoesCompleted | internal/service/service.go:175-182 | with one handler at a time, for every upload that can be thumbnailed there is a run whose only fault is a publish that reports an error after queueing the event, and that takes the avatar from completed to failed |
| Sequential.SoloIsInterleaving | internal/worker/runner.go:84-99 | an uninterrupted process is one of the interleavings, down to the requeueing of a failed delivery |
| Sequential.UploadHandled | internal/worker/worker.go:63-130 | with working stores: acknowledged untouched if deleted or complete, else completed with both thumbnails, else failed with the matching error |
| Sequential.UploadHandlerIdempotent | docs/specs/01-avatar-service-v1.md:1299 | handling an upload event twice gives the state and the answer of handling it once |
| Sequential.DeleteHandled | internal/worker/worker.go:153-169 | removes exactly the keys the record lists |
| Sequential.DeleteHandlerIdempotent | docs/specs/01-avatar-service-v1.md:248 | handling a delete event twice gives the state and the answer of handling it once |
| Sequential.DeletionLostExactly | internal/worker/worker.go:153-169 | however its calls end: the handler succeeds and leaves a listed object behind iff its lookup failed and there was one |
| Service.UploadIsSolo | internal/service/service.go:153-184 | the run of the upload process, call by call: put, create, publish, and mark as failed only if the publish failed |
| Service.CardAtReturn | internal/service/service.go:175-183 | when an undisturbed upload returns, the record of one whose publish failed is failed iff the mark reached the repository, and only then does the card agree with it; it agrees in all other cases (later times: StatusAfterMark, FailedPublishShows) |
| Service.CardDisagrees | internal/service/service.go:175-183 | an instance: publish and mark both lost, the card says failed, the record processing |
| Service.UploadThenRead | internal/service/service.go:133-252 | right after an upload, ReadAvatar and Metadata under the identifier on the returned card yield the uploaded bytes and that very card, unless it says failed and the mark was lost |
| Service.DeleteIsSolo | internal/service/service.go:315-340 | the run of the delete process, call by call: lookup, owner check, soft delete, publish whose error is ignored |
| Service.ScanIsSolo | internal/service/service.go:361-378 | the scan for the current avatar stops at an error of the storage, or at the first stored original |
| Service.DeleteAnswers | internal/service/service.go:307-340 | however its calls end: NotFound, Forbidden and a store's error each in its case and without effect; else the deletion time is set and one event queued |
| Service.ScanAnswers | internal/service/service.go:361-378 | however its calls end: the first listed original that is there is deleted, a failing lookup before it ends the call without effect |
| Service.ScanFindsNone | internal/service/service.go:361-379 | NotFound, and no effect, when no listed original is there and no lookup fails |
| Service.ListedIsRead | internal/service/service.go:289-301 | the card of a listed record names it, and leads back to the bytes served |
| Service.ReadableNext | internal/service/service.go:392-404 | the readable records of a listing, one record further |
| Service.AvatarService.Upload | internal/service/service.go:133-184 | stores and answer are those of the protocol run for every combination of failing calls; an invalid user changes nothing; the card is that of the new record, failed iff the publish failed; under the identifier it names, the upload can be read |
| Service.AvatarService.DeleteByID | internal/service/service.go:307-340 | stores and answer are those of the protocol run, and each error comes in its case; an invalid user changes nothing |
| Service.AvatarService.DeleteCurrentUserAvatar | internal/service/service.go:343-379 | another user's path is forbidden and changes nothing; else stores and answer are those of the protocol run over the listing |
| Service.AvatarService.ReadAvatar | internal/service/service.go:187-210 | an error iff a call it gets to make failed; else the variant's object or the error of the specification |
| Service.AvatarService.Metadata | internal/service/service.go:213-252 | an error iff a call it gets to make failed, asking only for flagged thumbnails; else the card of the specification, which names the record |
| Service.AvatarService.ReadUserAvatar | internal/service/service.go:276-304 | serves the first listed record whose variant is set, stored and readable, skipping failing reads, with a card that names it and leads back to the bytes; NotFound iff there is none |
| Service.AvatarService.GalleryByUser | internal/service/service.go:382-406 | an error iff the listing or the lookup of a flagged original failed; else the cards of the readable records in listing order, each naming its record, and whether the user has any |
| Worker.Retry | internal/worker/worker.go:172-188 | succeeds iff some attempt within the limit (at least one) succeeds before the context is over; else the context's error or the last attempt's |
| Worker.UploadHandler.Generate | internal/worker/worker.go:82-110 | both thumbnails or none; retrying a deterministic failure does not help, and cancellation does not spoil a success |
| Worker.UploadHandler.Handle | internal/worker/worker.go:63-130 | stores and answer are those of the protocol run, for every combination of failing calls |
| Worker.UploadHandler.StoreThumbnails | internal/worker/worker.go:111-129 | likewise from the first Put on |
| Worker.UploadHandler.Fail | internal/worker/worker.go:78-80 | marks the avatar failed whether or not that works, and passes the error on |
| Worker.DeleteHandler.Handle | internal/worker/worker.go:153-169 | stores and answer are those of the protocol run: any lookup error ends it with success, a failing Delete ends it with that error |
| Worker.Runner.Run | internal/worker/runner.go:75-147 | one delivery after the other, each acknowledged iff its handler succeeded, unknown routing keys acknowledged, unreadable bodies rejected |
| RunnerProofs.AnswerAt | internal/worker/runner.go:84-147 | each answer in terms of the stores the delivery finds: true iff its handler succeeds; an unknown routing key gets true and an unreadable body false, and neither touches a store |
| RunnerProofs.FineAnswers | internal/worker/runner.go:84-99 | with working stores an upload event is acknowledged iff its avatar needs no work or its thumbnails could be made, a delete event always |
| RunnerProofs.ServedIsPath | internal/worker/runner.go:75-99 | a list of queued deliveries is a path of the protocol that takes them in their order and leaves the queues without just those answered true |
| ReadSide.GalleryAgrees | internal/service/service.go:382-406 | the gallery shows a listed avatar iff ReadAvatar serves its original, in listing order |
| ReadSide.ReadsAreFresh | internal/service/service.go:187-210 | in every state of every run a read of a live avatar yields the upload or its thumbnail, or says not ready; it never finds the object missing |
| ReadSide.MetadataIsFresh | internal/service/service.go:213-252 | in every state of every run Metadata of a live avatar lists just the flagged thumbnails, each of which ReadAvatar serves and is that of the upload, under the record's status; a completed card lists both |
| Cards.LinksDiffer | internal/service/service.go:416-424 | the links of metadata and gallery cards are equal only for the same avatar |
| Cards.SizedLinksDiffer | internal/service/service.go:295-298 | the links of cards that come with bytes are equal only for the same avatar and size |
| Newest.LaterListedFirst | internal/service/service.go:486-499 | in every run, of two live uploads of a user the one requested later comes first in every listing |
| Newest.OlderNotServed | internal/service/service.go:276-304 | in every run ReadUserAvatar does not serve the older of them, at full size or at any size the later one has |
| Newest.OlderNotDeleted | internal/service/service.go:343-379 | in every run DeleteCurrentUserAvatar succeeds and leaves the older of them alive |
| Drain.DeletesNewest | internal/service/service.go:343-379 | deletes one of the user's newest current avatars and nothing else, and queues one event for it; or there is none and nothing changes |
| Drain.DeletesWhatIsServed | internal/service/service.go:276-379 | deletes the record ReadUserAvatar would serve at full size, up to equal creation times; each finds none iff the other does |
| Drain.DrainLeft | internal/service/service.go:343-379 | after n calls, the first n deleted are gone, newest first and once each, and everything else is as it was |
| Drain.DrainDeletesAll | internal/service/service.go:343-379 | repeating the call ends in NotFound exactly when all of the user's current avatars are deleted, and it gets there |
| CircuitBreaker.CircuitBreaker.constructor | internal/service/circuit_breaker.go:37-57 | closed, with the defaults for non-positive settings |
| CircuitBreaker.CircuitBreaker.BeforeCall | internal/service/circuit_breaker.go:72-88 | admits, and becomes half-open, exactly as the specification |
| CircuitBreaker.CircuitBreaker.AfterCall | internal/service/circuit_breaker.go:90-105 | success closes it; a failure counts, ends half-open and opens it from the threshold on |
| BreakerHistory.FieldsAreFoldOfHistory | internal/service/circuit_breaker.go:72-105 | in every interleaving: failures is the trailing run of failing completions, open iff that run reached the threshold and until last failure + timeout, half-open iff open and a call was admitted since the last completion |
| BreakerHistory.AdmissionFromHistory | internal/service/circuit_breaker.go:72-88 | admission as a predicate on the history alone, both directions |
| BreakerHistory.ProbeRate | internal/service/circuit_breaker.go:72-105 | monotone clock: the n-th call admitted since a trip with no success since comes no earlier than n timeouts after it, stragglers included |
| BreakerHistory.HalfOpenHasProbe | internal/service/circuit_breaker.go:81-87 | half-open means that a call admitted since the last completion is still running |
| BreakerHistory.NoWedging | internal/service/circuit_breaker.go:72-88 | with nothing in flight and the timeout over, the next call is admitted |
| BreakerHistory.HalfOpenExclusive | internal/service/circuit_breaker.go:72-105 | once an open breaker has nothing in flight, at most one call is in flight until a success closes it |
| Guards.Guard.Execute | internal/service/circuit_breaker.go:60-70 | one guarded call: breaker, dependency and reply are those of the specification; a disabled breaker is bypassed; unless the dependency says so itself, the breaker's own error comes iff the call was not admitted, and then nothing changes |
| Guards.UnnoticedUnlessTooEarly | internal/service/circuit_breaker.go:60-105 | for the times at which the calls were made: same replies and same state behind the guard iff every call that follows threshold or more failures in a row starts no earlier than the timeout after the last of them |
| Guards.GuardTransparent | internal/service/dependency_guards.go:24-132 | any dependency, any list of calls: same replies and same state behind the guard whenever the calls are made iff the dependency by itself never fails threshold times in a row before a further call |
| GuardedStores.RepositoryTransparent | internal/service/dependency_guards.go:24-70 | the guarded repository, with the application's failure test: transparent iff no threshold calls in a row fail in the dependency before a further call; NotFound answers never count |
| GuardedStores.StorageTransparent | internal/service/dependency_guards.go:86-112 | likewise for the storage, missing objects never count |
| GuardedStores.BrokerTransparent | internal/service/dependency_guards.go:128-132 | likewise for the broker |
| GuardedStores.CallRepository | internal/service/dependency_guards.go:24-70 | every request is the call of that name on the repository: records and reply are those of the transparent specification, and each reply and effect in its case |
| GuardedStores.CallStorage | internal/service/dependency_guards.go:86-112 | likewise for the storage |
| GuardedStores.CallBroker | internal/service/dependency_guards.go:128-132 | likewise for the broker, each routing key with its own queue |
| GuardedStores.RepliesWithListing | internal/service/dependency_guards.go:46-52 | a listing is computed from the records at the time of the call: for every order of visiting them it is the user's live records, each once, newest first |
| GuardedStores.RepliesFail | internal/app/app.go:367-375 | whether a reply counts as a failure depends on how the call itself ended, in every state |
| Inflight.InflightGauge.Acquire | internal/observability/metrics.go:123-125 | the locked count at the start of a request |
| Inflight.InflightGauge.Release | internal/observability/metrics.go:131-137 | the locked uncount, deleting count and series when the last reference goes |
| Inflight.InflightGauge.CountRequest | internal/observability/metrics.go:118-140 | a whole request with nothing in between leaves every count and every reported value as it found them |
| InflightProofs.GaugeIsSound | internal/observability/metrics.go:118-140 | in every interleaving the count is the number of requests between count and uncount, and the gauge the number between Inc and Dec, however often the returned function is called |
| InflightProofs.NoUpdateLost | internal/observability/metrics.go:126-130 | a request never adds to a child its series no longer leads to |
| InflightProofs.DeletedAtZero | internal/observability/metrics.go:133-136 | a series is deleted only at gauge value 0 and with no request counted |
| InflightProofs.AbsentWhenFinished | internal/observability/metrics.go:129-138 | when all its requests are over, a series is gone from the counts and from the gauge |
| Resample.Fill | internal/imageproc/imageproc.go:51-59 | every output pixel is the source pixel the sampling formula names |
| Resample.SampledFrom | internal/imageproc/imageproc.go:55-56 | the output coordinates showing a given source coordinate are one interval, with its ends |
| Resample.SampleInBounds | internal/imageproc/imageproc.go:55-56 | sampled coordinates lie inside the source and are monotone |
| Resample.BalancedResampling | internal/imageproc/imageproc.go:51-59 | each source column or row is shown by floor(s/D) or ceil(s/D) output columns or rows |
| Resample.SurjectiveOrInjective | internal/imageproc/imageproc.go:51-59 | enlarging shows every source column, shrinking shows none twice |

## Left out

- HTTP routing, multipart parsing, JSON, HTML pages and the mapping of errors to status codes.
- The choice of a rate-limit key from a request; keys are opaque.
- The Postgres, MinIO and RabbitMQ clients: the stores are the in-memory ones with failing calls (the SQL agrees with them on the three updates), the broker is a pair of multisets of unacknowledged messages.
- JPEG and PNG decoding and encoding, colour conversion, and the classification of image bytes.
- Tracing, logging, and all metrics but the in-flight gauge.
- `ListByUser`, the parsing of avatar identifiers, health checks: one branch each.
- Floating-point rounding and clock resolution in the rate limiter.
- Panics inside guarded operations or handlers, other than as a process that stops (`Crash`).
- The fields FileName, OriginalMimeType, SizeBytes and UpdatedAt of an avatar, which no modelled branch reads.
- The order of records with equal creation time: every listing result holds for any such order.
- Randomness of identifiers: an identifier is any that was not handed out before.
- RateLimiter.RateLimiter.Allow: buckets are values in the map, not shared pointers; no alias of a bucket escapes the lock in the program.
- Guards.Guard.Execute: stands for the twelve wrapper methods, which differ in the request only; the captured results are one `value`.
- RateLimiterAdmission.AdmissionBound: for a TTL above 2d; `AdmissionBoundAnyTtl` bounds admissions for every other.
- ProtocolOrphans.NoOrphansAtQuiescence: under four conditions on the run, none of which can be dropped (`NoOrphansNeedsAll`); weaker forms of them may do.
- ProtocolCompleted.CompletedIsAbsorbing: under two conditions on the run, neither of which can be dropped (`CompletedNeedsBoth`); weaker forms of them may do.
- ProtocolUploads.NoUploadLost: under one condition on the run, which cannot be dropped (`NoUploadLostNeedsHonest`).
- RateLimiterDenials.DeniedExactly: for a monotone clock and a TTL in which a bucket refills; `DeniedOnlyIfSpent` holds without these.
- ProtocolPublished.FailedPublishShows: under three conditions on the run, none of which can be dropped (`FailedPublishNeedsAll`); `StatusAfterMark` holds without them.
- Needed.NoOrphansNeedsAll: this and the two other equivalences of `Needed` are for a service with a broker, and a thumbnailer that can do something; without a broker there are no events.
- Worker.Runner.Run: deliveries are given as a list; a failing acknowledgement is a step of the protocol (`ackLost`), not of this loop.
- Liveness: nothing is said about how soon a queued event is delivered.
