# s3-multipart upload scheduler, modelled in Dafny

The library uploads a browser `File` to S3 in parts. The caller supplies three collaborators:

- `createUpload` starts a multipart upload and yields an upload id;
- `getPartUrl` yields a signed URL for one part;
- `completeUpload` finishes the upload with the ETag of every part.

`S3Multipart.upload`, in `src/index.js`, cuts the file into `ceil(size / partSize)` parts. It keeps up to
`parallelism` part requests in flight, and retries a failed part after a backoff delay, at most `retries`
times. It reports progress as a running byte total. It rejects, and aborts every active request, once a
part runs out of retries.

The model has seven modules, plus two helper modules: `Wrappers` (the `Option` type) and `Seqs` (`Sum` over a sequence of numbers).

The seven modules are:

- `Options`: the defaults, the constructor's option merge and collaborator validation, and the retry delay rule.
- `Parts`: the part count and each part's byte range.
- `Transfer`: the pure pieces of `sendPart`. These are the status decision with its error message, and the progress deltas.
- `JsArray`: `indexOf` and `splice(i, 1)` as `activeXhr` uses them.
- `Bookkeeping`: the upload's invariant, stated over plain values, with one lemma per update showing that the update keeps it.
- `Events`: the whole upload state as one value, and every callback as a function on it, each proved to keep `Events.Inv`. The module also states what the invariant promises: resolution only when every part is done, ETags by part number, the parallelism bound, and exactly `retries + 1` attempts before rejection.
- `Scheduler`: class `Upload`, whose fields are the closure variables of `upload`:
  - `partNumber`, `completedParts`, `totalSentBytes`;
  - the `etags` array, `activeXhr`, each part's `attempt`, each request's `lastLoaded`;
  - the pending retry timers and the two promises.

  Each closure (`nextPart`, `tryUpload`, `onProgress`, the `.then`/`.catch` callbacks, the abort loop) is a
  method that updates these fields in place. Each method is proved to change the fields exactly as the
  matching `Events` function changes the state, or exactly as the field update its `ensures` states (`Open`,
  `SendPart`, `Detach`, `OnProgress`, `AbortActive`), so every browser callback method keeps `Valid()`.

The event loop is modelled as any sequence of the callback methods of `Scheduler.Upload`:

- `TimerFires`, `Respond`, `PartProgress`, `Abandon` and `Complete`;
- `Succeed` and `Fail`, the two outcomes of a completed request, which keep `Valid()` too and are reached through `Respond`;
- `Respond` delivers a completed request's status, status text and ETag header, and dispatches to `Succeed` or `Fail`;
- each one's precondition says when the browser can deliver it. For example, a request can only complete while it is active, and a timer can only fire while it is pending.

Requests are numbered in the order they are made (`Handle`). `requests[h]` records the `getPartUrl`
arguments of request `h`. Ghost fields `phase` and `tries` record, for each claimed part, where it stands
and how many attempts it has had. The invariant ties `tries` to the request log: a part's attempts are
the requests made for it (`Bookkeeping.CountFor`), so the attempt bounds below count `getPartUrl` calls.

## Model

| member | source | states |
|---|---|---|
| Options.NewClient | src/index.js:9-20 | The constructor succeeds exactly when `createUpload`, `getPartUrl` and `completeUpload` are all present. Otherwise it fails with the message "Incomplete options, missing createUpload/getPartUrl/completeUpload". On success the options are the defaults overridden by the caller's keys. |
| Options.MergeOverrides | src/index.js:1-10 | Every option the caller gives wins. The defaults are 5 GiB parts, parallelism 3, 3 retries and a backoff of `k*k*1000` ms for retry `k`. |
| Options.RetryDelay | src/index.js:69-72 | The delay is the backoff function applied to the retry number when the option is a function, and the option itself when it is a constant. |
| Options.DefaultBackoffGrows | src/index.js:5 | The default delays are non-negative and strictly increase with the retry number. |
| Options.DefaultRetryDelays | src/index.js:1-6 | With the defaults, the three retries wait 1000, 4000 and 9000 ms. |
| Parts.TotalPartsIsCeiling | src/index.js:24 | `totalParts` is the ceiling of `size / partSize`: the parts cover the file, the last one starts inside it, and there are no parts exactly when the file is empty. |
| Parts.StartBelowSize | src/index.js:102 | Every part `1..totalParts` starts inside the file, at `(n-1)*partSize`. |
| Parts.PartLengthClipped | src/index.js:102-103 | A part's length is `min(partSize, size - start)`: positive, at most `partSize`, and it ends inside the file. |
| Parts.PartsContiguous | src/index.js:102-103 | Every part but the last is a full `partSize` long and ends where the next part starts. |
| Parts.LastPartEndsAtSize | src/index.js:102-103 | The last part ends exactly at the end of the file. |
| Parts.CoveredPrefix | src/index.js:102-103 | The first `k` parts cover exactly `k*partSize` bytes, or the whole file when `k` is the last part. |
| Parts.PartsCoverSize | src/index.js:102-103 | The lengths of parts `1..totalParts` sum to the file size. |
| Parts.PartsDisjoint | src/index.js:102-103 | Part `m` ends at or before part `n` starts, whenever `m < n`. |
| Parts.ByteInItsPart | src/index.js:102-103 | Byte `b` of the file lies in part `b / partSize + 1`, which is a real part. |
| Parts.ByteOutsideOtherParts | src/index.js:102-103 | Byte `b` lies in no other part. |
| Parts.ByteInExactlyOnePart | src/index.js:102-103 | Byte `b` lies in part `n` exactly when `n` is `b / partSize + 1`. |
| Parts.TwelveMillionPartCount | src/index.js:24 | A 12,000,000-byte file in 5,000,000-byte parts has 3 parts. |
| Parts.TwelveMillionPartLengths | src/index.js:102-103 | Those parts are 5,000,000, 5,000,000 and 2,000,000 bytes long. |
| Transfer.ResponseResult | src/index.js:110-122 | A completed request yields its ETag header, possibly missing, exactly when the status is 200. Otherwise it yields an error whose message is "Unexpected response HTTP " + status + " " + statusText. |
| Transfer.DecimalRoundTrip | src/index.js:114-115 | The decimal text of the status reads back to the status. |
| Transfer.StatusMessageRoundTrip | src/index.js:113-118 | The status and status text can be recovered from the error message. |
| Transfer.StatusMessageInjective | src/index.js:113-118 | Different failing responses give different error messages. |
| Transfer.DeltasSumToLastLoaded | src/index.js:126-131 | Within one request, the deltas passed to `onProgress` (`Transfer.Deltas`) sum to the last `loaded` value seen. |
| JsArray.IndexOf | src/index.js:60 | `indexOf` is -1 exactly when the element is absent. Otherwise it is the index of its first occurrence. |
| JsArray.RemoveFound | src/index.js:60-61 | `splice(indexOf(x), 1)` on a list without repeats that holds `x` removes `x` and nothing else. Every other element keeps its relative order, and the list stays without repeats. |
| JsArray.RemoveMissingDropsLast | src/index.js:65-66 | When the element is absent, the same pattern removes the last element instead. |
| Bookkeeping.AllDoneMeansIdle | src/index.js:40-43 | Once every claimed part has succeeded, no request is active and no timer is pending. |
| Bookkeeping.OneRequestPerPart | src/index.js:54 | Two active requests are never for the same part. |
| Bookkeeping.ActiveWithinOutstanding | src/index.js:54 | There are never more active requests than parts in flight or waiting for a retry. |
| Bookkeeping.SettleKeepsHandles | src/index.js:60-61 | Removing a finished request from `activeXhr` keeps "the active requests are exactly the in-flight attempts, one per part". |
| Bookkeeping.CountForUnclaimed | src/index.js:45-54 | No `getPartUrl` call is ever made for a part number that has not been claimed. |
| Bookkeeping.ClaimKeepsCounts | src/index.js:45-54 | A claim makes the first request for its new part, so each part's attempts still equal the requests made for it. |
| Bookkeeping.RefireKeepsCounts | src/index.js:47-73 | A retry makes one more request for its part and adds one attempt to that part alone. |
| Bookkeeping.GiveUpKeepsAttempts | src/index.js:68-76 | A part that gives up has had exactly `retries + 1` attempts, one when `retries` is negative, and the attempt counters keep their invariant. |
| Events.ParamsOf | src/index.js:24 | The part count of an upload covers the file. |
| Events.Empty | src/index.js:25 | `new Array(totalParts)` has `totalParts` empty slots. |
| Events.StartInv | src/index.js:24-29 | The state after `createUpload` resolves satisfies the invariant. |
| Events.NextPartInv | src/index.js:39-82 | `nextPart` keeps the invariant whenever a claim stays within `parallelism`. |
| Events.ClaimExtends | src/index.js:45-54 | `Events.Claim` (`++partNumber`, a zero counter, then `tryUpload` through `Events.Send`) appends the new part as in flight on a new request. That request is for the part's own slice length, joins the end of `activeXhr` and is the part's one attempt. Nothing else changes. |
| Events.ClaimInv | src/index.js:45-54 | A claim within the parallelism bound keeps the invariant. |
| Events.NextPartKeepsEtags | src/index.js:39-82 | `Events.NextPart`, which either resolves (`Events.Resolve`) or claims, never writes the ETag array. |
| Events.LaunchFrom | src/index.js:84-86 | `Events.Launch`, `nextPart` applied `k` times, works from any state where nothing is claimed or settled. It claims `min(k, totalParts)` parts in order with none done, and the promise resolves only when there are no parts. |
| Events.ClaimInOrder | src/index.js:45-54 | A claim while parts `1..m` are in flight on requests `0..m-1` puts part `m+1` in flight on request `m`. |
| Events.LaunchStarts | src/index.js:84-86 | The initial calls claim parts 1, 2, … in order. Part `i+1` is sent on the `i`-th request with its own slice length, and all of them are active. With no parts the promise resolves on the first call. With `parallelism <= 0` nothing is ever requested and the promise stays pending. |
| Events.LaunchRoom | src/index.js:84-86 | Each of the `parallelism` initial calls stays within the parallelism bound. |
| Events.RefireInv | src/index.js:47-73 | A retry timer firing keeps the invariant. `Events.Refire` drops the timer, then `Events.Send` runs for the same part. |
| Events.ActivePart | src/index.js:54-61 | An active request is the in-flight attempt of its claimed part. |
| Events.TimerPart | src/index.js:73 | A pending timer belongs to a claimed part that waits for it. |
| Events.LandInv | src/index.js:57-61 | Recording a success with `Events.Land` keeps the invariant. `Land` writes the slot, counts the success and detaches the request (`Events.Detach`). |
| Events.SucceedInv | src/index.js:56-63 | A success, including its `nextPart`, keeps the invariant. |
| Events.FailInv | src/index.js:64-77 | A failure (`Events.Fail`) keeps the invariant, whether it retries or rejects. |
| Events.RetryInv | src/index.js:64-73 | `Events.Retry` keeps the invariant: it detaches the request, bumps the counter and sets the timer. |
| Events.GiveUpInv | src/index.js:64-76 | `Events.GiveUp` keeps the invariant: it detaches the request, bumps the counter and rejects. |
| Events.RespondInv | src/index.js:109-123 | A completed request (`Events.Respond`) keeps the invariant, whatever its status. `Respond` goes to the success path on status 200 and to the failure path with the status message otherwise. |
| Events.ActiveSlotEmpty | src/index.js:57 | The ETag slot of a part still in flight is empty. |
| Events.SucceedFillsSlot | src/index.js:57-62 | `Events.Succeed` writes its ETag into its part's slot and nowhere else, including during the `nextPart` it calls. |
| Events.ProgressInv | src/index.js:126-131 | A progress event (`Events.Progress`) keeps `totalSentBytes` equal to the sum of every request's `lastLoaded`. |
| Events.ProgressMonotone | src/index.js:127-130 | A progress event whose `loaded` is not below the request's last one never lowers `totalSentBytes`. |
| Events.ProgressRunAdds | src/index.js:126-131 | Over a fresh request's progress events (`Events.ProgressRun`), `onProgress` receives `Transfer.Deltas` of the `loaded` values. The total grows by their sum, which is the last `loaded`, and only that request's `lastLoaded` changes, to that value. |
| Events.ProgressRunMonotone | src/index.js:126-131 | While a request's `loaded` values are non-negative and never decrease, the running total never decreases over its events. |
| Events.AbandonInv | src/index.js:91-96 | The unwind after a rejection (`Events.Abandon`) keeps the invariant. |
| Events.CompleteInv | src/index.js:88-96 | Calling `completeUpload` (`Events.Complete`) keeps the invariant. |
| Events.CountersOrdered | src/index.js:40-62 | `0 <= completedParts <= partNumber <= totalParts` holds always. `partNumber - completedParts <= parallelism`. Neither the parts in flight or waiting nor the active requests ever exceed `parallelism`. |
| Events.ResolvedMeansAllUploaded | src/index.js:40-43 | The promise resolves only when every part has succeeded. Slot `i` then holds the ETag of part `i+1`, no request is active and no timer is pending. |
| Events.LastSuccessResolves | src/index.js:40-62 | The converse: the success of an active request resolves the promise exactly when it is the last part to succeed (`completedParts + 1 == totalParts`) and the promise is still pending. |
| Events.CompleteGetsEveryEtag | src/index.js:88-96 | `completeUpload` receives a filled slot for every part, holding the ETag header as it was returned, and nothing is aborted. `upload` settles as `completeUpload` did. |
| Events.SucceedRecordsEtag | src/index.js:57-61 | Part `n`'s success fills slot `n-1`, which was empty, and no other slot, whatever the completion order. It adds one success and removes exactly its own request from `activeXhr`, leaving the others in order. |
| Events.FailedAttempt | src/index.js:64-68 | A failing request is its part's latest attempt, and the promise has not resolved while it was in flight. |
| Events.FailDetaches | src/index.js:65-68 | A failure removes its request from `activeXhr` and increments the part's attempt counter. |
| Events.FailRetriesOrRejects | src/index.js:64-77 | A failure records one attempt, so `getPartUrl` has been called `a + 1` times for the part while the old counter is `a`. While `a` is below `retries`, a timer is set with `retryDelay(a+1)` and the promise is untouched. Otherwise `getPartUrl` was called exactly `retries + 1` times for the part and the promise is rejected, with this error unless it was rejected already. |
| Events.RejectedMeansRetriesExhausted | src/index.js:68-76 | A rejection implies some part has failed after exactly `retries + 1` requests for it. |
| Events.AttemptsBounded | src/index.js:47-68 | Every claimed part has had between 1 and `retries + 1` requests, and no request was made for an unclaimed part. |
| Events.RespondRecordsOnlyOk | src/index.js:110-122 | A completed request fills its part's empty ETag slot exactly when the status is 200, with the header as returned. Every other slot is unchanged. |
| Events.SucceedClaimsWhateverTheOutcome | src/index.js:58-62 | A success with parts left claims and requests the next part, even after the promise was rejected. |
| Events.RetryAfterUnwindEscapesAbort | src/index.js:73-94 | A retry timer firing after the `.catch` unwind starts a request that the unwind did not abort. |
| Scheduler.Upload.constructor | src/index.js:24-86 | It sets the closure variables for the file, with an empty ETag array of `totalParts` slots, then calls `nextPart` `parallelism` times. The fields then equal `Events.Launch` of the start state, and `Valid()` holds. |
| Scheduler.Upload.NextPart | src/index.js:39-45 | `nextPart` acts as `Events.NextPart`. |
| Scheduler.Upload.Resolve | src/index.js:40-43 | It resolves once every part has succeeded. Resolving a settled promise changes nothing. |
| Scheduler.Upload.Claim | src/index.js:45-80 | It claims the next part and makes its first attempt, as `Events.Claim`. |
| Scheduler.Upload.Open | src/index.js:45-46 | `++partNumber`, and the new part's attempt counter starts at 0. |
| Scheduler.Upload.TryUpload | src/index.js:47-54 | `tryUpload` makes the request and pushes it on `activeXhr`, as `Events.Send`. |
| Scheduler.Upload.SendPart | src/index.js:100-107 | `sendPart` returns a new request whose `getPartUrl` length is the part's slice length, and whose `lastLoaded` starts at 0. |
| Scheduler.Upload.OnTimer | src/index.js:73 | A retry timer firing runs `tryUpload` again, as `Events.Refire`. |
| Scheduler.Upload.Detach | src/index.js:60-61 | `activeXhr.splice(activeXhr.indexOf(xhr), 1)`. |
| Scheduler.Upload.OnEtag | src/index.js:57-62 | It stores the ETag, counts the success, detaches the request and calls `nextPart`, as `Events.Succeed`. |
| Scheduler.Upload.OnError | src/index.js:64-77 | The `.catch` of a part request acts as `Events.Fail`. |
| Scheduler.Upload.OnRetry | src/index.js:65-73 | It detaches the request, increments the counter and sets the timer with the new counter's delay. |
| Scheduler.Upload.OnGiveUp | src/index.js:65-76 | It detaches the request, increments the counter and rejects with the error. A settled promise ignores this. |
| Scheduler.Upload.OnProgress | src/index.js:31-36 | `onProgress` adds its argument to `totalSentBytes`. It reports the new total and the file size exactly when a progress callback was given. |
| Scheduler.Upload.OnUploadProgress | src/index.js:126-131 | `onProgress` receives `loaded - lastLoaded`, and `lastLoaded` becomes `loaded`. |
| Scheduler.Upload.AbortActive | src/index.js:92-94 | The loop aborts every active request, in order. |
| Scheduler.Upload.Unwind | src/index.js:91-96 | After a rejection, it aborts the active requests and rethrows the same error. |
| Scheduler.Upload.CompleteUpload | src/index.js:88-90 | `completeUpload` gets the ETag array. `upload` settles as that call does, and a failure unwinds as well. |
| Scheduler.Upload.TimerFires | src/index.js:73 | A pending timer fires, and `Valid()` is kept. |
| Scheduler.Upload.Respond | src/index.js:109-123 | An active request completes, acting as `Events.Respond` and keeping `Valid()`. It dispatches on `Transfer.ResponseResult` to `Succeed` or `Fail`. |
| Scheduler.Upload.Succeed | src/index.js:56-63 | An active request completes with status 200, and `Valid()` is kept. |
| Scheduler.Upload.Fail | src/index.js:64-77 | An active request fails, and `Valid()` is kept. |
| Scheduler.Upload.PartProgress | src/index.js:127-131 | A progress event of any request made so far updates the total and the report, and `Valid()` is kept. |
| Scheduler.Upload.Abandon | src/index.js:91-96 | The unwind after a rejection keeps `Valid()`. |
| Scheduler.Upload.Complete | src/index.js:88-96 | `completeUpload` receives the ETag array, which holds `totalParts` filled slots, and `Valid()` is kept. |

## Left out

- The `XMLHttpRequest` transport (`open`, `send`, headers, `readyState`, `abort` itself) is browser I/O and is not modelled. A completed request is the `Scheduler.Upload.Respond` event, carrying its status, status text and ETag header. An abort is recorded in `aborted`.
- The upload id and the `File` object are passed unchanged to `getPartUrl` and `completeUpload`. They are not modelled, since only the part number and slice length of each call are recorded.
- `new S3Multipart()` with no argument throws a `TypeError` reading `options.createUpload` at src/index.js:11, before the collaborator check. `Options.NewClient` always receives an options object and does not model that case.
- A `retryBackoffTimeMs` function that throws inside the `.catch` (src/index.js:71) leaves its part with no timer and no rejection, so the upload can stay pending forever. `Options.Backoff` functions are total, so this case is not modelled.
- Events.ProgressMonotone, Events.ProgressRunMonotone: both take as given that a request's `loaded` values never decrease. The code does not check this and relies on the browser.
- `createUpload`, `getPartUrl` and `completeUpload` are foreign asynchronous calls. The class starts after `createUpload` resolved, and a rejection of `createUpload` reaches the caller of `upload` unchanged. A rejection of `getPartUrl` arrives as the failure of that request. How `completeUpload` settled is a parameter of `Complete`.
- Timing, `setTimeout` delays and promise scheduling are not modelled: the callbacks may be delivered in any order the preconditions allow. The two chained `.then` callbacks of a successful request (src/index.js:57 and :58-63) are modelled as one step. Other promise callbacks may run between them: another part's `.then` or `.catch`, or the unwind of :91-96 after a rejection. Another part's second `.then` does read and write `completedParts` (:59, :41). Still, between the two callbacks the state differs from the state before this success only in `etags[n-1]` (:57). Only `completeUpload` (:89) reads that slot, and it cannot run before this success is counted at :59. So every callback that runs in between sees what it would see if the whole success ran after it. The unwind aborts this request, which ends in the same state as `Abandon` before `Succeed`, also allowed by the model. Merging the two callbacks therefore loses no outcome.
- `parallelism` and `retries` are JavaScript numbers in the code, and a fractional value changes the behaviour. A `parallelism` of 2.5 runs the loop at src/index.js:84 three times, and a `retries` of 2.5 allows three retries at :68. `Options.Config` takes both to be integers, so fractional values are not modelled.
- `Math.ceil` on floating-point numbers is integer ceiling division, and part sizes are natural numbers. A `partSize` of zero or less is not modelled: the class constructor requires a positive one.
- `Blob.slice` is modelled only by the clipped length of the slice (`Parts.SliceSize`), not by the bytes it holds.
- Exceptions thrown synchronously by a collaborator or the progress callback are not modelled. An exception inside the second `.then` would reach the `.catch` of a request already removed from `activeXhr`, where `splice(indexOf(xhr), 1)` removes the last active request instead (`JsArray.RemoveMissingDropsLast`).
- `Object.assign` copies keys whose value is `undefined`. The model treats an option as either given or absent.
- rollup.config.js is build configuration with no logic and is not part of this model.
- Where the code and an idealised scheduler differ, the model follows the code:
  - retry timers still fire after a rejection, and the new requests escape the abort (`Events.RetryAfterUnwindEscapesAbort`);
  - successes still claim new parts after a rejection (`Events.SucceedClaimsWhateverTheOutcome`);
  - bytes sent by failed attempts stay in `totalSentBytes`;
  - a missing ETag header is stored as is.
- The step methods of `Scheduler.Upload`, such as `NextPart`, `OnEtag` and `OnError`, carry the structural preconditions their field updates need. These are index ranges and the shape of the ghost fields. The browser callback methods get them from `Valid()`.
