/** The state of one `upload` call once `createUpload` has given an upload id: the part
    counter, the success counter, the ETag array, the list of active requests, each part's
    attempt counter, the pending retry timers and the running byte total. The browser delivers
    each request outcome, progress event and timer as a separate callback that runs to
    completion; each callback is one method here, proved to change the fields exactly as the
    matching function of module Events changes the state and to keep `Valid()`, so every
    order in which the callbacks arrive keeps the invariant. */
module Scheduler {
  import opened Wrappers
  import opened Transfer
  import opened Bookkeeping
  import Events
  import Options
  import Parts
  import JsArray

  /** The two arguments of the caller's `onProgress(totalSentBytes, file.size)`. */
  datatype Report = Report(sentBytes: int, fileSize: nat)

  class Upload {
    const size: nat
    const partSize: nat
    const totalParts: nat
    const parallelism: int
    const retries: int
    const backoff: Options.Backoff
    /** Whether the options hold an `onProgress` callback. */
    const reportsProgress: bool
    /** `etags`, indexed by part number minus one; None is a slot not written yet. */
    const etags: array<Option<ETag>>

    var partNumber: nat
    var completedParts: nat
    var totalSentBytes: int
    /** `activeXhr`: the requests whose outcome has not been handled yet, in the order made. */
    var activeXhr: seq<Handle>
    /** The `getPartUrl` calls made so far; call `h` is the one of request `h`. */
    var requests: seq<PartRequest>
    /** Each request's `lastLoaded`, indexed by request. */
    var lastLoaded: seq<int>
    /** Each claimed part's `attempt` counter, by part number. */
    var attempt: map<nat, int>
    /** The pending `setTimeout(tryUpload, delay)` calls: part number to delay. */
    var timers: map<nat, int>
    /** The promise that `nextPart` resolves and `tryUpload` rejects. */
    var outcome: Settlement
    /** The promise `upload` returns. */
    var result: Settlement
    /** The requests aborted by the `.catch` unwind. */
    var aborted: seq<Handle>
    /** The `etags` argument `completeUpload` was called with, once it was called. */
    var completed: Option<seq<Option<ETag>>>

    /** Each claimed part's phase, by part number minus one. */
    ghost var phase: seq<Phase>
    /** The number of attempts started for each claimed part, by part number minus one. */
    ghost var tries: seq<nat>

    function Params(): Events.Params
    {
      Events.Params(size, partSize, totalParts, parallelism, retries, backoff)
    }

    /** The fields as one value of the state the functions of module Events act on. */
    ghost function Snap(): Events.State
      reads this, etags
    {
      Events.State(partNumber, completedParts, totalSentBytes, etags[..], activeXhr, requests, lastLoaded,
                   attempt, timers, outcome, result, aborted, completed, phase, tries)
    }

    ghost predicate Valid()
      reads this, etags
    {
      Events.Inv(Params(), Snap())
    }

    /** The body of the `.then` of `createUpload`: it sets up the closure variables for a file
        of `size` bytes and calls `nextPart` `parallelism` times. */
    constructor (size: nat, config: Options.Config)
      requires config.partSize > 0
      ensures Params() == Events.ParamsOf(size, config) && reportsProgress == config.onProgress
      ensures Snap() == Events.Launch(Params(), Events.Start(Params()), Max0(config.parallelism))
      ensures Valid()
    {
      this.size := size;
      partSize := config.partSize;
      totalParts := Parts.TotalParts(size, config.partSize);
      parallelism := config.parallelism;
      retries := config.retries;
      backoff := config.retryBackoffTimeMs;
      reportsProgress := config.onProgress;
      etags := new Option<ETag>[Parts.TotalParts(size, config.partSize)](_ => None);
      partNumber := 0;
      completedParts := 0;
      totalSentBytes := 0;
      activeXhr := [];
      requests := [];
      lastLoaded := [];
      attempt := map[];
      timers := map[];
      outcome := Pending;
      result := Pending;
      aborted := [];
      completed := None;
      phase := [];
      tries := [];
      new;
      assert etags[..] == Events.Empty(totalParts);
      Events.StartInv(Params());
      for i := 0 to Max0(parallelism)
        invariant Snap() == Events.Launch(Params(), Events.Start(Params()), i)
        invariant Valid()
      {
        ghost var s0 := Snap();
        Events.LaunchRoom(Params(), i);
        NextPart();
        NextPartValid(s0);
      }
    }

    // -------------------------------------------------------------------------------------
    // The closures of `upload`, each proved to act as its function in module Events.

    /** `nextPart`: once every part is claimed it resolves if every part succeeded; otherwise
        it claims the next part. */
    method NextPart()
      requires |tries| == |phase| == partNumber
      modifies this
      ensures Snap() == Events.NextPart(Params(), old(Snap()))
      ensures |tries| == |phase| == partNumber
    {
      if partNumber >= totalParts {
        Resolve();
      } else {
        Claim();
      }
    }

    /** The first branch of `nextPart`: `resolve()` once every part succeeded; resolving a
        settled promise changes nothing. */
    method Resolve()
      modifies this
      ensures Snap() == Events.Resolve(Params(), old(Snap()))
    {
      if completedParts == totalParts && outcome == Pending {
        outcome := Resolved;
      }
    }

    /** The second branch of `nextPart`: `++partNumber`, a zero attempt counter and the first
        `tryUpload` of the new part. */
    method Claim()
      requires partNumber < totalParts && |tries| == |phase| == partNumber
      modifies this
      ensures Snap() == Events.Claim(Params(), old(Snap()))
    {
      Open();
      TryUpload(partNumber);
    }

    /** `++partNumber` and `attempt[partNumber] = 0`; the new part waits for its first try. */
    method Open()
      modifies this
      ensures Snap() == old(Snap()).(partNumber := old(partNumber) + 1,
                                     attempt := old(attempt)[old(partNumber) + 1 := 0],
                                     phase := old(phase) + [Waiting], tries := old(tries) + [0])
    {
      partNumber := partNumber + 1;
      attempt := attempt[partNumber := 0];
      phase := phase + [Waiting];
      tries := tries + [0];
    }

    /** `tryUpload` for part `n`: `sendPart` makes the request and it is pushed on
        `activeXhr`. */
    method TryUpload(n: nat)
      requires 1 <= n <= |phase| && |tries| == |phase|
      modifies this
      ensures Snap() == Events.Send(Params(), old(Snap()), n)
    {
      var h := SendPart(n);
      activeXhr := activeXhr + [h];
      phase := phase[n - 1 := Sending(h)];
      tries := tries[n - 1 := tries[n - 1] + 1];
    }

    /** `sendPart` for part `n`: the request for the slice of the part, whose length is the
        one passed to `getPartUrl`, with its `lastLoaded` at 0. The request is handle `h`. */
    method SendPart(n: nat) returns (h: Handle)
      requires n >= 1
      modifies this
      ensures h == old(|requests|)
      ensures Snap() == old(Snap()).(requests := old(requests) + [PartRequest(n, Parts.PartLength(size, partSize, n))],
                                     lastLoaded := old(lastLoaded) + [0])
    {
      h := |requests|;
      requests := requests + [PartRequest(n, Parts.PartLength(size, partSize, n))];
      lastLoaded := lastLoaded + [0];
    }

    /** The retry timer of part `n` fires: it leaves the pending set and `tryUpload` runs. */
    method OnTimer(n: nat)
      requires 1 <= n <= |phase| && |tries| == |phase|
      modifies this
      ensures Snap() == Events.Refire(Params(), old(Snap()), n)
    {
      timers := timers - {n};
      TryUpload(n);
    }

    /** `activeXhr.splice(activeXhr.indexOf(xhr), 1)` for request `h`. */
    method Detach(h: Handle)
      modifies this
      ensures Snap() == old(Snap()).(activeXhr := Events.Detach(old(Snap()), h))
    {
      var xhrIndex := JsArray.IndexOf(activeXhr, h);
      activeXhr := JsArray.SpliceOne(activeXhr, xhrIndex);
    }

    /** The two `.then` callbacks after request `h` gave ETag `e`: store it, count the
        success, drop the request from `activeXhr` and call `nextPart`. */
    method OnEtag(h: Handle, e: ETag)
      requires h < |requests| && 1 <= requests[h].partNumber <= |phase| && |phase| <= etags.Length
      requires |tries| == |phase| == partNumber
      modifies this, etags
      ensures Snap() == Events.Succeed(Params(), old(Snap()), h, e)
    {
      ghost var s0 := Snap();
      var n := requests[h].partNumber;
      etags[n - 1] := Some(e);
      completedParts := completedParts + 1;
      Detach(h);
      phase := phase[n - 1 := Done(e)];
      assert Snap() == Events.Land(s0, h, e);
      NextPart();
    }

    /** The `.catch` after request `h` failed with `err`: drop the request from `activeXhr`,
        bump the part's attempt counter and, while the old counter is below `retries`, set a
        timer for the backoff of the new counter; otherwise reject with `err`. */
    method OnError(h: Handle, err: Error)
      requires h < |requests| && 1 <= requests[h].partNumber <= |phase| && requests[h].partNumber in attempt
      modifies this
      ensures Snap() == Events.Fail(Params(), old(Snap()), h, err)
    {
      if attempt[requests[h].partNumber] < retries {
        OnRetry(h);
      } else {
        OnGiveUp(h, err);
      }
    }

    /** The `.catch` while `attempt++ < retries` holds: the timer for the new counter's delay. */
    method OnRetry(h: Handle)
      requires h < |requests| && 1 <= requests[h].partNumber <= |phase| && requests[h].partNumber in attempt
      modifies this
      ensures Snap() == Events.Retry(Params(), old(Snap()), h)
    {
      var n := requests[h].partNumber;
      Detach(h);
      var a := attempt[n];
      attempt := attempt[n := a + 1];
      timers := timers[n := Options.RetryDelay(backoff, a + 1)];
      phase := phase[n - 1 := Waiting];
    }

    /** The `.catch` once the retries are used up: `reject(error)`. */
    method OnGiveUp(h: Handle, err: Error)
      requires h < |requests| && 1 <= requests[h].partNumber <= |phase| && requests[h].partNumber in attempt
      modifies this
      ensures Snap() == Events.GiveUp(old(Snap()), h, err)
    {
      var n := requests[h].partNumber;
      Detach(h);
      attempt := attempt[n := attempt[n] + 1];
      if outcome == Pending {
        outcome := Rejected(err);
      }
      phase := phase[n - 1 := Failed];
    }

    /** The `onProgress` closure: add `sentBytes` to the running total and report the total
        and the file size when the options hold a callback. */
    method OnProgress(sentBytes: int) returns (report: Option<Report>)
      modifies this
      ensures Snap() == old(Snap()).(totalSentBytes := old(totalSentBytes) + sentBytes)
      ensures report == if reportsProgress then Some(Report(totalSentBytes, size)) else None
    {
      totalSentBytes := totalSentBytes + sentBytes;
      report := if reportsProgress then Some(Report(totalSentBytes, size)) else None;
    }

    /** The `upload.onprogress` handler of request `h` with `loaded` bytes: `onProgress`
        receives the difference to the request's `lastLoaded`, which then becomes `loaded`. */
    method OnUploadProgress(h: Handle, loaded: int) returns (report: Option<Report>)
      requires h < |lastLoaded|
      modifies this
      ensures Snap() == Events.Progress(old(Snap()), h, loaded)
      ensures report == if reportsProgress then Some(Report(totalSentBytes, size)) else None
    {
      report := OnProgress(loaded - lastLoaded[h]);
      lastLoaded := lastLoaded[h := loaded];
    }

    /** The loop of the `.catch` after the inner promise: `abort()` on every active request. */
    method AbortActive()
      requires aborted == []
      modifies this
      ensures Snap() == old(Snap()).(aborted := old(activeXhr))
    {
      for i := 0 to |activeXhr|
        invariant activeXhr == old(activeXhr)
        invariant Snap() == old(Snap()).(aborted := activeXhr[..i])
      {
        aborted := aborted + [activeXhr[i]];
      }
    }

    /** The `.catch` after the inner promise was rejected: abort the active requests and
        rethrow, so `upload`'s promise is rejected with the same error. */
    method Unwind()
      requires outcome.Rejected? && result == Pending && aborted == []
      modifies this
      ensures Snap() == Events.Abandon(old(Snap()))
    {
      AbortActive();
      result := outcome;
    }

    /** The `.then` after the inner promise resolved: `completeUpload` is called with the
        ETag array, returned here as `parts`; `failure` is how its promise settled. A
        rejection goes through the same `.catch` as a failed part. */
    method CompleteUpload(failure: Option<Error>) returns (parts: seq<Option<ETag>>)
      requires outcome == Resolved && result == Pending && aborted == []
      modifies this
      ensures parts == old(etags[..])
      ensures Snap() == Events.Complete(old(Snap()), failure)
    {
      parts := etags[..];
      completed := Some(parts);
      match failure {
        case None =>
          result := Resolved;
        case Some(err) =>
          AbortActive();
          result := Rejected(err);
      }
    }

    // -------------------------------------------------------------------------------------
    // The browser's callbacks: each runs a closure above and keeps `Valid()`.

    lemma NextPartValid(s0: Events.State)
      requires Events.Shaped(s0) && Snap() == Events.NextPart(Params(), s0)
      ensures Events.Inv(Params(), s0) && Events.Room(Params(), s0) ==> Valid()
    {
      if Events.Inv(Params(), s0) && Events.Room(Params(), s0) {
        Events.NextPartInv(Params(), s0);
      }
    }

    lemma RefireValid(s0: Events.State, n: nat)
      requires n in s0.timers && 1 <= n <= |s0.phase| && |s0.tries| == |s0.phase|
      requires Snap() == Events.Refire(Params(), s0, n)
      ensures Events.Inv(Params(), s0) ==> Valid()
    {
      if Events.Inv(Params(), s0) {
        Events.RefireInv(Params(), s0, n);
      }
    }

    /** The retry timer of part `n` fires. */
    method TimerFires(n: nat)
      requires Valid() && n in timers
      modifies this
      ensures Snap() == Events.Refire(Params(), old(Snap()), n)
      ensures Valid()
    {
      ghost var s0 := Snap();
      Events.TimerPart(Params(), s0, n);
      OnTimer(n);
      RefireValid(s0, n);
    }

    lemma SucceedValid(s0: Events.State, h: Handle, e: ETag)
      requires h in s0.activeXhr
      requires h < |s0.requests| && 1 <= Events.PartOf(s0, h) <= |s0.phase| && |s0.phase| <= |s0.etags|
      requires Events.Shaped(s0) && Snap() == Events.Succeed(Params(), s0, h, e)
      ensures Events.Inv(Params(), s0) ==> Valid()
    {
      if Events.Inv(Params(), s0) {
        Events.SucceedInv(Params(), s0, h, e);
      }
    }

    /** Request `h` completed with status 200 and ETag header `e`. */
    method Succeed(h: Handle, e: ETag)
      requires Valid() && h in activeXhr
      modifies this, etags
      ensures Snap() == Events.Succeed(Params(), old(Snap()), h, e)
      ensures Valid()
    {
      ghost var s0 := Snap();
      Events.ActivePart(Params(), s0, h);
      OnEtag(h, e);
      SucceedValid(s0, h, e);
    }

    lemma FailValid(s0: Events.State, h: Handle, err: Error)
      requires h in s0.activeXhr
      requires h < |s0.requests| && 1 <= Events.PartOf(s0, h) <= |s0.phase| && Events.PartOf(s0, h) in s0.attempt
      requires Snap() == Events.Fail(Params(), s0, h, err)
      ensures Events.Inv(Params(), s0) ==> Valid()
    {
      if Events.Inv(Params(), s0) {
        Events.FailInv(Params(), s0, h, err);
      }
    }

    /** Request `h` failed with `err`: a status other than 200, or a `getPartUrl` that
        rejected. */
    method Fail(h: Handle, err: Error)
      requires Valid() && h in activeXhr
      modifies this
      ensures Snap() == Events.Fail(Params(), old(Snap()), h, err)
      ensures Valid()
    {
      ghost var s0 := Snap();
      Events.ActivePart(Params(), s0, h);
      OnError(h, err);
      FailValid(s0, h, err);
    }

    lemma ProgressValid(s0: Events.State, h: Handle, loaded: int)
      requires h < |s0.requests| && |s0.lastLoaded| == |s0.requests|
      requires Snap() == Events.Progress(s0, h, loaded)
      ensures Events.Inv(Params(), s0) ==> Valid()
    {
      if Events.Inv(Params(), s0) {
        Events.ProgressInv(Params(), s0, h, loaded);
      }
    }

    /** An upload progress event of request `h` with `loaded` bytes. */
    method PartProgress(h: Handle, loaded: int) returns (report: Option<Report>)
      requires Valid() && h < |requests|
      modifies this
      ensures Snap() == Events.Progress(old(Snap()), h, loaded)
      ensures report == if reportsProgress then Some(Report(totalSentBytes, size)) else None
      ensures Valid()
    {
      ghost var s0 := Snap();
      report := OnUploadProgress(h, loaded);
      ProgressValid(s0, h, loaded);
    }

    lemma AbandonValid(s0: Events.State)
      requires s0.outcome.Rejected? && s0.result == Pending
      requires Snap() == Events.Abandon(s0)
      ensures Events.Inv(Params(), s0) ==> Valid()
    {
      if Events.Inv(Params(), s0) {
        Events.AbandonInv(Params(), s0);
      }
    }

    /** Request `h` completed with `status`, `statusText` and ETag header `etag`: the
        `onreadystatechange` handler at `readyState` 4 resolves on status 200 and rejects
        otherwise, and the `.then` or `.catch` callbacks run. */
    method Respond(h: Handle, status: nat, statusText: string, etag: ETag)
      requires Valid() && h in activeXhr
      modifies this, etags
      ensures Snap() == Events.Respond(Params(), old(Snap()), h, status, statusText, etag)
      ensures Valid()
    {
      ghost var s0 := Snap();
      Events.RespondInv(Params(), s0, h, status, statusText, etag);
      var r := ResponseResult(status, statusText, etag);
      match r {
        case Ok(e) =>
          Succeed(h, e);
        case Err(err) =>
          Fail(h, err);
      }
    }

    /** The inner promise was rejected. */
    method Abandon()
      requires Valid() && outcome.Rejected? && result == Pending
      modifies this
      ensures Snap() == Events.Abandon(old(Snap()))
      ensures Valid()
    {
      ghost var s0 := Snap();
      Unwind();
      AbandonValid(s0);
    }

    lemma CompleteValid(s0: Events.State, failure: Option<Error>)
      requires s0.outcome == Resolved && s0.result == Pending
      requires Snap() == Events.Complete(s0, failure)
      ensures Events.Inv(Params(), s0) ==> Valid()
    {
      if Events.Inv(Params(), s0) {
        Events.CompleteInv(Params(), s0, failure);
      }
    }

    /** The inner promise resolved; `failure` is how the promise of `completeUpload` settled.
        `completeUpload` gets a filled slot for every part, holding the header as returned. */
    method Complete(failure: Option<Error>) returns (parts: seq<Option<ETag>>)
      requires Valid() && outcome == Resolved && result == Pending
      modifies this
      ensures parts == old(etags[..])
      ensures |parts| == totalParts && forall i :: 0 <= i < |parts| ==> parts[i].Some?
      ensures Snap() == Events.Complete(old(Snap()), failure)
      ensures Valid()
    {
      ghost var s0 := Snap();
      Events.CompleteGetsEveryEtag(Params(), s0, None);
      parts := CompleteUpload(failure);
      CompleteValid(s0, failure);
    }
  }
}
