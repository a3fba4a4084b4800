/** The whole state of one `upload` call after `createUpload` resolved, as one value, and
    each browser callback as a function from state to state, with a lemma per callback
    showing that it keeps the invariant `Inv`. The class in module Scheduler holds the same
    state in fields and applies these functions. */
module Events {
  import opened Wrappers
  import opened Transfer
  import opened Bookkeeping
  import Options
  import Parts
  import Seqs
  import JsArray

  /** What stays fixed during one upload: the file size and the options in force. */
  datatype Params = Params(size: nat, partSize: nat, totalParts: nat, parallelism: int,
                           retries: int, backoff: Options.Backoff)

  /** The closure variables of `upload` (`partNumber`, `completedParts`, `totalSentBytes`,
      `etags`, `activeXhr`, each part's `attempt`, each request's `lastLoaded`), the pending
      timers and promises, and the ghost `phase` and `tries` of every claimed part. */
  datatype State = State(
    partNumber: nat,
    completedParts: nat,
    totalSentBytes: int,
    etags: seq<Option<ETag>>,
    activeXhr: seq<Handle>,
    requests: seq<PartRequest>,
    lastLoaded: seq<int>,
    attempt: map<nat, int>,
    timers: map<nat, int>,
    outcome: Settlement,
    result: Settlement,
    aborted: seq<Handle>,
    completed: Option<seq<Option<ETag>>>,
    phase: seq<Phase>,
    tries: seq<nat>)

  /** The parameters of an upload of a file of `size` bytes under `config`. */
  function ParamsOf(size: nat, config: Options.Config): (c: Params)
    requires config.partSize > 0
    ensures c.totalParts * config.partSize >= size
  {
    Parts.TotalPartsIsCeiling(size, config.partSize);
    Params(size, config.partSize, Parts.TotalParts(size, config.partSize), config.parallelism,
           config.retries, config.retryBackoffTimeMs)
  }

  /** `new Array(totalParts)`: every slot empty. */
  function Empty(n: nat): (e: seq<Option<ETag>>)
    ensures |e| == n && forall i :: 0 <= i < n ==> e[i] == None
  {
    seq(n, _ => None)
  }

  /** The state right after `createUpload` resolved, before the first `nextPart`. */
  function Start(c: Params): State
  {
    State(0, 0, 0, Empty(c.totalParts), [], [], [], map[], map[], Pending, Pending, [], None, [], [])
  }

  ghost predicate ShapeOk(c: Params, s: State)
  {
    c.partSize > 0 && c.totalParts == Parts.TotalParts(c.size, c.partSize) &&
    |s.etags| == c.totalParts && s.partNumber <= c.totalParts && |s.phase| == s.partNumber &&
    |s.lastLoaded| == |s.requests|
  }

  /** The counters and the records of what was requested agree with the parts' phases. */
  ghost predicate BooksOk(c: Params, s: State)
  {
    ShapeOk(c, s) &&
    s.completedParts == CountDone(s.phase) &&
    s.totalSentBytes == Seqs.Sum(s.lastLoaded) &&
    EtagsOk(s.etags, s.phase) &&
    RequestsOk(s.requests, s.partNumber, c.size, c.partSize) &&
    TriesCounted(s.tries, s.requests)
  }

  /** The active requests, the attempt counters and the timers agree with the parts' phases. */
  ghost predicate FlightOk(c: Params, s: State)
  {
    HandlesOk(s.activeXhr, s.requests, s.phase) &&
    AttemptsOk(s.attempt, s.phase, s.tries, Max0(c.retries)) &&
    TimersOk(s.timers, s.attempt, s.phase, c.backoff)
  }

  /** Parts are claimed only by the `parallelism` initial calls of `nextPart` and by the one
      call after each success, so the claimed parts exceed the successes by at most the
      number of slots (none when `parallelism` is not positive). */
  predicate WithinParallelism(c: Params, s: State)
  {
    s.partNumber <= Max0(c.parallelism) + s.completedParts
  }

  /** `nextPart` may run: every part is claimed, or a claim keeps `WithinParallelism`. */
  predicate Room(c: Params, s: State)
  {
    s.partNumber >= c.totalParts || s.partNumber < Max0(c.parallelism) + s.completedParts
  }

  /** The invariant every reachable state keeps. */
  ghost predicate Inv(c: Params, s: State)
  {
    BooksOk(c, s) && FlightOk(c, s) && WithinParallelism(c, s) &&
    SettleOk(s.outcome, s.result, s.aborted, s.completed, s.phase, c.totalParts)
  }

  lemma StartInv(c: Params)
    requires c.partSize > 0 && c.totalParts == Parts.TotalParts(c.size, c.partSize)
    ensures Inv(c, Start(c))
  {
    StartBooks(c);
    StartFlight(c);
    StartSettle(c);
  }

  lemma StartSettle(c: Params)
    ensures var t := Start(c); SettleOk(t.outcome, t.result, t.aborted, t.completed, t.phase, c.totalParts)
  {
    assert !AnyFailed([]);
  }

  lemma StartBooks(c: Params)
    requires c.partSize > 0 && c.totalParts == Parts.TotalParts(c.size, c.partSize)
    ensures BooksOk(c, Start(c))
  {
  }

  lemma StartFlight(c: Params)
    ensures FlightOk(c, Start(c))
  {
    NothingInFlight(Max0(c.retries), c.backoff);
  }

  // ---------------------------------------------------------------------------------------
  // nextPart

  /** The claimed parts each have a phase and a count of started attempts. */
  predicate Shaped(s: State)
  {
    |s.tries| == |s.phase| == s.partNumber
  }

  /** `nextPart` when a part is left: `++partNumber`, a zero attempt counter and then
      `tryUpload` of the new part, which has had no attempt yet. */
  function Claim(c: Params, s: State): (t: State)
    requires s.partNumber < c.totalParts && Shaped(s)
    ensures Shaped(t)
  {
    var n := s.partNumber + 1;
    Send(c, s.(partNumber := n, attempt := s.attempt[n := 0], phase := s.phase + [Waiting], tries := s.tries + [0]), n)
  }

  /** `nextPart` when every part is claimed: resolve if every part succeeded; resolving a
      settled promise changes nothing. */
  function Resolve(c: Params, s: State): State
  {
    if s.completedParts == c.totalParts && s.outcome == Pending then s.(outcome := Resolved) else s
  }

  function NextPart(c: Params, s: State): (t: State)
    requires Shaped(s)
    ensures Shaped(t)
  {
    if s.partNumber >= c.totalParts then Resolve(c, s) else Claim(c, s)
  }

  /** A claim appends part `n = partNumber + 1` to the claimed parts, in flight on the new
      request `h` made for its slice, with one attempt started and its counter at 0; `h`
      joins the end of `activeXhr`. Nothing else changes. */
  lemma ClaimExtends(c: Params, s: State)
    requires s.partNumber < c.totalParts && Shaped(s)
    ensures var n := s.partNumber + 1; var h := |s.requests|;
      Claim(c, s) == s.(partNumber := n,
                        attempt := s.attempt[n := 0],
                        requests := s.requests + [PartRequest(n, Parts.PartLength(c.size, c.partSize, n))],
                        lastLoaded := s.lastLoaded + [0],
                        activeXhr := s.activeXhr + [h],
                        phase := s.phase + [Sending(h)],
                        tries := s.tries + [1])
  {
    var n := s.partNumber + 1;
    assert (s.phase + [Waiting])[n - 1 := Sending(|s.requests|)] == s.phase + [Sending(|s.requests|)];
    assert (s.tries + [0])[n - 1 := 1] == s.tries + [1];
  }

  lemma ClaimBooks(c: Params, s: State)
    requires BooksOk(c, s) && s.partNumber < c.totalParts && Shaped(s)
    requires s.partNumber < Max0(c.parallelism) + s.completedParts
    ensures BooksOk(c, Claim(c, s)) && WithinParallelism(c, Claim(c, s))
  {
    var h := |s.requests|;
    ClaimExtends(c, s);
    ClaimKeepsEtags(s.etags, s.phase, h);
    ClaimKeepsRequests(s.requests, s.partNumber, c.size, c.partSize);
    ClaimKeepsCounts(s.tries, s.requests, c.size, c.partSize);
    CountDoneAppend(s.phase, Sending(h));
    Seqs.SumAppend(s.lastLoaded, 0);
  }

  lemma ClaimFlight(c: Params, s: State)
    requires FlightOk(c, s) && s.partNumber < c.totalParts && Shaped(s)
    ensures FlightOk(c, Claim(c, s))
  {
    var h := |s.requests|;
    ClaimExtends(c, s);
    ClaimKeepsHandles(s.activeXhr, s.requests, s.phase, Parts.PartLength(c.size, c.partSize, s.partNumber + 1));
    ClaimKeepsAttempts(s.attempt, s.phase, s.tries, Max0(c.retries), h);
    ClaimKeepsTimers(s.timers, s.attempt, s.phase, c.backoff, h);
  }

  lemma ClaimSettle(c: Params, s: State)
    requires SettleOk(s.outcome, s.result, s.aborted, s.completed, s.phase, c.totalParts)
    requires s.partNumber < c.totalParts && Shaped(s)
    ensures var t := Claim(c, s); SettleOk(t.outcome, t.result, t.aborted, t.completed, t.phase, c.totalParts)
  {
    ClaimExtends(c, s);
    ClaimKeepsSettle(s.outcome, s.result, s.aborted, s.completed, s.phase, c.totalParts, |s.requests|);
  }

  lemma ClaimInv(c: Params, s: State)
    requires Inv(c, s) && s.partNumber < c.totalParts && s.partNumber < Max0(c.parallelism) + s.completedParts
    ensures Inv(c, Claim(c, s))
  {
    assert Shaped(s);
    ClaimBooks(c, s);
    ClaimFlight(c, s);
    ClaimSettle(c, s);
  }

  lemma NextPartInv(c: Params, s: State)
    requires Inv(c, s) && Room(c, s)
    ensures Inv(c, NextPart(c, s))
  {
    if s.partNumber >= c.totalParts {
      if s.completedParts == c.totalParts && s.outcome == Pending {
        ResolveKeepsSettle(s.outcome, s.result, s.aborted, s.completed, s.phase, c.totalParts);
      }
    } else {
      ClaimInv(c, s);
    }
  }

  /** The `parallelism` calls of `nextPart` made by the promise executor: `NextPart` applied
      `k` times to `s`. */
  function Launch(c: Params, s: State, k: nat): (t: State)
    requires Shaped(s)
    ensures Shaped(t)
  {
    if k == 0 then s else NextPart(c, Launch(c, s, k - 1))
  }

  // ---------------------------------------------------------------------------------------
  // tryUpload on a retry, and the timer that calls it

  /** The retry timer of part `n` fires and `tryUpload` runs again: a new request for the
      same slice joins `activeXhr`. */
  function Refire(c: Params, s: State, n: nat): State
    requires 1 <= n <= |s.phase| && |s.tries| == |s.phase|
  {
    Send(c, s.(timers := s.timers - {n}), n)
  }

  /** `tryUpload` for claimed part `n`: `sendPart` makes a request for the part's slice and
      the request joins `activeXhr`; the part is in flight on it. */
  function Send(c: Params, s: State, n: nat): State
    requires 1 <= n <= |s.phase| && |s.tries| == |s.phase|
  {
    var h := |s.requests|;
    s.(requests := s.requests + [PartRequest(n, Parts.PartLength(c.size, c.partSize, n))],
       lastLoaded := s.lastLoaded + [0],
       activeXhr := s.activeXhr + [h],
       phase := s.phase[n - 1 := Sending(h)],
       tries := s.tries[n - 1 := s.tries[n - 1] + 1])
  }

  // ---------------------------------------------------------------------------------------
  // The outcome of request h: the two `.then` callbacks, or the `.catch` callback

  /** The part number request `h` was made for. */
  function PartOf(s: State, h: Handle): nat
    requires h < |s.requests|
  {
    s.requests[h].partNumber
  }

  /** `activeXhr.splice(activeXhr.indexOf(xhr), 1)`. */
  function Detach(s: State, h: Handle): seq<Handle>
  {
    JsArray.SpliceOne(s.activeXhr, JsArray.IndexOf(s.activeXhr, h))
  }

  /** The two `.then` callbacks of request `h`, which completed with status 200 and header
      `e`, up to their `nextPart()`: the slot gets `e`, the success counter grows and the
      request leaves `activeXhr`. */
  function Land(s: State, h: Handle, e: ETag): State
    requires h < |s.requests| && 1 <= PartOf(s, h) <= |s.phase| && |s.phase| <= |s.etags|
  {
    var n := PartOf(s, h);
    s.(etags := s.etags[n - 1 := Some(e)],
       completedParts := s.completedParts + 1,
       activeXhr := Detach(s, h),
       phase := s.phase[n - 1 := Done(e)])
  }

  /** Request `h` succeeded with header `e`. */
  function Succeed(c: Params, s: State, h: Handle, e: ETag): State
    requires h < |s.requests| && 1 <= PartOf(s, h) <= |s.phase| && |s.phase| <= |s.etags| && Shaped(s)
  {
    NextPart(c, Land(s, h, e))
  }

  /** The `.catch` of request `h` when `attempt++ < retries` holds: the request leaves
      `activeXhr` and a timer is set with the backoff for the increased counter. */
  function Retry(c: Params, s: State, h: Handle): State
    requires h < |s.requests| && 1 <= PartOf(s, h) <= |s.phase| && PartOf(s, h) in s.attempt
  {
    var n := PartOf(s, h);
    var a := s.attempt[n];
    s.(activeXhr := Detach(s, h),
       attempt := s.attempt[n := a + 1],
       timers := s.timers[n := Options.RetryDelay(c.backoff, a + 1)],
       phase := s.phase[n - 1 := Waiting])
  }

  /** The `.catch` of request `h` when the retries are used up: the request leaves
      `activeXhr` and the promise is rejected with `err` (a settled promise ignores this). */
  function GiveUp(s: State, h: Handle, err: Error): State
    requires h < |s.requests| && 1 <= PartOf(s, h) <= |s.phase| && PartOf(s, h) in s.attempt
  {
    var n := PartOf(s, h);
    s.(activeXhr := Detach(s, h),
       attempt := s.attempt[n := s.attempt[n] + 1],
       outcome := if s.outcome == Pending then Rejected(err) else s.outcome,
       phase := s.phase[n - 1 := Failed])
  }

  /** Request `h` failed with `err`. */
  function Fail(c: Params, s: State, h: Handle, err: Error): State
    requires h < |s.requests| && 1 <= PartOf(s, h) <= |s.phase| && PartOf(s, h) in s.attempt
  {
    if s.attempt[PartOf(s, h)] < c.retries then Retry(c, s, h) else GiveUp(s, h, err)
  }

  /** Request `h` completed with `status`, `statusText` and ETag header `etag`: on status 200
      the promise of `sendPart` resolves with the header and the `.then` callbacks run,
      otherwise it rejects with the status message and the `.catch` runs. */
  function Respond(c: Params, s: State, h: Handle, status: nat, statusText: string, etag: ETag): State
    requires h < |s.requests| && 1 <= PartOf(s, h) <= |s.phase| && |s.phase| <= |s.etags| && Shaped(s)
    requires PartOf(s, h) in s.attempt
  {
    match ResponseResult(status, statusText, etag)
    case Ok(e) => Succeed(c, s, h, e)
    case Err(err) => Fail(c, s, h, err)
  }

  // ---------------------------------------------------------------------------------------
  // A progress event of request h

  /** `onprogress` with `loaded` bytes: `onProgress(loaded - lastLoaded)` adds the difference
      to `totalSentBytes`, and `lastLoaded` becomes `loaded`. */
  function Progress(s: State, h: Handle, loaded: int): State
    requires h < |s.lastLoaded|
  {
    s.(totalSentBytes := s.totalSentBytes + (loaded - s.lastLoaded[h]),
       lastLoaded := s.lastLoaded[h := loaded])
  }

  /** The progress events of request `h` with the `loaded` values `loads`, in order. */
  function ProgressRun(s: State, h: Handle, loads: seq<int>): (t: State)
    requires h < |s.lastLoaded|
    ensures |t.lastLoaded| == |s.lastLoaded|
  {
    if loads == [] then s else Progress(ProgressRun(s, h, loads[..|loads| - 1]), h, loads[|loads| - 1])
  }

  // ---------------------------------------------------------------------------------------
  // The `.then` and `.catch` after the inner promise

  /** The inner promise was rejected: the `.catch` aborts every active request and rethrows. */
  function Abandon(s: State): State
    requires s.outcome.Rejected? && s.result == Pending
  {
    s.(aborted := s.activeXhr, result := s.outcome)
  }

  /** The inner promise resolved: `completeUpload` gets the ETag array, and `failure` is how
      its promise settled; a failure goes through the same `.catch`. */
  function Complete(s: State, failure: Option<Error>): State
    requires s.outcome == Resolved && s.result == Pending
  {
    match failure
    case None => s.(completed := Some(s.etags), result := Resolved)
    case Some(err) => s.(completed := Some(s.etags), aborted := s.activeXhr, result := Rejected(err))
  }

  // ---------------------------------------------------------------------------------------
  // Each callback keeps the invariant

  /** The initial calls of `nextPart` from a fresh state: the first `min(k, totalParts)`
      parts are claimed in order, part `i + 1` on request `i` for its own slice, all of them
      in flight in `activeXhr`; no timer is set. The promise resolves at once when the file
      has no parts and `k > 0`; otherwise it stays pending, and with `k == 0` (a
      `parallelism` of 0 or less) nothing is ever requested. */
  lemma LaunchStarts(c: Params, k: nat)
    ensures var t := Launch(c, Start(c), k); var m := Parts.Min(k, c.totalParts);
      t.partNumber == m && t.completedParts == 0 && |t.requests| == m && |t.activeXhr| == m &&
      (forall i :: 0 <= i < m ==>
        t.activeXhr[i] == i && t.requests[i] == PartRequest(i + 1, Parts.PartLength(c.size, c.partSize, i + 1))) &&
      t.timers == map[] &&
      t.outcome == (if c.totalParts == 0 && k > 0 then Resolved else Pending)
  {
    LaunchFrom(c, Start(c), k);
  }

  /** Parts `1..partNumber` are in flight on requests `0..partNumber-1`, in order, and no
      timer is set. */
  ghost predicate InOrder(c: Params, t: State)
  {
    |t.requests| == |t.activeXhr| == t.partNumber && t.timers == map[] &&
    forall i :: 0 <= i < t.partNumber ==>
      t.activeXhr[i] == i && t.requests[i] == PartRequest(i + 1, Parts.PartLength(c.size, c.partSize, i + 1))
  }

  /** The initial calls from any state with nothing claimed, set or settled yet. */
  lemma {:induction false} LaunchFrom(c: Params, s: State, k: nat)
    requires s.partNumber == 0 && s.completedParts == 0 && s.outcome == Pending && Shaped(s) && InOrder(c, s)
    ensures var t := Launch(c, s, k);
      t.partNumber == Parts.Min(k, c.totalParts) && t.completedParts == 0 && InOrder(c, t) &&
      t.outcome == (if c.totalParts == 0 && k > 0 then Resolved else Pending)
  {
    if k > 0 {
      LaunchFrom(c, s, k - 1);
      var p := Launch(c, s, k - 1);
      if k - 1 < c.totalParts {
        ClaimInOrder(c, p);
      }
    }
  }

  /** A claim made while parts `1..m` are in flight on requests `0..m-1` puts part `m + 1` in
      flight on request `m`. */
  lemma ClaimInOrder(c: Params, p: State)
    requires p.partNumber < c.totalParts && Shaped(p) && InOrder(c, p)
    ensures var t := Claim(c, p);
      t.partNumber == p.partNumber + 1 && t.completedParts == p.completedParts &&
      t.outcome == p.outcome && InOrder(c, t)
  {
    ClaimExtends(c, p);
    var t := Claim(c, p);
    forall i | 0 <= i < p.partNumber + 1
      ensures t.activeXhr[i] == i && t.requests[i] == PartRequest(i + 1, Parts.PartLength(c.size, c.partSize, i + 1))
    {
      if i < p.partNumber {
        assert t.activeXhr[i] == p.activeXhr[i] && t.requests[i] == p.requests[i];
      }
    }
  }

  /** `WithinParallelism` holds during the initial calls, so each of them may run. */
  lemma LaunchRoom(c: Params, k: nat)
    requires k < Max0(c.parallelism)
    ensures Room(c, Launch(c, Start(c), k))
  {
    LaunchFrom(c, Start(c), k);
  }

  lemma RefireBooks(c: Params, s: State, n: nat)
    requires BooksOk(c, s) && 1 <= n <= |s.phase| && s.phase[n - 1].Waiting? && |s.tries| == |s.phase|
    ensures BooksOk(c, Refire(c, s, n))
  {
    CountDoneUpdate(s.phase, n - 1, Sending(|s.requests|));
    Seqs.SumAppend(s.lastLoaded, 0);
    RefireKeepsEtags(s.etags, s.phase, n, |s.requests|);
    RefireKeepsRequests(s.requests, s.partNumber, c.size, c.partSize, n);
    RefireKeepsCounts(s.tries, s.requests, n, Parts.PartLength(c.size, c.partSize, n));
  }

  lemma RefireFlight(c: Params, s: State, n: nat)
    requires FlightOk(c, s) && n in s.timers
    ensures 1 <= n <= |s.phase| && s.phase[n - 1].Waiting? && |s.tries| == |s.phase|
    ensures FlightOk(c, Refire(c, s, n))
  {
    var h := |s.requests|;
    RefireKeepsHandles(s.activeXhr, s.requests, s.phase, n, Parts.PartLength(c.size, c.partSize, n));
    RefireKeepsAttempts(s.attempt, s.phase, s.tries, Max0(c.retries), n, h);
    RefireKeepsTimers(s.timers, s.attempt, s.phase, c.backoff, n, h);
  }

  lemma RefireInv(c: Params, s: State, n: nat)
    requires Inv(c, s) && n in s.timers
    ensures 1 <= n <= |s.phase| && s.phase[n - 1].Waiting? && |s.tries| == |s.phase|
    ensures Inv(c, Refire(c, s, n))
  {
    RefireFlight(c, s, n);
    RefireBooks(c, s, n);
    RefireKeepsSettle(s.outcome, s.result, s.aborted, s.completed, s.phase, c.totalParts, n, |s.requests|);
  }

  /** The request of every active handle is the in-flight attempt of its part. */
  lemma ActivePart(c: Params, s: State, h: Handle)
    requires FlightOk(c, s) && h in s.activeXhr
    ensures h < |s.requests| && 1 <= PartOf(s, h) <= |s.phase| && s.phase[PartOf(s, h) - 1] == Sending(h)
    ensures PartOf(s, h) in s.attempt && |s.tries| == |s.phase|
  {
    var k := JsArray.IndexOf(s.activeXhr, h);
    assert s.activeXhr[k] == h;
  }

  /** A pending timer belongs to a claimed part that waits for it. */
  lemma TimerPart(c: Params, s: State, n: nat)
    requires FlightOk(c, s) && n in s.timers
    ensures 1 <= n <= |s.phase| && s.phase[n - 1].Waiting? && |s.tries| == |s.phase|
  {
  }

  lemma LandBooks(c: Params, s: State, h: Handle, e: ETag)
    requires BooksOk(c, s) && h < |s.requests| && 1 <= PartOf(s, h) <= |s.phase| && s.phase[PartOf(s, h) - 1].Sending?
    ensures BooksOk(c, Land(s, h, e))
  {
    var n := PartOf(s, h);
    CountDoneUpdate(s.phase, n - 1, Done(e));
    SucceedKeepsEtags(s.etags, s.phase, n, e);
  }

  lemma LandFlight(c: Params, s: State, h: Handle, e: ETag)
    requires ShapeOk(c, s) && FlightOk(c, s) && h in s.activeXhr
    ensures FlightOk(c, Land(s, h, e))
  {
    ActivePart(c, s, h);
    var n := PartOf(s, h);
    SettleKeepsHandles(s.activeXhr, s.requests, s.phase, h, Done(e));
    SucceedKeepsAttempts(s.attempt, s.phase, s.tries, Max0(c.retries), n, e);
    SucceedKeepsTimers(s.timers, s.attempt, s.phase, c.backoff, n, e);
  }

  lemma LandSettle(c: Params, s: State, h: Handle, e: ETag)
    requires SettleOk(s.outcome, s.result, s.aborted, s.completed, s.phase, c.totalParts)
    requires h < |s.requests| && 1 <= PartOf(s, h) <= |s.phase| && |s.phase| <= |s.etags|
    requires s.phase[PartOf(s, h) - 1].Sending?
    ensures var t := Land(s, h, e); SettleOk(t.outcome, t.result, t.aborted, t.completed, t.phase, c.totalParts)
  {
    SucceedKeepsSettle(s.outcome, s.result, s.aborted, s.completed, s.phase, c.totalParts, PartOf(s, h), e);
  }

  lemma LandInv(c: Params, s: State, h: Handle, e: ETag)
    requires Inv(c, s) && h in s.activeXhr
    ensures h < |s.requests| && 1 <= PartOf(s, h) <= |s.phase| && s.phase[PartOf(s, h) - 1] == Sending(h)
    ensures Inv(c, Land(s, h, e))
  {
    ActivePart(c, s, h);
    LandBooks(c, s, h, e);
    LandFlight(c, s, h, e);
    LandSettle(c, s, h, e);
  }

  lemma SucceedInv(c: Params, s: State, h: Handle, e: ETag)
    requires Inv(c, s) && h in s.activeXhr
    ensures h < |s.requests| && 1 <= PartOf(s, h) <= |s.phase| && s.phase[PartOf(s, h) - 1] == Sending(h)
    ensures Shaped(s) && Inv(c, Succeed(c, s, h, e))
  {
    LandInv(c, s, h, e);
    NextPartInv(c, Land(s, h, e));
  }

  lemma RetryBooks(c: Params, s: State, h: Handle)
    requires BooksOk(c, s) && h < |s.requests| && 1 <= PartOf(s, h) <= |s.phase| && PartOf(s, h) in s.attempt
    requires s.phase[PartOf(s, h) - 1].Sending?
    ensures BooksOk(c, Retry(c, s, h))
  {
    CountDoneUpdate(s.phase, PartOf(s, h) - 1, Waiting);
    UndoneKeepsEtags(s.etags, s.phase, PartOf(s, h) - 1, Waiting);
  }

  lemma RetryFlight(c: Params, s: State, h: Handle)
    requires ShapeOk(c, s) && FlightOk(c, s) && h in s.activeXhr
    requires s.attempt[PartOf(s, h)] < c.retries
    ensures FlightOk(c, Retry(c, s, h))
  {
    ActivePart(c, s, h);
    RetryHandles(c, s, h);
    RetryAttempts(c, s, h);
    RetryTimers(c, s, h);
  }

  lemma RetryHandles(c: Params, s: State, h: Handle)
    requires h < |s.requests| && 1 <= PartOf(s, h) <= |s.phase| && PartOf(s, h) in s.attempt
    requires HandlesOk(s.activeXhr, s.requests, s.phase) && h in s.activeXhr
    ensures var t := Retry(c, s, h); HandlesOk(t.activeXhr, t.requests, t.phase)
  {
    SettleKeepsHandles(s.activeXhr, s.requests, s.phase, h, Waiting);
  }

  lemma RetryAttempts(c: Params, s: State, h: Handle)
    requires h < |s.requests| && 1 <= PartOf(s, h) <= |s.phase| && PartOf(s, h) in s.attempt
    requires AttemptsOk(s.attempt, s.phase, s.tries, Max0(c.retries)) && s.phase[PartOf(s, h) - 1].Sending?
    requires s.attempt[PartOf(s, h)] < c.retries
    ensures var t := Retry(c, s, h); AttemptsOk(t.attempt, t.phase, t.tries, Max0(c.retries))
  {
    RetryKeepsAttempts(s.attempt, s.phase, s.tries, c.retries, PartOf(s, h));
  }

  lemma RetryTimers(c: Params, s: State, h: Handle)
    requires h < |s.requests| && 1 <= PartOf(s, h) <= |s.phase| && PartOf(s, h) in s.attempt
    requires TimersOk(s.timers, s.attempt, s.phase, c.backoff)
    ensures var t := Retry(c, s, h); TimersOk(t.timers, t.attempt, t.phase, c.backoff)
  {
    RetryKeepsTimers(s.timers, s.attempt, s.phase, c.backoff, PartOf(s, h));
  }

  lemma GiveUpBooks(c: Params, s: State, h: Handle, err: Error)
    requires BooksOk(c, s) && h < |s.requests| && 1 <= PartOf(s, h) <= |s.phase| && PartOf(s, h) in s.attempt
    requires s.phase[PartOf(s, h) - 1].Sending?
    ensures BooksOk(c, GiveUp(s, h, err))
  {
    CountDoneUpdate(s.phase, PartOf(s, h) - 1, Failed);
    UndoneKeepsEtags(s.etags, s.phase, PartOf(s, h) - 1, Failed);
  }

  lemma GiveUpFlight(c: Params, s: State, h: Handle, err: Error)
    requires ShapeOk(c, s) && FlightOk(c, s) && h in s.activeXhr
    requires s.attempt[PartOf(s, h)] >= c.retries
    ensures FlightOk(c, GiveUp(s, h, err))
    ensures s.tries[PartOf(s, h) - 1] == Max0(c.retries) + 1
  {
    ActivePart(c, s, h);
    GiveUpHandles(s, h, err);
    GiveUpAttempts(c, s, h, err);
    GiveUpTimers(c, s, h, err);
  }

  lemma GiveUpHandles(s: State, h: Handle, err: Error)
    requires h < |s.requests| && 1 <= PartOf(s, h) <= |s.phase| && PartOf(s, h) in s.attempt
    requires HandlesOk(s.activeXhr, s.requests, s.phase) && h in s.activeXhr
    ensures var t := GiveUp(s, h, err); HandlesOk(t.activeXhr, t.requests, t.phase)
  {
    SettleKeepsHandles(s.activeXhr, s.requests, s.phase, h, Failed);
  }

  lemma GiveUpAttempts(c: Params, s: State, h: Handle, err: Error)
    requires h < |s.requests| && 1 <= PartOf(s, h) <= |s.phase| && PartOf(s, h) in s.attempt
    requires AttemptsOk(s.attempt, s.phase, s.tries, Max0(c.retries)) && s.phase[PartOf(s, h) - 1].Sending?
    requires s.attempt[PartOf(s, h)] >= c.retries
    ensures var t := GiveUp(s, h, err); AttemptsOk(t.attempt, t.phase, t.tries, Max0(c.retries))
    ensures s.tries[PartOf(s, h) - 1] == Max0(c.retries) + 1
  {
    GiveUpKeepsAttempts(s.attempt, s.phase, s.tries, c.retries, PartOf(s, h));
  }

  lemma GiveUpTimers(c: Params, s: State, h: Handle, err: Error)
    requires h < |s.requests| && 1 <= PartOf(s, h) <= |s.phase| && PartOf(s, h) in s.attempt
    requires TimersOk(s.timers, s.attempt, s.phase, c.backoff) && s.phase[PartOf(s, h) - 1].Sending?
    ensures var t := GiveUp(s, h, err); TimersOk(t.timers, t.attempt, t.phase, c.backoff)
  {
    GiveUpKeepsTimers(s.timers, s.attempt, s.phase, c.backoff, PartOf(s, h));
  }

  lemma FailInv(c: Params, s: State, h: Handle, err: Error)
    requires Inv(c, s) && h in s.activeXhr
    ensures h < |s.requests| && 1 <= PartOf(s, h) <= |s.phase| && s.phase[PartOf(s, h) - 1] == Sending(h)
    ensures PartOf(s, h) in s.attempt
    ensures Inv(c, Fail(c, s, h, err))
  {
    ActivePart(c, s, h);
    if s.attempt[PartOf(s, h)] < c.retries {
      RetryInv(c, s, h);
    } else {
      GiveUpInv(c, s, h, err);
    }
  }

  lemma RetryInv(c: Params, s: State, h: Handle)
    requires Inv(c, s) && h in s.activeXhr
    requires h < |s.requests| && 1 <= PartOf(s, h) <= |s.phase| && PartOf(s, h) in s.attempt
    requires s.attempt[PartOf(s, h)] < c.retries
    ensures Inv(c, Retry(c, s, h))
  {
    ActivePart(c, s, h);
    RetryBooks(c, s, h);
    RetryFlight(c, s, h);
    RetrySettle(c, s, h);
  }

  lemma RetrySettle(c: Params, s: State, h: Handle)
    requires SettleOk(s.outcome, s.result, s.aborted, s.completed, s.phase, c.totalParts)
    requires h < |s.requests| && 1 <= PartOf(s, h) <= |s.phase| && PartOf(s, h) in s.attempt
    requires s.phase[PartOf(s, h) - 1].Sending?
    ensures var t := Retry(c, s, h); SettleOk(t.outcome, t.result, t.aborted, t.completed, t.phase, c.totalParts)
  {
    RetryKeepsSettle(s.outcome, s.result, s.aborted, s.completed, s.phase, c.totalParts, PartOf(s, h));
  }

  lemma GiveUpInv(c: Params, s: State, h: Handle, err: Error)
    requires Inv(c, s) && h in s.activeXhr
    requires h < |s.requests| && 1 <= PartOf(s, h) <= |s.phase| && PartOf(s, h) in s.attempt
    requires s.attempt[PartOf(s, h)] >= c.retries
    ensures Inv(c, GiveUp(s, h, err))
  {
    ActivePart(c, s, h);
    GiveUpBooks(c, s, h, err);
    GiveUpFlight(c, s, h, err);
    GiveUpSettle(s, h, err, c.totalParts);
  }

  lemma GiveUpSettle(s: State, h: Handle, err: Error, totalParts: nat)
    requires SettleOk(s.outcome, s.result, s.aborted, s.completed, s.phase, totalParts)
    requires h < |s.requests| && 1 <= PartOf(s, h) <= |s.phase| && PartOf(s, h) in s.attempt
    requires s.phase[PartOf(s, h) - 1].Sending?
    ensures var t := GiveUp(s, h, err); SettleOk(t.outcome, t.result, t.aborted, t.completed, t.phase, totalParts)
  {
    GiveUpKeepsSettle(s.outcome, s.result, s.aborted, s.completed, s.phase, totalParts, PartOf(s, h), err);
  }

  lemma RespondInv(c: Params, s: State, h: Handle, status: nat, statusText: string, etag: ETag)
    requires Inv(c, s) && h in s.activeXhr
    ensures h < |s.requests| && 1 <= PartOf(s, h) <= |s.phase| && |s.phase| <= |s.etags| && Shaped(s)
    ensures PartOf(s, h) in s.attempt
    ensures Inv(c, Respond(c, s, h, status, statusText, etag))
  {
    ActivePart(c, s, h);
    if status == 200 {
      SucceedInv(c, s, h, etag);
    } else {
      FailInv(c, s, h, Error(StatusMessage(status, statusText)));
    }
  }

  lemma ProgressInv(c: Params, s: State, h: Handle, loaded: int)
    requires Inv(c, s) && h < |s.requests|
    ensures Inv(c, Progress(s, h, loaded))
  {
    Seqs.SumUpdate(s.lastLoaded, h, loaded);
  }

  lemma AbandonInv(c: Params, s: State)
    requires Inv(c, s) && s.outcome.Rejected? && s.result == Pending
    ensures Inv(c, Abandon(s))
  {
  }

  lemma CompleteInv(c: Params, s: State, failure: Option<Error>)
    requires Inv(c, s) && s.outcome == Resolved && s.result == Pending
    ensures Inv(c, Complete(s, failure))
  {
  }

  // ---------------------------------------------------------------------------------------
  // What the invariant promises

  /** The counters stay ordered, and the parts claimed but not done, as well as the parts in
      flight or waiting for a retry, never exceed the number of slots. */
  lemma CountersOrdered(c: Params, s: State)
    requires Inv(c, s)
    ensures 0 <= s.completedParts <= s.partNumber <= c.totalParts
    ensures s.partNumber - s.completedParts <= Max0(c.parallelism)
    ensures CountOutstanding(s.phase) <= Max0(c.parallelism)
    ensures |s.activeXhr| <= Max0(c.parallelism)
  {
    DoneAndOutstanding(s.phase);
    ActiveWithinOutstanding(s.activeXhr, s.requests, s.phase);
  }

  /** The promise resolves only when every part succeeded: the ETag array then holds each
      part's ETag at its part number, no request is active and no timer is pending. */
  lemma ResolvedMeansAllUploaded(c: Params, s: State)
    requires Inv(c, s) && s.outcome == Resolved
    ensures s.partNumber == s.completedParts == c.totalParts == |s.etags|
    ensures forall i :: 0 <= i < |s.etags| ==> s.phase[i].Done? && s.etags[i] == Some(s.phase[i].etag)
    ensures s.activeXhr == [] && s.timers == map[]
  {
    AllDone(s.phase);
    AllDoneMeansIdle(s.activeXhr, s.requests, s.timers, s.attempt, s.phase, c.backoff);
  }

  /** The success of an active request resolves the promise exactly when it is the last part
      to succeed and the promise is still pending: then `nextPart` finds `completedParts ==
      totalParts` and resolves, which is what leads to `completeUpload`. */
  lemma LastSuccessResolves(c: Params, s: State, h: Handle, e: ETag)
    requires Inv(c, s) && h in s.activeXhr
    ensures h < |s.requests| && 1 <= PartOf(s, h) <= |s.phase| && |s.phase| <= |s.etags| && Shaped(s)
    ensures Succeed(c, s, h, e).outcome == Resolved <==>
      s.outcome == Pending && s.completedParts + 1 == c.totalParts
  {
    ActivePart(c, s, h);
    FailedAttempt(c, s, h);
    CountersOrdered(c, s);
    var n := PartOf(s, h);
    var l := Land(s, h, e);
    if s.partNumber < c.totalParts {
      ClaimExtends(c, l);
      if s.completedParts + 1 == c.totalParts {
        // then every claimed part would be done, yet part `n` is in flight
        AllDone(s.phase);
        assert false;
      }
    }
  }

  /** `completeUpload` gets a filled slot for every part, holding the header as returned, and
      nothing is left to abort; how its promise settles is how `upload`'s promise settles. */
  lemma CompleteGetsEveryEtag(c: Params, s: State, failure: Option<Error>)
    requires Inv(c, s) && s.outcome == Resolved && s.result == Pending
    ensures var t := Complete(s, failure);
      t.completed == Some(s.etags) && |s.etags| == c.totalParts &&
      (forall i :: 0 <= i < |s.etags| ==> s.etags[i].Some?) &&
      t.aborted == [] &&
      t.result == (if failure.Some? then Rejected(failure.value) else Resolved)
  {
    ResolvedMeansAllUploaded(c, s);
  }

  /** The success of request `h` for part `n` fills slot `n - 1`, which was still empty, and
      no other slot, whatever order the parts complete in; it counts one more success, and
      `h` leaves `activeXhr` while every other active request keeps its place. */
  lemma SucceedRecordsEtag(c: Params, s: State, h: Handle, e: ETag)
    requires Inv(c, s) && h in s.activeXhr
    ensures h < |s.requests| && 1 <= PartOf(s, h) <= |s.phase| && |s.phase| <= |s.etags|
    ensures var n := PartOf(s, h); var t := Land(s, h, e); var k := JsArray.IndexOf(s.activeXhr, h);
      s.etags[n - 1] == None && t.etags == s.etags[n - 1 := Some(e)] &&
      t.completedParts == s.completedParts + 1 &&
      0 <= k < |s.activeXhr| && s.activeXhr[k] == h &&
      t.activeXhr == s.activeXhr[..k] + s.activeXhr[k + 1..] && h !in t.activeXhr
  {
    ActivePart(c, s, h);
    var n := PartOf(s, h);
    assert s.etags[n - 1] == EtagSlot(s.phase[n - 1]);
    JsArray.RemoveFound(s.activeXhr, h);
  }

  /** A failure of request `h` for part `n` whose counter stood at `a`: `h` leaves
      `activeXhr` and the counter becomes `a + 1`. While `a < retries` the part waits for a
      timer of `retryDelay(a + 1)` and the promise is untouched; otherwise the part has had
      exactly `retries + 1` attempts (one if `retries` is negative), that is `getPartUrl`
      calls, and the promise is rejected, with `err` unless it was already rejected. */
  lemma FailRetriesOrRejects(c: Params, s: State, h: Handle, err: Error)
    requires Inv(c, s) && h in s.activeXhr
    ensures h < |s.requests| && 1 <= PartOf(s, h) <= |s.phase| && PartOf(s, h) in s.attempt
    ensures var n := PartOf(s, h); var a := s.attempt[n]; var t := Fail(c, s, h, err);
      h !in t.activeXhr && t.attempt[n] == a + 1 && CountFor(s.requests, n) == a + 1 &&
      (a < c.retries ==>
        t.timers == s.timers[n := Options.RetryDelay(c.backoff, a + 1)] && t.outcome == s.outcome) &&
      (a >= c.retries ==>
        a + 1 == Max0(c.retries) + 1 && t.timers == s.timers && t.outcome.Rejected? &&
        (s.outcome == Pending ==> t.outcome == Rejected(err)))
  {
    FailedAttempt(c, s, h);
    FailDetaches(c, s, h, err);
  }

  /** A failed request leaves `activeXhr` and bumps its part's counter. */
  lemma FailDetaches(c: Params, s: State, h: Handle, err: Error)
    requires h < |s.requests| && 1 <= PartOf(s, h) <= |s.phase| && PartOf(s, h) in s.attempt
    requires h in s.activeXhr && JsArray.Distinct(s.activeXhr)
    ensures var t := Fail(c, s, h, err);
      h !in t.activeXhr && t.attempt[PartOf(s, h)] == s.attempt[PartOf(s, h)] + 1
  {
    JsArray.RemoveFound(s.activeXhr, h);
  }

  /** The attempt of an active request is its part's last one, and the promise has not
      resolved while a part is in flight. */
  lemma FailedAttempt(c: Params, s: State, h: Handle)
    requires Inv(c, s) && h in s.activeXhr
    ensures h < |s.requests| && 1 <= PartOf(s, h) <= |s.phase| && PartOf(s, h) in s.attempt
    ensures CountFor(s.requests, PartOf(s, h)) == s.attempt[PartOf(s, h)] + 1 <= Max0(c.retries) + 1
    ensures s.outcome != Resolved
  {
    ActivePart(c, s, h);
    var n := PartOf(s, h);
    assert s.tries[n - 1] == CountFor(s.requests, n);
    assert TriesMatch(s.phase[n - 1], s.attempt[n], s.tries[n - 1], Max0(c.retries));
    if s.outcome == Resolved {
      AllDone(s.phase);
    }
  }

  /** The promise is rejected only once some part used up its retries, after exactly
      `retries + 1` requests for it. */
  lemma RejectedMeansRetriesExhausted(c: Params, s: State)
    requires Inv(c, s) && s.outcome.Rejected?
    ensures exists i :: 0 <= i < |s.phase| && s.phase[i] == Failed && CountFor(s.requests, i + 1) == Max0(c.retries) + 1
  {
    var i :| 0 <= i < |s.phase| && s.phase[i].Failed?;
    assert TriesMatch(s.phase[i], s.attempt[i + 1], s.tries[i], Max0(c.retries));
    assert s.tries[i] == CountFor(s.requests, i + 1);
  }

  /** Every claimed part has had at least one and at most `retries + 1` requests, and no
      request was made for a part not claimed yet. */
  lemma AttemptsBounded(c: Params, s: State)
    requires Inv(c, s)
    ensures forall n :: 1 <= n <= |s.phase| ==> 1 <= CountFor(s.requests, n) <= Max0(c.retries) + 1
    ensures forall n :: n > s.partNumber ==> CountFor(s.requests, n) == 0
  {
    forall n | 1 <= n <= |s.phase| ensures 1 <= CountFor(s.requests, n) <= Max0(c.retries) + 1 {
      assert TriesMatch(s.phase[n - 1], s.attempt[n], s.tries[n - 1], Max0(c.retries));
      assert s.tries[n - 1] == CountFor(s.requests, n);
    }
    forall n | n > s.partNumber ensures CountFor(s.requests, n) == 0 {
      CountForUnclaimed(s.requests, n - 1, c.size, c.partSize);
    }
  }

  /** A success with parts left claims the next part and requests it, whether or not the
      promise has already been rejected: the settled promise does not stop the claims. */
  lemma SucceedClaimsWhateverTheOutcome(c: Params, s: State, h: Handle, e: ETag)
    requires Inv(c, s) && h in s.activeXhr && s.partNumber < c.totalParts
    ensures h < |s.requests| && 1 <= PartOf(s, h) <= |s.phase| && |s.phase| <= |s.etags|
    ensures var t := Succeed(c, s, h, e);
      t.partNumber == s.partNumber + 1 && t.outcome == s.outcome &&
      t.requests == s.requests + [PartRequest(t.partNumber, Parts.PartLength(c.size, c.partSize, t.partNumber))] &&
      |s.requests| in t.activeXhr
  {
    ActivePart(c, s, h);
    var l := Land(s, h, e);
    assert l.partNumber == s.partNumber && l.requests == s.requests;
    ClaimExtends(c, l);
    assert Claim(c, l).activeXhr[|l.activeXhr|] == |s.requests|;
  }

  /** The `.catch` unwind aborts only the requests active at that moment: a retry timer that
      fires afterwards starts a request that is never aborted. */
  lemma RetryAfterUnwindEscapesAbort(c: Params, s: State, n: nat)
    requires Inv(c, s) && s.outcome.Rejected? && s.result == Pending && n in s.timers
    ensures 1 <= n <= |s.phase| && |s.tries| == |s.phase|
    ensures var t := Refire(c, Abandon(s), n); var h := |s.requests|;
      h in t.activeXhr && h !in t.aborted && t.result.Rejected?
  {
    TimerPart(c, s, n);
    var t := Refire(c, Abandon(s), n);
    var h := |s.requests|;
    assert t.activeXhr[|s.activeXhr|] == h;
  }

  /** A completed request fills its part's ETag slot exactly when its status is 200, with the
      ETag header as returned, and leaves every other slot as it was. */
  lemma RespondRecordsOnlyOk(c: Params, s: State, h: Handle, status: nat, statusText: string, etag: ETag)
    requires Inv(c, s) && h in s.activeXhr
    ensures h < |s.requests| && 1 <= PartOf(s, h) <= |s.phase| && |s.phase| <= |s.etags| && Shaped(s)
    ensures PartOf(s, h) in s.attempt
    ensures var n := PartOf(s, h); var t := Respond(c, s, h, status, statusText, etag);
      s.etags[n - 1] == None &&
      t.etags == (if status == 200 then s.etags[n - 1 := Some(etag)] else s.etags)
  {
    ActivePart(c, s, h);
    ActiveSlotEmpty(c, s, h);
    if status == 200 {
      SucceedFillsSlot(c, s, h, etag);
    }
  }

  /** The ETag slot of a part in flight is still empty. */
  lemma ActiveSlotEmpty(c: Params, s: State, h: Handle)
    requires EtagsOk(s.etags, s.phase) && h < |s.requests| && 1 <= PartOf(s, h) <= |s.phase|
    requires s.phase[PartOf(s, h) - 1].Sending?
    ensures s.etags[PartOf(s, h) - 1] == None
  {
    assert s.etags[PartOf(s, h) - 1] == EtagSlot(s.phase[PartOf(s, h) - 1]);
  }

  /** A success writes its ETag into its part's slot and no other. */
  lemma SucceedFillsSlot(c: Params, s: State, h: Handle, e: ETag)
    requires h < |s.requests| && 1 <= PartOf(s, h) <= |s.phase| && |s.phase| <= |s.etags| && Shaped(s)
    ensures Succeed(c, s, h, e).etags == s.etags[PartOf(s, h) - 1 := Some(e)]
  {
    NextPartKeepsEtags(c, Land(s, h, e));
  }

  /** `nextPart` never writes the ETag array. */
  lemma NextPartKeepsEtags(c: Params, s: State)
    requires Shaped(s)
    ensures NextPart(c, s).etags == s.etags
  {
    if s.partNumber < c.totalParts {
      ClaimExtends(c, s);
    }
  }

  /** A progress event whose `loaded` value is not below the request's last one never
      lowers the running total. */
  lemma ProgressMonotone(s: State, h: Handle, loaded: int)
    requires h < |s.lastLoaded| && loaded >= s.lastLoaded[h]
    ensures Progress(s, h, loaded).totalSentBytes >= s.totalSentBytes
  {
  }

  /** Over the progress events of one fresh request, `onProgress` receives the successive
      differences of the `loaded` values; they add up to the last value, which is the
      request's `lastLoaded` at the end. */
  lemma {:induction false} ProgressRunAdds(s: State, h: Handle, loads: seq<int>)
    requires h < |s.lastLoaded| && s.lastLoaded[h] == 0
    ensures var t := ProgressRun(s, h, loads);
      t.totalSentBytes == s.totalSentBytes + Seqs.Sum(Deltas(loads)) == s.totalSentBytes + LastLoaded(loads) &&
      t.lastLoaded == s.lastLoaded[h := LastLoaded(loads)]
  {
    DeltasSumToLastLoaded(loads);
    if loads != [] {
      ProgressRunAdds(s, h, loads[..|loads| - 1]);
    }
  }

  /** While the `loaded` values of a fresh request are non-negative and never decrease, the
      running total never decreases over its progress events. */
  lemma ProgressRunMonotone(s: State, h: Handle, loads: seq<int>, i: nat, j: nat)
    requires h < |s.lastLoaded| && s.lastLoaded[h] == 0 && i <= j <= |loads|
    requires forall k :: 0 <= k < |loads| ==> 0 <= loads[k]
    requires forall a, b :: 0 <= a <= b < |loads| ==> loads[a] <= loads[b]
    ensures s.totalSentBytes <= ProgressRun(s, h, loads[..i]).totalSentBytes
    ensures ProgressRun(s, h, loads[..i]).totalSentBytes <= ProgressRun(s, h, loads[..j]).totalSentBytes
  {
    ProgressRunAdds(s, h, loads[..i]);
    ProgressRunAdds(s, h, loads[..j]);
  }
}
