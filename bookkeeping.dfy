/** The invariant of the upload scheduler's bookkeeping, stated over plain values, and one
    lemma per callback showing that the callback's update keeps it. The class in module
    Scheduler holds the state and applies these updates. */
module Bookkeeping {
  import opened Wrappers
  import opened Transfer
  import Options
  import Parts
  import JsArray

  /** A request object (`XMLHttpRequest`). Requests are numbered in the order they are made. */
  type Handle = nat

  /** The state of a promise. */
  datatype Settlement = Pending | Resolved | Rejected(error: Error)

  /** The part-specific arguments of one `getPartUrl` call: one is made per attempt. */
  datatype PartRequest = PartRequest(partNumber: nat, length: nat)

  /** Where a claimed part stands: its attempt is in flight on a request, it waits for a retry
      timer, it succeeded with an ETag, or it used up its retries. */
  datatype Phase = Sending(handle: Handle) | Waiting | Done(etag: ETag) | Failed

  function Max0(x: int): nat
  {
    if x < 0 then 0 else x
  }

  /** The number of parts that succeeded. */
  function CountDone(ps: seq<Phase>): (r: nat)
    ensures r <= |ps|
  {
    if ps == [] then 0 else CountDone(ps[..|ps| - 1]) + (if ps[|ps| - 1].Done? then 1 else 0)
  }

  /** The number of parts that are in flight or waiting to be retried. */
  function CountOutstanding(ps: seq<Phase>): (r: nat)
    ensures r <= |ps|
  {
    if ps == [] then 0
    else CountOutstanding(ps[..|ps| - 1]) + (if ps[|ps| - 1].Sending? || ps[|ps| - 1].Waiting? then 1 else 0)
  }

  lemma CountDoneAppend(ps: seq<Phase>, p: Phase)
    ensures CountDone(ps + [p]) == CountDone(ps) + (if p.Done? then 1 else 0)
  {
    assert (ps + [p])[..|ps|] == ps;
  }

  lemma {:induction false} CountDoneUpdate(ps: seq<Phase>, i: nat, p: Phase)
    requires i < |ps|
    ensures CountDone(ps[i := p]) == CountDone(ps) - (if ps[i].Done? then 1 else 0) + (if p.Done? then 1 else 0)
  {
    var n := |ps| - 1;
    if i == n {
      assert ps[i := p][..n] == ps[..n];
    } else {
      CountDoneUpdate(ps[..n], i, p);
      assert ps[i := p][..n] == ps[..n][i := p];
    }
  }

  /** When the success counter equals the number of claimed parts, every claimed part is Done. */
  lemma {:induction false} AllDone(ps: seq<Phase>)
    requires CountDone(ps) == |ps|
    ensures forall i :: 0 <= i < |ps| ==> ps[i].Done?
  {
    if ps != [] {
      AllDone(ps[..|ps| - 1]);
      forall i | 0 <= i < |ps| ensures ps[i].Done? {
        if i < |ps| - 1 { assert ps[i] == ps[..|ps| - 1][i]; }
      }
    }
  }

  /** A part that is done is not outstanding. */
  lemma {:induction false} DoneAndOutstanding(ps: seq<Phase>)
    ensures CountDone(ps) + CountOutstanding(ps) <= |ps|
  {
    if ps != [] {
      DoneAndOutstanding(ps[..|ps| - 1]);
    }
  }

  lemma {:induction false} CountOutstandingUpdate(ps: seq<Phase>, i: nat, p: Phase)
    requires i < |ps|
    ensures CountOutstanding(ps[i := p]) ==
      CountOutstanding(ps) - (if ps[i].Sending? || ps[i].Waiting? then 1 else 0) +
      (if p.Sending? || p.Waiting? then 1 else 0)
  {
    var n := |ps| - 1;
    if i == n {
      assert ps[i := p][..n] == ps[..n];
    } else {
      CountOutstandingUpdate(ps[..n], i, p);
      assert ps[i := p][..n] == ps[..n][i := p];
    }
  }

  /** Distinct indices of outstanding parts are no more than the outstanding parts. */
  lemma {:induction false} OutstandingCoversParts(phase: seq<Phase>, parts: seq<int>)
    requires JsArray.Distinct(parts)
    requires forall k :: 0 <= k < |parts| ==>
      0 <= parts[k] < |phase| && (phase[parts[k]].Sending? || phase[parts[k]].Waiting?)
    ensures |parts| <= CountOutstanding(phase)
    decreases |parts|
  {
    if parts != [] {
      var m := |parts| - 1;
      var rest := parts[..m];
      var phase' := phase[parts[m] := Failed];
      CountOutstandingUpdate(phase, parts[m], Failed);
      forall k | 0 <= k < |rest|
        ensures 0 <= rest[k] < |phase'| && (phase'[rest[k]].Sending? || phase'[rest[k]].Waiting?)
      {
        assert rest[k] == parts[k] != parts[m];
      }
      assert JsArray.Distinct(rest) by {
        forall i, j | 0 <= i < j < |rest| ensures rest[i] != rest[j] {
          assert rest[i] == parts[i] && rest[j] == parts[j];
        }
      }
      OutstandingCoversParts(phase', rest);
    }
  }

  /** The ETag array slot of a part in phase `p`. */
  function EtagSlot(p: Phase): Option<ETag>
  {
    if p.Done? then Some(p.etag) else None
  }

  /** Slot i holds the ETag of part i+1 once that part succeeded, and nothing before. */
  ghost predicate EtagsOk(etags: seq<Option<ETag>>, phase: seq<Phase>)
  {
    |phase| <= |etags| &&
    forall i :: 0 <= i < |etags| ==> etags[i] == if i < |phase| then EtagSlot(phase[i]) else None
  }

  /** Every request was for a claimed part, with that part's exact slice length. */
  ghost predicate RequestsOk(requests: seq<PartRequest>, claimed: nat, size: nat, partSize: nat)
  {
    forall h :: 0 <= h < |requests| ==>
      1 <= requests[h].partNumber <= claimed &&
      requests[h].length == Parts.PartLength(size, partSize, requests[h].partNumber)
  }

  /** The number of requests made for part `n`, that is, of `getPartUrl` calls for it. */
  function CountFor(requests: seq<PartRequest>, n: nat): (r: nat)
    ensures r <= |requests|
  {
    if requests == [] then 0
    else CountFor(requests[..|requests| - 1], n) + (if requests[|requests| - 1].partNumber == n then 1 else 0)
  }

  /** The attempts started for each claimed part are the requests made for it. */
  ghost predicate TriesCounted(tries: seq<nat>, requests: seq<PartRequest>)
  {
    forall i :: 0 <= i < |tries| ==> tries[i] == CountFor(requests, i + 1)
  }

  /** Every active request is the in-flight attempt of a claimed part. */
  ghost predicate ActiveAreSending(active: seq<Handle>, requests: seq<PartRequest>, phase: seq<Phase>)
  {
    forall k :: 0 <= k < |active| ==>
      active[k] < |requests| && 1 <= requests[active[k]].partNumber <= |phase| &&
      phase[requests[active[k]].partNumber - 1] == Sending(active[k])
  }

  /** Every part in flight has its request in the active list. */
  ghost predicate SendingAreActive(active: seq<Handle>, requests: seq<PartRequest>, phase: seq<Phase>)
  {
    forall i :: 0 <= i < |phase| && phase[i].Sending? ==>
      phase[i].handle < |requests| && requests[phase[i].handle].partNumber == i + 1 &&
      phase[i].handle in active
  }

  /** The active requests are exactly the requests of the parts in flight, one per part. */
  ghost predicate HandlesOk(active: seq<Handle>, requests: seq<PartRequest>, phase: seq<Phase>)
  {
    JsArray.Distinct(active) && ActiveAreSending(active, requests, phase) && SendingAreActive(active, requests, phase)
  }

  /** How a part's attempt counter `a` and its number of started attempts `t` stand in each
      phase, for a retry budget of `r` (a negative `retries` option acts as 0). */
  predicate TriesMatch(p: Phase, a: int, t: nat, r: nat)
  {
    match p
    case Sending(_) => 0 <= a <= r && t == a + 1
    case Waiting => 1 <= a <= r && t == a
    case Done(_) => 0 <= a <= r && t == a + 1
    case Failed => a == r + 1 && t == r + 1
  }

  /** Every claimed part has an attempt counter, which agrees with its phase. */
  ghost predicate AttemptsOk(attempt: map<nat, int>, phase: seq<Phase>, tries: seq<nat>, r: nat)
  {
    |tries| == |phase| &&
    (forall n :: n in attempt <==> 1 <= n <= |phase|) &&
    (forall i :: 0 <= i < |phase| ==> TriesMatch(phase[i], attempt[i + 1], tries[i], r))
  }

  /** A timer is pending exactly for the parts waiting to be retried, with the delay for their
      attempt counter. */
  ghost predicate TimersOk(timers: map<nat, int>, attempt: map<nat, int>, phase: seq<Phase>, backoff: Options.Backoff)
  {
    (forall n :: n in timers ==>
      1 <= n <= |phase| && n in attempt && phase[n - 1].Waiting? &&
      timers[n] == Options.RetryDelay(backoff, attempt[n])) &&
    (forall i :: 0 <= i < |phase| && phase[i].Waiting? ==> i + 1 in timers)
  }

  ghost predicate AnyFailed(phase: seq<Phase>)
  {
    exists i :: 0 <= i < |phase| && phase[i].Failed?
  }

  /** The inner promise resolves only when every part is done and rejects exactly when some
      part used up its retries; `upload`'s own promise settles only after it. */
  ghost predicate SettleOk(outcome: Settlement, result: Settlement, aborted: seq<Handle>,
                     completed: Option<seq<Option<ETag>>>, phase: seq<Phase>, totalParts: nat)
  {
    (outcome == Resolved ==> |phase| == totalParts && CountDone(phase) == totalParts) &&
    (outcome.Rejected? <==> AnyFailed(phase)) &&
    (result != Pending ==> outcome != Pending) &&
    (result == Pending ==> aborted == [] && completed == None) &&
    (completed.Some? ==> outcome == Resolved)
  }

  /** Before the first claim nothing is in flight and no timer is pending. */
  lemma NothingInFlight(r: nat, backoff: Options.Backoff)
    ensures HandlesOk([], [], []) && AttemptsOk(map[], [], [], r) && TimersOk(map[], map[], [], backoff)
  {
    NoHandles();
    NoAttempts(r);
    NoTimers(backoff);
  }

  lemma NoHandles()
    ensures HandlesOk([], [], [])
  {
  }

  lemma NoAttempts(r: nat)
    ensures AttemptsOk(map[], [], [], r)
  {
  }

  lemma NoTimers(backoff: Options.Backoff)
    ensures TimersOk(map[], map[], [], backoff)
  {
  }

  // ---------------------------------------------------------------------------------------
  // A claim: `nextPart` takes part number |phase|+1 and `tryUpload` makes its first request.

  lemma ClaimKeepsEtags(etags: seq<Option<ETag>>, phase: seq<Phase>, h: Handle)
    requires EtagsOk(etags, phase) && |phase| < |etags|
    ensures EtagsOk(etags, phase + [Sending(h)])
  {
  }

  lemma ClaimKeepsRequests(requests: seq<PartRequest>, claimed: nat, size: nat, partSize: nat)
    requires RequestsOk(requests, claimed, size, partSize)
    ensures RequestsOk(requests + [PartRequest(claimed + 1, Parts.PartLength(size, partSize, claimed + 1))],
                       claimed + 1, size, partSize)
  {
  }

  lemma CountForAppend(requests: seq<PartRequest>, r: PartRequest, n: nat)
    ensures CountFor(requests + [r], n) == CountFor(requests, n) + (if r.partNumber == n then 1 else 0)
  {
    assert (requests + [r])[..|requests|] == requests;
  }

  /** No request was made for a part beyond the claimed ones. */
  lemma {:induction false} CountForUnclaimed(requests: seq<PartRequest>, claimed: nat, size: nat, partSize: nat)
    requires RequestsOk(requests, claimed, size, partSize)
    ensures CountFor(requests, claimed + 1) == 0
  {
    if requests != [] {
      var before := requests[..|requests| - 1];
      assert forall h :: 0 <= h < |before| ==> before[h] == requests[h];
      CountForUnclaimed(before, claimed, size, partSize);
    }
  }

  lemma ClaimKeepsCounts(tries: seq<nat>, requests: seq<PartRequest>, size: nat, partSize: nat)
    requires TriesCounted(tries, requests) && RequestsOk(requests, |tries|, size, partSize)
    ensures TriesCounted(tries + [1],
                         requests + [PartRequest(|tries| + 1, Parts.PartLength(size, partSize, |tries| + 1))])
  {
    var r := PartRequest(|tries| + 1, Parts.PartLength(size, partSize, |tries| + 1));
    CountForUnclaimed(requests, |tries|, size, partSize);
    forall i | 0 <= i < |tries| + 1 ensures (tries + [1])[i] == CountFor(requests + [r], i + 1) {
      CountForAppend(requests, r, i + 1);
    }
  }

  lemma ClaimKeepsHandles(active: seq<Handle>, requests: seq<PartRequest>, phase: seq<Phase>, len: nat)
    requires HandlesOk(active, requests, phase)
    ensures HandlesOk(active + [|requests|], requests + [PartRequest(|phase| + 1, len)],
                      phase + [Sending(|requests|)])
  {
    var h := |requests|;
    var a', r', p' := active + [h], requests + [PartRequest(|phase| + 1, len)], phase + [Sending(h)];
    assert h !in active;
    forall k | 0 <= k < |a'|
      ensures a'[k] < |r'| && 1 <= r'[a'[k]].partNumber <= |p'| && p'[r'[a'[k]].partNumber - 1] == Sending(a'[k])
    {
      if k < |active| {
        assert a'[k] == active[k];
        assert r'[active[k]] == requests[active[k]];
      }
    }
  }

  lemma ClaimKeepsAttempts(attempt: map<nat, int>, phase: seq<Phase>, tries: seq<nat>, r: nat, h: Handle)
    requires AttemptsOk(attempt, phase, tries, r)
    ensures AttemptsOk(attempt[|phase| + 1 := 0], phase + [Sending(h)], tries + [1], r)
  {
    var p' := phase + [Sending(h)];
    var a' := attempt[|phase| + 1 := 0];
    var t' := tries + [1];
    forall i | 0 <= i < |p'| ensures TriesMatch(p'[i], a'[i + 1], t'[i], r) {
      if i < |phase| {
        assert p'[i] == phase[i] && t'[i] == tries[i] && a'[i + 1] == attempt[i + 1];
      }
    }
  }

  lemma ClaimKeepsTimers(timers: map<nat, int>, attempt: map<nat, int>, phase: seq<Phase>,
                         backoff: Options.Backoff, h: Handle)
    requires TimersOk(timers, attempt, phase, backoff)
    ensures TimersOk(timers, attempt[|phase| + 1 := 0], phase + [Sending(h)], backoff)
  {
    var p' := phase + [Sending(h)];
    forall n | n in timers ensures p'[n - 1] == phase[n - 1] {}
  }

  lemma ClaimKeepsSettle(outcome: Settlement, result: Settlement, aborted: seq<Handle>,
                         completed: Option<seq<Option<ETag>>>, phase: seq<Phase>, totalParts: nat, h: Handle)
    requires SettleOk(outcome, result, aborted, completed, phase, totalParts)
    requires |phase| < totalParts
    ensures SettleOk(outcome, result, aborted, completed, phase + [Sending(h)], totalParts)
  {
    var p' := phase + [Sending(h)];
    if AnyFailed(phase) {
      var i :| 0 <= i < |phase| && phase[i].Failed?;
      assert p'[i].Failed?;
    }
    if AnyFailed(p') {
      var i :| 0 <= i < |p'| && p'[i].Failed?;
      assert phase[i].Failed?;
    }
  }

  /** `nextPart` resolving: every claimed part is done, so none failed. */
  lemma ResolveKeepsSettle(outcome: Settlement, result: Settlement, aborted: seq<Handle>,
                           completed: Option<seq<Option<ETag>>>, phase: seq<Phase>, totalParts: nat)
    requires SettleOk(outcome, result, aborted, completed, phase, totalParts)
    requires outcome == Pending && |phase| == totalParts && CountDone(phase) == totalParts
    ensures SettleOk(Resolved, result, aborted, completed, phase, totalParts)
  {
    AllDone(phase);
  }

  // ---------------------------------------------------------------------------------------
  // Settling an attempt of part n: the request leaves `activeXhr` and the part changes phase.

  /** The request `h` of part `n` leaves the active list and part `n` stops Sending. */
  lemma SettleKeepsHandles(active: seq<Handle>, requests: seq<PartRequest>, phase: seq<Phase>,
                           h: Handle, q: Phase)
    requires HandlesOk(active, requests, phase) && h in active && !q.Sending?
    ensures h < |requests| && 1 <= requests[h].partNumber <= |phase|
    ensures phase[requests[h].partNumber - 1] == Sending(h)
    ensures HandlesOk(JsArray.SpliceOne(active, JsArray.IndexOf(active, h)), requests,
                      phase[requests[h].partNumber - 1 := q])
  {
    var idx := JsArray.IndexOf(active, h);
    SpliceAtFound(active, idx);
    SettleAt(active, requests, phase, q, idx);
  }

  /** The request at index `idx` leaves the active list and its part changes to `q`. */
  lemma SettleAt(active: seq<Handle>, requests: seq<PartRequest>, phase: seq<Phase>, q: Phase, idx: nat)
    requires HandlesOk(active, requests, phase) && idx < |active| && !q.Sending?
    ensures active[idx] < |requests| && 1 <= requests[active[idx]].partNumber <= |phase|
    ensures phase[requests[active[idx]].partNumber - 1] == Sending(active[idx])
    ensures HandlesOk(active[..idx] + active[idx + 1..], requests, phase[requests[active[idx]].partNumber - 1 := q])
  {
    RemainingDistinct(active, idx);
    RemainingStillSending(active, requests, phase, q, idx);
    SendingStillActive(active, requests, phase, q, idx);
  }

  /** `splice(k, 1)` at an index inside the list removes that element. */
  lemma SpliceAtFound(active: seq<Handle>, k: nat)
    requires k < |active|
    ensures JsArray.SpliceOne(active, k) == active[..k] + active[k + 1..]
  {
  }

  lemma RemainingDistinct(active: seq<Handle>, idx: nat)
    requires idx < |active| && JsArray.Distinct(active)
    ensures JsArray.Distinct(active[..idx] + active[idx + 1..])
  {
    JsArray.RemoveKeepsDistinct(active, idx);
  }

  /** The requests left active are still the in-flight attempts of their parts. */
  lemma RemainingStillSending(active: seq<Handle>, requests: seq<PartRequest>, phase: seq<Phase>,
                              q: Phase, idx: nat)
    requires JsArray.Distinct(active) && ActiveAreSending(active, requests, phase) && idx < |active|
    ensures active[idx] < |requests| && 1 <= requests[active[idx]].partNumber <= |phase|
    ensures ActiveAreSending(active[..idx] + active[idx + 1..], requests,
                             phase[requests[active[idx]].partNumber - 1 := q])
  {
    var h := active[idx];
    var n := requests[h].partNumber;
    var p' := phase[n - 1 := q];
    var a' := active[..idx] + active[idx + 1..];
    JsArray.RemoveAt(active, idx);
    forall k | 0 <= k < |a'|
      ensures a'[k] < |requests| && 1 <= requests[a'[k]].partNumber <= |p'| &&
              p'[requests[a'[k]].partNumber - 1] == Sending(a'[k])
    {
      var j := if k < idx then k else k + 1;
      OtherActiveStillSending(active, requests, phase, q, idx, j);
    }
  }

  /** Active request `j`, other than the one at `idx`, is for another part, so it stays in
      flight when part `n` changes phase. */
  lemma OtherActiveStillSending(active: seq<Handle>, requests: seq<PartRequest>, phase: seq<Phase>,
                                q: Phase, idx: nat, j: nat)
    requires JsArray.Distinct(active) && ActiveAreSending(active, requests, phase)
    requires idx < |active| && j < |active| && j != idx
    ensures active[idx] < |requests| && 1 <= requests[active[idx]].partNumber <= |phase|
    ensures var p' := phase[requests[active[idx]].partNumber - 1 := q];
      active[j] < |requests| && 1 <= requests[active[j]].partNumber <= |p'| &&
      p'[requests[active[j]].partNumber - 1] == Sending(active[j])
  {
    var m := requests[active[j]].partNumber;
    var n := requests[active[idx]].partNumber;
    assert phase[m - 1] == Sending(active[j]) && phase[n - 1] == Sending(active[idx]);
    assert active[j] != active[idx];
  }

  /** Every part still in flight keeps its request in the active list. */
  lemma SendingStillActive(active: seq<Handle>, requests: seq<PartRequest>, phase: seq<Phase>,
                           q: Phase, idx: nat)
    requires SendingAreActive(active, requests, phase) && idx < |active| && !q.Sending?
    requires active[idx] < |requests| && 1 <= requests[active[idx]].partNumber <= |phase|
    ensures SendingAreActive(active[..idx] + active[idx + 1..], requests,
                             phase[requests[active[idx]].partNumber - 1 := q])
  {
    var h := active[idx];
    var n := requests[h].partNumber;
    var p' := phase[n - 1 := q];
    var a' := active[..idx] + active[idx + 1..];
    JsArray.RemoveKeepsOthers(active, idx);
    forall i | 0 <= i < |p'| && p'[i].Sending?
      ensures p'[i].handle < |requests| && requests[p'[i].handle].partNumber == i + 1 && p'[i].handle in a'
    {
      assert i != n - 1 && p'[i] == phase[i];
      assert phase[i].handle != h;
    }
  }

  /** A part that leaves or keeps a phase other than Done keeps its empty slot. */
  lemma UndoneKeepsEtags(etags: seq<Option<ETag>>, phase: seq<Phase>, i: nat, q: Phase)
    requires EtagsOk(etags, phase) && i < |phase| && !phase[i].Done? && !q.Done?
    ensures EtagsOk(etags, phase[i := q])
  {
  }

  /** A success writes the part's ETag into its slot. */
  lemma SucceedKeepsEtags(etags: seq<Option<ETag>>, phase: seq<Phase>, n: nat, e: ETag)
    requires EtagsOk(etags, phase) && 1 <= n <= |phase|
    ensures EtagsOk(etags[n - 1 := Some(e)], phase[n - 1 := Done(e)])
  {
  }

  lemma SucceedKeepsAttempts(attempt: map<nat, int>, phase: seq<Phase>, tries: seq<nat>, r: nat, n: nat, e: ETag)
    requires AttemptsOk(attempt, phase, tries, r) && 1 <= n <= |phase| && phase[n - 1].Sending?
    ensures AttemptsOk(attempt, phase[n - 1 := Done(e)], tries, r)
  {
    var p' := phase[n - 1 := Done(e)];
    forall i | 0 <= i < |p'| ensures TriesMatch(p'[i], attempt[i + 1], tries[i], r) {
      if i != n - 1 { assert p'[i] == phase[i]; }
    }
  }

  lemma SucceedKeepsTimers(timers: map<nat, int>, attempt: map<nat, int>, phase: seq<Phase>,
                           backoff: Options.Backoff, n: nat, e: ETag)
    requires TimersOk(timers, attempt, phase, backoff) && 1 <= n <= |phase| && phase[n - 1].Sending?
    ensures TimersOk(timers, attempt, phase[n - 1 := Done(e)], backoff)
  {
    var p' := phase[n - 1 := Done(e)];
    forall i | 0 <= i < |p'| && p'[i].Waiting? ensures i + 1 in timers {
      assert i != n - 1 && p'[i] == phase[i];
    }
  }

  /** Replacing a part's phase by one that is not Failed, where it was not Failed, keeps the
      set of failed parts. */
  lemma ReplaceKeepsFailed(phase: seq<Phase>, i: nat, q: Phase)
    requires i < |phase| && !phase[i].Failed? && !q.Failed?
    ensures AnyFailed(phase[i := q]) == AnyFailed(phase)
  {
    var p' := phase[i := q];
    if AnyFailed(phase) {
      var j :| 0 <= j < |phase| && phase[j].Failed?;
      assert p'[j].Failed?;
    }
    if AnyFailed(p') {
      var j :| 0 <= j < |p'| && p'[j].Failed?;
      assert phase[j].Failed?;
    }
  }

  lemma SucceedKeepsSettle(outcome: Settlement, result: Settlement, aborted: seq<Handle>,
                           completed: Option<seq<Option<ETag>>>, phase: seq<Phase>, totalParts: nat, n: nat, e: ETag)
    requires SettleOk(outcome, result, aborted, completed, phase, totalParts)
    requires 1 <= n <= |phase| && phase[n - 1].Sending?
    ensures SettleOk(outcome, result, aborted, completed, phase[n - 1 := Done(e)], totalParts)
  {
    ReplaceKeepsFailed(phase, n - 1, Done(e));
    if outcome == Resolved {
      AllDone(phase);
    }
  }

  /** A failure with retries left: the part waits for its timer with its counter increased. */
  lemma RetryKeepsAttempts(attempt: map<nat, int>, phase: seq<Phase>, tries: seq<nat>, r: int, n: nat)
    requires AttemptsOk(attempt, phase, tries, Max0(r)) && 1 <= n <= |phase| && phase[n - 1].Sending?
    requires attempt[n] < r
    ensures AttemptsOk(attempt[n := attempt[n] + 1], phase[n - 1 := Waiting], tries, Max0(r))
  {
    var a' := attempt[n := attempt[n] + 1];
    var p' := phase[n - 1 := Waiting];
    forall i | 0 <= i < |p'| ensures TriesMatch(p'[i], a'[i + 1], tries[i], Max0(r)) {
      if i != n - 1 { assert p'[i] == phase[i] && a'[i + 1] == attempt[i + 1]; }
    }
  }

  lemma RetryKeepsTimers(timers: map<nat, int>, attempt: map<nat, int>, phase: seq<Phase>,
                         backoff: Options.Backoff, n: nat)
    requires TimersOk(timers, attempt, phase, backoff) && 1 <= n <= |phase| && n in attempt
    ensures TimersOk(timers[n := Options.RetryDelay(backoff, attempt[n] + 1)], attempt[n := attempt[n] + 1],
                     phase[n - 1 := Waiting], backoff)
  {
  }

  lemma RetryKeepsSettle(outcome: Settlement, result: Settlement, aborted: seq<Handle>,
                         completed: Option<seq<Option<ETag>>>, phase: seq<Phase>, totalParts: nat, n: nat)
    requires SettleOk(outcome, result, aborted, completed, phase, totalParts)
    requires 1 <= n <= |phase| && phase[n - 1].Sending?
    ensures SettleOk(outcome, result, aborted, completed, phase[n - 1 := Waiting], totalParts)
  {
    ReplaceKeepsFailed(phase, n - 1, Waiting);
    CountDoneUpdate(phase, n - 1, Waiting);
    if outcome == Resolved {
      AllDone(phase);
    }
  }

  /** A failure with no retries left: the part failed after exactly `retries + 1` attempts. */
  lemma GiveUpKeepsAttempts(attempt: map<nat, int>, phase: seq<Phase>, tries: seq<nat>, r: int, n: nat)
    requires AttemptsOk(attempt, phase, tries, Max0(r)) && 1 <= n <= |phase| && phase[n - 1].Sending?
    requires attempt[n] >= r
    ensures AttemptsOk(attempt[n := attempt[n] + 1], phase[n - 1 := Failed], tries, Max0(r))
    ensures tries[n - 1] == Max0(r) + 1
  {
    var a' := attempt[n := attempt[n] + 1];
    var p' := phase[n - 1 := Failed];
    assert TriesMatch(phase[n - 1], attempt[n], tries[n - 1], Max0(r));
    forall i | 0 <= i < |p'| ensures TriesMatch(p'[i], a'[i + 1], tries[i], Max0(r)) {
      if i != n - 1 { assert p'[i] == phase[i] && a'[i + 1] == attempt[i + 1]; }
    }
  }

  lemma GiveUpKeepsTimers(timers: map<nat, int>, attempt: map<nat, int>, phase: seq<Phase>,
                          backoff: Options.Backoff, n: nat)
    requires TimersOk(timers, attempt, phase, backoff) && 1 <= n <= |phase| && phase[n - 1].Sending?
    requires n in attempt
    ensures TimersOk(timers, attempt[n := attempt[n] + 1], phase[n - 1 := Failed], backoff)
  {
    var p' := phase[n - 1 := Failed];
    forall i | 0 <= i < |p'| && p'[i].Waiting? ensures i + 1 in timers {
      assert i != n - 1 && p'[i] == phase[i];
    }
  }

  lemma GiveUpKeepsSettle(outcome: Settlement, result: Settlement, aborted: seq<Handle>,
                          completed: Option<seq<Option<ETag>>>, phase: seq<Phase>, totalParts: nat, n: nat, err: Error)
    requires SettleOk(outcome, result, aborted, completed, phase, totalParts)
    requires 1 <= n <= |phase| && phase[n - 1].Sending?
    ensures SettleOk(if outcome == Pending then Rejected(err) else outcome, result, aborted, completed,
                     phase[n - 1 := Failed], totalParts)
  {
    var p' := phase[n - 1 := Failed];
    assert p'[n - 1].Failed?;
    CountDoneUpdate(phase, n - 1, Failed);
    if outcome == Resolved {
      AllDone(phase);
    }
  }

  // ---------------------------------------------------------------------------------------
  // A retry timer firing: `tryUpload` makes a new request for the waiting part.

  lemma RefireKeepsEtags(etags: seq<Option<ETag>>, phase: seq<Phase>, n: nat, h: Handle)
    requires EtagsOk(etags, phase) && 1 <= n <= |phase| && phase[n - 1].Waiting?
    ensures EtagsOk(etags, phase[n - 1 := Sending(h)])
  {
  }

  lemma RefireKeepsRequests(requests: seq<PartRequest>, claimed: nat, size: nat, partSize: nat, n: nat)
    requires RequestsOk(requests, claimed, size, partSize) && 1 <= n <= claimed
    ensures RequestsOk(requests + [PartRequest(n, Parts.PartLength(size, partSize, n))], claimed, size, partSize)
  {
  }

  lemma RefireKeepsCounts(tries: seq<nat>, requests: seq<PartRequest>, n: nat, len: nat)
    requires TriesCounted(tries, requests) && 1 <= n <= |tries|
    ensures TriesCounted(tries[n - 1 := tries[n - 1] + 1], requests + [PartRequest(n, len)])
  {
    var t' := tries[n - 1 := tries[n - 1] + 1];
    forall i | 0 <= i < |t'| ensures t'[i] == CountFor(requests + [PartRequest(n, len)], i + 1) {
      CountForAppend(requests, PartRequest(n, len), i + 1);
    }
  }

  lemma RefireKeepsHandles(active: seq<Handle>, requests: seq<PartRequest>, phase: seq<Phase>, n: nat, len: nat)
    requires HandlesOk(active, requests, phase) && 1 <= n <= |phase| && phase[n - 1].Waiting?
    ensures HandlesOk(active + [|requests|], requests + [PartRequest(n, len)], phase[n - 1 := Sending(|requests|)])
  {
    var h := |requests|;
    var a', r', p' := active + [h], requests + [PartRequest(n, len)], phase[n - 1 := Sending(h)];
    assert h !in active;
    forall k | 0 <= k < |a'|
      ensures a'[k] < |r'| && 1 <= r'[a'[k]].partNumber <= |p'| && p'[r'[a'[k]].partNumber - 1] == Sending(a'[k])
    {
      if k < |active| {
        assert a'[k] == active[k];
        assert r'[active[k]] == requests[active[k]];
        assert requests[active[k]].partNumber != n;
      }
    }
    forall i | 0 <= i < |p'| && p'[i].Sending?
      ensures p'[i].handle < |r'| && r'[p'[i].handle].partNumber == i + 1 && p'[i].handle in a'
    {
      if i != n - 1 {
        assert p'[i] == phase[i];
        assert r'[phase[i].handle] == requests[phase[i].handle];
      }
    }
  }

  lemma RefireKeepsAttempts(attempt: map<nat, int>, phase: seq<Phase>, tries: seq<nat>, r: nat, n: nat, h: Handle)
    requires AttemptsOk(attempt, phase, tries, r) && 1 <= n <= |phase| && phase[n - 1].Waiting?
    ensures AttemptsOk(attempt, phase[n - 1 := Sending(h)], tries[n - 1 := tries[n - 1] + 1], r)
  {
    var p' := phase[n - 1 := Sending(h)];
    var t' := tries[n - 1 := tries[n - 1] + 1];
    assert TriesMatch(phase[n - 1], attempt[n], tries[n - 1], r);
    forall i | 0 <= i < |p'| ensures TriesMatch(p'[i], attempt[i + 1], t'[i], r) {
      if i != n - 1 { assert p'[i] == phase[i] && t'[i] == tries[i]; }
    }
  }

  lemma RefireKeepsTimers(timers: map<nat, int>, attempt: map<nat, int>, phase: seq<Phase>,
                          backoff: Options.Backoff, n: nat, h: Handle)
    requires TimersOk(timers, attempt, phase, backoff) && 1 <= n <= |phase| && phase[n - 1].Waiting?
    ensures TimersOk(timers - {n}, attempt, phase[n - 1 := Sending(h)], backoff)
  {
    var p' := phase[n - 1 := Sending(h)];
    forall i | 0 <= i < |p'| && p'[i].Waiting? ensures i + 1 in timers - {n} {
      assert i != n - 1 && p'[i] == phase[i];
    }
  }

  lemma RefireKeepsSettle(outcome: Settlement, result: Settlement, aborted: seq<Handle>,
                          completed: Option<seq<Option<ETag>>>, phase: seq<Phase>, totalParts: nat, n: nat, h: Handle)
    requires SettleOk(outcome, result, aborted, completed, phase, totalParts)
    requires 1 <= n <= |phase| && phase[n - 1].Waiting?
    ensures SettleOk(outcome, result, aborted, completed, phase[n - 1 := Sending(h)], totalParts)
  {
    ReplaceKeepsFailed(phase, n - 1, Sending(h));
    CountDoneUpdate(phase, n - 1, Sending(h));
    if outcome == Resolved {
      AllDone(phase);
    }
  }

  // ---------------------------------------------------------------------------------------
  // Consequences of the invariant.

  /** Once every part is done, no request is active and no timer is pending. */
  lemma AllDoneMeansIdle(active: seq<Handle>, requests: seq<PartRequest>, timers: map<nat, int>,
                         attempt: map<nat, int>, phase: seq<Phase>, backoff: Options.Backoff)
    requires HandlesOk(active, requests, phase) && TimersOk(timers, attempt, phase, backoff)
    requires CountDone(phase) == |phase|
    ensures active == [] && timers == map[]
  {
    AllDone(phase);
    DoneAndOutstanding(phase);
    ActiveWithinOutstanding(active, requests, phase);
    assert forall n :: n !in timers;
    assert timers.Keys == {};
  }

  /** The part index of each active request, in the order of `active`. */
  function PartIndices(active: seq<Handle>, requests: seq<PartRequest>): (r: seq<int>)
    ensures |r| == |active|
    ensures forall k :: 0 <= k < |active| && active[k] < |requests| ==> r[k] == requests[active[k]].partNumber - 1
  {
    seq(|active|, k => if 0 <= k < |active| && active[k] < |requests| then requests[active[k]].partNumber - 1 else 0)
  }

  /** There are no more active requests than parts in flight or waiting for a retry. */
  lemma ActiveWithinOutstanding(active: seq<Handle>, requests: seq<PartRequest>, phase: seq<Phase>)
    requires HandlesOk(active, requests, phase)
    ensures |active| <= CountOutstanding(phase)
  {
    var parts := PartIndices(active, requests);
    forall j, k | 0 <= j < k < |parts| ensures parts[j] != parts[k] {
      assert active[j] != active[k];
    }
    OutstandingCoversParts(phase, parts);
  }

  /** Two active requests are never for the same part. */
  lemma OneRequestPerPart(active: seq<Handle>, requests: seq<PartRequest>, phase: seq<Phase>, j: nat, k: nat)
    requires HandlesOk(active, requests, phase) && j < |active| && k < |active|
    requires requests[active[j]].partNumber == requests[active[k]].partNumber
    ensures j == k
  {
    assert active[j] == active[k];
  }
}
