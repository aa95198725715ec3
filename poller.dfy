/**
 * `wait_for_completion`: poll the job-status endpoint at a fixed interval until the job
 * reports a terminal or unrecognised status, or until the wait budget is used up.
 *
 * The clock and the network are injected. `start` is the clock reading taken before the
 * loop; each `Event` is one pass of the loop: the clock reading of its deadline check,
 * paired with what the status request produced (a request error, or a parsed body).
 */
module Poller {
  import opened Wrappers

  const DefaultCheckInterval := 10
  const DefaultMaxWaitTime := 1800
  const UnknownError := "Unknown error"

  /** The `output` object of a status body; only its `image` field is read. */
  datatype Output = Output(image: Option<string>)

  /** The fields of a status response body that the client reads (None: key absent). */
  datatype StatusBody = StatusBody(status: Option<string>, output: Option<Output>, error: Option<string>)

  /** Outcome of one status request: it raised a request exception, or it returned a body. */
  datatype Reply = RequestError | Response(body: StatusBody)

  datatype Event = Event(now: real, reply: Reply)

  /** The dictionary `wait_for_completion` returns, one constructor per `status` value. */
  datatype JobResult =
    | Completed(output: Option<Output>, jobId: string)
    | Failed(error: string, jobId: string)
    | Unknown(data: StatusBody, jobId: string)
    | Timeout(jobId: string)

  /** How the loop treats a reported status. */
  datatype StatusClass = CompletedStatus | FailedStatus | PendingStatus | OtherStatus

  function Classify(status: Option<string>): (c: StatusClass)
    ensures c == CompletedStatus <==> status == Some("COMPLETED")
    ensures c == FailedStatus <==> status == Some("FAILED")
    ensures c == PendingStatus <==> status == Some("IN_QUEUE") || status == Some("IN_PROGRESS")
    ensures c == OtherStatus <==> status !in {Some("COMPLETED"), Some("FAILED"), Some("IN_QUEUE"), Some("IN_PROGRESS")}
  {
    match status
    case Some("COMPLETED") => CompletedStatus
    case Some("FAILED") => FailedStatus
    case Some("IN_QUEUE") => PendingStatus
    case Some("IN_PROGRESS") => PendingStatus
    case _ => OtherStatus
  }

  /** The loop condition `now - start < max_wait_time` no longer holds. */
  predicate Expired(start: real, maxWaitTime: int, now: real) {
    now - start >= maxWaitTime as real
  }

  /** A pass of the loop that ends in a sleep and another deadline check. */
  predicate IsRetry(start: real, maxWaitTime: int, e: Event) {
    !Expired(start, maxWaitTime, e.now) &&
    (e.reply.RequestError? || Classify(e.reply.body.status) == PendingStatus)
  }

  /** The trace reaches a pass at which the loop returns. */
  predicate Stops(start: real, maxWaitTime: int, events: seq<Event>) {
    exists i :: 0 <= i < |events| && !IsRetry(start, maxWaitTime, events[i])
  }

  lemma StopsTail(start: real, maxWaitTime: int, events: seq<Event>)
    requires Stops(start, maxWaitTime, events)
    requires IsRetry(start, maxWaitTime, events[0])
    ensures Stops(start, maxWaitTime, events[1..])
  {
    var i :| 0 <= i < |events| && !IsRetry(start, maxWaitTime, events[i]);
    assert events[1..][i - 1] == events[i];
  }

  /** Index of the pass at which the loop returns: the first one that is not a retry. */
  function StopIndex(start: real, maxWaitTime: int, events: seq<Event>): (k: nat)
    requires Stops(start, maxWaitTime, events)
    ensures k < |events| && !IsRetry(start, maxWaitTime, events[k])
    ensures forall j :: 0 <= j < k ==> IsRetry(start, maxWaitTime, events[j])
    decreases |events|
  {
    if !IsRetry(start, maxWaitTime, events[0]) then 0
    else
      StopsTail(start, maxWaitTime, events);
      1 + StopIndex(start, maxWaitTime, events[1..])
  }

  /** The result returned at a pass that is not a retry. */
  function Settle(jobId: string, start: real, maxWaitTime: int, e: Event): (r: JobResult)
    requires !IsRetry(start, maxWaitTime, e)
    ensures r.jobId == jobId
    ensures r.Timeout? <==> Expired(start, maxWaitTime, e.now)
  {
    if Expired(start, maxWaitTime, e.now) then Timeout(jobId)
    else
      var body := e.reply.body;
      if Classify(body.status) == CompletedStatus then Completed(body.output, jobId)
      else if Classify(body.status) == FailedStatus then Failed(body.error.GetOr(UnknownError), jobId)
      else Unknown(body, jobId)
  }

  /** What `wait_for_completion(job_id, interval, max_wait_time)` returns on this trace. */
  function Poll(jobId: string, start: real, maxWaitTime: int, events: seq<Event>): (r: JobResult)
    requires Stops(start, maxWaitTime, events)
    ensures r.jobId == jobId
    ensures var e := events[StopIndex(start, maxWaitTime, events)];
      && (r.Timeout? <==> Expired(start, maxWaitTime, e.now))
      && (r.Completed? <==> !Expired(start, maxWaitTime, e.now) && e.reply.Response? && e.reply.body.status == Some("COMPLETED"))
      && (r.Completed? ==> r.output == e.reply.body.output)
      && (r.Failed? <==> !Expired(start, maxWaitTime, e.now) && e.reply.Response? && e.reply.body.status == Some("FAILED"))
      && (r.Failed? ==> r.error == e.reply.body.error.GetOr(UnknownError))
      && (r.Unknown? <==> !Expired(start, maxWaitTime, e.now) && e.reply.Response? && Classify(e.reply.body.status) == OtherStatus)
      && (r.Unknown? ==> r.data == e.reply.body)
  {
    Settle(jobId, start, maxWaitTime, events[StopIndex(start, maxWaitTime, events)])
  }

  /**
   * The largest whole number of seconds `time.sleep` accepts: CPython converts the interval to
   * a signed 64-bit count of nanoseconds, and 2^63 - 1 ns is 9223372036.854775807 s.
   */
  const MaxSleepSeconds := 9223372036

  /**
   * Whether `time.sleep(interval)` sleeps. A negative interval raises ValueError; one whose
   * nanosecond count does not fit in 64 bits, at either end, raises OverflowError.
   */
  predicate SleepAccepts(interval: int) {
    0 <= interval <= MaxSleepSeconds
  }

  /**
   * How a call of `wait_for_completion` ends: it returns a result dictionary, or `time.sleep`
   * raises on an interval it does not accept. Neither ValueError nor OverflowError is a request
   * exception, so the error leaves the loop and the call.
   */
  datatype Outcome = Returned(result: JobResult) | SleepRaised

  /** What `wait_for_completion(job_id, check_interval, max_wait_time)` does on this trace. */
  function PollOutcome(jobId: string, checkInterval: int, start: real, maxWaitTime: int, events: seq<Event>): (o: Outcome)
    requires Stops(start, maxWaitTime, events)
    ensures o.SleepRaised? ==> !SleepAccepts(checkInterval)
    ensures SleepAccepts(checkInterval) ==> o == Returned(Poll(jobId, start, maxWaitTime, events))
    ensures o.Returned? ==> o.result == Poll(jobId, start, maxWaitTime, events)
  {
    if !SleepAccepts(checkInterval) && StopIndex(start, maxWaitTime, events) > 0 then SleepRaised
    else Returned(Poll(jobId, start, maxWaitTime, events))
  }

  /**
   * The interval matters only through `time.sleep`: a call raises exactly when `time.sleep`
   * rejects the interval and the first pass is a retry; otherwise it returns the result `Poll`
   * specifies.
   */
  lemma PollOutcomeCases(jobId: string, checkInterval: int, start: real, maxWaitTime: int, events: seq<Event>)
    requires Stops(start, maxWaitTime, events)
    ensures PollOutcome(jobId, checkInterval, start, maxWaitTime, events).SleepRaised? <==>
      !SleepAccepts(checkInterval) && IsRetry(start, maxWaitTime, events[0])
    ensures PollOutcome(jobId, checkInterval, start, maxWaitTime, events).Returned? ==>
      PollOutcome(jobId, checkInterval, start, maxWaitTime, events).result == Poll(jobId, start, maxWaitTime, events)
  {
    var k := StopIndex(start, maxWaitTime, events);
    if k > 0 {
      assert IsRetry(start, maxWaitTime, events[0]);
    }
  }

  /**
   * An interval of 10**10 seconds is past what `time.sleep` accepts: a request error on the
   * first pass ends the call with the sleep's error, though a COMPLETED reply would follow.
   * The largest accepted interval sleeps and the loop goes on to that reply.
   */
  lemma HugeIntervalRaises(jobId: string)
    ensures var events := [Event(0.0, RequestError), Event(1.0, Response(StatusBody(Some("COMPLETED"), None, None)))];
      && Stops(0.0, DefaultMaxWaitTime, events)
      && PollOutcome(jobId, 10000000000, 0.0, DefaultMaxWaitTime, events) == SleepRaised
      && PollOutcome(jobId, MaxSleepSeconds, 0.0, DefaultMaxWaitTime, events) == Returned(Completed(None, jobId))
  {
    var events := [Event(0.0, RequestError), Event(1.0, Response(StatusBody(Some("COMPLETED"), None, None)))];
    StopIndexIsFirst(0.0, DefaultMaxWaitTime, events, 1);
  }

  /**
   * The polling loop. Besides the outcome it reports how many deadline checks it made
   * (events consumed) and the sleeps it completed, in order.
   */
  method WaitForCompletion(jobId: string, checkInterval: int, maxWaitTime: int, start: real, events: seq<Event>)
    returns (r: Outcome, checks: nat, sleeps: seq<int>)
    requires Stops(start, maxWaitTime, events)
    ensures r == PollOutcome(jobId, checkInterval, start, maxWaitTime, events)
    ensures r.Returned? ==> checks == StopIndex(start, maxWaitTime, events) + 1 && |sleeps| == checks - 1
    ensures r.SleepRaised? ==> checks == 1 && sleeps == []
    ensures forall k :: 0 <= k < |sleeps| ==> sleeps[k] == checkInterval && SleepAccepts(sleeps[k])
  {
    ghost var stop := StopIndex(start, maxWaitTime, events);
    var i := 0;
    sleeps := [];
    while events[i].now - start < maxWaitTime as real
      invariant 0 <= i <= stop
      invariant |sleeps| == i
      invariant !SleepAccepts(checkInterval) ==> i == 0
      invariant forall k :: 0 <= k < i ==> sleeps[k] == checkInterval && SleepAccepts(sleeps[k])
      decreases stop - i
    {
      match events[i].reply {
        case RequestError =>
          if !SleepAccepts(checkInterval) {
            r, checks := SleepRaised, i + 1;
            return;
          }
          sleeps := sleeps + [checkInterval];
        case Response(body) =>
          var status := body.status;
          if status == Some("COMPLETED") {
            r, checks := Returned(Completed(body.output, jobId)), i + 1;
            return;
          } else if status == Some("FAILED") {
            r, checks := Returned(Failed(body.error.GetOr(UnknownError), jobId)), i + 1;
            return;
          } else if status == Some("IN_QUEUE") || status == Some("IN_PROGRESS") {
            if !SleepAccepts(checkInterval) {
              r, checks := SleepRaised, i + 1;
              return;
            }
            sleeps := sleeps + [checkInterval];
          } else {
            r, checks := Returned(Unknown(body, jobId)), i + 1;
            return;
          }
      }
      i := i + 1;
    }
    r, checks := Returned(Timeout(jobId)), i + 1;
  }

  /** The first pass that is not a retry is the one StopIndex finds. */
  lemma StopIndexIsFirst(start: real, maxWaitTime: int, events: seq<Event>, k: nat)
    requires k < |events| && !IsRetry(start, maxWaitTime, events[k])
    requires forall j :: 0 <= j < k ==> IsRetry(start, maxWaitTime, events[j])
    ensures Stops(start, maxWaitTime, events)
    ensures StopIndex(start, maxWaitTime, events) == k
  {
  }

  /**
   * Retries decide nothing: however many request errors and IN_QUEUE/IN_PROGRESS
   * responses come first, the result is the one the rest of the trace gives.
   */
  lemma RetriesDoNotDecide(jobId: string, start: real, maxWaitTime: int, retries: seq<Event>, rest: seq<Event>)
    requires forall j :: 0 <= j < |retries| ==> IsRetry(start, maxWaitTime, retries[j])
    requires Stops(start, maxWaitTime, rest)
    ensures Stops(start, maxWaitTime, retries + rest)
    ensures StopIndex(start, maxWaitTime, retries + rest) == |retries| + StopIndex(start, maxWaitTime, rest)
    ensures Poll(jobId, start, maxWaitTime, retries + rest) == Poll(jobId, start, maxWaitTime, rest)
  {
    var all := retries + rest;
    var k := StopIndex(start, maxWaitTime, rest);
    assert all[|retries| + k] == rest[k];
    forall j | 0 <= j < |retries| + k
      ensures IsRetry(start, maxWaitTime, all[j])
    {
      if j < |retries| {
        assert all[j] == retries[j];
      } else {
        assert all[j] == rest[j - |retries|];
      }
    }
    StopIndexIsFirst(start, maxWaitTime, all, |retries| + k);
  }

  /**
   * The loop returns on the first response that is neither IN_QUEUE nor IN_PROGRESS,
   * provided the deadline has not passed: COMPLETED carries the output, FAILED the
   * reported error or "Unknown error", any other status (or none) the raw body.
   */
  lemma FirstDecisiveResponse(jobId: string, start: real, maxWaitTime: int, events: seq<Event>, k: nat, body: StatusBody)
    requires k < |events| && events[k].reply == Response(body)
    requires !Expired(start, maxWaitTime, events[k].now)
    requires body.status != Some("IN_QUEUE") && body.status != Some("IN_PROGRESS")
    requires forall j :: 0 <= j < k ==> IsRetry(start, maxWaitTime, events[j])
    ensures Stops(start, maxWaitTime, events)
    ensures body.status == Some("COMPLETED") ==> Poll(jobId, start, maxWaitTime, events) == Completed(body.output, jobId)
    ensures body.status == Some("FAILED") ==> Poll(jobId, start, maxWaitTime, events) == Failed(body.error.GetOr("Unknown error"), jobId)
    ensures body.status != Some("COMPLETED") && body.status != Some("FAILED") ==>
      Poll(jobId, start, maxWaitTime, events) == Unknown(body, jobId)
  {
    StopIndexIsFirst(start, maxWaitTime, events, k);
  }

  /** The deadline check at pass `k` fails and every earlier pass was a retry. */
  predicate DeadlineFirstAt(start: real, maxWaitTime: int, events: seq<Event>, k: nat)
    requires k < |events|
  {
    Expired(start, maxWaitTime, events[k].now) &&
    forall j :: 0 <= j < k ==> IsRetry(start, maxWaitTime, events[j])
  }

  /** The result is TIMEOUT exactly when the deadline check fails before any decisive response. */
  lemma TimeoutExactlyWhenDeadlineFirst(jobId: string, start: real, maxWaitTime: int, events: seq<Event>)
    requires Stops(start, maxWaitTime, events)
    ensures Poll(jobId, start, maxWaitTime, events) == Timeout(jobId) <==>
      exists k :: 0 <= k < |events| && DeadlineFirstAt(start, maxWaitTime, events, k)
  {
    var s := StopIndex(start, maxWaitTime, events);
    if Poll(jobId, start, maxWaitTime, events) == Timeout(jobId) {
      assert DeadlineFirstAt(start, maxWaitTime, events, s);
    }
    if k :| 0 <= k < |events| && DeadlineFirstAt(start, maxWaitTime, events, k) {
      StopIndexIsFirst(start, maxWaitTime, events, k);
    }
  }

  /** A trace of request errors, all before the deadline, at the given clock readings. */
  function RequestErrors(times: seq<real>): seq<Event> {
    seq(|times|, k requires 0 <= k < |times| => Event(times[k], RequestError))
  }

  /** Transient request errors are not fatal: N of them followed by COMPLETED still complete. */
  lemma ErrorsThenCompleted(jobId: string, start: real, maxWaitTime: int, times: seq<real>, done: real, body: StatusBody)
    requires forall k :: 0 <= k < |times| ==> !Expired(start, maxWaitTime, times[k])
    requires !Expired(start, maxWaitTime, done)
    requires body.status == Some("COMPLETED")
    ensures Stops(start, maxWaitTime, RequestErrors(times) + [Event(done, Response(body))])
    ensures Poll(jobId, start, maxWaitTime, RequestErrors(times) + [Event(done, Response(body))]) ==
      Completed(body.output, jobId)
  {
    var errors := RequestErrors(times);
    var last := [Event(done, Response(body))];
    assert forall j :: 0 <= j < |errors| ==> IsRetry(start, maxWaitTime, errors[j]);
    StopIndexIsFirst(start, maxWaitTime, last, 0);
    RetriesDoNotDecide(jobId, start, maxWaitTime, errors, last);
  }

  /** Once the deadline check fails, the result is TIMEOUT, however many retries preceded it. */
  lemma TimeoutAfterRetries(jobId: string, start: real, maxWaitTime: int, retries: seq<Event>, e: Event)
    requires forall j :: 0 <= j < |retries| ==> IsRetry(start, maxWaitTime, retries[j])
    requires Expired(start, maxWaitTime, e.now)
    ensures Stops(start, maxWaitTime, retries + [e])
    ensures Poll(jobId, start, maxWaitTime, retries + [e]) == Timeout(jobId)
  {
    StopIndexIsFirst(start, maxWaitTime, [e], 0);
    RetriesDoNotDecide(jobId, start, maxWaitTime, retries, [e]);
  }
}
