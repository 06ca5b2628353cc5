/**
 * The background worker that polls every in-flight bulk job and resolves it:
 * progress (the remote counters are copied onto the job), completion (results
 * and errors are written to their requests and the job outcome is classified
 * by the two counters) or job-level failure (each member is re-queued while
 * it has retries left, otherwise failed). One call of `PollBatchResults` is
 * one iteration of its service loop.
 */
module BatchResultPollingWorker {
  import opened Wrappers
  import opened Enums
  import opened Entities
  import opened Settings
  import opened Sequences
  import opened DocumentRequests
  import opened BatchJobs
  import opened BatchLlmService

  /** One notification handed to the callback notifier: the URL, the request id and its result. */
  datatype Callback = Callback(url: string, requestId: string, result: string)

  /** The stores after resolving jobs, the callbacks sent, and how the scan ended. */
  datatype Poll = Poll(docs: seq<DocumentRequest>, jobs: seq<BatchJob>, callbacks: set<Callback>, outcome: Outcome)

  // ---------------------------------------------------------------------------
  // Completion
  // ---------------------------------------------------------------------------

  /** The job outcome after completion, from the two counters. */
  function JobOutcome(completed: nat, failed: nat): (s: BatchJobStatus)
    ensures s == BatchJobStatus.PartiallyCompleted <==> completed > 0 && failed > 0
    ensures s == BatchJobStatus.Failed <==> completed == 0 && failed > 0
    ensures s == BatchJobStatus.Completed <==> failed == 0
  {
    if failed > 0 && completed > 0 then BatchJobStatus.PartiallyCompleted
    else if failed > 0 then BatchJobStatus.Failed
    else BatchJobStatus.Completed
  }

  /** The store after `UpdateResultAsync` for every entry of the results map. */
  function StoreResults(docs: seq<DocumentRequest>, results: map<string, string>, now: Time): (res: seq<DocumentRequest>)
    ensures |res| == |docs|
    ensures forall i :: 0 <= i < |docs| ==> res[i] == if docs[i].id in results then WithResult(docs[i], results[docs[i].id], now) else docs[i]
  {
    seq(|docs|, i requires 0 <= i < |docs| => if docs[i].id in results then WithResult(docs[i], results[docs[i].id], now) else docs[i])
  }

  /** The store after `UpdateStatusAsync(id, Failed, message)` for every entry of the errors map. */
  function StoreErrors(docs: seq<DocumentRequest>, errors: map<string, string>, now: Time): (res: seq<DocumentRequest>)
    ensures |res| == |docs|
    ensures forall i :: 0 <= i < |docs| ==>
      res[i] == if docs[i].id in errors then WithStatus(docs[i], ProcessingStatus.Failed, Some(errors[docs[i].id]), now) else docs[i]
  {
    seq(|docs|, i requires 0 <= i < |docs| =>
      if docs[i].id in errors then WithStatus(docs[i], ProcessingStatus.Failed, Some(errors[docs[i].id]), now) else docs[i])
  }

  /** The stored request with this id has a callback URL. */
  predicate HasCallback(docs: seq<DocumentRequest>, id: string) {
    FindById(docs, id).Some? && FindById(docs, id).value.callbackUrl.Some?
  }

  /** The callbacks sent for a results map: one per result whose stored request has a callback URL. */
  function Callbacks(docs: seq<DocumentRequest>, results: map<string, string>): set<Callback> {
    set id | id in results && HasCallback(docs, id) :: Callback(FindById(docs, id).value.callbackUrl.value, id, results[id])
  }

  /** The job after completion: outcome, counters and `CompletedAt`. */
  function CompletedJob(job: BatchJob, result: BatchResult, now: Time): (u: BatchJob)
    ensures u.completedRequests == |result.results| && u.failedRequests == |result.errors|
    ensures u.status == JobOutcome(|result.results|, |result.errors|) && u.completedAt == Some(now)
    ensures u.(status := job.status, completedAt := job.completedAt, completedRequests := job.completedRequests,
               failedRequests := job.failedRequests) == job
  {
    var completedCount := |result.results|;
    var failedCount := |result.errors|;
    job.(status := JobOutcome(completedCount, failedCount), completedAt := Some(now),
         completedRequests := completedCount, failedRequests := failedCount)
  }

  /** `HandleCompletedBatchAsync`: results, then errors, then the job. */
  function CompleteJob(docs: seq<DocumentRequest>, jobs: seq<BatchJob>, job: BatchJob, result: BatchResult, now: Time): Poll {
    Poll(StoreErrors(StoreResults(docs, result.results, now), result.errors, now),
         ReplaceJob(jobs, CompletedJob(job, result, now)),
         Callbacks(docs, result.results),
         Pass)
  }

  /** `HandleCompletedBatchAsync` with its result request: a failed request changes nothing and is the outcome. */
  function CompletedBatch(docs: seq<DocumentRequest>, jobs: seq<BatchJob>, job: BatchJob, view: Result<RemoteBatch>, now: Time): Poll
    requires job.openAiBatchId.Some?
  {
    match BatchResultOf(job.openAiBatchId.value, view)
    case Err(e) => Poll(docs, jobs, {}, Fail(e))
    case Ok(result) => CompleteJob(docs, jobs, job, result, now)
  }

  /**
   * Completion, request by request: an id in Results only becomes Completed
   * with its result; an id in Errors becomes Failed with its message (keeping
   * the result when it is in both maps); an id in neither is untouched, so a
   * BatchSubmitted member stays BatchSubmitted.
   */
  lemma CompletionEffect(docs: seq<DocumentRequest>, jobs: seq<BatchJob>, job: BatchJob, result: BatchResult, now: Time, i: int)
    requires 0 <= i < |docs|
    ensures var res := CompleteJob(docs, jobs, job, result, now).docs;
      var id := docs[i].id;
      && |res| == |docs|
      && (id in result.results && id !in result.errors ==>
            res[i].status == ProcessingStatus.Completed && res[i].result == Some(result.results[id]) && res[i].completedAt == Some(now))
      && (id in result.errors ==>
            res[i].status == ProcessingStatus.Failed && res[i].errorMessage == Some(result.errors[id]) && res[i].completedAt == Some(now))
      && (id in result.results && id in result.errors ==> res[i].result == Some(result.results[id]))
      && (id !in result.results && id !in result.errors ==> res[i] == docs[i])
  {
  }

  /** A completion with no result and no error leaves every request alone and marks the job Completed with zero counters. */
  lemma EmptyCompletionIsCompleted(docs: seq<DocumentRequest>, jobs: seq<BatchJob>, job: BatchJob, result: BatchResult, now: Time)
    requires result.results == map[] && result.errors == map[]
    ensures var p := CompleteJob(docs, jobs, job, result, now);
      && p.docs == docs && p.callbacks == {}
      && CompletedJob(job, result, now).status == BatchJobStatus.Completed
      && CompletedJob(job, result, now).completedRequests == 0 && CompletedJob(job, result, now).failedRequests == 0
  {
    assert StoreResults(docs, result.results, now) == docs;
    assert StoreErrors(docs, result.errors, now) == docs;
  }

  /**
   * A callback is sent exactly for the results whose request is stored with a
   * callback URL, and by then the stored request already carries that result.
   */
  lemma CallbackAfterResult(docs: seq<DocumentRequest>, jobs: seq<BatchJob>, job: BatchJob, result: BatchResult, now: Time, c: Callback)
    ensures var after := StoreResults(docs, result.results, now);
      c in CompleteJob(docs, jobs, job, result, now).callbacks <==>
        && c.requestId in result.results && c.result == result.results[c.requestId]
        && FindById(after, c.requestId).Some?
        && FindById(after, c.requestId).value.callbackUrl == Some(c.url)
        && FindById(after, c.requestId).value.result == Some(c.result)
  {
    var after := StoreResults(docs, result.results, now);
    var id := c.requestId;
    FindByIdSamePlace(docs, after, id);
    if FindById(docs, id).Some? {
      var i :| 0 <= i < |docs| && FindById(docs, id) == Some(docs[i]) && FindById(after, id) == Some(after[i]);
      assert docs[i].id == id;
    }
  }

  // ---------------------------------------------------------------------------
  // Job-level failure
  // ---------------------------------------------------------------------------

  /** A member put back in the queue for another attempt. */
  function Retried(r: DocumentRequest, now: Time): (u: DocumentRequest)
    ensures u.status == Queued && u.batchId.None? && u.retryCount == r.retryCount + 1 && u.updatedAt == now
    ensures u.(status := r.status, batchId := r.batchId, retryCount := r.retryCount, updatedAt := r.updatedAt) == r
  {
    r.(status := Queued, batchId := None, retryCount := r.retryCount + 1, updatedAt := now)
  }

  /** One member of a failed job: retried while it exists and has retries left, otherwise failed with the job's message. */
  function FailOne(docs: seq<DocumentRequest>, id: string, maxRetry: int, message: string, now: Time): seq<DocumentRequest> {
    var request := FindById(docs, id);
    if request.Some? && request.value.retryCount < maxRetry then Replace(docs, Retried(request.value, now))
    else SetStatus(docs, id, ProcessingStatus.Failed, Some(message), now)
  }

  /** The member loop of `HandleFailedBatchAsync`, in `RequestIds` order. */
  function FailAll(docs: seq<DocumentRequest>, ids: seq<string>, maxRetry: int, message: string, now: Time): seq<DocumentRequest>
    decreases |ids|
  {
    if ids == [] then docs else FailAll(FailOne(docs, ids[0], maxRetry, message, now), ids[1..], maxRetry, message, now)
  }

  /** A request hit by one job-level failure. */
  function JobFailed(r: DocumentRequest, maxRetry: int, message: string, now: Time): (u: DocumentRequest)
    ensures r.retryCount < maxRetry ==> u == Retried(r, now)
    ensures r.retryCount >= maxRetry ==> u == WithStatus(r, ProcessingStatus.Failed, Some(message), now)
  {
    if r.retryCount < maxRetry then Retried(r, now) else WithStatus(r, ProcessingStatus.Failed, Some(message), now)
  }

  /** `FailOne` does to the request with that id what `JobFailed` says, and to no other request. */
  lemma FailOneEffect(docs: seq<DocumentRequest>, id: string, maxRetry: int, message: string, now: Time, i: int)
    requires DistinctIds(docs) && 0 <= i < |docs|
    ensures var res := FailOne(docs, id, maxRetry, message, now);
      && |res| == |docs| && res[i].id == docs[i].id
      && (docs[i].id == id ==> res[i] == JobFailed(docs[i], maxRetry, message, now))
      && (docs[i].id != id ==> res[i] == docs[i])
  {
    var request := FindById(docs, id);
    if docs[i].id == id {
      assert HasId(docs, id);
      assert request.value == docs[i];
    }
  }

  /** The job after a job-level failure. */
  function FailedJob(job: BatchJob, message: string, now: Time): (u: BatchJob)
    ensures u.status == BatchJobStatus.Failed && u.errorMessage == Some(message) && u.completedAt == Some(now)
    ensures u.(status := job.status, errorMessage := job.errorMessage, completedAt := job.completedAt) == job
  {
    job.(status := BatchJobStatus.Failed, errorMessage := Some(message), completedAt := Some(now))
  }

  /** `HandleFailedBatchAsync`. */
  function FailJob(docs: seq<DocumentRequest>, jobs: seq<BatchJob>, job: BatchJob, message: string, maxRetry: int, now: Time): Poll {
    Poll(FailAll(docs, job.requestIds, maxRetry, message, now), ReplaceJob(jobs, FailedJob(job, message, now)), {}, Pass)
  }

  function Max(a: int, b: int): int {
    if a < b then b else a
  }

  /**
   * Retry bound: a job-level failure never lowers a retry counter and never
   * raises one above the larger of its old value and `MaxRetryCount`; ids stay in place.
   */
  lemma {:induction false} RetryBound(docs: seq<DocumentRequest>, ids: seq<string>, maxRetry: int, message: string, now: Time)
    requires DistinctIds(docs)
    ensures var res := FailAll(docs, ids, maxRetry, message, now);
      && |res| == |docs|
      && forall i :: 0 <= i < |docs| ==>
           res[i].id == docs[i].id && docs[i].retryCount <= res[i].retryCount <= Max(docs[i].retryCount, maxRetry)
    decreases |ids|
  {
    if ids != [] {
      var next := FailOne(docs, ids[0], maxRetry, message, now);
      forall i | 0 <= i < |docs|
        ensures |next| == |docs| && next[i].id == docs[i].id
        ensures docs[i].retryCount <= next[i].retryCount <= Max(docs[i].retryCount, maxRetry)
      {
        FailOneEffect(docs, ids[0], maxRetry, message, now, i);
      }
      SameIdsKeepDistinct(docs, next);
      RetryBound(next, ids[1..], maxRetry, message, now);
    }
  }

  /** `n` successive job-level failures of the batches a request is re-submitted in. */
  function FailedTimes(r: DocumentRequest, n: nat, maxRetry: int, message: string, now: Time): DocumentRequest
    decreases n
  {
    if n == 0 then r else FailedTimes(JobFailed(r, maxRetry, message, now), n - 1, maxRetry, message, now)
  }

  /**
   * Retries run out: a request whose counter starts between 0 and
   * `MaxRetryCount` is Failed after `MaxRetryCount + 1` job-level failures,
   * and its counter has reached `MaxRetryCount` and not passed it.
   */
  lemma {:induction false} RetriesRunOut(r: DocumentRequest, n: nat, maxRetry: int, message: string, now: Time)
    requires 0 <= r.retryCount <= maxRetry && n >= maxRetry - r.retryCount + 1
    ensures FailedTimes(r, n, maxRetry, message, now).status == ProcessingStatus.Failed
    ensures FailedTimes(r, n, maxRetry, message, now).retryCount == maxRetry
    decreases n
  {
    var next := JobFailed(r, maxRetry, message, now);
    if r.retryCount < maxRetry {
      RetriesRunOut(next, n - 1, maxRetry, message, now);
    } else {
      StaysFailed(next, n - 1, maxRetry, message, now);
    }
  }

  /** Once its retries are used up, each further failure keeps a request Failed with the same counter. */
  lemma {:induction false} StaysFailed(r: DocumentRequest, n: nat, maxRetry: int, message: string, now: Time)
    requires r.status == ProcessingStatus.Failed && r.retryCount >= maxRetry
    ensures FailedTimes(r, n, maxRetry, message, now).status == ProcessingStatus.Failed
    ensures FailedTimes(r, n, maxRetry, message, now).retryCount == r.retryCount
    decreases n
  {
    if n > 0 {
      StaysFailed(JobFailed(r, maxRetry, message, now), n - 1, maxRetry, message, now);
    }
  }

  // ---------------------------------------------------------------------------
  // One job, and the scan
  // ---------------------------------------------------------------------------

  /** The job after a progress report: Processing, with the remote counters copied as they are. */
  function Progressed(job: BatchJob, status: BatchStatus): (u: BatchJob)
    ensures u.status == BatchJobStatus.Processing
    ensures u.completedRequests == status.completedRequests && u.failedRequests == status.failedRequests
    ensures u.(status := job.status, completedRequests := job.completedRequests, failedRequests := job.failedRequests) == job
  {
    job.(status := BatchJobStatus.Processing, completedRequests := status.completedRequests, failedRequests := status.failedRequests)
  }

  predicate TerminalFailure(status: string) {
    status == "Failed" || status == "Expired" || status == "Cancelled"
  }

  /**
   * `ProcessBatchResultAsync` for one job, given what the bulk service reports
   * for its remote id. A failed status or result request leaves both stores as
   * they were and is the outcome.
   */
  function ResolveJob(docs: seq<DocumentRequest>, jobs: seq<BatchJob>, job: BatchJob, view: Result<RemoteBatch>,
                      maxRetry: int, now: Time): Poll
    requires job.openAiBatchId.Some?
  {
    match GetBatchStatus(view)
    case Err(e) => Poll(docs, jobs, {}, Fail(e))
    case Ok(status) =>
      if status.status == "Completed" then CompletedBatch(docs, jobs, job, view, now)
      else if TerminalFailure(status.status) then
        FailJob(docs, jobs, job, "Batch " + status.status, maxRetry, now)
      else
        Poll(docs, ReplaceJob(jobs, Progressed(job, status)), {}, Pass)
  }

  /** A job with no remote id (null or empty) is skipped. */
  predicate HasRemoteId(job: BatchJob) {
    job.openAiBatchId.Some? && job.openAiBatchId.value != ""
  }

  /**
   * The scan loop of `PollBatchResultsAsync` over a job snapshot, left to
   * right. A job's failure is logged and the scan goes on, except in a
   * development environment, where it ends the scan and is its outcome.
   */
  function Scan(docs: seq<DocumentRequest>, jobs: seq<BatchJob>, batches: seq<BatchJob>, remote: string -> Result<RemoteBatch>,
                maxRetry: int, development: bool, now: Time): Poll
    decreases |batches|
  {
    if batches == [] then Poll(docs, jobs, {}, Pass)
    else if !HasRemoteId(batches[0]) then Scan(docs, jobs, batches[1..], remote, maxRetry, development, now)
    else
      var step := ResolveJob(docs, jobs, batches[0], remote(batches[0].openAiBatchId.value), maxRetry, now);
      if step.outcome.Fail? && development then step
      else
        var rest := Scan(step.docs, step.jobs, batches[1..], remote, maxRetry, development, now);
        rest.(callbacks := step.callbacks + rest.callbacks)
  }

  /** `PollBatchResultsAsync`: the scan over the in-flight jobs reached before cancellation is seen. */
  function PollResults(docs: seq<DocumentRequest>, jobs: seq<BatchJob>, remote: string -> Result<RemoteBatch>,
                       maxRetry: int, development: bool, budget: nat, now: Time): Poll
  {
    Scan(docs, jobs, Take(SubmittedJobs(jobs), budget), remote, maxRetry, development, now)
  }

  /** A progress report changes no request and copies the remote counters onto the job, unchecked against the total. */
  lemma ProgressChangesNoRequest(docs: seq<DocumentRequest>, jobs: seq<BatchJob>, job: BatchJob, view: Result<RemoteBatch>, maxRetry: int, now: Time)
    requires job.openAiBatchId.Some?
    requires GetBatchStatus(view).Ok? && GetBatchStatus(view).value.status != "Completed" && !TerminalFailure(GetBatchStatus(view).value.status)
    ensures var p := ResolveJob(docs, jobs, job, view, maxRetry, now);
      && p.docs == docs && p.callbacks == {} && p.outcome == Pass
      && p.jobs == ReplaceJob(jobs, Progressed(job, GetBatchStatus(view).value))
  {
  }

  /** Resolving one job writes only the job with that id. */
  lemma ResolveTouchesOneJob(docs: seq<DocumentRequest>, jobs: seq<BatchJob>, job: BatchJob, view: Result<RemoteBatch>,
                             maxRetry: int, now: Time, i: int)
    requires job.openAiBatchId.Some? && 0 <= i < |jobs|
    ensures var p := ResolveJob(docs, jobs, job, view, maxRetry, now);
      |p.jobs| == |jobs| && p.jobs[i].id == jobs[i].id && (jobs[i].id != job.id ==> p.jobs[i] == jobs[i])
  {
  }

  /** The ids of a list of jobs. */
  function JobIdSet(jobs: seq<BatchJob>): set<string> {
    set k | 0 <= k < |jobs| :: jobs[k].id
  }

  /** The scan writes only jobs of its snapshot. */
  lemma {:induction false} ScanTouchesOnlyScanned(docs: seq<DocumentRequest>, jobs: seq<BatchJob>, batches: seq<BatchJob>,
                                                  remote: string -> Result<RemoteBatch>, maxRetry: int, development: bool, now: Time)
    ensures var p := Scan(docs, jobs, batches, remote, maxRetry, development, now);
      |p.jobs| == |jobs| && forall i :: 0 <= i < |jobs| ==>
        p.jobs[i].id == jobs[i].id && (jobs[i].id !in JobIdSet(batches) ==> p.jobs[i] == jobs[i])
    decreases |batches|
  {
    if batches != [] {
      assert forall k :: 0 <= k < |batches[1..]| ==> batches[1..][k] == batches[k + 1];
      assert JobIdSet(batches[1..]) <= JobIdSet(batches) by {
        forall x | x in JobIdSet(batches[1..]) ensures x in JobIdSet(batches) {
          var k :| 0 <= k < |batches[1..]| && batches[1..][k].id == x;
          assert batches[k + 1].id == x;
        }
      }
      assert batches[0].id in JobIdSet(batches);
      if !HasRemoteId(batches[0]) {
        ScanTouchesOnlyScanned(docs, jobs, batches[1..], remote, maxRetry, development, now);
      } else {
        var step := ResolveJob(docs, jobs, batches[0], remote(batches[0].openAiBatchId.value), maxRetry, now);
        forall i | 0 <= i < |jobs|
          ensures |step.jobs| == |jobs| && step.jobs[i].id == jobs[i].id && (jobs[i].id != batches[0].id ==> step.jobs[i] == jobs[i])
        {
          ResolveTouchesOneJob(docs, jobs, batches[0], remote(batches[0].openAiBatchId.value), maxRetry, now, i);
        }
        if !(step.outcome.Fail? && development) {
          ScanTouchesOnlyScanned(step.docs, step.jobs, batches[1..], remote, maxRetry, development, now);
        }
      }
    }
  }

  /** Only Submitted or Processing jobs are polled: every other job is left as it was. */
  lemma PollLeavesOtherJobs(docs: seq<DocumentRequest>, jobs: seq<BatchJob>, remote: string -> Result<RemoteBatch>,
                            maxRetry: int, development: bool, budget: nat, now: Time, i: int)
    requires DistinctJobIds(jobs) && 0 <= i < |jobs| && !InFlight(jobs[i])
    ensures var p := PollResults(docs, jobs, remote, maxRetry, development, budget, now);
      |p.jobs| == |jobs| && p.jobs[i] == jobs[i]
  {
    var batches := Take(SubmittedJobs(jobs), budget);
    ScanTouchesOnlyScanned(docs, jobs, batches, remote, maxRetry, development, now);
    forall k | 0 <= k < |batches| ensures batches[k].id != jobs[i].id {
      assert batches[k] == SubmittedJobs(jobs)[k];
      assert batches[k] in jobs && InFlight(batches[k]);
    }
  }

  /** Outside development a failing job changes nothing and the scan goes on with the next job. */
  lemma ScanContinuesPastFailure(docs: seq<DocumentRequest>, jobs: seq<BatchJob>, batches: seq<BatchJob>,
                                 remote: string -> Result<RemoteBatch>, maxRetry: int, now: Time)
    requires batches != [] && HasRemoteId(batches[0])
    requires ResolveJob(docs, jobs, batches[0], remote(batches[0].openAiBatchId.value), maxRetry, now).outcome.Fail?
    ensures Scan(docs, jobs, batches, remote, maxRetry, false, now) == Scan(docs, jobs, batches[1..], remote, maxRetry, false, now)
  {
  }

  // ---------------------------------------------------------------------------
  // The worker's loops
  // ---------------------------------------------------------------------------

  /** One more result written: the store after it is the store for the larger map. */
  lemma StoreResultsStep(docs: seq<DocumentRequest>, done: map<string, string>, id: string, content: string, now: Time)
    requires id !in done
    ensures SetResult(StoreResults(docs, done, now), id, content, now) == StoreResults(docs, done[id := content], now)
  {
    var a := SetResult(StoreResults(docs, done, now), id, content, now);
    var b := StoreResults(docs, done[id := content], now);
    assert forall i :: 0 <= i < |docs| ==> a[i] == b[i];
  }

  /** One more error written: the store after it is the store for the larger map. */
  lemma StoreErrorsStep(docs: seq<DocumentRequest>, done: map<string, string>, id: string, message: string, now: Time)
    requires id !in done
    ensures SetStatus(StoreErrors(docs, done, now), id, ProcessingStatus.Failed, Some(message), now)
         == StoreErrors(docs, done[id := message], now)
  {
    var a := SetStatus(StoreErrors(docs, done, now), id, ProcessingStatus.Failed, Some(message), now);
    var b := StoreErrors(docs, done[id := message], now);
    assert forall i :: 0 <= i < |docs| ==> a[i] == b[i];
  }

  /** One more result handled: at most the callback for that result is added. */
  lemma CallbacksStep(docs: seq<DocumentRequest>, done: map<string, string>, id: string, content: string)
    requires id !in done
    ensures Callbacks(docs, done[id := content]) ==
      Callbacks(docs, done) + if HasCallback(docs, id) then {Callback(FindById(docs, id).value.callbackUrl.value, id, content)} else {}
  {
    var extra: set<Callback> := if HasCallback(docs, id) then {Callback(FindById(docs, id).value.callbackUrl.value, id, content)} else {};
    forall c | c in Callbacks(docs, done[id := content]) ensures c in Callbacks(docs, done) + extra {
      var x :| x in done[id := content] && HasCallback(docs, x) && c == Callback(FindById(docs, x).value.callbackUrl.value, x, done[id := content][x]);
      if x != id {
        assert x in done;
      }
    }
    forall c | c in Callbacks(docs, done) ensures c in Callbacks(docs, done[id := content]) {
      var x :| x in done && HasCallback(docs, x) && c == Callback(FindById(docs, x).value.callbackUrl.value, x, done[x]);
      assert x != id && done[id := content][x] == done[x];
    }
  }

  /**
   * One iteration of the results loop: after writing one more result, the
   * store is the one for the larger map, and the request read back from it
   * decides the one callback added.
   */
  lemma ResultsLoopStep(docs: seq<DocumentRequest>, results: map<string, string>, remaining: set<string>, id: string, now: Time)
    requires id in remaining && remaining <= results.Keys
    ensures var after := SetResult(StoreResults(docs, results - remaining, now), id, results[id], now);
      var request := FindById(after, id);
      && after == StoreResults(docs, results - (remaining - {id}), now)
      && Callbacks(docs, results - (remaining - {id})) ==
           Callbacks(docs, results - remaining) + if request.Some? && request.value.callbackUrl.Some?
                                                  then {Callback(request.value.callbackUrl.value, id, results[id])} else {}
  {
    var done := results - remaining;
    assert done[id := results[id]] == results - (remaining - {id});
    var after := SetResult(StoreResults(docs, done, now), id, results[id], now);
    StoreResultsStep(docs, done, id, results[id], now);
    CallbacksStep(docs, done, id, results[id]);
    FindByIdSamePlace(docs, after, id);
    if FindById(docs, id).Some? {
      var i :| 0 <= i < |docs| && FindById(docs, id) == Some(docs[i]) && FindById(after, id) == Some(after[i]);
      assert after[i].callbackUrl == docs[i].callbackUrl;
    }
  }

  /** One iteration of the results loop: write the result, read the request back, send its callback if it has a URL. */
  method ApplyResult(requests: DocumentRequestRepository, ghost docs0: seq<DocumentRequest>, results: map<string, string>,
                     ghost remaining: set<string>, requestId: string, now: Time) returns (callback: set<Callback>)
    requires requests.Valid() && requestId in remaining && remaining <= results.Keys
    requires requests.docs == StoreResults(docs0, results - remaining, now)
    modifies requests
    ensures requests.Valid() && requests.docs == StoreResults(docs0, results - (remaining - {requestId}), now)
    ensures Callbacks(docs0, results - (remaining - {requestId})) == Callbacks(docs0, results - remaining) + callback
  {
    var responseContent := results[requestId];
    ResultsLoopStep(docs0, results, remaining, requestId, now);
    requests.UpdateResult(requestId, responseContent, now);
    var request := FindById(requests.docs, requestId);
    callback := {};
    if request.Some? && request.value.callbackUrl.Some? {
      callback := {Callback(request.value.callbackUrl.value, requestId, responseContent)};
    }
  }

  /**
   * The results loop of `HandleCompletedBatchAsync`: each result is written,
   * the request is read back and its callback sent when it has a URL. The
   * map's enumeration order is not fixed here: any order gives this state.
   */
  method ApplyResults(requests: DocumentRequestRepository, results: map<string, string>, now: Time)
    returns (sent: set<Callback>, completedCount: nat)
    requires requests.Valid()
    modifies requests
    ensures requests.Valid()
    ensures requests.docs == StoreResults(old(requests.docs), results, now)
    ensures sent == Callbacks(old(requests.docs), results)
    ensures completedCount == |results|
  {
    ghost var docs0 := requests.docs;
    var remaining := results.Keys;
    sent := {};
    completedCount := 0;
    while remaining != {}
      invariant requests.Valid()
      invariant remaining <= results.Keys && completedCount + |remaining| == |results|
      invariant requests.docs == StoreResults(docs0, results - remaining, now)
      invariant sent == Callbacks(docs0, results - remaining)
      decreases |remaining|
    {
      var requestId :| requestId in remaining;
      var callback := ApplyResult(requests, docs0, results, remaining, requestId, now);
      sent := sent + callback;
      remaining := remaining - {requestId};
      completedCount := completedCount + 1;
    }
    assert results - {} == results;
  }

  /** The errors loop of `HandleCompletedBatchAsync`: each listed request is marked Failed with its message. */
  method ApplyErrors(requests: DocumentRequestRepository, errors: map<string, string>, now: Time) returns (failedCount: nat)
    requires requests.Valid()
    modifies requests
    ensures requests.Valid()
    ensures requests.docs == StoreErrors(old(requests.docs), errors, now)
    ensures failedCount == |errors|
  {
    ghost var docs0 := requests.docs;
    var remaining := errors.Keys;
    failedCount := 0;
    while remaining != {}
      invariant requests.Valid()
      invariant remaining <= errors.Keys && failedCount + |remaining| == |errors|
      invariant requests.docs == StoreErrors(docs0, errors - remaining, now)
      decreases |remaining|
    {
      var requestId :| requestId in remaining;
      var errorMessage := errors[requestId];
      ErrorsStep(docs0, errors, remaining, requestId, now);
      requests.UpdateStatus(requestId, ProcessingStatus.Failed, Some(errorMessage), now);
      remaining := remaining - {requestId};
      failedCount := failedCount + 1;
    }
    assert errors - {} == errors;
  }

  lemma ErrorsStep(docs: seq<DocumentRequest>, errors: map<string, string>, remaining: set<string>, id: string, now: Time)
    requires id in remaining && remaining <= errors.Keys
    ensures SetStatus(StoreErrors(docs, errors - remaining, now), id, ProcessingStatus.Failed, Some(errors[id]), now)
         == StoreErrors(docs, errors - (remaining - {id}), now)
  {
    assert (errors - remaining)[id := errors[id]] == errors - (remaining - {id});
    StoreErrorsStep(docs, errors - remaining, id, errors[id], now);
  }

  /** `HandleCompletedBatchAsync`: fetch the result, write results and errors, then classify and close the job. */
  method HandleCompletedBatch(requests: DocumentRequestRepository, jobs: BatchJobRepository, job: BatchJob,
                              view: Result<RemoteBatch>, now: Time) returns (sent: set<Callback>, outcome: Outcome)
    requires requests.Valid() && jobs.Valid() && job.openAiBatchId.Some?
    modifies requests, jobs
    ensures requests.Valid() && jobs.Valid()
    ensures var p := CompletedBatch(old(requests.docs), old(jobs.jobs), job, view, now);
      requests.docs == p.docs && jobs.jobs == p.jobs && sent == p.callbacks && outcome == p.outcome
  {
    var result := GetBatchResult(job.openAiBatchId.value, view);
    if result.Err? {
      return {}, Fail(result.message);
    }
    var completedCount, failedCount;
    sent, completedCount := ApplyResults(requests, result.value.results, now);
    failedCount := ApplyErrors(requests, result.value.errors, now);
    var status;
    if failedCount > 0 && completedCount > 0 {
      status := BatchJobStatus.PartiallyCompleted;
    } else if failedCount > 0 {
      status := BatchJobStatus.Failed;
    } else {
      status := BatchJobStatus.Completed;
    }
    var batch := job.(status := status, completedAt := Some(now), completedRequests := completedCount, failedRequests := failedCount);
    jobs.Update(batch);
    outcome := Pass;
  }

  /** `HandleFailedBatchAsync`: every member is retried or failed, then the job is closed as Failed. */
  method HandleFailedBatch(requests: DocumentRequestRepository, jobs: BatchJobRepository, job: BatchJob, errorMessage: string,
                           maxRetry: int, now: Time)
    requires requests.Valid() && jobs.Valid()
    modifies requests, jobs
    ensures requests.Valid() && jobs.Valid()
    ensures requests.docs == FailAll(old(requests.docs), job.requestIds, maxRetry, errorMessage, now)
    ensures jobs.jobs == ReplaceJob(old(jobs.jobs), FailedJob(job, errorMessage, now))
  {
    var docs0 := requests.docs;
    var ids := job.requestIds;
    for k := 0 to |ids|
      invariant requests.Valid()
      modifies requests
      invariant FailAll(docs0, ids, maxRetry, errorMessage, now) == FailAll(requests.docs, ids[k..], maxRetry, errorMessage, now)
    {
      assert ids[k..][0] == ids[k] && ids[k..][1..] == ids[k + 1..];
      var requestId := ids[k];
      var request := FindById(requests.docs, requestId);
      if request.Some? && request.value.retryCount < maxRetry {
        var retried := request.value.(status := Queued, batchId := None, retryCount := request.value.retryCount + 1);
        requests.Update(retried, now);
      } else {
        requests.UpdateStatus(requestId, ProcessingStatus.Failed, Some(errorMessage), now);
      }
    }
    assert ids[|ids|..] == [];
    var batch := job.(status := BatchJobStatus.Failed, errorMessage := Some(errorMessage), completedAt := Some(now));
    jobs.Update(batch);
  }

  /** `ProcessBatchResultAsync`: the status decides between completion, job-level failure and a progress update. */
  method ProcessBatchResult(requests: DocumentRequestRepository, jobs: BatchJobRepository, job: BatchJob,
                            view: Result<RemoteBatch>, maxRetry: int, now: Time) returns (sent: set<Callback>, outcome: Outcome)
    requires requests.Valid() && jobs.Valid() && job.openAiBatchId.Some?
    modifies requests, jobs
    ensures requests.Valid() && jobs.Valid()
    ensures var p := ResolveJob(old(requests.docs), old(jobs.jobs), job, view, maxRetry, now);
      requests.docs == p.docs && jobs.jobs == p.jobs && sent == p.callbacks && outcome == p.outcome
  {
    var status := GetBatchStatus(view);
    if status.Err? {
      return {}, Fail(status.message);
    }
    var s := status.value;
    if s.status == "Completed" {
      sent, outcome := HandleCompletedBatch(requests, jobs, job, view, now);
    } else if s.status == "Failed" || s.status == "Expired" || s.status == "Cancelled" {
      HandleFailedBatch(requests, jobs, job, "Batch " + s.status, maxRetry, now);
      sent, outcome := {}, Pass;
    } else {
      var batch := job.(status := BatchJobStatus.Processing, completedRequests := s.completedRequests, failedRequests := s.failedRequests);
      jobs.Update(batch);
      sent, outcome := {}, Pass;
    }
  }

  /**
   * `PollBatchResultsAsync`: resolves the in-flight jobs in order; `budget`
   * is the number of iterations begun before cancellation is seen.
   */
  method PollBatchResults(requests: DocumentRequestRepository, jobs: BatchJobRepository, remote: string -> Result<RemoteBatch>,
                          maxRetry: int, development: bool, budget: nat, now: Time) returns (sent: set<Callback>, outcome: Outcome)
    requires requests.Valid() && jobs.Valid()
    modifies requests, jobs
    ensures requests.Valid() && jobs.Valid()
    ensures var p := PollResults(old(requests.docs), old(jobs.jobs), remote, maxRetry, development, budget, now);
      requests.docs == p.docs && jobs.jobs == p.jobs && sent == p.callbacks && outcome == p.outcome
  {
    var docs0 := requests.docs;
    var jobs0 := jobs.jobs;
    var submittedBatches := SubmittedJobs(jobs.jobs);
    ghost var taken := Take(submittedBatches, budget);
    sent := {};
    outcome := Pass;
    var k := 0;
    while k < |submittedBatches|
      invariant 0 <= k <= |submittedBatches| && k <= budget && k <= |taken|
      invariant requests.Valid() && jobs.Valid()
      invariant var rest := Scan(requests.docs, jobs.jobs, taken[k..], remote, maxRetry, development, now);
        Scan(docs0, jobs0, taken, remote, maxRetry, development, now) == rest.(callbacks := sent + rest.callbacks)
    {
      if k == budget {
        break;
      }
      var batch := submittedBatches[k];
      assert taken[k..][0] == batch && taken[k..][1..] == taken[k + 1..];
      if !HasRemoteId(batch) {
        k := k + 1;
        continue;
      }
      var stepSent, stepOutcome := ProcessBatchResult(requests, jobs, batch, remote(batch.openAiBatchId.value), maxRetry, now);
      sent := sent + stepSent;
      if stepOutcome.Fail? && development {
        outcome := stepOutcome;
        return;
      }
      k := k + 1;
    }
    assert taken[k..] == [];
  }
}
