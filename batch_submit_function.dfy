/**
 * The timer-triggered function: the same two phases as the background
 * worker, without a cancellation check, and with every submission failure
 * propagated to the host after the compensation (an `Outcome` here).
 */
module BatchSubmitFunction {
  import opened Wrappers
  import opened Enums
  import opened Entities
  import opened Settings
  import opened Sequences
  import opened DocumentRequests
  import opened BatchJobs
  import opened BatchLlmService
  import opened Phases
  import opened SubmissionLoops

  /** `ProcessPendingRequestsAsync`: every Pending request is converted; a failure affects only its own request. */
  method ProcessPendingRequests(requests: DocumentRequestRepository, convert: (seq<byte>, string) -> Result<string>, now: Time)
    requires requests.Valid()
    modifies requests
    ensures requests.Valid()
    ensures requests.docs == ConvertPending(old(requests.docs), convert, |ByStatus(old(requests.docs), Pending)|, now)
    ensures ByStatus(requests.docs, Pending) == []
  {
    var docs0 := requests.docs;
    var pendingRequests := ByStatus(requests.docs, Pending);
    ConversionIdempotent(docs0, convert, |pendingRequests|, now, convert, 0, now);
    if |pendingRequests| == 0 {
      ConversionWithoutPendingIsNoop(docs0, convert, 0, now);
      return;
    }
    FilterIsSnapshot(docs0, (r: DocumentRequest) => r.status == Pending);
    ghost var f := ConvertStep(convert, now);
    for k := 0 to |pendingRequests|
      invariant requests.Valid()
      invariant requests.docs == Overlay(docs0, docs0, IdSet(pendingRequests[..k]), f)
    {
      var request := pendingRequests[k];
      var markdown := convert(request.documentContent, request.documentName);
      if markdown.Ok? {
        request := request.(markdownContent := Some(markdown.value), status := Queued);
      } else {
        request := request.(status := ProcessingStatus.Failed, errorMessage := Some(ConversionErrorPrefix + markdown.message));
      }
      assert request.(updatedAt := now) == f(pendingRequests[k]);
      RewriteStep(docs0, docs0, pendingRequests, k, f, now);
      requests.Update(request, now);
    }
    assert Take(pendingRequests, |pendingRequests|) == pendingRequests[..|pendingRequests|];
  }

  /**
   * `SubmitBatchAsync`: as in the worker, but after putting the members back
   * in the queue the failure is rethrown.
   */
  method SubmitBatch(requests: DocumentRequestRepository, jobs: BatchJobRepository, threshold: int, jobId: string,
                     upload: seq<BatchRequestLine> -> Result<string>, now: Time) returns (outcome: Outcome)
    requires requests.Valid() && jobs.Valid()
    modifies requests, jobs
    ensures requests.Valid() && jobs.Valid()
    ensures var st := SubmitQueued(old(requests.docs), old(jobs.jobs), threshold, jobId, upload, now);
      requests.docs == st.docs && jobs.jobs == st.jobs && outcome == st.outcome
  {
    var docs0 := requests.docs;
    var jobs0 := jobs.jobs;
    var batch := QueuedRequests(requests.docs, threshold);
    if |batch| == 0 {
      return Pass;
    }
    QueuedIsSnapshot(docs0, threshold);
    var sel := batch;
    var batchJob := NewBatchJob(jobId, now).(requestIds := IdsOf(batch), totalRequests := |batch|, status := BatchJobStatus.Created);
    var created := jobs.Create(batchJob);
    if !created {
      Requeue(requests, docs0, sel, batch, RequeueStep(now), now);
      return Fail(DuplicateKeyError);
    }
    batch := Mark(requests, docs0, sel, jobId, now);
    PayloadIgnoresState(batch, sel);
    var openAiBatchId := BatchLlmService.SubmitBatch(batch, upload);
    if openAiBatchId.Err? {
      Requeue(requests, docs0, sel, batch, RequeueStep(now), now);
      return Fail(openAiBatchId.message);
    }
    ReplaceJustCreated(jobs0, batchJob, SubmittedJob(batchJob, openAiBatchId.value, now));
    batchJob := batchJob.(openAiBatchId := Some(openAiBatchId.value), status := BatchJobStatus.Submitted, submittedAt := Some(now));
    jobs.Update(batchJob);
    outcome := Pass;
  }

  /** `ProcessBatchQueueAsync`: no Queued request, no job; any Queued request, a submission attempt. */
  method ProcessBatchQueue(requests: DocumentRequestRepository, jobs: BatchJobRepository, settings: BatchProcessingSettings,
                           jobId: string, upload: seq<BatchRequestLine> -> Result<string>, now: Time) returns (outcome: Outcome)
    requires requests.Valid() && jobs.Valid()
    modifies requests, jobs
    ensures requests.Valid() && jobs.Valid()
    ensures var st := ProcessQueue(old(requests.docs), old(jobs.jobs), settings.queueSizeThreshold, jobId, upload, now);
      requests.docs == st.docs && jobs.jobs == st.jobs && outcome == st.outcome
  {
    var queuedCount := QueuedCount(requests.docs);
    if queuedCount == 0 {
      return Pass;
    }
    outcome := Pass;
    if queuedCount >= settings.queueSizeThreshold || queuedCount > 0 {
      outcome := SubmitBatch(requests, jobs, settings.queueSizeThreshold, jobId, upload, now);
    }
  }

  /** `Run`: conversion, then submission; a submission failure is the failure of the invocation. */
  method Run(requests: DocumentRequestRepository, jobs: BatchJobRepository, settings: BatchProcessingSettings,
             convert: (seq<byte>, string) -> Result<string>, jobId: string,
             upload: seq<BatchRequestLine> -> Result<string>, now: Time) returns (outcome: Outcome)
    requires requests.Valid() && jobs.Valid()
    modifies requests, jobs
    ensures requests.Valid() && jobs.Valid()
    ensures var converted := ConvertPending(old(requests.docs), convert, |ByStatus(old(requests.docs), Pending)|, now);
      var st := ProcessQueue(converted, old(jobs.jobs), settings.queueSizeThreshold, jobId, upload, now);
      requests.docs == st.docs && jobs.jobs == st.jobs && outcome == st.outcome
  {
    ProcessPendingRequests(requests, convert, now);
    outcome := ProcessBatchQueue(requests, jobs, settings, jobId, upload, now);
  }
}
