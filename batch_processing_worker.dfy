/**
 * The background worker that converts Pending requests to markdown and
 * submits the oldest Queued ones as one bulk job. One call of `Cycle` is one
 * iteration of its service loop; the wait between iterations is not modelled.
 * Every exception of a cycle is logged and dropped, so no method here reports
 * an error: the store contents are the whole observable effect.
 */
module BatchProcessingWorker {
  import opened Wrappers
  import opened Enums
  import opened Entities
  import opened Settings
  import opened Sequences
  import opened DocumentRequests
  import opened BatchJobs
  import opened BatchLlmService
  import opened Phases
  import opened SubmissionLoops

  /**
   * `ProcessPendingRequestsAsync`: converts the Pending snapshot one request
   * at a time; a failed conversion marks that request Failed and the loop goes
   * on. `budget` is the number of iterations begun before cancellation is seen.
   */
  method ProcessPendingRequests(requests: DocumentRequestRepository, convert: (seq<byte>, string) -> Result<string>,
                                budget: nat, now: Time)
    requires requests.Valid()
    modifies requests
    ensures requests.Valid()
    ensures requests.docs == ConvertPending(old(requests.docs), convert, budget, now)
  {
    var docs0 := requests.docs;
    var pendingRequests := ByStatus(requests.docs, Pending);
    if |pendingRequests| == 0 {
      ConversionWithoutPendingIsNoop(docs0, convert, budget, now);
      return;
    }
    FilterIsSnapshot(docs0, (r: DocumentRequest) => r.status == Pending);
    ghost var f := ConvertStep(convert, now);
    var k := 0;
    while k < |pendingRequests|
      invariant 0 <= k <= |pendingRequests| && k <= budget
      invariant requests.Valid()
      invariant requests.docs == Overlay(docs0, docs0, IdSet(pendingRequests[..k]), f)
    {
      if k == budget {
        break;
      }
      var request := pendingRequests[k];
      var markdown := convert(request.documentContent, request.documentName);
      if markdown.Ok? {
        request := request.(markdownContent := Some(markdown.value), status := Queued);
      } else {
        request := request.(status := ProcessingStatus.Failed, errorMessage := Some(ConversionErrorPrefix + markdown.message));
      }
      assert request.(updatedAt := now) == f(pendingRequests[k]);
      RewriteStep(docs0, docs0, pendingRequests, k, f, now);
      requests.Update(request, now);
      k := k + 1;
    }
    assert Take(pendingRequests, budget) == pendingRequests[..k];
  }

  /**
   * `SubmitBatchAsync`: creates the job, marks its members, uploads them and
   * records the remote id; on any failure puts the members back in the queue
   * and drops the error.
   */
  method SubmitBatch(requests: DocumentRequestRepository, jobs: BatchJobRepository, threshold: int, jobId: string,
                     upload: seq<BatchRequestLine> -> Result<string>, now: Time)
    requires requests.Valid() && jobs.Valid()
    modifies requests, jobs
    ensures requests.Valid() && jobs.Valid()
    ensures var st := SubmitQueued(old(requests.docs), old(jobs.jobs), threshold, jobId, upload, now);
      requests.docs == st.docs && jobs.jobs == st.jobs
  {
    var docs0 := requests.docs;
    var jobs0 := jobs.jobs;
    var batch := QueuedRequests(requests.docs, threshold);
    if |batch| == 0 {
      return;
    }
    QueuedIsSnapshot(docs0, threshold);
    var sel := batch;
    var batchJob := NewBatchJob(jobId, now).(requestIds := IdsOf(batch), totalRequests := |batch|, status := BatchJobStatus.Created);
    var created := jobs.Create(batchJob);
    if !created {
      Requeue(requests, docs0, sel, batch, RequeueStep(now), now);
      return;
    }
    batch := Mark(requests, docs0, sel, jobId, now);
    PayloadIgnoresState(batch, sel);
    var openAiBatchId := BatchLlmService.SubmitBatch(batch, upload);
    if openAiBatchId.Err? {
      Requeue(requests, docs0, sel, batch, RequeueStep(now), now);
      return;
    }
    ReplaceJustCreated(jobs0, batchJob, SubmittedJob(batchJob, openAiBatchId.value, now));
    batchJob := batchJob.(openAiBatchId := Some(openAiBatchId.value), status := BatchJobStatus.Submitted, submittedAt := Some(now));
    jobs.Update(batchJob);
  }

  /** `ProcessBatchQueueAsync`: no Queued request, no job; any Queued request, a submission attempt. */
  method ProcessBatchQueue(requests: DocumentRequestRepository, jobs: BatchJobRepository, settings: BatchProcessingSettings,
                           jobId: string, upload: seq<BatchRequestLine> -> Result<string>, now: Time)
    requires requests.Valid() && jobs.Valid()
    modifies requests, jobs
    ensures requests.Valid() && jobs.Valid()
    ensures var st := ProcessQueue(old(requests.docs), old(jobs.jobs), settings.queueSizeThreshold, jobId, upload, now);
      requests.docs == st.docs && jobs.jobs == st.jobs
  {
    var queuedCount := QueuedCount(requests.docs);
    if queuedCount == 0 {
      return;
    }
    if queuedCount >= settings.queueSizeThreshold || queuedCount > 0 {
      SubmitBatch(requests, jobs, settings.queueSizeThreshold, jobId, upload, now);
    }
  }

  /** One iteration of `ExecuteAsync`: conversion, then submission. */
  method Cycle(requests: DocumentRequestRepository, jobs: BatchJobRepository, settings: BatchProcessingSettings,
               convert: (seq<byte>, string) -> Result<string>, budget: nat, jobId: string,
               upload: seq<BatchRequestLine> -> Result<string>, now: Time)
    requires requests.Valid() && jobs.Valid()
    modifies requests, jobs
    ensures requests.Valid() && jobs.Valid()
    ensures var st := ProcessQueue(ConvertPending(old(requests.docs), convert, budget, now), old(jobs.jobs),
                                   settings.queueSizeThreshold, jobId, upload, now);
      requests.docs == st.docs && jobs.jobs == st.jobs
  {
    ProcessPendingRequests(requests, convert, budget, now);
    ProcessBatchQueue(requests, jobs, settings, jobId, upload, now);
  }
}
