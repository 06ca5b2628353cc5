/**
 * The two stored records: a document extraction request and a batch job.
 * Timestamps are values of an abstract clock; a fresh GUID is a parameter.
 */
module Entities {
  import opened Wrappers
  import opened Enums

  /** A value of the abstract clock that stands for `DateTime.UtcNow`. */
  type Time = int

  newtype byte = x: int | 0 <= x < 256

  datatype DocumentRequest = DocumentRequest(
    id: string,
    documentContent: seq<byte>,
    documentName: string,
    documentType: DocumentType,
    instruction: string,
    jsonSchema: string,
    modelDeploymentId: Option<string>,
    processingMode: ProcessingMode,
    status: ProcessingStatus,
    callbackUrl: Option<string>,
    markdownContent: Option<string>,
    result: Option<string>,
    errorMessage: Option<string>,
    batchId: Option<string>,
    createdAt: Time,
    updatedAt: Time,
    completedAt: Option<Time>,
    retryCount: int,
    clientId: Option<string>)

  /**
   * `new DocumentRequest()`: `id` is the fresh GUID, `now` the clock at construction.
   * Enumerations start at their zero value (Pdf, RealTime); status starts at Pending.
   */
  function NewDocumentRequest(id: string, now: Time): (r: DocumentRequest)
    ensures r.id == id && r.status == ProcessingStatus.Pending && r.retryCount == 0
    ensures r.markdownContent.None? && r.result.None? && r.errorMessage.None?
    ensures r.batchId.None? && r.completedAt.None?
    ensures r.documentContent == [] && r.documentName == "" && r.instruction == "" && r.jsonSchema == ""
    ensures r.createdAt == now && r.updatedAt == now
    ensures r.documentType.Code() == 0 && r.processingMode.Code() == 0
  {
    DocumentRequest(id, [], "", Pdf, "", "", None, RealTime, ProcessingStatus.Pending, None,
                    None, None, None, None, now, now, None, 0, None)
  }

  datatype BatchJobStatus = Created | Submitted | Processing | Completed | Failed | PartiallyCompleted {
    function Code(): int {
      match this
      case Created => 0
      case Submitted => 1
      case Processing => 2
      case Completed => 3
      case Failed => 4
      case PartiallyCompleted => 5
    }
  }

  function BatchJobStatusFromCode(c: int): (s: Option<BatchJobStatus>)
    ensures s.Some? <==> 0 <= c <= 5
  {
    match c
    case 0 => Some(BatchJobStatus.Created)
    case 1 => Some(BatchJobStatus.Submitted)
    case 2 => Some(BatchJobStatus.Processing)
    case 3 => Some(BatchJobStatus.Completed)
    case 4 => Some(BatchJobStatus.Failed)
    case 5 => Some(BatchJobStatus.PartiallyCompleted)
    case _ => None
  }

  /** Decoding inverts the code: the six codes 0..5 are pairwise distinct. */
  lemma BatchJobStatusRoundTrip(s: BatchJobStatus)
    ensures BatchJobStatusFromCode(s.Code()) == Some(s)
  {
  }

  datatype BatchJob = BatchJob(
    id: string,
    openAiBatchId: Option<string>,
    requestIds: seq<string>,
    status: BatchJobStatus,
    createdAt: Time,
    submittedAt: Option<Time>,
    completedAt: Option<Time>,
    errorMessage: Option<string>,
    totalRequests: int,
    completedRequests: int,
    failedRequests: int)

  /** `new BatchJob()`: `id` is the fresh GUID, `now` the clock at construction. */
  function NewBatchJob(id: string, now: Time): (j: BatchJob)
    ensures j.id == id && j.status == BatchJobStatus.Created && j.openAiBatchId.None? && j.requestIds == []
    ensures j.totalRequests == 0 && j.completedRequests == 0 && j.failedRequests == 0
    ensures j.submittedAt.None? && j.completedAt.None? && j.errorMessage.None?
    ensures j.createdAt == now
  {
    BatchJob(id, None, [], BatchJobStatus.Created, now, None, None, None, 0, 0, 0)
  }

  /** The ids of a list of requests, in list order (`requests.Select(r => r.Id)`). */
  function IdsOf(rs: seq<DocumentRequest>): (ids: seq<string>)
    ensures |ids| == |rs|
    ensures forall k :: 0 <= k < |rs| ==> ids[k] == rs[k].id
  {
    if rs == [] then [] else [rs[0].id] + IdsOf(rs[1..])
  }
}
