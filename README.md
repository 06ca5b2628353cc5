# DocProcessor batch lifecycle, modelled in Dafny

DocProcessor accepts documents, converts them to markdown and has an LLM
extract structured data from them. It works either in real time or through an
OpenAI-style bulk ("batch") service. This project models the core of that
pipeline. It has two stores: document requests and batch jobs, each keyed by
id. Several control procedures drive them:

- **Conversion.** Pending requests become Queued with their markdown, or
  Failed with a prefixed message.
- **Submission.** The oldest Queued requests are grouped into one batch job,
  marked BatchSubmitted and uploaded. A failed upload puts them back in the
  queue.
- **Polling.** Every Submitted or Processing job's remote status is read. The
  job then progresses, completes (results and errors are fanned out to the
  requests, and callbacks are sent), or fails (members are re-queued with a
  bounded retry count, or failed).
- **The service.** The real-time path, the enqueue call with its
  threshold-gated submission, the status projection and the document-type
  rule.

The submission step exists three times in the source, and each copy is
modelled on its own:
- the background worker drops the error after the compensation;
- the timer function rethrows it;
- the service converts inside the batch step, so after a successful upload
  its members are Queued (or Failed), not BatchSubmitted.

Layout, one module per file:

- `wrappers`, `sequences`: `Option`/`Result`/`Outcome`, and the MongoDB-style
  filter, sort, `Limit`, `Skip` and `Take` the queries use.
- `enums`, `entities`, `settings`: the three enums with their integer codes,
  the request and job records with their defaults, and the batch settings.
- `document_requests`, `batch_jobs`: the two repositories. Each is a class
  holding the collection as a `seq` in insertion order, with the unique id
  index as its `Valid()`. Its queries are functions and its writes are
  methods.
- `batch_llm_service`: status mapping and count defaulting, the
  result/error-file accumulation over parsed lines, and the one-line-per-request
  payload.
- `phases`: record-level transitions and the phase specifications shared by
  the worker and the function (conversion and submission).
- `submission_loops`: the marking and compensation loops.
- `batch_processing_worker`, `batch_submit_function`,
  `batch_result_polling_worker`, `document_processing_service`: the control
  procedures, as methods proved equal to specification functions of the
  state before the call.

The clock, the converter, the real-time LLM call, the bulk upload and the
remote batch views are parameters. Each method's `ensures` gives the whole
new contents of both stores as a function of the old contents. The lemmas
state what the source promises about those functions.

## Model

| member | source | states |
|---|---|---|
| Enums.ProcessingModeFromCode | src/DocProcessor.Core/Enums/ProcessingEnums.cs:3-7 | a code decodes exactly when it is 0 or 1 |
| Enums.ProcessingStatusFromCode | src/DocProcessor.Core/Enums/ProcessingEnums.cs:9-17 | a code decodes exactly when it is in 0..5 |
| Enums.DocumentTypeFromCode | src/DocProcessor.Core/Enums/ProcessingEnums.cs:19-27 | a code decodes exactly when it is 0..4 or 99 |
| Enums.CodesRoundTrip | src/DocProcessor.Core/Enums/ProcessingEnums.cs:3-27 | decoding the code of every mode, status and document type gives back that value |
| Enums.CodesInjective | src/DocProcessor.Core/Enums/ProcessingEnums.cs:3-27 | within each enum, equal codes mean equal values |
| Entities.NewDocumentRequest | src/DocProcessor.Core/Entities/DocumentRequest.cs:11-62 | a new request is Pending with RetryCount 0; markdown, result, error, batch id and completion time are null; content and strings are empty |
| Entities.NewBatchJob | src/DocProcessor.Core/Entities/BatchJob.cs:10-40 | a new job is Created, with no remote id, no request ids, zero counters and no timestamps or error |
| Entities.BatchJobStatusFromCode | src/DocProcessor.Core/Entities/BatchJob.cs:43-51 | a job status code decodes exactly when it is in 0..5 |
| Entities.BatchJobStatusRoundTrip | src/DocProcessor.Core/Entities/BatchJob.cs:43-51 | decoding the code of every job status gives back that status |
| Entities.IdsOf | src/DocProcessor.Worker/BatchProcessingWorker.cs:133 | the ids of a request list, position by position |
| Settings.Defaults | src/DocProcessor.Core/Configuration/Settings.cs:44-47 | threshold 100, processing interval 15, max retries 3, check interval 5 |
| Sequences.Limit | src/DocProcessor.Infrastructure/Repositories/DocumentRequestRepository.cs:54 | MongoDB limit: 0 keeps everything, otherwise at most the absolute value, always a prefix |
| DocumentRequests.FindById | src/DocProcessor.Infrastructure/Repositories/DocumentRequestRepository.cs:39-42 | a record is found exactly when one has the id; it is a stored record with that id, and with distinct ids it is the only one |
| DocumentRequests.ByStatus | src/DocProcessor.Infrastructure/Repositories/DocumentRequestRepository.cs:44-47 | exactly the stored records with that status |
| DocumentRequests.QueuedRequests | src/DocProcessor.Infrastructure/Repositories/DocumentRequestRepository.cs:49-56 | only stored Queued records, sorted by CreatedAt, as many as the limit allows and no more |
| DocumentRequests.QueuedRequestsAreOldest | src/DocProcessor.Infrastructure/Repositories/DocumentRequestRepository.cs:49-56 | a Queued record left out is no older than any record taken |
| DocumentRequests.ByBatchId | src/DocProcessor.Infrastructure/Repositories/DocumentRequestRepository.cs:63-66 | exactly the stored records pointing at that batch |
| DocumentRequests.NewestFirst | src/DocProcessor.Infrastructure/Repositories/DocumentRequestRepository.cs:115 | every stored record, each as often as stored, in descending CreatedAt order |
| DocumentRequests.AllNewestFirst | src/DocProcessor.Infrastructure/Repositories/DocumentRequestRepository.cs:111-119 | descending CreatedAt; only stored records, none more often than stored; exactly as many as `Limit(Skip(store, skip), take)` keeps |
| DocumentRequests.AllNewestFirstLeavesOut | src/DocProcessor.Infrastructure/Repositories/DocumentRequestRepository.cs:111-119 | a stored record left off the page that is newer than one on it is no older than anything on the page, and is among the `skip` newest; with `skip` 0 nothing left off is newer than anything returned |
| DocumentRequests.AllNewestFirstSkipsNewest | src/DocProcessor.Infrastructure/Repositories/DocumentRequestRepository.cs:116 | with distinct ids, none of the `skip` newest records is on the page, and each is no older than anything on it |
| DocumentRequests.NewestFirstSorted | src/DocProcessor.Infrastructure/Repositories/DocumentRequestRepository.cs:111-119 | reversing an ascending sort and skipping gives a newest-first page |
| DocumentRequests.Replace | src/DocProcessor.Infrastructure/Repositories/DocumentRequestRepository.cs:75-79 | the record with that id is replaced, every other record and every id stays, a missing id changes nothing |
| DocumentRequests.WithStatus | src/DocProcessor.Infrastructure/Repositories/DocumentRequestRepository.cs:81-98 | status and UpdatedAt set; message set only when one is given; CompletedAt set exactly for Completed or Failed; nothing else changes |
| DocumentRequests.WithResult | src/DocProcessor.Infrastructure/Repositories/DocumentRequestRepository.cs:100-109 | result, Completed, UpdatedAt and CompletedAt set; error message, batch id and the rest unchanged |
| DocumentRequests.SetStatus | src/DocProcessor.Infrastructure/Repositories/DocumentRequestRepository.cs:81-98 | only the record with that id gets the status update |
| DocumentRequests.SetResult | src/DocProcessor.Infrastructure/Repositories/DocumentRequestRepository.cs:100-109 | only the record with that id gets the result update |
| DocumentRequests.FindByIdSamePlace | src/DocProcessor.Infrastructure/Repositories/DocumentRequestRepository.cs:39-42 | two stores with the same ids in the same places find the same position for an id |
| DocumentRequests.CreateThenFind | src/DocProcessor.Infrastructure/Repositories/DocumentRequestRepository.cs:68-73 | after inserting a new id, looking it up returns the inserted record, and ids stay distinct |
| DocumentRequests.DocumentRequestRepository.Create | src/DocProcessor.Infrastructure/Repositories/DocumentRequestRepository.cs:68-73 | succeeds exactly for a new id and then appends the record; a duplicate changes nothing |
| DocumentRequests.DocumentRequestRepository.Update | src/DocProcessor.Infrastructure/Repositories/DocumentRequestRepository.cs:75-79 | the store becomes `Replace` of the record stamped with UpdatedAt |
| DocumentRequests.DocumentRequestRepository.UpdateStatus | src/DocProcessor.Infrastructure/Repositories/DocumentRequestRepository.cs:81-98 | the store becomes `SetStatus` of the old store |
| DocumentRequests.DocumentRequestRepository.UpdateResult | src/DocProcessor.Infrastructure/Repositories/DocumentRequestRepository.cs:100-109 | the store becomes `SetResult` of the old store |
| BatchJobs.JobById | src/DocProcessor.Infrastructure/Repositories/BatchJobRepository.cs:56-59 | a job is found exactly when one has the id, and it is a stored job with that id |
| BatchJobs.JobByRemoteId | src/DocProcessor.Infrastructure/Repositories/BatchJobRepository.cs:61-64 | a stored job with that remote id, or none when no stored job has it |
| BatchJobs.PendingJobs | src/DocProcessor.Infrastructure/Repositories/BatchJobRepository.cs:66-72 | exactly the Created jobs, each as often as stored (multiset equality), sorted by CreatedAt |
| BatchJobs.SubmittedJobs | src/DocProcessor.Infrastructure/Repositories/BatchJobRepository.cs:74-79 | exactly the Submitted or Processing jobs |
| BatchJobs.NewestJobsFirst | src/DocProcessor.Infrastructure/Repositories/BatchJobRepository.cs:97 | every stored job, each as often as stored, in descending CreatedAt order |
| BatchJobs.AllJobsNewestFirst | src/DocProcessor.Infrastructure/Repositories/BatchJobRepository.cs:93-101 | descending CreatedAt; only stored jobs, none more often than stored; exactly as many as `Limit(Skip(store, skip), take)` keeps |
| BatchJobs.AllJobsNewestFirstLeavesOut | src/DocProcessor.Infrastructure/Repositories/BatchJobRepository.cs:93-101 | a stored job left off the page that is newer than one on it is no older than anything on the page, and is among the `skip` newest; with `skip` 0 nothing left off is newer than anything returned |
| BatchJobs.AllJobsNewestFirstSkipsNewest | src/DocProcessor.Infrastructure/Repositories/BatchJobRepository.cs:98 | with distinct ids, none of the `skip` newest jobs is on the page, and each is no older than anything on it |
| BatchJobs.NewestJobsFirstSorted | src/DocProcessor.Infrastructure/Repositories/BatchJobRepository.cs:93-101 | reversing an ascending sort and skipping gives a newest-first page |
| BatchJobs.ReplaceJob | src/DocProcessor.Infrastructure/Repositories/BatchJobRepository.cs:88-91 | the job with that id is replaced, all others stay, a missing id changes nothing |
| BatchJobs.CreateJobThenFind | src/DocProcessor.Infrastructure/Repositories/BatchJobRepository.cs:81-86 | after inserting a new id, looking it up returns the job, and ids stay distinct |
| BatchJobs.ReplaceThenFind | src/DocProcessor.Infrastructure/Repositories/BatchJobRepository.cs:88-91 | after replacing a stored job, looking up its id returns the new job |
| BatchJobs.ReplaceJustCreated | src/DocProcessor.Worker/BatchProcessingWorker.cs:139-158 | updating the job just inserted replaces the last entry and leaves the rest |
| BatchJobs.BatchJobRepository.Create | src/DocProcessor.Infrastructure/Repositories/BatchJobRepository.cs:81-86 | succeeds exactly for a new id and then appends the job; jobs are never removed |
| BatchJobs.BatchJobRepository.Update | src/DocProcessor.Infrastructure/Repositories/BatchJobRepository.cs:88-91 | the store becomes `ReplaceJob` of the old store |
| BatchLlmService.MapBatchStatus | src/DocProcessor.Infrastructure/Services/BatchLlmService.cs:224-234 | each of the seven remote statuses maps to its name; any other string is returned unchanged |
| BatchLlmService.GetBatchStatus | src/DocProcessor.Infrastructure/Services/BatchLlmService.cs:89-120 | a failed call fails; otherwise the mapped status with "Unknown" for null, and each count 0 when counts or that field are absent |
| BatchLlmService.AccumulateOutput | src/DocProcessor.Infrastructure/Services/BatchLlmService.cs:148-175 | the line loop over the output file computes the left fold of the per-line rule |
| BatchLlmService.AccumulateErrors | src/DocProcessor.Infrastructure/Services/BatchLlmService.cs:189-205 | the line loop over the error file computes the left fold of the per-line rule |
| BatchLlmService.GetBatchResult | src/DocProcessor.Infrastructure/Services/BatchLlmService.cs:122-222 | output file read only for "completed" with an output file, then the error file, then the result record |
| BatchLlmService.FoldOutputAppend | src/DocProcessor.Infrastructure/Services/BatchLlmService.cs:148-175 | a parsed record appended to a file that folds without error has its per-line rule applied last |
| BatchLlmService.OutputLastLineWins | src/DocProcessor.Infrastructure/Services/BatchLlmService.cs:155-161 | a final line with a non-empty `choices` overwrites the result for its id (null content becomes "") |
| BatchLlmService.OutputLastErrorWins | src/DocProcessor.Infrastructure/Services/BatchLlmService.cs:163-169 | a final line without choices but with an `error` overwrites the error for its id ("Unknown error" for a missing or null message) |
| BatchLlmService.OutputLineWithNeitherIgnored | src/DocProcessor.Infrastructure/Services/BatchLlmService.cs:155-169 | a line with neither choices nor an `error` leaves results and errors unchanged |
| BatchLlmService.MalformedOutputSkipped | src/DocProcessor.Infrastructure/Services/BatchLlmService.cs:171-174 | an unparseable output line changes nothing and does not stop the loop |
| BatchLlmService.MalformedErrorSkipped | src/DocProcessor.Infrastructure/Services/BatchLlmService.cs:201-204 | an unparseable error line changes nothing and does not stop the loop |
| BatchLlmService.ErrorFileKeepsResults | src/DocProcessor.Infrastructure/Services/BatchLlmService.cs:189-200 | the error file never touches results and never removes an error entry |
| BatchLlmService.ResultsOnlyWhenCompleted | src/DocProcessor.Infrastructure/Services/BatchLlmService.cs:138-215 | IsCompleted holds exactly for "completed"; results are present only for "completed" with an output file |
| BatchLlmService.CreateBatchRequest | src/DocProcessor.Infrastructure/Services/BatchLlmService.cs:236-272 | custom_id is the request id, model its deployment, POST to /chat/completions, with schema, instruction and markdown |
| BatchLlmService.Payload | src/DocProcessor.Infrastructure/Services/BatchLlmService.cs:38-42 | one line per request, in input order |
| BatchLlmService.PayloadIgnoresState | src/DocProcessor.Infrastructure/Services/BatchLlmService.cs:236-272 | the payload depends only on id, model, schema, instruction and markdown, not on status or batch id |
| BatchLlmService.BuildPayload | src/DocProcessor.Infrastructure/Services/BatchLlmService.cs:37-42 | the append loop yields exactly one line per request in order, each with the request id and model |
| BatchLlmService.SubmitBatch | src/DocProcessor.Infrastructure/Services/BatchLlmService.cs:30-87 | the upload receives exactly the payload of the requests |
| Phases.Converted | src/DocProcessor.Worker/BatchProcessingWorker.cs:76-97 | success: Queued with the markdown; failure: Failed with the prefixed message; batch id and all other fields kept |
| Phases.Marked | src/DocProcessor.Worker/BatchProcessingWorker.cs:145-150 | BatchSubmitted pointing at the job, nothing else changes |
| Phases.Requeued | src/DocProcessor.Worker/BatchProcessingWorker.cs:169-174 | Queued with no batch, nothing else changes |
| Phases.ConversionEffect | src/DocProcessor.Worker/BatchProcessingWorker.cs:59-98 | a non-Pending request is untouched; a Pending one reached becomes Queued with markdown or Failed with the prefixed message, on its own outcome only; one not reached stays Pending |
| Phases.ConversionWithoutPendingIsNoop | src/DocProcessor.Worker/BatchProcessingWorker.cs:61-66 | with no Pending request the conversion changes nothing |
| Phases.ConversionIdempotent | src/DocProcessor.Worker/BatchProcessingWorker.cs:61-98 | a finished conversion leaves no Pending request, so a second run changes nothing |
| Phases.NewJobFor | src/DocProcessor.Worker/BatchProcessingWorker.cs:131-137 | the job holds the fetched ids in fetch order and their count, status Created |
| Phases.SubmittedJob | src/DocProcessor.Worker/BatchProcessingWorker.cs:154-158 | Submitted with the remote id and SubmittedAt, nothing else changes |
| Phases.QueueGate | src/DocProcessor.Worker/BatchProcessingWorker.cs:101-118 | no Queued request: nothing changes; any Queued request: a selection that is not empty and one new job unless the id is taken |
| Phases.SubmitSuccess | src/DocProcessor.Worker/BatchProcessingWorker.cs:120-162 | job Submitted with the remote id and the fetched ids; every fetched request BatchSubmitted pointing at it; the others untouched |
| Phases.MembershipById | src/DocProcessor.Worker/BatchProcessingWorker.cs:143-151 | with distinct ids, a stored record is in the batch exactly when its id is |
| Phases.CompensationRestoresQueue | src/DocProcessor.Worker/BatchProcessingWorker.cs:164-175 | every fetched request is Queued with no batch, the Queued count is as before, the job store holds at most the Created job |
| Phases.RequeueKeepsQueuedCount | src/DocProcessor.Worker/BatchProcessingWorker.cs:164-175 | putting fetched Queued requests back keeps the Queued count |
| SubmissionLoops.Mark | src/DocProcessor.Worker/BatchProcessingWorker.cs:145-151 | the marking loop leaves exactly the members marked in the store and returns the marked objects |
| SubmissionLoops.Requeue | src/DocProcessor.Worker/BatchProcessingWorker.cs:169-174 | the compensation loop writes every member back Queued with no batch, whatever it was before |
| BatchProcessingWorker.ProcessPendingRequests | src/DocProcessor.Worker/BatchProcessingWorker.cs:59-99 | the store becomes `ConvertPending` of the Pending snapshot, up to the cancellation point |
| BatchProcessingWorker.SubmitBatch | src/DocProcessor.Worker/BatchProcessingWorker.cs:120-177 | both stores become `SubmitQueued`; the error is dropped |
| BatchProcessingWorker.ProcessBatchQueue | src/DocProcessor.Worker/BatchProcessingWorker.cs:101-118 | both stores become `ProcessQueue`, the queue gate |
| BatchProcessingWorker.Cycle | src/DocProcessor.Worker/BatchProcessingWorker.cs:40-53 | one iteration: `ProcessQueue` on the `ConvertPending` store |
| BatchSubmitFunction.ProcessPendingRequests | src/DocProcessor.Functions/BatchSubmitFunction.cs:63-99 | the store becomes `ConvertPending` over every Pending request; none is left Pending |
| BatchSubmitFunction.SubmitBatch | src/DocProcessor.Functions/BatchSubmitFunction.cs:120-178 | both stores become `SubmitQueued` and its failure is returned |
| BatchSubmitFunction.ProcessBatchQueue | src/DocProcessor.Functions/BatchSubmitFunction.cs:101-118 | both stores become `ProcessQueue`, failure returned |
| BatchSubmitFunction.Run | src/DocProcessor.Functions/BatchSubmitFunction.cs:41-61 | `ConvertPending`, then `ProcessQueue`; a submission failure is the invocation's failure |
| BatchResultPollingWorker.JobOutcome | src/DocProcessor.Worker/BatchResultPollingWorker.cs:158-160 | PartiallyCompleted iff both counts are positive; Failed iff only failures; Completed iff no failure, zero and zero included |
| BatchResultPollingWorker.StoreResults | src/DocProcessor.Worker/BatchResultPollingWorker.cs:128-148 | every request whose id has a result gets that result update; the others are untouched |
| BatchResultPollingWorker.StoreErrors | src/DocProcessor.Worker/BatchResultPollingWorker.cs:151-155 | every request whose id has an error becomes Failed with it; the others are untouched |
| BatchResultPollingWorker.CompletedJob | src/DocProcessor.Worker/BatchResultPollingWorker.cs:157-164 | counters are the sizes of Results and Errors, status by `JobOutcome`, CompletedAt set, nothing else changes |
| BatchResultPollingWorker.CompletionEffect | src/DocProcessor.Worker/BatchResultPollingWorker.cs:118-168 | a result-only id is Completed with its result; an error id ends Failed with its message and keeps the result written first; an id in neither stays as it was |
| BatchResultPollingWorker.EmptyCompletionIsCompleted | src/DocProcessor.Worker/BatchResultPollingWorker.cs:158-163 | an empty completed batch changes no request, sends nothing and marks the job Completed with zero counters |
| BatchResultPollingWorker.CallbackAfterResult | src/DocProcessor.Worker/BatchResultPollingWorker.cs:132-139 | a callback is sent exactly for a result whose stored request has a callback URL, and carries the stored result |
| BatchResultPollingWorker.Retried | src/DocProcessor.Worker/BatchResultPollingWorker.cs:181-184 | Queued, no batch, RetryCount plus one, nothing else changes |
| BatchResultPollingWorker.JobFailed | src/DocProcessor.Worker/BatchResultPollingWorker.cs:177-191 | below the cap the member is retried, otherwise marked Failed with the job message |
| BatchResultPollingWorker.FailOneEffect | src/DocProcessor.Worker/BatchResultPollingWorker.cs:175-192 | one member id affects only the record with that id |
| BatchResultPollingWorker.FailedJob | src/DocProcessor.Worker/BatchResultPollingWorker.cs:194-197 | Failed with the message and CompletedAt, nothing else changes |
| BatchResultPollingWorker.RetryBound | src/DocProcessor.Worker/BatchResultPollingWorker.cs:178-190 | a job failure never lowers RetryCount and never raises it above the cap |
| BatchResultPollingWorker.RetriesRunOut | src/DocProcessor.Worker/BatchResultPollingWorker.cs:178-190 | after enough job failures the request is Failed with RetryCount equal to the cap |
| BatchResultPollingWorker.StaysFailed | src/DocProcessor.Worker/BatchResultPollingWorker.cs:188-191 | a request at the cap stays Failed with the same RetryCount |
| BatchResultPollingWorker.Progressed | src/DocProcessor.Worker/BatchResultPollingWorker.cs:110-114 | Processing with the remote counters copied verbatim, nothing else changes |
| BatchResultPollingWorker.ProgressChangesNoRequest | src/DocProcessor.Worker/BatchResultPollingWorker.cs:108-115 | any other status changes no request, sends nothing and only updates the job's progress |
| BatchResultPollingWorker.ResolveTouchesOneJob | src/DocProcessor.Worker/BatchResultPollingWorker.cs:92-116 | resolving a job changes no other job |
| BatchResultPollingWorker.ScanTouchesOnlyScanned | src/DocProcessor.Worker/BatchResultPollingWorker.cs:66-89 | the scan changes only the jobs it scanned |
| BatchResultPollingWorker.PollLeavesOtherJobs | src/DocProcessor.Worker/BatchResultPollingWorker.cs:64 | a job that is not Submitted or Processing is never changed by a poll |
| BatchResultPollingWorker.ScanContinuesPastFailure | src/DocProcessor.Worker/BatchResultPollingWorker.cs:76-88 | outside development, a failing job is skipped and the scan goes on with the rest |
| BatchResultPollingWorker.ApplyResults | src/DocProcessor.Worker/BatchResultPollingWorker.cs:124-148 | the results loop stores every result, sends exactly the callbacks of `Callbacks`, and counts every entry |
| BatchResultPollingWorker.ApplyErrors | src/DocProcessor.Worker/BatchResultPollingWorker.cs:151-155 | the errors loop fails every listed request and counts every entry |
| BatchResultPollingWorker.HandleCompletedBatch | src/DocProcessor.Worker/BatchResultPollingWorker.cs:118-168 | both stores and the callbacks become `CompletedBatch`; a failed fetch changes nothing |
| BatchResultPollingWorker.HandleFailedBatch | src/DocProcessor.Worker/BatchResultPollingWorker.cs:170-198 | the store becomes `FailAll` over the member ids in order; the job becomes Failed |
| BatchResultPollingWorker.ProcessBatchResult | src/DocProcessor.Worker/BatchResultPollingWorker.cs:92-116 | both stores become `ResolveJob`: Completed goes to completion, Failed/Expired/Cancelled to failure with "Batch <status>", anything else to progress |
| BatchResultPollingWorker.PollBatchResults | src/DocProcessor.Worker/BatchResultPollingWorker.cs:62-90 | both stores become `PollResults`: scans the in-flight jobs up to cancellation, skips those without a remote id, and stops at a failure only in development |
| DocumentProcessingService.LastIndexOf | src/DocProcessor.Infrastructure/Services/DocumentProcessingService.cs:286 | the position of the last occurrence, or -1 when there is none |
| DocumentProcessingService.Extension | src/DocProcessor.Infrastructure/Services/DocumentProcessingService.cs:286 | non-empty exactly when some dot, not the last character, has no dot and no separator after it; then the suffix from that dot |
| DocumentProcessingService.TypeOfExtension | src/DocProcessor.Infrastructure/Services/DocumentProcessingService.cs:287-295 | the switch agrees with the `KnownExtensions` table; Unknown exactly for an extension not in it |
| DocumentProcessingService.DetermineDocumentType | src/DocProcessor.Infrastructure/Services/DocumentProcessingService.cs:284-296 | the table's type of the lower-cased extension; Unknown exactly when that is not in the table, so always for a name without extension |
| DocumentProcessingService.Lower | src/DocProcessor.Infrastructure/Services/DocumentProcessingService.cs:286 | each character lowered, length kept |
| DocumentProcessingService.DocumentTypeIgnoresCase | src/DocProcessor.Infrastructure/Services/DocumentProcessingService.cs:284-296 | lowering a name lowers its extension and gives the same document type |
| DocumentProcessingService.PdfExample | src/DocProcessor.Infrastructure/Services/DocumentProcessingService.cs:284-296 | "Report.PDF" is a PDF: the extension is compared in lower case |
| DocumentProcessingService.ImageExample | src/DocProcessor.Infrastructure/Services/DocumentProcessingService.cs:284-296 | "a.b.JpEg" is an image: only the text after the last dot counts |
| DocumentProcessingService.ShadowedExtensionExample | src/DocProcessor.Infrastructure/Services/DocumentProcessingService.cs:284-296 | "notes.txt.bak" is Unknown: an earlier known extension does not count |
| DocumentProcessingService.NoExtensionExamples | src/DocProcessor.Infrastructure/Services/DocumentProcessingService.cs:284-296 | "v1.2/README" and "letter." are Unknown: a dot in a directory or at the end gives no extension |
| DocumentProcessingService.GetRequestStatus | src/DocProcessor.Infrastructure/Services/DocumentProcessingService.cs:261-277 | null exactly for an unknown id; otherwise the stored id, status, result, message, CreatedAt and CompletedAt |
| DocumentProcessingService.RequestFor | src/DocProcessor.Infrastructure/Services/DocumentProcessingService.cs:43-54 | the record carries the submitted fields, the given mode and status, the document type of its name, and no markdown, result, error or batch |
| DocumentProcessingService.ProcessRealTime | src/DocProcessor.Infrastructure/Services/DocumentProcessingService.cs:39-108 | the store and the answer become `ServeRealTime` |
| DocumentProcessingService.RealTimeAnswerMatchesStore | src/DocProcessor.Infrastructure/Services/DocumentProcessingService.cs:56-106 | the answer's status, result and message are what a status call then reads; Completed iff the id was new and conversion and extraction succeeded, otherwise Failed |
| DocumentProcessingService.RealTimeSuccess | src/DocProcessor.Infrastructure/Services/DocumentProcessingService.cs:56-90 | a new id that converts and extracts is appended Completed, in real-time mode, with markdown, result and CompletedAt |
| DocumentProcessingService.ConvertedBatch | src/DocProcessor.Infrastructure/Services/DocumentProcessingService.cs:193-228 | each member marked, then converted, position by position |
| DocumentProcessingService.ConvertMembers | src/DocProcessor.Infrastructure/Services/DocumentProcessingService.cs:205-228 | the in-batch conversion loop leaves every member Queued with markdown or Failed, keeping its batch |
| DocumentProcessingService.RequeueConverted | src/DocProcessor.Infrastructure/Services/DocumentProcessingService.cs:245-256 | after a failed upload every converted member is Queued with no batch |
| DocumentProcessingService.ConvertAndUpload | src/DocProcessor.Infrastructure/Services/DocumentProcessingService.cs:202-257 | conversion and upload, then the job Submitted; a failed upload re-queues all members and keeps the Created job |
| DocumentProcessingService.SubmitSelection | src/DocProcessor.Infrastructure/Services/DocumentProcessingService.cs:179-258 | marking before the job insert, a duplicate job id re-queues the members; both stores become `InBatchSubmit` |
| DocumentProcessingService.ProcessBatchQueue | src/DocProcessor.Infrastructure/Services/DocumentProcessingService.cs:170-259 | both stores become `InBatchSubmit` of `Selection`: the given list or else the oldest Queued up to the threshold; empty changes nothing |
| DocumentProcessingService.SubmitBatchIfThresholdMet | src/DocProcessor.Infrastructure/Services/DocumentProcessingService.cs:151-168 | both stores become `ThresholdSubmit`, the threshold gate |
| DocumentProcessingService.QueueForBatchProcessing | src/DocProcessor.Infrastructure/Services/DocumentProcessingService.cs:110-149 | both stores and the answer become `Enqueue` |
| DocumentProcessingService.ThresholdGate | src/DocProcessor.Infrastructure/Services/DocumentProcessingService.cs:151-190 | below the threshold nothing changes; at or above it one job holds every Queued id in store order, with no size limit |
| DocumentProcessingService.InBatchSuccessLeavesMembersQueued | src/DocProcessor.Infrastructure/Services/DocumentProcessingService.cs:193-238 | after a successful upload no member is BatchSubmitted: each is Queued with markdown or Failed with the prefixed message, still pointing at the job; the job is Submitted; others untouched |
| DocumentProcessingService.InBatchCompensationQueuesAll | src/DocProcessor.Infrastructure/Services/DocumentProcessingService.cs:245-257 | a failed upload leaves every member Queued with no batch, failed conversions keeping their message; the Created job stays; the failure is returned |
| DocumentProcessingService.ThresholdSubmitKeepsIds | src/DocProcessor.Infrastructure/Services/DocumentProcessingService.cs:151-259 | the threshold-gated submission keeps every record in place under its id |
| DocumentProcessingService.EnqueueAnswer | src/DocProcessor.Infrastructure/Services/DocumentProcessingService.cs:110-149 | Ok iff the id is new, with that id, Queued and CreatedAt; the record is appended; a duplicate changes no store |
| DocumentProcessingService.EnqueueBelowThreshold | src/DocProcessor.Infrastructure/Services/DocumentProcessingService.cs:118-165 | below the threshold the new record is stored as built, Queued in batch mode, and no job appears |

## Left out

- HTTP controllers, the JSON, JSONL and multipart encodings and the prompt
  text are not modelled. Remote reads are given as parsed views; parsed lines
  are an abstract datatype.
- The converter, the real-time LLM call, the bulk upload, the remote batch
  views and the clock are parameters. A call that throws is an `Err` value.
- Concurrency is not modelled. The two workers, the function and the API do
  not interleave. The fire-and-forget threshold submission after an enqueue
  runs to completion before the call answers, and its failure is not seen
  by the caller.
- The service loops, their delays, logging, and the callback's HTTP POST are
  not modelled. A callback is an element of a set; it is best effort and has
  no ordering.
- Cancellation is a `budget`: the number of loop iterations begun before the
  token is seen.
- `IsDevelopment()` is a boolean parameter. Its outer-loop rethrow is not
  modelled, because it only ends the service loop.
- Ties in CreatedAt: MongoDB returns documents with equal sort keys in no
  guaranteed order. The model fixes one order as a modelling choice. The
  ascending queries keep store order among ties. `NewestFirst` and
  `NewestJobsFirst` reverse a stable ascending sort, so among ties they give
  reverse store order. The skipped prefix `Take(NewestFirst(..), skip)` named
  by the `LeavesOut` and `SkipsNewest` lemmas depends on this order. The
  remaining clauses compare only CreatedAt values and would hold for any
  order among ties: `QueuedRequestsAreOldest`, the `skip` 0 clause, and "a
  left-off record newer than one shown is no older than anything shown".
- The store is in memory and never throws. So the catch inside the
  completion loop over results is unreachable and is not modelled.
- The dictionary enumeration order of Results and Errors is an arbitrary
  choice of key. The specification does not depend on it, since each key
  touches its own record.
- `FindById` (`GetRequestAsync`) is the plain lookup; it has no separate
  member.
- `GetTotalCountAsync` and `GetRecentRequestsAsync` are not modelled: no
  procedure of the core uses them.
- The request counts are 32-bit in the source. Here they are unbounded;
  overflow needs more than 2^31 requests.
- The `temperature` float in the batch payload is not modelled.
- The converter is a function of the document's content and name only. Two
  identical documents in one run therefore get the same outcome; a converter
  whose answer depends on anything else is not captured.
- Each call takes one `now`. The source reads `DateTime.UtcNow` separately
  for UpdatedAt and CompletedAt (DocumentRequestRepository.cs lines 85 and 94,
  105 and 106); the model gives both the same instant.
- DocumentRequests.AllNewestFirst: `skip` is a `nat`. The source takes an
  `int` that the admin endpoint passes on unchecked; MongoDB rejects a
  negative skip with an error, and that error path is not modelled.
- BatchJobs.AllJobsNewestFirst: `skip` is a `nat`, for the same reason; a
  negative skip is a MongoDB error and is not modelled.
- BatchResultPollingWorker.ProcessBatchResult: passes one remote view to both
  the status call and the result call. The source makes two separate GETs of
  `batches/{id}`, which could see different states.
- DocumentProcessingService.Lower: lowers ASCII letters only, whereas
  `ToLowerInvariant` lowers every cased character. The extension table is
  ASCII, so its verdicts agree for ASCII names.
- DocumentProcessingService.Extension: takes `/` as the only directory
  separator, as on Linux. Windows also splits at `\` and `:`.
- DocumentProcessingService.ProcessBatchQueue: requires an explicitly passed
  list to be a snapshot of stored records. The only caller passes the result
  of the status query, which is one.
- The duplicate-key message is the constant "E11000 duplicate key error".
  The driver's full message names the collection and key.
- On the real-time path the service sets UpdatedAt on the local object
  before the store replaces it. The model tracks UpdatedAt only in the
  store.
- A remote batch view without a "status" property is an `Err`, because that
  call throws.
