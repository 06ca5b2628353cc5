/**
 * The service behind the documents API: the real-time path (store, convert,
 * extract, record the outcome), the batch enqueue with its threshold-gated
 * submission, its own bulk submission step (which converts inside the
 * batch), the status projection and the document-type rule.
 */
module DocumentProcessingService {
  import opened Wrappers
  import opened Enums
  import opened Entities
  import opened Settings
  import opened Sequences
  import opened DocumentRequests
  import opened BatchJobs
  import opened BatchLlmService
  import opened Phases
  import opened SubmissionLoops

  /** What a client submits. */
  datatype DocumentProcessingRequest = DocumentProcessingRequest(
    documentContent: seq<byte>,
    documentName: string,
    instruction: string,
    jsonSchema: string,
    modelDeploymentId: Option<string>,
    callbackUrl: Option<string>)

  /** What the real-time and enqueue calls answer. */
  datatype DocumentProcessingResponse = DocumentProcessingResponse(
    requestId: string,
    status: ProcessingStatus,
    result: Option<string>,
    errorMessage: Option<string>,
    createdAt: Time,
    completedAt: Option<Time>)

  /** What the status call answers. */
  datatype RequestStatusResponse = RequestStatusResponse(
    requestId: string,
    status: ProcessingStatus,
    result: Option<string>,
    errorMessage: Option<string>,
    createdAt: Time,
    completedAt: Option<Time>)

  // ---------------------------------------------------------------------------
  // Document type
  // ---------------------------------------------------------------------------

  /** The last position of `c` in `s`, or -1. */
  function LastIndexOf(s: string, c: char): (k: int)
    ensures -1 <= k < |s|
    ensures k >= 0 ==> s[k] == c
    ensures forall j :: k < j < |s| ==> s[j] != c
    decreases |s|
  {
    if s == [] then -1
    else if s[|s| - 1] == c then |s| - 1
    else LastIndexOf(s[..|s| - 1], c)
  }

  /**
   * `Path.GetExtension` with `/` as the directory separator: from the last
   * `.` that follows the last separator, the dot included; empty when there is
   * no such dot or it ends the name.
   */
  function Extension(name: string): (e: string)
    ensures e == [] || (2 <= |e| <= |name| && e[0] == '.' && e == name[|name| - |e|..])
    ensures forall j :: 0 <= j < |e| ==> e[j] != '/'
    ensures forall j :: 1 <= j < |e| ==> e[j] != '.'
    ensures e != [] <==> exists k :: 0 <= k < |name| - 1 && name[k] == '.' && NoDotOrSeparatorAfter(name, k)
  {
    var dot := LastIndexOf(name, '.');
    var separator := LastIndexOf(name, '/');
    if dot <= separator || dot == |name| - 1 then
      assert forall k :: 0 <= k < |name| - 1 && name[k] == '.' ==> !NoDotOrSeparatorAfter(name, k) by {
        forall k | 0 <= k < |name| - 1 && name[k] == '.' ensures !NoDotOrSeparatorAfter(name, k) {
          if k < dot {
            assert name[dot] == '.';
          } else {
            assert separator > k && name[separator] == '/';
          }
        }
      }
      []
    else
      assert NoDotOrSeparatorAfter(name, dot);
      name[dot..]
  }

  /** Neither `.` nor `/` occurs after position `k`. */
  predicate NoDotOrSeparatorAfter(name: string, k: nat) {
    forall j :: k < j < |name| ==> name[j] != '.' && name[j] != '/'
  }

  /** `ToLowerInvariant` on ASCII letters. */
  function LowerChar(c: char): char {
    if 'A' <= c <= 'Z' then (c as int + 32) as char else c
  }

  function Lower(s: string): (t: string)
    ensures |t| == |s| && forall j :: 0 <= j < |s| ==> t[j] == LowerChar(s[j])
  {
    seq(|s|, j requires 0 <= j < |s| => LowerChar(s[j]))
  }

  /** The extension table, as a `switch`: it agrees with `KnownExtensions`. */
  function TypeOfExtension(ext: string): (t: DocumentType)
    ensures ext in KnownExtensions ==> t == KnownExtensions[ext]
    ensures t == Unknown <==> ext !in KnownExtensions
  {
    match ext
    case ".pdf" => Pdf
    case ".doc" => Word
    case ".docx" => Word
    case ".jpg" => Image
    case ".jpeg" => Image
    case ".png" => Image
    case ".gif" => Image
    case ".bmp" => Image
    case ".tiff" => Image
    case ".html" => Html
    case ".htm" => Html
    case ".txt" => Text
    case _ => Unknown
  }

  /** The recognised extensions, in lower case, with their document types. */
  const KnownExtensions: map<string, DocumentType> := map[
    ".pdf" := Pdf, ".doc" := Word, ".docx" := Word,
    ".jpg" := Image, ".jpeg" := Image, ".png" := Image, ".gif" := Image, ".bmp" := Image, ".tiff" := Image,
    ".html" := Html, ".htm" := Html, ".txt" := Text]

  /**
   * `DetermineDocumentType`: the type the table gives the lower-cased
   * extension; Unknown exactly when the extension is not in the table, in
   * particular when the name has none.
   */
  function DetermineDocumentType(fileName: string): (t: DocumentType)
    ensures Lower(Extension(fileName)) in KnownExtensions ==> t == KnownExtensions[Lower(Extension(fileName))]
    ensures t == Unknown <==> Lower(Extension(fileName)) !in KnownExtensions
    ensures Extension(fileName) == [] ==> t == Unknown
  {
    assert [] !in KnownExtensions;
    TypeOfExtension(Lower(Extension(fileName)))
  }

  /** Lowering a name moves no dot and no separator. */
  lemma {:induction false} LowerKeepsLastIndex(s: string, c: char)
    requires c == '.' || c == '/'
    ensures LastIndexOf(Lower(s), c) == LastIndexOf(s, c)
    decreases |s|
  {
    if s != [] {
      assert Lower(s)[..|s| - 1] == Lower(s[..|s| - 1]);
      LowerKeepsLastIndex(s[..|s| - 1], c);
    }
  }

  /** The rule ignores letter case: a name and its lower-case form get the same type. */
  lemma DocumentTypeIgnoresCase(fileName: string)
    ensures Extension(Lower(fileName)) == Lower(Extension(fileName))
    ensures DetermineDocumentType(Lower(fileName)) == DetermineDocumentType(fileName)
  {
    LowerKeepsLastIndex(fileName, '.');
    LowerKeepsLastIndex(fileName, '/');
    var dot := LastIndexOf(fileName, '.');
    if !(dot <= LastIndexOf(fileName, '/') || dot == |fileName| - 1) {
      assert Lower(fileName)[dot..] == Lower(fileName[dot..]);
    }
    assert Lower(Lower(Extension(fileName))) == Lower(Extension(fileName));
  }

  /** The last occurrence pins down `LastIndexOf`. */
  lemma LastIndexAt(s: string, c: char, k: int)
    requires -1 <= k < |s| && (k >= 0 ==> s[k] == c)
    requires forall j :: k < j < |s| ==> s[j] != c
    ensures LastIndexOf(s, c) == k
  {
  }

  /** An upper-case extension is recognised. */
  lemma PdfExample()
    ensures DetermineDocumentType("Report.PDF") == Pdf
  {
    LastIndexAt("Report.PDF", '.', 6);
    LastIndexAt("Report.PDF", '/', -1);
    assert Extension("Report.PDF") == ".PDF";
    assert Lower(".PDF") == ".pdf";
  }

  /** Only the text after the last dot counts, in any letter case. */
  lemma ImageExample()
    ensures DetermineDocumentType("a.b.JpEg") == Image
  {
    LastIndexAt("a.b.JpEg", '.', 3);
    LastIndexAt("a.b.JpEg", '/', -1);
    assert Extension("a.b.JpEg") == ".JpEg";
    assert Lower(".JpEg") == ".jpeg";
  }

  /** An earlier known extension does not count. */
  lemma ShadowedExtensionExample()
    ensures DetermineDocumentType("notes.txt.bak") == Unknown
  {
    LastIndexAt("notes.txt.bak", '.', 9);
    LastIndexAt("notes.txt.bak", '/', -1);
    assert Lower(Extension("notes.txt.bak")) == ".bak";
  }

  /** A dot in a directory name, or a dot that ends the name, gives no extension. */
  lemma NoExtensionExamples()
    ensures DetermineDocumentType("v1.2/README") == Unknown
    ensures DetermineDocumentType("letter.") == Unknown
  {
    LastIndexAt("v1.2/README", '.', 2);
    LastIndexAt("v1.2/README", '/', 4);
    LastIndexAt("letter.", '.', 6);
  }

  // ---------------------------------------------------------------------------
  // Status
  // ---------------------------------------------------------------------------

  /** `GetRequestStatusAsync`: null for an unknown id, otherwise a copy of the stored fields. */
  function GetRequestStatus(docs: seq<DocumentRequest>, requestId: string): (r: Option<RequestStatusResponse>)
    ensures r.Some? <==> HasId(docs, requestId)
    ensures forall i :: 0 <= i < |docs| && docs[i].id == requestId && DistinctIds(docs) ==>
      r == Some(RequestStatusResponse(requestId, docs[i].status, docs[i].result, docs[i].errorMessage, docs[i].createdAt, docs[i].completedAt))
  {
    match FindById(docs, requestId)
    case None => None
    case Some(request) =>
      Some(RequestStatusResponse(request.id, request.status, request.result, request.errorMessage, request.createdAt, request.completedAt))
  }

  // ---------------------------------------------------------------------------
  // Real-time path
  // ---------------------------------------------------------------------------

  /** The record built for a submission, before it is stored. */
  function RequestFor(input: DocumentProcessingRequest, id: string, mode: ProcessingMode, status: ProcessingStatus, now: Time): (r: DocumentRequest)
    ensures r.id == id && r.processingMode == mode && r.status == status && r.createdAt == now
    ensures r.documentContent == input.documentContent && r.documentName == input.documentName
    ensures r.instruction == input.instruction && r.jsonSchema == input.jsonSchema
    ensures r.modelDeploymentId == input.modelDeploymentId && r.callbackUrl == input.callbackUrl
    ensures r.documentType == DetermineDocumentType(input.documentName)
    ensures r.markdownContent.None? && r.result.None? && r.errorMessage.None? && r.batchId.None? && r.completedAt.None?
  {
    NewDocumentRequest(id, now).(documentContent := input.documentContent, documentName := input.documentName,
      instruction := input.instruction, jsonSchema := input.jsonSchema, modelDeploymentId := input.modelDeploymentId,
      processingMode := mode, callbackUrl := input.callbackUrl, status := status,
      documentType := DetermineDocumentType(input.documentName))
  }

  /** The stored records and the answer of a real-time call. */
  datatype Served = Served(docs: seq<DocumentRequest>, response: DocumentProcessingResponse)

  /** The catch of the real-time path: the object as it then stands is written Failed with the message. */
  function RealTimeFailure(stored: seq<DocumentRequest>, request: DocumentRequest, message: string, now: Time): Served {
    Served(Replace(stored, request.(status := ProcessingStatus.Failed, errorMessage := Some(message), updatedAt := now)),
           DocumentProcessingResponse(request.id, ProcessingStatus.Failed, None, Some(message), request.createdAt, None))
  }

  /**
   * `ProcessRealTimeAsync`. Any failure (the insert, the conversion, the
   * extraction) lands in the single catch, which writes the object as it is
   * then with status Failed and the message: after a duplicate id that write
   * replaces the record already stored under it.
   */
  function ServeRealTime(docs: seq<DocumentRequest>, input: DocumentProcessingRequest, id: string,
                         convert: (seq<byte>, string) -> Result<string>, llm: (string, string, string, Option<string>) -> Result<string>,
                         now: Time): Served
  {
    var built := RequestFor(input, id, RealTime, ProcessingStatus.Processing, now);
    if HasId(docs, id) then RealTimeFailure(docs, built, DuplicateKeyError, now)
    else
      var stored := docs + [built];
      match convert(input.documentContent, input.documentName)
      case Err(e) => RealTimeFailure(stored, built, e, now)
      case Ok(markdown) =>
        var converted := built.(markdownContent := Some(markdown));
        match llm(markdown, input.instruction, input.jsonSchema, input.modelDeploymentId)
        case Err(e) => RealTimeFailure(stored, converted, e, now)
        case Ok(result) =>
          Served(Replace(stored, converted.(result := Some(result), status := ProcessingStatus.Completed, completedAt := Some(now), updatedAt := now)),
                 DocumentProcessingResponse(id, ProcessingStatus.Completed, Some(result), None, now, Some(now)))
  }

  method ProcessRealTime(requests: DocumentRequestRepository, input: DocumentProcessingRequest, id: string,
                         convert: (seq<byte>, string) -> Result<string>, llm: (string, string, string, Option<string>) -> Result<string>,
                         now: Time) returns (response: DocumentProcessingResponse)
    requires requests.Valid()
    modifies requests
    ensures requests.Valid()
    ensures var served := ServeRealTime(old(requests.docs), input, id, convert, llm, now);
      requests.docs == served.docs && response == served.response
  {
    var documentRequest := RequestFor(input, id, RealTime, ProcessingStatus.Processing, now);
    var error: string;
    var created := requests.Create(documentRequest);
    if !created {
      error := DuplicateKeyError;
    } else {
      var markdownContent := convert(input.documentContent, input.documentName);
      if markdownContent.Err? {
        error := markdownContent.message;
      } else {
        documentRequest := documentRequest.(markdownContent := Some(markdownContent.value));
        var result := llm(markdownContent.value, input.instruction, input.jsonSchema, input.modelDeploymentId);
        if result.Err? {
          error := result.message;
        } else {
          documentRequest := documentRequest.(result := Some(result.value), status := ProcessingStatus.Completed, completedAt := Some(now));
          requests.Update(documentRequest, now);
          return DocumentProcessingResponse(documentRequest.id, ProcessingStatus.Completed, Some(result.value), None,
                                            documentRequest.createdAt, documentRequest.completedAt);
        }
      }
    }
    documentRequest := documentRequest.(status := ProcessingStatus.Failed, errorMessage := Some(error));
    requests.Update(documentRequest, now);
    response := DocumentProcessingResponse(documentRequest.id, ProcessingStatus.Failed, None, Some(error), documentRequest.createdAt, None);
  }

  /**
   * The answer of a real-time call agrees with what a status call then reads:
   * same status, result and message, and the record exists under the id. It is
   * Completed exactly when the id was new and both the conversion and the
   * extraction succeeded; otherwise it is Failed.
   */
  lemma RealTimeAnswerMatchesStore(docs: seq<DocumentRequest>, input: DocumentProcessingRequest, id: string,
                                   convert: (seq<byte>, string) -> Result<string>, llm: (string, string, string, Option<string>) -> Result<string>,
                                   now: Time)
    requires DistinctIds(docs)
    ensures var served := ServeRealTime(docs, input, id, convert, llm, now);
      var status := GetRequestStatus(served.docs, id);
      && DistinctIds(served.docs)
      && status.Some?
      && status.value.status == served.response.status
      && status.value.result == served.response.result
      && status.value.errorMessage == served.response.errorMessage
      && served.response.requestId == id
      && (served.response.status == ProcessingStatus.Completed <==>
            !HasId(docs, id) && convert(input.documentContent, input.documentName).Ok? &&
            llm(convert(input.documentContent, input.documentName).value, input.instruction, input.jsonSchema, input.modelDeploymentId).Ok?)
      && (served.response.status == ProcessingStatus.Completed || served.response.status == ProcessingStatus.Failed)
  {
    var served := ServeRealTime(docs, input, id, convert, llm, now);
    var stored := if HasId(docs, id) then docs else docs + [RequestFor(input, id, RealTime, ProcessingStatus.Processing, now)];
    if !HasId(docs, id) {
      CreateThenFind(docs, RequestFor(input, id, RealTime, ProcessingStatus.Processing, now));
    }
    assert HasId(stored, id) && DistinctIds(stored);
    var i :| 0 <= i < |stored| && stored[i].id == id;
    SameIdsKeepDistinct(stored, served.docs);
    assert served.docs[i].id == id;
  }

  /** A new id that converts and extracts is stored Completed with its result and completion time, after everything else. */
  lemma RealTimeSuccess(docs: seq<DocumentRequest>, input: DocumentProcessingRequest, id: string,
                        convert: (seq<byte>, string) -> Result<string>, llm: (string, string, string, Option<string>) -> Result<string>,
                        now: Time)
    requires !HasId(docs, id)
    requires convert(input.documentContent, input.documentName).Ok?
    requires llm(convert(input.documentContent, input.documentName).value, input.instruction, input.jsonSchema, input.modelDeploymentId).Ok?
    ensures var served := ServeRealTime(docs, input, id, convert, llm, now);
      var markdown := convert(input.documentContent, input.documentName).value;
      var result := llm(markdown, input.instruction, input.jsonSchema, input.modelDeploymentId).value;
      && served.docs[..|docs|] == docs && |served.docs| == |docs| + 1
      && served.docs[|docs|].status == ProcessingStatus.Completed && served.docs[|docs|].result == Some(result)
      && served.docs[|docs|].markdownContent == Some(markdown) && served.docs[|docs|].completedAt == Some(now)
      && served.docs[|docs|].processingMode == RealTime
      && served.response == DocumentProcessingResponse(id, ProcessingStatus.Completed, Some(result), None, now, Some(now))
  {
    var served := ServeRealTime(docs, input, id, convert, llm, now);
    assert forall i :: 0 <= i < |docs| ==> docs[i].id != id;
    assert forall i :: 0 <= i < |docs| ==> served.docs[i] == docs[i];
  }

  // ---------------------------------------------------------------------------
  // The in-batch submission step
  // ---------------------------------------------------------------------------

  /** A batch member after marking and its in-batch conversion: Queued with markdown or Failed, still pointing at the job. */
  function InBatchConverted(r: DocumentRequest, jobId: string, convert: (seq<byte>, string) -> Result<string>, now: Time): DocumentRequest {
    Converted(Marked(r, jobId, now), convert(r.documentContent, r.documentName), now)
  }

  function InBatchConvertStep(jobId: string, convert: (seq<byte>, string) -> Result<string>, now: Time): (f: DocumentRequest -> DocumentRequest)
    ensures StoreWrite(f, now)
  {
    var f := (r: DocumentRequest) => InBatchConverted(r, jobId, convert, now);
    assert forall r :: f(r) == InBatchConverted(r, jobId, convert, now);
    f
  }

  /** The compensation after a failed upload, applied to converted members. */
  function InBatchRequeueStep(jobId: string, convert: (seq<byte>, string) -> Result<string>, now: Time): (f: DocumentRequest -> DocumentRequest)
    ensures StoreWrite(f, now)
  {
    var f := (r: DocumentRequest) => Requeued(InBatchConverted(r, jobId, convert, now), now);
    assert forall r :: f(r) == Requeued(InBatchConverted(r, jobId, convert, now), now);
    f
  }

  /** The member objects handed to the bulk service. */
  function ConvertedBatch(sel: seq<DocumentRequest>, jobId: string, convert: (seq<byte>, string) -> Result<string>, now: Time): (b: seq<DocumentRequest>)
    ensures |b| == |sel| && forall k :: 0 <= k < |sel| ==> b[k] == InBatchConverted(sel[k], jobId, convert, now)
  {
    seq(|sel|, k requires 0 <= k < |sel| => InBatchConverted(sel[k], jobId, convert, now))
  }

  /**
   * `ProcessBatchQueueAsync` of the service on its selection: every member is
   * marked, then the job is inserted (a duplicate id puts the marked members
   * back), then every member is converted, then all of them, converted or
   * not, are uploaded; a failed upload puts them all back in the queue.
   */
  function InBatchSubmit(docs: seq<DocumentRequest>, jobs: seq<BatchJob>, sel: seq<DocumentRequest>, jobId: string,
                         convert: (seq<byte>, string) -> Result<string>, upload: seq<BatchRequestLine> -> Result<string>, now: Time): Stores
  {
    var job := NewJobFor(sel, jobId, now);
    if sel == [] then Stores(docs, jobs, Pass)
    else if HasJobId(jobs, jobId) then Stores(Rewrite(docs, IdSet(sel), RequeueStep(now)), jobs, Fail(DuplicateKeyError))
    else match upload(Payload(ConvertedBatch(sel, jobId, convert, now)))
      case Ok(remoteId) =>
        Stores(Rewrite(docs, IdSet(sel), InBatchConvertStep(jobId, convert, now)), jobs + [SubmittedJob(job, remoteId, now)], Pass)
      case Err(e) =>
        Stores(Rewrite(docs, IdSet(sel), InBatchRequeueStep(jobId, convert, now)), jobs + [job], Fail(e))
  }

  /** The selection: the list passed in, or else the oldest Queued requests up to the threshold. */
  function Selection(docs: seq<DocumentRequest>, pendingRequests: Option<seq<DocumentRequest>>, threshold: int): seq<DocumentRequest> {
    if pendingRequests.Some? then pendingRequests.value else QueuedRequests(docs, threshold)
  }

  /** The in-batch conversion loop over the marked member objects. */
  method ConvertMembers(requests: DocumentRequestRepository, ghost docs0: seq<DocumentRequest>, ghost sel: seq<DocumentRequest>,
                        batch: seq<DocumentRequest>, jobId: string, convert: (seq<byte>, string) -> Result<string>, now: Time)
    returns (converted: seq<DocumentRequest>)
    requires requests.Valid() && DistinctIds(docs0) && Snapshot(sel, docs0)
    requires requests.docs == Rewrite(docs0, IdSet(sel), MarkStep(jobId, now))
    requires |batch| == |sel| && forall j :: 0 <= j < |sel| ==> batch[j] == sel[j].(status := BatchSubmitted, batchId := Some(jobId))
    modifies requests
    ensures requests.Valid()
    ensures requests.docs == Rewrite(docs0, IdSet(sel), InBatchConvertStep(jobId, convert, now))
    ensures |converted| == |sel| && forall j :: 0 <= j < |sel| ==> converted[j].(updatedAt := now) == InBatchConverted(sel[j], jobId, convert, now)
  {
    ghost var base := requests.docs;
    ghost var f := InBatchConvertStep(jobId, convert, now);
    converted := batch;
    for k := 0 to |converted|
      invariant requests.Valid() && |converted| == |sel|
      invariant forall j :: 0 <= j < k ==> converted[j].(updatedAt := now) == f(sel[j])
      invariant forall j :: k <= j < |sel| ==> converted[j] == batch[j]
      invariant requests.docs == Overlay(base, docs0, IdSet(sel[..k]), f)
    {
      var request := converted[k];
      var markdownContent := convert(request.documentContent, request.documentName);
      if markdownContent.Ok? {
        request := request.(markdownContent := Some(markdownContent.value), status := Queued);
      } else {
        request := request.(status := ProcessingStatus.Failed, errorMessage := Some(ConversionErrorPrefix + markdownContent.message));
      }
      assert request.(updatedAt := now) == f(sel[k]);
      RewriteStep(base, docs0, sel, k, f, now);
      requests.Update(request, now);
      converted := converted[k := request];
    }
    RewriteDone(base, docs0, sel, f);
  }

  /** The compensation of the service after a failed upload: every converted member goes back to the queue. */
  method RequeueConverted(requests: DocumentRequestRepository, ghost docs0: seq<DocumentRequest>, ghost sel: seq<DocumentRequest>,
                          converted: seq<DocumentRequest>, ghost jobId: string, ghost convert: (seq<byte>, string) -> Result<string>, now: Time)
    requires requests.Valid() && DistinctIds(docs0) && Snapshot(sel, docs0)
    requires requests.docs == Rewrite(docs0, IdSet(sel), InBatchConvertStep(jobId, convert, now))
    requires |converted| == |sel| && forall j :: 0 <= j < |sel| ==> converted[j].(updatedAt := now) == InBatchConverted(sel[j], jobId, convert, now)
    modifies requests
    ensures requests.Valid()
    ensures requests.docs == Rewrite(docs0, IdSet(sel), InBatchRequeueStep(jobId, convert, now))
  {
    ghost var requeue := InBatchRequeueStep(jobId, convert, now);
    forall k | 0 <= k < |sel| ensures Requeued(converted[k], now) == requeue(sel[k]) {
      assert Requeued(converted[k], now) == Requeued(converted[k].(updatedAt := now), now);
    }
    Requeue(requests, docs0, sel, converted, requeue, now);
  }

  /**
   * The part of `ProcessBatchQueueAsync` after the job was inserted: convert
   * the marked members, upload them all, record the remote id; on a failed
   * upload put every member back in the queue.
   */
  method ConvertAndUpload(requests: DocumentRequestRepository, jobs: BatchJobRepository, ghost docs0: seq<DocumentRequest>,
                          ghost jobs0: seq<BatchJob>, ghost sel: seq<DocumentRequest>, batch: seq<DocumentRequest>, batchJob: BatchJob,
                          jobId: string, convert: (seq<byte>, string) -> Result<string>,
                          upload: seq<BatchRequestLine> -> Result<string>, now: Time) returns (outcome: Outcome)
    requires requests.Valid() && jobs.Valid() && DistinctIds(docs0) && Snapshot(sel, docs0)
    requires requests.docs == Rewrite(docs0, IdSet(sel), MarkStep(jobId, now))
    requires |batch| == |sel| && forall j :: 0 <= j < |sel| ==> batch[j] == sel[j].(status := BatchSubmitted, batchId := Some(jobId))
    requires batchJob == NewJobFor(sel, jobId, now) && !HasJobId(jobs0, jobId) && jobs.jobs == jobs0 + [batchJob]
    modifies requests, jobs
    ensures requests.Valid() && jobs.Valid()
    ensures match upload(Payload(ConvertedBatch(sel, jobId, convert, now)))
      case Ok(remoteId) =>
        requests.docs == Rewrite(docs0, IdSet(sel), InBatchConvertStep(jobId, convert, now))
        && jobs.jobs == jobs0 + [SubmittedJob(batchJob, remoteId, now)] && outcome == Pass
      case Err(e) =>
        requests.docs == Rewrite(docs0, IdSet(sel), InBatchRequeueStep(jobId, convert, now))
        && jobs.jobs == jobs0 + [batchJob] && outcome == Fail(e)
  {
    var converted := ConvertMembers(requests, docs0, sel, batch, jobId, convert, now);
    PayloadIgnoresState(converted, ConvertedBatch(sel, jobId, convert, now));
    var openAiBatchId := BatchLlmService.SubmitBatch(converted, upload);
    if openAiBatchId.Err? {
      RequeueConverted(requests, docs0, sel, converted, jobId, convert, now);
      return Fail(openAiBatchId.message);
    }
    ReplaceJustCreated(jobs0, batchJob, SubmittedJob(batchJob, openAiBatchId.value, now));
    var submitted := batchJob.(openAiBatchId := Some(openAiBatchId.value), status := BatchJobStatus.Submitted, submittedAt := Some(now));
    jobs.Update(submitted);
    outcome := Pass;
  }

  /** `ProcessBatchQueueAsync` of the service on a selection that is not empty. */
  method SubmitSelection(requests: DocumentRequestRepository, jobs: BatchJobRepository, sel: seq<DocumentRequest>,
                         jobId: string, convert: (seq<byte>, string) -> Result<string>,
                         upload: seq<BatchRequestLine> -> Result<string>, now: Time) returns (outcome: Outcome)
    requires requests.Valid() && jobs.Valid() && Snapshot(sel, requests.docs) && sel != []
    modifies requests, jobs
    ensures requests.Valid() && jobs.Valid()
    ensures var st := InBatchSubmit(old(requests.docs), old(jobs.jobs), sel, jobId, convert, upload, now);
      requests.docs == st.docs && jobs.jobs == st.jobs && outcome == st.outcome
  {
    var docs0 := requests.docs;
    var jobs0 := jobs.jobs;
    var batchJob := NewBatchJob(jobId, now).(requestIds := IdsOf(sel), totalRequests := |sel|, status := BatchJobStatus.Created);
    var batch := Mark(requests, docs0, sel, jobId, now);
    var created := jobs.Create(batchJob);
    if !created {
      Requeue(requests, docs0, sel, batch, RequeueStep(now), now);
      return Fail(DuplicateKeyError);
    }
    outcome := ConvertAndUpload(requests, jobs, docs0, jobs0, sel, batch, batchJob, jobId, convert, upload, now);
  }

  /** `ProcessBatchQueueAsync` of the service; the failure is rethrown after the compensation. */
  method ProcessBatchQueue(requests: DocumentRequestRepository, jobs: BatchJobRepository, pendingRequests: Option<seq<DocumentRequest>>,
                           threshold: int, jobId: string, convert: (seq<byte>, string) -> Result<string>,
                           upload: seq<BatchRequestLine> -> Result<string>, now: Time) returns (outcome: Outcome)
    requires requests.Valid() && jobs.Valid()
    requires pendingRequests.Some? ==> Snapshot(pendingRequests.value, requests.docs)
    modifies requests, jobs
    ensures requests.Valid() && jobs.Valid()
    ensures var st := InBatchSubmit(old(requests.docs), old(jobs.jobs), Selection(old(requests.docs), pendingRequests, threshold),
                                    jobId, convert, upload, now);
      requests.docs == st.docs && jobs.jobs == st.jobs && outcome == st.outcome
  {
    var requestsToProcess := if pendingRequests.Some? then pendingRequests.value else QueuedRequests(requests.docs, threshold);
    if |requestsToProcess| == 0 {
      return Pass;
    }
    if pendingRequests.None? {
      QueuedIsSnapshot(requests.docs, threshold);
    }
    outcome := SubmitSelection(requests, jobs, requestsToProcess, jobId, convert, upload, now);
  }

  /** `SubmitBatchIfThresholdMetAsync`: all Queued requests, with no limit, once their number reaches the threshold. */
  function ThresholdSubmit(docs: seq<DocumentRequest>, jobs: seq<BatchJob>, threshold: int, jobId: string,
                           convert: (seq<byte>, string) -> Result<string>, upload: seq<BatchRequestLine> -> Result<string>, now: Time): Stores
  {
    var pendingRequests := ByStatus(docs, Queued);
    if |pendingRequests| < threshold then Stores(docs, jobs, Pass)
    else InBatchSubmit(docs, jobs, pendingRequests, jobId, convert, upload, now)
  }

  method SubmitBatchIfThresholdMet(requests: DocumentRequestRepository, jobs: BatchJobRepository, settings: BatchProcessingSettings,
                                   jobId: string, convert: (seq<byte>, string) -> Result<string>,
                                   upload: seq<BatchRequestLine> -> Result<string>, now: Time) returns (outcome: Outcome)
    requires requests.Valid() && jobs.Valid()
    modifies requests, jobs
    ensures requests.Valid() && jobs.Valid()
    ensures var st := ThresholdSubmit(old(requests.docs), old(jobs.jobs), settings.queueSizeThreshold, jobId, convert, upload, now);
      requests.docs == st.docs && jobs.jobs == st.jobs && outcome == st.outcome
  {
    var pendingRequests := ByStatus(requests.docs, Queued);
    if |pendingRequests| < settings.queueSizeThreshold {
      return Pass;
    }
    FilterIsSnapshot(requests.docs, (r: DocumentRequest) => r.status == Queued);
    outcome := ProcessBatchQueue(requests, jobs, Some(pendingRequests), settings.queueSizeThreshold, jobId, convert, upload, now);
  }

  /** The stores after an enqueue call and its answer; a failure is rethrown to the caller. */
  datatype Enqueued = Enqueued(docs: seq<DocumentRequest>, jobs: seq<BatchJob>, response: Result<DocumentProcessingResponse>)

  /**
   * `QueueForBatchProcessingAsync`: the record is stored Queued in batch mode,
   * then the threshold-gated submission runs; its failure is not observed by
   * the caller.
   */
  function Enqueue(docs: seq<DocumentRequest>, jobs: seq<BatchJob>, input: DocumentProcessingRequest, id: string, threshold: int,
                   jobId: string, convert: (seq<byte>, string) -> Result<string>, upload: seq<BatchRequestLine> -> Result<string>,
                   now: Time): Enqueued
  {
    if HasId(docs, id) then Enqueued(docs, jobs, Err(DuplicateKeyError))
    else
      var st := ThresholdSubmit(docs + [RequestFor(input, id, Batch, Queued, now)], jobs, threshold, jobId, convert, upload, now);
      Enqueued(st.docs, st.jobs, Ok(DocumentProcessingResponse(id, Queued, None, None, now, None)))
  }

  method QueueForBatchProcessing(requests: DocumentRequestRepository, jobs: BatchJobRepository, settings: BatchProcessingSettings,
                                 input: DocumentProcessingRequest, id: string, jobId: string,
                                 convert: (seq<byte>, string) -> Result<string>, upload: seq<BatchRequestLine> -> Result<string>,
                                 now: Time) returns (response: Result<DocumentProcessingResponse>)
    requires requests.Valid() && jobs.Valid()
    modifies requests, jobs
    ensures requests.Valid() && jobs.Valid()
    ensures var e := Enqueue(old(requests.docs), old(jobs.jobs), input, id, settings.queueSizeThreshold, jobId, convert, upload, now);
      requests.docs == e.docs && jobs.jobs == e.jobs && response == e.response
  {
    var documentRequest := RequestFor(input, id, Batch, Queued, now);
    var created := requests.Create(documentRequest);
    if !created {
      return Err(DuplicateKeyError);
    }
    var _ := SubmitBatchIfThresholdMet(requests, jobs, settings, jobId, convert, upload, now);
    response := Ok(DocumentProcessingResponse(documentRequest.id, Queued, None, None, documentRequest.createdAt, None));
  }

  // ---------------------------------------------------------------------------
  // Properties of the service's batch path
  // ---------------------------------------------------------------------------

  /**
   * Threshold gate: below the threshold nothing changes and no job appears;
   * at or above it (with a queue that is not empty and a free job id) one job
   * holds every Queued request, in store order, with no size limit.
   */
  lemma ThresholdGate(docs: seq<DocumentRequest>, jobs: seq<BatchJob>, threshold: int, jobId: string,
                      convert: (seq<byte>, string) -> Result<string>, upload: seq<BatchRequestLine> -> Result<string>, now: Time)
    ensures var st := ThresholdSubmit(docs, jobs, threshold, jobId, convert, upload, now);
      && (QueuedCount(docs) < threshold ==> st == Stores(docs, jobs, Pass))
      && (QueuedCount(docs) >= threshold && QueuedCount(docs) > 0 && !HasJobId(jobs, jobId) ==>
            |st.jobs| == |jobs| + 1 && st.jobs[..|jobs|] == jobs
            && st.jobs[|jobs|].requestIds == IdsOf(ByStatus(docs, Queued))
            && st.jobs[|jobs|].totalRequests == QueuedCount(docs))
  {
  }

  /**
   * After a successful in-batch submission no member is BatchSubmitted:
   * each is Queued with its markdown or Failed with the conversion message,
   * and still points at the job; records outside the batch are untouched.
   */
  lemma InBatchSuccessLeavesMembersQueued(docs: seq<DocumentRequest>, jobs: seq<BatchJob>, sel: seq<DocumentRequest>, jobId: string,
                                          convert: (seq<byte>, string) -> Result<string>, upload: seq<BatchRequestLine> -> Result<string>,
                                          now: Time, i: int)
    requires DistinctIds(docs) && Snapshot(sel, docs) && 0 <= i < |docs|
    requires sel != [] && !HasJobId(jobs, jobId) && upload(Payload(ConvertedBatch(sel, jobId, convert, now))).Ok?
    ensures var st := InBatchSubmit(docs, jobs, sel, jobId, convert, upload, now);
      var outcome := convert(docs[i].documentContent, docs[i].documentName);
      && st.outcome == Pass && st.jobs[|jobs|].status == BatchJobStatus.Submitted
      && (docs[i] in sel ==>
            && st.docs[i].batchId == Some(jobId) && st.docs[i].status != BatchSubmitted
            && (outcome.Ok? ==> st.docs[i].status == Queued && st.docs[i].markdownContent == Some(outcome.value))
            && (outcome.Err? ==> st.docs[i].status == ProcessingStatus.Failed
                                 && st.docs[i].errorMessage == Some(ConversionErrorPrefix + outcome.message)))
      && (docs[i] !in sel ==> st.docs[i] == docs[i])
  {
    MembershipById(docs, sel, i);
  }

  /**
   * A failed upload puts every member back in the queue with no batch,
   * including the members whose conversion failed, which keep their
   * conversion message; the Created job stays in the job store.
   */
  lemma InBatchCompensationQueuesAll(docs: seq<DocumentRequest>, jobs: seq<BatchJob>, sel: seq<DocumentRequest>, jobId: string,
                                     convert: (seq<byte>, string) -> Result<string>, upload: seq<BatchRequestLine> -> Result<string>,
                                     now: Time, i: int)
    requires DistinctIds(docs) && Snapshot(sel, docs) && 0 <= i < |docs|
    requires sel != [] && !HasJobId(jobs, jobId) && upload(Payload(ConvertedBatch(sel, jobId, convert, now))).Err?
    ensures var st := InBatchSubmit(docs, jobs, sel, jobId, convert, upload, now);
      var outcome := convert(docs[i].documentContent, docs[i].documentName);
      && st.outcome == Fail(upload(Payload(ConvertedBatch(sel, jobId, convert, now))).message)
      && st.jobs == jobs + [NewJobFor(sel, jobId, now)]
      && (docs[i] in sel ==>
            && st.docs[i].status == Queued && st.docs[i].batchId.None?
            && (outcome.Err? ==> st.docs[i].errorMessage == Some(ConversionErrorPrefix + outcome.message)))
      && (docs[i] !in sel ==> st.docs[i] == docs[i])
  {
    MembershipById(docs, sel, i);
  }

  /** The submission step keeps every record in its place under its id. */
  lemma ThresholdSubmitKeepsIds(docs: seq<DocumentRequest>, jobs: seq<BatchJob>, threshold: int, jobId: string,
                                convert: (seq<byte>, string) -> Result<string>, upload: seq<BatchRequestLine> -> Result<string>, now: Time)
    ensures var st := ThresholdSubmit(docs, jobs, threshold, jobId, convert, upload, now);
      |st.docs| == |docs| && forall i :: 0 <= i < |docs| ==> st.docs[i].id == docs[i].id
  {
    var st := ThresholdSubmit(docs, jobs, threshold, jobId, convert, upload, now);
    var sel := ByStatus(docs, Queued);
    if |sel| >= threshold && sel != [] {
      var f := if HasJobId(jobs, jobId) then RequeueStep(now)
               else if upload(Payload(ConvertedBatch(sel, jobId, convert, now))).Ok? then InBatchConvertStep(jobId, convert, now)
               else InBatchRequeueStep(jobId, convert, now);
      assert StoreWrite(f, now);
      assert st.docs == Rewrite(docs, IdSet(sel), f);
    }
  }

  /**
   * Enqueue answers Ok exactly when the id is new, with that id, status
   * Queued and no result, and the new record is stored after the others; a
   * duplicate id changes neither store.
   */
  lemma EnqueueAnswer(docs: seq<DocumentRequest>, jobs: seq<BatchJob>, input: DocumentProcessingRequest, id: string,
                      threshold: int, jobId: string, convert: (seq<byte>, string) -> Result<string>,
                      upload: seq<BatchRequestLine> -> Result<string>, now: Time)
    ensures var e := Enqueue(docs, jobs, input, id, threshold, jobId, convert, upload, now);
      && (e.response.Ok? <==> !HasId(docs, id))
      && (e.response.Ok? ==> e.response.value == DocumentProcessingResponse(id, Queued, None, None, now, None))
      && (e.response.Err? ==> e.docs == docs && e.jobs == jobs)
      && (e.response.Ok? ==> |e.docs| == |docs| + 1 && e.docs[|docs|].id == id)
  {
    if !HasId(docs, id) {
      ThresholdSubmitKeepsIds(docs + [RequestFor(input, id, Batch, Queued, now)], jobs, threshold, jobId, convert, upload, now);
    }
  }

  /** An enqueue below the threshold stores the new record Queued in batch mode, after the others, and answers with its id. */
  lemma EnqueueBelowThreshold(docs: seq<DocumentRequest>, jobs: seq<BatchJob>, input: DocumentProcessingRequest, id: string,
                              threshold: int, jobId: string, convert: (seq<byte>, string) -> Result<string>,
                              upload: seq<BatchRequestLine> -> Result<string>, now: Time)
    requires !HasId(docs, id) && QueuedCount(docs) + 1 < threshold
    ensures var e := Enqueue(docs, jobs, input, id, threshold, jobId, convert, upload, now);
      && e.docs == docs + [RequestFor(input, id, Batch, Queued, now)] && e.jobs == jobs
      && e.response == Ok(DocumentProcessingResponse(id, Queued, None, None, now, None))
  {
    FilterAppend(docs, RequestFor(input, id, Batch, Queued, now), (r: DocumentRequest) => r.status == Queued);
  }
}
