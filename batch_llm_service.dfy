/**
 * The parts of the bulk inference client that decide pipeline behaviour:
 * the remote status vocabulary, the defaulting of progress counters, the
 * accumulation of per-request results and errors from the output and error
 * files, and the one-line-per-request submission payload. HTTP, JSONL
 * encoding and JSON parsing are replaced by already-parsed values.
 */
module BatchLlmService {
  import opened Wrappers
  import opened Entities

  /** `BatchStatus` of the client interface. */
  datatype BatchStatus = BatchStatus(status: string, totalRequests: int, completedRequests: int, failedRequests: int)

  /** `BatchResult` of the client interface. */
  datatype BatchResult = BatchResult(batchId: string, isCompleted: bool, results: map<string, string>, errors: map<string, string>)

  /** The `request_counts` object; a missing sub-field is `None`. */
  datatype RequestCounts = RequestCounts(total: Option<int>, completed: Option<int>, failed: Option<int>)

  /** A file download: its lines, or a response that was not successful. */
  datatype Download<L> = Downloaded(lines: seq<L>) | DownloadFailed(message: string)

  /**
   * One line of the output file, already parsed.
   * `MalformedOutput`: not JSON (a `JsonException`, skipped).
   * `BrokenOutput`: JSON that makes the code throw something other than a
   * `JsonException`: a missing `custom_id`, or `message`/`content` missing under
   * a non-empty `choices`; a `response` or `body` that is not an object; a
   * `choices` that is not an array; an `error` that is null or not an object; a
   * `custom_id`, `content` or `message` that is neither a string nor null; and a
   * `custom_id` that is JSON null on a line that writes a dictionary entry (the
   * write throws `ArgumentNullException`).
   * `OutputRecord`: `firstChoice` is `Some(content)` when `response.body.choices` is
   * a non-empty array (`content` `None` for JSON null); `error` is `Some(message)`
   * when an `error` object exists (`message` `None` when absent or JSON null).
   */
  datatype OutputLine =
    | MalformedOutput
    | BrokenOutput(reason: string)
    | OutputRecord(customId: string, firstChoice: Option<Option<string>>, error: Option<Option<string>>)

  /**
   * One line of the error file, already parsed, in the same three shapes.
   * `BrokenError` covers a missing or JSON-null `custom_id`, an `error` that is
   * null or not an object, and a `custom_id` or `message` that is neither a
   * string nor null;
   * `message` is `None` when `error` or its `message` is absent, or JSON null.
   */
  datatype ErrorLine =
    | MalformedError
    | BrokenError(reason: string)
    | ErrorRecord(customId: string, message: Option<string>)

  /**
   * The batch object returned by `GET batches/{id}`, with its files fetched.
   * `status` is `None` for JSON null. `outputFile` is `None` when
   * `output_file_id` is absent; when present, even as JSON null (the code then
   * fetches `files//content`), it is what that download returned. `errorFile`
   * is `None` when `error_file_id` is absent or null.
   * Everything that makes the status or result call throw is the `Err` of the
   * `Result<RemoteBatch>` a remote view returns: a failed request, a body that
   * is not JSON, a missing or non-string `status`, a `request_counts` that is
   * JSON null or not an object, or a count that is not a 32-bit integer.
   */
  datatype RemoteBatch = RemoteBatch(
    status: Option<string>,
    requestCounts: Option<RequestCounts>,
    outputFile: Option<Download<OutputLine>>,
    errorFile: Option<Download<ErrorLine>>)

  /** The result and error dictionaries while they are being filled. */
  datatype Maps = Maps(results: map<string, string>, errors: map<string, string>)

  const UnknownError := "Unknown error"

  /** `MapBatchStatus`: the remote vocabulary, capitalised; any other string is passed through unchanged. */
  function MapBatchStatus(status: string): (mapped: string)
    ensures status == "validating" ==> mapped == "Validating"
    ensures status == "in_progress" ==> mapped == "Processing"
    ensures status == "completed" ==> mapped == "Completed"
    ensures status == "failed" ==> mapped == "Failed"
    ensures status == "expired" ==> mapped == "Expired"
    ensures status == "cancelling" ==> mapped == "Cancelling"
    ensures status == "cancelled" ==> mapped == "Cancelled"
    ensures status !in {"validating", "in_progress", "completed", "failed", "expired", "cancelling", "cancelled"} ==> mapped == status
  {
    match status
    case "validating" => "Validating"
    case "in_progress" => "Processing"
    case "completed" => "Completed"
    case "failed" => "Failed"
    case "expired" => "Expired"
    case "cancelling" => "Cancelling"
    case "cancelled" => "Cancelled"
    case _ => status
  }

  function CountOrZero(counts: Option<RequestCounts>, pick: RequestCounts -> Option<int>): int {
    if counts.Some? then pick(counts.value).GetOr(0) else 0
  }

  /** `GetBatchStatusAsync`: a null status reads as "Unknown"; absent counts read as 0. */
  function GetBatchStatus(view: Result<RemoteBatch>): (r: Result<BatchStatus>)
    ensures view.Err? ==> r == Err(view.message)
    ensures view.Ok? ==> r.Ok? && r.value.status == MapBatchStatus(view.value.status.GetOr("Unknown"))
    ensures view.Ok? && view.value.requestCounts.None? ==>
      r.value.totalRequests == 0 && r.value.completedRequests == 0 && r.value.failedRequests == 0
    ensures view.Ok? && view.value.requestCounts.Some? ==>
      r.value.completedRequests == view.value.requestCounts.value.completed.GetOr(0) &&
      r.value.failedRequests == view.value.requestCounts.value.failed.GetOr(0) &&
      r.value.totalRequests == view.value.requestCounts.value.total.GetOr(0)
  {
    match view
    case Err(e) => Err(e)
    case Ok(raw) =>
      Ok(BatchStatus(
        MapBatchStatus(raw.status.GetOr("Unknown")),
        CountOrZero(raw.requestCounts, (c: RequestCounts) => c.total),
        CountOrZero(raw.requestCounts, (c: RequestCounts) => c.completed),
        CountOrZero(raw.requestCounts, (c: RequestCounts) => c.failed)))
  }

  /** What one parsed output line does to the dictionaries. */
  function OutputStep(m: Maps, line: OutputLine): Maps
    requires line.OutputRecord?
  {
    if line.firstChoice.Some? then
      m.(results := m.results[line.customId := line.firstChoice.value.GetOr("")])
    else if line.error.Some? then
      m.(errors := m.errors[line.customId := line.error.value.GetOr(UnknownError)])
    else m
  }

  /** The output-file loop, left to right; a broken line aborts with its exception. */
  function FoldOutput(lines: seq<OutputLine>, m: Maps): Result<Maps>
    decreases |lines|
  {
    if lines == [] then Ok(m)
    else match lines[0]
      case MalformedOutput => FoldOutput(lines[1..], m)
      case BrokenOutput(reason) => Err(reason)
      case OutputRecord(_, _, _) => FoldOutput(lines[1..], OutputStep(m, lines[0]))
  }

  /** The error-file loop, left to right. */
  function FoldErrors(lines: seq<ErrorLine>, m: Maps): Result<Maps>
    decreases |lines|
  {
    if lines == [] then Ok(m)
    else match lines[0]
      case MalformedError => FoldErrors(lines[1..], m)
      case BrokenError(reason) => Err(reason)
      case ErrorRecord(id, msg) => FoldErrors(lines[1..], m.(errors := m.errors[id := msg.GetOr(UnknownError)]))
  }

  /** The output-file loop of `GetBatchResultAsync`. */
  method AccumulateOutput(lines: seq<OutputLine>, start: Maps) returns (acc: Result<Maps>)
    ensures acc == FoldOutput(lines, start)
  {
    var m := start;
    var i := 0;
    while i < |lines|
      invariant 0 <= i <= |lines|
      invariant FoldOutput(lines, start) == FoldOutput(lines[i..], m)
    {
      assert lines[i..][1..] == lines[i + 1..];
      match lines[i] {
        case MalformedOutput =>
        case BrokenOutput(reason) =>
          return Err(reason);
        case OutputRecord(id, choice, error) =>
          if choice.Some? {
            m := m.(results := m.results[id := choice.value.GetOr("")]);
          } else if error.Some? {
            m := m.(errors := m.errors[id := error.value.GetOr(UnknownError)]);
          }
      }
      i := i + 1;
    }
    acc := Ok(m);
  }

  /** The error-file loop of `GetBatchResultAsync`. */
  method AccumulateErrors(lines: seq<ErrorLine>, start: Maps) returns (acc: Result<Maps>)
    ensures acc == FoldErrors(lines, start)
  {
    var m := start;
    var i := 0;
    while i < |lines|
      invariant 0 <= i <= |lines|
      invariant FoldErrors(lines, start) == FoldErrors(lines[i..], m)
    {
      assert lines[i..][1..] == lines[i + 1..];
      match lines[i] {
        case MalformedError =>
        case BrokenError(reason) =>
          return Err(reason);
        case ErrorRecord(id, msg) =>
          m := m.(errors := m.errors[id := msg.GetOr(UnknownError)]);
      }
      i := i + 1;
    }
    acc := Ok(m);
  }

  /**
   * What `GetBatchResultAsync` returns for a remote view: the output file is
   * read only when the raw status is "completed" and an output file exists; the
   * error file is read whenever it exists and downloads successfully.
   */
  function BatchResultOf(batchId: string, view: Result<RemoteBatch>): Result<BatchResult> {
    match view
    case Err(e) => Err(e)
    case Ok(raw) =>
      var completed := raw.status == Some("completed");
      var afterOutput :=
        if completed && raw.outputFile.Some? then
          match raw.outputFile.value
          case Downloaded(lines) => FoldOutput(lines, Maps(map[], map[]))
          case DownloadFailed(e) => Err(e)
        else Ok(Maps(map[], map[]));
      match afterOutput
      case Err(e) => Err(e)
      case Ok(m) =>
        var afterErrors :=
          if raw.errorFile.Some? && raw.errorFile.value.Downloaded? then FoldErrors(raw.errorFile.value.lines, m)
          else Ok(m);
        match afterErrors
        case Err(e) => Err(e)
        case Ok(m2) => Ok(BatchResult(batchId, completed, m2.results, m2.errors))
  }

  /** `GetBatchResultAsync`. */
  method GetBatchResult(batchId: string, view: Result<RemoteBatch>) returns (r: Result<BatchResult>)
    ensures r == BatchResultOf(batchId, view)
  {
    if view.Err? {
      return Err(view.message);
    }
    var raw := view.value;
    var completed := raw.status == Some("completed");
    var m := Maps(map[], map[]);
    if completed && raw.outputFile.Some? {
      match raw.outputFile.value
      case DownloadFailed(e) =>
        return Err(e);
      case Downloaded(lines) =>
        var acc := AccumulateOutput(lines, m);
        if acc.Err? {
          return Err(acc.message);
        }
        m := acc.value;
    }
    if raw.errorFile.Some? && raw.errorFile.value.Downloaded? {
      var acc := AccumulateErrors(raw.errorFile.value.lines, m);
      if acc.Err? {
        return Err(acc.message);
      }
      m := acc.value;
    }
    r := Ok(BatchResult(batchId, completed, m.results, m.errors));
  }

  /** A parsed record appended to a file that folds without error applies its step last. */
  lemma {:induction false} FoldOutputAppend(lines: seq<OutputLine>, m: Maps, last: OutputLine)
    requires FoldOutput(lines, m).Ok? && last.OutputRecord?
    ensures FoldOutput(lines + [last], m) == Ok(OutputStep(FoldOutput(lines, m).value, last))
  {
    if lines == [] {
      assert [last][1..] == [];
    } else {
      assert (lines + [last])[1..] == lines[1..] + [last];
      match lines[0]
      case MalformedOutput => FoldOutputAppend(lines[1..], m, last);
      case OutputRecord(_, _, _) => FoldOutputAppend(lines[1..], OutputStep(m, lines[0]), last);
    }
  }

  /** A later output line with choices overwrites the result for its id; null content is stored as "". */
  lemma OutputLastLineWins(lines: seq<OutputLine>, m: Maps, id: string, content: Option<string>, error: Option<Option<string>>)
    requires FoldOutput(lines, m).Ok?
    ensures var last := OutputRecord(id, Some(content), error);
      FoldOutput(lines + [last], m) == Ok(FoldOutput(lines, m).value.(results := FoldOutput(lines, m).value.results[id := content.GetOr("")]))
  {
    FoldOutputAppend(lines, m, OutputRecord(id, Some(content), error));
  }

  /**
   * A later output line without choices but with an `error` overwrites the
   * error for its id; a missing or null message is stored as "Unknown error".
   */
  lemma OutputLastErrorWins(lines: seq<OutputLine>, m: Maps, id: string, message: Option<string>)
    requires FoldOutput(lines, m).Ok?
    ensures var last := OutputRecord(id, None, Some(message));
      FoldOutput(lines + [last], m) == Ok(FoldOutput(lines, m).value.(errors := FoldOutput(lines, m).value.errors[id := message.GetOr(UnknownError)]))
  {
    FoldOutputAppend(lines, m, OutputRecord(id, None, Some(message)));
  }

  /** An output line with neither choices nor an `error` leaves both dictionaries as they were. */
  lemma OutputLineWithNeitherIgnored(lines: seq<OutputLine>, m: Maps, id: string)
    requires FoldOutput(lines, m).Ok?
    ensures FoldOutput(lines + [OutputRecord(id, None, None)], m) == FoldOutput(lines, m)
  {
    FoldOutputAppend(lines, m, OutputRecord(id, None, None));
  }

  /** An unparseable line is skipped: the accumulation goes on as if it were not there. */
  lemma {:induction false} MalformedOutputSkipped(before: seq<OutputLine>, after: seq<OutputLine>, m: Maps)
    ensures FoldOutput(before + [MalformedOutput] + after, m) == FoldOutput(before + after, m)
  {
    if before == [] {
      assert before + [MalformedOutput] + after == [MalformedOutput] + after;
      assert before + after == after;
      assert ([MalformedOutput] + after)[1..] == after;
    } else {
      assert (before + [MalformedOutput] + after)[1..] == before[1..] + [MalformedOutput] + after;
      assert (before + after)[1..] == before[1..] + after;
      match before[0]
      case MalformedOutput => MalformedOutputSkipped(before[1..], after, m);
      case BrokenOutput(_) =>
      case OutputRecord(_, _, _) => MalformedOutputSkipped(before[1..], after, OutputStep(m, before[0]));
    }
  }

  /** An unparseable error-file line is skipped as well. */
  lemma {:induction false} MalformedErrorSkipped(before: seq<ErrorLine>, after: seq<ErrorLine>, m: Maps)
    ensures FoldErrors(before + [MalformedError] + after, m) == FoldErrors(before + after, m)
  {
    if before == [] {
      assert before + [MalformedError] + after == [MalformedError] + after;
      assert before + after == after;
      assert ([MalformedError] + after)[1..] == after;
    } else {
      assert (before + [MalformedError] + after)[1..] == before[1..] + [MalformedError] + after;
      assert (before + after)[1..] == before[1..] + after;
      match before[0]
      case MalformedError => MalformedErrorSkipped(before[1..], after, m);
      case BrokenError(_) =>
      case ErrorRecord(id, msg) => MalformedErrorSkipped(before[1..], after, m.(errors := m.errors[id := msg.GetOr(UnknownError)]));
    }
  }

  /** Error-file lines only add or overwrite errors: no result is removed and no error is dropped. */
  lemma {:induction false} ErrorFileKeepsResults(lines: seq<ErrorLine>, m: Maps)
    requires FoldErrors(lines, m).Ok?
    ensures FoldErrors(lines, m).value.results == m.results
    ensures m.errors.Keys <= FoldErrors(lines, m).value.errors.Keys
  {
    if lines != [] {
      match lines[0]
      case MalformedError => ErrorFileKeepsResults(lines[1..], m);
      case ErrorRecord(id, msg) => ErrorFileKeepsResults(lines[1..], m.(errors := m.errors[id := msg.GetOr(UnknownError)]));
    }
  }

  /**
   * Results come only from a "completed" batch with an output file, and
   * `IsCompleted` holds exactly when the raw status is "completed".
   */
  lemma ResultsOnlyWhenCompleted(batchId: string, view: Result<RemoteBatch>)
    requires BatchResultOf(batchId, view).Ok?
    ensures var r := BatchResultOf(batchId, view).value;
      && view.Ok?
      && r.batchId == batchId
      && (r.isCompleted <==> view.value.status == Some("completed"))
      && (r.results != map[] ==> view.value.status == Some("completed") && view.value.outputFile.Some?)
  {
    var raw := view.value;
    if !(raw.status == Some("completed") && raw.outputFile.Some?) {
      var m := Maps(map[], map[]);
      if raw.errorFile.Some? && raw.errorFile.value.Downloaded? {
        ErrorFileKeepsResults(raw.errorFile.value.lines, m);
      }
    }
  }

  /** One line of the submission file (`CreateBatchRequest`); prompt text stays as its ingredients. */
  datatype BatchRequestLine = BatchRequestLine(
    customId: string,
    httpMethod: string,
    url: string,
    model: Option<string>,
    jsonSchema: string,
    instruction: string,
    documentContent: Option<string>)

  /** `CreateBatchRequest`: `custom_id` is the request id and the model is its deployment id. */
  function CreateBatchRequest(r: DocumentRequest): (line: BatchRequestLine)
    ensures line.customId == r.id && line.model == r.modelDeploymentId
    ensures line.httpMethod == "POST" && line.url == "/chat/completions"
    ensures line.jsonSchema == r.jsonSchema && line.instruction == r.instruction && line.documentContent == r.markdownContent
  {
    BatchRequestLine(r.id, "POST", "/chat/completions", r.modelDeploymentId, r.jsonSchema, r.instruction, r.markdownContent)
  }

  /** The fields of a request that reach the submission file. */
  predicate SamePayloadFields(a: DocumentRequest, b: DocumentRequest) {
    a.id == b.id && a.modelDeploymentId == b.modelDeploymentId && a.jsonSchema == b.jsonSchema &&
    a.instruction == b.instruction && a.markdownContent == b.markdownContent
  }

  /** The JSONL file: one line per request, in input order. */
  function Payload(requests: seq<DocumentRequest>): (p: seq<BatchRequestLine>)
    ensures |p| == |requests|
    ensures forall k :: 0 <= k < |requests| ==> p[k] == CreateBatchRequest(requests[k])
  {
    seq(|requests|, k requires 0 <= k < |requests| => CreateBatchRequest(requests[k]))
  }

  /** Requests that differ only in status, batch id and the like give the same file. */
  lemma PayloadIgnoresState(a: seq<DocumentRequest>, b: seq<DocumentRequest>)
    requires |a| == |b| && forall k :: 0 <= k < |a| ==> SamePayloadFields(a[k], b[k])
    ensures Payload(a) == Payload(b)
  {
  }

  /** The `StringBuilder` loop of `SubmitBatchAsync`: one line appended per request. */
  method BuildPayload(requests: seq<DocumentRequest>) returns (lines: seq<BatchRequestLine>)
    ensures |lines| == |requests|
    ensures forall k :: 0 <= k < |requests| ==> lines[k].customId == requests[k].id && lines[k].model == requests[k].modelDeploymentId
    ensures lines == Payload(requests)
  {
    lines := [];
    for i := 0 to |requests|
      invariant lines == Payload(requests[..i])
    {
      lines := lines + [CreateBatchRequest(requests[i])];
    }
    assert requests[..|requests|] == requests;
  }

  /**
   * `SubmitBatchAsync`: builds the file and hands it to the bulk service
   * (`upload`: the file upload and the batch creation, either of which may
   * fail), returning the remote batch id.
   */
  method SubmitBatch(requests: seq<DocumentRequest>, upload: seq<BatchRequestLine> -> Result<string>) returns (r: Result<string>)
    ensures r == upload(Payload(requests))
  {
    var lines := BuildPayload(requests);
    r := upload(lines);
  }
}
