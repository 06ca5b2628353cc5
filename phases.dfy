/**
 * The record-level transitions of the batch pipeline and the store-level
 * specifications of its conversion and submission phases, shared by the
 * background worker and the timer-triggered function (whose phase bodies
 * are the same code). Each phase is stated in closed form: the store after
 * the phase, as a function of the store before it.
 */
module Phases {
  import opened Wrappers
  import opened Enums
  import opened Entities
  import opened Sequences
  import opened DocumentRequests
  import opened BatchJobs
  import opened BatchLlmService

  // ---------------------------------------------------------------------------
  // Rewriting the records of a selection, one store write per record
  // ---------------------------------------------------------------------------

  /** The ids of a list of requests, as a set. */
  function IdSet(rs: seq<DocumentRequest>): set<string> {
    set k | 0 <= k < |rs| :: rs[k].id
  }

  /** A list read from the store: every element is a stored record, and no id repeats. */
  ghost predicate Snapshot(sel: seq<DocumentRequest>, docs: seq<DocumentRequest>) {
    DistinctIds(sel) && forall k :: 0 <= k < |sel| ==> sel[k] in docs
  }

  /** A record read from a store with distinct ids is the stored record with that id. */
  lemma StoredWithId(docs: seq<DocumentRequest>, r: DocumentRequest, i: int)
    requires DistinctIds(docs) && r in docs && 0 <= i < |docs| && docs[i].id == r.id
    ensures docs[i] == r
  {
    var j :| 0 <= j < |docs| && docs[j] == r;
  }

  /**
   * The store `base` (which has the ids of `docs0` in place) after every
   * record of `docs0` whose id is in `ids` has been written as `f` of itself.
   */
  function Overlay(base: seq<DocumentRequest>, docs0: seq<DocumentRequest>, ids: set<string>, f: DocumentRequest -> DocumentRequest): (res: seq<DocumentRequest>)
    requires |base| == |docs0|
    ensures |res| == |docs0|
    ensures forall i :: 0 <= i < |docs0| ==> res[i] == if docs0[i].id in ids then f(docs0[i]) else base[i]
  {
    seq(|docs0|, i requires 0 <= i < |docs0| => if docs0[i].id in ids then f(docs0[i]) else base[i])
  }

  /** `docs` with every record whose id is in `ids` replaced by `f` of itself. */
  function Rewrite(docs: seq<DocumentRequest>, ids: set<string>, f: DocumentRequest -> DocumentRequest): (res: seq<DocumentRequest>)
    ensures |res| == |docs|
    ensures forall i :: 0 <= i < |docs| ==> res[i] == if docs[i].id in ids then f(docs[i]) else docs[i]
  {
    Overlay(docs, docs, ids, f)
  }

  /** A function that rewrites a record as one store write at `now`: it keeps the id and stamps `UpdatedAt`. */
  ghost predicate StoreWrite(f: DocumentRequest -> DocumentRequest, now: Time) {
    forall r :: f(r).id == r.id && f(r).updatedAt == now
  }

  /**
   * One iteration of a write loop over a snapshot: writing `f(sel[k])` with
   * `UpdateAsync` extends the rewritten prefix of the selection by one.
   */
  lemma RewriteStep(base: seq<DocumentRequest>, docs0: seq<DocumentRequest>, sel: seq<DocumentRequest>, k: int,
                    f: DocumentRequest -> DocumentRequest, now: Time)
    requires DistinctIds(docs0) && Snapshot(sel, docs0) && 0 <= k < |sel|
    requires |base| == |docs0| && forall i :: 0 <= i < |docs0| ==> base[i].id == docs0[i].id
    requires StoreWrite(f, now)
    ensures Replace(Overlay(base, docs0, IdSet(sel[..k]), f), f(sel[k]).(updatedAt := now))
         == Overlay(base, docs0, IdSet(sel[..k + 1]), f)
  {
    var before := Overlay(base, docs0, IdSet(sel[..k]), f);
    var w := f(sel[k]).(updatedAt := now);
    assert w == f(sel[k]);
    assert IdSet(sel[..k + 1]) == IdSet(sel[..k]) + {sel[k].id} by {
      assert forall j :: 0 <= j < k + 1 ==> sel[..k + 1][j] == sel[j];
      assert forall j :: 0 <= j < k ==> sel[..k][j] == sel[j];
      forall x | x in IdSet(sel[..k + 1]) ensures x in IdSet(sel[..k]) + {sel[k].id} {
        var j :| 0 <= j < k + 1 && sel[..k + 1][j].id == x;
        if j < k {
          assert sel[..k][j].id == x;
        }
      }
      forall x | x in IdSet(sel[..k]) + {sel[k].id} ensures x in IdSet(sel[..k + 1]) {
        if x == sel[k].id {
          assert sel[..k + 1][k].id == x;
        } else {
          var j :| 0 <= j < k && sel[..k][j].id == x;
          assert sel[..k + 1][j].id == x;
        }
      }
    }
    assert sel[k].id !in IdSet(sel[..k]) by {
      forall j | 0 <= j < k ensures sel[..k][j].id != sel[k].id {
        assert sel[..k][j] == sel[j];
      }
    }
    var after := Replace(before, w);
    forall i | 0 <= i < |docs0|
      ensures after[i] == Overlay(base, docs0, IdSet(sel[..k + 1]), f)[i]
    {
      if docs0[i].id == sel[k].id {
        StoredWithId(docs0, sel[k], i);
      }
    }
  }

  /** After the loop, records outside the selection still hold what `base` held. */
  lemma RewriteDone(base: seq<DocumentRequest>, docs0: seq<DocumentRequest>, sel: seq<DocumentRequest>, f: DocumentRequest -> DocumentRequest)
    requires |base| == |docs0|
    requires forall i :: 0 <= i < |docs0| && docs0[i].id !in IdSet(sel) ==> base[i] == docs0[i]
    ensures Overlay(base, docs0, IdSet(sel[..|sel|]), f) == Rewrite(docs0, IdSet(sel), f)
  {
    assert sel[..|sel|] == sel;
  }

  /** Filtering a store with distinct ids gives a snapshot of it. */
  lemma {:induction false} FilterIsSnapshot(docs: seq<DocumentRequest>, p: DocumentRequest -> bool)
    requires DistinctIds(docs)
    ensures Snapshot(Filter(docs, p), docs)
  {
    if docs != [] {
      var rest := docs[1..];
      assert DistinctIds(rest) by {
        forall i, j | 0 <= i < |rest| && 0 <= j < |rest| && i != j ensures rest[i].id != rest[j].id {
          assert rest[i] == docs[i + 1] && rest[j] == docs[j + 1];
        }
      }
      FilterIsSnapshot(rest, p);
      if p(docs[0]) {
        var r := [docs[0]] + Filter(rest, p);
        forall k | 1 <= k < |r| ensures r[k].id != docs[0].id {
          assert r[k] in rest;
          var j :| 0 <= j < |rest| && rest[j] == r[k];
          assert docs[j + 1] == r[k];
        }
        forall i, j | 0 <= i < |r| && 0 <= j < |r| && i != j ensures r[i].id != r[j].id {
          if i > 0 && j > 0 {
            assert r[i] == Filter(rest, p)[i - 1] && r[j] == Filter(rest, p)[j - 1];
          }
        }
      }
    }
  }

  /** A sorted, limited selection of a snapshot is a snapshot. */
  lemma QueuedIsSnapshot(docs: seq<DocumentRequest>, limit: int)
    requires DistinctIds(docs)
    ensures Snapshot(QueuedRequests(docs, limit), docs)
  {
    var queued := ByStatus(docs, Queued);
    FilterIsSnapshot(docs, (r: DocumentRequest) => r.status == Queued);
    var sorted := SortBy(queued, CreatedAtKey);
    var res := QueuedRequests(docs, limit);
    assert res == Limit(sorted, limit);
    assert res == sorted[..|res|];
    forall i, j | 0 <= i < |res| && 0 <= j < |res| && i != j ensures res[i].id != res[j].id {
      SortedKeepsDistinct(queued, sorted, i, j);
    }
  }

  /** Sorting permutes, so distinct ids stay distinct. */
  lemma SortedKeepsDistinct(s: seq<DocumentRequest>, t: seq<DocumentRequest>, i: int, j: int)
    requires DistinctIds(s) && multiset(t) == multiset(s)
    requires 0 <= i < |t| && 0 <= j < |t| && i != j
    ensures t[i].id != t[j].id
  {
    if t[i].id == t[j].id {
      var lo, hi := if i < j then i else j, if i < j then j else i;
      assert t[lo] in multiset(s) && t[hi] in multiset(s);
      var a :| 0 <= a < |s| && s[a] == t[lo];
      var b :| 0 <= b < |s| && s[b] == t[hi];
      assert a == b;
      var x := t[lo];
      assert t == t[..hi] + t[hi..];
      assert x in t[..hi] && x in t[hi..] by {
        assert t[..hi][lo] == x;
        assert t[hi..][0] == x;
      }
      assert multiset(t)[x] == multiset(t[..hi])[x] + multiset(t[hi..])[x];
      CountTwoDistinctIds(s, x);
    }
  }

  /** With distinct ids no record occurs twice. */
  lemma CountTwoDistinctIds(s: seq<DocumentRequest>, x: DocumentRequest)
    requires DistinctIds(s)
    ensures multiset(s)[x] <= 1
  {
    if s != [] {
      var rest := s[1..];
      assert s == [s[0]] + rest;
      assert DistinctIds(rest) by {
        forall i, j | 0 <= i < |rest| && 0 <= j < |rest| && i != j ensures rest[i].id != rest[j].id {
          assert rest[i] == s[i + 1] && rest[j] == s[j + 1];
        }
      }
      CountTwoDistinctIds(rest, x);
      if s[0] == x {
        assert x !in rest by {
          forall j | 0 <= j < |rest| ensures rest[j] != x {
            assert rest[j] == s[j + 1];
          }
        }
      }
    }
  }

  // ---------------------------------------------------------------------------
  // Record-level transitions
  // ---------------------------------------------------------------------------

  const ConversionErrorPrefix := "Failed to convert document to markdown: "

  /**
   * A request after its conversion and `UpdateAsync`: Queued with the markdown,
   * or Failed with the prefixed exception message; nothing else changes.
   */
  function Converted(r: DocumentRequest, outcome: Result<string>, now: Time): (u: DocumentRequest)
    ensures outcome.Ok? ==> u.status == Queued && u.markdownContent == Some(outcome.value) && u.errorMessage == r.errorMessage
    ensures outcome.Err? ==>
      u.status == ProcessingStatus.Failed && u.errorMessage == Some(ConversionErrorPrefix + outcome.message) && u.markdownContent == r.markdownContent
    ensures u.updatedAt == now && u.batchId == r.batchId
    ensures u.(status := r.status, markdownContent := r.markdownContent, errorMessage := r.errorMessage, updatedAt := r.updatedAt) == r
  {
    match outcome
    case Ok(markdown) => r.(markdownContent := Some(markdown), status := Queued, updatedAt := now)
    case Err(e) => r.(status := ProcessingStatus.Failed, errorMessage := Some(ConversionErrorPrefix + e), updatedAt := now)
  }

  /** A member of a new batch after its `UpdateAsync`: BatchSubmitted, pointing at the job. */
  function Marked(r: DocumentRequest, jobId: string, now: Time): (u: DocumentRequest)
    ensures u.status == BatchSubmitted && u.batchId == Some(jobId) && u.updatedAt == now
    ensures u.(status := r.status, batchId := r.batchId, updatedAt := r.updatedAt) == r
  {
    r.(status := BatchSubmitted, batchId := Some(jobId), updatedAt := now)
  }

  /** A member put back in the queue after its `UpdateAsync`: Queued, with no batch. */
  function Requeued(r: DocumentRequest, now: Time): (u: DocumentRequest)
    ensures u.status == Queued && u.batchId.None? && u.updatedAt == now
    ensures u.(status := r.status, batchId := r.batchId, updatedAt := r.updatedAt) == r
  {
    r.(status := Queued, batchId := None, updatedAt := now)
  }

  function ConvertStep(convert: (seq<byte>, string) -> Result<string>, now: Time): (f: DocumentRequest -> DocumentRequest)
    ensures StoreWrite(f, now)
  {
    var f := (r: DocumentRequest) => Converted(r, convert(r.documentContent, r.documentName), now);
    assert forall r :: f(r) == Converted(r, convert(r.documentContent, r.documentName), now);
    f
  }

  function MarkStep(jobId: string, now: Time): (f: DocumentRequest -> DocumentRequest)
    ensures StoreWrite(f, now)
  {
    (r: DocumentRequest) => Marked(r, jobId, now)
  }

  function RequeueStep(now: Time): (f: DocumentRequest -> DocumentRequest)
    ensures StoreWrite(f, now)
  {
    (r: DocumentRequest) => Requeued(r, now)
  }

  // ---------------------------------------------------------------------------
  // Conversion phase
  // ---------------------------------------------------------------------------

  /**
   * The store after the conversion loop over the Pending snapshot. `budget` is
   * the number of iterations started before cancellation is observed; a loop
   * that is never cancelled has a budget of at least the number of Pending requests.
   */
  function ConvertPending(docs: seq<DocumentRequest>, convert: (seq<byte>, string) -> Result<string>, budget: nat, now: Time): seq<DocumentRequest> {
    Rewrite(docs, IdSet(Take(ByStatus(docs, Pending), budget)), ConvertStep(convert, now))
  }

  /**
   * What the conversion phase does to each request: one that was not Pending
   * is untouched; a Pending one that was reached becomes Queued with its
   * markdown or Failed with the prefixed message, independently of the others;
   * a Pending one not reached before cancellation is untouched and still Pending.
   */
  lemma ConversionEffect(docs: seq<DocumentRequest>, convert: (seq<byte>, string) -> Result<string>, budget: nat, now: Time, i: int)
    requires DistinctIds(docs) && 0 <= i < |docs|
    ensures var res := ConvertPending(docs, convert, budget, now);
      var reached := Take(ByStatus(docs, Pending), budget);
      && |res| == |docs|
      && (docs[i].status != Pending ==> res[i] == docs[i])
      && (docs[i].status == Pending && docs[i] in reached ==>
            res[i] == Converted(docs[i], convert(docs[i].documentContent, docs[i].documentName), now))
      && (docs[i].status == Pending && docs[i] !in reached ==> res[i] == docs[i])
  {
    var sel := ByStatus(docs, Pending);
    var reached := Take(sel, budget);
    FilterIsSnapshot(docs, (r: DocumentRequest) => r.status == Pending);
    if docs[i].id in IdSet(reached) {
      var k :| 0 <= k < |reached| && reached[k].id == docs[i].id;
      assert reached[k] == sel[k];
      assert reached[k] in docs;
      StoredWithId(docs, reached[k], i);
      assert docs[i] in reached;
    }
  }

  /** With no Pending request the conversion phase changes nothing. */
  lemma ConversionWithoutPendingIsNoop(docs: seq<DocumentRequest>, convert: (seq<byte>, string) -> Result<string>, budget: nat, now: Time)
    requires ByStatus(docs, Pending) == []
    ensures ConvertPending(docs, convert, budget, now) == docs
  {
    assert IdSet(Take(ByStatus(docs, Pending), budget)) == {};
  }

  /**
   * A conversion run that is not cancelled leaves no Pending request behind,
   * so a second run, whatever its converter, clock and budget, changes nothing.
   */
  lemma ConversionIdempotent(docs: seq<DocumentRequest>, convert: (seq<byte>, string) -> Result<string>, budget: nat, now: Time,
                             convert2: (seq<byte>, string) -> Result<string>, budget2: nat, now2: Time)
    requires DistinctIds(docs) && budget >= |ByStatus(docs, Pending)|
    ensures var once := ConvertPending(docs, convert, budget, now);
      ByStatus(once, Pending) == [] && ConvertPending(once, convert2, budget2, now2) == once
  {
    var once := ConvertPending(docs, convert, budget, now);
    var sel := ByStatus(docs, Pending);
    assert Take(sel, budget) == sel;
    forall i | 0 <= i < |once| ensures once[i].status != Pending {
      ConversionEffect(docs, convert, budget, now, i);
      if docs[i].status == Pending {
        assert docs[i] in sel;
      }
    }
    FilterNone(once, (r: DocumentRequest) => r.status == Pending);
    ConversionWithoutPendingIsNoop(once, convert2, budget2, now2);
  }

  // ---------------------------------------------------------------------------
  // Submission phase (the worker and the function)
  // ---------------------------------------------------------------------------

  /** The two stores after a phase, and how the phase ended. */
  datatype Stores = Stores(docs: seq<DocumentRequest>, jobs: seq<BatchJob>, outcome: Outcome)

  /** The message of MongoDB's duplicate-key write error. */
  const DuplicateKeyError := "E11000 duplicate key error"

  /** The job built for a selection: its ids in fetch order, their count, status Created. */
  function NewJobFor(sel: seq<DocumentRequest>, jobId: string, now: Time): (j: BatchJob)
    ensures j.id == jobId && j.status == BatchJobStatus.Created && j.openAiBatchId.None?
    ensures j.requestIds == IdsOf(sel) && j.totalRequests == |sel| && j.createdAt == now
    ensures j.completedRequests == 0 && j.failedRequests == 0 && j.submittedAt.None? && j.completedAt.None?
  {
    NewBatchJob(jobId, now).(requestIds := IdsOf(sel), totalRequests := |sel|, status := BatchJobStatus.Created)
  }

  /** The job after the bulk service accepted it. */
  function SubmittedJob(j: BatchJob, remoteId: string, now: Time): (u: BatchJob)
    ensures u.status == BatchJobStatus.Submitted && u.openAiBatchId == Some(remoteId) && u.submittedAt == Some(now)
    ensures u.(status := j.status, openAiBatchId := j.openAiBatchId, submittedAt := j.submittedAt) == j
  {
    j.(openAiBatchId := Some(remoteId), status := BatchJobStatus.Submitted, submittedAt := Some(now))
  }

  /**
   * `SubmitBatchAsync` of the worker and of the function: the oldest Queued
   * requests (at most `threshold`) become one job. A duplicate job id makes the
   * job insert fail before any request is marked; a failed upload leaves the
   * job Created. Either failure puts every fetched request back in the queue.
   */
  function SubmitQueued(docs: seq<DocumentRequest>, jobs: seq<BatchJob>, threshold: int, jobId: string,
                        upload: seq<BatchRequestLine> -> Result<string>, now: Time): Stores
  {
    var sel := QueuedRequests(docs, threshold);
    var job := NewJobFor(sel, jobId, now);
    if sel == [] then Stores(docs, jobs, Pass)
    else if HasJobId(jobs, jobId) then Stores(Rewrite(docs, IdSet(sel), RequeueStep(now)), jobs, Fail(DuplicateKeyError))
    else match upload(Payload(sel))
      case Ok(remoteId) => Stores(Rewrite(docs, IdSet(sel), MarkStep(jobId, now)), jobs + [SubmittedJob(job, remoteId, now)], Pass)
      case Err(e) => Stores(Rewrite(docs, IdSet(sel), RequeueStep(now)), jobs + [job], Fail(e))
  }

  /** `ProcessBatchQueueAsync` of the worker and of the function: any Queued request triggers a submission. */
  function ProcessQueue(docs: seq<DocumentRequest>, jobs: seq<BatchJob>, threshold: int, jobId: string,
                        upload: seq<BatchRequestLine> -> Result<string>, now: Time): Stores
  {
    if QueuedCount(docs) == 0 then Stores(docs, jobs, Pass)
    else SubmitQueued(docs, jobs, threshold, jobId, upload, now)
  }

  /**
   * An empty queue creates no job and changes nothing; a non-empty one always
   * makes a submission attempt, whatever the threshold: a job is inserted
   * unless its id is already taken.
   */
  lemma QueueGate(docs: seq<DocumentRequest>, jobs: seq<BatchJob>, threshold: int, jobId: string,
                  upload: seq<BatchRequestLine> -> Result<string>, now: Time)
    ensures var st := ProcessQueue(docs, jobs, threshold, jobId, upload, now);
      && (QueuedCount(docs) == 0 ==> st == Stores(docs, jobs, Pass))
      && (QueuedCount(docs) > 0 ==>
            QueuedRequests(docs, threshold) != [] && (if HasJobId(jobs, jobId) then st.jobs == jobs else |st.jobs| == |jobs| + 1))
  {
  }

  /**
   * A successful submission: the job is stored Submitted with the remote id,
   * the fetched ids in fetch order and their count, and every fetched request
   * is BatchSubmitted pointing at it.
   */
  lemma SubmitSuccess(docs: seq<DocumentRequest>, jobs: seq<BatchJob>, threshold: int, jobId: string,
                      upload: seq<BatchRequestLine> -> Result<string>, now: Time, i: int)
    requires DistinctIds(docs) && 0 <= i < |docs|
    requires var sel := QueuedRequests(docs, threshold);
      sel != [] && !HasJobId(jobs, jobId) && upload(Payload(sel)).Ok?
    ensures var sel := QueuedRequests(docs, threshold);
      var st := SubmitQueued(docs, jobs, threshold, jobId, upload, now);
      && st.outcome == Pass
      && st.jobs[|jobs|].status == BatchJobStatus.Submitted
      && st.jobs[|jobs|].openAiBatchId == Some(upload(Payload(sel)).value)
      && st.jobs[|jobs|].requestIds == IdsOf(sel)
      && (docs[i] in sel ==> st.docs[i].status == BatchSubmitted && st.docs[i].batchId == Some(jobId))
      && (docs[i] !in sel ==> st.docs[i] == docs[i])
  {
    var sel := QueuedRequests(docs, threshold);
    QueuedIsSnapshot(docs, threshold);
    MembershipById(docs, sel, i);
  }

  /** In a snapshot, a stored record is selected exactly when its id is. */
  lemma MembershipById(docs: seq<DocumentRequest>, sel: seq<DocumentRequest>, i: int)
    requires DistinctIds(docs) && Snapshot(sel, docs) && 0 <= i < |docs|
    ensures docs[i] in sel <==> docs[i].id in IdSet(sel)
  {
    if docs[i].id in IdSet(sel) {
      var k :| 0 <= k < |sel| && sel[k].id == docs[i].id;
      StoredWithId(docs, sel[k], i);
    }
    if docs[i] in sel {
      var k :| 0 <= k < |sel| && sel[k] == docs[i];
      assert docs[i].id in IdSet(sel);
    }
  }

  /**
   * Compensation: when the submission fails, every fetched request is Queued
   * with no batch, the number of Queued requests is what it was before the
   * attempt, and the job store holds at most the new Created job.
   */
  lemma CompensationRestoresQueue(docs: seq<DocumentRequest>, jobs: seq<BatchJob>, threshold: int, jobId: string,
                                  upload: seq<BatchRequestLine> -> Result<string>, now: Time)
    requires DistinctIds(docs)
    requires SubmitQueued(docs, jobs, threshold, jobId, upload, now).outcome.Fail?
    ensures var st := SubmitQueued(docs, jobs, threshold, jobId, upload, now);
      var sel := QueuedRequests(docs, threshold);
      && QueuedCount(st.docs) == QueuedCount(docs)
      && (forall i :: 0 <= i < |docs| && docs[i] in sel ==> st.docs[i].status == Queued && st.docs[i].batchId.None?)
      && (st.jobs == jobs || st.jobs == jobs + [NewJobFor(sel, jobId, now)])
  {
    var sel := QueuedRequests(docs, threshold);
    var st := SubmitQueued(docs, jobs, threshold, jobId, upload, now);
    QueuedIsSnapshot(docs, threshold);
    RequeueKeepsQueuedCount(docs, sel, now);
    forall i | 0 <= i < |docs| && docs[i] in sel ensures st.docs[i].status == Queued && st.docs[i].batchId.None? {
      MembershipById(docs, sel, i);
    }
  }

  /** Re-queueing a snapshot of Queued requests keeps the Queued count. */
  lemma RequeueKeepsQueuedCount(docs: seq<DocumentRequest>, sel: seq<DocumentRequest>, now: Time)
    requires DistinctIds(docs) && Snapshot(sel, docs)
    requires forall k :: 0 <= k < |sel| ==> sel[k].status == Queued
    ensures QueuedCount(Rewrite(docs, IdSet(sel), RequeueStep(now))) == QueuedCount(docs)
  {
    var res := Rewrite(docs, IdSet(sel), RequeueStep(now));
    var p := (r: DocumentRequest) => r.status == Queued;
    forall i | 0 <= i < |docs| ensures p(res[i]) == p(docs[i]) {
      if docs[i].id in IdSet(sel) {
        var k :| 0 <= k < |sel| && sel[k].id == docs[i].id;
        StoredWithId(docs, sel[k], i);
      }
    }
    FilterLengthPointwise(res, docs, p);
  }
}
