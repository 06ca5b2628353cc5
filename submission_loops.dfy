/**
 * The two store-write loops that the worker's and the function's
 * `SubmitBatchAsync` share line for line: marking the fetched requests
 * BatchSubmitted, and the compensation that puts them back in the queue.
 */
module SubmissionLoops {
  import opened Enums
  import opened Entities
  import opened Wrappers
  import opened DocumentRequests
  import opened Phases

  /** The marking loop: each fetched request object is set BatchSubmitted with the job id and written back. */
  method Mark(requests: DocumentRequestRepository, ghost docs0: seq<DocumentRequest>, sel: seq<DocumentRequest>, jobId: string, now: Time)
    returns (batch: seq<DocumentRequest>)
    requires requests.Valid() && DistinctIds(docs0) && Snapshot(sel, docs0) && requests.docs == docs0
    modifies requests
    ensures requests.Valid()
    ensures requests.docs == Rewrite(docs0, IdSet(sel), MarkStep(jobId, now))
    ensures |batch| == |sel| && forall j :: 0 <= j < |sel| ==> batch[j] == sel[j].(status := BatchSubmitted, batchId := Some(jobId))
  {
    ghost var mark := MarkStep(jobId, now);
    batch := sel;
    for k := 0 to |batch|
      invariant requests.Valid()
      invariant |batch| == |sel|
      invariant forall j :: 0 <= j < k ==> batch[j] == sel[j].(status := BatchSubmitted, batchId := Some(jobId))
      invariant forall j :: k <= j < |sel| ==> batch[j] == sel[j]
      invariant requests.docs == Overlay(docs0, docs0, IdSet(sel[..k]), mark)
    {
      batch := batch[k := batch[k].(status := BatchSubmitted, batchId := Some(jobId))];
      RewriteStep(docs0, docs0, sel, k, mark, now);
      requests.Update(batch[k], now);
    }
    RewriteDone(docs0, docs0, sel, mark);
  }

  /**
   * The compensation loop: each fetched request object is set Queued with no
   * batch and written back. `requeue` says what that makes of each fetched
   * record, given what the earlier loops did to its object.
   */
  method Requeue(requests: DocumentRequestRepository, ghost docs0: seq<DocumentRequest>, ghost sel: seq<DocumentRequest>,
                 batch: seq<DocumentRequest>, ghost requeue: DocumentRequest -> DocumentRequest, now: Time)
    requires requests.Valid() && DistinctIds(docs0) && Snapshot(sel, docs0) && StoreWrite(requeue, now)
    requires |requests.docs| == |docs0|
    requires forall i :: 0 <= i < |docs0| ==> requests.docs[i].id == docs0[i].id
    requires forall i :: 0 <= i < |docs0| && docs0[i].id !in IdSet(sel) ==> requests.docs[i] == docs0[i]
    requires |batch| == |sel| && forall k :: 0 <= k < |sel| ==> Requeued(batch[k], now) == requeue(sel[k])
    modifies requests
    ensures requests.Valid()
    ensures requests.docs == Rewrite(docs0, IdSet(sel), requeue)
  {
    ghost var base := requests.docs;
    var objects := batch;
    for k := 0 to |objects|
      invariant requests.Valid() && |objects| == |sel|
      invariant forall j :: 0 <= j < |sel| ==> Requeued(objects[j], now) == requeue(sel[j])
      invariant requests.docs == Overlay(base, docs0, IdSet(sel[..k]), requeue)
    {
      objects := objects[k := objects[k].(status := Queued, batchId := None)];
      assert objects[k].(updatedAt := now) == requeue(sel[k]);
      RewriteStep(base, docs0, sel, k, requeue, now);
      requests.Update(objects[k], now);
    }
    RewriteDone(base, docs0, sel, requeue);
  }
}
