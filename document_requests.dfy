/**
 * The request store: an in-memory collection of `DocumentRequest` records in
 * insertion order, the queries the pipeline runs over it, and the class whose
 * methods change it.
 */
module DocumentRequests {
  import opened Wrappers
  import opened Enums
  import opened Entities
  import opened Sequences

  ghost predicate DistinctIds(docs: seq<DocumentRequest>) {
    forall i, j :: 0 <= i < |docs| && 0 <= j < |docs| && i != j ==> docs[i].id != docs[j].id
  }

  predicate HasId(docs: seq<DocumentRequest>, id: string) {
    exists i :: 0 <= i < |docs| && docs[i].id == id
  }

  function CreatedAtKey(r: DocumentRequest): int {
    r.createdAt
  }

  /** `GetByIdAsync`: the first record with this id, or null. */
  function FindById(docs: seq<DocumentRequest>, id: string): (r: Option<DocumentRequest>)
    ensures r.Some? <==> HasId(docs, id)
    ensures r.Some? ==> r.value in docs && r.value.id == id
    ensures r.Some? && DistinctIds(docs) ==> forall i :: 0 <= i < |docs| && docs[i].id == id ==> docs[i] == r.value
  {
    if docs == [] then None
    else if docs[0].id == id then Some(docs[0])
    else
      var r := FindById(docs[1..], id);
      assert HasId(docs, id) ==> HasId(docs[1..], id) by {
        if HasId(docs, id) {
          var i :| 0 <= i < |docs| && docs[i].id == id;
          assert docs[1..][i - 1].id == id;
        }
      }
      assert HasId(docs[1..], id) ==> HasId(docs, id) by {
        if HasId(docs[1..], id) {
          var i :| 0 <= i < |docs[1..]| && docs[1..][i].id == id;
          assert docs[i + 1].id == id;
        }
      }
      r
  }

  /** `GetByStatusAsync(status)`: exactly the records with that status, in store order. */
  function ByStatus(docs: seq<DocumentRequest>, status: ProcessingStatus): (res: seq<DocumentRequest>)
    ensures forall r :: r in res <==> r in docs && r.status == status
    ensures forall k :: 0 <= k < |res| ==> res[k].status == status
  {
    Filter(docs, (r: DocumentRequest) => r.status == status)
  }

  /** `GetQueuedRequestsCountAsync`: the number of Queued records. */
  function QueuedCount(docs: seq<DocumentRequest>): nat {
    |ByStatus(docs, Queued)|
  }

  /** `GetQueuedRequestsAsync(limit)`: Queued records, oldest first, at most `limit` of them (MongoDB `Limit`). */
  function QueuedRequests(docs: seq<DocumentRequest>, limit: int): (res: seq<DocumentRequest>)
    ensures forall r :: r in res ==> r in docs && r.status == Queued
    ensures SortedBy(res, CreatedAtKey)
    ensures limit > 0 ==> |res| <= limit
    ensures limit != 0 ==> |res| == if QueuedCount(docs) <= Abs(limit) then QueuedCount(docs) else Abs(limit)
    ensures limit == 0 ==> |res| == QueuedCount(docs)
  {
    var queued := ByStatus(docs, Queued);
    var sorted := SortBy(queued, CreatedAtKey);
    var res := Limit(sorted, limit);
    LimitOfSortedFromInput(queued, CreatedAtKey, limit);
    assert SortedBy(res, CreatedAtKey) by {
      assert res == sorted[..|res|];
    }
    res
  }

  /** FIFO fairness: a Queued record left out of the selection is not older than any record selected. */
  lemma QueuedRequestsAreOldest(docs: seq<DocumentRequest>, limit: int, left: DocumentRequest, taken: DocumentRequest)
    requires left in docs && left.status == Queued && left !in QueuedRequests(docs, limit)
    requires taken in QueuedRequests(docs, limit)
    ensures taken.createdAt <= left.createdAt
  {
    LimitOfSortedTakesSmallest(ByStatus(docs, Queued), CreatedAtKey, limit, left, taken);
  }

  /** `GetByBatchIdAsync(batchId)`: exactly the records whose `BatchId` is that id. */
  function ByBatchId(docs: seq<DocumentRequest>, batchId: string): (res: seq<DocumentRequest>)
    ensures forall r :: r in res <==> r in docs && r.batchId == Some(batchId)
  {
    Filter(docs, (r: DocumentRequest) => r.batchId == Some(batchId))
  }

  /** The whole store under `SortByDescending(x => x.CreatedAt)`. */
  function NewestFirst(docs: seq<DocumentRequest>): (res: seq<DocumentRequest>)
    ensures multiset(res) == multiset(docs)
    ensures forall i, j :: 0 <= i < j < |res| ==> res[i].createdAt >= res[j].createdAt
  {
    var sorted := SortBy(docs, CreatedAtKey);
    NewestFirstSorted(sorted, 0);
    ReverseMultiset(sorted);
    Reverse(sorted)
  }

  /** `GetAllAsync(skip, take)`: newest first, `skip` dropped, at most `take` returned. */
  function AllNewestFirst(docs: seq<DocumentRequest>, skip: nat, take: int): (res: seq<DocumentRequest>)
    ensures forall i, j :: 0 <= i < j < |res| ==> res[i].createdAt >= res[j].createdAt
    ensures multiset(res) <= multiset(docs)
    ensures |res| == |Limit(Skip(docs, skip), take)|
  {
    var newest := NewestFirst(docs);
    PageFromInput(newest, skip, take);
    var res := Limit(Skip(newest, skip), take);
    assert res == Skip(newest, skip)[..|res|];
    res
  }

  /**
   * The page is the right one: a stored record left off it that is newer
   * than a record on it is one of the `skip` newest, and on the first page
   * nothing left off is newer than anything returned.
   */
  lemma AllNewestFirstLeavesOut(docs: seq<DocumentRequest>, skip: nat, take: int, left: DocumentRequest, shown: DocumentRequest)
    requires left in docs && left !in AllNewestFirst(docs, skip, take)
    requires shown in AllNewestFirst(docs, skip, take)
    ensures shown.createdAt < left.createdAt ==> left in Take(NewestFirst(docs), skip)
    ensures skip == 0 ==> left.createdAt <= shown.createdAt
    ensures shown.createdAt < left.createdAt ==> forall r :: r in AllNewestFirst(docs, skip, take) ==> r.createdAt <= left.createdAt
  {
    var newest := NewestFirst(docs);
    assert AllNewestFirst(docs, skip, take) == Limit(Skip(newest, skip), take);
    SameElements(newest, docs, left);
    PageLeavesOut(newest, CreatedAtKey, skip, take, left, shown);
    if shown.createdAt < left.createdAt {
      PageSkipsPrefix(newest, CreatedAtKey, skip, take, left);
    }
  }

  /**
   * The other direction: with distinct ids, none of the `skip` newest records is
   * on the page, and each is no older than anything on it.
   */
  lemma AllNewestFirstSkipsNewest(docs: seq<DocumentRequest>, skip: nat, take: int, skipped: DocumentRequest)
    requires DistinctIds(docs)
    requires skipped in Take(NewestFirst(docs), skip)
    ensures skipped !in AllNewestFirst(docs, skip, take)
    ensures forall r :: r in AllNewestFirst(docs, skip, take) ==> r.createdAt <= skipped.createdAt
  {
    var newest := NewestFirst(docs);
    assert AllNewestFirst(docs, skip, take) == Limit(Skip(newest, skip), take);
    assert NoRepeats(docs) by {
      forall i, j | 0 <= i < j < |docs| ensures docs[i] != docs[j] {
        assert docs[i].id != docs[j].id;
      }
    }
    NoRepeatsPermutation(newest, docs);
    PageSkipsPrefix(newest, CreatedAtKey, skip, take, skipped);
  }

  lemma NewestFirstSorted(sorted: seq<DocumentRequest>, skip: nat)
    requires SortedBy(sorted, CreatedAtKey)
    ensures var page := Skip(Reverse(sorted), skip);
      forall i, j :: 0 <= i < j < |page| ==> page[i].createdAt >= page[j].createdAt
  {
    var page := Skip(Reverse(sorted), skip);
    forall i, j | 0 <= i < j < |page| ensures page[i].createdAt >= page[j].createdAt {
      var a, b := |sorted| - 1 - (skip + j), |sorted| - 1 - (skip + i);
      assert page[i] == sorted[b] && page[j] == sorted[a];
      assert CreatedAtKey(sorted[a]) <= CreatedAtKey(sorted[b]);
    }
  }

  /** The store after `ReplaceOneAsync(x => x.Id == r.Id, r)`: the record with that id becomes `r`. */
  function Replace(docs: seq<DocumentRequest>, r: DocumentRequest): (res: seq<DocumentRequest>)
    ensures |res| == |docs|
    ensures forall i :: 0 <= i < |docs| ==> res[i] == if docs[i].id == r.id then r else docs[i]
    ensures forall i :: 0 <= i < |docs| ==> res[i].id == docs[i].id
    ensures !HasId(docs, r.id) ==> res == docs
  {
    seq(|docs|, i requires 0 <= i < |docs| => if docs[i].id == r.id then r else docs[i])
  }

  /** The fields `UpdateStatusAsync` sets on one record. */
  function WithStatus(r: DocumentRequest, status: ProcessingStatus, errorMessage: Option<string>, now: Time): (u: DocumentRequest)
    ensures u.status == status && u.updatedAt == now
    ensures u.errorMessage == if errorMessage.Some? then errorMessage else r.errorMessage
    ensures u.completedAt == if status == ProcessingStatus.Completed || status == ProcessingStatus.Failed then Some(now) else r.completedAt
    ensures u.(status := r.status, updatedAt := r.updatedAt, errorMessage := r.errorMessage, completedAt := r.completedAt) == r
  {
    var u := r.(status := status, updatedAt := now);
    var u := if errorMessage.Some? then u.(errorMessage := errorMessage) else u;
    if status == ProcessingStatus.Completed || status == ProcessingStatus.Failed then u.(completedAt := Some(now)) else u
  }

  /** The fields `UpdateResultAsync` sets on one record; `ErrorMessage` and `BatchId` stay as they were. */
  function WithResult(r: DocumentRequest, result: string, now: Time): (u: DocumentRequest)
    ensures u.result == Some(result) && u.status == ProcessingStatus.Completed
    ensures u.updatedAt == now && u.completedAt == Some(now)
    ensures u.errorMessage == r.errorMessage && u.batchId == r.batchId
    ensures u.(result := r.result, status := r.status, updatedAt := r.updatedAt, completedAt := r.completedAt) == r
  {
    r.(result := Some(result), status := ProcessingStatus.Completed, updatedAt := now, completedAt := Some(now))
  }

  /** The store after `UpdateStatusAsync(id, status, errorMessage)`. */
  function SetStatus(docs: seq<DocumentRequest>, id: string, status: ProcessingStatus, errorMessage: Option<string>, now: Time): (res: seq<DocumentRequest>)
    ensures |res| == |docs|
    ensures forall i :: 0 <= i < |docs| ==> res[i] == if docs[i].id == id then WithStatus(docs[i], status, errorMessage, now) else docs[i]
  {
    seq(|docs|, i requires 0 <= i < |docs| => if docs[i].id == id then WithStatus(docs[i], status, errorMessage, now) else docs[i])
  }

  /** The store after `UpdateResultAsync(id, result)`. */
  function SetResult(docs: seq<DocumentRequest>, id: string, result: string, now: Time): (res: seq<DocumentRequest>)
    ensures |res| == |docs|
    ensures forall i :: 0 <= i < |docs| ==> res[i] == if docs[i].id == id then WithResult(docs[i], result, now) else docs[i]
  {
    seq(|docs|, i requires 0 <= i < |docs| => if docs[i].id == id then WithResult(docs[i], result, now) else docs[i])
  }

  /**
   * Two stores with the same ids in the same places find a given id at the same
   * place: what `GetByIdAsync` returns from one is the record at that place in the other.
   */
  lemma {:induction false} FindByIdSamePlace(a: seq<DocumentRequest>, b: seq<DocumentRequest>, id: string)
    requires |a| == |b| && forall i :: 0 <= i < |a| ==> a[i].id == b[i].id
    ensures FindById(a, id).Some? <==> FindById(b, id).Some?
    ensures FindById(a, id).Some? ==> exists i :: 0 <= i < |a| && FindById(a, id) == Some(a[i]) && FindById(b, id) == Some(b[i])
  {
    if a != [] && a[0].id != id {
      FindByIdSamePlace(a[1..], b[1..], id);
      if FindById(a[1..], id).Some? {
        var i :| 0 <= i < |a[1..]| && FindById(a[1..], id) == Some(a[1..][i]) && FindById(b[1..], id) == Some(b[1..][i]);
        assert FindById(a, id) == Some(a[i + 1]) && FindById(b, id) == Some(b[i + 1]);
      }
    }
  }

  /** After a successful `CreateAsync(r)`, `GetByIdAsync(r.Id)` returns `r`. */
  lemma CreateThenFind(docs: seq<DocumentRequest>, r: DocumentRequest)
    requires !HasId(docs, r.id)
    ensures FindById(docs + [r], r.id) == Some(r)
    ensures DistinctIds(docs) ==> DistinctIds(docs + [r])
  {
    var d := docs + [r];
    assert d[|docs|] == r;
    assert HasId(d, r.id);
  }

  /** A write keeps every record's id in place, so the ids stay distinct. */
  lemma SameIdsKeepDistinct(docs: seq<DocumentRequest>, res: seq<DocumentRequest>)
    requires DistinctIds(docs) && |res| == |docs|
    requires forall i :: 0 <= i < |docs| ==> res[i].id == docs[i].id
    ensures DistinctIds(res)
  {
  }

  /**
   * The request collection. `docs` is the stored records in insertion order;
   * the MongoDB unique `_id` index is `Valid()`.
   */
  class DocumentRequestRepository {
    var docs: seq<DocumentRequest>

    ghost predicate Valid()
      reads this
    {
      DistinctIds(docs)
    }

    constructor ()
      ensures Valid() && docs == []
    {
      docs := [];
    }

    /** `CreateAsync`: inserts `r`; an id already stored is a duplicate-key error and changes nothing. */
    method Create(r: DocumentRequest) returns (ok: bool)
      requires Valid()
      modifies this
      ensures Valid()
      ensures ok == !HasId(old(docs), r.id)
      ensures docs == if ok then old(docs) + [r] else old(docs)
    {
      ok := !HasId(docs, r.id);
      if ok {
        CreateThenFind(docs, r);
        docs := docs + [r];
      }
    }

    /** `UpdateAsync`: stamps `UpdatedAt` and replaces the record with the same id; a missing id changes nothing. */
    method Update(r: DocumentRequest, now: Time)
      requires Valid()
      modifies this
      ensures Valid()
      ensures docs == Replace(old(docs), r.(updatedAt := now))
    {
      docs := Replace(docs, r.(updatedAt := now));
    }

    /** `UpdateStatusAsync`. */
    method UpdateStatus(id: string, status: ProcessingStatus, errorMessage: Option<string>, now: Time)
      requires Valid()
      modifies this
      ensures Valid()
      ensures docs == SetStatus(old(docs), id, status, errorMessage, now)
    {
      docs := SetStatus(docs, id, status, errorMessage, now);
    }

    /** `UpdateResultAsync`. */
    method UpdateResult(id: string, result: string, now: Time)
      requires Valid()
      modifies this
      ensures Valid()
      ensures docs == SetResult(old(docs), id, result, now)
    {
      docs := SetResult(docs, id, result, now);
    }
  }
}
