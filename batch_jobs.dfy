/**
 * The batch job store: an in-memory collection of `BatchJob` records in
 * insertion order, its queries, and the class whose methods change it.
 * There is no delete operation: a job, once created, stays.
 */
module BatchJobs {
  import opened Wrappers
  import opened Entities
  import opened Sequences

  ghost predicate DistinctJobIds(jobs: seq<BatchJob>) {
    forall i, j :: 0 <= i < |jobs| && 0 <= j < |jobs| && i != j ==> jobs[i].id != jobs[j].id
  }

  predicate HasJobId(jobs: seq<BatchJob>, id: string) {
    exists i :: 0 <= i < |jobs| && jobs[i].id == id
  }

  function JobCreatedAtKey(j: BatchJob): int {
    j.createdAt
  }

  /** `GetByIdAsync`: the first job with this id, or null. */
  function JobById(jobs: seq<BatchJob>, id: string): (r: Option<BatchJob>)
    ensures r.Some? <==> HasJobId(jobs, id)
    ensures r.Some? ==> r.value in jobs && r.value.id == id
  {
    if jobs == [] then None
    else if jobs[0].id == id then Some(jobs[0])
    else
      var r := JobById(jobs[1..], id);
      assert HasJobId(jobs, id) ==> HasJobId(jobs[1..], id) by {
        if HasJobId(jobs, id) {
          var i :| 0 <= i < |jobs| && jobs[i].id == id;
          assert jobs[1..][i - 1].id == id;
        }
      }
      assert HasJobId(jobs[1..], id) ==> HasJobId(jobs, id) by {
        if HasJobId(jobs[1..], id) {
          var i :| 0 <= i < |jobs[1..]| && jobs[1..][i].id == id;
          assert jobs[i + 1].id == id;
        }
      }
      r
  }

  /** `GetByOpenAiBatchIdAsync(remoteId)`: the first job carrying that remote id, or null when none does. */
  function JobByRemoteId(jobs: seq<BatchJob>, remoteId: string): (r: Option<BatchJob>)
    ensures r.Some? ==> r.value in jobs && r.value.openAiBatchId == Some(remoteId)
    ensures r.None? ==> forall j :: j in jobs ==> j.openAiBatchId != Some(remoteId)
  {
    if jobs == [] then None
    else if jobs[0].openAiBatchId == Some(remoteId) then Some(jobs[0])
    else
      assert forall j :: j in jobs ==> j == jobs[0] || j in jobs[1..];
      JobByRemoteId(jobs[1..], remoteId)
  }

  /** `GetPendingJobsAsync`: exactly the Created jobs, oldest first. */
  function PendingJobs(jobs: seq<BatchJob>): (res: seq<BatchJob>)
    ensures forall j :: j in res <==> j in jobs && j.status == BatchJobStatus.Created
    ensures SortedBy(res, JobCreatedAtKey)
    ensures multiset(res) == multiset(Filter(jobs, (j: BatchJob) => j.status == BatchJobStatus.Created))
    ensures |res| == |Filter(jobs, (j: BatchJob) => j.status == BatchJobStatus.Created)|
  {
    var created := Filter(jobs, (j: BatchJob) => j.status == BatchJobStatus.Created);
    var res := SortBy(created, JobCreatedAtKey);
    assert forall j :: j in res <==> j in created by {
      forall j ensures j in res <==> j in created {
        assert j in res <==> j in multiset(res);
        assert j in created <==> j in multiset(created);
      }
    }
    res
  }

  predicate InFlight(j: BatchJob) {
    j.status == BatchJobStatus.Submitted || j.status == BatchJobStatus.Processing
  }

  /** `GetSubmittedJobsAsync`: exactly the Submitted or Processing jobs, in store order. */
  function SubmittedJobs(jobs: seq<BatchJob>): (res: seq<BatchJob>)
    ensures forall j :: j in res <==> j in jobs && InFlight(j)
    ensures forall k :: 0 <= k < |res| ==> InFlight(res[k])
  {
    Filter(jobs, (j: BatchJob) => InFlight(j))
  }

  /** The whole store under `SortByDescending(x => x.CreatedAt)`. */
  function NewestJobsFirst(jobs: seq<BatchJob>): (res: seq<BatchJob>)
    ensures multiset(res) == multiset(jobs)
    ensures forall i, j :: 0 <= i < j < |res| ==> res[i].createdAt >= res[j].createdAt
  {
    var sorted := SortBy(jobs, JobCreatedAtKey);
    NewestJobsFirstSorted(sorted, 0);
    ReverseMultiset(sorted);
    Reverse(sorted)
  }

  /** `GetAllAsync(skip, take)`: newest first, `skip` dropped, at most `take` returned. */
  function AllJobsNewestFirst(jobs: seq<BatchJob>, skip: nat, take: int): (res: seq<BatchJob>)
    ensures forall i, j :: 0 <= i < j < |res| ==> res[i].createdAt >= res[j].createdAt
    ensures multiset(res) <= multiset(jobs)
    ensures |res| == |Limit(Skip(jobs, skip), take)|
  {
    var newest := NewestJobsFirst(jobs);
    PageFromInput(newest, skip, take);
    var res := Limit(Skip(newest, skip), take);
    assert res == Skip(newest, skip)[..|res|];
    res
  }

  /**
   * The page is the right one: a stored job left off it that is newer than a
   * job on it is one of the `skip` newest, and on the first page nothing left
   * off is newer than anything returned.
   */
  lemma AllJobsNewestFirstLeavesOut(jobs: seq<BatchJob>, skip: nat, take: int, left: BatchJob, shown: BatchJob)
    requires left in jobs && left !in AllJobsNewestFirst(jobs, skip, take)
    requires shown in AllJobsNewestFirst(jobs, skip, take)
    ensures shown.createdAt < left.createdAt ==> left in Take(NewestJobsFirst(jobs), skip)
    ensures skip == 0 ==> left.createdAt <= shown.createdAt
    ensures shown.createdAt < left.createdAt ==> forall r :: r in AllJobsNewestFirst(jobs, skip, take) ==> r.createdAt <= left.createdAt
  {
    var newest := NewestJobsFirst(jobs);
    assert AllJobsNewestFirst(jobs, skip, take) == Limit(Skip(newest, skip), take);
    SameElements(newest, jobs, left);
    PageLeavesOut(newest, JobCreatedAtKey, skip, take, left, shown);
    if shown.createdAt < left.createdAt {
      PageSkipsPrefix(newest, JobCreatedAtKey, skip, take, left);
    }
  }

  /**
   * The other direction: with distinct ids, none of the `skip` newest jobs is
   * on the page, and each is no older than anything on it.
   */
  lemma AllJobsNewestFirstSkipsNewest(jobs: seq<BatchJob>, skip: nat, take: int, skipped: BatchJob)
    requires DistinctJobIds(jobs)
    requires skipped in Take(NewestJobsFirst(jobs), skip)
    ensures skipped !in AllJobsNewestFirst(jobs, skip, take)
    ensures forall r :: r in AllJobsNewestFirst(jobs, skip, take) ==> r.createdAt <= skipped.createdAt
  {
    var newest := NewestJobsFirst(jobs);
    assert AllJobsNewestFirst(jobs, skip, take) == Limit(Skip(newest, skip), take);
    assert NoRepeats(jobs) by {
      forall i, j | 0 <= i < j < |jobs| ensures jobs[i] != jobs[j] {
        assert jobs[i].id != jobs[j].id;
      }
    }
    NoRepeatsPermutation(newest, jobs);
    PageSkipsPrefix(newest, JobCreatedAtKey, skip, take, skipped);
  }

  lemma NewestJobsFirstSorted(sorted: seq<BatchJob>, skip: nat)
    requires SortedBy(sorted, JobCreatedAtKey)
    ensures var page := Skip(Reverse(sorted), skip);
      forall i, j :: 0 <= i < j < |page| ==> page[i].createdAt >= page[j].createdAt
  {
    var page := Skip(Reverse(sorted), skip);
    forall i, j | 0 <= i < j < |page| ensures page[i].createdAt >= page[j].createdAt {
      var a, b := |sorted| - 1 - (skip + j), |sorted| - 1 - (skip + i);
      assert page[i] == sorted[b] && page[j] == sorted[a];
      assert JobCreatedAtKey(sorted[a]) <= JobCreatedAtKey(sorted[b]);
    }
  }

  /** The store after `ReplaceOneAsync(x => x.Id == j.Id, j)`. */
  function ReplaceJob(jobs: seq<BatchJob>, job: BatchJob): (res: seq<BatchJob>)
    ensures |res| == |jobs|
    ensures forall i :: 0 <= i < |jobs| ==> res[i] == if jobs[i].id == job.id then job else jobs[i]
    ensures forall i :: 0 <= i < |jobs| ==> res[i].id == jobs[i].id
    ensures !HasJobId(jobs, job.id) ==> res == jobs
  {
    seq(|jobs|, i requires 0 <= i < |jobs| => if jobs[i].id == job.id then job else jobs[i])
  }

  /** After a successful `CreateAsync(j)`, `GetByIdAsync(j.Id)` returns `j`. */
  lemma CreateJobThenFind(jobs: seq<BatchJob>, job: BatchJob)
    requires !HasJobId(jobs, job.id)
    ensures JobById(jobs + [job], job.id) == Some(job)
    ensures DistinctJobIds(jobs) ==> DistinctJobIds(jobs + [job])
  {
    var d := jobs + [job];
    assert d[|jobs|] == job;
    assert HasJobId(d, job.id);
    assert JobById(d, job.id).value.id == job.id;
    assert forall i :: 0 <= i < |jobs| ==> d[i] == jobs[i];
  }

  /** After a replace, the stored job with that id is the new one. */
  lemma ReplaceThenFind(jobs: seq<BatchJob>, job: BatchJob)
    requires DistinctJobIds(jobs) && HasJobId(jobs, job.id)
    ensures JobById(ReplaceJob(jobs, job), job.id) == Some(job)
  {
    var res := ReplaceJob(jobs, job);
    var found := JobById(res, job.id);
    assert HasJobId(res, job.id);
    var k :| 0 <= k < |res| && res[k] == found.value;
    assert res[k] == job;
  }

  /** Updating the job just inserted replaces it and nothing else. */
  lemma ReplaceJustCreated(jobs: seq<BatchJob>, job: BatchJob, updated: BatchJob)
    requires !HasJobId(jobs, job.id) && updated.id == job.id
    ensures ReplaceJob(jobs + [job], updated) == jobs + [updated]
  {
    var d := jobs + [job];
    forall i | 0 <= i < |jobs| ensures d[i].id != job.id {
      assert d[i] == jobs[i];
    }
  }

  /** The job collection; the MongoDB unique `_id` index is `Valid()`. */
  class BatchJobRepository {
    var jobs: seq<BatchJob>

    ghost predicate Valid()
      reads this
    {
      DistinctJobIds(jobs)
    }

    constructor ()
      ensures Valid() && jobs == []
    {
      jobs := [];
    }

    /** `CreateAsync`: inserts the job; an id already stored is a duplicate-key error and changes nothing. */
    method Create(job: BatchJob) returns (ok: bool)
      requires Valid()
      modifies this
      ensures Valid()
      ensures ok == !HasJobId(old(jobs), job.id)
      ensures jobs == if ok then old(jobs) + [job] else old(jobs)
    {
      ok := !HasJobId(jobs, job.id);
      if ok {
        CreateJobThenFind(jobs, job);
        jobs := jobs + [job];
      }
    }

    /** `UpdateAsync`: replaces the job with the same id; a missing id changes nothing. */
    method Update(job: BatchJob)
      requires Valid()
      modifies this
      ensures Valid()
      ensures jobs == ReplaceJob(old(jobs), job)
    {
      jobs := ReplaceJob(jobs, job);
    }
  }
}
