/**
 * Why a worker id has to name one process: two processes with one id, from the empty queue to a job that is queued and
 * can never be claimed.
 */
module SharedWorkerId {
  import opened Common
  import opened JobQueue
  import Q = JobQueueRuns

  /**
   * One process claims the job at time 0 and reads its attempts in order to fail it. Before it writes, the lease is
   * recovered and another process with the same id claims the job, twice. Then the first process writes.
   */
  function WriteAt(id: string, worker: string, k: nat, readAttempts: nat, readMax: nat): Write
    requires 1 <= k <= 9
  {
    match k
    case 1 => DoCreate(id, 0)
    case 2 => DoUpdate(id, Q.NoChange.(inputFiles := Some(1)))
    case 3 => DoUpdate(id, Q.NoChange.(status := Some(Queued), error := Some(None)))
    case 4 => DoClaim(id, worker, 0)
    case 5 => DoRecover([id], 1)
    case 6 => DoClaim(id, worker, 1)
    case 7 => DoRecover([id], 2)
    case 8 => DoClaim(id, worker, 2)
    case 9 => DoFail(id, worker, "late", 0, 3, readAttempts, readMax)
  }

  function Writes(id: string, worker: string, k: nat, readAttempts: nat, readMax: nat): seq<Write>
    requires k <= 9
  {
    if k == 0 then []
    else Writes(id, worker, k - 1, readAttempts, readMax) + [WriteAt(id, worker, k, readAttempts, readMax)]
  }

  function After(id: string, worker: string, k: nat, a: nat, m: nat): Queue
    requires k <= 9
  {
    ApplyWrites(Writes(id, worker, k, a, m))
  }

  lemma OneWrite(id: string, worker: string, k: nat, a: nat, m: nat)
    requires 1 <= k <= 9
    ensures After(id, worker, k, a, m) == ApplyWrite(After(id, worker, k - 1, a, m), WriteAt(id, worker, k, a, m))
  {
    hide ApplyWrite, WriteAt;
    var writes := Writes(id, worker, k, a, m);
    assert writes[..|writes| - 1] == Writes(id, worker, k - 1, a, m);
  }

  /** The job is the only one and stands like this. */
  predicate Stands(q: Queue, id: string, status: Status, attempts: nat, holder: Option<string>, at: int) {
    && id in q.jobs && q.jobs[id].status == status && q.jobs[id].attempts == attempts
    && q.jobs[id].claimedBy == holder && q.jobs[id].maxAttempts == MAX_ATTEMPTS && q.jobs[id].availableAt <= at
    && (holder.Some? ==> q.jobs[id].claimedAt == Some(at)) && (holder.None? ==> q.jobs[id].claimedAt == None)
    && q.jobs[id].inputFiles == (if status == Draft then 0 else 1)
  }

  /** After three writes the job is queued by the guard and the update of run_job. */
  lemma Enqueued(id: string, worker: string, a: nat, m: nat)
    ensures id in After(id, worker, 2, a, m).jobs && Q.CanEnqueue(After(id, worker, 2, a, m).jobs[id])
    ensures WriteAt(id, worker, 3, a, m) == DoUpdate(id, Q.EnqueueChanges(After(id, worker, 2, a, m).jobs[id]))
    ensures Stands(After(id, worker, 3, a, m), id, Queued, 0, None, 0)
  {
    OneWrite(id, worker, 1, a, m);
    OneWrite(id, worker, 2, a, m);
    OneWrite(id, worker, 3, a, m);
    assert After(id, worker, 0, a, m) == EmptyQueue;
    hide ApplyWrites, Writes;
  }

  lemma Claimed(q: Queue, id: string, worker: string, attempts: nat, at: int)
    requires Stands(q, id, Queued, attempts, None, at) && attempts < 3
    ensures Stands(ApplyWrite(q, DoClaim(id, worker, at)), id, Running, attempts + 1, Some(worker), at)
  {
  }

  /** The lease is stale at the next time unit. */
  lemma Recovered(q: Queue, id: string, worker: string, attempts: nat, at: int)
    requires Stands(q, id, Running, attempts, Some(worker), at) && attempts < 3
    ensures Stale(q.jobs[id], at + 1)
    ensures Stands(ApplyWrite(q, DoRecover([id], at + 1)), id, Queued, attempts, None, at + 1)
  {
    assert [id][..0] == [];
    assert RecoverJobs(q, [id], at + 1) == RecoverJob(q, id, at + 1);
  }

  lemma WriteNames(id: string, worker: string, a: nat, m: nat)
    ensures WriteAt(id, worker, 4, a, m) == DoClaim(id, worker, 0) && WriteAt(id, worker, 5, a, m) == DoRecover([id], 1)
    ensures WriteAt(id, worker, 6, a, m) == DoClaim(id, worker, 1) && WriteAt(id, worker, 7, a, m) == DoRecover([id], 2)
    ensures WriteAt(id, worker, 8, a, m) == DoClaim(id, worker, 2)
    ensures WriteAt(id, worker, 9, a, m) == DoFail(id, worker, "late", 0, 3, a, m)
  {
  }

  /** Before the last write the job is running for the third time, and the first claim saw one attempt of three. */
  lemma ThreeClaims(id: string, worker: string, a: nat, m: nat)
    ensures Stands(After(id, worker, 4, a, m), id, Running, 1, Some(worker), 0)
    ensures Stands(After(id, worker, 8, a, m), id, Running, 3, Some(worker), 2)
  {
    hide *;
    Enqueued(id, worker, a, m);
    WriteNames(id, worker, a, m);
    OneWrite(id, worker, 4, a, m);
    Claimed(After(id, worker, 3, a, m), id, worker, 0, 0);
    OneWrite(id, worker, 5, a, m);
    Recovered(After(id, worker, 4, a, m), id, worker, 1, 0);
    OneWrite(id, worker, 6, a, m);
    Claimed(After(id, worker, 5, a, m), id, worker, 1, 1);
    OneWrite(id, worker, 7, a, m);
    Recovered(After(id, worker, 6, a, m), id, worker, 2, 1);
    OneWrite(id, worker, 8, a, m);
    Claimed(After(id, worker, 7, a, m), id, worker, 2, 2);
  }

  /**
   * Writing what was read in the first claim, fail re-queues the job although its attempts are used up: nothing can
   * claim it, and it is not failed either.
   */
  lemma SharedWorkerIdStrandsJob(id: string, worker: string)
    ensures id in After(id, worker, 4, 1, 3).jobs
    ensures var read := After(id, worker, 4, 1, 3).jobs[id]; read.attempts == 1 && read.maxAttempts == 3
    ensures id in After(id, worker, 9, 1, 3).jobs
    ensures var job := After(id, worker, 9, 1, 3).jobs[id];
      job.status == Queued && job.attempts == job.maxAttempts && forall now :: !Claimable(job, now)
  {
    ThreeClaims(id, worker, 1, 3);
    OneWrite(id, worker, 9, 1, 3);
    hide After;
  }
}
