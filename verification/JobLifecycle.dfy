/** What a job goes through, from the request to its end: steps of the queue machine one after the other. */
module JobLifecycle {
  import opened Common
  import opened JobQueue
  import opened JobQueueRuns

  /** The worker is polling: it has no job. */
  predicate Polls(s: State, worker: string) {
    worker in s.phases ==> s.phases[worker] == Idle
  }

  predicate Works(s: State, worker: string, id: string) {
    worker in s.phases && s.phases[worker] == Working(id)
  }

  /** A new job with evidence, enqueued, is queued from its creation time on with all its attempts left. */
  lemma RequestedJobWaits(s: State, id: string, files: nat, now: int)
    requires id !in s.queue.jobs && files > 0
    ensures var s' := Next(Next(Next(s, Create(id, now)), Upload(id, files)), Enqueue(id));
      && s'.queue.jobs == s.queue.jobs[id := Job(Queued, None, files, 0, MAX_ATTEMPTS, None, None, now, now)]
      && s'.phases == s.phases
  {
  }

  /** Without evidence it stays a draft, and an enqueue of anything but a draft or failed job changes nothing. */
  lemma RefusedEnqueue(s: State, id: string)
    requires id in s.queue.jobs
    requires s.queue.jobs[id].inputFiles == 0 || s.queue.jobs[id].status in {Queued, Running, Succeeded}
    ensures Next(s, Enqueue(id)) == s
  {
  }

  /** A polling worker gets a job exactly when it is queued, its time has come and attempts are left. */
  lemma ClaimTakes(s: State, worker: string, id: string, now: int)
    requires Polls(s, worker) && id in s.queue.jobs
    ensures var job, s' := s.queue.jobs[id], Next(s, Claim(worker, id, now));
      if job.status == Queued && job.availableAt <= now && job.attempts < job.maxAttempts then
        && Works(s', worker, id) && s'.phases == s.phases[worker := Working(id)]
        && s'.queue.jobs == s.queue.jobs[id := job.(status := Running, attempts := job.attempts + 1, error := None,
                                                    claimedBy := Some(worker), claimedAt := Some(now))]
      else s' == s
  {
  }

  /** A claim of a job that is not to be had writes nothing. */
  lemma RefusedClaimWritesNothing(q: Queue, id: string, worker: string, now: int)
    requires id in q.jobs ==>
      q.jobs[id].status != Queued || now < q.jobs[id].availableAt || q.jobs[id].maxAttempts <= q.jobs[id].attempts
    ensures ApplyWrite(q, DoClaim(id, worker, now)) == q
  {
  }

  /** A worker that already has a job claims nothing. */
  lemma BusyWorkerClaimsNothing(s: State, worker: string, id: string, now: int)
    requires !Polls(s, worker)
    ensures Next(s, Claim(worker, id, now)) == s
  {
  }

  /** The holder completes its job: succeeded, the lease gone, and the worker polls again. */
  lemma CompleteEnds(s: State, worker: string, id: string)
    requires Works(s, worker, id) && id in s.queue.jobs
    requires s.queue.jobs[id].status == Running && s.queue.jobs[id].claimedBy == Some(worker)
    ensures var s' := Next(s, Complete(worker));
      && Polls(s', worker)
      && s'.queue.jobs == s.queue.jobs[id := s.queue.jobs[id].(status := Succeeded, error := None, claimedBy := None,
                                                               claimedAt := None)]
  {
  }

  /** The holder fails its job in two steps: queued again after the delay, or failed with its last attempt. */
  lemma FailEnds(s: State, worker: string, id: string, error: string, delay: int, now: int)
    requires Works(s, worker, id) && id in s.queue.jobs
    requires s.queue.jobs[id].status == Running && s.queue.jobs[id].claimedBy == Some(worker)
    ensures var s', job := Next(Next(s, ReadForFail(worker)), WriteFail(worker, error, delay, now)), s.queue.jobs[id];
      && Polls(s', worker)
      && s'.queue.jobs == s.queue.jobs[id :=
           job.(status := if job.attempts < job.maxAttempts then Queued else Failed, error := Some(error),
                availableAt := if job.attempts < job.maxAttempts then now + delay else now,
                claimedBy := None, claimedAt := None)]
  {
  }

  /** A worker that lost its lease changes no job, however it ends. */
  lemma LostLeaseChangesNothing(s: State, worker: string, id: string, error: string, delay: int, now: int)
    requires Works(s, worker, id) && id in s.queue.jobs && s.queue.jobs[id].claimedBy != Some(worker)
    ensures Next(s, Complete(worker)).queue == s.queue
    ensures Next(Next(s, ReadForFail(worker)), WriteFail(worker, error, delay, now)).queue == s.queue
    ensures Next(s, Beat(worker, id, now)).queue == s.queue
  {
  }

  /** A crash ends the process and leaves its job as it is, to be recovered later. */
  lemma CrashLeavesJob(s: State, worker: string)
    ensures Next(s, Crash(worker)).queue == s.queue && Polls(Next(s, Crash(worker)), worker)
  {
  }
}
