/** The metadata store object over the queue tables (class DatabaseMetadataStore). */
module JobStore {
  import opened Common
  import opened JobQueue
  import opened JobQueueRuns

  datatype Error = NotFound | LeaseLost | IntegrityError

  /**
   * What a recovery may do to a row, on its columns alone: a running job claimed or refreshed at the cutoff or later
   * keeps its row, and so does every job that is not running under a lease; an older lease is taken away, and the job
   * is queued again, or failed if its attempts are used up.
   */
  predicate SparedOrReleased(job: Job, job': Job, cutoff: int, now: int) {
    if job.status != Running || job.claimedAt.None? || cutoff <= job.claimedAt.value then job' == job
    else
      && job'.claimedBy == None && job'.claimedAt == None && job'.availableAt == now
      && job'.status == (if job.attempts < job.maxAttempts then Queued else Failed)
      && job'.error == Some(if job.attempts < job.maxAttempts then LEASE_REQUEUED else LEASE_EXHAUSTED)
      && job' == job.(status := job'.status, error := job'.error, availableAt := now, claimedBy := None,
                      claimedAt := None)
  }

  /** The event of a released job: failed or recovered, without a worker, with the status the job has now. */
  predicate ReleaseEvent(e: Event, jobs: map<string, Job>) {
    && e.jobId in jobs && e.workerId == None && e.detail == NoDetail && e.status == jobs[e.jobId].status
    && (e.status == Queued ==> e.eventType == LeaseRecovered) && (e.status == Failed ==> e.eventType == JobFailed)
    && e.status in {Queued, Failed}
  }

  /** A recovery logs one event for each job of its list. */
  lemma {:induction false} RecoveredEvents(q: Queue, ids: seq<string>, now: int)
    requires forall i :: 0 <= i < |ids| ==> ids[i] in q.jobs
    requires forall i, j :: 0 <= i < j < |ids| ==> ids[i] != ids[j]
    ensures var q' := RecoverJobs(q, ids, now);
      && |q'.events| == |q.events| + |ids| && q.events <= q'.events
      && forall i :: |q.events| <= i < |q'.events| ==>
           q'.events[i].jobId in ids && ReleaseEvent(q'.events[i], q'.jobs)
  {
    if ids != [] {
      var n := |ids| - 1;
      RecoveredEvents(q, ids[..n], now);
      RecoveredRows(q, ids[..n], now);
      assert ids == ids[..n] + [ids[n]];
      RecoveryLogs(RecoverJobs(q, ids[..n], now), ids[n], now);
      hide RecoverJob, ReleaseEvent;
      var before, after := RecoverJobs(q, ids[..n], now), RecoverJobs(q, ids, now);
      forall i | |q.events| <= i < |before.events|
        ensures ReleaseEvent(after.events[i], after.jobs)
      {
        assert before.events[i].jobId in ids[..n];
        OtherRow(before.events[i], before.jobs, after.jobs);
      }
    }
  }

  lemma RecoveryLogs(q: Queue, id: string, now: int)
    requires id in q.jobs
    ensures var q' := RecoverJob(q, id, now);
      && q'.jobs == q.jobs[id := q'.jobs[id]] && |q'.events| == |q.events| + 1 && q.events <= q'.events
      && q'.events[|q.events|].jobId == id && ReleaseEvent(q'.events[|q.events|], q'.jobs)
  {
  }

  lemma OtherRow(e: Event, jobs: map<string, Job>, jobs': map<string, Job>)
    requires ReleaseEvent(e, jobs) && e.jobId in jobs' && jobs'[e.jobId] == jobs[e.jobId]
    ensures ReleaseEvent(e, jobs')
  {
  }

  lemma RecoveredColumns(q: Queue, ids: seq<string>, cutoff: int, now: int)
    requires StaleIds(q, ids, cutoff)
    requires forall id :: id in q.jobs && Stale(q.jobs[id], cutoff) ==> id in ids
    ensures RecoverJobs(q, ids, now).jobs.Keys == q.jobs.Keys
    ensures forall id :: id in q.jobs ==>
      SparedOrReleased(q.jobs[id], RecoverJobs(q, ids, now).jobs[id], cutoff, now)
  {
    RecoveredRows(q, ids, now);
    hide RecoverJobs;
    assert forall i :: 0 <= i < |ids| ==> Stale(q.jobs[ids[i]], cutoff);
  }

  /** A column is as requested, or as it was when it is not mentioned. */
  predicate SetOrKept<T(==)>(was: T, change: Option<T>, now: T) {
    (change.Some? ==> now == change.value) && (change.None? ==> now == was)
  }

  /** job' has every column of the request, and nothing else changed. */
  predicate Updates(job: Job, ch: Changes, job': Job) {
    && SetOrKept(job.status, ch.status, job'.status) && SetOrKept(job.error, ch.error, job'.error)
    && SetOrKept(job.inputFiles, ch.inputFiles, job'.inputFiles)
    && SetOrKept(job.attempts, ch.attempts, job'.attempts)
    && SetOrKept(job.claimedBy, ch.claimedBy, job'.claimedBy)
    && SetOrKept(job.claimedAt, ch.claimedAt, job'.claimedAt)
    && job'.maxAttempts == job.maxAttempts && job'.availableAt == job.availableAt && job'.createdAt == job.createdAt
  }

  class DatabaseMetadataStore {
    var jobs: map<string, Job>
    var events: seq<Event>

    ghost function Abs(): Queue
      reads this
    {
      Queue(jobs, events)
    }

    constructor ()
      ensures Abs() == EmptyQueue
    {
      jobs, events := map[], [];
    }

    method Append(id: string, eventType: EventType, status: Status, workerId: Option<string>, detail: Detail)
      modifies this`events
      ensures events == old(events) + [Event(id, eventType, status, workerId, detail)]
    {
      events := events + [Event(id, eventType, status, workerId, detail)];
    }

    method Create(id: string, now: int) returns (r: Result<Job, Error>)
      modifies this
      ensures Abs() == CreateJob(old(Abs()), id, now)
      ensures r.Err? <==> id in old(jobs)
      ensures r.Err? ==> jobs == old(jobs) && events == old(events)
      ensures r.Ok? ==> jobs == old(jobs)[id := r.value]
      ensures r.Ok? ==> events == old(events) + [Event(id, Created, Draft, None, NoDetail)]
      ensures r.Ok? ==> r.value == Job(Draft, None, 0, 0, 3, None, None, now, now)
    {
      if id in jobs {
        return Err(IntegrityError);
      }
      jobs := jobs[id := Job(Draft, None, 0, 0, MAX_ATTEMPTS, None, None, now, now)];
      Append(id, Created, Draft, None, NoDetail);
      r := Ok(jobs[id]);
    }

    method Update(id: string, ch: Changes) returns (r: Result<Job, Error>)
      modifies this
      ensures Abs() == UpdateJob(old(Abs()), id, ch)
      ensures r == if id in old(jobs) then Ok(jobs[id]) else Err(NotFound)
      ensures id !in old(jobs) ==> jobs == old(jobs) && events == old(events)
      ensures id in old(jobs) ==> jobs == old(jobs)[id := jobs[id]] && Updates(old(jobs)[id], ch, jobs[id])
      ensures id in old(jobs) ==>
        events == old(events) + [Event(id, if ch.status == None then Updated else StatusChanged, jobs[id].status, None,
                                       Changed(ch))]
    {
      if id !in jobs {
        return Err(NotFound);
      }
      jobs := jobs[id := ApplyChanges(jobs[id], ch)];
      Append(id, if ch.status.Some? then StatusChanged else Updated, jobs[id].status, None, Changed(ch));
      r := Ok(jobs[id]);
    }

    /** The oldest claimable job, if any. */
    method OldestClaimable(now: int) returns (r: Option<string>)
      ensures r.None? <==> forall id :: id in jobs ==> !Claimable(jobs[id], now)
      ensures r.Some? ==> r.value in jobs && Claimable(jobs[r.value], now)
      ensures r.Some? ==> forall id :: id in jobs && Claimable(jobs[id], now) ==>
        jobs[r.value].createdAt <= jobs[id].createdAt
    {
      r := None;
      var rest := jobs.Keys;
      while rest != {}
        invariant rest <= jobs.Keys
        invariant r.None? ==> forall id :: id in jobs && id !in rest ==> !Claimable(jobs[id], now)
        invariant r.Some? ==> r.value in jobs && Claimable(jobs[r.value], now)
        invariant r.Some? ==> forall id :: id in jobs && id !in rest && Claimable(jobs[id], now) ==>
          jobs[r.value].createdAt <= jobs[id].createdAt
      {
        var id :| id in rest;
        rest := rest - {id};
        if Claimable(jobs[id], now) && (r.None? || jobs[id].createdAt < jobs[r.value].createdAt) {
          r := Some(id);
        }
      }
    }

    method ClaimNext(worker: string, now: int) returns (r: Option<string>)
      modifies this
      ensures r.None? ==> Abs() == old(Abs()) && forall id :: id in jobs ==> !Claimable(jobs[id], now)
      ensures r.Some? ==> r.value in old(jobs) && Claimable(old(jobs)[r.value], now)
      ensures r.Some? ==> Abs() == ClaimJob(old(Abs()), r.value, worker, now)
      ensures r.Some? ==> var job := old(jobs)[r.value];
        && job.status == Queued && job.availableAt <= now && job.attempts < job.maxAttempts
        && jobs == old(jobs)[r.value := job.(status := Running, attempts := job.attempts + 1,
                                             claimedBy := Some(worker), claimedAt := Some(now), error := None)]
      ensures r.None? ==> forall id :: id in jobs ==>
        jobs[id].status != Queued || now < jobs[id].availableAt || jobs[id].maxAttempts <= jobs[id].attempts
      ensures r.Some? ==> forall id :: id in old(jobs) && Claimable(old(jobs)[id], now) ==>
        old(jobs)[r.value].createdAt <= old(jobs)[id].createdAt
    {
      r := OldestClaimable(now);
      if r.Some? {
        var id := r.value;
        var attempts := jobs[id].attempts + 1;
        jobs := jobs[id := jobs[id].(status := Running, attempts := attempts, claimedBy := Some(worker),
                                     claimedAt := Some(now), error := None)];
        Append(id, Claimed, Running, Some(worker), Attempt(attempts));
      }
    }

    method Succeed(id: string, worker: string) returns (r: Result<Job, Error>)
      modifies this
      ensures Abs() == SucceedJob(old(Abs()), id, worker)
      ensures r.Ok? <==> Holds(old(Abs()), id, worker)
      ensures r.Ok? <==> id in old(jobs) && old(jobs)[id].status == Running && old(jobs)[id].claimedBy == Some(worker)
      ensures r.Err? ==> r.error == LeaseLost && jobs == old(jobs) && events == old(events)
      ensures r.Ok? ==> jobs == old(jobs)[id := old(jobs)[id].(status := Succeeded, error := None,
                                                               claimedBy := None, claimedAt := None)]
    {
      if id in jobs && jobs[id].status == Running && jobs[id].claimedBy == Some(worker) {
        jobs := jobs[id := jobs[id].(status := Succeeded, error := None, claimedBy := None, claimedAt := None)];
        Append(id, Completed, Succeeded, Some(worker), NoDetail);
        r := Ok(jobs[id]);
      } else {
        r := Err(LeaseLost);
      }
    }

    /** fail with nothing happening between its read and its write. */
    method Fail(id: string, worker: string, error: string, retrySeconds: int, now: int) returns (r: Result<Job, Error>)
      modifies this
      ensures id in old(jobs) ==>
        Abs() == FailJob(old(Abs()), id, worker, error, retrySeconds, now, old(jobs)[id].attempts,
          old(jobs)[id].maxAttempts)
      ensures id !in old(jobs) ==> Abs() == old(Abs()) && r == Err(NotFound)
      ensures r.Ok? <==> id in old(jobs) && old(jobs)[id].status == Running && old(jobs)[id].claimedBy == Some(worker)
      ensures r.Err? ==> jobs == old(jobs) && events == old(events)
      ensures r.Ok? ==> var job := old(jobs)[id]; var retry := job.attempts < job.maxAttempts;
        && jobs == old(jobs)[id := job.(status := if retry then Queued else Failed, error := Some(error),
                                        availableAt := if retry then now + retrySeconds else now,
                                        claimedBy := None, claimedAt := None)]
        && events == old(events) + [Event(id, if retry then RetryScheduled else JobFailed,
                                          if retry then Queued else Failed, Some(worker),
                                          Failure(error, if retry then Some(retrySeconds) else None))]
    {
      if id !in jobs {
        return Err(NotFound);
      }
      var retry := jobs[id].attempts < jobs[id].maxAttempts;
      r := WriteFailure(id, worker, error, retrySeconds, now, retry);
    }

    /** The write half of fail. */
    method WriteFailure(id: string, worker: string, error: string, retrySeconds: int, now: int, retry: bool)
        returns (r: Result<Job, Error>)
      modifies this
      ensures forall a: nat, m: nat {:trigger FailJob(old(Abs()), id, worker, error, retrySeconds, now, a, m)} ::
        (a < m <==> retry) ==> Abs() == FailJob(old(Abs()), id, worker, error, retrySeconds, now, a, m)
      ensures r.Ok? <==> Holds(old(Abs()), id, worker)
    {
      if !(id in jobs && jobs[id].status == Running && jobs[id].claimedBy == Some(worker)) {
        return Err(LeaseLost);
      }
      var status := if retry then Queued else Failed;
      jobs := jobs[id := jobs[id].(status := status, error := Some(error),
                                   availableAt := if retry then now + retrySeconds else now,
                                   claimedBy := None, claimedAt := None)];
      Append(id, if retry then RetryScheduled else JobFailed, status, Some(worker),
             Failure(error, if retry then Some(retrySeconds) else None));
      r := Ok(jobs[id]);
    }

    method Heartbeat(id: string, worker: string, now: int) returns (held: bool)
      modifies this
      ensures Abs() == BeatJob(old(Abs()), id, worker, now)
      ensures held <==> id in old(jobs) && old(jobs)[id].status == Running && old(jobs)[id].claimedBy == Some(worker)
      ensures jobs == if held then old(jobs)[id := old(jobs)[id].(claimedAt := Some(now))] else old(jobs)
    {
      held := id in jobs && jobs[id].status == Running && jobs[id].claimedBy == Some(worker);
      if held {
        jobs := jobs[id := jobs[id].(claimedAt := Some(now))];
      }
    }

    method StaleJobs(cutoff: int) returns (ids: seq<string>)
      ensures StaleIds(Abs(), ids, cutoff)
      ensures forall id :: id in jobs && Stale(jobs[id], cutoff) ==> id in ids
    {
      ids := [];
      var rest := jobs.Keys;
      while rest != {}
        invariant rest <= jobs.Keys
        invariant StaleIds(Abs(), ids, cutoff)
        invariant forall i :: 0 <= i < |ids| ==> ids[i] !in rest
        invariant forall id :: id in jobs && id !in rest && Stale(jobs[id], cutoff) ==> id in ids
      {
        var id :| id in rest;
        rest := rest - {id};
        if Stale(jobs[id], cutoff) {
          ids := ids + [id];
        }
      }
    }

    method Release(id: string, now: int)
      requires id in jobs
      modifies this
      ensures Abs() == RecoverJob(old(Abs()), id, now)
    {
      var exhausted := jobs[id].attempts >= jobs[id].maxAttempts;
      var status := if exhausted then Failed else Queued;
      var error := if exhausted then "worker lease expired; attempts exhausted"
                   else "worker lease expired; job re-queued";
      jobs := jobs[id := jobs[id].(status := status, error := Some(error), availableAt := now,
                                   claimedBy := None, claimedAt := None)];
      Append(id, if exhausted then JobFailed else LeaseRecovered, status, None, NoDetail);
    }

    /** Release every job whose lease is older than the cutoff, and no other. */
    method RecoverStale(cutoff: int, now: int) returns (count: nat, ghost ids: seq<string>)
      modifies this
      ensures StaleIds(old(Abs()), ids, cutoff)
      ensures forall id :: id in old(jobs) && Stale(old(jobs)[id], cutoff) ==> id in ids
      ensures Abs() == RecoverJobs(old(Abs()), ids, now)
      ensures count == |ids|
      ensures jobs.Keys == old(jobs).Keys
      ensures forall id :: id in jobs ==> SparedOrReleased(old(jobs)[id], jobs[id], cutoff, now)
      ensures |events| == |old(events)| + count && old(events) <= events
      ensures forall i :: |old(events)| <= i < |events| ==> ReleaseEvent(events[i], jobs)
    {
      ghost var q := Abs();
      var stale := StaleJobs(cutoff);
      ids := stale;
      var k := 0;
      hide Stale, RecoverJob, RecoveredRow;
      while k < |stale|
        invariant 0 <= k <= |stale|
        invariant Abs() == RecoverJobs(q, stale[..k], now)
      {
        RecoveredRows(q, stale[..k], now);
        Release(stale[k], now);
        assert stale[..k + 1][..k] == stale[..k];
        k := k + 1;
      }
      assert stale[..k] == stale;
      RecoveredColumns(q, ids, cutoff, now);
      RecoveredEvents(q, ids, now);
      count := |stale|;
    }

    /** run_job: enqueue a draft or failed job that has evidence. */
    method Enqueue(id: string) returns (r: Result<Job, Error>)
      modifies this
      ensures r.Ok? <==> id in old(jobs) && CanEnqueue(old(jobs)[id])
      ensures r.Ok? <==>
        id in old(jobs) && old(jobs)[id].status in {Draft, Failed} && old(jobs)[id].inputFiles > 0
      ensures r.Ok? ==> var job := old(jobs)[id];
        jobs == old(jobs)[id := job.(status := Queued, error := None,
                                     attempts := if job.status == Failed then 0 else job.attempts)]
      ensures r.Ok? ==> Abs() == UpdateJob(old(Abs()), id, EnqueueChanges(old(jobs)[id]))
      ensures r.Err? ==> Abs() == old(Abs())
    {
      if id !in jobs || !CanEnqueue(jobs[id]) {
        return Err(NotFound);
      }
      r := Update(id, EnqueueChanges(jobs[id]));
    }
  }
}
