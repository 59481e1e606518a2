/**
 * The durable job queue (database.py): one row per job, an append-only event log, and the writes of the metadata
 * store. Every engine.begin() block is one atomic step; times are numbers supplied by the caller.
 */
module JobQueue {
  import opened Common

  datatype Status = Draft | Queued | Running | Succeeded | Failed

  datatype Job = Job(
    status: Status,
    error: Option<string>,
    inputFiles: nat,
    attempts: nat,
    maxAttempts: nat,
    claimedBy: Option<string>,
    claimedAt: Option<int>,
    availableAt: int,
    createdAt: int)

  datatype EventType =
    Created | StatusChanged | Updated | Claimed | Completed | RetryScheduled | JobFailed | LeaseRecovered

  /** The columns a caller of update may set; None leaves a column alone. */
  datatype Changes = Changes(
    status: Option<Status>,
    error: Option<Option<string>>,
    inputFiles: Option<nat>,
    attempts: Option<nat>,
    claimedBy: Option<Option<string>>,
    claimedAt: Option<Option<int>>)

  datatype Detail =
    | NoDetail
    | Attempt(number: nat)
    | Failure(error: string, retrySeconds: Option<int>)
    | Changed(changes: Changes)

  datatype Event = Event(jobId: string, eventType: EventType, status: Status, workerId: Option<string>, detail: Detail)

  datatype Queue = Queue(jobs: map<string, Job>, events: seq<Event>)

  const MAX_ATTEMPTS: nat := 3

  const LEASE_EXHAUSTED := "worker lease expired; attempts exhausted"
  const LEASE_REQUEUED := "worker lease expired; job re-queued"

  const EmptyQueue := Queue(map[], [])

  function Or<T>(change: Option<T>, current: T): T {
    if change.Some? then change.value else current
  }

  /** Replace one row and append one event. */
  function Record(q: Queue, id: string, job: Job, event: Event): Queue {
    q.(jobs := q.jobs[id := job], events := q.events + [event])
  }

  /** JobStore.create: a draft without input evidence. The primary key refuses a second row with the same id. */
  function CreateJob(q: Queue, id: string, now: int): Queue {
    if id in q.jobs then q
    else Record(q, id, Job(Draft, None, 0, 0, MAX_ATTEMPTS, None, None, now, now),
      Event(id, Created, Draft, None, NoDetail))
  }

  function ApplyChanges(job: Job, ch: Changes): Job {
    job.(status := Or(ch.status, job.status), error := Or(ch.error, job.error),
         inputFiles := Or(ch.inputFiles, job.inputFiles), attempts := Or(ch.attempts, job.attempts),
         claimedBy := Or(ch.claimedBy, job.claimedBy), claimedAt := Or(ch.claimedAt, job.claimedAt))
  }

  function UpdateJob(q: Queue, id: string, ch: Changes): Queue {
    if id !in q.jobs then q
    else
      var job := ApplyChanges(q.jobs[id], ch);
      Record(q, id, job, Event(id, if ch.status.Some? then StatusChanged else Updated, job.status, None, Changed(ch)))
  }

  predicate Claimable(job: Job, now: int) {
    job.status == Queued && job.availableAt <= now && job.attempts < job.maxAttempts
  }

  function ClaimJob(q: Queue, id: string, worker: string, now: int): Queue
    requires id in q.jobs
  {
    var job := q.jobs[id];
    var n := job.attempts + 1;
    Record(q, id,
           job.(status := Running, attempts := n, claimedBy := Some(worker), claimedAt := Some(now), error := None),
           Event(id, Claimed, Running, Some(worker), Attempt(n)))
  }

  /** The condition shared by the writes of a worker: the row is running and names that worker. */
  predicate Holds(q: Queue, id: string, worker: string) {
    id in q.jobs && q.jobs[id].status == Running && q.jobs[id].claimedBy == Some(worker)
  }

  function Released(job: Job, status: Status, error: Option<string>, availableAt: int): Job {
    job.(status := status, error := error, availableAt := availableAt, claimedBy := None, claimedAt := None)
  }

  /** succeed; a worker without the lease changes nothing. */
  function SucceedJob(q: Queue, id: string, worker: string): Queue {
    if !Holds(q, id, worker) then q
    else Record(q, id, Released(q.jobs[id], Succeeded, None, q.jobs[id].availableAt),
                Event(id, Completed, Succeeded, Some(worker), NoDetail))
  }

  /** The write half of fail, deciding on the attempt numbers read in an earlier transaction. */
  function FailJob(q: Queue, id: string, worker: string, error: string, retrySeconds: int, now: int,
                   attempts: nat, maxAttempts: nat): Queue
  {
    if !Holds(q, id, worker) then q
    else
      var retry := attempts < maxAttempts;
      var status := if retry then Queued else Failed;
      Record(q, id, Released(q.jobs[id], status, Some(error), if retry then now + retrySeconds else now),
             Event(id, if retry then RetryScheduled else JobFailed, status, Some(worker),
                   Failure(error, if retry then Some(retrySeconds) else None)))
  }

  function BeatJob(q: Queue, id: string, worker: string, now: int): Queue {
    if !Holds(q, id, worker) then q else q.(jobs := q.jobs[id := q.jobs[id].(claimedAt := Some(now))])
  }

  predicate Stale(job: Job, cutoff: int) {
    job.status == Running && job.claimedAt.Some? && job.claimedAt.value < cutoff
  }

  /** One round of recover_stale; the row is updated by its id alone. */
  function RecoverJob(q: Queue, id: string, now: int): Queue {
    if id !in q.jobs then q
    else
      var exhausted := q.jobs[id].attempts >= q.jobs[id].maxAttempts;
      var status := if exhausted then Failed else Queued;
      var error := if exhausted then LEASE_EXHAUSTED else LEASE_REQUEUED;
      Record(q, id, Released(q.jobs[id], status, Some(error), now),
             Event(id, if exhausted then JobFailed else LeaseRecovered, status, None, NoDetail))
  }

  function RecoverJobs(q: Queue, ids: seq<string>, now: int): Queue {
    if ids == [] then q else RecoverJob(RecoverJobs(q, ids[..|ids| - 1], now), ids[|ids| - 1], now)
  }

  // ----- The event log determines the row -----

  /** The part of a row that its event log determines. */
  datatype View = View(status: Status, attempts: nat, holder: Option<string>)

  function ViewOf(job: Job): View {
    View(job.status, job.attempts, job.claimedBy)
  }

  /** What one event says about the job, given what the earlier events said. */
  function ReplayEvent(before: View, e: Event): View {
    match e.eventType
    case Created => View(e.status, 0, None)
    case StatusChanged | Updated =>
      if e.detail.Changed? then
        View(e.status, Or(e.detail.changes.attempts, before.attempts), Or(e.detail.changes.claimedBy, before.holder))
      else View(e.status, before.attempts, before.holder)
    case Claimed => View(e.status, if e.detail.Attempt? then e.detail.number else before.attempts, e.workerId)
    case _ => View(e.status, before.attempts, None)
  }

  function ReplayLog(log: seq<Event>, id: string): Option<View> {
    if log == [] then None
    else
      var before, e := ReplayLog(log[..|log| - 1], id), log[|log| - 1];
      if e.jobId != id then before
      else Some(ReplayEvent(if before.Some? then before.value else View(e.status, 0, None), e))
  }

  /** Replaying the log gives every row, and nothing for jobs that do not exist. */
  ghost predicate LogOk(q: Queue) {
    forall id :: ReplayLog(q.events, id) == if id in q.jobs then Some(ViewOf(q.jobs[id])) else None
  }

  lemma RecordLog(q: Queue, id: string, job: Job, event: Event)
    requires LogOk(q) && event.jobId == id
    requires ViewOf(job) == ReplayEvent(if id in q.jobs then ViewOf(q.jobs[id]) else View(event.status, 0, None), event)
    ensures LogOk(Record(q, id, job, event))
  {
    assert (q.events + [event])[..|q.events|] == q.events;
  }

  lemma RecoverJobLog(q: Queue, id: string, now: int)
    requires LogOk(q)
    ensures LogOk(RecoverJob(q, id, now))
  {
    hide LogOk;
    var q' := RecoverJob(q, id, now);
    if id in q.jobs {
      RecordLog(q, id, q'.jobs[id], q'.events[|q.events|]);
    }
  }

  lemma {:induction false} RecoverLog(q: Queue, ids: seq<string>, now: int)
    requires LogOk(q)
    ensures LogOk(RecoverJobs(q, ids, now))
  {
    hide LogOk, RecoverJob;
    if ids != [] {
      RecoverLog(q, ids[..|ids| - 1], now);
      RecoverJobLog(RecoverJobs(q, ids[..|ids| - 1], now), ids[|ids| - 1], now);
    }
  }

  /** Any sequence of the store's writes, with any arguments. */
  datatype Write =
    | DoCreate(id: string, now: int)
    | DoUpdate(id: string, ch: Changes)
    | DoClaim(id: string, worker: string, now: int)
    | DoSucceed(id: string, worker: string)
    | DoFail(id: string, worker: string, error: string, retrySeconds: int, now: int, attempts: nat, maxAttempts: nat)
    | DoBeat(id: string, worker: string, now: int)
    | DoRecover(ids: seq<string>, now: int)

  function ApplyWrite(q: Queue, w: Write): Queue {
    match w
    case DoCreate(id, now) => CreateJob(q, id, now)
    case DoUpdate(id, ch) => UpdateJob(q, id, ch)
    case DoClaim(id, worker, now) =>
      if id in q.jobs && Claimable(q.jobs[id], now) then ClaimJob(q, id, worker, now) else q
    case DoSucceed(id, worker) => SucceedJob(q, id, worker)
    case DoFail(id, worker, error, retry, now, a, m) => FailJob(q, id, worker, error, retry, now, a, m)
    case DoBeat(id, worker, now) => BeatJob(q, id, worker, now)
    case DoRecover(ids, now) => RecoverJobs(q, ids, now)
  }

  lemma BeatKeepsLog(q: Queue, id: string, worker: string, now: int)
    requires LogOk(q)
    ensures LogOk(BeatJob(q, id, worker, now))
  {
    var q' := BeatJob(q, id, worker, now);
    assert forall k :: k in q.jobs ==> ViewOf(q'.jobs[k]) == ViewOf(q.jobs[k]);
  }

  lemma WriteKeepsLog(q: Queue, w: Write)
    requires LogOk(q)
    ensures LogOk(ApplyWrite(q, w))
  {
    hide LogOk;
    var q' := ApplyWrite(q, w);
    match w
    case DoBeat(id, worker, now) => BeatKeepsLog(q, id, worker, now);
    case DoRecover(ids, now) => RecoverLog(q, ids, now);
    case _ =>
      if q' != q {
        RecordLog(q, w.id, q'.jobs[w.id], q'.events[|q.events|]);
      }
  }

  function ApplyWrites(writes: seq<Write>): Queue {
    if writes == [] then EmptyQueue else ApplyWrite(ApplyWrites(writes[..|writes| - 1]), writes[|writes| - 1])
  }

  /**
   * After any sequence of writes, even updates that set status, attempts or lease at will, replaying the event log
   * of a job from its creation gives its status, attempts and lease holder.
   */
  lemma {:induction false} EventLogReconstructsRow(writes: seq<Write>)
    ensures LogOk(ApplyWrites(writes))
  {
    if writes != [] {
      EventLogReconstructsRow(writes[..|writes| - 1]);
      WriteKeepsLog(ApplyWrites(writes[..|writes| - 1]), writes[|writes| - 1]);
    }
  }
}
