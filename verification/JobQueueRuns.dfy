/**
 * Runs of the queue: web requests, any number of workers, crashes and stale-lease recovery, in every interleaving.
 * A worker id names one sequential process at a time; a crashed process may be restarted under the same id. The
 * guard of run_job and the selection of recover_stale are taken together with their writes.
 */
module JobQueueRuns {
  import opened Common
  import opened JobQueue

  /** Where a worker process is: polling, working on a job, or between the read and the write of fail. */
  datatype Phase = Idle | Working(jobId: string) | Failing(jobId: string, attempts: nat, maxAttempts: nat)

  datatype State = State(queue: Queue, phases: map<string, Phase>)

  datatype Step =
    | Create(id: string, now: int)
    | Upload(id: string, inputFiles: nat)
    | Enqueue(id: string)
    | Claim(worker: string, id: string, now: int)
    | Beat(worker: string, id: string, now: int)
    | Complete(worker: string)
    | ReadForFail(worker: string)
    | WriteFail(worker: string, error: string, retrySeconds: int, now: int)
    | Crash(worker: string)
    | Recover(ids: seq<string>, cutoff: int, now: int)

  const Initial := State(EmptyQueue, map[])

  const NoChange := Changes(None, None, None, None, None, None)

  function PhaseOf(s: State, worker: string): Phase {
    if worker in s.phases then s.phases[worker] else Idle
  }

  function Moved(s: State, worker: string, phase: Phase): State {
    s.(phases := s.phases[worker := phase])
  }

  /** The guard of run_job: a draft or failed job with input evidence. */
  predicate CanEnqueue(job: Job) {
    job.status in {Draft, Failed} && job.inputFiles != 0
  }

  /** The update of run_job: attempts restart only for a failed job. */
  function EnqueueChanges(job: Job): Changes {
    NoChange.(status := Some(Queued), error := Some(None), attempts := if job.status == Failed then Some(0) else None)
  }

  ghost predicate StaleIds(q: Queue, ids: seq<string>, cutoff: int) {
    && (forall i :: 0 <= i < |ids| ==> ids[i] in q.jobs && Stale(q.jobs[ids[i]], cutoff))
    && (forall i, j :: 0 <= i < j < |ids| ==> ids[i] != ids[j])
  }

  ghost predicate Enabled(s: State, step: Step) {
    match step
    case Create(id, _) => id !in s.queue.jobs
    case Upload(id, _) => id in s.queue.jobs
    case Enqueue(id) => id in s.queue.jobs && CanEnqueue(s.queue.jobs[id])
    case Claim(w, id, now) => PhaseOf(s, w) == Idle && id in s.queue.jobs && Claimable(s.queue.jobs[id], now)
    case Beat(_, _, _) => true
    case Complete(w) => PhaseOf(s, w).Working?
    case ReadForFail(w) => PhaseOf(s, w).Working? && PhaseOf(s, w).jobId in s.queue.jobs
    case WriteFail(w, _, _, _) => PhaseOf(s, w).Failing?
    case Crash(_) => true
    case Recover(ids, cutoff, _) => StaleIds(s.queue, ids, cutoff)
  }

  /** A step that is not enabled changes nothing. */
  ghost function Next(s: State, step: Step): State {
    if !Enabled(s, step) then s
    else match step
      case Create(id, now) => s.(queue := CreateJob(s.queue, id, now))
      case Upload(id, n) => s.(queue := UpdateJob(s.queue, id, NoChange.(inputFiles := Some(n))))
      case Enqueue(id) => s.(queue := UpdateJob(s.queue, id, EnqueueChanges(s.queue.jobs[id])))
      case Claim(w, id, now) => Moved(s.(queue := ClaimJob(s.queue, id, w, now)), w, Working(id))
      case Beat(w, id, now) => s.(queue := BeatJob(s.queue, id, w, now))
      case Complete(w) => Moved(s.(queue := SucceedJob(s.queue, PhaseOf(s, w).jobId, w)), w, Idle)
      case ReadForFail(w) =>
        var id := PhaseOf(s, w).jobId;
        Moved(s, w, Failing(id, s.queue.jobs[id].attempts, s.queue.jobs[id].maxAttempts))
      case WriteFail(w, error, retry, now) =>
        var p := PhaseOf(s, w);
        Moved(s.(queue := FailJob(s.queue, p.jobId, w, error, retry, now, p.attempts, p.maxAttempts)), w, Idle)
      case Crash(w) => Moved(s, w, Idle)
      case Recover(ids, _, now) => s.(queue := RecoverJobs(s.queue, ids, now))
  }

  ghost function RunFrom(s: State, steps: seq<Step>): State {
    if steps == [] then s else Next(RunFrom(s, steps[..|steps| - 1]), steps[|steps| - 1])
  }

  // ----- The invariant of rows and of pending failures -----

  predicate JobOk(job: Job) {
    && (job.status == Running <==> job.claimedBy.Some?)
    && (job.claimedBy.Some? <==> job.claimedAt.Some?)
    && job.maxAttempts == MAX_ATTEMPTS
    && job.attempts <= job.maxAttempts
    && (job.status == Draft ==> job.attempts == 0)
    && (job.status == Queued ==> job.attempts < job.maxAttempts)
    && (job.status == Failed ==> job.attempts == job.maxAttempts)
    && (job.status == Running ==> job.attempts > 0)
  }

  ghost predicate JobsOk(q: Queue) {
    forall id :: id in q.jobs ==> JobOk(q.jobs[id])
  }

  /** What a worker read before failing is still true of the row as long as the worker holds it. */
  predicate PendingOk(q: Queue, worker: string, p: Phase) {
    p.Failing? ==>
      && p.jobId in q.jobs
      && p.maxAttempts == MAX_ATTEMPTS
      && (Holds(q, p.jobId, worker) ==> q.jobs[p.jobId].attempts == p.attempts)
  }

  ghost predicate Inv(s: State) {
    JobsOk(s.queue) && forall w :: w in s.phases ==> PendingOk(s.queue, w, s.phases[w])
  }

  /** The row that recovering a job leaves. */
  function RecoveredRow(job: Job, now: int): Job {
    RecoverJob(Queue(map["" := job], []), "", now).jobs[""]
  }

  lemma RecoverIsLocal(q: Queue, id: string, now: int)
    ensures RecoverJob(q, id, now).jobs == if id in q.jobs then q.jobs[id := RecoveredRow(q.jobs[id], now)] else q.jobs
  {
  }

  lemma {:induction false} RecoveredRows(q: Queue, ids: seq<string>, now: int)
    requires forall i, j :: 0 <= i < j < |ids| ==> ids[i] != ids[j]
    ensures RecoverJobs(q, ids, now).jobs.Keys == q.jobs.Keys
    ensures forall id :: id in q.jobs ==>
      RecoverJobs(q, ids, now).jobs[id] == if id in ids then RecoveredRow(q.jobs[id], now) else q.jobs[id]
  {
    hide RecoverJob, RecoveredRow;
    if ids != [] {
      var n := |ids| - 1;
      RecoveredRows(q, ids[..n], now);
      assert ids == ids[..n] + [ids[n]];
      RecoverIsLocal(RecoverJobs(q, ids[..n], now), ids[n], now);
    }
  }

  lemma RecoverInv(s: State, ids: seq<string>, cutoff: int, now: int)
    requires Inv(s) && StaleIds(s.queue, ids, cutoff)
    ensures Inv(s.(queue := RecoverJobs(s.queue, ids, now)))
  {
    RecoveredRows(s.queue, ids, now);
    var q' := RecoverJobs(s.queue, ids, now);
    forall id | id in q'.jobs
      ensures JobOk(q'.jobs[id])
    {
      assert JobOk(s.queue.jobs[id]);
      if id in ids {
        assert Stale(s.queue.jobs[id], cutoff);
      }
    }
    forall w | w in s.phases
      ensures PendingOk(q', w, s.phases[w])
    {
      assert PendingOk(s.queue, w, s.phases[w]);
    }
  }

  lemma NextInv(s: State, step: Step)
    requires Inv(s)
    ensures Inv(Next(s, step))
  {
    if Enabled(s, step) {
      if step.Recover? {
        RecoverInv(s, step.ids, step.cutoff, step.now);
      } else {
        NextRowsOk(s, step);
        NextPendingOk(s, step);
      }
    }
  }

  lemma NextRowsOk(s: State, step: Step)
    requires Inv(s) && Enabled(s, step) && !step.Recover?
    ensures JobsOk(Next(s, step).queue)
  {
    match step
    case WriteFail(w, _, _, _) => assert PendingOk(s.queue, w, s.phases[w]);
    case _ =>
  }

  lemma NextPendingOk(s: State, step: Step)
    requires Inv(s) && Enabled(s, step) && !step.Recover?
    ensures forall w :: w in Next(s, step).phases ==> PendingOk(Next(s, step).queue, w, Next(s, step).phases[w])
  {
    var s' := Next(s, step);
    forall w | w in s'.phases
      ensures PendingOk(s'.queue, w, s'.phases[w])
    {
      if w in s.phases {
        assert PendingOk(s.queue, w, s.phases[w]);
      }
    }
  }

  lemma {:induction false} RunInv(s: State, steps: seq<Step>)
    requires Inv(s)
    ensures Inv(RunFrom(s, steps))
  {
    if steps != [] {
      RunInv(s, steps[..|steps| - 1]);
      NextInv(RunFrom(s, steps[..|steps| - 1]), steps[|steps| - 1]);
    }
  }

  /**
   * In every reachable queue: a job is running exactly when a lease holder is set, attempts stay within the bound,
   * a queued job can be claimed as soon as its time has come, and a failed job has used all its attempts.
   */
  lemma ReachableJobs(steps: seq<Step>, id: string)
    requires id in RunFrom(Initial, steps).queue.jobs
    ensures var job := RunFrom(Initial, steps).queue.jobs[id];
      && (job.status == Running <==> job.claimedBy.Some?)
      && 0 <= job.attempts <= job.maxAttempts == MAX_ATTEMPTS
      && (job.status == Queued ==> forall now :: job.availableAt <= now ==> Claimable(job, now))
      && (job.status == Failed ==> job.attempts == job.maxAttempts)
      && (job.status == Draft ==> job.attempts == 0)
  {
    RunInv(Initial, steps);
    assert JobOk(RunFrom(Initial, steps).queue.jobs[id]);
  }

  /** The write of the metadata store that a step performs; heartbeats of nobody stand for none. */
  ghost function WriteOf(s: State, step: Step): Write
    requires Enabled(s, step)
  {
    match step
    case Create(id, now) => DoCreate(id, now)
    case Upload(id, n) => DoUpdate(id, NoChange.(inputFiles := Some(n)))
    case Enqueue(id) => DoUpdate(id, EnqueueChanges(s.queue.jobs[id]))
    case Claim(w, id, now) => DoClaim(id, w, now)
    case Beat(w, id, now) => DoBeat(id, w, now)
    case Complete(w) => DoSucceed(PhaseOf(s, w).jobId, w)
    case WriteFail(w, error, retry, now) =>
      var p := PhaseOf(s, w);
      DoFail(p.jobId, w, error, retry, now, p.attempts, p.maxAttempts)
    case Recover(ids, _, now) => DoRecover(ids, now)
    case ReadForFail(_) | Crash(_) => DoRecover([], 0)
  }

  lemma StepIsWrite(s: State, step: Step)
    requires Enabled(s, step)
    ensures Next(s, step).queue == ApplyWrite(s.queue, WriteOf(s, step))
  {
    hide RecoverJobs, FailJob, SucceedJob, BeatJob, ClaimJob, UpdateJob, CreateJob;
    if step.ReadForFail? || step.Crash? {
      RecoverNobody(s.queue);
    }
  }

  lemma RecoverNobody(q: Queue)
    ensures RecoverJobs(q, [], 0) == q
  {
  }

  /** In every run, too, replaying the event log gives every row. */
  lemma {:induction false} RunLog(steps: seq<Step>)
    ensures LogOk(RunFrom(Initial, steps).queue)
  {
    if steps != [] {
      var init, step := steps[..|steps| - 1], steps[|steps| - 1];
      RunLog(init);
      hide LogOk, ApplyWrite, WriteOf, Next, Enabled;
      var s := RunFrom(Initial, init);
      if Enabled(s, step) {
        StepIsWrite(s, step);
        WriteKeepsLog(s.queue, WriteOf(s, step));
      } else {
        IdleStep(s, step);
      }
    }
  }

  lemma IdleStep(s: State, step: Step)
    requires !Enabled(s, step)
    ensures Next(s, step) == s
  {
  }

  // ----- The two-step fail refines an atomic one -----

  /** The same machine, except that fail decides on the attempt numbers of the row it writes. */
  ghost function NextAtomic(s: State, step: Step): State {
    if step.WriteFail? && Enabled(s, step) && PhaseOf(s, step.worker).jobId in s.queue.jobs then
      var id := PhaseOf(s, step.worker).jobId;
      var job := s.queue.jobs[id];
      var queue :=
        FailJob(s.queue, id, step.worker, step.error, step.retrySeconds, step.now, job.attempts, job.maxAttempts);
      Moved(s.(queue := queue), step.worker, Idle)
    else Next(s, step)
  }

  ghost function RunAtomic(s: State, steps: seq<Step>): State {
    if steps == [] then s else NextAtomic(RunAtomic(s, steps[..|steps| - 1]), steps[|steps| - 1])
  }

  lemma NextIsAtomic(s: State, step: Step)
    requires Inv(s)
    ensures NextAtomic(s, step) == Next(s, step)
  {
    if step.WriteFail? && Enabled(s, step) {
      var w := step.worker;
      assert PendingOk(s.queue, w, s.phases[w]);
      if Holds(s.queue, s.phases[w].jobId, w) {
        assert JobOk(s.queue.jobs[s.phases[w].jobId]);
      }
    }
  }

  /** In every interleaving the machine with the two-step fail goes through the states of the atomic one. */
  lemma {:induction false} TwoStepFailRefinesAtomic(steps: seq<Step>)
    ensures RunFrom(Initial, steps) == RunAtomic(Initial, steps)
  {
    if steps != [] {
      var init := steps[..|steps| - 1];
      TwoStepFailRefinesAtomic(init);
      RunInv(Initial, init);
      NextIsAtomic(RunFrom(Initial, init), steps[|steps| - 1]);
    }
  }

  /**
   * The exact condition on what fail read: the row it writes is in order if and only if the read numbers lead to the
   * same choice between retry and failure as the row's own.
   */
  lemma StaleReadCondition(q: Queue, id: string, worker: string, error: string, retry: int, now: int, attempts: nat,
      max: nat)
    requires id in q.jobs && JobOk(q.jobs[id]) && Holds(q, id, worker)
    ensures JobOk(FailJob(q, id, worker, error, retry, now, attempts, max).jobs[id]) <==>
      (attempts < max <==> q.jobs[id].attempts < q.jobs[id].maxAttempts)
  {
  }

  // ----- Bounded claims -----

  /** Twice the attempts left, plus one while a worker holds the job: every claim and every release lowers it. */
  function Rank(job: Job): int {
    2 * (job.maxAttempts - job.attempts) + if job.status == Running then 1 else 0
  }

  ghost predicate ClaimsJob(s: State, step: Step, id: string) {
    step.Claim? && step.id == id && Enabled(s, step)
  }

  ghost predicate MovesJob(s: State, step: Step, id: string) {
    id in s.queue.jobs && id in Next(s, step).queue.jobs
      && Next(s, step).queue.jobs[id].status != s.queue.jobs[id].status
  }

  ghost function Claims(s: State, steps: seq<Step>, id: string): nat {
    if steps == [] then 0
    else
      var init, last := steps[..|steps| - 1], steps[|steps| - 1];
      Claims(s, init, id) + if ClaimsJob(RunFrom(s, init), last, id) then 1 else 0
  }

  ghost function Moves(s: State, steps: seq<Step>, id: string): nat {
    if steps == [] then 0
    else
      var init, last := steps[..|steps| - 1], steps[|steps| - 1];
      Moves(s, init, id) + if MovesJob(RunFrom(s, init), last, id) then 1 else 0
  }

  ghost predicate NoEnqueueOf(steps: seq<Step>, id: string) {
    forall i :: 0 <= i < |steps| ==> steps[i] != Enqueue(id)
  }

  lemma StepAccounting(s: State, step: Step, id: string)
    requires Inv(s) && id in s.queue.jobs && step != Enqueue(id)
    ensures var s' := Next(s, step);
      && id in s'.queue.jobs
      && s'.queue.jobs[id].attempts == s.queue.jobs[id].attempts + (if ClaimsJob(s, step, id) then 1 else 0)
      && Rank(s'.queue.jobs[id]) == Rank(s.queue.jobs[id]) - (if MovesJob(s, step, id) then 1 else 0)
      && (s.queue.jobs[id].status == Succeeded ==> s'.queue.jobs[id].status == Succeeded)
  {
    hide PendingOk;
    assert JobOk(s.queue.jobs[id]);
    if step.Recover? && Enabled(s, step) {
      RecoverAccounting(s, step, id);
    } else {
      hide RecoverJobs;
    }
  }

  lemma RecoverAccounting(s: State, step: Step, id: string)
    requires Inv(s) && id in s.queue.jobs && step.Recover? && Enabled(s, step)
    ensures var q := RecoverJobs(s.queue, step.ids, step.now);
      && id in q.jobs && q.jobs[id].attempts == s.queue.jobs[id].attempts
      && Rank(q.jobs[id]) == Rank(s.queue.jobs[id]) - (if q.jobs[id].status != s.queue.jobs[id].status then 1 else 0)
      && (s.queue.jobs[id].status == Succeeded ==> q.jobs[id].status == Succeeded)
  {
    assert JobOk(s.queue.jobs[id]);
    RecoveredRows(s.queue, step.ids, step.now);
    hide RecoverJobs, Inv;
  }

  /**
   * As long as nobody enqueues the job again: every claim is counted in attempts, every change of status lowers the
   * rank by one, and so both are bounded by what was left at the start. A succeeded job stays so.
   */
  lemma {:induction false} BoundedBetweenEnqueues(s: State, steps: seq<Step>, id: string)
    requires Inv(s) && id in s.queue.jobs && NoEnqueueOf(steps, id)
    ensures var s' := RunFrom(s, steps);
      && id in s'.queue.jobs
      && s'.queue.jobs[id].attempts == s.queue.jobs[id].attempts + Claims(s, steps, id)
      && Rank(s'.queue.jobs[id]) == Rank(s.queue.jobs[id]) - Moves(s, steps, id)
      && Claims(s, steps, id) <= MAX_ATTEMPTS - s.queue.jobs[id].attempts
      && Moves(s, steps, id) <= Rank(s.queue.jobs[id])
      && (s.queue.jobs[id].status == Succeeded ==> s'.queue.jobs[id].status == Succeeded)
  {
    RunInv(s, steps);
    assert JobOk(s.queue.jobs[id]);
    if steps != [] {
      var init, last := steps[..|steps| - 1], steps[|steps| - 1];
      hide JobOk, Inv, Next, Enabled;
      BoundedBetweenEnqueues(s, init, id);
      RunInv(s, init);
      StepAccounting(RunFrom(s, init), last, id);
    }
    BoundOfRank(RunFrom(s, steps), id);
  }

  lemma BoundOfRank(s: State, id: string)
    requires Inv(s) && id in s.queue.jobs
    ensures s.queue.jobs[id].attempts <= MAX_ATTEMPTS && Rank(s.queue.jobs[id]) >= 0
  {
    assert JobOk(s.queue.jobs[id]);
  }

  /** Enqueuing cannot touch a succeeded job, so success is final in every run. */
  lemma {:induction false} SucceededForever(s: State, steps: seq<Step>, id: string)
    requires Inv(s) && id in s.queue.jobs && s.queue.jobs[id].status == Succeeded
    ensures id in RunFrom(s, steps).queue.jobs && RunFrom(s, steps).queue.jobs[id].status == Succeeded
  {
    if steps != [] {
      var init, last := steps[..|steps| - 1], steps[|steps| - 1];
      SucceededForever(s, init, id);
      RunInv(s, init);
      if last != Enqueue(id) {
        StepAccounting(RunFrom(s, init), last, id);
      }
    }
  }
}
