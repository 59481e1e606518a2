/** A lease that its holder refreshes survives stale-lease recovery, in every interleaving. */
module JobLease {
  import opened Common
  import opened JobQueue
  import opened JobQueueRuns

  /** The job is running for the worker, which claimed or refreshed it at the given time or later. */
  predicate Leased(q: Queue, id: string, worker: string, since: int) {
    && id in q.jobs && q.jobs[id].status == Running && q.jobs[id].claimedBy == Some(worker)
    && q.jobs[id].claimedAt.Some? && since <= q.jobs[id].claimedAt.value
  }

  /**
   * Anything but: the worker giving its job back, a heartbeat of it dated earlier, a recovery with a later cutoff.
   * Crashes, other workers, uploads, enqueues and claims are all allowed.
   */
  predicate Sparing(step: Step, worker: string, since: int) {
    match step
    case Complete(w) => w != worker
    case WriteFail(w, _, _, _) => w != worker
    case Beat(w, _, now) => w == worker ==> since <= now
    case Recover(_, cutoff, _) => cutoff <= since
    case _ => true
  }

  lemma RecoverySpares(q: Queue, ids: seq<string>, cutoff: int, now: int, id: string, worker: string, since: int)
    requires Leased(q, id, worker, since) && StaleIds(q, ids, cutoff) && cutoff <= since
    ensures id !in ids && id in RecoverJobs(q, ids, now).jobs && RecoverJobs(q, ids, now).jobs[id] == q.jobs[id]
  {
    RecoveredRows(q, ids, now);
    hide RecoverJobs;
  }

  lemma StepSpares(s: State, step: Step, id: string, worker: string, since: int)
    requires Leased(s.queue, id, worker, since) && Sparing(step, worker, since)
    ensures Leased(Next(s, step).queue, id, worker, since)
  {
    if Enabled(s, step) && step.Recover? {
      RecoverySpares(s.queue, step.ids, step.cutoff, step.now, id, worker, since);
    }
    hide RecoverJobs;
  }

  lemma {:induction false} LeaseSurvives(s: State, steps: seq<Step>, id: string, worker: string, since: int)
    requires Leased(s.queue, id, worker, since)
    requires forall k :: 0 <= k < |steps| ==> Sparing(steps[k], worker, since)
    ensures Leased(RunFrom(s, steps).queue, id, worker, since)
  {
    hide Next, Leased, Sparing;
    if steps != [] {
      LeaseSurvives(s, steps[..|steps| - 1], id, worker, since);
      StepSpares(RunFrom(s, steps[..|steps| - 1]), steps[|steps| - 1], id, worker, since);
    }
  }

  lemma BeatRefreshes(s: State, worker: string, id: string, now: int)
    requires id in s.queue.jobs && s.queue.jobs[id].status == Running && s.queue.jobs[id].claimedBy == Some(worker)
    ensures Leased(Next(s, Beat(worker, id, now)).queue, id, worker, now)
  {
  }

  /**
   * In every run: the holder refreshes its lease, then anything sparing happens, then a recovery runs with a cutoff
   * not after the refresh. The job is not among the recovered ones and is still running for its holder.
   */
  lemma RefreshedLeaseSurvives(before: seq<Step>, more: seq<Step>, id: string, worker: string, at: int,
                               ids: seq<string>, cutoff: int, now: int)
    requires id in RunFrom(Initial, before).queue.jobs
    requires var job := RunFrom(Initial, before).queue.jobs[id]; job.status == Running && job.claimedBy == Some(worker)
    requires cutoff <= at && forall k :: 0 <= k < |more| ==> Sparing(more[k], worker, at)
    ensures var s := RunFrom(RunFrom(Initial, before + [Beat(worker, id, at)]), more);
      && (Enabled(s, Recover(ids, cutoff, now)) ==> id !in ids)
      && Leased(Next(s, Recover(ids, cutoff, now)).queue, id, worker, at)
  {
    hide RunFrom, Leased, Sparing, Next;
    LastStep(before, Beat(worker, id, at));
    BeatRefreshes(RunFrom(Initial, before), worker, id, at);
    var s := RunFrom(RunFrom(Initial, before + [Beat(worker, id, at)]), more);
    LeaseSurvives(RunFrom(Initial, before + [Beat(worker, id, at)]), more, id, worker, at);
    RecoverIsSparing(ids, cutoff, now, worker, at);
    StepSpares(s, Recover(ids, cutoff, now), id, worker, at);
    if Enabled(s, Recover(ids, cutoff, now)) {
      RecoverySpares(s.queue, ids, cutoff, now, id, worker, at);
    }
  }

  lemma RecoverIsSparing(ids: seq<string>, cutoff: int, now: int, worker: string, since: int)
    requires cutoff <= since
    ensures Sparing(Recover(ids, cutoff, now), worker, since)
  {
  }

  lemma LastStep(before: seq<Step>, step: Step)
    ensures RunFrom(Initial, before + [step]) == Next(RunFrom(Initial, before), step)
  {
    hide Next;
    assert (before + [step])[..|before|] == before;
  }
}
