/**
 * The counters of a batch over runs. In every run they are off by exactly the number of items recorded twice; when a
 * batch is recovered only after its worker is gone, nothing is recorded twice and finalize cannot raise.
 */
module AiBatchAccounting {
  import opened Common
  import opened AiBatch
  import opened AiBatchRuns
  import P = SectionPersistence
  import R = SectionRuns

  // ----- Every run -----

  /** The step records an item of batch b that was terminal already. */
  predicate RepeatsItem(w: World, step: Step, b: nat) {
    && step.RecordItem? && Enabled(w, step) && ProcOf(w, step.worker).batch == b
    && Terminal(BatchItemOf(w, step.worker, step.ordinal).state)
  }

  function Repeats(steps: seq<Step>, b: nat): nat {
    if steps == [] then 0
    else
      var init, last := steps[..|steps| - 1], steps[|steps| - 1];
      Repeats(init, b) + if RepeatsItem(Run(init), last, b) then 1 else 0
  }

  /** Counters agree with each other, and exceed the terminal items by the given number of repetitions. */
  predicate OffBy(b: Batch, repeats: nat) {
    b.completed == b.succeeded + b.fallback + b.conflict && b.completed == TerminalCount(b.items) + repeats
  }

  lemma FinishOffBy(b: Batch, ordinal: nat, state: ItemState, now: int, repeats: nat)
    requires OffBy(b, repeats) && ordinal < |b.items| && Terminal(state)
    ensures OffBy(Finished(b, ordinal, state, now), repeats + if Terminal(b.items[ordinal].state) then 1 else 0)
  {
    FinishAccounting(b, ordinal, state, now);
  }

  lemma {:induction false} NewBatchExact(jobId: string, actor: string, wanted: seq<Wanted>, now: int)
    ensures CountersExact(NewBatch(jobId, actor, wanted, now))
    ensures OffBy(NewBatch(jobId, actor, wanted, now), 0)
  {
    hide Strip, CountState;
    var b := NewBatch(jobId, actor, wanted, now);
    CountNone(b.items, Drafted);
    CountNone(b.items, Fallback);
    CountNone(b.items, Conflict);
    CountSum(b.items);
  }

  /** What one step does to one batch. */
  lemma StepOnBatch(w: World, step: Step, b: nat)
    requires b in w.batches && IdsBelow(w)
    ensures var w' := Next(w, step);
      && b in w'.batches
      && if step.RecordItem? && Enabled(w, step) && ProcOf(w, step.worker).batch == b
         then w'.batches[b]
           == Finished(w.batches[b], step.ordinal, ProcOf(w, step.worker).flight[step.ordinal].state, step.now)
         else w'.batches[b] == w.batches[b].(status := w'.batches[b].status, claimedBy := w'.batches[b].claimedBy,
                                             claimedAt := w'.batches[b].claimedAt)
  {
    hide LookStage, CreateProblem, OpenItems, WrittenDraft, Finished, NewBatch;
    if step.WriteDraft? && Enabled(w, step) {
      WriteKeepsBatches(w, step);
    }
  }

  lemma WriteKeepsBatches(w: World, step: Step)
    requires step.WriteDraft? && Enabled(w, step)
    ensures Next(w, step).batches == w.batches && Next(w, step).nextBatch == w.nextBatch
  {
  }

  lemma StepIds(w: World, step: Step)
    requires IdsBelow(w)
    ensures IdsBelow(Next(w, step))
    ensures forall b :: b in Next(w, step).batches && b !in w.batches ==>
      step.CreateBatch? && Next(w, step).batches[b] == NewBatch(step.jobId, step.actor, step.wanted, step.now)
  {
    hide LookStage, CreateProblem, OpenItems, WrittenDraft, Finished, NewBatch;
    if step.WriteDraft? && Enabled(w, step) {
      WriteKeepsBatches(w, step);
    }
  }

  lemma {:induction false} RunIds(steps: seq<Step>)
    ensures IdsBelow(Run(steps))
  {
    if steps != [] {
      hide IdsBelow, Next;
      RunIds(steps[..|steps| - 1]);
      StepIds(Run(steps[..|steps| - 1]), steps[|steps| - 1]);
    }
  }

  lemma {:induction false} NoRepeatsBefore(steps: seq<Step>, b: nat)
    requires b !in Run(steps).batches
    ensures Repeats(steps, b) == 0
  {
    if steps != [] {
      var init, last := steps[..|steps| - 1], steps[|steps| - 1];
      RunIds(init);
      if b in Run(init).batches {
        StepOnBatch(Run(init), last, b);
      }
      NoRepeatsBefore(init, b);
    }
  }

  /**
   * In every interleaving, with any number of live workers on one batch: completed = succeeded + fallback + conflict,
   * and it exceeds the number of terminal items by exactly the number of items recorded more than once.
   */
  lemma {:induction false} CountersOffByRepeats(steps: seq<Step>, b: nat)
    requires b in Run(steps).batches
    ensures OffBy(Run(steps).batches[b], Repeats(steps, b))
  {
    if steps != [] {
      var init, last := steps[..|steps| - 1], steps[|steps| - 1];
      var w := Run(init);
      RunIds(init);
      hide IdsBelow, Next, OffBy;
      if b in w.batches {
        CountersOffByRepeats(init, b);
        CountersStep(w, last, b, Repeats(init, b));
      } else {
        NoRepeatsBefore(init, b);
        StepIds(w, last);
        NewBatchExact(last.jobId, last.actor, last.wanted, last.now);
      }
    }
  }

  lemma CountersStep(w: World, step: Step, b: nat, repeats: nat)
    requires b in w.batches && IdsBelow(w) && OffBy(w.batches[b], repeats)
    ensures b in Next(w, step).batches
    ensures OffBy(Next(w, step).batches[b], repeats + if RepeatsItem(w, step, b) then 1 else 0)
  {
    StepOnBatch(w, step, b);
    if step.RecordItem? && Enabled(w, step) && ProcOf(w, step.worker).batch == b {
      FinishOffBy(w.batches[b], step.ordinal, ProcOf(w, step.worker).flight[step.ordinal].state, step.now, repeats);
    }
  }

  /** The state tells how often items were recorded again: completed less the number of terminal items. */
  function Surplus(b: Batch): int {
    b.completed - TerminalCount(b.items)
  }

  /**
   * In every reachable state the repeated recordings are the surplus of the counters, and finalize goes through if
   * and only if they make up for the waiting items. So once all items are terminal it goes through exactly when there
   * is no surplus, that is when no item was ever recorded twice.
   */
  lemma {:induction false} FinalizeIffNoRepeats(steps: seq<Step>, b: nat)
    requires b in Run(steps).batches
    ensures var batch := Run(steps).batches[b];
      && Surplus(batch) == Repeats(steps, b)
      && (FinalStatus(batch).Some? <==> Surplus(batch) == CountState(batch.items, Waiting))
      && ((forall i :: 0 <= i < |batch.items| ==> Terminal(batch.items[i].state)) ==>
            (FinalStatus(batch).Some? <==> Surplus(batch) == 0))
  {
    CountersOffByRepeats(steps, b);
    CountNone(Run(steps).batches[b].items, Waiting);
    hide Run, Repeats, CountState;
  }

  // ----- One live worker per batch -----

  /** A batch is recovered only when no live process works on it. */
  ghost predicate ExclusiveStep(w: World, step: Step) {
    step.RecoverBatches? ==> forall worker :: worker in w.procs && w.procs[worker].Busy? ==>
      w.procs[worker].batch !in step.ids
  }

  ghost predicate Exclusive(steps: seq<Step>) {
    steps == [] ||
    (Exclusive(steps[..|steps| - 1]) && ExclusiveStep(Run(steps[..|steps| - 1]), steps[|steps| - 1]))
  }

  /** The items a worker still has to record are exactly the waiting ones of its batch. */
  predicate FlightOk(items: seq<BatchItem>, flight: map<nat, Stage>) {
    && (forall k :: k in flight ==> k < |items| && (flight[k].ToRecord? ==> Terminal(flight[k].state)))
    && (forall k :: 0 <= k < |items| ==> (items[k].state == Waiting <==> k in flight && flight[k] != Recorded))
  }

  predicate ProcOk(w: World, p: Proc) {
    p.Busy? ==>
      && p.batch in w.batches
      && w.batches[p.batch].status == BatchRunning
      && FlightOk(w.batches[p.batch].items, p.flight)
  }

  predicate Rivals(p: Proc, q: Proc) {
    p.Busy? && q.Busy? && p.batch == q.batch
  }

  ghost predicate Alone(w: World) {
    forall x, y :: x in w.procs && y in w.procs && Rivals(w.procs[x], w.procs[y]) ==> x == y
  }

  ghost predicate ProcsOk(w: World) {
    forall x :: x in w.procs ==> ProcOk(w, w.procs[x])
  }

  ghost predicate BatchesExact(w: World) {
    forall b :: b in w.batches ==> CountersExact(w.batches[b])
  }

  ghost predicate Exact(w: World) {
    IdsBelow(w) && Alone(w) && ProcsOk(w) && BatchesExact(w)
  }

  lemma StepExact(w: World, step: Step)
    requires Exact(w) && ExclusiveStep(w, step)
    ensures BatchesExact(Next(w, step))
  {
    hide Next, CountersExact, FlightOk, NewBatch, LookStage, CreateProblem, OpenItems;
    var w' := Next(w, step);
    StepIds(w, step);
    forall b | b in w'.batches
      ensures CountersExact(w'.batches[b])
    {
      if b in w.batches {
        assert CountersExact(w.batches[b]);
        StepOnBatch(w, step, b);
        if step.RecordItem? && Enabled(w, step) && ProcOf(w, step.worker).batch == b {
          var p := w.procs[step.worker];
          assert ProcOk(w, p);
          OpenWaits(w.batches[b].items, p.flight, step.ordinal);
          FinishKeepsExact(w.batches[b], step.ordinal, p.flight[step.ordinal].state, step.now);
        } else {
          CountersIgnoreClaim(w.batches[b], w'.batches[b]);
        }
      } else {
        NewBatchExact(step.jobId, step.actor, step.wanted, step.now);
      }
    }
  }

  lemma CountersIgnoreClaim(b: Batch, b': Batch)
    requires CountersExact(b) && b' == b.(status := b'.status, claimedBy := b'.claimedBy, claimedAt := b'.claimedAt)
    ensures CountersExact(b')
  {
  }

  lemma OpenWaits(items: seq<BatchItem>, flight: map<nat, Stage>, k: nat)
    requires FlightOk(items, flight) && k < |items| && k in flight && flight[k] != Recorded
    ensures items[k].state == Waiting
  {
  }

  /** The worker that takes a step. */
  function WorkerOf(step: Step): Option<string> {
    match step
    case Section(_) | CreateBatch(_, _, _, _, _) | RecoverBatches(_) => None
    case _ => Some(step.worker)
  }

  predicate StageSet(p: Proc, p': Proc, k: nat, stage: Stage) {
    p.Busy? && p' == p.(flight := p.flight[k := stage])
  }

  /** How a step changes a process: the one that takes it moves on, the others stay. */
  predicate ProcMove(w: World, step: Step, x: string, p: Proc, p': Proc) {
    if !Enabled(w, step) || WorkerOf(step) != Some(x) then p' == p
    else match step
      case ClaimBatch(_, b, _) => p' == Busy(b, OpenItems(w.batches[b].items))
      case Look(_, k) =>
        StageSet(p, p', k, LookStage(w.tables, w.batches[ProcOf(w, x).batch].jobId, BatchItemOf(w, x, k)))
      case NoDraft(_, k) => StageSet(p, p', k, ToRecord(Fallback))
      case WriteDraft(_, k, _, _, _) => StageSet(p, p', k, ToRecord(Drafted)) || StageSet(p, p', k, ToRecord(Conflict))
      case RecordItem(_, k, _) => StageSet(p, p', k, Recorded)
      case _ => p' == Resting
  }

  lemma StepOnProcs(w: World, step: Step, x: string)
    requires x in Next(w, step).procs
    ensures ProcMove(w, step, x, ProcOf(w, x), Next(w, step).procs[x])
  {
    hide LookStage, CreateProblem, OpenItems, Finished, NewBatch, ClaimedBatch, Requeued, FinalStatus, P.Transitioned,
      P.Checked, R.Apply;
  }

  /** A look finds the item readable at its revision, or an outcome to record, but never a draft written. */
  lemma LookTerminal(t: P.Tables, jobId: string, item: BatchItem)
    ensures var stage := LookStage(t, jobId, item);
      stage != Recorded && stage != ToRecord(Drafted) && (stage.ToRecord? ==> Terminal(stage.state))
  {
  }

  lemma {:induction false} StepAlone(w: World, step: Step)
    requires Exact(w)
    ensures Alone(Next(w, step))
  {
    hide Next, FlightOk, LookStage, OpenItems, CountersExact;
    var w' := Next(w, step);
    forall x, y | x in w'.procs && y in w'.procs && Rivals(w'.procs[x], w'.procs[y])
      ensures x == y
    {
      StepOnProcs(w, step, x);
      StepOnProcs(w, step, y);
      if x in w.procs {
        assert ProcOk(w, w.procs[x]);
      }
      if y in w.procs {
        assert ProcOk(w, w.procs[y]);
      }
    }
  }

  /** The steps that change the status of a batch. */
  predicate SetsStatus(w: World, step: Step, b: nat) {
    match step
    case ClaimBatch(_, batch, _) => batch == b
    case Finalize(worker) => ProcOf(w, worker).Busy? && ProcOf(w, worker).batch == b
    case RecoverBatches(ids) => b in ids
    case _ => false
  }

  lemma StatusOnBatch(w: World, step: Step, b: nat)
    requires b in w.batches && IdsBelow(w)
    ensures b in Next(w, step).batches
    ensures !SetsStatus(w, step, b) ==> Next(w, step).batches[b].status == w.batches[b].status
    ensures step.ClaimBatch? && step.batch == b && Enabled(w, step) ==> Next(w, step).batches[b].status == BatchRunning
  {
    hide LookStage, CreateProblem, OpenItems, WrittenDraft, NewBatch;
    if step.WriteDraft? && Enabled(w, step) {
      WriteKeepsBatches(w, step);
    }
  }

  lemma FinalizerRests(w: World, step: Step)
    requires step.Finalize? && Enabled(w, step)
    ensures Next(w, step).procs == w.procs[step.worker := Resting]
  {
  }

  lemma Disabled(w: World, step: Step)
    requires !Enabled(w, step)
    ensures Next(w, step) == w
  {
  }

  /** A batch that a live process works on keeps running. */
  lemma {:induction false} StepStatus(w: World, step: Step, x: string)
    requires Exact(w) && ExclusiveStep(w, step)
    requires x in Next(w, step).procs && Next(w, step).procs[x].Busy?
    ensures Next(w, step).procs[x].batch in Next(w, step).batches
    ensures Next(w, step).batches[Next(w, step).procs[x].batch].status == BatchRunning
  {
    hide Next, FlightOk, LookStage, OpenItems, CountersExact;
    StepOnProcs(w, step, x);
    var b := Next(w, step).procs[x].batch;
    if !Enabled(w, step) {
      Disabled(w, step);
    } else if step.Finalize? {
      FinalizerRests(w, step);
    }
    if x in w.procs {
      assert ProcOk(w, w.procs[x]);
    }
    StatusOnBatch(w, step, b);
  }

  lemma FlightOfClaim(items: seq<BatchItem>)
    ensures FlightOk(items, OpenItems(items))
  {
  }

  lemma FlightMoves(items: seq<BatchItem>, flight: map<nat, Stage>, k: nat, stage: Stage)
    requires FlightOk(items, flight) && k in flight && flight[k] != Recorded
    requires stage != Recorded && (stage.ToRecord? ==> Terminal(stage.state))
    ensures FlightOk(items, flight[k := stage])
  {
  }

  lemma FlightRecords(items: seq<BatchItem>, flight: map<nat, Stage>, k: nat, item: BatchItem)
    requires FlightOk(items, flight) && k in flight && k < |items| && Terminal(item.state)
    ensures FlightOk(items[k := item], flight[k := Recorded])
  {
  }

  /** The stage of an item and the batch it belongs to move together. */
  lemma {:induction false} StepFlight(w: World, step: Step, x: string)
    requires Exact(w) && ExclusiveStep(w, step)
    requires x in Next(w, step).procs
    ensures ProcOk(Next(w, step), Next(w, step).procs[x])
  {
    hide Next, CountersExact, BatchesExact, FlightOk, OpenItems, ExclusiveStep, LookStage;
    var p, p' := ProcOf(w, x), Next(w, step).procs[x];
    StepOnProcs(w, step, x);
    if p'.Busy? {
      StepStatus(w, step, x);
      if !Enabled(w, step) {
        Disabled(w, step);
      }
      if x in w.procs {
        assert ProcOk(w, p);
      }
      var b := w.batches[p'.batch];
      StepOnBatch(w, step, p'.batch);
      if step.ClaimBatch? && step.worker == x && Enabled(w, step) {
        FlightOfClaim(b.items);
      } else if step.RecordItem? && Enabled(w, step) && ProcOf(w, step.worker).batch == p'.batch {
        assert Rivals(p, ProcOf(w, step.worker));
        FlightRecords(b.items, p.flight, step.ordinal, b.items[step.ordinal].(state := p.flight[step.ordinal].state));
      } else if (step.Look? || step.NoDraft? || step.WriteDraft?) && Enabled(w, step) && step.worker == x {
        LookTerminal(w.tables, b.jobId, BatchItemOf(w, x, step.ordinal));
        FlightMoves(b.items, p.flight, step.ordinal, p'.flight[step.ordinal]);
      }
    }
  }

  lemma {:induction false} NextExact(w: World, step: Step)
    requires Exact(w) && ExclusiveStep(w, step)
    ensures Exact(Next(w, step))
  {
    hide Next, ProcOk, CountersExact, Rivals;
    StepIds(w, step);
    StepExact(w, step);
    StepAlone(w, step);
    forall x | x in Next(w, step).procs
      ensures ProcOk(Next(w, step), Next(w, step).procs[x])
    {
      StepFlight(w, step, x);
    }
  }

  lemma {:induction false} RunExact(steps: seq<Step>)
    requires Exclusive(steps)
    ensures Exact(Run(steps))
  {
    if steps != [] {
      hide Exact, Next, ExclusiveStep;
      RunExact(steps[..|steps| - 1]);
      NextExact(Run(steps[..|steps| - 1]), steps[|steps| - 1]);
    }
  }

  /**
   * With one live worker per batch at a time, crashes anywhere and recovery after them: every counter is the number
   * of items in its state, and completed is the number of terminal items, at every step.
   */
  lemma {:induction false} CountersExactWhenExclusive(steps: seq<Step>, b: nat)
    requires Exclusive(steps) && b in Run(steps).batches
    ensures CountersExact(Run(steps).batches[b])
    ensures Run(steps).batches[b].completed == TerminalCount(Run(steps).batches[b].items)
  {
    RunExact(steps);
    FinalizeWhenAllTerminal(Run(steps).batches[b]);
  }

  /** A worker that has recorded everything it claimed finds a complete batch: finalize never raises. */
  lemma FinalizeNeverRaises(steps: seq<Step>, worker: string)
    requires Exclusive(steps) && AllRecorded(ProcOf(Run(steps), worker))
    ensures var p := ProcOf(Run(steps), worker);
      p.batch in Run(steps).batches && FinalStatus(Run(steps).batches[p.batch]).Some?
  {
    RunExact(steps);
    var w := Run(steps);
    assert ProcOk(w, w.procs[worker]);
    FinalizeWhenAllTerminal(w.batches[w.procs[worker].batch]);
  }
}
