/**
 * The steps of the interleaved machine are what the store and the worker do: each call, run without interference, is
 * one step of the machine, and processing one item is the three steps look, ask and record.
 */
module BatchSteps {
  import opened Common
  import opened SectionWorkflow
  import opened SectionPersistence
  import opened AiBatch
  import opened AiBatchRuns
  import opened BatchCreation
  import opened BatchStore
  import opened Worker

  // ----- Store calls -----

  /** create: a new batch exactly when every line fits, and nothing otherwise. */
  lemma CreateIsStep(w: World, jobId: string, actor: string, wanted: seq<Wanted>, size: nat, now: int)
    ensures var w' := Next(w, CreateBatch(jobId, actor, wanted, size, now));
      if Strip(actor) != [] && 1 <= |wanted| <= size && !Repeated(wanted)
         && (forall i :: 0 <= i < |wanted| ==> LineFits(w.tables, jobId, wanted[i]))
      then
        && w'.nextBatch == w.nextBatch + 1 && w'.batches == w.batches[w.nextBatch := w'.batches[w.nextBatch]]
        && FreshBatch(w'.batches[w.nextBatch], jobId, actor, wanted, now)
        && w'.tables == w.tables && w'.procs == w.procs && w'.writes == w.writes
      else w' == w
  {
    CreateProblemMeans(w.tables, jobId, actor, wanted, size);
    NewBatchIsFresh(jobId, actor, wanted, now);
    hide CreateProblem, Strip, Repeated, DraftableRow, FreshBatch, NewBatch, FirstUnfit;
    assert CreateProblem(w.tables, jobId, actor, wanted, size).None? ==>
      Next(w, CreateBatch(jobId, actor, wanted, size, now)).batches ==
        w.batches[w.nextBatch := NewBatch(jobId, actor, wanted, now)];
  }

  /** claim_next: only a queued batch, and its waiting items are the worker's to process. */
  lemma ClaimIsStep(w: World, worker: string, b: nat, now: int)
    requires worker !in w.procs || w.procs[worker] == Resting
    ensures var w' := Next(w, ClaimBatch(worker, b, now));
      if b in w.batches && w.batches[b].status == BatchQueued then
        && w'.batches == w.batches[b := w.batches[b].(status := BatchRunning, claimedBy := Some(worker),
                                                      claimedAt := Some(now))]
        && worker in w'.procs && w'.procs == w.procs[worker := w'.procs[worker]]
        && Holds(w'.procs[worker], b, w.batches[b].items)
        && w'.tables == w.tables && w'.nextBatch == w.nextBatch && w'.writes == w.writes
      else w' == w
  {
  }

  /** The worker has the waiting items of the batch, none of them looked at. */
  ghost predicate Holds(p: Proc, b: nat, items: seq<BatchItem>) {
    && p.Busy? && p.batch == b
    && (forall k: nat :: k in p.flight <==> k < |items| && items[k].state == Waiting)
    && (forall k :: k in p.flight ==> p.flight[k] == Untouched)
  }

  /** recover_stale: the step with the stale batches does what the store call does. */
  lemma RecoveryIsStep(w: World, cutoff: int)
    ensures var ids := set b | b in w.batches && StaleBatch(w.batches[b], cutoff);
      var w' := Next(w, RecoverBatches(ids));
      && w'.batches.Keys == w.batches.Keys
      && (forall b :: b in w.batches ==> SparedOrRequeued(w.batches[b], w'.batches[b], cutoff))
      && w' == w.(batches := w'.batches)
  {
  }

  /** Nothing but running batches is ever recovered. */
  lemma OnlyRunningRecovered(w: World, ids: set<nat>, b: nat)
    requires b in ids && (b !in w.batches || w.batches[b].status != BatchRunning)
    ensures Next(w, RecoverBatches(ids)) == w
  {
  }

  /** finalize: with every item recorded the batch gets its final status, and the worker is free. */
  lemma FinalizeIsStep(w: World, worker: string)
    requires worker in w.procs && w.procs[worker].Busy? && w.procs[worker].batch in w.batches
    requires forall k :: k in w.procs[worker].flight ==> w.procs[worker].flight[k] == Recorded
    ensures var w', b := Next(w, Finalize(worker)), w.procs[worker].batch; var row := w.batches[b];
      && w'.procs == w.procs[worker := Resting] && w'.tables == w.tables
      && w'.batches == if row.completed != |row.items| then w.batches
                       else w.batches[b := row.(status := if row.succeeded == |row.items| then BatchCompleted
                                                          else if row.succeeded == 0 then BatchFailed
                                                          else BatchPartial)]
  {
  }

  // ----- One item -----

  /** How an item ends, by what is stored and what the gateway says. */
  predicate EndsAs(t: Tables, jobId: string, item: BatchItem, gateway: Gateway, state: ItemState) {
    if !Belongs(t, jobId, item.itemId) then state == Fallback
    else
      var payload := t.items[item.itemId].payload;
      if !Loadable(payload) then state == Fallback
      else if payload.revision != item.expected then state == Conflict
      else if gateway(payload) == None then state == Fallback
      else if gateway(payload).value.observation == "" || gateway(payload).value.recommendation == "" then
        state == Conflict
      else state == Drafted
  }

  lemma OutcomeMeans(t: Tables, jobId: string, item: BatchItem, gateway: Gateway)
    ensures EndsAs(t, jobId, item, gateway, Outcome(t, jobId, item, gateway))
  {
    hide Loadable;
  }

  /** The worker has item k of batch b in the given stage. */
  predicate Has(w: World, worker: string, b: nat, k: nat, stage: Stage) {
    && worker in w.procs && w.procs[worker].Busy? && w.procs[worker].batch == b && b in w.batches
    && k < |w.batches[b].items| && k in w.procs[worker].flight && w.procs[worker].flight[k] == stage
  }

  /** Only the stage of the worker's item differs. */
  predicate Staged(w: World, w': World, worker: string, k: nat) {
    && worker in w.procs && w.procs[worker].Busy? && worker in w'.procs && w'.procs[worker].Busy?
    && k in w'.procs[worker].flight
    && w' == w.(procs := w.procs[worker :=
         w.procs[worker].(flight := w.procs[worker].flight[k := w'.procs[worker].flight[k]])])
  }

  /** What the look decides. */
  predicate Seen(t: Tables, jobId: string, item: BatchItem, stage: Stage) {
    if !Belongs(t, jobId, item.itemId) || !Loadable(t.items[item.itemId].payload) then stage == ToRecord(Fallback)
    else if t.items[item.itemId].payload.revision != item.expected then stage == ToRecord(Conflict)
    else stage == Stage.Checked
  }

  lemma LookIsStep(w: World, worker: string, b: nat, k: nat)
    requires Has(w, worker, b, k, Untouched)
    ensures var w' := Next(w, Look(worker, k));
      && Staged(w, w', worker, k)
      && Seen(w.tables, w.batches[b].jobId, w.batches[b].items[k], w'.procs[worker].flight[k])
  {
    hide Loadable;
  }

  lemma NoDraftIsStep(w: World, worker: string, b: nat, k: nat)
    requires Has(w, worker, b, k, Stage.Checked)
    ensures var w' := Next(w, NoDraft(worker, k));
      Staged(w, w', worker, k) && w'.procs[worker].flight[k] == ToRecord(Fallback)
  {
  }

  /** Writing the draft: what the transition of the store does, recorded as a write when it is accepted. */
  lemma WriteIsStep(w: World, worker: string, b: nat, k: nat, o: string, r: string, actor: string)
    requires Has(w, worker, b, k, Stage.Checked)
    ensures var w', item := Next(w, WriteDraft(worker, k, o, r, actor)), w.batches[b].items[k];
      var req := Request(DraftAction, Some(o), Some(r));
      var accepted := SectionPersistence.Checked(w.tables, w.batches[b].jobId, item.itemId, item.expected, req, actor);
      && w'.tables == Transitioned(w.tables, w.batches[b].jobId, item.itemId, item.expected, req, actor)
      && w'.writes == w.writes + (if accepted.Ok? then [DraftWrite(b, k, item.itemId, item.expected)] else [])
      && Staged(w.(tables := w'.tables, writes := w'.writes), w', worker, k)
      && w'.procs[worker].flight[k] == ToRecord(if accepted.Ok? then Drafted else Conflict)
  {
    hide SectionPersistence.Checked;
    if SectionPersistence.Checked(w.tables, w.batches[b].jobId, w.batches[b].items[k].itemId,
                                  w.batches[b].items[k].expected, DraftRequest(o, r), actor).Err? {
      assert w.writes + [] == w.writes;
    }
  }

  lemma RecordIsStep(w: World, worker: string, b: nat, k: nat, state: ItemState, now: int)
    requires Has(w, worker, b, k, ToRecord(state)) && Terminal(state)
    ensures var w' := Next(w, RecordItem(worker, k, now));
      && w'.batches == w.batches[b := Finished(w.batches[b], k, state, now)]
      && Staged(w.(batches := w'.batches), w', worker, k) && w'.procs[worker].flight[k] == Recorded
  {
    hide Finished;
  }

  /** The middle step: the draft of the gateway, or none. */
  function Ask(w: World, worker: string, b: nat, k: nat, gateway: Gateway, actor: string): Step
    requires Has(w, worker, b, k, Stage.Checked) && w.batches[b].items[k].itemId in w.tables.items
  {
    var draft := gateway(w.tables.items[w.batches[b].items[k].itemId].payload);
    if draft.None? then NoDraft(worker, k)
    else WriteDraft(worker, k, draft.value.observation, draft.value.recommendation, actor)
  }

  /**
   * Without interference, looking and asking lead to the outcome of process_item: after the look, or after the step
   * that asks the gateway, the item waits to be recorded with that outcome.
   */
  lemma ItemIsThreeSteps(w: World, worker: string, b: nat, k: nat, gateway: Gateway, actor: string, now: int)
    requires SectionPersistence.Inv(w.tables) && Has(w, worker, b, k, Untouched) && Strip(actor) != []
    ensures var w1 := Next(w, Look(worker, k));
      var outcome := Outcome(w.tables, w.batches[b].jobId, w.batches[b].items[k], gateway);
      && Terminal(outcome)
      && (Has(w1, worker, b, k, ToRecord(outcome)) ||
          (Has(w1, worker, b, k, Stage.Checked) && w1.batches[b].items[k].itemId in w1.tables.items
           && Has(Next(w1, Ask(w1, worker, b, k, gateway, actor)), worker, b, k, ToRecord(outcome))))
  {
    var t, jobId, item := w.tables, w.batches[b].jobId, w.batches[b].items[k];
    LookIsStep(w, worker, b, k);
    OutcomeTerminal(t, jobId, item, gateway);
    EarlyOutcome(t, jobId, item, gateway);
    hide Next, Outcome, Loadable, SectionPersistence.Inv, SectionPersistence.Checked, Strip, Transitioned;
    var w1 := Next(w, Look(worker, k));
    if Has(w1, worker, b, k, Stage.Checked) {
      var draft := gateway(t.items[item.itemId].payload);
      if draft.None? {
        NoDraftIsStep(w1, worker, b, k);
      } else {
        WriteIsStep(w1, worker, b, k, draft.value.observation, draft.value.recommendation, actor);
        if Outcome(t, jobId, item, gateway) == Drafted {
          DraftApplied(t, jobId, item, gateway, actor);
        } else {
          DraftRefused(t, jobId, item, gateway, actor);
        }
      }
    }
  }
}
