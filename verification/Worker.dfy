/** One worker's pass over a claimed batch and the drain loop that repeats it (worker.py). */
module Worker {
  import opened Common
  import opened SectionWorkflow
  import opened SectionPersistence
  import opened SectionStore
  import opened AiBatch
  import opened AiBatchRuns
  import opened BatchStore

  /** What the model call returns for an item: any draft, or none. */
  type Gateway = Item -> Option<Text>

  datatype Models = Models(text: string, vision: string)

  function DraftActor(models: Models, item: Item): string {
    "ai:ollama:" + if item.facts.media.Some? then models.vision else models.text
  }

  lemma DraftActorNamed(models: Models, item: Item)
    ensures Strip(DraftActor(models, item)) != []
  {
    hide Strip;
    assert DraftActor(models, item)[0] == 'a';
    NotBlank(DraftActor(models, item), 0);
  }

  // ----- One item, in isolation -----

  /** How a pass ends for one item: from the stored item alone, before anything in the batch is written. */
  function Outcome(t: Tables, jobId: string, item: BatchItem, gateway: Gateway): ItemState {
    match LookStage(t, jobId, item)
    case ToRecord(state) => state
    case _ =>
      if !HasItem(t, jobId, item.itemId) then Fallback
      else
        var payload := t.items[item.itemId].payload;
        var draft := gateway(payload);
        if draft.None? then Fallback
        else if Advance(payload, DraftRequest(draft.value.observation, draft.value.recommendation)).Err? then Conflict
        else Drafted
  }

  lemma OutcomeDrafted(t: Tables, jobId: string, item: BatchItem, gateway: Gateway)
    requires Outcome(t, jobId, item, gateway) == Drafted
    ensures HasItem(t, jobId, item.itemId) && gateway(t.items[item.itemId].payload).Some?
    ensures var payload := t.items[item.itemId].payload; var draft := gateway(payload).value;
      Advance(payload, DraftRequest(draft.observation, draft.recommendation))
      == Ok(AttachAiDraft(payload, draft.observation, draft.recommendation))
  {
  }

  lemma OutcomeTerminal(t: Tables, jobId: string, item: BatchItem, gateway: Gateway)
    ensures Terminal(Outcome(t, jobId, item, gateway))
  {
  }

  /** The payload a pass leaves in the section tables for one of its items. */
  function PayloadAfter(t: Tables, jobId: string, item: BatchItem, gateway: Gateway): Item
    requires item.itemId in t.items
  {
    var payload := t.items[item.itemId].payload;
    if Outcome(t, jobId, item, gateway) != Drafted then payload
    else
      OutcomeDrafted(t, jobId, item, gateway);
      AttachAiDraft(payload, gateway(payload).value.observation, gateway(payload).value.recommendation)
  }

  /** An outcome depends on the item's own row only. */
  lemma OutcomeLocal(t: Tables, t': Tables, jobId: string, item: BatchItem, gateway: Gateway)
    requires HasItem(t', jobId, item.itemId) <==> HasItem(t, jobId, item.itemId)
    requires HasItem(t, jobId, item.itemId) ==> t'.items[item.itemId].payload == t.items[item.itemId].payload
    ensures Outcome(t', jobId, item, gateway) == Outcome(t, jobId, item, gateway)
  {
  }

  // ----- A pass over several items -----

  function ItemAfter(t: Tables, b: Batch, k: nat, done: bool, gateway: Gateway): BatchItem
    requires k < |b.items|
  {
    if done then b.items[k].(state := Outcome(t, b.jobId, b.items[k], gateway)) else b.items[k]
  }

  ghost predicate DistinctBatchItems(items: seq<BatchItem>) {
    forall i, j :: 0 <= i < j < |items| ==> items[i].itemId != items[j].itemId
  }

  /** Nothing moved between jobs, appeared or disappeared, and histories only grew. */
  ghost predicate SameOwners(t: Tables, t': Tables) {
    && t'.items.Keys == t.items.Keys
    && (forall jobId, id :: HasItem(t', jobId, id) <==> HasItem(t, jobId, id))
    && Extends(t, t')
  }

  /** What processing one batch item does to the section tables. */
  ghost predicate ItemStep(t: Tables, t': Tables, jobId: string, item: BatchItem, gateway: Gateway) {
    && SameOwners(t, t')
    && (item.itemId in t.items ==> t'.items[item.itemId].payload == PayloadAfter(t, jobId, item, gateway))
    && (forall id :: id in t.items && id != item.itemId ==> t'.items[id] == t.items[id])
  }

  /** The batch items of done are in the state their outcome says, the others as before. */
  ghost predicate RowsPassed(t: Tables, b: Batch, b': Batch, done: set<nat>, gateway: Gateway) {
    && |b'.items| == |b.items| && b'.jobId == b.jobId && b'.status == b.status
    && (forall k :: 0 <= k < |b.items| ==> b'.items[k] == ItemAfter(t, b, k, k in done, gateway))
  }

  /** The section items of done hold the drafts attached to them. */
  ghost predicate DraftsPassed(t: Tables, b: Batch, t': Tables, done: set<nat>, gateway: Gateway)
    requires t'.items.Keys == t.items.Keys
  {
    forall k :: 0 <= k < |b.items| && k in done && b.items[k].itemId in t.items ==>
      t'.items[b.items[k].itemId].payload == PayloadAfter(t, b.jobId, b.items[k], gateway)
  }

  ghost predicate Touched(b: Batch, done: set<nat>, id: nat) {
    exists k :: 0 <= k < |b.items| && k in done && b.items[k].itemId == id
  }

  /** No other section item changed. */
  ghost predicate OthersKept(t: Tables, b: Batch, t': Tables, done: set<nat>)
    requires t'.items.Keys == t.items.Keys
  {
    forall id :: id in t.items && !Touched(b, done, id) ==> t'.items[id] == t.items[id]
  }

  /** The state of a pass after the ordinals of done. */
  ghost predicate PassState(t: Tables, b: Batch, t': Tables, b': Batch, done: set<nat>, gateway: Gateway) {
    && SameOwners(t, t')
    && RowsPassed(t, b, b', done, gateway) && DraftsPassed(t, b, t', done, gateway) && OthersKept(t, b, t', done)
  }

  lemma PassStart(t: Tables, b: Batch, gateway: Gateway)
    ensures PassState(t, b, t, b, {}, gateway)
  {
  }

  /** What the transition of a drafted outcome does to the tables. */
  lemma {:induction false} DraftApplied(t: Tables, jobId: string, item: BatchItem, gateway: Gateway, actor: string)
    requires SectionPersistence.Inv(t) && Strip(actor) != [] && Outcome(t, jobId, item, gateway) == Drafted
    ensures HasItem(t, jobId, item.itemId) && gateway(t.items[item.itemId].payload).Some?
    ensures var draft := gateway(t.items[item.itemId].payload).value;
      var req := DraftRequest(draft.observation, draft.recommendation);
      var t' := Transitioned(t, jobId, item.itemId, item.expected, req, actor);
      && SectionPersistence.Checked(t, jobId, item.itemId, item.expected, req, actor).Ok?
      && SectionPersistence.Inv(t') && ItemStep(t, t', jobId, item, gateway)
  {
    hide SectionPersistence.Inv, Outcome, Advance, Strip, SectionPersistence.Checked, Transitioned, HasItem, Extends,
      PayloadAfter, DraftRequest;
    DraftedPayload(t, jobId, item, gateway);
    ExpectedIsCurrent(t, jobId, item, gateway);
    var draft := gateway(t.items[item.itemId].payload).value;
    var req := DraftRequest(draft.observation, draft.recommendation);
    WriteApplied(t, jobId, item.itemId, req, actor);
    TransitionedInv(t, jobId, item.itemId, item.expected, req, actor);
    TransitionExtends(t, jobId, item.itemId, item.expected, req, actor);
  }

  /** A drafted outcome leaves what the accepted draft request leaves. */
  lemma DraftedPayload(t: Tables, jobId: string, item: BatchItem, gateway: Gateway)
    requires Outcome(t, jobId, item, gateway) == Drafted
    ensures HasItem(t, jobId, item.itemId) && gateway(t.items[item.itemId].payload).Some?
    ensures var draft := gateway(t.items[item.itemId].payload).value;
      Advance(t.items[item.itemId].payload, DraftRequest(draft.observation, draft.recommendation))
      == Ok(PayloadAfter(t, jobId, item, gateway))
  {
    OutcomeDrafted(t, jobId, item, gateway);
    hide Outcome, Advance;
  }

  /** Any other outcome leaves the tables alone. */
  lemma NothingWritten(t: Tables, jobId: string, item: BatchItem, gateway: Gateway)
    requires Outcome(t, jobId, item, gateway) != Drafted
    ensures ItemStep(t, t, jobId, item, gateway)
  {
    hide Outcome, HasItem;
  }

  /** An accepted request changes one payload and moves no item to another job. */
  lemma WriteApplied(t: Tables, jobId: string, id: nat, req: Request, actor: string)
    requires HasItem(t, jobId, id) && Strip(actor) != []
    requires Advance(t.items[id].payload, req).Ok?
    ensures var e := t.items[id].currentRevision; var t' := Transitioned(t, jobId, id, e, req, actor);
      && SectionPersistence.Checked(t, jobId, id, e, req, actor).Ok?
      && t'.items.Keys == t.items.Keys
      && (forall job, other :: HasItem(t', job, other) <==> HasItem(t, job, other))
      && t'.items[id].payload == Advance(t.items[id].payload, req).value
      && (forall other :: other in t.items && other != id ==> t'.items[other] == t.items[other])
  {
    AcceptedWrite(t, jobId, id, req, actor);
    hide Advance, Strip, SectionPersistence.Checked, Transitioned, Written;
    WriteFrame(t, id, Advance(t.items[id].payload, req).value, req, actor);
  }

  lemma ExpectedIsCurrent(t: Tables, jobId: string, item: BatchItem, gateway: Gateway)
    requires SectionPersistence.Inv(t) && Outcome(t, jobId, item, gateway) == Drafted
    ensures HasItem(t, jobId, item.itemId) && t.items[item.itemId].currentRevision == item.expected
  {
    OutcomeDrafted(t, jobId, item, gateway);
    assert ItemOk(t, item.itemId);
  }

  lemma DraftRefused(t: Tables, jobId: string, item: BatchItem, gateway: Gateway, actor: string)
    requires SectionPersistence.Inv(t) && LookStage(t, jobId, item) == Stage.Checked
    requires HasItem(t, jobId, item.itemId) && gateway(t.items[item.itemId].payload).Some?
    requires Outcome(t, jobId, item, gateway) != Drafted
    ensures var draft := gateway(t.items[item.itemId].payload).value;
      var req := DraftRequest(draft.observation, draft.recommendation);
      SectionPersistence.Checked(t, jobId, item.itemId, item.expected, req, actor).Err?
    ensures Outcome(t, jobId, item, gateway) == Conflict
  {
  }

  lemma SameOwnersTransitive(t: Tables, t1: Tables, t2: Tables)
    requires SameOwners(t, t1) && SameOwners(t1, t2)
    ensures SameOwners(t, t2)
  {
    hide HasItem;
    forall id
      ensures History(t.revisions, id) <= History(t2.revisions, id)
    {
      assert History(t.revisions, id) <= History(t1.revisions, id) <= History(t2.revisions, id);
    }
  }

  lemma OwnersAt(t: Tables, t': Tables, jobId: string, id: nat)
    requires SameOwners(t, t')
    ensures t'.items.Keys == t.items.Keys && (HasItem(t', jobId, id) <==> HasItem(t, jobId, id))
  {
  }

  lemma ItemStepOwners(t: Tables, t': Tables, jobId: string, item: BatchItem, gateway: Gateway)
    requires ItemStep(t, t', jobId, item, gateway)
    ensures SameOwners(t, t') && t'.items.Keys == t.items.Keys
  {
  }

  /** An item not processed yet is as it was at the start of the pass, and so is its outcome. */
  lemma NotYet(t: Tables, b: Batch, t1: Tables, b1: Batch, done: set<nat>, k: nat, gateway: Gateway)
    requires PassState(t, b, t1, b1, done, gateway) && DistinctBatchItems(b.items) && k < |b.items| && k !in done
    ensures t1.items.Keys == t.items.Keys && b1.items[k] == b.items[k]
    ensures b.items[k].itemId in t.items ==> t1.items[b.items[k].itemId] == t.items[b.items[k].itemId]
    ensures Outcome(t1, b.jobId, b.items[k], gateway) == Outcome(t, b.jobId, b.items[k], gateway)
    ensures b.items[k].itemId in t.items ==>
      PayloadAfter(t1, b.jobId, b.items[k], gateway) == PayloadAfter(t, b.jobId, b.items[k], gateway)
  {
    OwnersAt(t, t1, b.jobId, b.items[k].itemId);
    hide SameOwners, HasItem, Outcome, DraftsPassed;
    assert !Touched(b, done, b.items[k].itemId);
    OutcomeLocal(t, t1, b.jobId, b.items[k], gateway);
  }

  lemma TouchedMore(b: Batch, done: set<nat>, k: nat, id: nat)
    requires k < |b.items|
    ensures Touched(b, done + {k}, id) <==> Touched(b, done, id) || b.items[k].itemId == id
  {
  }

  lemma TablesStep(t: Tables, b: Batch, t1: Tables, t2: Tables, done: set<nat>, k: nat, gateway: Gateway)
    requires t1.items.Keys == t.items.Keys && t2.items.Keys == t.items.Keys
    requires DraftsPassed(t, b, t1, done, gateway) && OthersKept(t, b, t1, done) && DistinctBatchItems(b.items)
    requires k < |b.items| && k !in done
    requires b.items[k].itemId in t.items ==>
      t2.items[b.items[k].itemId].payload == PayloadAfter(t, b.jobId, b.items[k], gateway)
    requires forall id :: id in t1.items && id != b.items[k].itemId ==> t2.items[id] == t1.items[id]
    ensures DraftsPassed(t, b, t2, done + {k}, gateway) && OthersKept(t, b, t2, done + {k})
  {
    hide PayloadAfter, Touched;
    forall id
      ensures Touched(b, done + {k}, id) <==> Touched(b, done, id) || b.items[k].itemId == id
    {
      TouchedMore(b, done, k, id);
    }
  }

  lemma {:induction false} PassStep(
      t: Tables, b: Batch, t1: Tables, b1: Batch, t2: Tables, done: set<nat>, k: nat, gateway: Gateway, now: int)
    requires PassState(t, b, t1, b1, done, gateway) && DistinctBatchItems(b.items)
    requires k < |b.items| && k !in done
    requires ItemStep(t1, t2, b.jobId, b1.items[k], gateway)
    ensures Terminal(Outcome(t1, b.jobId, b1.items[k], gateway))
    ensures PassState(t, b, t2, Finished(b1, k, Outcome(t1, b.jobId, b1.items[k], gateway), now), done + {k}, gateway)
  {
    hide HasItem, Outcome, SameOwners, PayloadAfter, DraftsPassed, OthersKept, DistinctBatchItems;
    NotYet(t, b, t1, b1, done, k, gateway);
    ItemStepOwners(t1, t2, b.jobId, b1.items[k], gateway);
    SameOwnersTransitive(t, t1, t2);
    OutcomeTerminal(t1, b.jobId, b1.items[k], gateway);
    TablesStep(t, b, t1, t2, done, k, gateway);
  }

  datatype PassResult = NoBatch | Done(batch: nat) | Raised(batch: nat, error: Error)

  /** Everything the loops rely on: consistent sections, and one batch with exact counters and distinct items. */
  ghost predicate Ready(store: AIDraftBatchStore, b: nat)
    reads store, store.sections
  {
    && SectionPersistence.Inv(store.sections.Abs())
    && b in store.batches && CountersExact(store.batches[b]) && DistinctBatchItems(store.batches[b].items)
  }

  /** What process_item does to a waiting item of a batch, and to the tables. */
  ghost predicate Processed(t: Tables, row: Batch, t': Tables, row': Batch, k: nat, gateway: Gateway, now: int)
    requires k < |row.items|
  {
    && Terminal(Outcome(t, row.jobId, row.items[k], gateway))
    && row' == Finished(row, k, Outcome(t, row.jobId, row.items[k], gateway), now)
    && ItemStep(t, t', row.jobId, row.items[k], gateway)
  }

  /**
   * The log has one more revision, that of the item drafted: it follows the expected one, holds the text of the
   * gateway as an AI draft, and names the model that was asked, the vision model for an item with media.
   */
  predicate DraftLogged(t: Tables, t': Tables, queued: BatchItem, gateway: Gateway, models: Models) {
    && queued.itemId in t.items && gateway(t.items[queued.itemId].payload).Some?
    && |t'.revisions| == |t.revisions| + 1 && t.revisions <= t'.revisions
    && var item, draft, row := t.items[queued.itemId].payload, gateway(t.items[queued.itemId].payload).value,
                               t'.revisions[|t.revisions|];
       && row.itemId == queued.itemId && row.revision == queued.expected + 1 && row.action == AiDrafted
       && row.payload.aiDraft == Some(Narrative(AiSource, draft.observation, draft.recommendation))
       && row.actor == Strip("ai:ollama:" + (if item.facts.media == None then models.text else models.vision))
  }

  /**
   * process_item: look, generate, write, record. queued is the item as the claim handed it out; one that was terminal
   * already is left alone.
   */
  method ProcessItem(store: AIDraftBatchStore, b: nat, k: nat, queued: BatchItem, gateway: Gateway, models: Models,
      now: int)
    requires Ready(store, b) && k < |store.batches[b].items|
    requires queued.itemId == store.batches[b].items[k].itemId && queued.expected == store.batches[b].items[k].expected
    modifies store`batches, store.sections
    ensures SectionPersistence.Inv(store.sections.Abs())
    ensures b in store.batches && store.batches == old(store.batches)[b := store.batches[b]]
    ensures Terminal(queued.state) ==>
      store.batches == old(store.batches) && store.sections.Abs() == old(store.sections.Abs())
    ensures !Terminal(queued.state) ==> Processed(old(store.sections.Abs()), old(store.batches)[b],
                                                  store.sections.Abs(), store.batches[b], k, gateway, now)
    ensures Terminal(queued.state) || store.batches[b].items[k].state != Drafted ==>
      store.sections.Abs() == old(store.sections.Abs())
    ensures !Terminal(queued.state) && store.batches[b].items[k].state == Drafted ==>
      DraftLogged(old(store.sections.Abs()), store.sections.Abs(), queued, gateway, models)
  {
    hide ItemStep, SameOwners, PayloadAfter, SectionPersistence.Inv, Outcome, Advance, Strip, LookStage, Loadable;
    if queued.state == Drafted || queued.state == Fallback || queued.state == Conflict {
      return;
    }
    var jobId := store.batches[b].jobId;
    ghost var t, item := store.sections.Abs(), store.batches[b].items[k];
    OutcomeTerminal(t, jobId, item, gateway);
    if Outcome(t, jobId, item, gateway) != Drafted {
      NothingWritten(t, jobId, item, gateway);
    }
    EarlyOutcome(t, jobId, item, gateway);
    var got := store.sections.GetItem(jobId, queued.itemId);
    if got.Err? {
      store.FinishItem(b, k, Fallback, now);
      return;
    }
    if got.value.revision != queued.expected {
      store.FinishItem(b, k, Conflict, now);
      return;
    }
    var draft := gateway(got.value);
    if draft.None? {
      store.FinishItem(b, k, Fallback, now);
      return;
    }
    DraftActorNamed(models, got.value);
    if Outcome(t, jobId, item, gateway) == Drafted {
      DraftApplied(t, jobId, item, gateway, DraftActor(models, got.value));
    } else {
      DraftRefused(t, jobId, item, gateway, DraftActor(models, got.value));
    }
    var written := store.sections.Transition(jobId, queued.itemId, queued.expected,
                                             DraftRequest(draft.value.observation, draft.value.recommendation),
                                             DraftActor(models, got.value));
    if written.Ok? {
      DraftEdit(got.value, DraftRequest(draft.value.observation, draft.value.recommendation), written.value);
    }
    store.FinishItem(b, k, if written.Ok? then Drafted else Conflict, now);
  }

  lemma DraftEdit(item: Item, req: Request, changed: Item)
    requires EditOf(item, req, changed) && req.action == DraftAction
    ensures req.observation.Some? && req.recommendation.Some?
    ensures changed.revision == item.revision + 1 && changed.workflowStatus == AiDrafted
    ensures changed.aiDraft == Some(Narrative(AiSource, req.observation.value, req.recommendation.value))
  {
  }

  /** How the outcome follows from reading the item and asking for a draft. */
  lemma EarlyOutcome(t: Tables, jobId: string, item: BatchItem, gateway: Gateway)
    ensures !HasItem(t, jobId, item.itemId) ==> Outcome(t, jobId, item, gateway) == Fallback
    ensures HasItem(t, jobId, item.itemId) ==> var payload := t.items[item.itemId].payload;
      var outcome := Outcome(t, jobId, item, gateway);
      && (!Loadable(payload) ==> outcome == Fallback)
      && (Loadable(payload) && payload.revision != item.expected ==> outcome == Conflict)
      && (Loadable(payload) && payload.revision == item.expected ==>
            LookStage(t, jobId, item) == Stage.Checked && (gateway(payload).None? ==> outcome == Fallback))
  {
    hide Loadable, Advance;
  }

  ghost function Ordinals(list: seq<nat>): set<nat> {
    set k | k in list
  }

  /** The given ordinals are waiting, none twice. */
  ghost predicate WaitingList(b: Batch, list: seq<nat>) {
    && (forall i :: 0 <= i < |list| ==> list[i] < |b.items| && b.items[list[i]].state == Waiting)
    && (forall i, j :: 0 <= i < j < |list| ==> list[i] != list[j])
  }

  /** An ordinal not processed yet still waits, and recording it keeps the batch in order. */
  lemma NextWaits(t: Tables, start: Batch, t1: Tables, b1: Batch, done: set<nat>, list: seq<nat>, i: nat,
                  gateway: Gateway, now: int)
    requires PassState(t, start, t1, b1, done, gateway) && WaitingList(start, list) && i < |list| && list[i] !in done
    requires CountersExact(b1) && DistinctBatchItems(b1.items)
    ensures list[i] < |b1.items| && b1.items[list[i]] == start.items[list[i]] && b1.jobId == start.jobId
    ensures forall state :: Terminal(state) ==> CountersExact(Finished(b1, list[i], state, now))
    ensures forall state :: Terminal(state) ==> DistinctBatchItems(Finished(b1, list[i], state, now).items)
  {
    forall state | Terminal(state)
      ensures CountersExact(Finished(b1, list[i], state, now))
    {
      FinishKeepsExact(b1, list[i], state, now);
    }
  }

  lemma OrdinalsGrow(list: seq<nat>, i: nat)
    requires i < |list| && forall i, j :: 0 <= i < j < |list| ==> list[i] != list[j]
    ensures Ordinals(list[..i + 1]) == Ordinals(list[..i]) + {list[i]}
    ensures list[i] !in Ordinals(list[..i]) && list[i] in Ordinals(list)
  {
    assert list[..i + 1] == list[..i] + [list[i]];
  }

  /** The sequential loop over text items, and the pool over image items taken one at a time. */
  method ProcessList(store: AIDraftBatchStore, b: nat, list: seq<nat>, gateway: Gateway, models: Models, now: int,
                     ghost t: Tables, ghost start: Batch, ghost before: set<nat>)
    requires Ready(store, b) && DistinctBatchItems(start.items) && WaitingList(start, list)
    requires PassState(t, start, store.sections.Abs(), store.batches[b], before, gateway)
    requires Ordinals(list) !! before
    modifies store`batches, store.sections
    ensures Ready(store, b)
    ensures PassState(t, start, store.sections.Abs(), store.batches[b], before + Ordinals(list), gateway)
    ensures store.batches == old(store.batches)[b := store.batches[b]]
  {
    hide SectionPersistence.Inv, PassState, CountersExact, Outcome, HasItem, PayloadAfter, Finished, DistinctBatchItems,
      Ordinals, ItemStep, Processed, DraftLogged;
    ghost var done, rows := before, store.batches;
    var i := 0;
    assert Ordinals(list[..0]) == {} by {
      EmptyOrdinals(list[..0]);
    }
    while i < |list|
      invariant 0 <= i <= |list|
      invariant Ready(store, b) && store.batches == rows[b := store.batches[b]]
      invariant PassState(t, start, store.sections.Abs(), store.batches[b], done, gateway)
      invariant done == before + Ordinals(list[..i])
    {
      ghost var t1, b1 := store.sections.Abs(), store.batches[b];
      OrdinalsGrow(list, i);
      NextWaits(t, start, t1, b1, done, list, i, gateway, now);
      ProcessItem(store, b, list[i], store.batches[b].items[list[i]], gateway, models, now);
      ProcessedFacts(t1, b1, store.sections.Abs(), store.batches[b], list[i], gateway, now);
      PassStep(t, start, t1, b1, store.sections.Abs(), done, list[i], gateway, now);
      done := done + {list[i]};
      i := i + 1;
    }
    assert list[..i] == list;
  }

  lemma ProcessedFacts(t: Tables, row: Batch, t': Tables, row': Batch, k: nat, gateway: Gateway, now: int)
    requires k < |row.items| && Processed(t, row, t', row', k, gateway, now)
    ensures Terminal(Outcome(t, row.jobId, row.items[k], gateway))
    ensures row' == Finished(row, k, Outcome(t, row.jobId, row.items[k], gateway), now)
    ensures ItemStep(t, t', row.jobId, row.items[k], gateway)
  {
  }

  lemma EmptyOrdinals(list: seq<nat>)
    requires list == []
    ensures Ordinals(list) == {}
  {
  }
}
