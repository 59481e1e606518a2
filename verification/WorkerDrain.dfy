/** run_ai_batch_once and the loop that repeats it until the delivery batches are done (worker.py). */
module WorkerDrain {
  import opened Common
  import opened SectionWorkflow
  import opened SectionPersistence
  import opened SectionStore
  import opened AiBatch
  import A = AiBatchRuns
  import opened BatchStore
  import opened Worker

  predicate Readable(t: Tables, jobId: string, id: nat) {
    HasItem(t, jobId, id) && Loadable(t.items[id].payload)
  }

  /** Why get_item fails for an item. */
  function ReadError(t: Tables, jobId: string, id: nat): Error {
    if HasItem(t, jobId, id) then InvalidPayload else NotFound
  }

  /** A waiting item of the batch cannot be read, with this error. */
  ghost predicate RaisedBy(t: Tables, b: Batch, error: Error) {
    exists k :: 0 <= k < |b.items| && b.items[k].state == Waiting && !Readable(t, b.jobId, b.items[k].itemId)
      && error == ReadError(t, b.jobId, b.items[k].itemId)
  }

  ghost predicate AllReadable(t: Tables, b: Batch) {
    forall k :: 0 <= k < |b.items| && b.items[k].state == Waiting ==> Readable(t, b.jobId, b.items[k].itemId)
  }

  ghost function WaitingOrdinals(b: Batch): set<nat> {
    set k: nat | k < |b.items| && b.items[k].state == Waiting
  }

  ghost predicate CountersInOrder(batches: map<nat, Batch>) {
    forall b :: b in batches ==> CountersExact(batches[b]) && DistinctBatchItems(batches[b].items)
  }

  ghost function QueuedBatches(batches: map<nat, Batch>): set<nat> {
    set b | b in batches && batches[b].status == BatchQueued
  }

  // ----- What stays readable -----

  /** Every batch asks for revisions that were draftable: what every run of batches and edits keeps. */
  ghost predicate Asked(t: Tables, batches: map<nat, Batch>) {
    forall b :: b in batches ==> A.BatchOk(t, batches[b])
  }

  ghost predicate StaysReadable(t: Tables, t': Tables) {
    forall jobId, id :: Readable(t, jobId, id) ==> Readable(t', jobId, id)
  }

  /** Attaching a draft to a loadable item that is neither reviewed nor approved leaves it loadable. */
  lemma DraftLoads(item: Item, observation: string, recommendation: string)
    requires Loadable(item) && Draftable(item.workflowStatus) && observation != [] && recommendation != []
    ensures Loadable(AttachAiDraft(item, observation, recommendation))
  {
  }

  /** The current revision of an item is draftable when it is one that was draftable. */
  lemma CurrentDraftable(t: Tables, id: nat, expected: int)
    requires SectionPersistence.Inv(t) && id in t.items && t.items[id].currentRevision == expected
    requires A.WasDraftable(t, id, expected)
    ensures Draftable(t.items[id].payload.workflowStatus)
  {
    assert ItemOk(t, id);
    hide Chain, History;
  }

  lemma OutcomeKeepsLoadable(t: Tables, jobId: string, item: BatchItem, gateway: Gateway)
    requires SectionPersistence.Inv(t) && A.WasDraftable(t, item.itemId, item.expected)
    requires item.itemId in t.items && Loadable(t.items[item.itemId].payload)
    ensures Loadable(PayloadAfter(t, jobId, item, gateway))
  {
    hide SectionPersistence.Inv, Loadable, A.WasDraftable, HasItem;
    if Outcome(t, jobId, item, gateway) == Drafted {
      ExpectedIsCurrent(t, jobId, item, gateway);
      CurrentDraftable(t, item.itemId, item.expected);
      DraftedText(t, jobId, item, gateway);
      var draft := gateway(t.items[item.itemId].payload).value;
      DraftLoads(t.items[item.itemId].payload, draft.observation, draft.recommendation);
    }
  }

  lemma DraftedText(t: Tables, jobId: string, item: BatchItem, gateway: Gateway)
    requires Outcome(t, jobId, item, gateway) == Drafted
    ensures HasItem(t, jobId, item.itemId) && gateway(t.items[item.itemId].payload).Some?
    ensures var draft := gateway(t.items[item.itemId].payload).value;
      draft.observation != [] && draft.recommendation != []
    ensures var draft := gateway(t.items[item.itemId].payload).value;
      PayloadAfter(t, jobId, item, gateway)
      == AttachAiDraft(t.items[item.itemId].payload, draft.observation, draft.recommendation)
  {
  }

  /** A pass leaves every readable item readable. */
  lemma PassKeepsReadable(t: Tables, b: Batch, t': Tables, b': Batch, done: set<nat>, gateway: Gateway)
    requires SectionPersistence.Inv(t) && A.BatchOk(t, b) && PassState(t, b, t', b', done, gateway)
    ensures StaysReadable(t, t')
  {
    hide SectionPersistence.Inv, Loadable, HasItem, A.WasDraftable, PayloadAfter, RowsPassed, A.Extends;
    forall jobId, id | Readable(t, jobId, id)
      ensures Readable(t', jobId, id)
    {
      OwnersAt(t, t', jobId, id);
      ReadableItem(t, jobId, id);
      if Touched(b, done, id) {
        var k :| 0 <= k < |b.items| && k in done && b.items[k].itemId == id;
        OutcomeKeepsLoadable(t, b.jobId, b.items[k], gateway);
      }
    }
  }

  lemma ReadableItem(t: Tables, jobId: string, id: nat)
    requires Readable(t, jobId, id)
    ensures id in t.items
  {
  }

  /** What batches ask for stays in order while histories grow and no batch changes its demands. */
  lemma AskedKept(t: Tables, t': Tables, before: map<nat, Batch>, batches: map<nat, Batch>, b: nat)
    requires Asked(t, before) && A.Extends(t, t')
    requires b in before && b in batches && batches == before[b := batches[b]] && A.SameDemands(before[b], batches[b])
    ensures Asked(t', batches)
  {
    hide A.Extends, A.WasDraftable;
    forall x | x in batches
      ensures A.BatchOk(t', batches[x])
    {
      assert A.BatchOk(t, before[x]);
      forall k | 0 <= k < |batches[x].items|
        ensures A.WasDraftable(t', batches[x].items[k].itemId, batches[x].items[k].expected)
      {
        A.ExtendsKeeps(t, t', batches[x].items[k].itemId, batches[x].items[k].expected);
      }
    }
  }

  /** Every run of creations, claims, crashes, recoveries and edits leaves batches that ask for draftable revisions. */
  lemma ReachableAsked(steps: seq<A.Step>)
    requires A.FromBuilders(steps)
    ensures SectionPersistence.Inv(A.Run(steps).tables) && Asked(A.Run(steps).tables, A.Run(steps).batches)
  {
    A.RunInv(steps);
    hide A.Run, SectionPersistence.Inv, A.BatchOk;
  }

  /** A pass keeps the demands of its batch, extends the histories and keeps readable items readable. */
  ghost predicate PassSafe(t: Tables, before: map<nat, Batch>, t': Tables, batches: map<nat, Batch>) {
    Asked(t, before) ==> Asked(t', batches) && StaysReadable(t, t')
  }

  lemma PassIsSafe(t: Tables, before: map<nat, Batch>, b: nat, worker: string, now: int, t': Tables,
                   batches: map<nat, Batch>, b': Batch, done: set<nat>, gateway: Gateway)
    requires SectionPersistence.Inv(t) && b in before && b in batches && batches == before[b := batches[b]]
    requires PassState(t, ClaimedBatch(before[b], worker, now), t', b', done, gateway)
    requires batches[b] == b'.(status := batches[b].status)
    ensures PassSafe(t, before, t', batches)
  {
    hide SectionPersistence.Inv, A.WasDraftable, PayloadAfter, HasItem, A.Extends, Outcome, DraftsPassed, OthersKept;
    if Asked(t, before) {
      assert A.BatchOk(t, before[b]);
      PassKeepsReadable(t, ClaimedBatch(before[b], worker, now), t', b', done, gateway);
      AskedKept(t, t', before, batches, b);
    }
  }

  lemma ClaimIsSafe(t: Tables, before: map<nat, Batch>, b: nat, worker: string, now: int)
    requires b in before
    ensures PassSafe(t, before, t, before[b := ClaimedBatch(before[b], worker, now)])
  {
    hide A.WasDraftable, Readable;
    if Asked(t, before) {
      assert A.BatchOk(t, before[b]);
    }
  }

  predicate Unfinished(status: BatchStatus) {
    status == BatchQueued || status == BatchRunning
  }

  /**
   * What a completed pass did to the claimed batch and the section tables: every waiting item got its outcome, every
   * counter says how many items are in its state, completed is the total, and the status is a final one.
   */
  ghost predicate PassDone(t: Tables, b: Batch, t': Tables, b': Batch, gateway: Gateway) {
    && PassState(t, b, t', b'.(status := b.status), WaitingOrdinals(b), gateway)
    && (forall k :: 0 <= k < |b'.items| ==> Terminal(b'.items[k].state))
    && CountersExact(b') && b'.completed == |b'.items|
    && Some(b'.status) == FinalStatus(b')
  }

  lemma PassRecorded(t: Tables, b: Batch, t': Tables, b': Batch, done: set<nat>, gateway: Gateway)
    requires PassState(t, b, t', b', done, gateway) && CountersExact(b') && done == WaitingOrdinals(b)
    ensures FinalStatus(b').Some?
    ensures PassDone(t, b, t', b'.(status := FinalStatus(b').value), gateway)
    ensures DistinctBatchItems(b.items) ==> DistinctBatchItems(b'.items)
    ensures !Unfinished(FinalStatus(b').value)
  {
    hide Outcome, CountersExact, PayloadAfter, HasItem;
    forall k | 0 <= k < |b'.items|
      ensures Terminal(b'.items[k].state)
    {
      OutcomeTerminal(t, b.jobId, b.items[k], gateway);
      assert b'.items[k] == ItemAfter(t, b, k, k in done, gateway);
    }
    FinalizeWhenAllTerminal(b');
    assert CountersExact(b'.(status := FinalStatus(b').value)) by {
      CountersIgnoreStatus(b', FinalStatus(b').value);
    }
    assert b'.(status := FinalStatus(b').value).(status := b.status) == b'.(status := b.status);
  }

  lemma CountersIgnoreStatus(b: Batch, status: BatchStatus)
    requires CountersExact(b)
    ensures CountersExact(b.(status := status))
  {
  }

  /** Sort the waiting items into text and image ordinals; the first unreadable one raises. */
  method Partition(store: AIDraftBatchStore, b: nat) returns (r: Result<(seq<nat>, seq<nat>), Error>)
    requires b in store.batches
    ensures r.Ok? <==> AllReadable(store.sections.Abs(), store.batches[b])
    ensures r.Err? ==> RaisedBy(store.sections.Abs(), store.batches[b], r.error)
    ensures r.Ok? ==> WaitingList(store.batches[b], r.value.0) && WaitingList(store.batches[b], r.value.1)
    ensures r.Ok? ==> Ordinals(r.value.0) !! Ordinals(r.value.1)
    ensures r.Ok? ==> Ordinals(r.value.0) + Ordinals(r.value.1) == WaitingOrdinals(store.batches[b])
  {
    var row := store.batches[b];
    var text: seq<nat>, vision: seq<nat>, k := [], [], 0;
    hide Loadable, HasItem;
    while k < |row.items|
      invariant 0 <= k <= |row.items|
      invariant WaitingList(row, text) && WaitingList(row, vision)
      invariant Ordinals(text) !! Ordinals(vision)
      invariant Ordinals(text) + Ordinals(vision) == set i | 0 <= i < k && row.items[i].state == Waiting
      invariant forall i :: 0 <= i < k && row.items[i].state == Waiting ==>
        Readable(store.sections.Abs(), row.jobId, row.items[i].itemId)
    {
      if row.items[k].state == Waiting {
        var got := store.sections.GetItem(row.jobId, row.items[k].itemId);
        if got.Err? {
          assert got.error == ReadError(store.sections.Abs(), row.jobId, row.items[k].itemId);
          return Err(got.error);
        }
        ListGrows(row, text, k);
        ListGrows(row, vision, k);
        assert k !in Ordinals(text) + Ordinals(vision);
        if got.value.facts.media.Some? {
          vision := vision + [k];
        } else {
          text := text + [k];
        }
      }
      k := k + 1;
    }
    r := Ok((text, vision));
  }

  lemma ListGrows(b: Batch, list: seq<nat>, k: nat)
    requires WaitingList(b, list) && k < |b.items| && b.items[k].state == Waiting
    ensures Ordinals(list + [k]) == Ordinals(list) + {k}
    ensures k !in Ordinals(list) ==> WaitingList(b, list + [k])
  {
    assert forall i :: 0 <= i < |list| ==> list[i] in list;
  }

  /**
   * One pass: claim the oldest queued batch, sort its waiting items, process the text items and then the image
   * items, finalize. It raises exactly when a waiting item of the claimed batch cannot be read; the batch then stays
   * running. finalize itself never raises.
   */
  method RunAiBatchOnce(store: AIDraftBatchStore, gateway: Gateway, models: Models, worker: string, now: int)
      returns (r: PassResult)
    requires SectionPersistence.Inv(store.sections.Abs()) && CountersInOrder(store.batches)
    modifies store`batches, store.sections
    ensures SectionPersistence.Inv(store.sections.Abs()) && CountersInOrder(store.batches)
    ensures PassSafe(old(store.sections.Abs()), old(store.batches), store.sections.Abs(), store.batches)
    ensures r.NoBatch? <==> QueuedBatches(old(store.batches)) == {}
    ensures r.NoBatch? ==> store.batches == old(store.batches) && store.sections.Abs() == old(store.sections.Abs())
    ensures store.batches.Keys == old(store.batches).Keys
    ensures !r.NoBatch? ==> r.batch in QueuedBatches(old(store.batches))
    ensures !r.NoBatch? ==> forall b :: b in QueuedBatches(old(store.batches)) ==>
      old(store.batches)[r.batch].createdAt <= old(store.batches)[b].createdAt
    ensures !r.NoBatch? ==>
      r.batch in store.batches && store.batches == old(store.batches)[r.batch := store.batches[r.batch]]
    ensures !r.NoBatch? ==> (r.Raised? <==> !AllReadable(old(store.sections.Abs()), old(store.batches)[r.batch]))
    ensures r.Raised? ==> RaisedBy(old(store.sections.Abs()), old(store.batches)[r.batch], r.error)
    ensures r.Raised? ==> store.sections.Abs() == old(store.sections.Abs())
    ensures r.Raised? ==> store.batches[r.batch] == ClaimedBatch(old(store.batches)[r.batch], worker, now)
    ensures r.Done? ==> !Unfinished(store.batches[r.batch].status)
    ensures r.Done? ==> PassDone(old(store.sections.Abs()), ClaimedBatch(old(store.batches)[r.batch], worker, now),
                                 store.sections.Abs(), store.batches[r.batch], gateway)
  {
    hide SectionPersistence.Inv, PassState, CountersExact, DistinctBatchItems, Readable, FinalStatus, PassSafe,
      PassDone;
    ghost var t, before := store.sections.Abs(), store.batches;
    var claimed := store.ClaimNext(worker, now);
    if claimed.None? {
      NothingIsSafe(t, before);
      return NoBatch;
    }
    var b := claimed.value;
    assert b in QueuedBatches(before);
    ghost var start := store.batches[b];
    ClaimKeepsItems(before[b], worker, now);
    ClaimIsSafe(t, before, b, worker, now);
    var split := Partition(store, b);
    if split.Err? {
      return Raised(b, split.error);
    }
    ProcessClaimed(store, b, split.value.0, split.value.1, gateway, models, now);
    PassDoneIsSafe(t, before, b, worker, now, store.sections.Abs(), store.batches, gateway);
    r := Done(b);
  }

  /** The two lists of a claimed batch one after the other, then finalize, which goes through. */
  method ProcessClaimed(store: AIDraftBatchStore, b: nat, text: seq<nat>, vision: seq<nat>, gateway: Gateway,
                        models: Models, now: int)
    requires Ready(store, b)
    requires WaitingList(store.batches[b], text) && WaitingList(store.batches[b], vision)
    requires Ordinals(text) !! Ordinals(vision)
      && Ordinals(text) + Ordinals(vision) == WaitingOrdinals(store.batches[b])
    modifies store`batches, store.sections
    ensures SectionPersistence.Inv(store.sections.Abs())
    ensures b in store.batches && store.batches == old(store.batches)[b := store.batches[b]]
    ensures CountersExact(store.batches[b]) && DistinctBatchItems(store.batches[b].items)
    ensures !Unfinished(store.batches[b].status)
    ensures PassDone(old(store.sections.Abs()), old(store.batches)[b], store.sections.Abs(), store.batches[b], gateway)
  {
    hide SectionPersistence.Inv, PassState, CountersExact, DistinctBatchItems, FinalStatus, WaitingList, Ordinals,
      PassDone, WaitingOrdinals;
    ghost var t, start := store.sections.Abs(), store.batches[b];
    PassStart(t, start, gateway);
    ProcessList(store, b, text, gateway, models, now, t, start, {});
    ProcessList(store, b, vision, gateway, models, now, t, start, {} + Ordinals(text));
    ghost var last := store.batches[b];
    assert {} + Ordinals(text) + Ordinals(vision) == WaitingOrdinals(start);
    PassRecorded(t, start, store.sections.Abs(), last, WaitingOrdinals(start), gateway);
    CountersIgnoreStatus(last, FinalStatus(last).value);
    var ok := store.FinalizeBatch(b);
    assert ok;
  }

  lemma PassDoneIsSafe(t: Tables, before: map<nat, Batch>, b: nat, worker: string, now: int, t': Tables,
                       batches: map<nat, Batch>, gateway: Gateway)
    requires SectionPersistence.Inv(t) && b in before && b in batches && batches == before[b := batches[b]]
    requires PassDone(t, ClaimedBatch(before[b], worker, now), t', batches[b], gateway)
    ensures PassSafe(t, before, t', batches)
  {
    hide SectionPersistence.Inv, PassState, PassSafe, CountersExact;
    var start := ClaimedBatch(before[b], worker, now);
    PassIsSafe(t, before, b, worker, now, t', batches, batches[b].(status := start.status), WaitingOrdinals(start),
      gateway);
  }

  lemma NothingIsSafe(t: Tables, before: map<nat, Batch>)
    ensures PassSafe(t, before, t, before)
  {
  }

  lemma ClaimKeepsItems(b: Batch, worker: string, now: int)
    requires CountersExact(b) && DistinctBatchItems(b.items)
    ensures var c := ClaimedBatch(b, worker, now);
      CountersExact(c) && DistinctBatchItems(c.items) && c.items == b.items && c.jobId == b.jobId
  {
  }

  datatype DrainResult = AllDone | NotTerminal | Stopped(error: Error)

  ghost predicate RunningAtStart(batches: map<nat, Batch>, delivery: set<nat>) {
    exists b :: b in delivery && b in batches && batches[b].status == BatchRunning
  }

  /** A batch that a pass went through: every item is terminal, completed is the total, the status follows from it. */
  predicate Finalized(b: Batch) {
    && (forall k :: 0 <= k < |b.items| ==> Terminal(b.items[k].state))
    && b.completed == |b.items| && Some(b.status) == FinalStatus(b)
  }

  /** Batches queued at the start are still as they were, or finalized; no other batch changed. */
  ghost predicate Drained(before: map<nat, Batch>, batches: map<nat, Batch>) {
    && batches.Keys == before.Keys
    && (forall b :: b in before && before[b].status != BatchQueued ==> batches[b] == before[b])
    && (forall b :: b in before && before[b].status == BatchQueued ==> batches[b] == before[b] || Finalized(batches[b]))
  }

  lemma FinalizedIsFinal(b: Batch)
    requires Finalized(b)
    ensures !Unfinished(b.status)
  {
  }

  lemma PassDoneFinalizes(t: Tables, b: Batch, t': Tables, b': Batch, gateway: Gateway)
    requires PassDone(t, b, t', b', gateway)
    ensures Finalized(b')
  {
    hide PassState, CountersExact;
  }

  lemma PassShrinksQueue(before: map<nat, Batch>, batches: map<nat, Batch>, b: nat)
    requires b in QueuedBatches(before) && b in batches && batches == before[b := batches[b]]
    requires batches[b].status != BatchQueued
    ensures QueuedBatches(batches) == QueuedBatches(before) - {b}
    ensures |QueuedBatches(batches)| < |QueuedBatches(before)|
  {
    assert QueuedBatches(batches) == QueuedBatches(before) - {b};
  }

  /** A batch queued now was queued at the start and is as it was. */
  lemma StillQueued(first: map<nat, Batch>, batches: map<nat, Batch>, b: nat)
    requires Drained(first, batches) && b in QueuedBatches(batches)
    ensures b in QueuedBatches(first) && batches[b] == first[b]
  {
    if Finalized(batches[b]) {
      FinalizedIsFinal(batches[b]);
    }
    hide Finalized;
  }

  /** One more pass; its batch leaves the queue finalized. */
  lemma DrainStep(first: map<nat, Batch>, before: map<nat, Batch>, batches: map<nat, Batch>, b: nat)
    requires Drained(first, before)
    requires b in QueuedBatches(before) && b in batches && batches == before[b := batches[b]] && Finalized(batches[b])
    ensures Drained(first, batches)
    ensures |QueuedBatches(batches)| < |QueuedBatches(before)|
  {
    StillQueued(first, before, b);
    FinalizedIsFinal(batches[b]);
    PassShrinksQueue(before, batches, b);
    hide Finalized;
  }

  /** A batch that is pending while none is queued was running at the start. */
  lemma PendingRan(first: map<nat, Batch>, batches: map<nat, Batch>, delivery: set<nat>, b: nat)
    requires Drained(first, batches) && QueuedBatches(batches) == {}
    requires b in delivery && b in batches && Unfinished(batches[b].status)
    ensures RunningAtStart(first, delivery)
  {
    assert b !in QueuedBatches(batches);
    if Finalized(batches[b]) {
      FinalizedIsFinal(batches[b]);
    }
    hide Finalized;
  }

  lemma DrainedAtStart(first: map<nat, Batch>)
    ensures Drained(first, first)
  {
  }

  /** Once no delivery batch is unfinished, none ran at the start and those queued then are finalized. */
  lemma AllFinal(first: map<nat, Batch>, batches: map<nat, Batch>, delivery: set<nat>)
    requires Drained(first, batches)
    requires forall b :: b in delivery && b in batches ==> !Unfinished(batches[b].status)
    ensures !RunningAtStart(first, delivery)
    ensures forall b :: b in delivery && b in QueuedBatches(first) ==> Finalized(batches[b])
  {
    hide Finalized;
  }

  /**
   * Why a drain stopped: b was queued at the start, was claimed by the pass that raised and stays running, and one
   * of its waiting items cannot be read. When batches ask for revisions that were draftable, that item could not be
   * read at the start either.
   */
  ghost predicate StoppedBy(t0: Tables, first: map<nat, Batch>, t: Tables, batches: map<nat, Batch>, b: nat,
      error: Error) {
    && b in QueuedBatches(first) && b in batches && batches[b].status == BatchRunning
    && Drained(first, batches[b := first[b]])
    && RaisedBy(t, first[b], error)
    && (Asked(t0, first) ==> !AllReadable(t0, first[b]))
  }

  lemma SafeTwice(t0: Tables, first: map<nat, Batch>, t: Tables, before: map<nat, Batch>, t': Tables,
      batches: map<nat, Batch>)
    requires PassSafe(t0, first, t, before) && PassSafe(t, before, t', batches)
    ensures PassSafe(t0, first, t', batches)
  {
    hide Asked, Readable;
  }

  lemma PassStopped(t0: Tables, first: map<nat, Batch>, t: Tables, before: map<nat, Batch>, batches: map<nat, Batch>,
                    b: nat, worker: string, now: int, error: Error)
    requires Drained(first, before) && PassSafe(t0, first, t, before)
    requires b in QueuedBatches(before) && batches == before[b := ClaimedBatch(before[b], worker, now)]
    requires !AllReadable(t, before[b]) && RaisedBy(t, before[b], error)
    ensures StoppedBy(t0, first, t, batches, b, error)
  {
    StillQueued(first, before, b);
    hide Readable, Asked, Drained, RaisedBy;
    assert batches[b := first[b]] == before;
    if Asked(t0, first) {
      NotReadableBefore(t0, t, first[b]);
    }
  }

  lemma NotReadableBefore(t0: Tables, t: Tables, b: Batch)
    requires StaysReadable(t0, t) && !AllReadable(t, b)
    ensures !AllReadable(t0, b)
  {
    hide Readable;
  }

  /** Every batch queued at the start asks for readable items. */
  ghost predicate QueueReadable(t: Tables, batches: map<nat, Batch>) {
    forall b :: b in QueuedBatches(batches) ==> AllReadable(t, batches[b])
  }

  /**
   * The drain loop of run_once over the batches of one delivery. It ends because every pass takes a batch off the
   * queue, whoever's batch that is. It stops with an exception only at a batch with an unreadable waiting item; when
   * all items queued at the start are readable it does not, and it ends with every delivery batch finalized exactly
   * when none of them was running at the start, and with the RuntimeError exactly when one was.
   */
  method Drain(store: AIDraftBatchStore, delivery: set<nat>, gateway: Gateway, models: Models, worker: string, now: int)
      returns (r: DrainResult)
    requires SectionPersistence.Inv(store.sections.Abs()) && CountersInOrder(store.batches)
    requires delivery <= store.batches.Keys
    modifies store`batches, store.sections
    ensures SectionPersistence.Inv(store.sections.Abs()) && CountersInOrder(store.batches)
    ensures store.batches.Keys == old(store.batches).Keys
    ensures PassSafe(old(store.sections.Abs()), old(store.batches), store.sections.Abs(), store.batches)
    ensures !r.Stopped? ==> Drained(old(store.batches), store.batches)
    ensures r.AllDone? ==> forall b :: b in delivery ==> !Unfinished(store.batches[b].status)
    ensures r.AllDone? ==> forall b :: b in delivery && b in QueuedBatches(old(store.batches)) ==>
      Finalized(store.batches[b])
    ensures r.AllDone? ==> !RunningAtStart(old(store.batches), delivery)
    ensures r.NotTerminal? ==> QueuedBatches(store.batches) == {} && RunningAtStart(old(store.batches), delivery)
    ensures r.Stopped? ==> exists b ::
      StoppedBy(old(store.sections.Abs()), old(store.batches), store.sections.Abs(), store.batches, b, r.error)
    ensures old(Asked(store.sections.Abs(), store.batches) && QueueReadable(store.sections.Abs(), store.batches)) ==>
      r == if RunningAtStart(old(store.batches), delivery) then NotTerminal else AllDone
  {
    hide SectionPersistence.Inv, PassDone, CountersInOrder, AllReadable, QueuedBatches, Drained, RunningAtStart,
      Unfinished, PassSafe, Finalized, StoppedBy, RaisedBy;
    ghost var t0, before := store.sections.Abs(), store.batches;
    DrainedAtStart(before);
    NothingIsSafe(t0, before);
    var pending := set b | b in delivery && Unfinished(store.batches[b].status);
    while pending != {}
      invariant SectionPersistence.Inv(store.sections.Abs()) && CountersInOrder(store.batches)
      invariant store.batches.Keys == before.Keys && Drained(before, store.batches)
      invariant PassSafe(t0, before, store.sections.Abs(), store.batches)
      invariant pending == set b | b in delivery && Unfinished(store.batches[b].status)
      decreases |QueuedBatches(store.batches)|
    {
      ghost var t, was := store.sections.Abs(), store.batches;
      var pass := RunAiBatchOnce(store, gateway, models, worker, now);
      SafeTwice(t0, before, t, was, store.sections.Abs(), store.batches);
      if pass.Raised? {
        PassStopped(t0, before, t, was, store.batches, pass.batch, worker, now, pass.error);
        StoppedUnreadable(t0, before, t, store.batches, pass.batch, pass.error);
        return Stopped(pass.error);
      }
      if pass.Done? {
        PassDoneFinalizes(t, ClaimedBatch(was[pass.batch], worker, now), store.sections.Abs(),
          store.batches[pass.batch], gateway);
        DrainStep(before, was, store.batches, pass.batch);
      }
      pending := set b | b in pending && Unfinished(store.batches[b].status);
      if pending != {} && pass.NoBatch? {
        var b :| b in pending;
        PendingRan(before, store.batches, delivery, b);
        return NotTerminal;
      }
    }
    assert forall b :: b in delivery && Unfinished(store.batches[b].status) ==> b in pending;
    AllFinal(before, store.batches, delivery);
    r := AllDone;
  }

  lemma StoppedUnreadable(t0: Tables, first: map<nat, Batch>, t: Tables, batches: map<nat, Batch>, b: nat, error: Error)
    requires StoppedBy(t0, first, t, batches, b, error)
    ensures Asked(t0, first) ==> !QueueReadable(t0, first)
  {
    hide Asked, AllReadable, RaisedBy, Drained;
  }
}
