/** The batch store object (class AIDraftBatchStore). */
module BatchStore {
  import opened Common
  import opened SectionWorkflow
  import opened SectionPersistence
  import opened SectionStore
  import opened AiBatch
  import opened BatchCreation

  predicate StaleBatch(b: Batch, cutoff: int) {
    b.status == BatchRunning && b.claimedAt.Some? && b.claimedAt.value < cutoff
  }

  /**
   * What a recovery may do to a batch, on its columns: a running batch claimed or touched at the cutoff or later is
   * left alone, as is every batch that is not running; an older claim is taken away and the batch is queued.
   */
  predicate SparedOrRequeued(b: Batch, b': Batch, cutoff: int) {
    if b.status == BatchRunning && b.claimedAt.Some? && b.claimedAt.value < cutoff then
      b' == b.(status := BatchQueued, claimedBy := None, claimedAt := None)
    else b' == b
  }

  function AfterRecovery(b: Batch, cutoff: int): Batch {
    if StaleBatch(b, cutoff) then Requeued(b) else b
  }

  ghost predicate BatchIdsBelow(batches: map<nat, Batch>, next: nat) {
    forall b :: b in batches ==> b < next
  }

  class AIDraftBatchStore {
    const maxItems: nat
    const includeNormalImages: bool
    const sections: SectionWorkflowStore
    var batches: map<nat, Batch>
    var nextBatch: nat

    ghost predicate Valid()
      reads this
    {
      1 <= maxItems <= 20 && BatchIdsBelow(batches, nextBatch)
    }

    /** The source refuses limits outside 1 to 20 with a ValueError. */
    constructor (sections: SectionWorkflowStore, maxItems: nat, includeNormalImages: bool)
      requires 1 <= maxItems <= 20
      ensures Valid() && batches == map[] && this.sections == sections
      ensures this.maxItems == maxItems && this.includeNormalImages == includeNormalImages
    {
      this.sections := sections;
      this.maxItems := maxItems;
      this.includeNormalImages := includeNormalImages;
      batches, nextBatch := map[], 0;
    }

    method Create(jobId: string, actor: string, wanted: seq<Wanted>, now: int) returns (r: Result<nat, Error>)
      requires Valid()
      modifies this
      ensures Valid()
      ensures r.Err? <==> CreateProblem(sections.Abs(), jobId, actor, wanted, maxItems).Some?
      ensures r.Err? ==> Some(r.error) == CreateProblem(sections.Abs(), jobId, actor, wanted, maxItems)
      ensures r.Err? ==> batches == old(batches) && nextBatch == old(nextBatch)
      ensures r.Ok? ==> r.value == old(nextBatch) && nextBatch == old(nextBatch) + 1
      ensures r.Ok? ==> batches == old(batches)[r.value := NewBatch(jobId, actor, wanted, now)]
      ensures r.Ok? <==>
        && Strip(actor) != [] && 1 <= |wanted| <= maxItems && !Repeated(wanted)
        && forall i :: 0 <= i < |wanted| ==> LineFits(sections.Abs(), jobId, wanted[i])
      ensures r.Ok? ==> FreshBatch(batches[r.value], jobId, actor, wanted, now)
    {
      hide Strip, Repeated, FirstProblem;
      CreateProblemMeans(sections.Abs(), jobId, actor, wanted, maxItems);
      NewBatchIsFresh(jobId, actor, wanted, now);
      var t := Tables(sections.workflows, sections.items, sections.revisions, sections.nextId);
      var problem := CreateProblem(t, jobId, actor, wanted, maxItems);
      if problem.Some? {
        return Err(problem.value);
      }
      r := Ok(nextBatch);
      batches := batches[nextBatch := NewBatch(jobId, actor, wanted, now)];
      nextBatch := nextBatch + 1;
    }

    /** The lines of create_all_generated; an item that does not load stops it. */
    method WantedItems(jobId: string) returns (r: Result<seq<Wanted>, Error>)
      ensures r.Ok? <==> AllGeneratedLoad(sections.Abs(), jobId)
      ensures r.Ok? ==> Wants(sections.Abs(), jobId, includeNormalImages, r.value)
    {
      hide Loadable, Collect, KeepsImage, AllGeneratedLoad, Wants;
      var list := sections.ListItems(jobId);
      ghost var ids := list;
      CollectContent(sections.Abs(), jobId, ids, includeNormalImages);
      var wanted: seq<Wanted>, k := [], 0;
      CollectNothing(sections.Abs(), ids[..0], includeNormalImages);
      assert forall i :: 0 <= i < |list| ==> list[i] in ids;
      while k < |list|
        invariant 0 <= k <= |list|
        invariant Collect(sections.Abs(), ids[..k], includeNormalImages) == Ok(wanted)
      {
        CollectStep(sections.Abs(), ids, k, includeNormalImages);
        var row := sections.items[list[k]];
        if row.workflowStatus == Generated {
          if !Loadable(row.payload) {
            CollectStops(sections.Abs(), ids, k + 1, includeNormalImages);
            return Err(InvalidPayload);
          }
          if KeepsImage(row.payload, includeNormalImages) {
            wanted := wanted + [Wanted(list[k], row.currentRevision)];
          }
        }
        k := k + 1;
      }
      assert ids[..k] == ids;
      r := Ok(wanted);
    }

    /**
     * Queue every eligible item of the job in batches of at most maxItems. The batches are created one after the
     * other, each by itself; with nobody interfering none of them is refused once the actor is named.
     */
    method CreateAllGenerated(jobId: string, actor: string, now: int)
        returns (r: Result<seq<nat>, Error>, ghost wanted: seq<Wanted>)
      requires Valid() && Inv(sections.Abs())
      modifies this
      ensures Valid()
      ensures r.Ok? ==> Wants(sections.Abs(), jobId, includeNormalImages, wanted)
      ensures r.Ok? ==> nextBatch == old(nextBatch) + |r.value| && |r.value| == |Chunks(wanted, maxItems)|
      ensures r.Ok? ==> Holding(batches, old(nextBatch), Chunks(wanted, maxItems), |r.value|, jobId, actor, now)
      ensures r.Ok? ==> forall i :: 0 <= i < |r.value| ==> r.value[i] == old(nextBatch) + i
      ensures r.Err? ==> batches == old(batches)
      ensures r.Err? <==>
        !AllGeneratedLoad(sections.Abs(), jobId) ||
        (Strip(actor) == [] && exists id :: Eligible(sections.Abs(), jobId, id, includeNormalImages))
      ensures forall b :: b in old(batches) ==> b in batches && batches[b] == old(batches)[b]
      ensures r.Ok? ==>
        QueuedAll(sections.Abs(), jobId, includeNormalImages, maxItems, batches, old(nextBatch), |r.value|, actor, now)
    {
      hide Inv, AllGeneratedLoad, Wants, Chunks, Strip, Eligible, Holding, QueuedAll;
      var list := WantedItems(jobId);
      if list.Err? {
        return Err(list.error), [];
      }
      SomethingWanted(sections.Abs(), jobId, includeNormalImages, list.value, maxItems);
      wanted := list.value;
      var chunks := Chunks(list.value, maxItems);
      ghost var first := nextBatch;
      r := CreateChunks(jobId, actor, chunks, now, list.value);
      if r.Ok? {
        QueuedColumns(sections.Abs(), jobId, includeNormalImages, wanted, maxItems, batches, first, actor, now);
      }
    }

    method CreateChunks(jobId: string, actor: string, chunks: seq<seq<Wanted>>, now: int, ghost wanted: seq<Wanted>)
        returns (r: Result<seq<nat>, Error>)
      requires Valid() && chunks == Chunks(wanted, maxItems)
      requires Wants(sections.Abs(), jobId, includeNormalImages, wanted) && Inv(sections.Abs())
      modifies this
      ensures Valid()
      ensures r.Ok? ==> |r.value| == |chunks| && nextBatch == old(nextBatch) + |chunks|
      ensures r.Ok? ==> Holding(batches, old(nextBatch), chunks, |chunks|, jobId, actor, now)
      ensures r.Ok? ==> forall i :: 0 <= i < |r.value| ==> r.value[i] == old(nextBatch) + i
      ensures r.Err? ==> batches == old(batches)
      ensures r.Err? <==> Strip(actor) == [] && chunks != []
      ensures forall b :: b in old(batches) ==> b in batches && batches[b] == old(batches)[b]
    {
      var k, made := 0, [];
      ghost var before, first := batches, nextBatch;
      hide Inv, Wants, Chunks, CreateProblem, NewBatch, Strip;
      while k < |chunks|
        invariant 0 <= k <= |chunks| && |made| == k
        invariant Valid() && nextBatch == first + k
        invariant Holding(batches, first, chunks, k, jobId, actor, now)
        invariant forall i :: 0 <= i < k ==> made[i] == first + i
        invariant forall b :: b in before ==> b in batches && batches[b] == before[b]
        invariant k > 0 ==> Strip(actor) != []
        invariant k == 0 ==> batches == before
      {
        ChunkAccepted(sections.Abs(), jobId, includeNormalImages, wanted, maxItems, k, actor);
        var one := Create(jobId, actor, chunks[k], now);
        if one.Err? {
          return Err(one.error);
        }
        made := made + [one.value];
        k := k + 1;
      }
      r := Ok(made);
    }

    /** Claim the oldest queued batch, whatever job it belongs to. */
    method ClaimNext(worker: string, now: int) returns (r: Option<nat>)
      modifies this`batches
      ensures old(Valid()) ==> Valid()
      ensures r.None? <==> forall b :: b in old(batches) ==> old(batches)[b].status != BatchQueued
      ensures r.None? ==> batches == old(batches)
      ensures r.Some? ==> r.value in old(batches) && old(batches)[r.value].status == BatchQueued
      ensures r.Some? ==> batches == old(batches)[r.value := ClaimedBatch(old(batches)[r.value], worker, now)]
      ensures r.Some? ==> batches[r.value] == old(batches)[r.value].(status := BatchRunning, claimedBy := Some(worker),
                                                                    claimedAt := Some(now))
      ensures r.Some? ==> forall b :: b in old(batches) && old(batches)[b].status == BatchQueued ==>
        old(batches)[r.value].createdAt <= old(batches)[b].createdAt
    {
      r := None;
      var rest := batches.Keys;
      while rest != {}
        invariant rest <= batches.Keys
        invariant r.None? ==> forall b :: b in batches && b !in rest ==> batches[b].status != BatchQueued
        invariant r.Some? ==> r.value in batches && batches[r.value].status == BatchQueued
        invariant r.Some? ==> forall b :: b in batches && b !in rest && batches[b].status == BatchQueued ==>
          batches[r.value].createdAt <= batches[b].createdAt
      {
        var b :| b in rest;
        rest := rest - {b};
        if batches[b].status == BatchQueued && (r.None? || batches[b].createdAt < batches[r.value].createdAt) {
          r := Some(b);
        }
      }
      if r.Some? {
        var row := batches[r.value].(status := BatchRunning, claimedBy := Some(worker), claimedAt := Some(now));
        batches := batches[r.value := row];
      }
    }

    method FinishItem(b: nat, ordinal: nat, state: ItemState, now: int)
      requires b in batches && ordinal < |batches[b].items| && Terminal(state)
      modifies this`batches
      ensures batches == old(batches)[b := Finished(old(batches)[b], ordinal, state, now)]
      ensures batches[b].items == old(batches)[b].items[ordinal := old(batches)[b].items[ordinal].(state := state)]
      ensures batches[b].completed == old(batches)[b].completed + 1 && batches[b].claimedAt == Some(now)
      ensures batches[b].succeeded == old(batches)[b].succeeded + if state == Drafted then 1 else 0
      ensures batches[b].fallback == old(batches)[b].fallback + if state == Fallback then 1 else 0
      ensures batches[b].conflict == old(batches)[b].conflict + if state == Conflict then 1 else 0
    {
      var row := batches[b];
      row := row.(items := row.items[ordinal := row.items[ordinal].(state := state)],
                  completed := row.completed + 1, claimedAt := Some(now));
      if state == Drafted {
        row := row.(succeeded := row.succeeded + 1);
      } else if state == Fallback {
        row := row.(fallback := row.fallback + 1);
      } else {
        row := row.(conflict := row.conflict + 1);
      }
      batches := batches[b := row];
    }

    /** False stands for the RuntimeError about unfinished items. */
    method FinalizeBatch(b: nat) returns (ok: bool)
      requires b in batches
      modifies this`batches
      ensures ok <==> FinalStatus(old(batches)[b]).Some?
      ensures ok ==> batches == old(batches)[b := old(batches)[b].(status := FinalStatus(old(batches)[b]).value)]
      ensures !ok ==> batches == old(batches)
      ensures ok <==> old(batches)[b].completed == |old(batches)[b].items|
      ensures ok ==> batches[b].status == if batches[b].succeeded == |batches[b].items| then BatchCompleted
                                          else if batches[b].succeeded == 0 then BatchFailed else BatchPartial
    {
      var row := batches[b];
      ok := row.completed == |row.items|;
      if ok {
        var status := if row.succeeded == |row.items| then BatchCompleted
                      else if row.succeeded == 0 then BatchFailed else BatchPartial;
        batches := batches[b := row.(status := status)];
      }
    }

    /** Running batches whose claim is older than the cutoff go back to the queue, items and counters untouched. */
    method RecoverStale(cutoff: int) returns (count: nat)
      modifies this`batches
      ensures batches.Keys == old(batches).Keys
      ensures forall b :: b in old(batches) ==> batches[b] == AfterRecovery(old(batches)[b], cutoff)
      ensures count == |set b | b in old(batches) && StaleBatch(old(batches)[b], cutoff)|
      ensures forall b :: b in batches ==> SparedOrRequeued(old(batches)[b], batches[b], cutoff)
    {
      var ids := set b | b in batches && StaleBatch(batches[b], cutoff);
      batches := map b | b in batches :: if b in ids then Requeued(batches[b]) else batches[b];
      count := |ids|;
    }
  }
}
