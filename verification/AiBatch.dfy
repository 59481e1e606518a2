/**
 * Batches of section items waiting for an AI draft (ai_batch.py): the batch rows with their items and counters, and
 * the writes of the batch store. A batch item is named by its ordinal.
 */
module AiBatch {
  import opened Common
  import opened SectionWorkflow
  import opened SectionPersistence

  datatype ItemState = Waiting | Drafted | Fallback | Conflict

  datatype BatchItem = BatchItem(itemId: nat, expected: int, state: ItemState)

  datatype BatchStatus = BatchQueued | BatchRunning | BatchCompleted | BatchPartial | BatchFailed

  datatype Batch = Batch(
    jobId: string,
    actor: string,
    status: BatchStatus,
    items: seq<BatchItem>,
    completed: nat,
    succeeded: nat,
    fallback: nat,
    conflict: nat,
    claimedBy: Option<string>,
    claimedAt: Option<int>,
    createdAt: int)

  /** One line of a creation request: a section item and the revision the caller has seen. */
  datatype Wanted = Wanted(itemId: nat, expected: int)

  predicate Terminal(state: ItemState) {
    state != Waiting
  }

  // ----- create -----

  predicate DistinctItems(wanted: seq<Wanted>) {
    forall i, j :: 0 <= i < j < |wanted| ==> wanted[i].itemId != wanted[j].itemId
  }

  predicate Draftable(status: WorkflowStatus) {
    status in {Generated, AiDrafted}
  }

  /** The first line refused by the loop of create, reading the status and revision columns of the row. */
  function FirstProblem(t: Tables, wanted: seq<Wanted>): Option<Error>
    requires forall i :: 0 <= i < |wanted| ==> wanted[i].itemId in t.items
  {
    if wanted == [] then None
    else
      var row := t.items[wanted[0].itemId];
      if !Draftable(row.workflowStatus) then Some(NotDraftable)
      else if row.currentRevision != wanted[0].expected then Some(RevisionConflict)
      else FirstProblem(t, wanted[1..])
  }

  function CreateProblem(t: Tables, jobId: string, actor: string, wanted: seq<Wanted>, maxItems: nat): Option<Error> {
    if Strip(actor) == [] then Some(BlankActor)
    else if wanted == [] || |wanted| > maxItems then Some(BatchSize)
    else if !DistinctItems(wanted) then Some(DuplicateItems)
    else if exists i :: 0 <= i < |wanted| && !HasItem(t, jobId, wanted[i].itemId) then Some(NotFound)
    else FirstProblem(t, wanted)
  }

  function Queue(wanted: seq<Wanted>): (items: seq<BatchItem>)
    ensures |items| == |wanted|
    ensures forall i :: 0 <= i < |items| ==> items[i] == BatchItem(wanted[i].itemId, wanted[i].expected, Waiting)
  {
    if wanted == [] then []
    else
      Queue(wanted[..|wanted| - 1])
      + [BatchItem(wanted[|wanted| - 1].itemId, wanted[|wanted| - 1].expected, Waiting)]
  }

  function NewBatch(jobId: string, actor: string, wanted: seq<Wanted>, now: int): Batch {
    Batch(jobId, Strip(actor), BatchQueued, Queue(wanted), 0, 0, 0, 0, None, None, now)
  }

  /** Every accepted line names a draftable item of the job at its current revision. */
  lemma {:induction false} NoProblem(t: Tables, wanted: seq<Wanted>, k: nat)
    requires forall i :: 0 <= i < |wanted| ==> wanted[i].itemId in t.items
    requires FirstProblem(t, wanted).None? && k < |wanted|
    ensures Draftable(t.items[wanted[k].itemId].workflowStatus)
    ensures t.items[wanted[k].itemId].currentRevision == wanted[k].expected
  {
    if k > 0 {
      NoProblem(t, wanted[1..], k - 1);
    }
  }

  // ----- claim, finish, finalize, recover -----

  function ClaimedBatch(b: Batch, worker: string, now: int): Batch {
    b.(status := BatchRunning, claimedBy := Some(worker), claimedAt := Some(now))
  }

  /** finish_item: the item row is set and two counters grow, whatever the item's state was before. */
  function Finished(b: Batch, ordinal: nat, state: ItemState, now: int): Batch
    requires ordinal < |b.items| && Terminal(state)
  {
    b.(items := b.items[ordinal := b.items[ordinal].(state := state)],
       completed := b.completed + 1,
       succeeded := if state == Drafted then b.succeeded + 1 else b.succeeded,
       fallback := if state == Fallback then b.fallback + 1 else b.fallback,
       conflict := if state == Conflict then b.conflict + 1 else b.conflict,
       claimedAt := Some(now))
  }

  /** The status finalize writes, or None when it raises because items are unfinished. */
  function FinalStatus(b: Batch): Option<BatchStatus> {
    if b.completed != |b.items| then None
    else if b.succeeded == |b.items| then Some(BatchCompleted)
    else if b.succeeded == 0 then Some(BatchFailed)
    else Some(BatchPartial)
  }

  function Requeued(b: Batch): Batch {
    b.(status := BatchQueued, claimedBy := None, claimedAt := None)
  }

  // ----- Counting items by state -----

  function CountState(items: seq<BatchItem>, state: ItemState): (n: nat)
    ensures n <= |items|
  {
    if items == [] then 0
    else CountState(items[..|items| - 1], state) + if items[|items| - 1].state == state then 1 else 0
  }

  function TerminalCount(items: seq<BatchItem>): nat {
    |items| - CountState(items, Waiting)
  }

  lemma {:induction false} CountUpdate(items: seq<BatchItem>, k: nat, item: BatchItem, state: ItemState)
    requires k < |items|
    ensures CountState(items[k := item], state) ==
      CountState(items, state) - (if items[k].state == state then 1 else 0) + (if item.state == state then 1 else 0)
  {
    var n := |items| - 1;
    if k < n {
      CountUpdate(items[..n], k, item, state);
      assert items[k := item][..n] == items[..n][k := item];
    } else {
      assert items[k := item][..n] == items[..n];
    }
  }

  lemma {:induction false} CountSum(items: seq<BatchItem>)
    ensures CountState(items, Waiting) + CountState(items, Drafted) + CountState(items, Fallback)
      + CountState(items, Conflict)
         == |items|
  {
    if items != [] {
      CountSum(items[..|items| - 1]);
    }
  }

  lemma {:induction false} CountNone(items: seq<BatchItem>, state: ItemState)
    ensures CountState(items, state) == 0 <==> forall i :: 0 <= i < |items| ==> items[i].state != state
  {
    if items != [] {
      CountNone(items[..|items| - 1], state);
    }
  }

  /** Every counter says how many items are in its state. */
  predicate CountersExact(b: Batch) {
    && b.succeeded == CountState(b.items, Drafted)
    && b.fallback == CountState(b.items, Fallback)
    && b.conflict == CountState(b.items, Conflict)
    && b.completed == b.succeeded + b.fallback + b.conflict
  }

  /** With exact counters, finalize goes through exactly when every item is terminal. */
  lemma FinalizeWhenAllTerminal(b: Batch)
    requires CountersExact(b)
    ensures b.completed == TerminalCount(b.items)
    ensures FinalStatus(b).Some? <==> forall i :: 0 <= i < |b.items| ==> Terminal(b.items[i].state)
  {
    CountSum(b.items);
    CountNone(b.items, Waiting);
  }

  lemma {:induction false} CountAll(items: seq<BatchItem>, state: ItemState)
    ensures CountState(items, state) == |items| <==> forall i :: 0 <= i < |items| ==> items[i].state == state
  {
    if items != [] {
      CountAll(items[..|items| - 1], state);
    }
  }

  ghost predicate AnyIn(items: seq<BatchItem>, state: ItemState) {
    exists i :: 0 <= i < |items| && items[i].state == state
  }

  /** The final status in terms of the items: completed when all are drafted, failed when none is, partial otherwise. */
  lemma FinalStatusMeans(b: Batch)
    requires CountersExact(b) && b.items != [] && !AnyIn(b.items, Waiting)
    ensures FinalStatus(b) == Some(BatchCompleted) <==> !AnyIn(b.items, Fallback) && !AnyIn(b.items, Conflict)
    ensures FinalStatus(b) == Some(BatchFailed) <==> !AnyIn(b.items, Drafted)
    ensures FinalStatus(b) == Some(BatchPartial) <==>
      AnyIn(b.items, Drafted) && (AnyIn(b.items, Fallback) || AnyIn(b.items, Conflict))
  {
    FinalizeWhenAllTerminal(b);
    CountNone(b.items, Drafted);
    CountAll(b.items, Drafted);
    hide CountState, CountersExact;
    assert forall i :: 0 <= i < |b.items| ==> b.items[i].state != Waiting;
  }

  lemma FinishKeepsExact(b: Batch, ordinal: nat, state: ItemState, now: int)
    requires CountersExact(b) && ordinal < |b.items| && Terminal(state)
    requires b.items[ordinal].state == Waiting
    ensures CountersExact(Finished(b, ordinal, state, now))
  {
    var item := b.items[ordinal].(state := state);
    CountUpdate(b.items, ordinal, item, Drafted);
    CountUpdate(b.items, ordinal, item, Fallback);
    CountUpdate(b.items, ordinal, item, Conflict);
  }

  /** Recording an item for the first time keeps completed - terminal; recording it again raises it by one. */
  lemma FinishAccounting(b: Batch, ordinal: nat, state: ItemState, now: int)
    requires ordinal < |b.items| && Terminal(state)
    ensures var b' := Finished(b, ordinal, state, now);
      b'.completed - TerminalCount(b'.items)
      == b.completed - TerminalCount(b.items) + if Terminal(b.items[ordinal].state) then 1 else 0
  {
    CountUpdate(b.items, ordinal, b.items[ordinal].(state := state), Waiting);
  }

  // ----- create_all_generated: cutting the list -----

  function Chunks<T>(xs: seq<T>, size: nat): seq<seq<T>>
    requires size > 0
  {
    if |xs| == 0 then [] else if |xs| <= size then [xs] else [xs[..size]] + Chunks(xs[size..], size)
  }

  function Concat<T>(parts: seq<seq<T>>): seq<T> {
    if parts == [] then [] else parts[0] + Concat(parts[1..])
  }

  /** Every chunk has 1 to size elements, only the last may be short, and together they are the list. */
  lemma {:induction false} ChunksCover<T>(xs: seq<T>, size: nat)
    requires size > 0
    ensures Concat(Chunks(xs, size)) == xs
    ensures forall i :: 0 <= i < |Chunks(xs, size)| ==> 1 <= |Chunks(xs, size)[i]| <= size
    ensures forall i :: 0 <= i < |Chunks(xs, size)| - 1 ==> |Chunks(xs, size)[i]| == size
    decreases |xs|
  {
    if |xs| > size {
      ChunksCover(xs[size..], size);
      assert Chunks(xs, size)[1..] == Chunks(xs[size..], size);
    } else if xs != [] {
      assert [xs][1..] == [];
    }
  }
}
