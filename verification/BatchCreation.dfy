/** Which batches are created, and with which items (create and create_all_generated in ai_batch.py). */
module BatchCreation {
  import opened Common
  import opened SectionWorkflow
  import opened SectionPersistence
  import opened AiBatch

  predicate KeepsImage(item: Item, includeNormalImages: bool) {
    item.facts.media.Some? && item.facts.status == Normal ==> includeNormalImages
  }

  /** The items create_all_generated keeps: generated ones, without normal-status images unless they are asked for. */
  predicate Eligible(t: Tables, jobId: string, id: nat, includeNormalImages: bool) {
    && HasItem(t, jobId, id)
    && t.items[id].workflowStatus == Generated
    && KeepsImage(t.items[id].payload, includeNormalImages)
  }

  /** Batches next, next + 1, ... hold the first k of the given chunks, freshly queued. */
  ghost predicate Holding(batches: map<nat, Batch>, next: nat, chunks: seq<seq<Wanted>>, k: nat,
                          jobId: string, actor: string, now: int)
    requires k <= |chunks|
  {
    forall b :: next <= b < next + k ==> b in batches && batches[b] == NewBatch(jobId, actor, chunks[b - next], now)
  }

  ghost predicate NoRepetition(ids: seq<nat>) {
    forall i, j :: 0 <= i < j < |ids| ==> ids[i] != ids[j]
  }

  /** The filter loop of create_all_generated over a list of item ids. */
  function Collect(t: Tables, ids: seq<nat>, includeNormalImages: bool): Result<seq<Wanted>, Error> {
    if ids == [] then Ok([])
    else
      var before, id := Collect(t, ids[..|ids| - 1], includeNormalImages), ids[|ids| - 1];
      if before.Err? || id !in t.items || t.items[id].workflowStatus != Generated then before
      else if !Loadable(t.items[id].payload) then Err(InvalidPayload)
      else if !KeepsImage(t.items[id].payload, includeNormalImages) then before
      else Ok(before.value + [Wanted(id, t.items[id].currentRevision)])
  }

  lemma CollectNothing(t: Tables, ids: seq<nat>, inc: bool)
    requires ids == []
    ensures Collect(t, ids, inc) == Ok([])
  {
  }

  lemma CollectStep(t: Tables, ids: seq<nat>, k: nat, inc: bool)
    requires k < |ids| && ids[k] in t.items && Collect(t, ids[..k], inc).Ok?
    ensures var before, row := Collect(t, ids[..k], inc), t.items[ids[k]];
      Collect(t, ids[..k + 1], inc) ==
        if row.workflowStatus != Generated then before
        else if !Loadable(row.payload) then Err(InvalidPayload)
        else if !KeepsImage(row.payload, inc) then before
        else Ok(before.value + [Wanted(ids[k], row.currentRevision)])
  {
    hide Loadable, KeepsImage;
    assert ids[..k + 1][..k] == ids[..k];
  }

  lemma {:induction false} CollectStops(t: Tables, ids: seq<nat>, k: nat, inc: bool)
    requires k <= |ids| && Collect(t, ids[..k], inc) == Err(InvalidPayload)
    ensures Collect(t, ids, inc) == Err(InvalidPayload)
  {
    if k < |ids| {
      assert ids[..|ids| - 1][..k] == ids[..k];
      CollectStops(t, ids[..|ids| - 1], k, inc);
    } else {
      assert ids[..k] == ids;
    }
  }

  predicate Lists(t: Tables, jobId: string, inc: bool, x: Wanted) {
    Eligible(t, jobId, x.itemId, inc) && x.expected == t.items[x.itemId].currentRevision
  }

  /** wanted lists every eligible item of the job once, at its current revision, and nothing else. */
  ghost predicate Wants(t: Tables, jobId: string, inc: bool, wanted: seq<Wanted>) {
    && DistinctItems(wanted)
    && (forall i :: 0 <= i < |wanted| ==> Lists(t, jobId, inc, wanted[i]))
    && (forall id :: Eligible(t, jobId, id, inc) ==> Collected(wanted, id))
  }

  ghost predicate AllGeneratedLoad(t: Tables, jobId: string) {
    forall id :: HasItem(t, jobId, id) && t.items[id].workflowStatus == Generated ==> Loadable(t.items[id].payload)
  }

  /** Collecting stops only at a generated item of the job that does not load. */
  lemma {:induction false} CollectFails(t: Tables, jobId: string, ids: seq<nat>, inc: bool)
    requires forall i :: 0 <= i < |ids| ==> HasItem(t, jobId, ids[i])
    requires Collect(t, ids, inc).Err?
    ensures !AllGeneratedLoad(t, jobId)
  {
    hide Loadable, KeepsImage, IsWorkflowOf;
    if ids != [] && Collect(t, ids[..|ids| - 1], inc).Err? {
      CollectFails(t, jobId, ids[..|ids| - 1], inc);
    }
  }

  /** Every collected line is an eligible item of the list at its current revision. */
  lemma {:induction false} CollectLists(t: Tables, jobId: string, ids: seq<nat>, inc: bool, i: nat)
    requires forall i :: 0 <= i < |ids| ==> HasItem(t, jobId, ids[i])
    requires Collect(t, ids, inc).Ok? && i < |Collect(t, ids, inc).value|
    ensures Lists(t, jobId, inc, Collect(t, ids, inc).value[i]) && Collect(t, ids, inc).value[i].itemId in ids
  {
    hide Loadable, KeepsImage, IsWorkflowOf;
    if ids != [] {
      var init := ids[..|ids| - 1];
      if i < |Collect(t, init, inc).value| {
        CollectLists(t, jobId, init, inc, i);
        assert forall x :: x in init ==> x in ids;
      }
    }
  }

  lemma {:induction false} CollectDistinct(t: Tables, jobId: string, ids: seq<nat>, inc: bool)
    requires forall i :: 0 <= i < |ids| ==> HasItem(t, jobId, ids[i])
    requires Collect(t, ids, inc).Ok? && NoRepetition(ids)
    ensures DistinctItems(Collect(t, ids, inc).value)
  {
    hide Loadable, KeepsImage, HasItem;
    if ids != [] {
      var init := ids[..|ids| - 1];
      CollectDistinct(t, jobId, init, inc);
      var before := Collect(t, init, inc).value;
      forall i | 0 <= i < |before|
        ensures before[i].itemId != ids[|ids| - 1]
      {
        CollectLists(t, jobId, init, inc, i);
      }
    }
  }

  predicate Collected(wanted: seq<Wanted>, id: nat) {
    exists i :: 0 <= i < |wanted| && wanted[i].itemId == id
  }

  lemma {:induction false} CollectCovers(t: Tables, jobId: string, ids: seq<nat>, inc: bool, j: nat)
    requires Collect(t, ids, inc).Ok? && j < |ids| && Eligible(t, jobId, ids[j], inc)
    ensures Collected(Collect(t, ids, inc).value, ids[j])
  {
    hide Loadable, KeepsImage, IsWorkflowOf;
    var init, wanted := ids[..|ids| - 1], Collect(t, ids, inc).value;
    if j < |init| {
      CollectCovers(t, jobId, init, inc, j);
      var before := Collect(t, init, inc).value;
      var i :| 0 <= i < |before| && before[i].itemId == init[j];
      assert wanted[i].itemId == ids[j];
    } else {
      assert wanted[|wanted| - 1].itemId == ids[j];
    }
  }

  predicate ReadsIfGenerated(t: Tables, id: nat) {
    id in t.items && t.items[id].workflowStatus == Generated ==> Loadable(t.items[id].payload)
  }

  lemma {:induction false} CollectLoads(t: Tables, ids: seq<nat>, inc: bool)
    requires Collect(t, ids, inc).Ok?
    ensures forall j :: 0 <= j < |ids| ==> ReadsIfGenerated(t, ids[j])
  {
    hide Loadable, KeepsImage;
    if ids != [] {
      CollectLoads(t, ids[..|ids| - 1], inc);
    }
  }

  lemma CollectContent(t: Tables, jobId: string, ids: seq<nat>, inc: bool)
    requires forall id :: id in ids <==> HasItem(t, jobId, id)
    requires NoRepetition(ids)
    ensures Collect(t, ids, inc).Ok? <==> AllGeneratedLoad(t, jobId)
    ensures Collect(t, ids, inc).Ok? ==> Wants(t, jobId, inc, Collect(t, ids, inc).value)
  {
    hide Loadable, Collect, KeepsImage, Collected, Lists, NoRepetition;
    assert forall i :: 0 <= i < |ids| ==> ids[i] in ids;
    if Collect(t, ids, inc).Err? {
      CollectFails(t, jobId, ids, inc);
    } else {
      CollectWants(t, jobId, ids, inc);
      CollectLoads(t, ids, inc);
      hide Wants;
      forall id | HasItem(t, jobId, id) && t.items[id].workflowStatus == Generated
        ensures Loadable(t.items[id].payload)
      {
        assert id in ids;
        var j :| 0 <= j < |ids| && ids[j] == id;
        assert ReadsIfGenerated(t, ids[j]);
      }
    }
  }

  lemma CollectWants(t: Tables, jobId: string, ids: seq<nat>, inc: bool)
    requires forall id :: id in ids <==> HasItem(t, jobId, id)
    requires NoRepetition(ids) && Collect(t, ids, inc).Ok?
    ensures Wants(t, jobId, inc, Collect(t, ids, inc).value)
  {
    hide Loadable, Collect, KeepsImage, Collected, Lists, DistinctItems, NoRepetition;
    assert forall i :: 0 <= i < |ids| ==> ids[i] in ids;
    CollectDistinct(t, jobId, ids, inc);
    forall i | 0 <= i < |Collect(t, ids, inc).value|
      ensures Lists(t, jobId, inc, Collect(t, ids, inc).value[i])
    {
      CollectLists(t, jobId, ids, inc, i);
    }
    forall id | Eligible(t, jobId, id, inc)
      ensures Collected(Collect(t, ids, inc).value, id)
    {
      assert id in ids;
      var j :| 0 <= j < |ids| && ids[j] == id;
      CollectCovers(t, jobId, ids, inc, j);
    }
  }

  /** A chunk is a piece of the list it was cut from. */
  lemma {:induction false} ChunkIsSlice<T>(xs: seq<T>, size: nat, k: nat) returns (lo: nat, hi: nat)
    requires size > 0 && k < |Chunks(xs, size)|
    ensures lo < hi <= |xs| && hi - lo <= size && Chunks(xs, size)[k] == xs[lo..hi]
    decreases |xs|
  {
    if |xs| <= size {
      lo, hi := 0, |xs|;
    } else if k == 0 {
      lo, hi := 0, size;
    } else {
      lo, hi := ChunkIsSlice(xs[size..], size, k - 1);
      assert xs[size..][lo..hi] == xs[size + lo..size + hi];
      lo, hi := size + lo, size + hi;
    }
  }

  lemma {:induction false} DraftableLines(t: Tables, wanted: seq<Wanted>)
    requires forall i :: 0 <= i < |wanted| ==> wanted[i].itemId in t.items
    requires forall i :: 0 <= i < |wanted| ==>
      Draftable(t.items[wanted[i].itemId].workflowStatus)
        && t.items[wanted[i].itemId].currentRevision == wanted[i].expected
    ensures FirstProblem(t, wanted).None?
  {
    if wanted != [] {
      DraftableLines(t, wanted[1..]);
    }
  }

  /** Nothing but a blank actor can make create refuse a piece of the collected list. */
  lemma SliceAccepted(t: Tables, jobId: string, inc: bool, wanted: seq<Wanted>, lo: nat, hi: nat, size: nat,
      actor: string)
    requires Wants(t, jobId, inc, wanted) && lo < hi <= |wanted| && hi - lo <= size
    ensures CreateProblem(t, jobId, actor, wanted[lo..hi], size)
      == if Strip(actor) == [] then Some(BlankActor) else None
  {
    hide Strip;
    var slice := wanted[lo..hi];
    assert forall i :: 0 <= i < |slice| ==> slice[i] == wanted[lo + i] && Lists(t, jobId, inc, slice[i]);
    DraftableLines(t, slice);
  }

  lemma ChunkAccepted(t: Tables, jobId: string, inc: bool, wanted: seq<Wanted>, size: nat, k: nat, actor: string)
    requires Wants(t, jobId, inc, wanted)
    requires size > 0 && k < |Chunks(wanted, size)|
    ensures CreateProblem(t, jobId, actor, Chunks(wanted, size)[k], size)
      == if Strip(actor) == [] then Some(BlankActor) else None
  {
    hide Wants, CreateProblem, Strip, Chunks;
    var lo, hi := ChunkIsSlice(wanted, size, k);
    SliceAccepted(t, jobId, inc, wanted, lo, hi, size, actor);
  }

  /** There is something to create exactly when an item is eligible. */
  lemma SomethingWanted(t: Tables, jobId: string, inc: bool, wanted: seq<Wanted>, size: nat)
    requires Wants(t, jobId, inc, wanted) && size > 0
    ensures Chunks(wanted, size) != [] <==> exists id :: Eligible(t, jobId, id, inc)
  {
    hide Eligible;
    if wanted != [] {
      assert Lists(t, jobId, inc, wanted[0]);
    }
  }

  // ----- Requests and batches by their columns -----

  /** The item belongs to the workflow of the job. */
  predicate Belongs(t: Tables, jobId: string, id: nat) {
    id in t.items && t.items[id].workflowId in t.workflows && t.workflows[t.items[id].workflowId].jobId == jobId
  }

  ghost predicate Repeated(wanted: seq<Wanted>) {
    exists i, j :: 0 <= i < j < |wanted| && wanted[i].itemId == wanted[j].itemId
  }

  predicate DraftableRow(row: ItemRow) {
    row.workflowStatus == Generated || row.workflowStatus == AiDrafted
  }

  /** The line is about a draftable item of the job at its current revision. */
  predicate LineFits(t: Tables, jobId: string, x: Wanted) {
    Belongs(t, jobId, x.itemId) && DraftableRow(t.items[x.itemId]) && t.items[x.itemId].currentRevision == x.expected
  }

  /** Line k is the first that does not fit, and this is the error for it. */
  ghost predicate FirstUnfit(t: Tables, jobId: string, wanted: seq<Wanted>, k: nat, error: Error) {
    && k < |wanted| && Belongs(t, jobId, wanted[k].itemId) && !LineFits(t, jobId, wanted[k])
    && (forall i :: 0 <= i < k ==> LineFits(t, jobId, wanted[i]))
    && error == if DraftableRow(t.items[wanted[k].itemId]) then RevisionConflict else NotDraftable
  }

  lemma {:induction false} FirstProblemMeans(t: Tables, jobId: string, wanted: seq<Wanted>)
    requires forall i :: 0 <= i < |wanted| ==> wanted[i].itemId in t.items && Belongs(t, jobId, wanted[i].itemId)
    ensures FirstProblem(t, wanted).None? <==> forall i :: 0 <= i < |wanted| ==> LineFits(t, jobId, wanted[i])
    ensures FirstProblem(t, wanted).Some? ==>
      exists k: nat :: FirstUnfit(t, jobId, wanted, k, FirstProblem(t, wanted).value)
  {
    if wanted != [] {
      FirstProblemMeans(t, jobId, wanted[1..]);
      if LineFits(t, jobId, wanted[0]) && FirstProblem(t, wanted[1..]).Some? {
        var k: nat :| FirstUnfit(t, jobId, wanted[1..], k, FirstProblem(t, wanted[1..]).value);
        assert forall i :: 0 < i <= k ==> wanted[i] == wanted[1..][i - 1];
        assert FirstUnfit(t, jobId, wanted, k + 1, FirstProblem(t, wanted).value);
      } else if !LineFits(t, jobId, wanted[0]) {
        assert FirstUnfit(t, jobId, wanted, 0, FirstProblem(t, wanted).value);
      }
    }
  }

  /** What create refuses, and with which error, in the order of its checks. */
  lemma CreateProblemMeans(t: Tables, jobId: string, actor: string, wanted: seq<Wanted>, size: nat)
    ensures var problem := CreateProblem(t, jobId, actor, wanted, size);
      if Strip(actor) == [] then problem == Some(BlankActor)
      else if |wanted| == 0 || size < |wanted| then problem == Some(BatchSize)
      else if Repeated(wanted) then problem == Some(DuplicateItems)
      else if exists i :: 0 <= i < |wanted| && !Belongs(t, jobId, wanted[i].itemId) then problem == Some(NotFound)
      else
        && (problem.None? <==> forall i :: 0 <= i < |wanted| ==> LineFits(t, jobId, wanted[i]))
        && (problem.Some? ==> exists k: nat :: FirstUnfit(t, jobId, wanted, k, problem.value))
  {
    if forall i :: 0 <= i < |wanted| ==> Belongs(t, jobId, wanted[i].itemId) {
      FirstProblemMeans(t, jobId, wanted);
    }
    hide FirstProblem, Strip, LineFits, DraftableRow, FirstUnfit;
  }

  /** A new batch of the job: queued, unclaimed, nothing counted, and one waiting item for each line. */
  predicate FreshBatch(b: Batch, jobId: string, actor: string, wanted: seq<Wanted>, now: int) {
    && b.jobId == jobId && b.actor == Strip(actor) && b.status == BatchQueued && b.createdAt == now
    && b.completed == 0 && b.succeeded == 0 && b.fallback == 0 && b.conflict == 0
    && b.claimedBy == None && b.claimedAt == None
    && |b.items| == |wanted|
    && forall k :: 0 <= k < |wanted| ==> b.items[k] == BatchItem(wanted[k].itemId, wanted[k].expected, Waiting)
  }

  lemma NewBatchIsFresh(jobId: string, actor: string, wanted: seq<Wanted>, now: int)
    ensures FreshBatch(NewBatch(jobId, actor, wanted, now), jobId, actor, wanted, now)
  {
    hide Strip;
  }

  /** An item that create_all_generated queues: generated, and not an image of normal status left out by setting. */
  predicate ToDraft(t: Tables, jobId: string, id: nat, inc: bool) {
    && Belongs(t, jobId, id) && t.items[id].workflowStatus == Generated
    && (t.items[id].payload.facts.media.Some? && t.items[id].payload.facts.status == Normal ==> inc)
  }

  lemma {:induction false} LineOfChunk(parts: seq<seq<Wanted>>, p: nat, k: nat)
    requires p < |parts| && k < |parts[p]|
    ensures parts[p][k] in Concat(parts)
  {
    if p > 0 {
      LineOfChunk(parts[1..], p - 1, k);
    }
  }

  lemma {:induction false} ChunkOfLine(parts: seq<seq<Wanted>>, x: Wanted) returns (p: nat, k: nat)
    requires x in Concat(parts)
    ensures p < |parts| && k < |parts[p]| && parts[p][k] == x
  {
    if x in parts[0] {
      p := 0;
      k :| k < |parts[0]| && parts[0][k] == x;
    } else {
      p, k := ChunkOfLine(parts[1..], x);
      p := p + 1;
    }
  }

  lemma {:induction false} ChunksApart(parts: seq<seq<Wanted>>, p: nat, k: nat, q: nat, l: nat)
    requires DistinctItems(Concat(parts)) && p < |parts| && q < |parts| && k < |parts[p]| && l < |parts[q]|
    requires parts[p][k].itemId == parts[q][l].itemId
    ensures p == q && k == l
  {
    var head, rest := parts[0], Concat(parts[1..]);
    DistinctParts(head, rest);
    if p > 0 {
      LineOfChunk(parts[1..], p - 1, k);
    }
    if q > 0 {
      LineOfChunk(parts[1..], q - 1, l);
    }
    if p > 0 && q > 0 {
      ChunksApart(parts[1..], p - 1, k, q - 1, l);
    }
  }

  lemma DistinctParts(head: seq<Wanted>, rest: seq<Wanted>)
    requires DistinctItems(head + rest)
    ensures DistinctItems(head) && DistinctItems(rest)
    ensures forall x, y :: x in head && y in rest ==> x.itemId != y.itemId
  {
    var all := head + rest;
    assert forall i :: 0 <= i < |head| ==> all[i] == head[i];
    forall i, j | 0 <= i < j < |rest|
      ensures rest[i].itemId != rest[j].itemId
    {
      assert all[|head| + i] == rest[i] && all[|head| + j] == rest[j];
    }
    forall x, y | x in head && y in rest
      ensures x.itemId != y.itemId
    {
      var i :| 0 <= i < |head| && head[i] == x;
      var j :| 0 <= j < |rest| && rest[j] == y;
      assert all[i] == x && all[|head| + j] == y;
    }
  }

  /** Item id is in ordinal k of batch b. */
  predicate QueuedAt(batches: map<nat, Batch>, b: nat, k: nat, id: nat) {
    b in batches && k < |batches[b].items| && batches[b].items[k].itemId == id
  }

  function Lines(b: Batch): seq<Wanted> {
    seq(|b.items|, i requires 0 <= i < |b.items| => Wanted(b.items[i].itemId, b.items[i].expected))
  }

  lemma EligibleMeans(t: Tables, jobId: string, id: nat, inc: bool)
    ensures Eligible(t, jobId, id, inc) <==> ToDraft(t, jobId, id, inc)
  {
  }

  /** Batches first, first + 1, ... are new ones of the job with 1 to size items each. */
  ghost predicate FreshAll(batches: map<nat, Batch>, first: nat, n: nat, jobId: string, actor: string, size: nat,
                           now: int) {
    forall b: nat :: first <= b < first + n ==>
      b in batches && 1 <= |batches[b].items| <= size && FreshBatch(batches[b], jobId, actor, Lines(batches[b]), now)
  }

  predicate CurrentLine(t: Tables, jobId: string, inc: bool, x: BatchItem) {
    ToDraft(t, jobId, x.itemId, inc) && x.expected == t.items[x.itemId].currentRevision
  }

  /** Every item in them is to be drafted, at its current revision. */
  ghost predicate NothingElse(t: Tables, jobId: string, inc: bool, batches: map<nat, Batch>, first: nat, n: nat) {
    forall b: nat, k: nat, id: nat :: first <= b < first + n && QueuedAt(batches, b, k, id) ==>
      CurrentLine(t, jobId, inc, batches[b].items[k])
  }

  ghost predicate Queued(batches: map<nat, Batch>, first: nat, n: nat, id: nat) {
    exists b: nat, k: nat :: first <= b < first + n && QueuedAt(batches, b, k, id)
  }

  predicate BothAt(batches: map<nat, Batch>, b: nat, k: nat, c: nat, l: nat, id: nat) {
    QueuedAt(batches, b, k, id) && QueuedAt(batches, c, l, id)
  }

  /** No item is in them twice. */
  ghost predicate OnceOnly(batches: map<nat, Batch>, first: nat, n: nat) {
    forall b: nat, k: nat, c: nat, l: nat, id: nat :: BothAt(batches, b, k, c, l, id) ==>
      (first <= b < first + n && first <= c < first + n ==> b == c && k == l)
  }

  /** The batches made by create_all_generated, on the columns of batches and items. */
  ghost predicate QueuedAll(t: Tables, jobId: string, inc: bool, size: nat, batches: map<nat, Batch>, first: nat,
                            n: nat, actor: string, now: int)
  {
    && FreshAll(batches, first, n, jobId, actor, size, now)
    && NothingElse(t, jobId, inc, batches, first, n)
    && (forall id :: ToDraft(t, jobId, id, inc) ==> Queued(batches, first, n, id))
    && OnceOnly(batches, first, n)
  }

  /** Batch first + p has the lines of chunk p. */
  ghost predicate Chunked(batches: map<nat, Batch>, first: nat, parts: seq<seq<Wanted>>) {
    forall b: nat :: first <= b < first + |parts| ==> b in batches && Lines(batches[b]) == parts[b - first]
  }

  lemma AllFresh(wanted: seq<Wanted>, size: nat, batches: map<nat, Batch>, first: nat, jobId: string, actor: string,
                 now: int)
    requires size > 0 && Holding(batches, first, Chunks(wanted, size), |Chunks(wanted, size)|, jobId, actor, now)
    ensures FreshAll(batches, first, |Chunks(wanted, size)|, jobId, actor, size, now)
    ensures Chunked(batches, first, Chunks(wanted, size))
  {
    var parts := Chunks(wanted, size);
    ChunksCover(wanted, size);
    hide *;
    FreshChunks(parts, size, batches, first, jobId, actor, now);
  }

  lemma FreshChunks(parts: seq<seq<Wanted>>, size: nat, batches: map<nat, Batch>, first: nat, jobId: string,
                    actor: string, now: int)
    requires forall i :: 0 <= i < |parts| ==> 1 <= |parts[i]| <= size
    requires Holding(batches, first, parts, |parts|, jobId, actor, now)
    ensures FreshAll(batches, first, |parts|, jobId, actor, size, now) && Chunked(batches, first, parts)
  {
    hide FreshBatch, NewBatch, Lines;
    forall b: nat | first <= b < first + |parts|
      ensures b in batches && Lines(batches[b]) == parts[b - first] && |batches[b].items| == |parts[b - first]|
      ensures FreshBatch(batches[b], jobId, actor, Lines(batches[b]), now)
    {
      FreshLines(jobId, actor, parts[b - first], now);
    }
  }

  lemma FreshLines(jobId: string, actor: string, wanted: seq<Wanted>, now: int)
    ensures var b := NewBatch(jobId, actor, wanted, now);
      Lines(b) == wanted && |b.items| == |wanted| && FreshBatch(b, jobId, actor, wanted, now)
  {
    NewBatchIsFresh(jobId, actor, wanted, now);
    hide Strip;
  }

  lemma LineAt(batches: map<nat, Batch>, first: nat, parts: seq<seq<Wanted>>, b: nat, k: nat, id: nat)
    requires Chunked(batches, first, parts) && first <= b < first + |parts|
    ensures QueuedAt(batches, b, k, id) <==> k < |parts[b - first]| && parts[b - first][k].itemId == id
    ensures QueuedAt(batches, b, k, id) ==> batches[b].items[k].expected == parts[b - first][k].expected
  {
    assert Lines(batches[b]) == parts[b - first];
    assert k < |batches[b].items| ==> Lines(batches[b])[k].itemId == batches[b].items[k].itemId;
  }

  lemma ListedLine(t: Tables, jobId: string, inc: bool, x: Wanted, y: BatchItem)
    requires Lists(t, jobId, inc, x) && y.itemId == x.itemId && y.expected == x.expected
    ensures CurrentLine(t, jobId, inc, y)
  {
  }

  lemma OnlyWanted(t: Tables, jobId: string, inc: bool, wanted: seq<Wanted>, batches: map<nat, Batch>, first: nat,
                   parts: seq<seq<Wanted>>)
    requires forall i :: 0 <= i < |wanted| ==> Lists(t, jobId, inc, wanted[i])
    requires Concat(parts) == wanted && Chunked(batches, first, parts)
    ensures NothingElse(t, jobId, inc, batches, first, |parts|)
  {
    hide Concat, CurrentLine, Chunked, Lists;
    forall b: nat, k: nat, id: nat | first <= b < first + |parts| && QueuedAt(batches, b, k, id)
      ensures CurrentLine(t, jobId, inc, batches[b].items[k])
    {
      LineAt(batches, first, parts, b, k, id);
      LineOfChunk(parts, b - first, k);
      ListedLine(t, jobId, inc, parts[b - first][k], batches[b].items[k]);
    }
  }

  lemma WantedQueued(wanted: seq<Wanted>, batches: map<nat, Batch>, first: nat, parts: seq<seq<Wanted>>, id: nat)
    requires Collected(wanted, id) && Concat(parts) == wanted && Chunked(batches, first, parts)
    ensures Queued(batches, first, |parts|, id)
  {
    hide Concat, QueuedAt, Chunked;
    var i :| 0 <= i < |wanted| && wanted[i].itemId == id;
    var p, k := ChunkOfLine(parts, wanted[i]);
    LineAt(batches, first, parts, first + p, k, id);
  }

  lemma WantedOnce(wanted: seq<Wanted>, batches: map<nat, Batch>, first: nat, parts: seq<seq<Wanted>>)
    requires DistinctItems(wanted) && Concat(parts) == wanted && Chunked(batches, first, parts)
    ensures OnceOnly(batches, first, |parts|)
  {
    hide Concat, Chunked, DistinctItems, BothAt;
    forall b: nat, k: nat, c: nat, l: nat, id: nat | BothAt(batches, b, k, c, l, id)
      ensures first <= b < first + |parts| && first <= c < first + |parts| ==> b == c && k == l
    {
      SamePlace(wanted, batches, first, parts, b, k, c, l, id);
    }
  }

  lemma LineFound(batches: map<nat, Batch>, first: nat, parts: seq<seq<Wanted>>, p: nat, k: nat, id: nat)
    requires Chunked(batches, first, parts) && p < |parts| && QueuedAt(batches, first + p, k, id)
    ensures k < |parts[p]| && parts[p][k].itemId == id
  {
    LineAt(batches, first, parts, first + p, k, id);
  }

  lemma SamePlace(wanted: seq<Wanted>, batches: map<nat, Batch>, first: nat, parts: seq<seq<Wanted>>,
                  b: nat, k: nat, c: nat, l: nat, id: nat)
    requires DistinctItems(wanted) && Concat(parts) == wanted && Chunked(batches, first, parts)
    requires BothAt(batches, b, k, c, l, id)
    ensures first <= b < first + |parts| && first <= c < first + |parts| ==> b == c && k == l
  {
    hide Concat, Chunked, DistinctItems, QueuedAt;
    if first <= b < first + |parts| && first <= c < first + |parts| {
      var p, q := b - first, c - first;
      LineFound(batches, first, parts, p, k, id);
      LineFound(batches, first, parts, q, l, id);
      ChunksApart(parts, p, k, q, l);
    }
  }

  lemma QueuedColumns(t: Tables, jobId: string, inc: bool, wanted: seq<Wanted>, size: nat, batches: map<nat, Batch>,
                      first: nat, actor: string, now: int)
    requires Wants(t, jobId, inc, wanted) && size > 0
    requires Holding(batches, first, Chunks(wanted, size), |Chunks(wanted, size)|, jobId, actor, now)
    ensures QueuedAll(t, jobId, inc, size, batches, first, |Chunks(wanted, size)|, actor, now)
  {
    hide Chunks, Concat, ToDraft, Holding, FreshAll, NothingElse, Queued, OnceOnly, Chunked, DistinctItems, Lists,
      Collected, Eligible;
    ChunksCover(wanted, size);
    AllFresh(wanted, size, batches, first, jobId, actor, now);
    OnlyWanted(t, jobId, inc, wanted, batches, first, Chunks(wanted, size));
    forall id | ToDraft(t, jobId, id, inc)
      ensures Queued(batches, first, |Chunks(wanted, size)|, id)
    {
      EligibleMeans(t, jobId, id, inc);
      WantedQueued(wanted, batches, first, Chunks(wanted, size), id);
    }
    WantedOnce(wanted, batches, first, Chunks(wanted, size));
  }
}
