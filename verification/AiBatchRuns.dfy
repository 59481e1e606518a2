/**
 * AI batches and section edits together, in every interleaving: batch creation, claims, the four stages of each item
 * in a worker, crashes between any two of them, recovery of running batches, and requests of engineers.
 *
 * A worker takes a batch as it is at its claim. Its items move independently, which covers both the sequential text
 * items and the concurrent image items of run_ai_batch_once.
 */
module AiBatchRuns {
  import opened Common
  import opened SectionWorkflow
  import opened SectionPersistence
  import S = SectionRuns
  import opened AiBatch

  /** A claimed item: untouched, read at the expected revision, waiting to be recorded, recorded. */
  datatype Stage = Untouched | Checked | ToRecord(state: ItemState) | Recorded

  datatype Proc = Resting | Busy(batch: nat, flight: map<nat, Stage>)

  /** A draft that a worker wrote for a batch item: it answered the request expecting that revision. */
  datatype DraftWrite = DraftWrite(batch: nat, ordinal: nat, itemId: nat, expected: int)

  datatype World = World(
    tables: Tables,
    batches: map<nat, Batch>,
    nextBatch: nat,
    procs: map<string, Proc>,
    writes: seq<DraftWrite>)

  datatype Step =
    | Section(step: S.Step)
    | CreateBatch(jobId: string, actor: string, wanted: seq<Wanted>, maxItems: nat, now: int)
    | ClaimBatch(worker: string, batch: nat, now: int)
    | Look(worker: string, ordinal: nat)
    | NoDraft(worker: string, ordinal: nat)
    | WriteDraft(worker: string, ordinal: nat, observation: string, recommendation: string, actor: string)
    | RecordItem(worker: string, ordinal: nat, now: int)
    | Finalize(worker: string)
    | Crash(worker: string)
    | RecoverBatches(ids: set<nat>)

  const Initial := World(EmptyTables, map[], 0, map[], [])

  function ProcOf(w: World, worker: string): Proc {
    if worker in w.procs then w.procs[worker] else Resting
  }

  /** The worker has this item of an existing batch in the given stage. */
  predicate InFlight(w: World, worker: string, ordinal: nat, stage: Stage) {
    var p := ProcOf(w, worker);
    p.Busy? && p.batch in w.batches && ordinal < |w.batches[p.batch].items| &&
    ordinal in p.flight && p.flight[ordinal] == stage
  }

  predicate Recordable(w: World, worker: string, ordinal: nat) {
    var p := ProcOf(w, worker);
    p.Busy? && p.batch in w.batches && ordinal < |w.batches[p.batch].items| &&
    ordinal in p.flight && p.flight[ordinal].ToRecord? && Terminal(p.flight[ordinal].state)
  }

  predicate AllRecorded(p: Proc) {
    p.Busy? && forall k :: k in p.flight ==> p.flight[k] == Recorded
  }

  predicate Enabled(w: World, step: Step) {
    match step
    case Section(_) => true
    case CreateBatch(jobId, actor, wanted, maxItems, _) => CreateProblem(w.tables, jobId, actor, wanted, maxItems).None?
    case ClaimBatch(worker, b, _) =>
      ProcOf(w, worker) == Resting && b in w.batches && w.batches[b].status == BatchQueued
    case Look(worker, k) => InFlight(w, worker, k, Untouched)
    case NoDraft(worker, k) => InFlight(w, worker, k, Checked)
    case WriteDraft(worker, k, _, _, _) => InFlight(w, worker, k, Checked)
    case RecordItem(worker, k, _) => Recordable(w, worker, k)
    case Finalize(worker) => AllRecorded(ProcOf(w, worker)) && ProcOf(w, worker).batch in w.batches
    case Crash(_) => true
    case RecoverBatches(ids) => forall b :: b in ids ==> b in w.batches && w.batches[b].status == BatchRunning
  }

  /** The items that a claim hands to the worker: those not terminal yet. */
  function OpenItems(items: seq<BatchItem>): map<nat, Stage> {
    map k: nat | k < |items| && items[k].state == Waiting :: Untouched
  }

  function SetStage(w: World, worker: string, ordinal: nat, stage: Stage): World
    requires ProcOf(w, worker).Busy?
  {
    var p := ProcOf(w, worker);
    w.(procs := w.procs[worker := p.(flight := p.flight[ordinal := stage])])
  }

  function BatchItemOf(w: World, worker: string, ordinal: nat): BatchItem
    requires var p := ProcOf(w, worker); p.Busy? && p.batch in w.batches && ordinal < |w.batches[p.batch].items|
  {
    w.batches[ProcOf(w, worker).batch].items[ordinal]
  }

  /** The first half of process_item: get_item, then the worker's own comparison of revisions. */
  function LookStage(t: Tables, jobId: string, item: BatchItem): Stage {
    if !HasItem(t, jobId, item.itemId) || !Loadable(t.items[item.itemId].payload) then ToRecord(Fallback)
    else if t.items[item.itemId].payload.revision != item.expected then ToRecord(Conflict)
    else Checked
  }

  function DraftRequest(observation: string, recommendation: string): Request {
    Request(DraftAction, Some(observation), Some(recommendation))
  }

  function WrittenDraft(w: World, worker: string, ordinal: nat, observation: string, recommendation: string,
      actor: string): World
    requires InFlight(w, worker, ordinal, Checked)
  {
    var p, item, req := ProcOf(w, worker), BatchItemOf(w, worker, ordinal), DraftRequest(observation, recommendation);
    var jobId := w.batches[p.batch].jobId;
    if SectionPersistence.Checked(w.tables, jobId, item.itemId, item.expected, req, actor).Err? then
      SetStage(w, worker, ordinal, ToRecord(Conflict))
    else
      SetStage(w.(tables := Transitioned(w.tables, jobId, item.itemId, item.expected, req, actor),
                  writes := w.writes + [DraftWrite(p.batch, ordinal, item.itemId, item.expected)]),
               worker, ordinal, ToRecord(Drafted))
  }

  function Rested(w: World, worker: string): World {
    w.(procs := w.procs[worker := Resting])
  }

  function Finalized(w: World, worker: string): World
    requires var p := ProcOf(w, worker); p.Busy? && p.batch in w.batches
  {
    var id := ProcOf(w, worker).batch;
    var status := FinalStatus(w.batches[id]);
    Rested(if status.None? then w else w.(batches := w.batches[id := w.batches[id].(status := status.value)]), worker)
  }

  function Next(w: World, step: Step): World {
    if !Enabled(w, step) then w
    else match step
      case Section(s) => w.(tables := S.Apply(w.tables, s))
      case CreateBatch(jobId, actor, wanted, _, now) =>
        w.(batches := w.batches[w.nextBatch := NewBatch(jobId, actor, wanted, now)], nextBatch := w.nextBatch + 1)
      case ClaimBatch(worker, b, now) =>
        w.(batches := w.batches[b := ClaimedBatch(w.batches[b], worker, now)],
           procs := w.procs[worker := Busy(b, OpenItems(w.batches[b].items))])
      case Look(worker, k) =>
        SetStage(w, worker, k, LookStage(w.tables, w.batches[ProcOf(w, worker).batch].jobId, BatchItemOf(w, worker, k)))
      case NoDraft(worker, k) => SetStage(w, worker, k, ToRecord(Fallback))
      case WriteDraft(worker, k, o, r, actor) => WrittenDraft(w, worker, k, o, r, actor)
      case RecordItem(worker, k, now) =>
        var p := ProcOf(w, worker);
        SetStage(w.(batches := w.batches[p.batch := Finished(w.batches[p.batch], k, p.flight[k].state, now)]),
                 worker, k, Recorded)
      case Finalize(worker) => Finalized(w, worker)
      case Crash(worker) => Rested(w, worker)
      case RecoverBatches(ids) =>
        w.(batches := map b | b in w.batches :: if b in ids then Requeued(w.batches[b]) else w.batches[b])
  }

  function Run(steps: seq<Step>): World {
    if steps == [] then Initial else Next(Run(steps[..|steps| - 1]), steps[|steps| - 1])
  }

  ghost predicate FromBuilders(steps: seq<Step>) {
    forall k :: 0 <= k < |steps| && steps[k].Section? && steps[k].step.Persist? ==> BaselineDoc(steps[k].step.doc)
  }

  // ----- The section tables seen from the batches -----

  /** Revision number expected of the item exists, was draftable, and has been draftable ever since. */
  ghost predicate WasDraftable(t: Tables, itemId: nat, expected: int) {
    var h := History(t.revisions, itemId);
    1 <= expected <= |h| && Draftable(h[expected - 1].payload.workflowStatus)
  }

  /** The draft is revision expected + 1 of its item, written on top of a draftable revision. */
  ghost predicate WriteOk(t: Tables, x: DraftWrite) {
    var h := History(t.revisions, x.itemId);
    WasDraftable(t, x.itemId, x.expected) && x.expected < |h| && h[x.expected].action == AiDrafted
  }

  ghost predicate BatchOk(t: Tables, b: Batch) {
    forall k :: 0 <= k < |b.items| ==> WasDraftable(t, b.items[k].itemId, b.items[k].expected)
  }

  predicate Clash(x: DraftWrite, y: DraftWrite) {
    x.itemId == y.itemId && x.expected == y.expected
  }

  ghost predicate NoClash(writes: seq<DraftWrite>) {
    forall i, j :: 0 <= i < j < |writes| ==> !Clash(writes[i], writes[j])
  }

  ghost predicate BatchesOk(w: World) {
    forall b :: b in w.batches ==> BatchOk(w.tables, w.batches[b])
  }

  ghost predicate WritesOk(w: World) {
    (forall i :: 0 <= i < |w.writes| ==> WriteOk(w.tables, w.writes[i])) && NoClash(w.writes)
  }

  ghost predicate IdsBelow(w: World) {
    forall b :: b in w.batches ==> b < w.nextBatch
  }

  ghost predicate Inv(w: World) {
    SectionPersistence.Inv(w.tables) && IdsBelow(w) && BatchesOk(w) && WritesOk(w)
  }

  /** Histories of t are prefixes of those of t'. */
  ghost predicate Extends(t: Tables, t': Tables) {
    forall id :: History(t.revisions, id) <= History(t'.revisions, id)
  }

  lemma ApplyExtends(t: Tables, s: S.Step)
    ensures Extends(t, S.Apply(t, s))
  {
    S.ApplyAppends(t, s);
    var t' := S.Apply(t, s);
    hide S.Apply;
    forall id
      ensures History(t.revisions, id) <= History(t'.revisions, id)
    {
      assert t'.revisions == t.revisions + t'.revisions[|t.revisions|..];
      S.HistoryGrows(t.revisions, t'.revisions[|t.revisions|..], id);
    }
  }

  lemma ExtendsKeeps(t: Tables, t': Tables, itemId: nat, expected: int)
    requires Extends(t, t') && WasDraftable(t, itemId, expected)
    ensures WasDraftable(t', itemId, expected)
  {
    assert History(t.revisions, itemId) <= History(t'.revisions, itemId);
  }

  lemma ExtendsKeepsWrite(t: Tables, t': Tables, x: DraftWrite)
    requires Extends(t, t') && WriteOk(t, x)
    ensures WriteOk(t', x)
  {
    assert History(t.revisions, x.itemId) <= History(t'.revisions, x.itemId);
  }

  lemma ExtendsInv(w: World, t': Tables)
    requires Inv(w) && Extends(w.tables, t') && SectionPersistence.Inv(t')
    ensures Inv(w.(tables := t'))
  {
    hide SectionPersistence.Inv, Extends, WasDraftable, WriteOk;
    var w' := w.(tables := t');
    forall b | b in w.batches
      ensures BatchOk(t', w.batches[b])
    {
      assert BatchOk(w.tables, w.batches[b]);
      forall k | 0 <= k < |w.batches[b].items|
        ensures WasDraftable(t', w.batches[b].items[k].itemId, w.batches[b].items[k].expected)
      {
        ExtendsKeeps(w.tables, t', w.batches[b].items[k].itemId, w.batches[b].items[k].expected);
      }
    }
    forall i | 0 <= i < |w.writes|
      ensures WriteOk(t', w.writes[i])
    {
      ExtendsKeepsWrite(w.tables, t', w.writes[i]);
    }
  }

  // ----- Creation -----

  /** A line accepted by create names a revision that exists and is draftable. */
  lemma AcceptedLine(t: Tables, id: nat, expected: int)
    requires SectionPersistence.Inv(t) && id in t.items
    requires t.items[id].currentRevision == expected && Draftable(t.items[id].workflowStatus)
    ensures WasDraftable(t, id, expected)
  {
    assert ItemOk(t, id);
  }

  lemma CreatedBatchOk(t: Tables, jobId: string, actor: string, wanted: seq<Wanted>, maxItems: nat, now: int)
    requires SectionPersistence.Inv(t) && CreateProblem(t, jobId, actor, wanted, maxItems).None?
    ensures BatchOk(t, NewBatch(jobId, actor, wanted, now))
  {
    hide SectionPersistence.Inv, WasDraftable, Strip;
    forall k | 0 <= k < |wanted|
      ensures WasDraftable(t, wanted[k].itemId, wanted[k].expected)
    {
      assert HasItem(t, jobId, wanted[k].itemId);
      NoProblem(t, wanted, k);
      AcceptedLine(t, wanted[k].itemId, wanted[k].expected);
    }
  }

  lemma AddBatchInv(w: World, b: Batch)
    requires Inv(w) && BatchOk(w.tables, b)
    ensures Inv(w.(batches := w.batches[w.nextBatch := b], nextBatch := w.nextBatch + 1))
  {
    hide SectionPersistence.Inv, BatchOk, WriteOk;
  }

  // ----- Writing a draft -----

  /**
   * An accepted draft request is answered by revision expected + 1, logged as ai_drafted, and no revision beyond
   * expected existed before.
   */
  lemma AcceptedDraft(t: Tables, jobId: string, id: nat, expected: int, o: string, r: string, actor: string)
    requires SectionPersistence.Inv(t)
    requires SectionPersistence.Checked(t, jobId, id, expected, DraftRequest(o, r), actor).Ok?
    ensures |History(t.revisions, id)| == expected
    ensures var h := History(Transitioned(t, jobId, id, expected, DraftRequest(o, r), actor).revisions, id);
      |h| == expected + 1 && h[expected].action == AiDrafted
  {
    assert ItemOk(t, id);
    var changed := SectionPersistence.Checked(t, jobId, id, expected, DraftRequest(o, r), actor).value;
    hide Advance, Chain, Strip;
    HistoryAppend(t.revisions, Logged(id, changed, AiDrafted, Strip(actor)), id);
  }

  lemma {:induction false} WrittenDraftInv(w: World, worker: string, k: nat, o: string, r: string, actor: string)
    requires Inv(w) && InFlight(w, worker, k, Checked)
    ensures Inv(WrittenDraft(w, worker, k, o, r, actor))
  {
    hide SectionPersistence.Inv, SectionPersistence.Checked, Transitioned, History, WasDraftable;
    var p, item, req := ProcOf(w, worker), BatchItemOf(w, worker, k), DraftRequest(o, r);
    var jobId := w.batches[p.batch].jobId;
    if SectionPersistence.Checked(w.tables, jobId, item.itemId, item.expected, req, actor).Ok? {
      var t' := Transitioned(w.tables, jobId, item.itemId, item.expected, req, actor);
      var x := DraftWrite(p.batch, k, item.itemId, item.expected);
      AcceptedDraft(w.tables, jobId, item.itemId, item.expected, o, r, actor);
      forall i | 0 <= i < |w.writes|
        ensures !Clash(w.writes[i], x)
      {
        assert WriteOk(w.tables, w.writes[i]);
      }
      assert BatchOk(w.tables, w.batches[p.batch]);
      TransitionExtends(w.tables, jobId, item.itemId, item.expected, req, actor);
      TransitionedInv(w.tables, jobId, item.itemId, item.expected, req, actor);
      ExtendsInv(w, t');
      ExtendsKeeps(w.tables, t', item.itemId, item.expected);
      assert WriteOk(t', x);
    }
  }

  lemma TransitionExtends(t: Tables, jobId: string, id: nat, expected: int, req: Request, actor: string)
    ensures Extends(t, Transitioned(t, jobId, id, expected, req, actor))
  {
    ApplyExtends(t, S.Transit(jobId, id, expected, req, actor));
  }

  // ----- Steps on batches alone -----

  /** The batches may change state, counters and ownership, but not what their items ask for. */
  predicate SameDemands(b: Batch, b': Batch) {
    |b'.items| == |b.items| &&
    forall k :: 0 <= k < |b.items| ==>
      b'.items[k].itemId == b.items[k].itemId && b'.items[k].expected == b.items[k].expected
  }

  ghost predicate SameBatches(w: World, w': World) {
    && w'.nextBatch == w.nextBatch && w'.batches.Keys == w.batches.Keys
    && forall b :: b in w.batches ==> SameDemands(w.batches[b], w'.batches[b])
  }

  /** Steps that neither write sections nor create batches. */
  lemma WorkerStep(w: World, step: Step)
    requires Enabled(w, step) && !step.Section? && !step.CreateBatch? && !step.WriteDraft?
    ensures Next(w, step).tables == w.tables && Next(w, step).writes == w.writes
    ensures SameBatches(w, Next(w, step))
  {
    hide LookStage, CreateProblem, S.Apply, WrittenDraft, OpenItems;
  }

  lemma DemandsInv(w: World, w': World)
    requires Inv(w) && w'.tables == w.tables && w'.writes == w.writes
    requires SameBatches(w, w')
    ensures Inv(w')
  {
    hide SectionPersistence.Inv, WasDraftable, WriteOk;
    forall b | b in w'.batches
      ensures BatchOk(w'.tables, w'.batches[b])
    {
      assert BatchOk(w.tables, w.batches[b]);
    }
  }

  lemma {:induction false} NextInv(w: World, step: Step)
    requires Inv(w)
    requires step.Section? && step.step.Persist? ==> BaselineDoc(step.step.doc)
    ensures Inv(Next(w, step))
  {
    hide SectionPersistence.Inv, CreateProblem, BatchOk, NewBatch, S.Apply, WriteOk, NoClash, LookStage, Finished,
      OpenItems;
    if Enabled(w, step) {
      match step
      case Section(s) => SectionInv(w, s);
      case CreateBatch(jobId, actor, wanted, maxItems, now) =>
        CreatedBatchOk(w.tables, jobId, actor, wanted, maxItems, now);
        AddBatchInv(w, NewBatch(jobId, actor, wanted, now));
      case WriteDraft(worker, k, o, r, actor) => WrittenDraftInv(w, worker, k, o, r, actor);
      case _ =>
        hide Inv, Next;
        WorkerStep(w, step);
        DemandsInv(w, Next(w, step));
    }
  }

  lemma {:induction false} SectionInv(w: World, s: S.Step)
    requires Inv(w) && (s.Persist? ==> BaselineDoc(s.doc))
    ensures Inv(w.(tables := S.Apply(w.tables, s)))
  {
    S.ApplyInv(w.tables, s);
    ApplyExtends(w.tables, s);
    ExtendsInv(w, S.Apply(w.tables, s));
  }

  lemma {:induction false} RunInv(steps: seq<Step>)
    requires FromBuilders(steps)
    ensures Inv(Run(steps))
  {
    if steps != [] {
      hide Inv, Next;
      RunInv(steps[..|steps| - 1]);
      NextInv(Run(steps[..|steps| - 1]), steps[|steps| - 1]);
    } else {
      InitialInv();
    }
  }

  lemma InitialInv()
    ensures Inv(Initial)
  {
  }

  /**
   * Whatever the interleaving, with any number of workers on the same batch: no two drafts written by batches answer
   * the same revision of the same item; each is exactly the revision after the expected one; and the revision it
   * replaces was generated or ai_drafted, never reviewed or approved.
   */
  lemma {:induction false} AtMostOneBatchDraft(steps: seq<Step>)
    requires FromBuilders(steps)
    ensures var w := Run(steps);
      && (forall i, j :: 0 <= i < j < |w.writes| ==>
            w.writes[i].itemId != w.writes[j].itemId || w.writes[i].expected != w.writes[j].expected)
      && (forall i :: 0 <= i < |w.writes| ==>
            var h := History(w.tables.revisions, w.writes[i].itemId); var e := w.writes[i].expected;
            && 1 <= e < |h|
            && h[e].revision == e + 1 && h[e].action == AiDrafted
            && h[e - 1].payload.workflowStatus in {Generated, AiDrafted})
  {
    RunInv(steps);
    var w := Run(steps);
    forall i | 0 <= i < |w.writes|
      ensures var h := History(w.tables.revisions, w.writes[i].itemId); var e := w.writes[i].expected;
        && 1 <= e < |h|
        && h[e].revision == e + 1 && h[e].action == AiDrafted
        && h[e - 1].payload.workflowStatus in {Generated, AiDrafted}
    {
      assert WriteOk(w.tables, w.writes[i]);
      NumberedHistory(w.tables, w.writes[i].itemId);
    }
    forall i, j | 0 <= i < j < |w.writes|
      ensures w.writes[i].itemId != w.writes[j].itemId || w.writes[i].expected != w.writes[j].expected
    {
      assert !Clash(w.writes[i], w.writes[j]);
    }
  }

  lemma NumberedHistory(t: Tables, id: nat)
    requires SectionPersistence.Inv(t)
    ensures Numbered(History(t.revisions, id))
  {
    if id in t.items {
      assert ItemOk(t, id);
    } else {
      NoHistory(t.revisions, id);
    }
  }
}
