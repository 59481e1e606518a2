/**
 * The section tables and their two writers (section_persistence.py). Every engine.begin() block is one atomic
 * step; identifiers come from a counter, standing for uuid4.
 */
module SectionPersistence {
  import opened Common
  import opened SectionWorkflow

  datatype WorkflowRow = WorkflowRow(jobId: string, rulesetVersion: string, aiEnabled: bool, rendererUsesAi: bool)

  datatype ItemRow = ItemRow(
    workflowId: nat,
    sectionKey: string,
    workflowStatus: WorkflowStatus,
    currentRevision: int,
    selected: Selected,
    payload: Item)

  datatype RevisionRow = RevisionRow(itemId: nat, revision: int, action: WorkflowStatus, actor: string, payload: Item)

  datatype Tables = Tables(
    workflows: map<nat, WorkflowRow>,
    items: map<nat, ItemRow>,
    revisions: seq<RevisionRow>,
    nextId: nat)

  datatype Document = Document(rulesetVersion: string, aiEnabled: bool, items: seq<Item>)

  const EmptyTables := Tables(map[], map[], [], 0)

  predicate IsWorkflowOf(t: Tables, wid: nat, jobId: string) {
    wid in t.workflows && t.workflows[wid].jobId == jobId
  }

  /** The unique constraint on job_id makes this the first and only workflow of a job. */
  predicate HasWorkflow(t: Tables, jobId: string) {
    exists wid :: wid in t.workflows && IsWorkflowOf(t, wid, jobId)
  }

  predicate HasItem(t: Tables, jobId: string, id: nat) {
    id in t.items && IsWorkflowOf(t, t.items[id].workflowId, jobId)
  }

  function RowOf(wid: nat, item: Item): ItemRow {
    ItemRow(wid, item.facts.sectionKey, item.workflowStatus, item.revision, item.selected, item)
  }

  function Logged(id: nat, item: Item, action: WorkflowStatus, actor: string): RevisionRow {
    RevisionRow(id, item.revision, action, actor, item)
  }

  // ----- persist_baseline -----

  predicate DistinctKeys(items: seq<Item>) {
    forall i, j :: 0 <= i < j < |items| ==> items[i].facts.sectionKey != items[j].facts.sectionKey
  }

  function InsertItem(t: Tables, wid: nat, item: Item): Tables {
    t.(items := t.items[t.nextId := RowOf(wid, item)],
       revisions := t.revisions + [Logged(t.nextId, item, Generated, "system")],
       nextId := t.nextId + 1)
  }

  function InsertItems(t: Tables, wid: nat, items: seq<Item>): Tables {
    if items == [] then t
    else InsertItem(InsertItems(t, wid, items[..|items| - 1]), wid, items[|items| - 1])
  }

  function InsertWorkflow(t: Tables, jobId: string, doc: Document): Tables {
    t.(workflows := t.workflows[t.nextId := WorkflowRow(jobId, doc.rulesetVersion, doc.aiEnabled, false)],
       nextId := t.nextId + 1)
  }

  /** A job that already has a workflow is left alone; a repeated section key rolls the whole insertion back. */
  function Persisted(t: Tables, jobId: string, doc: Document): Tables {
    if HasWorkflow(t, jobId) || !DistinctKeys(doc.items) then t
    else InsertItems(InsertWorkflow(t, jobId, doc), t.nextId, doc.items)
  }

  // ----- transition -----

  function ActionStatus(action: Action): WorkflowStatus {
    match action
    case DraftAction => AiDrafted
    case ReviewAction => Reviewed
    case ApproveAction => Approved
    case UnknownAction(_) => Generated
  }

  /** The checks of transition in their order, and the item it would store. */
  function Checked(t: Tables, jobId: string, id: nat, expected: int, req: Request, actor: string): Result<Item, Error> {
    if Strip(actor) == [] then Err(BlankActor)
    else if !HasItem(t, jobId, id) then Err(NotFound)
    else if t.items[id].currentRevision != expected then Err(RevisionConflict)
    else Advance(t.items[id].payload, req)
  }

  function Written(t: Tables, id: nat, changed: Item, req: Request, actor: string): Tables
    requires id in t.items && t.items[id].workflowId in t.workflows
  {
    var row := t.items[id];
    t.(items := t.items[id := row.(workflowStatus := changed.workflowStatus, currentRevision := changed.revision,
                                   selected := changed.selected, payload := changed)],
       revisions := t.revisions + [Logged(id, changed, ActionStatus(req.action), Strip(actor))],
       workflows := t.workflows[row.workflowId := t.workflows[row.workflowId].(rendererUsesAi := true)])
  }

  function Transitioned(t: Tables, jobId: string, id: nat, expected: int, req: Request, actor: string): Tables {
    match Checked(t, jobId, id, expected, req, actor)
    case Err(_) => t
    case Ok(changed) => Written(t, id, changed, req, actor)
  }

  // ----- The history of one item -----

  function History(log: seq<RevisionRow>, id: nat): (h: seq<RevisionRow>)
    ensures forall k :: 0 <= k < |h| ==> h[k].itemId == id
  {
    if log == [] then []
    else
      var before := History(log[..|log| - 1], id);
      if log[|log| - 1].itemId == id then before + [log[|log| - 1]] else before
  }

  lemma HistoryAppend(log: seq<RevisionRow>, row: RevisionRow, id: nat)
    ensures History(log + [row], id) == if row.itemId == id then History(log, id) + [row] else History(log, id)
  {
    assert (log + [row])[..|log|] == log;
  }

  function GivenText(n: Option<Narrative>): (Option<string>, Option<string>) {
    if n.Some? then (Some(n.value.observation), Some(n.value.recommendation)) else (None, None)
  }

  /** The request that a logged revision answers, read back from its payload. */
  function RequestOf(row: RevisionRow): Request {
    match row.action
    case AiDrafted => var (o, r) := GivenText(row.payload.aiDraft); Request(DraftAction, o, r)
    case Reviewed => var (o, r) := GivenText(row.payload.reviewed); Request(ReviewAction, o, r)
    case Approved => Approval
    case Generated => Request(UnknownAction("generated"), None, None)
  }

  function Requests(h: seq<RevisionRow>): (reqs: seq<Request>)
    ensures |reqs| == |h|
    ensures forall k :: 0 <= k < |h| ==> reqs[k] == RequestOf(h[k])
  {
    if h == [] then [] else Requests(h[..|h| - 1]) + [RequestOf(h[|h| - 1])]
  }

  /** Revision k is an accepted edit of the revision before it. */
  ghost predicate Edits(h: seq<RevisionRow>, k: int) {
    0 < k < |h| && Advance(h[k - 1].payload, RequestOf(h[k])) == Ok(h[k].payload)
  }

  ghost predicate Numbered(h: seq<RevisionRow>) {
    forall k :: 0 <= k < |h| ==> h[k].revision == k + 1 == h[k].payload.revision
  }

  /** Revisions numbered 1, 2, 3, ..., starting from a baseline, each one an accepted edit of the one before. */
  ghost predicate Chain(h: seq<RevisionRow>) {
    && h != []
    && h[0].action == Generated && IsBaseline(h[0].payload)
    && Numbered(h)
    && (forall k :: 0 < k < |h| ==> Edits(h, k))
  }

  ghost predicate RowMirrors(row: ItemRow, h: seq<RevisionRow>)
    requires h != []
  {
    var last := h[|h| - 1].payload;
    && row.payload == last && row.currentRevision == |h|
    && row.workflowStatus == last.workflowStatus && row.selected == last.selected
    && row.sectionKey == last.facts.sectionKey
  }

  ghost predicate ItemOk(t: Tables, id: nat)
    requires id in t.items
  {
    var h := History(t.revisions, id);
    && Chain(h)
    && RowMirrors(t.items[id], h)
    && t.items[id].workflowId in t.workflows
    && (|h| > 1 ==> t.workflows[t.items[id].workflowId].rendererUsesAi)
  }

  ghost predicate UniqueJobs(t: Tables) {
    forall a, b :: a in t.workflows && b in t.workflows && t.workflows[a].jobId == t.workflows[b].jobId ==> a == b
  }

  predicate SameKey(a: ItemRow, b: ItemRow) {
    a.workflowId == b.workflowId && a.sectionKey == b.sectionKey
  }

  ghost predicate UniqueKeys(t: Tables) {
    forall a, b :: a in t.items && b in t.items && SameKey(t.items[a], t.items[b]) ==> a == b
  }

  ghost predicate ItemsOk(t: Tables) {
    forall id :: id in t.items ==> ItemOk(t, id)
  }

  ghost predicate IdsOk(t: Tables) {
    && (forall wid :: wid in t.workflows ==> wid < t.nextId)
    && (forall id :: id in t.items ==> id < t.nextId)
    && (forall k :: 0 <= k < |t.revisions| ==> t.revisions[k].itemId in t.items)
  }

  ghost predicate Inv(t: Tables) {
    IdsOk(t) && ItemsOk(t) && UniqueJobs(t) && UniqueKeys(t)
  }

  ghost predicate BaselineDoc(doc: Document) {
    forall k :: 0 <= k < |doc.items| ==> IsBaseline(doc.items[k])
  }

  lemma {:induction false} NoHistory(log: seq<RevisionRow>, id: nat)
    requires forall k :: 0 <= k < |log| ==> log[k].itemId != id
    ensures History(log, id) == []
  {
    if log != [] {
      NoHistory(log[..|log| - 1], id);
    }
  }

  ghost predicate FreshKey(t: Tables, wid: nat, key: string) {
    forall id :: id in t.items && t.items[id].workflowId == wid ==> t.items[id].sectionKey != key
  }

  /** An item whose row, history and rendering flag did not get worse stays correct. */
  lemma ItemFrame(t: Tables, t': Tables, id: nat)
    requires id in t.items && ItemOk(t, id)
    requires id in t'.items && t'.items[id] == t.items[id]
    requires History(t'.revisions, id) == History(t.revisions, id)
    requires t.items[id].workflowId in t'.workflows
    requires t.workflows[t.items[id].workflowId].rendererUsesAi ==> t'.workflows[t.items[id].workflowId].rendererUsesAi
    ensures ItemOk(t', id)
  {
  }

  lemma FirstRevision(row: RevisionRow)
    requires IsBaseline(row.payload) && row.action == Generated && row.revision == row.payload.revision
    ensures Chain([row]) && row.revision == 1
  {
  }

  lemma InsertItemOk(t: Tables, wid: nat, item: Item)
    requires IdsOk(t) && ItemsOk(t) && IsBaseline(item) && wid in t.workflows
    ensures ItemsOk(InsertItem(t, wid, item))
  {
    hide IsBaseline, Chain, History;
    var t', row := InsertItem(t, wid, item), Logged(t.nextId, item, Generated, "system");
    forall id | id in t'.items
      ensures ItemOk(t', id)
    {
      HistoryAppend(t.revisions, row, id);
      if id == t.nextId {
        NoHistory(t.revisions, id);
        FirstRevision(row);
        assert [] + [row] == [row];
      } else {
        ItemFrame(t, t', id);
      }
    }
  }

  lemma InsertItemInv(t: Tables, wid: nat, item: Item)
    requires Inv(t) && IsBaseline(item) && wid in t.workflows && FreshKey(t, wid, item.facts.sectionKey)
    ensures Inv(InsertItem(t, wid, item))
  {
    hide ItemOk, IsBaseline;
    InsertItemOk(t, wid, item);
  }

  /** The section keys of one workflow are those of the items inserted for it. */
  ghost predicate KeysFrom(t: Tables, wid: nat, items: seq<Item>) {
    forall id :: id in t.items && t.items[id].workflowId == wid ==>
      exists k :: 0 <= k < |items| && items[k].facts.sectionKey == t.items[id].sectionKey
  }

  lemma {:induction false} InsertedKeys(t: Tables, wid: nat, items: seq<Item>)
    requires forall id :: id in t.items ==> t.items[id].workflowId != wid
    ensures KeysFrom(InsertItems(t, wid, items), wid, items)
  {
    if items != [] {
      var n := |items| - 1;
      InsertedKeys(t, wid, items[..n]);
      var t1, t2 := InsertItems(t, wid, items[..n]), InsertItems(t, wid, items);
      forall id | id in t2.items && t2.items[id].workflowId == wid
        ensures exists k :: 0 <= k < |items| && items[k].facts.sectionKey == t2.items[id].sectionKey
      {
        if id == t1.nextId {
          assert items[n].facts.sectionKey == t2.items[id].sectionKey;
        } else {
          assert id in t1.items;
          var k :| 0 <= k < n && items[..n][k].facts.sectionKey == t1.items[id].sectionKey;
          assert items[k].facts.sectionKey == t2.items[id].sectionKey;
        }
      }
    }
  }

  lemma FreshFromKeys(t: Tables, wid: nat, items: seq<Item>, item: Item)
    requires KeysFrom(t, wid, items)
    requires forall k :: 0 <= k < |items| ==> items[k].facts.sectionKey != item.facts.sectionKey
    ensures FreshKey(t, wid, item.facts.sectionKey)
  {
  }

  lemma {:induction false} InsertItemsInv(t: Tables, wid: nat, items: seq<Item>)
    requires Inv(t) && wid in t.workflows
    requires forall k :: 0 <= k < |items| ==> IsBaseline(items[k])
    requires forall id :: id in t.items ==> t.items[id].workflowId != wid
    requires DistinctKeys(items)
    ensures Inv(InsertItems(t, wid, items))
    ensures InsertItems(t, wid, items).workflows == t.workflows
  {
    if items != [] {
      var n := |items| - 1;
      InsertItemsInv(t, wid, items[..n]);
      InsertedKeys(t, wid, items[..n]);
      FreshFromKeys(InsertItems(t, wid, items[..n]), wid, items[..n], items[n]);
      InsertItemInv(InsertItems(t, wid, items[..n]), wid, items[n]);
    }
  }

  lemma PersistedInv(t: Tables, jobId: string, doc: Document)
    requires Inv(t) && BaselineDoc(doc)
    ensures Inv(Persisted(t, jobId, doc))
  {
    if !HasWorkflow(t, jobId) && DistinctKeys(doc.items) {
      var t1 := InsertWorkflow(t, jobId, doc);
      forall id | id in t1.items
        ensures ItemOk(t1, id)
      {
        ItemFrame(t, t1, id);
      }
      forall wid | wid in t.workflows
        ensures t.workflows[wid].jobId != jobId
      {
        assert !IsWorkflowOf(t, wid, jobId);
      }
      assert Inv(t1);
      InsertItemsInv(t1, t.nextId, doc.items);
    }
  }

  lemma RequestReadBack(before: Item, req: Request, row: RevisionRow)
    requires Advance(before, req) == Ok(row.payload) && row.action == ActionStatus(req.action)
    ensures Advance(before, RequestOf(row)) == Ok(row.payload)
    ensures RequestOf(row).action == req.action
    ensures row.payload.revision == before.revision + 1
    ensures row.payload.facts.sectionKey == before.facts.sectionKey
  {
  }

  lemma ChainGrows(h: seq<RevisionRow>, row: RevisionRow, req: Request)
    requires Chain(h)
    requires Advance(h[|h| - 1].payload, req) == Ok(row.payload)
    requires row.action == ActionStatus(req.action) && row.revision == row.payload.revision
    ensures Chain(h + [row]) && row.revision == |h| + 1
  {
    RequestReadBack(h[|h| - 1].payload, req, row);
    forall k | 0 < k < |h + [row]|
      ensures Edits(h + [row], k)
    {
      if k < |h| {
        assert Edits(h, k);
      }
    }
  }

  lemma {:induction false} WrittenItemsOk(t: Tables, id: nat, changed: Item, req: Request, actor: string)
    requires ItemsOk(t) && id in t.items && Advance(t.items[id].payload, req) == Ok(changed)
    ensures ItemOk(t, id)
    ensures ItemsOk(Written(t, id, changed, req, actor))
    ensures changed.facts.sectionKey == t.items[id].sectionKey
  {
    hide Advance, RequestOf, Chain, History, IsBaseline, Strip;
    var t', row := Written(t, id, changed, req, actor), Logged(id, changed, ActionStatus(req.action), Strip(actor));
    assert ItemOk(t, id);
    ChainGrows(History(t.revisions, id), row, req);
    RequestReadBack(t.items[id].payload, req, row);
    forall other | other in t'.items
      ensures ItemOk(t', other)
    {
      HistoryAppend(t.revisions, row, other);
      if other != id {
        ItemFrame(t, t', other);
      }
    }
  }

  lemma WrittenIds(t: Tables, id: nat, changed: Item, req: Request, actor: string)
    requires IdsOk(t) && UniqueJobs(t) && UniqueKeys(t)
    requires id in t.items && t.items[id].workflowId in t.workflows
    ensures IdsOk(Written(t, id, changed, req, actor))
    ensures UniqueJobs(Written(t, id, changed, req, actor))
    ensures UniqueKeys(Written(t, id, changed, req, actor))
  {
    hide RequestOf, Strip, ActionStatus;
    var t' := Written(t, id, changed, req, actor);
    assert t'.items.Keys == t.items.Keys && t'.workflows.Keys == t.workflows.Keys && t'.nextId == t.nextId;
    assert forall wid :: wid in t.workflows ==> t'.workflows[wid].jobId == t.workflows[wid].jobId;
    assert forall k :: k in t.items ==> SameKey(t'.items[k], t.items[k]);
    hide Written;
  }

  lemma {:induction false} TransitionedInv(t: Tables, jobId: string, id: nat, expected: int, req: Request,
      actor: string)
    requires Inv(t)
    ensures Inv(Transitioned(t, jobId, id, expected, req, actor))
  {
    match Checked(t, jobId, id, expected, req, actor)
    case Err(_) =>
    case Ok(changed) =>
      hide Advance, Strip, ItemOk, IdsOk, UniqueJobs, UniqueKeys;
      WrittenItemsOk(t, id, changed, req, actor);
      WrittenIds(t, id, changed, req, actor);
  }
}
