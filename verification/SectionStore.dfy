/** The store object over the section tables (class SectionWorkflowStore). */
module SectionStore {
  import opened Common
  import opened SectionWorkflow
  import opened SectionPersistence
  import opened SectionRuns

  /** Promotion of a current AI draft: its own text, reviewed and then approved. */
  function Promoted(item: Item): Item
    requires item.aiDraft.Some?
  {
    var draft := item.aiDraft.value;
    ReviewDraft(item, draft.observation, draft.recommendation).(
      workflowStatus := Approved,
      revision := item.revision + 2,
      approved := Some(Narrative(EngineerSource, draft.observation, draft.recommendation)),
      selected := SelectedApproved)
  }

  predicate IsDrafted(item: Item) {
    item.workflowStatus == AiDrafted && item.aiDraft.Some?
  }

  /** What a complete bulk approval leaves in place of the row of an item. */
  function BulkRow(row: ItemRow): ItemRow {
    if !IsDrafted(row.payload) then row
    else
      var item := Promoted(row.payload);
      row.(workflowStatus := item.workflowStatus, currentRevision := item.revision, selected := item.selected,
           payload := item)
  }

  /** t' differs from t in nothing but promoted items of done, and every item of done is in its final form. */
  ghost predicate BulkApplied(t: Tables, t': Tables, done: set<nat>) {
    && t'.items.Keys == t.items.Keys
    && (forall id :: id in t.items && id !in done ==> t'.items[id] == t.items[id])
    && (forall id :: id in t.items ==> t'.items[id].workflowId == t.items[id].workflowId)
    && (forall id :: id in done && id in t.items ==> t'.items[id] == BulkRow(t.items[id]))
    && t'.workflows.Keys == t.workflows.Keys
    && (forall wid :: wid in t.workflows ==> t'.workflows[wid].jobId == t.workflows[wid].jobId)
    && t.revisions <= t'.revisions
  }

  /** The review request of the bulk action: the draft's own text. */
  function DraftReview(item: Item): Request
    requires item.aiDraft.Some?
  {
    Request(ReviewAction, Some(item.aiDraft.value.observation), Some(item.aiDraft.value.recommendation))
  }

  lemma PromotionSteps(item: Item)
    requires Loadable(item) && IsDrafted(item)
    ensures Advance(item, DraftReview(item)).Ok?
    ensures var reviewed := Advance(item, DraftReview(item)).value;
      reviewed.revision == item.revision + 1 && Advance(reviewed, Approval) == Ok(Promoted(item))
  {
  }

  lemma AcceptedWrite(t: Tables, jobId: string, id: nat, req: Request, actor: string)
    requires HasItem(t, jobId, id) && Strip(actor) != []
    requires Advance(t.items[id].payload, req).Ok?
    ensures var changed := Advance(t.items[id].payload, req).value; var e := t.items[id].currentRevision;
      && Checked(t, jobId, id, e, req, actor) == Ok(changed)
      && Transitioned(t, jobId, id, e, req, actor) == Written(t, id, changed, req, actor)
  {
  }

  /** A write touches one item, appends to the log and keeps every workflow with its job. */
  lemma WriteFrame(t: Tables, id: nat, changed: Item, req: Request, actor: string)
    requires id in t.items && t.items[id].workflowId in t.workflows
    ensures var t' := Written(t, id, changed, req, actor);
      && t'.items == t.items[id := t'.items[id]]
      && t'.items[id] == t.items[id].(workflowStatus := changed.workflowStatus, currentRevision := changed.revision,
                                      selected := changed.selected, payload := changed)
      && t'.workflows.Keys == t.workflows.Keys
      && (forall wid :: wid in t.workflows ==> t'.workflows[wid].jobId == t.workflows[wid].jobId)
      && t.revisions <= t'.revisions
  {
    hide Strip, ActionStatus;
  }

  /** The two requests of the bulk action, on a loadable draft and with a named actor, promote that item alone. */
  lemma PromotionApplied(t: Tables, jobId: string, id: nat, actor: string)
    requires HasItem(t, jobId, id) && Strip(actor) != []
    requires t.items[id].currentRevision == t.items[id].payload.revision
    requires Loadable(t.items[id].payload) && IsDrafted(t.items[id].payload)
    ensures var item := t.items[id].payload; var reviewed := Advance(item, DraftReview(item));
      var t1 := Transitioned(t, jobId, id, item.revision, DraftReview(item), actor);
      && reviewed.Ok?
      && Checked(t, jobId, id, item.revision, DraftReview(item), actor) == reviewed
      && Checked(t1, jobId, id, reviewed.value.revision, Approval, actor).Ok?
      && BulkApplied(t, Transitioned(t1, jobId, id, reviewed.value.revision, Approval, actor), {id})
  {
    var item := t.items[id].payload;
    PromotionSteps(item);
    var reviewed := Advance(item, DraftReview(item)).value;
    AcceptedWrite(t, jobId, id, DraftReview(item), actor);
    WriteFrame(t, id, reviewed, DraftReview(item), actor);
    hide Advance, Loadable, Strip, Promoted, Checked, Transitioned, Written;
    var t1 := Transitioned(t, jobId, id, item.revision, DraftReview(item), actor);
    AcceptedWrite(t1, jobId, id, Approval, actor);
    WriteFrame(t1, id, Promoted(item), Approval, actor);
  }

  ghost function JobItems(t: Tables, jobId: string): set<nat> {
    set id | id in t.items && HasItem(t, jobId, id)
  }

  ghost function Drafts(t: Tables, ids: set<nat>): set<nat> {
    set id | id in ids && id in t.items && IsDrafted(t.items[id].payload)
  }

  /** The bulk action goes through an item: it loads, and if it is a draft the actor is named. */
  ghost predicate Passable(t: Tables, id: nat, actor: string)
    requires id in t.items
  {
    Loadable(t.items[id].payload) && (IsDrafted(t.items[id].payload) ==> Strip(actor) != [])
  }

  /**
   * The bulk action in terms of the stored columns: an item that is not in status ai_drafted, or has no draft, keeps
   * its row; every other item of done is approved two revisions later, and the texts delivered for it are those of
   * its draft.
   */
  lemma BulkMeans(t: Tables, t': Tables, done: set<nat>, id: nat)
    requires BulkApplied(t, t', done) && id in t.items
    ensures id in t'.items
    ensures t.items[id].payload.workflowStatus != AiDrafted || t.items[id].payload.aiDraft == None ==>
      t'.items[id] == t.items[id]
    ensures id in done && t.items[id].payload.workflowStatus == AiDrafted && t.items[id].payload.aiDraft.Some? ==>
      ApprovedFromDraft(t.items[id].payload, t'.items[id])
  {
  }

  /** The row shows an approval of the item's draft, two revisions after the item. */
  predicate ApprovedFromDraft(item: Item, row: ItemRow)
    requires item.aiDraft.Some?
  {
    && row.workflowStatus == Approved && row.payload.workflowStatus == Approved
    && row.selected == SelectedApproved && row.payload.selected == SelectedApproved
    && row.currentRevision == item.revision + 2 && row.payload.revision == item.revision + 2
    && row.payload.aiDraft == item.aiDraft && row.payload.facts == item.facts
    && row.payload.approved.Some? && row.payload.approved == row.payload.reviewed
    && row.payload.approved.value.source == EngineerSource
    && row.payload.approved.value.observation == item.aiDraft.value.observation
    && row.payload.approved.value.recommendation == item.aiDraft.value.recommendation
  }

  lemma BulkExtends(t: Tables, t1: Tables, t2: Tables, done: set<nat>, id: nat)
    requires BulkApplied(t, t1, done) && BulkApplied(t1, t2, {id}) && id in t.items && id !in done
    ensures BulkApplied(t, t2, done + {id})
  {
    hide Promoted;
  }

  ghost predicate BulkPassable(t: Tables, jobId: string, actor: string) {
    forall id :: id in JobItems(t, jobId) ==> Passable(t, id, actor)
  }

  /** The bulk action finds an item it has not reached yet as it was at the start. */
  lemma BulkLookup(t: Tables, t1: Tables, done: set<nat>, jobId: string, id: nat, actor: string)
    requires BulkApplied(t, t1, done) && HasItem(t, jobId, id) && id !in done
    ensures HasItem(t1, jobId, id) && t1.items[id].payload == t.items[id].payload
    ensures Passable(t1, id, actor) <==> Passable(t, id, actor)
    ensures !Passable(t, id, actor) ==> !BulkPassable(t, jobId, actor)
  {
    assert id in JobItems(t, jobId);
  }

  lemma BulkNothing(t: Tables, id: nat)
    requires id in t.items && !IsDrafted(t.items[id].payload)
    ensures BulkApplied(t, t, {}) && BulkApplied(t, t, {id})
  {
  }

  /** How far the bulk action has come: k of the listed items done, counted and passable, the others untouched. */
  ghost predicate BulkState(t: Tables, t1: Tables, jobId: string, actor: string, ids: seq<nat>, k: int,
                            done: set<nat>, approved: nat, skipped: nat)
  {
    && 0 <= k <= |ids|
    && BulkApplied(t, t1, done)
    && done <= JobItems(t, jobId)
    && (forall i :: 0 <= i < |ids| ==> (ids[i] in done <==> i < k))
    && |Drafts(t, done)| == approved && approved + skipped == |done|
    && (forall id :: id in done ==> Passable(t, id, actor))
  }

  lemma BulkStart(t: Tables, jobId: string, actor: string, ids: seq<nat>)
    ensures BulkState(t, t, jobId, actor, ids, 0, {}, 0, 0)
  {
  }

  lemma BulkFacts(t: Tables, t1: Tables, jobId: string, actor: string, ids: seq<nat>, k: int,
                  done: set<nat>, approved: nat, skipped: nat)
    requires BulkState(t, t1, jobId, actor, ids, k, done, approved, skipped)
    ensures BulkApplied(t, t1, done) && done <= JobItems(t, jobId)
  {
  }

  lemma BulkEnd(t: Tables, t1: Tables, jobId: string, actor: string, ids: seq<nat>, k: int,
                done: set<nat>, approved: nat, skipped: nat)
    requires BulkState(t, t1, jobId, actor, ids, k, done, approved, skipped) && k == |ids|
    ensures BulkApplied(t, t1, done) && done <= JobItems(t, jobId)
    ensures forall i :: 0 <= i < |ids| ==> ids[i] in done
    ensures forall id :: id in done ==> id in t.items && Passable(t, id, actor)
    ensures approved == |Drafts(t, done)| && approved + skipped == |done|
  {
    hide Passable, BulkApplied;
  }

  /** The next listed item is as it was at the start. */
  lemma BulkAt(t: Tables, t1: Tables, jobId: string, actor: string, ids: seq<nat>, k: int,
               done: set<nat>, approved: nat, skipped: nat)
    requires BulkState(t, t1, jobId, actor, ids, k, done, approved, skipped) && k < |ids| && HasItem(t, jobId, ids[k])
    ensures HasItem(t1, jobId, ids[k]) && ids[k] in t.items && ids[k] in t1.items
    ensures t1.items[ids[k]].payload == t.items[ids[k]].payload
    ensures Passable(t1, ids[k], actor) <==> Passable(t, ids[k], actor)
    ensures !Passable(t, ids[k], actor) ==> !BulkPassable(t, jobId, actor)
  {
    hide Passable, BulkApplied, Drafts, BulkPassable;
    BulkLookup(t, t1, done, jobId, ids[k], actor);
  }

  lemma DraftsGrow(t: Tables, done: set<nat>, id: nat)
    requires id in t.items && id !in done
    ensures |Drafts(t, done + {id})| == |Drafts(t, done)| + if IsDrafted(t.items[id].payload) then 1 else 0
    ensures |done + {id}| == |done| + 1
  {
    assert Drafts(t, done + {id}) == Drafts(t, done) + if IsDrafted(t.items[id].payload) then {id} else {};
  }

  lemma {:induction false} BulkNext(t: Tables, t1: Tables, t2: Tables, jobId: string, actor: string, ids: seq<nat>,
      k: int,
                 done: set<nat>, approved: nat, skipped: nat)
    requires BulkState(t, t1, jobId, actor, ids, k, done, approved, skipped) && k < |ids|
    requires forall i, j :: 0 <= i < j < |ids| ==> ids[i] != ids[j]
    requires HasItem(t, jobId, ids[k]) && Passable(t, ids[k], actor)
    requires BulkApplied(t1, t2, {ids[k]})
    ensures var drafted := IsDrafted(t.items[ids[k]].payload);
      BulkState(t, t2, jobId, actor, ids, k + 1, done + {ids[k]},
                if drafted then approved + 1 else approved, if drafted then skipped else skipped + 1)
  {
    hide Passable, Promoted, BulkApplied, Drafts, IsDrafted, IsWorkflowOf;
    BulkExtends(t, t1, t2, done, ids[k]);
    DraftsGrow(t, done, ids[k]);
  }

  lemma NoRowsYet(t: Tables)
    requires Inv(t)
    ensures forall id :: id in t.items ==> t.items[id].workflowId != t.nextId
  {
    forall id | id in t.items
      ensures t.items[id].workflowId != t.nextId
    {
      assert ItemOk(t, id);
    }
  }

  ghost predicate KeyTaken(t: Tables, wid: nat, key: string) {
    exists id :: id in t.items && t.items[id].workflowId == wid && t.items[id].sectionKey == key
  }

  /** Among the rows inserted so far, the key of the next row is taken exactly when an earlier row has it. */
  lemma TakenKeys(t: Tables, wid: nat, rows: seq<Item>, k: nat)
    requires k < |rows| && DistinctKeys(rows[..k])
    requires forall id :: id in t.items ==> t.items[id].workflowId != wid
    ensures KeyTaken(InsertItems(t, wid, rows[..k]), wid, rows[k].facts.sectionKey) ==> !DistinctKeys(rows)
    ensures !KeyTaken(InsertItems(t, wid, rows[..k]), wid, rows[k].facts.sectionKey) ==> DistinctKeys(rows[..k + 1])
  {
    var t', key := InsertItems(t, wid, rows[..k]), rows[k].facts.sectionKey;
    InsertedKeys(t, wid, rows[..k]);
    if KeyTaken(t', wid, key) {
      var id :| id in t'.items && t'.items[id].workflowId == wid && t'.items[id].sectionKey == key;
      var j :| 0 <= j < k && rows[..k][j].facts.sectionKey == key;
      assert rows[j].facts.sectionKey == rows[k].facts.sectionKey;
    } else {
      forall j | 0 <= j < k
        ensures rows[j].facts.sectionKey != key
      {
        InsertedRow(t, wid, rows[..k], j);
      }
    }
  }

  /** The item rows of the workflow of a job. */
  ghost function JobRows(workflows: map<nat, WorkflowRow>, items: map<nat, ItemRow>, jobId: string): set<nat> {
    set id | id in items && items[id].workflowId in workflows && workflows[items[id].workflowId].jobId == jobId
  }

  /** Those of them that are in status ai_drafted and have a draft. */
  ghost function JobDrafts(workflows: map<nat, WorkflowRow>, items: map<nat, ItemRow>, jobId: string): set<nat> {
    set id | id in JobRows(workflows, items, jobId)
      && items[id].payload.workflowStatus == AiDrafted && items[id].payload.aiDraft.Some?
  }

  predicate BaselineRow(row: ItemRow, wid: nat, item: Item) {
    && row.workflowId == wid && row.payload == item && row.sectionKey == item.facts.sectionKey
    && row.workflowStatus == item.workflowStatus && row.currentRevision == item.revision
    && row.selected == item.selected
  }

  /** Item k of a new workflow is stored under the next free number; the rows stored before are kept. */
  ghost predicate StoredRows(t: Tables, t': Tables, wid: nat, items: seq<Item>) {
    && t'.nextId == t.nextId + |items|
    && (forall id :: id in t'.items <==> id in t.items || t.nextId <= id < t.nextId + |items|)
    && (forall id :: id in t.items && id < t.nextId ==> t'.items[id] == t.items[id])
    && (forall id :: t.nextId <= id < t.nextId + |items| ==> BaselineRow(t'.items[id], wid, items[id - t.nextId]))
  }

  /** Its first revision is logged as generated by the system. */
  ghost predicate StoredLog(t: Tables, t': Tables, items: seq<Item>) {
    && |t'.revisions| == |t.revisions| + |items| && t.revisions <= t'.revisions
    && forall i :: |t.revisions| <= i < |t'.revisions| ==> var k := i - |t.revisions|;
         t'.revisions[i] == RevisionRow(t.nextId + k, items[k].revision, Generated, "system", items[k])
  }

  lemma {:induction false} InsertedRows(t: Tables, wid: nat, items: seq<Item>)
    ensures StoredRows(t, InsertItems(t, wid, items), wid, items)
  {
    hide StoredRows, InsertItem;
    if items != [] {
      InsertedRows(t, wid, items[..|items| - 1]);
      OneMoreRow(t, InsertItems(t, wid, items[..|items| - 1]), wid, items);
    } else {
      NoRowsStored(t, wid);
    }
  }

  lemma NoRowsStored(t: Tables, wid: nat)
    ensures StoredRows(t, t, wid, [])
  {
  }

  lemma OneMoreRow(t: Tables, before: Tables, wid: nat, items: seq<Item>)
    requires items != [] && StoredRows(t, before, wid, items[..|items| - 1])
    ensures StoredRows(t, InsertItem(before, wid, items[|items| - 1]), wid, items)
  {
    hide BaselineRow;
    var n := |items| - 1;
    var after := InsertItem(before, wid, items[n]);
    RowOfIsBaseline(wid, items[n]);
    forall id | t.nextId <= id < t.nextId + |items|
      ensures BaselineRow(after.items[id], wid, items[id - t.nextId])
    {
      if id < t.nextId + n {
        assert items[..n][id - t.nextId] == items[id - t.nextId];
      }
    }
  }

  lemma RowOfIsBaseline(wid: nat, item: Item)
    ensures BaselineRow(RowOf(wid, item), wid, item)
  {
  }

  lemma {:induction false} InsertedLog(t: Tables, wid: nat, items: seq<Item>)
    ensures StoredLog(t, InsertItems(t, wid, items), items)
  {
    if items != [] {
      var n := |items| - 1;
      InsertedLog(t, wid, items[..n]);
      InsertItemsAppends(t, wid, items[..n]);
      assert forall k :: 0 <= k < n ==> items[..n][k] == items[k];
    }
  }

  /** The item after an accepted request: one revision more, the text in its place, everything else kept. */
  predicate EditOf(item: Item, req: Request, changed: Item) {
    match req.action
    case DraftAction =>
      && req.observation.Some? && req.recommendation.Some?
      && changed == item.(workflowStatus := AiDrafted, revision := item.revision + 1, aiDraft :=
           Some(Narrative(AiSource, req.observation.value, req.recommendation.value)))
    case ReviewAction =>
      && req.observation.Some? && req.recommendation.Some?
      && changed == item.(workflowStatus := Reviewed, revision := item.revision + 1, reviewed :=
           Some(Narrative(EngineerSource, req.observation.value, req.recommendation.value)))
    case ApproveAction =>
      && item.reviewed.Some?
      && changed == item.(workflowStatus := Approved, revision := item.revision + 1, approved := item.reviewed,
                          selected := SelectedApproved)
    case UnknownAction(_) => false
  }

  /** Which error an edit of a stored item meets, or how the item changes. */
  lemma AdvanceMeans(items: map<nat, ItemRow>, id: nat, req: Request)
    ensures id in items ==> var r := Advance(items[id].payload, req);
      && (r.Ok? ==> EditOf(items[id].payload, req, r.value) && r.value.workflowStatus == ActionStatus(req.action))
      && (r.Err? ==> r.error in {InvalidPayload, TextRequired, ReviewRequired, UnsupportedAction})
      && (r == Err(InvalidPayload) <==> !Loadable(items[id].payload))
      && (r == Err(UnsupportedAction) <==> Loadable(items[id].payload) && req.action.UnknownAction?)
      && (r == Err(ReviewRequired) <==>
            Loadable(items[id].payload) && req.action == ApproveAction && items[id].payload.reviewed == None)
  {
    hide Loadable;
  }

  lemma BulkColumns(t: Tables, t': Tables, jobId: string, done: set<nat>)
    requires BulkApplied(t, t', done) && done <= JobItems(t, jobId)
    ensures t'.items.Keys == t.items.Keys
    ensures forall id :: id in t.items && id !in JobRows(t.workflows, t.items, jobId) ==> t'.items[id] == t.items[id]
    ensures forall id :: id in t.items && t.items[id].payload.workflowStatus != AiDrafted ==>
      t'.items[id] == t.items[id]
    ensures forall id :: id in t.items && t.items[id].payload.aiDraft == None ==> t'.items[id] == t.items[id]
    ensures JobItems(t, jobId) == JobRows(t.workflows, t.items, jobId)
    ensures done == JobItems(t, jobId) ==> Drafts(t, done) == JobDrafts(t.workflows, t.items, jobId)
    ensures done == JobItems(t, jobId) ==> forall id :: id in JobDrafts(t.workflows, t.items, jobId) ==>
      ApprovedFromDraft(t.items[id].payload, t'.items[id])
  {
    forall id | id in t.items
      ensures t.items[id].payload.workflowStatus != AiDrafted || t.items[id].payload.aiDraft == None ==>
        t'.items[id] == t.items[id]
      ensures id in done && t.items[id].payload.workflowStatus == AiDrafted && t.items[id].payload.aiDraft.Some? ==>
        ApprovedFromDraft(t.items[id].payload, t'.items[id])
    {
      BulkMeans(t, t', done, id);
    }
    assert JobItems(t, jobId) == JobRows(t.workflows, t.items, jobId);
    hide ApprovedFromDraft;
    assert done == JobItems(t, jobId) ==> Drafts(t, done) == JobDrafts(t.workflows, t.items, jobId);
  }

  class SectionWorkflowStore {
    var workflows: map<nat, WorkflowRow>
    var items: map<nat, ItemRow>
    var revisions: seq<RevisionRow>
    var nextId: nat

    ghost function Abs(): Tables
      reads this
    {
      Tables(workflows, items, revisions, nextId)
    }

    constructor ()
      ensures Abs() == EmptyTables
    {
      workflows, items, revisions, nextId := map[], map[], [], 0;
    }

    /** Insert one item row and its first revision. */
    method InsertRow(wid: nat, item: Item)
      modifies this
      ensures Abs() == InsertItem(old(Abs()), wid, item)
    {
      items := items[nextId := RowOf(wid, item)];
      revisions := revisions + [Logged(nextId, item, Generated, "system")];
      nextId := nextId + 1;
    }

    /** Insert the rows of a new workflow until one repeats a section key of it. */
    method InsertRows(wid: nat, rows: seq<Item>) returns (ok: bool)
      requires forall id :: id in items ==> items[id].workflowId != wid
      modifies this
      ensures ok <==> DistinctKeys(rows)
      ensures ok ==> Abs() == InsertItems(old(Abs()), wid, rows)
    {
      ghost var t := Abs();
      var k := 0;
      while k < |rows|
        invariant 0 <= k <= |rows|
        invariant Abs() == InsertItems(t, wid, rows[..k])
        invariant DistinctKeys(rows[..k])
      {
        var key := rows[k].facts.sectionKey;
        TakenKeys(t, wid, rows, k);
        if id :| id in items && items[id].workflowId == wid && items[id].sectionKey == key {
          assert KeyTaken(Abs(), wid, key);
          return false;
        }
        InsertRow(wid, rows[k]);
        assert rows[..k + 1][..k] == rows[..k];
        k := k + 1;
      }
      assert rows[..k] == rows;
      ok := true;
    }

    method PersistBaseline(jobId: string, doc: Document) returns (r: Result<(nat, bool), Error>)
      requires Inv(Abs())
      modifies this
      ensures Abs() == Persisted(old(Abs()), jobId, doc)
      ensures r.Ok? ==> IsWorkflowOf(Abs(), r.value.0, jobId)
      ensures r.Ok? ==> (r.value.1 <==> !HasWorkflow(old(Abs()), jobId))
      ensures r.Err? <==> !HasWorkflow(old(Abs()), jobId) && !DistinctKeys(doc.items)
      ensures r.Err? || !r.value.1 ==> Abs() == old(Abs())
      ensures r.Ok? && r.value.1 ==>
        && r.value.0 == old(nextId)
        && workflows == old(workflows)[old(nextId) := WorkflowRow(jobId, doc.rulesetVersion, doc.aiEnabled, false)]
        && StoredRows(old(Abs()).(nextId := old(nextId) + 1), Abs(), old(nextId), doc.items)
        && StoredLog(old(Abs()).(nextId := old(nextId) + 1), Abs(), doc.items)
      ensures r.Ok? && !r.value.1 <==> exists wid :: wid in old(workflows) && old(workflows)[wid].jobId == jobId
    {
      hide Inv, InsertItems, DistinctKeys;
      InsertedRows(InsertWorkflow(Abs(), jobId, doc), nextId, doc.items);
      InsertedLog(InsertWorkflow(Abs(), jobId, doc), nextId, doc.items);
      NoRowsYet(Abs());
      if wid :| wid in workflows && workflows[wid].jobId == jobId {
        assert IsWorkflowOf(Abs(), wid, jobId);
        return Ok((wid, false));
      }
      assert !HasWorkflow(Abs(), jobId);
      var savedWorkflows, savedItems, savedRevisions, wid := workflows, items, revisions, nextId;
      workflows := workflows[wid := WorkflowRow(jobId, doc.rulesetVersion, doc.aiEnabled, false)];
      nextId := nextId + 1;
      InsertItemsWorkflows(Abs(), wid, doc.items);
      var ok := InsertRows(wid, doc.items);
      if ok {
        r := Ok((wid, true));
      } else {
        workflows, items, revisions, nextId := savedWorkflows, savedItems, savedRevisions, wid;
        r := Err(IntegrityError);
      }
    }

    method GetItem(jobId: string, id: nat) returns (r: Result<Item, Error>)
      ensures r == if !HasItem(Abs(), jobId, id) then Err(NotFound)
                   else if !Loadable(items[id].payload) then Err(InvalidPayload)
                   else Ok(items[id].payload)
    {
      if !(id in items && items[id].workflowId in workflows && workflows[items[id].workflowId].jobId == jobId) {
        return Err(NotFound);
      }
      r := if Loadable(items[id].payload) then Ok(items[id].payload) else Err(InvalidPayload);
    }

    /** One write request: checks, conditional row update, appended revision, rendering flag. */
    method Transition(jobId: string, id: nat, expected: int, req: Request, actor: string)
        returns (r: Result<Item, Error>)
      modifies this
      ensures Abs() == Transitioned(old(Abs()), jobId, id, expected, req, actor)
      ensures r == Checked(old(Abs()), jobId, id, expected, req, actor)
      ensures Strip(actor) == [] <==> r == Err(BlankActor)
      ensures Strip(actor) != [] ==> (r == Err(NotFound) <==> id !in JobRows(old(workflows), old(items), jobId))
      ensures Strip(actor) != [] && id in JobRows(old(workflows), old(items), jobId) ==>
        (r == Err(RevisionConflict) <==> old(items)[id].currentRevision != expected)
      ensures r.Err? ==> workflows == old(workflows) && items == old(items) && revisions == old(revisions)
      ensures r.Ok? ==>
        && items == old(items)[id := old(items)[id].(workflowStatus := r.value.workflowStatus, payload := r.value,
                                                     currentRevision := r.value.revision, selected := r.value.selected)]
        && revisions == old(revisions)
                        + [RevisionRow(id, r.value.revision, r.value.workflowStatus, Strip(actor), r.value)]
        && (forall wid :: wid in workflows ==>
              workflows[wid].rendererUsesAi == (old(workflows)[wid].rendererUsesAi || wid == items[id].workflowId))
      ensures r.Ok? ==> EditOf(old(items)[id].payload, req, r.value)
      ensures nextId == old(nextId)
    {
      AdvanceMeans(old(items), id, req);
      hide Advance, Strip, EditOf;
      if Strip(actor) == [] {
        return Err(BlankActor);
      }
      if !(id in items && items[id].workflowId in workflows && workflows[items[id].workflowId].jobId == jobId) {
        return Err(NotFound);
      }
      var row := items[id];
      if row.currentRevision != expected {
        return Err(RevisionConflict);
      }
      r := Advance(row.payload, req);
      if r.Ok? {
        var changed := r.value;
        items := items[id := row.(workflowStatus := changed.workflowStatus, currentRevision := changed.revision,
                                  selected := changed.selected, payload := changed)];
        revisions := revisions + [Logged(id, changed, ActionStatus(req.action), Strip(actor))];
        workflows := workflows[row.workflowId := workflows[row.workflowId].(rendererUsesAi := true)];
      }
    }

    /** The items of a job, each once; the order in which the database lists them is left open. */
    method ListItems(jobId: string) returns (ids: seq<nat>)
      ensures forall id :: id in ids <==> HasItem(Abs(), jobId, id)
      ensures forall i, j :: 0 <= i < j < |ids| ==> ids[i] != ids[j]
    {
      ids := [];
      var rest := items.Keys;
      while rest != {}
        invariant rest <= items.Keys
        invariant forall id :: id in ids <==> id !in rest && HasItem(Abs(), jobId, id)
        invariant forall i, j :: 0 <= i < j < |ids| ==> ids[i] != ids[j]
      {
        var id :| id in rest;
        rest := rest - {id};
        if items[id].workflowId in workflows && workflows[items[id].workflowId].jobId == jobId {
          ids := ids + [id];
        }
      }
    }

    /** Promote one draft by the two requests of the bulk action. */
    method PromoteDraft(jobId: string, id: nat, actor: string) returns (r: Result<Item, Error>)
      requires Inv(Abs()) && HasItem(Abs(), jobId, id)
      requires Loadable(items[id].payload) && IsDrafted(items[id].payload)
      modifies this
      ensures Inv(Abs())
      ensures r.Err? <==> Strip(actor) == []
      ensures r.Err? ==> Abs() == old(Abs())
      ensures r.Ok? ==> BulkApplied(old(Abs()), Abs(), {id})
    {
      var item := items[id].payload;
      assert item.revision == items[id].currentRevision by {
        assert ItemOk(Abs(), id);
      }
      if Strip(actor) != [] {
        PromotionApplied(Abs(), jobId, id, actor);
      }
      hide Advance, Inv, Promoted, Loadable, BulkApplied, Transitioned, Strip;
      TransitionedInv(Abs(), jobId, id, item.revision, DraftReview(item), actor);
      r := Transition(jobId, id, item.revision, DraftReview(item), actor);
      if r.Ok? {
        TransitionedInv(Abs(), jobId, id, r.value.revision, Approval, actor);
        r := Transition(jobId, id, r.value.revision, Approval, actor);
      }
    }

    /** One round of the bulk action: true when the item was promoted, false when it was skipped. */
    method BulkStep(jobId: string, id: nat, actor: string) returns (r: Result<bool, Error>)
      requires Inv(Abs()) && HasItem(Abs(), jobId, id)
      modifies this
      ensures Inv(Abs())
      ensures r.Ok? <==> Passable(old(Abs()), id, actor)
      ensures r.Err? ==> Abs() == old(Abs())
      ensures r.Ok? ==> BulkApplied(old(Abs()), Abs(), {id}) && r.value == IsDrafted(old(items)[id].payload)
    {
      var got := GetItem(jobId, id);
      if got.Err? {
        return Err(got.error);
      }
      if IsDrafted(got.value) {
        hide Inv, Loadable, Strip, BulkApplied;
        var one := PromoteDraft(jobId, id, actor);
        r := if one.Err? then Err(one.error) else Ok(true);
      } else {
        BulkNothing(Abs(), id);
        r := Ok(false);
      }
    }

    /** The loop of the bulk action, over the listed items; done collects the items it went through. */
    method BulkLoop(jobId: string, ids: seq<nat>, actor: string)
        returns (r: Result<(nat, nat), Error>, ghost done: set<nat>)
      requires Inv(Abs())
      requires forall i :: 0 <= i < |ids| ==> HasItem(Abs(), jobId, ids[i])
      requires forall i, j :: 0 <= i < j < |ids| ==> ids[i] != ids[j]
      modifies this
      ensures Inv(Abs()) && BulkApplied(old(Abs()), Abs(), done)
      ensures done <= JobItems(old(Abs()), jobId)
      ensures r.Ok? ==> forall i :: 0 <= i < |ids| ==> ids[i] in done
      ensures r.Ok? ==> forall id :: id in done ==> Passable(old(Abs()), id, actor)
      ensures r.Ok? ==> r.value.0 == |Drafts(old(Abs()), done)| && r.value.0 + r.value.1 == |done|
      ensures r.Err? ==> !BulkPassable(old(Abs()), jobId, actor)
    {
      hide BulkState, BulkApplied, Inv, Passable, IsDrafted, Drafts, JobItems, BulkPassable, HasItem;
      ghost var t := Abs();
      var approved, skipped, k := 0, 0, 0;
      done := {};
      BulkStart(t, jobId, actor, ids);
      while k < |ids|
        invariant 0 <= k <= |ids| && Inv(Abs()) && BulkState(t, Abs(), jobId, actor, ids, k, done, approved, skipped)
      {
        BulkAt(t, Abs(), jobId, actor, ids, k, done, approved, skipped);
        ghost var before := Abs();
        var step := BulkStep(jobId, ids[k], actor);
        if step.Err? {
          BulkFacts(t, Abs(), jobId, actor, ids, k, done, approved, skipped);
          return Err(step.error), done;
        }
        BulkNext(t, before, Abs(), jobId, actor, ids, k, done, approved, skipped);
        done := done + {ids[k]};
        if step.value {
          approved := approved + 1;
        } else {
          skipped := skipped + 1;
        }
        k := k + 1;
      }
      BulkEnd(t, Abs(), jobId, actor, ids, k, done, approved, skipped);
      r := Ok((approved, skipped));
    }

    /**
     * Bulk approval with nobody interfering. It stops with an error at the first item that does not load, and at the
     * first draft when the actor is blank; every item is then either as it was or fully promoted. With others writing
     * in between see SectionPromotion.
     */
    method ApproveAllAiDrafts(jobId: string, actor: string)
        returns (r: Result<(nat, nat), Error>, ghost done: set<nat>)
      requires Inv(Abs())
      modifies this
      ensures Inv(Abs())
      ensures done <= JobItems(old(Abs()), jobId) && BulkApplied(old(Abs()), Abs(), done)
      ensures r.Ok? <==> BulkPassable(old(Abs()), jobId, actor)
      ensures r.Ok? ==> done == JobItems(old(Abs()), jobId)
      ensures r.Ok? ==> r.value.0 == |Drafts(old(Abs()), done)| && r.value.0 + r.value.1 == |done|
      ensures items.Keys == old(items).Keys
      ensures forall id :: id in items && id !in JobRows(old(workflows), old(items), jobId) ==>
        items[id] == old(items)[id]
      ensures forall id :: id in items && old(items)[id].payload.workflowStatus != AiDrafted ==>
        items[id] == old(items)[id]
      ensures forall id :: id in items && old(items)[id].payload.aiDraft == None ==> items[id] == old(items)[id]
      ensures r.Ok? ==> forall id :: id in JobDrafts(old(workflows), old(items), jobId) ==>
        ApprovedFromDraft(old(items)[id].payload, items[id])
      ensures r.Ok? ==> r.value.0 == |JobDrafts(old(workflows), old(items), jobId)|
      ensures r.Ok? ==> r.value.0 + r.value.1 == |JobRows(old(workflows), old(items), jobId)|
    {
      hide Inv, Passable, BulkApplied, Drafts;
      ghost var t := Abs();
      var ids := ListItems(jobId);
      r, done := BulkLoop(jobId, ids, actor);
      BulkColumns(t, Abs(), jobId, done);
    }
  }
}
