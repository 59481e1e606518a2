/**
 * The bulk approval of one item with anything happening in between: the item is listed, reviewed with the text of its
 * listed draft and then approved, in three transactions.
 */
module SectionPromotion {
  import opened Common
  import opened SectionWorkflow
  import opened SectionPersistence
  import opened SectionRuns
  import opened SectionStore

  // ----- Items stay -----

  lemma {:induction false} InsertItemsKeep(t: Tables, wid: nat, items: seq<Item>, id: nat)
    requires id in t.items && id < t.nextId
    ensures id in InsertItems(t, wid, items).items && InsertItems(t, wid, items).items[id] == t.items[id]
  {
    if items != [] {
      InsertItemsAppends(t, wid, items[..|items| - 1]);
      InsertItemsKeep(t, wid, items[..|items| - 1], id);
    }
  }

  lemma PersistKeepsItem(t: Tables, jobId: string, id: nat, other: string, doc: Document)
    requires IdsOk(t) && HasItem(t, jobId, id)
    ensures HasItem(Persisted(t, other, doc), jobId, id)
  {
    var t1 := InsertWorkflow(t, other, doc);
    InsertItemsKeep(t1, t.nextId, doc.items, id);
    InsertItemsWorkflows(t1, t.nextId, doc.items);
    hide HasWorkflow, DistinctKeys, InsertItems;
  }

  lemma TransitKeepsItem(t: Tables, jobId: string, id: nat, other: string, x: nat, e: int, req: Request, actor: string)
    requires HasItem(t, jobId, id)
    ensures HasItem(Transitioned(t, other, x, e, req, actor), jobId, id)
  {
    hide Advance, Strip, ActionStatus;
  }

  lemma ApplyKeepsItem(t: Tables, step: Step, jobId: string, id: nat)
    requires Inv(t) && HasItem(t, jobId, id)
    ensures HasItem(Apply(t, step), jobId, id)
  {
    hide ItemsOk, UniqueJobs, UniqueKeys, Persisted, Transitioned, HasItem, IdsOk;
    match step
    case Persist(other, doc) => PersistKeepsItem(t, jobId, id, other, doc);
    case Transit(other, x, e, req, actor) => TransitKeepsItem(t, jobId, id, other, x, e, req, actor);
  }

  lemma {:induction false} ItemStays(steps: seq<Step>, more: seq<Step>, jobId: string, id: nat)
    requires FromBuilders(steps + more) && HasItem(Run(steps), jobId, id)
    ensures HasItem(Run(steps + more), jobId, id)
  {
    hide Inv, Run, Apply, HasItem;
    if more == [] {
      assert steps + more == steps;
    } else {
      var init := steps + more[..|more| - 1];
      assert init == (steps + more)[..|init|];
      BuildersPrefix(steps + more, |init|);
      ItemStays(steps, more[..|more| - 1], jobId, id);
      RunInv(init);
      OneMore(steps, more);
      ApplyKeepsItem(Run(init), more[|more| - 1], jobId, id);
    }
  }

  lemma BuildersPrefix(steps: seq<Step>, n: nat)
    requires FromBuilders(steps) && n <= |steps|
    ensures FromBuilders(steps[..n])
  {
    hide BaselineDoc;
  }

  // ----- The same revision is the same item -----

  /** If an item is at the same revision later, nothing was written to it in between. */
  lemma SameRevisionSameItem(steps: seq<Step>, more: seq<Step>, id: nat)
    requires FromBuilders(steps + more) && id in Run(steps).items && id in Run(steps + more).items
    requires Run(steps + more).items[id].currentRevision == Run(steps).items[id].currentRevision
    ensures Run(steps + more).items[id].payload == Run(steps).items[id].payload
  {
    hide Run, History, IsBaseline;
    assert steps == (steps + more)[..|steps|];
    BuildersPrefix(steps + more, |steps|);
    HistoryAppendOnly(steps, more, id);
    ReachableHistory(steps, id);
    ReachableHistory(steps + more, id);
  }

  // ----- The three transactions -----

  /** The review request made from the listed item, and the approval that follows it. */
  function ReviewStep(jobId: string, id: nat, listed: Item, actor: string): Step
    requires listed.aiDraft.Some?
  {
    Transit(jobId, id, listed.revision, DraftReview(listed), actor)
  }

  /** The item as the review leaves it: the text is that of the draft at listing. */
  function ReviewedDraft(listed: Item): Item
    requires listed.aiDraft.Some?
  {
    ReviewDraft(listed, listed.aiDraft.value.observation, listed.aiDraft.value.recommendation)
  }

  predicate Accepted(t: Tables, step: Step) {
    step.Transit? && Checked(t, step.jobId, step.id, step.expected, step.req, step.actor).Ok?
  }

  lemma AcceptedReview(t: Tables, jobId: string, id: nat, listed: Item, actor: string)
    requires Inv(t) && listed.aiDraft.Some? && Accepted(t, ReviewStep(jobId, id, listed, actor))
    requires t.items[id].payload == listed
    ensures HasItem(Apply(t, ReviewStep(jobId, id, listed, actor)), jobId, id)
    ensures var row := Apply(t, ReviewStep(jobId, id, listed, actor)).items[id];
      row.payload == ReviewedDraft(listed) && row.currentRevision == listed.revision + 1
  {
    TransitKeepsItem(t, jobId, id, jobId, id, listed.revision, DraftReview(listed), actor);
    hide Inv, Strip, Loadable, HasItem;
  }

  /**
   * With any steps of others between listing, review and approval: an accepted review leaves the text of the draft
   * that was listed; the approval is then accepted exactly when nobody wrote to the item in between, and promotes that
   * draft; otherwise it is refused with a revision conflict and the item stays as it is, reviewed at least once.
   */
  lemma PromotionInterleaved(steps: seq<Step>, more1: seq<Step>, more2: seq<Step>, jobId: string, id: nat,
      actor: string)
    requires HasItem(Run(steps), jobId, id) && Loadable(Run(steps).items[id].payload)
      && IsDrafted(Run(steps).items[id].payload)
    requires var review := ReviewStep(jobId, id, Run(steps).items[id].payload, actor);
      FromBuilders(steps + more1 + [review] + more2) && Accepted(Run(steps + more1), review)
    ensures var listed := Run(steps).items[id].payload; var review := ReviewStep(jobId, id, listed, actor);
      var t2, t3 := Run(steps + more1 + [review]), Run(steps + more1 + [review] + more2);
      && id in t2.items && t2.items[id].payload == ReviewedDraft(listed)
      && id in t3.items
      && (if t3.items[id].currentRevision == listed.revision + 1
          then Checked(t3, jobId, id, listed.revision + 1, Approval, actor) == Ok(Promoted(listed))
          else Checked(t3, jobId, id, listed.revision + 1, Approval, actor) == Err(RevisionConflict))
  {
    hide Run, Inv, Loadable, Apply, IsWorkflowOf, FromBuilders, Accepted;
    var listed := Run(steps).items[id].payload;
    var review := ReviewStep(jobId, id, listed, actor);
    var s1, s2 := steps + more1, steps + more1 + [review];
    assert s1 == (s2 + more2)[..|s1|] && s2 == (s2 + more2)[..|s2|];
    BuildersPrefix(s2 + more2, |s1|);
    BuildersPrefix(s2 + more2, |s2|);
    RunInv(s1);
    ListedUnchanged(steps, more1, jobId, id, actor);
    AcceptedReview(Run(s1), jobId, id, listed, actor);
    LastStep(s2);
    assert s2[..|s2| - 1] == s1;
    ItemStays(s2, more2, jobId, id);
    ReviewThenApprove(s2, more2, jobId, id, listed, actor);
    NamedByReview(Run(s1), jobId, id, listed, actor);
    ApprovalOutcome(Run(s2 + more2), jobId, id, listed, actor);
  }

  lemma NamedByReview(t: Tables, jobId: string, id: nat, listed: Item, actor: string)
    requires listed.aiDraft.Some? && Accepted(t, ReviewStep(jobId, id, listed, actor))
    ensures Strip(actor) != []
  {
    hide Advance;
  }

  lemma ListedUnchanged(steps: seq<Step>, more: seq<Step>, jobId: string, id: nat, actor: string)
    requires HasItem(Run(steps), jobId, id) && IsDrafted(Run(steps).items[id].payload)
    requires FromBuilders(steps + more)
    requires Accepted(Run(steps + more), ReviewStep(jobId, id, Run(steps).items[id].payload, actor))
    ensures id in Run(steps + more).items && Run(steps + more).items[id].payload == Run(steps).items[id].payload
  {
    hide Run, Advance, Strip, History, IsBaseline;
    assert steps == (steps + more)[..|steps|];
    BuildersPrefix(steps + more, |steps|);
    RunInv(steps);
    assert ItemOk(Run(steps), id);
    hide Inv, Chain;
    RevisionOfRow(steps, id);
    SameRevisionSameItem(steps, more, id);
  }

  /** The revision column is the revision of the payload. */
  lemma RevisionOfRow(steps: seq<Step>, id: nat)
    requires FromBuilders(steps) && id in Run(steps).items
    ensures Run(steps).items[id].currentRevision == Run(steps).items[id].payload.revision
  {
    StoredChain(steps, id);
    hide Run, Chain, History;
  }

  lemma ReviewThenApprove(steps: seq<Step>, more: seq<Step>, jobId: string, id: nat, listed: Item, actor: string)
    requires FromBuilders(steps + more) && id in Run(steps).items && id in Run(steps + more).items
      && listed.aiDraft.Some?
    requires Run(steps).items[id].payload == ReviewedDraft(listed)
    requires Run(steps).items[id].currentRevision == listed.revision + 1
    ensures Run(steps + more).items[id].currentRevision == listed.revision + 1 ==>
      Run(steps + more).items[id].payload == ReviewedDraft(listed)
  {
    hide Run, ReviewedDraft;
    if Run(steps + more).items[id].currentRevision == listed.revision + 1 {
      SameRevisionSameItem(steps, more, id);
    }
  }

  lemma ApprovalOutcome(t: Tables, jobId: string, id: nat, listed: Item, actor: string)
    requires HasItem(t, jobId, id) && Strip(actor) != [] && Loadable(listed) && IsDrafted(listed)
    requires t.items[id].currentRevision == listed.revision + 1 ==> t.items[id].payload == ReviewedDraft(listed)
    ensures if t.items[id].currentRevision == listed.revision + 1
      then Checked(t, jobId, id, listed.revision + 1, Approval, actor) == Ok(Promoted(listed))
      else Checked(t, jobId, id, listed.revision + 1, Approval, actor) == Err(RevisionConflict)
  {
    PromotionSteps(listed);
    ReviewAdvances(listed);
    hide Advance, Strip, Loadable, Promoted, ReviewedDraft;
  }

  lemma ReviewAdvances(listed: Item)
    requires Loadable(listed) && IsDrafted(listed)
    ensures Advance(listed, DraftReview(listed)) == Ok(ReviewedDraft(listed))
  {
  }

  /**
   * A conflict can leave the item reviewed: after the bulk review an engineer's review is accepted, and then the bulk
   * approval is refused although the item is in status reviewed with nothing approved.
   */
  lemma ConflictLeavesReviewed(t: Tables, jobId: string, id: nat, listed: Item, actor: string, engineer: string)
    requires HasItem(t, jobId, id) && Strip(actor) != [] && Strip(engineer) != []
    requires Loadable(listed) && IsDrafted(listed) && listed.approved == None
    requires t.items[id].payload == ReviewedDraft(listed) && t.items[id].currentRevision == listed.revision + 1
    ensures var edit := Request(ReviewAction, Some("o"), Some("r"));
      var t' := Transitioned(t, jobId, id, listed.revision + 1, edit, engineer);
      && Checked(t, jobId, id, listed.revision + 1, edit, engineer).Ok?
      && Checked(t', jobId, id, listed.revision + 1, Approval, actor) == Err(RevisionConflict)
      && id in t'.items && t'.items[id].payload.workflowStatus == Reviewed && t'.items[id].payload.approved == None
  {
    var edit := Request(ReviewAction, Some("o"), Some("r"));
    EditAfterReview(listed, edit);
    TransitKeepsItem(t, jobId, id, jobId, id, listed.revision + 1, edit, engineer);
    hide Strip, Advance, Loadable, ReviewedDraft;
  }

  lemma EditAfterReview(listed: Item, edit: Request)
    requires Loadable(listed) && IsDrafted(listed) && edit.action == ReviewAction && TextGiven(edit)
    ensures var r := Advance(ReviewedDraft(listed), edit);
      && r.Ok? && r.value.workflowStatus == Reviewed && r.value.approved == listed.approved
      && r.value.revision == listed.revision + 2
  {
  }
}
