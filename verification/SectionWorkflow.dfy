/**
 * One section item of a health-check report and the three edits it can receive
 * (section_workflow.py, and the dispatch of SectionWorkflowStore.transition).
 */
module SectionWorkflow {
  import opened Common

  datatype Source = DeterministicTemplate | AiSource | EngineerSource

  datatype Narrative = Narrative(source: Source, observation: string, recommendation: string)

  datatype WorkflowStatus = Generated | AiDrafted | Reviewed | Approved

  datatype Selected = SelectedDeterministic | SelectedApproved

  datatype RuleStatus = Normal | Attention | Critical | Pending

  datatype EvidenceRef = EvidenceRef(checkId: string, node: string, evidenceSha256: string)

  datatype RuleTrace = RuleTrace(ruleId: string, ruleVersion: string)

  datatype Media = Media(path: string, mediaType: string)

  /** The part of an item that no write request can change. */
  datatype Facts = Facts(
    sectionKey: string,
    sectionId: string,
    checkId: string,
    node: string,
    status: RuleStatus,
    deterministic: Narrative,
    evidenceRefs: seq<EvidenceRef>,
    evidenceSnapshot: Option<string>,
    trace: RuleTrace,
    media: Option<Media>)

  datatype Item = Item(
    facts: Facts,
    workflowStatus: WorkflowStatus,
    revision: int,
    aiDraft: Option<Narrative>,
    reviewed: Option<Narrative>,
    approved: Option<Narrative>,
    selected: Selected)

  datatype Action = DraftAction | ReviewAction | ApproveAction | UnknownAction(name: string)

  /** The arguments of one write request, apart from its target and its actor. */
  datatype Request = Request(action: Action, observation: Option<string>, recommendation: Option<string>)

  datatype Error =
    | BlankActor
    | NotFound
    | RevisionConflict
    | InvalidPayload
    | TextRequired
    | ReviewRequired
    | UnsupportedAction
    | IntegrityError
    | BatchSize
    | DuplicateItems
    | NotDraftable

  predicate NarrativeWellFormed(n: Narrative) {
    n.observation != [] && n.recommendation != []
  }

  predicate OptionalWellFormed(n: Option<Narrative>) {
    n.Some? ==> NarrativeWellFormed(n.value)
  }

  predicate FactsWellFormed(f: Facts) {
    && f.sectionKey != [] && f.sectionId != [] && f.checkId != [] && f.node != []
    && f.evidenceRefs != []
    && NarrativeWellFormed(f.deterministic)
    && (f.media.Some? ==> f.media.value.path != [] && "image/" <= f.media.value.mediaType)
  }

  predicate FieldsWellFormed(item: Item) {
    && FactsWellFormed(item.facts)
    && item.revision >= 1
    && OptionalWellFormed(item.aiDraft) && OptionalWellFormed(item.reviewed) && OptionalWellFormed(item.approved)
  }

  predicate HasSource(n: Option<Narrative>, source: Source) {
    n.Some? ==> n.value.source == source
  }

  /** The validator workflow_is_fail_closed. */
  predicate FailClosed(item: Item) {
    && item.facts.deterministic.source == DeterministicTemplate
    && HasSource(item.aiDraft, AiSource)
    && HasSource(item.reviewed, EngineerSource)
    && HasSource(item.approved, EngineerSource)
    && (item.workflowStatus == AiDrafted ==> item.aiDraft.Some?)
    && (item.workflowStatus in {Reviewed, Approved} ==> item.reviewed.Some?)
    && (item.workflowStatus == Approved ==> item.approved.Some?)
    && (item.selected == SelectedApproved ==> item.workflowStatus == Approved && item.approved.Some?)
  }

  /** What model_validate accepts: the field constraints and the fail-closed validator. */
  predicate Loadable(item: Item) {
    FieldsWellFormed(item) && FailClosed(item)
  }

  /** A narrative with both texts, from the given source. */
  predicate Told(n: Narrative, source: Source) {
    |n.observation| > 0 && |n.recommendation| > 0 && n.source == source
  }

  /**
   * The validator, status by status: all facts are given, no text is empty and every text has its own source; a
   * drafted item has a draft, a reviewed one a review, an approved one both review and approval, and approved text is
   * selected only then.
   */
  lemma LoadableMeans(item: Item)
    ensures Loadable(item) <==>
      && FactsGiven(item.facts) && item.revision > 0
      && (item.aiDraft == None || Told(item.aiDraft.value, AiSource))
      && (item.reviewed == None || Told(item.reviewed.value, EngineerSource))
      && (item.approved == None || Told(item.approved.value, EngineerSource))
      && (item.selected == SelectedApproved ==> item.workflowStatus == Approved)
      && match item.workflowStatus
         case Generated => true
         case AiDrafted => item.aiDraft != None
         case Reviewed => item.reviewed != None
         case Approved => item.reviewed != None && item.approved != None
  {
  }

  predicate FactsGiven(f: Facts) {
    && "" !in [f.sectionKey, f.sectionId, f.checkId, f.node] && |f.evidenceRefs| > 0
    && Told(f.deterministic, DeterministicTemplate)
    && (f.media == None || (|f.media.value.path| > 0 && IsImageType(f.media.value.mediaType)))
  }

  predicate IsImageType(mediaType: string) {
    |mediaType| >= 6 && mediaType[..6] == "image/"
  }

  /** An item as the two workflow builders create it: first revision, nothing drafted, reviewed or approved. */
  predicate IsBaseline(item: Item) {
    && Loadable(item)
    && item.workflowStatus == Generated && item.revision == 1
    && item.aiDraft == None && item.reviewed == None && item.approved == None
    && item.selected == SelectedDeterministic
  }

  // ----- The edits. Each copies the item without running the validator again. -----

  function AttachAiDraft(item: Item, observation: string, recommendation: string): Item {
    item.(workflowStatus := AiDrafted,
          revision := item.revision + 1,
          aiDraft := Some(Narrative(AiSource, observation, recommendation)))
  }

  function ReviewDraft(item: Item, observation: string, recommendation: string): Item {
    item.(workflowStatus := Reviewed,
          revision := item.revision + 1,
          reviewed := Some(Narrative(EngineerSource, observation, recommendation)))
  }

  function ApproveReview(item: Item): Result<Item, Error> {
    if item.reviewed == None then Err(ReviewRequired)
    else Ok(item.(workflowStatus := Approved,
                  revision := item.revision + 1,
                  approved := item.reviewed,
                  selected := SelectedApproved))
  }

  predicate TextGiven(req: Request) {
    req.observation.Some? && req.observation.value != [] && req.recommendation.Some? && req.recommendation.value != []
  }

  /** The part of transition between reading the row and writing it back. */
  function Advance(item: Item, req: Request): Result<Item, Error> {
    if !Loadable(item) then Err(InvalidPayload)
    else match req.action
      case DraftAction =>
        if !TextGiven(req) then Err(TextRequired)
        else Ok(AttachAiDraft(item, req.observation.value, req.recommendation.value))
      case ReviewAction =>
        if !TextGiven(req) then Err(TextRequired)
        else Ok(ReviewDraft(item, req.observation.value, req.recommendation.value))
      case ApproveAction => ApproveReview(item)
      case UnknownAction(_) => Err(UnsupportedAction)
  }

  function NarrativeForRender(item: Item, rendererUsesAi: bool): Narrative {
    if item.selected == SelectedApproved && item.approved.Some? then item.approved.value
    else if rendererUsesAi && item.aiDraft.Some? then item.aiDraft.value
    else item.facts.deterministic
  }

  // ----- Words of accepted edits -----

  /** Apply requests one after the other; any refusal refuses the word. */
  function Replay(item: Item, reqs: seq<Request>): Result<Item, Error> {
    if reqs == [] then Ok(item)
    else match Replay(item, reqs[..|reqs| - 1])
      case Err(e) => Err(e)
      case Ok(before) => Advance(before, reqs[|reqs| - 1])
  }

  predicate IsEdit(req: Request) {
    req.action in {DraftAction, ReviewAction}
  }

  /** The request names a known action and carries the text that action needs. */
  predicate Supplied(req: Request) {
    match req.action
    case UnknownAction(_) => false
    case ApproveAction => true
    case _ => TextGiven(req)
  }

  ghost predicate AllEdits(reqs: seq<Request>) {
    forall i :: 0 <= i < |reqs| ==> IsEdit(reqs[i])
  }

  ghost predicate AllApprovals(reqs: seq<Request>) {
    forall i :: 0 <= i < |reqs| ==> reqs[i].action == ApproveAction
  }

  ghost predicate Uses(reqs: seq<Request>, action: Action) {
    exists i :: 0 <= i < |reqs| && reqs[i].action == action
  }

  lemma UsesLast(reqs: seq<Request>, action: Action)
    requires reqs != []
    ensures Uses(reqs, action) <==> Uses(reqs[..|reqs| - 1], action) || reqs[|reqs| - 1].action == action
  {
    var init := reqs[..|reqs| - 1];
    if Uses(init, action) {
      var i :| 0 <= i < |init| && init[i].action == action;
      assert reqs[i].action == action;
    }
  }

  /** reqs = edits, then approvals (only after a review), then at most one more edit. */
  ghost predicate SplitsAt(reqs: seq<Request>, i: nat, j: nat) {
    && i <= j <= |reqs|
    && AllEdits(reqs[..i])
    && AllApprovals(reqs[i..j])
    && (i < j ==> Uses(reqs[..i], ReviewAction))
    && |reqs| - j <= 1
    && AllEdits(reqs[j..])
  }

  ghost predicate Permitted(reqs: seq<Request>) {
    && (forall k :: 0 <= k < |reqs| ==> Supplied(reqs[k]))
    && exists i: nat, j: nat :: SplitsAt(reqs, i, j)
  }

  /** Where an item stands: still drafting, approved, or edited once more after approval. */
  datatype Phase = Drafting(reviewSeen: bool) | Settled | Locked | Refused

  function NextPhase(phase: Phase, req: Request): Phase {
    if !Supplied(req) then Refused
    else match phase
      case Drafting(seen) =>
        if req.action == ApproveAction then (if seen then Settled else Refused)
        else Drafting(seen || req.action == ReviewAction)
      case Settled => if req.action == ApproveAction then Settled else Locked
      case _ => Refused
  }

  function PhaseOf(reqs: seq<Request>): Phase {
    if reqs == [] then Drafting(false) else NextPhase(PhaseOf(reqs[..|reqs| - 1]), reqs[|reqs| - 1])
  }

  /** What an item looks like in each phase. */
  predicate InPhase(item: Item, phase: Phase) {
    && FieldsWellFormed(item)
    && match phase
       case Drafting(seen) =>
         FailClosed(item) && item.selected == SelectedDeterministic && item.approved == None &&
         item.workflowStatus != Approved && item.reviewed.Some? == seen
       case Settled => FailClosed(item) && item.workflowStatus == Approved && item.selected == SelectedApproved
       case Locked => !FailClosed(item)
       case Refused => false
  }

  lemma {:induction false} ReplayFollowsPhase(item: Item, reqs: seq<Request>)
    requires IsBaseline(item)
    ensures Replay(item, reqs).Ok? <==> PhaseOf(reqs) != Refused
    ensures Replay(item, reqs).Ok? ==> InPhase(Replay(item, reqs).value, PhaseOf(reqs))
    ensures Replay(item, reqs).Ok? ==> Replay(item, reqs).value.revision == 1 + |reqs|
    ensures Replay(item, reqs).Ok? ==> Replay(item, reqs).value.facts == item.facts
  {
    if reqs != [] {
      var init := reqs[..|reqs| - 1];
      ReplayFollowsPhase(item, init);
      hide Advance, InPhase, NextPhase, IsBaseline;
      if Replay(item, init).Ok? {
        PhaseStep(Replay(item, init).value, PhaseOf(init), reqs[|reqs| - 1]);
      } else {
        RefusedStays(reqs[|reqs| - 1]);
      }
    } else {
      hide Advance, NextPhase;
    }
  }

  /** One request moves an item along with its phase, or is refused by both. */
  lemma PhaseStep(item: Item, phase: Phase, req: Request)
    requires InPhase(item, phase)
    ensures Advance(item, req).Ok? <==> NextPhase(phase, req) != Refused
    ensures Advance(item, req).Ok? ==> InPhase(Advance(item, req).value, NextPhase(phase, req))
    ensures Advance(item, req).Ok? ==> Advance(item, req).value.revision == item.revision + 1
    ensures Advance(item, req).Ok? ==> Advance(item, req).value.facts == item.facts
  {
    hide FactsWellFormed;
  }

  lemma RefusedStays(req: Request)
    ensures NextPhase(Refused, req) == Refused
  {
  }

  lemma {:induction false} PhaseOfEdits(reqs: seq<Request>)
    requires forall k :: 0 <= k < |reqs| ==> Supplied(reqs[k])
    requires AllEdits(reqs)
    ensures PhaseOf(reqs) == Drafting(Uses(reqs, ReviewAction))
  {
    if reqs != [] {
      PhaseOfEdits(reqs[..|reqs| - 1]);
      UsesLast(reqs, ReviewAction);
    }
  }

  lemma {:induction false} PhaseOfApprovals(edits: seq<Request>, approvals: seq<Request>)
    requires PhaseOf(edits) == Drafting(true)
    requires AllApprovals(approvals) && approvals != []
    ensures PhaseOf(edits + approvals) == Settled
  {
    var all, init := edits + approvals, approvals[..|approvals| - 1];
    assert all[..|all| - 1] == edits + init;
    if init == [] {
      assert edits + init == edits;
    } else {
      PhaseOfApprovals(edits, init);
    }
  }

  lemma PermittedIsNotRefused(reqs: seq<Request>)
    requires Permitted(reqs)
    ensures PhaseOf(reqs) != Refused
  {
    var i: nat, j: nat :| SplitsAt(reqs, i, j);
    PhaseOfEdits(reqs[..i]);
    assert reqs[..j] == reqs[..i] + reqs[i..j];
    if i < j {
      PhaseOfApprovals(reqs[..i], reqs[i..j]);
    }
    if j < |reqs| {
      assert reqs[j..][0] == reqs[j] && IsEdit(reqs[j]);
      assert reqs[..|reqs| - 1] == reqs[..j];
    } else {
      assert reqs[..j] == reqs;
    }
  }

  /** The split that witnesses a phase. */
  ghost predicate PhaseShape(reqs: seq<Request>, phase: Phase) {
    match phase
    case Drafting(seen) => AllEdits(reqs) && (seen ==> Uses(reqs, ReviewAction))
    case Settled => exists i: nat, j: nat :: i < j == |reqs| && SplitsAt(reqs, i, j)
    case Locked => exists i: nat, j: nat :: i < j == |reqs| - 1 && SplitsAt(reqs, i, j)
    case Refused => true
  }

  lemma {:induction false} PhaseHasShape(reqs: seq<Request>)
    ensures PhaseShape(reqs, PhaseOf(reqs))
    ensures PhaseOf(reqs) != Refused ==> forall k :: 0 <= k < |reqs| ==> Supplied(reqs[k])
  {
    if reqs != [] {
      var n := |reqs| - 1;
      var init, last := reqs[..n], reqs[n];
      PhaseHasShape(init);
      UsesLast(reqs, ReviewAction);
      match PhaseOf(init)
      case Drafting(seen) =>
        if PhaseOf(reqs).Settled? {
          assert reqs[n..|reqs|] == [last];
          assert SplitsAt(reqs, n, |reqs|);
        }
      case Settled =>
        var i: nat :| i < n && SplitsAt(init, i, n);
        assert reqs[..i] == init[..i];
        if PhaseOf(reqs).Settled? {
          assert reqs[i..|reqs|] == init[i..n] + [last];
          assert SplitsAt(reqs, i, |reqs|);
        } else if PhaseOf(reqs).Locked? {
          assert reqs[i..n] == init[i..n];
          assert reqs[n..] == [last] && IsEdit(last);
          assert SplitsAt(reqs, i, n);
        }
      case _ =>
    }
  }

  /**
   * The words of requests that all succeed on a fresh item, exactly: edits, then approvals only after a
   * review, then at most one more edit.
   */
  lemma WordLanguage(item: Item, reqs: seq<Request>)
    requires IsBaseline(item)
    ensures Replay(item, reqs).Ok? <==> Permitted(reqs)
  {
    ReplayFollowsPhase(item, reqs);
    if Permitted(reqs) {
      PermittedIsNotRefused(reqs);
    }
    if PhaseOf(reqs) != Refused {
      PhaseHasShape(reqs);
      match PhaseOf(reqs)
      case Drafting(_) =>
        assert reqs[..|reqs|] == reqs;
        assert SplitsAt(reqs, |reqs|, |reqs|);
      case Settled =>
      case Locked =>
    }
  }

  /** An item was approved and then edited: the one situation the stored item does not survive. */
  ghost predicate EditedAfterApproval(reqs: seq<Request>) {
    reqs != [] && IsEdit(reqs[|reqs| - 1]) && Uses(reqs, ApproveAction)
  }

  /**
   * The exact boundary of the fail-closed validator: the stored item passes it unless the last accepted
   * request edited an approved item, and then no request of any kind is accepted again.
   */
  lemma {:induction false} ValidatorBoundary(item: Item, reqs: seq<Request>)
    requires IsBaseline(item) && Replay(item, reqs).Ok?
    ensures Loadable(Replay(item, reqs).value) <==> !EditedAfterApproval(reqs)
    ensures EditedAfterApproval(reqs) ==> forall next :: Advance(Replay(item, reqs).value, next) == Err(InvalidPayload)
  {
    ReplayFollowsPhase(item, reqs);
    PhaseHasShape(reqs);
    match PhaseOf(reqs)
    case Drafting(_) =>
    case Settled =>
      var i: nat :| i < |reqs| && SplitsAt(reqs, i, |reqs|);
      assert reqs[i..|reqs|][|reqs| - 1 - i] == reqs[|reqs| - 1];
    case Locked =>
      var i: nat :| i < |reqs| - 1 && SplitsAt(reqs, i, |reqs| - 1);
      assert reqs[i..|reqs| - 1][0] == reqs[i];
      assert reqs[|reqs| - 1..][0] == reqs[|reqs| - 1];
  }

  // ----- What is rendered, as a function of the accepted requests -----

  datatype Text = Text(observation: string, recommendation: string)

  function TextOf(n: Narrative): Text {
    Text(n.observation, n.recommendation)
  }

  /** The text of the last request with the given action, or the given default. */
  function LastText(reqs: seq<Request>, action: Action, default: Text): Text {
    if reqs == [] then default
    else
      var last := reqs[|reqs| - 1];
      if last.action == action && TextGiven(last) then Text(last.observation.value, last.recommendation.value)
      else LastText(reqs[..|reqs| - 1], action, default)
  }

  /** Delivery text: the last reviewed text once anything was approved, else the last draft, else the template. */
  ghost function DeliveredText(item: Item, reqs: seq<Request>): Text {
    var template := TextOf(item.facts.deterministic);
    if Uses(reqs, ApproveAction) then LastText(reqs, ReviewAction, template)
    else LastText(reqs, DraftAction, template)
  }

  /** The three optional texts of an item are the last texts of the accepted requests. */
  lemma {:induction false} TextsFollowHistory(item: Item, reqs: seq<Request>)
    requires IsBaseline(item) && Replay(item, reqs).Ok?
    ensures var it := Replay(item, reqs).value; var template := TextOf(item.facts.deterministic);
      && it.facts == item.facts
      && (it.aiDraft.Some? <==> Uses(reqs, DraftAction))
      && LastText(reqs, DraftAction, template) == (if it.aiDraft.Some? then TextOf(it.aiDraft.value) else template)
      && (it.reviewed.Some? ==> LastText(reqs, ReviewAction, template) == TextOf(it.reviewed.value))
      && (it.approved.Some? <==> Uses(reqs, ApproveAction))
      && (it.workflowStatus == Approved ==> it.approved == it.reviewed)
      && (it.selected == SelectedApproved <==> Uses(reqs, ApproveAction))
  {
    if reqs != [] {
      var n := |reqs| - 1;
      TextsFollowHistory(item, reqs[..n]);
      UsesLast(reqs, DraftAction);
      UsesLast(reqs, ApproveAction);
    }
  }

  /**
   * For every item that still loads, the rendered text is determined by its request history, provided drafts are
   * only ever present in a document that renders them. In particular a review that was never approved is not rendered.
   */
  lemma RenderedFromHistory(item: Item, reqs: seq<Request>, rendererUsesAi: bool)
    requires IsBaseline(item) && Replay(item, reqs).Ok?
    requires Loadable(Replay(item, reqs).value)
    requires Uses(reqs, DraftAction) ==> rendererUsesAi
    ensures TextOf(NarrativeForRender(Replay(item, reqs).value, rendererUsesAi)) == DeliveredText(item, reqs)
  {
    TextsFollowHistory(item, reqs);
  }

  // ----- Correcting a wrong approval -----

  const Approval := Request(ApproveAction, None, None)

  /**
   * The documentation lets a wrong approval be revised and approved again. For every loadable item the revision
   * is accepted, and the approval after it is accepted exactly when no approved text was selected before.
   */
  lemma ReapprovalCondition(item: Item, review: Request)
    requires Loadable(item)
    requires review.action == ReviewAction && TextGiven(review)
    ensures Advance(item, review).Ok?
    ensures Advance(Advance(item, review).value, Approval).Ok? <==> item.selected == SelectedDeterministic
  {
  }

  /** A concrete case: review, approve, review again, approve again is refused at the fourth request. */
  lemma ReapprovalWitness(item: Item)
    requires IsBaseline(item)
    ensures
      var review := Request(ReviewAction, Some("o"), Some("r"));
      && Replay(item, [review, Approval, review]).Ok?
      && Replay(item, [review, Approval, review, Approval]) == Err(InvalidPayload)
  {
    var review := Request(ReviewAction, Some("o"), Some("r"));
    var w1, w2, w3, w4 :=
      [review], [review, Approval], [review, Approval, review], [review, Approval, review, Approval];
    assert w1[..0] == [] && w2[..1] == w1 && w3[..2] == w2 && w4[..3] == w3;
    assert Replay(item, w1) == Advance(item, review);
    ReapprovalCondition(Replay(item, w2).value, review);
  }
}
