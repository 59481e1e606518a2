/** What holds of every section item after every run of baseline insertions and write requests. */
module SectionRuns {
  import opened Common
  import opened SectionWorkflow
  import opened SectionPersistence

  datatype Step =
    | Persist(jobId: string, doc: Document)
    | Transit(jobId: string, id: nat, expected: int, req: Request, actor: string)

  function Apply(t: Tables, step: Step): Tables {
    match step
    case Persist(jobId, doc) => Persisted(t, jobId, doc)
    case Transit(jobId, id, expected, req, actor) => Transitioned(t, jobId, id, expected, req, actor)
  }

  function Run(steps: seq<Step>): Tables {
    if steps == [] then EmptyTables else Apply(Run(steps[..|steps| - 1]), steps[|steps| - 1])
  }

  /** Documents reach the store only from the two workflow builders. */
  ghost predicate FromBuilders(steps: seq<Step>) {
    forall k :: 0 <= k < |steps| && steps[k].Persist? ==> BaselineDoc(steps[k].doc)
  }

  lemma {:induction false} ApplyInv(t: Tables, step: Step)
    requires Inv(t) && (step.Persist? ==> BaselineDoc(step.doc))
    ensures Inv(Apply(t, step))
  {
    match step
    case Persist(jobId, doc) => PersistedInv(t, jobId, doc);
    case Transit(jobId, id, expected, req, actor) => TransitionedInv(t, jobId, id, expected, req, actor);
  }

  lemma {:induction false} RunInv(steps: seq<Step>)
    requires FromBuilders(steps)
    ensures Inv(Run(steps))
  {
    if steps != [] {
      var n := |steps| - 1;
      RunInv(steps[..n]);
      ApplyInv(Run(steps[..n]), steps[n]);
    }
  }

  // ----- Histories only grow -----

  lemma {:induction false} InsertItemsAppends(t: Tables, wid: nat, items: seq<Item>)
    ensures t.revisions <= InsertItems(t, wid, items).revisions
    ensures InsertItems(t, wid, items).nextId == t.nextId + |items|
  {
    if items != [] {
      InsertItemsAppends(t, wid, items[..|items| - 1]);
    }
  }

  lemma ApplyAppends(t: Tables, step: Step)
    ensures t.revisions <= Apply(t, step).revisions
  {
    if step.Persist? {
      InsertItemsAppends(InsertWorkflow(t, step.jobId, step.doc), t.nextId, step.doc.items);
    }
  }

  lemma {:induction false} HistoryGrows(log: seq<RevisionRow>, more: seq<RevisionRow>, id: nat)
    ensures History(log, id) <= History(log + more, id)
  {
    if more == [] {
      assert log + more == log;
    } else {
      var n := |more| - 1;
      HistoryGrows(log, more[..n], id);
      HistoryAppend(log + more[..n], more[n], id);
      assert log + more == log + more[..n] + [more[n]];
    }
  }

  /** Whatever happens later, the revisions an item already has stay as they are, in the same order. */
  lemma {:induction false} HistoryAppendOnly(steps: seq<Step>, more: seq<Step>, id: nat)
    ensures History(Run(steps).revisions, id) <= History(Run(steps + more).revisions, id)
  {
    hide *;
    if more == [] {
      assert steps + more == steps;
    } else {
      var n := |more| - 1;
      HistoryAppendOnly(steps, more[..n], id);
      OneMore(steps, more);
      var before, after := Run(steps + more[..n]).revisions, Run(steps + more).revisions;
      ApplyAppends(Run(steps + more[..n]), more[n]);
      assert after == before + after[|before|..];
      HistoryGrows(before, after[|before|..], id);
    }
  }

  lemma {:induction false} OneMore(steps: seq<Step>, more: seq<Step>)
    requires more != []
    ensures Run(steps + more) == Apply(Run(steps + more[..|more| - 1]), more[|more| - 1])
  {
    var all := steps + more;
    LastStep(all);
    hide *;
    assert all[..|all| - 1] == steps + more[..|more| - 1];
    assert all[|all| - 1] == more[|more| - 1];
  }

  lemma LastStep(steps: seq<Step>)
    requires steps != []
    ensures Run(steps) == Apply(Run(steps[..|steps| - 1]), steps[|steps| - 1])
  {
    hide Apply;
  }

  // ----- A history is a word of accepted requests -----

  /** The accepted requests of an item, oldest first; its first revision is the baseline and not a request. */
  function Word(h: seq<RevisionRow>): seq<Request>
    requires h != []
  {
    Requests(h[1..])
  }

  lemma ChainPrefix(h: seq<RevisionRow>, n: nat)
    requires Chain(h) && 0 < n <= |h|
    ensures Chain(h[..n])
  {
    hide IsBaseline, Advance;
    forall k | 0 < k < n
      ensures Edits(h[..n], k)
    {
      assert Edits(h, k);
    }
  }

  lemma AdvanceKeepsFacts(before: Item, req: Request)
    requires Advance(before, req).Ok?
    ensures Advance(before, req).value.facts == before.facts
  {
  }

  lemma {:induction false} ChainReplays(h: seq<RevisionRow>)
    requires Chain(h)
    ensures Replay(h[0].payload, Word(h)) == Ok(h[|h| - 1].payload)
    ensures h[|h| - 1].payload.facts == h[0].payload.facts
  {
    hide IsBaseline, Advance, RequestOf;
    if |h| > 1 {
      var n := |h| - 1;
      ChainPrefix(h, n);
      ChainReplays(h[..n]);
      var w := Word(h);
      assert h[1..][..n - 1] == h[..n][1..];
      assert w[..n - 1] == Word(h[..n]);
      assert Edits(h, n);
      AdvanceKeepsFacts(h[n - 1].payload, w[n - 1]);
    }
  }

  lemma {:induction false} ChainFacts(h: seq<RevisionRow>, k: nat)
    requires Chain(h) && k < |h|
    ensures h[k].payload.facts == h[0].payload.facts
  {
    ChainPrefix(h, k + 1);
    ChainReplays(h[..k + 1]);
  }

  /** The stored item of every run carries a chain whose last revision it is. */
  lemma {:induction false} StoredChain(steps: seq<Step>, id: nat)
    requires FromBuilders(steps) && id in Run(steps).items
    ensures var t := Run(steps); var h := History(t.revisions, id);
      && Chain(h) && IsBaseline(h[0].payload) && Numbered(h)
      && t.items[id].payload == h[|h| - 1].payload && t.items[id].currentRevision == |h|
      && t.items[id].workflowId in t.workflows
      && (|h| > 1 ==> t.workflows[t.items[id].workflowId].rendererUsesAi)
  {
    RunInv(steps);
    assert ItemOk(Run(steps), id);
  }

  /**
   * Every item of every run: its revisions are numbered 1 to the current one with no gap or duplicate, the last one
   * is the stored item, and none differs from the baseline in what no request may change.
   */
  lemma {:induction false} ReachableHistory(steps: seq<Step>, id: nat)
    requires FromBuilders(steps) && id in Run(steps).items
    ensures var t := Run(steps); var h := History(t.revisions, id);
      && h != [] && IsBaseline(h[0].payload)
      && (forall k :: 0 <= k < |h| ==> h[k].revision == k + 1)
      && t.items[id].currentRevision == |h|
      && t.items[id].payload == h[|h| - 1].payload
      && (forall k :: 0 <= k < |h| ==> h[k].payload.facts == h[0].payload.facts)
  {
    StoredChain(steps, id);
    var h := History(Run(steps).revisions, id);
    hide Chain, Run, History;
    forall k | 0 <= k < |h|
      ensures h[k].payload.facts == h[0].payload.facts
    {
      ChainFacts(h, k);
    }
  }

  /**
   * Every item of every run has gone through a permitted word of requests, which alone determines the stored item;
   * the stored item passes the validator unless the word ends in an edit after an approval.
   */
  lemma ReachableWord(steps: seq<Step>, id: nat)
    requires FromBuilders(steps) && id in Run(steps).items
    ensures var t := Run(steps); var h := History(t.revisions, id);
      && h != []
      && Permitted(Word(h))
      && Replay(h[0].payload, Word(h)) == Ok(t.items[id].payload)
      && (Loadable(t.items[id].payload) <==> !EditedAfterApproval(Word(h)))
  {
    StoredChain(steps, id);
    var h := History(Run(steps).revisions, id);
    hide Chain, Run, History, IsBaseline, Advance, Permitted, Loadable;
    ChainReplays(h);
    WordLanguage(h[0].payload, Word(h));
    ValidatorBoundary(h[0].payload, Word(h));
  }

  // ----- Loading a document -----

  /** document() succeeds: the job has a workflow and every stored item of it passes model_validate. */
  ghost predicate DocumentLoads(t: Tables, jobId: string) {
    HasWorkflow(t, jobId) && forall id :: HasItem(t, jobId, id) ==> Loadable(t.items[id].payload)
  }

  /**
   * In every document that loads, the text delivered for an item is the one its accepted requests determine:
   * the last reviewed text if anything was approved, else the last AI draft, else the template.
   */
  lemma {:induction false} DeliveredTextOfDocument(steps: seq<Step>, jobId: string, id: nat)
    requires FromBuilders(steps)
    requires DocumentLoads(Run(steps), jobId) && HasItem(Run(steps), jobId, id)
    ensures var t := Run(steps); var h := History(t.revisions, id);
      && h != []
      && TextOf(NarrativeForRender(t.items[id].payload, t.workflows[t.items[id].workflowId].rendererUsesAi))
         == DeliveredText(h[0].payload, Word(h))
  {
    StoredChain(steps, id);
    var t := Run(steps);
    var h := History(t.revisions, id);
    hide Chain, Run, History, IsBaseline, Advance, Loadable, DeliveredText;
    ChainReplays(h);
    RenderedFromHistory(h[0].payload, Word(h), t.workflows[t.items[id].workflowId].rendererUsesAi);
  }

  // ----- Every permitted word happens -----

  lemma {:induction false} InsertedRow(t: Tables, wid: nat, items: seq<Item>, k: nat)
    requires k < |items|
    ensures t.nextId + k in InsertItems(t, wid, items).items
    ensures InsertItems(t, wid, items).items[t.nextId + k] == RowOf(wid, items[k])
  {
    var n := |items| - 1;
    InsertItemsAppends(t, wid, items[..n]);
    if k < n {
      InsertedRow(t, wid, items[..n], k);
    }
  }

  function Submissions(jobId: string, doc: Document, id: nat, reqs: seq<Request>): seq<Step> {
    if reqs == [] then [Persist(jobId, doc)]
    else Submissions(jobId, doc, id, reqs[..|reqs| - 1]) + [Transit(jobId, id, |reqs|, reqs[|reqs| - 1], "engineer")]
  }

  lemma NamedActor()
    ensures Strip("engineer") != []
  {
    hide Strip;
    NotBlank("engineer", 0);
  }

  /** Conversely, submitting any permitted word against any item of a fresh document is accepted throughout. */
  lemma PermittedWordHappens(jobId: string, doc: Document, k: nat, reqs: seq<Request>)
    requires BaselineDoc(doc) && DistinctKeys(doc.items) && k < |doc.items|
    requires Permitted(reqs)
    ensures var t := Run(Submissions(jobId, doc, 1 + k, reqs));
      && HasItem(t, jobId, 1 + k)
      && t.items[1 + k].currentRevision == 1 + |reqs|
      && Ok(t.items[1 + k].payload) == Replay(doc.items[k], reqs)
  {
    WordLanguage(doc.items[k], reqs);
    EveryWordHappens(jobId, doc, k, reqs);
  }

  lemma {:induction false} EveryWordHappens(jobId: string, doc: Document, k: nat, reqs: seq<Request>)
    requires BaselineDoc(doc) && DistinctKeys(doc.items) && k < |doc.items|
    requires Replay(doc.items[k], reqs).Ok?
    ensures var t := Run(Submissions(jobId, doc, 1 + k, reqs));
      && HasItem(t, jobId, 1 + k)
      && t.items[1 + k].currentRevision == 1 + |reqs|
      && Ok(t.items[1 + k].payload) == Replay(doc.items[k], reqs)
  {
    hide *;
    if reqs == [] {
      NoSubmission(jobId, doc, k);
    } else {
      var n := |reqs| - 1;
      FollowsPhase(doc, k, reqs);
      ReplayLast(doc.items[k], reqs);
      EveryWordHappens(jobId, doc, k, reqs[..n]);
      LastSubmission(jobId, doc, 1 + k, reqs);
      AcceptedSubmission(Run(Submissions(jobId, doc, 1 + k, reqs[..n])), jobId, 1 + k, reqs[n]);
    }
  }

  /** An accepted word of n requests leads to revision n + 1. */
  lemma FollowsPhase(doc: Document, k: nat, reqs: seq<Request>)
    requires BaselineDoc(doc) && k < |doc.items| && Replay(doc.items[k], reqs).Ok?
    ensures Replay(doc.items[k], reqs).value.revision == 1 + |reqs|
  {
    ReplayFollowsPhase(doc.items[k], reqs);
    hide Replay, Loadable;
  }

  lemma NoSubmission(jobId: string, doc: Document, k: nat)
    requires BaselineDoc(doc) && DistinctKeys(doc.items) && k < |doc.items|
    ensures var t := Run(Submissions(jobId, doc, 1 + k, []));
      && HasItem(t, jobId, 1 + k)
      && t.items[1 + k].currentRevision == 1
      && Ok(t.items[1 + k].payload) == Replay(doc.items[k], [])
  {
    FreshItem(jobId, doc, k);
    hide Run, DistinctKeys, Loadable;
  }

  lemma FreshItem(jobId: string, doc: Document, k: nat)
    requires DistinctKeys(doc.items) && k < |doc.items|
    ensures var t := Run([Persist(jobId, doc)]);
      HasItem(t, jobId, 1 + k) && t.items[1 + k] == RowOf(0, doc.items[k])
  {
    var steps := [Persist(jobId, doc)];
    assert steps[..0] == [];
    hide DistinctKeys;
    InsertedRow(InsertWorkflow(EmptyTables, jobId, doc), 0, doc.items, k);
    InsertItemsWorkflows(InsertWorkflow(EmptyTables, jobId, doc), 0, doc.items);
  }

  lemma LastSubmission(jobId: string, doc: Document, id: nat, reqs: seq<Request>)
    requires reqs != []
    ensures var n := |reqs| - 1;
      Run(Submissions(jobId, doc, id, reqs))
      == Transitioned(Run(Submissions(jobId, doc, id, reqs[..n])), jobId, id, |reqs|, reqs[n], "engineer")
  {
    var steps := Submissions(jobId, doc, id, reqs);
    assert steps[..|steps| - 1] == Submissions(jobId, doc, id, reqs[..|reqs| - 1]);
  }

  lemma ReplayLast(item: Item, reqs: seq<Request>)
    requires reqs != [] && Replay(item, reqs).Ok?
    ensures Replay(item, reqs[..|reqs| - 1]).Ok?
    ensures Replay(item, reqs) == Advance(Replay(item, reqs[..|reqs| - 1]).value, reqs[|reqs| - 1])
  {
  }

  lemma AcceptedSubmission(t: Tables, jobId: string, id: nat, req: Request)
    requires HasItem(t, jobId, id) && Advance(t.items[id].payload, req).Ok?
    ensures var t' := Transitioned(t, jobId, id, t.items[id].currentRevision, req, "engineer");
      && HasItem(t', jobId, id)
      && Ok(t'.items[id].payload) == Advance(t.items[id].payload, req)
      && t'.items[id].currentRevision == t'.items[id].payload.revision
  {
    NamedActor();
    hide Strip, Advance;
  }

  lemma {:induction false} InsertItemsWorkflows(t: Tables, wid: nat, items: seq<Item>)
    ensures InsertItems(t, wid, items).workflows == t.workflows
  {
    if items != [] {
      InsertItemsWorkflows(t, wid, items[..|items| - 1]);
    }
  }
}
