/** From the stored revisions of a job to the text printed in its V4 report (run_generate with a persisted workflow). */
module V4Delivery {
  import opened Common
  import opened SectionWorkflow
  import SP = SectionPersistence
  import SR = SectionRuns
  import opened V4Report

  /** items are the payloads that document() returns for the job, in any order. */
  ghost predicate IsDocument(t: SP.Tables, jobId: string, items: seq<Item>) {
    && (forall e :: e in items ==> exists id :: SP.HasItem(t, jobId, id) && t.items[id].payload == e)
    && (forall id :: SP.HasItem(t, jobId, id) ==> t.items[id].payload in items)
  }

  lemma StoredKeyUnique(t: SP.Tables, jobId: string, a: nat, b: nat)
    requires SP.Inv(t) && SP.HasItem(t, jobId, a) && SP.HasItem(t, jobId, b)
    requires t.items[a].payload.facts.sectionKey == t.items[b].payload.facts.sectionKey
    ensures a == b
  {
    assert SP.ItemOk(t, a) && SP.ItemOk(t, b);
    hide SP.Chain, SP.History;
    assert SP.SameKey(t.items[a], t.items[b]);
  }

  lemma DocumentKeys(t: SP.Tables, jobId: string, items: seq<Item>)
    requires SP.Inv(t) && IsDocument(t, jobId, items)
    ensures OneItemPerKey(items)
  {
    hide SP.Inv;
    forall e, f | e in items && f in items && e.facts.sectionKey == f.facts.sectionKey
      ensures e == f
    {
      var a :| SP.HasItem(t, jobId, a) && t.items[a].payload == e;
      var b :| SP.HasItem(t, jobId, b) && t.items[b].payload == f;
      StoredKeyUnique(t, jobId, a, b);
    }
  }

  ghost predicate StoredAs(t: SP.Tables, jobId: string, id: nat, key: string) {
    SP.HasItem(t, jobId, id) && t.items[id].payload.facts.sectionKey == key
  }

  /** The printed item has the delivered text of the stored item's history. */
  ghost predicate Shows(t: SP.Tables, id: nat, items: seq<Item>, ids: CheckIds, report: Report, p: Slot)
    requires id in t.items && t.items[id].workflowId in t.workflows && IsSlot(report, p)
  {
    var h := SP.History(t.revisions, id);
    var after := Overlaid(ids, report, items, t.workflows[t.items[id].workflowId].rendererUsesAi);
    && h != [] && IsSlot(after, p)
    && Text(ItemAt(after, p).observation, ItemAt(after, p).recommendation) == DeliveredText(h[0].payload, SR.Word(h))
  }

  ghost predicate Untouched(items: seq<Item>, ids: CheckIds, report: Report, p: Slot, usesAi: bool)
    requires IsSlot(report, p)
  {
    var after := Overlaid(ids, report, items, usesAi);
    IsSlot(after, p) && ItemAt(after, p) == ItemAt(report, p)
  }

  lemma SlotUntouched(t: SP.Tables, jobId: string, items: seq<Item>, ids: CheckIds, report: Report, p: Slot,
      usesAi: bool)
    requires IsDocument(t, jobId, items) && IsSlot(report, p)
    requires forall id :: !StoredAs(t, jobId, id, KeyAt(ids, report, p))
    ensures Untouched(items, ids, report, p, usesAi)
  {
    hide Overlaid;
    OverlayFrame(ids, report, items, usesAi, p);
    forall e | e in items
      ensures e.facts.sectionKey != KeyAt(ids, report, p)
    {
      var id :| SP.HasItem(t, jobId, id) && t.items[id].payload == e;
      assert !StoredAs(t, jobId, id, KeyAt(ids, report, p));
    }
  }

  /**
   * After any run, in a job whose document loads, the report slot with the key of a stored item shows the text that
   * the item's accepted requests determine.
   */
  lemma {:induction false} SlotShowsHistory(
      steps: seq<SR.Step>, jobId: string, id: nat, items: seq<Item>, ids: CheckIds, report: Report, p: Slot)
    requires SR.FromBuilders(steps) && SR.DocumentLoads(SR.Run(steps), jobId)
    requires IsDocument(SR.Run(steps), jobId, items) && IsSlot(report, p)
    requires StoredAs(SR.Run(steps), jobId, id, KeyAt(ids, report, p))
    ensures Shows(SR.Run(steps), id, items, ids, report, p)
  {
    var t := SR.Run(steps);
    SR.RunInv(steps);
    SR.DeliveredTextOfDocument(steps, jobId, id);
    DocumentKeys(t, jobId, items);
    hide SR.Run, SP.Inv, SP.History, Overlaid, DeliveredText, NarrativeForRender, SR.FromBuilders, SR.DocumentLoads;
    OverlayFrame(ids, report, items, t.workflows[t.items[id].workflowId].rendererUsesAi, p);
  }

  /** What the builder makes of a report is a baseline: the documents that every run above starts from. */
  lemma BuilderMakesBaseline(ids: CheckIds, ruleset: string, report: Report)
    requires CheckIdsOk(ids) && Builds(report)
    ensures SP.BaselineDoc(SP.Document(ruleset, false, Entries(ids, ruleset, report)))
  {
    var items := Entries(ids, ruleset, report);
    hide Entries, IsBaseline, CheckIdsOk;
    forall k | 0 <= k < |items|
      ensures IsBaseline(items[k])
    {
      assert items[k] in items;
      EntriesAreVisibleSlots(ids, ruleset, report, items[k]);
      var p :| Visible(report, p) && items[k] == EntryAt(ids, ruleset, report, p);
      EntryIsBaseline(ids, ruleset, SectionAt(report, p).number, p.ordinal, ItemAt(report, p));
    }
  }

  /**
   * A built document is stored for a job without a workflow exactly when no two visible slots share a key; with
   * distinct section numbers it always is.
   */
  lemma BuiltDocumentStored(t: SP.Tables, jobId: string, ids: CheckIds, ruleset: string, report: Report)
    requires !SP.HasWorkflow(t, jobId)
    ensures var doc := SP.Document(ruleset, false, Entries(ids, ruleset, report));
      && (SP.HasWorkflow(SP.Persisted(t, jobId, doc), jobId) <==> VisibleKeysApart(ids, report))
      && (CheckIdsOk(ids) && DistinctNumbers(report) ==> SP.HasWorkflow(SP.Persisted(t, jobId, doc), jobId))
  {
    EntriesDistinct(ids, ruleset, report);
    if CheckIdsOk(ids) && DistinctNumbers(report) {
      forall p, q | Visible(report, p) && VisibleTwin(ids, report, p, q)
        ensures p == q
      {
        DistinctNumbersSuffice(ids, report, p, q);
      }
    }
    hide Entries, VisibleKeysApart, SP.DistinctKeys, SP.InsertItems;
    var doc := SP.Document(ruleset, false, Entries(ids, ruleset, report));
    if SP.DistinctKeys(doc.items) {
      SR.InsertItemsWorkflows(SP.InsertWorkflow(t, jobId, doc), t.nextId, doc.items);
      assert SP.IsWorkflowOf(SP.Persisted(t, jobId, doc), t.nextId, jobId);
    }
  }
}
