/** A run in which a batch is recovered while its worker is alive: every item is done and finalize raises. */
module AiBatchRepeats {
  import opened Common
  import opened SectionWorkflow
  import P = SectionPersistence
  import R = SectionRuns
  import opened AiBatch
  import opened AiBatchRuns
  import C = AiBatchAccounting

  /**
   * Persist a report of one item, create a batch for it, claim it as A, recover it, claim it as B; then both workers
   * look at the item, get no draft and record it.
   */
  function StepAt(jobId: string, item: Item, k: nat): Step
    requires 1 <= k <= 11
  {
    match k
    case 1 => Section(R.Persist(jobId, P.Document("r", false, [item])))
    case 2 => CreateBatch(jobId, "engineer", [Wanted(1, 1)], 5, 0)
    case 3 => ClaimBatch("A", 0, 0)
    case 4 => RecoverBatches({0})
    case 5 => ClaimBatch("B", 0, 0)
    case 6 => Look("A", 0)
    case 7 => NoDraft("A", 0)
    case 8 => RecordItem("A", 0, 0)
    case 9 => Look("B", 0)
    case 10 => NoDraft("B", 0)
    case 11 => RecordItem("B", 0, 0)
  }

  function Script(jobId: string, item: Item, k: nat): seq<Step>
    requires k <= 11
  {
    if k == 0 then [] else Script(jobId, item, k - 1) + [StepAt(jobId, item, k)]
  }

  lemma ScriptRun(jobId: string, item: Item, k: nat)
    requires 1 <= k <= 11
    ensures Run(Script(jobId, item, k)) == Next(Run(Script(jobId, item, k - 1)), StepAt(jobId, item, k))
  {
    hide Next, StepAt;
    assert Script(jobId, item, k)[..|Script(jobId, item, k)| - 1] == Script(jobId, item, k - 1);
  }

  /** The tables throughout: one generated item at revision 1. */
  predicate OneItem(t: P.Tables, jobId: string, item: Item) {
    P.HasItem(t, jobId, 1) && t.items[1] == P.RowOf(0, item)
  }

  /** One batch with one item; its counters, its status, and the stage of the item in the workers that have it. */
  ghost predicate At(w: World, jobId: string, item: Item, b: Batch, procs: map<string, Proc>) {
    OneItem(w.tables, jobId, item) && w.batches == map[0 := b] && w.procs == procs && b.jobId == jobId
  }

  predicate OneRow(b: Batch, state: ItemState, completed: nat) {
    b.items == [BatchItem(1, 1, state)] && b.completed == completed
  }

  function Has(stage: Stage): Proc {
    Busy(0, map[0 := stage])
  }

  lemma Persisting(jobId: string, item: Item)
    requires IsBaseline(item)
    ensures OneItem(Run(Script(jobId, item, 1)).tables, jobId, item)
    ensures Run(Script(jobId, item, 1)).batches == map[] && Run(Script(jobId, item, 1)).procs == map[]
    ensures Run(Script(jobId, item, 1)).nextBatch == 0
  {
    var doc := P.Document("r", false, [item]);
    ScriptRun(jobId, item, 1);
    PersistStep(jobId, doc);
    hide Next, IsBaseline, R.Apply;
    FreshTables(jobId, item);
  }

  lemma PersistStep(jobId: string, doc: P.Document)
    ensures Next(Initial, Section(R.Persist(jobId, doc)))
      == Initial.(tables := R.Apply(P.EmptyTables, R.Persist(jobId, doc)))
  {
    hide R.Apply;
  }

  lemma FreshTables(jobId: string, item: Item)
    ensures OneItem(R.Apply(P.EmptyTables, R.Persist(jobId, P.Document("r", false, [item]))), jobId, item)
  {
    var doc := P.Document("r", false, [item]);
    R.FreshItem(jobId, doc, 0);
    hide R.Apply, P.HasItem;
    assert [R.Persist(jobId, doc)][..0] == [];
    R.LastStep([R.Persist(jobId, doc)]);
  }

  lemma Creating(w: World, jobId: string, item: Item)
    requires IsBaseline(item) && OneItem(w.tables, jobId, item)
    requires w.batches == map[] && w.procs == map[] && w.nextBatch == 0
    ensures var w' := Next(w, StepAt(jobId, item, 2));
      && w'.batches.Keys == {0} && OneRow(w'.batches[0], Waiting, 0) && w'.batches[0].status == BatchQueued
      && At(w', jobId, item, w'.batches[0], map[])
  {
    R.NamedActor();
    hide Strip;
    var wanted := [Wanted(1, 1)];
    assert wanted[1..] == [];
    assert wanted[..0] == [];
    assert P.HasItem(w.tables, jobId, wanted[0].itemId);
    assert FirstProblem(w.tables, wanted).None?;
    assert CreateProblem(w.tables, jobId, "engineer", wanted, 5).None?;
  }

  lemma Claiming(w: World, jobId: string, item: Item, b: Batch, procs: map<string, Proc>, worker: string)
    requires At(w, jobId, item, b, procs) && OneRow(b, Waiting, 0) && b.status == BatchQueued && worker !in procs
    ensures var w' := Next(w, ClaimBatch(worker, 0, 0));
      At(w', jobId, item, ClaimedBatch(b, worker, 0), procs[worker := Has(Untouched)])
  {
    assert OpenItems(b.items) == map[0 := Untouched];
  }

  lemma Recovering(w: World, jobId: string, item: Item, b: Batch, procs: map<string, Proc>)
    requires At(w, jobId, item, b, procs) && b.status == BatchRunning
    ensures At(Next(w, RecoverBatches({0})), jobId, item, Requeued(b), procs)
  {
  }

  /** A worker that has the item untouched looks, gets no draft and records a fallback, whatever was recorded before. */
  lemma Falling(w: World, jobId: string, item: Item, b: Batch, procs: map<string, Proc>, worker: string)
    requires IsBaseline(item) && At(w, jobId, item, b, procs)
    requires b.items in {[BatchItem(1, 1, Waiting)], [BatchItem(1, 1, Fallback)]}
    requires worker in procs && procs[worker] == Has(Untouched)
    ensures
      var w1 := Next(w, Look(worker, 0));
      var w2 := Next(w1, NoDraft(worker, 0));
      var w3 := Next(w2, RecordItem(worker, 0, 0));
      At(w3, jobId, item, Finished(b, 0, Fallback, 0), procs[worker := Has(Recorded)])
  {
    var w1 := Next(w, Look(worker, 0));
    Looking(w, jobId, item, b, procs, worker);
    var w2 := Next(w1, NoDraft(worker, 0));
    Declining(w1, jobId, item, b, procs[worker := Has(Checked)], worker);
    Recording(w2, jobId, item, b, procs[worker := Has(Checked)][worker := Has(ToRecord(Fallback))], worker);
    assert procs[worker := Has(Checked)][worker := Has(ToRecord(Fallback))][worker := Has(Recorded)]
      == procs[worker := Has(Recorded)];
    hide Next;
  }

  lemma Looking(w: World, jobId: string, item: Item, b: Batch, procs: map<string, Proc>, worker: string)
    requires IsBaseline(item) && At(w, jobId, item, b, procs) && |b.items| == 1
    requires b.items[0].itemId == 1 && b.items[0].expected == 1
    requires worker in procs && procs[worker] == Has(Untouched)
    ensures At(Next(w, Look(worker, 0)), jobId, item, b, procs[worker := Has(Checked)])
  {
    hide Loadable;
    assert LookStage(w.tables, jobId, b.items[0]) == Checked;
    assert (map[0 := Untouched])[0 := Checked] == map[0 := Checked];
  }

  lemma Declining(w: World, jobId: string, item: Item, b: Batch, procs: map<string, Proc>, worker: string)
    requires At(w, jobId, item, b, procs) && |b.items| == 1
    requires worker in procs && procs[worker] == Has(Checked)
    ensures At(Next(w, NoDraft(worker, 0)), jobId, item, b, procs[worker := Has(ToRecord(Fallback))])
  {
    assert (map[0 := Checked])[0 := ToRecord(Fallback)] == map[0 := ToRecord(Fallback)];
  }

  lemma Recording(w: World, jobId: string, item: Item, b: Batch, procs: map<string, Proc>, worker: string)
    requires At(w, jobId, item, b, procs) && |b.items| == 1
    requires worker in procs && procs[worker] == Has(ToRecord(Fallback))
    ensures At(Next(w, RecordItem(worker, 0, 0)), jobId, item, Finished(b, 0, Fallback, 0),
               procs[worker := Has(Recorded)])
  {
    assert (map[0 := ToRecord(Fallback)])[0 := Recorded] == map[0 := Recorded];
  }

  /** After the script the only item is terminal, it was counted twice, and finalize raises. */
  lemma RecoveredWhileAlive(jobId: string, item: Item)
    requires IsBaseline(item)
    ensures FromBuilders(Script(jobId, item, 11))
    ensures var w := Run(Script(jobId, item, 11));
      && w.batches.Keys == {0} && OneRow(w.batches[0], Fallback, 2)
      && FinalStatus(w.batches[0]).None?
      && w.procs == map["A" := Has(Recorded), "B" := Has(Recorded)]
  {
    ScriptBuilders(jobId, item, 11);
    var b := BothClaim(jobId, item);
    FinishedRow(b);
    EndFacts(jobId, item, Finished(Finished(b, 0, Fallback, 0), 0, Fallback, 0),
      map["A" := Has(Recorded), "B" := Has(Recorded)]);
    BothRecord(jobId, item, b);
  }

  /** The surplus that finalize stumbles over is the one repeated recording. */
  lemma RecordedAgainOnce(jobId: string, item: Item)
    requires IsBaseline(item)
    ensures 0 in Run(Script(jobId, item, 11)).batches && C.Repeats(Script(jobId, item, 11), 0) == 1
  {
    RecoveredWhileAlive(jobId, item);
    C.FinalizeIffNoRepeats(Script(jobId, item, 11), 0);
    hide Run, Script, C.Repeats, IsBaseline;
    var items := Run(Script(jobId, item, 11)).batches[0].items;
    assert items[..0] == [];
  }

  /** Finishing the item twice counts it twice. */
  lemma FinishedRow(b: Batch)
    requires OneRow(b, Waiting, 0)
    ensures OneRow(Finished(b, 0, Fallback, 0), Fallback, 1)
    ensures OneRow(Finished(Finished(b, 0, Fallback, 0), 0, Fallback, 0), Fallback, 2)
  {
  }

  lemma EndFacts(jobId: string, item: Item, b: Batch, procs: map<string, Proc>)
    requires OneRow(b, Fallback, 2)
    ensures var w := Run(Script(jobId, item, 11)); At(w, jobId, item, b, procs) ==>
      w.batches.Keys == {0} && OneRow(w.batches[0], Fallback, 2) && FinalStatus(w.batches[0]).None? && w.procs == procs
  {
    hide Run, Script, OneItem;
  }

  lemma StepNames(jobId: string, item: Item)
    ensures StepAt(jobId, item, 3) == ClaimBatch("A", 0, 0) && StepAt(jobId, item, 4) == RecoverBatches({0})
    ensures StepAt(jobId, item, 5) == ClaimBatch("B", 0, 0)
    ensures StepAt(jobId, item, 6) == Look("A", 0) && StepAt(jobId, item, 7) == NoDraft("A", 0)
    ensures StepAt(jobId, item, 8) == RecordItem("A", 0, 0)
    ensures StepAt(jobId, item, 9) == Look("B", 0) && StepAt(jobId, item, 10) == NoDraft("B", 0)
    ensures StepAt(jobId, item, 11) == RecordItem("B", 0, 0)
  {
  }

  /** The other six steps. */
  lemma BothRecord(jobId: string, item: Item, b: Batch)
    requires IsBaseline(item) && OneRow(b, Waiting, 0)
    requires At(Run(Script(jobId, item, 5)), jobId, item, b, map["A" := Has(Untouched), "B" := Has(Untouched)])
    ensures At(Run(Script(jobId, item, 11)), jobId, item, Finished(Finished(b, 0, Fallback, 0), 0, Fallback, 0),
               map["A" := Has(Recorded), "B" := Has(Recorded)])
  {
    hide *;
    StepNames(jobId, item);
    RowItems(b);
    var w5, procs := Run(Script(jobId, item, 5)), map["A" := Has(Untouched), "B" := Has(Untouched)];
    ScriptRun(jobId, item, 6);
    ScriptRun(jobId, item, 7);
    ScriptRun(jobId, item, 8);
    Falling(w5, jobId, item, b, procs, "A");
    var w8, b8 := Run(Script(jobId, item, 8)), Finished(b, 0, Fallback, 0);
    ScriptRun(jobId, item, 9);
    ScriptRun(jobId, item, 10);
    ScriptRun(jobId, item, 11);
    Falling(w8, jobId, item, b8, procs["A" := Has(Recorded)], "B");
    assert procs["A" := Has(Recorded)]["B" := Has(Recorded)] == map["A" := Has(Recorded), "B" := Has(Recorded)];
  }

  lemma RowItems(b: Batch)
    requires OneRow(b, Waiting, 0)
    ensures Terminal(Fallback)
    ensures b.items == [BatchItem(1, 1, Waiting)] && Finished(b, 0, Fallback, 0).items == [BatchItem(1, 1, Fallback)]
  {
  }

  lemma ClaimRow(b: Batch, worker: string)
    requires OneRow(b, Waiting, 0)
    ensures OneRow(ClaimedBatch(b, worker, 0), Waiting, 0) && ClaimedBatch(b, worker, 0).status == BatchRunning
    ensures OneRow(Requeued(b), Waiting, 0) && Requeued(b).status == BatchQueued
  {
  }

  /** The first five steps: both workers have the waiting item of the batch. */
  lemma BothClaim(jobId: string, item: Item) returns (b: Batch)
    requires IsBaseline(item)
    ensures OneRow(b, Waiting, 0)
    ensures At(Run(Script(jobId, item, 5)), jobId, item, b, map["A" := Has(Untouched), "B" := Has(Untouched)])
  {
    hide *;
    StepNames(jobId, item);
    Persisting(jobId, item);
    ScriptRun(jobId, item, 2);
    Creating(Run(Script(jobId, item, 1)), jobId, item);
    b := Run(Script(jobId, item, 2)).batches[0];
    ClaimRow(b, "A");
    ClaimRow(ClaimedBatch(b, "A", 0), "");
    ClaimRow(Requeued(ClaimedBatch(b, "A", 0)), "B");
    ScriptRun(jobId, item, 3);
    Claiming(Run(Script(jobId, item, 2)), jobId, item, b, map[], "A");
    ScriptRun(jobId, item, 4);
    Recovering(Run(Script(jobId, item, 3)), jobId, item, ClaimedBatch(b, "A", 0), map["A" := Has(Untouched)]);
    ScriptRun(jobId, item, 5);
    var queued := Requeued(ClaimedBatch(b, "A", 0));
    Claiming(Run(Script(jobId, item, 4)), jobId, item, queued, map["A" := Has(Untouched)], "B");
    b := ClaimedBatch(queued, "B", 0);
    assert map["A" := Has(Untouched)]["B" := Has(Untouched)] == map["A" := Has(Untouched), "B" := Has(Untouched)];
  }

  lemma {:induction false} ScriptBuilders(jobId: string, item: Item, k: nat)
    requires IsBaseline(item) && k <= 11
    ensures FromBuilders(Script(jobId, item, k))
  {
    hide IsBaseline;
    if k > 0 {
      ScriptBuilders(jobId, item, k - 1);
    }
  }
}
