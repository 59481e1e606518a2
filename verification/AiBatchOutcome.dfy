/** What a recorded item state says about the section tables, in every run. */
module AiBatchOutcome {
  import opened Common
  import opened SectionWorkflow
  import P = SectionPersistence
  import opened AiBatch
  import opened AiBatchRuns
  import opened AiBatchAccounting

  /** Write i was made for item k of batch b. */
  predicate IsFor(x: DraftWrite, b: nat, k: nat) {
    x.batch == b && x.ordinal == k
  }

  ghost predicate Wrote(writes: seq<DraftWrite>, b: nat, k: nat) {
    exists i :: 0 <= i < |writes| && IsFor(writes[i], b, k)
  }

  /** A write answers what its batch item asked for. */
  predicate Answers(batches: map<nat, Batch>, x: DraftWrite) {
    && x.batch in batches && x.ordinal < |batches[x.batch].items|
    && batches[x.batch].items[x.ordinal].itemId == x.itemId && batches[x.batch].items[x.ordinal].expected == x.expected
  }

  ghost predicate AllAnswer(w: World) {
    forall i :: 0 <= i < |w.writes| ==> Answers(w.batches, w.writes[i])
  }

  ghost predicate BatchWrote(w: World, b: nat) {
    b in w.batches ==>
      forall k: nat :: k < |w.batches[b].items| && w.batches[b].items[k].state == Drafted ==> Wrote(w.writes, b, k)
  }

  ghost predicate ProcWrote(w: World, p: Proc) {
    p.Busy? ==> forall k :: k in p.flight && p.flight[k] == ToRecord(Drafted) ==> Wrote(w.writes, p.batch, k)
  }

  ghost predicate DraftsWritten(w: World) {
    && (forall b :: b in w.batches ==> BatchWrote(w, b))
    && (forall x :: x in w.procs ==> ProcWrote(w, w.procs[x]))
  }

  ghost predicate OutcomeInv(w: World) {
    IdsBelow(w) && AllAnswer(w) && DraftsWritten(w)
  }

  lemma WritesGrow(w: World, step: Step)
    ensures w.writes <= Next(w, step).writes
    ensures forall b, k: nat :: Wrote(w.writes, b, k) ==> Wrote(Next(w, step).writes, b, k)
  {
    hide LookStage, CreateProblem, OpenItems, Finished, NewBatch, P.Transitioned, P.Checked;
    var writes := Next(w, step).writes;
    assert w.writes <= writes;
    hide Next;
    forall b, k: nat | Wrote(w.writes, b, k)
      ensures Wrote(writes, b, k)
    {
      var i :| 0 <= i < |w.writes| && IsFor(w.writes[i], b, k);
      assert writes[i] == w.writes[i];
    }
  }

  /** The write of an accepted draft is for the item in flight. */
  lemma DraftAnswers(w: World, step: Step)
    requires step.WriteDraft? && Enabled(w, step)
    ensures var p := ProcOf(w, step.worker); var w' := Next(w, step);
      && w'.batches == w.batches
      && p.Busy? && step.ordinal in p.flight
      && (w'.writes == w.writes ||
          exists x :: w'.writes == w.writes + [x] && Answers(w.batches, x) && IsFor(x, p.batch, step.ordinal))
      && step.worker in w'.procs && w'.procs[step.worker].Busy? && step.ordinal in w'.procs[step.worker].flight
      && (w'.procs[step.worker].flight[step.ordinal] == ToRecord(Drafted) ==> Wrote(w'.writes, p.batch, step.ordinal))
  {
    hide P.Transitioned, P.Checked;
    var p, item := ProcOf(w, step.worker), BatchItemOf(w, step.worker, step.ordinal);
    var x := DraftWrite(p.batch, step.ordinal, item.itemId, item.expected);
    var w' := Next(w, step);
    if w'.writes == w.writes + [x] {
      assert IsFor(w'.writes[|w.writes|], p.batch, step.ordinal);
    }
  }

  lemma StepAnswers(w: World, step: Step)
    requires OutcomeInv(w)
    ensures AllAnswer(Next(w, step))
  {
    var w' := Next(w, step);
    forall i | 0 <= i < |w'.writes|
      ensures Answers(w'.batches, w'.writes[i])
    {
      if step.WriteDraft? && Enabled(w, step) {
        DraftAnswers(w, step);
        hide Next, DraftsWritten;
        assert i < |w.writes| ==> Answers(w.batches, w.writes[i]);
      } else {
        OtherWrites(w, step);
        hide Next, DraftsWritten;
        assert Answers(w.batches, w.writes[i]);
        StepOnBatch(w, step, w.writes[i].batch);
      }
    }
  }

  lemma OtherWrites(w: World, step: Step)
    requires !(step.WriteDraft? && Enabled(w, step))
    ensures Next(w, step).writes == w.writes
  {
    hide LookStage, CreateProblem, OpenItems, Finished, NewBatch;
  }

  lemma StepBatchWrote(w: World, step: Step, b: nat)
    requires OutcomeInv(w) && b in Next(w, step).batches
    ensures BatchWrote(Next(w, step), b)
  {
    hide Next, Wrote, Answers, OpenItems, CreateProblem, LookStage;
    WritesGrow(w, step);
    StepIds(w, step);
    if b in w.batches {
      StepOnBatch(w, step, b);
      assert BatchWrote(w, b);
      if step.RecordItem? && Enabled(w, step) {
        assert ProcWrote(w, w.procs[step.worker]);
      }
    }
  }

  lemma StepProcWrote(w: World, step: Step, x: string)
    requires OutcomeInv(w) && x in Next(w, step).procs
    ensures ProcWrote(Next(w, step), Next(w, step).procs[x])
  {
    hide Next, Wrote, Answers, BatchWrote, OpenItems, CreateProblem, LookStage;
    WritesGrow(w, step);
    StepOnProcs(w, step, x);
    if x in w.procs {
      assert ProcWrote(w, w.procs[x]);
    }
    if step.WriteDraft? && Enabled(w, step) {
      DraftAnswers(w, step);
    }
    if step.Look? && Enabled(w, step) {
      LookTerminal(w.tables, w.batches[ProcOf(w, step.worker).batch].jobId, BatchItemOf(w, step.worker, step.ordinal));
    }
    FreshClaim(w, step);
  }

  /** A claim hands out nothing that was drafted. */
  lemma FreshClaim(w: World, step: Step)
    ensures step.ClaimBatch? && Enabled(w, step) ==>
      forall k :: k in OpenItems(w.batches[step.batch].items) ==> OpenItems(w.batches[step.batch].items)[k] == Untouched
  {
  }

  lemma {:induction false} StepOutcome(w: World, step: Step)
    requires OutcomeInv(w)
    ensures OutcomeInv(Next(w, step))
  {
    StepIds(w, step);
    StepAnswers(w, step);
    hide Next, BatchWrote, ProcWrote, AllAnswer, IdsBelow;
    forall b | b in Next(w, step).batches
      ensures BatchWrote(Next(w, step), b)
    {
      StepBatchWrote(w, step, b);
    }
    forall x | x in Next(w, step).procs
      ensures ProcWrote(Next(w, step), Next(w, step).procs[x])
    {
      StepProcWrote(w, step, x);
    }
  }

  lemma {:induction false} RunOutcome(steps: seq<Step>)
    ensures OutcomeInv(Run(steps))
  {
    hide OutcomeInv, Next;
    if steps == [] {
      StartOutcome();
    } else {
      RunOutcome(steps[..|steps| - 1]);
      StepOutcome(Run(steps[..|steps| - 1]), steps[|steps| - 1]);
    }
  }

  lemma StartOutcome()
    ensures OutcomeInv(Initial)
  {
  }

  /**
   * A batch item recorded as ai_drafted has exactly one draft written for it, however often the batch was claimed,
   * abandoned and recovered: revision expected + 1 of its section item.
   */
  lemma DraftedMeansWrittenOnce(steps: seq<Step>, b: nat, k: nat)
    requires FromBuilders(steps)
    requires b in Run(steps).batches && k < |Run(steps).batches[b].items|
      && Run(steps).batches[b].items[k].state == Drafted
    ensures var w := Run(steps); var item := w.batches[b].items[k]; var h := P.History(w.tables.revisions, item.itemId);
      && (exists i :: 0 <= i < |w.writes| && IsFor(w.writes[i], b, k))
      && (forall i, j :: 0 <= i < j < |w.writes| && IsFor(w.writes[i], b, k) ==> !IsFor(w.writes[j], b, k))
      && 1 <= item.expected < |h| && h[item.expected].action == AiDrafted
        && h[item.expected].revision == item.expected + 1
  {
    var w := Run(steps);
    RunOutcome(steps);
    AtMostOneBatchDraft(steps);
    hide Run, FromBuilders, P.History;
    assert BatchWrote(w, b);
    var i :| 0 <= i < |w.writes| && IsFor(w.writes[i], b, k);
    assert Answers(w.batches, w.writes[i]);
    forall i, j | 0 <= i < j < |w.writes| && IsFor(w.writes[i], b, k)
      ensures !IsFor(w.writes[j], b, k)
    {
      assert Answers(w.batches, w.writes[i]) && Answers(w.batches, w.writes[j]);
    }
  }
}
