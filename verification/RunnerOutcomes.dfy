/**
  What the answer of a drive says about the run it leaves: each disposition exactly when the last head
  and the last step are as it claims, and no earlier step would have ended the drive.
 */
module RunnerOutcomes {
  import opened Wrappers
  import opened Identity
  import opened Progression
  import opened Dispatch
  import opened DispatchLaws
  import opened DispatchOutcomes
  import opened RunJournal
  import opened RunJournalLaws
  import opened Runner
  import opened RunnerLaws
  import opened RunnerSteps
  import opened RunnerDrive

  predicate EverythingSatisfied(p: Progress) {
    forall n | n in p.graph.nodes :: Seed(p.graph, p.evidence, n) == Satisfied
  }

  predicate SomethingFailed(p: Progress) {
    exists n | n in p.graph.nodes :: Seed(p.graph, p.evidence, n) == Failed
  }

  /** The step found its operation blocked, or left it started with this very result as an observation. */
  predicate AwaitsResolution(step: Step) {
    || step.disposition == ExternalResolution
    || (&& step.evidence.OperationEvidence? && step.evidence.result.Some? && step.dispatch.Some?
        && exists i | 0 <= i < |step.run.records| ::
             && step.run.records[i].dispatch == step.dispatch.value && step.run.records[i].state == Started
             && step.evidence.result.value.identity in step.run.records[i].observations)
  }

  /** What the last step of a drive must be like for each answer. */
  predicate Means(disposition: DriveDisposition, last: Step) {
    var p := last.run.progress;
    var held := last.disposition != AuthorityUnavailable;
    match disposition
    case MutationUnavailable => !held
    case ResolutionRequired => held && AwaitsResolution(last)
    case DriveCompleted => held && !AwaitsResolution(last) && EverythingSatisfied(p)
    case StoppedAfterFailure => held && !AwaitsResolution(last) && SomethingFailed(p)
    case QuiescentIncomplete =>
      held && !AwaitsResolution(last) && !EverythingSatisfied(p) && !SomethingFailed(p) && last.disposition == Quiescent
    case StepLimit =>
      held && !AwaitsResolution(last) && !EverythingSatisfied(p) && !SomethingFailed(p) && last.disposition != Quiescent
  }

  lemma RetainedIff(step: Step)
    requires LedgerSound(step.run)
    ensures step.disposition == ExternalResolution || RetainsUncertainty(step) <==> AwaitsResolution(step)
  {
    if step.dispatch.Some? {
      RecordIsOnly(step.run, step.dispatch.value);
    }
    hide LedgerSound, RecordOf;
  }

  lemma RecordIsOnly(run: Run, d: Dispatch)
    requires LedgerSound(run)
    ensures forall i | 0 <= i < |run.records| && run.records[i].dispatch == d ::
              RecordOf(run, d) == Some(run.records[i])
    ensures RecordOf(run, d).Some? ==>
              exists i | 0 <= i < |run.records| ::
                    run.records[i].dispatch == d && RecordOf(run, d).value == run.records[i]
  {
    hide LedgerSound;
    var found := RecordIndex(run.records, d);
    forall i | 0 <= i < |run.records| && run.records[i].dispatch == d
      ensures RecordOf(run, d) == Some(run.records[i])
    {
      SameRecord(run, i, found.value);
    }
  }

  lemma SameRecord(run: Run, i: nat, j: nat)
    requires LedgerSound(run) && i < |run.records| && j < |run.records|
    requires run.records[i].dispatch == run.records[j].dispatch
    ensures i == j
  {
    hide ProgressSound, RecordSound, ActiveOf;
  }

  lemma ProgressReads(run: Run)
    ensures Complete(run.progress) == EverythingSatisfied(run.progress)
    ensures Stopped(run) == SomethingFailed(run.progress) == HasFailed(run.progress)
  {
    hide Seed;
  }

  lemma StopMeans(step: Step, disposition: DriveDisposition)
    requires LedgerSound(step.run)
    ensures ClassifyStop(step) == disposition <==> Means(disposition, step)
  {
    hide LedgerSound, Complete, Stopped, EverythingSatisfied, SomethingFailed, AwaitsResolution, RetainsUncertainty;
    RetainedIff(step);
    NotCompleteAndFailed(step.run.progress);
    ProgressReads(step.run);
  }

  ghost predicate IsAnswerTo(answer: DriveDisposition, last: Step) {
    forall disposition :: answer == disposition <==> Means(disposition, last)
  }

  /** A step returns its durable head; before the last one, it is none that ends a drive. */
  predicate StandsInDrive(step: Step, last: bool) {
    step.head.run == step.run && (last || Means(StepLimit, step))
  }

  /** The answer of a drive, its last step, and the steps before it. */
  ghost predicate EndsExactly(bound: nat, outcome: DriveOutcome) {
    outcome.Ended? ==>
      var steps := outcome.steps;
      && 0 < |steps| <= bound
      && (forall i | 0 <= i < |steps| :: StandsInDrive(steps[i], i + 1 == |steps|))
      && IsAnswerTo(outcome.disposition, steps[|steps| - 1])
      && (outcome.disposition == StepLimit ==> |steps| == bound)
  }

  lemma LastStepEnds(bound: nat, step: Step)
    requires bound > 0 && LedgerSound(step.run) && step.head.run == step.run
    requires ClassifyStop(step) != StepLimit || bound == 1
    ensures EndsExactly(bound, Ended(ClassifyStop(step), [step]))
  {
    hide LedgerSound, ClassifyStop, Means;
    forall disposition
      ensures ClassifyStop(step) == disposition <==> Means(disposition, step)
    {
      StopMeans(step, disposition);
    }
  }

  lemma EarlierStepGoesOn(bound: nat, step: Step, rest: DriveOutcome)
    requires bound > 1 && StandsInDrive(step, false) && EndsExactly(bound - 1, rest)
    ensures EndsExactly(bound, Prepend(step, rest))
  {
    hide StandsInDrive, IsAnswerTo;
    if rest.Ended? {
      var steps := [step] + rest.steps;
      assert steps[|steps| - 1] == rest.steps[|rest.steps| - 1];
      forall i | 0 <= i < |steps|
        ensures StandsInDrive(steps[i], i + 1 == |steps|)
      {
        if i > 0 {
          assert steps[i] == rest.steps[i - 1] && StandsInDrive(rest.steps[i - 1], i == |rest.steps|);
        }
      }
    }
  }

  /** Whatever a drive from a sound head answers, its last step is exactly what the answer means. */
  lemma {:induction false} DriveEndsExactly(sha: Sha256, disk: RunDisk, bound: nat, ask: (nat, Snapshot) -> Answers)
    requires DiskSound(disk) && bound > 0
    ensures EndsExactly(bound, Drive(sha, disk.head, bound, ask))
    decreases bound
  {
    hide DiskSound, CheckedAdvance, Advance, ClassifyStop, EndsExactly;
    var a := ask(bound, disk.head);
    var result := CheckedAdvance(sha, disk.head, a).result;
    if result.Failure? {
      NothingEnds(bound);
    } else {
      var step := result.value;
      StepFacts(sha, disk, a, step);
      var end := PersistAll(disk, Advance(sha, disk.head, a).writes);
      DiskIsLedgerSound(end);
      if ClassifyStop(step) != StepLimit {
        LastStepEnds(bound, step);
      } else if bound == 1 {
        LastStepEnds(bound, step);
        assert Drive(sha, step.head, 0, ask) == Ended(StepLimit, []);
        assert [step] + [] == [step];
      } else {
        DriveEndsExactly(sha, end, bound - 1, ask);
        StopMeans(step, StepLimit);
        EarlierStepGoesOn(bound, step, Drive(sha, end.head, bound - 1, ask));
      }
    }
  }

  lemma NothingEnds(bound: nat)
    ensures EndsExactly(bound, Threw([]))
  {}

  // ---------------------------------------------------------------- quiescence

  /** Nothing is reserved or started, and no unit may be reserved: one has failed, or none is waiting. */
  predicate AtRest(run: Run)
    requires EdgesInside(run.progress.graph)
  {
    && (forall i | 0 <= i < |run.records| :: run.records[i].state != Reserved && run.records[i].state != Started)
    && (SomethingFailed(run.progress)
        || forall i | 0 <= i < |run.progress.graph.units| :: !Waiting(run.progress, run.progress.graph.units[i]))
  }

  lemma AtRestIff(run: Run)
    requires EdgesInside(run.progress.graph)
    ensures AtRest(run) <==> FirstActive(run.records).None? && (Stopped(run) || NothingReady(run))
  {
    var units := run.progress.graph.units;
    forall i | 0 <= i < |units|
      ensures Waiting(run.progress, units[i]) <==> ReadyUnit(run.progress, units[i])
    {
      hide Seed;
    }
    assert Stopped(run) == SomethingFailed(run.progress);
    hide Waiting, ReadyUnit, HasFailed, SomethingFailed;
    if FirstActive(run.records).None? {
      forall i | 0 <= i < |run.records|
        ensures run.records[i].state != Reserved && run.records[i].state != Started
      {
        assert !Active(run.records[i]);
      }
    } else {
      var r := FirstActive(run.records).value;
      assert r in run.records && Active(r);
    }
  }

  /** A step reports that nothing can be done exactly when its head is at rest. */
  lemma QuiescentExactly(sha: Sha256, disk: RunDisk, a: Answers, step: Step)
    requires DiskSound(disk) && CheckedAdvance(sha, disk.head, a).result == Success(step)
    ensures EdgesInside(disk.head.run.progress.graph)
    ensures step.disposition == Quiescent <==> AtRest(disk.head.run)
    ensures step.disposition == Quiescent ==> step == Step(disk.head.run, disk.head, Quiescent, None, NoEvidence)
  {
    assert EdgesInside(disk.head.run.progress.graph);
    hide DiskSound, ReserveAndExecute, ReconcileActive, Reopen, NothingReady, Stopped, AtRest, AdvanceResultValid;
    AtRestIff(disk.head.run);
    SoundHeadReopens(disk);
    ReservedIsNotQuiescent(sha, disk.head, a);
    var active := FirstActive(disk.head.run.records);
    if active.Some? {
      ReconciledIsNotQuiescent(disk.head, active.value, a);
    }
  }

  lemma ReconciledIsNotQuiescent(s: Snapshot, r: DispatchRecord, a: Answers)
    ensures var result := ReconcileActive(s, r, a).result; result.Success? ==> result.value.disposition != Quiescent
  {
    hide Successor, CompleteWork, SubmitOperation, ReleaseUnstarted;
  }
}
