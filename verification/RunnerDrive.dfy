/**
  Whole drives, step by step: what a step does to its head, and when the result of a drive
  passes its own check.
 */
module RunnerDrive {
  import opened Wrappers
  import opened Identity
  import opened Progression
  import opened Dispatch
  import opened DispatchLaws
  import opened RunJournal
  import opened Runner
  import opened RunnerLaws
  import opened RunnerSteps

  // ---------------------------------------------------------------- a fresh run

  function FreshDisk(g: Graph, epoch: string, policy: Policy, journal: string): RunDisk {
    RunDisk(MakeSnapshot(journal, 0, None, Run(Progress(g, epoch, map[]), policy, [])), {}, {}, {})
  }

  lemma FreshDiskIsSound(g: Graph, epoch: string, policy: Policy, journal: string)
    requires WellFormed(g)
    ensures DiskSound(FreshDisk(g, epoch, policy, journal))
  {
    BeginIsSound(Progress(g, epoch, map[]), policy);
    hide LedgerSound;
  }

  // ---------------------------------------------------------------- a step in terms of its head

  /** The facts about a returned step that the drive rests on. */
  lemma StepFacts(sha: Sha256, disk: RunDisk, a: Answers, step: Step)
    requires DiskSound(disk) && CheckedAdvance(sha, disk.head, a).result == Success(step)
    ensures var end := PersistAll(disk, Advance(sha, disk.head, a).writes);
            && DiskSound(end) && step.head == end.head && step.run == end.head.run
            && end.head.journal == disk.head.journal && end.head.run.progress.graph == disk.head.run.progress.graph
            && end.head.run.policy == disk.head.run.policy && Grows(disk.head.run.progress, end.head.run.progress)
            && end.head.sequence == disk.head.sequence + HeadWrites(Advance(sha, disk.head, a).writes)
            && (ClassifyStop(step) == StepLimit ==>
                  Idle(step.run.records) && !Complete(step.run.progress) && !Stopped(step.run))
  {
    hide DiskSound, Advance, Course, Complete, Stopped, AdvanceResultValid, RetainsUncertainty, Idle;
    AdvanceIsGood(sha, disk, a);
    var writes := Advance(sha, disk.head, a).writes;
    CourseEndsSound(disk, writes);
    SequenceCountsHeads(disk, writes);
  }

  lemma IdleHasNoActive(records: seq<DispatchRecord>)
    requires Idle(records)
    ensures FirstActive(records).None?
  {}

  /** From an idle run that has not stopped, a step is quiescent exactly when nothing is ready. */
  lemma IdleStep(sha: Sha256, disk: RunDisk, a: Answers, step: Step)
    requires DiskSound(disk) && Idle(disk.head.run.records) && !Stopped(disk.head.run)
    requires CheckedAdvance(sha, disk.head, a).result == Success(step)
    ensures NothingReady(disk.head.run) ==> step == Step(disk.head.run, disk.head, Quiescent, None, NoEvidence)
    ensures !NothingReady(disk.head.run) ==> step.disposition != Quiescent && step.head.sequence > disk.head.sequence
  {
    hide DiskSound, ReserveAndExecute, Reopen, Idle, NothingReady, Stopped, AdvanceResultValid, PlanGood, HeadWrites;
    IdleHasNoActive(disk.head.run.records);
    SoundHeadReopens(disk);
    StepFacts(sha, disk, a, step);
    AdvanceIsGood(sha, disk, a);
    if !NothingReady(disk.head.run) {
      ReserveIsGood(sha, disk, a);
      ReservedIsNotQuiescent(sha, disk.head, a);
    }
  }

  lemma ReservedIsNotQuiescent(sha: Sha256, s: Snapshot, a: Answers)
    ensures var r := ReserveAndExecute(sha, s, a).result; r.Success? ==> r.value.disposition != Quiescent
  {
    hide Successor, ReserveNext, StartWork, StartOperation, CompleteWork, SubmitOperation, ReleaseUnstarted;
  }

  // ---------------------------------------------------------------- when a drive's result is valid

  lemma PrependedIsValid(bound: nat, disposition: DriveDisposition, step: Step, rest: seq<Step>)
    requires bound > 0 && ClassifyStop(step) == StepLimit
    requires rest == [] ==> bound == 1 && disposition == StepLimit
    requires rest != [] ==> FollowsDurably(step, rest[0])
    ensures rest != [] ==>
              (DriveResultValid(bound, disposition, [step] + rest) <==> DriveResultValid(bound - 1, disposition, rest))
    ensures rest == [] ==> DriveResultValid(bound, disposition, [step])
  {
    hide ClassifyStop, FollowsDurably;
    var steps := [step] + rest;
    if rest != [] {
      assert steps[|steps| - 1] == rest[|rest| - 1];
      if DriveResultValid(bound - 1, disposition, rest) {
        forall i | 1 <= i < |steps|
          ensures StepFollows(steps, i)
        {
          assert i > 1 ==> StepFollows(rest, i - 1);
        }
      }
      if DriveResultValid(bound, disposition, steps) {
        forall i | 1 <= i < |rest|
          ensures StepFollows(rest, i)
        {
          assert StepFollows(steps, i + 1);
        }
      }
    }
  }

  lemma StallIsInvalid(bound: nat, step: Step, stall: Step)
    requires ClassifyStop(step) == StepLimit && stall.head == step.head
    ensures !DriveResultValid(bound, QuiescentIncomplete, [step, stall])
  {
    assert !StepFollows([step, stall], 1);
  }

  /**
    What a drive that ends returns: a valid result, except that it goes on to a step that
    finds an incomplete run with nothing ready.
   */
  predicate Fair(bound: nat, outcome: DriveOutcome) {
    outcome.Ended? ==>
      && |outcome.steps| > 0
      && (DriveResultValid(bound, outcome.disposition, outcome.steps)
          <==> !(outcome.disposition == QuiescentIncomplete && |outcome.steps| > 1))
  }

  lemma ClassifyQuiescent(step: Step)
    ensures step.disposition != Quiescent ==> ClassifyStop(step) != QuiescentIncomplete
    ensures (step.disposition == Quiescent && step.evidence == NoEvidence && !Complete(step.run.progress)
             && !Stopped(step.run)) ==> ClassifyStop(step) == QuiescentIncomplete
  {
    hide Complete, HasFailed, RecordOf;
  }

  lemma SingleStepIsFair(bound: nat, step: Step)
    requires bound > 0 && ClassifyStop(step) != StepLimit
    ensures Fair(bound, Ended(ClassifyStop(step), [step]))
  {
    hide ClassifyStop;
  }

  /** The step after one that lets the drive go on either moves the head or finds nothing ready. */
  lemma NextStep(sha: Sha256, disk: RunDisk, a: Answers, previous: Step, step: Step)
    requires DiskSound(disk) && previous.head == disk.head && previous.run == disk.head.run
    requires ClassifyStop(previous) == StepLimit && Idle(disk.head.run.records) && !Stopped(disk.head.run)
    requires !Complete(disk.head.run.progress) && CheckedAdvance(sha, disk.head, a).result == Success(step)
    ensures NothingReady(disk.head.run) ==> ClassifyStop(step) == QuiescentIncomplete && step.head == previous.head
    ensures !NothingReady(disk.head.run) ==> FollowsDurably(previous, step) && ClassifyStop(step) != QuiescentIncomplete
  {
    hide DiskSound, CheckedAdvance, Complete, HasFailed, NothingReady, Idle, ClassifyStop, Advance, PersistAll;
    IdleStep(sha, disk, a, step);
    StepFacts(sha, disk, a, step);
    ClassifyQuiescent(step);
  }

  lemma {:induction false} DriveIsFair(sha: Sha256, disk: RunDisk, bound: nat, ask: (nat, Snapshot) -> Answers)
    requires DiskSound(disk) && bound > 0
    ensures Fair(bound, Drive(sha, disk.head, bound, ask))
    decreases bound
  {
    hide DiskSound, CheckedAdvance, Advance, ClassifyStop, Fair, DriveResultValid, FollowsDurably, Idle, Complete,
      HasFailed, NothingReady;
    var result := CheckedAdvance(sha, disk.head, ask(bound, disk.head)).result;
    if result.Failure? {
      ThrewIsFair(bound);
    } else {
      var step := result.value;
      if ClassifyStop(step) != StepLimit {
        SingleStepIsFair(bound, step);
      } else {
        StepFacts(sha, disk, ask(bound, disk.head), step);
        var end := PersistAll(disk, Advance(sha, disk.head, ask(bound, disk.head)).writes);
        if bound > 1 {
          DriveIsFair(sha, end, bound - 1, ask);
        }
        GoingOnIsFair(sha, end, bound, ask, step);
      }
    }
  }

  lemma ThrewIsFair(bound: nat)
    ensures Fair(bound, Threw([]))
  {}

  lemma GoingOnIsFair(sha: Sha256, end: RunDisk, bound: nat, ask: (nat, Snapshot) -> Answers, step: Step)
    requires DiskSound(end) && bound > 0 && step.head == end.head && step.run == end.head.run
    requires ClassifyStop(step) == StepLimit && Idle(end.head.run.records) && !Stopped(end.head.run)
    requires !Complete(end.head.run.progress)
    requires bound > 1 ==> Fair(bound - 1, Drive(sha, end.head, bound - 1, ask))
    ensures Fair(bound, Prepend(step, Drive(sha, end.head, bound - 1, ask)))
  {
    hide DiskSound, CheckedAdvance, ClassifyStop, DriveResultValid, FollowsDurably, Idle, Complete, HasFailed,
      NothingReady;
    var rest := Drive(sha, end.head, bound - 1, ask);
    if bound == 1 {
      PrependedIsValid(bound, StepLimit, step, []);
      assert [step] + [] == [step];
    } else if rest.Ended? {
      var a := ask(bound - 1, end.head);
      var next := CheckedAdvance(sha, end.head, a).result.value;
      FirstOfDrive(sha, end.head, bound - 1, ask);
      NextStep(sha, end, a, step, next);
      if NothingReady(end.head.run) {
        assert rest.steps == [next];
        assert [step] + [next] == [step, next];
        StallIsInvalid(bound, step, next);
      } else {
        PrependedIsValid(bound, rest.disposition, step, rest.steps);
        if |rest.steps| == 1 {
          assert rest.disposition != QuiescentIncomplete;
        }
      }
    }
  }

  lemma FirstOfDrive(sha: Sha256, s: Snapshot, bound: nat, ask: (nat, Snapshot) -> Answers)
    requires bound > 0 && Drive(sha, s, bound, ask).Ended?
    ensures CheckedAdvance(sha, s, ask(bound, s)).result.Success?
    ensures var step := CheckedAdvance(sha, s, ask(bound, s)).result.value;
            && |Drive(sha, s, bound, ask).steps| > 0 && Drive(sha, s, bound, ask).steps[0] == step
            && (ClassifyStop(step) != StepLimit ==>
                  Drive(sha, s, bound, ask) == Ended(ClassifyStop(step), [step]))
            && (|Drive(sha, s, bound, ask).steps| == 1 ==>
                  Drive(sha, s, bound, ask).disposition == ClassifyStop(step) || bound > 1)
  {
    hide CheckedAdvance, ClassifyStop;
  }
}
