/**
  When the result check of a drive refuses the drive's own result: for every sound head, with
  any number of active dispatches and any graph, the exact condition, and a reachable head
  for each of the two ways in which it fails.
 */
module RunnerLimits {
  import opened Wrappers
  import opened Identity
  import opened Progression
  import opened Dispatch
  import opened DispatchLaws
  import opened RunJournal
  import opened RunJournalLaws
  import opened Runner
  import opened RunnerLaws
  import opened RunnerSteps
  import opened RunnerDrive
  import opened RunnerProgress
  import opened RunnerLiveness
  import opened RunnerRecovery
  import opened RunnerAnswers
  import opened Sequences
  import EffectJournal
  import ProgressionSweeps

  predicate ResultHolds(sha: Sha256, s: Snapshot, bound: nat, ask: (nat, Snapshot) -> Answers) {
    var outcome := Drive(sha, s, bound, ask);
    outcome.Ended? ==> DriveResultValid(bound, outcome.disposition, outcome.steps)
  }

  /** Whatever the bound and the answers, a drive from this head that ends returns a valid result. */
  ghost predicate NeverRejected(sha: Sha256, s: Snapshot) {
    forall bound: nat, ask: (nat, Snapshot) -> Answers | bound > 0 :: ResultHolds(sha, s, bound, ask)
  }

  /** What a caller can check of a head before the drive. */
  ghost predicate SafeToDrive(run: Run) {
    || Stopped(run)
    || (!OperationBehind(run.records) && ((Idle(run.records) && NothingReady(run)) || !OpenCycle(run.progress)))
  }

  // ---------------------------------------------------------------- a safe head

  lemma OneStepIsValid(bound: nat, step: Step)
    requires bound > 0 && ClassifyStop(step) != StepLimit
    ensures DriveResultValid(bound, ClassifyStop(step), [step])
  {
    hide ClassifyStop;
  }

  lemma FailureGrows(p: Progress, q: Progress)
    requires Grows(p, q) && HasFailed(p)
    ensures HasFailed(q)
  {
    var n :| n in p.graph.nodes && Seed(p.graph, p.evidence, n) == Failed;
    assert Seed(q.graph, q.evidence, n) == Failed;
  }

  lemma QuiescentStops(step: Step)
    requires step.disposition == Quiescent
    ensures ClassifyStop(step) != StepLimit
  {
    hide Complete, HasFailed, RetainsUncertainty;
  }

  lemma IdleQuiesces(sha: Sha256, s: Snapshot, a: Answers, step: Step)
    requires Idle(s.run.records) && (Stopped(s.run) || NothingReady(s.run))
    requires CheckedAdvance(sha, s, a).result == Success(step)
    ensures step.disposition == Quiescent
  {
    hide Reopen, HasFailed, NothingReady, AdvanceResultValid, Idle;
    IdleHasNoActive(s.run.records);
  }

  /** From a stopped head, and from an idle one with nothing ready, the first step is the last. */
  lemma FirstStepStops(sha: Sha256, s: Snapshot, a: Answers, step: Step)
    requires SnapshotSound(s) && CheckedAdvance(sha, s, a).result == Success(step)
    requires Stopped(s.run) || (Idle(s.run.records) && NothingReady(s.run))
    ensures ClassifyStop(step) != StepLimit
  {
    hide SnapshotSound, CheckedAdvance, ClassifyStop, Idle, NothingReady, HasFailed, Grows;
    if Idle(s.run.records) {
      IdleQuiesces(sha, s, a, step);
      QuiescentStops(step);
    } else if ClassifyStop(step) == StepLimit {
      NextHead(sha, s, a, step);
      GoesOnUnfinished(step);
      FailureGrows(s.run.progress, step.run.progress);
    }
  }

  lemma SafeIsValid(sha: Sha256, s: Snapshot, bound: nat, ask: (nat, Snapshot) -> Answers)
    requires SnapshotSound(s) && SafeToDrive(s.run) && bound > 0
    ensures ResultHolds(sha, s, bound, ask)
  {
    hide SnapshotSound, CheckedAdvance, ClassifyStop, Idle, NothingReady, HasFailed, OpenCycle, OperationBehind,
      DriveResultValid;
    if Stopped(s.run) || (Idle(s.run.records) && NothingReady(s.run)) {
      var result := CheckedAdvance(sha, s, ask(bound, s)).result;
      if result.Success? {
        FirstStepStops(sha, s, ask(bound, s), result.value);
        DriveUnfolds(sha, s, bound, ask);
        OneStepIsValid(bound, result.value);
      } else {
        DriveThrows(sha, s, bound, ask);
      }
    } else {
      ManyIsFair(sha, s, bound, ask);
      AcyclicDriveDoesNotStall(sha, s, bound, ask);
    }
  }

  lemma DriveThrows(sha: Sha256, s: Snapshot, bound: nat, ask: (nat, Snapshot) -> Answers)
    requires bound > 0 && CheckedAdvance(sha, s, ask(bound, s)).result.Failure?
    ensures Drive(sha, s, bound, ask).Threw?
  {
    hide CheckedAdvance, ClassifyStop;
  }

  // ---------------------------------------------------------------- an operation that waits is blocked

  /** The last step only reports, after the step before has moved the head. */
  predicate EndsBlocked(outcome: DriveOutcome, s: Snapshot) {
    && outcome.Ended? && outcome.steps != []
    && outcome.steps[|outcome.steps| - 1].head
        == (if |outcome.steps| == 1 then s else outcome.steps[|outcome.steps| - 2].head)
  }

  lemma PrependEndsBlocked(s: Snapshot, step: Step, rest: DriveOutcome)
    requires EndsBlocked(rest, step.head)
    ensures EndsBlocked(Prepend(step, rest), s) && |Prepend(step, rest).steps| == |rest.steps| + 1
  {}

  lemma BlockedIsInvalid(bound: nat, outcome: DriveOutcome, s: Snapshot)
    requires EndsBlocked(outcome, s) && |outcome.steps| > 1
    ensures !DriveResultValid(bound, outcome.disposition, outcome.steps)
  {
    assert !StepFollows(outcome.steps, |outcome.steps| - 1);
  }

  function BlockReport(s: Snapshot, r: DispatchRecord): Step {
    Step(s.run, s, AuthorityUnavailable, Some(r.dispatch), NoEvidence)
  }

  lemma BlockIsPlanned(s: Snapshot, r: DispatchRecord, digest: Digest, nonce: EffectJournal.Nonce)
    requires StartedOperation(r)
    ensures ReconcileActive(s, r, RecoverFirst(r, digest, nonce, true)).result == Success(BlockReport(s, r))
  {
    hide SessionFor, Publishing, FinishWork, CommitStep;
  }

  lemma BlockIsValid(s: Snapshot, j: nat)
    requires SnapshotSound(s) && j < |s.run.records| && StartedOperation(s.run.records[j])
    ensures AdvanceResultValid(BlockReport(s, s.run.records[j]))
    ensures ClassifyStop(BlockReport(s, s.run.records[j])) == MutationUnavailable
  {
    hide SnapshotSound, Reopen, RecordOf, RetainsUncertainty, Complete, HasFailed;
    RecordIsItsOwn(s, j);
    SnapshotReopens(s);
  }

  lemma RecordIsItsOwn(s: Snapshot, j: nat)
    requires SnapshotSound(s) && j < |s.run.records|
    ensures RecordOf(s.run, s.run.records[j].dispatch) == Some(s.run.records[j])
  {
    IndexIs(s.run.records, j);
    hide RecordSound, ProgressSound, RecordIndex;
  }

  lemma ReportsBlock(sha: Sha256, s: Snapshot, j: nat, digest: Digest, nonce: EffectJournal.Nonce)
    requires SnapshotSound(s) && FirstAt(s.run.records, j) && StartedOperation(s.run.records[j])
    ensures CheckedAdvance(sha, s, Help(s, digest, nonce, true)).result == Success(BlockReport(s, s.run.records[j]))
    ensures ClassifyStop(BlockReport(s, s.run.records[j])) == MutationUnavailable
  {
    hide SnapshotSound, FirstActive, CheckedAdvance, RecoverFirst, ReconcileActive, AdvanceResultValid, ClassifyStop,
      BlockReport;
    FirstActiveIs(s.run.records, j);
    BlockIsPlanned(s, s.run.records[j], digest, nonce);
    BlockIsValid(s, j);
    ReconcilesFirst(sha, s, j, Help(s, digest, nonce, true), BlockReport(s, s.run.records[j]));
  }

  lemma UnfinishedGoesOn(step: Step)
    requires step.disposition != AuthorityUnavailable && step.disposition != ExternalResolution
    requires step.disposition != Quiescent
    requires !RetainsUncertainty(step) && !Stopped(step.run) && !Complete(step.run.progress)
    ensures ClassifyStop(step) == StepLimit
  {
    hide RetainsUncertainty, HasFailed, Complete;
  }

  lemma FurtherKeeps(p: Progress, q: Progress, u: Unit)
    requires ProgressSound(p) && !HasFailed(p) && Furthers(p, q, u)
    ensures !HasFailed(q) && Grows(p, q)
  {
    hide HasFailed, ProgressSound;
    if q != p {
      SuccessAddsNoFailure(p, q, u);
    }
  }

  lemma OpenIsIncomplete(p: Progress, k: nat)
    requires WellFormed(p.graph) && k in OpenUnits(p.graph.units, p.evidence)
    ensures !Complete(p)
  {
    var u := p.graph.units[k];
    ProgressionSweeps.PrimaryInside(p.graph, u);
    ProgressionSweeps.UnitIsFound(p.graph, u, u.primary);
    assert Seed(p.graph, p.evidence, u.primary) == Pending;
  }

  lemma OtherStaysOpen(p: Progress, q: Progress, u: Unit, k: nat)
    requires WellFormed(p.graph) && Furthers(p, q, u) && k in OpenUnits(p.graph.units, p.evidence)
    requires p.graph.units[k] != u
    ensures k in OpenUnits(q.graph.units, q.evidence) && q.graph == p.graph
  {
    if q != p {
      ProgressionSweeps.PrimaryInside(p.graph, u);
      ProgressionSweeps.PrimaryInside(p.graph, p.graph.units[k]);
      ProgressionSweeps.UnitIsFound(p.graph, u, u.primary);
      ProgressionSweeps.UnitIsFound(p.graph, p.graph.units[k], p.graph.units[k].primary);
    }
  }

  /** A second active dispatch keeps its unit open while the first is retired. */
  lemma SecondStaysOpen(run: Run, i: nat, j: nat, q: Progress)
    requires LedgerSound(run) && i < |run.records| && j < |run.records| && i != j
    requires Active(run.records[i]) && Active(run.records[j]) && Furthers(run.progress, q, run.records[i].dispatch.unit)
    ensures !Complete(q)
  {
    var u, v := run.records[i].dispatch.unit, run.records[j].dispatch.unit;
    assert u.members !! v.members;
    assert RecordSound(run.progress, run.records[i]) && RecordSound(run.progress, run.records[j]);
    hide RecordSound, Furthers;
    ProgressionSweeps.PrimaryInside(run.progress.graph, v);
    var k :| 0 <= k < |run.progress.graph.units| && run.progress.graph.units[k] == v;
    OtherStaysOpen(run.progress, q, u, k);
    OpenIsIncomplete(q, k);
  }

  lemma LaneIsFirst(run: Run, i: nat, j: nat)
    requires LedgerSound(run) && FirstAt(run.records, i) && j < |run.records| && StartedOperation(run.records[j])
    requires i != j
    ensures i < j && !StartedOperation(run.records[i])
  {
    if StartedOperation(run.records[i]) {
      LaneIsSingle(run, i, j);
    }
  }

  lemma RetiringHead(s: Snapshot, i: nat, step: Step)
    requires FirstAt(s.run.records, i) && StepsOver(s, i, step) && ClassifyStop(step) == StepLimit
    ensures step.run == step.head.run && Advances(s, step.head) && SnapshotSound(step.head)
    ensures step.head.sequence == s.sequence + 1 && |step.head.run.records| == |s.run.records|
    ensures forall k | 0 <= k <= i :: !Active(step.head.run.records[k])
    ensures forall k | i < k < |s.run.records| :: step.head.run.records[k] == s.run.records[k]
    ensures step.head.run.policy == s.run.policy
  {
    hide ClassifyStop, SnapshotSound, Grows;
  }

  lemma {:induction false} BlockedDrive(sha: Sha256, s: Snapshot, lo: nat, j: nat, bound: nat, digest: Digest,
                                        nonce: EffectJournal.Nonce)
    requires SnapshotSound(s) && !Stopped(s.run) && lo <= j < |s.run.records| && StartedOperation(s.run.records[j])
    requires forall k | 0 <= k < lo :: !Active(s.run.records[k])
    requires bound > j - lo && s.sequence + j - lo <= MAXIMUM_SEQUENCE
    ensures EndsBlocked(Drive(sha, s, bound, Helping(digest, nonce, true)), s)
    ensures !FirstAt(s.run.records, j) ==> |Drive(sha, s, bound, Helping(digest, nonce, true)).steps| > 1
    decreases j - lo
  {
    hide SnapshotSound, CheckedAdvance, ClassifyStop, HasFailed, Complete, LedgerSound, Help, Furthers,
      RetainsUncertainty, StepsOver,
      Advances, Drive, FirstActive;
    var ask := Helping(digest, nonce, true);
    assert ask(bound, s) == Help(s, digest, nonce, true);
    var i := FirstExists(s.run.records);
    if i == j {
      ReportsBlock(sha, s, j, digest, nonce);
      DriveUnfolds(sha, s, bound, ask);
      assert Drive(sha, s, bound, ask) == Ended(MutationUnavailable, [BlockReport(s, s.run.records[j])]);
    } else {
      SoundSnapshotProgress(s);
      LaneIsFirst(s.run, i, j);
      var step := HelpRetires(sha, s, i, digest, nonce, true);
      StepOverActive(sha, s, i, ask(bound, s), step);
      FurtherKeeps(s.run.progress, step.run.progress, s.run.records[i].dispatch.unit);
      SecondStaysOpen(s.run, i, j, step.run.progress);
      UnfinishedGoesOn(step);
      RetiringHead(s, i, step);
      DriveUnfolds(sha, s, bound, ask);
      BlockedDrive(sha, step.head, i + 1, j, bound - 1, digest, nonce);
      PrependEndsBlocked(s, step, Drive(sha, step.head, bound - 1, ask));
    }
  }

  // ---------------------------------------------------------------- an open cycle stalls

  lemma StuckIsIncomplete(p: Progress, rest: set<nat>)
    requires WellFormed(p.graph) && Stuck(p, rest)
    ensures !Complete(p)
  {
    hide Complete, Awaits, OpenUnits;
    var k :| k in rest;
    OpenIsIncomplete(p, k);
  }

  lemma OpenPredecessorBlocks(p: Progress, i: nat, j: nat)
    requires ProgressSound(p) && i in OpenUnits(p.graph.units, p.evidence) && ArcBetween(p, i, j)
    ensures !ReadyUnit(p, p.graph.units[j])
  {
    hide EvidenceSound, DisjointUnits, UnitRight, External, EvidenceStatus;
    var v := p.graph.units[i];
    var e :| 0 <= e < |p.graph.edges| && External(p.graph.units[j], p.graph.edges[e])
        && p.graph.edges[e].before in v.members;
    OpenMemberIsPending(p, v, p.graph.edges[e].before);
  }

  /** What an open cycle holds back is never ready. */
  lemma StuckIsNotReady(p: Progress, rest: set<nat>, j: nat)
    requires ProgressSound(p) && Stuck(p, rest) && j in rest
    ensures j < |p.graph.units| && !ReadyUnit(p, p.graph.units[j])
  {
    hide Stuck, Awaits, ProgressSound, ReadyUnit;
    var i := AwaitsWhich(p, rest, j);
    OpenPredecessorBlocks(p, i, j);
  }

  lemma OpenMemberIsPending(p: Progress, u: Unit, n: NodeId)
    requires ProgressSound(p) && u in p.graph.units && Open(p.evidence, u) && n in u.members
    ensures n in p.graph.nodes && Seed(p.graph, p.evidence, n) == Pending
  {
    ProgressionSweeps.UnitIsFound(p.graph, u, n);
    ProgressionSweeps.MemberIsNode(p.graph, u, n);
  }

  /** Serving a ready unit leaves the open cycle as it is. */
  lemma StuckRemains(p: Progress, q: Progress, u: Unit, rest: set<nat>)
    requires ProgressSound(p) && Furthers(p, q, u) && ReadyUnit(p, u) && Stuck(p, rest)
    ensures Stuck(q, rest)
  {
    hide ProgressSound, ReadyUnit, OpenUnits, Awaits, Furthers;
    assert WellFormed(p.graph) && p.graph == q.graph by { SoundIsWellFormed(p, q, u); }
    forall k | k in rest
      ensures k in OpenUnits(q.graph.units, q.evidence)
    {
      StuckIsNotReady(p, rest, k);
      OtherStaysOpen(p, q, u, k);
    }
    StuckStays(p, q, rest);
  }

  lemma SoundIsWellFormed(p: Progress, q: Progress, u: Unit)
    requires ProgressSound(p) && Furthers(p, q, u)
    ensures WellFormed(p.graph) && q.graph == p.graph
  {}

  /** The drive ends at a step that finds nothing ready. */
  predicate Stalls(outcome: DriveOutcome) {
    outcome.Ended? && outcome.disposition == QuiescentIncomplete && outcome.steps != []
  }

  lemma PrependStalls(step: Step, rest: DriveOutcome)
    requires Stalls(rest)
    ensures Stalls(Prepend(step, rest)) && |Prepend(step, rest).steps| > 1
  {}

  lemma QuiescentStep(sha: Sha256, disk: RunDisk, a: Answers)
    requires DiskSound(disk) && Idle(disk.head.run.records) && NothingReady(disk.head.run)
    requires !Stopped(disk.head.run) && !Complete(disk.head.run.progress)
    ensures var step := Step(disk.head.run, disk.head, Quiescent, None, NoEvidence);
            CheckedAdvance(sha, disk.head, a).result == Success(step) && ClassifyStop(step) == QuiescentIncomplete
  {
    hide DiskSound, Reopen, ReserveAndExecute, PlanGood, AdvanceResultValid, Complete, HasFailed, CheckedAdvance,
      ReconcileActive,
      NothingReady, Idle;
    AdvanceIsGood(sha, disk, a);
    SoundHeadReopens(disk);
    IdleHasNoActive(disk.head.run.records);
  }

  lemma ServedLeavesStuck(s: Snapshot, step: Step, rest: set<nat>)
    requires ProgressSound(s.run.progress) && StepServes(s, step) && Stuck(s.run.progress, rest)
    ensures Stuck(step.run.progress, rest)
  {
    hide ProgressSound, Stuck, Served;
    var i :| 0 <= i < |s.run.progress.graph.units|
        && Served(s.run.progress, step.run.progress, s.run.progress.graph.units[i]);
    ServedIsReady(s.run.progress, step.run.progress, s.run.progress.graph.units[i]);
    StuckRemains(s.run.progress, step.run.progress, s.run.progress.graph.units[i], rest);
  }

  lemma ServedIsReady(p: Progress, q: Progress, u: Unit)
    requires Served(p, q, u)
    ensures ReadyUnit(p, u)
  {}

  predicate Roomy(s: Snapshot, steps: nat) {
    && Drivable(s.run)
    && s.sequence + steps + 3 * |OpenUnits(s.run.progress.graph.units, s.run.progress.evidence)| <= MAXIMUM_SEQUENCE
  }

  lemma StuckIsOpen(p: Progress, rest: set<nat>)
    requires Stuck(p, rest)
    ensures |OpenUnits(p.graph.units, p.evidence)| > 0
  {
    hide OpenUnits, Awaits;
    var k :| k in rest;
    assert k in OpenUnits(p.graph.units, p.evidence);
  }

  /** A served step over an open cycle goes on, to a disk as sound and one open unit fewer. */
  lemma StuckStep(sha: Sha256, disk: RunDisk, rest: set<nat>, a: Answers) returns (step: Step, end: RunDisk)
    requires DiskSound(disk) && Idle(disk.head.run.records) && !Stopped(disk.head.run) && !NothingReady(disk.head.run)
    requires Stuck(disk.head.run.progress, rest) && Roomy(disk.head, 0) && Cooperative(disk.head, a)
    ensures CheckedAdvance(sha, disk.head, a).result == Success(step) && ClassifyStop(step) == StepLimit
    ensures step.head == end.head
    ensures DiskSound(end) && Idle(end.head.run.records) && !Stopped(end.head.run)
    ensures Stuck(end.head.run.progress, rest) && Roomy(end.head, 0)
    ensures |OpenUnits(end.head.run.progress.graph.units, end.head.run.progress.evidence)|
         == |OpenUnits(disk.head.run.progress.graph.units, disk.head.run.progress.evidence)| - 1
  {
    hide DiskSound, CheckedAdvance, Advance, PersistAll, Idle, HasFailed, NothingReady, Stuck, OpenUnits, StepServes,
      Cooperative,
      Complete, ProgressSound, LedgerSound, ClassifyStop, Grows, WellFormed;
    DiskIsLedgerSound(disk);
    SoundLedgerProgress(disk.head.run);
    StuckIsOpen(disk.head.run.progress, rest);
    StepServesUnit(sha, disk, a);
    step := CheckedAdvance(sha, disk.head, a).result.value;
    StepFacts(sha, disk, a, step);
    ServedFacts(disk.head, step);
    OneServed(disk.head, step);
    ServedLeavesStuck(disk.head, step, rest);
    StepIsSound(sha, disk, a, step);
    SoundGraph(step.run.progress);
    StuckIsIncomplete(step.run.progress, rest);
    ServedIsClassified(disk.head, step);
    end := PersistAll(disk, Advance(sha, disk.head, a).writes);
  }

  lemma SoundGraph(p: Progress)
    requires ProgressSound(p)
    ensures WellFormed(p.graph)
  {}

  lemma {:induction false} IdleStall(sha: Sha256, disk: RunDisk, rest: set<nat>, bound: nat, digest: Digest,
                                     nonce: EffectJournal.Nonce)
    requires DiskSound(disk) && Idle(disk.head.run.records) && !Stopped(disk.head.run)
    requires Stuck(disk.head.run.progress, rest) && Roomy(disk.head, 0)
    requires bound > |OpenUnits(disk.head.run.progress.graph.units, disk.head.run.progress.evidence)|
    ensures Stalls(Drive(sha, disk.head, bound, Helping(digest, nonce, false)))
    ensures !NothingReady(disk.head.run) ==> |Drive(sha, disk.head, bound, Helping(digest, nonce, false)).steps| > 1
    decreases |OpenUnits(disk.head.run.progress.graph.units, disk.head.run.progress.evidence)|
  {
    hide DiskSound, CheckedAdvance, Idle, HasFailed, NothingReady, Stuck, OpenUnits, Complete, ProgressSound,
      LedgerSound, ClassifyStop,
      Drive, Help, Drivable, Cooperative, WellFormed;
    var ask := Helping(digest, nonce, false);
    var a := ask(bound, disk.head);
    assert a == Help(disk.head, digest, nonce, false);
    DiskIsLedgerSound(disk);
    SoundLedgerProgress(disk.head.run);
    SoundGraph(disk.head.run.progress);
    StuckIsIncomplete(disk.head.run.progress, rest);
    if NothingReady(disk.head.run) {
      QuiescentStep(sha, disk, a);
      DriveUnfolds(sha, disk.head, bound, ask);
      assert Drive(sha, disk.head, bound, ask)
          == Ended(QuiescentIncomplete, [Step(disk.head.run, disk.head, Quiescent, None, NoEvidence)]);
    } else {
      HelpCooperates(disk.head, digest, nonce, false);
      var step, end := StuckStep(sha, disk, rest, a);
      DriveUnfolds(sha, disk.head, bound, ask);
      IdleStall(sha, end, rest, bound - 1, digest, nonce);
      PrependStalls(step, Drive(sha, step.head, bound - 1, ask));
    }
  }

  lemma ActiveIsReady(run: Run, i: nat)
    requires LedgerSound(run) && i < |run.records| && Active(run.records[i])
    ensures ReadyUnit(run.progress, run.records[i].dispatch.unit)
  {
    assert RecordSound(run.progress, run.records[i]);
  }

  lemma FewerOpen(p: Progress, q: Progress)
    requires Grows(p, q)
    ensures |OpenUnits(q.graph.units, q.evidence)| <= |OpenUnits(p.graph.units, p.evidence)|
  {
    hide OpenUnits, Grows;
    OpenOnlyShrinks(p, q);
    SubsetCount(OpenUnits(q.graph.units, q.evidence), OpenUnits(p.graph.units, p.evidence));
  }

  lemma {:induction false} ActiveStall(sha: Sha256, s: Snapshot, lo: nat, rest: set<nat>, bound: nat, digest: Digest,
                                       nonce: EffectJournal.Nonce)
    requires SnapshotSound(s) && !Stopped(s.run) && Stuck(s.run.progress, rest) && lo <= |s.run.records|
    requires forall k | 0 <= k < lo :: !Active(s.run.records[k])
    requires Roomy(s, |s.run.records| - lo)
    requires bound > |s.run.records| - lo + |OpenUnits(s.run.progress.graph.units, s.run.progress.evidence)|
    ensures Stalls(Drive(sha, s, bound, Helping(digest, nonce, false)))
    ensures !(Idle(s.run.records) && NothingReady(s.run)) ==>
              |Drive(sha, s, bound, Helping(digest, nonce, false)).steps| > 1
    decreases |s.run.records| - lo
  {
    hide SnapshotSound, CheckedAdvance, HasFailed, NothingReady, Stuck, OpenUnits, Complete, ProgressSound,
      LedgerSound, ClassifyStop,
      Drive, Help, Furthers, RetainsUncertainty, StepsOver, Advances, FirstActive, WellFormed, Grows, Drivable;
    if Idle(s.run.records) {
      IdleIsOneActive(s.run.records);
      var disk := BackingDisk(s);
      IdleStall(sha, disk, rest, bound, digest, nonce);
    } else {
      var ask := Helping(digest, nonce, false);
      var i := FirstExists(s.run.records);
      SoundSnapshotProgress(s);
      var step := HelpRetires(sha, s, i, digest, nonce, false);
      StepOverActive(sha, s, i, ask(bound, s), step);
      FurtherKeeps(s.run.progress, step.run.progress, s.run.records[i].dispatch.unit);
      ActiveIsReady(s.run, i);
      StuckRemains(s.run.progress, step.run.progress, s.run.records[i].dispatch.unit, rest);
      SoundIsWellFormed(s.run.progress, step.run.progress, s.run.records[i].dispatch.unit);
      StuckIsIncomplete(step.run.progress, rest);
      UnfinishedGoesOn(step);
      RetiringHead(s, i, step);
      FewerOpen(s.run.progress, step.run.progress);
      StillDrivable(s, step.head);
      DriveUnfolds(sha, s, bound, ask);
      ActiveStall(sha, step.head, i + 1, rest, bound - 1, digest, nonce);
      PrependStalls(step, Drive(sha, step.head, bound - 1, ask));
    }
  }

  lemma StillDrivable(s: Snapshot, n: Snapshot)
    requires Drivable(s.run) && Advances(s, n)
    ensures Drivable(n.run)
  {}

  // ---------------------------------------------------------------- the exact condition

  lemma OpenCount(units: seq<Unit>, evidence: map<NodeId, Evidence>)
    ensures |OpenUnits(units, evidence)| <= |units|
  {
    AllOpen(units);
    SubsetCount(OpenUnits(units, evidence), OpenUnits(units, map[]));
  }

  /** The journal has room for a drive through all units. */
  predicate HasRoom(s: Snapshot) {
    Drivable(s.run) && s.sequence + |s.run.records| + 3 * |s.run.progress.graph.units| <= MAXIMUM_SEQUENCE
  }

  lemma BehindIsRejected(sha: Sha256, s: Snapshot, digest: Digest, nonce: EffectJournal.Nonce)
    requires SnapshotSound(s) && HasRoom(s) && !Stopped(s.run) && OperationBehind(s.run.records)
    ensures !NeverRejected(sha, s)
  {
    hide SnapshotSound, HasFailed, Drivable, Drive, DriveResultValid, EndsBlocked;
    var i, j :| 0 <= i < j < |s.run.records| && Active(s.run.records[i]) && StartedOperation(s.run.records[j]);
    BlockedDrive(sha, s, 0, j, j + 1, digest, nonce);
    BlockedIsInvalid(j + 1, Drive(sha, s, j + 1, Helping(digest, nonce, true)), s);
    assert !ResultHolds(sha, s, j + 1, Helping(digest, nonce, true)) by {
      assert EndsBlocked(Drive(sha, s, j + 1, Helping(digest, nonce, true)), s);
      BlockedEnded(Drive(sha, s, j + 1, Helping(digest, nonce, true)), s);
    }
  }

  lemma BlockedEnded(outcome: DriveOutcome, s: Snapshot)
    requires EndsBlocked(outcome, s)
    ensures outcome.Ended?
  {}

  lemma CycleIsRejected(sha: Sha256, s: Snapshot, digest: Digest, nonce: EffectJournal.Nonce)
    requires SnapshotSound(s) && HasRoom(s) && !Stopped(s.run) && !OperationBehind(s.run.records)
    requires OpenCycle(s.run.progress) && !(Idle(s.run.records) && NothingReady(s.run))
    ensures !NeverRejected(sha, s)
  {
    hide SnapshotSound, HasFailed, Drivable, Drive, DriveResultValid, OpenCycle, OpenUnits, OperationBehind,
      NothingReady, Stuck;
    var rest := CycleIsStuck(s.run.progress);
    OpenCount(s.run.progress.graph.units, s.run.progress.evidence);
    var bound := |s.run.records| + |OpenUnits(s.run.progress.graph.units, s.run.progress.evidence)| + 1;
    ActiveStall(sha, s, 0, rest, bound, digest, nonce);
    ManyIsFair(sha, s, bound, Helping(digest, nonce, false));
    assert !ResultHolds(sha, s, bound, Helping(digest, nonce, false));
  }

  /**
    From a sound head the check never refuses the result of a drive, whatever the bound and the
    answers, if and only if the run has stopped, or no started operation waits behind another
    active dispatch and either nothing is active or ready or the open units have no cycle.
   */
  lemma NeverRejectedExactly(sha: Sha256, s: Snapshot)
    requires SnapshotSound(s) && HasRoom(s)
    ensures NeverRejected(sha, s) <==> SafeToDrive(s.run)
  {
    hide SnapshotSound, HasRoom, HasFailed, OpenCycle, OperationBehind, NothingReady, Idle, ResultHolds;
    if SafeToDrive(s.run) {
      forall bound: nat, ask: (nat, Snapshot) -> Answers | bound > 0
        ensures ResultHolds(sha, s, bound, ask)
      {
        SafeIsValid(sha, s, bound, ask);
      }
    } else {
      var digest: Digest := ZERO_DIGEST;
      var nonce: EffectJournal.Nonce := (var n := seq(32, _ => 'n'); assert n[0] == 'n'; n);
      if OperationBehind(s.run.records) {
        BehindIsRejected(sha, s, digest, nonce);
      } else {
        CycleIsRejected(sha, s, digest, nonce);
      }
    }
  }

  /** For the heads that the runner itself leaves, with at most one active dispatch. */
  lemma RunnerHeadExactly(sha: Sha256, disk: RunDisk)
    requires DiskSound(disk) && HasRoom(disk.head)
    ensures NeverRejected(sha, disk.head) <==>
              || Stopped(disk.head.run) || (Idle(disk.head.run.records) && NothingReady(disk.head.run))
              || !OpenCycle(disk.head.run.progress)
  {
    OneActiveHasNoneBehind(disk.head.run.records);
    hide SnapshotSound, HasRoom, HasFailed, OpenCycle, OperationBehind, NothingReady, Idle, NeverRejected;
    NeverRejectedExactly(sha, disk.head);
  }

  lemma OneActiveHasNoneBehind(records: seq<DispatchRecord>)
    ensures OneActive(records) ==> !OperationBehind(records)
  {}
}
