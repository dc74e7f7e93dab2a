/**
  Steps and drives from any sound head, with any number of active dispatches: each step
  retires the first of them, and what a drive returns is fair unless a started operation
  waits behind another active dispatch.
 */
module RunnerRecovery {
  import opened Wrappers
  import opened Identity
  import opened Progression
  import opened Dispatch
  import opened DispatchLaws
  import opened RunJournal
  import opened RunJournalLaws
  import opened Runner
  import opened RunnerLaws
  import opened RunnerSteps
  import opened RunnerDrive
  import opened RunnerProgress
  import LifecycleOrder

  // ---------------------------------------------------------------- the first active dispatch

  predicate FirstAt(records: seq<DispatchRecord>, i: nat) {
    i < |records| && Active(records[i]) && forall k | 0 <= k < i :: !Active(records[k])
  }

  lemma {:induction false} FirstActiveIs(records: seq<DispatchRecord>, i: nat)
    requires FirstAt(records, i)
    ensures FirstActive(records) == Some(records[i])
    decreases i
  {
    if i > 0 {
      FirstActiveIs(records[1..], i - 1);
    }
  }

  lemma {:induction false} FirstExists(records: seq<DispatchRecord>) returns (i: nat)
    requires !Idle(records)
    ensures FirstAt(records, i)
    decreases |records|
  {
    if Active(records[0]) {
      i := 0;
    } else {
      i := FirstExists(records[1..]);
      i := i + 1;
    }
  }

  lemma IndexIs(records: seq<DispatchRecord>, i: nat)
    requires i < |records|
    requires forall k, l | 0 <= k < l < |records| :: records[k].dispatch.nonce != records[l].dispatch.nonce
    ensures RecordIndex(records, records[i].dispatch) == Some(i)
  {
    RecordIsFound(records, records[i]);
    var k := RecordIndex(records, records[i].dispatch).value;
    assert records[k].dispatch.nonce == records[i].dispatch.nonce;
  }

  predicate StartedOperation(r: DispatchRecord) {
    r.state == Started && r.dispatch.unit.kind == OperationUnit
  }

  /** A started operation waits behind another active dispatch. */
  predicate OperationBehind(records: seq<DispatchRecord>) {
    exists i, j | 0 <= i < j < |records| :: Active(records[i]) && StartedOperation(records[j])
  }

  // ---------------------------------------------------------------- committing one command

  /** The head after one command. */
  predicate Advances(s: Snapshot, n: Snapshot) {
    && SnapshotSound(n) && n.sequence == s.sequence + 1 && n.journal == s.journal
    && n.run.policy == s.run.policy && Grows(s.run.progress, n.run.progress)
  }

  lemma CommittedAdvances(sha: Sha256, s: Snapshot, c: Command, next: Run)
    requires SnapshotSound(s) && !c.Reserve? && Apply(sha, s.run, c) == Success(next) && Successor(s, next).Success?
    ensures Advances(s, Successor(s, next).value) && Successor(s, next).value.run == next
  {
    hide Apply, LedgerSound, DurablySucceeds, Grows;
    CommandTransits(sha, s.run, c);
    CommandExtendsJournal(sha, s, c);
    CommandGrows(sha, s.run, c);
    hide Appends, ChangesAt;
  }

  lemma CommitFacts(sha: Sha256, s: Snapshot, c: Command, next: Result<Run, Fault>, disposition: Disposition,
                    d: Dispatch,
                    evidence: StepEvidence, step: Step)
    requires SnapshotSound(s) && !c.Reserve? && Apply(sha, s.run, c) == next
    requires CommitStep(s, next, disposition, d, evidence).result == Success(step)
    ensures next == Success(step.run) && step.head.run == step.run && Advances(s, step.head)
    ensures step.disposition == disposition && step.dispatch == Some(d) && step.evidence == evidence
  {
    hide SnapshotSound, Apply, Successor, Advances;
    CommittedAdvances(sha, s, c, next.value);
  }

  // ---------------------------------------------------------------- a step over the first active dispatch

  /** The next head has that dispatch retired and is otherwise at least as far. */
  predicate Retires(s: Snapshot, n: Snapshot, i: nat) {
    && Advances(s, n) && i < |s.run.records| == |n.run.records|
    && n.run.records == s.run.records[i := n.run.records[i]] && !Active(n.run.records[i])
  }

  lemma ReleaseIs(run: Run, d: Dispatch, i: nat)
    requires ReleaseUnstarted(run, d).Success? && RecordIndex(run.records, d) == Some(i)
    ensures ReleaseUnstarted(run, d).value.records == run.records[i := ReleasedRecord(d)]
  {
    hide RecordsValid;
    MadeRunIs(run, i, ReleasedRecord(d), run.progress);
  }

  lemma CompleteIs(run: Run, d: Dispatch, result: WorkResult, i: nat)
    requires CompleteWork(run, d, result).Success? && RecordIndex(run.records, d) == Some(i)
    ensures CompleteWork(run, d, result).value.records
            == run.records[i := CompletedRecord(run.records[i], result.identity)]
  {
    hide RecordsValid, RequireCurrent, Binds, AdvanceWork;
    MadeRunIs(run, i, CompletedRecord(run.records[i], result.identity), AdvanceWork(run.progress, result).value);
  }

  lemma SubmitIs(run: Run, d: Dispatch, effect: EffectResult, resulting: Option<string>, i: nat)
    requires SubmitOperation(run, d, effect, resulting).Success? && RecordIndex(run.records, d) == Some(i)
    requires Terminates(effect.outcome)
    ensures SubmitOperation(run, d, effect, resulting).value.records
         == run.records[i := CompletedRecord(run.records[i], effect.identity)]
  {
    hide RecordsValid, RequireCurrent, Binds, AdvanceEffect;
    MadeRunIs(run, i, CompletedRecord(run.records[i], effect.identity),
              AdvanceEffect(run.progress, effect, resulting).value);
  }

  /** What the drive needs of a step from a head with an active dispatch. */
  predicate StepsOver(s: Snapshot, i: nat, step: Step)
    requires i < |s.run.records|
  {
    && step.disposition != Quiescent && step.head.journal == s.journal
    && (step.head.sequence > s.sequence || (step.head == s && StartedOperation(s.run.records[i])))
    && (ClassifyStop(step) == StepLimit ==> step.run == step.head.run && Retires(s, step.head, i))
  }

  lemma ReleaseStepsOver(sha: Sha256, s: Snapshot, i: nat, step: Step)
    requires SnapshotSound(s) && i < |s.run.records| && RecordIndex(s.run.records, s.run.records[i].dispatch) == Some(i)
    requires var d := s.run.records[i].dispatch;
             CommitStep(s, ReleaseUnstarted(s.run, d), ReleasedReserved, d, NoEvidence).result == Success(step)
    ensures StepsOver(s, i, step)
  {
    hide SnapshotSound, CommitStep, ReleaseUnstarted, ClassifyStop, Advances;
    var d := s.run.records[i].dispatch;
    CommitFacts(sha, s, Releasing(d), ReleaseUnstarted(s.run, d), ReleasedReserved, d, NoEvidence, step);
    ReleaseIs(s.run, d, i);
    AdvanceMoves(s, step.head);
  }

  lemma AdvanceMoves(s: Snapshot, n: Snapshot)
    requires Advances(s, n)
    ensures n.sequence > s.sequence && n.journal == s.journal
  {}

  lemma WorkStepsOver(sha: Sha256, s: Snapshot, i: nat, a: Answers, result: WorkResult, retain: bool, step: Step)
    requires SnapshotSound(s) && i < |s.run.records| && RecordIndex(s.run.records, s.run.records[i].dispatch) == Some(i)
    requires FinishWork(s, s.run.records[i].dispatch, a, result, false, retain).result == Success(step)
    ensures StepsOver(s, i, step)
  {
    hide SnapshotSound, CommitStep, CompleteWork, ClassifyStop, Advances;
    var d := s.run.records[i].dispatch;
    CommitFacts(sha, s, CompletingWork(d, result), CompleteWork(s.run, d, result), WorkDisposition(d.unit.kind, false),
                d,
                WorkEvidence(d.unit.kind, result), step);
    CompleteIs(s.run, d, result, i);
    AdvanceMoves(s, step.head);
  }

  lemma SubmissionStepsOver(sha: Sha256, s: Snapshot, i: nat, effect: EffectResult, resulting: Option<string>,
                            step: Step)
    requires SnapshotSound(s) && i < |s.run.records| && RecordIndex(s.run.records, s.run.records[i].dispatch) == Some(i)
    requires var d := s.run.records[i].dispatch;
             CommitStep(s, SubmitOperation(s.run, d, effect, resulting), ReconciledOperation, d,
                        OperationEvidence(Some(effect), true, false)).result == Success(step)
    ensures StepsOver(s, i, step)
  {
    hide SnapshotSound, CommitStep, SubmitOperation, Advances, Complete, HasFailed, RecordOf;
    var d := s.run.records[i].dispatch;
    CommitFacts(sha, s, Submitting(d, effect, resulting), SubmitOperation(s.run, d, effect, resulting),
                ReconciledOperation, d,
                OperationEvidence(Some(effect), true, false), step);
    AdvanceMoves(s, step.head);
    SubmitRetires(s.run, d, effect, resulting);
    if Terminates(effect.outcome) {
      SubmitIs(s.run, d, effect, resulting, i);
    } else {
      assert RetainsUncertainty(step);
      assert ClassifyStop(step) == ResolutionRequired;
    }
  }

  lemma OperationStepsOver(sha: Sha256, s: Snapshot, i: nat, a: Answers, step: Step)
    requires SnapshotSound(s) && i < |s.run.records| && RecordIndex(s.run.records, s.run.records[i].dispatch) == Some(i)
    requires StartedOperation(s.run.records[i]) && ReconcileOperation(s, s.run.records[i], a).result == Success(step)
    ensures StepsOver(s, i, step)
  {
    hide SnapshotSound, CommitStep, SubmitOperation, Retires, Complete, HasFailed, RecordOf, RetainsUncertainty;
    if step.disposition != AuthorityUnavailable && step.disposition != ExternalResolution {
      assert a.recovery.Resumed?;
      SubmissionStepsOver(sha, s, i, a.recovery.effect, ObservedState(a, a.recovery.effect), step);
    } else {
      CommittedDisposition(s, s.run.records[i], a, step);
    }
  }

  /** A step that only reports leaves the head alone. */
  lemma CommittedDisposition(s: Snapshot, r: DispatchRecord, a: Answers, step: Step)
    requires ReconcileOperation(s, r, a).result == Success(step)
    requires step.disposition == AuthorityUnavailable || step.disposition == ExternalResolution
    ensures step.head == s && step.run == s.run
  {
    hide SubmitOperation, Successor;
  }

  lemma StepOverActive(sha: Sha256, s: Snapshot, i: nat, a: Answers, step: Step)
    requires SnapshotSound(s) && FirstAt(s.run.records, i) && CheckedAdvance(sha, s, a).result == Success(step)
    ensures StepsOver(s, i, step)
  {
    var r := s.run.records[i];
    FirstActiveIs(s.run.records, i);
    IndexIs(s.run.records, i);
    hide SnapshotSound, CommitStep, ReconcileOperation, FinishWork, ReleaseUnstarted, ReserveAndExecute, Reopen,
      AdvanceResultValid,
      StepsOver, FirstActive, RecordIndex, FirstAt;
    if r.state == Reserved {
      ReleaseStepsOver(sha, s, i, step);
    } else if r.dispatch.unit.kind == OperationUnit {
      OperationStepsOver(sha, s, i, a, step);
    } else if a.recovered.Some? {
      WorkStepsOver(sha, s, i, a, a.recovered.value, false, step);
    } else {
      WorkStepsOver(sha, s, i, a, a.work.value, true, step);
    }
  }

  // ---------------------------------------------------------------- drives with many active dispatches

  /** Every head with at most one active dispatch is the head of a sound disk. */
  lemma BackingDisk(s: Snapshot) returns (disk: RunDisk)
    requires SnapshotSound(s) && OneActive(s.run.records)
    ensures DiskSound(disk) && disk.head == s
  {
    hide LedgerSound, ShapeValid, MakeSnapshot;
    var records := s.run.records;
    var attempts := set i | 0 <= i < |records| && records[i].session.Some? :: records[i].session.value;
    var admitted := set i | 0 <= i < |records| && records[i].effectAttempt.Some? :: records[i].effectAttempt.value;
    disk := RunDisk(s, attempts, {}, admitted);
    SoundShapes(s.run);
    forall i | 0 <= i < |records|
      ensures BackedRecord(disk, records[i])
    {
      ShapedIsBacked(disk, records[i]);
    }
  }

  lemma ShapedIsBacked(disk: RunDisk, r: DispatchRecord)
    requires ShapeValid(r)
    requires r.session.Some? ==> r.session.value in disk.attempts
    requires r.effectAttempt.Some? ==> r.effectAttempt.value in disk.admitted
    ensures BackedRecord(disk, r)
  {}

  lemma IdleIsOneActive(records: seq<DispatchRecord>)
    requires Idle(records)
    ensures OneActive(records)
  {}

  /** Behind the first active dispatch no operation is started, so none is afterwards. */
  lemma RetiredIsFront(s: Snapshot, n: Snapshot, i: nat)
    requires FirstAt(s.run.records, i) && !OperationBehind(s.run.records) && Retires(s, n, i)
    ensures forall k | 0 <= k < |n.run.records| :: !StartedOperation(n.run.records[k])
  {
    hide Advances;
  }

  lemma NothingBehind(records: seq<DispatchRecord>)
    requires forall k | 0 <= k < |records| :: !StartedOperation(records[k])
    ensures !OperationBehind(records)
  {}

  lemma GoesOnUnfinished(step: Step)
    requires ClassifyStop(step) == StepLimit
    ensures !Stopped(step.run) && !Complete(step.run.progress) && step.disposition != AuthorityUnavailable
  {
    hide Complete, HasFailed, RetainsUncertainty;
  }

  lemma {:induction false} ManyIsFair(sha: Sha256, s: Snapshot, bound: nat, ask: (nat, Snapshot) -> Answers)
    requires SnapshotSound(s) && !OperationBehind(s.run.records) && bound > 0
    ensures Fair(bound, Drive(sha, s, bound, ask))
    decreases bound
  {
    hide SnapshotSound, CheckedAdvance, ClassifyStop, Fair, DriveResultValid, FollowsDurably, Idle, Complete,
      HasFailed, NothingReady,
      OperationBehind, StartedOperation, FirstAt, Advances, OneActive;
    if Idle(s.run.records) {
      IdleIsOneActive(s.run.records);
      var disk := BackingDisk(s);
      DriveIsFair(sha, disk, bound, ask);
    } else {
      var i := FirstExists(s.run.records);
      var result := CheckedAdvance(sha, s, ask(bound, s)).result;
      if result.Failure? {
        ThrewIsFair(bound);
      } else {
        var step := result.value;
        StepOverActive(sha, s, i, ask(bound, s), step);
        if ClassifyStop(step) != StepLimit {
          SingleStepIsFair(bound, step);
        } else {
          RetiredIsFront(s, step.head, i);
          NothingBehind(step.head.run.records);
          AdvancedIsSound(s, step.head);
          if bound > 1 {
            ManyIsFair(sha, step.head, bound - 1, ask);
          }
          GoesOnUnfinished(step);
          if Idle(step.head.run.records) {
            IdleIsOneActive(step.head.run.records);
            var disk := BackingDisk(step.head);
            GoingOnIsFair(sha, disk, bound, ask, step);
          } else {
            GoingOverIsFair(sha, bound, ask, step);
          }
        }
      }
    }
  }

  lemma AdvancedIsSound(s: Snapshot, n: Snapshot)
    requires Advances(s, n)
    ensures SnapshotSound(n)
  {}

  /** One more step over an active dispatch that is not a started operation moves the head. */
  lemma GoingOverIsFair(sha: Sha256, bound: nat, ask: (nat, Snapshot) -> Answers, step: Step)
    requires bound > 0 && ClassifyStop(step) == StepLimit && step.run == step.head.run && SnapshotSound(step.head)
    requires !Idle(step.head.run.records)
    requires forall k | 0 <= k < |step.head.run.records| :: !StartedOperation(step.head.run.records[k])
    requires bound > 1 ==> Fair(bound - 1, Drive(sha, step.head, bound - 1, ask))
    ensures Fair(bound, Prepend(step, Drive(sha, step.head, bound - 1, ask)))
  {
    hide SnapshotSound, CheckedAdvance, ClassifyStop, DriveResultValid, Idle, Complete, HasFailed, StartedOperation,
      Retires;
    var rest := Drive(sha, step.head, bound - 1, ask);
    if bound == 1 {
      PrependedIsValid(bound, StepLimit, step, []);
      assert [step] + [] == [step];
    } else if rest.Ended? {
      var a := ask(bound - 1, step.head);
      var i := FirstExists(step.head.run.records);
      FirstOfDrive(sha, step.head, bound - 1, ask);
      var next := CheckedAdvance(sha, step.head, a).result.value;
      StepOverActive(sha, step.head, i, a, next);
      ClassifyQuiescent(next);
      assert FollowsDurably(step, next);
      PrependedIsValid(bound, rest.disposition, step, rest.steps);
      if |rest.steps| == 1 {
        assert rest.disposition != QuiescentIncomplete;
      }
    }
  }

  // ---------------------------------------------------------------- open cycles

  /** The arcs between open units, by their position: an external edge leads from one to the other. */
  function OpenArcs(p: Progress): LifecycleOrder.Arcs {
    var open := OpenUnits(p.graph.units, p.evidence);
    map i | i in open :: set j | j in open && ArcBetween(p, i, j)
  }

  predicate ArcBetween(p: Progress, i: nat, j: nat) {
    i < |p.graph.units| && j < |p.graph.units| && Reaches(p.graph, p.graph.units[i], p.graph.units[j])
  }

  /** The open units contain a cycle. */
  ghost predicate OpenCycle(p: Progress) {
    LifecycleOrder.Cyclic(OpenArcs(p))
  }

  predicate Awaits(p: Progress, rest: set<nat>, j: nat) {
    exists i | i in rest :: ArcBetween(p, i, j)
  }

  /** Open units each of which waits for another of them. */
  predicate Stuck(p: Progress, rest: set<nat>) {
    && rest != {} && rest <= OpenUnits(p.graph.units, p.evidence)
    && forall j {:trigger Awaits(p, rest, j)} | j in rest :: Awaits(p, rest, j)
  }

  lemma ArcIs(p: Progress, i: nat, j: nat)
    ensures LifecycleOrder.Arc(OpenArcs(p), i, j)
            <==> (i in OpenUnits(p.graph.units, p.evidence) && j in OpenUnits(p.graph.units, p.evidence)
                  && ArcBetween(p, i, j))
  {
    hide OpenUnits, ArcBetween;
  }

  lemma AwaitsWhich(p: Progress, rest: set<nat>, j: nat) returns (i: nat)
    requires Stuck(p, rest) && j in rest
    ensures i in rest && ArcBetween(p, i, j)
    ensures i in OpenUnits(p.graph.units, p.evidence) && j in OpenUnits(p.graph.units, p.evidence)
  {
    hide OpenUnits, ArcBetween;
    assert Awaits(p, rest, j);
    i :| i in rest && ArcBetween(p, i, j);
  }

  lemma PredIs(p: Progress, rest: set<nat>, i: nat, j: nat)
    requires i in rest && ArcBetween(p, i, j)
    requires i in OpenUnits(p.graph.units, p.evidence) && j in OpenUnits(p.graph.units, p.evidence)
    ensures LifecycleOrder.HasPred(OpenArcs(p), rest, j)
  {
    hide OpenUnits, ArcBetween, OpenArcs, LifecycleOrder.Arc;
    ArcIs(p, i, j);
  }

  lemma StuckHasCycle(p: Progress, rest: set<nat>)
    requires Stuck(p, rest)
    ensures OpenCycle(p)
  {
    hide OpenUnits, ArcBetween, OpenArcs, Awaits, LifecycleOrder.HasPred, LifecycleOrder.Cyclic;
    forall j | j in rest
      ensures LifecycleOrder.HasPred(OpenArcs(p), rest, j)
    {
      var i := AwaitsWhich(p, rest, j);
      PredIs(p, rest, i, j);
    }
    LifecycleOrder.StuckIsCyclic(OpenArcs(p), rest);
  }

  lemma CycleIsStuck(p: Progress) returns (rest: set<nat>)
    requires OpenCycle(p)
    ensures Stuck(p, rest)
  {
    hide OpenUnits, ArcBetween, OpenArcs, LifecycleOrder.Arc;
    var arcs := OpenArcs(p);
    var path: seq<nat> :| LifecycleOrder.Cycle(arcs, path);
    rest := set k | 0 <= k < |path| :: path[k];
    assert path[0] in rest;
    forall j | j in rest
      ensures j in OpenUnits(p.graph.units, p.evidence) && Awaits(p, rest, j)
    {
      var k :| 0 <= k < |path| && path[k] == j;
      var before := if k == 0 then |path| - 2 else k - 1;
      assert LifecycleOrder.Arc(arcs, path[before], path[before + 1]);
      ArcIs(p, path[before], j);
      assert path[before] in rest;
    }
  }

  lemma OpenOnlyShrinks(p: Progress, q: Progress)
    requires Grows(p, q)
    ensures OpenUnits(q.graph.units, q.evidence) <= OpenUnits(p.graph.units, p.evidence)
  {}

  lemma ArcStays(p: Progress, q: Progress, i: nat, j: nat)
    requires p.graph == q.graph
    ensures ArcBetween(p, i, j) <==> ArcBetween(q, i, j)
  {
    hide Reaches;
  }

  lemma StuckStays(p: Progress, q: Progress, rest: set<nat>)
    requires Stuck(p, rest) && p.graph == q.graph && rest <= OpenUnits(q.graph.units, q.evidence)
    ensures Stuck(q, rest)
  {
    hide OpenUnits, ArcBetween, Awaits;
    forall j | j in rest
      ensures Awaits(q, rest, j)
    {
      var i := AwaitsWhich(p, rest, j);
      ArcStays(p, q, i, j);
      AwaitsFrom(q, rest, i, j);
    }
  }

  lemma AwaitsFrom(p: Progress, rest: set<nat>, i: nat, j: nat)
    requires i in rest && ArcBetween(p, i, j)
    ensures Awaits(p, rest, j)
  {}

  /** A cycle among what is open later was open before. */
  lemma CycleWasThere(p: Progress, q: Progress)
    requires Grows(p, q) && OpenCycle(q)
    ensures OpenCycle(p)
  {
    hide OpenUnits, ArcBetween, OpenCycle, Awaits;
    var rest := CycleIsStuck(q);
    OpenOnlyShrinks(p, q);
    StuckStays(q, p, rest);
    StuckHasCycle(p, rest);
  }

  // ---------------------------------------------------------------- no stall without one

  /** An open unit that is not ready has an external edge from another open unit. */
  lemma UnreadyHasOpenPredecessor(p: Progress, j: nat) returns (i: nat)
    requires ProgressSound(p) && !HasFailed(p) && j in OpenUnits(p.graph.units, p.evidence)
    requires !ReadyUnit(p, p.graph.units[j])
    ensures i in OpenUnits(p.graph.units, p.evidence) && ArcBetween(p, i, j)
  {
    hide HasFailed, Seed, EvidenceSound, DisjointUnits, UnitRight, External;
    var u := p.graph.units[j];
    var e :| 0 <= e < |p.graph.edges| && External(u, p.graph.edges[e])
             && Seed(p.graph, p.evidence, p.graph.edges[e].before) != Satisfied;
    UnsatisfiedIsOpen(p, p.graph.edges[e].before);
    i :| 0 <= i < |p.graph.units| && Open(p.evidence, p.graph.units[i])
        && p.graph.edges[e].before in p.graph.units[i].members;
  }

  lemma UnreadyAwaits(run: Run, j: nat)
    requires ProgressSound(run.progress) && !Stopped(run) && NothingReady(run)
    requires j in OpenUnits(run.progress.graph.units, run.progress.evidence)
    ensures Awaits(run.progress, OpenUnits(run.progress.graph.units, run.progress.evidence), j)
  {
    hide ProgressSound, HasFailed, ReadyUnit, ArcBetween;
    assert !ReadyUnit(run.progress, run.progress.graph.units[j]);
    var i := UnreadyHasOpenPredecessor(run.progress, j);
  }

  lemma StalledIsCyclic(run: Run)
    requires ProgressSound(run.progress) && !Stopped(run) && NothingReady(run) && !Complete(run.progress)
    ensures OpenCycle(run.progress)
  {
    var open := OpenUnits(run.progress.graph.units, run.progress.evidence);
    hide ProgressSound, HasFailed, Complete, NothingReady, OpenUnits, Awaits;
    CompleteMeansClosed(run.progress);
    forall j | j in open
      ensures Awaits(run.progress, open, j)
    {
      UnreadyAwaits(run, j);
    }
    StuckHasCycle(run.progress, open);
  }

  /** The head that a drive goes on from. */
  lemma NextHead(sha: Sha256, s: Snapshot, a: Answers, step: Step)
    requires SnapshotSound(s) && CheckedAdvance(sha, s, a).result == Success(step)
    requires ClassifyStop(step) == StepLimit
    ensures SnapshotSound(step.head) && step.run == step.head.run && Grows(s.run.progress, step.run.progress)
  {
    hide SnapshotSound, CheckedAdvance, ClassifyStop, Idle, OneActive, Complete, HasFailed, Grows, Advance, PersistAll;
    if Idle(s.run.records) {
      IdleIsOneActive(s.run.records);
      var disk := BackingDisk(s);
      StepFacts(sha, disk, a, step);
    } else {
      var i := FirstExists(s.run.records);
      StepOverActive(sha, s, i, a, step);
    }
  }

  lemma AcyclicStepDoesNotStall(sha: Sha256, s: Snapshot, a: Answers, step: Step)
    requires SnapshotSound(s) && !OpenCycle(s.run.progress) && CheckedAdvance(sha, s, a).result == Success(step)
    ensures ClassifyStop(step) != QuiescentIncomplete
  {
    hide SnapshotSound, CheckedAdvance, ClassifyStop, Idle, OneActive, Complete, HasFailed, NothingReady, LedgerSound,
      ProgressSound,
      OpenCycle, StepsOver, DiskSound;
    ClassifyQuiescent(step);
    IncompleteQuiescence(step);
    if Idle(s.run.records) {
      IdleIsOneActive(s.run.records);
      var disk := BackingDisk(s);
      SoundSnapshotProgress(s);
      if ClassifyStop(step) == QuiescentIncomplete {
        QuiescentComesFromAdvance(sha, disk, a, step);
        if !Stopped(s.run) && !Complete(s.run.progress) {
          StalledIsCyclic(s.run);
        }
      }
    } else {
      var i := FirstExists(s.run.records);
      StepOverActive(sha, s, i, a, step);
      StepsOverIsNotQuiescent(s, i, step);
    }
  }

  lemma SoundSnapshotProgress(s: Snapshot)
    requires SnapshotSound(s)
    ensures ProgressSound(s.run.progress) && LedgerSound(s.run)
  {}

  lemma StepsOverIsNotQuiescent(s: Snapshot, i: nat, step: Step)
    requires i < |s.run.records| && StepsOver(s, i, step)
    ensures step.disposition != Quiescent
  {}

  lemma {:induction false} AcyclicDriveDoesNotStall(sha: Sha256, s: Snapshot, bound: nat,
                                                    ask: (nat, Snapshot) -> Answers)
    requires SnapshotSound(s) && !OpenCycle(s.run.progress)
    ensures Drive(sha, s, bound, ask).Ended? ==> Drive(sha, s, bound, ask).disposition != QuiescentIncomplete
    decreases bound
  {
    hide SnapshotSound, CheckedAdvance, ClassifyStop, OpenCycle, Grows;
    if bound > 0 {
      var result := CheckedAdvance(sha, s, ask(bound, s)).result;
      if result.Success? {
        AcyclicStepDoesNotStall(sha, s, ask(bound, s), result.value);
        if ClassifyStop(result.value) == StepLimit {
          NextHead(sha, s, ask(bound, s), result.value);
          if OpenCycle(result.value.run.progress) {
            CycleWasThere(s.run.progress, result.value.run.progress);
          }
          AcyclicDriveDoesNotStall(sha, result.value.head, bound - 1, ask);
        }
      }
    }
  }
}
