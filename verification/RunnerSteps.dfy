/**
  Every step of the runner is a sound course of writes, its result passes its own check,
  and a step after which the drive goes on leaves no dispatch active.
 */
module RunnerSteps {
  import opened Wrappers
  import opened Identity
  import opened Progression
  import opened Dispatch
  import opened DispatchLaws
  import opened RunJournal
  import opened RunJournalLaws
  import opened Runner
  import opened RunnerLaws
  import EffectJournal

  // ---------------------------------------------------------------- courses compose

  lemma {:induction false} CourseThen(disk: RunDisk, v: seq<Write>, w: seq<Write>)
    requires Course(disk, v) && Course(PersistAll(disk, v), w)
    ensures Course(disk, v + w) && PersistAll(disk, v + w) == PersistAll(PersistAll(disk, v), w)
    decreases |v|
  {
    hide DiskSound, WriteLegal;
    if v == [] {
      assert v + w == w;
    } else {
      assert (v + w)[0] == v[0] && (v + w)[1..] == v[1..] + w;
      CourseThen(Persist(disk, v[0]), v[1..], w);
    }
  }

  lemma {:induction false} CourseEndsSound(disk: RunDisk, writes: seq<Write>)
    requires Course(disk, writes)
    ensures DiskSound(PersistAll(disk, writes))
    decreases |writes|
  {
    hide DiskSound, WriteLegal;
    if writes != [] {
      CourseEndsSound(Persist(disk, writes[0]), writes[1..]);
    }
  }

  /** A crash leaves a prefix of the writes, and a sound disk. */
  lemma {:induction false} CrashKeepsSound(disk: RunDisk, writes: seq<Write>, cut: nat)
    requires Course(disk, writes) && cut <= |writes|
    ensures DiskSound(PersistAll(disk, writes[..cut]))
    decreases cut
  {
    hide DiskSound, WriteLegal;
    if cut > 0 {
      assert writes[..cut][0] == writes[0] && writes[..cut][1..] == writes[1..][..cut - 1];
      CrashKeepsSound(Persist(disk, writes[0]), writes[1..], cut - 1);
    }
  }

  function HeadWrites(writes: seq<Write>): nat {
    if writes == [] then 0 else (if writes[0].Headed? then 1 else 0) + HeadWrites(writes[1..])
  }

  lemma WriteCounts(disk: RunDisk, w: Write)
    requires WriteLegal(disk, w)
    ensures Persist(disk, w).head.sequence == disk.head.sequence + (if w.Headed? then 1 else 0)
    ensures Persist(disk, w).head.journal == disk.head.journal
    ensures Persist(disk, w).head.run.progress.graph == disk.head.run.progress.graph
    ensures Persist(disk, w).head.run.policy == disk.head.run.policy
    ensures Grows(disk.head.run.progress, Persist(disk, w).head.run.progress)
  {
    hide Appends, ChangesAt;
  }

  /** The sequence grows by one with every head that is written, and the journal, graph and policy stay the same. */
  lemma {:induction false} SequenceCountsHeads(disk: RunDisk, writes: seq<Write>)
    requires Course(disk, writes)
    ensures PersistAll(disk, writes).head.sequence == disk.head.sequence + HeadWrites(writes)
    ensures PersistAll(disk, writes).head.journal == disk.head.journal
    ensures PersistAll(disk, writes).head.run.progress.graph == disk.head.run.progress.graph
    ensures PersistAll(disk, writes).head.run.policy == disk.head.run.policy
    ensures Grows(disk.head.run.progress, PersistAll(disk, writes).head.run.progress)
    decreases |writes|
  {
    hide DiskSound, WriteLegal, Persist;
    if writes != [] {
      WriteCounts(disk, writes[0]);
      SequenceCountsHeads(Persist(disk, writes[0]), writes[1..]);
    }
  }

  // ---------------------------------------------------------------- writes other than heads

  lemma OneWrite(disk: RunDisk, w: Write)
    requires DiskSound(disk) && WriteLegal(disk, w) && DiskSound(Persist(disk, w))
    ensures Course(disk, [w]) && PersistAll(disk, [w]) == Persist(disk, w)
  {
    hide DiskSound, WriteLegal;
    assert [w][1..] == [];
    assert Course(Persist(disk, w), []);
    assert PersistAll(Persist(disk, w), []) == Persist(disk, w);
  }

  lemma MoreIsStillBacked(disk: RunDisk, more: RunDisk)
    requires DiskSound(disk) && more.head == disk.head && disk.attempts <= more.attempts
    requires disk.admitted <= more.admitted
    ensures DiskSound(more)
  {
    hide SnapshotSound;
  }

  lemma AttemptedIsSound(disk: RunDisk, session: string)
    requires DiskSound(disk)
    ensures Course(disk, [Attempted(session)])
    ensures PersistAll(disk, [Attempted(session)]) == Persist(disk, Attempted(session))
  {
    MoreIsStillBacked(disk, Persist(disk, Attempted(session)));
    OneWrite(disk, Attempted(session));
  }

  lemma RetainedIsSound(disk: RunDisk, evidence: string)
    requires DiskSound(disk)
    ensures Course(disk, [Retained(evidence)])
    ensures PersistAll(disk, [Retained(evidence)]) == Persist(disk, Retained(evidence))
  {
    MoreIsStillBacked(disk, Persist(disk, Retained(evidence)));
    OneWrite(disk, Retained(evidence));
  }

  lemma AdmittedIsSound(disk: RunDisk, attempt: EffectJournal.Record)
    requires DiskSound(disk)
    ensures Course(disk, [Admitted(attempt)])
    ensures PersistAll(disk, [Admitted(attempt)]) == Persist(disk, Admitted(attempt))
  {
    MoreIsStillBacked(disk, Persist(disk, Admitted(attempt)));
    OneWrite(disk, Admitted(attempt));
  }

  lemma HeadedIsSound(sha: Sha256, disk: RunDisk, c: Command, next: Run)
    requires DiskSound(disk) && Apply(sha, disk.head.run, c) == Success(next) && next != disk.head.run
    requires Successor(disk.head, next).Success? && (c.Reserve? ==> Idle(disk.head.run.records))
    requires AttemptIsDurable(sha, disk, c)
    ensures Course(disk, [Headed(Successor(disk.head, next).value)])
    ensures PersistAll(disk, [Headed(Successor(disk.head, next).value)])
            == disk.(head := Successor(disk.head, next).value)
    ensures Successor(disk.head, next).value.run == next
  {
    hide DiskSound, WriteLegal, Apply, AttemptIsDurable, Successor, Idle, Course, PersistAll;
    HeadStep(sha, disk, c, next);
    OneWrite(disk, Headed(Successor(disk.head, next).value));
  }

  // ---------------------------------------------------------------- the record of the dispatch afterwards

  lemma {:induction false} IndexSurvives(records: seq<DispatchRecord>, i: nat, r: DispatchRecord, d: Dispatch)
    requires i < |records| && r.dispatch == records[i].dispatch
    ensures RecordIndex(records[i := r], d) == RecordIndex(records, d)
    decreases |records|
  {
    if records[0].dispatch != d && i > 0 {
      assert records[i := r][1..] == records[1..][i - 1 := r];
      IndexSurvives(records[1..], i - 1, r, d);
    } else if i == 0 {
      assert records[i := r][1..] == records[1..];
    }
  }

  lemma ReplacedRecordOf(run: Run, i: nat, r: DispatchRecord, q: Progress)
    requires i < |run.records| && RecordIndex(run.records, r.dispatch) == Some(i)
    ensures RecordOf(Run(q, run.policy, run.records[i := r]), r.dispatch) == Some(r)
  {
    IndexSurvives(run.records, i, r, r.dispatch);
  }

  lemma RetiredIsIdle(records: seq<DispatchRecord>, i: nat, r: DispatchRecord)
    requires i < |records| && OneActive(records) && Active(records[i]) && !Active(r)
    ensures Idle(records[i := r])
  {}

  lemma ReleaseRetires(run: Run, d: Dispatch)
    requires ReleaseUnstarted(run, d).Success?
    ensures RecordOf(ReleaseUnstarted(run, d).value, d) == Some(ReleasedRecord(d))
    ensures OneActive(run.records) ==> Idle(ReleaseUnstarted(run, d).value.records)
  {
    hide RecordsValid, OneActive;
    var i := RequireRecord(run, d, Reserved).value;
    MadeRunIs(run, i, ReleasedRecord(d), run.progress);
    ReplacedRecordOf(run, i, ReleasedRecord(d), run.progress);
    if OneActive(run.records) {
      RetiredIsIdle(run.records, i, ReleasedRecord(d));
    }
  }

  lemma CompleteWorkRetires(run: Run, d: Dispatch, result: WorkResult)
    requires CompleteWork(run, d, result).Success?
    ensures RecordOf(CompleteWork(run, d, result).value, d).Some?
    ensures OneActive(run.records) ==> Idle(CompleteWork(run, d, result).value.records)
  {
    hide RecordsValid, OneActive, RequireCurrent, Binds, AdvanceWork;
    var i := RequireRecord(run, d, Started).value;
    var q := AdvanceWork(run.progress, result).value;
    MadeRunIs(run, i, CompletedRecord(run.records[i], result.identity), q);
    ReplacedRecordOf(run, i, CompletedRecord(run.records[i], result.identity), q);
    if OneActive(run.records) {
      RetiredIsIdle(run.records, i, CompletedRecord(run.records[i], result.identity));
    }
  }

  /** A terminal outcome retires the dispatch; any other is retained as an observation of it. */
  lemma SubmitRetires(run: Run, d: Dispatch, effect: EffectResult, resulting: Option<string>)
    requires SubmitOperation(run, d, effect, resulting).Success?
    ensures var next := SubmitOperation(run, d, effect, resulting).value;
            && RecordOf(next, d).Some?
            && (Terminates(effect.outcome) && OneActive(run.records) ==> Idle(next.records))
            && (!Terminates(effect.outcome) ==>
                  RecordOf(next, d).value.state == Started && effect.identity in RecordOf(next, d).value.observations)
  {
    hide RecordsValid, OneActive, RequireCurrent, Binds, AdvanceEffect;
    var i := RequireRecord(run, d, Started).value;
    var r := run.records[i];
    if Terminates(effect.outcome) {
      var q := AdvanceEffect(run.progress, effect, resulting).value;
      MadeRunIs(run, i, CompletedRecord(r, effect.identity), q);
      ReplacedRecordOf(run, i, CompletedRecord(r, effect.identity), q);
      if OneActive(run.records) {
        RetiredIsIdle(run.records, i, CompletedRecord(r, effect.identity));
      }
    } else {
      var observed := DispatchRecord(d, Started, r.session, r.effectAttempt, r.observations + [effect.identity], None);
      MadeRunIs(run, i, observed, run.progress);
      ReplacedRecordOf(run, i, observed, run.progress);
    }
  }

  // ---------------------------------------------------------------- good plans

  /** A returned step describes the disk that it left, passes its check, and goes on only from an idle run. */
  predicate StepAt(disk: RunDisk, step: Step) {
    && step.head == disk.head && step.run == disk.head.run && AdvanceResultValid(step)
    && (ClassifyStop(step) == StepLimit ==> Idle(step.run.records))
  }

  predicate PlanGood(disk: RunDisk, plan: Plan) {
    && Course(disk, plan.writes) && plan.result != Failure(Rejected)
    && (plan.result.Success? ==> StepAt(PersistAll(disk, plan.writes), plan.result.value))
  }

  lemma AbandonIsGood(disk: RunDisk, writes: seq<Write>)
    requires Course(disk, writes)
    ensures PlanGood(disk, Plan(writes, Failure(Refused)))
  {}

  lemma ThenIsGood(disk: RunDisk, writes: seq<Write>, plan: Plan)
    requires Course(disk, writes) && PlanGood(PersistAll(disk, writes), plan)
    ensures PlanGood(disk, Then(writes, plan))
  {
    hide Course, StepAt;
    CourseThen(disk, writes, plan.writes);
  }

  lemma SoundHeadReopens(disk: RunDisk)
    requires DiskSound(disk)
    ensures Reopen(disk.head, disk.head.run.progress) == Success(disk.head.run)
  {
    SnapshotReopens(disk.head);
    hide Reopen, SnapshotSound;
  }

  /** What the committed result needs besides its run: the right evidence for its disposition. */
  predicate Presentable(step: Step) {
    && step.dispatch.Some? && RecordOf(step.run, step.dispatch.value).Some?
    && (ClassifyStop(step) == StepLimit ==> Idle(step.run.records))
    && match step.disposition
       case ReleasedReserved => step.evidence.NoEvidence?
       case ReconciledConstruction => step.evidence.ConstructionEvidence?
       case ExecutedConstruction => step.evidence.ConstructionEvidence?
       case ReconciledCheck => step.evidence.CheckEvidence?
       case ExecutedCheck => step.evidence.CheckEvidence?
       case ExecutedOperation =>
         step.evidence.OperationEvidence? && step.evidence.result.Some? && !step.evidence.restarted
       case ReconciledOperation =>
         step.evidence.OperationEvidence? && step.evidence.result.Some? && step.evidence.restarted
       case AuthorityUnavailable =>
         step.evidence.NoEvidence? && (var r := RecordOf(step.run, step.dispatch.value).value;
                                       r.state == Started || r.state == Released)
       case _ => false
  }

  lemma PresentableIsAt(disk: RunDisk, step: Step)
    requires DiskSound(disk) && step.head == disk.head && step.run == disk.head.run && Presentable(step)
    ensures StepAt(disk, step)
  {
    hide DiskSound, Reopen, RecordOf, ClassifyStop, Idle;
    SoundHeadReopens(disk);
  }

  lemma CommitIsGood(sha: Sha256, disk: RunDisk, c: Command, next: Result<Run, Fault>,
                     disposition: Disposition, d: Dispatch, evidence: StepEvidence)
    requires DiskSound(disk) && !c.Reserve? && AttemptIsDurable(sha, disk, c) && Apply(sha, disk.head.run, c) == next
    requires next.Success? ==> forall head: Snapshot ::
               Presentable(Step(next.value, head, disposition, Some(d), evidence))
    ensures PlanGood(disk, CommitStep(disk.head, next, disposition, d, evidence))
  {
    hide Apply, DiskSound, AttemptIsDurable, Successor, StepAt, Presentable;
    if next.Failure? || Successor(disk.head, next.value).Failure? {
      assert Course(disk, []);
      AbandonIsGood(disk, []);
    } else {
      DiskIsLedgerSound(disk);
      CommandTransits(sha, disk.head.run, c);
      HeadedIsSound(sha, disk, c, next.value);
      var head := Successor(disk.head, next.value).value;
      CourseEndsSound(disk, [Headed(head)]);
      PresentableIsAt(disk.(head := head), Step(next.value, head, disposition, Some(d), evidence));
    }
  }

  lemma DiskIsLedgerSound(disk: RunDisk)
    requires DiskSound(disk)
    ensures LedgerSound(disk.head.run) && OneActive(disk.head.run.records)
  {}

  // ---------------------------------------------------------------- the parts of a step

  lemma FinishWorkIsGood(sha: Sha256, disk: RunDisk, d: Dispatch, a: Answers, result: WorkResult, first: bool,
                         retain: bool)
    requires DiskSound(disk) && d.unit.kind != OperationUnit
    ensures PlanGood(disk, FinishWork(disk.head, d, a, result, first, retain))
  {
    hide DiskSound, CompleteWork, CommitStep, PlanGood, Presentable, AttemptIsDurable;
    var retained := if retain then [Retained(result.identity)] else [];
    var kept := PersistAll(disk, retained);
    assert DiskSound(kept) && Course(disk, retained) && kept.head == disk.head by {
      if retain {
        RetainedIsSound(disk, result.identity);
        CourseEndsSound(disk, retained);
      }
    }
    if d.unit.kind == ConstructionUnit && !a.publishes {
      AbandonIsGood(disk, retained);
    } else {
      WorkCommitIsGood(sha, kept, d, result, first);
      ThenIsGood(disk, retained,
                 CommitStep(disk.head, CompleteWork(disk.head.run, d, result), WorkDisposition(d.unit.kind, first), d,
                            WorkEvidence(d.unit.kind, result)));
    }
  }

  lemma IdleIsPresentable(run: Run, head: Snapshot, disposition: Disposition, d: Dispatch, evidence: StepEvidence)
    requires RecordOf(run, d).Some? && Idle(run.records)
    requires match disposition
             case ReleasedReserved => evidence.NoEvidence?
             case ReconciledConstruction => evidence.ConstructionEvidence?
             case ExecutedConstruction => evidence.ConstructionEvidence?
             case ReconciledCheck => evidence.CheckEvidence?
             case ExecutedCheck => evidence.CheckEvidence?
             case ExecutedOperation => evidence.OperationEvidence? && evidence.result.Some? && !evidence.restarted
             case ReconciledOperation => evidence.OperationEvidence? && evidence.result.Some? && evidence.restarted
             case AuthorityUnavailable => evidence.NoEvidence? && RecordOf(run, d).value.state == Released
             case _ => false
    ensures Presentable(Step(run, head, disposition, Some(d), evidence))
  {
    hide ClassifyStop, RecordOf, Idle;
  }

  lemma UncertainIsPresentable(run: Run, head: Snapshot, d: Dispatch, effect: EffectResult, restarted: bool)
    requires RecordOf(run, d).Some? && RecordOf(run, d).value.state == Started
    requires effect.identity in RecordOf(run, d).value.observations
    ensures Presentable(Step(run, head, if restarted then ReconciledOperation else ExecutedOperation, Some(d),
                             OperationEvidence(Some(effect), restarted, false)))
  {
    hide RecordOf, Complete, HasFailed, Idle;
  }

  lemma WorkCommitIsGood(sha: Sha256, disk: RunDisk, d: Dispatch, result: WorkResult, first: bool)
    requires DiskSound(disk) && d.unit.kind != OperationUnit
    ensures PlanGood(disk,
                     CommitStep(disk.head, CompleteWork(disk.head.run, d, result), WorkDisposition(d.unit.kind, first),
                                d,
                                      WorkEvidence(d.unit.kind, result)))
  {
    hide DiskSound, CompleteWork, CommitStep, PlanGood, RecordOf, Idle, OneActive, LedgerSound, Presentable;
    var next := CompleteWork(disk.head.run, d, result);
    var disposition, evidence := WorkDisposition(d.unit.kind, first), WorkEvidence(d.unit.kind, result);
    DiskIsLedgerSound(disk);
    forall head: Snapshot | next.Success?
      ensures Presentable(Step(next.value, head, disposition, Some(d), evidence))
    {
      CompleteWorkRetires(disk.head.run, d, result);
      IdleIsPresentable(next.value, head, disposition, d, evidence);
    }
    CommitIsGood(sha, disk, CompletingWork(d, result), next, disposition, d, evidence);
  }

  lemma SubmitCommitIsGood(sha: Sha256, disk: RunDisk, d: Dispatch, effect: EffectResult, resulting: Option<string>,
                           restarted: bool)
    requires DiskSound(disk)
    ensures PlanGood(disk, CommitStep(disk.head, SubmitOperation(disk.head.run, d, effect, resulting),
                                      if restarted then ReconciledOperation else ExecutedOperation, d,
                                      OperationEvidence(Some(effect), restarted, false)))
  {
    hide DiskSound, SubmitOperation, CommitStep, PlanGood, RecordOf, Idle, OneActive, LedgerSound, Presentable;
    var next := SubmitOperation(disk.head.run, d, effect, resulting);
    var disposition := if restarted then ReconciledOperation else ExecutedOperation;
    var evidence := OperationEvidence(Some(effect), restarted, false);
    DiskIsLedgerSound(disk);
    forall head: Snapshot | next.Success?
      ensures Presentable(Step(next.value, head, disposition, Some(d), evidence))
    {
      SubmitRetires(disk.head.run, d, effect, resulting);
      if Terminates(effect.outcome) {
        IdleIsPresentable(next.value, head, disposition, d, evidence);
      } else {
        UncertainIsPresentable(next.value, head, d, effect, restarted);
      }
    }
    CommitIsGood(sha, disk, Submitting(d, effect, resulting), next, disposition, d, evidence);
  }

  lemma ReleaseCommitIsGood(sha: Sha256, disk: RunDisk, d: Dispatch, disposition: Disposition)
    requires DiskSound(disk) && (disposition == ReleasedReserved || disposition == AuthorityUnavailable)
    ensures PlanGood(disk, CommitStep(disk.head, ReleaseUnstarted(disk.head.run, d), disposition, d, NoEvidence))
  {
    hide DiskSound, ReleaseUnstarted, CommitStep, PlanGood, RecordOf, Idle, OneActive, LedgerSound, Presentable;
    var next := ReleaseUnstarted(disk.head.run, d);
    DiskIsLedgerSound(disk);
    forall head: Snapshot | next.Success?
      ensures Presentable(Step(next.value, head, disposition, Some(d), NoEvidence))
    {
      ReleaseRetires(disk.head.run, d);
      IdleIsPresentable(next.value, head, disposition, d, NoEvidence);
    }
    CommitIsGood(sha, disk, Releasing(d), next, disposition, d, NoEvidence);
  }

  // ---------------------------------------------------------------- recovery of the active dispatch

  lemma {:induction false} RecordIsFound(records: seq<DispatchRecord>, r: DispatchRecord)
    requires r in records
    requires forall i, j | 0 <= i < j < |records| :: records[i].dispatch.nonce != records[j].dispatch.nonce
    ensures RecordIndex(records, r.dispatch).Some? && records[RecordIndex(records, r.dispatch).value] == r
  {
    var k :| 0 <= k < |records| && records[k] == r;
    var i := RecordIndex(records, r.dispatch).value;
    assert records[i].dispatch.nonce == records[k].dispatch.nonce;
  }

  lemma SoundRecordIsFound(disk: RunDisk, r: DispatchRecord)
    requires DiskSound(disk) && r in disk.head.run.records
    ensures RecordOf(disk.head.run, r.dispatch) == Some(r)
  {
    RecordIsFound(disk.head.run.records, r);
  }

  lemma StandingStepIsGood(disk: RunDisk, r: DispatchRecord, disposition: Disposition, evidence: StepEvidence)
    requires DiskSound(disk) && r in disk.head.run.records && r.state == Started
    requires (disposition == AuthorityUnavailable && evidence == NoEvidence)
             || (disposition == ExternalResolution && evidence == OperationEvidence(None, true, true))
    ensures PlanGood(disk, Plan([], Success(Step(disk.head.run, disk.head, disposition, Some(r.dispatch), evidence))))
  {
    hide DiskSound, Reopen, RecordOf, Complete, HasFailed, Idle, Course;
    SoundHeadReopens(disk);
    SoundRecordIsFound(disk, r);
    EmptyCourse(disk);
  }

  lemma ReconcileOperationIsGood(sha: Sha256, disk: RunDisk, r: DispatchRecord, a: Answers)
    requires DiskSound(disk) && r in disk.head.run.records && r.state == Started
    ensures PlanGood(disk, ReconcileOperation(disk.head, r, a))
  {
    hide DiskSound, PlanGood, CommitStep, SubmitOperation;
    assert Course(disk, []) by {
      assert DiskSound(disk);
    }
    AbandonIsGood(disk, []);
    StandingStepIsGood(disk, r, AuthorityUnavailable, NoEvidence);
    StandingStepIsGood(disk, r, ExternalResolution, OperationEvidence(None, true, true));
    if a.recovery.Resumed? {
      SubmitCommitIsGood(sha, disk, r.dispatch, a.recovery.effect, ObservedState(a, a.recovery.effect), true);
    }
  }

  lemma ReconcileActiveIsGood(sha: Sha256, disk: RunDisk, r: DispatchRecord, a: Answers)
    requires DiskSound(disk) && r in disk.head.run.records && Active(r)
    ensures PlanGood(disk, ReconcileActive(disk.head, r, a))
  {
    hide DiskSound, PlanGood, CommitStep, ReconcileOperation, FinishWork, ReleaseUnstarted;
    assert Course(disk, []);
    AbandonIsGood(disk, []);
    if r.state == Reserved {
      ReleaseCommitIsGood(sha, disk, r.dispatch, ReleasedReserved);
    } else if r.dispatch.unit.kind == OperationUnit {
      ReconcileOperationIsGood(sha, disk, r, a);
    } else {
      if a.recovered.Some? {
        FinishWorkIsGood(sha, disk, r.dispatch, a, a.recovered.value, false, false);
      } else if a.work.Some? {
        FinishWorkIsGood(sha, disk, r.dispatch, a, a.work.value, false, true);
      }
    }
  }

  // ---------------------------------------------------------------- execution of a reservation

  /** The attempt is retained, then the start is committed. */
  lemma StartWorkWritesAreSound(sha: Sha256, disk: RunDisk, d: Dispatch, session: Session, head: Snapshot)
    requires DiskSound(disk) && StartWork(disk.head.run, d, session).Success?
    requires Successor(disk.head, StartWork(disk.head.run, d, session).value) == Success(head)
    ensures Course(disk, [Attempted(session.identity), Headed(head)])
    ensures PersistAll(disk, [Attempted(session.identity), Headed(head)]).head == head
  {
    hide DiskSound, Course, PersistAll, StartWork, Successor;
    AttemptedIsSound(disk, session.identity);
    CourseEndsSound(disk, [Attempted(session.identity)]);
    var tried := Persist(disk, Attempted(session.identity));
    StartWorkTransits(disk.head.run, d, session);
    HeadedIsSound(sha, tried, StartingWork(d, session), StartWork(disk.head.run, d, session).value);
    CourseThen(disk, [Attempted(session.identity)], [Headed(head)]);
    assert [Attempted(session.identity)] + [Headed(head)] == [Attempted(session.identity), Headed(head)];
  }

  lemma ExecuteWorkIsGood(sha: Sha256, disk: RunDisk, d: Dispatch, session: Session, a: Answers)
    requires DiskSound(disk) && d.unit.kind != OperationUnit
    ensures PlanGood(disk, ExecuteWork(disk.head, d, session, a))
  {
    hide DiskSound, PlanGood, StartWork, Successor, FinishWork, Course, PersistAll;
    var started := StartWork(disk.head.run, d, session);
    if started.Failure? || Successor(disk.head, started.value).Failure? {
      AttemptedIsSound(disk, session.identity);
      AbandonIsGood(disk, [Attempted(session.identity)]);
    } else {
      var head := Successor(disk.head, started.value).value;
      var writes := [Attempted(session.identity), Headed(head)];
      StartWorkWritesAreSound(sha, disk, d, session, head);
      CourseEndsSound(disk, writes);
      var end := PersistAll(disk, writes);
      EmptyCourse(end);
      AbandonIsGood(end, []);
      if a.work.None? {
        ThenIsGood(disk, writes, Abandon());
      } else {
        FinishWorkIsGood(sha, end, d, a, a.work.value, true, true);
        ThenIsGood(disk, writes, FinishWork(head, d, a, a.work.value, true, true));
      }
    }
  }

  lemma EmptyCourse(disk: RunDisk)
    requires DiskSound(disk)
    ensures Course(disk, [])
  {}

  /** The effect attempt is admitted in its own journal before the start is committed. */
  lemma StartOperationWritesAreSound(sha: Sha256, disk: RunDisk, d: Dispatch, session: Session,
                                     nonce: EffectJournal.Nonce,
                                     started: Run, attempt: EffectJournal.Record, head: Snapshot)
    requires DiskSound(disk) && StartOperation(sha, disk.head.run, d, session, nonce) == Success((started, attempt))
    requires Successor(disk.head, started) == Success(head)
    ensures Course(disk, [Admitted(attempt), Headed(head)])
    ensures PersistAll(disk, [Admitted(attempt), Headed(head)]).head == head
  {
    hide DiskSound, Course, PersistAll, StartOperation, Successor;
    AdmittedIsSound(disk, attempt);
    CourseEndsSound(disk, [Admitted(attempt)]);
    var admitted := Persist(disk, Admitted(attempt));
    StartOperationTransits(sha, disk.head.run, d, session, nonce);
    assert Apply(sha, disk.head.run, StartingOperation(d, session, nonce)) == Success(started);
    HeadedIsSound(sha, admitted, StartingOperation(d, session, nonce), started);
    CourseThen(disk, [Admitted(attempt)], [Headed(head)]);
    assert [Admitted(attempt)] + [Headed(head)] == [Admitted(attempt), Headed(head)];
  }

  lemma ExecuteOperationIsGood(sha: Sha256, disk: RunDisk, d: Dispatch, session: Session, a: Answers)
    requires DiskSound(disk)
    ensures PlanGood(disk, ExecuteOperation(sha, disk.head, d, session, a))
  {
    hide DiskSound, PlanGood, StartOperation, Successor, Course, PersistAll, SubmitOperation, CommitStep;
    EmptyCourse(disk);
    AbandonIsGood(disk, []);
    var started := StartOperation(sha, disk.head.run, d, session, a.attemptNonce);
    if started.Success? {
      var attempt := started.value.1;
      if Successor(disk.head, started.value.0).Failure? {
        AdmittedIsSound(disk, attempt);
        AbandonIsGood(disk, [Admitted(attempt)]);
      } else {
        var head := Successor(disk.head, started.value.0).value;
        var writes := [Admitted(attempt), Headed(head)];
        StartOperationWritesAreSound(sha, disk, d, session, a.attemptNonce, started.value.0, attempt, head);
        CourseEndsSound(disk, writes);
        var end := PersistAll(disk, writes);
        EmptyCourse(end);
        AbandonIsGood(end, []);
        if !a.leases || a.effect.None? || !StateIsRead(a, a.effect.value) {
          ThenIsGood(disk, writes, Abandon());
        } else {
          SubmitCommitIsGood(sha, end, d, a.effect.value, ObservedState(a, a.effect.value), false);
          ThenIsGood(disk, writes,
                     CommitStep(head, SubmitOperation(head.run, d, a.effect.value, ObservedState(a, a.effect.value)),
                                ExecutedOperation, d, OperationEvidence(a.effect, false, false)));
        }
      }
    }
  }

  lemma ExecuteReservedIsGood(sha: Sha256, disk: RunDisk, d: Dispatch, a: Answers)
    requires DiskSound(disk)
    ensures PlanGood(disk, ExecuteReserved(sha, disk.head, d, a))
  {
    hide DiskSound, PlanGood, ExecuteOperation, ExecuteWork, Course, ReleaseUnstarted, CommitStep;
    EmptyCourse(disk);
    AbandonIsGood(disk, []);
    if a.session.Some? {
      if d.unit.kind != OperationUnit {
        ExecuteWorkIsGood(sha, disk, d, a.session.value, a);
      } else {
        ReleaseCommitIsGood(sha, disk, d, AuthorityUnavailable);
        ExecuteOperationIsGood(sha, disk, d, a.session.value, a);
      }
    }
  }

  lemma ReserveIsGood(sha: Sha256, disk: RunDisk, a: Answers)
    requires DiskSound(disk) && Idle(disk.head.run.records)
    ensures PlanGood(disk, ReserveAndExecute(sha, disk.head, a))
    ensures ReserveAndExecute(sha, disk.head, a).result.Success? ==>
              HeadWrites(ReserveAndExecute(sha, disk.head, a).writes) > 0
  {
    hide DiskSound, PlanGood, ReserveNext, Successor, ExecuteReserved, Course, PersistAll, Idle;
    EmptyCourse(disk);
    AbandonIsGood(disk, []);
    var reservation := ReserveNext(disk.head.run, a.nonce);
    if reservation.Success? && reservation.value.1.Some? && a.equipped
        && Successor(disk.head, reservation.value.0).Success? {
      var next := reservation.value.0;
      var head := Successor(disk.head, next).value;
      DiskIsLedgerSound(disk);
      ReserveTransits(disk.head.run, a.nonce);
      assert Apply(sha, disk.head.run, Reserve(a.nonce)) == Success(next);
      HeadedIsSound(sha, disk, Reserve(a.nonce), next);
      CourseEndsSound(disk, [Headed(head)]);
      var reserved := PersistAll(disk, [Headed(head)]);
      ExecuteReservedIsGood(sha, reserved, reservation.value.1.value, a);
      ThenIsGood(disk, [Headed(head)], ExecuteReserved(sha, head, reservation.value.1.value, a));
    }
  }

  lemma QuiescentIsGood(disk: RunDisk)
    requires DiskSound(disk)
    ensures PlanGood(disk, Plan([], Success(Step(disk.head.run, disk.head, Quiescent, None, NoEvidence))))
  {
    hide DiskSound, Reopen, Course, Complete, HasFailed, Idle;
    EmptyCourse(disk);
    SoundHeadReopens(disk);
  }

  /** Every step from a sound disk is a sound course of writes with a result that passes its check. */
  lemma AdvanceIsGood(sha: Sha256, disk: RunDisk, a: Answers)
    requires DiskSound(disk)
    ensures PlanGood(disk, Advance(sha, disk.head, a))
    ensures CheckedAdvance(sha, disk.head, a) == Advance(sha, disk.head, a)
  {
    var records := disk.head.run.records;
    SoundHeadReopens(disk);
    if FirstActive(records).Some? {
      ReconcileActiveIsGood(sha, disk, FirstActive(records).value, a);
    } else {
      assert Idle(records);
      QuiescentIsGood(disk);
      ReserveIsGood(sha, disk, a);
    }
    hide DiskSound, Course, Reopen, ReconcileActive, ReserveAndExecute, NothingReady, Stopped, AdvanceResultValid,
      ClassifyStop;
  }
}
