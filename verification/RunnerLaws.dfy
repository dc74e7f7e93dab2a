/**
  What every step of the runner keeps, wherever a crash cuts it: the head stays a sound
  snapshot with at most one active dispatch, reached by one transition at a time, and every
  launched dispatch names an attempt that was made durable before it.
 */
module RunnerLaws {
  import opened Wrappers
  import opened Identity
  import opened Progression
  import opened Dispatch
  import opened DispatchLaws
  import opened RunJournal
  import opened RunJournalLaws
  import opened Runner
  import EffectJournal

  predicate OneActive(records: seq<DispatchRecord>) {
    forall i, j | 0 <= i < j < |records| :: !(Active(records[i]) && Active(records[j]))
  }

  predicate Idle(records: seq<DispatchRecord>) {
    forall i | 0 <= i < |records| :: !Active(records[i])
  }

  /** A launched dispatch names a durable attempt. */
  predicate BackedRecord(disk: RunDisk, r: DispatchRecord) {
    Launched(r) ==>
      if r.dispatch.unit.kind == OperationUnit then r.effectAttempt.Some? && r.effectAttempt.value in disk.admitted
      else r.session.Some? && r.session.value in disk.attempts
  }

  predicate AllBacked(disk: RunDisk, records: seq<DispatchRecord>) {
    forall i | 0 <= i < |records| :: BackedRecord(disk, records[i])
  }

  predicate DiskSound(disk: RunDisk) {
    SnapshotSound(disk.head) && OneActive(disk.head.run.records) && AllBacked(disk, disk.head.run.records)
  }

  /** Evidence is only added. */
  predicate Grows(p: Progress, q: Progress) {
    q.graph == p.graph && forall n | n in p.evidence :: n in q.evidence && q.evidence[n] == p.evidence[n]
  }

  predicate WriteLegal(disk: RunDisk, w: Write) {
    w.Headed? ==> DurablySucceeds(disk.head, w.snapshot) && Grows(disk.head.run.progress, w.snapshot.run.progress)
  }

  /** Every write is legal where it happens, and the disk is sound before and after each. */
  predicate Course(disk: RunDisk, writes: seq<Write>)
    decreases |writes|
  {
    && DiskSound(disk)
    && (writes == [] || (WriteLegal(disk, writes[0]) && Course(Persist(disk, writes[0]), writes[1..])))
  }

  // ---------------------------------------------------------------- one transition of the head

  lemma NonReserveKeepsLength(sha: Sha256, run: Run, c: Command)
    requires !c.Reserve? && Apply(sha, run, c).Success?
    ensures |Apply(sha, run, c).value.records| == |run.records|
  {
    hide RequireCurrent, RecordsValid, AdvanceWork, AdvanceEffect, EffectJournal.Admit, Binds;
  }

  /** What a start writes into the record. */
  predicate StartWrites(sha: Sha256, run: Run, c: Command, r: DispatchRecord) {
    || (c.StartingWork? && r.dispatch.unit.kind != OperationUnit && r.session == Some(c.session.identity))
    || (c.StartingOperation? && StartOperation(sha, run, c.dispatch, c.session, c.attemptNonce).Success?
        && r.dispatch.unit.kind == OperationUnit
        && r.effectAttempt == Some(StartOperation(sha, run, c.dispatch, c.session, c.attemptNonce).value.1.attempt))
  }

  lemma StartWorkWrites(sha: Sha256, run: Run, d: Dispatch, s: Session, i: nat)
    requires StartWork(run, d, s).Success? && ChangesAt(run, StartWork(run, d, s).value, i)
    ensures StartWrites(sha, run, StartingWork(d, s), StartWork(run, d, s).value.records[i])
  {
    hide RequireCurrent, RecordsValid, Binds;
    MadeRunIs(run, RequireRecord(run, d, Reserved).value, StartedRecord(d, s.identity, None), run.progress);
  }

  lemma StartOperationWrites(sha: Sha256, run: Run, d: Dispatch, s: Session, nonce: EffectJournal.Nonce, i: nat)
    requires StartOperation(sha, run, d, s, nonce).Success?
    requires ChangesAt(run, StartOperation(sha, run, d, s, nonce).value.0, i)
    ensures StartWrites(sha, run, StartingOperation(d, s, nonce),
                        StartOperation(sha, run, d, s, nonce).value.0.records[i])
  {
    hide RequireCurrent, RecordsValid, Binds, EffectJournal.Admit;
    var attempt := EffectJournal.Admit(sha, s.identity, |s.before|, |s.after|, nonce).value;
    MadeRunIs(run, RequireRecord(run, d, Reserved).value, StartedRecord(d, s.identity, Some(attempt.attempt)),
              run.progress);
  }

  lemma CompletionStartsNothing(run: Run, d: Dispatch, c: Command, next: Run, i: nat)
    requires ChangesAt(run, next, i) && run.records[i].state == Reserved
    requires match c
             case CompletingWork(d, result) => CompleteWork(run, d, result) == Success(next)
             case Submitting(d, result, resulting) => SubmitOperation(run, d, result, resulting) == Success(next)
             case Releasing(d) => ReleaseUnstarted(run, d) == Success(next)
             case _ => false
    ensures next.records[i].state != Started
  {
    hide RequireCurrent, RecordsValid, AdvanceWork, AdvanceEffect, Binds;
  }

  lemma OnlyStartsStart(sha: Sha256, run: Run, c: Command, i: nat)
    requires Apply(sha, run, c).Success? && ChangesAt(run, Apply(sha, run, c).value, i)
    requires run.records[i].state == Reserved && Apply(sha, run, c).value.records[i].state == Started
    ensures StartWrites(sha, run, c, Apply(sha, run, c).value.records[i])
  {
    assert i < |run.records|;
    hide StartWork, StartOperation, ReleaseUnstarted, CompleteWork, SubmitOperation, ReserveNext, StartWrites,
      ChangesAt;
    var next := Apply(sha, run, c).value;
    match c
    case StartingWork(d, s) => StartWorkWrites(sha, run, d, s, i);
    case StartingOperation(d, s, nonce) => StartOperationWrites(sha, run, d, s, nonce, i);
    case Reserve(nonce) => ReserveChangesNothing(run, nonce, i);
    case Releasing(d) => CompletionStartsNothing(run, d, c, next, i);
    case CompletingWork(d, result) => CompletionStartsNothing(run, d, c, next, i);
    case Submitting(d, result, resulting) => CompletionStartsNothing(run, d, c, next, i);
  }

  lemma ReserveChangesNothing(run: Run, nonce: string, i: nat)
    requires ReserveNext(run, nonce).Success? && i < |run.records|
    ensures i < |ReserveNext(run, nonce).value.0.records|
    ensures ReserveNext(run, nonce).value.0.records[i] == run.records[i]
  {
    hide RecordsValid, CaptureDependencies;
  }

  /** The attempt that a starting command names is durable. */
  predicate AttemptIsDurable(sha: Sha256, disk: RunDisk, c: Command) {
    && (c.StartingWork? ==> c.session.identity in disk.attempts)
    && (c.StartingOperation? ==>
          var started := StartOperation(sha, disk.head.run, c.dispatch, c.session, c.attemptNonce);
          started.Success? ==> started.value.1.attempt in disk.admitted)
  }

  lemma StartIsBacked(sha: Sha256, disk: RunDisk, c: Command, r: DispatchRecord)
    requires StartWrites(sha, disk.head.run, c, r) && AttemptIsDurable(sha, disk, c)
    ensures BackedRecord(disk, r)
  {
    hide StartOperation;
  }

  lemma ChangeIsBacked(disk: RunDisk, r: DispatchRecord, n: DispatchRecord, progressed: bool)
    requires RecordChanges(r, n, progressed) && BackedRecord(disk, r) && !(r.state == Reserved && n.state == Started)
    ensures BackedRecord(disk, n)
  {}

  lemma AppendIsBacked(disk: RunDisk, run: Run, next: Run)
    requires Appends(run, next) && AllBacked(disk, run.records)
    ensures AllBacked(disk, next.records)
  {
    assert next.records[..|run.records|] == run.records;
    assert BackedRecord(disk, next.records[|run.records|]);
    hide BackedRecord;
  }

  lemma ReplacementIsBacked(disk: RunDisk, records: seq<DispatchRecord>, k: nat, r: DispatchRecord)
    requires k < |records| && AllBacked(disk, records) && BackedRecord(disk, r)
    ensures AllBacked(disk, records[k := r])
  {
    hide BackedRecord;
  }

  lemma HeadStepIsBacked(sha: Sha256, disk: RunDisk, c: Command, next: Run)
    requires AllBacked(disk, disk.head.run.records)
    requires Apply(sha, disk.head.run, c) == Success(next) && Transits(disk.head.run, next)
    requires AttemptIsDurable(sha, disk, c)
    ensures AllBacked(disk, next.records)
  {
    var run := disk.head.run;
    hide AttemptIsDurable, Apply, RecordChanges, BackedRecord, Appends;
    if Appends(run, next) {
      AppendIsBacked(disk, run, next);
    } else {
      var k :| 0 <= k < |run.records| && ChangesAt(run, next, k);
      assert BackedRecord(disk, run.records[k]);
      if next.records[k].state == Started && run.records[k].state == Reserved {
        OnlyStartsStart(sha, run, c, k);
        StartIsBacked(sha, disk, c, next.records[k]);
      } else {
        ChangeIsBacked(disk, run.records[k], next.records[k], next.progress != run.progress);
      }
      ReplacementIsBacked(disk, run.records, k, next.records[k]);
    }
  }

  lemma HeadStepKeepsOneActive(sha: Sha256, run: Run, c: Command, next: Run)
    requires OneActive(run.records) && Apply(sha, run, c) == Success(next) && Transits(run, next)
    requires c.Reserve? ==> Idle(run.records)
    ensures OneActive(next.records)
    ensures c.Reserve? || Idle(run.records) ==> forall i | 0 <= i < |run.records| && i < |next.records| ::
              !Active(next.records[i])
  {
    if !c.Reserve? {
      NonReserveKeepsLength(sha, run, c);
    }
    hide Apply;
    if Appends(run, next) {
      assert next.records[..|run.records|] == run.records;
    }
  }

  lemma WorkGrows(run: Run, d: Dispatch, result: WorkResult)
    requires CompleteWork(run, d, result).Success?
    ensures Grows(run.progress, CompleteWork(run, d, result).value.progress)
  {
    hide RequireCurrent, RecordsValid, Binds, ReadyNode, RequireRecord;
  }

  lemma EffectGrows(run: Run, d: Dispatch, effect: EffectResult, resulting: Option<string>)
    requires SubmitOperation(run, d, effect, resulting).Success?
    ensures Grows(run.progress, SubmitOperation(run, d, effect, resulting).value.progress)
  {
    hide RequireCurrent, RecordsValid, Binds, ReadyNode, RequireRecord, ProvesSuccess;
  }

  /** No command takes evidence away. */
  lemma CommandGrows(sha: Sha256, run: Run, c: Command)
    requires Apply(sha, run, c).Success?
    ensures Grows(run.progress, Apply(sha, run, c).value.progress)
  {
    hide RequireCurrent, RecordsValid, Binds, RequireRecord, CompleteWork, SubmitOperation, CaptureDependencies,
      EffectJournal.Admit;
    match c {
      case CompletingWork(d, result) => WorkGrows(run, d, result);
      case Submitting(d, effect, resulting) => EffectGrows(run, d, effect, resulting);
      case _ =>
    }
  }

  lemma NewHeadIsBacked(disk: RunDisk, n: Snapshot)
    requires AllBacked(disk, n.run.records)
    ensures AllBacked(disk.(head := n), n.run.records)
  {}

  /** A command whose attempts are durable moves a sound disk to a sound disk. */
  lemma HeadStep(sha: Sha256, disk: RunDisk, c: Command, next: Run)
    requires DiskSound(disk) && Apply(sha, disk.head.run, c) == Success(next) && next != disk.head.run
    requires Successor(disk.head, next).Success?
    requires c.Reserve? ==> Idle(disk.head.run.records)
    requires AttemptIsDurable(sha, disk, c)
    ensures WriteLegal(disk, Headed(Successor(disk.head, next).value))
    ensures DiskSound(disk.(head := Successor(disk.head, next).value))
    ensures Successor(disk.head, next).value.sequence == disk.head.sequence + 1
    ensures Successor(disk.head, next).value.run == next
  {
    hide Apply, Transits, DurablySucceeds, AttemptIsDurable, LedgerSound, BackedRecord;
    CommandTransits(sha, disk.head.run, c);
    CommandExtendsJournal(sha, disk.head, c);
    CommandGrows(sha, disk.head.run, c);
    HeadStepIsBacked(sha, disk, c, next);
    HeadStepKeepsOneActive(sha, disk.head.run, c, next);
    NewHeadIsBacked(disk, Successor(disk.head, next).value);
  }
}
