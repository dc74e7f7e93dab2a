/**
  Every effective ledger command is one transition that the run journal accepts, so the
  sequence of a snapshot is the number of transitions, and every snapshot of a run reopens.
 */
module RunJournalLaws {
  import opened Wrappers
  import opened Identity
  import opened Progression
  import opened Dispatch
  import opened Sequences
  import opened DispatchLaws
  import opened RunJournal
  import EffectJournal

  // ---------------------------------------------------------------- the count

  lemma {:induction false} CountOfReplaced(records: seq<DispatchRecord>, i: nat, r: DispatchRecord)
    requires i < |records|
    ensures RetainedTransitions(records[i := r])
         == RetainedTransitions(records) - RecordTransitions(records[i]) + RecordTransitions(r)
    decreases |records|
  {
    var last := |records| - 1;
    if i == last {
      assert records[i := r][..last] == records[..last];
    } else {
      assert records[i := r][..last] == records[..last][i := r];
      CountOfReplaced(records[..last], i, r);
    }
  }

  lemma CountOfAppended(records: seq<DispatchRecord>, r: DispatchRecord)
    ensures RetainedTransitions(records + [r]) == RetainedTransitions(records) + RecordTransitions(r)
  {
    assert (records + [r])[..|records|] == records;
  }

  /** A legal transition is counted once. */
  lemma TransitionCounts(run: Run, next: Run)
    requires Transits(run, next)
    ensures RetainedTransitions(next.records) == RetainedTransitions(run.records) + 1
    requires forall i | 0 <= i < |run.records| :: ShapeValid(run.records[i])
    requires forall i | 0 <= i < |next.records| :: ShapeValid(next.records[i])
  {
    if Appends(run, next) {
      var last := next.records[|run.records|];
      assert next.records == run.records + [last];
      CountOfAppended(run.records, last);
    } else {
      var i :| 0 <= i < |run.records| && ChangesAt(run, next, i);
      CountOfReplaced(run.records, i, next.records[i]);
    }
  }

  // ---------------------------------------------------------------- commands are transitions

  lemma ReplacingTransits(run: Run, i: nat, r: DispatchRecord, q: Progress)
    requires i < |run.records| && r != run.records[i] && q.graph == run.progress.graph
    requires RecordChanges(run.records[i], r, q != run.progress)
    ensures Transits(run, Run(q, run.policy, run.records[i := r]))
  {
    var next := Run(q, run.policy, run.records[i := r]);
    assert ChangesAt(run, next, i);
  }

  lemma ReserveTransits(run: Run, nonce: string)
    requires LedgerSound(run) && ReserveNext(run, nonce).Success?
    ensures var r := ReserveNext(run, nonce).value;
            && (r.1.None? ==> r.0 == run)
            && (r.1.Some? ==> Transits(run, r.0) && !Stopped(run))
  {
    hide LedgerSound, Selectable, ReserveUnit, NonceUsed;
    var u := FirstSelectable(run, run.progress.graph.units);
    if !NonceUsed(run, nonce) && !Stopped(run) && u.Some? {
      ReserveKeeps(run, nonce, u.value);
      var next := ReserveNext(run, nonce).value.0;
      assert next.records[..|run.records|] == run.records;
    }
  }

  lemma StartWorkTransits(run: Run, d: Dispatch, s: Session)
    requires StartWork(run, d, s).Success?
    ensures Transits(run, StartWork(run, d, s).value) && !Stopped(run)
  {
    hide MakeRun, RequireCurrent, Binds;
    hide RecordsValid;
    var i := RequireRecord(run, d, Reserved).value;
    MadeRunIs(run, i, StartedRecord(d, s.identity, None), run.progress);
    ReplacingTransits(run, i, StartedRecord(d, s.identity, None), run.progress);
  }

  lemma MadeRunIs(run: Run, i: nat, r: DispatchRecord, q: Progress)
    requires i < |run.records|
    ensures ReplaceRecord(run, i, r, q).Success? ==>
              ReplaceRecord(run, i, r, q).value == Run(q, run.policy, run.records[i := r])
  {}

  lemma StartOperationTransits(sha: Sha256, run: Run, d: Dispatch, s: Session, nonce: EffectJournal.Nonce)
    requires StartOperation(sha, run, d, s, nonce).Success?
    ensures Transits(run, StartOperation(sha, run, d, s, nonce).value.0) && !Stopped(run)
  {
    hide MakeRun, RequireCurrent, Binds, RecordsValid, EffectJournal.Admit;
    var i := RequireRecord(run, d, Reserved).value;
    var attempt := EffectJournal.Admit(sha, s.identity, |s.before|, |s.after|, nonce).value.attempt;
    MadeRunIs(run, i, StartedRecord(d, s.identity, Some(attempt)), run.progress);
    ReplacingTransits(run, i, StartedRecord(d, s.identity, Some(attempt)), run.progress);
  }

  lemma ReleaseTransits(run: Run, d: Dispatch)
    requires ReleaseUnstarted(run, d).Success?
    ensures Transits(run, ReleaseUnstarted(run, d).value)
  {
    hide MakeRun, RecordsValid;
    var i := RequireRecord(run, d, Reserved).value;
    MadeRunIs(run, i, ReleasedRecord(d), run.progress);
    ReplacingTransits(run, i, ReleasedRecord(d), run.progress);
  }

  lemma CompleteWorkTransits(run: Run, d: Dispatch, result: WorkResult)
    requires CompleteWork(run, d, result).Success?
    ensures Transits(run, CompleteWork(run, d, result).value)
  {
    hide MakeRun, RequireCurrent, Binds, RecordsValid, ReadyNode;
    var i := RequireRecord(run, d, Started).value;
    var q := AdvanceWork(run.progress, result).value;
    assert result.session.node in q.evidence && result.session.node !in run.progress.evidence;
    MadeRunIs(run, i, CompletedRecord(run.records[i], result.identity), q);
    ReplacingTransits(run, i, CompletedRecord(run.records[i], result.identity), q);
  }

  lemma SubmitTransits(run: Run, d: Dispatch, result: EffectResult, resulting: Option<string>)
    requires SubmitOperation(run, d, result, resulting).Success?
    ensures Transits(run, SubmitOperation(run, d, result, resulting).value)
    ensures SubmitOperation(run, d, result, resulting).value.progress != run.progress ==> Terminates(result.outcome)
  {
    hide MakeRun, RequireCurrent, Binds, RecordsValid, ReadyNode, ProvesSuccess;
    var i := RequireRecord(run, d, Started).value;
    var r := run.records[i];
    if Terminates(result.outcome) {
      var q := AdvanceEffect(run.progress, result, resulting).value;
      assert result.session.node in q.evidence && result.session.node !in run.progress.evidence;
      MadeRunIs(run, i, CompletedRecord(r, result.identity), q);
      ReplacingTransits(run, i, CompletedRecord(r, result.identity), q);
    } else {
      var next := DispatchRecord(r.dispatch, Started, r.session, r.effectAttempt, r.observations + [result.identity],
                                 None);
      MadeRunIs(run, i, next, run.progress);
      ReplacingTransits(run, i, next, run.progress);
    }
  }

  /** A command that is not refused either selects nothing or makes one legal transition. */
  lemma CommandTransits(sha: Sha256, run: Run, c: Command)
    requires LedgerSound(run) && Apply(sha, run, c).Success?
    ensures Transits(run, Apply(sha, run, c).value)
            || (c.Reserve? && Apply(sha, run, c).value == run)
  {
    hide StartWork, StartOperation, ReleaseUnstarted, CompleteWork, SubmitOperation, ReserveNext, LedgerSound, Transits;
    match c
    case Reserve(nonce) => ReserveTransits(run, nonce);
    case StartingWork(d, s) => StartWorkTransits(run, d, s);
    case StartingOperation(d, s, nonce) => StartOperationTransits(sha, run, d, s, nonce);
    case Releasing(d) => ReleaseTransits(run, d);
    case CompletingWork(d, result) => CompleteWorkTransits(run, d, result);
    case Submitting(d, result, resulting) => SubmitTransits(run, d, result, resulting);
  }

  // ---------------------------------------------------------------- snapshots

  /** A snapshot that a run journal holds: of a sound run, with the sequence that its history counts. */
  predicate SnapshotSound(s: Snapshot) {
    && LedgerSound(s.run) && s == MakeSnapshot(s.journal, s.sequence, s.previous, s.run)
    && s.sequence == RetainedTransitions(s.run.records)
    && (s.sequence == 0 <==> s.previous.None?)
  }

  lemma SoundShapes(run: Run)
    requires LedgerSound(run)
    ensures forall i | 0 <= i < |run.records| :: ShapeValid(run.records[i])
  {
    forall i | 0 <= i < |run.records|
      ensures ShapeValid(run.records[i])
    {
      assert RecordSound(run.progress, run.records[i]);
    }
  }

  /** Every effective command extends the journal by one snapshot that the store accepts. */
  lemma CommandExtendsJournal(sha: Sha256, s: Snapshot, c: Command)
    requires SnapshotSound(s) && s.sequence < MAXIMUM_SEQUENCE
    requires Apply(sha, s.run, c).Success? && Apply(sha, s.run, c).value != s.run
    ensures var n := Successor(s, Apply(sha, s.run, c).value);
            n.Success? && SnapshotSound(n.value) && DurablySucceeds(s, n.value) && n.value.sequence == s.sequence + 1
  {
    hide Apply, LedgerSound, Transits;
    var next := Apply(sha, s.run, c).value;
    CommandKeeps(sha, s.run, c);
    CommandTransits(sha, s.run, c);
    SoundShapes(s.run);
    SoundShapes(next);
    TransitionCounts(s.run, next);
    EpochMovesWithOperation(sha, s.run, c);
  }

  /** The snapshot after one more command. */
  lemma Journaled(sha: Sha256, s: Snapshot, c: Command, next: Run) returns (n: Snapshot)
    requires SnapshotSound(s) && s.sequence < MAXIMUM_SEQUENCE && Apply(sha, s.run, c) == Success(next) && next != s.run
    ensures Successor(s, next) == Success(n) && SnapshotSound(n) && n.run == next && n.sequence == s.sequence + 1
  {
    hide Apply, LedgerSound, Transits, DurablySucceeds, RetainedTransitions;
    CommandExtendsJournal(sha, s, c);
    n := Successor(s, next).value;
  }

  /** Only the completion of an operation moves the state epoch. */
  lemma EpochMovesWithOperation(sha: Sha256, run: Run, c: Command)
    requires LedgerSound(run) && Apply(sha, run, c).Success?
    ensures var next := Apply(sha, run, c).value;
            next.progress.epoch != run.progress.epoch ==>
              exists i | 0 <= i < |run.records| && i < |next.records| ::
                && ChangesAt(run, next, i) && next.records[i].state == Completed
                && next.records[i].dispatch.unit.kind == OperationUnit
  {
    hide ReleaseUnstarted, StartWork, StartOperation, ReserveNext, CompleteWork, SubmitOperation, LedgerSound;
    var next := Apply(sha, run, c).value;
    match c
    case Submitting(d, result, resulting) =>
      SubmitMovesEpoch(run, d, result, resulting);
    case CompletingWork(d, result) =>
      WorkKeepsEpoch(run, d, result);
    case Reserve(nonce) =>
      CommandTransits(sha, run, c);
      ReserveKeepsEpoch(run, nonce);
    case StartingWork(d, s) => StartWorkKeepsEpoch(run, d, s);
    case StartingOperation(d, s, nonce) => StartOperationKeepsEpoch(sha, run, d, s, nonce);
    case Releasing(d) => ReleaseKeepsEpoch(run, d);
  }

  lemma ReserveKeepsEpoch(run: Run, nonce: string)
    requires ReserveNext(run, nonce).Success?
    ensures ReserveNext(run, nonce).value.0.progress == run.progress
  {
    hide RecordsValid, CaptureDependencies;
  }

  lemma StartWorkKeepsEpoch(run: Run, d: Dispatch, s: Session)
    requires StartWork(run, d, s).Success?
    ensures StartWork(run, d, s).value.progress == run.progress
  {
    hide RecordsValid, CaptureDependencies;
  }

  lemma StartOperationKeepsEpoch(sha: Sha256, run: Run, d: Dispatch, s: Session, nonce: EffectJournal.Nonce)
    requires StartOperation(sha, run, d, s, nonce).Success?
    ensures StartOperation(sha, run, d, s, nonce).value.0.progress == run.progress
  {
    hide RecordsValid, CaptureDependencies, EffectJournal.Admit;
  }

  lemma ReleaseKeepsEpoch(run: Run, d: Dispatch)
    requires ReleaseUnstarted(run, d).Success?
    ensures ReleaseUnstarted(run, d).value.progress == run.progress
  {
    hide RecordsValid;
  }

  lemma WorkKeepsEpoch(run: Run, d: Dispatch, result: WorkResult)
    requires CompleteWork(run, d, result).Success?
    ensures CompleteWork(run, d, result).value.progress.epoch == run.progress.epoch
  {
    hide RecordsValid, CaptureDependencies, ReadyNode;
  }

  lemma SubmitMovesEpoch(run: Run, d: Dispatch, result: EffectResult, resulting: Option<string>)
    requires SubmitOperation(run, d, result, resulting).Success?
    ensures var next := SubmitOperation(run, d, result, resulting).value;
            next.progress.epoch != run.progress.epoch ==>
              exists i | 0 <= i < |run.records| && i < |next.records| ::
                && ChangesAt(run, next, i) && next.records[i].state == Completed
                && next.records[i].dispatch.unit.kind == OperationUnit
  {
    hide RecordsValid, CaptureDependencies, ReadyNode, ProvesSuccess, RequireCurrent;
    var next := SubmitOperation(run, d, result, resulting).value;
    if next.progress.epoch != run.progress.epoch {
      var i := RequireRecord(run, d, Started).value;
      MadeRunIs(run, i, CompletedRecord(run.records[i], result.identity), next.progress);
      assert ChangesAt(run, next, i);
    }
  }

  /** A sound snapshot reopens to its own run, and is accepted when read back within the bounds. */
  lemma SnapshotReopens(s: Snapshot)
    requires SnapshotSound(s)
    ensures Reopen(s, s.run.progress) == Success(s.run)
  {
    SoundIsRestored(s.run);
    hide LedgerSound, Restore;
  }

  lemma {:induction false} CountBounds(records: seq<DispatchRecord>)
    ensures |records| <= RetainedTransitions(records)
    ensures RetainedTransitions(records) == 0 <==> records == []
    decreases |records|
  {
    if records != [] {
      CountBounds(records[..|records| - 1]);
    }
  }

  lemma BoundsFollow(p: Progress, policy: Policy, records: seq<DispatchRecord>)
    requires RecordsValid(p, policy, records)
    ensures BoundsValid(policy, records) <==> WithinBounds(records)
  {
    hide ShapeValid, ActiveValid, ReadyUnit, ActiveOf, WithinBounds, Capacity, Distinct;
  }

  lemma NotCompleteAndFailed(p: Progress)
    ensures !(Complete(p) && HasFailed(p))
  {
    hide Seed;
  }

  /** A snapshot of a sound run is accepted when it is read back, exactly within the counting bounds. */
  lemma SnapshotIsAccepted(s: Snapshot)
    requires SnapshotSound(s)
    ensures ShapeAccepts(s) <==> WithinBounds(s.run.records)
  {
    CountBounds(s.run.records);
    SoundIsValid(s.run);
    BoundsFollow(s.run.progress, s.run.policy, s.run.records);
    NotCompleteAndFailed(s.run.progress);
    hide LedgerSound, RecordsValid, BoundsValid, WithinBounds, Complete, HasFailed;
  }
}
