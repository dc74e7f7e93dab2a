/**
  The order in which the ledger lets units run: each node in at most one started dispatch,
  each start after its predecessors completed, and none after a failure.
 */
module DispatchSchedule {
  import opened Wrappers
  import opened Identity
  import opened Progression
  import opened Dispatch
  import opened DispatchLaws
  import opened RunJournal
  import opened RunJournalLaws
  import ProgressionSweeps

  // ---------------------------------------------------------------- evidence is that of completed records

  lemma CoverExtends(records: seq<DispatchRecord>, r: DispatchRecord, n: NodeId)
    requires Covered(records, n)
    ensures Covered(records + [r], n)
  {
    var k :| 0 <= k < |records| && Completes(records[k], n);
    assert Completes((records + [r])[k], n);
  }

  lemma ReplacedCover(records: seq<DispatchRecord>, i: nat, r: DispatchRecord, n: NodeId)
    requires i < |records| && records[i].state != Completed && Covered(records, n)
    ensures Covered(records[i := r], n)
  {
    var k :| 0 <= k < |records| && Completes(records[k], n);
    assert Completes(records[i := r][k], n);
  }

  /** Completed records stay. */
  lemma TransitionKeepsCover(run: Run, next: Run, n: NodeId)
    requires Transits(run, next) && Covered(run.records, n)
    ensures Covered(next.records, n)
  {
    if Appends(run, next) {
      assert next.records == run.records + [next.records[|run.records|]];
      CoverExtends(run.records, next.records[|run.records|], n);
    } else {
      var i :| 0 <= i < |run.records| && ChangesAt(run, next, i);
      ReplacedCover(run.records, i, next.records[i], n);
    }
  }

  /** Where a command adds evidence, it completes a record with it. */
  predicate EvidenceExplained(run: Run, next: Run) {
    forall n | n in next.progress.evidence :: n in run.progress.evidence || Covered(next.records, n)
  }

  lemma CompletionExplains(run: Run, i: nat, evidence: string, q: Progress)
    requires i < |run.records| && ReplaceRecord(run, i, CompletedRecord(run.records[i], evidence), q).Success?
    requires q.evidence.Keys == run.progress.evidence.Keys + {run.records[i].dispatch.unit.primary}
    ensures EvidenceExplained(run, ReplaceRecord(run, i, CompletedRecord(run.records[i], evidence), q).value)
  {
    hide RecordsValid;
    var r := CompletedRecord(run.records[i], evidence);
    assert Completes(run.records[i := r][i], r.dispatch.unit.primary);
  }

  lemma CompleteWorkExplains(run: Run, d: Dispatch, result: WorkResult)
    requires CompleteWork(run, d, result).Success?
    ensures EvidenceExplained(run, CompleteWork(run, d, result).value)
  {
    hide MakeRun, RequireCurrent, RecordsValid, ReadyNode, EvidenceExplained, ReplaceRecord;
    var i := RequireRecord(run, d, Started).value;
    CompletionExplains(run, i, result.identity, AdvanceWork(run.progress, result).value);
  }

  lemma SubmitExplains(run: Run, d: Dispatch, result: EffectResult, resulting: Option<string>)
    requires SubmitOperation(run, d, result, resulting).Success?
    ensures EvidenceExplained(run, SubmitOperation(run, d, result, resulting).value)
  {
    var i := RequireRecord(run, d, Started).value;
    hide RequireCurrent, RecordsValid, ReadyNode, ProvesSuccess;
    if Terminates(result.outcome) {
      hide ReplaceRecord, EvidenceExplained;
      CompletionExplains(run, i, result.identity, AdvanceEffect(run.progress, result, resulting).value);
    }
  }

  lemma CommandExplains(sha: Sha256, run: Run, c: Command)
    requires Apply(sha, run, c).Success?
    ensures EvidenceExplained(run, Apply(sha, run, c).value)
  {
    hide StartWork, StartOperation, ReleaseUnstarted, CompleteWork, SubmitOperation, ReserveNext;
    match c
    case Reserve(nonce) => ReserveKeepsEpoch(run, nonce);
    case StartingWork(d, s) => StartWorkKeepsEpoch(run, d, s);
    case StartingOperation(d, s, nonce) => StartOperationKeepsEpoch(sha, run, d, s, nonce);
    case Releasing(d) => ReleaseKeepsEpoch(run, d);
    case CompletingWork(d, result) => CompleteWorkExplains(run, d, result);
    case Submitting(d, result, resulting) => SubmitExplains(run, d, result, resulting);
  }

  lemma CommandKeepsRecorded(sha: Sha256, run: Run, c: Command)
    requires LedgerSound(run) && Recorded(run)
    ensures Recorded(After(sha, run, c))
  {
    hide Apply, LedgerSound, Transits, Covered;
    if Apply(sha, run, c).Success? {
      var next := Apply(sha, run, c).value;
      CommandExplains(sha, run, c);
      CommandTransits(sha, run, c);
      forall n | n in next.progress.evidence
        ensures Covered(next.records, n)
      {
        if next != run && Covered(run.records, n) {
          TransitionKeepsCover(run, next, n);
        }
      }
    }
  }

  lemma {:induction false} HistoryIsRecorded(sha: Sha256, run: Run, commands: seq<Command>)
    requires LedgerSound(run) && Recorded(run)
    ensures Recorded(History(sha, run, commands)) && LedgerSound(History(sha, run, commands))
    decreases |commands|
  {
    hide LedgerSound, Recorded, Apply;
    if commands != [] {
      CommandKeeps(sha, run, commands[0]);
      CommandKeepsRecorded(sha, run, commands[0]);
      HistoryIsRecorded(sha, After(sha, run, commands[0]), commands[1..]);
    }
  }

  // ---------------------------------------------------------------- once, and after the predecessors

  /** In every history each node belongs to at most one started or completed dispatch. */
  lemma NodeStartsOnce(sha: Sha256, p: Progress, policy: Policy, commands: seq<Command>, i: nat, j: nat, n: NodeId)
    requires ProgressSound(p)
    requires var records := History(sha, Run(p, policy, []), commands).records;
             && i < j < |records| && Launched(records[i]) && Launched(records[j])
             && n in records[i].dispatch.unit.members
    ensures n !in History(sha, Run(p, policy, []), commands).records[j].dispatch.unit.members
  {
    BeginIsSound(p, policy);
    HistoryIsSound(sha, Run(p, policy, []), commands);
  }

  predicate CompletedSuccessfully(run: Run, i: nat, n: NodeId) {
    && i < |run.records| && run.records[i].state == Completed && n in run.records[i].dispatch.unit.members
    && run.records[i].dispatch.unit.primary in run.progress.evidence
    && run.progress.evidence[run.records[i].dispatch.unit.primary].succeeded
  }

  lemma OneUnitPerPrimary(g: Graph, u: Unit, v: Unit)
    requires WellFormed(g) && u in g.units && v in g.units && u.primary == v.primary
    ensures u == v
  {
    hide WellFormed;
    ProgressionSweeps.PrimaryInside(g, u);
    ProgressionSweeps.PrimaryInside(g, v);
    ProgressionSweeps.UnitIsFound(g, u, u.primary);
    ProgressionSweeps.UnitIsFound(g, v, v.primary);
  }

  lemma PredecessorCompleted(run: Run, i: nat, n: NodeId)
    requires LedgerSound(run) && Recorded(run) && i < |run.records| && Launched(run.records[i])
    requires n in ExternalPredecessors(run.progress.graph, run.records[i].dispatch.unit)
    ensures n in run.progress.graph.nodes
    ensures run.progress.graph.nodes[n] == Retain
            || exists j :: 0 <= j < |run.records| && CompletedSuccessfully(run, j, n)
  {
    var p := run.progress;
    assert RecordSound(p, run.records[i]);
    hide AllSatisfied, CaptureDependencies, ShapeValid;
    if p.graph.nodes[n] != Retain {
      var v :| v in p.graph.units && n in v.members && v.primary in p.evidence && p.evidence[v.primary].succeeded;
      assert Covered(run.records, v.primary);
      var j :| 0 <= j < |run.records| && Completes(run.records[j], v.primary);
      assert RecordSound(p, run.records[j]);
      OneUnitPerPrimary(p.graph, v, run.records[j].dispatch.unit);
      assert CompletedSuccessfully(run, j, n);
    }
  }

  /** In every history of a fresh run, whatever started had all its predecessors retained or completed. */
  lemma StartsFollowPredecessors(sha: Sha256, g: Graph, epoch: string, policy: Policy, commands: seq<Command>, i: nat,
                                 n: NodeId)
    requires WellFormed(g)
    requires var run := History(sha, Run(Progress(g, epoch, map[]), policy, []), commands);
             && i < |run.records| && Launched(run.records[i])
             && n in ExternalPredecessors(run.progress.graph, run.records[i].dispatch.unit)
    ensures var run := History(sha, Run(Progress(g, epoch, map[]), policy, []), commands);
            && n in run.progress.graph.nodes
            && (run.progress.graph.nodes[n] == Retain
                || exists j :: 0 <= j < |run.records| && CompletedSuccessfully(run, j, n))
  {
    BeginIsSound(Progress(g, epoch, map[]), policy);
    HistoryIsRecorded(sha, Run(Progress(g, epoch, map[]), policy, []), commands);
    PredecessorCompleted(History(sha, Run(Progress(g, epoch, map[]), policy, []), commands), i, n);
  }

  // ---------------------------------------------------------------- failure containment

  /** A failed node is one of a unit that has evidence, which stays as it is. */
  lemma FailedNodeStays(p: Progress, q: Progress, w: Unit, n: NodeId)
    requires ProgressSound(p) && Adds(p, q, w) && n in p.graph.nodes && Seed(p.graph, p.evidence, n) == Failed
    ensures Seed(q.graph, q.evidence, n) == Failed
  {
    hide ProgressSound, EvidenceFits, EvidenceStatus;
  }

  lemma FailedStays(p: Progress, q: Progress, w: Unit)
    requires ProgressSound(p) && Adds(p, q, w) && HasFailed(p)
    ensures HasFailed(q)
  {
    hide Seed, ProgressSound;
    var n :| n in p.graph.nodes && Seed(p.graph, p.evidence, n) == Failed;
    FailedNodeStays(p, q, w, n);
  }

  /** Nothing was reserved or started between the two runs. */
  predicate NothingNew(run: Run, next: Run) {
    && |next.records| == |run.records|
    && forall i | 0 <= i < |run.records| :: Launched(next.records[i]) ==> Launched(run.records[i])
  }

  lemma StoppedCompleteWork(run: Run, d: Dispatch, result: WorkResult)
    requires LedgerSound(run) && Stopped(run) && CompleteWork(run, d, result).Success?
    ensures var next := CompleteWork(run, d, result).value; Stopped(next) && NothingNew(run, next)
  {
    hide LedgerSound, MakeRun, RequireCurrent, RecordsValid, AdvanceWork, HasFailed;
    var i := RequireRecord(run, d, Started).value;
    MadeRunIs(run, i, CompletedRecord(run.records[i], result.identity), AdvanceWork(run.progress, result).value);
    WorkAdds(run, i, result);
    SoundProgress(run);
    FailedStays(run.progress, AdvanceWork(run.progress, result).value, d.unit);
  }

  lemma SoundProgress(run: Run)
    requires LedgerSound(run)
    ensures ProgressSound(run.progress)
  {}

  lemma StoppedSubmit(run: Run, d: Dispatch, result: EffectResult, resulting: Option<string>)
    requires LedgerSound(run) && Stopped(run) && SubmitOperation(run, d, result, resulting).Success?
    ensures var next := SubmitOperation(run, d, result, resulting).value; Stopped(next) && NothingNew(run, next)
  {
    hide LedgerSound, MakeRun, RequireCurrent, RecordsValid, AdvanceEffect, HasFailed;
    var i := RequireRecord(run, d, Started).value;
    var r := run.records[i];
    if Terminates(result.outcome) {
      MadeRunIs(run, i, CompletedRecord(r, result.identity), AdvanceEffect(run.progress, result, resulting).value);
      EffectAdds(run, i, result, resulting);
      SoundProgress(run);
      FailedStays(run.progress, AdvanceEffect(run.progress, result, resulting).value, d.unit);
    } else {
      MadeRunIs(run, i, DispatchRecord(r.dispatch, Started, r.session, r.effectAttempt,
                                       r.observations + [result.identity], None), run.progress);
    }
  }

  lemma StoppedRelease(run: Run, d: Dispatch)
    requires Stopped(run) && ReleaseUnstarted(run, d).Success?
    ensures var next := ReleaseUnstarted(run, d).value; Stopped(next) && NothingNew(run, next)
  {
    hide MakeRun, RecordsValid, HasFailed;
    var i := RequireRecord(run, d, Reserved).value;
    MadeRunIs(run, i, ReleasedRecord(d), run.progress);
  }

  lemma StoppedCommand(sha: Sha256, run: Run, c: Command)
    requires LedgerSound(run) && Stopped(run)
    ensures Stopped(After(sha, run, c)) && NothingNew(run, After(sha, run, c))
  {
    hide StartWork, StartOperation, ReleaseUnstarted, CompleteWork, SubmitOperation, ReserveNext, LedgerSound, Stopped;
    if Apply(sha, run, c).Success? {
      match c
      case Reserve(nonce) => ReserveTransits(run, nonce);
      case StartingWork(d, s) => StartWorkTransits(run, d, s);
      case StartingOperation(d, s, nonce) => StartOperationTransits(sha, run, d, s, nonce);
      case Releasing(d) => StoppedRelease(run, d);
      case CompletingWork(d, result) => StoppedCompleteWork(run, d, result);
      case Submitting(d, result, resulting) => StoppedSubmit(run, d, result, resulting);
    }
  }

  /** Once a unit has failed, no history reserves or starts anything more. */
  lemma {:induction false} NothingStartsAfterFailure(sha: Sha256, run: Run, commands: seq<Command>)
    requires LedgerSound(run) && Stopped(run)
    ensures Stopped(History(sha, run, commands)) && NothingNew(run, History(sha, run, commands))
    decreases |commands|
  {
    hide LedgerSound, Stopped, Apply;
    if commands != [] {
      CommandKeeps(sha, run, commands[0]);
      StoppedCommand(sha, run, commands[0]);
      NothingStartsAfterFailure(sha, After(sha, run, commands[0]), commands[1..]);
    }
  }

  // ---------------------------------------------------------------- one dispatch does not disturb another

  /** Whatever is done to other dispatches, an active one stays ready on the same evidence and epoch. */
  lemma ActiveStaysCurrent(sha: Sha256, run: Run, c: Command, i: nat)
    requires LedgerSound(run) && i < |run.records| && Active(run.records[i])
    requires var next := After(sha, run, c); i < |next.records| && next.records[i] == run.records[i]
    ensures RequireCurrent(run, run.records[i].dispatch) == Success(())
    ensures RequireCurrent(After(sha, run, c), run.records[i].dispatch) == Success(())
  {
    CommandKeeps(sha, run, c);
    hide LedgerSound, Apply, RequireCurrent;
    CurrentIsSound(run, run.records[i].dispatch, i);
    CurrentIsSound(After(sha, run, c), run.records[i].dispatch, i);
  }
}
