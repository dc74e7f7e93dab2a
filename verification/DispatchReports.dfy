/**
  The schedule in terms of the commands themselves: a start is accepted only after the success of every
  predecessor was reported, only once, and never after a failure was reported.
 */
module DispatchReports {
  import opened Wrappers
  import opened Identity
  import opened Progression
  import opened Dispatch
  import opened DispatchLaws
  import opened DispatchSchedule
  import opened DispatchOutcomes
  import opened RunJournal
  import opened RunJournalLaws

  /** The run that the first `m` commands make. */
  function Before(sha: Sha256, run: Run, commands: seq<Command>, m: nat): Run
    requires m <= |commands|
  {
    History(sha, run, commands[..m])
  }

  predicate Accepted(sha: Sha256, run: Run, commands: seq<Command>, m: nat) {
    m < |commands| && Apply(sha, Before(sha, run, commands, m), commands[m]).Success?
  }

  lemma {:induction false} HistoryExtends(sha: Sha256, run: Run, commands: seq<Command>, c: Command)
    ensures History(sha, run, commands + [c]) == After(sha, History(sha, run, commands), c)
    decreases |commands|
  {
    hide Apply;
    if commands == [] {
      assert [c][1..] == [];
    } else {
      assert (commands + [c])[0] == commands[0] && (commands + [c])[1..] == commands[1..] + [c];
      HistoryExtends(sha, After(sha, run, commands[0]), commands[1..], c);
    }
  }

  lemma BeforeNext(sha: Sha256, run: Run, commands: seq<Command>, m: nat)
    requires m < |commands|
    ensures Before(sha, run, commands, m + 1) == After(sha, Before(sha, run, commands, m), commands[m])
    ensures Accepted(sha, run, commands, m) ==>
              Apply(sha, Before(sha, run, commands, m), commands[m]) == Success(Before(sha, run, commands, m + 1))
  {
    hide History, Apply;
    assert commands[..m + 1] == commands[..m] + [commands[m]];
    HistoryExtends(sha, run, commands[..m], commands[m]);
  }

  lemma BeforeIsSound(sha: Sha256, run: Run, commands: seq<Command>, m: nat)
    requires LedgerSound(run) && Recorded(run) && m <= |commands|
    ensures var before := Before(sha, run, commands, m);
            LedgerSound(before) && Recorded(before) && before.progress.graph == run.progress.graph
  {
    hide LedgerSound, Recorded;
    HistoryIsRecorded(sha, run, commands[..m]);
    PolicyStays(sha, run, commands[..m]);
  }

  // ---------------------------------------------------------------- evidence is what was reported

  /** One command leaves evidence as it is, and adds only what it reports. */
  lemma EvidenceIsReported(sha: Sha256, run: Run, c: Command, n: NodeId)
    requires LedgerSound(run) && Apply(sha, run, c).Success? && n in Apply(sha, run, c).value.progress.evidence
    ensures var next := Apply(sha, run, c).value;
            if n in run.progress.evidence then next.progress.evidence[n] == run.progress.evidence[n]
            else
              && (c.CompletingWork? || c.Submitting?)
              && c.dispatch.unit.primary == n && c.dispatch.unit in run.progress.graph.units
              && (next.progress.evidence[n].succeeded ==> ReportsSuccess(c, c.dispatch))
  {
    if (c.CompletingWork? || c.Submitting?)
       && (ReportsSuccess(c, c.dispatch) || ReportsFailure(c, c.dispatch)) {
      var i := AcceptedAt(sha, run, c, c.dispatch);
      ReportIsEvidence(sha, run, c, c.dispatch, i);
      assert RecordSound(run.progress, run.records[i]);
      assert run.records[i].dispatch.unit.primary !in run.progress.evidence;
      hide Apply, RecordSound, LedgerSound, ReportsFailure;
    } else {
      QuietCommand(sha, run, c);
    }
  }

  lemma QuietCommand(sha: Sha256, run: Run, c: Command)
    requires Apply(sha, run, c).Success?
    requires c.CompletingWork? || c.Submitting? ==>
               !ReportsSuccess(c, c.dispatch) && !ReportsFailure(c, c.dispatch)
    ensures Apply(sha, run, c).value.progress == run.progress
  {
    hide StartWork, StartOperation, ReleaseUnstarted, CompleteWork, SubmitOperation, ReserveNext;
    match c
    case Reserve(nonce) => ReserveKeepsEpoch(run, nonce);
    case StartingWork(d, s) => StartWorkKeepsEpoch(run, d, s);
    case StartingOperation(d, s, nonce) => StartOperationKeepsEpoch(sha, run, d, s, nonce);
    case Releasing(d) => ReleaseKeepsEpoch(run, d);
    case CompletingWork(d, result) =>
    case Submitting(d, result, resulting) => SubmitTransits(run, d, result, resulting);
  }

  /** Successful evidence goes back to an accepted report of success. */
  lemma {:induction false} SuccessWasReported(sha: Sha256, run: Run, commands: seq<Command>, m: nat, n: NodeId)
    returns (k: nat)
    requires LedgerSound(run) && Recorded(run) && n !in run.progress.evidence && m <= |commands|
    requires var evidence := Before(sha, run, commands, m).progress.evidence; n in evidence && evidence[n].succeeded
    ensures k < m && Accepted(sha, run, commands, k) && (commands[k].CompletingWork? || commands[k].Submitting?)
    ensures ReportsSuccess(commands[k], commands[k].dispatch)
    ensures commands[k].dispatch.unit.primary == n && commands[k].dispatch.unit in run.progress.graph.units
    decreases m
  {
    hide LedgerSound, Recorded, Apply, ReportsSuccess;
    assert commands[..0] == [];
    if m > 0 {
      hide Before;
      BeforeNext(sha, run, commands, m - 1);
      BeforeIsSound(sha, run, commands, m - 1);
      var was := Before(sha, run, commands, m - 1);
      if Accepted(sha, run, commands, m - 1) {
        EvidenceIsReported(sha, was, commands[m - 1], n);
      }
      if n in was.progress.evidence {
        k := SuccessWasReported(sha, run, commands, m - 1, n);
      } else {
        k := m - 1;
      }
    }
  }

  // ---------------------------------------------------------------- every start is earned

  predicate Enters(g: Graph, n: NodeId, u: Unit) {
    exists i | 0 <= i < |g.edges| :: g.edges[i].before == n && n !in u.members && g.edges[i].after in u.members
  }

  lemma StartedPredecessors(sha: Sha256, run: Run, c: Command, d: Dispatch, n: NodeId) returns (v: Unit)
    requires LedgerSound(run) && Recorded(run) && Starts(c, d) && Apply(sha, run, c).Success?
    requires Enters(run.progress.graph, n, d.unit)
    requires n in run.progress.graph.nodes ==> run.progress.graph.nodes[n] != Retain
    ensures v in run.progress.graph.units && n in v.members
    ensures v.primary in run.progress.evidence && run.progress.evidence[v.primary].succeeded
  {
    var i := AcceptedAt(sha, run, c, d);
    var next := Apply(sha, run, c).value;
    CommandKeeps(sha, run, c);
    StartedRecordIs(sha, run, c, d, i);
    QuietCommand(sha, run, c);
    var e :| 0 <= e < |run.progress.graph.edges| && run.progress.graph.edges[e].before == n && n !in d.unit.members
             && run.progress.graph.edges[e].after in d.unit.members;
    assert run.progress.graph.edges[e] in run.progress.graph.edges && External(d.unit, run.progress.graph.edges[e]);
    assert n in ExternalPredecessors(next.progress.graph, d.unit);
    assert RecordSound(next.progress, next.records[i]);
    hide Apply, CaptureDependencies, AllSatisfied, ShapeValid;
    v :| v in run.progress.graph.units && n in v.members && v.primary in run.progress.evidence
         && run.progress.evidence[v.primary].succeeded;
  }

  lemma StartedRecordIs(sha: Sha256, run: Run, c: Command, d: Dispatch, i: nat)
    requires LedgerSound(run) && Starts(c, d) && Apply(sha, run, c).Success? && StandsAt(run, i, d, Reserved)
    ensures StandsAt(Apply(sha, run, c).value, i, d, Started)
  {
    hide LedgerSound, StartWork, StartOperation, IsFor, EffectJournal.Admit, NothingFailed;
    match c
    case StartingWork(_, s) => StartWorkExactly(run, d, s, i);
    case StartingOperation(_, s, nonce) => StartOperationExactly(sha, run, d, s, nonce, i);
  }

  /**
    In every history of a fresh run: before a start is accepted, the success of each unit that has a node
    with an edge into the started unit was reported and accepted, unless that node is retained.
   */
  lemma StartsAreEarned(sha: Sha256, g: Graph, epoch: string, policy: Policy, commands: seq<Command>, m: nat,
                        d: Dispatch, n: NodeId) returns (k: nat)
    requires WellFormed(g) && Accepted(sha, Run(Progress(g, epoch, map[]), policy, []), commands, m)
    requires Starts(commands[m], d) && Enters(g, n, d.unit) && (n in g.nodes ==> g.nodes[n] != Retain)
    ensures k < m && Accepted(sha, Run(Progress(g, epoch, map[]), policy, []), commands, k)
    ensures commands[k].CompletingWork? || commands[k].Submitting?
    ensures ReportsSuccess(commands[k], commands[k].dispatch) && n in commands[k].dispatch.unit.members
  {
    var run := Run(Progress(g, epoch, map[]), policy, []);
    BeginIsSound(Progress(g, epoch, map[]), policy);
    BeforeIsSound(sha, run, commands, m);
    hide LedgerSound, Recorded, Before, Apply, Enters, ReportsSuccess;
    var v := StartedPredecessors(sha, Before(sha, run, commands, m), commands[m], d, n);
    k := SuccessWasReported(sha, run, commands, m, v.primary);
    OneUnitPerPrimary(g, v, commands[k].dispatch.unit);
  }

  // ---------------------------------------------------------------- nothing starts after a failure

  lemma {:induction false} StoppedStays(sha: Sha256, run: Run, commands: seq<Command>, k: nat, m: nat)
    requires LedgerSound(run) && Recorded(run) && k <= m <= |commands| && Stopped(Before(sha, run, commands, k))
    ensures Stopped(Before(sha, run, commands, m))
    decreases m
  {
    hide LedgerSound, Recorded, Before, Stopped, Apply;
    if k < m {
      StoppedStays(sha, run, commands, k, m - 1);
      BeforeIsSound(sha, run, commands, m - 1);
      BeforeNext(sha, run, commands, m - 1);
      StoppedCommand(sha, Before(sha, run, commands, m - 1), commands[m - 1]);
    }
  }

  /** Once the failure of any unit was accepted, every later start is refused and every reservation is empty. */
  lemma FailureEndsStarts(sha: Sha256, g: Graph, epoch: string, policy: Policy, commands: seq<Command>, k: nat,
                          failed: Dispatch, m: nat)
    requires WellFormed(g) && k < m < |commands|
    requires Accepted(sha, Run(Progress(g, epoch, map[]), policy, []), commands, k)
    requires ReportsFailure(commands[k], failed)
    ensures var run := Run(Progress(g, epoch, map[]), policy, []);
            && (forall d :: Starts(commands[m], d) ==> !Accepted(sha, run, commands, m))
            && (commands[m].Reserve? ==> Before(sha, run, commands, m + 1) == Before(sha, run, commands, m))
  {
    var run := Run(Progress(g, epoch, map[]), policy, []);
    BeginIsSound(Progress(g, epoch, map[]), policy);
    assert Recorded(run);
    hide LedgerSound, Before, ReportsFailure, Recorded, Stopped, Apply;
    BeforeIsSound(sha, run, commands, k);
    BeforeNext(sha, run, commands, k);
    ReportedFailureStops(sha, Before(sha, run, commands, k), commands[k], failed);
    StoppedStays(sha, run, commands, k + 1, m);
    StoppedRefuses(sha, Before(sha, run, commands, m), commands[m]);
    BeforeNext(sha, run, commands, m);
  }

  lemma StoppedRefuses(sha: Sha256, run: Run, c: Command)
    requires Stopped(run)
    ensures forall d :: Starts(c, d) ==> Apply(sha, run, c).Failure?
    ensures c.Reserve? ==> After(sha, run, c) == run
  {
    hide Stopped, RequireRecord, RequireCurrent, ReplaceRecord, Binds;
  }

  // ---------------------------------------------------------------- no node is started twice

  /** A dispatch that was started stays so, released by nobody. */
  lemma LaunchStays(sha: Sha256, run: Run, c: Command, i: nat)
    requires LedgerSound(run) && i < |run.records| && Launched(run.records[i])
    ensures var next := After(sha, run, c);
            i < |next.records| && next.records[i].dispatch == run.records[i].dispatch && Launched(next.records[i])
  {
    hide LedgerSound, Apply;
    if Apply(sha, run, c).Success? {
      CommandTransits(sha, run, c);
      var next := After(sha, run, c);
      if next != run {
        if Appends(run, next) {
          assert next.records[..|run.records|][i] == next.records[i];
        }
      }
    }
  }

  lemma {:induction false} LaunchedStays(sha: Sha256, run: Run, commands: seq<Command>, k: nat, m: nat, i: nat)
    requires LedgerSound(run) && Recorded(run) && k <= m <= |commands|
    requires var records := Before(sha, run, commands, k).records; i < |records| && Launched(records[i])
    ensures var was, records := Before(sha, run, commands, k).records, Before(sha, run, commands, m).records;
            i < |records| && Launched(records[i]) && records[i].dispatch == was[i].dispatch
    decreases m
  {
    hide LedgerSound, Recorded, Before, Apply, Launched;
    if k < m {
      LaunchedStays(sha, run, commands, k, m - 1, i);
      BeforeIsSound(sha, run, commands, m - 1);
      BeforeNext(sha, run, commands, m - 1);
      LaunchStays(sha, Before(sha, run, commands, m - 1), commands[m - 1], i);
    }
  }

  /** Two accepted starts of one history are of units without a common node. */
  lemma StartsAreDisjoint(sha: Sha256, p: Progress, policy: Policy, commands: seq<Command>, k: nat, m: nat,
                          d: Dispatch, e: Dispatch)
    requires ProgressSound(p) && p.evidence == map[] && k < m
    requires Accepted(sha, Run(p, policy, []), commands, k) && Starts(commands[k], d)
    requires Accepted(sha, Run(p, policy, []), commands, m) && Starts(commands[m], e)
    ensures d.unit.members !! e.unit.members
  {
    var run := Run(p, policy, []);
    BeginIsSound(p, policy);
    assert Recorded(run);
    hide ProgressSound, RecordSound, Before, Recorded, Apply, Starts, ActiveOf, LedgerSound;
    BeforeIsSound(sha, run, commands, k);
    BeforeIsSound(sha, run, commands, m);
    var i := AcceptedAt(sha, Before(sha, run, commands, k), commands[k], d);
    StartedRecordIs(sha, Before(sha, run, commands, k), commands[k], d, i);
    BeforeNext(sha, run, commands, k);
    LaunchedStays(sha, run, commands, k + 1, m, i);
    var j := AcceptedAt(sha, Before(sha, run, commands, m), commands[m], e);
    LiveAreDisjoint(Before(sha, run, commands, m), i, j);
  }

  lemma LiveAreDisjoint(run: Run, i: nat, j: nat)
    requires LedgerSound(run) && i < |run.records| && j < |run.records| && i != j
    requires Live(run.records[i]) && Live(run.records[j])
    ensures run.records[i].dispatch.unit.members !! run.records[j].dispatch.unit.members
  {
    hide ProgressSound, RecordSound, ActiveOf;
  }
}
