/**
  Progress: over a graph whose units can be ranked a run never stalls, so every drive that
  ends has a valid result, and with answering drivers it completes in as many steps as
  there are units.
 */
module RunnerProgress {
  import opened Wrappers
  import opened Identity
  import opened Progression
  import opened Dispatch
  import opened DispatchLaws
  import opened RunJournal
  import opened Runner
  import opened RunnerLaws
  import opened RunnerSteps
  import opened RunnerDrive
  import ProgressionSweeps

  /** The unit graph is acyclic: every edge between units leads to a higher rank. */
  ghost predicate Ranked(g: Graph, rank: NodeId -> nat) {
    forall u, v | u in g.units && v in g.units && Reaches(g, v, u) :: rank(v.primary) < rank(u.primary)
  }

  // ---------------------------------------------------------------- something is ready

  function OpenUnits(units: seq<Unit>, evidence: map<NodeId, Evidence>): set<nat> {
    set i | 0 <= i < |units| && Open(evidence, units[i])
  }

  lemma {:induction false} LeastOpen(units: seq<Unit>, evidence: map<NodeId, Evidence>, rank: NodeId -> nat,
                                     open: set<nat>)
    returns (least: nat)
    requires open != {} && open <= OpenUnits(units, evidence)
    ensures least in open && forall k | k in open :: rank(units[least].primary) <= rank(units[k].primary)
    decreases |open|
  {
    least :| least in open;
    if open != {least} {
      var rest := open - {least};
      assert open == rest + {least};
      var other := LeastOpen(units, evidence, rank, rest);
      if rank(units[other].primary) < rank(units[least].primary) {
        least := other;
      }
    }
  }

  /** Without a failure, a node is satisfied unless its unit is still open. */
  lemma UnsatisfiedIsOpen(p: Progress, n: NodeId)
    requires ProgressSound(p) && !HasFailed(p) && n in p.graph.nodes
    ensures Seed(p.graph, p.evidence, n) == Satisfied
            || exists i | 0 <= i < |p.graph.units| ::
                  Open(p.evidence, p.graph.units[i]) && n in p.graph.units[i].members
  {
    if p.graph.nodes[n] != Retain {
      assert Covers(p.graph.units, n);
      var u := FindUnit(p.graph.units, n).value;
      var i :| 0 <= i < |p.graph.units| && p.graph.units[i] == u;
      if u.primary in p.evidence && !p.evidence[u.primary].succeeded {
        FailureShows(p, u);
      }
    }
  }

  lemma PredecessorIsSatisfied(p: Progress, rank: NodeId -> nat, least: nat, i: nat)
    requires ProgressSound(p) && !HasFailed(p) && Ranked(p.graph, rank) && least < |p.graph.units|
    requires forall k | k in OpenUnits(p.graph.units, p.evidence) ::
               rank(p.graph.units[least].primary) <= rank(p.graph.units[k].primary)
    requires i < |p.graph.edges| && External(p.graph.units[least], p.graph.edges[i])
    ensures Seed(p.graph, p.evidence, p.graph.edges[i].before) == Satisfied
  {
    var n := p.graph.edges[i].before;
    UnsatisfiedIsOpen(p, n);
    hide HasFailed, Seed, EvidenceSound, DisjointUnits, UnitRight;
    if Seed(p.graph, p.evidence, n) != Satisfied {
      var k :| 0 <= k < |p.graph.units| && Open(p.evidence, p.graph.units[k]) && n in p.graph.units[k].members;
      ReachingIsLower(p, rank, least, k, i);
    }
  }

  lemma ReachingIsLower(p: Progress, rank: NodeId -> nat, least: nat, k: nat, i: nat)
    requires Ranked(p.graph, rank) && least < |p.graph.units| && k < |p.graph.units|
    requires Open(p.evidence, p.graph.units[k])
    requires i < |p.graph.edges| && External(p.graph.units[least], p.graph.edges[i])
    requires p.graph.edges[i].before in p.graph.units[k].members
    ensures k in OpenUnits(p.graph.units, p.evidence)
    ensures rank(p.graph.units[k].primary) < rank(p.graph.units[least].primary)
  {
    assert Reaches(p.graph, p.graph.units[k], p.graph.units[least]);
    hide External;
  }

  lemma LeastIsReady(p: Progress, rank: NodeId -> nat, least: nat)
    requires ProgressSound(p) && !HasFailed(p) && Ranked(p.graph, rank)
    requires least in OpenUnits(p.graph.units, p.evidence)
    requires forall k | k in OpenUnits(p.graph.units, p.evidence) ::
               rank(p.graph.units[least].primary) <= rank(p.graph.units[k].primary)
    ensures ReadyUnit(p, p.graph.units[least])
  {
    hide HasFailed, Seed, EvidenceSound, DisjointUnits, UnitRight, Ranked, External;
    forall i | 0 <= i < |p.graph.edges| && External(p.graph.units[least], p.graph.edges[i])
      ensures Seed(p.graph, p.evidence, p.graph.edges[i].before) == Satisfied
    {
      PredecessorIsSatisfied(p, rank, least, i);
    }
  }

  /** Work remains exactly while some unit is open. */
  lemma CompleteMeansClosed(p: Progress)
    requires ProgressSound(p) && !HasFailed(p)
    ensures Complete(p) <==> OpenUnits(p.graph.units, p.evidence) == {}
  {
    assert forall i | 0 <= i < |p.graph.units| ::
      Open(p.evidence, p.graph.units[i]) ==> i in OpenUnits(p.graph.units, p.evidence);
    if OpenUnits(p.graph.units, p.evidence) == {} {
      forall n | n in p.graph.nodes
        ensures Seed(p.graph, p.evidence, n) == Satisfied
      {
        UnsatisfiedIsOpen(p, n);
      }
    } else {
      var i :| i in OpenUnits(p.graph.units, p.evidence);
      var u := p.graph.units[i];
      ProgressionSweeps.PrimaryInside(p.graph, u);
      ProgressionSweeps.UnitIsFound(p.graph, u, u.primary);
      assert Seed(p.graph, p.evidence, u.primary) == Pending;
    }
  }

  lemma SomethingIsReady(run: Run, rank: NodeId -> nat)
    requires ProgressSound(run.progress) && !Stopped(run) && !Complete(run.progress) && Ranked(run.progress.graph, rank)
    ensures !NothingReady(run)
  {
    var p := run.progress;
    CompleteMeansClosed(p);
    var least := LeastOpen(p.graph.units, p.evidence, rank, OpenUnits(p.graph.units, p.evidence));
    LeastIsReady(p, rank, least);
    hide ReadyUnit, ProgressSound, HasFailed, Complete, Ranked;
    assert ReadyUnit(p, p.graph.units[least]);
  }

  // ---------------------------------------------------------------- no drive stalls

  lemma QuiescentComesFromAdvance(sha: Sha256, disk: RunDisk, a: Answers, step: Step)
    requires DiskSound(disk) && CheckedAdvance(sha, disk.head, a).result == Success(step)
    requires step.disposition == Quiescent
    ensures step.run == disk.head.run && (Stopped(disk.head.run) || NothingReady(disk.head.run))
  {
    hide DiskSound, Reopen, Stopped, NothingReady, AdvanceResultValid, ReserveAndExecute, ReconcileActive;
    ReservedIsNotQuiescent(sha, disk.head, a);
    if FirstActive(disk.head.run.records).Some? {
      ReconciledIsNotQuiescent(disk.head, FirstActive(disk.head.run.records).value, a);
    }
  }

  lemma ReconciledIsNotQuiescent(s: Snapshot, r: DispatchRecord, a: Answers)
    ensures var result := ReconcileActive(s, r, a).result; result.Success? ==> result.value.disposition != Quiescent
  {
    hide Successor, CompleteWork, SubmitOperation, ReleaseUnstarted;
  }

  lemma IncompleteQuiescence(step: Step)
    ensures ClassifyStop(step) == QuiescentIncomplete ==> !Complete(step.run.progress) && !Stopped(step.run)
  {
    hide HasFailed, Complete, RetainsUncertainty;
  }

  lemma RankedStepDoesNotStall(sha: Sha256, disk: RunDisk, a: Answers, step: Step, rank: NodeId -> nat)
    requires DiskSound(disk) && Ranked(disk.head.run.progress.graph, rank)
    requires CheckedAdvance(sha, disk.head, a).result == Success(step)
    ensures ClassifyStop(step) != QuiescentIncomplete
  {
    hide DiskSound, CheckedAdvance, HasFailed, NothingReady, Complete, Ranked, LedgerSound, ProgressSound, ClassifyStop;
    ClassifyQuiescent(step);
    IncompleteQuiescence(step);
    DiskIsLedgerSound(disk);
    SoundLedgerProgress(disk.head.run);
    if ClassifyStop(step) == QuiescentIncomplete {
      QuiescentComesFromAdvance(sha, disk, a, step);
      if !Stopped(disk.head.run) && !Complete(disk.head.run.progress) {
        SomethingIsReady(disk.head.run, rank);
      }
    }
  }

  lemma SoundLedgerProgress(run: Run)
    requires LedgerSound(run)
    ensures ProgressSound(run.progress)
  {}

  lemma {:induction false} RankedDriveDoesNotStall(sha: Sha256, disk: RunDisk, bound: nat,
                                                   ask: (nat, Snapshot) -> Answers,
                                                   rank: NodeId -> nat)
    requires DiskSound(disk) && Ranked(disk.head.run.progress.graph, rank)
    ensures Drive(sha, disk.head, bound, ask).Ended? ==>
              Drive(sha, disk.head, bound, ask).disposition != QuiescentIncomplete
    decreases bound
  {
    hide DiskSound, CheckedAdvance, Advance, ClassifyStop, Ranked, Idle, Complete, HasFailed, PersistAll;
    if bound > 0 {
      var result := CheckedAdvance(sha, disk.head, ask(bound, disk.head)).result;
      if result.Success? {
        RankedStepDoesNotStall(sha, disk, ask(bound, disk.head), result.value, rank);
        StepFacts(sha, disk, ask(bound, disk.head), result.value);
        RankedDriveDoesNotStall(sha, PersistAll(disk, Advance(sha, disk.head, ask(bound, disk.head)).writes), bound - 1,
                                ask, rank);
      }
    }
  }

  /** Over an acyclic unit graph, whatever the drivers answer, a drive that ends returns a valid result. */
  lemma DriveIsNeverRejected(sha: Sha256, disk: RunDisk, bound: nat, ask: (nat, Snapshot) -> Answers,
                             rank: NodeId -> nat)
    requires DiskSound(disk) && Ranked(disk.head.run.progress.graph, rank) && bound > 0
    ensures var outcome := Drive(sha, disk.head, bound, ask);
            outcome.Ended? ==> DriveResultValid(bound, outcome.disposition, outcome.steps)
  {
    hide DiskSound, Drive, Ranked, DriveResultValid;
    DriveIsFair(sha, disk, bound, ask);
    RankedDriveDoesNotStall(sha, disk, bound, ask, rank);
  }
}
