/**
  Reachable heads from which a drive's own result can be refused: a started operation behind a
  reservation, and a fresh run whose graph has a cycle besides a unit that is ready.
 */
module RunnerWitnesses {
  import opened Wrappers
  import opened Identity
  import opened Progression
  import opened Dispatch
  import opened DispatchLaws
  import opened RunJournal
  import opened RunJournalLaws
  import opened Runner
  import opened RunnerDrive
  import opened RunnerLiveness
  import opened RunnerRecovery
  import opened RunnerAnswers
  import opened RunnerLimits
  import EffectJournal

  function Alone(kind: UnitKind, n: NodeId): Unit {
    Unit(kind, n, {n})
  }

  // ---------------------------------------------------------------- a cycle and a free unit

  /** Node 0 is free; nodes 1 and 2 require each other. */
  function CyclicGraph(): Graph {
    Graph(map[0 := Build, 1 := Build, 2 := Build], [Edge(Requirement, 1, 2), Edge(Requirement, 2, 1)],
          [Alone(ConstructionUnit, 0), Alone(ConstructionUnit, 1), Alone(ConstructionUnit, 2)])
  }

  lemma CyclicGraphIsWellFormed()
    ensures WellFormed(CyclicGraph())
  {
    var g := CyclicGraph();
    assert g.units[0].members == {0} && g.units[1].members == {1} && g.units[2].members == {2};
    forall n | n in g.nodes
      ensures Covers(g.units, n)
    {
      assert n in g.units[n].members;
    }
  }

  lemma CycleIsOpen(epoch: string)
    ensures OpenCycle(Progress(CyclicGraph(), epoch, map[]))
  {
    var p := Progress(CyclicGraph(), epoch, map[]);
    var rest: set<nat> := {1, 2};
    assert External(p.graph.units[2], p.graph.edges[0]) && External(p.graph.units[1], p.graph.edges[1]);
    assert ArcBetween(p, 1, 2) && ArcBetween(p, 2, 1);
    assert Awaits(p, rest, 1) && Awaits(p, rest, 2);
    StuckHasCycle(p, rest);
  }

  lemma FreeUnitIsReady(epoch: string, policy: Policy)
    ensures !NothingReady(Run(Progress(CyclicGraph(), epoch, map[]), policy, []))
  {
    var run := Run(Progress(CyclicGraph(), epoch, map[]), policy, []);
    assert ReadyUnit(run.progress, run.progress.graph.units[0]);
  }

  /** The head of this fresh run can be driven into a result that the check refuses. */
  lemma CyclicDriveIsRejected(sha: Sha256, epoch: string, policy: Policy, journal: string)
    requires policy.constructions > 0 && policy.checks > 0
    ensures WellFormed(CyclicGraph())
    ensures !NeverRejected(sha, FreshDisk(CyclicGraph(), epoch, policy, journal).head)
  {
    var g := CyclicGraph();
    CyclicGraphIsWellFormed();
    FreshDiskIsSound(g, epoch, policy, journal);
    CycleIsOpen(epoch);
    FreeUnitIsReady(epoch, policy);
    NoEvidenceNoFailure(g, epoch);
    hide LedgerSound, OpenCycle, NothingReady, HasFailed, NeverRejected, WellFormed;
    NeverRejectedExactly(sha, FreshDisk(g, epoch, policy, journal).head);
  }

  // ---------------------------------------------------------------- two active dispatches

  /** A construction and an operation that have nothing to do with each other. */
  function FreeGraph(): Graph {
    Graph(map[0 := Build, 1 := Install], [], [Alone(ConstructionUnit, 0), Alone(OperationUnit, 1)])
  }

  lemma FreeGraphIsWellFormed()
    ensures WellFormed(FreeGraph())
  {
    var g := FreeGraph();
    assert g.units[0].members == {0} && g.units[1].members == {1};
    assert UnitMembers(g.edges, 1) == {1};
    forall n | n in g.nodes
      ensures Covers(g.units, n)
    {
      assert n in g.units[n].members;
    }
  }

  function Begun(epoch: string): Run {
    Run(Progress(FreeGraph(), epoch, map[]), Policy(1, 1), [])
  }

  lemma FirstIsSelected(epoch: string)
    ensures FirstSelectable(Begun(epoch), FreeGraph().units) == Some(FreeGraph().units[0])
  {
    var run := Begun(epoch);
    assert ActiveOf(run.records, ConstructionUnit) == {};
    assert ReadyUnit(run.progress, FreeGraph().units[0]);
    assert Selectable(run, FreeGraph().units[0]);
  }

  lemma SecondIsSelected(epoch: string, d: Dispatch)
    requires d.unit == FreeGraph().units[0]
    ensures FirstSelectable(Begun(epoch).(records := [ReservedRecord(d)]), FreeGraph().units)
            == Some(FreeGraph().units[1])
  {
    var run := Begun(epoch).(records := [ReservedRecord(d)]);
    var units := FreeGraph().units;
    assert Active(run.records[0]) && 0 in units[0].members;
    assert OverlapsActive(run.records, units[0]);
    assert !Selectable(run, units[0]);
    assert ActiveOf(run.records, OperationUnit) == {};
    assert ReadyUnit(run.progress, units[1]);
    assert !OverlapsActive(run.records, units[1]);
    assert Selectable(run, units[1]);
    assert units[1..] == [units[1]];
  }

  /** Reserving at a run whose selection is known. */
  lemma ReserveSelected(run: Run, nonce: string, u: Unit) returns (d: Dispatch)
    requires LedgerSound(run) && !NonceUsed(run, nonce) && !Stopped(run)
    requires FirstSelectable(run, run.progress.graph.units) == Some(u)
    ensures d.unit == u && d.nonce == nonce && d.reservedState == run.progress.epoch
    ensures ReserveNext(run, nonce) == Success((run.(records := run.records + [ReservedRecord(d)]), Some(d)))
    ensures LedgerSound(run.(records := run.records + [ReservedRecord(d)]))
  {
    hide LedgerSound, Selectable, HasFailed, ReserveUnit;
    ReserveKeeps(run, nonce, u);
    d := ReserveUnit(run, nonce, u).value.1.value;
  }

  lemma OneMore(sha: Sha256, run: Run, commands: seq<Command>, c: Command)
    ensures History(sha, run, commands + [c]) == After(sha, History(sha, run, commands), c)
    decreases |commands|
  {
    hide Apply;
    if commands == [] {
      assert commands + [c] == [c] && [c][1..] == [];
    } else {
      assert (commands + [c])[0] == commands[0] && (commands + [c])[1..] == commands[1..] + [c];
      OneMore(sha, After(sha, run, commands[0]), commands[1..], c);
    }
  }

  /** The snapshot that some commands lead to. */
  predicate ReachedBy(sha: Sha256, epoch: string, commands: seq<Command>, s: Snapshot) {
    SnapshotSound(s) && s.run == History(sha, Begun(epoch), commands) && s.sequence == |commands|
  }

  lemma OneMoreIsReached(sha: Sha256, epoch: string, commands: seq<Command>, s: Snapshot, c: Command, next: Run)
    returns (n: Snapshot)
    requires ReachedBy(sha, epoch, commands, s) && |commands| < 3 && Apply(sha, s.run, c) == Success(next)
    requires next != s.run
    ensures ReachedBy(sha, epoch, commands + [c], n) && n.run == next
  {
    hide Apply, SnapshotSound;
    n := Journaled(sha, s, c, next);
    OneMore(sha, Begun(epoch), commands, c);
  }

  lemma BeginIsReached(sha: Sha256, epoch: string, journal: string) returns (s: Snapshot)
    ensures ReachedBy(sha, epoch, [], s) && s.run == Begun(epoch) && LedgerSound(s.run) && !Stopped(s.run)
  {
    FreeGraphIsWellFormed();
    FreshDiskIsSound(FreeGraph(), epoch, Policy(1, 1), journal);
    NoEvidenceNoFailure(FreeGraph(), epoch);
    s := FreshDisk(FreeGraph(), epoch, Policy(1, 1), journal).head;
    hide LedgerSound, HasFailed, WellFormed;
  }

  /** Both units are reserved. */
  lemma BothAreReserved(sha: Sha256, epoch: string, journal: string) returns (s: Snapshot, d0: Dispatch, d1: Dispatch)
    ensures ReachedBy(sha, epoch, [Reserve("a"), Reserve("b")], s)
    ensures s.run == Begun(epoch).(records := [ReservedRecord(d0), ReservedRecord(d1)])
    ensures d0.nonce == "a" && d1.nonce == "b" && d1.unit == FreeGraph().units[1] && d1.reservedState == epoch
    ensures LedgerSound(s.run) && !Stopped(s.run)
  {
    hide LedgerSound, HasFailed, ReserveNext, ReachedBy, FirstSelectable;
    s := BeginIsReached(sha, epoch, journal);
    FirstIsSelected(epoch);
    d0 := ReserveSelected(s.run, "a", FreeGraph().units[0]);
    var run1 := Begun(epoch).(records := [ReservedRecord(d0)]);
    assert s.run.records + [ReservedRecord(d0)] == run1.records;
    s := OneMoreIsReached(sha, epoch, [], s, Reserve("a"), run1);
    assert [] + [Reserve("a")] == [Reserve("a")];
    SecondIsSelected(epoch, d0);
    d1 := ReserveSelected(run1, "b", FreeGraph().units[1]);
    var run2 := Begun(epoch).(records := [ReservedRecord(d0), ReservedRecord(d1)]);
    assert run1.records + [ReservedRecord(d1)] == run2.records;
    s := OneMoreIsReached(sha, epoch, [Reserve("a")], s, Reserve("b"), run2);
    assert [Reserve("a")] + [Reserve("b")] == [Reserve("a"), Reserve("b")];
  }

  lemma BehindIs(records: seq<DispatchRecord>)
    requires |records| == 2 && Active(records[0]) && StartedOperation(records[1])
    ensures OperationBehind(records)
  {}

  /** Three commands lead from a fresh run to a started operation behind a reservation. */
  lemma TwoActiveIsReached(sha: Sha256, epoch: string, journal: string, digest: Digest, nonce: EffectJournal.Nonce)
    returns (commands: seq<Command>, s: Snapshot)
    ensures ReachedBy(sha, epoch, commands, s) && HasRoom(s)
    ensures OperationBehind(s.run.records) && !Stopped(s.run)
  {
    hide LedgerSound, HasFailed, ReachedBy, StartOperation, EffectJournal.Admit, SessionFor, OperationBehind;
    var d0: Dispatch, d1: Dispatch;
    s, d0, d1 := BothAreReserved(sha, epoch, journal);
    var run := s.run;
    var session := SessionFor(d1.unit, epoch, digest);
    SessionBinds(d1.unit, epoch, digest);
    assert LastIs(run, [ReservedRecord(d0)], ReservedRecord(d1));
    StartOperationServes(sha, run, [ReservedRecord(d0)], d1, session, nonce);
    var started := StartOperation(sha, run, d1, session, nonce).value.0;
    assert started.records[1].state == Started && run.records[1].state == Reserved;
    s := OneMoreIsReached(sha, epoch, [Reserve("a"), Reserve("b")], s, StartingOperation(d1, session, nonce), started);
    commands := [Reserve("a"), Reserve("b")] + [StartingOperation(d1, session, nonce)];
    BehindIs(started.records);
    ReachedHasRoom(sha, epoch, commands, s);
  }

  lemma ReachedHasRoom(sha: Sha256, epoch: string, commands: seq<Command>, s: Snapshot)
    requires ReachedBy(sha, epoch, commands, s) && |commands| == 3 && |s.run.records| == 2
    requires s.run.progress.graph == FreeGraph() && s.run.policy == Policy(1, 1)
    ensures HasRoom(s)
  {
    hide SnapshotSound, History;
    assert |FreeGraph().units[0].members| == 1 && |FreeGraph().units[1].members| == 1;
  }

  /** From such a head some drive returns a result that the check refuses. */
  lemma TwoActiveDriveIsRejected(sha: Sha256, epoch: string, journal: string, digest: Digest,
                                 nonce: EffectJournal.Nonce)
    returns (commands: seq<Command>, s: Snapshot)
    ensures ReachedBy(sha, epoch, commands, s) && !NeverRejected(sha, s)
  {
    commands, s := TwoActiveIsReached(sha, epoch, journal, digest, nonce);
    hide SnapshotSound, OperationBehind, HasFailed, NeverRejected, HasRoom, History;
    NeverRejectedExactly(sha, s);
  }
}
