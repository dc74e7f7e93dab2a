/**
  A series in which one operation is attempted twice: its start is live and not durable when a
  step recovers it, and a power loss takes the start back.
 */
module RunnerLostStart {
  import opened Wrappers
  import opened Identity
  import opened Progression
  import opened Dispatch
  import opened DispatchLaws
  import opened RunJournal
  import opened RunJournalLaws
  import opened Runner
  import opened RunnerLaws
  import opened RunnerDrive
  import opened RunnerLiveness
  import opened RunnerAnswers
  import opened RunnerStorage
  import EffectJournal

  // ---------------------------------------------------------------- one operation

  function Installation(): Unit {
    Unit(OperationUnit, 0, {0})
  }

  function OneOperation(): Graph {
    Graph(map[0 := Install], [], [Installation()])
  }

  lemma OneOperationIsWellFormed()
    ensures WellFormed(OneOperation())
  {
    var g := OneOperation();
    assert g.units[0].members == {0};
    assert UnitMembers(g.edges, 0) == {0};
    forall n | n in g.nodes
      ensures Covers(g.units, n)
    {
      assert n in g.units[n].members;
    }
  }

  /** While nothing is active, the operation is selected. */
  lemma OperationIsSelected(run: Run, epoch: string)
    requires run.progress == Progress(OneOperation(), epoch, map[]) && Idle(run.records)
    ensures FirstSelectable(run, run.progress.graph.units) == Some(Installation()) && !NothingReady(run)
    ensures !Stopped(run)
  {
    assert ActiveOf(run.records, OperationUnit) == {};
    assert ReadyUnit(run.progress, run.progress.graph.units[0]);
    assert Selectable(run, run.progress.graph.units[0]);
    NoEvidenceNoFailure(OneOperation(), epoch);
  }

  /** Everything is at hand, and whoever calls a driver hears nothing from it. */
  ghost function Silent(nonce: string, epoch: string, digest: Digest, attemptNonce: EffectJournal.Nonce): Answers {
    Answers(true, nonce, Some(SessionFor(Installation(), epoch, digest)), attemptNonce, Granted, true, None, None, true,
            false, RecoveryEscapes, None, None)
  }

  // ---------------------------------------------------------------- the steps of the series

  /** The operation is reserved, admitted and started, and its driver is called. */
  lemma OperationIsStarted(sha: Sha256, s: Snapshot, nonce: string, epoch: string, digest: Digest,
                           attemptNonce: EffectJournal.Nonce)
    returns (d: Dispatch, h1: Snapshot, h2: Snapshot, attempt: EffectJournal.Record)
    requires SnapshotSound(s) && s.run.progress == Progress(OneOperation(), epoch, map[]) && Idle(s.run.records)
    requires !NonceUsed(s.run, nonce) && s.sequence + 2 < MAXIMUM_SEQUENCE
    ensures var a := Silent(nonce, epoch, digest, attemptNonce);
            && Advance(sha, s, a).writes == [Headed(h1), Admitted(attempt), Headed(h2)]
            && CallOf(sha, s, a) == Some(DriverCall(d, 3))
    ensures d.nonce == nonce && d.unit == Installation()
    ensures SnapshotSound(h1) && h1.run == s.run.(records := s.run.records + [ReservedRecord(d)])
    ensures h1.sequence == s.sequence + 1
    ensures SnapshotSound(h2)
    ensures h2.run == s.run.(records := s.run.records + [StartedRecord(d, digest, Some(attempt.attempt))])
  {
    hide LedgerSound, HasFailed, StartOperation, EffectJournal.Admit, SessionFor, ReserveUnit, Selectable, Reopen,
      Transits, Idle,
      NothingReady, NonceUsed, Successor, Apply, LastIs, Binds, ShapeAccepts, RetainedTransitions;
    var a := Silent(nonce, epoch, digest, attemptNonce);
    OperationIsSelected(s.run, epoch);
    SnapshotReopens(s);
    IdleHasNoActive(s.run.records);
    d, h1 := ReservedHead(sha, s, nonce, epoch);
    SessionBinds(Installation(), epoch, digest);
    NewNonceIsNewDispatch(s.run, d);
    h2, attempt := StartedHead(sha, h1, s.run.records, d, epoch, digest, attemptNonce);
  }

  lemma ReservedHead(sha: Sha256, s: Snapshot, nonce: string, epoch: string) returns (d: Dispatch, h: Snapshot)
    requires SnapshotSound(s) && s.run.progress == Progress(OneOperation(), epoch, map[]) && Idle(s.run.records)
    requires !NonceUsed(s.run, nonce) && s.sequence < MAXIMUM_SEQUENCE
    ensures ReserveNext(s.run, nonce) == Success((h.run, Some(d))) && Successor(s, h.run) == Success(h)
    ensures SnapshotSound(h)
    ensures h.run == s.run.(records := s.run.records + [ReservedRecord(d)]) && h.sequence == s.sequence + 1
    ensures d.nonce == nonce && d.unit == Installation() && d.reservedState == epoch
  {
    hide LedgerSound, HasFailed, Selectable, ReserveUnit, Transits, Idle, NothingReady, RetainedTransitions;
    OperationIsSelected(s.run, epoch);
    ReserveKeeps(s.run, nonce, Installation());
    d := ReserveUnit(s.run, nonce, Installation()).value.1.value;
    var next := s.run.(records := s.run.records + [ReservedRecord(d)]);
    assert Apply(sha, s.run, Reserve(nonce)) == Success(next);
    assert |next.records| == |s.run.records| + 1;
    h := Journaled(sha, s, Reserve(nonce), next);
  }

  lemma StartedHead(sha: Sha256, s: Snapshot, earlier: seq<DispatchRecord>, d: Dispatch, epoch: string, digest: Digest,
                    attemptNonce: EffectJournal.Nonce)
    returns (h: Snapshot, attempt: EffectJournal.Record)
    requires SnapshotSound(s) && LastIs(s.run, earlier, ReservedRecord(d)) && !Stopped(s.run)
    requires s.sequence < MAXIMUM_SEQUENCE
    requires d.unit == Installation() && d.reservedState == epoch
    ensures var session := SessionFor(Installation(), epoch, digest);
            StartOperation(sha, s.run, d, session, attemptNonce) == Success((h.run, attempt))
    ensures Successor(s, h.run) == Success(h) && SnapshotSound(h)
    ensures h.run == s.run.(records := earlier + [StartedRecord(d, digest, Some(attempt.attempt))])
  {
    hide LedgerSound, HasFailed, StartOperation, EffectJournal.Admit, SessionFor, Transits, RetainedTransitions;
    var session := SessionFor(Installation(), epoch, digest);
    SessionBinds(Installation(), epoch, digest);
    StartOperationServes(sha, s.run, earlier, d, session, attemptNonce);
    var started := StartOperation(sha, s.run, d, session, attemptNonce).value;
    attempt := started.1;
    assert started.0.records[|earlier|].state == Started && s.run.records[|earlier|].state == Reserved;
    h := Journaled(sha, s, StartingOperation(d, session, attemptNonce), started.0);
  }

  lemma OnlyOneIsFirst(records: seq<DispatchRecord>, r: DispatchRecord)
    requires records == [r] && Active(r)
    ensures FirstActive(records) == Some(r)
  {}

  /** A start is recovered: its driver is called before anything is written. */
  lemma StartIsRecovered(sha: Sha256, s: Snapshot, d: Dispatch, attempt: string, digest: Digest, a: Answers)
    requires SnapshotSound(s) && s.run.records == [StartedRecord(d, digest, Some(attempt))] && d.unit == Installation()
    requires a.equipped && !a.needsDrivers && a.recovery == RecoveryEscapes
    ensures Advance(sha, s, a).writes == [] && CallOf(sha, s, a) == Some(DriverCall(d, 0)) && FreshlyStarted(s)
  {
    hide SnapshotSound, Reopen;
    SnapshotReopens(s);
    OnlyOneIsFirst(s.run.records, StartedRecord(d, digest, Some(attempt)));
  }

  /** A reservation is released, and nobody is called. */
  lemma ReservationIsReleased(sha: Sha256, s: Snapshot, d: Dispatch, a: Answers) returns (h: Snapshot)
    requires SnapshotSound(s) && s.run.records == [ReservedRecord(d)] && s.sequence < MAXIMUM_SEQUENCE
    ensures Advance(sha, s, a).writes == [Headed(h)] && CallOf(sha, s, a) == None
    ensures SnapshotSound(h) && h.run == s.run.(records := [ReleasedRecord(d)]) && h.sequence == s.sequence + 1
  {
    hide LedgerSound, Reopen, ReleaseUnstarted, Transits, RetainedTransitions, Successor;
    SnapshotReopens(s);
    OnlyOneIsFirst(s.run.records, ReservedRecord(d));
    ReleaseSucceeds(s.run, 0);
    var next := s.run.(records := [ReleasedRecord(d)]);
    assert s.run.records[0 := ReleasedRecord(d)] == next.records;
    h := Journaled(sha, s, Releasing(d), next);
  }

  // ---------------------------------------------------------------- the series

  /**
    A step killed inside the append of the start; a step that recovers the start; a power loss; a
    step that finds the reservation and releases it; a step that starts the operation anew.
   */
  ghost function LostStart(epoch: string, digest: Digest, attemptNonce: EffectJournal.Nonce): seq<RunHappening> {
    var again := Silent("b", epoch, digest, attemptNonce);
    [Drove(Leg(Silent("a", epoch, digest, attemptNonce), 2), true), Drove(Leg(again, 0), false), LostPower,
     Drove(Leg(again, 1), false), Drove(Leg(again, 3), false)]
  }

  lemma KilledAtThird(sha: Sha256, s: RunState, a: Answers, h1: Snapshot, h2: Snapshot, attempt: EffectJournal.Record,
                      d: Dispatch)
    requires s.storage.durable == s.storage.disk.head
    requires Advance(sha, s.storage.disk.head, a).writes == [Headed(h1), Admitted(attempt), Headed(h2)]
    requires CallOf(sha, s.storage.disk.head, a) == Some(DriverCall(d, 3))
    ensures var n := Happens(sha, s, Drove(Leg(a, 2), true));
            n.storage.disk.head == h2 && n.storage.durable == h1 && n.performed == s.performed
    ensures var n := Happens(sha, s, Drove(Leg(a, 3), false)); n.performed == s.performed + [Performance(d, h2)]
  {
    hide Advance, CallOf;
    var st := s.storage;
    var writes: seq<Write> := [Headed(h1), Admitted(attempt), Headed(h2)];
    var v := writes[..2];
    assert v[1..][0] == writes[1] && v[1..][1..] == [];
    assert StoredAll(st, v) == StoredAll(Stored(st, writes[0]), v[1..]);
    assert StoredAll(Stored(st, writes[0]), v[1..]) == Stored(Stored(st, writes[0]), writes[1]);
    ThirdIsDurable(st, writes);
  }

  lemma NothingWritten(sha: Sha256, s: RunState, a: Answers, d: Dispatch)
    requires Advance(sha, s.storage.disk.head, a).writes == []
    requires CallOf(sha, s.storage.disk.head, a) == Some(DriverCall(d, 0))
    ensures Happens(sha, s, Drove(Leg(a, 0), false))
            == s.(performed := s.performed + [Performance(d, s.storage.durable)])
  {
    hide Advance, CallOf;
    NothingStored(s.storage);
  }

  lemma OneWritten(sha: Sha256, s: RunState, a: Answers, h: Snapshot)
    requires Advance(sha, s.storage.disk.head, a).writes == [Headed(h)] && CallOf(sha, s.storage.disk.head, a) == None
    ensures var n := Happens(sha, s, Drove(Leg(a, 1), false));
            n.storage.disk.head == h && n.storage.durable == h && n.performed == s.performed
  {
    hide Advance, CallOf;
    var writes := [Headed(h)];
    assert writes[..1] == writes && writes[1..] == [];
    assert StoredAll(s.storage, writes) == StoredAll(Stored(s.storage, Headed(h)), []);
  }

  lemma FiveHappen(sha: Sha256, s: RunState, hs: seq<RunHappening>)
    requires |hs| == 5
    ensures var s3 := Happens(sha, Happens(sha, Happens(sha, s, hs[0]), hs[1]), hs[2]);
            RunAfter(sha, s, hs) == Happens(sha, Happens(sha, s3, hs[3]), hs[4])
  {
    hide Happens;
    var s1 := Happens(sha, s, hs[0]);
    var s2 := Happens(sha, s1, hs[1]);
    var s3 := Happens(sha, s2, hs[2]);
    var s4 := Happens(sha, s3, hs[3]);
    assert hs[1..][1..] == hs[2..] && hs[2..][1..] == hs[3..] && hs[3..][1..] == hs[4..] && hs[4..][1..] == [];
    assert RunAfter(sha, s, hs) == RunAfter(sha, s1, hs[1..]);
    assert RunAfter(sha, s1, hs[1..]) == RunAfter(sha, s2, hs[2..]);
    assert RunAfter(sha, s2, hs[2..]) == RunAfter(sha, s3, hs[3..]);
    assert RunAfter(sha, s3, hs[3..]) == RunAfter(sha, s4, hs[4..]);
    assert RunAfter(sha, s4, hs[4..]) == RunAfter(sha, Happens(sha, s4, hs[4]), []);
  }

  lemma BeginIsFresh(epoch: string, journal: string) returns (s: Snapshot)
    ensures s == FreshDisk(OneOperation(), epoch, Policy(1, 1), journal).head && SnapshotSound(s) && s.sequence == 0
    ensures s.run == Run(Progress(OneOperation(), epoch, map[]), Policy(1, 1), [])
  {
    OneOperationIsWellFormed();
    FreshDiskIsSound(OneOperation(), epoch, Policy(1, 1), journal);
    s := FreshDisk(OneOperation(), epoch, Policy(1, 1), journal).head;
    hide LedgerSound, WellFormed;
  }

  /** Two dispatches of the one operation have their effects performed, one after the other. */
  lemma LostStartRunsTwice(sha: Sha256, epoch: string, journal: string, digest: Digest,
                           attemptNonce: EffectJournal.Nonce)
    returns (d: Dispatch, e: Dispatch, backing: Snapshot, last: Snapshot)
    ensures WellFormed(OneOperation()) && d.unit == e.unit == Installation() && d != e
    ensures var s := FreshState(OneOperation(), epoch, Policy(1, 1), journal);
            var hs := LostStart(epoch, digest, attemptNonce);
            && RunAfter(sha, s, hs).performed == [Performance(d, backing), Performance(e, last)]
            && backing.run.records == [ReservedRecord(d)] && !Cautious(sha, s, hs)
  {
    hide SnapshotSound, Happens, RunAfter, Advance, CallOf, Silent, Idle, NonceUsed, Cautious, WellFormed, Backs,
      StorageSound;
    OneOperationIsWellFormed();
    var s0, hs := FreshState(OneOperation(), epoch, Policy(1, 1), journal), LostStart(epoch, digest, attemptNonce);
    var head := BeginIsFresh(epoch, journal);
    var first, again := Silent("a", epoch, digest, attemptNonce), Silent("b", epoch, digest, attemptNonce);
    NothingYet(head.run);
    var h2, attempt, h3, h4, second;
    d, backing, h2, attempt := OperationIsStarted(sha, head, "a", epoch, digest, attemptNonce);
    KilledAtThird(sha, s0, first, backing, h2, attempt, d);
    var s1 := Happens(sha, s0, hs[0]);
    assert backing.run.records == [ReservedRecord(d)]
        && h2.run.records == [StartedRecord(d, digest, Some(attempt.attempt))];
    SilentIs("b", epoch, digest, attemptNonce);
    StartIsRecovered(sha, h2, d, attempt.attempt, digest, again);
    NothingWritten(sha, s1, again, d);
    var s2 := Happens(sha, s1, hs[1]);
    var s3 := Happens(sha, s2, hs[2]);
    assert s3.storage.disk.head == backing && s3.storage.durable == backing && s3.performed == s2.performed by {
      LossIs(sha, s2);
    }
    h3 := ReservationIsReleased(sha, backing, d, again);
    OneWritten(sha, s3, again, h3);
    var s4 := Happens(sha, s3, hs[3]);
    ReleasedIsIdle(h3.run, d);
    e, h4, last, second := OperationIsStarted(sha, h3, "b", epoch, digest, attemptNonce);
    KilledAtThird(sha, s4, again, h4, last, second, e);
    FiveHappen(sha, s0, hs);
    FirstIsUnbacked(sha, epoch, journal, hs, d, backing);
  }

  lemma LossIs(sha: Sha256, s: RunState)
    ensures Happens(sha, s, LostPower) == s.(storage := s.storage.(disk := s.storage.disk.(head := s.storage.durable)))
  {}

  lemma NothingYet(run: Run)
    requires run.records == []
    ensures Idle(run.records) && !NonceUsed(run, "a")
  {}

  lemma ReleasedIsIdle(run: Run, d: Dispatch)
    requires run.records == [ReleasedRecord(d)] && d.nonce == "a"
    ensures Idle(run.records) && !NonceUsed(run, "b")
  {}

  lemma SilentIs(nonce: string, epoch: string, digest: Digest, attemptNonce: EffectJournal.Nonce)
    ensures var a := Silent(nonce, epoch, digest, attemptNonce);
            a.equipped && !a.needsDrivers && a.recovery == RecoveryEscapes
  {}

  lemma FirstIsUnbacked(sha: Sha256, epoch: string, journal: string, hs: seq<RunHappening>, d: Dispatch,
                        backing: Snapshot)
    requires WellFormed(OneOperation()) && backing.run.records == [ReservedRecord(d)]
    requires var s := FreshState(OneOperation(), epoch, Policy(1, 1), journal);
             |RunAfter(sha, s, hs).performed| > 0 && RunAfter(sha, s, hs).performed[0] == Performance(d, backing)
    ensures !Cautious(sha, FreshState(OneOperation(), epoch, Policy(1, 1), journal), hs)
  {
    hide RunAfter, FreshState, Cautious, WellFormed;
    StartsAreDurableExactly(sha, OneOperation(), epoch, Policy(1, 1), journal, hs);
    assert !Backs(backing, d);
  }
}
