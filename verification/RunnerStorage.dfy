/**
  The run journal under power losses: a head that an append left live need not be durable.  In
  every series both heads are sound; and the effects of a node belong to one dispatch, exactly
  as long as nobody recovers a start that is live and not durable.
 */
module RunnerStorage {
  import opened Wrappers
  import opened Identity
  import opened Progression
  import opened Dispatch
  import opened DispatchLaws
  import opened RunJournal
  import opened RunJournalLaws
  import opened Runner
  import opened RunnerLaws
  import opened RunnerSteps
  import opened RunnerDrive
  import opened RunnerProgress

  /** One attempt at a step, and how many of its writes are made before it is killed. */
  datatype Leg = Leg(answers: Answers, cut: nat)

  /** The disk with its live head, and the head that is durable. */
  datatype RunStorage = RunStorage(disk: RunDisk, durable: Snapshot)

  function Stored(st: RunStorage, w: Write): RunStorage {
    RunStorage(Persist(st.disk, w), if w.Headed? then w.snapshot else st.durable)
  }

  function StoredAll(st: RunStorage, writes: seq<Write>): RunStorage
    decreases |writes|
  {
    if writes == [] then st else StoredAll(Stored(st, writes[0]), writes[1..])
  }

  /** A head whose append is killed between the rename and the last sync. */
  function HalfStored(st: RunStorage, w: Write): RunStorage {
    if w.Headed? then RunStorage(Persist(st.disk, w), st.disk.head) else st
  }

  function Reached(leg: Leg, writes: seq<Write>): (k: nat)
    ensures k <= |writes|
  {
    if leg.cut <= |writes| then leg.cut else |writes|
  }

  function Driven(sha: Sha256, st: RunStorage, leg: Leg, renamed: bool): RunStorage {
    var writes := Advance(sha, st.disk.head, leg.answers).writes;
    var k := Reached(leg, writes);
    var stored := StoredAll(st, writes[..k]);
    if renamed && k < |writes| then HalfStored(stored, writes[k]) else stored
  }

  // ---------------------------------------------------------------- which dispatch a step works for

  /** The dispatch whose driver a step calls, and how many of its writes come before the call. */
  datatype DriverCall = DriverCall(dispatch: Dispatch, writes: nat)

  predicate RecoveryCalls(r: DispatchRecord, a: Answers) {
    && r.state == Started && a.equipped
    && if r.dispatch.unit.kind == OperationUnit then
         !(a.needsDrivers && a.access != Granted) && a.recovery != ExternalOnly
       else a.recovered.None?
  }

  function ExecutionCall(sha: Sha256, s: Snapshot, d: Dispatch, a: Answers): Option<DriverCall> {
    if a.session.None? then None
    else if d.unit.kind != OperationUnit then
      var started := StartWork(s.run, d, a.session.value);
      if started.Success? && Successor(s, started.value).Success? then Some(DriverCall(d, 3)) else None
    else
      var started := StartOperation(sha, s.run, d, a.session.value, a.attemptNonce);
      if a.access == Granted && started.Success? && Successor(s, started.value.0).Success? && a.leases
      then Some(DriverCall(d, 3)) else None
  }

  /** Along `Runner.Advance`: the recovery of a started dispatch, or the execution of a new one. */
  function CallOf(sha: Sha256, s: Snapshot, a: Answers): Option<DriverCall> {
    if Reopen(s, s.run.progress) != Success(s.run) then None
    else if FirstActive(s.run.records).Some? then
      var r := FirstActive(s.run.records).value;
      if RecoveryCalls(r, a) then Some(DriverCall(r.dispatch, 0)) else None
    else if Stopped(s.run) || NothingReady(s.run) then None
    else
      var reservation := ReserveNext(s.run, a.nonce);
      if reservation.Failure? || reservation.value.1.None? || !a.equipped
         || Successor(s, reservation.value.0).Failure? then None
      else ExecutionCall(sha, Successor(s, reservation.value.0).value, reservation.value.1.value, a)
  }

  // ---------------------------------------------------------------- series

  /** The effects of a dispatch were performed while this head was durable. */
  datatype Performance = Performance(dispatch: Dispatch, backing: Snapshot)

  datatype RunState = RunState(storage: RunStorage, performed: seq<Performance>)

  /**
    A step is driven until it is killed, between two writes or inside the append of a head; the
    live head becomes durable; or a power loss leaves the durable head.
   */
  datatype RunHappening = Drove(leg: Leg, renamed: bool) | WroteBack | LostPower

  function PerformedBy(sha: Sha256, st: RunStorage, leg: Leg): seq<Performance> {
    var writes := Advance(sha, st.disk.head, leg.answers).writes;
    match CallOf(sha, st.disk.head, leg.answers)
    case Some(call) =>
      if call.writes <= leg.cut && call.writes <= |writes|
      then [Performance(call.dispatch, StoredAll(st, writes[..call.writes]).durable)] else []
    case None => []
  }

  function Happens(sha: Sha256, s: RunState, h: RunHappening): RunState {
    var st := s.storage;
    match h
    case Drove(leg, renamed) => RunState(Driven(sha, st, leg, renamed), s.performed + PerformedBy(sha, st, leg))
    case WroteBack => s.(storage := st.(durable := st.disk.head))
    case LostPower => s.(storage := st.(disk := st.disk.(head := st.durable)))
  }

  function RunAfter(sha: Sha256, s: RunState, hs: seq<RunHappening>): RunState
    decreases |hs|
  {
    if hs == [] then s else RunAfter(sha, Happens(sha, s, hs[0]), hs[1..])
  }

  function FreshState(g: Graph, epoch: string, policy: Policy, journal: string): RunState {
    var disk := FreshDisk(g, epoch, policy, journal);
    RunState(RunStorage(disk, disk.head), [])
  }

  // ---------------------------------------------------------------- both heads are sound

  /** The live head is durable, or one transition ahead of the durable one. */
  predicate Near(s: Snapshot, n: Snapshot) {
    s == n || DurablySucceeds(s, n)
  }

  predicate StorageSound(st: RunStorage) {
    DiskSound(st.disk) && DiskSound(st.disk.(head := st.durable)) && Near(st.durable, st.disk.head)
  }

  lemma StoredIsSound(st: RunStorage, w: Write)
    requires StorageSound(st) && WriteLegal(st.disk, w) && DiskSound(Persist(st.disk, w))
    ensures StorageSound(Stored(st, w)) && StorageSound(HalfStored(st, w))
  {
    hide SnapshotSound, DurablySucceeds;
    if w.Headed? {
      assert Persist(st.disk, w).(head := st.disk.head) == st.disk;
    } else {
      var before, after := st.disk.(head := st.durable), Persist(st.disk, w).(head := st.durable);
      hide DiskSound;
      MoreIsStillBacked(before, after);
    }
  }

  lemma {:induction false} StoredAllIsSound(st: RunStorage, writes: seq<Write>)
    requires StorageSound(st) && Course(st.disk, writes)
    ensures StorageSound(StoredAll(st, writes)) && StoredAll(st, writes).disk == PersistAll(st.disk, writes)
    decreases |writes|
  {
    hide StorageSound, DiskSound, WriteLegal;
    if writes != [] {
      CourseStarts(st.disk, writes);
      StoredIsSound(st, writes[0]);
      StoredAllIsSound(Stored(st, writes[0]), writes[1..]);
    }
  }

  lemma CourseStarts(disk: RunDisk, writes: seq<Write>)
    requires Course(disk, writes) && writes != []
    ensures WriteLegal(disk, writes[0]) && DiskSound(Persist(disk, writes[0]))
    ensures Course(Persist(disk, writes[0]), writes[1..])
  {
    hide DiskSound, WriteLegal;
  }

  lemma {:induction false} CourseGoesOn(disk: RunDisk, writes: seq<Write>, k: nat)
    requires Course(disk, writes) && k <= |writes|
    ensures Course(disk, writes[..k]) && Course(PersistAll(disk, writes[..k]), writes[k..])
    decreases k
  {
    hide DiskSound, WriteLegal;
    if k > 0 {
      assert writes[..k][0] == writes[0] && writes[..k][1..] == writes[1..][..k - 1]
          && writes[1..][k - 1..] == writes[k..];
      CourseGoesOn(Persist(disk, writes[0]), writes[1..], k - 1);
    } else {
      assert writes[0..] == writes;
    }
  }

  lemma DrivenIsSound(sha: Sha256, st: RunStorage, leg: Leg, renamed: bool)
    requires StorageSound(st)
    ensures StorageSound(Driven(sha, st, leg, renamed))
  {
    hide DiskSound, Advance, Near, WriteLegal, Course, StepAt;
    var writes := Advance(sha, st.disk.head, leg.answers).writes;
    AdvanceIsGood(sha, st.disk, leg.answers);
    var k := Reached(leg, writes);
    CourseGoesOn(st.disk, writes, k);
    StoredAllIsSound(st, writes[..k]);
    if k < |writes| {
      CourseStarts(PersistAll(st.disk, writes[..k]), writes[k..]);
      StoredIsSound(StoredAll(st, writes[..k]), writes[k]);
    }
  }

  lemma HappeningKeepsSound(sha: Sha256, s: RunState, h: RunHappening)
    requires StorageSound(s.storage)
    ensures StorageSound(Happens(sha, s, h).storage)
  {
    hide DiskSound, Driven, PerformedBy;
    match h
    case Drove(leg, renamed) => DrivenIsSound(sha, s.storage, leg, renamed);
    case WroteBack =>
    case LostPower =>
  }

  /** Whatever is killed or lost, both heads are sound, and the live one is at most one transition ahead. */
  lemma {:induction false} SeriesKeepsSound(sha: Sha256, s: RunState, hs: seq<RunHappening>)
    requires StorageSound(s.storage)
    ensures StorageSound(RunAfter(sha, s, hs).storage)
    decreases |hs|
  {
    hide StorageSound, Happens;
    if hs != [] {
      HappeningKeepsSound(sha, s, hs[0]);
      SeriesKeepsSound(sha, Happens(sha, s, hs[0]), hs[1..]);
    }
  }

  lemma FreshIsSound(g: Graph, epoch: string, policy: Policy, journal: string)
    requires WellFormed(g)
    ensures StorageSound(FreshState(g, epoch, policy, journal).storage)
  {
    hide DiskSound, FreshDisk;
    FreshDiskIsSound(g, epoch, policy, journal);
  }

  // ---------------------------------------------------------------- what holds at every head of a series

  lemma {:induction false} SeriesKeepsGraph(sha: Sha256, s: RunState, hs: seq<RunHappening>)
    requires StorageSound(s.storage)
    ensures RunAfter(sha, s, hs).storage.disk.head.run.progress.graph == s.storage.disk.head.run.progress.graph
    decreases |hs|
  {
    hide StorageSound, Happens;
    if hs != [] {
      HappeningKeepsSound(sha, s, hs[0]);
      HappeningKeepsGraph(sha, s, hs[0]);
      SeriesKeepsGraph(sha, Happens(sha, s, hs[0]), hs[1..]);
    }
  }

  lemma HappeningKeepsGraph(sha: Sha256, s: RunState, h: RunHappening)
    requires StorageSound(s.storage)
    ensures Happens(sha, s, h).storage.disk.head.run.progress.graph == s.storage.disk.head.run.progress.graph
  {
    hide DiskSound, Driven, PerformedBy, Transits;
    match h
    case Drove(leg, renamed) => DrivenKeepsGraph(sha, s.storage, leg, renamed);
    case WroteBack =>
    case LostPower => NearHasGraph(s.storage);
  }

  lemma NearHasGraph(st: RunStorage)
    requires Near(st.durable, st.disk.head)
    ensures st.durable.run.progress.graph == st.disk.head.run.progress.graph
  {
    hide Appends, ChangesAt;
  }

  lemma DrivenKeepsGraph(sha: Sha256, st: RunStorage, leg: Leg, renamed: bool)
    requires StorageSound(st)
    ensures Driven(sha, st, leg, renamed).disk.head.run.progress.graph == st.disk.head.run.progress.graph
  {
    hide DiskSound, Advance, Near, WriteLegal, Course, StepAt, Persist;
    var writes := Advance(sha, st.disk.head, leg.answers).writes;
    AdvanceIsGood(sha, st.disk, leg.answers);
    var k := Reached(leg, writes);
    CourseGoesOn(st.disk, writes, k);
    StoredAllIsSound(st, writes[..k]);
    SequenceCountsHeads(st.disk, writes[..k]);
    if k < |writes| {
      var reached := PersistAll(st.disk, writes[..k]);
      CourseStarts(reached, writes[k..]);
      WriteCounts(reached, writes[k]);
      HalfIsPersisted(StoredAll(st, writes[..k]), writes[k]);
    }
  }

  lemma HalfIsPersisted(st: RunStorage, w: Write)
    ensures HalfStored(st, w).disk == st.disk || HalfStored(st, w).disk == Persist(st.disk, w)
  {}

  /** At every point of every series a started operation names an effect attempt that is admitted already. */
  lemma AdmissionPrecedesStart(sha: Sha256, g: Graph, epoch: string, policy: Policy, journal: string,
                               hs: seq<RunHappening>, i: nat)
    requires WellFormed(g)
    requires var s := RunAfter(sha, FreshState(g, epoch, policy, journal), hs).storage.disk.head;
             && i < |s.run.records| && Launched(s.run.records[i])
             && s.run.records[i].dispatch.unit.kind == OperationUnit
    ensures var disk := RunAfter(sha, FreshState(g, epoch, policy, journal), hs).storage.disk;
            disk.head.run.records[i].effectAttempt.Some?
            && disk.head.run.records[i].effectAttempt.value in disk.admitted
  {
    FreshIsSound(g, epoch, policy, journal);
    SeriesKeepsSound(sha, FreshState(g, epoch, policy, journal), hs);
    hide RunAfter, FreshState, WellFormed, SnapshotSound, Near;
    var disk := RunAfter(sha, FreshState(g, epoch, policy, journal), hs).storage.disk;
    assert BackedRecord(disk, disk.head.run.records[i]);
  }

  /** From every head that a series leaves of a fresh run over an acyclic graph, no result of a drive is rejected. */
  lemma RestartedDriveIsNeverRejected(sha: Sha256, g: Graph, epoch: string, policy: Policy, journal: string,
                                      hs: seq<RunHappening>,
                                      bound: nat, ask: (nat, Snapshot) -> Answers, rank: NodeId -> nat)
    requires WellFormed(g) && Ranked(g, rank) && bound > 0
    ensures var outcome := Drive(sha, RunAfter(sha, FreshState(g, epoch, policy, journal), hs).storage.disk.head, bound,
                                 ask);
            outcome.Ended? ==> DriveResultValid(bound, outcome.disposition, outcome.steps)
  {
    FreshIsSound(g, epoch, policy, journal);
    SeriesKeepsSound(sha, FreshState(g, epoch, policy, journal), hs);
    SeriesKeepsGraph(sha, FreshState(g, epoch, policy, journal), hs);
    hide RunAfter, WellFormed, DiskSound, Near, Drive, DriveResultValid;
    DriveIsNeverRejected(sha, RunAfter(sha, FreshState(g, epoch, policy, journal), hs).storage.disk, bound, ask, rank);
  }

  // ---------------------------------------------------------------- launched dispatches stay

  /** In this head the dispatch is started or completed. */
  ghost predicate Backs(s: Snapshot, d: Dispatch) {
    exists i | 0 <= i < |s.run.records| :: s.run.records[i].dispatch == d && Launched(s.run.records[i])
  }

  lemma SuccessorBacks(s: Snapshot, n: Snapshot, d: Dispatch)
    requires Transits(s.run, n.run) && Backs(s, d)
    ensures Backs(n, d)
  {
    var i :| 0 <= i < |s.run.records| && s.run.records[i].dispatch == d && Launched(s.run.records[i]);
    assert i < |n.run.records| && n.run.records[i].dispatch == d && Launched(n.run.records[i]);
  }

  lemma {:induction false} CourseBacks(disk: RunDisk, writes: seq<Write>, d: Dispatch)
    requires Course(disk, writes) && Backs(disk.head, d)
    ensures Backs(PersistAll(disk, writes).head, d)
    decreases |writes|
  {
    hide DiskSound, Backs, Transits;
    if writes != [] {
      if writes[0].Headed? {
        SuccessorBacks(disk.head, writes[0].snapshot, d);
      }
      CourseBacks(Persist(disk, writes[0]), writes[1..], d);
    }
  }

  /** The durable head after some writes is the old one, or one of the course. */
  lemma {:induction false} StoredAllBacks(st: RunStorage, writes: seq<Write>, d: Dispatch)
    requires StorageSound(st) && Course(st.disk, writes) && Backs(st.durable, d)
    ensures Backs(StoredAll(st, writes).durable, d) && Backs(StoredAll(st, writes).disk.head, d)
    decreases |writes|
  {
    hide StorageSound, DiskSound, WriteLegal, Backs;
    LiveBacks(st, d);
    if writes != [] {
      CourseStarts(st.disk, writes);
      StoredIsSound(st, writes[0]);
      if writes[0].Headed? {
        LegalBacks(st.disk, writes[0], d);
      }
      StoredAllBacks(Stored(st, writes[0]), writes[1..], d);
    }
  }

  lemma LiveBacks(st: RunStorage, d: Dispatch)
    requires StorageSound(st) && Backs(st.durable, d)
    ensures Backs(st.disk.head, d)
  {
    hide DiskSound, Backs, Transits;
    if st.durable != st.disk.head {
      SuccessorBacks(st.durable, st.disk.head, d);
    }
  }

  lemma LegalBacks(disk: RunDisk, w: Write, d: Dispatch)
    requires WriteLegal(disk, w) && w.Headed? && Backs(disk.head, d)
    ensures Backs(w.snapshot, d)
  {
    hide Backs, Transits;
    SuccessorBacks(disk.head, w.snapshot, d);
  }

  lemma DrivenBacks(sha: Sha256, st: RunStorage, leg: Leg, renamed: bool, d: Dispatch)
    requires StorageSound(st) && Backs(st.durable, d)
    ensures Backs(Driven(sha, st, leg, renamed).durable, d)
  {
    hide StorageSound, DiskSound, Advance, WriteLegal, Course, StepAt, Backs;
    var writes := Advance(sha, st.disk.head, leg.answers).writes;
    SoundParts(st);
    AdvanceIsGood(sha, st.disk, leg.answers);
    var k := Reached(leg, writes);
    CourseGoesOn(st.disk, writes, k);
    StoredAllBacks(st, writes[..k], d);
  }

  lemma SoundParts(st: RunStorage)
    requires StorageSound(st)
    ensures DiskSound(st.disk) && DiskSound(st.disk.(head := st.durable))
  {}

  // ---------------------------------------------------------------- the dispatch of a call is launched

  lemma StartLaunches(sha: Sha256, s: Snapshot, d: Dispatch, a: Answers)
    requires ExecutionCall(sha, s, d, a).Some?
    ensures |ExecuteReserved(sha, s, d, a).writes| >= 2
    ensures ExecuteReserved(sha, s, d, a).writes[1].Headed?
    ensures Backs(ExecuteReserved(sha, s, d, a).writes[1].snapshot, d)
    ensures ExecutionCall(sha, s, d, a) == Some(DriverCall(d, 3))
  {
    hide RequireCurrent, RecordsValid, Binds, FinishWork, CommitStep, SubmitOperation, Transits, Stopped;
    var i := RequireRecord(s.run, d, Reserved).value;
    var head := ExecuteReserved(sha, s, d, a).writes[1].snapshot;
    assert head.run.records[i].dispatch == d && Launched(head.run.records[i]);
  }

  /** A call that a new dispatch makes has the start of the dispatch durable. */
  lemma ExecutionIsBacked(sha: Sha256, st: RunStorage, a: Answers)
    requires CallOf(sha, st.disk.head, a).Some? && FirstActive(st.disk.head.run.records).None?
    ensures var call, writes := CallOf(sha, st.disk.head, a).value, Advance(sha, st.disk.head, a).writes;
            call.writes == 3 <= |writes| && Backs(StoredAll(st, writes[..3]).durable, call.dispatch)
  {
    hide ExecuteReserved, ExecutionCall, ReserveNext, Successor, Reopen, Backs, NothingReady, Stopped;
    var s := st.disk.head;
    var reservation := ReserveNext(s.run, a.nonce).value;
    var head, d := Successor(s, reservation.0).value, reservation.1.value;
    StartLaunches(sha, head, d, a);
    var rest := ExecuteReserved(sha, head, d, a).writes;
    var writes := Advance(sha, s, a).writes;
    assert writes == [Headed(head)] + rest;
    ThirdIsDurable(st, writes);
  }

  lemma ThirdIsDurable(st: RunStorage, writes: seq<Write>)
    requires |writes| >= 3 && writes[2].Headed?
    ensures StoredAll(st, writes[..3]).durable == writes[2].snapshot
  {
    var v := writes[..3];
    assert v[1..][0] == writes[1] && v[1..][1..][0] == writes[2] && v[1..][1..][1..] == [];
    assert StoredAll(st, v) == StoredAll(Stored(st, v[0]), v[1..]);
    assert StoredAll(Stored(st, v[0]), v[1..]) == StoredAll(Stored(Stored(st, v[0]), writes[1]), v[1..][1..]);
    assert StoredAll(Stored(Stored(st, v[0]), writes[1]), v[1..][1..])
        == Stored(Stored(Stored(st, v[0]), writes[1]), writes[2]);
  }

  // ---------------------------------------------------------------- recovering a start that is not durable

  /** The first active dispatch was started by the live head, which is not durable. */
  predicate FreshlyStarted(s: Snapshot) {
    FirstActive(s.run.records).Some?
    && var r := FirstActive(s.run.records).value; r.state == Started && r.observations == []
  }

  predicate Unsafe(sha: Sha256, st: RunStorage, a: Answers) {
    st.durable != st.disk.head && FreshlyStarted(st.disk.head) && CallOf(sha, st.disk.head, a).Some?
  }

  lemma ActiveIsAt(s: Snapshot) returns (k: nat)
    requires FirstActive(s.run.records).Some?
    ensures k < |s.run.records| && s.run.records[k] == FirstActive(s.run.records).value && Active(s.run.records[k])
  {
    k :| 0 <= k < |s.run.records| && s.run.records[k] == FirstActive(s.run.records).value;
  }

  /** Two neighbouring heads, each with one active dispatch: the transition was one of the active dispatch. */
  lemma TransitionIsOfActive(s: Snapshot, n: Snapshot, k: nat)
    requires OneActive(s.run.records) && OneActive(n.run.records) && Transits(s.run, n.run)
    requires k < |n.run.records| && n.run.records[k].state == Started
    ensures k < |s.run.records| && ChangesAt(s.run, n.run, k)
  {
    if Appends(s.run, n.run) {
      assert Active(n.run.records[|s.run.records|]) && Active(n.run.records[k]);
      assert false;
    } else {
      var i :| 0 <= i < |s.run.records| && ChangesAt(s.run, n.run, i);
      if i != k {
        assert n.run.records[k] == s.run.records[k];
        assert Active(s.run.records[i]) && Active(s.run.records[k]);
        assert false;
      }
    }
  }

  lemma SameDispatchSameRecord(run: Run, i: nat, j: nat)
    requires LedgerSound(run) && i < |run.records| && j < |run.records|
    requires run.records[i].dispatch == run.records[j].dispatch
    ensures i == j
  {}

  lemma HeadsAreLedgers(st: RunStorage)
    requires StorageSound(st)
    ensures OneActive(st.disk.head.run.records) && OneActive(st.durable.run.records) && LedgerSound(st.durable.run)
    ensures st.durable != st.disk.head ==> Transits(st.durable.run, st.disk.head.run)
  {
    hide LedgerSound, OneActive, Transits, ShapeAccepts;
  }

  /** The durable head knows the dispatch as started, unless the live head is what started it. */
  lemma RecoveryIsBackedExactly(sha: Sha256, st: RunStorage, a: Answers)
    requires StorageSound(st) && CallOf(sha, st.disk.head, a).Some? && FirstActive(st.disk.head.run.records).Some?
    ensures CallOf(sha, st.disk.head, a).value.writes == 0
    ensures Backs(st.durable, CallOf(sha, st.disk.head, a).value.dispatch) <==> !Unsafe(sha, st, a)
  {
    hide StorageSound, Reopen, LedgerSound, OneActive, Transits;
    var live, durable := st.disk.head, st.durable;
    var k := ActiveIsAt(live);
    var r := live.run.records[k];
    HeadsAreLedgers(st);
    if durable == live {
      assert Launched(live.run.records[k]);
    } else {
      TransitionIsOfActive(durable, live, k);
      if r.observations == [] {
        if Backs(durable, r.dispatch) {
          var i :| 0 <= i < |durable.run.records| && durable.run.records[i].dispatch == r.dispatch
              && Launched(durable.run.records[i]);
          SameDispatchSameRecord(durable.run, i, k);
          assert false;
        }
      } else {
        assert durable.run.records[k].dispatch == r.dispatch && Launched(durable.run.records[k]);
      }
    }
  }

  // ---------------------------------------------------------------- at most one attempt for a node

  /** Every call was made while the start of its dispatch was durable. */
  ghost predicate WriteAhead(performed: seq<Performance>) {
    forall i | 0 <= i < |performed| :: Backs(performed[i].backing, performed[i].dispatch)
  }

  predicate Cautious(sha: Sha256, s: RunState, hs: seq<RunHappening>)
    decreases |hs|
  {
    hs != [] ==>
      && !(hs[0].Drove? && Unsafe(sha, s.storage, hs[0].leg.answers))
      && Cautious(sha, Happens(sha, s, hs[0]), hs[1..])
  }

  /** All dispatches that were worked for are launched in the durable head. */
  ghost predicate Remembered(s: RunState) {
    forall i | 0 <= i < |s.performed| :: Backs(s.storage.durable, s.performed[i].dispatch)
  }

  lemma CallIsBacked(sha: Sha256, st: RunStorage, leg: Leg)
    requires StorageSound(st)
    ensures !Unsafe(sha, st, leg.answers) ==> WriteAhead(PerformedBy(sha, st, leg))
    ensures Unsafe(sha, st, leg.answers) ==> !WriteAhead(PerformedBy(sha, st, leg))
  {
    hide StorageSound, Advance, CallOf, Backs, FreshlyStarted, StoredAll;
    if CallOf(sha, st.disk.head, leg.answers).Some? {
      if FirstActive(st.disk.head.run.records).Some? {
        RecoveryIsBackedExactly(sha, st, leg.answers);
        NothingStored(st);
        assert Unsafe(sha, st, leg.answers) ==>
              !Backs(PerformedBy(sha, st, leg)[0].backing, PerformedBy(sha, st, leg)[0].dispatch);
      } else {
        ExecutionIsBacked(sha, st, leg.answers);
        NobodyIsFresh(st.disk.head);
      }
    }
  }

  lemma NothingStored(st: RunStorage)
    ensures forall writes: seq<Write> :: StoredAll(st, writes[..0]) == st
  {}

  lemma NobodyIsFresh(s: Snapshot)
    requires FirstActive(s.run.records).None?
    ensures !FreshlyStarted(s)
  {}

  lemma CallIsRemembered(sha: Sha256, st: RunStorage, leg: Leg, renamed: bool)
    requires StorageSound(st) && !Unsafe(sha, st, leg.answers)
    ensures forall i | 0 <= i < |PerformedBy(sha, st, leg)| ::
              Backs(Driven(sha, st, leg, renamed).durable, PerformedBy(sha, st, leg)[i].dispatch)
  {
    hide StorageSound, DiskSound, Advance, Backs, Unsafe, Course, StepAt, WriteLegal, StoredAll, CallOf;
    CallIsBacked(sha, st, leg);
    var performed := PerformedBy(sha, st, leg);
    if performed != [] {
      var writes := Advance(sha, st.disk.head, leg.answers).writes;
      var w := CallOf(sha, st.disk.head, leg.answers).value.writes;
      var k := Reached(leg, writes);
      SoundParts(st);
      AdvanceIsGood(sha, st.disk, leg.answers);
      CourseGoesOn(st.disk, writes, w);
      StoredAllIsSound(st, writes[..w]);
      CourseGoesOn(PersistAll(st.disk, writes[..w]), writes[w..], k - w);
      StoredAllBacks(StoredAll(st, writes[..w]), writes[w..][..k - w], performed[0].dispatch);
      assert writes[..k] == writes[..w] + writes[w..][..k - w];
      StoredInTwo(st, writes[..w], writes[w..][..k - w]);
    }
  }

  lemma {:induction false} StoredInTwo(st: RunStorage, v: seq<Write>, w: seq<Write>)
    ensures StoredAll(st, v + w) == StoredAll(StoredAll(st, v), w)
    decreases |v|
  {
    if v == [] {
      assert v + w == w;
    } else {
      assert (v + w)[0] == v[0] && (v + w)[1..] == v[1..] + w;
      StoredInTwo(Stored(st, v[0]), v[1..], w);
    }
  }

  lemma HappeningRemembers(sha: Sha256, s: RunState, h: RunHappening)
    requires StorageSound(s.storage) && Remembered(s) && WriteAhead(s.performed)
    requires !(h.Drove? && Unsafe(sha, s.storage, h.leg.answers))
    ensures Remembered(Happens(sha, s, h)) && WriteAhead(Happens(sha, s, h).performed)
  {
    hide StorageSound, Driven, PerformedBy, Unsafe, Backs;
    match h
    case Drove(leg, renamed) =>
      CallIsBacked(sha, s.storage, leg);
      CallIsRemembered(sha, s.storage, leg, renamed);
      forall i | 0 <= i < |s.performed|
        ensures Backs(Driven(sha, s.storage, leg, renamed).durable, s.performed[i].dispatch)
      {
        DrivenBacks(sha, s.storage, leg, renamed, s.performed[i].dispatch);
      }
    case WroteBack =>
      forall i | 0 <= i < |s.performed|
        ensures Backs(s.storage.disk.head, s.performed[i].dispatch)
      {
        LiveBacks(s.storage, s.performed[i].dispatch);
      }
    case LostPower =>
  }

  lemma {:induction false} PerformedStays(sha: Sha256, s: RunState, hs: seq<RunHappening>)
    ensures s.performed <= RunAfter(sha, s, hs).performed
    decreases |hs|
  {
    hide Driven, PerformedBy;
    if hs != [] {
      PerformedStays(sha, Happens(sha, s, hs[0]), hs[1..]);
    }
  }

  lemma UnsafeStepIsUnbacked(sha: Sha256, s: RunState, h: RunHappening)
    requires StorageSound(s.storage) && h.Drove? && Unsafe(sha, s.storage, h.leg.answers)
    ensures !WriteAhead(Happens(sha, s, h).performed)
  {
    hide StorageSound, Driven, PerformedBy, Unsafe, Backs;
    CallIsBacked(sha, s.storage, h.leg);
    var more := PerformedBy(sha, s.storage, h.leg);
    var i :| 0 <= i < |more| && !Backs(more[i].backing, more[i].dispatch);
    assert (s.performed + more)[|s.performed| + i] == more[i];
  }

  lemma {:induction false} SeriesIsBackedExactly(sha: Sha256, s: RunState, hs: seq<RunHappening>)
    requires StorageSound(s.storage) && Remembered(s) && WriteAhead(s.performed)
    ensures Cautious(sha, s, hs) ==> Remembered(RunAfter(sha, s, hs)) && WriteAhead(RunAfter(sha, s, hs).performed)
    ensures !Cautious(sha, s, hs) ==> !WriteAhead(RunAfter(sha, s, hs).performed)
    decreases |hs|
  {
    hide StorageSound, Happens, Unsafe, Remembered, Backs;
    if hs != [] {
      HappeningKeepsSound(sha, s, hs[0]);
      if hs[0].Drove? && Unsafe(sha, s.storage, hs[0].leg.answers) {
        UnsafeStepIsUnbacked(sha, s, hs[0]);
        PerformedStays(sha, Happens(sha, s, hs[0]), hs[1..]);
      } else {
        HappeningRemembers(sha, s, hs[0]);
        SeriesIsBackedExactly(sha, Happens(sha, s, hs[0]), hs[1..]);
      }
    }
  }

  lemma FreshRemembers(g: Graph, epoch: string, policy: Policy, journal: string)
    ensures Remembered(FreshState(g, epoch, policy, journal))
    ensures WriteAhead(FreshState(g, epoch, policy, journal).performed)
  {}

  /**
    From a fresh run, every effect of a dispatch is performed while its start is durable, if and
    only if no step of the series recovers a start that is live and not durable.
   */
  lemma StartsAreDurableExactly(sha: Sha256, g: Graph, epoch: string, policy: Policy, journal: string,
                                hs: seq<RunHappening>)
    requires WellFormed(g)
    ensures WriteAhead(RunAfter(sha, FreshState(g, epoch, policy, journal), hs).performed)
            <==> Cautious(sha, FreshState(g, epoch, policy, journal), hs)
  {
    hide FreshState, RunAfter, WriteAhead, Cautious, StorageSound, Remembered;
    FreshIsSound(g, epoch, policy, journal);
    FreshRemembers(g, epoch, policy, journal);
    SeriesIsBackedExactly(sha, FreshState(g, epoch, policy, journal), hs);
  }

  lemma LiveUnitsAreDisjoint(run: Run, i: nat, j: nat)
    requires LedgerSound(run) && i < |run.records| && j < |run.records| && i != j
    requires Live(run.records[i]) && Live(run.records[j])
    ensures run.records[i].dispatch.unit.members !! run.records[j].dispatch.unit.members
  {
    hide RecordSound, ProgressSound, ActiveOf, Capacity, Live;
  }

  lemma LaunchedTwiceIsOne(s: Snapshot, d: Dispatch, e: Dispatch, n: NodeId)
    requires LedgerSound(s.run) && Backs(s, d) && Backs(s, e)
    requires n in d.unit.members && n in e.unit.members
    ensures d == e
  {
    hide LedgerSound;
    var records := s.run.records;
    var i :| 0 <= i < |records| && records[i].dispatch == d && Launched(records[i]);
    var j :| 0 <= j < |records| && records[j].dispatch == e && Launched(records[j]);
    if i != j {
      LiveUnitsAreDisjoint(s.run, i, j);
    }
  }

  /** In such a series, whatever is killed or lost, the effects of a node are those of one dispatch. */
  lemma NodeHasOneAttempt(sha: Sha256, g: Graph, epoch: string, policy: Policy, journal: string, hs: seq<RunHappening>,
                          i: nat, j: nat, n: NodeId)
    requires WellFormed(g) && Cautious(sha, FreshState(g, epoch, policy, journal), hs)
    requires var performed := RunAfter(sha, FreshState(g, epoch, policy, journal), hs).performed;
             && i < |performed| && j < |performed|
             && n in performed[i].dispatch.unit.members && n in performed[j].dispatch.unit.members
    ensures var performed := RunAfter(sha, FreshState(g, epoch, policy, journal), hs).performed;
            performed[i].dispatch == performed[j].dispatch
  {
    hide FreshState, RunAfter, WriteAhead, Cautious, StorageSound, Backs, LedgerSound;
    FreshIsSound(g, epoch, policy, journal);
    FreshRemembers(g, epoch, policy, journal);
    SeriesIsBackedExactly(sha, FreshState(g, epoch, policy, journal), hs);
    SeriesKeepsSound(sha, FreshState(g, epoch, policy, journal), hs);
    var s := RunAfter(sha, FreshState(g, epoch, policy, journal), hs);
    HeadsAreLedgers(s.storage);
    LaunchedTwiceIsOne(s.storage.durable, s.performed[i].dispatch, s.performed[j].dispatch, n);
  }
}
