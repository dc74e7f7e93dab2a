/**
  The durable run journal: a chain of snapshots of the ledger, with a closed-form count of
  the transitions and a relation that admits one ledger transition at a time.  The identity
  of a snapshot is the snapshot itself.
 */
module RunJournal {
  import opened Wrappers
  import opened Progression
  import opened Dispatch
  import opened Sequences

  const MAXIMUM_COUNT: nat := 65536
  const MAXIMUM_SEQUENCE: nat := 0xFFFF_FFFF_FFFF_FFFF

  datatype Snapshot = Snapshot(journal: string, sequence: nat, previous: Option<Snapshot>, run: Run,
                               complete: bool, failed: bool, stopped: bool)

  datatype RunJournalError = InvalidRecord | InvalidTransition

  // ---------------------------------------------------------------- shape

  function RecordTransitions(r: DispatchRecord): nat {
    match r.state
    case Reserved => 1
    case Started => 2 + |r.observations|
    case Completed => 3 + |r.observations|
    case Released => 2
  }

  function RetainedTransitions(records: seq<DispatchRecord>): nat {
    if records == [] then 0
    else RetainedTransitions(records[..|records| - 1]) + RecordTransitions(records[|records| - 1])
  }

  predicate WithinBounds(records: seq<DispatchRecord>) {
    && |records| <= MAXIMUM_COUNT
    && (forall i | 0 <= i < |records| ::
          && 0 < |records[i].dispatch.unit.members| <= MAXIMUM_COUNT
          && |records[i].dispatch.dependencies| <= MAXIMUM_COUNT && |records[i].observations| <= MAXIMUM_COUNT)
  }

  predicate BoundsValid(policy: Policy, records: seq<DispatchRecord>) {
    && WithinBounds(records)
    && (forall i, j | 0 <= i < j < |records| ::
          records[i].dispatch.nonce != records[j].dispatch.nonce && records[i].dispatch != records[j].dispatch)
    && (forall i | 0 <= i < |records| :: Distinct(records[i].observations))
    && (forall i, j | 0 <= i < j < |records| && Active(records[i]) && Active(records[j]) ::
          records[i].dispatch.unit.members !! records[j].dispatch.unit.members)
    && (forall kind: UnitKind :: |ActiveOf(records, kind)| <= Capacity(policy, kind))
  }

  /** What is checked of a snapshot that is read back. */
  predicate ShapeAccepts(s: Snapshot) {
    && (s.sequence == 0 <==> s.previous.None?) && (s.sequence == 0 <==> s.run.records == [])
    && |s.run.records| <= s.sequence && s.sequence == RetainedTransitions(s.run.records)
    && !(s.complete && s.failed) && s.stopped == s.failed
    && BoundsValid(s.run.policy, s.run.records)
  }

  // ---------------------------------------------------------------- the transition relation

  predicate RecordChanges(r: DispatchRecord, n: DispatchRecord, progressed: bool) {
    && r.dispatch == n.dispatch
    && match (r.state, n.state)
       case (Reserved, Started) => !progressed && n.session.Some? && n.observations == [] && n.terminal.None?
       case (Reserved, Released) => !progressed && n.session.None? && n.observations == [] && n.terminal.None?
       case (Started, Started) =>
         && !progressed && n.session == r.session && n.effectAttempt == r.effectAttempt && n.terminal.None?
         && |n.observations| == |r.observations| + 1 && n.observations[..|r.observations|] == r.observations
       case (Started, Completed) =>
         && progressed && n.session == r.session && n.effectAttempt == r.effectAttempt
         && n.observations == r.observations && n.terminal.Some?
       case _ => false
  }

  predicate Appends(run: Run, next: Run) {
    && |next.records| == |run.records| + 1 && next.progress == run.progress
    && next.records[..|run.records|] == run.records
    && var last := next.records[|run.records|];
       last.state == Reserved && last.dispatch.reservedFrom == run.progress
       && last.dispatch.reservedState == run.progress.epoch
  }

  predicate ChangesAt(run: Run, next: Run, i: nat) {
    && i < |run.records| && i < |next.records| && next.records == run.records[i := next.records[i]]
    && next.records[i] != run.records[i]
    && RecordChanges(run.records[i], next.records[i], next.progress != run.progress)
  }

  /** One legal ledger transition. */
  predicate Transits(run: Run, next: Run) {
    && next.policy == run.policy && next.progress.graph == run.progress.graph && next != run
    && (Appends(run, next) || (|next.records| == |run.records|
                               && exists i | 0 <= i < |run.records| :: ChangesAt(run, next, i)))
  }

  function MakeSnapshot(journal: string, sequence: nat, previous: Option<Snapshot>, run: Run): Snapshot {
    Snapshot(journal, sequence, previous, run, Complete(run.progress), HasFailed(run.progress), Stopped(run))
  }

  function Admit(run: Run, journal: string): Result<Snapshot, RunJournalError> {
    if run.records != [] then Failure(InvalidRecord) else Success(MakeSnapshot(journal, 0, None, run))
  }

  function Successor(s: Snapshot, next: Run): Result<Snapshot, RunJournalError> {
    if s.sequence >= MAXIMUM_SEQUENCE || !Transits(s.run, next) then Failure(InvalidTransition)
    else Success(MakeSnapshot(s.journal, s.sequence + 1, Some(s), next))
  }

  /** What the store checks of a successor before it replaces the head. */
  predicate DurablySucceeds(s: Snapshot, n: Snapshot) {
    && n.sequence == s.sequence + 1 && n.previous == Some(s) && n.journal == s.journal && Transits(s.run, n.run)
    && (n.run.progress == s.run.progress ==>
          n.run.progress.epoch == s.run.progress.epoch && n.complete == s.complete && n.failed == s.failed
          && n.stopped == s.stopped)
    && (n.run.progress.epoch != s.run.progress.epoch ==>
          exists i | 0 <= i < |s.run.records| && i < |n.run.records| ::
            && ChangesAt(s.run, n.run, i) && n.run.records[i].state == Completed
            && n.run.records[i].dispatch.unit.kind == OperationUnit)
  }

  /** Reopen a snapshot with a rehydrated progression. */
  function Reopen(s: Snapshot, p: Progress): Result<Run, RunJournalError> {
    if p != s.run.progress || Complete(p) != s.complete || HasFailed(p) != s.failed then Failure(InvalidRecord)
    else
      match Restore(p, s.run.policy, s.run.records)
      case Failure(_) => Failure(InvalidRecord)
      case Success(run) => if Stopped(run) != s.stopped then Failure(InvalidRecord) else Success(run)
  }
}
