/**
  The serial runner: one bounded step over the durable head of a run, and the drive that
  repeats it.  A step is a list of durable writes, which a crash may cut anywhere, and the
  result that it returns.  What the step consults outside the ledger is one `Answers` value.
 */
module Runner {
  import opened Wrappers
  import opened Identity
  import opened Progression
  import opened Dispatch
  import opened RunJournal
  import EffectJournal

  // ---------------------------------------------------------------- the outside

  datatype Access = Granted | Unavailable | Denied

  datatype Recovery = RecoveryEscapes | ExternalOnly | Resumed(effect: EffectResult)

  /**
    What one step is answered.  A missing answer is an exception of the authority or driver
    that was asked.
   */
  datatype Answers = Answers(
    equipped: bool, nonce: string, session: Option<Session>, attemptNonce: EffectJournal.Nonce,
    access: Access, leases: bool, work: Option<WorkResult>, recovered: Option<WorkResult>, publishes: bool,
    needsDrivers: bool, recovery: Recovery, effect: Option<EffectResult>, state: Option<string>)

  // ---------------------------------------------------------------- one step

  datatype Write = Attempted(session: string) | Retained(evidence: string) | Admitted(attempt: EffectJournal.Record)
                 | Headed(snapshot: Snapshot)

  datatype Disposition =
    | Quiescent | ReleasedReserved
    | ReconciledConstruction | ExecutedConstruction | ReconciledCheck | ExecutedCheck
    | ExecutedOperation | ReconciledOperation | ExternalResolution | AuthorityUnavailable

  datatype StepEvidence =
    | NoEvidence
    | ConstructionEvidence(construction: WorkResult)
    | CheckEvidence(check: WorkResult)
    | OperationEvidence(result: Option<EffectResult>, restarted: bool, external: bool)

  datatype Step = Step(run: Run, head: Snapshot, disposition: Disposition, dispatch: Option<Dispatch>,
                       evidence: StepEvidence)

  datatype RunnerFault = Refused | Rejected

  datatype Plan = Plan(writes: seq<Write>, result: Result<Step, RunnerFault>)

  function Abandon(): Plan {
    Plan([], Failure(Refused))
  }

  function Then(writes: seq<Write>, plan: Plan): Plan {
    Plan(writes + plan.writes, plan.result)
  }

  function WorkDisposition(kind: UnitKind, first: bool): Disposition {
    if kind == ConstructionUnit then (if first then ExecutedConstruction else ReconciledConstruction)
    else if first then ExecutedCheck else ReconciledCheck
  }

  function WorkEvidence(kind: UnitKind, result: WorkResult): StepEvidence {
    if kind == ConstructionUnit then ConstructionEvidence(result) else CheckEvidence(result)
  }

  /** Commit the successor of a head and return with it. */
  function CommitStep(s: Snapshot, next: Result<Run, Fault>, disposition: Disposition, d: Dispatch,
                      evidence: StepEvidence): Plan {
    if next.Failure? || Successor(s, next.value).Failure? then Abandon()
    else
      var head := Successor(s, next.value).value;
      Plan([Headed(head)], Success(Step(next.value, head, disposition, Some(d), evidence)))
  }

  /** Retain the result, publish a construction, and complete the dispatch. */
  function FinishWork(s: Snapshot, d: Dispatch, a: Answers, result: WorkResult, first: bool, retain: bool): Plan {
    var retained := if retain then [Retained(result.identity)] else [];
    if d.unit.kind == ConstructionUnit && !a.publishes then Plan(retained, Failure(Refused))
    else
      Then(retained, CommitStep(s, CompleteWork(s.run, d, result), WorkDisposition(d.unit.kind, first), d,
                                WorkEvidence(d.unit.kind, result)))
  }

  /** The observed state accompanies a successful result only. */
  function ObservedState(a: Answers, effect: EffectResult): Option<string> {
    if effect.outcome.Completed? then a.state else None
  }

  predicate StateIsRead(a: Answers, effect: EffectResult) {
    effect.outcome.Completed? ==> a.state.Some?
  }

  function ReconcileOperation(s: Snapshot, r: DispatchRecord, a: Answers): Plan {
    var d := r.dispatch;
    var blocked := Plan([], Success(Step(s.run, s, ExternalResolution, Some(d), OperationEvidence(None, true, true))));
    if a.needsDrivers && a.access == Unavailable then
      Plan([], Success(Step(s.run, s, AuthorityUnavailable, Some(d), NoEvidence)))
    else if (a.needsDrivers && a.access == Denied) || !a.equipped || a.recovery == RecoveryEscapes then Abandon()
    else
      match a.recovery
      case Resumed(effect) =>
        if effect.identity in r.observations then blocked
        else if !StateIsRead(a, effect) then Abandon()
        else
          CommitStep(s, SubmitOperation(s.run, d, effect, ObservedState(a, effect)), ReconciledOperation, d,
                     OperationEvidence(Some(effect), true, false))
      case _ => blocked
  }

  /** Recover the first active dispatch of a head. */
  function ReconcileActive(s: Snapshot, r: DispatchRecord, a: Answers): Plan {
    var d := r.dispatch;
    if r.state == Reserved then
      CommitStep(s, ReleaseUnstarted(s.run, d), ReleasedReserved, d, NoEvidence)
    else if d.unit.kind == OperationUnit then ReconcileOperation(s, r, a)
    else
      match a.recovered
      case Some(result) =>
        if d.unit.kind == ConstructionUnit && !a.equipped then Abandon()
        else FinishWork(s, d, a, result, false, false)
      case None =>
        if !a.equipped || a.work.None? then Abandon()
        else FinishWork(s, d, a, a.work.value, false, true)
  }

  function ExecuteWork(s: Snapshot, d: Dispatch, session: Session, a: Answers): Plan {
    var started := StartWork(s.run, d, session);
    if started.Failure? || Successor(s, started.value).Failure?
    then Plan([Attempted(session.identity)], Failure(Refused))
    else
      var head := Successor(s, started.value).value;
      Then([Attempted(session.identity), Headed(head)],
           if a.work.None? then Abandon() else FinishWork(head, d, a, a.work.value, true, true))
  }

  function ExecuteOperation(sha: Sha256, s: Snapshot, d: Dispatch, session: Session, a: Answers): Plan {
    var started := StartOperation(sha, s.run, d, session, a.attemptNonce);
    if started.Failure? then Abandon()
    else if Successor(s, started.value.0).Failure? then Plan([Admitted(started.value.1)], Failure(Refused))
    else
      var head := Successor(s, started.value.0).value;
      Then([Admitted(started.value.1), Headed(head)],
           if !a.leases || a.effect.None? || !StateIsRead(a, a.effect.value) then Abandon()
           else
             CommitStep(head, SubmitOperation(head.run, d, a.effect.value, ObservedState(a, a.effect.value)),
                        ExecutedOperation, d, OperationEvidence(a.effect, false, false)))
  }

  /** Execute a dispatch whose reservation is the head. */
  function ExecuteReserved(sha: Sha256, s: Snapshot, d: Dispatch, a: Answers): Plan {
    if a.session.None? then Abandon()
    else if d.unit.kind != OperationUnit then ExecuteWork(s, d, a.session.value, a)
    else
      match a.access
      case Unavailable => CommitStep(s, ReleaseUnstarted(s.run, d), AuthorityUnavailable, d, NoEvidence)
      case Denied => Abandon()
      case Granted => ExecuteOperation(sha, s, d, a.session.value, a)
  }

  function FirstActive(records: seq<DispatchRecord>): (r: Option<DispatchRecord>)
    ensures r.Some? ==> r.value in records && Active(r.value)
    ensures r.None? ==> forall i | 0 <= i < |records| :: !Active(records[i])
  {
    if records == [] then None else if Active(records[0]) then Some(records[0]) else FirstActive(records[1..])
  }

  predicate NothingReady(run: Run) {
    forall i | 0 <= i < |run.progress.graph.units| :: !ReadyUnit(run.progress, run.progress.graph.units[i])
  }

  function ReserveAndExecute(sha: Sha256, s: Snapshot, a: Answers): Plan {
    var reservation := ReserveNext(s.run, a.nonce);
    if reservation.Failure? || reservation.value.1.None? then Abandon()
    else
      var d := reservation.value.1.value;
      if !a.equipped || Successor(s, reservation.value.0).Failure? then Abandon()
      else
        var head := Successor(s, reservation.value.0).value;
        Then([Headed(head)], ExecuteReserved(sha, head, d, a))
  }

  /** One step from a durable head. */
  function Advance(sha: Sha256, s: Snapshot, a: Answers): Plan {
    if Reopen(s, s.run.progress) != Success(s.run) then Abandon()
    else if FirstActive(s.run.records).Some? then ReconcileActive(s, FirstActive(s.run.records).value, a)
    else if Stopped(s.run) || NothingReady(s.run) then Plan([], Success(Step(s.run, s, Quiescent, None, NoEvidence)))
    else ReserveAndExecute(sha, s, a)
  }

  // ---------------------------------------------------------------- the checks of a result

  function RecordOf(run: Run, d: Dispatch): Option<DispatchRecord> {
    match RecordIndex(run.records, d)
    case None => None
    case Some(i) => Some(run.records[i])
  }

  predicate AdvanceResultValid(step: Step) {
    && Reopen(step.head, step.run.progress) == Success(step.run)
    && (step.dispatch.Some? ==> RecordOf(step.run, step.dispatch.value).Some?)
    && match step.disposition
       case Quiescent => step.dispatch.None? && step.evidence.NoEvidence?
       case ReleasedReserved => step.dispatch.Some? && step.evidence.NoEvidence?
       case ReconciledConstruction => step.dispatch.Some? && step.evidence.ConstructionEvidence?
       case ExecutedConstruction => step.dispatch.Some? && step.evidence.ConstructionEvidence?
       case ReconciledCheck => step.dispatch.Some? && step.evidence.CheckEvidence?
       case ExecutedCheck => step.dispatch.Some? && step.evidence.CheckEvidence?
       case ExecutedOperation =>
         step.dispatch.Some? && step.evidence.OperationEvidence? && step.evidence.result.Some?
         && !step.evidence.restarted
       case ReconciledOperation =>
         step.dispatch.Some? && step.evidence.OperationEvidence? && step.evidence.result.Some?
         && step.evidence.restarted
       case ExternalResolution =>
         step.dispatch.Some? && step.evidence.OperationEvidence? && step.evidence.result.None? && step.evidence.external
       case AuthorityUnavailable =>
         && step.dispatch.Some? && step.evidence.NoEvidence?
         && var r := RecordOf(step.run, step.dispatch.value);
            r.Some? && (r.value.state == Started || r.value.state == Released)
  }

  /** A result that fails its own check is thrown away by its constructor. */
  function CheckedAdvance(sha: Sha256, s: Snapshot, a: Answers): Plan {
    var plan := Advance(sha, s, a);
    if plan.result.Success? && !AdvanceResultValid(plan.result.value) then plan.(result := Failure(Rejected)) else plan
  }

  // ---------------------------------------------------------------- the drive

  datatype DriveDisposition =
    | MutationUnavailable | ResolutionRequired | DriveCompleted | StoppedAfterFailure | QuiescentIncomplete | StepLimit

  predicate RetainsUncertainty(step: Step) {
    && step.evidence.OperationEvidence? && step.evidence.result.Some? && step.dispatch.Some?
    && var r := RecordOf(step.run, step.dispatch.value);
       r.Some? && r.value.state == Started && step.evidence.result.value.identity in r.value.observations
  }

  function ClassifyStop(step: Step): DriveDisposition {
    if step.disposition == AuthorityUnavailable then MutationUnavailable
    else if step.disposition == ExternalResolution || RetainsUncertainty(step) then ResolutionRequired
    else if Complete(step.run.progress) then DriveCompleted
    else if Stopped(step.run) then StoppedAfterFailure
    else if step.disposition == Quiescent then QuiescentIncomplete
    else StepLimit
  }

  predicate FollowsDurably(previous: Step, step: Step) {
    && previous.head.journal == step.head.journal && ClassifyStop(previous) == StepLimit
    && previous.head.sequence < step.head.sequence
  }

  predicate StepFollows(steps: seq<Step>, i: nat)
    requires 1 <= i < |steps|
  {
    FollowsDurably(steps[i - 1], steps[i])
  }

  predicate DriveResultValid(maximum: nat, disposition: DriveDisposition, steps: seq<Step>) {
    && 0 < |steps| <= maximum
    && (if disposition == StepLimit then |steps| == maximum && ClassifyStop(steps[|steps| - 1]) == StepLimit
        else disposition == ClassifyStop(steps[|steps| - 1]))
    && forall i | 1 <= i < |steps| :: StepFollows(steps, i)
  }

  datatype DriveOutcome = Threw(steps: seq<Step>) | Ended(disposition: DriveDisposition, steps: seq<Step>)

  function Prepend(step: Step, rest: DriveOutcome): DriveOutcome {
    match rest
    case Threw(steps) => Threw([step] + steps)
    case Ended(disposition, steps) => Ended(disposition, [step] + steps)
  }

  /** The drive: `ask` answers the step that has `bound` steps left, at its head. */
  function Drive(sha: Sha256, s: Snapshot, bound: nat, ask: (nat, Snapshot) -> Answers): DriveOutcome
    decreases bound
  {
    if bound == 0 then Ended(StepLimit, [])
    else
      match CheckedAdvance(sha, s, ask(bound, s)).result
      case Failure(_) => Threw([])
      case Success(step) =>
        if ClassifyStop(step) != StepLimit then Ended(ClassifyStop(step), [step])
        else Prepend(step, Drive(sha, step.head, bound - 1, ask))
  }

  // ---------------------------------------------------------------- the disk

  /** The head of the run journal, the attempts and results in the evidence store, and the admitted effect attempts. */
  datatype RunDisk = RunDisk(head: Snapshot, attempts: set<string>, retained: set<string>, admitted: set<string>)

  function Persist(disk: RunDisk, w: Write): RunDisk {
    match w
    case Attempted(session) => disk.(attempts := disk.attempts + {session})
    case Retained(evidence) => disk.(retained := disk.retained + {evidence})
    case Admitted(attempt) => disk.(admitted := disk.admitted + {attempt.attempt})
    case Headed(snapshot) => disk.(head := snapshot)
  }

  function PersistAll(disk: RunDisk, writes: seq<Write>): RunDisk
    decreases |writes|
  {
    if writes == [] then disk else PersistAll(Persist(disk, writes[0]), writes[1..])
  }
}
