/**
  The dispatch ledger: a run reserves ready units, starts, observes, completes or releases
  them, under capacities, with one operation lane, and stops after the first failure.
  An identity of a progression, a dispatch or a run is the value itself.
 */
module Dispatch {
  import opened Wrappers
  import opened Identity
  import opened Progression
  import opened Sequences
  import EffectJournal

  datatype Progress = Progress(graph: Graph, epoch: string, evidence: map<NodeId, Evidence>)

  datatype Policy = Policy(constructions: nat, checks: nat)

  datatype DispatchState = Reserved | Started | Completed | Released

  datatype Dispatch = Dispatch(unit: Unit, nonce: string, reservedFrom: Progress, reservedState: string,
                               dependencies: map<NodeId, string>)

  datatype DispatchRecord = DispatchRecord(dispatch: Dispatch, state: DispatchState, session: Option<Digest>,
                                           effectAttempt: Option<string>, observations: seq<string>,
                                           terminal: Option<string>)

  datatype Run = Run(progress: Progress, policy: Policy, records: seq<DispatchRecord>)

  datatype Fault = InvalidDispatch | InvalidRun | InvalidAttempt

  /**
    An admitted session for one unit.  `bound` says that its remaining identities agree with
    the run: the transaction, and for a construction or check its retained inputs.
   */
  datatype Session = Session(identity: Digest, kind: UnitKind, node: NodeId, expectedState: string,
                             before: seq<NodeId>, after: seq<NodeId>, bound: bool)

  datatype WorkResult = WorkResult(session: Session, identity: string, succeeded: bool)

  datatype StateReceipt = StateReceipt(expectedPrior: string, actualPrior: string, resulting: Option<string>)

  datatype EffectResult = EffectResult(session: Session, identity: string, outcome: EffectJournal.OperationOutcome,
                                       beforeResults: seq<bool>, afterResults: seq<bool>,
                                       publicationBase: Option<string>, receipt: Option<StateReceipt>,
                                       reconciled: Option<string>)

  // ---------------------------------------------------------------- progression

  predicate Satisfies(p: Progress, n: NodeId) {
    n in p.graph.nodes && Seed(p.graph, p.evidence, n) == Satisfied
  }

  predicate Complete(p: Progress) {
    forall n | n in p.graph.nodes :: Seed(p.graph, p.evidence, n) == Satisfied
  }

  predicate HasFailed(p: Progress) {
    exists n | n in p.graph.nodes :: Seed(p.graph, p.evidence, n) == Failed
  }

  predicate ReadyUnit(p: Progress, u: Unit) {
    EdgesInside(p.graph) && u in p.graph.units && IsReady(p.graph, p.evidence, u)
  }

  predicate ReadyNode(p: Progress, n: NodeId) {
    var u := FindUnit(p.graph.units, n);
    u.Some? && ReadyUnit(p, u.value)
  }

  function AdvanceWork(p: Progress, r: WorkResult): Option<Progress> {
    if !ReadyNode(p, r.session.node) || r.session.node in p.evidence then None
    else
      var e := Evidence(r.identity, r.session.identity, r.succeeded, r.session.expectedState, [], [], [], []);
      Some(p.(evidence := p.evidence[r.session.node := e]))
  }

  predicate Terminates(outcome: EffectJournal.OperationOutcome) {
    match outcome
    case LifecycleFailedBeforeApplication => true
    case ApplicationNotCompleted => true
    case LifecycleFailedAfterApplication => true
    case StatePublicationNotCompleted => true
    case Completed => true
    case _ => false
  }

  predicate DefinitiveFailure(outcome: EffectJournal.OperationOutcome) {
    Terminates(outcome) && !outcome.Completed?
  }

  /** The receipt, or else the reconciliation, proves that `epoch` became `next`. */
  predicate ProvesSuccess(p: Progress, r: EffectResult, next: string) {
    && r.publicationBase == Some(p.epoch)
    && (match r.receipt
        case Some(receipt) => receipt == StateReceipt(p.epoch, p.epoch, Some(next))
        case None => r.reconciled == Some(next))
    && (r.reconciled.Some? ==> r.reconciled == Some(next))
  }

  function AdvanceEffect(p: Progress, r: EffectResult, resulting: Option<string>): Option<Progress> {
    var n := r.session.node;
    if r.session.expectedState != p.epoch || !ReadyNode(p, n) || n in p.evidence then None
    else
      var e := Evidence(r.identity, r.session.identity, r.outcome.Completed?, r.session.expectedState,
                        r.session.before, r.beforeResults, r.session.after, r.afterResults);
      if r.outcome.Completed? then
        if resulting.None? || !ProvesSuccess(p, r, resulting.value) then None
        else Some(Progress(p.graph, resulting.value, p.evidence[n := e]))
      else if resulting.Some? || !DefinitiveFailure(r.outcome) then None
      else Some(p.(evidence := p.evidence[n := e]))
  }

  // ---------------------------------------------------------------- dependencies

  function FirstLifecycle(units: seq<Unit>, evidence: map<NodeId, Evidence>, n: NodeId): Option<string> {
    if units == [] then None
    else if units[0].primary in evidence
         && (n in evidence[units[0].primary].before || n in evidence[units[0].primary].after) then
      Some(evidence[units[0].primary].identity)
    else FirstLifecycle(units[1..], evidence, n)
  }

  /** The terminal evidence of a node: its own, or that of the effect whose lifecycle lists it. */
  function EvidenceFor(p: Progress, n: NodeId): Option<string> {
    if n in p.evidence then Some(p.evidence[n].identity) else FirstLifecycle(p.graph.units, p.evidence, n)
  }

  function ExternalPredecessors(g: Graph, u: Unit): set<NodeId> {
    set e | e in g.edges && External(u, e) :: e.before
  }

  predicate DependenciesHeld(p: Progress, u: Unit) {
    forall n | n in ExternalPredecessors(p.graph, u) ::
      Satisfies(p, n) && (p.graph.nodes[n] == Retain || EvidenceFor(p, n).Some?)
  }

  function Dependencies(p: Progress, u: Unit): map<NodeId, string>
    requires DependenciesHeld(p, u)
  {
    map n | n in ExternalPredecessors(p.graph, u) && p.graph.nodes[n] != Retain :: EvidenceFor(p, n).value
  }

  function CaptureDependencies(p: Progress, u: Unit): Result<map<NodeId, string>, Fault> {
    if DependenciesHeld(p, u) then Success(Dependencies(p, u)) else Failure(InvalidRun)
  }

  // ---------------------------------------------------------------- records

  predicate Active(r: DispatchRecord) {
    r.state == Reserved || r.state == Started
  }

  predicate ShapeValid(r: DispatchRecord) {
    match r.state
    case Reserved => r.session.None? && r.effectAttempt.None? && r.observations == [] && r.terminal.None?
    case Released => r.session.None? && r.effectAttempt.None? && r.observations == [] && r.terminal.None?
    case Started =>
      && r.session.Some? && r.terminal.None?
      && (r.dispatch.unit.kind == OperationUnit <==> r.effectAttempt.Some?)
      && (r.observations == [] || r.dispatch.unit.kind == OperationUnit)
    case Completed =>
      && r.session.Some? && r.terminal.Some?
      && (r.dispatch.unit.kind == OperationUnit <==> r.effectAttempt.Some?)
      && (r.observations == [] || r.dispatch.unit.kind == OperationUnit)
  }

  function Capacity(policy: Policy, kind: UnitKind): nat {
    match kind
    case ConstructionUnit => policy.constructions
    case CheckUnit => policy.checks
    case OperationUnit => 1
  }

  function ActiveOf(records: seq<DispatchRecord>, kind: UnitKind): set<nat> {
    set i | 0 <= i < |records| && Active(records[i]) && records[i].dispatch.unit.kind == kind
  }

  /** Where an active record stands against the progression. */
  predicate ActiveValid(p: Progress, d: Dispatch) {
    && d.unit in p.graph.units && CaptureDependencies(p, d.unit) == Success(d.dependencies)
    && (d.unit.kind == OperationUnit ==> d.reservedState == p.epoch)
  }

  predicate RecordsValid(p: Progress, policy: Policy, records: seq<DispatchRecord>) {
    && (forall i | 0 <= i < |records| :: ShapeValid(records[i]) && Distinct(records[i].observations))
    && (forall i, j | 0 <= i < j < |records| :: records[i].dispatch.nonce != records[j].dispatch.nonce)
    && (forall i | 0 <= i < |records| && Active(records[i]) :: ActiveValid(p, records[i].dispatch))
    && (forall i, j | 0 <= i < j < |records| && Active(records[i]) && Active(records[j]) ::
          records[i].dispatch.unit.members !! records[j].dispatch.unit.members)
    && (forall kind: UnitKind :: |ActiveOf(records, kind)| <= Capacity(policy, kind))
    && (forall i | 0 <= i < |records| && Active(records[i]) :: ReadyUnit(p, records[i].dispatch.unit))
  }

  /** Every run is validated when it is made. */
  function MakeRun(p: Progress, policy: Policy, records: seq<DispatchRecord>): Result<Run, Fault> {
    if RecordsValid(p, policy, records) then Success(Run(p, policy, records)) else Failure(InvalidRun)
  }

  /** What a rehydrated history must agree on with the progression. */
  predicate HistoryValid(p: Progress, r: DispatchRecord) {
    && r.dispatch.unit in p.graph.units
    && CaptureDependencies(p, r.dispatch.unit) == Success(r.dispatch.dependencies)
    && (r.state == Completed ==>
          var primary := r.dispatch.unit.primary;
          && primary in p.evidence && r.terminal == Some(p.evidence[primary].identity)
          && r.session == Some(p.evidence[primary].session)
          && (r.dispatch.unit.kind == OperationUnit ==> r.dispatch.reservedState == p.evidence[primary].expectedState))
  }

  function Restore(p: Progress, policy: Policy, records: seq<DispatchRecord>): Result<Run, Fault> {
    if forall i | 0 <= i < |records| :: HistoryValid(p, records[i]) then MakeRun(p, policy, records)
    else Failure(InvalidRun)
  }

  function BeginRun(p: Progress, policy: Policy): Result<Run, Fault> {
    MakeRun(p, policy, [])
  }

  predicate Stopped(run: Run) {
    HasFailed(run.progress)
  }

  // ---------------------------------------------------------------- reservation

  predicate NonceUsed(run: Run, nonce: string) {
    exists i | 0 <= i < |run.records| :: run.records[i].dispatch.nonce == nonce
  }

  predicate OverlapsActive(records: seq<DispatchRecord>, u: Unit) {
    exists i | 0 <= i < |records| :: Active(records[i]) && !(records[i].dispatch.unit.members !! u.members)
  }

  predicate Selectable(run: Run, u: Unit) {
    && ReadyUnit(run.progress, u) && |ActiveOf(run.records, u.kind)| < Capacity(run.policy, u.kind)
    && !OverlapsActive(run.records, u)
  }

  function FirstSelectable(run: Run, units: seq<Unit>): (u: Option<Unit>)
    ensures u.Some? ==> u.value in units && Selectable(run, u.value)
    ensures u.None? ==> forall i | 0 <= i < |units| :: !Selectable(run, units[i])
  {
    if units == [] then None
    else if Selectable(run, units[0]) then Some(units[0])
    else FirstSelectable(run, units[1..])
  }

  function ReservedRecord(d: Dispatch): DispatchRecord {
    DispatchRecord(d, Reserved, None, None, [], None)
  }

  function ReserveUnit(run: Run, nonce: string, u: Unit): Result<(Run, Option<Dispatch>), Fault> {
    var dependencies :- CaptureDependencies(run.progress, u);
    var d := Dispatch(u, nonce, run.progress, run.progress.epoch, dependencies);
    var next :- MakeRun(run.progress, run.policy, run.records + [ReservedRecord(d)]);
    Success((next, Some(d)))
  }

  function ReserveNext(run: Run, nonce: string): Result<(Run, Option<Dispatch>), Fault> {
    if NonceUsed(run, nonce) then Failure(InvalidDispatch)
    else if Stopped(run) then Success((run, None))
    else
      match FirstSelectable(run, run.progress.graph.units)
      case None => Success((run, None))
      case Some(u) => ReserveUnit(run, nonce, u)
  }

  /** The scan of `reserve_next`: the first ready unit with free capacity and no overlap. */
  method SelectUnit(run: Run) returns (selected: Option<Unit>)
    ensures selected == FirstSelectable(run, run.progress.graph.units)
  {
    var units := run.progress.graph.units;
    for i := 0 to |units|
      invariant FirstSelectable(run, units) == FirstSelectable(run, units[i..])
    {
      assert units[i..][0] == units[i] && units[i..][1..] == units[i + 1..];
      if ReadyUnit(run.progress, units[i]) {
        if |ActiveOf(run.records, units[i].kind)| < Capacity(run.policy, units[i].kind) {
          var overlap := FindOverlap(run.records, units[i]);
          if !overlap {
            return Some(units[i]);
          }
        }
      }
    }
    return None;
  }

  method FindOverlap(records: seq<DispatchRecord>, u: Unit) returns (overlap: bool)
    ensures overlap <==> OverlapsActive(records, u)
  {
    for i := 0 to |records|
      invariant forall k | 0 <= k < i && Active(records[k]) :: records[k].dispatch.unit.members !! u.members
    {
      if Active(records[i]) && !(records[i].dispatch.unit.members !! u.members) {
        return true;
      }
    }
    return false;
  }

  // ---------------------------------------------------------------- start, release, observe, complete

  function RecordIndex(records: seq<DispatchRecord>, d: Dispatch): (i: Option<nat>)
    ensures i.Some? ==> i.value < |records| && records[i.value].dispatch == d
    ensures i.None? ==> forall k | 0 <= k < |records| :: records[k].dispatch != d
  {
    if records == [] then None
    else if records[0].dispatch == d then Some(0)
    else
      match RecordIndex(records[1..], d)
      case None => None
      case Some(i) => Some(i + 1)
  }

  function RequireRecord(run: Run, d: Dispatch, expected: DispatchState): (r: Result<nat, Fault>)
    ensures r.Success? ==>
              r.value < |run.records| && run.records[r.value].dispatch == d && run.records[r.value].state == expected
  {
    var index := RecordIndex(run.records, d);
    if index.None? || run.records[index.value].state != expected then Failure(InvalidDispatch)
    else Success(index.value)
  }

  /** The unit is still ready, on the evidence and the epoch that it was reserved on. */
  function RequireCurrent(run: Run, d: Dispatch): Result<(), Fault> {
    if !ReadyUnit(run.progress, d.unit) then Failure(InvalidDispatch)
    else
      var current :- CaptureDependencies(run.progress, d.unit);
      if current != d.dependencies then Failure(InvalidDispatch)
      else if d.unit.kind == OperationUnit && d.reservedState != run.progress.epoch then Failure(InvalidDispatch)
      else Success(())
  }

  /** A request lists exactly the unit's phase nodes, which makes them its non-primary members. */
  predicate LifecycleBound(u: Unit, before: seq<NodeId>, after: seq<NodeId>) {
    Elements(before) + Elements(after) == u.members - {u.primary}
  }

  predicate Binds(d: Dispatch, s: Session) {
    && s.bound && s.kind == d.unit.kind && s.node == d.unit.primary
    && (s.kind == OperationUnit ==> s.expectedState == d.reservedState && LifecycleBound(d.unit, s.before, s.after))
  }

  function ReplaceRecord(run: Run, i: nat, r: DispatchRecord, p: Progress): Result<Run, Fault>
    requires i < |run.records|
  {
    MakeRun(p, run.policy, run.records[i := r])
  }

  function StartedRecord(d: Dispatch, session: Digest, effectAttempt: Option<string>): DispatchRecord {
    DispatchRecord(d, Started, Some(session), effectAttempt, [], None)
  }

  function CompletedRecord(r: DispatchRecord, evidence: string): DispatchRecord {
    r.(state := Completed, terminal := Some(evidence))
  }

  function ReleasedRecord(d: Dispatch): DispatchRecord {
    DispatchRecord(d, Released, None, None, [], None)
  }

  /** Start a construction or a check. */
  function StartWork(run: Run, d: Dispatch, s: Session): Result<Run, Fault> {
    if Stopped(run) then Failure(InvalidDispatch)
    else
      var i :- RequireRecord(run, d, Reserved);
      var _ :- RequireCurrent(run, d);
      if d.unit.kind == OperationUnit || !Binds(d, s) then Failure(InvalidDispatch)
      else ReplaceRecord(run, i, StartedRecord(d, s.identity, None), run.progress)
  }

  /** Start an operation: the new record names an effect attempt that is admitted with it. */
  function StartOperation(sha: Sha256, run: Run, d: Dispatch, s: Session, nonce: EffectJournal.Nonce)
    : Result<(Run, EffectJournal.Record), Fault>
  {
    if Stopped(run) then Failure(InvalidDispatch)
    else
      var i :- RequireRecord(run, d, Reserved);
      var _ :- RequireCurrent(run, d);
      if d.unit.kind != OperationUnit || !Binds(d, s) then Failure(InvalidDispatch)
      else
        match EffectJournal.Admit(sha, s.identity, |s.before|, |s.after|, nonce)
        case Failure(_) => Failure(InvalidAttempt)
        case Success(attempt) =>
          var next :- ReplaceRecord(run, i, StartedRecord(d, s.identity, Some(attempt.attempt)), run.progress);
          Success((next, attempt))
  }

  function ReleaseUnstarted(run: Run, d: Dispatch): Result<Run, Fault> {
    var i :- RequireRecord(run, d, Reserved);
    ReplaceRecord(run, i, ReleasedRecord(d), run.progress)
  }

  /** Complete a construction or a check. */
  function CompleteWork(run: Run, d: Dispatch, result: WorkResult): Result<Run, Fault> {
    var i :- RequireRecord(run, d, Started);
    var _ :- RequireCurrent(run, d);
    if d.unit.kind == OperationUnit || !Binds(d, result.session)
       || run.records[i].session != Some(result.session.identity) then Failure(InvalidDispatch)
    else
      match AdvanceWork(run.progress, result)
      case None => Failure(InvalidDispatch)
      case Some(next) => ReplaceRecord(run, i, CompletedRecord(run.records[i], result.identity), next)
  }

  function ObserveUncertain(run: Run, i: nat, observation: string): Result<Run, Fault>
    requires i < |run.records|
  {
    var r := run.records[i];
    if observation in r.observations then Failure(InvalidDispatch)
    else
      ReplaceRecord(run, i, DispatchRecord(r.dispatch, Started, r.session, r.effectAttempt,
                                           r.observations + [observation], None), run.progress)
  }

  /** Submit an operation result: an uncertain outcome is observed, a terminal one retires the dispatch. */
  function SubmitOperation(run: Run, d: Dispatch, result: EffectResult, resulting: Option<string>): Result<Run, Fault> {
    var i :- RequireRecord(run, d, Started);
    var _ :- RequireCurrent(run, d);
    if d.unit.kind != OperationUnit || !Binds(d, result.session)
       || run.records[i].session != Some(result.session.identity) then Failure(InvalidDispatch)
    else if !Terminates(result.outcome) then
      if resulting.Some? then Failure(InvalidDispatch) else ObserveUncertain(run, i, result.identity)
    else
      match AdvanceEffect(run.progress, result, resulting)
      case None => Failure(InvalidDispatch)
      case Some(next) => ReplaceRecord(run, i, CompletedRecord(run.records[i], result.identity), next)
  }

  // ---------------------------------------------------------------- histories

  datatype Command =
    | Reserve(nonce: string)
    | StartingWork(dispatch: Dispatch, session: Session)
    | StartingOperation(dispatch: Dispatch, session: Session, attemptNonce: EffectJournal.Nonce)
    | Releasing(dispatch: Dispatch)
    | CompletingWork(dispatch: Dispatch, work: WorkResult)
    | Submitting(dispatch: Dispatch, effect: EffectResult, resulting: Option<string>)

  function Apply(sha: Sha256, run: Run, c: Command): Result<Run, Fault> {
    match c
    case Reserve(nonce) => var r :- ReserveNext(run, nonce); Success(r.0)
    case StartingWork(d, s) => StartWork(run, d, s)
    case StartingOperation(d, s, nonce) => var r :- StartOperation(sha, run, d, s, nonce); Success(r.0)
    case Releasing(d) => ReleaseUnstarted(run, d)
    case CompletingWork(d, result) => CompleteWork(run, d, result)
    case Submitting(d, result, resulting) => SubmitOperation(run, d, result, resulting)
  }

  /** A refused command leaves the run as it was. */
  function After(sha: Sha256, run: Run, c: Command): Run {
    var r := Apply(sha, run, c);
    if r.Success? then r.value else run
  }

  function History(sha: Sha256, run: Run, commands: seq<Command>): Run
    decreases |commands|
  {
    if commands == [] then run else History(sha, After(sha, run, commands[0]), commands[1..])
  }
}
