/**
  Liveness: from a fresh run over an acyclic unit graph of N units, with drivers that always
  succeed, a drive of at least max(1, N) steps completes after max(1, N) steps.
 */
module RunnerLiveness {
  import opened Wrappers
  import opened Identity
  import opened Progression
  import opened Dispatch
  import opened DispatchLaws
  import opened RunJournal
  import opened RunJournalLaws
  import opened Runner
  import opened RunnerLaws
  import opened RunnerSteps
  import opened RunnerDrive
  import opened RunnerProgress
  import EffectJournal
  import EffectProtocol
  import ProgressionSweeps

  // ---------------------------------------------------------------- answering drivers

  /** The answers admit a session for the unit and bring it to success. */
  predicate Serves(p: Progress, u: Unit, a: Answers) {
    && a.session.Some?
    && var session := a.session.value;
       && session.bound && session.kind == u.kind && session.node == u.primary
       && if u.kind == OperationUnit then
            && session.expectedState == p.epoch && LifecycleBound(u, session.before, session.after)
            && |session.before| <= EffectJournal.MAXIMUM_LIFECYCLE_COUNT
            && |session.after| <= EffectJournal.MAXIMUM_LIFECYCLE_COUNT
            && a.effect.Some? && a.effect.value.session == session && a.effect.value.outcome.Completed?
            && a.state.Some? && ProvesSuccess(p, a.effect.value, a.state.value)
          else a.work.Some? && a.work.value.session == session && a.work.value.succeeded
  }

  /** A fresh nonce, every driver at hand, and success for the unit that is selected. */
  predicate Cooperative(s: Snapshot, a: Answers) {
    && !NonceUsed(s.run, a.nonce) && a.equipped && a.publishes && a.leases && a.access == Granted
    && var u := FirstSelectable(s.run, s.run.progress.graph.units);
       u.Some? ==> Serves(s.run.progress, u.value, a)
  }

  ghost predicate Cooperates(g: Graph, ask: (nat, Snapshot) -> Answers) {
    forall k: nat, s: Snapshot | s.run.progress.graph == g :: Cooperative(s, ask(k, s))
  }

  // ---------------------------------------------------------------- the last record of a run

  predicate LastIs(run: Run, earlier: seq<DispatchRecord>, r: DispatchRecord) {
    && run.records == earlier + [r] && forall i | 0 <= i < |earlier| :: earlier[i].dispatch != r.dispatch
  }

  lemma {:induction false} LastIsFound(earlier: seq<DispatchRecord>, r: DispatchRecord)
    requires forall i | 0 <= i < |earlier| :: earlier[i].dispatch != r.dispatch
    ensures RecordIndex(earlier + [r], r.dispatch) == Some(|earlier|)
    decreases |earlier|
  {
    var records := earlier + [r];
    if earlier != [] {
      assert records[0] == earlier[0] && records[1..] == earlier[1..] + [r];
      LastIsFound(earlier[1..], r);
    }
  }

  lemma LastIsRequired(run: Run, earlier: seq<DispatchRecord>, r: DispatchRecord)
    requires LastIs(run, earlier, r)
    ensures RequireRecord(run, r.dispatch, r.state) == Success(|earlier|) && RecordOf(run, r.dispatch) == Some(r)
    ensures |run.records| == |earlier| + 1 && run.records[|earlier|] == r
  {
    LastIsFound(earlier, r);
  }

  lemma LastIsReplaced(run: Run, earlier: seq<DispatchRecord>, r: DispatchRecord, n: DispatchRecord, q: Progress)
    requires LastIs(run, earlier, r) && n.dispatch == r.dispatch
    ensures run.records[|earlier| := n] == earlier + [n]
    ensures LastIs(Run(q, run.policy, earlier + [n]), earlier, n)
  {}

  // ---------------------------------------------------------------- the three transitions of a served unit

  lemma IdleSelects(run: Run, i: nat)
    requires LedgerSound(run) && Idle(run.records) && run.policy.constructions > 0 && run.policy.checks > 0
    requires i < |run.progress.graph.units| && ReadyUnit(run.progress, run.progress.graph.units[i])
    ensures FirstSelectable(run, run.progress.graph.units).Some?
  {
    var u := run.progress.graph.units[i];
    assert ActiveOf(run.records, u.kind) == {};
    assert Selectable(run, u);
  }

  lemma StartWorkServes(run: Run, earlier: seq<DispatchRecord>, d: Dispatch, session: Session)
    requires LedgerSound(run) && LastIs(run, earlier, ReservedRecord(d)) && !Stopped(run)
    requires d.unit.kind != OperationUnit && Binds(d, session)
    ensures var next := run.(records := earlier + [StartedRecord(d, session.identity, None)]);
            StartWork(run, d, session) == Success(next) && LedgerSound(next)
  {
    hide LedgerSound, Binds, RequireCurrent, ReplaceRecord, RequireRecord, HasFailed, LastIs;
    LastIsRequired(run, earlier, ReservedRecord(d));
    LastIsReplaced(run, earlier, ReservedRecord(d), StartedRecord(d, session.identity, None), run.progress);
    CurrentIsSound(run, d, |earlier|);
    StartKeeps(run, |earlier|, session.identity, None);
  }

  lemma StartOperationServes(sha: Sha256, run: Run, earlier: seq<DispatchRecord>, d: Dispatch, session: Session,
                             nonce: EffectJournal.Nonce)
    requires LedgerSound(run) && LastIs(run, earlier, ReservedRecord(d)) && !Stopped(run)
    requires d.unit.kind == OperationUnit && Binds(d, session)
    requires |session.before| <= EffectJournal.MAXIMUM_LIFECYCLE_COUNT
    requires |session.after| <= EffectJournal.MAXIMUM_LIFECYCLE_COUNT
    ensures var admitted := EffectJournal.Admit(sha, session.identity, |session.before|, |session.after|, nonce);
            && admitted.Success?
            && var next := run.(records := earlier + [StartedRecord(d, session.identity,
                                                                    Some(admitted.value.attempt))]);
               StartOperation(sha, run, d, session, nonce) == Success((next, admitted.value)) && LedgerSound(next)
  {
    hide LedgerSound, Binds, RequireCurrent, ReplaceRecord, RequireRecord, HasFailed, EffectJournal.Admit, LastIs;
    LastIsRequired(run, earlier, ReservedRecord(d));
    CurrentIsSound(run, d, |earlier|);
    EffectProtocol.AdmitIff(sha, session.identity, |session.before|, |session.after|, nonce);
    var attempt := EffectJournal.Admit(sha, session.identity, |session.before|, |session.after|, nonce).value;
    LastIsReplaced(run, earlier, ReservedRecord(d), StartedRecord(d, session.identity, Some(attempt.attempt)),
                   run.progress);
    StartKeeps(run, |earlier|, session.identity, Some(attempt.attempt));
  }

  /** `q` adds successful evidence for the unit, and changes nothing else but the epoch. */
  predicate Succeeds(p: Progress, q: Progress, u: Unit) {
    Adds(p, q, u) && q.evidence[u.primary].succeeded
  }

  lemma ReadyPrimary(run: Run, i: nat)
    requires LedgerSound(run) && i < |run.records| && Active(run.records[i])
    ensures ReadyNode(run.progress, run.records[i].dispatch.unit.primary)
    ensures run.records[i].dispatch.unit.primary !in run.progress.evidence
  {
    assert RecordSound(run.progress, run.records[i]);
    ProgressionSweeps.PrimaryInside(run.progress.graph, run.records[i].dispatch.unit);
    ProgressionSweeps.UnitIsFound(run.progress.graph, run.records[i].dispatch.unit,
                                  run.records[i].dispatch.unit.primary);
  }

  lemma WorkAdvances(p: Progress, result: WorkResult)
    requires ReadyNode(p, result.session.node) && result.session.node !in p.evidence
    ensures AdvanceWork(p, result).Some?
    ensures result.session.node in AdvanceWork(p, result).value.evidence
    ensures AdvanceWork(p, result).value.evidence[result.session.node].succeeded == result.succeeded
  {
    hide ReadyNode;
  }

  lemma EffectAdvances(p: Progress, effect: EffectResult, state: string)
    requires ReadyNode(p, effect.session.node) && effect.session.node !in p.evidence
    requires effect.session.expectedState == p.epoch && effect.outcome.Completed? && ProvesSuccess(p, effect, state)
    ensures AdvanceEffect(p, effect, Some(state)).Some?
    ensures effect.session.node in AdvanceEffect(p, effect, Some(state)).value.evidence
    ensures AdvanceEffect(p, effect, Some(state)).value.evidence[effect.session.node].succeeded
  {
    hide ReadyNode, ProvesSuccess;
  }

  lemma CompletionAdvances(run: Run, i: nat, result: WorkResult)
    requires LedgerSound(run) && i < |run.records| && run.records[i].state == Started
    requires run.records[i].session == Some(result.session.identity) && result.succeeded
    requires run.records[i].dispatch.unit.kind != OperationUnit && Binds(run.records[i].dispatch, result.session)
    ensures AdvanceWork(run.progress, result).Some?
    ensures var q := AdvanceWork(run.progress, result).value;
            && Succeeds(run.progress, q, run.records[i].dispatch.unit)
            && ReplaceRecord(run, i, CompletedRecord(run.records[i], result.identity), q)
            == Success(Run(q, run.policy, run.records[i := CompletedRecord(run.records[i], result.identity)]))
            && LedgerSound(Run(q, run.policy, run.records[i := CompletedRecord(run.records[i], result.identity)]))
  {
    ReadyPrimary(run, i);
    hide LedgerSound, ReplaceRecord, ReadyNode, AdvanceWork, CompletionSound;
    WorkAdvances(run.progress, result);
    WorkAdds(run, i, result);
    RetireKeeps(run, i, result.identity, AdvanceWork(run.progress, result).value);
  }

  lemma CompletionIsReplacement(run: Run, d: Dispatch, result: WorkResult, i: nat)
    requires RequireRecord(run, d, Started) == Success(i) && RequireCurrent(run, d) == Success(())
    requires d.unit.kind != OperationUnit && Binds(d, result.session)
    requires run.records[i].session == Some(result.session.identity)
    requires AdvanceWork(run.progress, result).Some?
    ensures CompleteWork(run, d, result)
         == ReplaceRecord(run, i, CompletedRecord(run.records[i], result.identity),
                          AdvanceWork(run.progress, result).value)
  {
    hide RequireRecord, RequireCurrent, Binds, AdvanceWork, ReplaceRecord;
  }

  lemma CompleteWorkServes(run: Run, earlier: seq<DispatchRecord>, r: DispatchRecord, result: WorkResult)
    requires LedgerSound(run) && LastIs(run, earlier, r) && r.state == Started
    requires r.session == Some(result.session.identity)
    requires r.dispatch.unit.kind != OperationUnit && Binds(r.dispatch, result.session) && result.succeeded
    ensures CompleteWork(run, r.dispatch, result).Success?
    ensures var next := CompleteWork(run, r.dispatch, result).value;
            && LedgerSound(next) && LastIs(next, earlier, CompletedRecord(r, result.identity))
            && Succeeds(run.progress, next.progress, r.dispatch.unit) && next.policy == run.policy
  {
    hide LedgerSound, RequireCurrent, ReplaceRecord, RequireRecord, AdvanceWork, LastIs, Binds, Succeeds, CompleteWork;
    LastIsRequired(run, earlier, r);
    CurrentIsSound(run, r.dispatch, |earlier|);
    CompletionAdvances(run, |earlier|, result);
    CompletionIsReplacement(run, r.dispatch, result, |earlier|);
    LastIsReplaced(run, earlier, r, CompletedRecord(r, result.identity), AdvanceWork(run.progress, result).value);
  }

  lemma SubmitAdvances(run: Run, i: nat, effect: EffectResult, state: string)
    requires LedgerSound(run) && i < |run.records| && run.records[i].state == Started
    requires run.records[i].session == Some(effect.session.identity)
    requires run.records[i].dispatch.unit.kind == OperationUnit && Binds(run.records[i].dispatch, effect.session)
    requires effect.outcome.Completed? && effect.session.expectedState == run.progress.epoch
    requires ProvesSuccess(run.progress, effect, state)
    ensures AdvanceEffect(run.progress, effect, Some(state)).Some?
    ensures var q := AdvanceEffect(run.progress, effect, Some(state)).value;
            && Succeeds(run.progress, q, run.records[i].dispatch.unit)
            && ReplaceRecord(run, i, CompletedRecord(run.records[i], effect.identity), q)
            == Success(Run(q, run.policy, run.records[i := CompletedRecord(run.records[i], effect.identity)]))
            && LedgerSound(Run(q, run.policy, run.records[i := CompletedRecord(run.records[i], effect.identity)]))
  {
    ReadyPrimary(run, i);
    hide LedgerSound, ReplaceRecord, ReadyNode, ProvesSuccess, AdvanceEffect, CompletionSound, LifecycleBound;
    EffectAdvances(run.progress, effect, state);
    EffectAdds(run, i, effect, Some(state));
    RetireKeeps(run, i, effect.identity, AdvanceEffect(run.progress, effect, Some(state)).value);
  }

  lemma SubmitIsReplacement(run: Run, d: Dispatch, effect: EffectResult, resulting: Option<string>, i: nat)
    requires RequireRecord(run, d, Started) == Success(i) && RequireCurrent(run, d) == Success(())
    requires d.unit.kind == OperationUnit && Binds(d, effect.session)
    requires run.records[i].session == Some(effect.session.identity)
    requires Terminates(effect.outcome) && AdvanceEffect(run.progress, effect, resulting).Some?
    ensures SubmitOperation(run, d, effect, resulting)
         == ReplaceRecord(run, i, CompletedRecord(run.records[i], effect.identity),
                          AdvanceEffect(run.progress, effect, resulting).value)
  {
    hide RequireRecord, RequireCurrent, Binds, AdvanceEffect, ReplaceRecord;
  }

  lemma SubmitServes(run: Run, earlier: seq<DispatchRecord>, r: DispatchRecord, effect: EffectResult, state: string)
    requires LedgerSound(run) && LastIs(run, earlier, r) && r.state == Started
    requires r.session == Some(effect.session.identity)
    requires r.dispatch.unit.kind == OperationUnit && Binds(r.dispatch, effect.session) && effect.outcome.Completed?
    requires effect.session.expectedState == run.progress.epoch && ProvesSuccess(run.progress, effect, state)
    ensures SubmitOperation(run, r.dispatch, effect, Some(state)).Success?
    ensures var next := SubmitOperation(run, r.dispatch, effect, Some(state)).value;
            && LedgerSound(next) && LastIs(next, earlier, CompletedRecord(r, effect.identity))
            && Succeeds(run.progress, next.progress, r.dispatch.unit) && next.policy == run.policy
  {
    hide LedgerSound, RequireCurrent, ReplaceRecord, RequireRecord, ProvesSuccess, AdvanceEffect, LastIs, Binds,
      Succeeds, SubmitOperation;
    LastIsRequired(run, earlier, r);
    CurrentIsSound(run, r.dispatch, |earlier|);
    SubmitAdvances(run, |earlier|, effect, state);
    SubmitIsReplacement(run, r.dispatch, effect, Some(state), |earlier|);
    LastIsReplaced(run, earlier, r, CompletedRecord(r, effect.identity),
                   AdvanceEffect(run.progress, effect, Some(state)).value);
  }

  // ---------------------------------------------------------------- one step serves one unit

  /** A ready unit succeeded. */
  predicate Served(p: Progress, q: Progress, u: Unit) {
    ReadyUnit(p, u) && Succeeds(p, q, u)
  }

  /** The step completed one more unit successfully, in three transitions. */
  predicate StepServes(s: Snapshot, step: Step) {
    && step.run == step.head.run && step.head.sequence == s.sequence + 3
    && step.run.progress.graph == s.run.progress.graph && step.run.policy == s.run.policy
    && !RetainsUncertainty(step)
    && (step.disposition == ExecutedConstruction || step.disposition == ExecutedCheck
        || step.disposition == ExecutedOperation)
    && exists i | 0 <= i < |s.run.progress.graph.units| ::
          Served(s.run.progress, step.run.progress, s.run.progress.graph.units[i])
  }

  lemma MovesOn(s: Snapshot, next: Run)
    requires s.sequence < MAXIMUM_SEQUENCE && Transits(s.run, next)
    ensures Successor(s, next).Success? && Successor(s, next).value.run == next
    ensures Successor(s, next).value.sequence == s.sequence + 1
  {
    hide Transits;
  }

  lemma ExecuteWorkServes(sha: Sha256, s: Snapshot, earlier: seq<DispatchRecord>, d: Dispatch, a: Answers, p: Progress)
    requires LedgerSound(s.run) && LastIs(s.run, earlier, ReservedRecord(d)) && !Stopped(s.run) && s.run.progress == p
    requires d.unit.kind != OperationUnit && Serves(p, d.unit, a) && a.publishes && s.sequence + 2 <= MAXIMUM_SEQUENCE
    ensures var r := ExecuteWork(s, d, a.session.value, a).result;
            && r.Success? && r.value.run == r.value.head.run && r.value.head.sequence == s.sequence + 2
            && Succeeds(p, r.value.run.progress, d.unit) && r.value.run.policy == s.run.policy
            && (r.value.disposition == ExecutedConstruction || r.value.disposition == ExecutedCheck)
            && !r.value.evidence.OperationEvidence?
  {
    hide LedgerSound, Transits, LastIs, Succeeds, Successor, StartWork, CompleteWork, HasFailed;
    var session, result := a.session.value, a.work.value;
    StartWorkServes(s.run, earlier, d, session);
    StartWorkTransits(s.run, d, session);
    var started := StartWork(s.run, d, session).value;
    MovesOn(s, started);
    var head := Successor(s, started).value;
    var r := StartedRecord(d, session.identity, None);
    StillLast(s.run, earlier, ReservedRecord(d), r);
    CompleteWorkServes(started, earlier, r, result);
    CompleteWorkTransits(started, d, result);
    MovesOn(head, CompleteWork(started, d, result).value);
  }

  lemma StillLast(run: Run, earlier: seq<DispatchRecord>, r: DispatchRecord, n: DispatchRecord)
    requires LastIs(run, earlier, r) && n.dispatch == r.dispatch
    ensures LastIs(run.(records := earlier + [n]), earlier, n)
  {}

  lemma ExecuteOperationServes(sha: Sha256, s: Snapshot, earlier: seq<DispatchRecord>, d: Dispatch, a: Answers,
                               p: Progress)
    requires LedgerSound(s.run) && LastIs(s.run, earlier, ReservedRecord(d)) && !Stopped(s.run) && s.run.progress == p
    requires d.unit.kind == OperationUnit && Serves(p, d.unit, a) && a.leases && s.sequence + 2 <= MAXIMUM_SEQUENCE
    requires d.reservedState == p.epoch
    ensures var r := ExecuteOperation(sha, s, d, a.session.value, a).result;
            && r.Success? && r.value.run == r.value.head.run && r.value.head.sequence == s.sequence + 2
            && Succeeds(p, r.value.run.progress, d.unit) && r.value.run.policy == s.run.policy
            && r.value.disposition == ExecutedOperation && !RetainsUncertainty(r.value)
  {
    hide LedgerSound, Transits, LastIs, Succeeds, Successor, StartOperation, SubmitOperation, HasFailed,
      EffectJournal.Admit, ProvesSuccess;
    var session, effect, state := a.session.value, a.effect.value, a.state.value;
    StartOperationServes(sha, s.run, earlier, d, session, a.attemptNonce);
    StartOperationTransits(sha, s.run, d, session, a.attemptNonce);
    var started := StartOperation(sha, s.run, d, session, a.attemptNonce).value.0;
    var attempt := StartOperation(sha, s.run, d, session, a.attemptNonce).value.1.attempt;
    MovesOn(s, started);
    var head := Successor(s, started).value;
    var r := StartedRecord(d, session.identity, Some(attempt));
    StillLast(s.run, earlier, ReservedRecord(d), r);
    SubmitServes(started, earlier, r, effect, state);
    SubmitTransits(started, d, effect, Some(state));
    MovesOn(head, SubmitOperation(started, d, effect, Some(state)).value);
    LastIsRequired(SubmitOperation(started, d, effect, Some(state)).value, earlier,
                   CompletedRecord(r, effect.identity));
  }

  lemma NewNonceIsNewDispatch(run: Run, d: Dispatch)
    requires !NonceUsed(run, d.nonce)
    ensures LastIs(run.(records := run.records + [ReservedRecord(d)]), run.records, ReservedRecord(d))
  {}

  lemma ReservationServes(sha: Sha256, s: Snapshot, a: Answers)
    requires LedgerSound(s.run) && !Stopped(s.run) && s.sequence + 3 <= MAXIMUM_SEQUENCE && Cooperative(s, a)
    requires FirstSelectable(s.run, s.run.progress.graph.units).Some?
    ensures var r := ReserveAndExecute(sha, s, a).result; r.Success? && StepServes(s, r.value)
  {
    hide LedgerSound, Transits, LastIs, Succeeds, Successor, HasFailed, Serves, Selectable, ReserveUnit, ExecuteWork,
      ExecuteOperation, NonceUsed, RetainsUncertainty;
    var u := FirstSelectable(s.run, s.run.progress.graph.units).value;
    ReserveKeeps(s.run, a.nonce, u);
    var d := ReserveNext(s.run, a.nonce).value.1.value;
    var next := ReserveNext(s.run, a.nonce).value.0;
    ReserveTransits(s.run, a.nonce);
    MovesOn(s, next);
    var head := Successor(s, next).value;
    NewNonceIsNewDispatch(s.run, d);
    SessionIsServed(s.run.progress, u, a);
    if u.kind != OperationUnit {
      ExecuteWorkServes(sha, head, s.run.records, d, a, s.run.progress);
      NoUncertainty(ExecuteWork(head, d, a.session.value, a).result.value);
    } else {
      ExecuteOperationServes(sha, head, s.run.records, d, a, s.run.progress);
    }
    var step := ReserveAndExecute(sha, s, a).result.value;
    assert Served(s.run.progress, step.run.progress, u) by { SelectableIsReady(s.run, u); }
    SucceedsKeepsGraph(s.run.progress, step.run.progress, u);
    var i :| 0 <= i < |s.run.progress.graph.units| && s.run.progress.graph.units[i] == u;
  }

  lemma SelectableIsReady(run: Run, u: Unit)
    requires Selectable(run, u)
    ensures ReadyUnit(run.progress, u)
  {}

  lemma SessionIsServed(p: Progress, u: Unit, a: Answers)
    requires Serves(p, u, a)
    ensures a.session.Some?
  {}

  lemma SucceedsKeepsGraph(p: Progress, q: Progress, u: Unit)
    requires Succeeds(p, q, u)
    ensures q.graph == p.graph
  {}

  lemma NoUncertainty(step: Step)
    requires !step.evidence.OperationEvidence?
    ensures !RetainsUncertainty(step)
  {}

  lemma StepServesUnit(sha: Sha256, disk: RunDisk, a: Answers)
    requires DiskSound(disk) && Idle(disk.head.run.records) && !Stopped(disk.head.run) && !NothingReady(disk.head.run)
    requires disk.head.run.policy.constructions > 0 && disk.head.run.policy.checks > 0
    requires Cooperative(disk.head, a) && disk.head.sequence + 3 <= MAXIMUM_SEQUENCE
    ensures var r := CheckedAdvance(sha, disk.head, a).result; r.Success? && StepServes(disk.head, r.value)
  {
    var s := disk.head;
    DiskIsLedgerSound(disk);
    AdvanceIsGood(sha, disk, a);
    SoundHeadReopens(disk);
    IdleHasNoActive(s.run.records);
    var i :| 0 <= i < |s.run.progress.graph.units| && ReadyUnit(s.run.progress, s.run.progress.graph.units[i]);
    IdleSelects(s.run, i);
    ReservationServes(sha, s, a);
    hide DiskSound, Reopen, ReserveAndExecute, StepServes, PlanGood, CheckedAdvance;
  }

  // ---------------------------------------------------------------- the whole drive

  lemma {:induction false} SameSize(a: set<nat>, b: set<nat>, i: nat)
    requires i in a && b == a - {i}
    ensures |b| == |a| - 1
  {}

  /** One open unit fewer. */
  lemma OpenShrinks(p: Progress, q: Progress, i: nat)
    requires ProgressSound(p) && i < |p.graph.units| && Adds(p, q, p.graph.units[i])
    ensures |OpenUnits(q.graph.units, q.evidence)| == |OpenUnits(p.graph.units, p.evidence)| - 1
  {
    var u := p.graph.units[i];
    forall k | 0 <= k < |p.graph.units| && k != i
      ensures p.graph.units[k].primary != u.primary
    {
      ProgressionSweeps.PrimaryInside(p.graph, u);
      ProgressionSweeps.PrimaryInside(p.graph, p.graph.units[k]);
    }
    assert OpenUnits(q.graph.units, q.evidence) == OpenUnits(p.graph.units, p.evidence) - {i};
    SameSize(OpenUnits(p.graph.units, p.evidence), OpenUnits(q.graph.units, q.evidence), i);
  }

  lemma FailureIsNotNew(p: Progress, q: Progress, u: Unit, n: NodeId)
    requires Succeeds(p, q, u) && n in q.graph.nodes
    ensures Seed(q.graph, q.evidence, n) == Failed ==> Seed(p.graph, p.evidence, n) == Failed
  {}

  lemma SuccessAddsNoFailure(p: Progress, q: Progress, u: Unit)
    requires ProgressSound(p) && Succeeds(p, q, u) && !HasFailed(p)
    ensures !HasFailed(q)
  {
    forall n | n in q.graph.nodes
      ensures Seed(q.graph, q.evidence, n) != Failed
    {
      FailureIsNotNew(p, q, u, n);
    }
  }

  predicate ReadyToDrive(disk: RunDisk, g: Graph, n: nat) {
    && DiskSound(disk) && Idle(disk.head.run.records) && !Stopped(disk.head.run)
    && disk.head.run.progress.graph == g && |OpenUnits(g.units, disk.head.run.progress.evidence)| == n
    && disk.head.run.policy.constructions > 0 && disk.head.run.policy.checks > 0
    && disk.head.sequence + 3 * n <= MAXIMUM_SEQUENCE
  }

  lemma ServedIsClassified(s: Snapshot, step: Step)
    requires StepServes(s, step) && !Stopped(step.run)
    ensures ClassifyStop(step) == if Complete(step.run.progress) then DriveCompleted else StepLimit
  {
    hide Complete, HasFailed, RetainsUncertainty;
  }

  lemma DriveStep(sha: Sha256, disk: RunDisk, g: Graph, n: nat, a: Answers, rank: NodeId -> nat)
    requires ReadyToDrive(disk, g, n) && 0 < n && Ranked(g, rank) && Cooperative(disk.head, a)
    ensures var r := CheckedAdvance(sha, disk.head, a).result;
            var end := PersistAll(disk, Advance(sha, disk.head, a).writes);
            && r.Success? && r.value.head == end.head
            && ClassifyStop(r.value) == (if n == 1 then DriveCompleted else StepLimit)
            && (n > 1 ==> ReadyToDrive(end, g, n - 1))
  {
    var p := disk.head.run.progress;
    DiskIsLedgerSound(disk);
    SoundLedgerProgress(disk.head.run);
    CompleteMeansClosed(p);
    hide DiskSound, Ranked, NothingReady, CheckedAdvance, Advance, PersistAll, ClassifyStop, ProgressSound, LedgerSound,
         Cooperative, HasFailed, Complete, Idle, OpenUnits, OneActive, StepServes;
    assert OpenUnits(g.units, p.evidence) != {};
    SomethingIsReady(disk.head.run, rank);
    StepServesUnit(sha, disk, a);
    var step := CheckedAdvance(sha, disk.head, a).result.value;
    StepFacts(sha, disk, a, step);
    ServedFacts(disk.head, step);
    OneServed(disk.head, step);
    StepIsSound(sha, disk, a, step);
    CompleteMeansClosed(step.run.progress);
    ServedIsClassified(disk.head, step);
    OnlyEmpty(OpenUnits(g.units, step.run.progress.evidence));
  }

  lemma OnlyEmpty(s: set<nat>)
    ensures s == {} <==> |s| == 0
  {}

  lemma ServedFacts(s: Snapshot, step: Step)
    requires StepServes(s, step)
    ensures step.head.sequence == s.sequence + 3 && step.run == step.head.run
  {}

  lemma StepIsSound(sha: Sha256, disk: RunDisk, a: Answers, step: Step)
    requires DiskSound(disk) && CheckedAdvance(sha, disk.head, a).result == Success(step)
    ensures ProgressSound(step.run.progress)
  {
    hide DiskSound, CheckedAdvance, Advance, PersistAll, ClassifyStop, ProgressSound, LedgerSound, HasFailed, Complete,
      Idle;
    StepFacts(sha, disk, a, step);
    DiskIsLedgerSound(PersistAll(disk, Advance(sha, disk.head, a).writes));
    SoundLedgerProgress(step.run);
  }

  lemma DriveUnfolds(sha: Sha256, s: Snapshot, bound: nat, ask: (nat, Snapshot) -> Answers)
    requires bound > 0 && CheckedAdvance(sha, s, ask(bound, s)).result.Success?
    ensures var step := CheckedAdvance(sha, s, ask(bound, s)).result.value;
            && (ClassifyStop(step) != StepLimit ==> Drive(sha, s, bound, ask) == Ended(ClassifyStop(step), [step]))
            && (ClassifyStop(step) == StepLimit ==>
                  Drive(sha, s, bound, ask) == Prepend(step, Drive(sha, step.head, bound - 1, ask)))
  {
    hide CheckedAdvance, ClassifyStop, Prepend;
  }

  predicate CompletesIn(outcome: DriveOutcome, n: nat) {
    outcome.Ended? && outcome.disposition == DriveCompleted && |outcome.steps| == n
  }

  lemma PrependCompletes(step: Step, rest: DriveOutcome, n: nat)
    requires CompletesIn(rest, n)
    ensures CompletesIn(Prepend(step, rest), n + 1)
  {}

  lemma CooperatesHere(disk: RunDisk, g: Graph, n: nat, k: nat, ask: (nat, Snapshot) -> Answers)
    requires ReadyToDrive(disk, g, n) && Cooperates(g, ask)
    ensures Cooperative(disk.head, ask(k, disk.head))
  {
    hide DiskSound, Cooperative, Idle, HasFailed, OpenUnits;
  }

  lemma {:induction false} DriveServes(sha: Sha256, disk: RunDisk, g: Graph, n: nat, bound: nat,
                                       ask: (nat, Snapshot) -> Answers, rank: NodeId -> nat)
    requires ReadyToDrive(disk, g, n) && 0 < n <= bound && Ranked(g, rank) && Cooperates(g, ask)
    ensures CompletesIn(Drive(sha, disk.head, bound, ask), n)
    decreases n
  {
    hide *;
    CooperatesHere(disk, g, n, bound, ask);
    DriveStep(sha, disk, g, n, ask(bound, disk.head), rank);
    DriveUnfolds(sha, disk.head, bound, ask);
    var step := CheckedAdvance(sha, disk.head, ask(bound, disk.head)).result.value;
    if n > 1 {
      DriveServes(sha, PersistAll(disk, Advance(sha, disk.head, ask(bound, disk.head)).writes), g, n - 1, bound - 1,
                  ask, rank);
      PrependCompletes(step, Drive(sha, step.head, bound - 1, ask), n - 1);
    } else {
      OneStepCompletes(step);
    }
  }

  lemma OneStepCompletes(step: Step)
    ensures CompletesIn(Ended(DriveCompleted, [step]), 1)
  {}

  lemma OneServed(s: Snapshot, step: Step)
    requires ProgressSound(s.run.progress) && !Stopped(s.run) && StepServes(s, step)
    ensures !Stopped(step.run)
    ensures |OpenUnits(step.run.progress.graph.units, step.run.progress.evidence)|
         == |OpenUnits(s.run.progress.graph.units, s.run.progress.evidence)| - 1
  {
    hide ProgressSound, HasFailed, OpenUnits, Succeeds;
    var i :| 0 <= i < |s.run.progress.graph.units|
        && Served(s.run.progress, step.run.progress, s.run.progress.graph.units[i]);
    SuccessAddsNoFailure(s.run.progress, step.run.progress, s.run.progress.graph.units[i]);
    SucceedsAdds(s.run.progress, step.run.progress, s.run.progress.graph.units[i]);
    OpenShrinks(s.run.progress, step.run.progress, i);
  }

  lemma SucceedsAdds(p: Progress, q: Progress, u: Unit)
    requires Succeeds(p, q, u)
    ensures Adds(p, q, u)
  {}

  lemma EmptyRunIsComplete(disk: RunDisk, g: Graph)
    requires ReadyToDrive(disk, g, 0)
    ensures Complete(disk.head.run.progress) && NothingReady(disk.head.run)
  {
    var run := disk.head.run;
    DiskIsLedgerSound(disk);
    SoundLedgerProgress(run);
    OnlyEmpty(OpenUnits(g.units, run.progress.evidence));
    hide DiskSound, LedgerSound, ProgressSound, OpenUnits, Complete, HasFailed, NothingReady, Idle;
    CompleteMeansClosed(run.progress);
    ClosedIsNotReady(run);
  }

  lemma EmptyStep(sha: Sha256, disk: RunDisk, g: Graph, a: Answers)
    requires ReadyToDrive(disk, g, 0)
    ensures var r := CheckedAdvance(sha, disk.head, a).result;
            r.Success? && ClassifyStop(r.value) == DriveCompleted
  {
    hide DiskSound, Reopen, ReserveAndExecute, OpenUnits, PlanGood, AdvanceResultValid, Complete, HasFailed,
      CheckedAdvance,
         ReconcileActive, NothingReady, Idle;
    EmptyRunIsComplete(disk, g);
    AdvanceIsGood(sha, disk, a);
    SoundHeadReopens(disk);
    IdleHasNoActive(disk.head.run.records);
  }

  lemma EmptyDrive(sha: Sha256, disk: RunDisk, g: Graph, bound: nat, ask: (nat, Snapshot) -> Answers)
    requires ReadyToDrive(disk, g, 0) && bound > 0
    ensures CompletesIn(Drive(sha, disk.head, bound, ask), 1)
  {
    hide *;
    EmptyStep(sha, disk, g, ask(bound, disk.head));
    DriveUnfolds(sha, disk.head, bound, ask);
    OneStepCompletes(CheckedAdvance(sha, disk.head, ask(bound, disk.head)).result.value);
  }

  lemma ClosedIsNotReady(run: Run)
    requires OpenUnits(run.progress.graph.units, run.progress.evidence) == {}
    ensures NothingReady(run)
  {
    forall i | 0 <= i < |run.progress.graph.units|
      ensures !ReadyUnit(run.progress, run.progress.graph.units[i])
    {
      assert i !in OpenUnits(run.progress.graph.units, run.progress.evidence);
    }
  }

  /** A fresh run of N units is driven to completion in max(1, N) steps. */
  lemma FreshDriveCompletes(sha: Sha256, g: Graph, epoch: string, policy: Policy, journal: string, bound: nat,
                            ask: (nat, Snapshot) -> Answers, rank: NodeId -> nat)
    requires WellFormed(g) && Ranked(g, rank) && policy.constructions > 0 && policy.checks > 0
    requires Cooperates(g, ask) && bound >= 1 && bound >= |g.units| && 3 * |g.units| <= MAXIMUM_SEQUENCE
    ensures CompletesIn(Drive(sha, FreshDisk(g, epoch, policy, journal).head, bound, ask),
                        if |g.units| == 0 then 1 else |g.units|)
  {
    var disk := FreshDisk(g, epoch, policy, journal);
    FreshDiskIsSound(g, epoch, policy, journal);
    DiskIsLedgerSound(disk);
    SoundLedgerProgress(disk.head.run);
    AllOpen(g.units);
    NoEvidenceNoFailure(g, epoch);
    hide DiskSound, Ranked, WellFormed, OpenUnits, HasFailed, Cooperates, Drive;
    if |g.units| == 0 {
      EmptyDrive(sha, disk, g, bound, ask);
    } else {
      DriveServes(sha, disk, g, |g.units|, bound, ask, rank);
    }
  }

  lemma {:induction false} AllOpen(units: seq<Unit>)
    ensures |OpenUnits(units, map[])| == |units|
    decreases |units|
  {
    if units == [] {
      assert OpenUnits(units, map[]) == {};
    } else {
      var last := |units| - 1;
      AllOpen(units[..last]);
      assert OpenUnits(units, map[]) == OpenUnits(units[..last], map[]) + {last};
    }
  }

  lemma NoEvidenceNoFailure(g: Graph, epoch: string)
    ensures !HasFailed(Progress(g, epoch, map[]))
  {}
}
