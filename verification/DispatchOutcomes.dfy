/**
  What each ledger command accepts and what it makes of the run, written out case by case, and what
  the reported results decide about every later start.
 */
module DispatchOutcomes {
  import opened Wrappers
  import opened Identity
  import opened Progression
  import opened Dispatch
  import opened Sequences
  import opened DispatchLaws
  import opened RunJournalLaws
  import EffectJournal
  import ProgressionSweeps

  predicate StandsAt(run: Run, i: nat, d: Dispatch, state: DispatchState) {
    i < |run.records| && run.records[i].dispatch == d && run.records[i].state == state
  }

  predicate NothingFailed(p: Progress) {
    forall n | n in p.graph.nodes :: Seed(p.graph, p.evidence, n) != Failed
  }

  /** The session is for the unit of the dispatch and what is bound to it. */
  ghost predicate IsFor(s: Session, d: Dispatch) {
    && s.bound && s.kind == d.unit.kind && s.node == d.unit.primary
    && (d.unit.kind == OperationUnit ==>
          && s.expectedState == d.reservedState
          && (forall n :: n in s.before || n in s.after <==> n in d.unit.members && n != d.unit.primary))
  }

  lemma BindsIff(d: Dispatch, s: Session)
    ensures Binds(d, s) <==> IsFor(s, d)
  {
    if IsFor(s, d) && s.kind == OperationUnit {
      assert Elements(s.before) + Elements(s.after) == d.unit.members - {d.unit.primary};
    }
    if Binds(d, s) && s.kind == OperationUnit {
      forall n
        ensures n in s.before || n in s.after <==> n in d.unit.members && n != d.unit.primary
      {
        assert n in Elements(s.before) + Elements(s.after) <==> n in d.unit.members - {d.unit.primary};
      }
    }
  }

  // ---------------------------------------------------------------- which record a command is about

  lemma RecordIsFound(run: Run, i: nat, d: Dispatch, expected: DispatchState)
    requires LedgerSound(run) && i < |run.records| && run.records[i].dispatch == d
    ensures RequireRecord(run, d, expected) ==
              if run.records[i].state == expected then Success(i) else Failure(InvalidDispatch)
  {
    hide RecordSound, ProgressSound, ActiveOf;
    var k := RecordIndex(run.records, d).value;
    assert k == i;
  }

  lemma UnknownIsRefused(run: Run, d: Dispatch, expected: DispatchState)
    requires forall i | 0 <= i < |run.records| :: run.records[i].dispatch != d
    ensures RequireRecord(run, d, expected) == Failure(InvalidDispatch)
  {}

  /** A dispatch that the ledger does not hold, or not in the state that the command needs, is refused. */
  lemma MisplacedIsRefused(sha: Sha256, run: Run, d: Dispatch, c: Command)
    requires LedgerSound(run)
    requires match c
             case Reserve(_) => false
             case StartingWork(x, _) => x == d && forall i :: !StandsAt(run, i, d, Reserved)
             case StartingOperation(x, _, _) => x == d && forall i :: !StandsAt(run, i, d, Reserved)
             case Releasing(x) => x == d && forall i :: !StandsAt(run, i, d, Reserved)
             case CompletingWork(x, _) => x == d && forall i :: !StandsAt(run, i, d, Started)
             case Submitting(x, _, _) => x == d && forall i :: !StandsAt(run, i, d, Started)
    ensures Apply(sha, run, c) == Failure(InvalidDispatch)
  {
    var expected := if c.CompletingWork? || c.Submitting? then Started else Reserved;
    if i :| 0 <= i < |run.records| && run.records[i].dispatch == d {
      assert !StandsAt(run, i, d, expected);
      RecordIsFound(run, i, d, expected);
    } else {
      UnknownIsRefused(run, d, expected);
    }
    hide LedgerSound, RequireRecord, RequireCurrent, ReplaceRecord, HasFailed;
  }

  // ---------------------------------------------------------------- starting and releasing

  lemma StoppedIff(run: Run)
    ensures Stopped(run) <==> !NothingFailed(run.progress)
  {
    hide Seed;
  }

  lemma StartWorkExactly(run: Run, d: Dispatch, s: Session, i: nat)
    requires LedgerSound(run) && StandsAt(run, i, d, Reserved)
    ensures StartWork(run, d, s).Success? <==>
              NothingFailed(run.progress) && d.unit.kind != OperationUnit && IsFor(s, d)
    ensures StartWork(run, d, s).Success? ==>
              StartWork(run, d, s).value
              == run.(records := run.records[i := DispatchRecord(d, Started, Some(s.identity), None, [], None)])
  {
    StoppedIff(run);
    RecordIsFound(run, i, d, Reserved);
    CurrentIsSound(run, d, i);
    BindsIff(d, s);
    hide LedgerSound, RequireRecord, RequireCurrent, ReplaceRecord, Binds, IsFor, HasFailed, NothingFailed;
    if !Stopped(run) {
      if d.unit.kind != OperationUnit {
        StartKeeps(run, i, s.identity, None);
      }
    }
  }

  lemma StartOperationExactly(sha: Sha256, run: Run, d: Dispatch, s: Session, nonce: EffectJournal.Nonce, i: nat)
    requires LedgerSound(run) && StandsAt(run, i, d, Reserved)
    ensures StartOperation(sha, run, d, s, nonce).Success? <==>
              && NothingFailed(run.progress) && d.unit.kind == OperationUnit && IsFor(s, d)
              && |s.before| <= EffectJournal.MAXIMUM_LIFECYCLE_COUNT
              && |s.after| <= EffectJournal.MAXIMUM_LIFECYCLE_COUNT
    ensures StartOperation(sha, run, d, s, nonce).Success? ==>
              var attempt := StartOperation(sha, run, d, s, nonce).value.1;
              && EffectJournal.Admit(sha, s.identity, |s.before|, |s.after|, nonce) == Success(attempt)
              && StartOperation(sha, run, d, s, nonce).value.0
                 == run.(records := run.records[i := DispatchRecord(d, Started, Some(s.identity), Some(attempt.attempt),
                                                                    [], None)])
  {
    StoppedIff(run);
    RecordIsFound(run, i, d, Reserved);
    CurrentIsSound(run, d, i);
    BindsIff(d, s);
    AdmitIff(sha, s, nonce);
    hide LedgerSound, RequireRecord, RequireCurrent, ReplaceRecord, Binds, IsFor, HasFailed, NothingFailed,
      EffectJournal.Admit;
    var attempt := EffectJournal.Admit(sha, s.identity, |s.before|, |s.after|, nonce);
    if !Stopped(run) && d.unit.kind == OperationUnit && attempt.Success? {
      StartKeeps(run, i, s.identity, Some(attempt.value.attempt));
    }
  }

  lemma AdmitIff(sha: Sha256, s: Session, nonce: EffectJournal.Nonce)
    ensures EffectJournal.Admit(sha, s.identity, |s.before|, |s.after|, nonce).Success? <==>
              |s.before| <= EffectJournal.MAXIMUM_LIFECYCLE_COUNT && |s.after| <= EffectJournal.MAXIMUM_LIFECYCLE_COUNT
  {}

  lemma ReleaseExactly(run: Run, d: Dispatch, i: nat)
    requires LedgerSound(run) && StandsAt(run, i, d, Reserved)
    ensures ReleaseUnstarted(run, d)
         == Success(run.(records := run.records[i := DispatchRecord(d, Released, None, None, [], None)]))
  {
    RecordIsFound(run, i, d, Reserved);
    hide LedgerSound, ReplaceRecord, RequireRecord;
    SameProgressKeeps(run, i, ReleasedRecord(d));
  }

  // ---------------------------------------------------------------- reporting results

  /** `next` is `run` with this evidence for the unit of record `i`, which it completes. */
  predicate Retires(run: Run, next: Run, i: nat, e: Evidence, epoch: string) {
    && i < |run.records| && next.policy == run.policy
    && next.progress.graph == run.progress.graph && next.progress.epoch == epoch
    && next.progress.evidence == run.progress.evidence[run.records[i].dispatch.unit.primary := e]
    && next.records == run.records[i := run.records[i].(state := Completed, terminal := Some(e.identity))]
  }

  lemma WorkIsOpen(run: Run, i: nat)
    requires LedgerSound(run) && i < |run.records| && Active(run.records[i])
    ensures var u := run.records[i].dispatch.unit;
            ReadyNode(run.progress, u.primary) && u.primary !in run.progress.evidence
    ensures run.records[i].dispatch.unit.kind == OperationUnit ==>
              run.records[i].dispatch.reservedState == run.progress.epoch
  {
    assert RecordSound(run.progress, run.records[i]);
    hide CaptureDependencies, AllSatisfied;
    var u := run.records[i].dispatch.unit;
    ProgressionSweeps.PrimaryInside(run.progress.graph, u);
    ProgressionSweeps.UnitIsFound(run.progress.graph, u, u.primary);
  }

  lemma CompleteWorkExactly(run: Run, d: Dispatch, result: WorkResult, i: nat)
    requires LedgerSound(run) && StandsAt(run, i, d, Started)
    ensures CompleteWork(run, d, result).Success? <==>
              && d.unit.kind != OperationUnit && IsFor(result.session, d)
              && run.records[i].session == Some(result.session.identity)
    ensures CompleteWork(run, d, result).Success? ==>
              Retires(run, CompleteWork(run, d, result).value, i,
                      Evidence(result.identity, result.session.identity, result.succeeded, result.session.expectedState,
                               [], [], [], []), run.progress.epoch)
  {
    RecordIsFound(run, i, d, Started);
    CurrentIsSound(run, d, i);
    WorkIsOpen(run, i);
    BindsIff(d, result.session);
    hide LedgerSound, RequireRecord, RequireCurrent, ReplaceRecord, ReadyNode, IsFor;
    if d.unit.kind != OperationUnit && Binds(d, result.session)
       && run.records[i].session == Some(result.session.identity) {
      hide Binds;
      WorkAdds(run, i, result);
      RetireKeeps(run, i, result.identity, AdvanceWork(run.progress, result).value);
    }
  }

  /** The result has an outcome that ends the operation, and the resulting state that goes with it. */
  predicate Conclusive(run: Run, result: EffectResult, resulting: Option<string>) {
    match result.outcome
    case Completed =>
      && resulting.Some? && result.publicationBase == Some(run.progress.epoch)
      && (result.receipt.None? ==> result.reconciled == resulting)
      && (result.receipt.Some? ==>
            && result.receipt.value.expectedPrior == run.progress.epoch
            && result.receipt.value.actualPrior == run.progress.epoch
            && result.receipt.value.resulting == resulting
            && (result.reconciled.Some? ==> result.reconciled == resulting))
    case LifecycleFailedBeforeApplication => resulting.None?
    case ApplicationNotCompleted => resulting.None?
    case LifecycleFailedAfterApplication => resulting.None?
    case StatePublicationNotCompleted => resulting.None?
    case _ => false
  }

  /** The result leaves open what became of the operation, and has not been observed before. */
  predicate Inconclusive(run: Run, i: nat, result: EffectResult, resulting: Option<string>)
    requires i < |run.records|
  {
    match result.outcome
    case OuterLeaseLost => resulting.None? && result.identity !in run.records[i].observations
    case StatePublicationIndeterminate => resulting.None? && result.identity !in run.records[i].observations
    case ApplicationResolutionRequired => resulting.None? && result.identity !in run.records[i].observations
    case _ => false
  }

  function EvidenceOf(result: EffectResult): Evidence {
    Evidence(result.identity, result.session.identity, result.outcome == EffectJournal.Completed,
             result.session.expectedState, result.session.before, result.beforeResults, result.session.after,
             result.afterResults)
  }

  lemma AdvanceExactly(run: Run, i: nat, result: EffectResult, resulting: Option<string>)
    requires LedgerSound(run) && i < |run.records| && run.records[i].state == Started
    requires run.records[i].dispatch.unit.kind == OperationUnit && IsFor(result.session, run.records[i].dispatch)
    ensures Terminates(result.outcome) && AdvanceEffect(run.progress, result, resulting).Some? <==>
              Conclusive(run, result, resulting)
    ensures Conclusive(run, result, resulting) ==>
              var epoch := if result.outcome == EffectJournal.Completed then resulting.value else run.progress.epoch;
              AdvanceEffect(run.progress, result, resulting)
              == Some(Progress(run.progress.graph, epoch,
                               run.progress.evidence[run.records[i].dispatch.unit.primary := EvidenceOf(result)]))
  {
    WorkIsOpen(run, i);
    hide LedgerSound, ReadyNode;
  }

  lemma SubmitExactly(run: Run, d: Dispatch, result: EffectResult, resulting: Option<string>, i: nat)
    requires LedgerSound(run) && StandsAt(run, i, d, Started)
    ensures SubmitOperation(run, d, result, resulting).Success? <==>
              && d.unit.kind == OperationUnit && IsFor(result.session, d)
              && run.records[i].session == Some(result.session.identity)
              && (Conclusive(run, result, resulting) || Inconclusive(run, i, result, resulting))
    ensures SubmitOperation(run, d, result, resulting).Success? && Conclusive(run, result, resulting) ==>
              Retires(run, SubmitOperation(run, d, result, resulting).value, i, EvidenceOf(result),
                      if result.outcome == EffectJournal.Completed then resulting.value else run.progress.epoch)
    ensures SubmitOperation(run, d, result, resulting).Success? && Inconclusive(run, i, result, resulting) ==>
              SubmitOperation(run, d, result, resulting).value
              == run.(records := run.records[i := run.records[i].(observations :=
                                   run.records[i].observations + [result.identity])])
  {
    RecordIsFound(run, i, d, Started);
    CurrentIsSound(run, d, i);
    BindsIff(d, result.session);
    StartedHasNoTerminal(run, i);
    hide LedgerSound, RequireRecord, RequireCurrent, ReplaceRecord, Binds, IsFor, AdvanceEffect;
    if d.unit.kind == OperationUnit && Binds(d, result.session)
       && run.records[i].session == Some(result.session.identity) {
      AdvanceExactly(run, i, result, resulting);
      if Conclusive(run, result, resulting) {
        EffectAdds(run, i, result, resulting);
        RetireKeeps(run, i, result.identity, AdvanceEffect(run.progress, result, resulting).value);
      } else if Inconclusive(run, i, result, resulting) {
        ObserveExactly(run, i, result.identity);
      }
    }
  }

  lemma StartedHasNoTerminal(run: Run, i: nat)
    requires LedgerSound(run) && i < |run.records| && run.records[i].state == Started
    ensures run.records[i].terminal.None?
  {
    assert RecordSound(run.progress, run.records[i]);
  }

  lemma ObserveExactly(run: Run, i: nat, observation: string)
    requires LedgerSound(run) && i < |run.records| && run.records[i].state == Started
    requires run.records[i].dispatch.unit.kind == OperationUnit
    ensures ObserveUncertain(run, i, observation).Success? <==> observation !in run.records[i].observations
    ensures observation !in run.records[i].observations ==>
              ObserveUncertain(run, i, observation)
              == Success(run.(records := run.records[i := run.records[i].(observations :=
                                           run.records[i].observations + [observation])]))
  {
    assert RecordSound(run.progress, run.records[i]);
    var r := run.records[i];
    var next := r.(observations := r.observations + [observation]);
    assert next == DispatchRecord(r.dispatch, Started, r.session, r.effectAttempt, r.observations + [observation],
                                  None);
    if observation !in r.observations {
      hide LedgerSound, ReplaceRecord, PredecessorsSucceeded, CaptureDependencies, AllSatisfied;
      SameProgressKeeps(run, i, next);
    }
  }

  // ---------------------------------------------------------------- reservation

  /** The active records of one kind, counted. */
  function ActiveCount(records: seq<DispatchRecord>, kind: UnitKind): nat {
    if records == [] then 0
    else
      var last := records[|records| - 1];
      var counts := (last.state == Reserved || last.state == Started) && last.dispatch.unit.kind == kind;
      ActiveCount(records[..|records| - 1], kind) + if counts then 1 else 0
  }

  lemma LastActive(records: seq<DispatchRecord>, kind: UnitKind)
    requires records != []
    ensures var n := |records| - 1;
            var counts := Active(records[n]) && records[n].dispatch.unit.kind == kind;
            |ActiveOf(records, kind)| == |ActiveOf(records[..n], kind)| + if counts then 1 else 0
  {
    var n := |records| - 1;
    var before, all := ActiveOf(records[..n], kind), ActiveOf(records, kind);
    assert n !in before;
    assert forall i | i in all && i != n :: i in before;
    assert forall i | i in before :: i in all;
    if n in all {
      assert all == before + {n};
    } else {
      assert all == before;
    }
  }

  lemma {:induction false} ActiveAreCounted(records: seq<DispatchRecord>, kind: UnitKind)
    ensures |ActiveOf(records, kind)| == ActiveCount(records, kind)
    decreases |records|
  {
    if records == [] {
      assert ActiveOf(records, kind) == {};
    } else {
      var n := |records| - 1;
      ActiveAreCounted(records[..n], kind);
      LastActive(records, kind);
      hide ActiveOf;
    }
  }

  /** In every history each kind of unit stays within its own field of the policy, and operations have one lane. */
  lemma CapacitiesHold(sha: Sha256, p: Progress, policy: Policy, commands: seq<Command>)
    requires ProgressSound(p)
    ensures var records := History(sha, Run(p, policy, []), commands).records;
            && ActiveCount(records, ConstructionUnit) <= policy.constructions
            && ActiveCount(records, CheckUnit) <= policy.checks && ActiveCount(records, OperationUnit) <= 1
  {
    var run := Run(p, policy, []);
    BeginIsSound(p, policy);
    HistoryIsSound(sha, run, commands);
    PolicyStays(sha, run, commands);
    var end := History(sha, run, commands);
    hide History, RecordSound, ProgressSound, ActiveOf;
    ActiveAreCounted(end.records, ConstructionUnit);
    ActiveAreCounted(end.records, CheckUnit);
    ActiveAreCounted(end.records, OperationUnit);
  }

  lemma {:induction false} PolicyStays(sha: Sha256, run: Run, commands: seq<Command>)
    requires LedgerSound(run)
    ensures History(sha, run, commands).policy == run.policy
    ensures History(sha, run, commands).progress.graph == run.progress.graph
    decreases |commands|
  {
    hide LedgerSound, Apply;
    if commands != [] {
      CommandKeeps(sha, run, commands[0]);
      if Apply(sha, run, commands[0]).Success? {
        CommandTransits(sha, run, commands[0]);
      }
      PolicyStays(sha, After(sha, run, commands[0]), commands[1..]);
    }
  }

  /** No evidence for the unit, and every edge that enters it comes from a satisfied node. */
  predicate Waiting(p: Progress, u: Unit)
    requires EdgesInside(p.graph)
  {
    && u.primary !in p.evidence
    && forall i | 0 <= i < |p.graph.edges| ::
         p.graph.edges[i].after in u.members && p.graph.edges[i].before !in u.members ==>
           Seed(p.graph, p.evidence, p.graph.edges[i].before) == Satisfied
  }

  /** A waiting unit is passed over only because its own kind is at its limit, or for a shared member. */
  predicate Takes(run: Run, u: Unit)
    requires EdgesInside(run.progress.graph)
  {
    && Waiting(run.progress, u)
    && (match u.kind
        case ConstructionUnit => ActiveCount(run.records, ConstructionUnit) < run.policy.constructions
        case CheckUnit => ActiveCount(run.records, CheckUnit) < run.policy.checks
        case OperationUnit => ActiveCount(run.records, OperationUnit) == 0)
    && forall i | 0 <= i < |run.records| && (run.records[i].state == Reserved || run.records[i].state == Started) ::
         run.records[i].dispatch.unit.members !! u.members
  }

  lemma TakesIff(run: Run, u: Unit)
    requires EdgesInside(run.progress.graph) && u in run.progress.graph.units
    ensures Selectable(run, u) <==> Takes(run, u)
  {
    ActiveAreCounted(run.records, u.kind);
    hide ActiveOf, Seed, ActiveCount;
  }

  /** The first unit that may be taken is reserved; the run is left alone only if there is none. */
  lemma ReserveExactly(run: Run, nonce: string)
    requires LedgerSound(run) && NothingFailed(run.progress)
    requires forall i | 0 <= i < |run.records| :: run.records[i].dispatch.nonce != nonce
    ensures ReserveNext(run, nonce).Success?
    ensures var r, units := ReserveNext(run, nonce).value, run.progress.graph.units;
            match r.1
            case None => r.0 == run && forall k | 0 <= k < |units| :: !Takes(run, units[k])
            case Some(d) =>
              && (exists k | 0 <= k < |units| ::
                    d.unit == units[k] && Takes(run, units[k]) && forall j | 0 <= j < k :: !Takes(run, units[j]))
              && d.nonce == nonce && d.reservedFrom == run.progress && d.reservedState == run.progress.epoch
              && r.0 == run.(records := run.records + [DispatchRecord(d, Reserved, None, None, [], None)])
  {
    StoppedIff(run);
    var units := run.progress.graph.units;
    var selected := FirstSelectable(run, units);
    assert EdgesInside(run.progress.graph);
    hide LedgerSound, ReserveUnit, Selectable, Takes, HasFailed, NothingFailed;
    forall k | 0 <= k < |units|
      ensures Selectable(run, units[k]) <==> Takes(run, units[k])
    {
      TakesIff(run, units[k]);
    }
    if selected.Some? {
      FirstIsFirst(run, units);
      ReserveKeeps(run, nonce, selected.value);
    }
  }

  lemma {:induction false} FirstIsFirst(run: Run, units: seq<Unit>)
    requires FirstSelectable(run, units).Some?
    ensures exists k | 0 <= k < |units| ::
              && FirstSelectable(run, units) == Some(units[k]) && Selectable(run, units[k])
              && forall j | 0 <= j < k :: !Selectable(run, units[j])
  {
    hide Selectable;
    if Selectable(run, units[0]) {
      assert FirstSelectable(run, units) == Some(units[0]);
    } else {
      FirstIsFirst(run, units[1..]);
      var k :| 0 <= k < |units[1..]| && FirstSelectable(run, units[1..]) == Some(units[1..][k])
               && Selectable(run, units[1..][k]) && forall j | 0 <= j < k :: !Selectable(run, units[1..][j]);
      forall j | 0 <= j < k + 1
        ensures !Selectable(run, units[j])
      {
        assert j > 0 ==> units[j] == units[1..][j - 1];
      }
      assert units[k + 1] == units[1..][k];
    }
  }

  /** A reservation names the evidence of exactly the predecessors that are not retained. */
  lemma DependenciesExactly(p: Progress, u: Unit)
    requires ProgressSound(p) && CaptureDependencies(p, u).Success?
    ensures var held := CaptureDependencies(p, u).value;
            forall n :: n in held <==>
              n in p.graph.nodes && p.graph.nodes[n] != Retain
              && exists e | e in p.graph.edges :: e.before == n && e.before !in u.members && e.after in u.members
    ensures var held := CaptureDependencies(p, u).value;
            forall n, v | n in held && v in p.graph.units && n in v.members ::
              v.primary in p.evidence && held[n] == p.evidence[v.primary].identity
  {
    hide ProgressSound, Seed, EvidenceFor;
    var held := CaptureDependencies(p, u).value;
    forall n, v | n in held && v in p.graph.units && n in v.members
      ensures v.primary in p.evidence && held[n] == p.evidence[v.primary].identity
    {
      PredecessorEvidence(p, v, n);
    }
  }

  lemma PredecessorEvidence(p: Progress, v: Unit, n: NodeId)
    requires ProgressSound(p) && Satisfies(p, n) && p.graph.nodes[n] != Retain && v in p.graph.units && n in v.members
    ensures v.primary in p.evidence && EvidenceFor(p, n) == Some(p.evidence[v.primary].identity)
  {
    ProgressionSweeps.UnitIsFound(p.graph, v, n);
    hide WellFormed, EvidenceFor;
    EvidenceIsOfUnit(p, v, n);
  }

  // ---------------------------------------------------------------- what a failure does

  /** Evidence that is no success stops the run. */
  lemma FailureStops(run: Run, next: Run, i: nat, e: Evidence)
    requires LedgerSound(next) && Retires(run, next, i, e, run.progress.epoch) && !e.succeeded
    ensures next.progress.epoch == run.progress.epoch
    ensures var n := run.records[i].dispatch.unit.primary;
            n in next.progress.graph.nodes && Seed(next.progress.graph, next.progress.evidence, n) == Failed
    ensures HasFailed(next.progress) && Stopped(next)
  {
    var u := run.records[i].dispatch.unit;
    assert next.records[i].dispatch.unit == u && RecordSound(next.progress, next.records[i]);
    hide RecordSound;
    FailedPrimary(next.progress, u);
  }

  lemma FailedPrimary(p: Progress, u: Unit)
    requires ProgressSound(p) && u in p.graph.units && u.primary in p.evidence && !p.evidence[u.primary].succeeded
    ensures u.primary in p.graph.nodes && Seed(p.graph, p.evidence, u.primary) == Failed
  {
    ProgressionSweeps.PrimaryInside(p.graph, u);
    ProgressionSweeps.UnitIsFound(p.graph, u, u.primary);
  }

  /** An accepted report of a failure leaves the state epoch alone, fails its unit and stops the run. */
  lemma ReportedFailureStops(sha: Sha256, run: Run, c: Command, d: Dispatch)
    requires LedgerSound(run) && ReportsFailure(c, d) && Apply(sha, run, c).Success?
    ensures var next := Apply(sha, run, c).value;
            && next.progress.epoch == run.progress.epoch && d.unit.primary in next.progress.graph.nodes
            && Seed(next.progress.graph, next.progress.evidence, d.unit.primary) == Failed
            && HasFailed(next.progress) && Stopped(next)
  {
    CommandKeeps(sha, run, c);
    var i := AcceptedAt(sha, run, c, d);
    hide LedgerSound, Apply, Seed, HasFailed;
    ReportIsEvidence(sha, run, c, d, i);
    FailureStops(run, Apply(sha, run, c).value, i, ReportedEvidence(c));
  }

  // ---------------------------------------------------------------- commands by what they report

  predicate Starts(c: Command, d: Dispatch) {
    match c
    case StartingWork(x, _) => x == d
    case StartingOperation(x, _, _) => x == d
    case _ => false
  }

  predicate ReportsSuccess(c: Command, d: Dispatch) {
    match c
    case CompletingWork(x, result) => x == d && result.succeeded
    case Submitting(x, result, _) => x == d && result.outcome == EffectJournal.Completed
    case _ => false
  }

  predicate ReportsFailure(c: Command, d: Dispatch) {
    match c
    case CompletingWork(x, result) => x == d && !result.succeeded
    case Submitting(x, result, _) =>
      && x == d
      && (|| result.outcome == EffectJournal.LifecycleFailedBeforeApplication
          || result.outcome == EffectJournal.ApplicationNotCompleted
          || result.outcome == EffectJournal.LifecycleFailedAfterApplication
          || result.outcome == EffectJournal.StatePublicationNotCompleted)
    case _ => false
  }

  function ReportedEvidence(c: Command): Evidence
    requires c.CompletingWork? || c.Submitting?
  {
    match c
    case CompletingWork(_, result) =>
      Evidence(result.identity, result.session.identity, result.succeeded, result.session.expectedState, [], [], [], [])
    case Submitting(_, result, _) => EvidenceOf(result)
  }

  /** The record that an accepted start or report is about. */
  lemma AcceptedAt(sha: Sha256, run: Run, c: Command, d: Dispatch) returns (i: nat)
    requires Apply(sha, run, c).Success? && (Starts(c, d) || ReportsSuccess(c, d) || ReportsFailure(c, d))
    ensures StandsAt(run, i, d, if Starts(c, d) then Reserved else Started)
  {
    hide RequireCurrent, ReplaceRecord, AdvanceWork, AdvanceEffect, ObserveUncertain, EffectJournal.Admit, HasFailed;
    i := RequireRecord(run, d, if Starts(c, d) then Reserved else Started).value;
  }

  lemma ReportIsEvidence(sha: Sha256, run: Run, c: Command, d: Dispatch, i: nat)
    requires LedgerSound(run) && Apply(sha, run, c).Success? && (ReportsSuccess(c, d) || ReportsFailure(c, d))
    requires StandsAt(run, i, d, Started)
    ensures Retires(run, Apply(sha, run, c).value, i, ReportedEvidence(c),
                    if c.Submitting? && ReportsSuccess(c, d) then c.resulting.value else run.progress.epoch)
  {
    hide LedgerSound, CompleteWork, SubmitOperation, IsFor, Retires;
    match c
    case CompletingWork(_, result) => CompleteWorkExactly(run, d, result, i);
    case Submitting(_, result, resulting) => SubmitExactly(run, d, result, resulting, i);
  }
}
