/**
  The runner as it is written: it appends to the stores as it goes, and may be killed before
  any append.  Each method is proved to persist the writes of the corresponding plan, in
  order and as far as it gets, and to leave a sound disk: a started operation is backed by an
  admitted effect attempt, whatever the append before which the process dies.
 */
module RunnerController {
  import opened Wrappers
  import opened Identity
  import opened Progression
  import opened Dispatch
  import opened RunJournal
  import opened Runner
  import opened RunnerLaws
  import opened RunnerSteps
  import RunJournalLaws
  import opened DispatchLaws
  import RunnerDrive

  lemma {:induction false} PersistThen(disk: RunDisk, v: seq<Write>, w: seq<Write>)
    ensures PersistAll(disk, v + w) == PersistAll(PersistAll(disk, v), w)
    decreases |v|
  {
    if v == [] {
      assert v + w == w;
    } else {
      assert (v + w)[0] == v[0] && (v + w)[1..] == v[1..] + w;
      PersistThen(Persist(disk, v[0]), v[1..], w);
    }
  }

  // ---------------------------------------------------------------- how far a plan gets

  type Outcome = Option<Result<Step, RunnerFault>>

  /** What is left of a plan when `budget` more appends succeed; no result means that the process died. */
  predicate Did(before: RunDisk, budget: nat, plan: Plan, after: RunDisk, rest: nat, r: Outcome) {
    if budget < |plan.writes| then r == None && rest == 0 && after == PersistAll(before, plan.writes[..budget])
    else r == Some(plan.result) && rest == budget - |plan.writes| && after == PersistAll(before, plan.writes)
  }

  lemma DidNothing(disk: RunDisk, budget: nat, result: Result<Step, RunnerFault>)
    ensures Did(disk, budget, Plan([], result), disk, budget, Some(result))
  {}

  /** The first appends of a plan succeeded, and the rest went as far as it did. */
  lemma DidThen(before: RunDisk, budget: nat, writes: seq<Write>, plan: Plan, after: RunDisk, rest: nat, r: Outcome)
    requires |writes| <= budget && Did(PersistAll(before, writes), budget - |writes|, plan, after, rest, r)
    ensures Did(before, budget, Then(writes, plan), after, rest, r)
  {
    hide PersistAll;
    if budget - |writes| < |plan.writes| {
      assert (writes + plan.writes)[..budget] == writes + plan.writes[..budget - |writes|];
      PersistThen(before, writes, plan.writes[..budget - |writes|]);
    } else {
      PersistThen(before, writes, plan.writes);
    }
  }

  /** The process died within the first appends of a plan. */
  lemma DiedWithin(before: RunDisk, budget: nat, writes: seq<Write>, plan: Plan, after: RunDisk)
    requires budget < |writes| && after == PersistAll(before, writes[..budget])
    ensures Did(before, budget, Then(writes, plan), after, 0, None)
  {
    assert (writes + plan.writes)[..budget] == writes[..budget];
  }

  lemma PersistOne(disk: RunDisk, w: Write)
    ensures PersistAll(disk, [w]) == Persist(disk, w)
    ensures [w][..0] == [] && PersistAll(disk, [w][..0]) == disk
  {
    assert PersistAll(Persist(disk, w), [w][1..]) == Persist(disk, w);
  }

  lemma PersistTwo(disk: RunDisk, v: Write, w: Write)
    ensures PersistAll(disk, [v, w]) == Persist(Persist(disk, v), w)
    ensures PersistAll(disk, [v, w][..0]) == disk && PersistAll(disk, [v, w][..1]) == Persist(disk, v)
  {
    assert [v, w][1..] == [w] && [v, w][..1] == [v] && [v, w][..0] == [];
    PersistOne(Persist(disk, v), w);
    PersistOne(disk, v);
  }

  /** Wherever a good plan is cut, the disk is sound. */
  lemma DidIsSound(before: RunDisk, budget: nat, plan: Plan, after: RunDisk, rest: nat, r: Outcome)
    requires PlanGood(before, plan) && Did(before, budget, plan, after, rest, r)
    ensures DiskSound(after)
  {
    hide DiskSound, Course;
    if budget < |plan.writes| {
      CrashKeepsSound(before, plan.writes, budget);
    } else {
      CourseEndsSound(before, plan.writes);
    }
  }

  function PrependAll(steps: seq<Step>, rest: DriveOutcome): DriveOutcome {
    match rest
    case Threw(more) => Threw(steps + more)
    case Ended(disposition, more) => Ended(disposition, steps + more)
  }

  lemma PrependOneMore(steps: seq<Step>, step: Step, rest: DriveOutcome)
    ensures PrependAll(steps, Prepend(step, rest)) == PrependAll(steps + [step], rest)
    ensures PrependAll(steps, Ended(ClassifyStop(step), [step])) == Ended(ClassifyStop(step), steps + [step])
    ensures PrependAll(steps, Threw([])) == Threw(steps)
    ensures PrependAll(steps, Ended(StepLimit, [])) == Ended(StepLimit, steps)
  {
    match rest
    case Threw(more) => assert steps + ([step] + more) == steps + [step] + more;
    case Ended(disposition, more) => assert steps + ([step] + more) == steps + [step] + more;
  }

  // ---------------------------------------------------------------- the validators

  /** The check in the constructor of a step's result. */
  method ValidateAdvanceResult(step: Step) returns (valid: bool)
    ensures valid <==> AdvanceResultValid(step)
  {
    hide Reopen, RecordOf;
    if Reopen(step.head, step.run.progress) != Success(step.run) {
      return false;
    }
    if step.dispatch.Some? && RecordOf(step.run, step.dispatch.value).None? {
      return false;
    }
    var named, result := step.dispatch.Some?, step.evidence.OperationEvidence? && step.evidence.result.Some?;
    match step.disposition {
      case Quiescent => valid := !named && step.evidence.NoEvidence?;
      case ReleasedReserved => valid := named && step.evidence.NoEvidence?;
      case ReconciledConstruction => valid := named && step.evidence.ConstructionEvidence?;
      case ExecutedConstruction => valid := named && step.evidence.ConstructionEvidence?;
      case ReconciledCheck => valid := named && step.evidence.CheckEvidence?;
      case ExecutedCheck => valid := named && step.evidence.CheckEvidence?;
      case ExecutedOperation => valid := named && result && !step.evidence.restarted;
      case ReconciledOperation => valid := named && result && step.evidence.restarted;
      case ExternalResolution =>
        valid := named && step.evidence.OperationEvidence? && !result && step.evidence.external;
      case AuthorityUnavailable =>
        if !named || !step.evidence.NoEvidence? {
          return false;
        }
        var retained := RecordOf(step.run, step.dispatch.value);
        valid := retained.Some? && (retained.value.state == Started || retained.value.state == Released);
    }
  }

  /** The check in the constructor of a drive's result: its bound, its answer, then its steps in order. */
  method ValidateDriveResult(maximum: nat, disposition: DriveDisposition, steps: seq<Step>) returns (valid: bool)
    ensures valid <==> DriveResultValid(maximum, disposition, steps)
  {
    hide ClassifyStop;
    if steps == [] || |steps| > maximum {
      return false;
    }
    var expected := ClassifyStop(steps[|steps| - 1]);
    if disposition == StepLimit {
      if |steps| != maximum || expected != StepLimit {
        return false;
      }
    } else if disposition != expected {
      return false;
    }
    for index := 1 to |steps|
      invariant forall i | 1 <= i < index :: StepFollows(steps, i)
    {
      if steps[index - 1].head.journal != steps[index].head.journal {
        assert !StepFollows(steps, index);
        return false;
      }
      if ClassifyStop(steps[index - 1]) != StepLimit {
        assert !StepFollows(steps, index);
        return false;
      }
      if steps[index].head.sequence <= steps[index - 1].head.sequence {
        assert !StepFollows(steps, index);
        return false;
      }
    }
    return true;
  }

  class RunController {
    const sha: Sha256
    var disk: RunDisk
    var budget: nat

    constructor (sha: Sha256, disk: RunDisk, budget: nat)
      ensures this.sha == sha && this.disk == disk && this.budget == budget
    {
      this.sha, this.disk, this.budget := sha, disk, budget;
    }

    /** One append, unless the process dies before it. */
    method Write(w: Write) returns (alive: bool)
      modifies this
      ensures alive == (old(budget) > 0)
      ensures alive ==> disk == Persist(old(disk), w) && budget == old(budget) - 1
      ensures !alive ==> disk == old(disk) && budget == 0
    {
      alive := budget > 0;
      if alive {
        disk := Persist(disk, w);
        budget := budget - 1;
      }
    }

    /** Commit the successor of the head. */
    method Commit(next: Result<Run, Fault>, disposition: Disposition, d: Dispatch, evidence: StepEvidence)
      returns (r: Outcome)
      modifies this
      ensures Did(old(disk), old(budget), CommitStep(old(disk.head), next, disposition, d, evidence), disk, budget, r)
    {
      hide Successor;
      if next.Failure? {
        return Some(Failure(Refused));
      }
      var successor := Successor(disk.head, next.value);
      if successor.Failure? {
        return Some(Failure(Refused));
      }
      var head := successor.value;
      PersistOne(disk, Headed(head));
      var alive := Write(Headed(head));
      return if alive then Some(Success(Step(next.value, head, disposition, Some(d), evidence))) else None;
    }

    method FinishResult(d: Dispatch, a: Answers, result: WorkResult, first: bool, retain: bool) returns (r: Outcome)
      modifies this
      ensures Did(old(disk), old(budget), FinishWork(old(disk.head), d, a, result, first, retain), disk, budget, r)
    {
      hide CommitStep, CompleteWork, PersistAll, Did;
      ghost var start, most := disk, budget;
      ghost var retained := if retain then [Retained(result.identity)] else [];
      ghost var plan := if d.unit.kind == ConstructionUnit && !a.publishes then Plan([], Failure(Refused))
                        else CommitStep(start.head, CompleteWork(start.head.run, d, result),
                                        WorkDisposition(d.unit.kind, first), d,
                                        WorkEvidence(d.unit.kind, result));
      assert retained + [] == retained;
      assert FinishWork(start.head, d, a, result, first, retain) == Then(retained, plan);
      NothingPersisted(start);
      PersistOne(start, Retained(result.identity));
      if retain {
        var alive := Write(Retained(result.identity));
        if !alive {
          DiedWithin(start, most, retained, plan, disk);
          return None;
        }
      }
      if d.unit.kind == ConstructionUnit && !a.publishes {
        DidNothing(disk, budget, Failure(Refused));
        r := Some(Failure(Refused));
      } else {
        var completed := CompleteWork(disk.head.run, d, result);
        if d.unit.kind == ConstructionUnit {
          var disposition := if first then ExecutedConstruction else ReconciledConstruction;
          r := Commit(completed, disposition, d, ConstructionEvidence(result));
        } else {
          var disposition := if first then ExecutedCheck else ReconciledCheck;
          r := Commit(completed, disposition, d, CheckEvidence(result));
        }
      }
      DidThen(start, most, retained, plan, disk, budget, r);
    }

    method ReconcileOperationDispatch(record: DispatchRecord, a: Answers) returns (r: Outcome)
      modifies this
      ensures Did(old(disk), old(budget), ReconcileOperation(old(disk.head), record, a), disk, budget, r)
    {
      hide CommitStep, SubmitOperation;
      var d := record.dispatch;
      if a.needsDrivers && a.access == Unavailable {
        return Some(Success(Step(disk.head.run, disk.head, AuthorityUnavailable, Some(d), NoEvidence)));
      }
      if (a.needsDrivers && a.access == Denied) || !a.equipped || a.recovery == RecoveryEscapes {
        return Some(Failure(Refused));
      }
      if a.recovery == ExternalOnly || a.recovery.effect.identity in record.observations {
        return Some(Success(Step(disk.head.run, disk.head, ExternalResolution, Some(d),
                                 OperationEvidence(None, true, true))));
      }
      var effect := a.recovery.effect;
      if effect.outcome.Completed? && a.state.None? {
        return Some(Failure(Refused));
      }
      var observed := if effect.outcome.Completed? then a.state else None;
      var next := SubmitOperation(disk.head.run, d, effect, observed);
      r := Commit(next, ReconciledOperation, d, OperationEvidence(Some(effect), true, false));
    }

    /** Recover an active dispatch. */
    method ReconcileFirst(record: DispatchRecord, a: Answers) returns (r: Outcome)
      requires DiskSound(disk) && record in disk.head.run.records && Active(record)
      modifies this
      ensures Did(old(disk), old(budget), ReconcileActive(old(disk.head), record, a), disk, budget, r)
      ensures DiskSound(disk)
    {
      hide DiskSound, CommitStep, ReconcileOperation, FinishWork, ReleaseUnstarted, PersistAll, PlanGood, Did;
      ghost var start, most := disk, budget;
      var d := record.dispatch;
      if record.state == Reserved {
        var released := ReleaseUnstarted(disk.head.run, d);
        r := Commit(released, ReleasedReserved, d, NoEvidence);
      } else if d.unit.kind == OperationUnit {
        r := ReconcileOperationDispatch(record, a);
      } else if a.recovered.Some? {
        if d.unit.kind == ConstructionUnit && !a.equipped {
          DidNothing(disk, budget, Failure(Refused));
          r := Some(Failure(Refused));
        } else {
          r := FinishResult(d, a, a.recovered.value, false, false);
        }
      } else if !a.equipped || a.work.None? {
        DidNothing(disk, budget, Failure(Refused));
        r := Some(Failure(Refused));
      } else {
        r := FinishResult(d, a, a.work.value, false, true);
      }
      ReconcileActiveIsGood(sha, start, record, a);
      DidIsSound(start, most, ReconcileActive(start.head, record, a), disk, budget, r);
    }

    /** The attempt is retained, and the start committed, before the driver runs. */
    method ExecuteWorkDispatch(d: Dispatch, session: Session, a: Answers) returns (r: Outcome)
      requires DiskSound(disk) && d.unit.kind != OperationUnit
      modifies this
      ensures Did(old(disk), old(budget), ExecuteWork(old(disk.head), d, session, a), disk, budget, r)
      ensures DiskSound(disk)
    {
      hide DiskSound, StartWork, FinishWork, Successor, PersistAll, PlanGood, Did;
      ghost var start, most := disk, budget;
      ghost var attempted := [Attempted(session.identity)];
      ghost var whole := ExecuteWork(start.head, d, session, a);
      ExecuteWorkIsGood(sha, start, d, session, a);
      PersistOne(start, Attempted(session.identity));
      var alive := Write(Attempted(session.identity));
      var started := StartWork(disk.head.run, d, session);
      if started.Failure? || Successor(disk.head, started.value).Failure? {
        assert whole == Then(attempted, Plan([], Failure(Refused)));
        if alive {
          DidNothing(disk, budget, Failure(Refused));
          DidThen(start, most, attempted, Plan([], Failure(Refused)), disk, budget, Some(Failure(Refused)));
          r := Some(Failure(Refused));
        } else {
          DiedWithin(start, most, attempted, Plan([], Failure(Refused)), disk);
          r := None;
        }
      } else {
        var head := Successor(disk.head, started.value).value;
        ghost var writes := [Attempted(session.identity), Headed(head)];
        ghost var plan := if a.work.None? then Plan([], Failure(Refused))
                          else FinishWork(head, d, a, a.work.value, true, true);
        assert whole == Then(writes, plan);
        PersistTwo(start, Attempted(session.identity), Headed(head));
        if alive {
          alive := Write(Headed(head));
        }
        if !alive {
          DiedWithin(start, most, writes, plan, disk);
          r := None;
        } else {
          if a.work.None? {
            DidNothing(disk, budget, Failure(Refused));
            r := Some(Failure(Refused));
          } else {
            r := FinishResult(d, a, a.work.value, true, true);
          }
          DidThen(start, most, writes, plan, disk, budget, r);
        }
      }
      DidIsSound(start, most, whole, disk, budget, r);
    }

    /** The effect attempt is admitted, and the start committed, before the effect is executed. */
    method ExecuteOperationDispatch(d: Dispatch, session: Session, a: Answers) returns (r: Outcome)
      requires DiskSound(disk)
      modifies this
      ensures Did(old(disk), old(budget), ExecuteOperation(sha, old(disk.head), d, session, a), disk, budget, r)
      ensures DiskSound(disk)
    {
      hide DiskSound, StartOperation, SubmitOperation, Successor, CommitStep, PersistAll, PlanGood, Did;
      ghost var start, most := disk, budget;
      ghost var whole := ExecuteOperation(sha, start.head, d, session, a);
      ExecuteOperationIsGood(sha, start, d, session, a);
      var started := StartOperation(sha, disk.head.run, d, session, a.attemptNonce);
      if started.Failure? {
        DidNothing(disk, budget, Failure(Refused));
        DidIsSound(start, most, whole, disk, budget, Some(Failure(Refused)));
        return Some(Failure(Refused));
      }
      var attempt := started.value.1;
      ghost var admitted := [Admitted(attempt)];
      PersistOne(start, Admitted(attempt));
      var alive := Write(Admitted(attempt));
      if Successor(disk.head, started.value.0).Failure? {
        assert whole == Then(admitted, Plan([], Failure(Refused)));
        if alive {
          DidNothing(disk, budget, Failure(Refused));
          DidThen(start, most, admitted, Plan([], Failure(Refused)), disk, budget, Some(Failure(Refused)));
          r := Some(Failure(Refused));
        } else {
          DiedWithin(start, most, admitted, Plan([], Failure(Refused)), disk);
          r := None;
        }
      } else {
        var head := Successor(disk.head, started.value.0).value;
        ghost var writes := [Admitted(attempt), Headed(head)];
        ghost var unread := !a.leases || a.effect.None? || !StateIsRead(a, a.effect.value);
        ghost var plan := if unread then Plan([], Failure(Refused))
                          else CommitStep(head,
                                          SubmitOperation(head.run, d, a.effect.value,
                                                          ObservedState(a, a.effect.value)),
                                          ExecutedOperation, d, OperationEvidence(a.effect, false, false));
        assert whole == Then(writes, plan);
        PersistTwo(start, Admitted(attempt), Headed(head));
        if alive {
          alive := Write(Headed(head));
        }
        if !alive {
          DiedWithin(start, most, writes, plan, disk);
          r := None;
        } else {
          if !a.leases || a.effect.None? || (a.effect.value.outcome.Completed? && a.state.None?) {
            DidNothing(disk, budget, Failure(Refused));
            r := Some(Failure(Refused));
          } else {
            var observed := if a.effect.value.outcome.Completed? then a.state else None;
            var next := SubmitOperation(disk.head.run, d, a.effect.value, observed);
            r := Commit(next, ExecutedOperation, d, OperationEvidence(a.effect, false, false));
          }
          DidThen(start, most, writes, plan, disk, budget, r);
        }
      }
      DidIsSound(start, most, whole, disk, budget, r);
    }

    /** Execute the dispatch whose reservation is the head. */
    method ExecuteReservation(d: Dispatch, a: Answers) returns (r: Outcome)
      requires DiskSound(disk)
      modifies this
      ensures Did(old(disk), old(budget), ExecuteReserved(sha, old(disk.head), d, a), disk, budget, r)
      ensures DiskSound(disk)
    {
      hide DiskSound, CommitStep, ReleaseUnstarted, ExecuteWork, ExecuteOperation, PersistAll, PlanGood, Did;
      ghost var start, most := disk, budget;
      if a.session.None? {
        DidNothing(disk, budget, Failure(Refused));
        r := Some(Failure(Refused));
      } else if d.unit.kind != OperationUnit {
        r := ExecuteWorkDispatch(d, a.session.value, a);
      } else if a.access == Unavailable {
        var released := ReleaseUnstarted(disk.head.run, d);
        r := Commit(released, AuthorityUnavailable, d, NoEvidence);
      } else if a.access == Denied {
        DidNothing(disk, budget, Failure(Refused));
        r := Some(Failure(Refused));
      } else {
        r := ExecuteOperationDispatch(d, a.session.value, a);
      }
      ExecuteReservedIsGood(sha, start, d, a);
      DidIsSound(start, most, ExecuteReserved(sha, start.head, d, a), disk, budget, r);
    }

    method ReserveAndExecuteNext(a: Answers) returns (r: Outcome)
      requires DiskSound(disk) && Idle(disk.head.run.records)
      modifies this
      ensures Did(old(disk), old(budget), ReserveAndExecute(sha, old(disk.head), a), disk, budget, r)
      ensures DiskSound(disk)
    {
      hide DiskSound, ReserveNext, Successor, ExecuteReserved, PersistAll, PlanGood, Did, Idle;
      ghost var start, most := disk, budget;
      ghost var whole := ReserveAndExecute(sha, start.head, a);
      ReserveIsGood(sha, start, a);
      var reservation := ReserveNext(disk.head.run, a.nonce);
      if reservation.Failure? || reservation.value.1.None? || !a.equipped
          || Successor(disk.head, reservation.value.0).Failure? {
        DidNothing(disk, budget, Failure(Refused));
        return Some(Failure(Refused));
      }
      var d := reservation.value.1.value;
      var head := Successor(disk.head, reservation.value.0).value;
      PersistOne(start, Headed(head));
      var alive := Write(Headed(head));
      if !alive {
        DiedWithin(start, most, [Headed(head)], ExecuteReserved(sha, head, d, a), disk);
        r := None;
      } else {
        ReservedIsSound(sha, start, a, d, head);
        r := ExecuteReservation(d, a);
        DidThen(start, most, [Headed(head)], ExecuteReserved(sha, head, d, a), disk, budget, r);
      }
      DidIsSound(start, most, whole, disk, budget, r);
    }

    /** One step from the durable head, killed anywhere or run to its checked result. */
    method AdvanceOnce(a: Answers) returns (r: Outcome)
      requires DiskSound(disk)
      modifies this
      ensures Did(old(disk), old(budget), CheckedAdvance(sha, old(disk.head), a), disk, budget, r)
      ensures DiskSound(disk)
    {
      hide DiskSound, Reopen, ReconcileActive, ReserveAndExecute, NothingReady, HasFailed, AdvanceResultValid,
        PersistAll, PlanGood, Did, Idle;
      ghost var start, most := disk, budget;
      var s := disk.head;
      AdvanceIsGood(sha, start, a);
      if Reopen(s, s.run.progress) != Success(s.run) {
        DidNothing(disk, budget, Failure(Refused));
        r := Some(Failure(Refused));
      } else {
        var active := FirstActive(s.run.records);
        if active.Some? {
          r := ReconcileFirst(active.value, a);
        } else if Stopped(s.run) || NothingReady(s.run) {
          DidNothing(disk, budget, Success(Step(s.run, s, Quiescent, None, NoEvidence)));
          r := Some(Success(Step(s.run, s, Quiescent, None, NoEvidence)));
        } else {
          NoneIsIdle(s.run.records);
          r := ReserveAndExecuteNext(a);
        }
      }
      assert Did(start, most, Advance(sha, start.head, a), disk, budget, r);
      DidIsSound(start, most, Advance(sha, start.head, a), disk, budget, r);
      DidReturns(start, most, Advance(sha, start.head, a), disk, budget, r);
      if r.Some? && r.value.Success? {
        var valid := ValidateAdvanceResult(r.value.value);
        if !valid {
          r := Some(Failure(Rejected));
        }
      }
    }

    /** The drive loop; without an outcome the process died on the way. */
    method DriveRun(bound: nat, ask: (nat, Snapshot) -> Answers) returns (outcome: Option<DriveOutcome>)
      requires DiskSound(disk)
      modifies this
      ensures DiskSound(disk)
      ensures outcome == None || outcome == Some(Drive(sha, old(disk.head), bound, ask))
      ensures outcome == None ==> budget == 0
    {
      hide DiskSound, CheckedAdvance, Advance, PersistAll, ClassifyStop, PrependAll, Prepend, Did;
      var steps: seq<Step> := [];
      ghost var start := disk.head;
      assert PrependAll([], Drive(sha, start, bound, ask)) == Drive(sha, start, bound, ask) by {
        NothingPrepended(Drive(sha, start, bound, ask));
      }
      for i := 0 to bound
        invariant DiskSound(disk)
        invariant Drive(sha, start, bound, ask) == PrependAll(steps, Drive(sha, disk.head, bound - i, ask))
      {
        var a := ask(bound - i, disk.head);
        ghost var before, most := disk, budget;
        var r := AdvanceOnce(a);
        DidReturns(before, most, CheckedAdvance(sha, before.head, a), disk, budget, r);
        if r.None? {
          return None;
        }
        if r.value.Failure? {
          PrependOneMore(steps, Step(before.head.run, before.head, Quiescent, None, NoEvidence), Threw([]));
          return Some(Threw(steps));
        }
        var step := r.value.value;
        RunnerDrive.StepFacts(sha, before, a, step);
        CheckedWrites(sha, before, a);
        var stop := ClassifyStop(step);
        PrependOneMore(steps, step, if stop != StepLimit then Threw([]) else Drive(sha, disk.head, bound - i - 1, ask));
        steps := steps + [step];
        if stop != StepLimit {
          return Some(Ended(stop, steps));
        }
      }
      PrependOneMore(steps, Step(disk.head.run, disk.head, Quiescent, None, NoEvidence), Threw([]));
      return Some(Ended(StepLimit, steps));
    }
  }

  lemma DidReturns(before: RunDisk, budget: nat, plan: Plan, after: RunDisk, rest: nat, r: Outcome)
    requires Did(before, budget, plan, after, rest, r)
    ensures r == None ==> rest == 0
    ensures r.Some? ==> r.value == plan.result && after == PersistAll(before, plan.writes)
    ensures forall result ::
              Did(before, budget, plan.(result := result), after, rest, if r.Some? then Some(result) else None)
  {}

  lemma NothingPersisted(disk: RunDisk)
    ensures PersistAll(disk, []) == disk
  {}

  lemma NoneIsIdle(records: seq<DispatchRecord>)
    requires FirstActive(records).None?
    ensures Idle(records)
  {}

  /** The reservation is a sound head. */
  lemma ReservedIsSound(sha: Sha256, disk: RunDisk, a: Answers, d: Dispatch, head: Snapshot)
    requires DiskSound(disk) && Idle(disk.head.run.records)
    requires ReserveNext(disk.head.run, a.nonce).Success? && ReserveNext(disk.head.run, a.nonce).value.1 == Some(d)
    requires Successor(disk.head, ReserveNext(disk.head.run, a.nonce).value.0) == Success(head)
    ensures DiskSound(Persist(disk, Headed(head)))
  {
    hide DiskSound, ReserveNext, Successor, Idle, LedgerSound, Course;
    var next := ReserveNext(disk.head.run, a.nonce).value.0;
    DiskIsLedgerSound(disk);
    RunJournalLaws.ReserveTransits(disk.head.run, a.nonce);
    assert Apply(sha, disk.head.run, Reserve(a.nonce)) == Success(next);
    HeadedIsSound(sha, disk, Reserve(a.nonce), next);
    CourseEndsSound(disk, [Headed(head)]);
  }

  lemma NothingPrepended(rest: DriveOutcome)
    ensures PrependAll([], rest) == rest
  {}

  lemma CheckedWrites(sha: Sha256, disk: RunDisk, a: Answers)
    requires DiskSound(disk)
    ensures CheckedAdvance(sha, disk.head, a) == Advance(sha, disk.head, a)
    ensures DiskSound(PersistAll(disk, Advance(sha, disk.head, a).writes))
  {
    hide DiskSound, Advance, Course, CheckedAdvance;
    RunnerSteps.AdvanceIsGood(sha, disk, a);
    RunnerSteps.CourseEndsSound(disk, Advance(sha, disk.head, a).writes);
  }
}
