/**
  Answers that bring a run as far as possible: they release, complete or recover the first
  active dispatch, and otherwise serve the unit that the ledger selects.  With `blocking`
  they withhold the drivers from a started operation.
 */
module RunnerAnswers {
  import opened Wrappers
  import opened Identity
  import opened Progression
  import opened Sequences
  import opened Dispatch
  import opened DispatchLaws
  import opened RunJournal
  import opened RunJournalLaws
  import opened Runner
  import opened RunnerLaws
  import opened RunnerSteps
  import opened RunnerDrive
  import opened RunnerLiveness
  import opened RunnerRecovery
  import EffectJournal

  // ---------------------------------------------------------------- the answers

  ghost function ListOf(s: set<nat>): (r: seq<nat>)
    ensures Elements(r) == s && |r| == |s|
  {
    if s == {} then []
    else
      var x :| x in s;
      var rest := ListOf(s - {x});
      assert Elements([x] + rest) == {x} + Elements(rest);
      [x] + rest
  }

  function Longer(texts: seq<string>): (t: string)
    ensures forall i | 0 <= i < |texts| :: |texts[i]| < |t|
  {
    if texts == [] then "n"
    else
      var rest := Longer(texts[1..]);
      if |rest| > |texts[0]| then rest else texts[0] + "n"
  }

  function Nonces(records: seq<DispatchRecord>): (r: seq<string>)
    ensures |r| == |records| && forall i | 0 <= i < |r| :: r[i] == records[i].dispatch.nonce
  {
    if records == [] then [] else [records[0].dispatch.nonce] + Nonces(records[1..])
  }

  ghost function SessionFor(u: Unit, epoch: string, identity: Digest): Session {
    Session(identity, u.kind, u.primary, epoch, ListOf(u.members - {u.primary}), [], true)
  }

  function Publishing(session: Session, identity: string): EffectResult {
    var epoch := session.expectedState;
    EffectResult(session, identity, EffectJournal.Completed, [], [], Some(epoch),
                 Some(StateReceipt(epoch, epoch, Some(epoch + "+"))), None)
  }

  ghost function RecoverFirst(r: DispatchRecord, digest: Digest, nonce: EffectJournal.Nonce, blocking: bool): Answers {
    var session := SessionFor(r.dispatch.unit, r.dispatch.reservedState,
                              if r.session.Some? then r.session.value else digest);
    Answers(true, "", None, nonce, if blocking then Unavailable else Granted, true, None,
            Some(WorkResult(session, "", true)), true,
            blocking, Resumed(Publishing(session, Longer(r.observations))), None, Some(session.expectedState + "+"))
  }

  ghost function ServeNext(run: Run, u: Unit, digest: Digest, nonce: EffectJournal.Nonce): Answers {
    var session := SessionFor(u, run.progress.epoch, digest);
    Answers(true, Longer(Nonces(run.records)), Some(session), nonce, Granted, true, Some(WorkResult(session, "", true)),
            None, true,
            false, ExternalOnly, Some(Publishing(session, "")), Some(session.expectedState + "+"))
  }

  ghost function Help(s: Snapshot, digest: Digest, nonce: EffectJournal.Nonce, blocking: bool): Answers {
    match FirstActive(s.run.records)
    case Some(r) => RecoverFirst(r, digest, nonce, blocking)
    case None =>
      match FirstSelectable(s.run, s.run.progress.graph.units)
      case Some(u) => ServeNext(s.run, u, digest, nonce)
      case None => ServeNext(s.run, Unit(CheckUnit, 0, {}), digest, nonce)
  }

  /** The policy is one that can be made, and the units are no larger than the journal retains them. */
  predicate Drivable(run: Run) {
    && run.policy.constructions > 0 && run.policy.checks > 0
    && forall i | 0 <= i < |run.progress.graph.units| :: |run.progress.graph.units[i].members| <= MAXIMUM_COUNT
  }

  lemma LongerIsNew(texts: seq<string>)
    ensures Longer(texts) !in texts
  {}

  lemma NonceIsNew(run: Run)
    ensures !NonceUsed(run, Longer(Nonces(run.records)))
  {
    LongerIsNew(Nonces(run.records));
    var nonces := Nonces(run.records);
    forall i | 0 <= i < |run.records|
      ensures run.records[i].dispatch.nonce != Longer(nonces)
    {
      assert nonces[i] in nonces;
    }
  }

  lemma SessionBinds(u: Unit, epoch: string, identity: Digest)
    ensures var session := SessionFor(u, epoch, identity);
            && session.bound && session.kind == u.kind && session.node == u.primary && session.identity == identity
            && session.expectedState == epoch && LifecycleBound(u, session.before, session.after)
            && |session.before| <= |u.members| && session.after == []
  {
    SubsetCount(u.members - {u.primary}, u.members);
    var none: seq<NodeId> := [];
    assert Elements(none) == {};
  }

  lemma PublishingProves(p: Progress, session: Session, identity: string)
    requires session.expectedState == p.epoch
    ensures var effect := Publishing(session, identity);
            && effect.session == session && effect.outcome.Completed? && effect.identity == identity
            && ProvesSuccess(p, effect, p.epoch + "+")
  {}

  /** An idle run that is helped is served. */
  lemma HelpCooperates(s: Snapshot, digest: Digest, nonce: EffectJournal.Nonce, blocking: bool)
    requires Idle(s.run.records) && Drivable(s.run)
    ensures Cooperative(s, Help(s, digest, nonce, blocking))
  {
    hide Selectable, ListOf, ProvesSuccess, Publishing, Idle;
    var run := s.run;
    IdleHasNoActive(run.records);
    NonceIsNew(run);
    var u := FirstSelectable(run, run.progress.graph.units);
    if u.Some? {
      var i :| 0 <= i < |run.progress.graph.units| && run.progress.graph.units[i] == u.value;
      ServeNextServes(run, u.value, digest, nonce);
    }
  }

  lemma ServeNextServes(run: Run, u: Unit, digest: Digest, nonce: EffectJournal.Nonce)
    requires |u.members| <= MAXIMUM_COUNT
    ensures Serves(run.progress, u, ServeNext(run, u, digest, nonce))
  {
    hide ProvesSuccess, LifecycleBound, SessionFor, Publishing;
    SessionBinds(u, run.progress.epoch, digest);
    PublishingProves(run.progress, SessionFor(u, run.progress.epoch, digest), "");
  }

  // ---------------------------------------------------------------- the first active dispatch is retired

  /** What retiring record `i` makes of the progress: nothing new, or success of its unit. */
  predicate Furthers(p: Progress, q: Progress, u: Unit) {
    q == p || Served(p, q, u)
  }

  lemma ReleaseSucceeds(run: Run, i: nat)
    requires LedgerSound(run) && i < |run.records| && run.records[i].state == Reserved
    ensures ReleaseUnstarted(run, run.records[i].dispatch)
         == Success(run.(records := run.records[i := ReleasedRecord(run.records[i].dispatch)]))
  {
    IndexIs(run.records, i);
    hide LedgerSound, RecordIndex;
    ReleaseKeeps(run, run.records[i].dispatch);
    MadeRunIs(run, i, ReleasedRecord(run.records[i].dispatch), run.progress);
  }

  lemma StartedIsRequired(run: Run, i: nat)
    requires LedgerSound(run) && i < |run.records| && run.records[i].state == Started
    ensures RequireRecord(run, run.records[i].dispatch, Started) == Success(i)
    ensures RequireCurrent(run, run.records[i].dispatch) == Success(())
    ensures run.records[i].session.Some? && ReadyUnit(run.progress, run.records[i].dispatch.unit)
    ensures run.records[i].dispatch.unit.kind == OperationUnit ==>
              run.records[i].dispatch.reservedState == run.progress.epoch
  {
    IndexIs(run.records, i);
    hide RecordIndex;
    CurrentIsSound(run, run.records[i].dispatch, i);
    assert RecordSound(run.progress, run.records[i]);
  }

  lemma WorkIsRecovered(run: Run, i: nat, result: WorkResult)
    requires LedgerSound(run) && i < |run.records| && run.records[i].state == Started
    requires run.records[i].dispatch.unit.kind != OperationUnit && Binds(run.records[i].dispatch, result.session)
    requires run.records[i].session == Some(result.session.identity) && result.succeeded
    ensures CompleteWork(run, run.records[i].dispatch, result).Success?
    ensures Served(run.progress, CompleteWork(run, run.records[i].dispatch, result).value.progress,
                   run.records[i].dispatch.unit)
  {
    hide LedgerSound, RequireRecord, RequireCurrent, Binds, AdvanceWork, ReplaceRecord, CompleteWork, Succeeds,
      ReadyUnit;
    StartedIsRequired(run, i);
    CompletionAdvances(run, i, result);
    CompletionIsReplacement(run, run.records[i].dispatch, result, i);
  }

  lemma OperationIsRecovered(run: Run, i: nat, effect: EffectResult, state: string)
    requires LedgerSound(run) && i < |run.records| && StartedOperation(run.records[i])
    requires Binds(run.records[i].dispatch, effect.session) && run.records[i].session == Some(effect.session.identity)
    requires effect.outcome.Completed? && effect.session.expectedState == run.progress.epoch
    requires ProvesSuccess(run.progress, effect, state)
    ensures SubmitOperation(run, run.records[i].dispatch, effect, Some(state)).Success?
    ensures Served(run.progress, SubmitOperation(run, run.records[i].dispatch, effect, Some(state)).value.progress,
                   run.records[i].dispatch.unit)
  {
    hide LedgerSound, RequireRecord, RequireCurrent, Binds, AdvanceEffect, ReplaceRecord, SubmitOperation,
      ProvesSuccess, Succeeds,
      ReadyUnit;
    StartedIsRequired(run, i);
    SubmitAdvances(run, i, effect, state);
    SubmitIsReplacement(run, run.records[i].dispatch, effect, Some(state), i);
  }

  /** The evidence that fits each disposition of a recovering step. */
  predicate Fits(disposition: Disposition, evidence: StepEvidence) {
    match disposition
    case ReleasedReserved => evidence.NoEvidence?
    case ReconciledConstruction => evidence.ConstructionEvidence?
    case ReconciledCheck => evidence.CheckEvidence?
    case ReconciledOperation => evidence.OperationEvidence? && evidence.result.Some? && evidence.restarted
    case _ => false
  }

  /** A command that succeeds is committed, and the step that returns it passes its check. */
  lemma CommitSucceeds(sha: Sha256, s: Snapshot, c: Command, next: Run, disposition: Disposition, d: Dispatch,
                       evidence: StepEvidence)
    returns (step: Step)
    requires SnapshotSound(s) && s.sequence < MAXIMUM_SEQUENCE && !c.Reserve? && Apply(sha, s.run, c) == Success(next)
    requires RecordOf(next, d).Some? && Fits(disposition, evidence)
    ensures CommitStep(s, Success(next), disposition, d, evidence).result == Success(step)
    ensures step.run == next && step.disposition == disposition && step.evidence == evidence && step.dispatch == Some(d)
    ensures AdvanceResultValid(step)
  {
    hide SnapshotSound, Apply, RecordOf, Reopen, Advances, Transits;
    SoundSnapshotProgress(s);
    CommandTransits(sha, s.run, c);
    MovesOn(s, next);
    CommittedAdvances(sha, s, c, next);
    var head := Successor(s, next).value;
    AdvancedIsSound(s, head);
    SnapshotReopens(head);
    step := Step(next, head, disposition, Some(d), evidence);
  }

  lemma ReconcilesFirst(sha: Sha256, s: Snapshot, i: nat, a: Answers, step: Step)
    requires SnapshotSound(s) && FirstAt(s.run.records, i) && AdvanceResultValid(step)
    requires ReconcileActive(s, s.run.records[i], a).result == Success(step)
    ensures CheckedAdvance(sha, s, a).result == Success(step)
  {
    hide SnapshotSound, Reopen, ReconcileActive, AdvanceResultValid;
    FirstActiveIs(s.run.records, i);
    SnapshotReopens(s);
  }

  lemma ReleaseHelps(sha: Sha256, s: Snapshot, i: nat, a: Answers) returns (step: Step)
    requires SnapshotSound(s) && s.sequence < MAXIMUM_SEQUENCE && FirstAt(s.run.records, i)
    requires s.run.records[i].state == Reserved
    ensures CheckedAdvance(sha, s, a).result == Success(step) && step.run.progress == s.run.progress
    ensures step.disposition == ReleasedReserved && step.evidence == NoEvidence
  {
    hide LedgerSound, ReleaseUnstarted, CommitStep, AdvanceResultValid, RecordOf, FirstActive, CheckedAdvance;
    var d := s.run.records[i].dispatch;
    ReleaseSucceeds(s.run, i);
    ReleaseRetires(s.run, d);
    step := CommitSucceeds(sha, s, Releasing(d), ReleaseUnstarted(s.run, d).value, ReleasedReserved, d, NoEvidence);
    ReconcilesFirst(sha, s, i, a, step);
  }

  lemma WorkHelps(sha: Sha256, s: Snapshot, i: nat, a: Answers, result: WorkResult) returns (step: Step)
    requires SnapshotSound(s) && s.sequence < MAXIMUM_SEQUENCE && FirstAt(s.run.records, i)
    requires s.run.records[i].state == Started
    requires s.run.records[i].dispatch.unit.kind != OperationUnit && Binds(s.run.records[i].dispatch, result.session)
    requires s.run.records[i].session == Some(result.session.identity) && result.succeeded
    requires a.recovered == Some(result) && a.equipped && a.publishes
    ensures CheckedAdvance(sha, s, a).result == Success(step)
    ensures Served(s.run.progress, step.run.progress, s.run.records[i].dispatch.unit)
    ensures step.disposition != AuthorityUnavailable && step.disposition != ExternalResolution
    ensures step.disposition != Quiescent
    ensures !step.evidence.OperationEvidence?
  {
    hide LedgerSound, CompleteWork, CommitStep, AdvanceResultValid, RecordOf, FirstActive, CheckedAdvance, Served,
      Binds;
    var d := s.run.records[i].dispatch;
    WorkIsRecovered(s.run, i, result);
    CompleteWorkRetires(s.run, d, result);
    step := CommitSucceeds(sha, s, CompletingWork(d, result), CompleteWork(s.run, d, result).value,
                           WorkDisposition(d.unit.kind, false), d, WorkEvidence(d.unit.kind, result));
    assert [] + CommitStep(s, CompleteWork(s.run, d, result), WorkDisposition(d.unit.kind, false), d,
                           WorkEvidence(d.unit.kind, result)).writes
        == CommitStep(s, CompleteWork(s.run, d, result), WorkDisposition(d.unit.kind, false), d,
                      WorkEvidence(d.unit.kind, result)).writes;
    ReconcilesFirst(sha, s, i, a, step);
  }

  lemma OperationHelps(sha: Sha256, s: Snapshot, i: nat, a: Answers, effect: EffectResult, state: string)
    returns (step: Step)
    requires SnapshotSound(s) && s.sequence < MAXIMUM_SEQUENCE && FirstAt(s.run.records, i)
    requires StartedOperation(s.run.records[i])
    requires Binds(s.run.records[i].dispatch, effect.session)
    requires s.run.records[i].session == Some(effect.session.identity)
    requires effect.outcome.Completed? && effect.session.expectedState == s.run.progress.epoch
    requires ProvesSuccess(s.run.progress, effect, state) && effect.identity !in s.run.records[i].observations
    requires a.equipped && !a.needsDrivers && a.recovery == Resumed(effect) && a.state == Some(state)
    ensures CheckedAdvance(sha, s, a).result == Success(step)
    ensures Served(s.run.progress, step.run.progress, s.run.records[i].dispatch.unit)
    ensures step.disposition == ReconciledOperation && !RetainsUncertainty(step)
  {
    hide LedgerSound, SubmitOperation, CommitStep, AdvanceResultValid, RecordOf, FirstActive, CheckedAdvance, Served,
      Binds, ProvesSuccess;
    var d := s.run.records[i].dispatch;
    OperationIsRecovered(s.run, i, effect, state);
    SubmitRetires(s.run, d, effect, Some(state));
    step := CommitSucceeds(sha, s, Submitting(d, effect, Some(state)),
                           SubmitOperation(s.run, d, effect, Some(state)).value,
                           ReconciledOperation, d, OperationEvidence(Some(effect), true, false));
    ReconcilesFirst(sha, s, i, a, step);
    CompletedIsCertain(s, i, effect, state, step);
  }

  lemma CompletedIsCertain(s: Snapshot, i: nat, effect: EffectResult, state: string, step: Step)
    requires SnapshotSound(s) && i < |s.run.records|
    requires SubmitOperation(s.run, s.run.records[i].dispatch, effect, Some(state)) == Success(step.run)
    requires Terminates(effect.outcome) && step.dispatch == Some(s.run.records[i].dispatch)
    ensures !RetainsUncertainty(step)
  {
    var d := s.run.records[i].dispatch;
    IndexIs(s.run.records, i);
    hide LedgerSound, SubmitOperation, RecordIndex;
    SubmitIs(s.run, d, effect, Some(state), i);
    IndexSurvives(s.run.records, i, CompletedRecord(s.run.records[i], effect.identity), d);
  }

  /** Helped, a step retires the first active dispatch. */
  lemma HelpRetires(sha: Sha256, s: Snapshot, i: nat, digest: Digest, nonce: EffectJournal.Nonce, blocking: bool)
    returns (step: Step)
    requires SnapshotSound(s) && s.sequence < MAXIMUM_SEQUENCE && FirstAt(s.run.records, i)
    requires blocking ==> !StartedOperation(s.run.records[i])
    ensures CheckedAdvance(sha, s, Help(s, digest, nonce, blocking)).result == Success(step)
    ensures Furthers(s.run.progress, step.run.progress, s.run.records[i].dispatch.unit)
    ensures step.disposition != AuthorityUnavailable && step.disposition != ExternalResolution
    ensures step.disposition != Quiescent
    ensures !RetainsUncertainty(step)
  {
    hide LedgerSound, CheckedAdvance, Served, ProvesSuccess, SessionFor, Publishing, LifecycleBound, FirstActive,
      RetainsUncertainty;
    var r := s.run.records[i];
    FirstActiveIs(s.run.records, i);
    var a := Help(s, digest, nonce, blocking);
    assert a == RecoverFirst(r, digest, nonce, blocking);
    if r.state == Reserved {
      step := ReleaseHelps(sha, s, i, a);
      NoUncertainty(step);
    } else {
      StartedIsRequired(s.run, i);
      var session := SessionFor(r.dispatch.unit, r.dispatch.reservedState, r.session.value);
      SessionBinds(r.dispatch.unit, r.dispatch.reservedState, r.session.value);
      if r.dispatch.unit.kind != OperationUnit {
        step := WorkHelps(sha, s, i, a, WorkResult(session, "", true));
        NoUncertainty(step);
      } else {
        var effect := Publishing(session, Longer(r.observations));
        PublishingProves(s.run.progress, session, Longer(r.observations));
        LongerIsNew(r.observations);
        step := OperationHelps(sha, s, i, a, effect, session.expectedState + "+");
      }
    }
  }

  /** The same help at every step. */
  ghost function Helping(digest: Digest, nonce: EffectJournal.Nonce, blocking: bool): (nat, Snapshot) -> Answers {
    (k: nat, s: Snapshot) => Help(s, digest, nonce, blocking)
  }
}
