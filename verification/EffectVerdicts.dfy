/**
  What each kind of evidence makes of an attempt: the record that is sealed, the state that is read, or
  nothing at all, for every restart and for every execution.
 */
module EffectVerdicts {
  import opened Wrappers
  import opened EffectJournal
  import opened EffectJournalLaws
  import opened EffectProtocol
  import opened EffectStorage
  import opened EffectSafety

  /** After `steps` actions the process has stopped for this reason and left this disk. */
  ghost predicate ComesToRest(cfg: Config, d: Driver, s: State, steps: nat, disk: Disk, reason: Stop)
    requires Valid(cfg)
  {
    forall n: nat | n >= steps :: Run(cfg, d, s, n).disk == disk && Run(cfg, d, s, n).process.pc == Stopped(reason)
  }

  lemma RestsNow(cfg: Config, d: Driver, s: State, reason: Stop)
    requires Valid(cfg) && s.process.pc == Stopped(reason)
    ensures ComesToRest(cfg, d, s, 0, s.disk, reason)
  {}

  lemma RestsLater(cfg: Config, d: Driver, s: State, steps: nat, disk: Disk, reason: Stop)
    requires Valid(cfg) && !s.process.pc.Stopped? && ComesToRest(cfg, d, Step(cfg, d, s), steps, disk, reason)
    ensures ComesToRest(cfg, d, s, steps + 1, disk, reason)
  {
    hide Step;
    forall n: nat | n >= steps + 1
      ensures Run(cfg, d, s, n).disk == disk && Run(cfg, d, s, n).process.pc == Stopped(reason)
    {
      assert Run(cfg, d, s, n) == Run(cfg, d, Step(cfg, d, s), n - 1);
    }
  }

  // ---------------------------------------------------------------- the evidence, case by case

  predicate Uncertain(outcome: ApplicationOutcome) {
    || outcome == FailedWithPartialEffects || outcome == EffectsVisibleDurabilityUnconfirmed
    || outcome == ApplicationIndeterminate
  }

  predicate Unconfirmable(outcome: PublicationOutcome) {
    outcome == PublishedDurabilityUnconfirmed || outcome == PublicationIndeterminate
  }

  /** The evidence of a record that decides how the attempt ends, whatever is observed later. */
  predicate Decides(r: Record, outcome: OperationOutcome) {
    match outcome
    case LifecycleFailedBeforeApplication =>
      r.stage == BeforeTerminal && r.before != [] && !r.before[|r.before| - 1].succeeded
    case ApplicationNotCompleted =>
      && r.stage == ApplicationTerminal && r.application.Some?
      && (|| r.application.value.outcome == PreconditionRefused
          || r.application.value.outcome == FailedBeforeTargetMutation
          || r.application.value.outcome == FailedFullyRecovered)
    case LifecycleFailedAfterApplication =>
      r.stage == AfterTerminal && r.after != [] && !r.after[|r.after| - 1].succeeded
    case StatePublicationNotCompleted =>
      && r.stage == PublicationTerminal && r.publication.Some?
      && (|| r.publication.value.outcome == StaleExpectedState
          || r.publication.value.outcome == RequestRejected
          || r.publication.value.outcome == FailedBeforePublication)
    case Completed =>
      r.stage == PublicationTerminal && r.publication.Some? && r.publication.value.outcome == Published
    case _ => false
  }

  /** Nobody but an operator can tell what became of the effect. */
  predicate NeedsResolution(r: Record, c: Checkpoint) {
    match r.stage
    case BeforeIntent => true
    case AfterIntent => true
    case ApplicationIntent =>
      !c.declared || c.subordinate == SubordinateExternal || (c.subordinate == SubordinateTerminal && c.ahead.None?)
    case ApplicationTerminal => r.application.Some? && Uncertain(r.application.value.outcome)
    case _ => false
  }

  /** The attempt may go on to effects that have not begun, or resume its application. */
  predicate GoesOn(r: Record, c: Checkpoint) {
    match r.stage
    case Admitted => true
    case BeforeTerminal => r.before != [] && r.before[|r.before| - 1].succeeded
    case ApplicationIntent => c.declared
    case ApplicationTerminal => r.application.Some? && r.application.value.outcome == ApplicationCompleted
    case AfterTerminal => r.after != [] && r.after[|r.after| - 1].succeeded
    case _ => false
  }

  predicate ReadsState(r: Record) {
    || r.stage == PublicationIntent
    || (r.stage == PublicationTerminal && r.publication.Some? && Unconfirmable(r.publication.value.outcome))
  }

  /** Bodies that fit a record: the application's are present only while it is in flight. */
  predicate Fits(r: Record, c: Checkpoint) {
    if r.stage != ApplicationIntent then !c.declared && c.ahead.None?
    else c.ahead.Some? ==>
           && c.declared && c.subordinate == SubordinateTerminal
           && (c.ahead.value.outcome == ApplicationCompleted ==> c.ahead.value.completedEvidence.Some?)
  }

  /** The receipt or result that belongs to a record's stage is there. */
  predicate HasItsEvidence(r: Record) {
    && (r.stage == BeforeTerminal ==> r.before != [])
    && (r.stage == ApplicationTerminal ==> r.application.Some?)
    && (r.stage == AfterTerminal ==> r.after != [])
    && (r.stage == PublicationTerminal ==> r.publication.Some?)
  }

  lemma ShapeHasItsEvidence(r: Record)
    requires Shape(r)
    ensures HasItsEvidence(r)
  {
    hide HeaderShape, IdentityShape, CausalShape, RetainedTransitionCount;
  }

  lemma AssessedByEvidence(r: Record)
    requires Shape(r)
    ensures Assess(r) == ReconcilePublication <==> ReadsState(r)
    ensures Assess(r) == AlreadyTerminal <==> r.stage == Terminal
    ensures Assess(r) == EffectProtocol.ResumeApplication <==> r.stage == ApplicationIntent
    ensures Assess(r) == ExternalResolutionRequired <==>
              || r.stage == BeforeIntent || r.stage == AfterIntent
              || (r.stage == ApplicationTerminal && r.application.Some? && Uncertain(r.application.value.outcome))
    ensures Assess(r) == SealNow <==> exists outcome :: Decides(r, outcome)
  {
    ShapeHasItsEvidence(r);
    hide Shape;
    if Assess(r) == SealNow {
      var outcome := SealOutcome(r);
      assert Decides(r, outcome);
    }
  }

  lemma FitsIff(r: Record, c: Checkpoint)
    ensures CheckpointFits(r, c) <==> Fits(r, c)
  {}

  /** Every shaped record falls under one of these, and a restart treats it accordingly. */
  lemma RestartsByEvidence(cfg: Config, d: Driver, disk: Disk, c: Checkpoint)
    requires Valid(cfg) && disk.head.Some? && Shape(disk.head.value)
    ensures var r, p := disk.head.value, Restart(cfg, d, disk, c);
            && (p.pc == Stopped(Refused) <==> !Fits(r, c))
            && (Fits(r, c) ==>
                  && (p.pc == Stopped(ResolutionRequired) <==> NeedsResolution(r, c))
                  && (p.pc == Observing <==> ReadsState(r))
                  && (p.pc == Stopped(NoLease) <==> GoesOn(r, c) && !NeedsResolution(r, c) && !d.heldAtEntry)
                  && (p.pc == Stopped(Sealed) <==> r.stage == Terminal))
            && (NeedsContinuation(r, c) <==> GoesOn(r, c))
  {
    FitsIff(disk.head.value, c);
    AssessedByEvidence(disk.head.value);
    hide Projection, Deliver, Shape, CheckpointFits, Fits, Assess, SealOutcome;
  }

  // ---------------------------------------------------------------- sealing

  /** `final` seals `r` with this outcome and keeps all its evidence. */
  predicate SealedAs(r: Record, final: Record, outcome: OperationOutcome, reconciled: Option<string>) {
    && final.stage == Terminal && final.terminalOutcome == Some(outcome) && final.reconciledState == reconciled
    && final.sequence == r.sequence + 1 && final.previous == Some(r.identity) && final.attempt == r.attempt
    && final.before == r.before && final.application == r.application && final.after == r.after
    && final.transactionEvidence == r.transactionEvidence && final.publicationRequest == r.publicationRequest
    && final.publication == r.publication
  }

  predicate SealAllowed(r: Record, outcome: OperationOutcome, reconciled: Option<string>) {
    || (outcome == OuterLeaseLost && reconciled.None? && !IsIntent(r.stage) && r.stage != Terminal)
    || (Decides(r, outcome) && reconciled.None?)
    || (outcome == Completed && reconciled.Some? && Canonical(reconciled.value) && ReadsState(r))
  }

  lemma SealSucceeds(cfg: Config, r: Record, outcome: OperationOutcome, reconciled: Option<string>)
    returns (final: Record)
    requires Valid(cfg) && ShapeValid(cfg.sha, r) && r.beforeTotal == cfg.beforeTotal && r.afterTotal == cfg.afterTotal
    requires SealAllowed(r, outcome, reconciled)
    ensures Apply(cfg.sha, r, SealTerminal(outcome, reconciled)) == Success(final)
    ensures SealedAs(r, final, outcome, reconciled) && Shape(final)
  {
    hide RecordIdentity, SuccessorAccepts, IdentityShape, CausalShape, RetainedTransitionCount, TerminalShape;
    assert Enabled(r, SealTerminal(outcome, reconciled));
    hide Shape, Apply;
    GuardsSuffice(cfg.sha, r, SealTerminal(outcome, reconciled));
    final := Apply(cfg.sha, r, SealTerminal(outcome, reconciled)).value;
    AppliedSeal(cfg, r, outcome, reconciled, final);
  }

  lemma AppliedSeal(cfg: Config, r: Record, outcome: OperationOutcome, reconciled: Option<string>, final: Record)
    requires Apply(cfg.sha, r, SealTerminal(outcome, reconciled)) == Success(final)
    ensures SealedAs(r, final, outcome, reconciled) && Shape(final)
  {
    hide RecordIdentity, Shape, SuccessorAccepts, May;
    assert final == Next(cfg.sha, r, Draft(r, SealTerminal(outcome, reconciled)));
  }

  /** The disk after one more record. */
  function WithRecord(disk: Disk, r: Record): Disk {
    Disk(Some(r), disk.canonical, disk.log + [EffectProtocol.Appended(r)])
  }

  lemma SealRests(cfg: Config, d: Driver, s: State, outcome: OperationOutcome, reconciled: Option<string>)
    returns (final: Record)
    requires Valid(cfg) && ShapeValid(cfg.sha, s.process.journal)
    requires s.process.journal.beforeTotal == cfg.beforeTotal && s.process.journal.afterTotal == cfg.afterTotal
    requires s.process.pc == Appending(SealTerminal(outcome, reconciled))
    requires SealAllowed(s.process.journal, outcome, reconciled)
    ensures SealedAs(s.process.journal, final, outcome, reconciled)
    ensures ComesToRest(cfg, d, s, 1, WithRecord(s.disk, final), Sealed)
  {
    hide RecordIdentity, Shape, Apply, EmitAll, Run, SealAllowed;
    final := SealSucceeds(cfg, s.process.journal, outcome, reconciled);
    EmitOne(cfg, s.disk, EffectProtocol.Appended(final));
    RestsNow(cfg, d, Step(cfg, d, s), Sealed);
    RestsLater(cfg, d, s, 0, WithRecord(s.disk, final), Sealed);
  }

  predicate At(cfg: Config, disk: Disk) {
    && disk.head.Some? && ShapeValid(cfg.sha, disk.head.value)
    && disk.head.value.beforeTotal == cfg.beforeTotal && disk.head.value.afterTotal == cfg.afterTotal
  }

  /** A restart at decided evidence seals exactly that outcome, with or without a lease. */
  lemma RestartSealsDecided(cfg: Config, d: Driver, disk: Disk, c: Checkpoint, outcome: OperationOutcome)
    returns (final: Record)
    requires Valid(cfg) && At(cfg, disk) && Fits(disk.head.value, c) && Decides(disk.head.value, outcome)
    ensures SealedAs(disk.head.value, final, outcome, None)
    ensures ComesToRest(cfg, d, State(disk, Restart(cfg, d, disk, c)), 1, WithRecord(disk, final), Sealed)
  {
    hide RecordIdentity, IdentityShape, CausalShape, RetainedTransitionCount, ComesToRest, Run, Decide;
    assert Restart(cfg, d, disk, c).pc == Appending(SealTerminal(outcome, None));
    assert SealAllowed(disk.head.value, outcome, None);
    hide SealAllowed, Shape, Restart;
    final := SealRests(cfg, d, State(disk, Restart(cfg, d, disk, c)), outcome, None);
  }

  // ---------------------------------------------------------------- a publication that is not confirmed

  function AfterReading(cfg: Config, r: Record, canonical: string, request: string): Pc {
    if canonical == cfg.resulting(request) then Appending(SealTerminal(Completed, Some(canonical)))
    else if r.stage == PublicationTerminal || canonical != cfg.expected then Stopped(ResolutionRequired)
    else Republishing
  }

  lemma ReadMoves(cfg: Config, d: Driver, disk: Disk, c: Checkpoint, request: string)
    requires Valid(cfg) && disk.head.Some? && Shape(disk.head.value) && Fits(disk.head.value, c)
    requires ReadsState(disk.head.value) && disk.head.value.publicationRequest == Some(request)
    ensures var r, s := disk.head.value, State(disk, Restart(cfg, d, disk, c));
            var read := disk.(log := disk.log + [ReadState(disk.canonical)]);
            && !s.process.pc.Stopped? && Step(cfg, d, s).disk == read
            && Step(cfg, d, s).process == Process(r, AfterReading(cfg, r, disk.canonical, request), true)
  {
    AssessedByEvidence(disk.head.value);
    hide Shape, EmitAll, Assess, Decide;
    EmitOne(cfg, disk, ReadState(disk.canonical));
  }

  /**
    A restart at an intent, or at a receipt that leaves the publication open, which reads the resulting
    state: it seals the attempt completed, with that state and whatever the receipt says.
   */
  lemma ReadStateCompletes(cfg: Config, d: Driver, disk: Disk, c: Checkpoint, request: string) returns (final: Record)
    requires Valid(cfg) && At(cfg, disk) && Fits(disk.head.value, c) && ReadsState(disk.head.value)
    requires disk.head.value.publicationRequest == Some(request)
    requires disk.canonical == cfg.resulting(request) && Canonical(disk.canonical)
    ensures SealedAs(disk.head.value, final, Completed, Some(disk.canonical))
    ensures ComesToRest(cfg, d, State(disk, Restart(cfg, d, disk, c)), 2,
                        WithRecord(disk.(log := disk.log + [ReadState(disk.canonical)]), final), Sealed)
  {
    hide RecordIdentity, Shape, Restart, Step, Run, ComesToRest, Fits, ReadsState;
    ReadMoves(cfg, d, disk, c, request);
    var s := State(disk, Restart(cfg, d, disk, c));
    assert SealAllowed(disk.head.value, Completed, Some(disk.canonical));
    final := SealRests(cfg, d, Step(cfg, d, s), Completed, Some(disk.canonical));
    RestsLater(cfg, d, s, 1, WithRecord(disk.(log := disk.log + [ReadState(disk.canonical)]), final), Sealed);
  }

  /** If it reads anything else after a receipt, or a third state at the intent, it changes nothing. */
  lemma OtherStateWaits(cfg: Config, d: Driver, disk: Disk, c: Checkpoint, request: string)
    requires Valid(cfg) && disk.head.Some? && Shape(disk.head.value) && Fits(disk.head.value, c)
    requires ReadsState(disk.head.value) && disk.head.value.publicationRequest == Some(request)
    requires disk.canonical != cfg.resulting(request)
    requires disk.head.value.stage == PublicationTerminal || disk.canonical != cfg.expected
    ensures ComesToRest(cfg, d, State(disk, Restart(cfg, d, disk, c)), 1,
                        disk.(log := disk.log + [ReadState(disk.canonical)]), ResolutionRequired)
  {
    hide RecordIdentity, Shape, Restart, Step, Run, ComesToRest, Fits, ReadsState;
    ReadMoves(cfg, d, disk, c, request);
    var s := State(disk, Restart(cfg, d, disk, c));
    RestsNow(cfg, d, Step(cfg, d, s), ResolutionRequired);
    RestsLater(cfg, d, s, 0, disk.(log := disk.log + [ReadState(disk.canonical)]), ResolutionRequired);
  }

  // ---------------------------------------------------------------- an execution after a record

  /** The process has just made this record durable, in an execution or in the middle of a restart. */
  predicate Recorded(cfg: Config, d: Driver, s: State) {
    && At(cfg, s.disk) && s.process.journal == s.disk.head.value
    && s.process.pc == Continue(cfg, d, s.process.journal, s.process.reconciling)
  }

  /** Decided evidence is sealed; after a publication an execution looks for its lease first. */
  lemma RecordedIsSealed(cfg: Config, d: Driver, s: State, outcome: OperationOutcome) returns (final: Record)
    requires Valid(cfg) && Recorded(cfg, d, s) && Decides(s.process.journal, outcome)
    requires s.process.journal.stage == PublicationTerminal ==>
               s.process.reconciling || d.held(s.process.journal.sequence)
    ensures SealedAs(s.process.journal, final, outcome, None)
    ensures ComesToRest(cfg, d, s, 1, WithRecord(s.disk, final), Sealed)
  {
    hide RecordIdentity, IdentityShape, CausalShape, RetainedTransitionCount, ComesToRest, Run, Decide;
    assert s.process.pc == Appending(SealTerminal(outcome, None));
    assert SealAllowed(s.process.journal, outcome, None);
    hide SealAllowed, Shape, Continue;
    final := SealRests(cfg, d, s, outcome, None);
  }

  /** An outcome that nobody can judge is never sealed: the process stops and leaves the receipt as the head. */
  lemma RecordedIsLeft(cfg: Config, d: Driver, s: State)
    requires Valid(cfg) && Recorded(cfg, d, s)
    ensures var r := s.process.journal;
            && (r.stage == ApplicationTerminal && r.application.Some? && Uncertain(r.application.value.outcome) ==>
                  ComesToRest(cfg, d, s, 0, s.disk, ResolutionRequired))
            && (&& r.stage == PublicationTerminal && r.publication.Some? && Unconfirmable(r.publication.value.outcome)
                && (s.process.reconciling || d.held(r.sequence)) ==>
                  ComesToRest(cfg, d, s, 0, s.disk, Unconfirmed))
  {
    hide HeaderShape, IdentityShape, CausalShape, RetainedTransitionCount, ComesToRest, Run, Decide;
    if s.process.pc.Stopped? {
      RestsNow(cfg, d, s, s.process.pc.reason);
    }
  }

  /** The attempt has succeeded so far, and its next step asks for the lease. */
  predicate AsksForLease(r: Record, reconciling: bool) {
    || r.stage == Admitted
    || (r.stage == BeforeTerminal && r.before != [] && r.before[|r.before| - 1].succeeded)
    || (r.stage == ApplicationTerminal && r.application.Some? && r.application.value.outcome == ApplicationCompleted)
    || (r.stage == AfterTerminal && r.after != [] && r.after[|r.after| - 1].succeeded)
    || (r.stage == PublicationTerminal && !reconciling)
  }

  /** A lost lease is sealed before anything else is begun. */
  lemma LostLeaseIsSealed(cfg: Config, d: Driver, s: State) returns (final: Record)
    requires Valid(cfg) && Recorded(cfg, d, s) && AsksForLease(s.process.journal, s.process.reconciling)
    requires !d.held(s.process.journal.sequence)
    ensures SealedAs(s.process.journal, final, OuterLeaseLost, None)
    ensures ComesToRest(cfg, d, s, 1, WithRecord(s.disk, final), Sealed)
  {
    hide RecordIdentity, IdentityShape, CausalShape, RetainedTransitionCount, ComesToRest, Run;
    assert s.process.pc == Appending(SealTerminal(OuterLeaseLost, None));
    assert SealAllowed(s.process.journal, OuterLeaseLost, None);
    hide SealAllowed, Shape, Continue;
    final := SealRests(cfg, d, s, OuterLeaseLost, None);
  }

  // ---------------------------------------------------------------- heads that no process ever leaves

  /** Lifecycle sessions in flight, applications nobody can judge, and sealed attempts. */
  predicate Final(r: Record) {
    || r.stage == BeforeIntent || r.stage == AfterIntent || r.stage == Terminal
    || (r.stage == ApplicationTerminal && r.application.Some? && Uncertain(r.application.value.outcome))
  }

  lemma FinalLaunchStops(cfg: Config, disk: Disk, l: Launch)
    requires Valid(cfg) && disk.head.Some? && Shape(disk.head.value) && Final(disk.head.value)
    ensures Launched(cfg, disk, l).pc.Stopped?
  {
    match l
    case Execution(_, _) =>
      hide Shape;
    case Recovery(d, c, _) =>
      hide Shape, Restart;
      RestartsByEvidence(cfg, d, disk, c);
  }

  /** Whatever is started, killed or lost afterwards, nothing more happens to such an attempt. */
  lemma {:induction false} FinalHeadsStay(cfg: Config, st: Storage, hs: seq<Happening>)
    requires Valid(cfg) && st.disk.head.Some? && st.durable == st.disk.head
    requires Shape(st.disk.head.value) && Final(st.disk.head.value)
    ensures After(cfg, st, hs) == st
    decreases |hs|
  {
    hide Shape, Launched;
    if hs != [] {
      if hs[0].Ran? {
        FinalLaunchStops(cfg, st.disk, hs[0].launch);
      }
      assert Happens(cfg, st, hs[0]) == st;
      FinalHeadsStay(cfg, st, hs[1..]);
    }
  }
}
