/**
  Crash-restart refinement: with the same driver and a lease that is held throughout, an
  execution that is cut and restarted, any number of times, ends at the journal record
  that the uninterrupted execution reaches.
 */
module EffectRecovery {
  import opened Wrappers
  import opened EffectJournal
  import opened EffectJournalLaws
  import opened EffectProtocol

  ghost predicate LeaseHeld(d: Driver) {
    d.heldAtEntry && forall sequence: nat :: d.held(sequence)
  }

  /** The process stops by itself, leaving `final` as the durable head. */
  ghost predicate Settles(cfg: Config, d: Driver, s: State, final: Record)
    requires Valid(cfg)
  {
    exists n: nat :: SettlesIn(cfg, d, s, final, n)
  }

  predicate SettlesIn(cfg: Config, d: Driver, s: State, final: Record, n: nat)
    requires Valid(cfg)
  {
    Run(cfg, d, s, n).process.pc.Stopped? && Run(cfg, d, s, n).disk.head == Some(final)
  }

  lemma SettlesBackward(cfg: Config, d: Driver, s: State, final: Record)
    requires Valid(cfg) && !s.process.pc.Stopped? && Settles(cfg, d, Step(cfg, d, s), final)
    ensures Settles(cfg, d, s, final)
  {
    hide Step;
    var n: nat :| SettlesIn(cfg, d, Step(cfg, d, s), final, n);
    assert SettlesIn(cfg, d, s, final, n + 1);
  }

  lemma SettlesForward(cfg: Config, d: Driver, s: State, final: Record)
    requires Valid(cfg) && !s.process.pc.Stopped? && Settles(cfg, d, s, final)
    ensures Settles(cfg, d, Step(cfg, d, s), final)
  {
    hide Step;
    var n: nat :| SettlesIn(cfg, d, s, final, n);
    assert SettlesIn(cfg, d, Step(cfg, d, s), final, n - 1);
  }

  // ---------------------------------------------------------------- what does not matter

  /** The same but for the log and, under a held lease, the reconciling flag. */
  predicate Alike(s: State, t: State) {
    && s.process.(reconciling := false) == t.process.(reconciling := false)
    && s.disk.head == t.disk.head && s.disk.canonical == t.disk.canonical
  }

  lemma {:induction false} EmitAllAlike(cfg: Config, a: Disk, b: Disk, events: seq<Event>)
    requires a.head == b.head && a.canonical == b.canonical
    ensures EmitAll(cfg, a, events).head == EmitAll(cfg, b, events).head
    ensures EmitAll(cfg, a, events).canonical == EmitAll(cfg, b, events).canonical
  {
    if events != [] {
      EmitAllAlike(cfg, a, b, events[..|events| - 1]);
    }
  }

  lemma ContinuesAlike(cfg: Config, d: Driver, r: Record)
    requires Shape(r) && LeaseHeld(d)
    ensures Continue(cfg, d, r, true) == Continue(cfg, d, r, false)
  {
    hide Shape, Decide;
  }

  lemma AdvanceAlike(cfg: Config, d: Driver, canonical: string, p: Process)
    requires Valid(cfg) && LeaseHeld(d)
    ensures var a, b := Advance(cfg, d, canonical, p.(reconciling := true)),
                        Advance(cfg, d, canonical, p.(reconciling := false));
            a.events == b.events && a.next.(reconciling := false) == b.next.(reconciling := false)
  {
    hide Continue, RecordIdentity, Draft, May, Shape, SuccessorAccepts;
    if p.pc.Appending? {
      var result := Apply(cfg.sha, p.journal, p.pc.next);
      if result.Success? {
        ContinuesAlike(cfg, d, result.value);
      }
    }
  }

  lemma StepAlike(cfg: Config, d: Driver, s: State, t: State)
    requires Valid(cfg) && LeaseHeld(d) && Alike(s, t)
    ensures Alike(Step(cfg, d, s), Step(cfg, d, t))
  {
    hide Advance, LeaseHeld, EmitAll;
    AdvanceAlike(cfg, d, s.disk.canonical, s.process);
    assert s.process == s.process.(reconciling := true) || s.process == s.process.(reconciling := false);
    assert t.process == s.process.(reconciling := true) || t.process == s.process.(reconciling := false);
    EmitAllAlike(cfg, s.disk, t.disk, Advance(cfg, d, s.disk.canonical, s.process).events);
  }

  lemma AlikeStops(s: State, t: State)
    requires Alike(s, t)
    ensures s.process.pc == t.process.pc
  {
    assert s.process.(reconciling := false).pc == t.process.(reconciling := false).pc;
  }

  lemma {:induction false} RunAlike(cfg: Config, d: Driver, s: State, t: State, n: nat)
    requires Valid(cfg) && LeaseHeld(d) && Alike(s, t)
    ensures Alike(Run(cfg, d, s, n), Run(cfg, d, t, n))
    decreases n
  {
    hide Step, LeaseHeld, Alike;
    AlikeStops(s, t);
    if n > 0 && !s.process.pc.Stopped? {
      StepAlike(cfg, d, s, t);
      RunAlike(cfg, d, Step(cfg, d, s), Step(cfg, d, t), n - 1);
    }
  }

  lemma SettlesAlike(cfg: Config, d: Driver, s: State, t: State, final: Record)
    requires Valid(cfg) && LeaseHeld(d) && Alike(s, t) && Settles(cfg, d, s, final)
    ensures Settles(cfg, d, t, final)
  {
    hide Run, LeaseHeld;
    var n: nat :| SettlesIn(cfg, d, s, final, n);
    RunAlike(cfg, d, s, t, n);
    assert SettlesIn(cfg, d, t, final, n);
  }

  // ---------------------------------------------------------------- since the last record

  /** The state right after the record `r` became durable. */
  predicate JustAppended(cfg: Config, d: Driver, base: State) {
    && base.disk.head == Some(base.process.journal) && ShapeValid(cfg.sha, base.process.journal)
    && base.process.journal.beforeTotal == cfg.beforeTotal && base.process.journal.afterTotal == cfg.afterTotal
    && base.process.pc == Continue(cfg, d, base.process.journal, false)
  }

  /** A process that asks again for what the base's call was: it stands where that call may still be made. */
  predicate AsksAgain(cfg: Config, d: Driver, s: State) {
    match s.process.pc
    case Resuming => s.process.journal.stage == ApplicationIntent && d.resume == d.apply
    case Observing =>
      s.process.journal.stage == PublicationIntent && s.disk.canonical == cfg.expected
      && cfg.resulting(OrEmpty(s.process.journal.publicationRequest)) != cfg.expected
    case Republishing => s.process.journal.stage == PublicationIntent && s.disk.canonical == cfg.expected
    case _ => false
  }

  /** `s` has acted since `base`, but no further record is durable. */
  predicate Tracks(cfg: Config, d: Driver, base: State, s: State) {
    var r := base.process.journal;
    && JustAppended(cfg, d, base)
    && s.disk.head == Some(r) && s.process.journal == r
    && (s.process.pc.Calling? || s.process.pc.Keeping? || s.process.pc.Appending? || s.process.pc.Stopped?
        || AsksAgain(cfg, d, s))
    && (s.process.pc.Calling? || AsksAgain(cfg, d, s) ==> s.disk.canonical == base.disk.canonical)
    && (s.disk.canonical == base.disk.canonical
        || (&& r.stage == PublicationIntent && r.publicationRequest.Some?
            && d.publish(r.publicationRequest.value, base.disk.canonical).moved
            && s.disk.canonical == cfg.resulting(r.publicationRequest.value)))
  }

  lemma ContinuesDirectly(cfg: Config, d: Driver, r: Record)
    requires Shape(r)
    ensures var pc := Continue(cfg, d, r, false);
            pc.Calling? || pc.Keeping? || pc.Appending? || pc.Stopped?
  {
    hide Shape, Projection;
  }

  /** One action later, `s` still tracks its base, or is itself the base of a new record. */
  lemma TracksStep(cfg: Config, d: Driver, base: State, s: State)
    requires Valid(cfg) && LeaseHeld(d) && Tracks(cfg, d, base, s)
    ensures var next := Step(cfg, d, s);
            Tracks(cfg, d, base, next) || Tracks(cfg, d, next, next)
  {
    hide Shape, Continue, RecordIdentity, Draft, May, LeaseHeld;
    var next := Step(cfg, d, s);
    var move := Advance(cfg, d, s.disk.canonical, s.process);
    match s.process.pc
    case Appending(t) => TracksAppend(cfg, d, base, s, t);
    case Calling => TracksCall(cfg, d, base, s);
    case Republishing => TracksCall(cfg, d, base, s);
    case Keeping(t) =>
      EmitNone(cfg, s.disk, move.events);
    case Resuming => EmitNone(cfg, s.disk, move.events);
    case Observing => EmitNone(cfg, s.disk, move.events);
    case _ =>
  }

  lemma EmitNone(cfg: Config, disk: Disk, events: seq<Event>)
    requires |events| <= 1 && (events != [] ==> !events[0].Appended? && !events[0].PublishedState?)
    ensures EmitAll(cfg, disk, events).head == disk.head && EmitAll(cfg, disk, events).canonical == disk.canonical
  {
    if events != [] {
      assert events[..0] == [];
    }
  }

  lemma TracksAppend(cfg: Config, d: Driver, base: State, s: State, t: Transition)
    requires Valid(cfg) && LeaseHeld(d) && Tracks(cfg, d, base, s) && s.process.pc == Appending(t)
    ensures var next := Step(cfg, d, s);
            Tracks(cfg, d, base, next) || Tracks(cfg, d, next, next)
  {
    hide Shape, Continue, RecordIdentity, Draft, May, SuccessorStage, LeaseHeld;
    var result := Apply(cfg.sha, s.process.journal, t);
    if result.Success? {
      EmitOne(cfg, s.disk, Appended(result.value));
      ContinuesDirectly(cfg, d, result.value);
      ContinuesAlike(cfg, d, result.value);
    }
  }

  lemma TracksCall(cfg: Config, d: Driver, base: State, s: State)
    requires Valid(cfg) && Tracks(cfg, d, base, s) && (s.process.pc.Calling? || s.process.pc.Republishing?)
    ensures Tracks(cfg, d, base, Step(cfg, d, s))
  {
    hide Apply, Continue, RecordIdentity;
    var r := s.process.journal;
    var move := Advance(cfg, d, s.disk.canonical, s.process);
    if r.stage == PublicationIntent {
      EmitOne(cfg, s.disk, move.events[0]);
    } else {
      EmitNone(cfg, s.disk, move.events);
    }
  }

  /** On the way to the record that the uninterrupted execution reaches. */
  ghost predicate OnCourse(cfg: Config, d: Driver, s: State, final: Record)
    requires Valid(cfg)
  {
    exists base: State :: Tracks(cfg, d, base, s) && Settles(cfg, d, base, final) && Settles(cfg, d, s, final)
  }

  lemma {:induction false} CourseRuns(cfg: Config, d: Driver, s: State, final: Record, n: nat)
    requires Valid(cfg) && LeaseHeld(d) && OnCourse(cfg, d, s, final)
    ensures OnCourse(cfg, d, Run(cfg, d, s, n), final)
    decreases n
  {
    hide Tracks, Settles, Step, LeaseHeld;
    if n > 0 && !s.process.pc.Stopped? {
      var base: State :| Tracks(cfg, d, base, s) && Settles(cfg, d, base, final) && Settles(cfg, d, s, final);
      TracksStep(cfg, d, base, s);
      SettlesForward(cfg, d, s, final);
      CourseRuns(cfg, d, Step(cfg, d, s), final, n - 1);
    }
  }

  lemma FirstRecordTracks(cfg: Config, d: Driver, disk: Disk)
    requires Valid(cfg) && (disk.head.None? || disk.head.value == Admission(cfg))
    ensures var s := State(disk, Fresh(cfg, disk));
            !s.process.pc.Stopped? && Tracks(cfg, d, Step(cfg, d, s), Step(cfg, d, s))
  {
    hide RecordIdentity, Continue, Shape, Admission;
    EmitOne(cfg, disk, Appended(Admission(cfg)));
    ContinuesDirectly(cfg, d, Admission(cfg));
  }

  /** A durable execution of a new attempt is on course from its first record on. */
  lemma FreshIsOnCourse(cfg: Config, d: Driver, disk: Disk, final: Record, n: nat)
    requires Valid(cfg) && LeaseHeld(d) && (disk.head.None? || disk.head.value == Admission(cfg))
    requires Settles(cfg, d, State(disk, Fresh(cfg, disk)), final) && n > 0
    ensures OnCourse(cfg, d, Run(cfg, d, State(disk, Fresh(cfg, disk)), n), final)
  {
    hide Settles, LeaseHeld, Step, Tracks, Fresh;
    var s := State(disk, Fresh(cfg, disk));
    FirstRecordTracks(cfg, d, disk);
    SettlesForward(cfg, d, s, final);
    CourseRuns(cfg, d, Step(cfg, d, s), final, n - 1);
  }

  // ---------------------------------------------------------------- restarts at a boundary

  /** Records from which nothing is uncertain: no effect has begun that has no evidence. */
  predicate Boundary(r: Record)
    requires Shape(r)
  {
    !IsIntent(r.stage) && (r.stage == PublicationTerminal ==> Definite(r.publication.value.outcome))
  }

  /** At a boundary the restart goes on exactly where the execution stood. */
  lemma RestartGoesOn(cfg: Config, d: Driver, disk: Disk, c: Checkpoint)
    requires Valid(cfg) && LeaseHeld(d) && disk.head.Some? && Shape(disk.head.value)
    requires disk.head.value.beforeTotal == cfg.beforeTotal && disk.head.value.afterTotal == cfg.afterTotal
    requires Boundary(disk.head.value) && CheckpointFits(disk.head.value, c)
    ensures Restart(cfg, d, disk, c) == Process(disk.head.value, Continue(cfg, d, disk.head.value, false), false)
  {
    hide Projection, Deliver;
  }

  lemma BoundaryRestartIsOnCourse(cfg: Config, d: Driver, s: State, final: Record, c: Checkpoint)
    requires Valid(cfg) && LeaseHeld(d) && OnCourse(cfg, d, s, final)
    requires s.disk.head.Some? && Shape(s.disk.head.value) && Boundary(s.disk.head.value)
    requires CheckpointFits(s.disk.head.value, c)
    ensures OnCourse(cfg, d, State(s.disk, Restart(cfg, d, s.disk, c)), final)
  {
    hide Settles, Shape, Continue, LeaseHeld, CheckpointFits, RecordIdentity;
    var base: State :| Tracks(cfg, d, base, s) && Settles(cfg, d, base, final) && Settles(cfg, d, s, final);
    RestartGoesOn(cfg, d, s.disk, c);
    hide Restart;
    var again := State(s.disk, Restart(cfg, d, s.disk, c));
    assert Alike(base, again);
    SettlesAlike(cfg, d, base, again, final);
    ContinuesDirectly(cfg, d, s.disk.head.value);
    assert Tracks(cfg, d, again, again);
  }

  // ---------------------------------------------------------------- restarts at an intent

  /** Nothing is guessed about a lifecycle effect in flight: the restart leaves it alone. */
  lemma LifecycleIntentIsLeftAlone(cfg: Config, d: Driver, disk: Disk, c: Checkpoint, n: nat)
    requires Valid(cfg) && disk.head.Some? && Shape(disk.head.value)
    requires disk.head.value.stage == BeforeIntent || disk.head.value.stage == AfterIntent
    ensures Run(cfg, d, State(disk, Restart(cfg, d, disk, c)), n).disk == disk
  {
    hide Shape, Step, Decide, AcceptableReceipt, LastSucceeded, Classify;
    assert Restart(cfg, d, disk, c).pc.Stopped?;
  }

  /** A restart at an application intent whose resumption yields what the call yields. */
  lemma ApplicationRestartSettles(cfg: Config, d: Driver, s: State, final: Record, c: Checkpoint)
    requires Valid(cfg) && LeaseHeld(d) && OnCourse(cfg, d, s, final) && d.resume == d.apply
    requires s.disk.head.Some? && Shape(s.disk.head.value) && s.disk.head.value.stage == ApplicationIntent
    requires CheckpointFits(s.disk.head.value, c) && c.declared && c.subordinate == SubordinateContinues
    ensures Settles(cfg, d, State(s.disk, Restart(cfg, d, s.disk, c)), final)
    ensures OnCourse(cfg, d, State(s.disk, Restart(cfg, d, s.disk, c)), final)
  {
    hide Settles, Shape, RecordIdentity, Apply, EmitAll;
    var base: State :| Tracks(cfg, d, base, s) && Settles(cfg, d, base, final) && Settles(cfg, d, s, final);
    var again := State(s.disk, Restart(cfg, d, s.disk, c));
    assert again.process == Process(s.disk.head.value, Resuming, false);
    EmitNone(cfg, base.disk, [AppliedApplication]);
    EmitNone(cfg, s.disk, [ResumedApplication]);
    assert Alike(Step(cfg, d, base), Step(cfg, d, again));
    hide Step, Restart, LeaseHeld;
    SettlesForward(cfg, d, base, final);
    SettlesAlike(cfg, d, Step(cfg, d, base), Step(cfg, d, again), final);
    SettlesBackward(cfg, d, again, final);
    assert Tracks(cfg, d, base, again);
  }

  /** A restart that finds the receipt which the crash kept out of the journal. */
  lemma AheadReceiptSettles(cfg: Config, d: Driver, s: State, final: Record, c: Checkpoint)
    requires Valid(cfg) && LeaseHeld(d) && OnCourse(cfg, d, s, final)
    requires s.disk.head.Some? && Shape(s.disk.head.value) && s.disk.head.value.stage == ApplicationIntent
    requires CheckpointFits(s.disk.head.value, c) && c.ahead.Some? && c.ahead == d.apply
    ensures Settles(cfg, d, State(s.disk, Restart(cfg, d, s.disk, c)), final)
    ensures OnCourse(cfg, d, State(s.disk, Restart(cfg, d, s.disk, c)), final)
  {
    hide Settles, Shape, RecordIdentity, Apply, EmitAll;
    var base: State :| Tracks(cfg, d, base, s) && Settles(cfg, d, base, final) && Settles(cfg, d, s, final);
    var again := State(s.disk, Restart(cfg, d, s.disk, c));
    assert again.process == Process(s.disk.head.value, Appending(CompleteApplication(d.apply.value)), false);
    EmitNone(cfg, base.disk, [AppliedApplication]);
    var called := Step(cfg, d, base);
    SettlesForward(cfg, d, base, final);
    if cfg.keepBodies {
      EmitNone(cfg, called.disk, [Retained(ApplicationBody(d.apply.value))]);
      SettlesForward(cfg, d, called, final);
      SettlesAlike(cfg, d, Step(cfg, d, called), again, final);
    } else {
      SettlesAlike(cfg, d, called, again, final);
    }
    assert Tracks(cfg, d, base, again);
  }

  /** A restart at a publication intent that reads the expected state publishes as the execution would. */
  lemma PublicationRestartSettles(cfg: Config, d: Driver, s: State, final: Record, c: Checkpoint)
    requires Valid(cfg) && LeaseHeld(d) && OnCourse(cfg, d, s, final)
    requires s.disk.head.Some? && Shape(s.disk.head.value) && s.disk.head.value.stage == PublicationIntent
    requires CheckpointFits(s.disk.head.value, c) && s.disk.canonical == cfg.expected
    requires cfg.resulting(OrEmpty(s.disk.head.value.publicationRequest)) != cfg.expected
    ensures Settles(cfg, d, State(s.disk, Restart(cfg, d, s.disk, c)), final)
    ensures OnCourse(cfg, d, State(s.disk, Restart(cfg, d, s.disk, c)), final)
  {
    hide Settles, Shape, RecordIdentity, Apply, EmitAll;
    var base: State :| Tracks(cfg, d, base, s) && Settles(cfg, d, base, final) && Settles(cfg, d, s, final);
    var again := State(s.disk, Restart(cfg, d, s.disk, c));
    assert again.process == Process(s.disk.head.value, Observing, true);
    EmitNone(cfg, s.disk, [ReadState(s.disk.canonical)]);
    var observed := Step(cfg, d, again);
    assert observed.process.pc == Republishing;
    var move := Advance(cfg, d, base.disk.canonical, base.process);
    assert Advance(cfg, d, observed.disk.canonical, observed.process).events == move.events;
    EmitAllAlike(cfg, base.disk, observed.disk, move.events);
    assert Alike(Step(cfg, d, base), Step(cfg, d, observed));
    hide Step, Restart, LeaseHeld;
    SettlesForward(cfg, d, base, final);
    SettlesAlike(cfg, d, Step(cfg, d, base), Step(cfg, d, observed), final);
    SettlesBackward(cfg, d, observed, final);
    SettlesBackward(cfg, d, again, final);
    assert Tracks(cfg, d, base, again);
  }

  // ---------------------------------------------------------------- any number of cuts and restarts

  /**
    A restart that takes up what the execution was doing: at a boundary; at an application intent
    whose resumption yields what the call yields, or whose receipt was retained; at a publication
    intent from which nothing has moved.
   */
  predicate TakesUp(cfg: Config, d: Driver, disk: Disk, c: Checkpoint) {
    && disk.head.Some? && Shape(disk.head.value) && CheckpointFits(disk.head.value, c)
    && match disk.head.value.stage
       case BeforeIntent => false
       case AfterIntent => false
       case ApplicationIntent =>
         || (c.declared && c.subordinate == SubordinateContinues && d.resume == d.apply)
         || (c.ahead.Some? && c.ahead == d.apply)
       case PublicationIntent =>
         disk.canonical == cfg.expected && cfg.resulting(OrEmpty(disk.head.value.publicationRequest)) != cfg.expected
       case _ => Boundary(disk.head.value)
  }

  lemma RestartIsOnCourse(cfg: Config, d: Driver, s: State, final: Record, c: Checkpoint)
    requires Valid(cfg) && LeaseHeld(d) && OnCourse(cfg, d, s, final) && TakesUp(cfg, d, s.disk, c)
    ensures OnCourse(cfg, d, State(s.disk, Restart(cfg, d, s.disk, c)), final)
  {
    hide OnCourse, LeaseHeld, Shape, CheckpointFits, Restart;
    match s.disk.head.value.stage
    case ApplicationIntent =>
      if c.ahead.Some? && c.ahead == d.apply {
        AheadReceiptSettles(cfg, d, s, final, c);
      } else {
        ApplicationRestartSettles(cfg, d, s, final, c);
      }
    case PublicationIntent => PublicationRestartSettles(cfg, d, s, final, c);
    case _ => BoundaryRestartIsOnCourse(cfg, d, s, final, c);
  }

  /** One crash and the restart after it. */
  datatype Cut = Cut(actions: nat, checkpoint: Checkpoint)

  /** Every crash is followed by a restart that takes up what the execution was doing. */
  predicate TakenUp(cfg: Config, d: Driver, s: State, cuts: seq<Cut>)
    requires Valid(cfg)
    decreases |cuts|
  {
    cuts != [] ==>
      var end := Run(cfg, d, s, cuts[0].actions);
      && TakesUp(cfg, d, end.disk, cuts[0].checkpoint)
      && TakenUp(cfg, d, State(end.disk, Restart(cfg, d, end.disk, cuts[0].checkpoint)), cuts[1..])
  }

  function AfterCuts(cfg: Config, d: Driver, s: State, cuts: seq<Cut>): State
    requires Valid(cfg) && TakenUp(cfg, d, s, cuts)
    decreases |cuts|
  {
    if cuts == [] then s
    else
      var end := Run(cfg, d, s, cuts[0].actions);
      AfterCuts(cfg, d, State(end.disk, Restart(cfg, d, end.disk, cuts[0].checkpoint)), cuts[1..])
  }

  lemma {:induction false} CutsStayOnCourse(cfg: Config, d: Driver, s: State, final: Record, cuts: seq<Cut>)
    requires Valid(cfg) && LeaseHeld(d) && OnCourse(cfg, d, s, final) && TakenUp(cfg, d, s, cuts)
    ensures OnCourse(cfg, d, AfterCuts(cfg, d, s, cuts), final)
    decreases |cuts|
  {
    hide OnCourse, LeaseHeld, Run, Restart, Boundary, CheckpointFits;
    if cuts != [] {
      var end := Run(cfg, d, s, cuts[0].actions);
      CourseRuns(cfg, d, s, final, cuts[0].actions);
      RestartIsOnCourse(cfg, d, end, final, cuts[0].checkpoint);
      CutsStayOnCourse(cfg, d, State(end.disk, Restart(cfg, d, end.disk, cuts[0].checkpoint)), final, cuts[1..]);
    }
  }

  /**
    Any number of crashes, at boundaries, inside the application or before a publication has moved
    anything, the restarts themselves included: the last restart still ends at `final`.
   */
  lemma CrashRestartRefines(cfg: Config, d: Driver, disk: Disk, final: Record, n: nat, cuts: seq<Cut>)
    requires Valid(cfg) && LeaseHeld(d) && n > 0
    requires disk.head.None? || disk.head.value == Admission(cfg)
    requires Settles(cfg, d, State(disk, Fresh(cfg, disk)), final)
    requires TakenUp(cfg, d, Run(cfg, d, State(disk, Fresh(cfg, disk)), n), cuts)
    ensures Settles(cfg, d, AfterCuts(cfg, d, Run(cfg, d, State(disk, Fresh(cfg, disk)), n), cuts), final)
  {
    hide Settles, Run, Fresh, Tracks, TakenUp, LeaseHeld, AfterCuts;
    FreshIsOnCourse(cfg, d, disk, final, n);
    CutsStayOnCourse(cfg, d, Run(cfg, d, State(disk, Fresh(cfg, disk)), n), final, cuts);
  }

  // ---------------------------------------------------------------- a publication that has moved the state

  lemma ReconciledSeal(cfg: Config, r: Record, canonical: string) returns (final: Record)
    requires Valid(cfg) && ShapeValid(cfg.sha, r) && r.stage == PublicationIntent && Canonical(canonical)
    requires r.beforeTotal == cfg.beforeTotal && r.afterTotal == cfg.afterTotal
    ensures Apply(cfg.sha, r, SealTerminal(Completed, Some(canonical))) == Success(final) && Shape(final)
    ensures final.stage == Terminal
    ensures final.terminalOutcome == Some(Completed) && final.reconciledState == Some(canonical)
    ensures final.publication.None? && final.publicationRequest == r.publicationRequest
  {
    var t := SealTerminal(Completed, Some(canonical));
    PublicationIntentHasNone(r);
    GuardsSuffice(cfg.sha, r, t);
    hide Shape, RecordIdentity, SuccessorAccepts;
    final := Apply(cfg.sha, r, t).value;
  }

  lemma ObservedMoves(cfg: Config, d: Driver, disk: Disk, c: Checkpoint)
    requires Valid(cfg) && disk.head.Some? && Shape(disk.head.value) && disk.head.value.stage == PublicationIntent
    requires CheckpointFits(disk.head.value, c)
    requires disk.canonical == cfg.resulting(OrEmpty(disk.head.value.publicationRequest))
    ensures !State(disk, Restart(cfg, d, disk, c)).process.pc.Stopped?
    ensures Step(cfg, d, State(disk, Restart(cfg, d, disk, c)))
            == State(Emit(cfg, disk, ReadState(disk.canonical)),
                     Process(disk.head.value, Appending(SealTerminal(Completed, Some(disk.canonical))), true))
  {
    hide Shape, EmitAll;
    EmitOne(cfg, disk, ReadState(disk.canonical));
  }

  lemma SealMoves(cfg: Config, d: Driver, s: State, t: Transition, final: Record)
    requires Valid(cfg) && s.process.pc == Appending(t) && Apply(cfg.sha, s.process.journal, t) == Success(final)
    requires Shape(final) && final.stage == Terminal
    ensures Step(cfg, d, s).process.pc == Stopped(Sealed) && Step(cfg, d, s).disk.head == Some(final)
  {
    hide Shape, Apply, EmitAll;
    EmitOne(cfg, s.disk, Appended(final));
  }

  /** A cut after the publication but before its receipt ends completed, with the state it reads. */
  lemma ReconciledRestartSettles(cfg: Config, d: Driver, disk: Disk, c: Checkpoint) returns (final: Record)
    requires Valid(cfg) && disk.head.Some? && ShapeValid(cfg.sha, disk.head.value)
    requires disk.head.value.beforeTotal == cfg.beforeTotal && disk.head.value.afterTotal == cfg.afterTotal
    requires disk.head.value.stage == PublicationIntent && CheckpointFits(disk.head.value, c)
    requires disk.canonical == cfg.resulting(OrEmpty(disk.head.value.publicationRequest)) && Canonical(disk.canonical)
    ensures Settles(cfg, d, State(disk, Restart(cfg, d, disk, c)), final)
    ensures final.terminalOutcome == Some(Completed) && final.reconciledState == Some(disk.canonical)
    ensures final.publication.None? && final.publicationRequest == disk.head.value.publicationRequest
  {
    hide Shape, RecordIdentity, Apply, Settles, Step, Restart;
    final := ReconciledSeal(cfg, disk.head.value, disk.canonical);
    ObservedMoves(cfg, d, disk, c);
    var s := State(disk, Restart(cfg, d, disk, c));
    var observed := Step(cfg, d, s);
    SealMoves(cfg, d, observed, SealTerminal(Completed, Some(disk.canonical)), final);
    SettlesNow(cfg, d, Step(cfg, d, observed), final);
    SettlesBackward(cfg, d, observed, final);
    SettlesBackward(cfg, d, s, final);
  }

  lemma SettlesNow(cfg: Config, d: Driver, s: State, final: Record)
    requires Valid(cfg) && s.process.pc.Stopped? && s.disk.head == Some(final)
    ensures Settles(cfg, d, s, final)
  {
    assert SettlesIn(cfg, d, s, final, 0);
  }

  lemma PublicationIntentHasNone(r: Record)
    requires Shape(r) && r.stage == PublicationIntent
    ensures r.publication.None? && r.publicationRequest.Some?
  {}

  // ---------------------------------------------------------------- which driver a restart needs

  /** An event that only the continuation driver can cause. */
  predicate TouchesTarget(e: Event) {
    e.Executed? || e.AppliedApplication? || e.ResumedApplication?
  }

  predicate Untouched(before: seq<Event>, after: seq<Event>) {
    && |before| <= |after|
    && after[..|before|] == before
    && forall i :: |before| <= i < |after| ==> !TouchesTarget(after[i])
  }

  /** A process that can only settle or seal the attempt. */
  predicate OnlySettles(p: Process) {
    match p.pc
    case Stopped(_) => true
    case Observing | Republishing => p.reconciling
    case Keeping(t) => p.reconciling && t.CompletePublication?
    case Appending(t) => t.SealTerminal? || (p.reconciling && t.CompletePublication?)
    case _ => false
  }

  lemma SettlingStep(cfg: Config, d: Driver, s: State)
    requires Valid(cfg) && OnlySettles(s.process) && !s.process.pc.Stopped?
    ensures OnlySettles(Step(cfg, d, s).process)
    ensures Untouched(s.disk.log, Step(cfg, d, s).disk.log)
  {
    hide Shape, EmitAll, RecordIdentity, SuccessorAccepts;
    var move := Advance(cfg, d, s.disk.canonical, s.process);
    assert move.events == []
        || (|move.events| == 1 && !TouchesTarget(move.events[0]) && move.events == [move.events[0]]);
    if move.events == [] {
      EmitNothing(cfg, s.disk);
    } else {
      EmitOne(cfg, s.disk, move.events[0]);
    }
  }

  lemma EmitNothing(cfg: Config, disk: Disk)
    ensures EmitAll(cfg, disk, []) == disk
  {}

  lemma {:induction false} SettlingRun(cfg: Config, d: Driver, s: State, n: nat)
    requires Valid(cfg) && OnlySettles(s.process)
    ensures Untouched(s.disk.log, Run(cfg, d, s, n).disk.log)
    decreases n
  {
    hide Step;
    if n > 0 && !s.process.pc.Stopped? {
      SettlingStep(cfg, d, s);
      SettlingRun(cfg, d, Step(cfg, d, s), n - 1);
    }
  }

  /**
    The predicate by which a caller decides whether to supply a continuation driver never
    says no to a restart that would execute a lifecycle step or touch the application.
   */
  lemma UnneededDriverIsUnused(cfg: Config, d: Driver, disk: Disk, c: Checkpoint, n: nat)
    requires Valid(cfg) && disk.head.Some? && Shape(disk.head.value)
    requires !NeedsContinuation(disk.head.value, c)
    ensures Untouched(disk.log, Run(cfg, d, State(disk, Restart(cfg, d, disk, c)), n).disk.log)
  {
    hide Shape, Run;
    assert OnlySettles(Restart(cfg, d, disk, c));
    SettlingRun(cfg, d, State(disk, Restart(cfg, d, disk, c)), n);
  }

  /** And with the lease held it says no only then: otherwise the restart goes on to new effects. */
  lemma DriverIsNeededIff(cfg: Config, d: Driver, disk: Disk, c: Checkpoint)
    requires Valid(cfg) && disk.head.Some? && Shape(disk.head.value) && CheckpointFits(disk.head.value, c)
    requires LeaseHeld(d) && c.subordinate == SubordinateContinues
    ensures NeedsContinuation(disk.head.value, c) <==> !OnlySettles(Restart(cfg, d, disk, c))
  {
    hide Shape;
  }
}
